/**
 Whole journeys of a message: through the dispatcher, out to a router or the billing
 worker, back to the dispatcher, and so on, with what every journey keeps.
 */
module Journeys {
  import opened Wrappers
  import opened Connectors
  import opened RoutingTables
  import opened Reachability
  import opened Messages
  import opened Passes
  import opened Workers

  /** What a pass depends on besides the message; `verdict` is what the opt-out helper says of an undecided message. */
  datatype World = World(cfg: Config, table: Nested, account: string, replyTag: Option<(string, string)>, verdict: bool)

  /** How a worker hands a message back; a router picks the endpoint it sends the message out of. */
  datatype Handoff = FromRouter(endpoint: string) | FromBilling(charge: Charge)

  /** A handoff, and the routing table as the next pass finds it: the account may have replaced it by then. */
  datatype Leg = Leg(handoff: Handoff, table: Nested)

  function Process(w: World, d: Direction, m: Msg, k: Kind): Outcome {
    match d
    case Inbound => ProcessInbound(w.cfg, w.table, w.account, w.verdict, m, k)
    case Outbound => ProcessOutbound(w.cfg, w.table, w.account, m, k, w.replyTag)
  }

  /** The message once the dispatcher has put its account, and inbound the verdict on opting out, on it. */
  function Owned(w: World, d: Direction, m: Msg): Msg {
    match d
    case Inbound => Claimed(m, w.account, w.verdict)
    case Outbound => m.(account := Some(w.account))
  }

  /** Where a message has been sent to. */
  function At(m: Msg): Option<Stop> {
    if m.hops == [] then None else m.hops[|m.hops| - 1].destination
  }

  /** The message and the kind of connector it comes back on, if the worker it was sent to makes this handoff. */
  function HandedBack(d: Direction, m: Msg, h: Handoff): Option<(Msg, Kind)> {
    if At(m).None? then None
    else match h
      case FromRouter(e) =>
        if At(m).value.conn.Router? then Some((m.(endpoint := e), RouterKind)) else None
      case FromBilling(charge) =>
        if At(m).value.conn.Billing? && Billed(m, charge, d).Some?
        then Some((Billed(m, charge, d).value, BillingKind)) else None
  }

  function Resume(w: World, d: Direction, m: Msg, leg: Leg): Option<Outcome> {
    match HandedBack(d, m, leg.handoff)
    case None => None
    case Some((back, k)) => Some(Process(w.(table := leg.table), d, back, k))
  }

  /**
   How a message fares that enters the dispatcher on a connector of kind `k` and is then handed back
   as the legs say, meeting their tables; None if some worker would never make its handoff.
   */
  function Journey(w: World, d: Direction, m: Msg, k: Kind, legs: seq<Leg>): Option<Outcome> {
    if legs == [] then Some(Process(w, d, m, k))
    else match Journey(w, d, m, k, legs[..|legs| - 1])
      case Some(Published(sent, _, _)) => Resume(w, d, sent, legs[|legs| - 1])
      case _ => None
  }

  /** The table that the last pass of a journey meets. */
  function LastTable(w: World, legs: seq<Leg>): Nested {
    if legs == [] then w.table else legs[|legs| - 1].table
  }

  // ---------- One pass ----------

  /** The message's metadata names the connector. */
  predicate Holds(m: Msg, c: Connector) {
    match c
    case Conversation(t, k) => m.conversation == Some((t, k))
    case Router(t, k, _) => m.router == Some((t, k))
    case TransportTag(p, n) => m.tag == Some((p, n))
    case OptOut => true
    case Billing(_) => true
  }

  /** A message comes from the connector of its kind that faces it and that its metadata names, if there is one. */
  lemma SourceIsHeld(m: Msg, k: Kind, d: Direction, src: Connector)
    ensures SourceConnector(m, k, d) == Success(src) <==>
            KindOf(src) == k && DirectionOf(src) == Opposite(d) && Holds(m, src)
  {
  }

  /** The entry the routing table has for a message that came from `src`. */
  predicate Routed(w: World, src: Connector, m: Msg, target: Stop) {
    Lookup(w.table, src, m.endpoint) == Some(target)
  }

  /** Why a message is sent to `target` on its way from `src`. */
  predicate Destined(w: World, d: Direction, m: Msg, k: Kind, src: Connector, target: Stop) {
    match d
    case Inbound =>
      if w.cfg.BillsInbound() && k == TagKind then target == Stop(Billing(Inbound), DEFAULT)
      else if Owned(w, d, m).OptsOut() then target == Stop(OptOut, DEFAULT)
      else if w.cfg.BillsInbound() && k == BillingKind then
        m.tag.Some? && Routed(w, TransportTag(m.tag.value.0, m.tag.value.1), m, target)
      else Routed(w, src, m, target)
    case Outbound =>
      if k == OptOutKind then
        && w.replyTag.Some?
        && target == if w.cfg.BillsOutbound() then Stop(Billing(Outbound), DEFAULT)
                     else Stop(TransportTag(w.replyTag.value.0, w.replyTag.value.1), DEFAULT)
      else if w.cfg.BillsOutbound() && k == BillingKind then
        m.tag.Some? && target == Stop(TransportTag(m.tag.value.0, m.tag.value.1), DEFAULT)
      else
        var t := Lookup(w.table, src, m.endpoint);
        t.Some? && target == if w.cfg.BillsOutbound() && t.value.conn.TransportTag?
                             then Stop(Billing(Outbound), DEFAULT) else t.value
  }

  /** What publishing changes: the pending hop is completed and the destination's metadata is set. */
  predicate Gained(before: seq<Hop>, from: Stop, m: Msg, target: Stop, sent: Msg) {
    && sent.hops == before + [Hop(from, Some(target))]
    && sent.endpoint == target.endpoint
    && sent.optOut == m.optOut
    && sent.account == m.account
    && Holds(sent, target.conn)
    && (if target.conn.TransportTag? then sent.tag == Some((target.conn.tagpool, target.conn.tagname))
        else sent.tag == m.tag)
  }

  lemma DeliverGains(cfg: Config, m: Msg, before: seq<Hop>, from: Stop, target: Stop, d: Direction)
    requires m.hops == before + [Hop(from, None)]
    requires Deliver(cfg, m, target, d).Published?
    ensures MayGoTo(d, KindOf(target.conn))
    ensures Gained(before, from, m, target, Deliver(cfg, m, target, d).m)
  {
    assert m.hops[|m.hops| - 1 := Hop(from, Some(target))] == before + [Hop(from, Some(target))];
  }

  /** The tag a message has after a pass: billing takes down the transport the message is bound for. */
  function TagAfter(w: World, d: Direction, m: Msg, k: Kind, src: Connector, target: Stop): Option<(string, string)> {
    if target.conn.TransportTag? then Some((target.conn.tagpool, target.conn.tagname))
    else if d == Outbound && w.cfg.BillsOutbound() && k == OptOutKind then w.replyTag
    else if d == Outbound && w.cfg.BillsOutbound() && k != BillingKind then
      match Lookup(w.table, src, m.endpoint)
      case Some(Stop(TransportTag(p, n), _)) => Some((p, n))
      case _ => m.tag
    else m.tag
  }

  /** A pass that publishes adds one hop, from the acquired source to where the message was destined. */
  predicate HopAdded(w: World, d: Direction, m: Msg, k: Kind, src: Connector, target: Stop, sent: Msg) {
    && sent.hops == m.hops + [Hop(Stop(src, m.endpoint), Some(target))]
    && sent.endpoint == target.endpoint
    && Destined(w, d, m, k, src, target)
    && MayGoTo(d, KindOf(target.conn))
    && sent.tag == TagAfter(w, d, m, k, src, target)
    && sent.optOut == Owned(w, d, m).optOut
    && sent.account == Some(w.account)
    && Holds(sent, target.conn)
  }

  lemma PassAddsHop(w: World, d: Direction, m: Msg, k: Kind)
    requires Process(w, d, m, k).Published?
    ensures SourceConnector(m, k, d).Success? && !m.HopPending()
    ensures var sent := Process(w, d, m, k).m;
            At(sent).Some? && HopAdded(w, d, m, k, SourceConnector(m, k, d).value, At(sent).value, sent)
  {
    match d
    case Inbound => InboundPassAddsHop(w, m, k);
    case Outbound => OutboundPassAddsHop(w, m, k);
  }

  lemma InboundPassAddsHop(w: World, m: Msg, k: Kind)
    requires Process(w, Inbound, m, k).Published?
    ensures SourceConnector(m, k, Inbound).Success? && !m.HopPending()
    ensures var sent := Process(w, Inbound, m, k).m;
            At(sent).Some? && HopAdded(w, Inbound, m, k, SourceConnector(m, k, Inbound).value, At(sent).value, sent)
  {
    var owned := Owned(w, Inbound, m);
    assert SourceConnector(owned, k, Inbound) == SourceConnector(m, k, Inbound);
    var from := Stop(SourceConnector(m, k, Inbound).value, m.endpoint);
    var acquired := AcquireSource(owned, k, Inbound).value;
    assert acquired.hops == m.hops + [Hop(from, None)];
    SendInboundGains(w, acquired, m.hops, from, k);
    AcquiredAlike(w, Inbound, m, k, from.conn, At(Process(w, Inbound, m, k).m).value, acquired);
  }

  lemma OutboundPassAddsHop(w: World, m: Msg, k: Kind)
    requires Process(w, Outbound, m, k).Published?
    ensures SourceConnector(m, k, Outbound).Success? && !m.HopPending()
    ensures var sent := Process(w, Outbound, m, k).m;
            At(sent).Some? && HopAdded(w, Outbound, m, k, SourceConnector(m, k, Outbound).value, At(sent).value, sent)
  {
    var owned := Owned(w, Outbound, m);
    assert SourceConnector(owned, k, Outbound) == SourceConnector(m, k, Outbound);
    var from := Stop(SourceConnector(m, k, Outbound).value, m.endpoint);
    var acquired := AcquireSource(owned, k, Outbound).value;
    assert acquired.hops == m.hops + [Hop(from, None)];
    SendOutboundGains(w, acquired, m.hops, from, k);
    AcquiredAlike(w, Outbound, m, k, from.conn, At(Process(w, Outbound, m, k).m).value, acquired);
  }

  /** Pushing the source does not change where a message is destined for. */
  lemma AcquiredAlike(w: World, d: Direction, m: Msg, k: Kind, src: Connector, target: Stop, acquired: Msg)
    requires acquired == Owned(w, d, m).(hops := acquired.hops)
    ensures Destined(w, d, acquired, k, src, target) <==> Destined(w, d, m, k, src, target)
    ensures TagAfter(w, d, acquired, k, src, target) == TagAfter(w, d, m, k, src, target)
    ensures acquired.optOut == Owned(w, d, m).optOut && acquired.account == Some(w.account)
  {
  }

  /** What is sent inbound has been given a destination, for a reason. */
  predicate InboundGained(w: World, m: Msg, before: seq<Hop>, from: Stop, k: Kind, sent: Msg) {
    && At(sent).Some?
    && var target := At(sent).value;
       && Gained(before, from, m, target, sent)
       && Destined(w, Inbound, m, k, from.conn, target)
       && MayGoTo(Inbound, KindOf(target.conn))
  }

  lemma DeliverInboundGains(w: World, m: Msg, before: seq<Hop>, from: Stop, k: Kind, target: Stop)
    requires m.hops == before + [Hop(from, None)]
    requires Destined(w, Inbound, m, k, from.conn, target) && Deliver(w.cfg, m, target, Inbound).Published?
    ensures InboundGained(w, m, before, from, k, Deliver(w.cfg, m, target, Inbound).m)
  {
    DeliverGains(w.cfg, m, before, from, target, Inbound);
  }

  lemma SendInboundGains(w: World, m: Msg, before: seq<Hop>, from: Stop, k: Kind)
    requires m.hops == before + [Hop(from, None)] && m.endpoint == from.endpoint && m.optOut.Some?
    requires SendInbound(w.cfg, w.table, m, k, from.conn).Published?
    ensures InboundGained(w, m, before, from, k, SendInbound(w.cfg, w.table, m, k, from.conn).m)
  {
    if w.cfg.BillsInbound() && k == TagKind {
      DeliverInboundGains(w, m, before, from, k, Stop(Billing(Inbound), DEFAULT));
    } else if m.OptsOut() {
      DeliverInboundGains(w, m, before, from, k, Stop(OptOut, DEFAULT));
    } else if w.cfg.BillsInbound() && k == BillingKind {
      DeliverInboundGains(w, m, before, from, k, Lookup(w.table, TransportTag(m.tag.value.0, m.tag.value.1), m.endpoint).value);
    } else {
      DeliverInboundGains(w, m, before, from, k, Lookup(w.table, from.conn, m.endpoint).value);
    }
  }

  /** What is sent outbound has been given a destination, for a reason. */
  predicate OutboundGained(w: World, m: Msg, before: seq<Hop>, from: Stop, k: Kind, sent: Msg) {
    && At(sent).Some?
    && var target := At(sent).value;
       && Gained(before, from, m.(tag := TagAfter(w, Outbound, m, k, from.conn, target)), target, sent)
       && Destined(w, Outbound, m, k, from.conn, target)
       && MayGoTo(Outbound, KindOf(target.conn))
  }

  lemma SendOutboundGains(w: World, m: Msg, before: seq<Hop>, from: Stop, k: Kind)
    requires m.hops == before + [Hop(from, None)] && m.endpoint == from.endpoint
    requires SendOutbound(w.cfg, w.table, m, k, from.conn, w.replyTag).Published?
    ensures OutboundGained(w, m, before, from, k, SendOutbound(w.cfg, w.table, m, k, from.conn, w.replyTag).m)
  {
    if k == OptOutKind {
      SendReplyGains(w, m, before, from);
    } else if w.cfg.BillsOutbound() && k == BillingKind {
      DeliverGains(w.cfg, m, before, from, Stop(TransportTag(m.tag.value.0, m.tag.value.1), DEFAULT), Outbound);
    } else {
      SendRoutedGains(w, m, before, from, k);
    }
  }

  lemma SendReplyGains(w: World, m: Msg, before: seq<Hop>, from: Stop)
    requires m.hops == before + [Hop(from, None)] && m.endpoint == from.endpoint
    requires SendOutbound(w.cfg, w.table, m, OptOutKind, from.conn, w.replyTag).Published?
    ensures OutboundGained(w, m, before, from, OptOutKind, SendOutbound(w.cfg, w.table, m, OptOutKind, from.conn, w.replyTag).m)
  {
    var tag := w.replyTag.value;
    if w.cfg.BillsOutbound() {
      DeliverGains(w.cfg, m.(tag := Some(tag)), before, from, Stop(Billing(Outbound), DEFAULT), Outbound);
    } else {
      DeliverGains(w.cfg, m, before, from, Stop(TransportTag(tag.0, tag.1), DEFAULT), Outbound);
    }
  }

  lemma SendRoutedGains(w: World, m: Msg, before: seq<Hop>, from: Stop, k: Kind)
    requires m.hops == before + [Hop(from, None)] && m.endpoint == from.endpoint
    requires k != OptOutKind && !(w.cfg.BillsOutbound() && k == BillingKind)
    requires SendOutbound(w.cfg, w.table, m, k, from.conn, w.replyTag).Published?
    ensures OutboundGained(w, m, before, from, k, SendOutbound(w.cfg, w.table, m, k, from.conn, w.replyTag).m)
  {
    var unpaid := if w.cfg.BillsOutbound() && k != TagKind then m.(paid := false) else m;
    var t := Lookup(w.table, from.conn, m.endpoint).value;
    if w.cfg.BillsOutbound() && t.conn.TransportTag? {
      DeliverGains(w.cfg, unpaid.(tag := Some((t.conn.tagpool, t.conn.tagname))), before, from, Stop(Billing(Outbound), DEFAULT),
                   Outbound);
    } else {
      DeliverGains(w.cfg, unpaid, before, from, t, Outbound);
    }
  }

  // ---------- What every journey keeps ----------

  /** From where a message was sent, the place it comes back from: the other side of the same worker. */
  predicate Across(d: Direction, sentTo: Stop, backFrom: Stop) {
    match sentTo.conn
    case Router(_, _, _) => backFrom.conn == OtherSide(sentTo.conn)
    case Billing(_) => backFrom == Stop(Billing(Opposite(d)), DEFAULT)
    case _ => false
  }

  /** A completed hop in the message's direction, that starts across from where the last one ended. */
  predicate GoodHop(d: Direction, hops: seq<Hop>, i: nat)
    requires i < |hops|
  {
    && hops[i].destination.Some?
    && DirectionOf(hops[i].source.conn) == Opposite(d)
    && DirectionOf(hops[i].destination.value.conn) == d
    && (hops[i].destination.value.conn.Billing? ==> hops[i].destination.value == Stop(Billing(d), DEFAULT))
    && (i > 0 ==> hops[i - 1].destination.Some? && Across(d, hops[i - 1].destination.value, hops[i].source))
  }

  ghost predicate WellRouted(d: Direction, hops: seq<Hop>) {
    forall i :: 0 <= i < |hops| ==> GoodHop(d, hops, i)
  }

  /** The message carries the metadata that the place it was sent to needs to send it back. */
  predicate Carries(m: Msg) {
    At(m).Some? && Holds(m, At(m).value.conn) && (At(m).value.conn.Billing? ==> m.tag.Some?)
  }

  /** No entry of the table leads to billing: only the dispatcher itself sends messages there. */
  ghost predicate Unbilled(n: Nested) {
    forall p :: p in Flatten(n) ==> !Flatten(n)[p].conn.Billing?
  }

  /** Valid, and with no entry that leads to billing. */
  ghost predicate Routable(n: Nested) {
    WellFormed(n) && Unbilled(n)
  }

  /** Every table that the journey meets is routable. */
  ghost predicate AllRoutable(w: World, legs: seq<Leg>) {
    Routable(w.table) && forall leg :: leg in legs ==> Routable(leg.table)
  }

  /** What a message starts its journey with; billing also passes on replies that come to it without hops. */
  predicate Starts(d: Direction, m: Msg, k: Kind) {
    && m.hops == []
    && SourceConnector(m, k, d).Success?
    && (k == BillingKind ==> m.tag.Some?)
  }

  /** A message that a pass may find in front of it: fresh, or just handed back. */
  ghost predicate Ready(d: Direction, m: Msg, k: Kind) {
    && WellRouted(d, m.hops)
    && SourceConnector(m, k, d).Success?
    && (k == BillingKind ==> m.tag.Some?)
    && (m.hops != [] ==> At(m).Some? && Across(d, At(m).value, Stop(SourceConnector(m, k, d).value, m.endpoint)))
  }

  ghost predicate OnItsWay(d: Direction, m: Msg) {
    m.hops != [] && WellRouted(d, m.hops) && Carries(m)
  }

  /**
   The only ways a pass can fail: nothing in the table, no message to reply to, or no usable transport to
   leave by. None of them is a wrong type of connector, a half hop or missing metadata.
   */
  predicate JustRefusal(w: World, d: Direction, k: Kind, failed: Msg, e: RoutingError) {
    || (NoEntry(w, d, failed) && e == NoTarget)
    || (d == Outbound && k == OptOutKind && w.replyTag.None? && e == Unroutable)
    || (d == Outbound && failed.tag.Some? && e == TransportError(w.cfg, failed.tag.value.0) && NoTransport(w.cfg, failed.tag.value.0))
  }

  /** The table has no entry for the message where it stands; billing stands in for the transport the message came from. */
  predicate NoEntry(w: World, d: Direction, failed: Msg) {
    failed.HopPending() &&
    var from := failed.hops[|failed.hops| - 1].source;
    if d == Inbound && w.cfg.BillsInbound() && from.conn.Billing? then
      failed.tag.Some? && Lookup(w.table, TransportTag(failed.tag.value.0, failed.tag.value.1), from.endpoint).None?
    else Lookup(w.table, from.conn, from.endpoint).None?
  }

  /** A pool may have no transport, one that is no connector at all, or one that is not a transport. */
  function TransportError(cfg: Config, tagpool: string): RoutingError {
    if tagpool in cfg.tagpoolTransports && cfg.Kinds(cfg.tagpoolTransports[tagpool]).Failure? then InvalidConnector else Unroutable
  }

  /** A message is published on the connector that the configuration names for where it was sent. */
  predicate Connected(w: World, d: Direction, sent: Msg, connector: Option<string>) {
    At(sent).Some? && NamedFor(w.cfg, d, At(sent).value.conn, connector)
  }

  /**
   The connector that the configuration names for a destination: its conversation's application, its router's
   connector on the side that the message comes to, its tag pool's transport; none for types it does not know.
   */
  predicate NamedFor(cfg: Config, d: Direction, target: Connector, connector: Option<string>) {
    match target
    case Conversation(t, _) => connector == if t in cfg.applications then Some(cfg.applications[t]) else None
    case Router(t, _, _) =>
      var names := if d == Outbound then cfg.routersInbound else cfg.routersOutbound;
      connector == if t in names then Some(names[t]) else None
    case TransportTag(p, _) =>
      p in cfg.tagpoolTransports && connector == Some(cfg.tagpoolTransports[p]) && cfg.Kinds(connector.value) == Success(TagKind)
    case OptOut => connector == Some(cfg.optOutConnector)
    case Billing(_) => connector == if d == Inbound then cfg.billingInbound else cfg.billingOutbound
  }

  predicate NoTransport(cfg: Config, tagpool: string) {
    tagpool in cfg.tagpoolTransports ==> cfg.Kinds(cfg.tagpoolTransports[tagpool]) != Success(TagKind)
  }

  lemma RoutedFacesAway(w: World, src: Connector, endpoint: string)
    requires Routable(w.table)
    ensures match Lookup(w.table, src, endpoint)
            case Some(t) => DirectionOf(t.conn) == Opposite(DirectionOf(src)) && !t.conn.Billing?
            case None => true
  {
    if Lookup(w.table, src, endpoint).Some? {
      assert (src, endpoint) in Flatten(w.table);
    }
  }

  /** A connector faces the way a message travels exactly when it is of a kind, and on a side, that may receive it. */
  lemma AllowedIsDirection(d: Direction, c: Connector)
    ensures DirectionOf(c) == d <==>
            MayGoTo(d, KindOf(c)) && (c.Router? ==> c.routerDirection == d) && (c.Billing? ==> c.billingDirection == d)
  {
  }

  lemma DeliverFails(cfg: Config, m: Msg, target: Stop, d: Direction)
    requires m.HopPending() && DirectionOf(target.conn) == d
    ensures match Deliver(cfg, m, target, d)
            case Published(sent, connector, _) => At(sent) == Some(target) && NamedFor(cfg, d, target.conn, connector)
            case Finished(_) => false
            case Failed(failed, e) =>
              && d == Outbound && target.conn.TransportTag? && NoTransport(cfg, target.conn.tagpool)
              && failed.tag == Some((target.conn.tagpool, target.conn.tagname))
              && e == TransportError(cfg, target.conn.tagpool)
  {
    AllowedIsDirection(d, target.conn);
  }

  lemma PassRefusesJustly(w: World, d: Direction, m: Msg, k: Kind)
    requires Routable(w.table)
    requires SourceConnector(m, k, d).Success? && !m.HopPending()
    requires k == BillingKind ==> m.tag.Some?
    ensures match Process(w, d, m, k)
            case Published(sent, connector, _) => Connected(w, d, sent, connector)
            case Finished(_) => false
            case Failed(failed, e) => JustRefusal(w, d, k, failed, e)
  {
    var src := SourceConnector(m, k, d).value;
    var owned := Owned(w, d, m);
    assert SourceConnector(owned, k, d) == Success(src);
    RoutedFacesAway(w, src, m.endpoint);
    match d
    case Inbound =>
      if m.tag.Some? {
        RoutedFacesAway(w, TransportTag(m.tag.value.0, m.tag.value.1), m.endpoint);
      }
      SendInboundFails(w, AcquireSource(owned, k, d).value, k, src);
    case Outbound =>
      SendOutboundFails(w, AcquireSource(owned, k, d).value, k, src);
  }

  /** The source has been pushed, and not yet the destination. */
  predicate Acquiring(m: Msg, k: Kind, src: Connector) {
    KindOf(src) == k && m.HopPending() && m.hops[|m.hops| - 1].source == Stop(src, m.endpoint)
  }

  lemma DeliverInboundFails(w: World, m: Msg, target: Stop)
    requires m.HopPending() && DirectionOf(target.conn) == Inbound
    ensures match Deliver(w.cfg, m, target, Inbound)
            case Published(sent, connector, _) => Connected(w, Inbound, sent, connector)
            case Finished(_) => false
            case Failed(_, _) => false
  {
    DeliverFails(w.cfg, m, target, Inbound);
  }

  lemma SendInboundFails(w: World, m: Msg, k: Kind, src: Connector)
    requires Routable(w.table)
    requires Acquiring(m, k, src) && DirectionOf(src) == Outbound
    requires k == BillingKind ==> m.tag.Some?
    ensures match SendInbound(w.cfg, w.table, m, k, src)
            case Published(sent, connector, _) => Connected(w, Inbound, sent, connector)
            case Finished(_) => false
            case Failed(failed, e) => e == NoTarget && NoEntry(w, Inbound, failed)
  {
    if w.cfg.BillsInbound() && k == TagKind {
      DeliverInboundFails(w, m, Stop(Billing(Inbound), DEFAULT));
    } else if m.OptsOut() {
      DeliverInboundFails(w, m, Stop(OptOut, DEFAULT));
    } else {
      var from := if w.cfg.BillsInbound() && k == BillingKind then TransportTag(m.tag.value.0, m.tag.value.1) else src;
      RoutedFacesAway(w, from, m.endpoint);
      if Lookup(w.table, from, m.endpoint).Some? {
        DeliverInboundFails(w, m, Lookup(w.table, from, m.endpoint).value);
      }
    }
  }

  lemma SendOutboundFails(w: World, m: Msg, k: Kind, src: Connector)
    requires Routable(w.table)
    requires Acquiring(m, k, src) && DirectionOf(src) == Inbound
    requires k == BillingKind ==> m.tag.Some?
    ensures match SendOutbound(w.cfg, w.table, m, k, src, w.replyTag)
            case Published(sent, connector, _) => Connected(w, Outbound, sent, connector)
            case Finished(_) => false
            case Failed(failed, e) => JustRefusal(w, Outbound, k, failed, e)
  {
    var toBilling := Stop(Billing(Outbound), DEFAULT);
    if k == OptOutKind {
      if w.replyTag.Some? {
        var tag := w.replyTag.value;
        DeliverFails(w.cfg, m.(tag := Some(tag)), toBilling, Outbound);
        DeliverFails(w.cfg, m, Stop(TransportTag(tag.0, tag.1), DEFAULT), Outbound);
      }
    } else if w.cfg.BillsOutbound() && k == BillingKind {
      DeliverFails(w.cfg, m, Stop(TransportTag(m.tag.value.0, m.tag.value.1), DEFAULT), Outbound);
    } else {
      RouteOutboundFails(w, if w.cfg.BillsOutbound() && k != TagKind then m.(paid := false) else m, k, src);
    }
  }

  lemma RouteOutboundFails(w: World, m: Msg, k: Kind, src: Connector)
    requires Routable(w.table)
    requires Acquiring(m, k, src) && DirectionOf(src) == Inbound
    ensures match RouteOutbound(w.cfg, w.table, m, src)
            case Published(sent, connector, _) => Connected(w, Outbound, sent, connector)
            case Finished(_) => false
            case Failed(failed, e) => JustRefusal(w, Outbound, k, failed, e)
  {
    RoutedFacesAway(w, src, m.endpoint);
    match Lookup(w.table, src, m.endpoint) {
      case None =>
      case Some(t) =>
        if w.cfg.BillsOutbound() && t.conn.TransportTag? {
          var tagged := m.(tag := Some((t.conn.tagpool, t.conn.tagname)));
          DeliverFails(w.cfg, tagged, Stop(Billing(Outbound), DEFAULT), Outbound);
        } else {
          DeliverFails(w.cfg, m, t, Outbound);
        }
    }
  }

  lemma AppendGoodHop(d: Direction, hops: seq<Hop>, hop: Hop)
    requires WellRouted(d, hops)
    requires GoodHop(d, hops + [hop], |hops|)
    ensures WellRouted(d, hops + [hop])
  {
    forall i | 0 <= i < |hops| + 1 ensures GoodHop(d, hops + [hop], i) {
      assert i < |hops| ==> GoodHop(d, hops, i);
    }
  }

  /** Where a pass sends a message faces the way the message travels. */
  lemma DestinedFacesForward(w: World, d: Direction, m: Msg, k: Kind, src: Connector, target: Stop)
    requires Routable(w.table)
    requires SourceConnector(m, k, d) == Success(src)
    requires Destined(w, d, m, k, src, target)
    ensures DirectionOf(src) == Opposite(d) && DirectionOf(target.conn) == d
    ensures target.conn.Billing? ==> target == Stop(Billing(d), DEFAULT)
  {
    RoutedFacesAway(w, src, m.endpoint);
    if m.tag.Some? {
      RoutedFacesAway(w, TransportTag(m.tag.value.0, m.tag.value.1), m.endpoint);
    }
  }

  /** A pass ends with a well formed path of so many hops, or with a just refusal. */
  ghost predicate PathKept(w: World, d: Direction, k: Kind, out: Outcome, hops: nat) {
    match out
    case Published(sent, connector, _) => OnItsWay(d, sent) && |sent.hops| == hops && Connected(w, d, sent, connector)
    case Finished(_) => false
    case Failed(failed, e) =>
      JustRefusal(w, d, k, failed, e) && e !in {WrongType, DoubleSource, MissingSource, MissingMetadata}
  }

  /** One pass: the path stays well formed, and the only failures are the just refusals. */
  lemma PassKeepsPath(w: World, d: Direction, m: Msg, k: Kind)
    requires Routable(w.table)
    requires Ready(d, m, k)
    ensures PathKept(w, d, k, Process(w, d, m, k), |m.hops| + 1)
  {
    if m.hops != [] {
      assert GoodHop(d, m.hops, |m.hops| - 1);
    }
    PassRefusesJustly(w, d, m, k);
    if Process(w, d, m, k).Published? {
      PassAddsHop(w, d, m, k);
      AddedHopKeepsPath(w, d, m, k, SourceConnector(m, k, d).value, Process(w, d, m, k).m);
    }
  }

  lemma AddedHopKeepsPath(w: World, d: Direction, m: Msg, k: Kind, src: Connector, sent: Msg)
    requires Routable(w.table) && Ready(d, m, k) && SourceConnector(m, k, d) == Success(src)
    requires At(sent).Some? && HopAdded(w, d, m, k, src, At(sent).value, sent)
    ensures OnItsWay(d, sent) && |sent.hops| == |m.hops| + 1
  {
    var target := At(sent).value;
    DestinedFacesForward(w, d, m, k, src, target);
    var hop := Hop(Stop(src, m.endpoint), Some(target));
    assert (m.hops + [hop])[..|m.hops|] == m.hops;
    assert GoodHop(d, m.hops + [hop], |m.hops|);
    AppendGoodHop(d, m.hops, hop);
    AddedHopCarries(w, d, m, k, src, sent);
  }

  lemma AddedHopCarries(w: World, d: Direction, m: Msg, k: Kind, src: Connector, sent: Msg)
    requires Routable(w.table) && SourceConnector(m, k, d) == Success(src) && (k == BillingKind ==> m.tag.Some?)
    requires At(sent).Some? && HopAdded(w, d, m, k, src, At(sent).value, sent)
    ensures Carries(sent)
  {
    RoutedFacesAway(w, src, m.endpoint);
  }

  lemma HandoffIsReady(d: Direction, m: Msg, h: Handoff)
    requires OnItsWay(d, m) && HandedBack(d, m, h).Some?
    ensures var (back, k) := HandedBack(d, m, h).value; Ready(d, back, k) && back.hops == m.hops && back.tag == m.tag
  {
    assert GoodHop(d, m.hops, |m.hops| - 1);
  }

  lemma LegKeepsPath(w: World, d: Direction, sent: Msg, leg: Leg)
    requires Routable(leg.table) && OnItsWay(d, sent)
    ensures var out := Resume(w, d, sent, leg);
            out.Some? ==> PathKept(w.(table := leg.table), d, RouterKind, out.value, |sent.hops| + 1)
  {
    if HandedBack(d, sent, leg.handoff).Some? {
      HandoffIsReady(d, sent, leg.handoff);
      var (back, k) := HandedBack(d, sent, leg.handoff).value;
      PassKeepsPath(w.(table := leg.table), d, back, k);
    }
  }

  /**
   Every journey, through whatever valid tables it meets: each hop starts across the worker the last one
   ended at, every destination faces the message's direction, and no pass ever fails because of the
   type of a connector, a missing half hop or missing metadata.
   */
  lemma {:induction false} JourneyKeepsPath(w: World, d: Direction, m: Msg, k: Kind, legs: seq<Leg>)
    requires AllRoutable(w, legs) && Starts(d, m, k)
    ensures var out := Journey(w, d, m, k, legs);
            out.Some? ==> PathKept(w.(table := LastTable(w, legs)), d, if legs == [] then k else RouterKind, out.value, |legs| + 1)
  {
    if legs == [] {
      PassKeepsPath(w, d, m, k);
    } else {
      var (before, leg) := (legs[..|legs| - 1], legs[|legs| - 1]);
      JourneyKeepsPath(w, d, m, k, before);
      var reached := Journey(w, d, m, k, before);
      if reached.Some? && reached.value.Published? {
        LegKeepsPath(w, d, reached.value.m, leg);
      }
    }
  }

  // ---------- Every destination is reachable ----------

  predicate Bills(cfg: Config, d: Direction) {
    if d == Inbound then cfg.BillsInbound() else cfg.BillsOutbound()
  }

  /** All links of a table are links of `n` too. */
  ghost predicate Covers(n: Nested, table: Nested) {
    forall a, b :: Links(table, a, b) ==> Links(n, a, b)
  }

  /** Whether billing, holding a message with this tag, can only send it somewhere expected. */
  ghost predicate BillingReachable(n: Nested, w: World, d: Direction, first: Connector, tag: Option<(string, string)>) {
    && Bills(w.cfg, d)
    && tag.Some?
    && var transport := TransportTag(tag.value.0, tag.value.1);
       || first == transport
       || (d == Outbound && (Reaches(n, first, transport) || (first == OptOut && tag == w.replyTag)))
  }

  /**
   Where a message may be sent: whatever is reachable from its first connector, the billing worker, inbound
   opt-out traffic to the opt-out worker, that worker's replies to the transport of the message replied to, and
   what first came from billing to the transport it is for.
   */
  ghost predicate Expected(n: Nested, w: World, d: Direction, first: Connector, optsOut: bool, to: Connector) {
    || to.Billing?
    || Reaches(n, first, to)
    || (d == Inbound && optsOut && to == OptOut)
    || (d == Outbound && first.TransportTag? && to == first)
    || (d == Outbound && first == OptOut && w.replyTag.Some? && to == TransportTag(w.replyTag.value.0, w.replyTag.value.1))
  }

  ghost predicate ExpectedHop(n: Nested, w: World, d: Direction, first: Connector, optsOut: bool, hop: Hop) {
    hop.destination.Some? && Expected(n, w, d, first, optsOut, hop.destination.value.conn)
  }

  /** Every place the message was sent to is expected; so is the one that billing will send it to. */
  ghost predicate StaysReachable(n: Nested, w: World, d: Direction, first: Connector, m: Msg) {
    && m.hops != []
    && (forall i :: 0 <= i < |m.hops| ==> ExpectedHop(n, w, d, first, m.OptsOut(), m.hops[i]))
    && (m.hops[|m.hops| - 1].destination.value.conn.Billing? ==> BillingReachable(n, w, d, first, m.tag))
    && (d == Inbound ==> m.optOut.Some?)
  }

  /** Where a message's journey starts; for a message that billing passes on, the transport that it has come from or is for. */
  function Origin(w: World, d: Direction, m: Msg, k: Kind): Connector
    requires Starts(d, m, k)
  {
    if k == BillingKind && Bills(w.cfg, d) then TransportTag(m.tag.value.0, m.tag.value.1) else SourceConnector(m, k, d).value
  }

  /** What a pass may start from: the first connector, the far side of a reachable router, or billing. */
  ghost predicate Standing(n: Nested, w: World, d: Direction, first: Connector, m: Msg, k: Kind, src: Connector) {
    if k == BillingKind && Bills(w.cfg, d) then BillingReachable(n, w, d, first, m.tag)
    else src == first || (src.Router? && Reaches(n, first, OtherSide(src)))
  }

  /** What a table has for a place the message may stand at is reachable from the start. */
  lemma RoutedIsReachable(n: Nested, w: World, first: Connector, src: Connector, endpoint: string)
    requires Covers(n, w.table)
    requires src == first || (src.Router? && Reaches(n, first, OtherSide(src)))
    ensures match Lookup(w.table, src, endpoint)
            case Some(t) => Reaches(n, first, t.conn)
            case None => true
  {
    match Lookup(w.table, src, endpoint) {
      case None =>
      case Some(t) =>
        assert w.table[src][endpoint].conn == t.conn;
        assert Links(w.table, src, t.conn);
        if src == first {
          ReachesLink(n, first, t.conn);
        } else {
          FlipIsInvolution(src);
          ReachesThrough(n, first, OtherSide(src), t.conn);
        }
    }
  }

  lemma InboundDestinationExpected(n: Nested, w: World, first: Connector, m: Msg, k: Kind, src: Connector, target: Stop)
    requires Covers(n, w.table) && Standing(n, w, Inbound, first, m, k, src)
    requires SourceConnector(m, k, Inbound) == Success(src)
    requires k == TagKind ==> src == first
    requires Destined(w, Inbound, m, k, src, target)
    requires Routable(w.table)
    ensures Expected(n, w, Inbound, first, Owned(w, Inbound, m).OptsOut(), target.conn)
    ensures target.conn.Billing? ==> BillingReachable(n, w, Inbound, first, m.tag)
  {
    if w.cfg.BillsInbound() && k == TagKind {
    } else if k == BillingKind && w.cfg.BillsInbound() {
      RoutedIsReachable(n, w, first, first, m.endpoint);
      RoutedFacesAway(w, first, m.endpoint);
    } else {
      RoutedIsReachable(n, w, first, src, m.endpoint);
      RoutedFacesAway(w, src, m.endpoint);
    }
  }

  lemma OutboundDestinationExpected(n: Nested, w: World, first: Connector, m: Msg, k: Kind, src: Connector, target: Stop)
    requires Covers(n, w.table) && Standing(n, w, Outbound, first, m, k, src)
    requires SourceConnector(m, k, Outbound) == Success(src)
    requires Destined(w, Outbound, m, k, src, target)
    requires Routable(w.table)
    ensures Expected(n, w, Outbound, first, m.OptsOut(), target.conn)
    ensures target.conn.Billing? ==> BillingReachable(n, w, Outbound, first, TagAfter(w, Outbound, m, k, src, target))
  {
    if k != OptOutKind && !(w.cfg.BillsOutbound() && k == BillingKind) {
      RoutedIsReachable(n, w, first, src, m.endpoint);
      RoutedFacesAway(w, src, m.endpoint);
    }
  }

  lemma PassStaysReachable(n: Nested, w: World, d: Direction, first: Connector, m: Msg, k: Kind)
    requires Covers(n, w.table) && Routable(w.table)
    requires Process(w, d, m, k).Published?
    requires SourceConnector(m, k, d).Success? && Standing(n, w, d, first, m, k, SourceConnector(m, k, d).value)
    requires k == TagKind ==> SourceConnector(m, k, d).value == first
    requires forall i :: 0 <= i < |m.hops| ==> ExpectedHop(n, w, d, first, Owned(w, d, m).OptsOut(), m.hops[i])
    ensures StaysReachable(n, w, d, first, Process(w, d, m, k).m)
  {
    PassAddsHop(w, d, m, k);
    var sent := Process(w, d, m, k).m;
    var src := SourceConnector(m, k, d).value;
    var target := At(sent).value;
    match d {
      case Inbound => InboundDestinationExpected(n, w, first, m, k, src, target);
      case Outbound => OutboundDestinationExpected(n, w, first, m, k, src, target);
    }
    OneMoreExpected(n, w, d, first, sent.OptsOut(), m.hops, Hop(Stop(src, m.endpoint), Some(target)));
  }

  lemma OneMoreExpected(n: Nested, w: World, d: Direction, first: Connector, optsOut: bool, hops: seq<Hop>, hop: Hop)
    requires forall i :: 0 <= i < |hops| ==> ExpectedHop(n, w, d, first, optsOut, hops[i])
    requires ExpectedHop(n, w, d, first, optsOut, hop)
    ensures forall i :: 0 <= i < |hops + [hop]| ==> ExpectedHop(n, w, d, first, optsOut, (hops + [hop])[i])
  {
  }

  lemma HandoffStands(n: Nested, w: World, d: Direction, first: Connector, m: Msg, h: Handoff)
    requires OnItsWay(d, m) && StaysReachable(n, w, d, first, m)
    requires HandedBack(d, m, h).Some?
    ensures var (back, k) := HandedBack(d, m, h).value;
            && SourceConnector(back, k, d).Success?
            && Standing(n, w, d, first, back, k, SourceConnector(back, k, d).value)
            && back.hops == m.hops && back.optOut == m.optOut && k in {RouterKind, BillingKind}
  {
    HandoffIsReady(d, m, h);
    assert ExpectedHop(n, w, d, first, m.OptsOut(), m.hops[|m.hops| - 1]);
    FlipIsInvolution(At(m).value.conn);
  }

  lemma AnyTable(n: Nested, w: World, table: Nested, d: Direction, first: Connector, m: Msg)
    ensures StaysReachable(n, w.(table := table), d, first, m) <==> StaysReachable(n, w, d, first, m)
  {
    forall i | 0 <= i < |m.hops|
      ensures ExpectedHop(n, w.(table := table), d, first, m.OptsOut(), m.hops[i])
              <==> ExpectedHop(n, w, d, first, m.OptsOut(), m.hops[i]) {
    }
  }

  lemma NextPassStaysReachable(n: Nested, w: World, d: Direction, first: Connector, sent: Msg, h: Handoff)
    requires Covers(n, w.table) && Routable(w.table)
    requires OnItsWay(d, sent) && StaysReachable(n, w, d, first, sent)
    requires HandedBack(d, sent, h).Some?
    ensures var (back, k) := HandedBack(d, sent, h).value;
            var out := Process(w, d, back, k); out.Published? ==> StaysReachable(n, w, d, first, out.m)
  {
    var (back, k) := HandedBack(d, sent, h).value;
    HandoffStands(n, w, d, first, sent, h);
    if Process(w, d, back, k).Published? {
      forall i | 0 <= i < |back.hops| ensures ExpectedHop(n, w, d, first, Owned(w, d, back).OptsOut(), back.hops[i]) {
        assert ExpectedHop(n, w, d, first, sent.OptsOut(), sent.hops[i]);
      }
      PassStaysReachable(n, w, d, first, back, k);
    }
  }

  /** What a journey keeps of where its message may be sent, handed on to its next pass. */
  lemma LegStaysReachable(n: Nested, w: World, d: Direction, first: Connector, sent: Msg, leg: Leg)
    requires Covers(n, leg.table) && Routable(leg.table)
    requires OnItsWay(d, sent) && StaysReachable(n, w, d, first, sent)
    ensures match Resume(w, d, sent, leg)
            case Some(Published(next, _, _)) => StaysReachable(n, w, d, first, next)
            case _ => true
  {
    if HandedBack(d, sent, leg.handoff).Some? {
      AnyTable(n, w, leg.table, d, first, sent);
      NextPassStaysReachable(n, w.(table := leg.table), d, first, sent, leg.handoff);
      AnyTable(n, w, leg.table, d, first, Resume(w, d, sent, leg).value.m);
    }
  }

  /**
   Every destination of a journey is expected: but for billing and opt-out traffic it is among the
   transitive targets of the connector the message started from. Where tables are replaced on the way,
   the targets are those in any table that has the links of all of them.
   */
  lemma {:induction false} JourneyStaysReachable(n: Nested, w: World, d: Direction, m: Msg, k: Kind, legs: seq<Leg>)
    requires AllRoutable(w, legs) && Starts(d, m, k)
    requires Covers(n, w.table) && forall leg :: leg in legs ==> Covers(n, leg.table)
    ensures match Journey(w, d, m, k, legs)
            case Some(Published(sent, _, _)) => StaysReachable(n, w, d, Origin(w, d, m, k), sent)
            case _ => true
  {
    var first := Origin(w, d, m, k);
    if legs == [] {
      if Process(w, d, m, k).Published? {
        PassStaysReachable(n, w, d, first, m, k);
      }
    } else {
      var last := |legs| - 1;
      JourneyStaysReachable(n, w, d, m, k, legs[..last]);
      JourneyKeepsPath(w, d, m, k, legs[..last]);
      match Journey(w, d, m, k, legs[..last]) {
        case Some(Published(sent, _, _)) => LegStaysReachable(n, w, d, first, sent, legs[last]);
        case _ =>
      }
    }
  }
}
