/**
 Billing is a detour: with both billing connectors configured a message takes the same path as
 with billing off, except that it calls on the billing worker on the way to or from a transport.
 */
module BillingDetour {
  import opened Wrappers
  import opened Connectors
  import opened RoutingTables
  import opened Messages
  import opened Passes
  import opened Workers
  import opened Journeys

  predicate ToBilling(h: Hop) {
    h.destination.Some? && h.destination.value.conn.Billing?
  }

  /** The hop list with every `X -> BILLING, BILLING -> Y` merged into `X -> Y`. */
  function Merged(hops: seq<Hop>): seq<Hop> {
    if hops == [] then []
    else if |hops| >= 2 && ToBilling(hops[0]) && hops[1].source.conn.Billing? then
      [Hop(hops[0].source, hops[1].destination)] + Merged(hops[2..])
    else [hops[0]] + Merged(hops[1..])
  }

  /** The path starts with a detour. */
  predicate StartsWithDetour(hops: seq<Hop>) {
    |hops| >= 2 && ToBilling(hops[0]) && hops[1].source.conn.Billing?
  }

  lemma DropFromAppended(a: seq<Hop>, b: seq<Hop>, n: nat)
    requires n <= |a|
    ensures (a + b)[n..] == a[n..] + b
    ensures forall i :: 0 <= i < |a| ==> (a + b)[i] == a[i]
  {
  }

  lemma {:induction false} AppendAfterDetour(a: seq<Hop>, b: seq<Hop>)
    requires StartsWithDetour(a) && Merged(a[2..] + b) == Merged(a[2..]) + Merged(b)
    ensures Merged(a + b) == Merged(a) + Merged(b)
  {
    DropFromAppended(a, b, 2);
    Regrouped(Hop(a[0].source, a[1].destination), Merged(a[2..]), Merged(b));
  }

  lemma {:induction false} AppendAfterHop(a: seq<Hop>, b: seq<Hop>)
    requires a != [] && !StartsWithDetour(a) && (|a| == 1 ==> !ToBilling(a[0]))
    requires Merged(a[1..] + b) == Merged(a[1..]) + Merged(b)
    ensures Merged(a + b) == Merged(a) + Merged(b)
  {
    DropFromAppended(a, b, 1);
    Regrouped(a[0], Merged(a[1..]), Merged(b));
  }

  lemma Regrouped(h: Hop, a: seq<Hop>, b: seq<Hop>)
    ensures [h] + (a + b) == [h] + a + b
  {
  }

  lemma {:induction false} MergedAppend(a: seq<Hop>, b: seq<Hop>)
    requires a == [] || !ToBilling(a[|a| - 1])
    ensures Merged(a + b) == Merged(a) + Merged(b)
  {
    if a == [] {
      assert a + b == b;
    } else if StartsWithDetour(a) {
      MergedAppend(a[2..], b);
      AppendAfterDetour(a, b);
    } else {
      MergedAppend(a[1..], b);
      AppendAfterHop(a, b);
    }
  }

  /** The same dispatcher without its billing connectors. */
  function WithoutBilling(w: World): World {
    w.(cfg := w.cfg.(billingInbound := None, billingOutbound := None))
  }

  /** No tagpool names a billing connector as its transport. */
  predicate TransportsAreNotBilling(cfg: Config) {
    forall p :: p in cfg.tagpoolTransports ==>
                  Some(cfg.tagpoolTransports[p]) != cfg.billingInbound && Some(cfg.tagpoolTransports[p]) != cfg.billingOutbound
  }

  /** Table entries lead to transports at the default endpoint only. */
  ghost predicate DefaultTransports(n: Nested) {
    forall p :: p in Flatten(n) && Flatten(n)[p].conn.TransportTag? ==> Flatten(n)[p].endpoint == DEFAULT
  }

  /** Alike in everything but the hops and what billing itself changes. */
  predicate Alike(a: Msg, b: Msg) {
    && a.endpoint == b.endpoint && a.account == b.account && a.tag == b.tag
    && a.router == b.router && a.conversation == b.conversation
    && a.transportName == b.transportName && a.transportType == b.transportType && a.optOut == b.optOut
  }

  /** The two messages stand at the same place, and merging the detours of one path gives the other. */
  predicate SamePath(a: Msg, b: Msg) {
    && Alike(a, b)
    && Merged(a.hops) == b.hops
    && At(a) == At(b)
    && (a.hops == [] || (At(a).Some? && !At(a).value.conn.Billing? && b.hops != []))
  }

  /** The message as it was when it was stored: what is published has the next endpoint stamped on it. */
  predicate CopyOf(stored: Option<Msg>, sent: Msg) {
    stored.Some? ==> stored.value.(endpoint := sent.endpoint) == sent
  }

  /** Both messages are stored or neither is, and up to their endpoint the copies stand at the same place too. */
  predicate SameCopy(s: Option<Msg>, m: Msg, t: Option<Msg>, n: Msg) {
    && (s.Some? <==> t.Some?)
    && (s.Some? ==> SamePath(s.value.(endpoint := m.endpoint), t.value.(endpoint := n.endpoint)))
  }

  /** The two passes end the same way, in the same place, and leave the same in the store. */
  predicate SameOutcome(a: Outcome, b: Outcome) {
    match (a, b)
    case (Published(m, c, s), Published(n, e, t)) => SamePath(m, n) && c == e && SameCopy(s, m, t, n)
    case (Failed(_, e), Failed(_, f)) => e == f
    case _ => false
  }

  /** Only the billing connectors themselves can tell the two configurations apart. */
  lemma DeliverIgnoresBilling(w: World, m: Msg, target: Stop, d: Direction)
    requires TransportsAreNotBilling(w.cfg) && !target.conn.Billing?
    ensures Deliver(w.cfg, m, target, d) == Deliver(WithoutBilling(w).cfg, m, target, d)
  {
    if target.conn.TransportTag? && target.conn.tagpool in w.cfg.tagpoolTransports {
      var name := w.cfg.tagpoolTransports[target.conn.tagpool];
      assert w.cfg.Kinds(name) == WithoutBilling(w).cfg.Kinds(name);
    } else if target.conn.Router? && w.cfg.RouterConnector(target.conn.routerType, Opposite(d)).Some? {
      var name := w.cfg.RouterConnector(target.conn.routerType, Opposite(d)).value;
      assert name in w.cfg.routersInbound.Values || name in w.cfg.routersOutbound.Values;
    }
  }

  /** Alike in what delivering to `target` does not overwrite. */
  predicate AlikeFor(a: Msg, b: Msg, target: Connector) {
    Alike(a, b.(endpoint := a.endpoint, tag := if target.TransportTag? then a.tag else b.tag))
  }

  lemma FindDestinationAlike(cfg: Config, a: Msg, b: Msg, target: Connector, d: Direction)
    requires AlikeFor(a, b, target)
    ensures match (FindDestination(cfg, a, target, d), FindDestination(cfg, b, target, d))
            case (Known(m, c), Known(n, e)) =>
              Alike(m, n.(endpoint := m.endpoint)) && c == e && m.hops == a.hops && n.hops == b.hops
            case (Refused(_, e), Refused(_, f)) => e == f
            case _ => false
  {
  }

  /** Delivering alike messages to one target ends alike. */
  lemma DeliverAlike(cfg: Config, a: Msg, b: Msg, target: Stop, d: Direction)
    requires AlikeFor(a, b, target.conn) && a.HopPending() && b.HopPending()
    ensures match (Deliver(cfg, a, target, d), Deliver(cfg, b, target, d))
            case (Published(m, c, s), Published(n, e, t)) =>
              Alike(m, n) && c == e && (s.Some? <==> t.Some?) && CopyOf(s, m) && CopyOf(t, n)
            case (Failed(_, e), Failed(_, f)) => e == f
            case _ => false
  {
    FindDestinationAlike(cfg, a, b, target.conn, d);
  }

  lemma DeliverSamePath(w: World, a: Msg, b: Msg, pathA: seq<Hop>, fromA: Stop, pathB: seq<Hop>, from: Stop,
                        target: Stop, d: Direction)
    requires TransportsAreNotBilling(w.cfg)
    requires AlikeFor(a, b, target.conn) && !target.conn.Billing?
    requires a.hops == pathA + [Hop(fromA, None)] && b.hops == pathB + [Hop(from, None)]
    requires Merged(pathA + [Hop(fromA, Some(target))]) == pathB + [Hop(from, Some(target))]
    ensures SameOutcome(Deliver(w.cfg, a, target, d), Deliver(WithoutBilling(w).cfg, b, target, d))
  {
    DeliverIgnoresBilling(w, b, target, d);
    DeliverAlike(w.cfg, a, b, target, d);
    if Deliver(w.cfg, a, target, d).Published? {
      DeliverGains(w.cfg, a, pathA, fromA, target, d);
      DeliverGains(w.cfg, b, pathB, from, target, d);
    }
  }

  lemma {:induction false} MergedOne(h: Hop)
    ensures Merged([h]) == [h]
  {
    assert [h][1..] == [];
  }

  lemma {:induction false} MergedTwo(x: Hop, y: Hop)
    requires ToBilling(x) && y.source.conn.Billing?
    ensures Merged([x, y]) == [Hop(x.source, y.destination)]
  {
    assert [x, y][2..] == [];
  }

  lemma {:induction false} MergedDirect(path: seq<Hop>, from: Stop, target: Stop)
    requires path == [] || !ToBilling(path[|path| - 1])
    ensures Merged(path + [Hop(from, Some(target))]) == Merged(path) + [Hop(from, Some(target))]
  {
    MergedAppend(path, [Hop(from, Some(target))]);
    MergedOne(Hop(from, Some(target)));
  }

  /** The two hops added by way of billing merge to the hop added straight away. */
  lemma {:induction false} MergedDetour(path: seq<Hop>, x: Hop, y: Hop)
    requires path == [] || !ToBilling(path[|path| - 1])
    requires ToBilling(x) && y.source.conn.Billing?
    ensures Merged(path + [x] + [y]) == Merged(path) + [Hop(x.source, y.destination)]
  {
    assert path + [x] + [y] == path + [x, y];
    MergedAppend(path, [x, y]);
    MergedTwo(x, y);
  }

  // ---------- One pass, with its detour ----------

  predicate AtBilling(out: Outcome) {
    out.Published? && At(out.m).Some? && At(out.m).value.conn.Billing?
  }

  /** A pass with billing on, carried on past the billing worker if that is where it led. */
  function PassWithDetour(w: World, d: Direction, m: Msg, k: Kind, charge: Charge): Option<Outcome> {
    var out := Process(w, d, m, k);
    if AtBilling(out) then Resume(w, d, out.m, Leg(FromBilling(charge), w.table)) else Some(out)
  }

  /** What a message needs to have for the detour not to show. */
  ghost predicate Detourable(w: World) {
    && w.cfg.BillsInbound() && w.cfg.BillsOutbound()
    && TransportsAreNotBilling(w.cfg)
    && Unbilled(w.table)
  }

  lemma EntryIsDirect(w: World, src: Connector, endpoint: string)
    requires Unbilled(w.table)
    ensures match Lookup(w.table, src, endpoint)
            case Some(t) =>
              && !t.conn.Billing?
              && (DefaultTransports(w.table) && t.conn.TransportTag? ==> t == Stop(t.conn, DEFAULT))
            case None => true
  {
    if Lookup(w.table, src, endpoint).Some? {
      assert (src, endpoint) in Flatten(w.table);
    }
  }

  /** Where the pass is bound in the end, detour or no detour. */
  function Bound(w: World, d: Direction, m: Msg, k: Kind, src: Connector): Result<Stop, RoutingError> {
    if d == Inbound && Owned(w, d, m).OptsOut() then Success(Stop(OptOut, DEFAULT))
    else if d == Outbound && k == OptOutKind then
      if w.replyTag.None? then Failure(Unroutable)
      else Success(Stop(TransportTag(w.replyTag.value.0, w.replyTag.value.1), DEFAULT))
    else match Lookup(w.table, src, m.endpoint)
      case None => Failure(NoTarget)
      case Some(t) => Success(t)
  }

  /** The message as `Bound`'s target receives it: owned, with its source pushed. */
  function Acquired(w: World, d: Direction, m: Msg, from: Stop): Msg {
    Owned(w, d, m).(hops := m.hops + [Hop(from, None)])
  }

  /** With billing off a pass just delivers the message where it is bound. */
  lemma PassWithoutBilling(w: World, d: Direction, m: Msg, k: Kind)
    requires !w.cfg.BillsInbound() && !w.cfg.BillsOutbound()
    requires SourceConnector(m, k, d).Success? && !m.HopPending()
    ensures var src := SourceConnector(m, k, d).value;
            var acquired := Acquired(w, d, m, Stop(src, m.endpoint));
            Process(w, d, m, k) ==
            match Bound(w, d, m, k, src)
            case Failure(e) => Failed(acquired, e)
            case Success(t) => Deliver(w.cfg, acquired, t, d)
  {
    assert SourceConnector(Owned(w, d, m), k, d) == SourceConnector(m, k, d);
  }

  /** Whether a pass with billing on goes by way of the billing worker. */
  predicate Detours(w: World, d: Direction, m: Msg, k: Kind, src: Connector) {
    if d == Inbound then k == TagKind
    else Bound(w, d, m, k, src).Success? && Bound(w, d, m, k, src).value.conn.TransportTag?
  }

  /** With billing on, a pass that does not detour also just delivers the message where it is bound. */
  lemma PassStraight(w: World, d: Direction, m: Msg, k: Kind)
    requires Detourable(w) && k != BillingKind
    requires SourceConnector(m, k, d).Success? && !m.HopPending()
    requires !Detours(w, d, m, k, SourceConnector(m, k, d).value)
    ensures var src := SourceConnector(m, k, d).value;
            var acquired := Acquired(w, d, m, Stop(src, m.endpoint)).(paid := m.paid && (d == Inbound || k == OptOutKind));
            var out := Process(w, d, m, k);
            match Bound(w, d, m, k, src)
            case Failure(e) => out.Failed? && out.error == e
            case Success(t) => out == Deliver(w.cfg, acquired, t, d) && !t.conn.Billing?
  {
    var src := SourceConnector(m, k, d).value;
    assert SourceConnector(Owned(w, d, m), k, d) == SourceConnector(m, k, d);
    EntryIsDirect(w, src, m.endpoint);
  }

  lemma HopCompleted(hops: seq<Hop>, from: Stop, to: Stop)
    ensures var pending := hops + [Hop(from, None)];
            pending[|pending| - 1 := Hop(from, Some(to))] == hops + [Hop(from, Some(to))]
  {
  }

  /** A hop to billing has been added, and the tag is that of the transport the message is bound for. */
  ghost predicate SentToBilling(w: World, d: Direction, m: Msg, k: Kind, src: Connector, out: Outcome)
    requires Detours(w, d, m, k, src)
  {
    && AtBilling(out)
    && out.m.hops == m.hops + [Hop(Stop(src, m.endpoint), Some(Stop(Billing(d), DEFAULT)))]
    && out.m.account == Some(w.account)
    && out.m.optOut == Owned(w, d, m).optOut && out.m.router == m.router && out.m.conversation == m.conversation
    && out.m.transportName == m.transportName && out.m.transportType == m.transportType && out.m.endpoint == DEFAULT
    && out.m.sessionEvent == m.sessionEvent
    && (if d == Inbound then out.m.tag == m.tag
        else var t := Bound(w, d, m, k, src).value.conn; out.m.tag == Some((t.tagpool, t.tagname)))
  }

  lemma BillingIsReached(w: World, d: Direction, m: Msg, before: seq<Hop>, from: Stop)
    requires if d == Inbound then w.cfg.BillsInbound() else w.cfg.BillsOutbound()
    requires m.hops == before + [Hop(from, None)]
    ensures var out := Deliver(w.cfg, m, Stop(Billing(d), DEFAULT), d);
            && out.Published?
            && out.m == m.(hops := before + [Hop(from, Some(Stop(Billing(d), DEFAULT)))], endpoint := DEFAULT)
  {
    HopCompleted(before, from, Stop(Billing(d), DEFAULT));
  }

  lemma InboundToBilling(w: World, m: Msg, k: Kind)
    requires Detourable(w) && k == TagKind
    requires SourceConnector(m, k, Inbound).Success? && !m.HopPending()
    ensures SentToBilling(w, Inbound, m, k, SourceConnector(m, k, Inbound).value, Process(w, Inbound, m, k))
  {
    var src := SourceConnector(m, k, Inbound).value;
    assert SourceConnector(Owned(w, Inbound, m), k, Inbound) == SourceConnector(m, k, Inbound);
    BillingIsReached(w, Inbound, Acquired(w, Inbound, m, Stop(src, m.endpoint)), m.hops, Stop(src, m.endpoint));
  }

  /** An outbound detour is taken with the tag of the transport the message is bound for. */
  lemma OutboundDetour(w: World, m: Msg, k: Kind)
    requires Detourable(w) && k != BillingKind
    requires SourceConnector(m, k, Outbound).Success? && !m.HopPending()
    requires Detours(w, Outbound, m, k, SourceConnector(m, k, Outbound).value)
    ensures var src := SourceConnector(m, k, Outbound).value;
            var t := Bound(w, Outbound, m, k, src).value.conn;
            var acquired := Acquired(w, Outbound, m, Stop(src, m.endpoint)).(paid := m.paid && k in {TagKind, OptOutKind});
            Process(w, Outbound, m, k) == DeliverToBilling(w.cfg, acquired, (t.tagpool, t.tagname))
  {
    assert SourceConnector(Owned(w, Outbound, m), k, Outbound) == SourceConnector(m, k, Outbound);
  }

  lemma OutboundToBilling(w: World, m: Msg, k: Kind)
    requires Detourable(w) && k != BillingKind
    requires SourceConnector(m, k, Outbound).Success? && !m.HopPending()
    requires Detours(w, Outbound, m, k, SourceConnector(m, k, Outbound).value)
    ensures SentToBilling(w, Outbound, m, k, SourceConnector(m, k, Outbound).value, Process(w, Outbound, m, k))
  {
    OutboundDetour(w, m, k);
    var src := SourceConnector(m, k, Outbound).value;
    var t := Bound(w, Outbound, m, k, src).value.conn;
    var acquired := Acquired(w, Outbound, m, Stop(src, m.endpoint)).(paid := m.paid && k in {TagKind, OptOutKind});
    BillingIsReached(w, Outbound, acquired.(tag := Some((t.tagpool, t.tagname))), m.hops, Stop(src, m.endpoint));
  }

  /** With billing on, a pass that detours first completes a hop to billing. */
  lemma PassToBilling(w: World, d: Direction, m: Msg, k: Kind)
    requires Detourable(w) && k != BillingKind
    requires SourceConnector(m, k, d).Success? && !m.HopPending()
    requires Detours(w, d, m, k, SourceConnector(m, k, d).value)
    ensures SentToBilling(w, d, m, k, SourceConnector(m, k, d).value, Process(w, d, m, k))
  {
    match d
    case Inbound => InboundToBilling(w, m, k);
    case Outbound => OutboundToBilling(w, m, k);
  }

  /** Back from billing, the message is delivered where it was bound all along. */
  lemma PassFromBilling(w: World, d: Direction, m: Msg)
    requires Detourable(w)
    requires m.tag.Some? && !m.HopPending()
    ensures var transport := TransportTag(m.tag.value.0, m.tag.value.1);
            var from := Stop(Billing(Opposite(d)), m.endpoint);
            var acquired := Acquired(w, d, m, from);
            Process(w, d, m, BillingKind) ==
            if d == Outbound then Deliver(w.cfg, acquired, Stop(transport, DEFAULT), Outbound)
            else match Bound(w, Inbound, m, BillingKind, transport)
              case Failure(e) => Failed(acquired, e)
              case Success(t) => Deliver(w.cfg, acquired, t, Inbound)
  {
  }

  lemma SamePathSettled(a: Msg, b: Msg)
    requires SamePath(a, b)
    ensures !a.HopPending() && !b.HopPending()
    ensures a.hops == [] || !ToBilling(a.hops[|a.hops| - 1])
  {
  }

  lemma BoundAlike(w: World, d: Direction, a: Msg, b: Msg, k: Kind)
    requires Alike(a, b) && SourceConnector(a, k, d).Success?
    ensures SourceConnector(b, k, d) == SourceConnector(a, k, d)
    ensures Bound(WithoutBilling(w), d, b, k, SourceConnector(a, k, d).value) == Bound(w, d, a, k, SourceConnector(a, k, d).value)
  {
  }

  lemma DeliverStraight(w: World, d: Direction, a: Msg, b: Msg, from: Stop, t: Stop, paid: bool)
    requires Detourable(w) && SamePath(a, b) && !t.conn.Billing?
    ensures SameOutcome(Deliver(w.cfg, Acquired(w, d, a, from).(paid := paid), t, d),
                        Deliver(WithoutBilling(w).cfg, Acquired(w, d, b, from), t, d))
  {
    SamePathSettled(a, b);
    MergedDirect(a.hops, from, t);
    DeliverSamePath(w, Acquired(w, d, a, from).(paid := paid), Acquired(w, d, b, from), a.hops, from, b.hops, from, t, d);
  }

  lemma StraightSamePath(w: World, d: Direction, a: Msg, b: Msg, k: Kind)
    requires Detourable(w) && SamePath(a, b) && k != BillingKind
    requires SourceConnector(a, k, d).Success?
    requires !Detours(w, d, a, k, SourceConnector(a, k, d).value)
    ensures SameOutcome(Process(w, d, a, k), Process(WithoutBilling(w), d, b, k))
  {
    var src := SourceConnector(a, k, d).value;
    SamePathSettled(a, b);
    BoundAlike(w, d, a, b, k);
    PassStraight(w, d, a, k);
    PassWithoutBilling(WithoutBilling(w), d, b, k);
    if Bound(w, d, a, k, src).Success? {
      DeliverStraight(w, d, a, b, Stop(src, a.endpoint), Bound(w, d, a, k, src).value,
                      a.paid && (d == Inbound || k == OptOutKind));
    }
  }

  lemma DeliverByDetour(w: World, d: Direction, a: Msg, b: Msg, back: Msg, from: Stop, t: Stop)
    requires Detourable(w) && SamePath(a, b) && !t.conn.Billing?
    requires back.hops == a.hops + [Hop(from, Some(Stop(Billing(d), DEFAULT)))]
    requires AlikeFor(Owned(w, d, back), Owned(w, d, b), t.conn)
    ensures SameOutcome(Deliver(w.cfg, Acquired(w, d, back, Stop(Billing(Opposite(d)), DEFAULT)), t, d),
                        Deliver(WithoutBilling(w).cfg, Acquired(w, d, b, from), t, d))
  {
    SamePathSettled(a, b);
    var x := Hop(from, Some(Stop(Billing(d), DEFAULT)));
    var fromBilling := Stop(Billing(Opposite(d)), DEFAULT);
    MergedDetour(a.hops, x, Hop(fromBilling, Some(t)));
    DeliverSamePath(w, Acquired(w, d, back, fromBilling), Acquired(w, d, b, from), a.hops + [x], fromBilling, b.hops, from, t, d);
  }

  /** Back from billing the message is as it would be without the detour, but for what delivering it overwrites. */
  lemma BackIsAlike(w: World, d: Direction, a: Msg, b: Msg, sent: Msg, back: Msg, t: Stop)
    requires Alike(a, b) && Alike(sent, back)
    requires sent.optOut == Owned(w, d, a).optOut && sent.router == a.router && sent.conversation == a.conversation
    requires sent.transportName == a.transportName && sent.transportType == a.transportType
    requires if d == Inbound then sent.tag == a.tag else t.conn.TransportTag?
    ensures AlikeFor(Owned(w, d, back), Owned(w, d, b), t.conn)
  {
  }

  lemma DetourSamePath(w: World, d: Direction, a: Msg, b: Msg, k: Kind, back: Msg)
    requires Detourable(w) && DefaultTransports(w.table) && SamePath(a, b) && k != BillingKind
    requires SourceConnector(a, k, d).Success? && (k == TagKind ==> a.endpoint == DEFAULT)
    requires Detours(w, d, a, k, SourceConnector(a, k, d).value)
    requires AtBilling(Process(w, d, a, k)) && Alike(Process(w, d, a, k).m, back) && back.hops == Process(w, d, a, k).m.hops
    ensures SameOutcome(Process(w, d, back, BillingKind), Process(WithoutBilling(w), d, b, k))
  {
    var src := SourceConnector(a, k, d).value;
    SamePathSettled(a, b);
    BoundAlike(w, d, a, b, k);
    PassToBilling(w, d, a, k);
    PassFromBilling(w, d, back);
    PassWithoutBilling(WithoutBilling(w), d, b, k);
    EntryIsDirect(w, src, a.endpoint);
    if Bound(w, d, a, k, src).Success? {
      BackIsAlike(w, d, a, b, Process(w, d, a, k).m, back, Bound(w, d, a, k, src).value);
      DeliverByDetour(w, d, a, b, back, Stop(src, a.endpoint), Bound(w, d, a, k, src).value);
    }
  }

  /** The pass leads to billing, and billing drops the message there. */
  predicate StopsAtDetour(w: World, d: Direction, m: Msg, k: Kind, charge: Charge) {
    d == Outbound && AtBilling(Process(w, d, m, k)) && Dropped(Process(w, d, m, k).m, charge)
  }

  /** How a pass or a journey with billing on ends, given how the same one ends with billing off. */
  predicate EndsAlike(stopped: bool, on: Option<Outcome>, off: Option<Outcome>) {
    if stopped then on.None?
    else match (on, off)
      case (Some(out), Some(out')) => SameOutcome(out, out')
      case (None, None) => true
      case _ => false
  }

  /** One pass: with its detour, billing on does what billing off does. */
  lemma PassSamePath(w: World, d: Direction, a: Msg, b: Msg, k: Kind, charge: Charge)
    requires Detourable(w) && DefaultTransports(w.table) && SamePath(a, b) && k != BillingKind
    requires SourceConnector(a, k, d).Success? && (k == TagKind ==> a.endpoint == DEFAULT)
    ensures EndsAlike(StopsAtDetour(w, d, a, k, charge), PassWithDetour(w, d, a, k, charge),
                      Some(Process(WithoutBilling(w), d, b, k)))
  {
    if Detours(w, d, a, k, SourceConnector(a, k, d).value) {
      PassDetoured(w, d, a, b, k, charge);
    } else {
      StraightSamePath(w, d, a, b, k);
    }
  }

  lemma PassDetoured(w: World, d: Direction, a: Msg, b: Msg, k: Kind, charge: Charge)
    requires Detourable(w) && DefaultTransports(w.table) && SamePath(a, b) && k != BillingKind
    requires SourceConnector(a, k, d).Success? && (k == TagKind ==> a.endpoint == DEFAULT)
    requires Detours(w, d, a, k, SourceConnector(a, k, d).value)
    ensures EndsAlike(StopsAtDetour(w, d, a, k, charge), PassWithDetour(w, d, a, k, charge),
                      Some(Process(WithoutBilling(w), d, b, k)))
  {
    SamePathSettled(a, b);
    PassToBilling(w, d, a, k);
    var sent := Process(w, d, a, k).m;
    ResumedFromBilling(w, d, sent, charge);
    if Billed(sent, charge, d).Some? {
      DetourSamePath(w, d, a, b, k, Billed(sent, charge, d).value);
    }
  }

  /** Billing hands a message back unless it drops it. */
  lemma ResumedFromBilling(w: World, d: Direction, sent: Msg, charge: Charge)
    requires At(sent).Some? && At(sent).value.conn.Billing?
    ensures Billed(sent, charge, d).None? <==> d == Outbound && Dropped(sent, charge)
    ensures Billed(sent, charge, d).Some? ==>
              var back := Billed(sent, charge, d).value;
              back.hops == sent.hops && Alike(sent.(endpoint := DEFAULT), back)
    ensures Resume(w, d, sent, Leg(FromBilling(charge), w.table)) ==
            if Billed(sent, charge, d).None? then None else Some(Process(w, d, Billed(sent, charge, d).value, BillingKind))
  {
    assert w.(table := w.table) == w;
  }

  // ---------- Whole journeys ----------

  /** The legs before the `i`-th pass of the routers, with billing's put in wherever a pass before it leads there. */
  function Before(w: World, d: Direction, m: Msg, k: Kind, legs: seq<Leg>, charges: seq<Charge>): seq<Leg>
    requires |charges| == |legs| + 1
    decreases |legs|, 0
  {
    if legs == [] then [] else WithDetours(w, d, m, k, legs[..|legs| - 1], charges[..|legs|]) + [legs[|legs| - 1]]
  }

  /**
   The legs of a journey with billing on: those of the routers, and billing's wherever the message is sent
   there. Each charge is billing's for one pass, and a detour meets the same table as the pass it is part of.
   */
  function WithDetours(w: World, d: Direction, m: Msg, k: Kind, legs: seq<Leg>, charges: seq<Charge>): seq<Leg>
    requires |charges| == |legs| + 1
    decreases |legs|, 1
  {
    var before := Before(w, d, m, k, legs, charges);
    var reached := Journey(w, d, m, k, before);
    if reached.Some? && AtBilling(reached.value) then before + [Leg(FromBilling(charges[|legs|]), LastTable(w, legs))] else before
  }

  /** Billing drops the message at some detour of the journey. */
  predicate StopsSomewhere(w: World, d: Direction, m: Msg, k: Kind, legs: seq<Leg>, charges: seq<Charge>)
    requires |charges| == |legs| + 1
  {
    var reached := Journey(w, d, m, k, Before(w, d, m, k, legs, charges));
    || (legs != [] && StopsSomewhere(w, d, m, k, legs[..|legs| - 1], charges[..|legs|]))
    || (d == Outbound && reached.Some? && AtBilling(reached.value) && Dropped(reached.value.m, charges[|legs|]))
  }

  lemma JourneyAdd(w: World, d: Direction, m: Msg, k: Kind, legs: seq<Leg>, leg: Leg)
    ensures Journey(w, d, m, k, legs + [leg]) ==
            match Journey(w, d, m, k, legs)
            case Some(Published(sent, _, _)) => Resume(w, d, sent, leg)
            case _ => None
  {
    assert (legs + [leg])[..|legs|] == legs;
  }

  /** A pass of a journey, carried on past billing if that is where it led. */
  lemma DetourAdd(w: World, d: Direction, m: Msg, k: Kind, legs: seq<Leg>, back: Msg, k': Kind, charge: Charge, table: Nested)
    requires Journey(w, d, m, k, legs) == Some(Process(w.(table := table), d, back, k'))
    ensures var reached := Process(w.(table := table), d, back, k');
            Journey(w, d, m, k, if AtBilling(reached) then legs + [Leg(FromBilling(charge), table)] else legs)
            == PassWithDetour(w.(table := table), d, back, k', charge)
  {
    JourneyAdd(w, d, m, k, legs, Leg(FromBilling(charge), table));
  }

  /** How a journey with billing on goes on from where it has got to. */
  function NextOn(w: World, d: Direction, on: Option<Outcome>, leg: Leg, charge: Charge): Option<Outcome> {
    match on
    case Some(Published(sent, _, _)) =>
      (match HandedBack(d, sent, leg.handoff)
       case None => None
       case Some((back, k)) => PassWithDetour(w.(table := leg.table), d, back, k, charge))
    case _ => None
  }

  predicate StopsNext(w: World, d: Direction, on: Option<Outcome>, leg: Leg, charge: Charge) {
    match on
    case Some(Published(sent, _, _)) =>
      (match HandedBack(d, sent, leg.handoff)
       case None => false
       case Some((back, k)) => StopsAtDetour(w.(table := leg.table), d, back, k, charge))
    case _ => false
  }

  /** How any journey goes on. */
  function Next(w: World, d: Direction, reached: Option<Outcome>, leg: Leg): Option<Outcome> {
    match reached
    case Some(Published(sent, _, _)) => Resume(w, d, sent, leg)
    case _ => None
  }

  /** The last leg of a journey with detours is one pass with its detour. */
  lemma LastLeg(w: World, d: Direction, m: Msg, k: Kind, legs: seq<Leg>, charges: seq<Charge>)
    requires |charges| == |legs| + 1 && legs != []
    ensures var last := |legs| - 1;
            Journey(w, d, m, k, WithDetours(w, d, m, k, legs, charges)) ==
            NextOn(w, d, Journey(w, d, m, k, WithDetours(w, d, m, k, legs[..last], charges[..|legs|])), legs[last], charges[|legs|])
  {
    var (prefix, last) := (WithDetours(w, d, m, k, legs[..|legs| - 1], charges[..|legs|]), legs[|legs| - 1]);
    JourneyAdd(w, d, m, k, prefix, last);
    var before := Journey(w, d, m, k, prefix);
    if before.Some? && before.value.Published? && HandedBack(d, before.value.m, last.handoff).Some? {
      var (back, k') := HandedBack(d, before.value.m, last.handoff).value;
      DetourAdd(w, d, m, k, prefix + [last], back, k', charges[|legs|], last.table);
    }
  }

  /** Where the last leg of a journey may stop. */
  lemma LastStop(w: World, d: Direction, m: Msg, k: Kind, legs: seq<Leg>, charges: seq<Charge>)
    requires |charges| == |legs| + 1 && legs != []
    ensures var last := |legs| - 1;
            StopsSomewhere(w, d, m, k, legs, charges) <==>
            || StopsSomewhere(w, d, m, k, legs[..last], charges[..|legs|])
            || StopsNext(w, d, Journey(w, d, m, k, WithDetours(w, d, m, k, legs[..last], charges[..|legs|])), legs[last],
                         charges[|legs|])
  {
    JourneyAdd(w, d, m, k, WithDetours(w, d, m, k, legs[..|legs| - 1], charges[..|legs|]), legs[|legs| - 1]);
  }

  lemma FirstLeg(w: World, d: Direction, m: Msg, k: Kind, charge: Charge)
    ensures Journey(w, d, m, k, WithDetours(w, d, m, k, [], [charge])) == PassWithDetour(w, d, m, k, charge)
    ensures StopsSomewhere(w, d, m, k, [], [charge]) <==> StopsAtDetour(w, d, m, k, charge)
  {
    JourneyAdd(w, d, m, k, [], Leg(FromBilling(charge), w.table));
  }

  /** A router that hands the message back with billing off does so with billing on. */
  lemma RouterHandsBothBack(d: Direction, a: Msg, b: Msg, h: Handoff)
    requires SamePath(a, b) && h.FromRouter?
    ensures match (HandedBack(d, a, h), HandedBack(d, b, h))
            case (Some((m, k)), Some((n, l))) => k == l == RouterKind && SamePath(m, n)
            case (None, None) => true
            case _ => false
  {
  }

  /** One more leg, with billing on and off. */
  lemma LegsEndAlike(w: World, d: Direction, stopped: bool, on: Option<Outcome>, off: Option<Outcome>, leg: Leg, charge: Charge)
    requires EndsAlike(stopped, on, off) && leg.handoff.FromRouter?
    requires on.Some? && on.value.Published? ==> OnItsWay(d, on.value.m)
    requires Detourable(w.(table := leg.table)) && DefaultTransports(leg.table)
    ensures EndsAlike(stopped || StopsNext(w, d, on, leg, charge), NextOn(w, d, on, leg, charge), Next(WithoutBilling(w), d, off, leg))
  {
    if !stopped && on.Some? && on.value.Published? {
      var (a, b) := (on.value.m, off.value.m);
      RouterHandsBothBack(d, a, b, leg.handoff);
      if HandedBack(d, a, leg.handoff).Some? {
        HandoffIsReady(d, a, leg.handoff);
        PassSamePath(w.(table := leg.table), d, HandedBack(d, a, leg.handoff).value.0, HandedBack(d, b, leg.handoff).value.0,
                     RouterKind, charge);
      }
    }
  }

  lemma DetoursKeepPath(w: World, d: Direction, m: Msg, k: Kind, legs: seq<Leg>, charges: seq<Charge>)
    requires |charges| == |legs| + 1 && AllRoutable(w, legs)
    ensures AllRoutable(w, WithDetours(w, d, m, k, legs, charges))
  {
    if legs != [] {
      DetoursKeepPath(w, d, m, k, legs[..|legs| - 1], charges[..|legs|]);
    }
  }

  /** Billing is on, and every table that the journey meets leads to transports at the default endpoint only. */
  ghost predicate AllDetourable(w: World, legs: seq<Leg>) {
    && AllRoutable(w, legs) && Detourable(w) && DefaultTransports(w.table)
    && forall leg :: leg in legs ==> leg.handoff.FromRouter? && DefaultTransports(leg.table)
  }

  /**
   Billing does not change where messages go. With billing on a journey stops exactly where billing drops the
   message at a detour. If it does not, it ends as the journey with billing off does, whatever the routers and
   the tables do: in the same place, or with the same error; and merging its detours gives the same hops.
   */
  lemma {:induction false} BillingIsTransparent(w: World, d: Direction, m: Msg, k: Kind, legs: seq<Leg>, charges: seq<Charge>)
    requires AllDetourable(w, legs) && |charges| == |legs| + 1
    requires Starts(d, m, k) && k != BillingKind && (k == TagKind ==> m.endpoint == DEFAULT)
    ensures EndsAlike(StopsSomewhere(w, d, m, k, legs, charges),
                      Journey(w, d, m, k, WithDetours(w, d, m, k, legs, charges)),
                      Journey(WithoutBilling(w), d, m, k, legs))
  {
    if legs == [] {
      assert charges == [charges[0]];
      FirstLeg(w, d, m, k, charges[0]);
      PassSamePath(w, d, m, m, k, charges[0]);
    } else {
      var (before, leg) := (legs[..|legs| - 1], legs[|legs| - 1]);
      BillingIsTransparent(w, d, m, k, before, charges[..|legs|]);
      LastLeg(w, d, m, k, legs, charges);
      LastStop(w, d, m, k, legs, charges);
      var prefix := WithDetours(w, d, m, k, before, charges[..|legs|]);
      DetoursKeepPath(w, d, m, k, before, charges[..|legs|]);
      JourneyKeepsPath(w, d, m, k, prefix);
      LegsEndAlike(w, d, StopsSomewhere(w, d, m, k, before, charges[..|legs|]), Journey(w, d, m, k, prefix),
                   Journey(WithoutBilling(w), d, m, k, before), leg, charges[|legs|]);
    }
  }

  /** A message bound for a transport that the dispatcher can publish to. */
  ghost predicate BoundFor(w: World, m: Msg, k: Kind, t: Stop) {
    && Detourable(w) && k in {ConversationKind, RouterKind}
    && SourceConnector(m, k, Outbound).Success? && !m.HopPending()
    && Lookup(w.table, SourceConnector(m, k, Outbound).value, m.endpoint) == Some(t)
    && t.conn.TransportTag? && !NoTransport(w.cfg, t.conn.tagpool) && t.conn.tagpool in w.cfg.tagpoolTransports
  }

  lemma ArrivesAtDefault(w: World, m: Msg, k: Kind, charge: Charge, t: Stop)
    requires BoundFor(w, m, k, t) && !Dropped(m, charge)
    ensures var on := PassWithDetour(w, Outbound, m, k, charge);
            on.Some? && on.value.Published? && At(on.value.m) == Some(Stop(t.conn, DEFAULT))
  {
    PassToBilling(w, Outbound, m, k);
    var back := HandedBack(Outbound, Process(w, Outbound, m, k).m, FromBilling(charge)).value.0;
    PassFromBilling(w, Outbound, back);
    DeliverToUsable(w, Acquired(w, Outbound, back, Stop(Billing(Inbound), DEFAULT)), Stop(t.conn, DEFAULT));
  }

  lemma ArrivesAsRouted(w: World, m: Msg, k: Kind, t: Stop)
    requires BoundFor(w, m, k, t)
    ensures var off := Process(WithoutBilling(w), Outbound, m, k);
            off.Published? && At(off.m) == Some(t)
  {
    PassWithoutBilling(WithoutBilling(w), Outbound, m, k);
    DeliverToUsable(w, Acquired(w, Outbound, m, Stop(SourceConnector(m, k, Outbound).value, m.endpoint)), t);
  }

  /**
   The default endpoint is what the detour costs: the billing worker's message is sent on to the
   transport's default endpoint, so it arrives where the table said exactly when the table said so.
   */
  lemma DetourForgetsEndpoint(w: World, m: Msg, k: Kind, charge: Charge, t: Stop)
    requires BoundFor(w, m, k, t) && !Dropped(m, charge)
    ensures var on := PassWithDetour(w, Outbound, m, k, charge);
            var off := Process(WithoutBilling(w), Outbound, m, k);
            && on.Some? && on.value.Published? && off.Published?
            && (At(on.value.m) == At(off.m) <==> t.endpoint == DEFAULT)
  {
    ArrivesAtDefault(w, m, k, charge, t);
    ArrivesAsRouted(w, m, k, t);
  }

  lemma DeliverToUsable(w: World, m: Msg, t: Stop)
    requires TransportsAreNotBilling(w.cfg) && m.HopPending()
    requires t.conn.TransportTag? && !NoTransport(w.cfg, t.conn.tagpool) && t.conn.tagpool in w.cfg.tagpoolTransports
    ensures var on := Deliver(w.cfg, m, t, Outbound); on.Published? && At(on.m) == Some(t)
    ensures var off := Deliver(WithoutBilling(w).cfg, m, t, Outbound); off.Published? && At(off.m) == Some(t)
  {
    DeliverIgnoresBilling(w, m, t, Outbound);
  }
}
