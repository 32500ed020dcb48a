/**
 Events go back the way the outbound message came. No routing table takes part: whatever has
 happened to the table since, an event undoes the message's hops one by one, last hop first.
 */
module EventRetrace {
  import opened Wrappers
  import opened Connectors
  import opened RoutingTables
  import opened Messages
  import opened Passes
  import opened Journeys

  /** An outbound message that has gone out through a transport, as the message store keeps it. */
  ghost predicate Delivered(sent: Msg) {
    && sent.hops != []
    && WellRouted(Outbound, sent.hops)
    && Carries(sent)
    && At(sent).value.conn.TransportTag?
    && sent.account.Some?
  }

  /** The store is given a copy of the message exactly when it leaves by a transport, and stores are kept. */
  predicate StoresRightly(cfg: Config, out: Outcome) {
    out.Published? && At(out.m).Some? ==>
      && (out.stored.Some? <==> At(out.m).value.conn.TransportTag? && cfg.storeToTransports)
      && (out.stored.Some? ==> out.stored.value == out.m.(endpoint := out.stored.value.endpoint))
  }

  lemma DeliverStores(cfg: Config, m: Msg, target: Stop)
    ensures StoresRightly(cfg, Deliver(cfg, m, target, Outbound))
  {
    if target.conn.Router? && cfg.RouterConnector(target.conn.routerType, Inbound).Some? {
      assert cfg.RouterConnector(target.conn.routerType, Inbound).value in cfg.routersInbound.Values;
    }
  }

  lemma PassStores(w: World, m: Msg, k: Kind)
    ensures StoresRightly(w.cfg, Process(w, Outbound, m, k))
  {
    var owned := Owned(w, Outbound, m);
    if AcquireSource(owned, k, Outbound).Success? {
      SendStores(w, AcquireSource(owned, k, Outbound).value, k, SourceConnector(owned, k, Outbound).value);
    }
  }

  lemma SendStores(w: World, m: Msg, k: Kind, src: Connector)
    ensures StoresRightly(w.cfg, SendOutbound(w.cfg, w.table, m, k, src, w.replyTag))
  {
    if k == OptOutKind {
      if w.replyTag.Some? {
        DeliverStores(w.cfg, m.(tag := w.replyTag), Stop(Billing(Outbound), DEFAULT));
        DeliverStores(w.cfg, m, Stop(TransportTag(w.replyTag.value.0, w.replyTag.value.1), DEFAULT));
      }
    } else if w.cfg.BillsOutbound() && k == BillingKind {
      if m.tag.Some? {
        DeliverStores(w.cfg, m, Stop(TransportTag(m.tag.value.0, m.tag.value.1), DEFAULT));
      }
    } else {
      RouteStores(w, if w.cfg.BillsOutbound() && k != TagKind then m.(paid := false) else m, src);
    }
  }

  lemma RouteStores(w: World, m: Msg, src: Connector)
    ensures StoresRightly(w.cfg, RouteOutbound(w.cfg, w.table, m, src))
  {
    match Lookup(w.table, src, m.endpoint)
    case None =>
    case Some(t) =>
      DeliverStores(w.cfg, m, t);
      if t.conn.TransportTag? {
        DeliverStores(w.cfg, m.(tag := Some((t.conn.tagpool, t.conn.tagname))), Stop(Billing(Outbound), DEFAULT));
      }
  }

  /** A pass that leaves a well routed message at a transport leaves one that can be retraced, and so does its copy. */
  lemma PassIsDelivered(w: World, m: Msg, k: Kind)
    requires Process(w, Outbound, m, k).Published? && OnItsWay(Outbound, Process(w, Outbound, m, k).m)
    ensures var out := Process(w, Outbound, m, k);
            && At(out.m).Some?
            && (At(out.m).value.conn.TransportTag? ==> Delivered(out.m))
            && (out.stored.Some? <==> At(out.m).value.conn.TransportTag? && w.cfg.storeToTransports)
            && (out.stored.Some? ==> Delivered(out.stored.value) && out.stored.value.hops == out.m.hops)
  {
    PassAddsHop(w, Outbound, m, k);
    PassStores(w, m, k);
  }

  /** What every journey that ends at a transport leaves in the store can be retraced, and nothing else is left there. */
  lemma JourneyIsDelivered(w: World, m: Msg, k: Kind, legs: seq<Leg>)
    requires AllRoutable(w, legs) && Starts(Outbound, m, k)
    ensures match Journey(w, Outbound, m, k, legs)
            case Some(Published(sent, _, stored)) =>
              && At(sent).Some?
              && (At(sent).value.conn.TransportTag? ==> Delivered(sent))
              && (stored.Some? <==> At(sent).value.conn.TransportTag? && w.cfg.storeToTransports)
              && (stored.Some? ==> Delivered(stored.value) && stored.value.hops == sent.hops)
            case _ => true
  {
    JourneyKeepsPath(w, Outbound, m, k, legs);
    if Journey(w, Outbound, m, k, legs).Some? && Journey(w, Outbound, m, k, legs).value.Published? {
      if legs == [] {
        PassIsDelivered(w, m, k);
      } else {
        var last := |legs| - 1;
        var sent := Journey(w, Outbound, m, k, legs[..last]).value.m;
        var (back, k') := HandedBack(Outbound, sent, legs[last].handoff).value;
        PassIsDelivered(w.(table := legs[last].table), back, k');
      }
    }
  }

  /** A new event from the transport: no hops yet, and nothing known about the message. */
  predicate Fresh(ev: Msg) {
    ev.hops == [] && ev.outboundHops.None? && !ev.unroutableReply
  }

  /** The worker an event was sent to, and how it hands the event back to the dispatcher, if at all. */
  function EventHandedBack(ev: Msg): Option<(Msg, Kind)> {
    match At(ev)
    case None => None
    case Some(at) =>
      match at.conn
      case Router(_, _, _) =>
        (match ev.NextRouterEndpoint()
         case None => None
         case Some(e) => Some((ev.(endpoint := e), RouterKind)))
      case Billing(_) => Some((ev.(endpoint := DEFAULT), BillingKind))
      case _ => None
  }

  /** The event's next pass, if its last one left it with a worker that hands it back. */
  function NextPass(cfg: Config, reached: Option<Outcome>, sent: Msg): Option<Outcome> {
    match reached
    case Some(Published(e, _, _)) =>
      (match EventHandedBack(e)
       case None => None
       case Some((back, k)) => Some(ProcessEvent(cfg, back, k, Some(sent))))
    case _ => None
  }

  /** How an event fares in its `passes`-th pass through the dispatcher; None if it never gets that far. */
  function Retrace(cfg: Config, ev: Msg, sent: Msg, passes: nat): Option<Outcome>
    requires passes >= 1
  {
    if passes == 1 then Some(ProcessEvent(cfg, ev, TagKind, Some(sent)))
    else NextPass(cfg, Retrace(cfg, ev, sent, passes - 1), sent)
  }

  predicate PublishedAfter(cfg: Config, ev: Msg, sent: Msg, passes: nat)
    requires passes >= 1
  {
    Retrace(cfg, ev, sent, passes).Some? && Retrace(cfg, ev, sent, passes).value.Published?
  }

  /** A hop turned round. */
  function Swap(h: Hop): Hop {
    if h.destination.Some? then Hop(h.destination.value, Some(h.source)) else h
  }

  /** The last `k` hops, last first, each turned round. */
  function Undone(hops: seq<Hop>, k: nat): (r: seq<Hop>)
    requires k <= |hops|
    ensures |r| == k
  {
    seq(k, i requires 0 <= i < k => Swap(hops[|hops| - 1 - i]))
  }

  /** The event has undone `p` hops and carries what the next pass needs. */
  ghost predicate Retraced(sent: Msg, ev: Msg, p: nat) {
    && p <= |sent.hops|
    && ev.hops == Undone(sent.hops, p)
    && ev.outboundHops == Some(sent.hops)
    && ev.account == sent.account && ev.tag == sent.tag
    && ev.unroutableReply == sent.unroutableReply
    && (p > 0 ==> Holds(ev, sent.hops[|sent.hops| - p].source.conn))
  }

  /** The pass published the event with `p` hops undone, on the connector that the configuration has for the last of them. */
  ghost predicate Going(cfg: Config, sent: Msg, reached: Option<Outcome>, p: nat)
    requires 1 <= p <= |sent.hops|
  {
    && reached.Some? && reached.value.Published? && Retraced(sent, reached.value.m, p)
    && NamedFor(cfg, Inbound, sent.hops[|sent.hops| - p].source.conn, reached.value.connector)
  }

  /** An event about a reply to an unroutable message is taken to be finished before its `p + 1`-th pass. */
  predicate FinishedBefore(sent: Msg, p: nat)
    requires p <= |sent.hops|
  {
    sent.unroutableReply && p > 0 && sent.hops[|sent.hops| - p] == sent.hops[0]
  }

  lemma DoneIsFinished(sent: Msg, ev: Msg, p: nat)
    requires Delivered(sent) && Retraced(sent, ev, p)
    ensures ev.UnroutableEventDone() <==> FinishedBefore(sent, p)
  {
    if p > 0 {
      assert GoodHop(Outbound, sent.hops, |sent.hops| - p);
      assert GoodHop(Outbound, sent.hops, 0);
      assert ev.hops[p - 1] == Swap(sent.hops[|sent.hops| - p]);
    }
  }

  /** The event comes in on the stop where the next hop to undo ended. */
  predicate ComesInAt(ev: Msg, k: Kind, stop: Option<Stop>) {
    && SourceConnector(ev, k, Inbound).Success?
    && stop == Some(Stop(SourceConnector(ev, k, Inbound).value, ev.endpoint))
  }

  lemma AcquireFindsNextHop(sent: Msg, ev: Msg, p: nat, k: Kind)
    requires Delivered(sent) && Retraced(sent, ev, p) && p < |sent.hops|
    requires ComesInAt(ev, k, sent.hops[|sent.hops| - 1 - p].destination)
    ensures AcquireSource(ev, k, Inbound).Success?
    ensures var acquired := AcquireSource(ev, k, Inbound).value;
            var undone := sent.hops[|sent.hops| - 1 - p];
            && acquired == ev.(hops := Undone(sent.hops, p) + [Hop(undone.destination.value, None)])
            && acquired.NextHop() == Some(undone.source)
  {
    if p > 0 {
      assert GoodHop(Outbound, sent.hops, |sent.hops| - p);
      assert ev.hops[p - 1] == Swap(sent.hops[|sent.hops| - p]);
    }
  }

  lemma DeliverToSource(cfg: Config, acquired: Msg, before: seq<Hop>, undone: Hop)
    requires undone.destination.Some? && DirectionOf(undone.source.conn) == Inbound
    requires acquired.hops == before + [Hop(undone.destination.value, None)]
    ensures var out := Deliver(cfg, acquired, undone.source, Inbound);
            && out.Published? && NamedFor(cfg, Inbound, undone.source.conn, out.connector)
            && out.m.hops == before + [Swap(undone)]
            && out.m.outboundHops == acquired.outboundHops && out.m.unroutableReply == acquired.unroutableReply
            && out.m.account == acquired.account && out.m.tag == acquired.tag
            && Holds(out.m, undone.source.conn)
  {
    DeliverFails(cfg, acquired, undone.source, Inbound);
    DeliverGains(cfg, acquired, before, undone.destination.value, undone.source, Inbound);
  }

  /** One pass of an event that comes in where the next hop to undo ended. */
  lemma PassUndoesHop(cfg: Config, sent: Msg, ev: Msg, p: nat, k: Kind)
    requires Delivered(sent) && Retraced(sent, ev, p) && p < |sent.hops|
    requires !FinishedBefore(sent, p)
    requires ComesInAt(ev, k, sent.hops[|sent.hops| - 1 - p].destination)
    ensures Going(cfg, sent, Some(ProcessEvent(cfg, ev, k, Some(sent))), p + 1)
  {
    DoneIsFinished(sent, ev, p);
    var undone := sent.hops[|sent.hops| - 1 - p];
    assert GoodHop(Outbound, sent.hops, |sent.hops| - 1 - p);
    AcquireFindsNextHop(sent, ev, p, k);
    var acquired := AcquireSource(ev, k, Inbound).value;
    DeliverToSource(cfg, acquired, Undone(sent.hops, p), undone);
    assert ProcessEvent(cfg, ev, k, Some(sent)) == Deliver(cfg, acquired, undone.source, Inbound);
    assert Undone(sent.hops, p + 1) == Undone(sent.hops, p) + [Swap(undone)];
  }

  /** Routers and billing hand the event back on just the stop where the next hop to undo ended. */
  lemma WorkerSuppliesStop(sent: Msg, ev: Msg, p: nat)
    requires Delivered(sent) && Retraced(sent, ev, p) && 0 < p < |sent.hops|
    ensures match EventHandedBack(ev)
            case None => false
            case Some((back, k)) =>
              && Retraced(sent, back, p)
              && ComesInAt(back, k, sent.hops[|sent.hops| - 1 - p].destination)
  {
    var n := |sent.hops|;
    assert GoodHop(Outbound, sent.hops, n - p);
    assert GoodHop(Outbound, sent.hops, n - p - 1);
    assert ev.hops[p - 1] == Swap(sent.hops[n - p]);
    FlipIsInvolution(sent.hops[n - p - 1].destination.value.conn);
  }

  lemma FirstPass(cfg: Config, ev: Msg, sent: Msg)
    requires Delivered(sent) && Fresh(ev) && ev.endpoint == At(sent).value.endpoint
    ensures Going(cfg, sent, Some(ProcessEvent(cfg, ev, TagKind, Some(sent))), 1)
  {
    var known := SetEventMetadata(ev, Some(sent)).m;
    assert Undone(sent.hops, 0) == [];
    assert SetEventMetadata(known, Some(sent)) == Finished(known);
    assert GoodHop(Outbound, sent.hops, |sent.hops| - 1);
    PassUndoesHop(cfg, sent, known, 0, TagKind);
  }

  lemma LaterPass(cfg: Config, sent: Msg, reached: Option<Outcome>, p: nat)
    requires Delivered(sent) && 0 < p < |sent.hops| && Going(cfg, sent, reached, p)
    ensures var next := NextPass(cfg, reached, sent);
            if FinishedBefore(sent, p) then next.Some? && next.value.Finished? else Going(cfg, sent, next, p + 1)
  {
    var ev := reached.value.m;
    WorkerSuppliesStop(sent, ev, p);
    var (back, k) := EventHandedBack(ev).value;
    assert NextPass(cfg, reached, sent) == Some(ProcessEvent(cfg, back, k, Some(sent)));
    if FinishedBefore(sent, p) {
      DoneIsFinished(sent, back, p);
    } else {
      PassUndoesHop(cfg, sent, back, p, k);
    }
  }

  /**
   The event's first pass succeeds exactly when it comes in on the endpoint the message went out by;
   after that every pass undoes one more hop, until the event is taken to be finished.
   */
  lemma {:induction false} EventUndoesHops(cfg: Config, ev: Msg, sent: Msg, p: nat)
    requires Delivered(sent) && Fresh(ev)
    requires ev.endpoint == At(sent).value.endpoint
    requires 1 <= p <= |sent.hops|
    requires forall q :: 1 <= q < p ==> !FinishedBefore(sent, q)
    ensures Going(cfg, sent, Retrace(cfg, ev, sent, p), p)
  {
    if p == 1 {
      FirstPass(cfg, ev, sent);
    } else {
      EventUndoesHops(cfg, ev, sent, p - 1);
      LaterPass(cfg, sent, Retrace(cfg, ev, sent, p - 1), p - 1);
    }
  }

  /** Off the endpoint the message went out by, an event is refused at once. */
  lemma WrongEndpointIsRefused(cfg: Config, ev: Msg, sent: Msg)
    requires Delivered(sent) && Fresh(ev)
    ensures Retrace(cfg, ev, sent, 1).value.Published? <==> ev.endpoint == At(sent).value.endpoint
    ensures ev.endpoint != At(sent).value.endpoint ==>
              Retrace(cfg, ev, sent, 1).value.Failed? && Retrace(cfg, ev, sent, 1).value.error == Unroutable
  {
    if ev.endpoint == At(sent).value.endpoint {
      EventUndoesHops(cfg, ev, sent, 1);
    }
  }

  /** Once all hops are undone there is no further pass: the dispatcher refuses the event, or knows it is done. */
  lemma NoHopBeyondSource(cfg: Config, ev: Msg, sent: Msg, k: Kind)
    requires Delivered(sent) && Retraced(sent, ev, |sent.hops|)
    ensures var out := ProcessEvent(cfg, ev, k, Some(sent));
            if sent.unroutableReply then out == Finished(ev) else out.Failed?
    ensures At(ev).Some? && (At(ev).value.conn.Router? ==> EventHandedBack(ev).None?)
  {
    DoneIsFinished(sent, ev, |sent.hops|);
    assert ev.hops[|sent.hops| - 1] == Swap(sent.hops[0]);
    assert GoodHop(Outbound, sent.hops, 0);
  }

  /** A hop of the message that is the same as its first one, other than the first itself. */
  predicate RepeatsFirstHop(sent: Msg) {
    exists i :: 0 < i < |sent.hops| && sent.hops[i] == sent.hops[0]
  }

  /**
   The event is at the message's first source, on the connector named for it, with all hops undone and as an event
   of the message's account; and no worker's endpoint brings it any further.
   */
  ghost predicate Returned(cfg: Config, sent: Msg, out: Outcome) {
    && sent.hops != [] && out.Published?
    && out.m.hops == Undone(sent.hops, |sent.hops|)
    && At(out.m) == Some(sent.hops[0].source)
    && NamedFor(cfg, Inbound, sent.hops[0].source.conn, out.connector)
    && out.m.account == sent.account && out.m.tag == sent.tag && Holds(out.m, sent.hops[0].source.conn)
    && forall k, endpoint :: !ProcessEvent(cfg, out.m.(endpoint := endpoint), k, Some(sent)).Published?
  }

  /**
   The whole retrace. In exactly as many passes as the message made hops, the event is back at the
   message's first source, its hops the message's reversed and turned round; and there it stops.
   The one exception is an event about a reply to an unroutable message that went round a loop
   through its own first hop: that event is dropped when it first undoes such a hop.
   */
  lemma EventReturnsToSource(cfg: Config, ev: Msg, sent: Msg)
    requires Delivered(sent) && Fresh(ev)
    requires ev.endpoint == At(sent).value.endpoint
    ensures if PublishedAfter(cfg, ev, sent, |sent.hops|)
            then Returned(cfg, sent, Retrace(cfg, ev, sent, |sent.hops|).value) && (sent.unroutableReply ==> !RepeatsFirstHop(sent))
            else sent.unroutableReply && RepeatsFirstHop(sent)
  {
    var n := |sent.hops|;
    if sent.unroutableReply && RepeatsFirstHop(sent) {
      var i :| 0 < i < n && sent.hops[i] == sent.hops[0];
      StopsAtRepeat(cfg, ev, sent, n - i, n);
    } else {
      forall q | 1 <= q < n ensures !FinishedBefore(sent, q) {
        assert sent.unroutableReply ==> sent.hops[n - q] != sent.hops[0];
      }
      EventUndoesHops(cfg, ev, sent, n);
      GoneBack(cfg, sent, Retrace(cfg, ev, sent, n));
    }
  }

  lemma GoneBack(cfg: Config, sent: Msg, reached: Option<Outcome>)
    requires Delivered(sent) && Going(cfg, sent, reached, |sent.hops|)
    ensures Returned(cfg, sent, reached.value)
  {
    var (n, e) := (|sent.hops|, reached.value.m);
    assert e.hops[n - 1] == Swap(sent.hops[0]);
    assert GoodHop(Outbound, sent.hops, 0);
    forall k, endpoint ensures !ProcessEvent(cfg, e.(endpoint := endpoint), k, Some(sent)).Published? {
      NoHopBeyondSource(cfg, e.(endpoint := endpoint), sent, k);
    }
  }

  lemma StopsAtFirstRepeat(cfg: Config, ev: Msg, sent: Msg, p: nat)
    requires Delivered(sent) && Fresh(ev) && ev.endpoint == At(sent).value.endpoint
    requires 1 <= p < |sent.hops| && FinishedBefore(sent, p)
    requires forall q :: 1 <= q < p ==> !FinishedBefore(sent, q)
    ensures !PublishedAfter(cfg, ev, sent, p + 1)
  {
    EventUndoesHops(cfg, ev, sent, p);
    LaterPass(cfg, sent, Retrace(cfg, ev, sent, p), p);
  }

  lemma {:induction false} FirstRepeat(sent: Msg, p: nat) returns (q: nat)
    requires 1 <= p <= |sent.hops| && FinishedBefore(sent, p)
    ensures 1 <= q <= p && FinishedBefore(sent, q)
    ensures forall r :: 1 <= r < q ==> !FinishedBefore(sent, r)
  {
    q := p;
    if r :| 1 <= r < p && FinishedBefore(sent, r) {
      q := FirstRepeat(sent, r);
    }
  }

  /** An event that was not published once is never published again. */
  lemma {:induction false} NeverAgain(cfg: Config, ev: Msg, sent: Msg, p: nat, n: nat)
    requires 1 <= p <= n && !PublishedAfter(cfg, ev, sent, p)
    ensures !PublishedAfter(cfg, ev, sent, n)
  {
    if n > p {
      NeverAgain(cfg, ev, sent, p, n - 1);
    }
  }

  lemma {:induction false} StopsAtRepeat(cfg: Config, ev: Msg, sent: Msg, p: nat, n: nat)
    requires Delivered(sent) && Fresh(ev) && ev.endpoint == At(sent).value.endpoint
    requires 1 <= p < n <= |sent.hops| && FinishedBefore(sent, p)
    ensures !PublishedAfter(cfg, ev, sent, n)
  {
    var q := FirstRepeat(sent, p);
    StopsAtFirstRepeat(cfg, ev, sent, q);
    NeverAgain(cfg, ev, sent, q + 1, n);
  }

  // ---------- A reply that goes round a loop ----------

  // Router A sends the reply to router B, which first sends it back to A and only then to the transport.

  function RouterOut(key: string): Connector {
    Router("keyword", key, Outbound)
  }

  function RouterIn(key: string): Connector {
    Router("keyword", key, Inbound)
  }

  const TO_TAG := Stop(TransportTag("pool", "tag"), DEFAULT)

  const LOOPING_TABLE: Nested :=
    map[RouterIn("A") := map[DEFAULT := Stop(RouterOut("B"), DEFAULT)],
        RouterIn("B") := map["back" := Stop(RouterOut("A"), DEFAULT), "on" := TO_TAG]]

  const LOOPING_WORLD :=
    World(Config(map[], map["keyword" := "router_in"], map["keyword" := "router_out"], "optout", None, None, {"transport"},
                 map["pool" := "transport"], map[], true),
          LOOPING_TABLE, "account", None, false)

  const UNROUTABLE_REPLY :=
    Msg([], None, true, DEFAULT, Some("account"), Some(("pool", "tag")), Some(("keyword", "A")), None, None, None, None, false,
        CloseSession, "")

  const LOOPING_LEGS := [Leg(FromRouter("back"), LOOPING_TABLE), Leg(FromRouter(DEFAULT), LOOPING_TABLE),
                         Leg(FromRouter("on"), LOOPING_TABLE)]

  /** The router that holds the reply before a pass. */
  function Holder(pass: nat): string {
    if pass % 2 == 0 then "A" else "B"
  }

  /** The endpoint that router sends it out of. */
  function SentFrom(pass: nat): string {
    if pass == 1 then "back" else if pass == 3 then "on" else DEFAULT
  }

  function SentTo(pass: nat): Stop {
    if pass == 3 then TO_TAG else Stop(RouterOut(Holder(pass + 1)), DEFAULT)
  }

  /** The hops of the reply after so many passes. */
  function LoopingHops(passes: nat): (hops: seq<Hop>)
    ensures |hops| == passes
  {
    if passes == 0 then []
    else LoopingHops(passes - 1) + [Hop(Stop(RouterIn(Holder(passes - 1)), SentFrom(passes - 1)), Some(SentTo(passes - 1)))]
  }

  lemma LoopingEntry(pass: nat)
    requires pass < 4
    ensures Lookup(LOOPING_TABLE, RouterIn(Holder(pass)), SentFrom(pass)) == Some(SentTo(pass))
  {
    assert RouterIn("A") != RouterIn("B") by {
      assert "A"[0] != "B"[0];
    }
    assert "back" != "on" && RouterIn("A") in LOOPING_TABLE && RouterIn("B") in LOOPING_TABLE;
  }

  lemma LoopingTableIsRoutable()
    ensures Routable(LOOPING_TABLE)
  {
    forall p | p in Flatten(LOOPING_TABLE)
      ensures OpposedDirections(p.0, Flatten(LOOPING_TABLE)[p].conn) && !Flatten(LOOPING_TABLE)[p].conn.Billing?
    {
      assert Has(LOOPING_TABLE, p);
      if p.0 == RouterIn("A") {
        assert p.1 == DEFAULT;
      } else {
        assert p.0 == RouterIn("B") && (p.1 == "back" || p.1 == "on");
      }
    }
    assert DEFAULT in LOOPING_TABLE[RouterIn("A")] && "on" in LOOPING_TABLE[RouterIn("B")];
  }

  lemma RoutedPass(m: Msg, key: string, endpoint: string, target: Stop)
    requires m.router == Some(("keyword", key)) && m.endpoint == endpoint && !m.HopPending()
    requires Lookup(LOOPING_TABLE, RouterIn(key), endpoint) == Some(target)
    requires (target.conn.Router? && target.conn.routerType == "keyword") || target == TO_TAG
    ensures var out := Process(LOOPING_WORLD, Outbound, m, RouterKind);
            && out.Published? && out.connector.Some?
            && out.m.hops == m.hops + [Hop(Stop(RouterIn(key), endpoint), Some(target))]
            && out.m.unroutableReply == m.unroutableReply
            && (target.conn.Router? ==> out.m.router == Some((target.conn.routerType, target.conn.routerKey)))
  {
    var acquired := AcquireSource(Owned(LOOPING_WORLD, Outbound, m), RouterKind, Outbound).value;
    assert LOOPING_WORLD.cfg.Kinds("transport") == Success(TagKind);
    assert Process(LOOPING_WORLD, Outbound, m, RouterKind) == Deliver(LOOPING_WORLD.cfg, acquired, target, Outbound);
    DeliverGains(LOOPING_WORLD.cfg, acquired, m.hops, Stop(RouterIn(key), endpoint), target, Outbound);
  }

  /** The reply after so many passes. */
  predicate Looped(sent: Msg, passes: nat)
    requires 1 <= passes <= 4
  {
    && sent.hops == LoopingHops(passes) && sent.unroutableReply
    && (passes < 4 ==> sent.router == Some(("keyword", Holder(passes))))
  }

  lemma LoopingStep(sent: Msg, passes: nat)
    requires 1 <= passes < 4 && Looped(sent, passes)
    ensures var out := Resume(LOOPING_WORLD, Outbound, sent, Leg(FromRouter(SentFrom(passes)), LOOPING_TABLE));
            out.Some? && out.value.Published? && out.value.connector.Some? && Looped(out.value.m, passes + 1)
  {
    var back := sent.(endpoint := SentFrom(passes));
    assert At(sent) == Some(SentTo(passes - 1));
    assert HandedBack(Outbound, sent, FromRouter(SentFrom(passes))) == Some((back, RouterKind));
    assert LOOPING_WORLD.(table := LOOPING_TABLE) == LOOPING_WORLD;
    LoopingEntry(passes);
    RoutedPass(back, Holder(passes), SentFrom(passes), SentTo(passes));
  }

  lemma LoopingPasses(passes: nat)
    requires 1 <= passes <= 4
    ensures var out := Journey(LOOPING_WORLD, Outbound, UNROUTABLE_REPLY, RouterKind, LOOPING_LEGS[..passes - 1]);
            out.Some? && out.value.Published? && out.value.connector.Some? && Looped(out.value.m, passes)
  {
    if passes == 1 {
      LoopingEntry(0);
      RoutedPass(UNROUTABLE_REPLY, "A", DEFAULT, Stop(RouterOut("B"), DEFAULT));
      assert LoopingHops(1) == [] + [Hop(Stop(RouterIn("A"), DEFAULT), Some(Stop(RouterOut("B"), DEFAULT)))];
    } else {
      LoopingPasses(passes - 1);
      var legs := LOOPING_LEGS[..passes - 1];
      assert legs[..|legs| - 1] == LOOPING_LEGS[..passes - 2];
      assert legs[|legs| - 1] == Leg(FromRouter(SentFrom(passes - 1)), LOOPING_TABLE);
      LoopingStep(Journey(LOOPING_WORLD, Outbound, UNROUTABLE_REPLY, RouterKind, LOOPING_LEGS[..passes - 2]).value.m, passes - 1);
    }
  }

  lemma LoopingRepeats(sent: Msg)
    requires Looped(sent, 4)
    ensures RepeatsFirstHop(sent) && |sent.hops| == 4
  {
    assert LoopingHops(1) == [] + [Hop(Stop(RouterIn("A"), DEFAULT), Some(Stop(RouterOut("B"), DEFAULT)))];
    assert LoopingHops(2)[0] == LoopingHops(1)[0];
    assert LoopingHops(3)[0] == LoopingHops(2)[0] == LoopingHops(3)[2];
    assert LoopingHops(4)[0] == LoopingHops(3)[0] && LoopingHops(4)[2] == LoopingHops(3)[2];
    assert sent.hops[2] == sent.hops[0];
  }

  /** The journey so far ends with the reply on a connector, so that the worker it was sent to gets it. */
  predicate PublishedSomewhere(legs: seq<Leg>) {
    var out := Journey(LOOPING_WORLD, Outbound, UNROUTABLE_REPLY, RouterKind, legs);
    out.Some? && out.value.Published? && out.value.connector.Some?
  }

  /** A journey through a valid table whose reply repeats its first hop: the event about it never gets back. */
  lemma LoopingReplyIsDropped(ev: Msg)
    requires Fresh(ev) && ev.endpoint == DEFAULT
    ensures AllRoutable(LOOPING_WORLD, LOOPING_LEGS) && Starts(Outbound, UNROUTABLE_REPLY, RouterKind)
    ensures forall legs :: legs <= LOOPING_LEGS ==> PublishedSomewhere(legs)
    ensures match Journey(LOOPING_WORLD, Outbound, UNROUTABLE_REPLY, RouterKind, LOOPING_LEGS)
            case Some(Published(sent, _, _)) =>
              && Delivered(sent) && sent.unroutableReply && RepeatsFirstHop(sent)
              && !PublishedAfter(LOOPING_WORLD.cfg, ev, sent, |sent.hops|)
            case _ => false
  {
    LoopingTableIsRoutable();
    forall legs | legs <= LOOPING_LEGS ensures PublishedSomewhere(legs) {
      LoopingPasses(|legs| + 1);
      assert legs == LOOPING_LEGS[..|legs|];
    }
    LoopingPasses(4);
    assert LOOPING_LEGS[..3] == LOOPING_LEGS;
    JourneyIsDelivered(LOOPING_WORLD, UNROUTABLE_REPLY, RouterKind, LOOPING_LEGS);
    var sent := Journey(LOOPING_WORLD, Outbound, UNROUTABLE_REPLY, RouterKind, LOOPING_LEGS).value.m;
    LoopingRepeats(sent);
    EventReturnsToSource(LOOPING_WORLD.cfg, ev, sent);
  }
}
