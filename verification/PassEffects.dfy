/**
 What a pass does to a message besides its path: the metadata it sets, the opt-out verdict, whether the
 message counts as paid, and everything that it leaves alone.
 */
module PassEffects {
  import opened Wrappers
  import opened Connectors
  import opened RoutingTables
  import opened Messages
  import opened Passes
  import opened Workers
  import opened Journeys
  import opened BillingDetour

  // ---------- One pass ----------

  /** The destination's metadata is set, and the rest of the metadata is left alone. */
  predicate Addressed(cfg: Config, m: Msg, target: Connector, sent: Msg) {
    && sent.conversation == (if target.Conversation? then Some((target.convType, target.convKey)) else m.conversation)
    && sent.router == (if target.Router? then Some((target.routerType, target.routerKey)) else m.router)
    && sent.transportName ==
       (if target.TransportTag? && target.tagpool in cfg.tagpoolTransports then Some(cfg.tagpoolTransports[target.tagpool])
        else m.transportName)
    && sent.transportType ==
       (if target.TransportTag? && target.tagpool in cfg.tagpoolTypes then Some(cfg.tagpoolTypes[target.tagpool])
        else m.transportType)
  }

  /** What no pass changes. */
  predicate Untouched(m: Msg, sent: Msg) {
    && sent.outboundHops == m.outboundHops && sent.unroutableReply == m.unroutableReply
    && sent.sessionEvent == m.sessionEvent && sent.content == m.content
  }

  lemma DeliverChanges(cfg: Config, m: Msg, target: Stop, d: Direction)
    requires Deliver(cfg, m, target, d).Published?
    ensures var sent := Deliver(cfg, m, target, d).m;
            && At(sent) == Some(target) && Addressed(cfg, m, target.conn, sent) && Untouched(m, sent)
            && sent.paid == m.paid && sent.optOut == m.optOut && sent.account == m.account
  {
  }

  /** A message that comes from a conversation or a router has still to be paid for. */
  predicate StartsUnpaid(w: World, d: Direction, k: Kind) {
    d == Outbound && w.cfg.BillsOutbound() && (k == ConversationKind || k == RouterKind)
  }

  /** The account and the destination are set; an inbound message keeps its opt-out verdict, or is given one. */
  predicate Changed(w: World, d: Direction, m: Msg, k: Kind, target: Connector, sent: Msg) {
    && sent.account == Some(w.account)
    && sent.optOut == (if d == Inbound && m.optOut.None? then Some(w.verdict) else m.optOut)
    && sent.paid == (m.paid && !StartsUnpaid(w, d, k))
    && Addressed(w.cfg, m, target, sent)
    && Untouched(m, sent)
  }

  lemma PassChanges(w: World, d: Direction, m: Msg, k: Kind)
    requires Process(w, d, m, k).Published?
    ensures var sent := Process(w, d, m, k).m; At(sent).Some? && Changed(w, d, m, k, At(sent).value.conn, sent)
  {
    match d
    case Inbound => InboundChanges(w, m, k);
    case Outbound => OutboundChanges(w, m, k);
  }

  lemma InboundChanges(w: World, m: Msg, k: Kind)
    requires Process(w, Inbound, m, k).Published?
    ensures var sent := Process(w, Inbound, m, k).m; At(sent).Some? && Changed(w, Inbound, m, k, At(sent).value.conn, sent)
  {
    var owned := Claimed(m, w.account, w.verdict);
    var src := SourceConnector(owned, k, Inbound).value;
    var acquired := AcquireSource(owned, k, Inbound).value;
    if w.cfg.BillsInbound() && k == TagKind {
      DeliverChanges(w.cfg, acquired, Stop(Billing(Inbound), DEFAULT), Inbound);
    } else if acquired.OptsOut() {
      DeliverChanges(w.cfg, acquired, Stop(OptOut, DEFAULT), Inbound);
    } else {
      var from := if w.cfg.BillsInbound() && k == BillingKind then TransportTag(m.tag.value.0, m.tag.value.1) else src;
      DeliverChanges(w.cfg, acquired, Lookup(w.table, from, m.endpoint).value, Inbound);
    }
  }

  lemma OutboundChanges(w: World, m: Msg, k: Kind)
    requires Process(w, Outbound, m, k).Published?
    ensures var sent := Process(w, Outbound, m, k).m; At(sent).Some? && Changed(w, Outbound, m, k, At(sent).value.conn, sent)
  {
    var owned := Owned(w, Outbound, m);
    var src := SourceConnector(owned, k, Outbound).value;
    SendChanges(w, AcquireSource(owned, k, Outbound).value, k, src);
  }

  lemma SendChanges(w: World, m: Msg, k: Kind, src: Connector)
    requires SendOutbound(w.cfg, w.table, m, k, src, w.replyTag).Published? && k != TagKind
    ensures var sent := SendOutbound(w.cfg, w.table, m, k, src, w.replyTag).m;
            && At(sent).Some? && Addressed(w.cfg, m, At(sent).value.conn, sent) && Untouched(m, sent)
            && sent.paid == (m.paid && !StartsUnpaid(w, Outbound, k)) && sent.optOut == m.optOut && sent.account == m.account
  {
    if k == OptOutKind {
      SendReplyChanges(w, m);
    } else if w.cfg.BillsOutbound() && k == BillingKind {
      DeliverChanges(w.cfg, m, Stop(TransportTag(m.tag.value.0, m.tag.value.1), DEFAULT), Outbound);
    } else {
      RouteChanges(w, if w.cfg.BillsOutbound() && k != TagKind then m.(paid := false) else m, src);
    }
  }

  lemma SendReplyChanges(w: World, m: Msg)
    requires SendReply(w.cfg, m, w.replyTag).Published?
    ensures var sent := SendReply(w.cfg, m, w.replyTag).m;
            && At(sent).Some? && Addressed(w.cfg, m, At(sent).value.conn, sent) && Untouched(m, sent)
            && sent.paid == m.paid && sent.optOut == m.optOut && sent.account == m.account
  {
    var (p, n) := w.replyTag.value;
    DeliverToBillingChanges(w.cfg, m, (p, n));
    if !w.cfg.BillsOutbound() {
      DeliverChanges(w.cfg, m, Stop(TransportTag(p, n), DEFAULT), Outbound);
    }
  }

  lemma DeliverToBillingChanges(cfg: Config, m: Msg, tag: (string, string))
    ensures var out := DeliverToBilling(cfg, m, tag);
            out.Published? ==>
              && At(out.m).Some? && Addressed(cfg, m, At(out.m).value.conn, out.m) && Untouched(m, out.m)
              && out.m.paid == m.paid && out.m.optOut == m.optOut && out.m.account == m.account
  {
    if DeliverToBilling(cfg, m, tag).Published? {
      DeliverChanges(cfg, m.(tag := Some(tag)), Stop(Billing(Outbound), DEFAULT), Outbound);
    }
  }

  lemma RouteChanges(w: World, m: Msg, src: Connector)
    requires RouteOutbound(w.cfg, w.table, m, src).Published?
    ensures var sent := RouteOutbound(w.cfg, w.table, m, src).m;
            && At(sent).Some? && Addressed(w.cfg, m, At(sent).value.conn, sent) && Untouched(m, sent)
            && sent.paid == m.paid && sent.optOut == m.optOut && sent.account == m.account
  {
    var t := Lookup(w.table, src, m.endpoint).value;
    if w.cfg.BillsOutbound() && t.conn.TransportTag? {
      DeliverToBillingChanges(w.cfg, m, (t.conn.tagpool, t.conn.tagname));
    } else {
      DeliverChanges(w.cfg, m, t, Outbound);
    }
  }

  // ---------- Events ----------

  predicate Knows(ev: Msg) {
    ev.outboundHops.Some? && ev.account.Some? && ev.tag.Some?
  }

  /** The event knows its message's hops and tag, and its account; replies to unroutable messages without hops have none. */
  predicate Learnt(ev: Msg, sent: Msg, known: Msg) {
    && known.outboundHops == Some(sent.hops) && known.tag == sent.tag
    && known.account == (if sent.unroutableReply && sent.hops == [] then ev.account else sent.account)
    && (known.unroutableReply <==> ev.unroutableReply || sent.unroutableReply)
    && known == ev.(outboundHops := known.outboundHops, tag := known.tag, account := known.account,
                    unroutableReply := known.unroutableReply)
  }

  /** An event that knows all it needs is left alone; any other learns it from its message, if the message has it. */
  lemma EventLearns(ev: Msg, stored: Option<Msg>)
    ensures var out := SetEventMetadata(ev, stored);
            if Knows(ev) then out == Finished(ev)
            else match stored
              case None => out == Failed(ev, Unroutable)
              case Some(sent) =>
                if sent.tag.Some? && (sent.account.Some? || (sent.unroutableReply && sent.hops == []))
                then out.Finished? && Learnt(ev, sent, out.m)
                else out.Failed? && out.error == Unroutable
  {
  }

  /** A published event has been delivered where the next hop leads. */
  lemma EventIsDelivered(cfg: Config, ev: Msg, k: Kind, stored: Option<Msg>) returns (acquired: Msg)
    requires ProcessEvent(cfg, ev, k, stored).Published?
    ensures var known := SetEventMetadata(ev, stored).m;
            && AcquireSource(known, k, Inbound) == Success(acquired) && acquired.NextHop().Some?
            && ProcessEvent(cfg, ev, k, stored) == Deliver(cfg, acquired, acquired.NextHop().value, Inbound)
            && known.hops == ev.hops && known.paid == ev.paid && known.optOut == ev.optOut
  {
    acquired := AcquireSource(SetEventMetadata(ev, stored).m, k, Inbound).value;
  }

  lemma DeliverAddsHop(cfg: Config, m: Msg, k: Kind, d: Direction, target: Stop)
    requires AcquireSource(m, k, d).Success? && Deliver(cfg, AcquireSource(m, k, d).value, target, d).Published?
    ensures var sent := Deliver(cfg, AcquireSource(m, k, d).value, target, d).m;
            |sent.hops| == |m.hops| + 1 && sent.hops[..|m.hops|] == m.hops
  {
    var src := SourceConnector(m, k, d).value;
    DeliverGains(cfg, AcquireSource(m, k, d).value, m.hops, Stop(src, m.endpoint), target, d);
  }

  /** A published event is what it has learnt, with one more hop, addressed to where it goes; nothing else changes. */
  lemma EventChanges(cfg: Config, ev: Msg, k: Kind, stored: Option<Msg>)
    requires ProcessEvent(cfg, ev, k, stored).Published?
    ensures var (known, sent) := (SetEventMetadata(ev, stored).m, ProcessEvent(cfg, ev, k, stored).m);
            && At(sent).Some? && Addressed(cfg, known, At(sent).value.conn, sent) && Untouched(known, sent)
            && sent.paid == ev.paid && sent.optOut == ev.optOut && sent.account == known.account
            && |sent.hops| == |ev.hops| + 1 && sent.hops[..|ev.hops|] == ev.hops
  {
    var acquired := EventIsDelivered(cfg, ev, k, stored);
    var target := acquired.NextHop().value;
    DeliverAddsHop(cfg, SetEventMetadata(ev, stored).m, k, Inbound, target);
    DeliverChanges(cfg, acquired, target, Inbound);
  }

  /** An event about a reply that went straight to a transport, and so has no hops to undo, is finished at once. */
  lemma ReplyWithoutHopsIsDone(cfg: Config, ev: Msg, k: Kind, sent: Msg)
    requires sent.unroutableReply && sent.hops == [] && sent.tag.Some? && ev.hops == [] && !Knows(ev)
    ensures ProcessEvent(cfg, ev, k, Some(sent)).Finished?
  {
  }

  // ---------- Opting out ----------

  /** The verdict on an inbound message: the one it has, or what is said of it now. */
  predicate Verdict(w: World, m: Msg) {
    if m.optOut.None? then w.verdict else m.optOut.value
  }

  /**
   An inbound message that is not on its way to billing goes to the opt-out worker exactly if the verdict says so,
   whatever the table has for it; otherwise it goes where the table says.
   */
  lemma VerdictDecides(w: World, m: Msg, k: Kind)
    requires Process(w, Inbound, m, k).Published? && !(w.cfg.BillsInbound() && k == TagKind)
    ensures var sent := Process(w, Inbound, m, k).m;
            && sent.optOut == Some(Verdict(w, m)) && At(sent).Some?
            && var from := if w.cfg.BillsInbound() && k == BillingKind && m.tag.Some?
                           then TransportTag(m.tag.value.0, m.tag.value.1) else SourceConnector(m, k, Inbound).value;
               At(sent) == if Verdict(w, m) then Some(Stop(OptOut, DEFAULT)) else Lookup(w.table, from, m.endpoint)
  {
    PassAddsHop(w, Inbound, m, k);
    PassChanges(w, Inbound, m, k);
  }

  // ---------- Billing ----------

  /** Billing drops an outbound message that is not part of a session when credit has run out, and no other message. */
  lemma BillingStopsExactly(m: Msg, charge: Charge, d: Direction)
    ensures Billed(m, charge, d).None? <==>
            d == Outbound && (exists t :: charge == Replied(t, true)) && m.sessionEvent in {NoSession, NewSession}
  {
    if charge.Replied? && charge.cutoff {
      assert charge == Replied(charge.transaction, true);
    }
  }

  /** What billing hands back: paid if it was charged, closed with an apology if credit has run out, else as it was. */
  predicate BilledRightly(m: Msg, charge: Charge, d: Direction, back: Msg) {
    && back.paid == (m.paid || (exists c :: charge == Replied(true, c)))
    && (if d == Outbound && (exists t :: charge == Replied(t, true))
        then back.sessionEvent == CloseSession && back.content == CREDIT_LIMIT_MESSAGE
        else back.sessionEvent == m.sessionEvent && back.content == m.content)
    && back == m.(endpoint := DEFAULT, paid := back.paid, sessionEvent := back.sessionEvent, content := back.content)
  }

  lemma BilledIsRight(m: Msg, charge: Charge, d: Direction)
    ensures Billed(m, charge, d).Some? ==> BilledRightly(m, charge, d, Billed(m, charge, d).value)
  {
    if charge.Replied? {
      assert charge == Replied(charge.transaction, charge.cutoff);
    }
  }

  /**
   A message that a conversation or a router sends to a transport leaves paid exactly if billing charged for it, and
   with its own content unless credit has run out; whatever it said of itself before.
   */
  lemma DetouredIsPaid(w: World, m: Msg, k: Kind, charge: Charge)
    requires Detourable(w) && k in {ConversationKind, RouterKind}
    requires AtBilling(Process(w, Outbound, m, k))
    ensures match PassWithDetour(w, Outbound, m, k, charge)
            case Some(Published(sent, _, _)) =>
              && (sent.paid <==> exists c :: charge == Replied(true, c))
              && (if exists t :: charge == Replied(t, true)
                  then sent.sessionEvent == CloseSession && sent.content == CREDIT_LIMIT_MESSAGE
                  else sent.sessionEvent == m.sessionEvent && sent.content == m.content)
            case _ => true
  {
    PassChanges(w, Outbound, m, k);
    var sent := Process(w, Outbound, m, k).m;
    BilledIsRight(sent, charge, Outbound);
    ResumedFromBilling(w, Outbound, sent, charge);
    if Billed(sent, charge, Outbound).Some? {
      var back := Billed(sent, charge, Outbound).value;
      if Process(w, Outbound, back, BillingKind).Published? {
        PassChanges(w, Outbound, back, BillingKind);
      }
    }
  }
}
