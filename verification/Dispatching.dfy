/**
 The account routing table dispatcher (AccountRoutingTableDispatcher): for each message it
 works out the source connector, finds the destination, and publishes the message there,
 overwriting the message's metadata as it goes.
 */
module Dispatching {
  import opened Wrappers
  import opened Connectors
  import opened RoutingTables
  import opened Messages
  import opened Passes

  /** What a pass adds to the message store. */
  function StoredBy(out: Outcome): seq<Msg> {
    if out.Published? && out.stored.Some? then [out.stored.value] else []
  }

  class Dispatcher {
    const cfg: Config
    /** The message store. */
    var store: seq<Msg>

    constructor (cfg: Config)
      ensures this.cfg == cfg && store == []
    {
      this.cfg := cfg;
      store := [];
    }

    method AcquireSource(msg: Message, k: Kind, d: Direction) returns (r: Result<Connector, RoutingError>)
      modifies msg`hops
      ensures match Passes.AcquireSource(old(msg.View()), k, d)
              case Success(m) => r == SourceConnector(old(msg.View()), k, d) && msg.View() == m
              case Failure(e) => r == Failure(e) && msg.View() == old(msg.View())
    {
      var allowed := match d
        case Inbound => k == TagKind || k == RouterKind || k == BillingKind
        case Outbound => k == ConversationKind || k == RouterKind || k == OptOutKind || k == BillingKind;
      if !allowed {
        return Failure(WrongType);
      }
      var conn: Connector;
      match k {
        case ConversationKind =>
          if msg.conversation.None? { return Failure(MissingMetadata); }
          conn := Conversation(msg.conversation.value.0, msg.conversation.value.1);
        case RouterKind =>
          if msg.router.None? { return Failure(MissingMetadata); }
          conn := Router(msg.router.value.0, msg.router.value.1, Opposite(d));
        case TagKind =>
          if msg.tag.None? { return Failure(MissingMetadata); }
          conn := TransportTag(msg.tag.value.0, msg.tag.value.1);
        case OptOutKind =>
          conn := OptOut;
        case BillingKind =>
          conn := Billing(Opposite(d));
      }
      var pushed := msg.PushSource(Stop(conn, msg.endpoint));
      match pushed {
        case Failure(e) => return Failure(e);
        case Success(_) => return Success(conn);
      }
    }

    /** `set_destination` up to where it completes the hop: writes the destination's metadata and looks up its connector. */
    method FindDestination(msg: Message, target: Connector, d: Direction) returns (r: Result<Option<string>, RoutingError>)
      modifies msg
      ensures match Passes.FindDestination(cfg, old(msg.View()), target, d)
              case Refused(m, e) => r == Failure(e) && msg.View() == m
              case Known(m, connector) => r == Success(connector) && msg.View() == m
    {
      if !MayGoTo(d, KindOf(target)) {
        return Failure(WrongType);
      }
      match target {
        case Conversation(t, k) =>
          msg.conversation := Some((t, k));
          return Success(Get(cfg.applications, t));
        case Router(t, k, _) =>
          msg.router := Some((t, k));
          return Success(cfg.RouterConnector(t, Opposite(d)));
        case TransportTag(p, n) =>
          r := FindTransport(msg, p, n, d);
        case OptOut =>
          return Success(Some(cfg.optOutConnector));
        case Billing(_) =>
          return Success(if d == Inbound then cfg.billingInbound else cfg.billingOutbound);
      }
    }

    /** The transport that the tag's pool names, provided that it is one. */
    method FindTransport(msg: Message, p: string, n: string, d: Direction) returns (r: Result<Option<string>, RoutingError>)
      requires d == Outbound
      modifies msg
      ensures match Passes.FindDestination(cfg, old(msg.View()), TransportTag(p, n), d)
              case Refused(m, e) => r == Failure(e) && msg.View() == m
              case Known(m, connector) => r == Success(connector) && msg.View() == m
    {
      msg.tag := Some((p, n));
      if p !in cfg.tagpoolTransports {
        return Failure(Unroutable);
      }
      var name := cfg.tagpoolTransports[p];
      var kind := cfg.Kinds(name);
      if kind.Failure? {
        return Failure(kind.error);
      }
      if kind.value != TagKind {
        return Failure(Unroutable);
      }
      msg.transportName := Some(name);
      if p in cfg.tagpoolTypes {
        msg.transportType := Some(cfg.tagpoolTypes[p]);
      }
      return Success(Some(name));
    }

    method Deliver(msg: Message, target: Stop, d: Direction) returns (out: Outcome)
      modifies msg, this`store
      ensures store == old(store) + StoredBy(out)
      ensures out == Passes.Deliver(cfg, old(msg.View()), target, d) && msg.View() == out.m
    {
      var connector := FindDestination(msg, target.conn, d);
      if connector.Failure? {
        return Failed(msg.View(), connector.error);
      }
      var pushed := msg.PushDestination(target);
      if pushed.Failure? {
        return Failed(msg.View(), pushed.error);
      }
      if d == Outbound {
        out := PublishOutbound(msg, connector.value, target.endpoint);
      } else {
        msg.endpoint := target.endpoint;
        out := Published(msg.View(), connector.value, None);
      }
    }

    /** Stores the message where it leaves for good, and publishes it. */
    method PublishOutbound(msg: Message, connector: Option<string>, endpoint: string) returns (out: Outcome)
      modifies msg`endpoint, this`store
      ensures out == Published(old(msg.View()).(endpoint := endpoint), connector, Filed(cfg, old(msg.View()), connector, Outbound))
      ensures msg.View() == out.m && store == old(store) + StoredBy(out)
    {
      var stored := None;
      if connector.Some? && cfg.IsTransport(connector.value) {
        if cfg.storeToTransports {
          store := store + [msg.View()];
          stored := Some(msg.View());
        }
      }
      msg.endpoint := endpoint;
      out := Published(msg.View(), connector, stored);
    }

    method ProcessInbound(table: Nested, account: string, verdict: bool, msg: Message, connectorName: string) returns (out: Outcome)
      modifies msg, this`store
      ensures store == old(store) + StoredBy(out)
      ensures msg.View() == out.m
      ensures out == match cfg.Kinds(connectorName)
                     case Failure(e) => Failed(Claimed(old(msg.View()), account, verdict), e)
                     case Success(k) => Passes.ProcessInbound(cfg, table, account, verdict, old(msg.View()), k)
    {
      if msg.optOut.None? {
        msg.optOut := Some(verdict);
      }
      msg.account := Some(account);
      var kind := cfg.Kinds(connectorName);
      if kind.Failure? {
        return Failed(msg.View(), kind.error);
      }
      var source := AcquireSource(msg, kind.value, Inbound);
      if source.Failure? {
        return Failed(msg.View(), source.error);
      }
      out := SendInbound(table, msg, kind.value, source.value);
    }

    method SendInbound(table: Nested, msg: Message, k: Kind, src: Connector)
      returns (out: Outcome)
      modifies msg, this`store
      ensures store == old(store) + StoredBy(out)
      ensures out == Passes.SendInbound(cfg, table, old(msg.View()), k, src) && msg.View() == out.m
    {
      var from := src;
      if cfg.BillsInbound() {
        if k == TagKind {
          out := Deliver(msg, Stop(Billing(Inbound), DEFAULT), Inbound);
          return;
        }
        if k == BillingKind {
          if msg.tag.None? {
            return Failed(msg.View(), MissingMetadata);
          }
          from := TransportTag(msg.tag.value.0, msg.tag.value.1);
        }
      }
      if msg.optOut == Some(true) {
        out := Deliver(msg, Stop(OptOut, DEFAULT), Inbound);
        return;
      }
      var target := Lookup(table, from, msg.endpoint);
      if target.None? {
        return Failed(msg.View(), NoTarget);
      }
      out := Deliver(msg, target.value, Inbound);
    }

    method ProcessOutbound(table: Nested, account: string, msg: Message, connectorName: string,
                           replyTag: Option<(string, string)>)
      returns (out: Outcome)
      modifies msg, this`store
      ensures store == old(store) + StoredBy(out)
      ensures msg.View() == out.m
      ensures out == match cfg.Kinds(connectorName)
                     case Failure(e) => Failed(old(msg.View()).(account := Some(account)), e)
                     case Success(k) => Passes.ProcessOutbound(cfg, table, account, old(msg.View()), k, replyTag)
    {
      msg.account := Some(account);
      var kind := cfg.Kinds(connectorName);
      if kind.Failure? {
        return Failed(msg.View(), kind.error);
      }
      var source := AcquireSource(msg, kind.value, Outbound);
      if source.Failure? {
        return Failed(msg.View(), source.error);
      }
      out := SendOutbound(table, msg, kind.value, source.value, replyTag);
    }

    method SendOutbound(table: Nested, msg: Message, k: Kind, src: Connector, replyTag: Option<(string, string)>)
      returns (out: Outcome)
      modifies msg, this`store
      ensures store == old(store) + StoredBy(out)
      ensures out == Passes.SendOutbound(cfg, table, old(msg.View()), k, src, replyTag) && msg.View() == out.m
    {
      if k == OptOutKind {
        out := SendReply(msg, replyTag);
      } else if cfg.BillsOutbound() && k == BillingKind {
        out := SendFromBilling(msg);
      } else {
        if cfg.BillsOutbound() && k != TagKind {
          ResetPaid(msg);
        }
        out := RouteOutbound(table, msg, src);
      }
    }

    method ResetPaid(msg: Message)
      modifies msg`paid
      ensures msg.View() == old(msg.View()).(paid := false)
    {
      msg.paid := false;
    }

    /** A reply from the opt-out worker. */
    method SendReply(msg: Message, replyTag: Option<(string, string)>) returns (out: Outcome)
      modifies msg, this`store
      ensures store == old(store) + StoredBy(out)
      ensures out == Passes.SendReply(cfg, old(msg.View()), replyTag) && msg.View() == out.m
    {
      if replyTag.None? {
        return Failed(msg.View(), Unroutable);
      }
      if cfg.BillsOutbound() {
        out := DeliverToBilling(msg, replyTag.value);
      } else {
        out := Deliver(msg, Stop(TransportTag(replyTag.value.0, replyTag.value.1), DEFAULT), Outbound);
      }
    }

    /** A message that comes back from billing. */
    method SendFromBilling(msg: Message) returns (out: Outcome)
      modifies msg, this`store
      ensures store == old(store) + StoredBy(out)
      ensures out == Passes.SendFromBilling(cfg, old(msg.View())) && msg.View() == out.m
    {
      if msg.tag.None? {
        return Failed(msg.View(), MissingMetadata);
      }
      out := Deliver(msg, Stop(TransportTag(msg.tag.value.0, msg.tag.value.1), DEFAULT), Outbound);
    }

    method RouteOutbound(table: Nested, msg: Message, src: Connector) returns (out: Outcome)
      modifies msg, this`store
      ensures store == old(store) + StoredBy(out)
      ensures out == Passes.RouteOutbound(cfg, table, old(msg.View()), src) && msg.View() == out.m
    {
      var target := Lookup(table, src, msg.endpoint);
      if target.None? {
        return Failed(msg.View(), NoTarget);
      }
      if cfg.BillsOutbound() && target.value.conn.TransportTag? {
        out := DeliverToBilling(msg, (target.value.conn.tagpool, target.value.conn.tagname));
        return;
      }
      out := Deliver(msg, target.value, Outbound);
    }

    method DeliverToBilling(msg: Message, tag: (string, string)) returns (out: Outcome)
      modifies msg, this`store
      ensures store == old(store) + StoredBy(out)
      ensures out == Passes.DeliverToBilling(cfg, old(msg.View()), tag) && msg.View() == out.m
    {
      msg.tag := Some(tag);
      out := Deliver(msg, Stop(Billing(Outbound), DEFAULT), Outbound);
    }

    method SetEventMetadata(event: Message, stored: Option<Msg>) returns (out: Outcome)
      modifies event
      ensures out == Passes.SetEventMetadata(old(event.View()), stored) && event.View() == out.m
    {
      if event.outboundHops.Some? && event.account.Some? && event.tag.Some? {
        return Finished(event.View());
      }
      if stored.None? {
        return Failed(event.View(), Unroutable);
      }
      var sent := stored.value;
      event.outboundHops := Some(sent.hops);
      if sent.unroutableReply {
        event.unroutableReply := true;
      }
      if sent.tag.None? {
        return Failed(event.View(), Unroutable);
      }
      event.tag := sent.tag;
      if !sent.unroutableReply || sent.hops != [] {
        if sent.account.None? {
          return Failed(event.View(), Unroutable);
        }
        event.account := sent.account;
      }
      return Finished(event.View());
    }

    method ProcessEvent(event: Message, connectorName: string, stored: Option<Msg>) returns (out: Outcome)
      modifies event, this`store
      ensures store == old(store) + StoredBy(out)
      ensures event.View() == out.m
      ensures match cfg.Kinds(connectorName)
              case Success(k) => out == Passes.ProcessEvent(cfg, old(event.View()), k, stored)
              case Failure(e) =>
                out == var known := Passes.SetEventMetadata(old(event.View()), stored);
                       if known.Failed? || known.m.UnroutableEventDone() then known else Failed(known.m, e)
    {
      var known := SetEventMetadata(event, stored);
      if known.Failed? {
        return known;
      }
      if event.View().UnroutableEventDone() {
        return known;
      }
      var kind := cfg.Kinds(connectorName);
      if kind.Failure? {
        return Failed(event.View(), kind.error);
      }
      var source := AcquireSource(event, kind.value, Inbound);
      if source.Failure? {
        return Failed(event.View(), source.error);
      }
      var target := event.NextHop();
      if target.None? {
        return Failed(event.View(), Unroutable);
      }
      out := Deliver(event, target.value, Inbound);
    }
  }
}
