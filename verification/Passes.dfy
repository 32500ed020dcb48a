/**
 What one pass through the account routing table dispatcher does to a message: the message
 and the outcome as functions of the message that came in. `Dispatching` does it step by step.
 */
module Passes {
  import opened Wrappers
  import opened Connectors
  import opened RoutingTables
  import opened Messages

  datatype Kind = ConversationKind | RouterKind | TagKind | OptOutKind | BillingKind

  function KindOf(c: Connector): Kind {
    match c
    case Conversation(_, _) => ConversationKind
    case Router(_, _, _) => RouterKind
    case TransportTag(_, _) => TagKind
    case OptOut => OptOutKind
    case Billing(_) => BillingKind
  }

  /** The dispatcher's static configuration. */
  datatype Config = Config(
    applications: map<string, string>,
    routersInbound: map<string, string>,
    routersOutbound: map<string, string>,
    optOutConnector: string,
    billingInbound: Option<string>,
    billingOutbound: Option<string>,
    receiveInbound: set<string>,
    tagpoolTransports: map<string, string>,
    tagpoolTypes: map<string, string>,
    storeToTransports: bool)
  {
    predicate BillsInbound() { billingInbound.Some? && billingInbound.value != "" }

    predicate BillsOutbound() { billingOutbound.Some? && billingOutbound.value != "" }

    function Kinds(name: string): Result<Kind, RoutingError> {
      if Some(name) == billingInbound || Some(name) == billingOutbound then Success(BillingKind)
      else if name in applications.Values then Success(ConversationKind)
      else if name in routersInbound.Values || name in routersOutbound.Values then Success(RouterKind)
      else if name in receiveInbound then Success(TagKind)
      else if name == optOutConnector then Success(OptOutKind)
      else Failure(InvalidConnector)
    }

    /** The connectors on which outbound messages leave for good. */
    predicate IsTransport(name: string) {
      && name in receiveInbound
      && name !in routersInbound.Values && name !in routersOutbound.Values
      && Some(name) != billingInbound && Some(name) != billingOutbound
    }

    function RouterConnector(routerType: string, d: Direction): Option<string> {
      match d
      case Inbound => Get(routersInbound, routerType)
      case Outbound => Get(routersOutbound, routerType)
    }
  }

  function Get(m: map<string, string>, k: string): Option<string> {
    if k in m then Some(m[k]) else None
  }

  /** The kinds of connector a message travelling in direction `d` may be sent to. */
  predicate MayGoTo(d: Direction, k: Kind) {
    match d
    case Inbound => k in {ConversationKind, RouterKind, OptOutKind, BillingKind}
    case Outbound => k in {RouterKind, TagKind, BillingKind}
  }

  /** The kinds of connector a message travelling in direction `d` may come from. */
  predicate MayComeFrom(d: Direction, k: Kind) {
    match d
    case Inbound => k in {TagKind, RouterKind, BillingKind}
    case Outbound => k in {ConversationKind, RouterKind, OptOutKind, BillingKind}
  }

  /** How one pass through the dispatcher ends, the message it leaves behind, and the copy put into the message store. */
  datatype Outcome =
    | Published(m: Msg, connector: Option<string>, stored: Option<Msg>)
    | Finished(m: Msg)
    | Failed(m: Msg, error: RoutingError)

  /** The source connector of a message, from the kind of connector it came in on and its metadata. */
  function SourceConnector(m: Msg, k: Kind, d: Direction): Result<Connector, RoutingError> {
    if !MayComeFrom(d, k) then Failure(WrongType)
    else match k
      case ConversationKind =>
        if m.conversation.Some? then Success(Conversation(m.conversation.value.0, m.conversation.value.1))
        else Failure(MissingMetadata)
      case RouterKind =>
        if m.router.Some? then Success(Router(m.router.value.0, m.router.value.1, Opposite(d)))
        else Failure(MissingMetadata)
      case TagKind =>
        if m.tag.Some? then Success(TransportTag(m.tag.value.0, m.tag.value.1)) else Failure(MissingMetadata)
      case OptOutKind => Success(OptOut)
      case BillingKind => Success(Billing(Opposite(d)))
  }

  function AcquireSource(m: Msg, k: Kind, d: Direction): Result<Msg, RoutingError> {
    match SourceConnector(m, k, d)
    case Failure(e) => Failure(e)
    case Success(conn) => m.PushSource(Stop(conn, m.endpoint))
  }

  /** The copy of a message that is stored when it is published on the connector. */
  function Filed(cfg: Config, m: Msg, connector: Option<string>, d: Direction): Option<Msg> {
    if d == Outbound && cfg.storeToTransports && connector.Some? && cfg.IsTransport(connector.value) then Some(m) else None
  }

  /** Complete the hop, hand the message to the connector and stamp the endpoint on it. */
  function Arrive(cfg: Config, m: Msg, connector: Option<string>, target: Stop, d: Direction): Outcome {
    match m.PushDestination(target)
    case Failure(e) => Failed(m, e)
    case Success(pushed) => Published(pushed.(endpoint := target.endpoint), connector, Filed(cfg, pushed, connector, d))
  }

  /** What `set_destination` looks up and writes before it completes the hop. */
  datatype Destination = Known(m: Msg, connector: Option<string>) | Refused(m: Msg, error: RoutingError)

  function FindDestination(cfg: Config, m: Msg, target: Connector, d: Direction): Destination {
    if !MayGoTo(d, KindOf(target)) then Refused(m, WrongType)
    else match target
      case Conversation(t, k) => Known(m.(conversation := Some((t, k))), Get(cfg.applications, t))
      case Router(t, k, _) => Known(m.(router := Some((t, k))), cfg.RouterConnector(t, Opposite(d)))
      case TransportTag(p, n) =>
        var tagged := m.(tag := Some((p, n)));
        if p !in cfg.tagpoolTransports then Refused(tagged, Unroutable)
        else
          var name := cfg.tagpoolTransports[p];
          if cfg.Kinds(name).Failure? then Refused(tagged, InvalidConnector)
          else if cfg.Kinds(name).value != TagKind then Refused(tagged, Unroutable)
          else
            Known(tagged.(transportName := Some(name),
                          transportType := if p in cfg.tagpoolTypes then Some(cfg.tagpoolTypes[p]) else m.transportType),
                  Some(name))
      case OptOut => Known(m, Some(cfg.optOutConnector))
      case Billing(_) => Known(m, if d == Inbound then cfg.billingInbound else cfg.billingOutbound)
  }

  /** `set_destination` followed by publishing there. */
  function Deliver(cfg: Config, m: Msg, target: Stop, d: Direction): Outcome {
    match FindDestination(cfg, m, target.conn, d)
    case Refused(refused, e) => Failed(refused, e)
    case Known(known, connector) => Arrive(cfg, known, connector, target, d)
  }

  function SendInbound(cfg: Config, table: Nested, m: Msg, k: Kind, src: Connector): Outcome {
    if cfg.BillsInbound() && k == TagKind then Deliver(cfg, m, Stop(Billing(Inbound), DEFAULT), Inbound)
    else if cfg.BillsInbound() && k == BillingKind && m.tag.None? then Failed(m, MissingMetadata)
    else if m.OptsOut() then Deliver(cfg, m, Stop(OptOut, DEFAULT), Inbound)
    else
      var from := if cfg.BillsInbound() && k == BillingKind then TransportTag(m.tag.value.0, m.tag.value.1) else src;
      match Lookup(table, from, m.endpoint)
      case None => Failed(m, NoTarget)
      case Some(target) => Deliver(cfg, m, target, Inbound)
  }

  /** `verdict` is what the opt-out helper says of the message; it is asked only once. */
  function Claimed(m: Msg, account: string, verdict: bool): Msg {
    m.(account := Some(account), optOut := if m.optOut.None? then Some(verdict) else m.optOut)
  }

  function ProcessInbound(cfg: Config, table: Nested, account: string, verdict: bool, m: Msg, k: Kind): Outcome {
    var owned := Claimed(m, account, verdict);
    match AcquireSource(owned, k, Inbound)
    case Failure(e) => Failed(owned, e)
    case Success(acquired) => SendInbound(cfg, table, acquired, k, SourceConnector(owned, k, Inbound).value)
  }

  function DeliverToBilling(cfg: Config, m: Msg, tag: (string, string)): Outcome {
    Deliver(cfg, m.(tag := Some(tag)), Stop(Billing(Outbound), DEFAULT), Outbound)
  }

  /** Follow the routing table; with billing on, whatever is bound for a transport goes to billing first. */
  function RouteOutbound(cfg: Config, table: Nested, m: Msg, src: Connector): Outcome {
    match Lookup(table, src, m.endpoint)
    case None => Failed(m, NoTarget)
    case Some(target) =>
      if cfg.BillsOutbound() && target.conn.TransportTag? then
        DeliverToBilling(cfg, m, (target.conn.tagpool, target.conn.tagname))
      else Deliver(cfg, m, target, Outbound)
  }

  /** `replyTag` is the tag of the message being replied to, where that message can be found. */
  function SendReply(cfg: Config, m: Msg, replyTag: Option<(string, string)>): Outcome {
    if replyTag.None? then Failed(m, Unroutable)
    else if cfg.BillsOutbound() then DeliverToBilling(cfg, m, replyTag.value)
    else Deliver(cfg, m, Stop(TransportTag(replyTag.value.0, replyTag.value.1), DEFAULT), Outbound)
  }

  function SendFromBilling(cfg: Config, m: Msg): Outcome {
    if m.tag.None? then Failed(m, MissingMetadata)
    else Deliver(cfg, m, Stop(TransportTag(m.tag.value.0, m.tag.value.1), DEFAULT), Outbound)
  }

  function SendOutbound(cfg: Config, table: Nested, m: Msg, k: Kind, src: Connector,
                        replyTag: Option<(string, string)>): Outcome
  {
    if k == OptOutKind then SendReply(cfg, m, replyTag)
    else if cfg.BillsOutbound() && k == BillingKind then SendFromBilling(cfg, m)
    else
      RouteOutbound(cfg, table, if cfg.BillsOutbound() && k != TagKind then m.(paid := false) else m, src)
  }

  function ProcessOutbound(cfg: Config, table: Nested, account: string, m: Msg, k: Kind,
                           replyTag: Option<(string, string)>): Outcome
  {
    var owned := m.(account := Some(account));
    match AcquireSource(owned, k, Outbound)
    case Failure(e) => Failed(owned, e)
    case Success(acquired) =>
      SendOutbound(cfg, table, acquired, k, SourceConnector(owned, k, Outbound).value, replyTag)
  }

  /** Fill in what the event does not know yet from the stored outbound message it is about. */
  function SetEventMetadata(ev: Msg, stored: Option<Msg>): Outcome {
    if ev.outboundHops.Some? && ev.account.Some? && ev.tag.Some? then Finished(ev)
    else if stored.None? then Failed(ev, Unroutable)
    else
      var sent := stored.value;
      var hopped := ev.(outboundHops := Some(sent.hops), unroutableReply := ev.unroutableReply || sent.unroutableReply);
      if sent.tag.None? then Failed(hopped, Unroutable)
      else
        var tagged := hopped.(tag := sent.tag);
        if sent.unroutableReply && sent.hops == [] then Finished(tagged)
        else if sent.account.None? then Failed(tagged, Unroutable)
        else Finished(tagged.(account := sent.account))
  }

  /** Events take no routing table: they undo the hops of the outbound message. */
  function ProcessEvent(cfg: Config, ev: Msg, k: Kind, stored: Option<Msg>): Outcome {
    var known := SetEventMetadata(ev, stored);
    if known.Failed? then known
    else if known.m.UnroutableEventDone() then known
    else match AcquireSource(known.m, k, Inbound)
      case Failure(e) => Failed(known.m, e)
      case Success(acquired) =>
        match acquired.NextHop()
        case None => Failed(acquired, Unroutable)
        case Some(target) => Deliver(cfg, acquired, target, Inbound)
  }
}
