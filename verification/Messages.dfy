/**
 Messages and events, and the routing metadata they carry (RoutingMetadata): the hops made
 so far and, on events, the hops of the outbound message the event is about.
 */
module Messages {
  import opened Wrappers
  import opened Connectors
  import opened RoutingTables

  /** One pass through the dispatcher: where the message came in and where it was sent on to. */
  datatype Hop = Hop(source: Stop, destination: Option<Stop>)

  datatype SessionEvent = NoSession | NewSession | ResumeSession | CloseSession

  datatype RoutingError =
    | DoubleSource        // a source pushed onto an unfinished hop
    | MissingSource       // a destination pushed with no unfinished hop
    | WrongType           // a connector of a type that is not allowed in the message's direction
    | Unroutable
    | NoTarget
    | InvalidConnector
    | MissingMetadata     // metadata the source connector should have supplied is absent

  const DEFAULT := "default"

  /** The value of a message at one moment. */
  datatype Msg = Msg(
    hops: seq<Hop>,
    outboundHops: Option<seq<Hop>>,
    unroutableReply: bool,
    endpoint: string,
    account: Option<string>,
    tag: Option<(string, string)>,
    router: Option<(string, string)>,
    conversation: Option<(string, string)>,
    transportName: Option<string>,
    transportType: Option<string>,
    optOut: Option<bool>,
    paid: bool,
    sessionEvent: SessionEvent,
    content: string)
  {
    /** The message has been decided to be opt-out traffic. */
    predicate OptsOut() {
      optOut == Some(true)
    }

    /** The last hop has a source but no destination yet. */
    predicate HopPending() {
      hops != [] && hops[|hops| - 1].destination.None?
    }

    function PushSource(at: Stop): Result<Msg, RoutingError> {
      if HopPending() then Failure(DoubleSource)
      else Success(this.(hops := hops + [Hop(at, None)]))
    }

    function PushDestination(at: Stop): Result<Msg, RoutingError> {
      if !HopPending() then Failure(MissingSource)
      else Success(this.(hops := hops[|hops| - 1 := hops[|hops| - 1].(destination := Some(at))]))
    }

    /** Where an event goes next when it undoes the outbound hops, if it came from the right place. */
    function NextHop(): Option<Stop> {
      if !HopPending() || outboundHops.None? || |hops| > |outboundHops.value| then None
      else
        var undone := outboundHops.value[|outboundHops.value| - |hops|];
        if undone.destination != Some(hops[|hops| - 1].source) then None else Some(undone.source)
    }

    /** The endpoint a router sends an event out of: the one the outbound message came in by. */
    function NextRouterEndpoint(): Option<string> {
      if outboundHops.None? || |hops| > |outboundHops.value| - 1 then None
      else
        var undone := outboundHops.value[|outboundHops.value| - |hops| - 1];
        if undone.destination.Some? then Some(undone.destination.value.endpoint) else None
    }

    /** An event for a reply to an unroutable message that is back where that reply started. */
    predicate UnroutableEventDone() {
      && unroutableReply
      && var undoing := if outboundHops.Some? then outboundHops.value else [];
         if hops == [] || undoing == [] then hops == undoing
         else
           var last := hops[|hops| - 1];
           last.destination == Some(undoing[0].source) && undoing[0].destination == Some(last.source)
    }
  }

  /** A message as the workers hold it: its fields are overwritten as it travels. */
  class Message {
    var hops: seq<Hop>
    var outboundHops: Option<seq<Hop>>
    var unroutableReply: bool
    var endpoint: string
    var account: Option<string>
    var tag: Option<(string, string)>
    var router: Option<(string, string)>
    var conversation: Option<(string, string)>
    var transportName: Option<string>
    var transportType: Option<string>
    var optOut: Option<bool>
    var paid: bool
    var sessionEvent: SessionEvent
    var content: string

    function View(): Msg
      reads this
    {
      Msg(hops, outboundHops, unroutableReply, endpoint, account, tag, router, conversation,
          transportName, transportType, optOut, paid, sessionEvent, content)
    }

    method PushSource(at: Stop) returns (r: Result<(), RoutingError>)
      modifies this`hops
      ensures r.Success? ==> old(View()).PushSource(at) == Success(View())
      ensures r.Failure? ==> View() == old(View()) && old(View()).PushSource(at) == Failure(r.error)
    {
      if |hops| > 0 && hops[|hops| - 1].destination == None {
        return Failure(DoubleSource);
      }
      hops := hops + [Hop(at, None)];
      return Success(());
    }

    method PushDestination(at: Stop) returns (r: Result<(), RoutingError>)
      modifies this`hops
      ensures r.Success? ==> old(View()).PushDestination(at) == Success(View())
      ensures r.Failure? ==> View() == old(View()) && old(View()).PushDestination(at) == Failure(r.error)
    {
      if |hops| == 0 || hops[|hops| - 1].destination != None {
        return Failure(MissingSource);
      }
      hops := hops[|hops| - 1 := Hop(hops[|hops| - 1].source, Some(at))];
      return Success(());
    }

    method NextHop() returns (next: Option<Stop>)
      ensures next == View().NextHop()
    {
      if hops == [] || outboundHops.None? || outboundHops.value == [] || |hops| > |outboundHops.value| {
        return None;
      }
      if hops[|hops| - 1].destination != None {
        return None;
      }
      var undone := outboundHops.value[|outboundHops.value| - |hops|];
      if undone.destination != Some(hops[|hops| - 1].source) {
        return None;
      }
      return Some(undone.source);
    }
  }
}
