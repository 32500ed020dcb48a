/**
 Routing table connectors (GoConnector) and their string form.

 A connector is one of five kinds of thing a message can come from or go to.
 Its string form is the kind and its parts, separated by colons.
 */
module Connectors {
  import opened Wrappers
  import opened Text

  datatype Direction = Inbound | Outbound

  datatype Connector =
    | Conversation(convType: string, convKey: string)
    | Router(routerType: string, routerKey: string, routerDirection: Direction)
    | TransportTag(tagpool: string, tagname: string)
    | OptOut
    | Billing(billingDirection: Direction)

  datatype ConnectorError = UnknownType(ctype: string) | WrongParts(given: string) | NotARouter

  const CONVERSATION := "CONVERSATION"
  const ROUTER := "ROUTER"
  const TRANSPORT_TAG := "TRANSPORT_TAG"
  const OPT_OUT := "OPT_OUT"
  const BILLING := "BILLING"
  const INBOUND := "INBOUND"
  const OUTBOUND := "OUTBOUND"

  function Opposite(d: Direction): Direction {
    match d
    case Inbound => Outbound
    case Outbound => Inbound
  }

  /** The direction of the messages that can be delivered to a connector. */
  function DirectionOf(c: Connector): Direction {
    match c
    case Conversation(_, _) => Inbound
    case OptOut => Inbound
    case TransportTag(_, _) => Outbound
    case Router(_, _, d) => d
    case Billing(d) => d
  }

  /** The other side of a router; no other connector has one. */
  function FlipDirection(c: Connector): Result<Connector, ConnectorError> {
    if c.Router? then Success(Router(c.routerType, c.routerKey, Opposite(c.routerDirection)))
    else Failure(NotARouter)
  }

  /** The other side of a connector already known to be a router; any other connector is its own. */
  function OtherSide(c: Connector): (r: Connector)
    ensures r.Router? <==> c.Router?
    ensures c.Router? ==> r != c && DirectionOf(r) == Opposite(DirectionOf(c))
  {
    if c.Router? then c.(routerDirection := Opposite(c.routerDirection)) else c
  }

  lemma FlipIsInvolution(c: Connector)
    ensures FlipDirection(c).Success? <==> c.Router?
    ensures c.Router? ==>
              && FlipDirection(c) == Success(OtherSide(c))
              && FlipDirection(OtherSide(c)) == Success(c)
    ensures OtherSide(OtherSide(c)) == c
  {
  }

  function DirectionName(d: Direction): string {
    match d
    case Inbound => INBOUND
    case Outbound => OUTBOUND
  }

  function ParseDirection(s: string): Option<Direction> {
    if s == INBOUND then Some(Inbound)
    else if s == OUTBOUND then Some(Outbound)
    else None
  }

  function Parts(c: Connector): seq<string> {
    match c
    case Conversation(t, k) => [CONVERSATION, t, k]
    case Router(t, k, d) => [ROUTER, t, k, DirectionName(d)]
    case TransportTag(p, n) => [TRANSPORT_TAG, p, n]
    case OptOut => [OPT_OUT]
    case Billing(d) => [BILLING, DirectionName(d)]
  }

  /** The string form of a connector, as routing tables and hop lists store it. */
  function Str(c: Connector): string {
    Join(Parts(c), ':')
  }

  /** How each kind of connector is written. */
  lemma StrIsWritten(a: string, b: string, d: Direction)
    ensures var side := if d == Inbound then "INBOUND" else "OUTBOUND";
            && Str(Conversation(a, b)) == "CONVERSATION" + ":" + a + ":" + b
            && Str(Router(a, b, d)) == "ROUTER" + ":" + a + ":" + b + ":" + side
            && Str(TransportTag(a, b)) == "TRANSPORT_TAG" + ":" + a + ":" + b
            && Str(OptOut) == "OPT_OUT" && Str(Billing(d)) == "BILLING" + ":" + side
  {
    ThreeParts("CONVERSATION", a, b);
    ThreeParts("TRANSPORT_TAG", a, b);
    FourParts("ROUTER", a, b, DirectionName(d));
    TwoParts("BILLING", DirectionName(d));
  }

  lemma TwoParts(a: string, b: string)
    ensures Join([a, b], ':') == a + ":" + b
  {
    assert [a, b][1..] == [b];
  }

  lemma ThreeParts(a: string, b: string, c: string)
    ensures Join([a, b, c], ':') == a + ":" + b + ":" + c
  {
    assert [a, b, c][1..] == [b, c];
    TwoParts(b, c);
    Regrouped(a, ":", b, ":" + c);
  }

  lemma FourParts(a: string, b: string, c: string, d: string)
    ensures Join([a, b, c, d], ':') == a + ":" + b + ":" + c + ":" + d
  {
    assert [a, b, c, d][1..] == [b, c, d];
    ThreeParts(b, c, d);
    Regrouped(a, ":", b + ":" + c, ":" + d);
    Regrouped(a, ":", b, ":" + c);
  }

  lemma Regrouped(a: string, b: string, c: string, d: string)
    ensures a + b + (c + d) == a + b + c + d
  {
  }

  function FromParts(parts: seq<string>): Result<Connector, ConnectorError>
    requires |parts| >= 1
  {
    if parts[0] == CONVERSATION then
      if |parts| == 3 then Success(Conversation(parts[1], parts[2])) else Failure(WrongParts(parts[0]))
    else if parts[0] == ROUTER then
      if |parts| == 4 && ParseDirection(parts[3]).Some? then
        Success(Router(parts[1], parts[2], ParseDirection(parts[3]).value))
      else Failure(WrongParts(parts[0]))
    else if parts[0] == TRANSPORT_TAG then
      if |parts| == 3 then Success(TransportTag(parts[1], parts[2])) else Failure(WrongParts(parts[0]))
    else if parts[0] == OPT_OUT then
      if |parts| == 1 then Success(OptOut) else Failure(WrongParts(parts[0]))
    else if parts[0] == BILLING then
      if |parts| == 2 && ParseDirection(parts[1]).Some? then
        Success(Billing(ParseDirection(parts[1]).value))
      else Failure(WrongParts(parts[0]))
    else Failure(UnknownType(parts[0]))
  }

  function Parse(s: string): Result<Connector, ConnectorError> {
    FromParts(Split(s, ':'))
  }

  /** No part of the connector contains the separator. */
  predicate Clean(c: Connector) {
    match c
    case Conversation(t, k) => ':' !in t && ':' !in k
    case Router(t, k, _) => ':' !in t && ':' !in k
    case TransportTag(p, n) => ':' !in p && ':' !in n
    case OptOut => true
    case Billing(_) => true
  }

  lemma CleanParts(c: Connector)
    ensures Clean(c) <==> forall p :: p in Parts(c) ==> ':' !in p
  {
    match c
    case Conversation(t, k) =>
      assert Parts(c)[1] == t && Parts(c)[2] == k;
    case Router(t, k, d) =>
      assert Parts(c)[1] == t && Parts(c)[2] == k;
    case TransportTag(p, n) =>
      assert Parts(c)[1] == p && Parts(c)[2] == n;
    case OptOut =>
    case Billing(d) =>
  }

  lemma FromPartsInvertsParts(c: Connector)
    ensures FromParts(Parts(c)) == Success(c)
  {
  }

  lemma PartsInvertsFromParts(parts: seq<string>)
    requires |parts| >= 1 && FromParts(parts).Success?
    ensures Parts(FromParts(parts).value) == parts
  {
    if parts[0] == ROUTER {
      assert parts == [parts[0], parts[1], parts[2], parts[3]];
    } else if |parts| == 3 {
      assert parts == [parts[0], parts[1], parts[2]];
    } else if |parts| == 2 {
      assert parts == [parts[0], parts[1]];
    } else {
      assert parts == [parts[0]];
    }
  }

  /** Printing what was parsed gives back the text, for every text that parses. */
  lemma StrOfParse(s: string)
    requires Parse(s).Success?
    ensures Str(Parse(s).value) == s && Clean(Parse(s).value)
  {
    PartsInvertsFromParts(Split(s, ':'));
    JoinOfSplit(s, ':');
    CleanParts(Parse(s).value);
  }

  /** Parsing what was printed gives back the connector exactly when its parts hold no separator. */
  lemma ParseOfStr(c: Connector)
    ensures Parse(Str(c)) == Success(c) <==> Clean(c)
  {
    if Clean(c) {
      CleanParts(c);
      SplitOfJoin(Parts(c), ':');
      FromPartsInvertsParts(c);
    } else if Parse(Str(c)) == Success(c) {
      StrOfParse(Str(c));
      assert false;
    }
  }

  /** So comparing connectors by their string form, as the code does, is comparing the connectors. */
  lemma StrIsInjective(c1: Connector, c2: Connector)
    requires Clean(c1) && Clean(c2)
    ensures Str(c1) == Str(c2) <==> c1 == c2
  {
    ParseOfStr(c1);
    ParseOfStr(c2);
  }
}
