/**
 Replacing an account's routing table over JSON-RPC (`update_routing_table`): gather the
 endpoints the account has, check that the submitted entries link them the right way round,
 and build the new table.
 */
module RoutingUpdates {
  import opened Wrappers
  import opened Connectors
  import opened EndpointUuids
  import opened RoutingTables
  import opened Journeys
  import opened BillingDetour

  import Messages

  const DEFAULT := Messages.DEFAULT

  datatype RouterModel = RouterModel(routerType: string, key: string, extraInbound: seq<string>, extraOutbound: seq<string>)
  datatype ConversationModel = ConversationModel(convType: string, key: string, extraEndpoints: seq<string>)

  /** The active channels, routers and conversations of an account. */
  datatype Account = Account(
    channels: seq<(string, string)>,
    routers: seq<RouterModel>,
    conversations: seq<ConversationModel>)
  {
    /** Endpoints that receive outbound messages: those of channels, and the conversation side of routers. */
    function ReceivesOutbound(): set<Stop> {
      (set c | c in channels :: Stop(TransportTag(c.0, c.1), DEFAULT))
      + (set r, e | r in routers && e in [DEFAULT] + r.extraOutbound :: Stop(Router(r.routerType, r.key, Outbound), e))
    }

    /** Endpoints that receive inbound messages: those of conversations, and the channel side of routers. */
    function ReceivesInbound(): set<Stop> {
      (set c, e | c in conversations && e in [DEFAULT] + c.extraEndpoints :: Stop(Conversation(c.convType, c.key), e))
      + (set r, e | r in routers && e in [DEFAULT] + r.extraInbound :: Stop(Router(r.routerType, r.key, Inbound), e))
    }
  }

  function Uuid(s: Stop): string {
    FormatUuid(Str(s.conn), s.endpoint)
  }

  function Uuids(stops: set<Stop>): set<string> {
    set s | s in stops :: Uuid(s)
  }

  function ParseStop(uuid: string): Result<Stop, ConnectorError> {
    match Parse(ParseUuid(uuid).0)
    case Success(c) => Success(Stop(c, ParseUuid(uuid).1))
    case Failure(e) => Failure(e)
  }

  /** The names in the stop hold none of the separators that its identifier is put together with. */
  ghost predicate CleanStop(s: Stop) {
    Clean(s.conn) && Unambiguous(s.endpoint)
  }

  /** A stop's identifier reads back as the stop exactly when its names hold no separators. */
  lemma ParseOfUuid(s: Stop)
    ensures ParseStop(Uuid(s)) == Success(s) <==> CleanStop(s)
  {
    ParseOfFormat(Str(s.conn), s.endpoint);
    ParseOfStr(s.conn);
    if ParseStop(Uuid(s)) == Success(s) {
      PartsOfUuid(Str(s.conn), s.endpoint);
    }
  }

  /** Where the endpoint comes back, so does the connector. */
  lemma PartsOfUuid(conn: string, endpoint: string)
    requires ParseUuid(FormatUuid(conn, endpoint)).1 == endpoint
    ensures ParseUuid(FormatUuid(conn, endpoint)).0 == conn
  {
    var uuid := FormatUuid(conn, endpoint);
    var i := LastSeparator(uuid, |uuid| - 1);
    assert |uuid| == |conn| + 2 + |endpoint|;
    assert i == |conn|;
    assert uuid[..|conn|] == conn;
  }

  /** A submitted entry: the identifiers of its source and its target. */
  type Entry = (string, string)

  predicate Links(outbound: set<string>, inbound: set<string>, e: Entry) {
    if e.0 in outbound then e.1 in inbound else e.0 in inbound && e.1 in outbound
  }

  /** Every entry links an endpoint the account has to one that faces it. */
  method CheckRoutingTable(outbound: set<string>, inbound: set<string>, entries: seq<Entry>) returns (ok: bool)
    ensures ok <==> forall e :: e in entries ==> Links(outbound, inbound, e)
  {
    ok := true;
    var i := 0;
    while i < |entries| && ok
      invariant 0 <= i <= |entries|
      invariant ok ==> forall k :: 0 <= k < i ==> Links(outbound, inbound, entries[k])
      invariant !ok ==> exists e :: e in entries && !Links(outbound, inbound, e)
    {
      var (src, dst) := entries[i];
      if src in outbound {
        if dst !in inbound {
          ok := false;
        }
      } else if src in inbound {
        if dst !in outbound {
          ok := false;
        }
      } else {
        ok := false;
      }
      assert ok <==> Links(outbound, inbound, entries[i]);
      i := i + 1;
    }
  }

  /** An entry as it goes into a table: both identifiers parse and the connectors face opposite ways. */
  function ParseEntry(e: Entry): Option<(Stop, Stop)> {
    match (ParseStop(e.0), ParseStop(e.1))
    case (Success(src), Success(dst)) => if OpposedDirections(src.conn, dst.conn) then Some((src, dst)) else None
    case _ => None
  }

  function ParseEntries(entries: seq<Entry>): (r: Option<seq<(Stop, Stop)>>)
    ensures r.Some? ==> |r.value| == |entries|
  {
    if entries == [] then Some([])
    else
      var last := |entries| - 1;
      match (ParseEntries(entries[..last]), ParseEntry(entries[last]))
      case (Some(before), Some(link)) => Some(before + [link])
      case _ => None
  }

  /** A list of links as a map: the last one for a source wins. */
  ghost function LastWins(links: seq<(Stop, Stop)>): Flat {
    if links == [] then imap[]
    else
      var (src, dst) := links[|links| - 1];
      LastWins(links[..|links| - 1])[(src.conn, src.endpoint) := dst]
  }

  lemma {:induction false} PrefixParses(entries: seq<Entry>, i: nat)
    requires i <= |entries| && ParseEntries(entries[..i]).None?
    ensures ParseEntries(entries).None?
  {
    if i == |entries| {
      assert entries[..i] == entries;
    } else {
      PrefixParses(entries[..|entries| - 1], i) by { assert entries[..|entries| - 1][..i] == entries[..i]; }
    }
  }

  lemma {:induction false} LastWinsStep(links: seq<(Stop, Stop)>, src: Stop, dst: Stop)
    ensures LastWins(links + [(src, dst)]) == LastWins(links)[(src.conn, src.endpoint) := dst]
  {
    assert (links + [(src, dst)])[..|links|] == links;
  }

  lemma {:induction false} ParseStep(entries: seq<Entry>, i: nat)
    requires i < |entries| && ParseEntries(entries[..i]).Some?
    ensures ParseEntries(entries[..i + 1]) ==
            match ParseEntry(entries[i])
            case None => None
            case Some(link) => Some(ParseEntries(entries[..i]).value + [link])
  {
    assert entries[..i + 1][..i] == entries[..i];
  }

  method AddUnparsed(t: RoutingTable, e: Entry) returns (ok: bool)
    requires t.Valid()
    modifies t
    ensures t.Valid()
    ensures match ParseEntry(e)
            case None => !ok
            case Some((src, dst)) => ok && t.Entries() == old(t.Entries())[(src.conn, src.endpoint) := dst]
  {
    var src := ParseStop(e.0);
    if src.Failure? {
      return false;
    }
    var dst := ParseStop(e.1);
    if dst.Failure? {
      return false;
    }
    ok := t.AddEntry(src.value.conn, src.value.endpoint, dst.value);
  }

  /** Build the new table entry by entry; the first entry that cannot be added stops the update. */
  method PopulateRoutingTable(entries: seq<Entry>) returns (ok: bool, t: RoutingTable)
    ensures fresh(t)
    ensures match ParseEntries(entries)
            case None => !ok
            case Some(links) => ok && t.Valid() && t.Entries() == LastWins(links)
  {
    t := new RoutingTable();
    ok := true;
    var i := 0;
    assert entries[..0] == [];
    while i < |entries| && ok
      invariant 0 <= i <= |entries|
      invariant fresh(t) && t.Valid()
      invariant match ParseEntries(entries[..i])
                case None => !ok
                case Some(links) => ok && t.Entries() == LastWins(links)
    {
      ParseStep(entries, i);
      ok := AddUnparsed(t, entries[i]);
      if ok {
        ghost var link := ParseEntry(entries[i]).value;
        LastWinsStep(ParseEntries(entries[..i]).value, link.0, link.1);
      }
      i := i + 1;
    }
    if !ok {
      PrefixParses(entries, i);
    } else {
      assert entries[..i] == entries;
    }
  }

  // ---------- What acceptance guarantees ----------

  /** No name in the account holds a separator. */
  ghost predicate CleanAccount(a: Account) {
    && (forall c :: c in a.channels ==> ':' !in c.0 && ':' !in c.1)
    && (forall r :: r in a.routers ==> ':' !in r.routerType && ':' !in r.key)
    && (forall r, e :: r in a.routers && e in r.extraInbound + r.extraOutbound ==> Unambiguous(e))
    && (forall c :: c in a.conversations ==> ':' !in c.convType && ':' !in c.key)
    && (forall c, e :: c in a.conversations && e in c.extraEndpoints ==> Unambiguous(e))
  }

  lemma AccountStops(a: Account, s: Stop)
    requires CleanAccount(a)
    requires s in a.ReceivesOutbound() || s in a.ReceivesInbound()
    ensures CleanStop(s) && !s.conn.Billing?
    ensures s in a.ReceivesOutbound() <==> DirectionOf(s.conn) == Outbound
    ensures s in a.ReceivesInbound() <==> DirectionOf(s.conn) == Inbound
    ensures s.conn.TransportTag? ==> s.endpoint == DEFAULT
  {
    forall i ensures !SeparatorAt(DEFAULT, i) {}
    assert Unambiguous(DEFAULT);
  }

  lemma UuidIsInjective(s: Stop, t: Stop)
    requires CleanStop(s) && CleanStop(t)
    ensures Uuid(s) == Uuid(t) <==> s == t
  {
    ParseOfUuid(s);
    ParseOfUuid(t);
  }

  // ---------- What is accepted ----------

  /** The endpoint is one that the account has: a channel's only one, or a default or extra one on its side of a worker. */
  ghost predicate Belongs(a: Account, s: Stop) {
    match s.conn
    case TransportTag(p, n) => (p, n) in a.channels && s.endpoint == DEFAULT
    case Conversation(t, k) =>
      exists c :: c in a.conversations && c.convType == t && c.key == k && (s.endpoint == DEFAULT || s.endpoint in c.extraEndpoints)
    case Router(t, k, d) =>
      exists r :: r in a.routers && r.routerType == t && r.key == k
                  && (s.endpoint == DEFAULT || s.endpoint in if d == Inbound then r.extraInbound else r.extraOutbound)
    case OptOut => false
    case Billing(_) => false
  }

  /** Whatever direction it faces, an endpoint of the account receives messages in that direction. */
  lemma EndpointsReceive(a: Account, s: Stop)
    ensures s in a.ReceivesOutbound() <==> Belongs(a, s) && DirectionOf(s.conn) == Outbound
    ensures s in a.ReceivesInbound() <==> Belongs(a, s) && DirectionOf(s.conn) == Inbound
  {
    match s.conn {
      case TransportTag(p, n) =>
        assert s.endpoint == DEFAULT ==> s == Stop(TransportTag((p, n).0, (p, n).1), DEFAULT);
      case Conversation(_, _) =>
      case Router(_, _, Inbound) =>
      case Router(_, _, Outbound) =>
      case OptOut =>
      case Billing(_) =>
    }
  }

  lemma IdentifiersTellStops(a: Account, s: Stop)
    requires CleanAccount(a) && CleanStop(s)
    ensures Uuid(s) in Uuids(a.ReceivesOutbound()) <==> s in a.ReceivesOutbound()
    ensures Uuid(s) in Uuids(a.ReceivesInbound()) <==> s in a.ReceivesInbound()
  {
    forall t | t in a.ReceivesOutbound() + a.ReceivesInbound() ensures Uuid(t) == Uuid(s) <==> t == s {
      AccountStops(a, t);
      UuidIsInjective(t, s);
    }
  }

  /** An entry is accepted exactly if it leads from one of the account's endpoints to one that faces it. */
  lemma AcceptsFacingEndpoints(a: Account, src: Stop, dst: Stop)
    requires CleanAccount(a) && CleanStop(src) && CleanStop(dst)
    ensures Links(Uuids(a.ReceivesOutbound()), Uuids(a.ReceivesInbound()), (Uuid(src), Uuid(dst))) <==>
            Belongs(a, src) && Belongs(a, dst) && DirectionOf(src.conn) != DirectionOf(dst.conn)
  {
    IdentifiersTellStops(a, src);
    IdentifiersTellStops(a, dst);
    EndpointsReceive(a, src);
    EndpointsReceive(a, dst);
  }

  lemma DefaultIsUnambiguous()
    ensures Unambiguous(DEFAULT)
  {
    forall i ensures !SeparatorAt(DEFAULT, i) {}
  }

  /** From the side of a router that faces conversations, an extra endpoint may lead to one exactly if it is on that side. */
  lemma ExtraEndpointsFace(a: Account, r: RouterModel, e: string, c: ConversationModel)
    requires CleanAccount(a) && r in a.routers && c in a.conversations && e != DEFAULT && Unambiguous(e)
    requires forall x :: x in a.routers && x.routerType == r.routerType && x.key == r.key ==> x == r
    ensures var (src, dst) := (Stop(Router(r.routerType, r.key, Outbound), e), Stop(Conversation(c.convType, c.key), DEFAULT));
            Links(Uuids(a.ReceivesOutbound()), Uuids(a.ReceivesInbound()), (Uuid(src), Uuid(dst))) <==> e in r.extraOutbound
  {
    DefaultIsUnambiguous();
    AcceptsFacingEndpoints(a, Stop(Router(r.routerType, r.key, Outbound), e), Stop(Conversation(c.convType, c.key), DEFAULT));
  }

  /** The link that an accepted entry describes. */
  ghost predicate Describes(a: Account, e: Entry, link: (Stop, Stop)) {
    && e == (Uuid(link.0), Uuid(link.1))
    && CleanStop(link.0) && CleanStop(link.1)
    && OpposedDirections(link.0.conn, link.1.conn)
    && !link.1.conn.Billing?
    && (link.1.conn.TransportTag? ==> link.1.endpoint == DEFAULT)
  }

  /** The two stops that a checked entry names face each other. */
  lemma CheckedStops(a: Account, e: Entry) returns (src: Stop, dst: Stop)
    requires CleanAccount(a)
    requires Links(Uuids(a.ReceivesOutbound()), Uuids(a.ReceivesInbound()), e)
    ensures Uuid(src) == e.0 && Uuid(dst) == e.1
    ensures (src in a.ReceivesOutbound() && dst in a.ReceivesInbound())
            || (src in a.ReceivesInbound() && dst in a.ReceivesOutbound())
  {
    if e.0 in Uuids(a.ReceivesOutbound()) {
      src :| src in a.ReceivesOutbound() && Uuid(src) == e.0;
      dst :| dst in a.ReceivesInbound() && Uuid(dst) == e.1;
    } else {
      src :| src in a.ReceivesInbound() && Uuid(src) == e.0;
      dst :| dst in a.ReceivesOutbound() && Uuid(dst) == e.1;
    }
  }

  lemma CheckedEntryParses(a: Account, e: Entry)
    requires CleanAccount(a)
    requires Links(Uuids(a.ReceivesOutbound()), Uuids(a.ReceivesInbound()), e)
    ensures ParseEntry(e).Some? && Describes(a, e, ParseEntry(e).value)
  {
    var src, dst := CheckedStops(a, e);
    AccountStops(a, src);
    AccountStops(a, dst);
    ParseOfUuid(src);
    ParseOfUuid(dst);
  }

  ghost predicate AllDescribe(a: Account, entries: seq<Entry>, links: seq<(Stop, Stop)>) {
    |links| == |entries| && forall i :: 0 <= i < |links| ==> Describes(a, entries[i], links[i])
  }

  lemma AllDescribeAdd(a: Account, entries: seq<Entry>, links: seq<(Stop, Stop)>, e: Entry, link: (Stop, Stop))
    requires AllDescribe(a, entries, links) && Describes(a, e, link)
    ensures AllDescribe(a, entries + [e], links + [link])
  {
  }

  ghost predicate Described(a: Account, entries: seq<Entry>) {
    ParseEntries(entries).Some? && AllDescribe(a, entries, ParseEntries(entries).value)
  }

  lemma DescribedAdd(a: Account, entries: seq<Entry>, e: Entry)
    requires Described(a, entries) && ParseEntry(e).Some? && Describes(a, e, ParseEntry(e).value)
    ensures Described(a, entries + [e])
  {
    assert (entries + [e])[..|entries|] == entries;
    AllDescribeAdd(a, entries, ParseEntries(entries).value, e, ParseEntry(e).value);
  }

  lemma {:induction false} CheckedEntriesParse(a: Account, entries: seq<Entry>)
    requires CleanAccount(a)
    requires forall e :: e in entries ==> Links(Uuids(a.ReceivesOutbound()), Uuids(a.ReceivesInbound()), e)
    ensures Described(a, entries)
  {
    if entries == [] {
    } else {
      var last := |entries| - 1;
      CheckedEntriesParse(a, entries[..last]);
      CheckedEntryParses(a, entries[last]);
      DescribedAdd(a, entries[..last], entries[last]);
      FrontAndLast(entries);
    }
  }

  /** The link at `i` is the last one from its source. */
  predicate Stands(links: seq<(Stop, Stop)>, i: nat)
    requires i < |links|
  {
    forall j :: i < j < |links| ==> links[j].0 != links[i].0
  }

  lemma {:induction false} LastWinsIsLast(links: seq<(Stop, Stop)>, src: Stop, dst: Stop)
    ensures var p := (src.conn, src.endpoint);
            p in LastWins(links) && LastWins(links)[p] == dst <==>
            exists i :: 0 <= i < |links| && links[i] == (src, dst) && Stands(links, i)
  {
    if links == [] {
    } else {
      var last := |links| - 1;
      var rest := links[..last];
      LastWinsIsLast(rest, src, dst);
      if links[last].0 == src {
        assert forall i :: 0 <= i < last && links[i] == (src, dst) ==> links[last].0 == links[i].0;
        assert Stands(links, last);
      } else {
        forall i | 0 <= i < last && links[i] == (src, dst) ensures Stands(links, i) <==> Stands(rest, i) {
        }
        assert forall i :: 0 <= i < last ==> rest[i] == links[i];
      }
    }
  }

  /** The entries of a table as they are reported back (`_routing_entries`). */
  ghost function ReadBack(f: Flat): iset<Entry> {
    iset p | p in f :: (Uuid(Stop(p.0, p.1)), Uuid(f[p]))
  }

  /** The submitted entry is the last one for its source. */
  predicate StandsAs(entries: seq<Entry>, e: Entry) {
    exists i :: 0 <= i < |entries| && entries[i] == e && forall j :: i < j < |entries| ==> entries[j].0 != e.0
  }

  lemma ReadBackIsSubmitted(a: Account, entries: seq<Entry>, links: seq<(Stop, Stop)>, e: Entry)
    requires AllDescribe(a, entries, links)
    ensures e in ReadBack(LastWins(links)) <==> StandsAs(entries, e)
  {
    var f := LastWins(links);
    if e in ReadBack(f) {
      var p :| p in f && e == (Uuid(Stop(p.0, p.1)), Uuid(f[p]));
      LastWinsIsLast(links, Stop(p.0, p.1), f[p]);
      var i :| 0 <= i < |links| && links[i] == (Stop(p.0, p.1), f[p]) && Stands(links, i);
      assert Describes(a, entries[i], links[i]);
      forall j | i < j < |entries| ensures entries[j].0 != e.0 {
        assert Describes(a, entries[j], links[j]);
        UuidIsInjective(links[i].0, links[j].0);
      }
    }
    if StandsAs(entries, e) {
      var i :| 0 <= i < |entries| && entries[i] == e && forall j :: i < j < |entries| ==> entries[j].0 != e.0;
      assert Describes(a, entries[i], links[i]);
      forall j | i < j < |links| ensures links[j].0 != links[i].0 {
        assert Describes(a, entries[j], links[j]);
      }
      assert Stands(links, i);
      var (src, dst) := links[i];
      LastWinsIsLast(links, src, dst);
      assert (src.conn, src.endpoint) in f;
    }
  }

  /** Accepted tables are ones that messages can be routed by: valid, with no billing entries and default transports. */
  lemma AcceptedTableIsRoutable(a: Account, entries: seq<Entry>, links: seq<(Stop, Stop)>, n: Nested)
    requires AllDescribe(a, entries, links)
    requires Flatten(n) == LastWins(links) && NoEmptyRoutes(n)
    ensures WellFormed(n) && Unbilled(n) && DefaultTransports(n)
  {
    forall p | p in Flatten(n)
      ensures OpposedDirections(p.0, Flatten(n)[p].conn) && !Flatten(n)[p].conn.Billing?
      ensures Flatten(n)[p].conn.TransportTag? ==> Flatten(n)[p].endpoint == DEFAULT
    {
      LastWinsIsLast(links, Stop(p.0, p.1), Flatten(n)[p]);
      var i :| 0 <= i < |links| && links[i] == (Stop(p.0, p.1), Flatten(n)[p]) && Stands(links, i);
      assert Describes(a, entries[i], links[i]);
    }
  }

  datatype UpdateResult = InvalidRoutingTable | RoutingTableError | Saved(table: Nested)

  /**
   The whole update. An update is refused exactly when some entry does not link two of the account's
   endpoints that face each other; and when it is accepted, adding the entries never fails and the saved
   table, read back, holds exactly the submitted entries, the last one for each source. Where names hold
   separators, an accepted update is saved exactly when every entry parses, as what the entries parse as.
   */
  method UpdateRoutingTable(a: Account, entries: seq<Entry>) returns (r: UpdateResult)
    ensures r.InvalidRoutingTable? <==>
            !forall e :: e in entries ==> Links(Uuids(a.ReceivesOutbound()), Uuids(a.ReceivesInbound()), e)
    ensures !r.InvalidRoutingTable? ==> (r.Saved? <==> ParseEntries(entries).Some?)
    ensures r.Saved? ==> WellFormed(r.table) && Flatten(r.table) == LastWins(ParseEntries(entries).value)
    ensures CleanAccount(a) ==> !r.RoutingTableError?
    ensures CleanAccount(a) && r.Saved? ==>
              && WellFormed(r.table) && Unbilled(r.table) && DefaultTransports(r.table)
              && forall e :: e in ReadBack(Flatten(r.table)) <==> StandsAs(entries, e)
  {
    var accepted := CheckRoutingTable(Uuids(a.ReceivesOutbound()), Uuids(a.ReceivesInbound()), entries);
    if !accepted {
      return InvalidRoutingTable;
    }
    var ok, t := PopulateRoutingTable(entries);
    if CleanAccount(a) {
      CheckedEntriesParse(a, entries);
      ghost var links := ParseEntries(entries).value;
      AcceptedTableIsRoutable(a, entries, links, t.table);
      forall e ensures e in ReadBack(Flatten(t.table)) <==> StandsAs(entries, e) {
        ReadBackIsSubmitted(a, entries, links, e);
      }
    }
    if !ok {
      return RoutingTableError;
    }
    return Saved(t.table);
  }
}
