/**
 Routing tables (RoutingTable): a nested dictionary from source connector and source
 endpoint to a target, edited in place, and the flat map of entries that it stands for.
 */
module RoutingTables {
  import opened Wrappers
  import opened Connectors

  /** An endpoint of a connector: where a message leaves from or goes to. */
  datatype Stop = Stop(conn: Connector, endpoint: string)

  type Routes = map<string, Stop>
  type Nested = map<Connector, Routes>
  type Flat = imap<(Connector, string), Stop>

  predicate Has(n: Nested, p: (Connector, string)) {
    p.0 in n && p.1 in n[p.0]
  }

  ghost function Flatten(n: Nested): Flat {
    imap p | Has(n, p) :: n[p.0][p.1]
  }

  function Lookup(n: Nested, c: Connector, endpoint: string): Option<Stop> {
    if c in n && endpoint in n[c] then Some(n[c][endpoint]) else None
  }

  predicate NoEmptyRoutes(n: Nested) {
    forall c :: c in n ==> n[c] != map[]
  }

  /** What `validate_entry` demands. */
  predicate OpposedDirections(src: Connector, dst: Connector) {
    DirectionOf(src) != DirectionOf(dst)
  }

  ghost predicate AllValid(f: Flat) {
    forall p :: p in f ==> OpposedDirections(p.0, f[p].conn)
  }

  ghost predicate WellFormed(n: Nested) {
    NoEmptyRoutes(n) && AllValid(Flatten(n))
  }

  function Mentions(p: (Connector, string), target: Stop, c: Connector): bool {
    p.0 == c || target.conn == c
  }

  ghost function WithoutConnector(f: Flat, c: Connector): Flat {
    imap p | p in f && !Mentions(p, f[p], c) :: f[p]
  }

  ghost function WithoutEntry(f: Flat, p: (Connector, string)): Flat {
    imap q | q in f && q != p :: f[q]
  }

  /** The sources whose entries lead to `target`. */
  ghost function SourcesOf(f: Flat, target: Stop): iset<(Connector, string)> {
    iset p | p in f && f[p] == target
  }

  lemma SameEntries(m: Nested, n: Nested)
    requires NoEmptyRoutes(m)
    requires Flatten(m) == Flatten(n)
    ensures m.Keys <= n.Keys
    ensures forall c :: c in m ==> m[c].Keys <= n[c].Keys && forall e :: e in m[c] ==> m[c][e] == n[c][e]
  {
    forall c, e | c in m && e in m[c] ensures c in n && e in n[c] && n[c][e] == m[c][e] {
      assert (c, e) in Flatten(m);
      assert (c, e) in Flatten(n);
    }
    forall c | c in m ensures c in n {
      var e :| e in m[c];
    }
  }

  /** With no empty inner dictionaries, tables with the same entries are the same table. */
  lemma FlattenDeterminesTable(m: Nested, n: Nested)
    requires NoEmptyRoutes(m) && NoEmptyRoutes(n)
    requires Flatten(m) == Flatten(n)
    ensures m == n
  {
    SameEntries(m, n);
    SameEntries(n, m);
    assert m.Keys == n.Keys;
    forall c | c in m ensures m[c] == n[c] {
      assert m[c].Keys == n[c].Keys;
    }
  }

  /** An edit of the table, and what it means for the flat map of entries. */
  datatype Edit =
    | AddEntry(src: Connector, srcEndpoint: string, target: Stop)
    | RemoveEntry(src: Connector, srcEndpoint: string)
    | RemoveConnector(conn: Connector)
    | RemoveRouter(routerType: string, routerKey: string)
    | RemoveTransportTag(tagpool: string, tagname: string)

  ghost function Edited(f: Flat, edit: Edit): Flat {
    match edit
    case AddEntry(c, e, t) => if OpposedDirections(c, t.conn) then f[(c, e) := t] else f
    case RemoveEntry(c, e) => WithoutEntry(f, (c, e))
    case RemoveConnector(c) => WithoutConnector(f, c)
    case RemoveRouter(t, k) =>
      imap p | p in f && !Mentions(p, f[p], Router(t, k, Inbound)) && !Mentions(p, f[p], Router(t, k, Outbound)) :: f[p]
    case RemoveTransportTag(p, n) => WithoutConnector(f, TransportTag(p, n))
  }

  ghost function EditedAll(f: Flat, edits: seq<Edit>): Flat {
    if edits == [] then f
    else Edited(EditedAll(f, edits[..|edits| - 1]), edits[|edits| - 1])
  }

  /** One of the two sides of the router. */
  predicate SideOf(c: Connector, routerType: string, routerKey: string) {
    c.Router? && c.routerType == routerType && c.routerKey == routerKey
  }

  /** Which entries there are after an edit: what it adds, and of what there was what it does not name. */
  lemma EditsEntries(f: Flat, edit: Edit, p: (Connector, string), t: Stop)
    ensures var stood := p in f && f[p] == t;
            p in Edited(f, edit) && Edited(f, edit)[p] == t <==>
            match edit
            case AddEntry(c, e, target) =>
              if p == (c, e) && DirectionOf(c) != DirectionOf(target.conn) then t == target else stood
            case RemoveEntry(c, e) => stood && p != (c, e)
            case RemoveConnector(c) => stood && p.0 != c && t.conn != c
            case RemoveRouter(ty, k) => stood && !SideOf(p.0, ty, k) && !SideOf(t.conn, ty, k)
            case RemoveTransportTag(pool, name) => stood && p.0 != TransportTag(pool, name) && t.conn != TransportTag(pool, name)
  {
    match edit {
      case AddEntry(c, e, target) =>
      case RemoveEntry(c, e) =>
      case RemoveConnector(c) =>
      case RemoveRouter(ty, k) =>
        SidesOf(p.0, ty, k);
        SidesOf(t.conn, ty, k);
      case RemoveTransportTag(pool, name) =>
    }
  }

  lemma SidesOf(c: Connector, routerType: string, routerKey: string)
    ensures SideOf(c, routerType, routerKey) <==>
            c == Router(routerType, routerKey, Inbound) || c == Router(routerType, routerKey, Outbound)
  {
    if c.Router? {
      assert c.routerDirection == Inbound || c.routerDirection == Outbound;
    }
  }

  /** Removing an entry undoes adding it, where there was none before. */
  lemma RemoveUndoesAdd(f: Flat, c: Connector, e: string, target: Stop)
    requires (c, e) !in f
    ensures Edited(Edited(f, Edit.AddEntry(c, e, target)), Edit.RemoveEntry(c, e)) == f
  {
    var after := Edited(Edited(f, Edit.AddEntry(c, e, target)), Edit.RemoveEntry(c, e));
    forall p ensures p in after <==> p in f {
    }
  }

  function RoutesWithout(routes: Routes, conn: Connector): Routes {
    map e | e in routes && routes[e].conn != conn :: routes[e]
  }

  lemma FilteredTable(before: Nested, after: Nested, conn: Connector)
    requires after.Keys <= before.Keys - {conn}
    requires forall c :: c in after ==> after[c] == RoutesWithout(before[c], conn)
    requires forall c :: c in before && c != conn && c !in after ==> RoutesWithout(before[c], conn) == map[]
    ensures Flatten(after) == WithoutConnector(Flatten(before), conn)
  {
    forall p ensures Has(after, p) <==> Has(before, p) && !Mentions(p, before[p.0][p.1], conn) {
      if p.0 in before && p.0 != conn && p.1 in before[p.0] && before[p.0][p.1].conn != conn {
        assert p.1 in RoutesWithout(before[p.0], conn);
      }
    }
  }

  class RoutingTable {
    var table: Nested

    ghost predicate Valid()
      reads this
    {
      WellFormed(table)
    }

    ghost function Entries(): Flat
      reads this
    {
      Flatten(table)
    }

    /** A table around a stored dictionary; nothing is checked at this point. */
    constructor (stored: Nested := map[])
      ensures table == stored
    {
      table := stored;
    }

    method ValidateAllEntries() returns (ok: bool)
      ensures ok <==> AllValid(Entries())
    {
      ok := true;
      var todo := table.Keys;
      while todo != {}
        invariant todo <= table.Keys
        invariant ok <==> forall p :: Has(table, p) && p.0 !in todo ==> OpposedDirections(p.0, table[p.0][p.1].conn)
      {
        var c :| c in todo;
        var routesOk := ValidateRoutes(c, table[c]);
        assert !routesOk ==> exists e :: Has(table, (c, e)) && !OpposedDirections(c, table[c][e].conn);
        ok := ok && routesOk;
        todo := todo - {c};
      }
    }

    static method ValidateRoutes(c: Connector, routes: Routes) returns (ok: bool)
      ensures ok <==> forall e :: e in routes ==> OpposedDirections(c, routes[e].conn)
    {
      ok := true;
      var todo := routes.Keys;
      while todo != {}
        invariant todo <= routes.Keys
        invariant ok <==> forall e :: e in routes.Keys - todo ==> OpposedDirections(c, routes[e].conn)
      {
        var e :| e in todo;
        ok := ok && DirectionOf(c) != DirectionOf(routes[e].conn);
        todo := todo - {e};
      }
    }

    method LookupTarget(c: Connector, endpoint: string) returns (t: Option<Stop>)
      ensures t == Lookup(table, c, endpoint)
      ensures t == if (c, endpoint) in Entries() then Some(Entries()[(c, endpoint)]) else None
    {
      t := None;
      if c in table {
        if endpoint in table[c] {
          t := Some(table[c][endpoint]);
        }
      }
    }

    /** All targets of a source, in the arbitrary order in which a dictionary yields them. */
    method LookupTargets(c: Connector) returns (targets: seq<(string, Stop)>)
      ensures forall e, t :: (e, t) in targets <==> (c, e) in Entries() && Entries()[(c, e)] == t
      ensures forall i, j :: 0 <= i < j < |targets| ==> targets[i].0 != targets[j].0
    {
      targets := [];
      if c in table {
        var todo := table[c].Keys;
        while todo != {}
          invariant todo <= table[c].Keys
          invariant forall e, t :: (e, t) in targets <==> e in table[c].Keys - todo && table[c][e] == t
          invariant forall i, j :: 0 <= i < j < |targets| ==> targets[i].0 != targets[j].0
        {
          var e :| e in todo;
          forall i | 0 <= i < |targets| ensures targets[i].0 != e {
            assert (targets[i].0, targets[i].1) in targets;
          }
          targets := targets + [(e, table[c][e])];
          todo := todo - {e};
        }
      }
    }

    /** Some source leading to the target: the first one in dictionary order. */
    method LookupSource(target: Stop) returns (p: Option<(Connector, string)>)
      ensures p.None? <==> forall q :: q in Entries() ==> Entries()[q] != target
      ensures p.Some? ==> p.value in Entries() && Entries()[p.value] == target
    {
      var sources := LookupSources(target.conn);
      assert forall q :: q in SourcesOf(Entries(), target) ==> (target.endpoint, q) in sources;
      p := None;
      var i := 0;
      while i < |sources| && p.None?
        invariant 0 <= i <= |sources|
        invariant p.None? ==> forall k :: 0 <= k < i ==> sources[k].0 != target.endpoint
        invariant p.Some? ==> p.value in SourcesOf(Entries(), target)
      {
        if sources[i].0 == target.endpoint {
          assert sources[i] in sources;
          p := Some(sources[i].1);
        }
        i := i + 1;
      }
    }

    /** All sources of a target connector, with the target endpoint each one leads to. */
    method LookupSources(conn: Connector) returns (sources: seq<(string, (Connector, string))>)
      ensures forall e, p :: (e, p) in sources <==> p in Entries() && Entries()[p] == Stop(conn, e)
    {
      sources := [];
      var todo := table.Keys;
      while todo != {}
        invariant todo <= table.Keys
        invariant forall e, p :: (e, p) in sources <==>
                                 Has(table, p) && p.0 !in todo && table[p.0][p.1] == Stop(conn, e)
      {
        var c :| c in todo;
        var found := SourcesAmong(c, table[c], conn);
        sources := sources + found;
        todo := todo - {c};
      }
    }

    static method SourcesAmong(c: Connector, routes: Routes, conn: Connector)
      returns (sources: seq<(string, (Connector, string))>)
      ensures forall e, p :: (e, p) in sources <==> p.0 == c && p.1 in routes && routes[p.1] == Stop(conn, e)
    {
      sources := [];
      var todo := routes.Keys;
      while todo != {}
        invariant todo <= routes.Keys
        invariant forall e, p :: (e, p) in sources <==>
                                 p.0 == c && p.1 in routes.Keys - todo && routes[p.1] == Stop(conn, e)
      {
        var e :| e in todo;
        if routes[e].conn == conn {
          sources := sources + [(routes[e].endpoint, (c, e))];
        }
        todo := todo - {e};
      }
    }

    /** Add or replace an entry; an entry whose two ends face the same way is refused. */
    method AddEntry(src: Connector, srcEndpoint: string, target: Stop) returns (ok: bool)
      modifies this
      ensures ok <==> OpposedDirections(src, target.conn)
      ensures !ok ==> table == old(table)
      ensures Entries() == Edited(old(Entries()), Edit.AddEntry(src, srcEndpoint, target))
      ensures old(Valid()) ==> Valid()
    {
      if DirectionOf(src) == DirectionOf(target.conn) {
        return false;
      }
      var routes := if src in table then table[src] else map[];
      ghost var before := table;
      table := table[src := routes[srcEndpoint := target]];
      ok := true;
      assert forall p :: Has(table, p) <==> Has(before, p) || p == (src, srcEndpoint);
    }

    method RemoveEntry(src: Connector, srcEndpoint: string) returns (removed: Option<Stop>)
      modifies this
      ensures removed == if (src, srcEndpoint) in old(Entries()) then Some(old(Entries())[(src, srcEndpoint)]) else None
      ensures Entries() == Edited(old(Entries()), Edit.RemoveEntry(src, srcEndpoint))
      ensures old(Valid()) ==> Valid()
    {
      if src !in table {
        return None;
      }
      if srcEndpoint !in table[src] {
        return None;
      }
      ghost var before := table;
      removed := Some(table[src][srcEndpoint]);
      var routes := table[src] - {srcEndpoint};
      table := if routes == map[] then table - {src} else table[src := routes];
      assert forall c :: c in table && c != src ==> table[c] == before[c];
      forall p ensures Has(table, p) <==> Has(before, p) && p != (src, srcEndpoint) {
        assert p.0 == src ==> (p.1 in routes <==> p.1 in before[src] && p.1 != srcEndpoint);
      }
    }

    /** Drops one entry leading to the endpoint, if there is any, and the entry leaving it. */
    method RemoveEndpoint(conn: Connector, endpoint: string)
      modifies this
      ensures old(Valid()) ==> Valid()
      ensures var sources := SourcesOf(old(Entries()), Stop(conn, endpoint));
              if sources == iset{} then Entries() == WithoutEntry(old(Entries()), (conn, endpoint))
              else exists p :: p in sources && Entries() == WithoutEntry(WithoutEntry(old(Entries()), p), (conn, endpoint))
    {
      ghost var sources := SourcesOf(Entries(), Stop(conn, endpoint));
      var src := LookupSource(Stop(conn, endpoint));
      if src.None? {
        forall q ensures q !in sources {
          assert q in Entries() ==> Entries()[q] != Stop(conn, endpoint);
        }
        assert sources == iset{};
      } else {
        assert src.value in sources;
      }
      if src.Some? {
        var _ := RemoveEntry(src.value.0, src.value.1);
      }
      var _ := RemoveEntry(conn, endpoint);
    }

    /** Removes every entry that mentions the connector, as source or as target. */
    method RemoveConnector(conn: Connector)
      modifies this
      ensures Entries() == WithoutConnector(old(Entries()), conn)
      ensures old(Valid()) ==> Valid()
    {
      ghost var before := table;
      table := table - {conn};
      ghost var popped := table;
      var todo := table.Keys;
      var toRemove: set<Connector> := {};
      while todo != {}
        invariant todo <= table.Keys == popped.Keys
        invariant toRemove <= table.Keys - todo
        invariant forall c :: c in todo ==> table[c] == popped[c]
        invariant forall c :: c in table.Keys - todo ==> table[c] == RoutesWithout(popped[c], conn)
        invariant forall c :: c in table.Keys - todo ==> (c in toRemove <==> table[c] == map[])
      {
        var c :| c in todo;
        var routes := FilterRoutes(table[c], conn);
        table := table[c := routes];
        if routes == map[] {
          toRemove := toRemove + {c};
        }
        todo := todo - {c};
      }
      table := table - toRemove;
      FilteredTable(before, table, conn);
    }

    /** The inner loop of `remove_connector`: delete the routes that lead to the connector. */
    static method FilterRoutes(before: Routes, conn: Connector) returns (routes: Routes)
      ensures routes == RoutesWithout(before, conn)
    {
      routes := before;
      var todo := routes.Keys;
      while todo != {}
        invariant todo <= routes.Keys <= before.Keys
        invariant forall e :: e in todo ==> routes[e] == before[e]
        invariant forall e :: e in before.Keys - todo ==> (e in routes <==> before[e].conn != conn)
        invariant forall e :: e in routes ==> routes[e] == before[e]
      {
        var e :| e in todo;
        if routes[e].conn == conn {
          routes := routes - {e};
        }
        todo := todo - {e};
      }
    }

    method RemoveRouter(routerType: string, routerKey: string)
      modifies this
      ensures Entries() == Edited(old(Entries()), Edit.RemoveRouter(routerType, routerKey))
      ensures old(Valid()) ==> Valid()
    {
      RemoveConnector(Router(routerType, routerKey, Inbound));
      RemoveConnector(Router(routerType, routerKey, Outbound));
    }

    method RemoveTransportTag(tagpool: string, tagname: string)
      modifies this
      ensures Entries() == WithoutConnector(old(Entries()), TransportTag(tagpool, tagname))
      ensures old(Valid()) ==> Valid()
    {
      RemoveConnector(TransportTag(tagpool, tagname));
    }

    method Apply(edit: Edit)
      requires Valid()
      modifies this
      ensures Valid() && Entries() == Edited(old(Entries()), edit)
    {
      match edit {
        case AddEntry(c, e, t) => var _ := AddEntry(c, e, t);
        case RemoveEntry(c, e) => var _ := RemoveEntry(c, e);
        case RemoveConnector(c) => RemoveConnector(c);
        case RemoveRouter(t, k) => RemoveRouter(t, k);
        case RemoveTransportTag(p, n) => RemoveTransportTag(p, n);
      }
    }

    /** Any sequence of edits leaves the table that the same edits of the flat map describe. */
    method ApplyAll(edits: seq<Edit>)
      requires Valid()
      modifies this
      ensures Valid()
      ensures Entries() == EditedAll(old(Entries()), edits)
    {
      var i := 0;
      while i < |edits|
        invariant 0 <= i <= |edits|
        invariant Valid()
        invariant Entries() == EditedAll(old(Entries()), edits[..i])
      {
        assert edits[..i + 1][..i] == edits[..i];
        Apply(edits[i]);
        i := i + 1;
      }
      assert edits[..|edits|] == edits;
    }
  }

  /**
   `remove_endpoint` drops one entry leading to the endpoint, so it leaves the endpoint
   unreferenced exactly when no other entry led there.
   */
  lemma RemoveEndpointClearsReferences(f: Flat, at: Stop, dropped: (Connector, string))
    requires AllValid(f)
    requires dropped in f && f[dropped] == at
    ensures var after := WithoutEntry(WithoutEntry(f, dropped), (at.conn, at.endpoint));
            (at.conn, at.endpoint) !in after && (forall q :: q in after ==> after[q] != at) <==>
            forall q :: q in f && f[q] == at ==> q == dropped
  {
    var after := WithoutEntry(WithoutEntry(f, dropped), (at.conn, at.endpoint));
    forall q | q in f && f[q] == at ensures q != (at.conn, at.endpoint) && (q == dropped || (q in after && after[q] == at)) {
      assert OpposedDirections(q.0, f[q].conn);
    }
  }

  // Two conversations that share a transport.

  const SHARED := Stop(TransportTag("pool", "tag"), "default")

  const SHARING: Nested :=
    map[Conversation("bulk", "one") := map["default" := SHARED], Conversation("bulk", "two") := map["default" := SHARED]]

  /** Whichever entry is dropped, the other one still leads to the endpoint that was removed. */
  lemma SecondReferenceStays(dropped: (Connector, string))
    requires dropped in Flatten(SHARING) && Flatten(SHARING)[dropped] == SHARED
    ensures WellFormed(SHARING)
    ensures var after := WithoutEntry(WithoutEntry(Flatten(SHARING), dropped), (SHARED.conn, SHARED.endpoint));
            exists q :: q in after && after[q] == SHARED
  {
    var (one, two) := ((Conversation("bulk", "one"), "default"), (Conversation("bulk", "two"), "default"));
    assert "one"[0] != "two"[0];
    assert Has(SHARING, one) && Has(SHARING, two) && one != two;
    assert forall p :: Has(SHARING, p) ==> p == one || p == two;
    var after := WithoutEntry(WithoutEntry(Flatten(SHARING), dropped), (SHARED.conn, SHARED.endpoint));
    var other := if dropped == one then two else one;
    assert other in after && after[other] == SHARED;
  }
}
