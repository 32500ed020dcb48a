/**
 The two searches of a routing table: every connector that a source leads to
 (`transitive_targets`), and every connector that leads to a destination
 (`transitive_sources`), going through routers from one side to the other.
 */
module Reachability {
  import opened Wrappers
  import opened Connectors
  import opened RoutingTables

  /** Some entry of the table leads from `src` to `dst`. */
  predicate Links(n: Nested, src: Connector, dst: Connector) {
    src in n && exists e :: e in n[src] && n[src][e].conn == dst
  }

  lemma LinksAreEntries(n: Nested, src: Connector, dst: Connector)
    ensures Links(n, src, dst) <==> exists p :: p in Flatten(n) && p.0 == src && Flatten(n)[p].conn == dst
  {
    if Links(n, src, dst) {
      var e :| e in n[src] && n[src][e].conn == dst;
      assert (src, e) in Flatten(n);
    }
  }

  // ---------- Forwards ----------

  /**
   A forward route: the destinations reached one after the other from `src`, where each
   but the last is a router that is left from its other side.
   */
  ghost predicate Route(n: Nested, src: Connector, path: seq<Connector>) {
    path != [] && forall i :: 0 <= i < |path| ==> StepForwards(n, src, path, i)
  }

  predicate StepForwards(n: Nested, src: Connector, path: seq<Connector>, i: nat)
    requires i < |path|
  {
    if i == 0 then Links(n, src, path[0])
    else path[i - 1].Router? && Links(n, OtherSide(path[i - 1]), path[i])
  }

  ghost predicate Reaches(n: Nested, src: Connector, dst: Connector) {
    exists path :: Route(n, src, path) && path[|path| - 1] == dst
  }

  /** The set holds what `src` links to, and what the far sides of its routers link to. */
  ghost predicate ClosedForwards(n: Nested, src: Connector, s: set<Connector>) {
    && (forall d :: Links(n, src, d) ==> d in s)
    && (forall r, d :: r in s && r.Router? && Links(n, OtherSide(r), d) ==> d in s)
  }

  lemma ReachesLink(n: Nested, src: Connector, dst: Connector)
    requires Links(n, src, dst)
    ensures Reaches(n, src, dst)
  {
    assert StepForwards(n, src, [dst], 0);
    assert Route(n, src, [dst]);
  }

  lemma ReachesThrough(n: Nested, src: Connector, router: Connector, dst: Connector)
    requires Reaches(n, src, router) && router.Router? && Links(n, OtherSide(router), dst)
    ensures Reaches(n, src, dst)
  {
    var path :| Route(n, src, path) && path[|path| - 1] == router;
    var longer := path + [dst];
    forall i | 0 <= i < |longer| ensures StepForwards(n, src, longer, i) {
      assert i < |path| ==> StepForwards(n, src, path, i);
    }
    assert Route(n, src, longer) && longer[|longer| - 1] == dst;
  }

  lemma {:induction false} ClosedHoldsRoute(n: Nested, src: Connector, s: set<Connector>, path: seq<Connector>, i: nat)
    requires ClosedForwards(n, src, s)
    requires Route(n, src, path) && i < |path|
    ensures path[i] in s
  {
    assert StepForwards(n, src, path, i);
    if i == 0 {
    } else {
      ClosedHoldsRoute(n, src, s, path, i - 1);
    }
  }

  /** The reachable connectors are exactly the least set closed under following entries. */
  lemma ReachableIsLeastClosed(n: Nested, src: Connector, s: set<Connector>)
    ensures (forall d :: d in s <==> Reaches(n, src, d)) <==>
            && ClosedForwards(n, src, s)
            && forall t :: ClosedForwards(n, src, t) ==> s <= t
  {
    if forall d :: d in s <==> Reaches(n, src, d) {
      ReachableIsClosed(n, src, s);
      forall t | ClosedForwards(n, src, t) ensures s <= t {
        ClosedHoldsReachable(n, src, t);
      }
    }
    if ClosedForwards(n, src, s) && forall t :: ClosedForwards(n, src, t) ==> s <= t {
      ClosedHoldsReachable(n, src, s);
      var reachable := set d | d in s && Reaches(n, src, d);
      ReachableIsClosed(n, src, reachable);
      assert s <= reachable;
    }
  }

  lemma ClosedHoldsReachable(n: Nested, src: Connector, s: set<Connector>)
    requires ClosedForwards(n, src, s)
    ensures forall d :: Reaches(n, src, d) ==> d in s
  {
    forall d | Reaches(n, src, d) ensures d in s {
      var path :| Route(n, src, path) && path[|path| - 1] == d;
      ClosedHoldsRoute(n, src, s, path, |path| - 1);
    }
  }

  lemma ReachableIsClosed(n: Nested, src: Connector, s: set<Connector>)
    requires forall d :: d in s <==> Reaches(n, src, d)
    ensures ClosedForwards(n, src, s)
  {
    forall d | Links(n, src, d) ensures d in s {
      ReachesLink(n, src, d);
    }
    forall r, d | r in s && r.Router? && Links(n, OtherSide(r), d) ensures d in s {
      ReachesThrough(n, src, r, d);
    }
  }

  // ---------- Backwards ----------

  /**
   A backward route: the sources found one after the other from `dst`, where each
   but the last is a router that is entered from its other side.
   */
  ghost predicate BackRoute(n: Nested, dst: Connector, path: seq<Connector>) {
    path != [] && forall i :: 0 <= i < |path| ==> StepBackwards(n, dst, path, i)
  }

  predicate StepBackwards(n: Nested, dst: Connector, path: seq<Connector>, i: nat)
    requires i < |path|
  {
    if i == 0 then Links(n, path[0], dst)
    else path[i - 1].Router? && Links(n, path[i], OtherSide(path[i - 1]))
  }

  ghost predicate LeadsTo(n: Nested, src: Connector, dst: Connector) {
    exists path :: BackRoute(n, dst, path) && path[|path| - 1] == src
  }

  ghost predicate ClosedBackwards(n: Nested, dst: Connector, s: set<Connector>) {
    && (forall c :: Links(n, c, dst) ==> c in s)
    && (forall r, c :: r in s && r.Router? && Links(n, c, OtherSide(r)) ==> c in s)
  }

  lemma LeadsToLink(n: Nested, src: Connector, dst: Connector)
    requires Links(n, src, dst)
    ensures LeadsTo(n, src, dst)
  {
    assert StepBackwards(n, dst, [src], 0);
    assert BackRoute(n, dst, [src]);
  }

  lemma LeadsToThrough(n: Nested, src: Connector, router: Connector, dst: Connector)
    requires LeadsTo(n, router, dst) && router.Router? && Links(n, src, OtherSide(router))
    ensures LeadsTo(n, src, dst)
  {
    var path :| BackRoute(n, dst, path) && path[|path| - 1] == router;
    var longer := path + [src];
    forall i | 0 <= i < |longer| ensures StepBackwards(n, dst, longer, i) {
      assert i < |path| ==> StepBackwards(n, dst, path, i);
    }
    assert BackRoute(n, dst, longer) && longer[|longer| - 1] == src;
  }

  lemma {:induction false} ClosedHoldsBackRoute(n: Nested, dst: Connector, s: set<Connector>, path: seq<Connector>, i: nat)
    requires ClosedBackwards(n, dst, s)
    requires BackRoute(n, dst, path) && i < |path|
    ensures path[i] in s
  {
    assert StepBackwards(n, dst, path, i);
    if i == 0 {
    } else {
      ClosedHoldsBackRoute(n, dst, s, path, i - 1);
    }
  }

  // ---------- Duality ----------

  /** Walk a route the other way: every stop is left from the side it was entered on. */
  function Reversed(first: Connector, path: seq<Connector>): (r: seq<Connector>)
    ensures |r| == |path|
  {
    seq(|path|, i requires 0 <= i < |path| => if i == |path| - 1 then first else OtherSide(path[|path| - 2 - i]))
  }

  lemma ReversedRoute(n: Nested, src: Connector, path: seq<Connector>)
    requires Route(n, src, path)
    ensures BackRoute(n, path[|path| - 1], Reversed(src, path))
  {
    var back := Reversed(src, path);
    var k := |path|;
    var dst := path[k - 1];
    forall i | 0 <= i < k ensures StepBackwards(n, dst, back, i) {
      assert StepForwards(n, src, path, k - 1 - i);
      if i > 0 {
        assert StepForwards(n, src, path, k - i);
        FlipIsInvolution(path[k - 1 - i]);
      }
    }
  }

  lemma ReversedBackRoute(n: Nested, dst: Connector, path: seq<Connector>)
    requires BackRoute(n, dst, path)
    ensures Route(n, path[|path| - 1], Reversed(dst, path))
  {
    var route := Reversed(dst, path);
    var k := |path|;
    var src := path[k - 1];
    forall i | 0 <= i < k ensures StepForwards(n, src, route, i) {
      assert StepBackwards(n, dst, path, k - 1 - i);
      if i > 0 {
        assert StepBackwards(n, dst, path, k - i);
        FlipIsInvolution(path[k - 1 - i]);
      }
    }
  }

  /** Following entries forwards from `a` finds `b` exactly when following them backwards from `b` finds `a`. */
  lemma Duality(n: Nested, a: Connector, b: Connector)
    ensures Reaches(n, a, b) <==> LeadsTo(n, a, b)
  {
    if Reaches(n, a, b) {
      var path :| Route(n, a, path) && path[|path| - 1] == b;
      ReversedRoute(n, a, path);
      assert Reversed(a, path)[|path| - 1] == a;
    }
    if LeadsTo(n, a, b) {
      var path :| BackRoute(n, b, path) && path[|path| - 1] == a;
      ReversedBackRoute(n, b, path);
      assert Reversed(b, path)[|path| - 1] == b;
    }
  }

  // ---------- The worklist searches ----------

  /**
   What the seen-sets hold. The seed goes in as a connector object and everything later as a
   string; an object never equals a string, so the seed may be queued a second time.
   */
  datatype Seen = AsObject(conn: Connector) | AsString(conn: Connector)

  /** The strings that can ever be added to a seen-set. */
  ghost function Universe(n: Nested): (u: set<Seen>)
    ensures forall c, d :: Links(n, c, d) ==> AsString(OtherSide(c)) in u && AsString(OtherSide(d)) in u
  {
    (set c, e | c in n && e in n[c] :: AsString(OtherSide(n[c][e].conn))) + (set c | c in n :: AsString(OtherSide(c)))
  }

  /** Everything linked from `c` has been recorded. */
  ghost predicate Explored(n: Nested, c: Connector, results: set<Connector>) {
    forall d :: Links(n, c, d) ==> d in results
  }

  ghost predicate ExploredBackwards(n: Nested, d: Connector, results: set<Connector>) {
    forall c :: Links(n, c, d) ==> c in results
  }

  method TargetConnectors(t: RoutingTable, src: Connector) returns (conns: seq<Connector>)
    ensures forall d :: d in conns <==> Links(t.table, src, d)
  {
    var targets := t.LookupTargets(src);
    conns := [];
    var i := 0;
    while i < |targets|
      invariant 0 <= i <= |targets|
      invariant forall k :: 0 <= k < i ==> targets[k].1.conn in conns
      invariant forall d :: d in conns ==> Links(t.table, src, d)
    {
      assert (targets[i].0, targets[i].1) in targets;
      conns := conns + [targets[i].1.conn];
      i := i + 1;
    }
    forall d | Links(t.table, src, d) ensures d in conns {
      var e :| e in t.table[src] && t.table[src][e].conn == d;
      assert (e, t.table[src][e]) in targets;
    }
  }

  method SourceConnectors(t: RoutingTable, dst: Connector) returns (conns: seq<Connector>)
    ensures forall c :: c in conns <==> Links(t.table, c, dst)
  {
    var sources := t.LookupSources(dst);
    conns := [];
    var i := 0;
    while i < |sources|
      invariant 0 <= i <= |sources|
      invariant forall k :: 0 <= k < i ==> sources[k].1.0 in conns
      invariant forall c :: c in conns ==> Links(t.table, c, dst)
    {
      assert (sources[i].0, sources[i].1) in sources;
      assert Has(t.table, sources[i].1);
      conns := conns + [sources[i].1.0];
      i := i + 1;
    }
    forall c | Links(t.table, c, dst) ensures c in conns {
      var e :| e in t.table[c] && t.table[c][e].conn == dst;
      assert Has(t.table, (c, e));
      assert (t.table[c][e].endpoint, (c, e)) in sources;
    }
  }

  /** What one round of either search does with the connectors it finds. */
  ghost predicate Expanded(found: seq<Connector>, pending: seq<Connector>, seen: set<Seen>, results: set<Connector>,
                           pending': seq<Connector>, seen': set<Seen>, results': set<Connector>) {
    && (forall d :: d in results' <==> d in results || d in found)
    && (forall s :: s in seen' <==> s in seen || (s.AsString? && s.conn.Router? && OtherSide(s.conn) in found))
    && (forall c :: c in pending' <==> c in pending || AsString(c) in seen' - seen)
    && (seen' == seen ==> pending' == pending)
  }

  /** One more connector found: it is recorded, and its far side is queued if it is a router's and new. */
  lemma ExpandedNext(found: seq<Connector>, d: Connector, pending: seq<Connector>, seen: set<Seen>, results: set<Connector>,
                     pending': seq<Connector>, seen': set<Seen>, results': set<Connector>)
    requires Expanded(found, pending, seen, results, pending', seen', results')
    ensures if d.Router? && AsString(OtherSide(d)) !in seen'
            then Expanded(found + [d], pending, seen, results,
                          pending' + [OtherSide(d)], seen' + {AsString(OtherSide(d))}, results' + {d})
            else Expanded(found + [d], pending, seen, results, pending', seen', results' + {d})
  {
    FlipIsInvolution(d);
    FarSideIs(d);
    if d.Router? && AsString(OtherSide(d)) !in seen' {
      assert AsString(OtherSide(d)) !in seen;
    }
  }

  lemma FarSideIs(d: Connector)
    ensures forall c: Connector :: c.Router? && OtherSide(c) == d ==> d.Router? && c == OtherSide(d)
  {
    forall c: Connector | c.Router? && OtherSide(c) == d ensures d.Router? && c == OtherSide(d) {
      FlipIsInvolution(c);
    }
  }

  /** Both inner loops: record the connectors found, and queue the far sides of routers not yet seen. */
  method Expand(found: seq<Connector>, pending: seq<Connector>, seen: set<Seen>, results: set<Connector>)
    returns (pending': seq<Connector>, seen': set<Seen>, results': set<Connector>)
    ensures Expanded(found, pending, seen, results, pending', seen', results')
  {
    pending', seen', results' := pending, seen, results;
    var i := 0;
    while i < |found|
      invariant 0 <= i <= |found|
      invariant Expanded(found[..i], pending, seen, results, pending', seen', results')
    {
      var d := found[i];
      ExpandedNext(found[..i], d, pending, seen, results, pending', seen', results');
      assert found[..i] + [d] == found[..i + 1];
      results' := results' + {d};
      if d.Router? && AsString(OtherSide(d)) !in seen' {
        pending' := pending' + [OtherSide(d)];
        seen' := seen' + {AsString(OtherSide(d))};
      }
      i := i + 1;
    }
    assert found[..|found|] == found;
  }

  /** Where the search for targets stands: what it found is reached, and what it queued or explored is all there is. */
  ghost predicate Searching(n: Nested, src: Connector, sources: seq<Connector>, seen: set<Seen>, results: set<Connector>) {
    && (forall d :: d in results ==> Reaches(n, src, d))
    && (forall c :: c in sources ==> c == src || AsString(c) in seen)
    && (forall c :: AsString(c) in seen <==> c.Router? && OtherSide(c) in results)
    && (forall c :: c == src || AsString(c) in seen ==> c in sources || Explored(n, c, results))
  }

  lemma FoundIsReached(n: Nested, src: Connector, source: Connector, seen: set<Seen>, results: set<Connector>, d: Connector)
    requires forall r :: r in results ==> Reaches(n, src, r)
    requires source == src || (AsString(source) in seen && source.Router? && OtherSide(source) in results)
    requires Links(n, source, d)
    ensures Reaches(n, src, d)
  {
    if source == src {
      ReachesLink(n, src, d);
    } else {
      FlipIsInvolution(source);
      ReachesThrough(n, src, OtherSide(source), d);
    }
  }

  lemma SearchGoesOn(n: Nested, src: Connector, source: Connector, rest: seq<Connector>, seen: set<Seen>,
                     results: set<Connector>, found: seq<Connector>,
                     sources': seq<Connector>, seen': set<Seen>, results': set<Connector>)
    requires Searching(n, src, rest + [source], seen, results)
    requires forall d :: d in found <==> Links(n, source, d)
    requires Expanded(found, rest, seen, results, sources', seen', results')
    ensures Searching(n, src, sources', seen', results')
  {
    assert source in rest + [source];
    forall d | d in results' ensures Reaches(n, src, d) {
      if d in found {
        FoundIsReached(n, src, source, seen, results, d);
      }
    }
    forall c | c == src || AsString(c) in seen' ensures c in sources' || Explored(n, c, results') {
      if c == src || AsString(c) in seen {
        assert c in rest + [source] || Explored(n, c, results);
      }
    }
  }

  method TransitiveTargets(t: RoutingTable, src: Connector) returns (results: set<Connector>)
    ensures forall d :: d in results <==> Reaches(t.table, src, d)
  {
    ghost var n := t.table;
    ghost var universe := Universe(n);
    var sources := [src];
    var seen := {AsObject(src)};
    results := {};
    while sources != []
      invariant Searching(n, src, sources, seen, results)
      decreases universe - seen, |sources|
    {
      var source := sources[|sources| - 1];
      var rest := sources[..|sources| - 1];
      FrontAndLast(sources);
      var found := TargetConnectors(t, source);
      ghost var (seenBefore, resultsBefore) := (seen, results);
      sources, seen, results := Expand(found, rest, seen, results);
      SearchGoesOn(n, src, source, rest, seenBefore, resultsBefore, found, sources, seen, results);
      NewlySeen(n, universe, seenBefore, seen, found);
    }
    SearchedIsClosed(n, src, seen, results);
    ClosedHoldsReachable(n, src, results);
  }

  lemma SearchedIsClosed(n: Nested, src: Connector, seen: set<Seen>, results: set<Connector>)
    requires Searching(n, src, [], seen, results)
    ensures ClosedForwards(n, src, results)
  {
    assert Explored(n, src, results);
    forall r, d | r in results && r.Router? && Links(n, OtherSide(r), d) ensures d in results {
      FlipIsInvolution(r);
      assert AsString(OtherSide(r)) in seen;
    }
  }

  /** A round of either search that queues anything uses up part of what can be seen. */
  lemma NewlySeen(n: Nested, universe: set<Seen>, before: set<Seen>, after: set<Seen>, found: seq<Connector>)
    requires universe == Universe(n)
    requires forall d :: d in found ==> exists c :: Links(n, c, d) || Links(n, d, c)
    requires forall s :: s in after <==> s in before || (s.AsString? && s.conn.Router? && OtherSide(s.conn) in found)
    ensures after == before || universe - after < universe - before
  {
    if after != before {
      var s :| s in after && s !in before;
      FlipIsInvolution(s.conn);
      assert s == AsString(OtherSide(OtherSide(s.conn)));
      assert s in universe - before && s !in universe - after;
    }
  }

  ghost predicate SearchingBackwards(n: Nested, dst: Connector, destinations: seq<Connector>, seen: set<Seen>, results: set<Connector>) {
    && (forall c :: c in results ==> LeadsTo(n, c, dst))
    && (forall d :: d in destinations ==> d == dst || AsString(d) in seen)
    && (forall d :: AsString(d) in seen <==> d.Router? && OtherSide(d) in results)
    && (forall d :: d == dst || AsString(d) in seen ==> d in destinations || ExploredBackwards(n, d, results))
  }

  lemma FoundLeadsTo(n: Nested, dst: Connector, destination: Connector, seen: set<Seen>, results: set<Connector>, c: Connector)
    requires forall r :: r in results ==> LeadsTo(n, r, dst)
    requires destination == dst || (AsString(destination) in seen && destination.Router? && OtherSide(destination) in results)
    requires Links(n, c, destination)
    ensures LeadsTo(n, c, dst)
  {
    if destination == dst {
      LeadsToLink(n, c, dst);
    } else {
      FlipIsInvolution(destination);
      LeadsToThrough(n, c, OtherSide(destination), dst);
    }
  }

  lemma SearchGoesOnBackwards(n: Nested, dst: Connector, destination: Connector, rest: seq<Connector>, seen: set<Seen>,
                              results: set<Connector>, found: seq<Connector>,
                              destinations': seq<Connector>, seen': set<Seen>, results': set<Connector>)
    requires SearchingBackwards(n, dst, rest + [destination], seen, results)
    requires forall c :: c in found <==> Links(n, c, destination)
    requires Expanded(found, rest, seen, results, destinations', seen', results')
    ensures SearchingBackwards(n, dst, destinations', seen', results')
  {
    assert destination in rest + [destination];
    forall c | c in results' ensures LeadsTo(n, c, dst) {
      if c in found {
        FoundLeadsTo(n, dst, destination, seen, results, c);
      }
    }
    forall d | d == dst || AsString(d) in seen' ensures d in destinations' || ExploredBackwards(n, d, results') {
      if d == dst || AsString(d) in seen {
        assert d in rest + [destination] || ExploredBackwards(n, d, results);
      }
    }
  }

  method TransitiveSources(t: RoutingTable, dst: Connector) returns (results: set<Connector>)
    ensures forall c :: c in results <==> LeadsTo(t.table, c, dst)
  {
    ghost var n := t.table;
    ghost var universe := Universe(n);
    var destinations := [dst];
    var seen := {AsObject(dst)};
    results := {};
    while destinations != []
      invariant SearchingBackwards(n, dst, destinations, seen, results)
      decreases universe - seen, |destinations|
    {
      var destination := destinations[|destinations| - 1];
      var rest := destinations[..|destinations| - 1];
      FrontAndLast(destinations);
      var found := SourceConnectors(t, destination);
      ghost var (seenBefore, resultsBefore) := (seen, results);
      destinations, seen, results := Expand(found, rest, seen, results);
      SearchGoesOnBackwards(n, dst, destination, rest, seenBefore, resultsBefore, found, destinations, seen, results);
      NewlySeen(n, universe, seenBefore, seen, found);
    }
    SearchedBackwardsIsClosed(n, dst, seen, results);
    forall c | LeadsTo(n, c, dst) ensures c in results {
      var path :| BackRoute(n, dst, path) && path[|path| - 1] == c;
      ClosedHoldsBackRoute(n, dst, results, path, |path| - 1);
    }
  }

  lemma SearchedBackwardsIsClosed(n: Nested, dst: Connector, seen: set<Seen>, results: set<Connector>)
    requires SearchingBackwards(n, dst, [], seen, results)
    ensures ClosedBackwards(n, dst, results)
  {
    assert ExploredBackwards(n, dst, results);
    forall r, c | r in results && r.Router? && Links(n, c, OtherSide(r)) ensures c in results {
      FlipIsInvolution(r);
      assert AsString(OtherSide(r)) in seen;
    }
  }
}
