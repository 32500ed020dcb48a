/**
 Invoices: a statement's line items by biller, and within each biller by channel, with totals.
 */
module Invoices {
  import opened Credits
  import opened Ledger
  import opened Ordering
  import opened StatementCredits
  import opened Statements
  import opened Summaries
  import opened Wrappers

  // ---------- Groups ----------

  datatype Group<T> = Group(key: Option<string>, items: seq<T>)

  /** The runs of neighbours with the same key (`itertools.groupby`). */
  function Runs<T>(s: seq<T>, key: T -> Option<string>): seq<Group<T>> {
    if s == [] then []
    else
      var x := s[|s| - 1];
      var before := Runs(s[..|s| - 1], key);
      if before != [] && before[|before| - 1].key == key(x)
      then before[..|before| - 1] + [Group(key(x), before[|before| - 1].items + [x])]
      else before + [Group(key(x), [x])]
  }

  function GroupBy<T>(values: seq<T>, key: T -> Option<string>): seq<Group<T>> {
    Runs(SortedBy(values, key), key)
  }

  /** No group is empty, and their keys ascend without repeats. */
  ghost predicate Ascending<T>(groups: seq<Group<T>>) {
    && (forall i :: 0 <= i < |groups| ==> groups[i].items != [])
    && (forall i, j :: 0 <= i < j < |groups| ==>
          KeyLe(groups[i].key, groups[j].key) && groups[i].key != groups[j].key)
  }

  ghost predicate HasGroup<T>(groups: seq<Group<T>>, k: Option<string>) {
    exists i :: 0 <= i < |groups| && groups[i].key == k
  }

  /** Each group has all the values of its key, in the order they come in, and every value's key has a group. */
  ghost predicate Collects<T>(groups: seq<Group<T>>, s: seq<T>, key: T -> Option<string>) {
    && (forall i :: 0 <= i < |groups| ==> groups[i].items == WithKey(s, key, groups[i].key))
    && (forall x :: x in s ==> HasGroup(groups, key(x)))
  }

  lemma {:induction false} NoneWithKey<T>(s: seq<T>, key: T -> Option<string>, k: Option<string>)
    requires forall x :: x in s ==> key(x) != k
    ensures WithKey(s, key, k) == []
  {
    if s == [] {
    } else {
      NoneWithKey(s[..|s| - 1], key, k);
    }
  }

  lemma {:induction false} WithKeyIsMember<T>(s: seq<T>, key: T -> Option<string>, k: Option<string>)
    requires WithKey(s, key, k) != []
    ensures exists x :: x in s && key(x) == k
  {
    var last := |s| - 1;
    if key(s[last]) == k {
      assert s[last] in s;
    } else {
      WithKeyIsMember(s[..last], key, k);
      var x :| x in s[..last] && key(x) == k;
      assert x in s;
    }
  }

  /** A value that belongs to the last group. */
  lemma GroupGrows<T>(groups: seq<Group<T>>, s: seq<T>, x: T, key: T -> Option<string>)
    requires Ascending(groups) && Collects(groups, s, key)
    requires groups != [] && groups[|groups| - 1].key == key(x)
    ensures var last := |groups| - 1;
            var grown := groups[..last] + [Group(key(x), groups[last].items + [x])];
            Ascending(grown) && Collects(grown, s + [x], key)
  {
    var last := |groups| - 1;
    var grown := groups[..last] + [Group(key(x), groups[last].items + [x])];
    forall i | 0 <= i < |grown| ensures grown[i].key == groups[i].key && grown[i].items == WithKey(s + [x], key, grown[i].key) {
      WithKeyAdd(s, x, key, groups[i].key);
    }
    forall y | y in s + [x] ensures HasGroup(grown, key(y)) {
      if y in s {
        var i :| 0 <= i < |groups| && groups[i].key == key(y);
        assert grown[i].key == key(y);
      } else {
        assert grown[last].key == key(y);
      }
    }
  }

  lemma AscendingAdd<T>(groups: seq<Group<T>>, g: Group<T>)
    requires Ascending(groups) && g.items != []
    requires forall i :: 0 <= i < |groups| ==> KeyLe(groups[i].key, g.key) && groups[i].key != g.key
    ensures Ascending(groups + [g])
  {
  }

  lemma HasGroupAdd<T>(groups: seq<Group<T>>, g: Group<T>, k: Option<string>)
    requires HasGroup(groups, k) || g.key == k
    ensures HasGroup(groups + [g], k)
  {
    if g.key == k {
      assert (groups + [g])[|groups|].key == k;
    } else {
      var i :| 0 <= i < |groups| && groups[i].key == k;
      assert (groups + [g])[i].key == k;
    }
  }

  /** A value with a key that is greater than all before it. */
  lemma GroupStarts<T>(groups: seq<Group<T>>, s: seq<T>, x: T, key: T -> Option<string>)
    requires Ascending(groups) && Collects(groups, s, key)
    requires forall i :: 0 <= i < |groups| ==> KeyLe(groups[i].key, key(x)) && groups[i].key != key(x)
    ensures var grown := groups + [Group(key(x), [x])];
            Ascending(grown) && Collects(grown, s + [x], key)
  {
    var grown := groups + [Group(key(x), [x])];
    forall y | y in s ensures key(y) != key(x) {
      var i :| 0 <= i < |groups| && groups[i].key == key(y);
    }
    NoneWithKey(s, key, key(x));
    forall i | 0 <= i < |grown| ensures grown[i].items == WithKey(s + [x], key, grown[i].key) {
      WithKeyAdd(s, x, key, grown[i].key);
    }
    forall y | y in s + [x] ensures HasGroup(grown, key(y)) {
      HasGroupAdd(groups, Group(key(x), [x]), key(y));
    }
    AscendingAdd(groups, Group(key(x), [x]));
  }

  /** Every group's key is the key of something. */
  lemma GroupHasValue<T>(groups: seq<Group<T>>, s: seq<T>, key: T -> Option<string>, i: nat) returns (x: T)
    requires Ascending(groups) && Collects(groups, s, key) && i < |groups|
    ensures x in s && key(x) == groups[i].key
  {
    WithKeyIsMember(s, key, groups[i].key);
    x :| x in s && key(x) == groups[i].key;
  }

  lemma {:induction false} RunsCollect<T>(s: seq<T>, key: T -> Option<string>)
    requires Ordered(s, key)
    ensures Ascending(Runs(s, key)) && Collects(Runs(s, key), s, key)
  {
    if s == [] {
    } else {
      var (before, x) := (s[..|s| - 1], s[|s| - 1]);
      RunsCollect(before, key);
      var groups := Runs(before, key);
      assert s == before + [x];
      if groups != [] && groups[|groups| - 1].key == key(x) {
        GroupGrows(groups, before, x, key);
      } else {
        forall i | 0 <= i < |groups| ensures KeyLe(groups[i].key, key(x)) && groups[i].key != key(x) {
          KeysBelow(groups, before, x, key, i);
        }
        GroupStarts(groups, before, x, key);
      }
    }
  }

  lemma KeysBelow<T>(groups: seq<Group<T>>, s: seq<T>, x: T, key: T -> Option<string>, i: nat)
    requires Ordered(s + [x], key) && Ascending(groups) && Collects(groups, s, key)
    requires i < |groups| && groups[|groups| - 1].key != key(x)
    ensures KeyLe(groups[i].key, key(x)) && groups[i].key != key(x)
  {
    var y := GroupHasValue(groups, s, key, i);
    var z := GroupHasValue(groups, s, key, |groups| - 1);
    assert KeyLe(key(y), key(x)) && KeyLe(key(z), key(x)) by {
      var j :| 0 <= j < |s| && s[j] == y;
      var k :| 0 <= k < |s| && s[k] == z;
      assert (s + [x])[j] == y && (s + [x])[k] == z && (s + [x])[|s|] == x;
    }
    if groups[i].key == key(x) {
      KeyOrder(groups[i].key, groups[|groups| - 1].key);
    }
  }

  /** Grouping collects the values by their keys, loses none, and keeps the order within a group. */
  lemma GroupByCollects<T>(values: seq<T>, key: T -> Option<string>)
    ensures Ascending(GroupBy(values, key)) && Collects(GroupBy(values, key), values, key)
  {
    var sorted := SortedBy(values, key);
    SortingIsStable(values, key, None);
    RunsCollect(sorted, key);
    var groups := GroupBy(values, key);
    forall i | 0 <= i < |groups| ensures groups[i].items == WithKey(values, key, groups[i].key) {
      SortingIsStable(values, key, groups[i].key);
    }
    SortingPermutes(values, key);
    forall x | x in values ensures HasGroup(groups, key(x)) {
      assert x in multiset(values);
      assert x in sorted;
    }
  }

  // ---------- Totals ----------

  datatype Totals = Totals(cost: real, credits: int)

  const NOTHING := Totals(0.0, 0)

  function Plus(a: Totals, b: Totals): Totals {
    Totals(a.cost + b.cost, a.credits + b.credits)
  }

  function TotalsOf(item: LineItem): Totals {
    Totals(item.cost, CreditsOrZero(item.credits))
  }

  function TotalsFromItems(items: seq<LineItem>): Totals {
    if items == [] then NOTHING else Plus(TotalsFromItems(items[..|items| - 1]), TotalsOf(items[|items| - 1]))
  }

  lemma TotalsAdd(items: seq<LineItem>, x: LineItem)
    ensures TotalsFromItems(items + [x]) == Plus(TotalsFromItems(items), TotalsOf(x))
  {
    assert (items + [x])[..|items|] == items;
  }

  function GroupTotals(groups: seq<Group<LineItem>>): Totals {
    if groups == [] then NOTHING
    else Plus(GroupTotals(groups[..|groups| - 1]), TotalsFromItems(groups[|groups| - 1].items))
  }

  lemma GroupTotalsAdd(groups: seq<Group<LineItem>>, g: Group<LineItem>)
    ensures GroupTotals(groups + [g]) == Plus(GroupTotals(groups), TotalsFromItems(g.items))
  {
    assert (groups + [g])[..|groups|] == groups;
  }

  lemma GroupGrowsTotals(groups: seq<Group<LineItem>>, x: LineItem)
    requires groups != []
    ensures var last := groups[|groups| - 1];
            GroupTotals(groups[..|groups| - 1] + [Group(last.key, last.items + [x])]) == Plus(GroupTotals(groups), TotalsOf(x))
  {
    var last := groups[|groups| - 1];
    TotalsAdd(last.items, x);
    GroupTotalsAdd(groups[..|groups| - 1], Group(last.key, last.items + [x]));
  }

  lemma GroupStartsTotals(groups: seq<Group<LineItem>>, k: Option<string>, x: LineItem)
    ensures GroupTotals(groups + [Group(k, [x])]) == Plus(GroupTotals(groups), TotalsOf(x))
  {
    TotalsAdd([], x);
    assert [] + [x] == [x];
    GroupTotalsAdd(groups, Group(k, [x]));
  }

  lemma {:induction false} RunsTotals(s: seq<LineItem>, key: LineItem -> Option<string>)
    ensures GroupTotals(Runs(s, key)) == TotalsFromItems(s)
  {
    if s == [] {
    } else {
      var (x, before) := (s[|s| - 1], Runs(s[..|s| - 1], key));
      RunsTotals(s[..|s| - 1], key);
      if before != [] && before[|before| - 1].key == key(x) {
        GroupGrowsTotals(before, x);
      } else {
        GroupStartsTotals(before, key(x), x);
      }
    }
  }

  lemma {:induction false} InsertTotals(s: seq<LineItem>, x: LineItem, key: LineItem -> Option<string>)
    ensures TotalsFromItems(Insert(s, x, key)) == Plus(TotalsFromItems(s), TotalsOf(x))
  {
    if s == [] || KeyLe(key(s[|s| - 1]), key(x)) {
      TotalsAdd(s, x);
    } else {
      InsertTotals(s[..|s| - 1], x, key);
      TotalsAdd(Insert(s[..|s| - 1], x, key), s[|s| - 1]);
    }
  }

  lemma {:induction false} SortedTotals(s: seq<LineItem>, key: LineItem -> Option<string>)
    ensures TotalsFromItems(SortedBy(s, key)) == TotalsFromItems(s)
  {
    if s == [] {
    } else {
      SortedTotals(s[..|s| - 1], key);
      InsertTotals(SortedBy(s[..|s| - 1], key), s[|s| - 1], key);
    }
  }

  lemma GroupByTotals(items: seq<LineItem>, key: LineItem -> Option<string>)
    ensures GroupTotals(GroupBy(items, key)) == TotalsFromItems(items)
  {
    RunsTotals(SortedBy(items, key), key);
    SortedTotals(items, key);
  }

  // ---------- Sections ----------

  function ChannelOf(item: LineItem): Option<string> {
    item.channel
  }

  function BillerOf(item: LineItem): Option<string> {
    Some(item.billedBy)
  }

  function TextOf(item: LineItem): Option<string> {
    Some(DescriptionText(item.description))
  }

  datatype Section = Section(name: Option<string>, totals: Totals, items: seq<LineItem>)

  function MakeSection(g: Group<LineItem>): Section {
    Section(g.key, TotalsFromItems(g.items), SortedBy(g.items, TextOf))
  }

  function MakeSections(groups: seq<Group<LineItem>>): (sections: seq<Section>)
    ensures |sections| == |groups|
    ensures forall i :: 0 <= i < |groups| ==> sections[i] == MakeSection(groups[i])
  {
    if groups == [] then [] else MakeSections(groups[..|groups| - 1]) + [MakeSection(groups[|groups| - 1])]
  }

  function SectionsFromItems(items: seq<LineItem>): seq<Section> {
    MakeSections(GroupBy(SortedBy(items, ChannelOf), ChannelOf))
  }

  function SectionTotals(sections: seq<Section>): Totals {
    if sections == [] then NOTHING
    else Plus(SectionTotals(sections[..|sections| - 1]), sections[|sections| - 1].totals)
  }

  lemma {:induction false} SectionTotalsOfGroups(groups: seq<Group<LineItem>>)
    ensures SectionTotals(MakeSections(groups)) == GroupTotals(groups)
  {
    if groups == [] {
    } else {
      var before := groups[..|groups| - 1];
      SectionTotalsOfGroups(before);
      assert MakeSections(groups)[..|groups| - 1] == MakeSections(before);
    }
  }

  /** What the sections add up to is what their items do. */
  lemma SectionsConserve(items: seq<LineItem>)
    ensures SectionTotals(SectionsFromItems(items)) == TotalsFromItems(items)
  {
    var sorted := SortedBy(items, ChannelOf);
    SectionTotalsOfGroups(GroupBy(sorted, ChannelOf));
    GroupByTotals(sorted, ChannelOf);
    SortedTotals(items, ChannelOf);
  }

  /** Each section has exactly the items of its channel, and their totals. */
  ghost predicate SectionIsExact(s: Section, items: seq<LineItem>) {
    && multiset(s.items) == multiset(WithKey(items, ChannelOf, s.name))
    && s.totals == TotalsFromItems(s.items)
    && Ordered(s.items, TextOf)
  }

  lemma SectionsAreExact(items: seq<LineItem>, i: nat)
    requires i < |SectionsFromItems(items)|
    ensures SectionIsExact(SectionsFromItems(items)[i], items)
  {
    var sorted := SortedBy(items, ChannelOf);
    var g := GroupBy(sorted, ChannelOf)[i];
    GroupByCollects(sorted, ChannelOf);
    SortingIsStable(items, ChannelOf, g.key);
    SortingIsStable(g.items, TextOf, None);
    SortingPermutes(g.items, TextOf);
    SortedTotals(g.items, TextOf);
  }

  // ---------- Billers ----------

  datatype Biller = Biller(name: Option<string>, channelType: Option<string>, sections: seq<Section>)

  function MakeBiller(g: Group<LineItem>): Biller
    requires g.items != []
  {
    Biller(g.key, g.items[0].channelType, SectionsFromItems(g.items))
  }

  function MakeBillers(groups: seq<Group<LineItem>>): (billers: seq<Biller>)
    requires NoneEmpty(groups)
    ensures |billers| == |groups|
    ensures forall i :: 0 <= i < |groups| ==> billers[i] == MakeBiller(groups[i])
  {
    seq(|groups|, i requires 0 <= i < |groups| => MakeBiller(groups[i]))
  }

  predicate NoneEmpty(groups: seq<Group<LineItem>>) {
    forall i :: 0 <= i < |groups| ==> groups[i].items != []
  }

  /** The billers by name, the system among them. */
  function AllBillers(items: seq<LineItem>): seq<Biller> {
    GroupByCollects(items, BillerOf);
    MakeBillers(GroupBy(items, BillerOf))
  }

  function Sum(ts: seq<Totals>): Totals {
    if ts == [] then NOTHING else Plus(Sum(ts[..|ts| - 1]), ts[|ts| - 1])
  }

  lemma {:induction false} SumOfBoth(a: seq<Totals>, b: seq<Totals>)
    ensures Sum(a + b) == Plus(Sum(a), Sum(b))
  {
    if b == [] {
      assert a + b == a;
    } else {
      SumOfBoth(a, b[..|b| - 1]);
      assert (a + b)[..|a + b| - 1] == a + b[..|b| - 1];
    }
  }

  lemma SumOfThree(a: seq<Totals>, b: seq<Totals>, c: seq<Totals>)
    ensures Sum(a + b + c) == Plus(Plus(Sum(a), Sum(b)), Sum(c))
  {
    SumOfBoth(a + b, c);
    SumOfBoth(a, b);
  }

  lemma SumOfSwapped(a: seq<Totals>, b: seq<Totals>, c: seq<Totals>)
    ensures Sum(a + c + b) == Sum(a + b + c)
  {
    SumOfThree(a, b, c);
    SumOfThree(a, c, b);
  }

  lemma Rejoined<T>(s: seq<T>, i: nat)
    requires i < |s|
    ensures s[..i] + [s[i]] + s[i + 1..] == s
  {
  }

  function EachTotal(billers: seq<Biller>): (ts: seq<Totals>)
    ensures |ts| == |billers|
    ensures forall i :: 0 <= i < |billers| ==> ts[i] == SectionTotals(billers[i].sections)
  {
    seq(|billers|, i requires 0 <= i < |billers| => SectionTotals(billers[i].sections))
  }

  function BillerTotals(billers: seq<Biller>): Totals {
    Sum(EachTotal(billers))
  }

  function EachGroupTotal(groups: seq<Group<LineItem>>): (ts: seq<Totals>)
    ensures |ts| == |groups|
    ensures forall i :: 0 <= i < |groups| ==> ts[i] == TotalsFromItems(groups[i].items)
  {
    seq(|groups|, i requires 0 <= i < |groups| => TotalsFromItems(groups[i].items))
  }

  lemma SumLast(groups: seq<Group<LineItem>>)
    requires groups != []
    ensures Sum(EachGroupTotal(groups)) ==
            Plus(Sum(EachGroupTotal(groups[..|groups| - 1])), TotalsFromItems(groups[|groups| - 1].items))
  {
    assert EachGroupTotal(groups)[..|groups| - 1] == EachGroupTotal(groups[..|groups| - 1]);
  }

  lemma {:induction false} SumOfGroups(groups: seq<Group<LineItem>>)
    ensures Sum(EachGroupTotal(groups)) == GroupTotals(groups)
  {
    if groups == [] {
    } else {
      SumOfGroups(groups[..|groups| - 1]);
      SumLast(groups);
    }
  }

  lemma EachBillerConserves(groups: seq<Group<LineItem>>)
    requires NoneEmpty(groups)
    ensures EachTotal(MakeBillers(groups)) == EachGroupTotal(groups)
  {
    forall i | 0 <= i < |groups| ensures EachTotal(MakeBillers(groups))[i] == EachGroupTotal(groups)[i] {
      BillerConserves(groups[i]);
    }
  }

  /** What the billers' sections add up to is what all items do. */
  lemma AllBillersConserve(items: seq<LineItem>)
    ensures BillerTotals(AllBillers(items)) == TotalsFromItems(items)
  {
    var groups := GroupBy(items, BillerOf);
    GroupByCollects(items, BillerOf);
    EachBillerConserves(groups);
    SumOfGroups(groups);
    GroupByTotals(items, BillerOf);
  }

  lemma BillerConserves(g: Group<LineItem>)
    requires g.items != []
    ensures SectionTotals(MakeBiller(g).sections) == TotalsFromItems(g.items)
  {
    SectionsConserve(g.items);
  }

  const SYSTEM := Some(SYSTEM_BILLER)

  /** The billers have different names and each has some section; those but the system are in order, and the system comes last. */
  ghost predicate SystemLast(billers: seq<Biller>) {
    && (forall i, j :: 0 <= i < j < |billers| ==> billers[i].name != billers[j].name)
    && (forall i, j :: 0 <= i < j < |billers| && billers[j].name != SYSTEM ==> KeyLe(billers[i].name, billers[j].name))
    && (forall i :: 0 <= i < |billers| && billers[i].name == SYSTEM ==> i == |billers| - 1)
  }

  lemma AllBillersAscend(items: seq<LineItem>)
    ensures var billers := AllBillers(items);
            forall i, j :: 0 <= i < j < |billers| ==>
              KeyLe(billers[i].name, billers[j].name) && billers[i].name != billers[j].name
  {
    GroupByCollects(items, BillerOf);
  }

  function MovedLast(billers: seq<Biller>, i: nat): seq<Biller>
    requires i < |billers|
  {
    billers[..i] + billers[i + 1..] + [billers[i]]
  }

  lemma MovedConserves(billers: seq<Biller>, i: nat)
    requires i < |billers|
    ensures BillerTotals(MovedLast(billers, i)) == BillerTotals(billers)
  {
    var ts := EachTotal(billers);
    assert EachTotal(MovedLast(billers, i)) == ts[..i] + ts[i + 1..] + [ts[i]];
    Rejoined(ts, i);
    SumOfSwapped(ts[..i], [ts[i]], ts[i + 1..]);
  }

  lemma MovedKeepsAll(billers: seq<Biller>, i: nat)
    requires i < |billers|
    ensures multiset(MovedLast(billers, i)) == multiset(billers)
  {
    Rejoined(billers, i);
  }

  lemma MovedIsLast(billers: seq<Biller>, i: nat)
    requires i < |billers| && billers[i].name == SYSTEM
    requires forall j, k :: 0 <= j < k < |billers| ==>
               KeyLe(billers[j].name, billers[k].name) && billers[j].name != billers[k].name
    ensures multiset(MovedLast(billers, i)) == multiset(billers) && SystemLast(MovedLast(billers, i))
  {
    MovedKeepsAll(billers, i);
    var moved := MovedLast(billers, i);
    assert forall j :: 0 <= j < |billers| - 1 ==> moved[j] == billers[if j < i then j else j + 1];
  }

  method BillersFromItems(items: seq<LineItem>) returns (billers: seq<Biller>)
    ensures multiset(billers) == multiset(AllBillers(items)) && SystemLast(billers)
    ensures BillerTotals(billers) == TotalsFromItems(items)
  {
    ghost var all := AllBillers(items);
    AllBillersAscend(items);
    AllBillersConserve(items);
    billers := AllBillers(items);
    var i := FindSystem(billers);
    if i < |billers| {
      var systemBiller := billers[i];
      billers := billers[..i] + billers[i + 1..];
      billers := billers + [systemBiller];
      MovedIsLast(all, i);
      MovedConserves(all, i);
    }
  }

  method FindSystem(billers: seq<Biller>) returns (i: nat)
    ensures i <= |billers| && (i < |billers| ==> billers[i].name == SYSTEM)
    ensures forall j :: 0 <= j < i ==> billers[j].name != SYSTEM
  {
    i := 0;
    while i < |billers| && billers[i].name != SYSTEM
      invariant i <= |billers|
      invariant forall j :: 0 <= j < i ==> billers[j].name != SYSTEM
    {
      i := i + 1;
    }
  }

  /** Each section of each biller has exactly the items of that biller and that channel. */
  lemma InvoiceIsExact(items: seq<LineItem>, i: nat, j: nat)
    requires i < |AllBillers(items)| && j < |AllBillers(items)[i].sections|
    ensures var b := AllBillers(items)[i];
            SectionIsExact(b.sections[j], WithKey(items, BillerOf, b.name))
  {
    GroupByCollects(items, BillerOf);
    SectionsAreExact(GroupBy(items, BillerOf)[i].items, j);
  }

  // ---------- Where an item is found ----------

  lemma {:induction false} WithKeyCounts<T>(s: seq<T>, key: T -> Option<string>, k: Option<string>, x: T)
    ensures multiset(WithKey(s, key, k))[x] == if key(x) == k then multiset(s)[x] else 0
  {
    if s == [] {
    } else {
      var last := |s| - 1;
      WithKeyCounts(s[..last], key, k, x);
      assert s == s[..last] + [s[last]];
    }
  }

  /**
   An item is in a section, as often as it is on the statement, if it is billed by the section's biller and on the
   section's channel, and else not at all; and a section's items are in the order of their descriptions.
   */
  lemma SectionHoldsItems(items: seq<LineItem>, i: nat, j: nat, x: LineItem)
    requires i < |AllBillers(items)| && j < |AllBillers(items)[i].sections|
    ensures var (biller, s) := (AllBillers(items)[i], AllBillers(items)[i].sections[j]);
            multiset(s.items)[x] == if Some(x.billedBy) == biller.name && x.channel == s.name then multiset(items)[x] else 0
    ensures var s := AllBillers(items)[i].sections[j];
            forall p, q :: 0 <= p < q < |s.items| ==> Le(DescriptionText(s.items[p].description), DescriptionText(s.items[q].description))
  {
    InvoiceIsExact(items, i, j);
    var (biller, s) := (AllBillers(items)[i], AllBillers(items)[i].sections[j]);
    WithKeyCounts(WithKey(items, BillerOf, biller.name), ChannelOf, s.name, x);
    WithKeyCounts(items, BillerOf, biller.name, x);
  }

  /** The first of the items that has the biller. */
  ghost predicate FirstBilledBy(items: seq<LineItem>, n: nat, name: Option<string>)
    requires n < |items|
  {
    Some(items[n].billedBy) == name && forall m :: 0 <= m < n ==> Some(items[m].billedBy) != name
  }

  lemma {:induction false} FirstWithKey(items: seq<LineItem>, k: Option<string>) returns (n: nat)
    requires WithKey(items, BillerOf, k) != []
    ensures n < |items| && FirstBilledBy(items, n, k) && WithKey(items, BillerOf, k)[0] == items[n]
  {
    var before := items[..|items| - 1];
    if WithKey(before, BillerOf, k) == [] {
      n := |items| - 1;
      NoneWithBiller(before, k);
    } else {
      n := FirstWithKey(before, k);
    }
  }

  lemma {:induction false} NoneWithBiller(items: seq<LineItem>, k: Option<string>)
    requires WithKey(items, BillerOf, k) == []
    ensures forall m :: 0 <= m < |items| ==> Some(items[m].billedBy) != k
  {
    if items == [] {
    } else {
      NoneWithBiller(items[..|items| - 1], k);
    }
  }

  /** A biller is shown with the channel type of its first item. */
  lemma BillerShowsChannelType(items: seq<LineItem>, i: nat) returns (n: nat)
    requires i < |AllBillers(items)|
    ensures n < |items| && FirstBilledBy(items, n, AllBillers(items)[i].name)
    ensures AllBillers(items)[i].channelType == items[n].channelType
  {
    GroupByCollects(items, BillerOf);
    n := FirstWithKey(items, AllBillers(items)[i].name);
  }

  function CostsOf(items: seq<LineItem>): real {
    if items == [] then 0.0 else CostsOf(items[..|items| - 1]) + items[|items| - 1].cost
  }

  lemma {:induction false} TotalsAreCosts(items: seq<LineItem>)
    ensures TotalsFromItems(items).cost == CostsOf(items)
  {
    if items == [] {
    } else {
      TotalsAreCosts(items[..|items| - 1]);
    }
  }

  // ---------- Invoices of what was charged ----------

  lemma {:induction false} TotalsAreCredits(items: seq<LineItem>)
    ensures TotalsFromItems(items).credits == CreditsOf(items)
  {
    if items == [] {
    } else {
      TotalsAreCredits(items[..|items| - 1]);
    }
  }

  /**
   From charge to invoice: the credits in all sections of all billers are exactly what was taken off the balance if
   no session was charged for its length that lasted less than half a millisecond; and only then, unless some of
   what was charged for lengths is negative.
   */
  lemma InvoiceIsComplete(events: seq<Event>, names: Names, items: seq<LineItem>)
    requires AllAsStored(events) && IsStatement(AllWritten(events, DEFAULT_FACTOR), names, items)
    ensures var total := BillerTotals(AllBillers(items)).credits;
            && (NoneTooShort(events) ==> total == TotalTaken(events, DEFAULT_FACTOR))
            && (NoneChargesLess(events) ==> (total == TotalTaken(events, DEFAULT_FACTOR) <==> NoneTooShort(events)))
  {
    AllBillersConserve(items);
    TotalsAreCredits(items);
    StatementIsComplete(events, names, items);
  }
}
