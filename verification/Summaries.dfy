/**
 Grouping transactions by some of their fields and totalling others (Summaries, Summary):
 every summary has a count and, for each group, a total cost and total credits.
 */
module Summaries {
  import opened Ordering
  import opened Wrappers

  /** What is picked from one transaction: the fields to group by, and the two fields to total. */
  datatype Picked<Key> = Picked(key: Key, cost: Option<real>, credits: Option<int>)

  /** A summary as it is reported. */
  datatype Row<Key> = Row(key: Key, count: nat, cost: Option<real>, credits: Option<int>)

  /** Missing values do not take part in a total; a total of nothing is missing itself. */
  function AddCost(total: Option<real>, value: Option<real>): Option<real> {
    match (total, value)
    case (_, None) => total
    case (None, Some(v)) => Some(v)
    case (Some(t), Some(v)) => Some(v + t)
  }

  function AddCredits(total: Option<int>, value: Option<int>): Option<int> {
    match (total, value)
    case (_, None) => total
    case (None, Some(v)) => Some(v)
    case (Some(t), Some(v)) => Some(v + t)
  }

  class Summary {
    var count: nat
    var cost: Option<real>
    var credits: Option<int>

    constructor ()
      ensures count == 0 && cost == None && credits == None
    {
      count, cost, credits := 0, None, None;
    }

    method Incr<Key>(m: Picked<Key>)
      modifies this
      ensures count == old(count) + 1
      ensures cost == AddCost(old(cost), m.cost) && credits == AddCredits(old(credits), m.credits)
    {
      count := count + 1;
      if m.cost.Some? {
        cost := Some(m.cost.value + if cost.Some? then cost.value else 0.0);
      }
      if m.credits.Some? {
        credits := Some(m.credits.value + if credits.Some? then credits.value else 0);
      }
    }
  }

  /** The summary of those of the models that have the key. */
  function SummaryOf<Key(==)>(models: seq<Picked<Key>>, k: Key): Row<Key> {
    if models == [] then Row(k, 0, None, None)
    else
      var m := models[|models| - 1];
      var r := SummaryOf(models[..|models| - 1], k);
      if m.key != k then r else Row(k, r.count + 1, AddCost(r.cost, m.cost), AddCredits(r.credits, m.credits))
  }

  lemma SummaryLast<Key>(models: seq<Picked<Key>>, m: Picked<Key>, k: Key)
    ensures SummaryOf(models + [m], k) ==
            var r := SummaryOf(models, k);
            if m.key != k then r else Row(k, r.count + 1, AddCost(r.cost, m.cost), AddCredits(r.credits, m.credits))
  {
    assert (models + [m])[..|models|] == models;
  }

  lemma {:induction false} SummaryKey<Key>(models: seq<Picked<Key>>, k: Key)
    ensures SummaryOf(models, k).key == k
  {
    if models == [] {
    } else {
      SummaryKey(models[..|models| - 1], k);
    }
  }

  function KeysOf<Key>(models: seq<Picked<Key>>): set<Key> {
    set m | m in models :: m.key
  }

  class Summaries<Key(==,!new)> {
    var items: map<Key, Summary>

    ghost predicate Valid()
      reads this
    {
      forall j, k :: j in items && k in items && j != k ==> items[j] != items[k]
    }

    /** The items are the summaries of these models. */
    ghost predicate Summarizes(models: seq<Picked<Key>>)
      reads this, items.Values
    {
      && items.Keys == KeysOf(models)
      && forall k :: k in items ==> Row(k, items[k].count, items[k].cost, items[k].credits) == SummaryOf(models, k)
    }

    constructor ()
      ensures Valid() && items == map[]
    {
      items := map[];
    }

    method Ensure(k: Key) returns (s: Summary)
      requires Valid()
      modifies this
      ensures Valid() && k in items && items[k] == s
      ensures if k in old(items) then items == old(items)
              else fresh(s) && items == old(items)[k := s] && s.count == 0 && s.cost == None && s.credits == None
    {
      if k !in items {
        s := new Summary();
        items := items[k := s];
      }
      s := items[k];
    }

    method Incr(m: Picked<Key>, ghost models: seq<Picked<Key>>)
      requires Valid() && Summarizes(models)
      modifies this, items.Values
      ensures Valid() && Summarizes(models + [m])
      ensures fresh(items.Values - old(items.Values))
    {
      assert (models + [m])[..|models|] == models;
      KeysGrow(models, m);
      if m.key !in items {
        NoneWithKey(models, m.key);
      }
      var s := Ensure(m.key);
      s.Incr(m);
    }

    /** The rows, one for each key, in the order of the keys. */
    method Serialize(le: (Key, Key) -> bool, ghost models: seq<Picked<Key>>) returns (rows: seq<Row<Key>>)
      requires Valid() && Summarizes(models) && TotalOrder(le)
      ensures RowsOf(models, rows) && SortedRows(rows, le)
    {
      var keys := SortKeys(items.Keys, le);
      rows := [];
      for i := 0 to |keys|
        invariant |rows| == i
        invariant forall j :: 0 <= j < i ==> rows[j].key == keys[j] && rows[j] == SummaryOf(models, keys[j])
      {
        assert keys[i] in items;
        var s := items[keys[i]];
        rows := rows + [Row(keys[i], s.count, s.cost, s.credits)];
      }
      forall k | k in items.Keys ensures exists i :: 0 <= i < |rows| && rows[i].key == k {
        var i :| 0 <= i < |keys| && keys[i] == k;
        assert rows[i].key == k;
      }
      forall i | 0 <= i < |rows| ensures rows[i].key in items {
        assert keys[i] in items;
      }
    }
  }

  lemma KeysGrow<Key>(models: seq<Picked<Key>>, m: Picked<Key>)
    ensures KeysOf(models + [m]) == KeysOf(models) + {m.key}
  {
    assert m in models + [m];
    forall x | x in models ensures x in models + [m] {}
  }

  lemma {:induction false} NoneWithKey<Key>(models: seq<Picked<Key>>, k: Key)
    requires k !in KeysOf(models)
    ensures SummaryOf(models, k) == Row(k, 0, None, None)
  {
    if models == [] {
    } else {
      assert models[|models| - 1] in models;
      NoneWithKey(models[..|models| - 1], k);
    }
  }

  /** One row for each key, each the summary of its models. */
  ghost predicate RowsOf<Key>(models: seq<Picked<Key>>, rows: seq<Row<Key>>) {
    && (forall i, j :: 0 <= i < j < |rows| ==> rows[i].key != rows[j].key)
    && (forall i :: 0 <= i < |rows| ==> rows[i].key in KeysOf(models) && rows[i] == SummaryOf(models, rows[i].key))
    && (forall k :: k in KeysOf(models) ==> exists i :: 0 <= i < |rows| && rows[i].key == k)
  }

  ghost predicate SortedRows<Key(!new)>(rows: seq<Row<Key>>, le: (Key, Key) -> bool) {
    forall i, j :: 0 <= i < j < |rows| ==> le(rows[i].key, rows[j].key)
  }

  method Summarize<Key(==,!new)>(models: seq<Picked<Key>>, le: (Key, Key) -> bool) returns (rows: seq<Row<Key>>)
    requires TotalOrder(le)
    ensures RowsOf(models, rows) && SortedRows(rows, le)
  {
    var summaries := new Summaries<Key>();
    var i := 0;
    assert models[..0] == [];
    while i < |models|
      invariant 0 <= i <= |models|
      invariant fresh(summaries) && fresh(summaries.items.Values)
      invariant summaries.Valid() && summaries.Summarizes(models[..i])
    {
      summaries.Incr(models[i], models[..i]);
      assert models[..i] + [models[i]] == models[..i + 1];
      i := i + 1;
    }
    assert models[..i] == models;
    rows := summaries.Serialize(le, models);
  }

  // ---------- Conservation ----------

  function CreditsOrZero(c: Option<int>): int {
    if c.Some? then c.value else 0
  }

  function TotalPicked<Key>(models: seq<Picked<Key>>): int {
    if models == [] then 0
    else TotalPicked(models[..|models| - 1]) + CreditsOrZero(models[|models| - 1].credits)
  }

  lemma TotalPickedLast<Key>(models: seq<Picked<Key>>, m: Picked<Key>)
    ensures TotalPicked(models + [m]) == TotalPicked(models) + CreditsOrZero(m.credits)
  {
    assert (models + [m])[..|models|] == models;
  }

  function TotalRows<Key>(rows: seq<Row<Key>>): int {
    if rows == [] then 0 else TotalRows(rows[..|rows| - 1]) + CreditsOrZero(rows[|rows| - 1].credits)
  }

  /** The total over some keys, taken key by key. */
  function TotalFor<Key(==)>(models: seq<Picked<Key>>, keys: seq<Key>): int {
    if keys == [] then 0
    else TotalFor(models, keys[..|keys| - 1]) + CreditsOrZero(SummaryOf(models, keys[|keys| - 1]).credits)
  }

  ghost predicate NoRepeats<Key>(keys: seq<Key>) {
    forall i, j :: 0 <= i < j < |keys| ==> keys[i] != keys[j]
  }

  /** One more model adds its credits to the total over the keys once, if its key is among them. */
  lemma {:induction false} TotalForAdd<Key>(models: seq<Picked<Key>>, m: Picked<Key>, keys: seq<Key>)
    requires NoRepeats(keys)
    ensures TotalFor(models + [m], keys) == TotalFor(models, keys) + if m.key in keys then CreditsOrZero(m.credits) else 0
  {
    assert (models + [m])[..|models|] == models;
    if keys == [] {
    } else {
      TotalForAdd(models, m, keys[..|keys| - 1]);
    }
  }

  lemma {:induction false} TotalForNone<Key>(keys: seq<Key>)
    ensures TotalFor([], keys) == 0
  {
    if keys == [] {
    } else {
      TotalForNone(keys[..|keys| - 1]);
    }
  }

  lemma {:induction false} TotalForAll<Key>(models: seq<Picked<Key>>, keys: seq<Key>)
    requires NoRepeats(keys) && forall m :: m in models ==> m.key in keys
    ensures TotalFor(models, keys) == TotalPicked(models)
  {
    if models == [] {
      TotalForNone(keys);
    } else {
      var last := |models| - 1;
      TotalForAll(models[..last], keys);
      TotalForAdd(models[..last], models[last], keys);
      assert models[..last] + [models[last]] == models;
    }
  }

  function RowKeys<Key>(rows: seq<Row<Key>>): (keys: seq<Key>)
    ensures |keys| == |rows|
    ensures forall i :: 0 <= i < |rows| ==> keys[i] == rows[i].key
  {
    if rows == [] then [] else RowKeys(rows[..|rows| - 1]) + [rows[|rows| - 1].key]
  }

  lemma {:induction false} TotalRowsByKey<Key>(models: seq<Picked<Key>>, rows: seq<Row<Key>>)
    requires forall i :: 0 <= i < |rows| ==> rows[i] == SummaryOf(models, rows[i].key)
    ensures TotalRows(rows) == TotalFor(models, RowKeys(rows))
  {
    if rows == [] {
    } else {
      TotalRowsByKey(models, rows[..|rows| - 1]);
      assert RowKeys(rows)[..|rows| - 1] == RowKeys(rows[..|rows| - 1]);
    }
  }

  /** Grouping moves credits about but neither adds nor loses any. */
  lemma SummariesConserve<Key>(models: seq<Picked<Key>>, rows: seq<Row<Key>>)
    requires RowsOf(models, rows)
    ensures TotalRows(rows) == TotalPicked(models)
  {
    TotalRowsByKey(models, rows);
    forall m | m in models ensures m.key in RowKeys(rows) {
      assert m.key in KeysOf(models);
      var i :| 0 <= i < |rows| && rows[i].key == m.key;
      assert RowKeys(rows)[i] == m.key;
    }
    TotalForAll(models, RowKeys(rows));
  }
}
