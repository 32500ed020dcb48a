/**
 The order of text and of optional text, and sorting by it.
 */
module Ordering {
  import opened Wrappers

  /** Python's `<=` on strings. */
  predicate Le(a: string, b: string) {
    a == "" || (b != "" && (a[0] < b[0] || (a[0] == b[0] && Le(a[1..], b[1..]))))
  }

  predicate Lt(a: string, b: string) {
    a != b && Le(a, b)
  }

  lemma {:induction false} LeIsReflexive(a: string)
    ensures Le(a, a)
  {
    if a == "" {
    } else {
      LeIsReflexive(a[1..]);
    }
  }

  lemma {:induction false} LeIsAntisymmetric(a: string, b: string)
    requires Le(a, b) && Le(b, a)
    ensures a == b
  {
    if a == "" {
    } else {
      LeIsAntisymmetric(a[1..], b[1..]);
      assert a == [a[0]] + a[1..] && b == [b[0]] + b[1..];
    }
  }

  lemma {:induction false} LeIsTransitive(a: string, b: string, c: string)
    requires Le(a, b) && Le(b, c)
    ensures Le(a, c)
  {
    if a == "" {
    } else if a[0] == b[0] == c[0] {
      LeIsTransitive(a[1..], b[1..], c[1..]);
    }
  }

  lemma {:induction false} LeIsTotal(a: string, b: string)
    ensures Le(a, b) || Le(b, a)
  {
    if a == "" || b == "" {
    } else if a[0] == b[0] {
      LeIsTotal(a[1..], b[1..]);
    }
  }

  /** Where two strings first differ. */
  predicate DifferAt(a: string, b: string, i: int) {
    0 <= i < |a| && i < |b| && a[..i] == b[..i] && a[i] != b[i]
  }

  /** The smaller character at the first difference. */
  ghost predicate SmallerAtDifference(a: string, b: string) {
    exists i :: DifferAt(a, b, i) && a[i] < b[i]
  }

  lemma DifferAtFirst(a: string, b: string)
    requires a != "" && b != "" && a[0] != b[0]
    ensures SmallerAtDifference(a, b) <==> a[0] < b[0]
  {
    assert DifferAt(a, b, 0);
    forall i ensures DifferAt(a, b, i) ==> i == 0 {
      SameBeforeDifference(a, b, i);
    }
  }

  lemma SameBeforeDifference(a: string, b: string, i: int)
    requires a != "" && b != ""
    ensures DifferAt(a, b, i) && i > 0 ==> a[0] == b[0]
  {
    if DifferAt(a, b, i) && i > 0 {
      assert a[0] == a[..i][0] && b[0] == b[..i][0];
    }
  }

  lemma DifferLater(a: string, b: string)
    requires a != "" && b != "" && a[0] == b[0]
    ensures SmallerAtDifference(a, b) <==> SmallerAtDifference(a[1..], b[1..])
  {
    forall i ensures DifferAt(a, b, i + 1) <==> DifferAt(a[1..], b[1..], i) {
      LaterDifference(a, b, i);
    }
    if i :| DifferAt(a, b, i) && a[i] < b[i] {
      LaterDifference(a, b, i - 1);
      assert a[1..][i - 1] < b[1..][i - 1];
    }
    if i :| DifferAt(a[1..], b[1..], i) && a[1..][i] < b[1..][i] {
      assert a[i + 1] < b[i + 1];
    }
  }

  lemma LaterDifference(a: string, b: string, i: int)
    requires a != "" && b != "" && a[0] == b[0]
    ensures DifferAt(a, b, i + 1) <==> DifferAt(a[1..], b[1..], i)
  {
    if 0 <= i && i + 1 < |a| && i + 1 < |b| {
      assert a[..i + 1] == [a[0]] + a[1..][..i] && b[..i + 1] == [b[0]] + b[1..][..i];
      assert a[1..][..i] == a[..i + 1][1..] && b[1..][..i] == b[..i + 1][1..];
    }
  }

  /** The string is smaller that ends first, or has the smaller character where they first differ. */
  lemma {:induction false} LeIsLexicographic(a: string, b: string)
    ensures Le(a, b) <==> a <= b || SmallerAtDifference(a, b)
  {
    if a == "" || b == "" {
    } else if a[0] != b[0] {
      DifferAtFirst(a, b);
    } else {
      LeIsLexicographic(a[1..], b[1..]);
      DifferLater(a, b);
      PrefixLater(a, b);
    }
  }

  lemma PrefixLater(a: string, b: string)
    requires a != "" && b != "" && a[0] == b[0]
    ensures a <= b <==> a[1..] <= b[1..]
  {
    assert a == [a[0]] + a[1..] && b == [b[0]] + b[1..];
    if a[1..] <= b[1..] {
      assert b[1..][..|a| - 1] == a[1..];
      assert b[..|a|] == [b[0]] + b[1..][..|a| - 1];
    }
    if a <= b {
      assert a[1..] == b[..|a|][1..] == b[1..][..|a| - 1];
    }
  }

  /** Python 2 sorts None before every string. */
  predicate KeyLe(a: Option<string>, b: Option<string>) {
    a.None? || (b.Some? && Le(a.value, b.value))
  }

  lemma KeyOrder(a: Option<string>, b: Option<string>)
    ensures KeyLe(a, a) && (KeyLe(a, b) || KeyLe(b, a))
    ensures KeyLe(a, b) && KeyLe(b, a) ==> a == b
    ensures a.None? || b.None? ==> (KeyLe(a, b) <==> a.None?)
    ensures a.Some? && b.Some? ==> (KeyLe(a, b) <==> Le(a.value, b.value))
  {
    if a.Some? {
      LeIsReflexive(a.value);
      if b.Some? {
        LeIsTotal(a.value, b.value);
        if Le(a.value, b.value) && Le(b.value, a.value) {
          LeIsAntisymmetric(a.value, b.value);
        }
      }
    }
  }

  lemma KeyLeIsTransitive(a: Option<string>, b: Option<string>, c: Option<string>)
    requires KeyLe(a, b) && KeyLe(b, c)
    ensures KeyLe(a, c)
  {
    if a.Some? {
      LeIsTransitive(a.value, b.value, c.value);
    }
  }

  // ---------- Stable sorting ----------

  ghost predicate Ordered<T>(s: seq<T>, key: T -> Option<string>) {
    forall i, j :: 0 <= i < j < |s| ==> KeyLe(key(s[i]), key(s[j]))
  }

  /** Puts `x` behind everything that it is not less than. */
  function Insert<T>(s: seq<T>, x: T, key: T -> Option<string>): (r: seq<T>)
    ensures |r| == |s| + 1
  {
    if s == [] || KeyLe(key(s[|s| - 1]), key(x)) then s + [x]
    else Insert(s[..|s| - 1], x, key) + [s[|s| - 1]]
  }

  /** `sorted(s, key=key)`. */
  function SortedBy<T>(s: seq<T>, key: T -> Option<string>): (r: seq<T>)
    ensures |r| == |s|
  {
    if s == [] then [] else Insert(SortedBy(s[..|s| - 1], key), s[|s| - 1], key)
  }

  /** Those with the key, in the order they come in. */
  function WithKey<T>(s: seq<T>, key: T -> Option<string>, k: Option<string>): seq<T> {
    if s == [] then []
    else
      var x := s[|s| - 1];
      WithKey(s[..|s| - 1], key, k) + if key(x) == k then [x] else []
  }

  lemma WithKeyAdd<T>(s: seq<T>, x: T, key: T -> Option<string>, k: Option<string>)
    ensures WithKey(s + [x], key, k) == WithKey(s, key, k) + if key(x) == k then [x] else []
  {
    assert (s + [x])[..|s|] == s;
  }

  lemma {:induction false} InsertedOrMember<T>(s: seq<T>, x: T, key: T -> Option<string>)
    ensures forall y :: y in Insert(s, x, key) ==> y == x || y in s
  {
    if s == [] || KeyLe(key(s[|s| - 1]), key(x)) {
    } else {
      InsertedOrMember(s[..|s| - 1], x, key);
    }
  }

  lemma OrderedAdd<T>(s: seq<T>, x: T, key: T -> Option<string>)
    requires Ordered(s, key) && forall y :: y in s ==> KeyLe(key(y), key(x))
    ensures Ordered(s + [x], key)
  {
  }

  lemma {:induction false} InsertKeepsOrder<T>(s: seq<T>, x: T, key: T -> Option<string>)
    requires Ordered(s, key)
    ensures Ordered(Insert(s, x, key), key)
  {
    if s == [] {
    } else {
      var (before, last) := (s[..|s| - 1], s[|s| - 1]);
      KeyOrder(key(last), key(x));
      if KeyLe(key(last), key(x)) {
        forall y | y in s ensures KeyLe(key(y), key(x)) {
          KeyOrder(key(last), key(last));
          KeyLeIsTransitive(key(y), key(last), key(x));
        }
        OrderedAdd(s, x, key);
      } else {
        InsertKeepsOrder(before, x, key);
        InsertedOrMember(before, x, key);
        OrderedAdd(Insert(before, x, key), last, key);
      }
    }
  }

  lemma {:induction false} InsertIsStable<T>(s: seq<T>, x: T, key: T -> Option<string>, k: Option<string>)
    ensures WithKey(Insert(s, x, key), key, k) == WithKey(s, key, k) + if key(x) == k then [x] else []
  {
    if s == [] || KeyLe(key(s[|s| - 1]), key(x)) {
      WithKeyAdd(s, x, key, k);
    } else {
      var (before, last) := (s[..|s| - 1], s[|s| - 1]);
      KeyOrder(key(last), key(x));
      InsertIsStable(before, x, key, k);
      WithKeyAdd(Insert(before, x, key), last, key, k);
    }
  }

  /** Sorting orders by the key, and leaves those with the same key in the order they came in. */
  lemma {:induction false} SortingIsStable<T>(s: seq<T>, key: T -> Option<string>, k: Option<string>)
    ensures Ordered(SortedBy(s, key), key)
    ensures WithKey(SortedBy(s, key), key, k) == WithKey(s, key, k)
  {
    if s == [] {
    } else {
      var before := s[..|s| - 1];
      SortingIsStable(before, key, k);
      InsertKeepsOrder(SortedBy(before, key), s[|s| - 1], key);
      InsertIsStable(SortedBy(before, key), s[|s| - 1], key, k);
    }
  }

  lemma {:induction false} InsertAddsOne<T>(s: seq<T>, x: T, key: T -> Option<string>)
    ensures multiset(Insert(s, x, key)) == multiset(s) + multiset{x}
  {
    if s == [] || KeyLe(key(s[|s| - 1]), key(x)) {
    } else {
      InsertAddsOne(s[..|s| - 1], x, key);
      assert s == s[..|s| - 1] + [s[|s| - 1]];
    }
  }

  lemma {:induction false} SortingPermutes<T>(s: seq<T>, key: T -> Option<string>)
    ensures multiset(SortedBy(s, key)) == multiset(s)
  {
    if s == [] {
    } else {
      SortingPermutes(s[..|s| - 1], key);
      InsertAddsOne(SortedBy(s[..|s| - 1], key), s[|s| - 1], key);
      assert s == s[..|s| - 1] + [s[|s| - 1]];
    }
  }

  // ---------- Tuples ----------

  /** A field of a tuple. Python 2 sorts None before numbers, and numbers before strings. */
  datatype Field = Missing | Number(value: real) | Word(text: string)

  predicate FieldLe(a: Field, b: Field) {
    match (a, b)
    case (Missing, _) => true
    case (Number(x), Number(y)) => x <= y
    case (Number(_), Word(_)) => true
    case (Word(x), Word(y)) => Le(x, y)
    case _ => false
  }

  predicate TupleLe(a: seq<Field>, b: seq<Field>) {
    a == [] || (b != [] && if a[0] == b[0] then TupleLe(a[1..], b[1..]) else FieldLe(a[0], b[0]))
  }

  ghost predicate TotalOrder<T(!new)>(le: (T, T) -> bool) {
    && (forall a, b :: le(a, b) || le(b, a))
    && (forall a, b :: le(a, b) && le(b, a) ==> a == b)
    && (forall a, b, c :: le(a, b) && le(b, c) ==> le(a, c))
  }

  lemma FieldOrder(a: Field, b: Field, c: Field)
    ensures FieldLe(a, b) || FieldLe(b, a)
    ensures FieldLe(a, b) && FieldLe(b, a) ==> a == b
    ensures FieldLe(a, b) && FieldLe(b, c) ==> FieldLe(a, c)
  {
    if a.Word? && b.Word? {
      LeIsTotal(a.text, b.text);
      if Le(a.text, b.text) && Le(b.text, a.text) {
        LeIsAntisymmetric(a.text, b.text);
      }
      if c.Word? && Le(a.text, b.text) && Le(b.text, c.text) {
        LeIsTransitive(a.text, b.text, c.text);
      }
    }
  }

  lemma {:induction false} TupleLeIsTotal(a: seq<Field>, b: seq<Field>)
    ensures TupleLe(a, b) || TupleLe(b, a)
  {
    if a == [] || b == [] {
    } else if a[0] == b[0] {
      TupleLeIsTotal(a[1..], b[1..]);
    } else {
      FieldOrder(a[0], b[0], a[0]);
    }
  }

  lemma {:induction false} TupleLeIsAntisymmetric(a: seq<Field>, b: seq<Field>)
    requires TupleLe(a, b) && TupleLe(b, a)
    ensures a == b
  {
    if a == [] || b == [] {
    } else {
      FieldOrder(a[0], b[0], a[0]);
      TupleLeIsAntisymmetric(a[1..], b[1..]);
      assert a == [a[0]] + a[1..] && b == [b[0]] + b[1..];
    }
  }

  lemma {:induction false} TupleLeIsTransitive(a: seq<Field>, b: seq<Field>, c: seq<Field>)
    requires TupleLe(a, b) && TupleLe(b, c)
    ensures TupleLe(a, c)
  {
    if a == [] {
    } else {
      FieldOrder(a[0], b[0], c[0]);
      if a[0] == b[0] == c[0] {
        TupleLeIsTransitive(a[1..], b[1..], c[1..]);
      }
    }
  }

  /** Ordering by tuples that tell their keys apart is a total order. */
  lemma ByTuples<T(!new)>(fields: T -> seq<Field>, le: (T, T) -> bool)
    requires forall a, b :: fields(a) == fields(b) ==> a == b
    requires forall a, b :: le(a, b) == TupleLe(fields(a), fields(b))
    ensures TotalOrder(le)
  {
    forall a, b ensures le(a, b) || le(b, a) {
      TupleLeIsTotal(fields(a), fields(b));
    }
    forall a, b | le(a, b) && le(b, a) ensures a == b {
      TupleLeIsAntisymmetric(fields(a), fields(b));
    }
    forall a, b, c | le(a, b) && le(b, c) ensures le(a, c) {
      TupleLeIsTransitive(fields(a), fields(b), fields(c));
    }
  }

  /** The least of some keys. */
  method Least<T(==,!new)>(keys: set<T>, le: (T, T) -> bool) returns (least: T)
    requires keys != {} && TotalOrder(le)
    ensures least in keys && forall k :: k in keys ==> le(least, k)
  {
    least :| least in keys;
    var todo := keys;
    while todo != {}
      invariant least in keys && todo <= keys
      invariant forall k :: k in keys - todo ==> le(least, k)
    {
      var k :| k in todo;
      if !le(least, k) {
        assert le(k, least);
        least := k;
      }
      todo := todo - {k};
      assert le(least, k);
    }
    assert keys - todo == keys;
  }

  /** Keys in ascending order, each once. */
  method SortKeys<T(==,!new)>(keys: set<T>, le: (T, T) -> bool) returns (sorted: seq<T>)
    requires TotalOrder(le)
    ensures forall k :: k in sorted <==> k in keys
    ensures forall i, j :: 0 <= i < j < |sorted| ==> le(sorted[i], sorted[j]) && sorted[i] != sorted[j]
  {
    sorted := [];
    var todo := keys;
    while todo != {}
      invariant todo <= keys
      invariant forall k :: k in sorted <==> k in keys - todo
      invariant forall i, j :: 0 <= i < j < |sorted| ==> le(sorted[i], sorted[j]) && sorted[i] != sorted[j]
      invariant forall i, k :: 0 <= i < |sorted| && k in todo ==> le(sorted[i], k)
    {
      var k := Least(todo, le);
      forall i | 0 <= i < |sorted| ensures sorted[i] != k {
        assert sorted[i] in sorted;
      }
      sorted := sorted + [k];
      todo := todo - {k};
    }
  }
}
