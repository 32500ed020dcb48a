/**
 Sending a message to every contact of a conversation (`process_command_bulk_send`), and taking
 it up again after the worker was interrupted, from a progress marker kept in the store.
 */
module BulkSend {
  import opened Ordering
  import opened Wrappers

  // ---------- What a send does ----------

  /** A message put into the send window for a contact; opted-out contacts have no address. */
  datatype Send = Send(key: string, addr: Option<string>)

  ghost predicate SortedKeys(keys: seq<string>) {
    forall i, j :: 0 <= i < j < |keys| ==> Lt(keys[i], keys[j])
  }

  function Repeated(addr: string -> Option<string>, dedupe: bool, seen: set<Option<string>>, key: string): bool {
    dedupe && addr(key) in seen
  }

  /** The messages an uninterrupted send puts into the window, in order. */
  function Sends(keys: seq<string>, addr: string -> Option<string>, dedupe: bool): seq<Send> {
    if keys == [] then []
    else
      var last := |keys| - 1;
      var before := Sends(keys[..last], addr, dedupe);
      if Repeated(addr, dedupe, Seen(keys[..last], addr), keys[last]) then before
      else before + [Send(keys[last], addr(keys[last]))]
  }

  function Seen(keys: seq<string>, addr: string -> Option<string>): set<Option<string>> {
    set k | k in keys :: addr(k)
  }

  /** The contact was dealt with before the interruption; an empty marker counts as none. */
  predicate Skipped(progress: Option<string>, key: string) {
    progress.Some? && progress.value != "" && Le(key, progress.value)
  }

  function Remaining(sends: seq<Send>, progress: Option<string>): seq<Send> {
    if sends == [] then []
    else
      var last := |sends| - 1;
      Remaining(sends[..last], progress) + if Skipped(progress, sends[last].key) then [] else [sends[last]]
  }

  /** The store: the send window and the progress marker. */
  datatype Store = Store(window: seq<Send>, progress: Option<string>)

  /**
   A run that may make only `writes` more writes to the store before the worker dies. Each message takes
   two, one to send it and one to move the marker; clearing the marker is the last.
   */
  function AfterRun(s: Store, sends: seq<Send>, writes: nat): Store {
    var todo := Remaining(sends, s.progress);
    if writes > 2 * |todo| then Store(s.window + todo, None)
    else
      Store(s.window + todo[..(writes + 1) / 2],
            if writes / 2 > 0 then Some(todo[writes / 2 - 1].key) else s.progress)
  }

  predicate Completes(s: Store, sends: seq<Send>, writes: nat) {
    writes > 2 * |Remaining(sends, s.progress)|
  }

  class BulkSender {
    var window: seq<Send>
    var progress: Option<string>

    function View(): Store
      reads this
    {
      Store(window, progress)
    }

    constructor ()
      ensures View() == Store([], None)
    {
      window := [];
      progress := None;
    }

    /** The message and then the marker, unless the worker dies before either. */
    method SendTo(contactKey: string, toAddr: Option<string>, left: nat) returns (died: bool, left': nat)
      modifies this
      ensures died <==> left < 2
      ensures left == 0 ==> View() == old(View())
      ensures left == 1 ==> View() == old(View()).(window := old(window) + [Send(contactKey, toAddr)])
      ensures left >= 2 ==> left' == left - 2 && View() == Store(old(window) + [Send(contactKey, toAddr)], Some(contactKey))
    {
      if left == 0 {
        return true, 0;
      }
      window := window + [Send(contactKey, toAddr)];
      if left == 1 {
        return true, 0;
      }
      progress := Some(contactKey);
      return false, left - 2;
    }

    /** The loop of the command, dying where its `writes`-th write to the store would be followed by another. */
    method Run(keys: seq<string>, addr: string -> Option<string>, dedupe: bool, writes: nat) returns (completed: bool)
      modifies this
      ensures View() == AfterRun(old(View()), Sends(keys, addr, dedupe), writes)
      ensures completed <==> Completes(old(View()), Sends(keys, addr, dedupe), writes)
    {
      var addressesSeen: set<Option<string>> := {};
      var interruptedProgress := progress;
      var left: nat := writes;
      ghost var before := View();
      assert keys[..0] == [];
      for i := 0 to |keys|
        invariant addressesSeen == if dedupe then Seen(keys[..i], addr) else {}
        invariant GotTo(before, keys, addr, dedupe, i, left, writes, View())
      {
        var contactKey := keys[i];
        var toAddr := addr(contactKey);
        SeenGrows(keys, i, addr);
        if dedupe {
          if toAddr in addressesSeen {
            PassedOver(before, keys, addr, dedupe, i, left, writes, View());
            continue;
          }
          addressesSeen := addressesSeen + {toAddr};
        }
        if interruptedProgress.Some? && interruptedProgress.value != "" && Le(contactKey, interruptedProgress.value) {
          PassedOver(before, keys, addr, dedupe, i, left, writes, View());
          continue;
        }
        SentTo(before, keys, addr, dedupe, i, left, writes, View());
        var died;
        died, left := SendTo(contactKey, toAddr, left);
        if died {
          return false;
        }
      }
      Finished(before, keys, addr, dedupe, left, writes, View());
      if left == 0 {
        return false;
      }
      progress := None;
      return true;
    }
  }

  /** Where a run is that has put `sofar` into the window and moved the marker past the first `marked` of it. */
  predicate Reached(before: Store, sofar: seq<Send>, marked: nat, now: Store) {
    && marked <= |sofar| <= marked + 1
    && now.window == before.window + sofar
    && now.progress == if marked > 0 then Some(sofar[marked - 1].key) else before.progress
  }

  lemma ReachedSend(before: Store, sofar: seq<Send>, now: Store, x: Send)
    requires Reached(before, sofar, |sofar|, now)
    ensures Reached(before, sofar + [x], |sofar|, now.(window := now.window + [x]))
    ensures Reached(before, sofar + [x], |sofar| + 1, Store(now.window + [x], Some(x.key)))
  {
    assert before.window + sofar + [x] == before.window + (sofar + [x]);
  }

  lemma {:induction false} CrashedAt(before: Store, sends: seq<Send>, sofar: seq<Send>, marked: nat, writes: nat, now: Store)
    requires sofar <= Remaining(sends, before.progress) && Reached(before, sofar, marked, now)
    requires writes == |sofar| + marked
    ensures Died(before, sends, writes, now)
  {
    var todo := Remaining(sends, before.progress);
    assert todo[..|sofar|] == sofar;
  }

  lemma {:induction false} CompletedAt(before: Store, sends: seq<Send>, writes: nat)
    requires writes > 2 * |Remaining(sends, before.progress)|
    ensures Completes(before, sends, writes)
    ensures AfterRun(before, sends, writes) == Store(before.window + Remaining(sends, before.progress), None)
  {
  }

  /** A run that is done with the first `i` contacts and can make `left` more writes. */
  predicate GotTo(before: Store, keys: seq<string>, addr: string -> Option<string>, dedupe: bool,
                  i: nat, left: nat, writes: nat, now: Store)
    requires i <= |keys|
  {
    var sofar := Remaining(Sends(keys[..i], addr, dedupe), before.progress);
    Reached(before, sofar, |sofar|, now) && writes == left + 2 * |sofar|
  }

  lemma {:induction false} PassedOver(before: Store, keys: seq<string>, addr: string -> Option<string>, dedupe: bool,
                                      i: nat, left: nat, writes: nat, now: Store)
    requires i < |keys| && GotTo(before, keys, addr, dedupe, i, left, writes, now)
    requires Repeated(addr, dedupe, Seen(keys[..i], addr), keys[i]) || Skipped(before.progress, keys[i])
    ensures GotTo(before, keys, addr, dedupe, i + 1, left, writes, now)
  {
    NextContact(keys, i, addr, dedupe, before.progress);
  }

  /** The next contact to send to, where the run dies before either of the two writes, or gets past both. */
  lemma {:induction false} SentTo(before: Store, keys: seq<string>, addr: string -> Option<string>, dedupe: bool,
                                  i: nat, left: nat, writes: nat, now: Store)
    requires i < |keys| && GotTo(before, keys, addr, dedupe, i, left, writes, now)
    requires !Repeated(addr, dedupe, Seen(keys[..i], addr), keys[i]) && !Skipped(before.progress, keys[i])
    ensures var sends := Sends(keys, addr, dedupe);
            var sent := now.window + [Send(keys[i], addr(keys[i]))];
            && (left == 0 ==> Died(before, sends, writes, now))
            && (left == 1 ==> Died(before, sends, writes, now.(window := sent)))
            && (left >= 2 ==> GotTo(before, keys, addr, dedupe, i + 1, left - 2, writes, Store(sent, Some(keys[i]))))
  {
    var (sends, x) := (Sends(keys, addr, dedupe), Send(keys[i], addr(keys[i])));
    var sofar := Remaining(Sends(keys[..i], addr, dedupe), before.progress);
    NextContact(keys, i, addr, dedupe, before.progress);
    ReachedSend(before, sofar, now, x);
    if left == 0 {
      CrashedAt(before, sends, sofar, |sofar|, writes, now);
    } else if left == 1 {
      CrashedAt(before, sends, sofar + [x], |sofar|, writes, now.(window := now.window + [x]));
    }
  }

  predicate Died(before: Store, sends: seq<Send>, writes: nat, now: Store) {
    !Completes(before, sends, writes) && AfterRun(before, sends, writes) == now
  }

  lemma {:induction false} Finished(before: Store, keys: seq<string>, addr: string -> Option<string>, dedupe: bool,
                                    left: nat, writes: nat, now: Store)
    requires GotTo(before, keys, addr, dedupe, |keys|, left, writes, now)
    ensures var sends := Sends(keys, addr, dedupe);
            if left == 0 then Died(before, sends, writes, now)
            else Completes(before, sends, writes) && AfterRun(before, sends, writes) == Store(now.window, None)
  {
    var sends := Sends(keys, addr, dedupe);
    assert keys[..|keys|] == keys;
    if left == 0 {
      var sofar := Remaining(sends, before.progress);
      CrashedAt(before, sends, sofar, |sofar|, writes, now);
    } else {
      CompletedAt(before, sends, writes);
    }
  }

  lemma SeenGrows(keys: seq<string>, i: nat, addr: string -> Option<string>)
    requires i < |keys|
    ensures Seen(keys[..i + 1], addr) == Seen(keys[..i], addr) + {addr(keys[i])}
  {
    assert keys[..i + 1] == keys[..i] + [keys[i]];
  }

  /** One turn of the loop: the contact is passed over, or is the next one to send to. */
  lemma {:induction false} NextContact(keys: seq<string>, i: nat, addr: string -> Option<string>, dedupe: bool, progress: Option<string>)
    requires i < |keys|
    ensures var before := Remaining(Sends(keys[..i], addr, dedupe), progress);
            var after := Remaining(Sends(keys[..i + 1], addr, dedupe), progress);
            && after == (if Repeated(addr, dedupe, Seen(keys[..i], addr), keys[i]) || Skipped(progress, keys[i])
                         then before else before + [Send(keys[i], addr(keys[i]))])
            && before <= Remaining(Sends(keys, addr, dedupe), progress)
            && after <= Remaining(Sends(keys, addr, dedupe), progress)
  {
    var next := keys[..i + 1];
    assert next[..i] == keys[..i];
    if !Repeated(addr, dedupe, Seen(keys[..i], addr), keys[i]) {
      SendsExtend(next, addr, dedupe, progress);
    }
    RemainingGrows(keys, i, addr, dedupe, progress);
    RemainingGrows(keys, i + 1, addr, dedupe, progress);
  }

  lemma {:induction false} SendsExtend(keys: seq<string>, addr: string -> Option<string>, dedupe: bool, progress: Option<string>)
    requires keys != []
    requires !Repeated(addr, dedupe, Seen(keys[..|keys| - 1], addr), keys[|keys| - 1])
    ensures var last := |keys| - 1;
            var before := Remaining(Sends(keys[..last], addr, dedupe), progress);
            Remaining(Sends(keys, addr, dedupe), progress) ==
            if Skipped(progress, keys[last]) then before else before + [Send(keys[last], addr(keys[last]))]
  {
    var before := Sends(keys[..|keys| - 1], addr, dedupe);
    var all := Sends(keys, addr, dedupe);
    assert all[..|before|] == before;
  }

  /** What remains of a prefix of the contacts is a prefix of what remains of them all. */
  lemma {:induction false} RemainingGrows(keys: seq<string>, i: nat, addr: string -> Option<string>, dedupe: bool, progress: Option<string>)
    requires i <= |keys|
    ensures Remaining(Sends(keys[..i], addr, dedupe), progress) <= Remaining(Sends(keys, addr, dedupe), progress)
  {
    if i == |keys| {
      assert keys[..i] == keys;
    } else {
      var last := |keys| - 1;
      RemainingGrows(keys[..last], i, addr, dedupe, progress);
      assert keys[..last][..i] == keys[..i];
      if !Repeated(addr, dedupe, Seen(keys[..last], addr), keys[last]) {
        SendsExtend(keys, addr, dedupe, progress);
      }
    }
  }

  // ---------- Who is sent to ----------

  /** The contact's message; if addresses are to be sent to only once, it is the first contact with its address. */
  predicate SendsTo(keys: seq<string>, addr: string -> Option<string>, dedupe: bool, i: nat, x: Send)
    requires i < |keys|
  {
    x == Send(keys[i], addr(keys[i])) && (dedupe ==> forall j :: 0 <= j < i ==> addr(keys[j]) != addr(keys[i]))
  }

  /** The messages sent are exactly the contacts', or their first ones to each address. */
  lemma {:induction false} SentExactly(keys: seq<string>, addr: string -> Option<string>, dedupe: bool, x: Send)
    ensures x in Sends(keys, addr, dedupe) <==> exists i :: 0 <= i < |keys| && SendsTo(keys, addr, dedupe, i, x)
  {
    if keys == [] {
    } else {
      var last := |keys| - 1;
      SentExactly(keys[..last], addr, dedupe, x);
      forall i | 0 <= i < last ensures SendsTo(keys, addr, dedupe, i, x) <==> SendsTo(keys[..last], addr, dedupe, i, x) {
        assert keys[..last][i] == keys[i];
      }
      SeenBefore(keys, addr);
      if x in Sends(keys[..last], addr, dedupe) {
        var i :| 0 <= i < last && SendsTo(keys[..last], addr, dedupe, i, x);
        assert SendsTo(keys, addr, dedupe, i, x);
      }
      if x == Send(keys[last], addr(keys[last])) && x in Sends(keys, addr, dedupe) && x !in Sends(keys[..last], addr, dedupe) {
        assert SendsTo(keys, addr, dedupe, last, x);
      }
    }
  }

  lemma SeenBefore(keys: seq<string>, addr: string -> Option<string>)
    requires keys != []
    ensures var last := |keys| - 1;
            addr(keys[last]) in Seen(keys[..last], addr) <==> exists j :: 0 <= j < last && addr(keys[j]) == addr(keys[last])
  {
    var last := |keys| - 1;
    forall j | 0 <= j < last ensures addr(keys[j]) in Seen(keys[..last], addr) {
      assert keys[..last][j] == keys[j];
      assert keys[j] in keys[..last];
    }
  }

  /** With deduplication no two messages go to one address. */
  lemma {:induction false} NoAddressTwice(keys: seq<string>, addr: string -> Option<string>, i: nat, j: nat)
    requires SortedKeys(keys) && i < j < |Sends(keys, addr, true)|
    ensures Sends(keys, addr, true)[i].addr != Sends(keys, addr, true)[j].addr
  {
    var (x, y) := (Sends(keys, addr, true)[i], Sends(keys, addr, true)[j]);
    SendsAreOrdered(keys, addr, true);
    SentExactly(keys, addr, true, x);
    SentExactly(keys, addr, true, y);
    var m :| 0 <= m < |keys| && SendsTo(keys, addr, true, m, x);
    var n :| 0 <= n < |keys| && SendsTo(keys, addr, true, n, y);
    assert m != n;
  }

  lemma {:induction false} FirstWith(keys: seq<string>, addr: string -> Option<string>, n: nat) returns (i: nat)
    requires n < |keys|
    ensures i <= n && addr(keys[i]) == addr(keys[n]) && forall j :: 0 <= j < i ==> addr(keys[j]) != addr(keys[i])
  {
    i := n;
    if j :| 0 <= j < n && addr(keys[j]) == addr(keys[n]) {
      i := FirstWith(keys, addr, j);
    }
  }

  /** And every contact's address is sent to, for the contact or for one with a smaller key. */
  lemma {:induction false} EachAddressReached(keys: seq<string>, addr: string -> Option<string>, n: nat)
    requires SortedKeys(keys) && n < |keys|
    ensures exists x :: x in Sends(keys, addr, true) && x.addr == addr(keys[n]) && Le(x.key, keys[n])
  {
    var i := FirstWith(keys, addr, n);
    var x := Send(keys[i], addr(keys[i]));
    SentExactly(keys, addr, true, x);
    assert SendsTo(keys, addr, true, i, x);
    LeIsReflexive(keys[n]);
    assert i < n ==> Lt(keys[i], keys[n]);
  }

  /** Without deduplication there is exactly one message for each contact, to its own address. */
  lemma {:induction false} EachContactOnce(keys: seq<string>, addr: string -> Option<string>)
    ensures |Sends(keys, addr, false)| == |keys|
    ensures forall i :: 0 <= i < |keys| ==> Sends(keys, addr, false)[i] == Send(keys[i], addr(keys[i]))
  {
    if keys == [] {
    } else {
      EachContactOnce(keys[..|keys| - 1], addr);
    }
  }

  // ---------- Interrupted and resumed ----------

  /** The runs that were interrupted, one after the other. */
  function AfterRuns(s: Store, sends: seq<Send>, crashes: seq<nat>): Store {
    if crashes == [] then s
    else AfterRun(AfterRuns(s, sends, crashes[..|crashes| - 1]), sends, crashes[|crashes| - 1])
  }

  /** None of the runs got as far as clearing the marker. */
  predicate AllCrash(s: Store, sends: seq<Send>, crashes: seq<nat>) {
    crashes != [] ==>
      var last := |crashes| - 1;
      AllCrash(s, sends, crashes[..last]) && !Completes(AfterRuns(s, sends, crashes[..last]), sends, crashes[last])
  }

  /** The log with immediate repetitions left out. */
  function Collapsed(log: seq<Send>): (r: seq<Send>)
    ensures |r| <= |log|
    ensures log != [] ==> r != [] && r[|r| - 1] == log[|log| - 1]
  {
    if |log| < 2 then log
    else
      var last := |log| - 1;
      var before := Collapsed(log[..last]);
      if log[last] == log[last - 1] then before else before + [log[last]]
  }

  lemma {:induction false} CollapsedAdd(log: seq<Send>, x: Send)
    ensures Collapsed(log + [x]) ==
            if log != [] && log[|log| - 1] == x then Collapsed(log) else Collapsed(log) + [x]
  {
    assert (log + [x])[..|log|] == log;
  }

  ghost predicate Distinct(sends: seq<Send>) {
    forall i, j :: 0 <= i < j < |sends| ==> sends[i] != sends[j]
  }

  lemma OrderedIsDistinct(sends: seq<Send>)
    requires Ordered(sends)
    ensures Distinct(sends)
  {
    forall i, j | 0 <= i < j < |sends| ensures sends[i] != sends[j] {
      assert Lt(sends[i].key, sends[j].key);
    }
  }

  /** No contact has the empty string for its key. */
  predicate Keyed(sends: seq<Send>) {
    forall i :: 0 <= i < |sends| ==> sends[i].key != ""
  }

  /** The messages are in key order, so no contact is sent two. */
  ghost predicate Ordered(sends: seq<Send>) {
    forall i, j :: 0 <= i < j < |sends| ==> Lt(sends[i].key, sends[j].key)
  }

  lemma {:induction false} SendsAreOrdered(keys: seq<string>, addr: string -> Option<string>, dedupe: bool)
    requires SortedKeys(keys)
    ensures Ordered(Sends(keys, addr, dedupe))
    ensures forall s :: s in Sends(keys, addr, dedupe) ==> s.key in keys
  {
    if keys == [] {
    } else {
      SendsAreOrdered(keys[..|keys| - 1], addr, dedupe);
    }
  }

  lemma {:induction false} RemainingNext(sends: seq<Send>, n: nat, progress: Option<string>)
    requires 0 < n <= |sends|
    ensures Remaining(sends[..n], progress) ==
            Remaining(sends[..n - 1], progress) + if Skipped(progress, sends[n - 1].key) then [] else [sends[n - 1]]
  {
    assert sends[..n][..n - 1] == sends[..n - 1];
  }

  lemma NextSlice(sends: seq<Send>, j: nat, n: nat)
    requires j < n <= |sends|
    ensures sends[j..n] == sends[j..n - 1] + [sends[n - 1]]
  {
  }

  lemma {:induction false} SkippedToMarker(sends: seq<Send>, j: nat, i: nat)
    requires Ordered(sends) && 0 < j <= |sends| && i < |sends|
    requires sends[j - 1].key != ""
    ensures Skipped(Some(sends[j - 1].key), sends[i].key) <==> i < j
  {
    if i < j - 1 {
      assert Lt(sends[i].key, sends[j - 1].key);
    } else if i == j - 1 {
      LeIsReflexive(sends[i].key);
    } else {
      assert Lt(sends[j - 1].key, sends[i].key);
      if Le(sends[i].key, sends[j - 1].key) {
        LeIsAntisymmetric(sends[i].key, sends[j - 1].key);
      }
    }
  }

  /** The marker covers exactly the first `j` messages. */
  predicate Covers(sends: seq<Send>, progress: Option<string>, j: nat) {
    forall i :: 0 <= i < |sends| ==> (Skipped(progress, sends[i].key) <==> i < j)
  }

  lemma {:induction false} NoneRemains(sends: seq<Send>, progress: Option<string>, j: nat, n: nat)
    requires n <= j <= |sends| && Covers(sends, progress, j)
    ensures Remaining(sends[..n], progress) == []
  {
    if n > 0 {
      NoneRemains(sends, progress, j, n - 1);
      RemainingNext(sends, n, progress);
    }
  }

  lemma {:induction false} RestRemains(sends: seq<Send>, progress: Option<string>, j: nat, n: nat)
    requires j <= n <= |sends| && Covers(sends, progress, j)
    ensures Remaining(sends[..n], progress) == sends[j..n]
  {
    if n == j {
      NoneRemains(sends, progress, j, n);
    } else {
      RestRemains(sends, progress, j, n - 1);
      RemainingNext(sends, n, progress);
      NextSlice(sends, j, n);
    }
  }

  /** With the marker at the `j`-th message, exactly the messages after it remain. */
  lemma RemainingAfter(sends: seq<Send>, j: nat)
    requires Ordered(sends) && 0 < j <= |sends|
    requires sends[j - 1].key != ""
    ensures Remaining(sends, Some(sends[j - 1].key)) == sends[j..]
  {
    forall i | 0 <= i < |sends| ensures Skipped(Some(sends[j - 1].key), sends[i].key) <==> i < j {
      SkippedToMarker(sends, j, i);
    }
    RestRemains(sends, Some(sends[j - 1].key), j, |sends|);
    assert sends[..|sends|] == sends && sends[j..|sends|] == sends[j..];
  }

  lemma {:induction false} RemainingOfAll(sends: seq<Send>, progress: Option<string>)
    requires progress.None? || progress.value == ""
    ensures Remaining(sends, progress) == sends
  {
    if sends == [] {
    } else {
      var last := |sends| - 1;
      RemainingOfAll(sends[..last], progress);
      LastApart(sends);
    }
  }

  /** The marker stands after `j` messages. */
  predicate Marks(sends: seq<Send>, progress: Option<string>, j: nat)
    requires j <= |sends|
  {
    if j == 0 then progress.None? else progress == Some(sends[j - 1].key)
  }

  lemma {:induction false} MarkedRemaining(sends: seq<Send>, progress: Option<string>, j: nat)
    requires Ordered(sends) && j <= |sends| && Marks(sends, progress, j)
    requires Keyed(sends)
    ensures Remaining(sends, progress) == sends[j..]
  {
    if j == 0 {
      RemainingOfAll(sends, progress);
    } else {
      RemainingAfter(sends, j);
      assert sends[..|sends|] == sends;
    }
  }

  lemma SliceFirst<T>(log: seq<T>, s: seq<T>, j: nat, end: nat)
    requires j < end <= |s|
    ensures log + s[j..end] == log + [s[j]] + s[j + 1..end]
    ensures s[j..end] == [s[j]] + s[j + 1..end]
    ensures s[..end] == s[..j + 1] + s[j + 1..end]
  {
  }

  lemma SliceLast<T>(log: seq<T>, s: seq<T>)
    requires s != []
    ensures log + s == log + s[..|s| - 1] + [s[|s| - 1]]
  {
  }

  lemma DistinctFront(x: Send, rest: seq<Send>)
    requires rest != [] && Distinct([x] + rest)
    ensures var last := |rest| - 1;
            Distinct([x] + rest[..last]) && rest[last] != if last == 0 then x else rest[last - 1]
  {
    var chain := [x] + rest;
    assert chain[|rest| - 1] != chain[|rest|];
    assert [x] + rest[..|rest| - 1] == chain[..|rest|];
  }

  lemma {:induction false} CollapsedFresh(log: seq<Send>, rest: seq<Send>)
    requires log != [] && Distinct([log[|log| - 1]] + rest)
    ensures Collapsed(log + rest) == Collapsed(log) + rest
  {
    if rest == [] {
      assert log + rest == log;
    } else {
      var last := |rest| - 1;
      DistinctFront(log[|log| - 1], rest);
      CollapsedFresh(log, rest[..last]);
      FreshLast(log, rest);
    }
  }

  lemma {:induction false} FreshLast(log: seq<Send>, rest: seq<Send>)
    requires log != [] && rest != []
    requires var last := |rest| - 1;
             && Collapsed(log + rest[..last]) == Collapsed(log) + rest[..last]
             && rest[last] != if last == 0 then log[|log| - 1] else rest[last - 1]
    ensures Collapsed(log + rest) == Collapsed(log) + rest
  {
    FreshNext(log, rest[..|rest| - 1], rest[|rest| - 1]);
    LastApart(rest);
  }

  lemma LastApart<T>(s: seq<T>)
    requires s != []
    ensures s[..|s| - 1] + [s[|s| - 1]] == s
  {
  }

  lemma {:induction false} FreshNext(log: seq<Send>, rest: seq<Send>, x: Send)
    requires log != [] && Collapsed(log + rest) == Collapsed(log) + rest
    requires x != if rest == [] then log[|log| - 1] else rest[|rest| - 1]
    ensures Collapsed(log + (rest + [x])) == Collapsed(log) + (rest + [x])
  {
    CollapsedAdd(log + rest, x);
    Regrouped(log, rest, [x]);
    Regrouped(Collapsed(log), rest, [x]);
  }

  lemma Regrouped<T>(a: seq<T>, b: seq<T>, c: seq<T>)
    ensures a + (b + c) == a + b + c
  {
  }

  /** Sending on from the `j`-th message when `s` messages have been sent, the last perhaps unmarked. */
  lemma {:induction false} CollapsedResend(window: seq<Send>, sends: seq<Send>, j: nat, s: nat, end: nat)
    requires Distinct(sends) && j <= s <= j + 1 && s <= |sends| && j < end <= |sends|
    requires Collapsed(window) == sends[..s]
    ensures Collapsed(window + sends[j..end]) == sends[..end]
  {
    ResendFirst(window, sends, j, s);
    SliceFirst(window, sends, j, end);
    CollapsedFresh(window + [sends[j]], sends[j + 1..end]);
  }

  lemma {:induction false} ResendFirst(window: seq<Send>, sends: seq<Send>, j: nat, s: nat)
    requires Distinct(sends) && j <= s <= j + 1 && s <= |sends| && j < |sends|
    requires Collapsed(window) == sends[..s]
    ensures Collapsed(window + [sends[j]]) == sends[..j + 1]
  {
    CollapsedAdd(window, sends[j]);
    if s == j && j > 0 {
      assert window[|window| - 1] == sends[j - 1];
    }
  }

  /** After some crashes: where the marker is, what has been sent, and how much of it twice. */
  ghost predicate Interrupted(st: Store, sends: seq<Send>, crashes: nat, j: nat, s: nat) {
    && j <= s <= j + 1 && s <= |sends|
    && Marks(sends, st.progress, j)
    && Collapsed(st.window) == sends[..s]
    && |st.window| + (s - j) <= s + crashes
  }

  /** A crashed run sends `c` more messages and moves the marker past all of them, or all but the last. */
  lemma {:induction false} CrashedRun(st: Store, sends: seq<Send>, j: nat, writes: nat) returns (c: nat, marked: nat)
    requires j <= |sends| && Remaining(sends, st.progress) == sends[j..] && !Completes(st, sends, writes)
    requires Marks(sends, st.progress, j)
    ensures marked <= c <= marked + 1 && j + c <= |sends|
    ensures AfterRun(st, sends, writes).window == st.window + sends[j..j + c]
    ensures Marks(sends, AfterRun(st, sends, writes).progress, j + marked)
  {
    c, marked := (writes + 1) / 2, writes / 2;
    assert sends[j..][..c] == sends[j..j + c];
    assert marked > 0 ==> sends[j..][marked - 1] == sends[j + marked - 1];
  }

  lemma {:induction false} CrashKeepsProgress(st: Store, st': Store, sends: seq<Send>, crashes: nat, j: nat, s: nat, c: nat, marked: nat)
    returns (s': nat)
    requires Distinct(sends) && Interrupted(st, sends, crashes, j, s)
    requires marked <= c <= marked + 1 && j + c <= |sends|
    requires st'.window == st.window + sends[j..j + c] && Marks(sends, st'.progress, j + marked)
    ensures Interrupted(st', sends, crashes + 1, j + marked, s')
  {
    s' := WindowGrows(st.window, sends, j, s, c);
  }

  lemma {:induction false} WindowGrows(window: seq<Send>, sends: seq<Send>, j: nat, s: nat, c: nat) returns (s': nat)
    requires Distinct(sends) && j <= s <= j + 1 && s <= |sends| && j + c <= |sends|
    requires Collapsed(window) == sends[..s]
    ensures s' == if c == 0 then s else j + c
    ensures Collapsed(window + sends[j..j + c]) == sends[..s']
  {
    if c == 0 {
      s' := s;
      NothingSent(window, sends, j);
    } else {
      s' := j + c;
      CollapsedResend(window, sends, j, s, s');
    }
  }

  lemma NothingSent(window: seq<Send>, sends: seq<Send>, j: nat)
    requires j <= |sends|
    ensures window + sends[j..j + 0] == window
  {
  }

  lemma {:induction false} CrashesKeepProgress(sends: seq<Send>, crashes: seq<nat>)
    returns (j: nat, s: nat)
    requires Ordered(sends) && Keyed(sends)
    requires AllCrash(Store([], None), sends, crashes)
    ensures Interrupted(AfterRuns(Store([], None), sends, crashes), sends, |crashes|, j, s)
  {
    if crashes == [] {
      j, s := 0, 0;
    } else {
      var last := |crashes| - 1;
      j, s := CrashesKeepProgress(sends, crashes[..last]);
      j, s := OneMoreCrash(AfterRuns(Store([], None), sends, crashes[..last]), sends, last, j, s, crashes[last]);
    }
  }

  lemma {:induction false} OneMoreCrash(st: Store, sends: seq<Send>, crashes: nat, j: nat, s: nat, writes: nat)
    returns (j': nat, s': nat)
    requires Ordered(sends) && Keyed(sends)
    requires Interrupted(st, sends, crashes, j, s) && !Completes(st, sends, writes)
    ensures Interrupted(AfterRun(st, sends, writes), sends, crashes + 1, j', s')
  {
    MarkedRemaining(sends, st.progress, j);
    OrderedIsDistinct(sends);
    var c, marked := CrashedRun(st, sends, j, writes);
    s' := CrashKeepsProgress(st, AfterRun(st, sends, writes), sends, crashes, j, s, c, marked);
    j' := j + marked;
  }

  /** Every message was sent, in order, at most one of them twice for each crash. */
  predicate AllSent(done: Store, sends: seq<Send>, crashes: nat) {
    && Collapsed(done.window) == sends
    && |done.window| <= |sends| + crashes
    && done.progress == None
  }

  lemma {:induction false} LastRunCompletes(st: Store, sends: seq<Send>, crashes: nat, j: nat, s: nat, writes: nat)
    requires Ordered(sends) && Keyed(sends)
    requires Interrupted(st, sends, crashes, j, s) && Completes(st, sends, writes)
    ensures AllSent(AfterRun(st, sends, writes), sends, crashes)
  {
    MarkedRemaining(sends, st.progress, j);
    OrderedIsDistinct(sends);
    RestIsSent(st.window, sends, j, s);
  }

  lemma {:induction false} RestIsSent(window: seq<Send>, sends: seq<Send>, j: nat, s: nat)
    requires Distinct(sends) && j <= s <= j + 1 && s <= |sends|
    requires Collapsed(window) == sends[..s]
    ensures Collapsed(window + sends[j..]) == sends
  {
    if j == |sends| {
      NothingSent(window, sends, j);
      assert sends[..s] == sends;
    } else {
      CollapsedResend(window, sends, j, s, |sends|);
      assert sends[j..|sends|] == sends[j..] && sends[..|sends|] == sends;
    }
  }

  /** These crashes can happen, and the run after them completes. */
  predicate Interrupts(sends: seq<Send>, crashes: seq<nat>, writes: nat) {
    AllCrash(Store([], None), sends, crashes) && Completes(AfterRuns(Store([], None), sends, crashes), sends, writes)
  }

  /** The crashes, and then one run. */
  function Resumed(sends: seq<Send>, crashes: seq<nat>, writes: nat): Store {
    AfterRun(AfterRuns(Store([], None), sends, crashes), sends, writes)
  }

  /** After any number of crashes, wherever they strike, one run that completes has sent everything. */
  ghost predicate Resumable(sends: seq<Send>) {
    forall crashes: seq<nat>, writes: nat ::
      Interrupts(sends, crashes, writes) ==> AllSent(Resumed(sends, crashes, writes), sends, |crashes|)
  }

  lemma KeyedSendIsCompleted(sends: seq<Send>, crashes: seq<nat>, writes: nat)
    requires Ordered(sends) && Keyed(sends)
    requires Interrupts(sends, crashes, writes)
    ensures AllSent(Resumed(sends, crashes, writes), sends, |crashes|)
  {
    var j, s := CrashesKeepProgress(sends, crashes);
    LastRunCompletes(AfterRuns(Store([], None), sends, crashes), sends, |crashes|, j, s, writes);
  }

  lemma KeyedSendIsResumable(sends: seq<Send>)
    requires Ordered(sends) && Keyed(sends)
    ensures Resumable(sends)
  {
    forall crashes: seq<nat>, writes: nat | Interrupts(sends, crashes, writes)
      ensures AllSent(Resumed(sends, crashes, writes), sends, |crashes|)
    {
      KeyedSendIsCompleted(sends, crashes, writes);
    }
  }

  // ---------- The empty contact key ----------

  // A marker holding the empty string reads as no marker at all, so after it the send starts over.

  lemma {:induction false} EmptyKeyIsFirst(keys: seq<string>, addr: string -> Option<string>, dedupe: bool, n: nat)
    requires SortedKeys(keys) && "" in keys && 0 < n <= |keys|
    ensures var sends := Sends(keys[..n], addr, dedupe); sends != [] && sends[0].key == ""
  {
    if n == 1 {
      assert forall i :: 0 <= i < |keys| ==> i == 0 || Lt(keys[0], keys[i]);
      assert keys[..1] == [keys[0]] && keys[..1][..0] == [];
    } else {
      EmptyKeyIsFirst(keys, addr, dedupe, n - 1);
      assert keys[..n][..n - 1] == keys[..n - 1];
    }
  }

  lemma {:induction false} CollapsedPrefix(a: seq<Send>, b: seq<Send>)
    ensures Collapsed(a) <= Collapsed(a + b)
  {
    if b == [] {
      assert a + b == a;
    } else {
      CollapsedPrefix(a, b[..|b| - 1]);
      SliceLast(a, b);
      CollapsedAdd(a + b[..|b| - 1], b[|b| - 1]);
    }
  }

  lemma {:induction false} SecondUnmarked(sends: seq<Send>)
    requires |sends| >= 2 && sends[0].key == ""
    ensures !Completes(Store([], None), sends, 3)
    ensures AfterRun(Store([], None), sends, 3) == Store([sends[0], sends[1]], Some(""))
  {
    RemainingOfAll(sends, None);
    assert [] + sends[..2] == [sends[0], sends[1]];
  }

  lemma {:induction false} RepeatsShow(sends: seq<Send>)
    requires Distinct(sends) && |sends| >= 2
    ensures Collapsed([sends[0], sends[1]] + sends) != sends
  {
    var (x, y) := (sends[0], sends[1]);
    var log := [x, y] + sends;
    assert log == [x, y, x] + sends[1..];
    CollapsedAdd([x], y);
    CollapsedAdd([x, y], x);
    assert [x] + [y] == [x, y] && [x, y] + [x] == [x, y, x];
    CollapsedPrefix([x, y, x], sends[1..]);
    assert Collapsed(log)[2] == x;
  }

  /** The first message and its marker, the second message and a crash: the resumed send repeats both. */
  lemma {:induction false} EmptyKeyRepeats(sends: seq<Send>)
    requires Ordered(sends) && |sends| >= 2 && sends[0].key == ""
    ensures Interrupts(sends, [3], 2 * |sends| + 1) && !AllSent(Resumed(sends, [3], 2 * |sends| + 1), sends, 1)
  {
    OneCrashRun(sends, 3);
    SecondUnmarked(sends);
    var st := Store([sends[0], sends[1]], Some(""));
    RemainingOfAll(sends, st.progress);
    CompletedAt(st, sends, 2 * |sends| + 1);
    OrderedIsDistinct(sends);
    RepeatsShow(sends);
  }

  lemma {:induction false} OneCrashRun(sends: seq<Send>, writes: nat)
    ensures AfterRuns(Store([], None), sends, [writes]) == AfterRun(Store([], None), sends, writes)
    ensures AllCrash(Store([], None), sends, [writes]) <==> !Completes(Store([], None), sends, writes)
  {
    var crashes: seq<nat> := [writes];
    assert crashes[..|crashes| - 1] == [];
  }

  lemma EmptyKeyStartsOver(sends: seq<Send>)
    requires Ordered(sends) && |sends| >= 2 && sends[0].key == ""
    ensures !Resumable(sends)
  {
    EmptyKeyRepeats(sends);
    var crashes: seq<nat> := [3];
    assert Interrupts(sends, crashes, 2 * |sends| + 1);
  }

  predicate OneRepeated(st: Store, x: Send, crashes: nat) {
    && (st.window == [] || Collapsed(st.window) == [x])
    && |st.window| <= crashes
    && (st.progress == None || st.progress == Some(""))
  }

  lemma CrashedOnce(st: Store, x: Send, writes: nat)
    requires Remaining([x], st.progress) == [x] && writes <= 2
    ensures AfterRun(st, [x], writes) ==
            if writes == 0 then st else Store(st.window + [x], if writes == 2 then Some(x.key) else st.progress)
  {
    assert [x][..1] == [x] && st.window + [x][..0] == st.window;
  }

  lemma {:induction false} OneCrash(st: Store, x: Send, crashes: nat, writes: nat)
    requires x.key == "" && OneRepeated(st, x, crashes) && !Completes(st, [x], writes)
    ensures OneRepeated(AfterRun(st, [x], writes), x, crashes + 1)
  {
    RemainingOfAll([x], st.progress);
    CrashedOnce(st, x, writes);
    CollapsedAdd(st.window, x);
  }

  lemma {:induction false} OneSendRepeats(x: Send, crashes: seq<nat>)
    requires x.key == "" && AllCrash(Store([], None), [x], crashes)
    ensures OneRepeated(AfterRuns(Store([], None), [x], crashes), x, |crashes|)
  {
    if crashes == [] {
    } else {
      var last := |crashes| - 1;
      OneSendRepeats(x, crashes[..last]);
      OneCrash(AfterRuns(Store([], None), [x], crashes[..last]), x, last, crashes[last]);
    }
  }

  lemma {:induction false} OneSendIsCompleted(x: Send, crashes: seq<nat>, writes: nat)
    requires x.key == "" && Interrupts([x], crashes, writes)
    ensures AllSent(Resumed([x], crashes, writes), [x], |crashes|)
  {
    OneSendRepeats(x, crashes);
    OneSendCompletes(AfterRuns(Store([], None), [x], crashes), x, |crashes|, writes);
  }

  lemma {:induction false} OneSendCompletes(st: Store, x: Send, crashes: nat, writes: nat)
    requires x.key == "" && OneRepeated(st, x, crashes) && Completes(st, [x], writes)
    ensures AllSent(AfterRun(st, [x], writes), [x], crashes)
  {
    RemainingOfAll([x], st.progress);
    CompletedAt(st, [x], writes);
    CollapsedAdd(st.window, x);
  }

  lemma OneSendIsResumable(x: Send)
    requires x.key == ""
    ensures Resumable([x])
  {
    forall crashes: seq<nat>, writes: nat | Interrupts([x], crashes, writes)
      ensures AllSent(Resumed([x], crashes, writes), [x], |crashes|)
    {
      OneSendIsCompleted(x, crashes, writes);
    }
  }

  /**
   A bulk send can be interrupted anywhere any number of times: whoever takes it up again sends every
   message the uninterrupted send would have, in the same order, repeating at most one for each crash.
   This holds exactly when no contact has the empty string for its key, or there is only one message to send.
   */
  lemma ResumedSendIsComplete(keys: seq<string>, addr: string -> Option<string>, dedupe: bool)
    requires SortedKeys(keys)
    ensures Resumable(Sends(keys, addr, dedupe)) <==> "" !in keys || |Sends(keys, addr, dedupe)| == 1
  {
    var sends := Sends(keys, addr, dedupe);
    SendsAreOrdered(keys, addr, dedupe);
    if "" !in keys {
      KeyedSendIsResumable(sends);
    } else {
      EmptyKeyIsFirst(keys, addr, dedupe, |keys|);
      assert keys[..|keys|] == keys;
      if |sends| == 1 {
        assert sends == [sends[0]];
        OneSendIsResumable(sends[0]);
      } else {
        EmptyKeyStartsOver(sends);
      }
    }
  }
}
