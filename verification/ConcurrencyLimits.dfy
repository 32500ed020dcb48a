/**
 Limiting how many operations are active at a time for each key (ConcurrencyLimiter and
 ConcurrencyLimitManager). Starting an operation hands out a ticket, which fires at once or
 when an earlier operation stops.
 */
module ConcurrencyLimits {
  import opened Wrappers

  /** Stands for the deferred that `start` returns. */
  type Ticket = nat

  /** A limiter's state: how many operations are active, and who is waiting, first come first. */
  datatype State = State(active: nat, waiting: seq<Ticket>)

  const IDLE := State(0, [])

  /** Let the first waiter go ahead if there is room; returns the tickets that fire. */
  function Checked(limit: int, s: State): (State, seq<Ticket>) {
    if s.active >= limit || s.waiting == [] then (s, [])
    else (State(s.active + 1, s.waiting[1..]), [s.waiting[0]])
  }

  function Started(limit: int, s: State, t: Ticket): (State, seq<Ticket>) {
    if limit < 0 then (s, [t])
    else if limit == 0 then (s, [])
    else Checked(limit, s.(waiting := s.waiting + [t]))
  }

  /** None when there is no active operation to stop. */
  function Stopped(limit: int, s: State): Option<(State, seq<Ticket>)> {
    if limit <= 0 then Some((s, []))
    else if s.active == 0 then None
    else Some(Checked(limit, s.(active := s.active - 1)))
  }

  class ConcurrencyLimiter {
    const limit: int
    var concurrents: nat
    var waiters: seq<Ticket>

    function View(): State
      reads this
    {
      State(concurrents, waiters)
    }

    constructor (limit: int)
      ensures this.limit == limit && View() == IDLE
    {
      this.limit := limit;
      concurrents, waiters := 0, [];
    }

    method CheckConcurrent() returns (fired: seq<Ticket>)
      modifies this
      ensures (View(), fired) == Checked(limit, old(View()))
    {
      if concurrents >= limit {
        return [];
      }
      if waiters == [] {
        return [];
      }
      fired := [waiters[0]];
      waiters := waiters[1..];
      concurrents := concurrents + 1;
    }

    method Empty() returns (empty: bool)
      ensures empty <==> View() == IDLE
    {
      empty := concurrents == 0 && waiters == [];
    }

    method Start(t: Ticket) returns (fired: seq<Ticket>)
      modifies this
      ensures (View(), fired) == Started(limit, old(View()), t)
    {
      if limit < 0 {
        return [t];
      } else if limit == 0 {
        return [];
      }
      waiters := waiters + [t];
      fired := CheckConcurrent();
    }

    method Stop() returns (r: Option<seq<Ticket>>)
      modifies this
      ensures match Stopped(limit, old(View()))
              case None => r == None && View() == old(View())
              case Some((s, fired)) => r == Some(fired) && View() == s
    {
      if limit <= 0 {
        return Some([]);
      }
      if concurrents <= 0 {
        return None;
      }
      concurrents := concurrents - 1;
      var fired := CheckConcurrent();
      return Some(fired);
    }
  }

  class ConcurrencyLimitManager<Key(==,!new)> {
    const limit: int
    var limiters: map<Key, ConcurrencyLimiter>

    ghost predicate Valid()
      reads this, limiters.Values
    {
      && (forall k :: k in limiters ==> limiters[k].limit == limit)
      && (forall j, k :: j in limiters && k in limiters && j != k ==> limiters[j] != limiters[k])
    }

    /** A key without a limiter counts as one with an idle limiter. */
    ghost function View(k: Key): State
      reads this, limiters.Values
    {
      if k in limiters then limiters[k].View() else IDLE
    }

    /** No limiter is kept for a key with nothing active and nobody waiting. */
    ghost predicate Tidy()
      reads this, limiters.Values
    {
      forall k :: k in limiters ==> limiters[k].View() != IDLE
    }

    constructor (limit: int)
      ensures this.limit == limit && Valid() && Tidy() && limiters == map[]
    {
      this.limit := limit;
      limiters := map[];
    }

    method GetLimiter(key: Key) returns (l: ConcurrencyLimiter)
      requires Valid()
      modifies this
      ensures Valid()
      ensures key in limiters && limiters[key] == l
      ensures if key in old(limiters) then limiters == old(limiters) else fresh(l) && limiters == old(limiters)[key := l]
      ensures View(key) == old(View(key))
    {
      if key !in limiters {
        l := new ConcurrencyLimiter(limit);
        limiters := limiters[key := l];
      }
      l := limiters[key];
    }

    method CleanupLimiter(key: Key)
      requires Valid()
      modifies this
      ensures Valid()
      ensures limiters == if key in old(limiters) && old(View(key)) == IDLE then old(limiters) - {key} else old(limiters)
    {
      if key in limiters {
        var empty := limiters[key].Empty();
        if empty {
          limiters := limiters - {key};
        }
      }
    }

    method Start(key: Key, t: Ticket) returns (fired: seq<Ticket>)
      requires Valid()
      modifies this, limiters.Values
      ensures Valid() && fresh(limiters.Values - old(limiters.Values))
      ensures (View(key), fired) == Started(limit, old(View(key)), t)
      ensures forall k :: k != key ==> View(k) == old(View(k))
      ensures old(Tidy()) ==> Tidy()
    {
      var l := GetLimiter(key);
      fired := l.Start(t);
      assert limiters[key] == l;
      CleanupLimiter(key);
    }

    method Stop(key: Key) returns (r: Option<seq<Ticket>>)
      requires Valid()
      modifies this, limiters.Values
      ensures Valid() && fresh(limiters.Values - old(limiters.Values))
      ensures match Stopped(limit, old(View(key)))
              case None => r == None && View(key) == old(View(key))
              case Some((s, fired)) => r == Some(fired) && View(key) == s
      ensures forall k :: k != key ==> View(k) == old(View(k))
      ensures old(Tidy()) && r.Some? ==> Tidy()
    {
      var l := GetLimiter(key);
      r := l.Stop();
      if r.None? {
        return;
      }
      assert limiters[key] == l;
      CleanupLimiter(key);
    }
  }

  // ---------- Whole runs ----------

  datatype Event<Key> = Start(key: Key, ticket: Ticket) | Stop(key: Key)

  /** The state of a key after some events, as if its limiter were permanent, and the tickets fired by then. */
  function After<Key(==)>(limit: int, events: seq<Event<Key>>, k: Key): (State, seq<Ticket>) {
    if events == [] then (IDLE, [])
    else
      var e := events[|events| - 1];
      var (s, fired) := After(limit, events[..|events| - 1], k);
      if e.key != k then (s, fired)
      else match e
        case Start(_, t) => (Started(limit, s, t).0, fired + Started(limit, s, t).1)
        case Stop(_) =>
          (match Stopped(limit, s)
           case None => (s, fired)
           case Some((s', more)) => (s', fired + more))
  }

  /** Only operations that are active are stopped. */
  predicate Legal<Key(==)>(limit: int, events: seq<Event<Key>>) {
    events == [] ||
    var last := |events| - 1;
    && Legal(limit, events[..last])
    && (events[last].Stop? ==> Stopped(limit, After(limit, events[..last], events[last].key).0).Some?)
  }

  function StartsOf<Key(==)>(events: seq<Event<Key>>, k: Key): seq<Ticket> {
    if events == [] then []
    else
      var e := events[|events| - 1];
      StartsOf(events[..|events| - 1], k) + if e.Start? && e.key == k then [e.ticket] else []
  }

  function StopsOf<Key(==)>(events: seq<Event<Key>>, k: Key): nat {
    if events == [] then 0
    else
      var e := events[|events| - 1];
      StopsOf(events[..|events| - 1], k) + if e.Stop? && e.key == k then 1 else 0
  }

  function Min(a: int, b: int): int {
    if a < b then a else b
  }

  /**
   The tickets fired are the first min(starts, stops + limit) handed out, in the order they were
   handed out; never more than `limit` operations are active; and nobody waits while there is room.
   */
  ghost predicate Kept(limit: int, s: State, fired: seq<Ticket>, starts: seq<Ticket>, stops: nat) {
    && |fired| == Min(|starts|, stops + limit)
    && fired + s.waiting == starts
    && s.active == |fired| - stops <= limit
    && (s.waiting != [] ==> s.active == limit)
  }

  lemma StartIsKept(limit: int, s: State, fired: seq<Ticket>, starts: seq<Ticket>, stops: nat, t: Ticket)
    requires limit > 0 && Kept(limit, s, fired, starts, stops)
    ensures Kept(limit, Started(limit, s, t).0, fired + Started(limit, s, t).1, starts + [t], stops)
  {
    assert fired + (s.waiting + [t]) == fired + s.waiting + [t];
    assert [t][1..] == [];
  }

  lemma StopIsKept(limit: int, s: State, fired: seq<Ticket>, starts: seq<Ticket>, stops: nat)
    requires limit > 0 && Kept(limit, s, fired, starts, stops) && Stopped(limit, s).Some?
    ensures Kept(limit, Stopped(limit, s).value.0, fired + Stopped(limit, s).value.1, starts, stops + 1)
  {
    if s.waiting != [] {
      assert fired + [s.waiting[0]] + s.waiting[1..] == fired + s.waiting;
    }
  }

  /** The limit is kept over any legal run. */
  lemma {:induction false} LimitIsKept<Key>(limit: int, events: seq<Event<Key>>, k: Key)
    requires limit > 0 && Legal(limit, events)
    ensures var (s, fired) := After(limit, events, k);
            Kept(limit, s, fired, StartsOf(events, k), StopsOf(events, k))
  {
    if events == [] {
    } else {
      var before := events[..|events| - 1];
      LimitIsKept(limit, before, k);
      var e := events[|events| - 1];
      var (s, fired) := After(limit, before, k);
      if e.key == k {
        match e {
          case Start(_, t) => StartIsKept(limit, s, fired, StartsOf(before, k), StopsOf(before, k), t);
          case Stop(_) => StopIsKept(limit, s, fired, StartsOf(before, k), StopsOf(before, k));
        }
      }
      assert StartsOf(before, k) + [] == StartsOf(before, k);
    }
  }

  /** Without a limit every operation starts at once; with a limit of zero none ever does. */
  lemma {:induction false} SpecialLimits<Key>(limit: int, events: seq<Event<Key>>, k: Key)
    requires limit <= 0
    ensures Legal(limit, events)
    ensures After(limit, events, k) == (IDLE, if limit < 0 then StartsOf(events, k) else [])
  {
    if events == [] {
    } else {
      SpecialLimits(limit, events[..|events| - 1], k);
      var starts, fired := StartsOf(events[..|events| - 1], k), After(limit, events[..|events| - 1], k).1;
      assert starts + [] == starts && fired + [] == fired;
    }
  }

  function FiredFor<Key(==)>(log: seq<(Key, Ticket)>, k: Key): seq<Ticket> {
    if log == [] then []
    else FiredFor(log[..|log| - 1], k) + if log[|log| - 1].0 == k then [log[|log| - 1].1] else []
  }

  lemma {:induction false} FiredForAppend<Key>(log: seq<(Key, Ticket)>, key: Key, fired: seq<Ticket>, k: Key)
    requires |fired| <= 1
    ensures FiredFor(log + Tagged(key, fired), k) == if key == k then FiredFor(log, k) + fired else FiredFor(log, k)
  {
    if fired == [] {
      assert log + Tagged(key, fired) == log;
    } else {
      assert (log + Tagged(key, fired))[..|log|] == log;
    }
  }

  function Tagged<Key>(key: Key, fired: seq<Ticket>): (r: seq<(Key, Ticket)>)
    requires |fired| <= 1
  {
    if fired == [] then [] else [(key, fired[0])]
  }

  /** The manager, which deletes idle limiters, runs like one that keeps a limiter for every key for ever. */
  method RunAll<Key(==,!new)>(manager: ConcurrencyLimitManager<Key>, events: seq<Event<Key>>) returns (log: seq<(Key, Ticket)>)
    requires manager.Valid() && manager.Tidy() && manager.limiters == map[]
    requires Legal(manager.limit, events)
    modifies manager, manager.limiters.Values
    ensures manager.Valid() && manager.Tidy()
    ensures forall k :: (manager.View(k), FiredFor(log, k)) == After(manager.limit, events, k)
  {
    log := [];
    var i := 0;
    assert events[..0] == [];
    while i < |events|
      invariant 0 <= i <= |events|
      invariant manager.Valid() && manager.Tidy()
      invariant fresh(manager.limiters.Values - old(manager.limiters.Values))
      invariant Legal(manager.limit, events[..i])
      invariant forall k :: (manager.View(k), FiredFor(log, k)) == After(manager.limit, events[..i], k)
    {
      LegalPrefix(manager.limit, events, i + 1);
      assert events[..i + 1][..i] == events[..i];
      var fired: seq<Ticket>;
      match events[i] {
        case Start(key, t) =>
          fired := manager.Start(key, t);
        case Stop(key) =>
          var r := manager.Stop(key);
          fired := r.value;
      }
      ghost var before := log;
      log := log + Tagged(events[i].key, fired);
      forall k ensures (manager.View(k), FiredFor(log, k)) == After(manager.limit, events[..i + 1], k) {
        FiredForAppend(before, events[i].key, fired, k);
      }
      i := i + 1;
    }
    assert events[..i] == events;
  }

  lemma {:induction false} LegalPrefix<Key>(limit: int, events: seq<Event<Key>>, i: nat)
    requires Legal(limit, events) && i <= |events|
    ensures Legal(limit, events[..i])
  {
    if i == |events| {
      assert events[..i] == events;
    } else {
      LegalPrefix(limit, events[..|events| - 1], i);
      assert events[..|events| - 1][..i] == events[..i];
    }
  }
}
