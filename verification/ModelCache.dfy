/**
 The short-lived cache of account objects (ModelObjectCache). Fetching a model gives way to
 everything else that is going on, so lookups, fetched models coming in, timers firing and
 the final cleanup can come in any order.
 */
module ModelCache {
  import opened Wrappers

  type CallId = nat

  /** A delayed call of the reactor, due to evict a key. */
  datatype Call<Key> = Call(deadline: real, key: Key)

  /** The cache, the reactor's clock and pending calls, and when each cached model was stored. */
  datatype State<Key, !Model> = State(
    ttl: real,
    models: map<Key, Model>,
    evictors: map<Key, CallId>,
    now: real,
    calls: map<CallId, Call<Key>>,
    nextId: CallId,
    stored: map<Key, real>)

  function Fresh<Key, Model>(ttl: real): State<Key, Model> {
    State(ttl, map[], map[], 0.0, map[], 0, map[])
  }

  /** Evicting fails, as deleting a missing dictionary key does, unless both entries are there. */
  function Evicted<Key, Model>(s: State<Key, Model>, k: Key): Option<State<Key, Model>> {
    if k in s.models && k in s.evictors then
      Some(s.(models := s.models - {k}, evictors := s.evictors - {k}, stored := s.stored - {k}))
    else None
  }

  function Scheduled<Key, Model>(s: State<Key, Model>, k: Key): State<Key, Model> {
    if k in s.evictors then s
    else s.(evictors := s.evictors[k := s.nextId], calls := s.calls[s.nextId := Call(s.now + s.ttl, k)], nextId := s.nextId + 1)
  }

  /** A fetched model comes in; with no time to live it is only passed on. */
  function Fetched<Key, Model>(s: State<Key, Model>, k: Key, m: Model): State<Key, Model> {
    if s.ttl <= 0.0 then s
    else Scheduled(s.(models := s.models[k := m], stored := s.stored[k := s.now]), k)
  }

  function Fired<Key, Model>(s: State<Key, Model>, id: CallId): Option<State<Key, Model>>
    requires id in s.calls
  {
    Evicted(s.(calls := s.calls - {id}), s.calls[id].key)
  }

  /** Cancelling a call that is no longer pending fails, and so does evicting a missing entry. */
  ghost function CleanedUp<Key, Model>(s: State<Key, Model>): Option<State<Key, Model>> {
    if (forall k :: k in s.evictors ==> s.evictors[k] in s.calls && k in s.models) then
      Some(s.(models := s.models - s.evictors.Keys, stored := s.stored - s.evictors.Keys,
              evictors := map[], calls := s.calls - s.evictors.Values))
    else None
  }

  datatype Event<Key, Model> =
    | Lookup(key: Key)
    | Fetch(key: Key, model: Model)
    | Fire(id: CallId)
    | Tick(to: real)
    | Cleanup

  /** A timer fires when it is due or any time later, and the clock does not run backwards. */
  ghost predicate Enabled<Key, Model>(s: State<Key, Model>, e: Event<Key, Model>) {
    match e
    case Lookup(_) => true
    case Fetch(_, _) => true
    case Fire(id) => id in s.calls && s.calls[id].deadline <= s.now
    case Tick(to) => s.now <= to
    case Cleanup => true
  }

  /** None if the event fails inside the cache. */
  ghost function Step<Key, Model>(s: State<Key, Model>, e: Event<Key, Model>): Option<State<Key, Model>>
    requires Enabled(s, e)
  {
    match e
    case Lookup(_) => Some(s)
    case Fetch(k, m) => Some(Fetched(s, k, m))
    case Fire(id) => Fired(s, id)
    case Tick(to) => Some(s.(now := to))
    case Cleanup => CleanedUp(s)
  }

  /** What holds between any two events. */
  ghost predicate Consistent<Key, Model>(s: State<Key, Model>) {
    && s.models.Keys == s.evictors.Keys == s.stored.Keys
    && (forall k :: k in s.evictors ==> s.evictors[k] in s.calls && s.calls[s.evictors[k]].key == k)
    && (forall id :: id in s.calls ==>
                       && id < s.nextId
                       && s.calls[id].key in s.evictors && s.evictors[s.calls[id].key] == id)
    && (forall k :: k in s.evictors ==> s.calls[s.evictors[k]].deadline - s.ttl <= s.stored[k] <= s.now)
    && (s.ttl <= 0.0 ==> s.models == map[])
  }

  lemma FetchKeepsConsistent<Key, Model>(s: State<Key, Model>, k: Key, m: Model)
    requires Consistent(s)
    ensures Consistent(Fetched(s, k, m))
  {
    if s.ttl > 0.0 {
      var t := Fetched(s, k, m);
      if k !in s.evictors {
        assert t.evictors == s.evictors[k := s.nextId] && t.calls == s.calls[s.nextId := Call(s.now + s.ttl, k)];
      }
      forall id | id in t.calls ensures t.calls[id].key in t.evictors && t.evictors[t.calls[id].key] == id {
        assert id in s.calls ==> s.calls[id].key in s.evictors;
      }
    }
  }

  lemma FireKeepsConsistent<Key, Model>(s: State<Key, Model>, id: CallId)
    requires Consistent(s) && id in s.calls
    ensures Fired(s, id).Some? && Consistent(Fired(s, id).value)
  {
    var k := s.calls[id].key;
    assert k in s.models;
    var t := Fired(s, id).value;
    forall j | j in t.calls ensures t.calls[j].key in t.evictors && t.evictors[t.calls[j].key] == j {
      assert j != id && s.calls[j].key != k;
    }
  }

  /** Cleaning up a consistent cache succeeds and leaves nothing behind. */
  lemma CleanupLeavesNothing<Key, Model>(s: State<Key, Model>)
    requires Consistent(s)
    ensures CleanedUp(s) == Some(s.(models := map[], evictors := map[], stored := map[], calls := map[]))
  {
    assert forall k :: k in s.evictors ==> s.evictors[k] in s.calls && k in s.models;
    forall id | id in s.calls ensures id in s.evictors.Values {
      assert s.evictors[s.calls[id].key] == id;
    }
    assert s.calls - s.evictors.Values == map[];
    assert s.models - s.evictors.Keys == map[] && s.stored - s.evictors.Keys == map[];
  }

  lemma StepKeepsConsistent<Key, Model>(s: State<Key, Model>, e: Event<Key, Model>)
    requires Consistent(s) && Enabled(s, e)
    ensures Step(s, e).Some? && Consistent(Step(s, e).value) && Step(s, e).value.ttl == s.ttl
  {
    match e {
      case Fetch(k, m) => FetchKeepsConsistent(s, k, m);
      case Fire(id) => FireKeepsConsistent(s, id);
      case Cleanup => CleanupLeavesNothing(s);
      case Lookup(_) =>
      case Tick(_) =>
    }
  }

  /** The state after some events; None if one of them failed or could not have happened. */
  ghost function After<Key, Model>(s: State<Key, Model>, events: seq<Event<Key, Model>>): Option<State<Key, Model>> {
    if events == [] then Some(s)
    else
      match After(s, events[..|events| - 1])
      case None => None
      case Some(t) => if Enabled(t, events[|events| - 1]) then Step(t, events[|events| - 1]) else None
  }

  ghost predicate CanHappen<Key, Model>(s: State<Key, Model>, events: seq<Event<Key, Model>>) {
    events == [] ||
    var before := events[..|events| - 1];
    CanHappen(s, before) && (After(s, before).Some? ==> Enabled(After(s, before).value, events[|events| - 1]))
  }

  /** How long the timer of a cached model has been due without being fired. */
  function Lateness<Key, Model>(s: State<Key, Model>, k: Key): (late: real)
    requires k in s.evictors && s.evictors[k] in s.calls
    ensures late >= 0.0 && (s.now <= s.calls[s.evictors[k]].deadline ==> late == 0.0)
  {
    var deadline := s.calls[s.evictors[k]].deadline;
    if s.now <= deadline then 0.0 else s.now - deadline
  }

  /**
   Whatever the interleaving, and however late timers fire: nothing fails, so no timer evicts a missing entry;
   every cached model has its timer and the other way round; a model served from the cache was stored at most
   the time to live ago, and as much longer as its timer is late; and with no time to live nothing is ever stored.
   */
  lemma {:induction false} EveryInterleaving<Key, Model>(ttl: real, events: seq<Event<Key, Model>>)
    requires CanHappen(Fresh<Key, Model>(ttl), events)
    ensures After(Fresh<Key, Model>(ttl), events).Some?
    ensures var s := After(Fresh<Key, Model>(ttl), events).value;
            && s.ttl == ttl
            && Consistent(s)
            && s.models.Keys == s.evictors.Keys
            && (forall k :: k in s.models ==> 0.0 <= s.now - s.stored[k] <= ttl + Lateness(s, k))
            && (ttl <= 0.0 ==> s.models == map[])
  {
    if events == [] {
    } else {
      EveryInterleaving(ttl, events[..|events| - 1]);
      var s := After(Fresh<Key, Model>(ttl), events[..|events| - 1]).value;
      StepKeepsConsistent(s, events[|events| - 1]);
    }
  }

  /** Time has not passed any timer that is due without firing it. */
  ghost predicate Prompt<Key, Model>(s: State<Key, Model>) {
    forall id :: id in s.calls ==> s.now <= s.calls[id].deadline
  }

  /** While timers are fired on time, a model served from the cache was stored at most the time to live ago. */
  lemma PromptTimersKeepFresh<Key, Model>(ttl: real, events: seq<Event<Key, Model>>)
    requires CanHappen(Fresh<Key, Model>(ttl), events)
    requires After(Fresh<Key, Model>(ttl), events).Some? && Prompt(After(Fresh<Key, Model>(ttl), events).value)
    ensures var s := After(Fresh<Key, Model>(ttl), events).value;
            forall k :: k in s.models ==> k in s.stored && s.now - ttl <= s.stored[k]
  {
    EveryInterleaving(ttl, events);
  }

  // ---------- What is served, and for how long ----------

  /** The last time that the key was fetched. */
  function LastFetch<Key(==), Model>(events: seq<Event<Key, Model>>, k: Key): (i: Option<nat>)
    ensures i.Some? ==> i.value < |events| && events[i.value].Fetch? && events[i.value].key == k
  {
    if events == [] then None
    else
      var last := events[|events| - 1];
      if last.Fetch? && last.key == k then Some(|events| - 1) else LastFetch(events[..|events| - 1], k)
  }

  /** An event about one key leaves the others as they are. */
  lemma OtherKeysStay<Key, Model>(s: State<Key, Model>, e: Event<Key, Model>, k: Key)
    requires Consistent(s) && Enabled(s, e) && !e.Cleanup?
    requires e.Fetch? ==> e.key != k
    requires e.Fire? ==> s.calls[e.id].key != k
    ensures Step(s, e).Some?
    ensures var t := Step(s, e).value;
            && (k in t.models <==> k in s.models)
            && (k in s.models ==> && t.models[k] == s.models[k] && t.stored[k] == s.stored[k]
                                  && t.evictors[k] == s.evictors[k] && t.calls[t.evictors[k]] == s.calls[s.evictors[k]])
  {
    StepKeepsConsistent(s, e);
    if k in s.models {
      assert s.evictors[k] in s.calls;
    }
  }

  /** A fetched model is what is served from then on, and it was stored when it was fetched. */
  ghost predicate ServesLastFetch<Key, Model>(ttl: real, events: seq<Event<Key, Model>>, s: State<Key, Model>, k: Key)
    requires k in s.models && k in s.stored
  {
    && LastFetch(events, k).Some?
    && var i := LastFetch(events, k).value;
       && events[i].model == s.models[k]
       && After(Fresh(ttl), events[..i]).Some? && s.stored[k] == After(Fresh(ttl), events[..i]).value.now
  }

  /** Whatever is served from the cache is the model that was fetched for the key last. */
  lemma {:induction false} ServedIsLastFetched<Key, Model>(ttl: real, events: seq<Event<Key, Model>>, k: Key)
    requires CanHappen(Fresh<Key, Model>(ttl), events)
    ensures After(Fresh<Key, Model>(ttl), events).Some?
    ensures var s := After(Fresh<Key, Model>(ttl), events).value;
            k in s.models ==> k in s.stored && ServesLastFetch(ttl, events, s, k)
  {
    EveryInterleaving(ttl, events);
    var s := After(Fresh<Key, Model>(ttl), events).value;
    if k in s.models {
      var (before, e) := (events[..|events| - 1], events[|events| - 1]);
      EveryInterleaving(ttl, before);
      var r := After(Fresh<Key, Model>(ttl), before).value;
      if !(e.Fetch? && e.key == k) {
        ServedBefore(r, e, k);
        ServedIsLastFetched(ttl, before, k);
        StillServed(ttl, events, r, s, k);
      }
    }
  }

  lemma {:induction false} StillServed<Key, Model>(ttl: real, events: seq<Event<Key, Model>>, r: State<Key, Model>, s: State<Key, Model>, k: Key)
    requires events != [] && !(events[|events| - 1].Fetch? && events[|events| - 1].key == k)
    requires k in r.models && k in r.stored && k in s.models && k in s.stored
    requires s.models[k] == r.models[k] && s.stored[k] == r.stored[k]
    requires ServesLastFetch(ttl, events[..|events| - 1], r, k)
    ensures ServesLastFetch(ttl, events, s, k)
  {
    var i := LastFetch(events[..|events| - 1], k).value;
    assert events[..|events| - 1][..i] == events[..i];
  }

  /** What is in the cache after an event that did not fetch it was there before. */
  lemma ServedBefore<Key, Model>(s: State<Key, Model>, e: Event<Key, Model>, k: Key)
    requires Consistent(s) && Enabled(s, e) && !(e.Fetch? && e.key == k)
    requires Step(s, e).Some? && k in Step(s, e).value.models
    ensures k in s.models && k in s.stored && k in Step(s, e).value.stored
    ensures var t := Step(s, e).value;
            && t.models[k] == s.models[k] && t.stored[k] == s.stored[k]
            && k in s.evictors && k in t.evictors && s.evictors[k] in s.calls && t.evictors[k] in t.calls
            && t.calls[t.evictors[k]] == s.calls[s.evictors[k]]
  {
    StepKeepsConsistent(s, e);
    if e.Cleanup? {
      CleanupLeavesNothing(s);
    } else {
      OtherKeysStay(s, e, k);
    }
  }

  /** The key came into the cache with its `i`-th event, and has been there ever since. */
  ghost predicate CachedSince<Key, Model>(ttl: real, events: seq<Event<Key, Model>>, k: Key, i: nat) {
    && i < |events| && events[i].Fetch? && events[i].key == k
    && forall j :: 0 <= j <= |events| ==> (i < j ==> CachedAt(ttl, events, k, j)) && (j == i ==> !CachedAt(ttl, events, k, j))
  }

  ghost predicate CachedAt<Key, Model>(ttl: real, events: seq<Event<Key, Model>>, k: Key, j: nat)
    requires j <= |events|
  {
    After(Fresh(ttl), events[..j]).Some? && k in After(Fresh(ttl), events[..j]).value.models
  }

  /** A key's timer is due exactly the time to live after the key came into the cache; fetching it again does not put it off. */
  lemma {:induction false} EntriesLiveOut<Key, Model>(ttl: real, events: seq<Event<Key, Model>>, k: Key) returns (i: nat)
    requires CanHappen(Fresh<Key, Model>(ttl), events)
    requires After(Fresh<Key, Model>(ttl), events).Some? && k in After(Fresh<Key, Model>(ttl), events).value.models
    ensures CachedSince(ttl, events, k, i) && After(Fresh<Key, Model>(ttl), events[..i]).Some?
    ensures var s := After(Fresh<Key, Model>(ttl), events).value;
            && k in s.evictors && s.evictors[k] in s.calls
            && s.calls[s.evictors[k]].deadline == After(Fresh<Key, Model>(ttl), events[..i]).value.now + ttl
  {
    var (before, e) := (events[..|events| - 1], events[|events| - 1]);
    EveryInterleaving(ttl, events);
    EveryInterleaving(ttl, before);
    var r := After(Fresh<Key, Model>(ttl), before).value;
    assert events[..|events|] == events;
    if k !in r.models {
      i := |events| - 1;
      if !(e.Fetch? && e.key == k) {
        ServedBefore(r, e, k);
        assert false;
      }
    } else {
      i := EntriesLiveOut(ttl, before, k);
      TimerStays(r, e, k);
      assert before[..i] == events[..i];
      StillCached(ttl, events, k, i);
    }
  }

  lemma {:induction false} StillCached<Key, Model>(ttl: real, events: seq<Event<Key, Model>>, k: Key, i: nat)
    requires events != [] && CachedSince(ttl, events[..|events| - 1], k, i) && CachedAt(ttl, events, k, |events|)
    ensures CachedSince(ttl, events, k, i)
  {
    var before := events[..|events| - 1];
    forall j | 0 <= j <= |events| ensures (i < j ==> CachedAt(ttl, events, k, j)) && (j == i ==> !CachedAt(ttl, events, k, j)) {
      if j < |events| {
        assert before[..j] == events[..j];
        assert CachedAt(ttl, events, k, j) <==> CachedAt(ttl, before, k, j);
      }
    }
  }

  lemma TimerStays<Key, Model>(s: State<Key, Model>, e: Event<Key, Model>, k: Key)
    requires Consistent(s) && Enabled(s, e) && k in s.models
    requires Step(s, e).Some? && k in Step(s, e).value.models
    ensures var t := Step(s, e).value;
            && k in s.evictors && k in t.evictors && s.evictors[k] in s.calls && t.evictors[k] in t.calls
            && t.calls[t.evictors[k]] == s.calls[s.evictors[k]]
  {
    StepKeepsConsistent(s, e);
    if !(e.Fetch? && e.key == k) {
      ServedBefore(s, e, k);
    }
  }

  // ---------- The cache and its reactor ----------

  class Reactor<Key(==)> {
    var now: real
    var calls: map<CallId, Call<Key>>
    var nextId: CallId

    constructor ()
      ensures now == 0.0 && calls == map[] && nextId == 0
    {
      now, calls, nextId := 0.0, map[], 0;
    }

    method CallLater(delay: real, key: Key) returns (id: CallId)
      modifies this
      ensures id == old(nextId) && nextId == old(nextId) + 1 && now == old(now)
      ensures calls == old(calls)[id := Call(now + delay, key)]
    {
      id := nextId;
      calls := calls[id := Call(now + delay, key)];
      nextId := nextId + 1;
    }

    method Cancel(id: CallId) returns (ok: bool)
      modifies this
      ensures ok <==> id in old(calls)
      ensures calls == old(calls) - {id} && now == old(now) && nextId == old(nextId)
    {
      ok := id in calls;
      calls := calls - {id};
    }
  }

  class ModelObjectCache<Key(==), Model> {
    const reactor: Reactor<Key>
    const ttl: real
    var models: map<Key, Model>
    var evictors: map<Key, CallId>
    ghost var stored: map<Key, real>

    ghost function View(): State<Key, Model>
      reads this, reactor
    {
      State(ttl, models, evictors, reactor.now, reactor.calls, reactor.nextId, stored)
    }

    constructor (ttl: real)
      ensures View() == Fresh(ttl) && fresh(reactor)
    {
      this.ttl := ttl;
      reactor := new Reactor();
      models, evictors, stored := map[], map[], map[];
    }

    method EvictModelEntry(key: Key) returns (ok: bool)
      modifies this
      ensures match Evicted(old(View()), key)
              case None => !ok
              case Some(s) => ok && View() == s
    {
      if key !in models {
        return false;
      }
      models := models - {key};
      if key !in evictors {
        return false;
      }
      evictors := evictors - {key};
      stored := stored - {key};
      return true;
    }

    method ScheduleEviction(key: Key)
      modifies this, reactor
      ensures View() == Scheduled(old(View()), key)
    {
      if key in evictors {
        return;
      }
      var delayedCall := reactor.CallLater(ttl, key);
      evictors := evictors[key := delayedCall];
    }

    /** `get_model` up to where it has to fetch the model, if it has to. */
    method Lookup(key: Key) returns (hit: Option<Model>)
      ensures hit == if key in models then Some(models[key]) else None
    {
      if key !in models {
        return None;
      }
      return Some(models[key]);
    }

    /** `get_model` from where the fetched model comes in. */
    method ModelFetched(key: Key, fetched: Model) returns (model: Model)
      modifies this, reactor
      ensures View() == Fetched(old(View()), key, fetched)
      ensures model == fetched
    {
      if ttl <= 0.0 {
        return fetched;
      }
      models := models[key := fetched];
      stored := stored[key := reactor.now];
      ScheduleEviction(key);
      return models[key];
    }

    /** The reactor runs a delayed call. */
    method Fire(id: CallId) returns (ok: bool)
      requires id in reactor.calls
      modifies this, reactor
      ensures match Fired(old(View()), id)
              case None => !ok
              case Some(s) => ok && View() == s
    {
      var key := reactor.calls[id].key;
      reactor.calls := reactor.calls - {id};
      ok := EvictModelEntry(key);
    }

    method Cleanup() returns (ok: bool)
      requires Consistent(View())
      modifies this, reactor
      ensures ok && CleanedUp(old(View())) == Some(View())
    {
      CleanupLeavesNothing(View());
      var todo := evictors.Keys;
      while todo != {}
        invariant models.Keys == evictors.Keys == stored.Keys == todo
        invariant forall k :: k in todo ==> evictors[k] in reactor.calls && reactor.calls[evictors[k]].key == k
        invariant forall id :: id in reactor.calls ==>
                                 reactor.calls[id].key in evictors && evictors[reactor.calls[id].key] == id
        invariant reactor.now == old(reactor.now) && reactor.nextId == old(reactor.nextId)
      {
        var key :| key in todo;
        ok := reactor.Cancel(evictors[key]);
        if !ok {
          return;
        }
        ok := EvictModelEntry(key);
        if !ok {
          return;
        }
        todo := todo - {key};
      }
      ok := true;
    }
  }
}
