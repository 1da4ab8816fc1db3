// The shared model cache under arbitrary thread schedules: double-checked locking as a machine
// whose events are single steps of single threads.
module ModelCache {
  import opened Types

  datatype Kind = Embedder | Reranker
  datatype ModelKey = ModelKey(kind: Kind, modelName: string, device: string, maxLength: Option<int>)

  type Thread = nat
  /** The identity of a loaded (model, lock) pair; every successful load makes a new one. */
  type Entry = nat

  datatype Pc =
    | Idle
    | FastPath(key: ModelKey)
    | WaitToLoad(key: ModelKey)
    | Recheck(key: ModelKey)
    | Loading(key: ModelKey)
    | Storing(key: ModelKey, entry: Entry)
    | Leaving(key: ModelKey, entry: Entry)
    | Returned(key: ModelKey, entry: Entry)
    | Raised(key: ModelKey)
    | WaitToClear(kind: Option<Kind>)
    | Clearing(doomed: set<ModelKey>)

  datatype State = State(cache: map<ModelKey, Entry>, lock: Option<Thread>, pcs: map<Thread, Pc>, nextEntry: Entry)

  /** What a thread does next: call in, take its next step, drop one key, or have its loader raise. */
  datatype Choice = Get(key: ModelKey) | Clear(kind: Option<Kind>) | Step | Drop(key: ModelKey) | LoaderRaises

  datatype Event = Event(thread: Thread, choice: Choice)

  const INIT := State(map[], None, map[], 0)

  function PcOf(s: State, t: Thread): Pc {
    if t in s.pcs then s.pcs[t] else Idle
  }

  function Goto(s: State, t: Thread, pc: Pc): State {
    s.(pcs := s.pcs[t := pc])
  }

  predicate Outside(pc: Pc) {
    pc.Idle? || pc.Returned? || pc.Raised?
  }

  /** The keys a clear removes: all, or those of one kind. */
  function Doomed(cache: map<ModelKey, Entry>, kind: Option<Kind>): set<ModelKey> {
    set k | k in cache && (kind.None? || k.kind == kind.value)
  }

  function DoStep(s: State, t: Thread): State {
    match PcOf(s, t)
    case FastPath(key) =>
      if key in s.cache then Goto(s, t, Returned(key, s.cache[key])) else Goto(s, t, WaitToLoad(key))
    case WaitToLoad(key) =>
      if s.lock.None? then Goto(s, t, Recheck(key)).(lock := Some(t)) else s
    case Recheck(key) =>
      if key in s.cache then Goto(s, t, Leaving(key, s.cache[key])) else Goto(s, t, Loading(key))
    case Loading(key) => Goto(s, t, Storing(key, s.nextEntry)).(nextEntry := s.nextEntry + 1)
    case Storing(key, entry) => Goto(s, t, Leaving(key, entry)).(cache := s.cache[key := entry])
    case Leaving(key, entry) => Goto(s, t, Returned(key, entry)).(lock := None)
    case WaitToClear(kind) =>
      if s.lock.None? then Goto(s, t, Clearing(Doomed(s.cache, kind))).(lock := Some(t)) else s
    case Clearing(doomed) => if doomed == {} then Goto(s, t, Idle).(lock := None) else s
    case _ => s
  }

  function Apply(s: State, ev: Event): State {
    var t, pc := ev.thread, PcOf(s, ev.thread);
    match ev.choice
    case Get(key) => if Outside(pc) then Goto(s, t, FastPath(key)) else s
    case Clear(kind) => if Outside(pc) then Goto(s, t, WaitToClear(kind)) else s
    case Step => DoStep(s, t)
    case Drop(key) =>
      if pc.Clearing? && key in pc.doomed then
        Goto(s, t, Clearing(pc.doomed - {key})).(cache := s.cache - {key})
      else s
    case LoaderRaises => if pc.Loading? then Goto(s, t, Raised(pc.key)).(lock := None) else s
  }

  function Run(evs: seq<Event>): State {
    if evs == [] then INIT else Apply(Run(evs[..|evs| - 1]), evs[|evs| - 1])
  }

  // ----- the invariant -----

  /** Between acquiring and releasing the cache lock. */
  predicate Inside(pc: Pc) {
    pc.Recheck? || pc.Loading? || pc.Storing? || pc.Leaving? || pc.Clearing?
  }

  ghost predicate ThreadOk(s: State, t: Thread) {
    var pc := PcOf(s, t);
    && (Inside(pc) <==> s.lock == Some(t))
    && (pc.Loading? || pc.Storing? ==> pc.key !in s.cache)
    && (pc.Leaving? ==> pc.key in s.cache && s.cache[pc.key] == pc.entry)
    && (pc.Clearing? ==> pc.doomed <= s.cache.Keys)
  }

  ghost predicate Safe(s: State) {
    forall t {:trigger ThreadOk(s, t)} :: ThreadOk(s, t)
  }

  lemma ApplySafe(s: State, ev: Event)
    requires Safe(s)
    ensures Safe(Apply(s, ev))
  {
    var s' := Apply(s, ev);
    assert ThreadOk(s, ev.thread);
    forall t
      ensures ThreadOk(s', t)
    {
      assert ThreadOk(s, t);
    }
  }

  lemma {:induction false} RunSafe(evs: seq<Event>)
    ensures Safe(Run(evs))
  {
    if evs != [] {
      RunSafe(evs[..|evs| - 1]);
      ApplySafe(Run(evs[..|evs| - 1]), evs[|evs| - 1]);
    }
  }

  // ----- main results -----

  /** At most one loader runs at a time, and never while the cache is being cleared. */
  lemma OneLoaderAtATime(evs: seq<Event>, t: Thread, u: Thread)
    requires PcOf(Run(evs), t).Loading? && (PcOf(Run(evs), u).Loading? || PcOf(Run(evs), u).Clearing?)
    ensures t == u
  {
    RunSafe(evs);
    assert ThreadOk(Run(evs), t) && ThreadOk(Run(evs), u);
  }

  /** The event is a load of the key that succeeds. */
  predicate Loads(s: State, ev: Event, key: ModelKey) {
    ev.choice == Step && PcOf(s, ev.thread) == Loading(key)
  }

  /** The event removes the key from the cache. */
  predicate Removes(s: State, ev: Event, key: ModelKey) {
    ev.choice == Drop(key) && PcOf(s, ev.thread).Clearing? && key in PcOf(s, ev.thread).doomed
  }

  function LoadCount(evs: seq<Event>, key: ModelKey): nat {
    if evs == [] then 0
    else LoadCount(evs[..|evs| - 1], key) + if Loads(Run(evs[..|evs| - 1]), evs[|evs| - 1], key) then 1 else 0
  }

  function RemovalCount(evs: seq<Event>, key: ModelKey): nat {
    if evs == [] then 0
    else RemovalCount(evs[..|evs| - 1], key) + if Removes(Run(evs[..|evs| - 1]), evs[|evs| - 1], key) then 1 else 0
  }

  /** The lock holder has a freshly loaded entry for the key that is not stored yet. */
  predicate Pending(s: State, key: ModelKey) {
    s.lock.Some? && PcOf(s, s.lock.value).Storing? && PcOf(s, s.lock.value).key == key
  }

  function One(b: bool): nat {
    if b then 1 else 0
  }

  lemma CountStep(s: State, ev: Event, key: ModelKey)
    requires Safe(s)
    ensures One(Loads(s, ev, key)) + One(key in s.cache) + One(Pending(s, key))
            == One(Removes(s, ev, key)) + One(key in Apply(s, ev).cache) + One(Pending(Apply(s, ev), key))
  {
    assert ThreadOk(s, ev.thread);
    if s.lock.Some? { assert ThreadOk(s, s.lock.value); }
  }

  /** Conservation: every successful load was removed by a clear, is cached, or is about to be stored. */
  lemma {:induction false} LoadsAreConserved(evs: seq<Event>, key: ModelKey)
    ensures LoadCount(evs, key) == RemovalCount(evs, key) + One(key in Run(evs).cache) + One(Pending(Run(evs), key))
  {
    if evs != [] {
      var before := evs[..|evs| - 1];
      LoadsAreConserved(before, key);
      RunSafe(before);
      CountStep(Run(before), evs[|evs| - 1], key);
    }
  }

  /** A key is never cached and pending at once, so between clears it is loaded at most once. */
  lemma LoadedOncePerClear(evs: seq<Event>, key: ModelKey)
    ensures LoadCount(evs, key) <= RemovalCount(evs, key) + 1
  {
    LoadsAreConserved(evs, key);
    RunSafe(evs);
    var s := Run(evs);
    if s.lock.Some? { assert ThreadOk(s, s.lock.value); }
  }

  /** The event starts the loader for the key. */
  predicate Starts(s: State, ev: Event, key: ModelKey) {
    ev.choice == Step && PcOf(s, ev.thread) == Recheck(key) && key !in s.cache
  }

  /** The loader of the key raises. */
  predicate Fails(s: State, ev: Event, key: ModelKey) {
    ev.choice == LoaderRaises && PcOf(s, ev.thread) == Loading(key)
  }

  function StartCount(evs: seq<Event>, key: ModelKey): nat {
    if evs == [] then 0
    else StartCount(evs[..|evs| - 1], key) + if Starts(Run(evs[..|evs| - 1]), evs[|evs| - 1], key) then 1 else 0
  }

  function FailureCount(evs: seq<Event>, key: ModelKey): nat {
    if evs == [] then 0
    else FailureCount(evs[..|evs| - 1], key) + if Fails(Run(evs[..|evs| - 1]), evs[|evs| - 1], key) then 1 else 0
  }

  /** The lock holder is running the loader for the key. */
  predicate InLoader(s: State, key: ModelKey) {
    s.lock.Some? && PcOf(s, s.lock.value) == Loading(key)
  }

  lemma StartStep(s: State, ev: Event, key: ModelKey)
    requires Safe(s)
    ensures One(Starts(s, ev, key)) + One(InLoader(s, key))
            == One(Loads(s, ev, key)) + One(Fails(s, ev, key)) + One(InLoader(Apply(s, ev), key))
  {
    assert ThreadOk(s, ev.thread);
    if s.lock.Some? { assert ThreadOk(s, s.lock.value); }
  }

  /** Every call of a loader has succeeded, has raised, or is still running. */
  lemma {:induction false} StartsAreConserved(evs: seq<Event>, key: ModelKey)
    ensures StartCount(evs, key) == LoadCount(evs, key) + FailureCount(evs, key) + One(InLoader(Run(evs), key))
  {
    if evs != [] {
      var before := evs[..|evs| - 1];
      StartsAreConserved(before, key);
      RunSafe(before);
      StartStep(Run(before), evs[|evs| - 1], key);
    }
  }

  /** A loader is called again only after it raised or its result was removed: a failure leaves nothing behind. */
  lemma StartedOncePerFailureOrClear(evs: seq<Event>, key: ModelKey)
    ensures StartCount(evs, key) <= FailureCount(evs, key) + RemovalCount(evs, key) + 1
  {
    StartsAreConserved(evs, key);
    LoadsAreConserved(evs, key);
    RunSafe(evs);
    var s := Run(evs);
    if s.lock.Some? { assert ThreadOk(s, s.lock.value); }
  }

  /** Whatever a call returns is the cached entry at that moment. */
  lemma ReturnsTheCachedEntry(evs: seq<Event>, ev: Event, t: Thread)
    requires PcOf(Run(evs + [ev]), t).Returned? && PcOf(Run(evs), t) != PcOf(Run(evs + [ev]), t)
    ensures var pc := PcOf(Run(evs + [ev]), t);
            pc.key in Run(evs).cache && Run(evs).cache[pc.key] == pc.entry
            && Run(evs + [ev]).cache == Run(evs).cache
  {
    assert (evs + [ev])[..|evs|] == evs;
    RunSafe(evs);
    assert ThreadOk(Run(evs), ev.thread);
  }

  lemma {:induction false} EntryStays(evs: seq<Event>, more: seq<Event>, key: ModelKey)
    requires key in Run(evs).cache && RemovalCount(evs + more, key) == RemovalCount(evs, key)
    ensures key in Run(evs + more).cache && Run(evs + more).cache[key] == Run(evs).cache[key]
    decreases |more|
  {
    if more == [] {
      assert evs + more == evs;
    } else {
      var less, ev := more[..|more| - 1], more[|more| - 1];
      assert (evs + more)[..|evs + more| - 1] == evs + less && (evs + more)[|evs + more| - 1] == ev;
      RemovalsGrow(evs, less, key);
      EntryStays(evs, less, key);
      RunSafe(evs + less);
      assert ThreadOk(Run(evs + less), ev.thread);
    }
  }

  lemma {:induction false} RemovalsGrow(evs: seq<Event>, more: seq<Event>, key: ModelKey)
    ensures RemovalCount(evs, key) <= RemovalCount(evs + more, key)
    decreases |more|
  {
    if more == [] {
      assert evs + more == evs;
    } else {
      var less := more[..|more| - 1];
      assert (evs + more)[..|evs + more| - 1] == evs + less;
      RemovalsGrow(evs, less, key);
    }
  }

  /** Two calls that return for one key with no removal between them return the same entry. */
  lemma ReturnsAgree(evs: seq<Event>, ev: Event, t: Thread, more: seq<Event>, ev': Event, u: Thread)
    requires PcOf(Run(evs + [ev]), t).Returned? && PcOf(Run(evs), t) != PcOf(Run(evs + [ev]), t)
    requires var mid := evs + [ev] + more;
             PcOf(Run(mid + [ev']), u).Returned? && PcOf(Run(mid), u) != PcOf(Run(mid + [ev']), u)
             && PcOf(Run(mid + [ev']), u).key == PcOf(Run(evs + [ev]), t).key
             && RemovalCount(mid, PcOf(Run(evs + [ev]), t).key) == RemovalCount(evs + [ev], PcOf(Run(evs + [ev]), t).key)
    ensures PcOf(Run(evs + [ev] + more + [ev']), u).entry == PcOf(Run(evs + [ev]), t).entry
  {
    ReturnsTheCachedEntry(evs, ev, t);
    ReturnsTheCachedEntry(evs + [ev] + more, ev', u);
    EntryStays(evs + [ev], more, PcOf(Run(evs + [ev]), t).key);
  }

  // ----- what a clear removes -----

  /** Everything but the keys of the kind; nothing when no kind is named. */
  function Spared(cache: map<ModelKey, Entry>, kind: Option<Kind>): map<ModelKey, Entry> {
    map k | k in cache && kind.Some? && k.kind != kind.value :: cache[k]
  }

  /** The clearing thread has removed from `was` the keys of the kind that it no longer lists, and nothing else. */
  ghost predicate ClearedSoFar(s: State, t: Thread, was: map<ModelKey, Entry>, kind: Option<Kind>) {
    && PcOf(s, t).Clearing?
    && (forall k :: k in PcOf(s, t).doomed ==> k in was && (kind.None? || k.kind == kind.value))
    && s.cache == Spared(was, kind) + map k | k in was && k in PcOf(s, t).doomed :: was[k]
  }

  lemma ClearStep(s: State, ev: Event, t: Thread, was: map<ModelKey, Entry>, kind: Option<Kind>)
    requires Safe(s) && ClearedSoFar(s, t, was, kind) && ev != Event(t, Step)
    ensures ClearedSoFar(Apply(s, ev), t, was, kind)
  {
    assert ThreadOk(s, t) && ThreadOk(s, ev.thread);
  }

  lemma {:induction false} ClearGoesOn(before: seq<Event>, during: seq<Event>, t: Thread, kind: Option<Kind>)
    requires PcOf(Run(before), t) == WaitToClear(kind) && Run(before).lock.None? && Event(t, Step) !in during
    ensures ClearedSoFar(Run(before + [Event(t, Step)] + during), t, Run(before).cache, kind)
    decreases |during|
  {
    var entered := before + [Event(t, Step)];
    if during == [] {
      assert entered + during == entered && entered[..|before|] == before;
    } else {
      var less, ev := during[..|during| - 1], during[|during| - 1];
      assert (entered + during)[..|entered + during| - 1] == entered + less && (entered + during)[|entered + during| - 1] == ev;
      ClearGoesOn(before, less, t, kind);
      RunSafe(entered + less);
      ClearStep(Run(entered + less), ev, t, Run(before).cache, kind);
    }
  }

  /**
   * A clear that takes the lock and comes to its end, whatever the other threads do meanwhile, leaves
   * no key of its kind and every other key with its entry.
   */
  lemma ClearLeavesTheOthers(before: seq<Event>, during: seq<Event>, t: Thread, kind: Option<Kind>)
    requires PcOf(Run(before), t) == WaitToClear(kind) && Run(before).lock.None? && Event(t, Step) !in during
    requires PcOf(Run(before + [Event(t, Step)] + during + [Event(t, Step)]), t).Idle?
    ensures var cache, left := Run(before).cache, Run(before + [Event(t, Step)] + during + [Event(t, Step)]).cache;
            && (forall k :: k in left <==> k in cache && kind.Some? && k.kind != kind.value)
            && (forall k :: k in left ==> left[k] == cache[k])
  {
    var cleared := before + [Event(t, Step)] + during;
    assert (cleared + [Event(t, Step)])[..|cleared|] == cleared;
    ClearGoesOn(before, during, t, kind);
  }

  /** A clear called while no thread holds the lock can run to its end alone. */
  lemma ClearCanFinish(before: seq<Event>, t: Thread, kind: Option<Kind>) returns (during: seq<Event>)
    requires Outside(PcOf(Run(before), t)) && Run(before).lock.None?
    ensures forall ev :: ev in during ==> ev.thread == t && ev.choice.Drop?
    ensures var called := before + [Event(t, Clear(kind))];
            && PcOf(Run(called), t) == WaitToClear(kind) && Run(called).lock.None? && Run(called).cache == Run(before).cache
            && PcOf(Run(called + [Event(t, Step)] + during + [Event(t, Step)]), t).Idle?
  {
    var called := before + [Event(t, Clear(kind))];
    assert called[..|before|] == before;
    var entered := called + [Event(t, Step)];
    assert entered[..|called|] == called;
    during := DropAll(entered, t);
    var cleared := entered + during;
    assert (cleared + [Event(t, Step)])[..|cleared|] == cleared;
  }

  lemma {:induction false} DropAll(evs: seq<Event>, t: Thread) returns (drops: seq<Event>)
    requires PcOf(Run(evs), t).Clearing?
    ensures forall ev :: ev in drops ==> ev.thread == t && ev.choice.Drop?
    ensures PcOf(Run(evs + drops), t) == Clearing({})
    decreases |PcOf(Run(evs), t).doomed|
  {
    var doomed := PcOf(Run(evs), t).doomed;
    if doomed == {} {
      drops := [];
      assert evs + drops == evs;
    } else {
      var key :| key in doomed;
      var drop := Event(t, Drop(key));
      assert (evs + [drop])[..|evs|] == evs;
      var rest := DropAll(evs + [drop], t);
      drops := [drop] + rest;
      assert evs + drops == evs + [drop] + rest;
    }
  }
}
