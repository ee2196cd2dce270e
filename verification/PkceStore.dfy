/** Pending PKCE logins: commanderPKCEStore in internal/httpapi/commander_auth.go,
    whose map and counter are separate atomics (RFC 7636). */
module PkceStore {
  import opened Basics

  datatype Entry = Entry(codeVerifier: string, redirectURI: string, expiresAt: int)

  // ----- One goroutine at a time -----

  class CommanderPkceStore {
    var items: map<string, Entry>
    var count: int
    const maxPend: int

    /** The counter is the number of entries. */
    predicate Valid()
      reads this
    {
      count == |items|
    }

    constructor (maxPending: int)
      ensures Valid() && items == map[] && maxPend == maxPending
    {
      items, count, maxPend := map[], 0, maxPending;
    }

    method Store(state: string, codeVerifier: string, redirectURI: string, ttl: int, now: int) returns (ok: bool)
      requires Valid() && state !in items
      modifies this
      ensures Valid() && ok == (|old(items)| < maxPend)
      ensures items == if ok then old(items)[state := Entry(codeVerifier, redirectURI, now + ttl)] else old(items)
    {
      if count >= maxPend {
        return false;
      }
      items := items[state := Entry(codeVerifier, redirectURI, now + ttl)];
      count := count + 1;
      ok := true;
    }

    method Consume(state: string, now: int) returns (found: Option<Entry>)
      requires Valid()
      modifies this
      ensures Valid() && items == old(items) - {state}
      ensures found ==
              if state in old(items) && now <= old(items)[state].expiresAt then Some(old(items)[state]) else None
    {
      if state !in items {
        return None;
      }
      var entry := items[state];
      items := items - {state};
      count := count - 1;
      if now > entry.expiresAt {
        return None;
      }
      found := Some(entry);
    }

    method Cleanup(now: int)
      requires Valid()
      modifies this
      ensures Valid()
      ensures items == map s | s in old(items) && now <= old(items)[s].expiresAt :: old(items)[s]
    {
      var pending := items.Keys;
      while pending != {}
        invariant pending <= old(items).Keys && Valid()
        invariant forall s | s in items :: s in old(items) && items[s] == old(items)[s]
        invariant forall s | s in old(items) && s in pending :: s in items
        invariant forall s | s in old(items) && s !in pending :: s in items <==> now <= old(items)[s].expiresAt
        decreases |pending|
      {
        var state :| state in pending;
        pending := pending - {state};
        if now > items[state].expiresAt {
          items := items - {state};
          count := count - 1;
        }
      }
    }
  }

  // ----- Any number of goroutines -----

  /** The next atomic operation of a goroutine. A sweeper has its clock and, once it
      has read an expired entry, the key it is about to delete. */
  datatype Thread =
    | StoreCheck(state: string, expiresAt: int)
    | StoreInsert(state: string, expiresAt: int)
    | StoreAdd
    | ConsumeLoad(state: string)
    | ConsumeSub
    | SweepRead(now: int)
    | SweepDelete(now: int, key: string)
    | SweepSub(now: int)
    | Finished

  /** `blind` counts the deletes of a sweeper that found their key gone. */
  datatype World = World(entries: map<string, int>, count: int, threads: seq<Thread>, blind: nat)

  datatype Step =
    | Spawn(thread: Thread)
    | Run(i: nat, key: string)

  predicate Starts(t: Thread) {
    t.StoreCheck? || t.ConsumeLoad? || t.SweepRead?
  }

  /** One atomic operation; `key` is the key the sweeper comes to next. A state is
      never stored twice, being a new UUID each time. */
  function Operate(w: World, t: Thread, key: string, maxPend: int): (World, Thread) {
    match t
    case StoreCheck(state, exp) => (w, if w.count >= maxPend then Finished else StoreInsert(state, exp))
    case StoreInsert(state, exp) =>
      if state in w.entries then (w, t) else (w.(entries := w.entries[state := exp]), StoreAdd)
    case StoreAdd => (w.(count := w.count + 1), Finished)
    case ConsumeLoad(state) =>
      if state !in w.entries then (w, Finished) else (w.(entries := w.entries - {state}), ConsumeSub)
    case ConsumeSub => (w.(count := w.count - 1), Finished)
    case SweepRead(now) => (w, if key in w.entries && now > w.entries[key] then SweepDelete(now, key) else t)
    case SweepDelete(now, k) =>
      (w.(entries := w.entries - {k}, blind := if k in w.entries then w.blind else w.blind + 1), SweepSub(now))
    case SweepSub(now) => (w.(count := w.count - 1), SweepRead(now))
    case Finished => (w, t)
  }

  /** Run without interruption, a store below the limit adds its entry and counts it, a
      consume takes the entry there is and uncounts it, and so does a round of the sweeper
      with an expired one; otherwise they leave everything as it is. */
  lemma AloneExactly(w: World, state: string, exp: int, now: int, key: string, maxPend: int)
    ensures var (a, t) := Operate(w, StoreCheck(state, exp), key, maxPend);
            var (b, u) := Operate(a, t, key, maxPend);
            var (c, v) := Operate(b, u, key, maxPend);
            if w.count < maxPend && state !in w.entries then
              v == Finished && c == w.(entries := w.entries[state := exp], count := w.count + 1)
            else c == w
    ensures var (a, t) := Operate(w, ConsumeLoad(state), key, maxPend);
            var (b, u) := Operate(a, t, key, maxPend);
            u == Finished && if state in w.entries then b == w.(entries := w.entries - {state}, count := w.count - 1)
                             else b == w
    ensures var (a, t) := Operate(w, SweepRead(now), key, maxPend);
            var (b, u) := Operate(a, t, key, maxPend);
            var (c, v) := Operate(b, u, key, maxPend);
            v == SweepRead(now)
            && if key in w.entries && now > w.entries[key] then
                 c == w.(entries := w.entries - {key}, count := w.count - 1)
               else c == w
  {
  }

  function Apply(w: World, step: Step, maxPend: int): World {
    match step
    case Spawn(t) => if Starts(t) then w.(threads := w.threads + [t]) else w
    case Run(i, key) =>
      if i >= |w.threads| then w
      else
        var r := Operate(w, w.threads[i], key, maxPend);
        r.0.(threads := w.threads[i := r.1])
  }

  const EMPTY := World(map[], 0, [], 0)

  function RunTo(steps: seq<Step>, maxPend: int, n: nat): World
    requires n <= |steps|
  {
    if n == 0 then EMPTY else Apply(RunTo(steps, maxPend, n - 1), steps[n - 1], maxPend)
  }

  // ----- Counting goroutines -----

  function CountTo(threads: seq<Thread>, p: Thread -> bool, n: nat): nat
    requires n <= |threads|
  {
    if n == 0 then 0 else CountTo(threads, p, n - 1) + if p(threads[n - 1]) then 1 else 0
  }

  function Count(threads: seq<Thread>, p: Thread -> bool): nat {
    CountTo(threads, p, |threads|)
  }

  lemma {:induction false} CountSame(a: seq<Thread>, b: seq<Thread>, p: Thread -> bool, n: nat)
    requires n <= |a| && n <= |b| && forall i | 0 <= i < n :: p(a[i]) == p(b[i])
    ensures CountTo(a, p, n) == CountTo(b, p, n)
  {
    if n > 0 {
      CountSame(a, b, p, n - 1);
    }
  }

  lemma {:induction false} CountChanged(threads: seq<Thread>, p: Thread -> bool, i: nat, t: Thread, n: nat)
    requires i < n <= |threads|
    ensures CountTo(threads[i := t], p, n)
         == CountTo(threads, p, n) - (if p(threads[i]) then 1 else 0) + (if p(t) then 1 else 0)
  {
    if n == i + 1 {
      CountSame(threads, threads[i := t], p, i);
    } else {
      CountChanged(threads, p, i, t, n - 1);
    }
  }

  lemma CountSpawned(threads: seq<Thread>, p: Thread -> bool, t: Thread)
    ensures Count(threads + [t], p) == Count(threads, p) + if p(t) then 1 else 0
  {
    CountSame(threads, threads + [t], p, |threads|);
  }

  predicate Adding(t: Thread) {
    t.StoreAdd?
  }

  predicate Subtracting(t: Thread) {
    t.ConsumeSub? || t.SweepSub?
  }

  predicate Inserting(t: Thread) {
    t.StoreInsert?
  }

  /** A store between its check and its count. */
  predicate Storing(t: Thread) {
    t.StoreInsert? || t.StoreAdd?
  }

  // ----- The law of the counter -----

  /** The counter is the number of entries, less the stores not yet counted, plus
      the removals not yet uncounted, less the blind deletes. */
  predicate Law(w: World) {
    w.count == |w.entries| - Count(w.threads, Adding) + Count(w.threads, Subtracting) - w.blind
  }

  function One(b: bool): int {
    if b then 1 else 0
  }

  /** One operation moves the counter as far as the other terms of the law. */
  lemma OperateBalances(w: World, t: Thread, key: string, maxPend: int)
    ensures var (v, u) := Operate(w, t, key, maxPend);
            v.count - w.count
              == (|v.entries| - |w.entries|) - (One(Adding(u)) - One(Adding(t)))
                 + (One(Subtracting(u)) - One(Subtracting(t))) - (v.blind - w.blind)
  {
    RemovedSize(w.entries, if t.ConsumeLoad? then t.state else if t.SweepDelete? then t.key else "");
  }

  lemma RemovedSize(m: map<string, int>, key: string)
    ensures |m - {key}| == |m| - One(key in m)
  {
    if key in m {
      assert m.Keys == (m - {key}).Keys + {key};
      assert |m.Keys| == |(m - {key}).Keys| + 1;
    } else {
      assert m - {key} == m;
    }
  }

  lemma StepKeepsLaw(w: World, step: Step, maxPend: int)
    requires Law(w)
    ensures Law(Apply(w, step, maxPend))
  {
    match step
    case Spawn(t) =>
      CountSpawned(w.threads, Adding, t);
      CountSpawned(w.threads, Subtracting, t);
    case Run(i, key) =>
      if i < |w.threads| {
        var t := Operate(w, w.threads[i], key, maxPend).1;
        OperateBalances(w, w.threads[i], key, maxPend);
        CountChanged(w.threads, Adding, i, t, |w.threads|);
        CountChanged(w.threads, Subtracting, i, t, |w.threads|);
      }
  }

  lemma {:induction false} LawHolds(steps: seq<Step>, maxPend: int, n: nat)
    requires n <= |steps|
    ensures Law(RunTo(steps, maxPend, n))
  {
    if n > 0 {
      LawHolds(steps, maxPend, n - 1);
      StepKeepsLaw(RunTo(steps, maxPend, n - 1), steps[n - 1], maxPend);
    }
  }

  predicate Idle(w: World) {
    forall i | 0 <= i < |w.threads| :: !Adding(w.threads[i]) && !Subtracting(w.threads[i])
  }

  lemma {:induction false} NoneCounted(threads: seq<Thread>, p: Thread -> bool, n: nat)
    requires n <= |threads| && forall i | 0 <= i < n :: !p(threads[i])
    ensures CountTo(threads, p, n) == 0
  {
    if n > 0 {
      NoneCounted(threads, p, n - 1);
    }
  }

  /** When nobody is between two operations, the counter is exact if and only if no
      sweeper ever deleted a key that was already gone. */
  lemma ExactWhenIdle(steps: seq<Step>, maxPend: int)
    requires Idle(RunTo(steps, maxPend, |steps|))
    ensures var w := RunTo(steps, maxPend, |steps|);
            (w.count == |w.entries| <==> w.blind == 0) && w.count <= |w.entries|
  {
    var w := RunTo(steps, maxPend, |steps|);
    LawHolds(steps, maxPend, |steps|);
    NoneCounted(w.threads, Adding, |w.threads|);
    NoneCounted(w.threads, Subtracting, |w.threads|);
  }

  // ----- The bound -----

  /** Entries and the stores about to insert. */
  predicate Bounded(w: World, maxPend: int, k: int) {
    |w.entries| + Count(w.threads, Inserting) <= maxPend + k - 1 + w.blind
  }

  lemma {:induction false} StoringSplits(threads: seq<Thread>, n: nat)
    requires n <= |threads|
    ensures CountTo(threads, Storing, n) == CountTo(threads, Inserting, n) + CountTo(threads, Adding, n)
  {
    if n > 0 {
      StoringSplits(threads, n - 1);
    }
  }

  lemma StepKeepsBound(w: World, step: Step, maxPend: int, k: int)
    requires Law(w) && Bounded(w, maxPend, k)
    requires Count(Apply(w, step, maxPend).threads, Storing) <= k
    ensures Bounded(Apply(w, step, maxPend), maxPend, k)
  {
    match step
    case Spawn(t) => CountSpawned(w.threads, Inserting, t);
    case Run(i, key) =>
      if i < |w.threads| {
        var after := Apply(w, step, maxPend);
        var t := Operate(w, w.threads[i], key, maxPend).1;
        CountChanged(w.threads, Inserting, i, t, |w.threads|);
        CountChanged(w.threads, Adding, i, t, |w.threads|);
        StoringSplits(after.threads, |after.threads|);
      }
  }

  /** With at most k stores at a time between check and count, entries never exceed
      maxPend + k - 1, but for one more with each blind delete. */
  lemma {:induction false} EntriesBounded(steps: seq<Step>, maxPend: nat, k: nat, n: nat)
    requires n <= |steps| && k > 0
    requires forall i | 0 <= i <= n :: Count(RunTo(steps, maxPend, i).threads, Storing) <= k
    ensures Bounded(RunTo(steps, maxPend, n), maxPend, k)
  {
    if n > 0 {
      EntriesBounded(steps, maxPend, k, n - 1);
      LawHolds(steps, maxPend, n - 1);
      StepKeepsBound(RunTo(steps, maxPend, n - 1), steps[n - 1], maxPend, k);
    }
  }

  // ----- A blind delete -----

  /** A consumer and the sweeper take the same expired entry. */
  const RACE: seq<Step> := [
    Spawn(StoreCheck("s", 10)), Run(0, ""), Run(0, ""), Run(0, ""),
    Spawn(SweepRead(11)), Run(1, "s"),
    Spawn(ConsumeLoad("s")), Run(2, ""), Run(2, ""),
    Run(1, ""), Run(1, "")]

  lemma RunStep(steps: seq<Step>, maxPend: int, n: nat)
    requires n < |steps|
    ensures RunTo(steps, maxPend, n + 1) == Apply(RunTo(steps, maxPend, n), steps[n], maxPend)
  {
  }

  lemma RaceStored(maxPend: int)
    requires maxPend > 0
    ensures RunTo(RACE, maxPend, 4) == World(map["s" := 10], 1, [Finished], 0)
  {
    RunStep(RACE, maxPend, 0);
    RunStep(RACE, maxPend, 1);
    RunStep(RACE, maxPend, 2);
    assert RunTo(RACE, maxPend, 3) == World(map["s" := 10], 0, [StoreAdd], 0);
    RunStep(RACE, maxPend, 3);
  }

  lemma RaceConsumed(maxPend: int)
    requires maxPend > 0
    ensures RunTo(RACE, maxPend, 9) == World(map[], 0, [Finished, SweepDelete(11, "s"), Finished], 0)
  {
    RaceStored(maxPend);
    RunStep(RACE, maxPend, 4);
    RunStep(RACE, maxPend, 5);
    assert RunTo(RACE, maxPend, 6) == World(map["s" := 10], 1, [Finished, SweepDelete(11, "s")], 0);
    RunStep(RACE, maxPend, 6);
    RunStep(RACE, maxPend, 7);
    assert RunTo(RACE, maxPend, 8) == World(map[], 1, [Finished, SweepDelete(11, "s"), ConsumeSub], 0);
    RunStep(RACE, maxPend, 8);
  }

  /** The removal is uncounted twice: with no entry left the counter stands at -1. */
  lemma RaceMiscounts(maxPend: int)
    requires maxPend > 0
    ensures RunTo(RACE, maxPend, |RACE|) == World(map[], -1, [Finished, SweepRead(11), Finished], 1)
  {
    RaceConsumed(maxPend);
    RunStep(RACE, maxPend, 9);
    assert RunTo(RACE, maxPend, 10) == World(map[], 0, [Finished, SweepSub(11), Finished], 1);
    RunStep(RACE, maxPend, 10);
  }
}
