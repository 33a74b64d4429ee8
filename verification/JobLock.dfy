/**
 The per-job lock of the auditor agents: a map from job key to the promise of the
 last caller, on which the next caller waits. A caller is identified by its arrival
 number; its promise is resolved when the caller is `Done`.

 A step is the code between two awaits: arriving (read the map, store one's own
 promise), entering (the awaited promise is resolved, the guarded function starts),
 and leaving (resolve one's promise and delete the map entry, whoever owns it).
 */
module JobLock {
  import opened Wrappers

  type Key = string

  datatype Phase = Waiting | Running | Done

  datatype Caller = Caller(key: Key, prev: Option<nat>, phase: Phase)

  datatype State = State(callers: seq<Caller>, locks: map<Key, nat>)

  datatype Step = Arrive(key: Key) | Enter(id: nat) | Leave(id: nat)

  const FRESH := State([], map[])

  predicate Live(s: State, c: nat) {
    c < |s.callers| && s.callers[c].phase != Done
  }

  predicate LiveOn(s: State, k: Key, c: nat) {
    Live(s, c) && s.callers[c].key == k
  }

  predicate RunningOn(s: State, k: Key, c: nat) {
    LiveOn(s, k, c) && s.callers[c].phase == Running
  }

  ghost predicate Idle(s: State, k: Key) {
    forall c | 0 <= c < |s.callers| :: !LiveOn(s, k, c)
  }

  predicate Enabled(s: State, step: Step) {
    match step
    case Arrive(_) => true
    case Enter(c) =>
      && c < |s.callers| && s.callers[c].phase == Waiting
      && match s.callers[c].prev {
           case None => true
           case Some(p) => p < |s.callers| && s.callers[p].phase == Done
         }
    case Leave(c) => c < |s.callers| && s.callers[c].phase == Running
  }

  function Apply(s: State, step: Step): State
    requires Enabled(s, step)
  {
    match step
    case Arrive(k) =>
      var prev := if k in s.locks then Some(s.locks[k]) else None;
      State(s.callers + [Caller(k, prev, Waiting)], s.locks[k := |s.callers|])
    case Enter(c) => s.(callers := s.callers[c := s.callers[c].(phase := Running)])
    case Leave(c) =>
      State(s.callers[c := s.callers[c].(phase := Done)], s.locks - {s.callers[c].key})
  }

  /** `JobLockManager` itself: the map field and the callers' promises, updated in place. */
  class JobLockManager {
    var locks: map<Key, nat>
    var callers: seq<Caller>

    function View(): State
      reads this
    {
      State(callers, locks)
    }

    constructor ()
      ensures View() == FRESH
    {
      locks := map[];
      callers := [];
    }

    /** `withLock` up to its first await. */
    method Arrive(key: Key) returns (id: nat)
      modifies this
      ensures id == |old(callers)|
      ensures View() == Apply(old(View()), Step.Arrive(key))
    {
      var prev := None;
      if key in locks {
        prev := Some(locks[key]);
      }
      id := |callers|;
      callers := callers + [Caller(key, prev, Waiting)];
      locks := locks[key := id];
    }

    /** The continuation after `await prevLock`: the guarded function starts. */
    method Enter(id: nat)
      requires Enabled(View(), Step.Enter(id))
      modifies this`callers
      ensures View() == Apply(old(View()), Step.Enter(id))
    {
      callers := callers[id := callers[id].(phase := Running)];
    }

    /** The `finally` block: resolve the promise, delete the entry unconditionally. */
    method Leave(id: nat)
      requires Enabled(View(), Step.Leave(id))
      modifies this
      ensures View() == Apply(old(View()), Step.Leave(id))
    {
      var key := callers[id].key;
      callers := callers[id := callers[id].(phase := Done)];
      locks := locks - {key};
    }
  }

  // ---- Runs ----

  predicate Valid(s: State, steps: seq<Step>)
    decreases |steps|
  {
    steps == [] || (Enabled(s, steps[0]) && Valid(Apply(s, steps[0]), steps[1..]))
  }

  function Run(s: State, steps: seq<Step>): State
    requires Valid(s, steps)
    decreases |steps|
  {
    if steps == [] then s else Run(Apply(s, steps[0]), steps[1..])
  }

  lemma RunCons(s: State, step: Step, rest: seq<Step>)
    requires Enabled(s, step) && Valid(Apply(s, step), rest)
    ensures Valid(s, [step] + rest) && Run(s, [step] + rest) == Run(Apply(s, step), rest)
  {
    assert ([step] + rest)[1..] == rest;
  }

  lemma {:induction false} RunConcat(s: State, first: seq<Step>, second: seq<Step>)
    requires Valid(s, first) && Valid(Run(s, first), second)
    ensures Valid(s, first + second) && Run(s, first + second) == Run(Run(s, first), second)
    decreases |first|
  {
    if first == [] {
      assert first + second == second;
    } else {
      assert (first + second)[1..] == first[1..] + second;
      RunConcat(Apply(s, first[0]), first[1..], second);
    }
  }

  /** An arrival that finds no entry although an earlier caller on the key is still live. */
  ghost predicate Orphan(s: State, step: Step) {
    step.Arrive? && step.key !in s.locks && !Idle(s, step.key)
  }

  /** No arrival on `k` is an orphan; what happens on other keys does not matter. */
  ghost predicate NoOrphanOn(s: State, steps: seq<Step>, k: Key)
    requires Valid(s, steps)
    decreases |steps|
  {
    steps == [] ||
    (!(Orphan(s, steps[0]) && steps[0].key == k) && NoOrphanOn(Apply(s, steps[0]), steps[1..], k))
  }

  // ---- Every reachable state: waiting is acyclic and somebody can move ----

  /** A caller waits only on an earlier caller of its key, and enters only after it. */
  predicate WaitsBack(s: State, c: nat)
    requires c < |s.callers|
  {
    match s.callers[c].prev
    case None => true
    case Some(p) =>
      && p < c && s.callers[p].key == s.callers[c].key
      && (s.callers[c].phase != Waiting ==> s.callers[p].phase == Done)
  }

  /** An entry belongs to the last arrival on its key, and that caller is live. */
  ghost predicate EntryIsLast(s: State, k: Key)
    requires k in s.locks
  {
    LiveOn(s, k, s.locks[k]) && forall c | s.locks[k] < c < |s.callers| :: s.callers[c].key != k
  }

  ghost predicate WellFormed(s: State) {
    && (forall c | 0 <= c < |s.callers| :: WaitsBack(s, c))
    && (forall k | k in s.locks :: EntryIsLast(s, k))
  }

  lemma StepKeepsWellFormed(s: State, step: Step)
    requires WellFormed(s) && Enabled(s, step)
    ensures WellFormed(Apply(s, step))
  {
    var t := Apply(s, step);
    forall c | 0 <= c < |t.callers|
      ensures WaitsBack(t, c)
    {
      if c < |s.callers| {
        assert WaitsBack(s, c);
      } else if step.key in s.locks {
        assert EntryIsLast(s, step.key);
      }
    }
    forall k | k in t.locks
      ensures EntryIsLast(t, k)
    {
      assert k in s.locks ==> EntryIsLast(s, k);
    }
  }

  lemma {:induction false} WaitsOnEarlierCallers(s: State, steps: seq<Step>)
    requires WellFormed(s) && Valid(s, steps)
    ensures WellFormed(Run(s, steps))
    decreases |steps|
  {
    if steps == [] {
    } else {
      StepKeepsWellFormed(s, steps[0]);
      WaitsOnEarlierCallers(Apply(s, steps[0]), steps[1..]);
    }
  }

  /** No two callers wait on the same one. */
  predicate OneWaiterEach(s: State) {
    forall c, d | 0 <= c < d < |s.callers| && s.callers[c].prev.Some? :: s.callers[d].prev != s.callers[c].prev
  }

  lemma StepKeepsOneWaiterEach(s: State, step: Step)
    requires WellFormed(s) && OneWaiterEach(s) && Enabled(s, step)
    ensures OneWaiterEach(Apply(s, step))
  {
    if step.Arrive? && step.key in s.locks {
      assert EntryIsLast(s, step.key);
      forall c | 0 <= c < |s.callers|
        ensures s.callers[c].prev != Some(s.locks[step.key])
      {
        assert WaitsBack(s, c);
      }
    }
  }

  lemma {:induction false} WaitsAreUnshared(s: State, steps: seq<Step>)
    requires WellFormed(s) && OneWaiterEach(s) && Valid(s, steps)
    ensures OneWaiterEach(Run(s, steps))
    decreases |steps|
  {
    if steps == [] {
    } else {
      StepKeepsWellFormed(s, steps[0]);
      StepKeepsOneWaiterEach(s, steps[0]);
      WaitsAreUnshared(Apply(s, steps[0]), steps[1..]);
    }
  }

  /** No deadlock: as long as a caller is live, some live caller can take its step. */
  lemma {:induction false} SomeLiveCallerCanProceed(s: State, c: nat) returns (step: Step)
    requires WellFormed(s) && Live(s, c)
    ensures Enabled(s, step)
    ensures step.Enter? || step.Leave?
    ensures step.id <= c
    decreases c
  {
    assert WaitsBack(s, c);
    if s.callers[c].phase == Running {
      step := Leave(c);
    } else if s.callers[c].prev.Some? && s.callers[s.callers[c].prev.value].phase != Done {
      step := SomeLiveCallerCanProceed(s, s.callers[c].prev.value);
    } else {
      step := Enter(c);
    }
  }

  // ---- Exclusion and arrival order on a key, exactly when no arrival on it is an orphan ----

  /** On its key, behind a live caller one is waiting, on a caller that is not before it. */
  predicate Behind(s: State, k: Key, d: nat, c: nat)
    requires d < c < |s.callers|
  {
    s.callers[c].key == k && LiveOn(s, k, d) ==>
      && s.callers[c].phase == Waiting
      && s.callers[c].prev.Some?
      && d <= s.callers[c].prev.value
  }

  ghost predicate QueuedOn(s: State, k: Key) {
    forall d, c | 0 <= d < c < |s.callers| :: Behind(s, k, d, c)
  }

  /** At most one caller on the key is running. */
  ghost predicate Exclusive(s: State, k: Key) {
    forall c, d | 0 <= d < c < |s.callers| && RunningOn(s, k, c) :: !RunningOn(s, k, d)
  }

  /** A running caller is the earliest one of its key that is still live. */
  ghost predicate InArrivalOrder(s: State, k: Key) {
    forall c, d | 0 <= d < c < |s.callers| && RunningOn(s, k, c) :: !LiveOn(s, k, d)
  }

  lemma StepKeepsQueued(s: State, step: Step, k: Key)
    requires WellFormed(s) && QueuedOn(s, k) && Enabled(s, step)
    requires !(Orphan(s, step) && step.key == k)
    ensures QueuedOn(Apply(s, step), k)
  {
    var t := Apply(s, step);
    forall d, c | 0 <= d < c < |t.callers|
      ensures Behind(t, k, d, c)
    {
      if c == |s.callers| {
        assert step.key in s.locks ==> EntryIsLast(s, step.key);
        assert LiveOn(t, k, d) ==> LiveOn(s, k, d);
      } else {
        assert Behind(s, k, d, c);
        if step.Enter? && step.id == c && s.callers[c].prev.Some? {
          var p := s.callers[c].prev.value;
          assert WaitsBack(s, c);
          assert d < p ==> Behind(s, k, d, p);
        }
      }
    }
  }

  lemma {:induction false} RunKeepsQueued(s: State, steps: seq<Step>, k: Key)
    requires WellFormed(s) && QueuedOn(s, k) && Valid(s, steps) && NoOrphanOn(s, steps, k)
    ensures WellFormed(Run(s, steps)) && QueuedOn(Run(s, steps), k)
    decreases |steps|
  {
    if steps == [] {
    } else {
      StepKeepsQueued(s, steps[0], k);
      StepKeepsWellFormed(s, steps[0]);
      RunKeepsQueued(Apply(s, steps[0]), steps[1..], k);
    }
  }

  lemma QueuedIsOrdered(s: State, k: Key)
    requires QueuedOn(s, k)
    ensures Exclusive(s, k) && InArrivalOrder(s, k)
  {
    forall c, d | 0 <= d < c < |s.callers| && RunningOn(s, k, c)
      ensures !LiveOn(s, k, d)
    {
      assert Behind(s, k, d, c);
    }
  }

  /** Without an orphan arrival on a job, its guarded functions never overlap and run in
      arrival order, whatever happens on the locks of other jobs. */
  lemma ExclusiveInArrivalOrder(steps: seq<Step>, k: Key)
    requires Valid(FRESH, steps) && NoOrphanOn(FRESH, steps, k)
    ensures Exclusive(Run(FRESH, steps), k) && InArrivalOrder(Run(FRESH, steps), k)
  {
    RunKeepsQueued(FRESH, steps, k);
    QueuedIsOrdered(Run(FRESH, steps), k);
  }

  ghost predicate NoArrivalsOn(steps: seq<Step>, k: Key) {
    forall i | 0 <= i < |steps| :: steps[i] != Step.Arrive(k)
  }

  lemma {:induction false} NoArrivalsNoOrphan(s: State, steps: seq<Step>, k: Key)
    requires Valid(s, steps) && NoArrivalsOn(steps, k)
    ensures NoOrphanOn(s, steps, k)
    decreases |steps|
  {
    if steps == [] {
    } else {
      assert steps[0] != Step.Arrive(k);
      assert forall i | 0 <= i < |steps[1..]| :: steps[1..][i] == steps[i + 1];
      NoArrivalsNoOrphan(Apply(s, steps[0]), steps[1..], k);
    }
  }

  /** After an orphan arrival two callers can be inside the lock within two steps. */
  lemma OrphanArrivalOverlaps(s: State, k: Key) returns (steps: seq<Step>)
    requires WellFormed(s) && Orphan(s, Step.Arrive(k))
    ensures NoArrivalsOn(steps, k) && Valid(Apply(s, Step.Arrive(k)), steps)
    ensures !Exclusive(Run(Apply(s, Step.Arrive(k)), steps), k)
  {
    var t := Apply(s, Step.Arrive(k));
    var n := |s.callers|;
    var c: nat :| c < |s.callers| && LiveOn(s, k, c);
    var e := EarliestLiveUpTo(s, k, c);
    assert t.callers[e] == s.callers[e] && t.callers[n] == Caller(k, None, Waiting);
    var u := if s.callers[e].phase == Running then t else Apply(t, Enter(e));
    var v := Apply(u, Enter(n));
    assert RunningOn(v, k, e) && RunningOn(v, k, n);
    steps := [Enter(n)] + [];
    RunCons(u, Enter(n), []);
    if s.callers[e].phase != Running {
      RunCons(t, Enter(e), steps);
      steps := [Enter(e)] + steps;
    }
  }

  lemma {:induction false} EarliestLiveUpTo(s: State, k: Key, c: nat) returns (e: nat)
    requires WellFormed(s) && LiveOn(s, k, c)
    ensures LiveOn(s, k, e) && forall d | 0 <= d < e :: !LiveOn(s, k, d)
    ensures s.callers[e].phase == Waiting ==> Enabled(s, Enter(e))
    decreases c
  {
    if d :| 0 <= d < c && LiveOn(s, k, d) {
      e := EarliestLiveUpTo(s, k, d);
    } else {
      e := c;
      assert WaitsBack(s, e);
      if s.callers[e].prev.Some? {
        var p := s.callers[e].prev.value;
        assert !LiveOn(s, k, p);
      }
    }
  }

  /** Exactness. While no arrival on the job has been an orphan, the next one is harmless for
      mutual exclusion, whatever happens before another arrival on the job, if and only if
      the entry is still in the map or nobody on the key is live. */
  lemma ArrivalSafeIffEntryOrIdle(s: State, k: Key)
    requires WellFormed(s) && QueuedOn(s, k)
    ensures (k in s.locks || Idle(s, k)) <==>
            (forall steps | NoArrivalsOn(steps, k) && Valid(Apply(s, Step.Arrive(k)), steps) ::
               Exclusive(Run(Apply(s, Step.Arrive(k)), steps), k))
  {
    var t := Apply(s, Step.Arrive(k));
    if k in s.locks || Idle(s, k) {
      StepKeepsQueued(s, Step.Arrive(k), k);
      StepKeepsWellFormed(s, Step.Arrive(k));
      forall steps | NoArrivalsOn(steps, k) && Valid(t, steps)
        ensures Exclusive(Run(t, steps), k)
      {
        NoArrivalsNoOrphan(t, steps, k);
        RunKeepsQueued(t, steps, k);
        QueuedIsOrdered(Run(t, steps), k);
      }
    } else {
      var steps := OrphanArrivalOverlaps(s, k);
    }
  }

  // ---- Bursts ----

  /** All calls on the job arrive before the first release on the job. */
  ghost predicate BurstOn(s: State, steps: seq<Step>, k: Key)
    requires Valid(s, steps)
    decreases |steps|
  {
    steps == [] ||
    if steps[0].Leave? && s.callers[steps[0].id].key == k then NoArrivalsOn(steps[1..], k)
    else BurstOn(Apply(s, steps[0]), steps[1..], k)
  }

  lemma {:induction false} BurstHasNoOrphan(s: State, steps: seq<Step>, k: Key)
    requires Valid(s, steps) && BurstOn(s, steps, k)
    requires k in s.locks || Idle(s, k)
    ensures NoOrphanOn(s, steps, k)
    decreases |steps|
  {
    if steps == [] {
    } else {
      var t := Apply(s, steps[0]);
      if steps[0].Leave? && s.callers[steps[0].id].key == k {
        NoArrivalsNoOrphan(t, steps[1..], k);
      } else {
        assert k in s.locks ==> k in t.locks;
        assert forall c | 0 <= c < |s.callers| :: LiveOn(t, k, c) ==> LiveOn(s, k, c);
        BurstHasNoOrphan(t, steps[1..], k);
      }
    }
  }

  /** A burst of calls on one job runs one at a time, in arrival order, whatever is going on
      for other jobs. */
  lemma BurstRunsInOrder(steps: seq<Step>, k: Key)
    requires Valid(FRESH, steps) && BurstOn(FRESH, steps, k)
    ensures Exclusive(Run(FRESH, steps), k) && InArrivalOrder(Run(FRESH, steps), k)
  {
    BurstHasNoOrphan(FRESH, steps, k);
    ExclusiveInArrivalOrder(steps, k);
  }

  /** The burst condition is needed: B waits on A, A leaves and deletes B's entry, C arrives
      and waits on nobody, and B and C are inside together. */
  lemma ThirdCallerOverlaps(k: Key)
    ensures var steps := [Arrive(k), Arrive(k), Enter(0), Leave(0), Arrive(k), Enter(1), Enter(2)];
            Valid(FRESH, steps) && !Exclusive(Run(FRESH, steps), k)
  {
    var s1 := Apply(FRESH, Step.Arrive(k));
    var s2 := Apply(s1, Step.Arrive(k));
    var s3 := Apply(s2, Enter(0));
    var s4 := Apply(s3, Leave(0));
    var s5 := Apply(s4, Step.Arrive(k));
    var s6 := Apply(s5, Enter(1));
    var s7 := Apply(s6, Enter(2));
    RunCons(s6, Enter(2), []);
    RunCons(s5, Enter(1), [Enter(2)]);
    RunCons(s4, Step.Arrive(k), [Enter(1), Enter(2)]);
    RunCons(s3, Leave(0), [Step.Arrive(k), Enter(1), Enter(2)]);
    RunCons(s2, Enter(0), [Leave(0), Step.Arrive(k), Enter(1), Enter(2)]);
    RunCons(s1, Step.Arrive(k), [Enter(0), Leave(0), Step.Arrive(k), Enter(1), Enter(2)]);
    RunCons(FRESH, Step.Arrive(k), [Step.Arrive(k), Enter(0), Leave(0), Step.Arrive(k), Enter(1), Enter(2)]);
    assert [Step.Arrive(k)] + [Step.Arrive(k), Enter(0), Leave(0), Step.Arrive(k), Enter(1), Enter(2)]
        == [Step.Arrive(k), Step.Arrive(k), Enter(0), Leave(0), Step.Arrive(k), Enter(1), Enter(2)];
    assert RunningOn(s7, k, 1) && RunningOn(s7, k, 2);
  }
}
