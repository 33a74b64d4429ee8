/**
 The agent together with its job lock: a flow arrives at the lock when it is invited, may
 pass only when the lock admits it, and leaves when its guarded function ends. Runs of this
 product are runs of the agent in which the lock is really used. It also says when the lock
 makes up for a deleted mark.
 */
module LockedBids {
  import opened AgentState
  import opened BidSystem
  import opened BidQueueSafety
  import opened BidMarks
  import L = JobLock

  datatype World = World(agent: State, lock: L.State)

  const START := World(INIT, L.FRESH)

  // ---- What a step of the agent means for the lock ----

  datatype Move = Stay | Arrives(key: JobKey) | Enters(id: nat) | Passes(id: nat) | Leaves(id: nat)

  /** Flows and callers of the lock are numbered alike. A skipped duplicate enters and leaves
      in one go; the `finally` block of the lock runs when the guarded function ends. */
  function MoveOf(s: State, step: Step): Move
    requires Enabled(s, step)
  {
    match step
    case Invite(j, _) => Arrives(j)
    case SkipDuplicate(f) => Passes(f)
    case SkipByPolicy(f) => Enters(f)
    case MarkInFlight(f) => Enters(f)
    case SkipPublished(f, _) => Leaves(f)
    case PrepareStops(f) => Leaves(f)
    case BidPublished(f) => Leaves(f)
    case Reported(f, _) => Leaves(f)
    case Resume(f) =>
      if s.flows[f].pc.result.AlreadyOnChain? || s.flows[f].pc.result.NothingSent? then Leaves(f) else Stay
    case _ => Stay
  }

  predicate Admits(lock: L.State, move: Move) {
    match move
    case Stay => true
    case Arrives(_) => true
    case Enters(c) => L.Enabled(lock, L.Enter(c))
    case Passes(c) => L.Enabled(lock, L.Enter(c))
    case Leaves(c) => L.Enabled(lock, L.Leave(c))
  }

  function Moved(lock: L.State, move: Move): L.State
    requires Admits(lock, move)
  {
    match move
    case Stay => lock
    case Arrives(k) => L.Apply(lock, L.Step.Arrive(k))
    case Enters(c) => L.Apply(lock, L.Enter(c))
    case Passes(c) => L.Apply(L.Apply(lock, L.Enter(c)), L.Leave(c))
    case Leaves(c) => L.Apply(lock, L.Leave(c))
  }

  function LockSteps(move: Move): seq<L.Step> {
    match move
    case Stay => []
    case Arrives(k) => [L.Step.Arrive(k)]
    case Enters(c) => [L.Enter(c)]
    case Passes(c) => [L.Enter(c), L.Leave(c)]
    case Leaves(c) => [L.Leave(c)]
  }

  // ---- Runs of the product ----

  predicate Allowed(w: World, step: Step) {
    Enabled(w.agent, step) && Admits(w.lock, MoveOf(w.agent, step))
  }

  function After(w: World, step: Step): World
    requires Allowed(w, step)
  {
    World(Apply(w.agent, step), Moved(w.lock, MoveOf(w.agent, step)))
  }

  predicate ValidIn(w: World, steps: seq<Step>)
    decreases |steps|
  {
    steps == [] || (Allowed(w, steps[0]) && ValidIn(After(w, steps[0]), steps[1..]))
  }

  function RunIn(w: World, steps: seq<Step>): World
    requires ValidIn(w, steps)
    decreases |steps|
  {
    if steps == [] then w else RunIn(After(w, steps[0]), steps[1..])
  }

  /** The arrivals, entries and leaves of a run. */
  function LockTrace(w: World, steps: seq<Step>): seq<L.Step>
    requires ValidIn(w, steps)
    decreases |steps|
  {
    if steps == [] then []
    else LockSteps(MoveOf(w.agent, steps[0])) + LockTrace(After(w, steps[0]), steps[1..])
  }

  lemma MoveIsRun(lock: L.State, move: Move)
    requires Admits(lock, move)
    ensures L.Valid(lock, LockSteps(move)) && L.Run(lock, LockSteps(move)) == Moved(lock, move)
  {
    if move.Passes? {
      var inside := L.Apply(lock, L.Enter(move.id));
      L.RunCons(inside, L.Leave(move.id), []);
      L.RunCons(lock, L.Enter(move.id), [L.Leave(move.id)] + []);
      assert LockSteps(move) == [L.Enter(move.id)] + ([L.Leave(move.id)] + []);
    }
  }

  /** A run of the product is a run of the agent, and its lock trace is a run of the lock. */
  lemma {:induction false} ProjectsOnBoth(w: World, steps: seq<Step>)
    requires ValidIn(w, steps)
    ensures Valid(w.agent, steps) && Run(w.agent, steps) == RunIn(w, steps).agent
    ensures L.Valid(w.lock, LockTrace(w, steps)) && L.Run(w.lock, LockTrace(w, steps)) == RunIn(w, steps).lock
    decreases |steps|
  {
    if steps == [] {
    } else {
      var move := MoveOf(w.agent, steps[0]);
      ProjectsOnBoth(After(w, steps[0]), steps[1..]);
      MoveIsRun(w.lock, move);
      L.RunConcat(w.lock, LockSteps(move), LockTrace(After(w, steps[0]), steps[1..]));
    }
  }

  // ---- Flows and callers agree ----

  function PhaseOf(pc: Pc): L.Phase {
    match pc
    case AtLock => L.Waiting
    case Failed => L.Done
    case Finished => L.Done
    case _ => L.Running
  }

  ghost predicate Coupled(w: World) {
    && |w.lock.callers| == |w.agent.flows|
    && forall f | 0 <= f < |w.agent.flows| ::
         w.lock.callers[f].key == w.agent.flows[f].job && w.lock.callers[f].phase == PhaseOf(w.agent.flows[f].pc)
  }

  ghost predicate Ready(w: World) {
    QueueInv(w.agent) && Coupled(w) && L.WellFormed(w.lock) && L.OneWaiterEach(w.lock)
  }

  lemma MoveKeepsOneWaiterEach(lock: L.State, move: Move)
    requires L.WellFormed(lock) && L.OneWaiterEach(lock) && Admits(lock, move)
    ensures L.OneWaiterEach(Moved(lock, move))
  {
    if move.Arrives? {
      L.StepKeepsOneWaiterEach(lock, L.Step.Arrive(move.key));
    } else {
      assert forall c | 0 <= c < |lock.callers| :: Moved(lock, move).callers[c].prev == lock.callers[c].prev;
    }
  }

  lemma MoveKeepsWellFormed(lock: L.State, move: Move)
    requires L.WellFormed(lock) && Admits(lock, move)
    ensures L.WellFormed(Moved(lock, move))
  {
    match move
    case Stay =>
    case Arrives(k) => L.StepKeepsWellFormed(lock, L.Step.Arrive(k));
    case Enters(c) => L.StepKeepsWellFormed(lock, L.Enter(c));
    case Passes(c) =>
      L.StepKeepsWellFormed(lock, L.Enter(c));
      L.StepKeepsWellFormed(L.Apply(lock, L.Enter(c)), L.Leave(c));
    case Leaves(c) => L.StepKeepsWellFormed(lock, L.Leave(c));
  }

  lemma MovedKeepsCoupled(w: World, t: World, f: nat, pc: Pc)
    requires Coupled(w) && f < |w.agent.flows|
    requires t.agent.flows == w.agent.flows[f := w.agent.flows[f].(pc := pc)]
    requires t.lock.callers == w.lock.callers[f := w.lock.callers[f].(phase := PhaseOf(pc))]
    ensures Coupled(t)
  {
  }

  lemma EntryKeepsCoupled(w: World, step: Step)
    requires Coupled(w) && Allowed(w, step) && (step.SkipDuplicate? || step.SkipByPolicy? || step.MarkInFlight?)
    ensures Coupled(After(w, step))
  {
    MovedKeepsCoupled(w, After(w, step), step.f, After(w, step).agent.flows[step.f].pc);
  }

  lemma LeaveKeepsCoupled(w: World, step: Step)
    requires Coupled(w) && Allowed(w, step)
    requires step.SkipPublished? || step.PrepareStops? || step.BidPublished? || step.Reported?
    ensures Coupled(After(w, step))
  {
    MovedKeepsCoupled(w, After(w, step), step.f, After(w, step).agent.flows[step.f].pc);
  }

  lemma StayKeepsCoupled(w: World, step: Step)
    requires Coupled(w) && Allowed(w, step)
    requires step.PrepareThrows? || step.Enqueue? || step.BidPublishThrows? || step.OuterHandler?
    ensures Coupled(After(w, step))
  {
    assert w.lock.callers[step.f].phase == PhaseOf(w.agent.flows[step.f].pc);
    MovedKeepsCoupled(w, After(w, step), step.f, After(w, step).agent.flows[step.f].pc);
  }

  lemma ResumeKeepsCoupled(w: World, f: nat)
    requires Coupled(w) && Allowed(w, Resume(f))
    ensures Coupled(After(w, Resume(f)))
  {
    assert w.lock.callers[f].phase == PhaseOf(w.agent.flows[f].pc);
    MovedKeepsCoupled(w, After(w, Resume(f)), f, After(w, Resume(f)).agent.flows[f].pc);
  }

  lemma FlowStepKeepsCoupled(w: World, step: Step)
    requires Coupled(w) && Allowed(w, step) && OfFlow(step)
    ensures Coupled(After(w, step))
  {
    if step.SkipDuplicate? || step.SkipByPolicy? || step.MarkInFlight? {
      EntryKeepsCoupled(w, step);
    } else if step.Resume? {
      ResumeKeepsCoupled(w, step.f);
    } else if step.SkipPublished? || step.PrepareStops? || step.BidPublished? || step.Reported? {
      LeaveKeepsCoupled(w, step);
    } else {
      StayKeepsCoupled(w, step);
    }
  }

  lemma SettleKeepsCoupled(w: World, d: nat, result: BidResult)
    requires QueueInv(w.agent) && Coupled(w) && d < |w.agent.drains| && w.agent.drains[d].flow < |w.agent.flows|
    ensures Coupled(World(Settle(w.agent, d, result), w.lock))
  {
    CurrentIsOutstanding(w.agent);
  }

  lemma StepKeepsCoupled(w: World, step: Step)
    requires QueueInv(w.agent) && Coupled(w) && Allowed(w, step)
    ensures Coupled(After(w, step))
  {
    if OfFlow(step) {
      FlowStepKeepsCoupled(w, step);
    } else if step.DropPublished? {
      SettleKeepsCoupled(w, step.d, NothingSent);
    } else if step.DrainThrows? {
      SettleKeepsCoupled(w, step.d, Rejected(step.duplicate));
    } else if step.ExecuteEnds? {
      SettleKeepsCoupled(w, step.d, step.result);
    } else if step.BidRead? && step.answer {
      SettleKeepsCoupled(w, step.d, AlreadyOnChain);
    }
  }

  lemma StepKeepsReady(w: World, step: Step)
    requires Ready(w) && Allowed(w, step)
    ensures Ready(After(w, step))
  {
    StepKeepsQueue(w.agent, step);
    StepKeepsCoupled(w, step);
    MoveKeepsWellFormed(w.lock, MoveOf(w.agent, step));
    MoveKeepsOneWaiterEach(w.lock, MoveOf(w.agent, step));
  }

  lemma {:induction false} RunKeepsReady(w: World, steps: seq<Step>)
    requires Ready(w) && ValidIn(w, steps)
    ensures Ready(RunIn(w, steps))
    decreases |steps|
  {
    if steps == [] {
    } else {
      StepKeepsReady(w, steps[0]);
      RunKeepsReady(After(w, steps[0]), steps[1..]);
    }
  }

  /** The lock never holds up a flow that is inside: only entering can be refused. */
  lemma OnlyEntryIsRefused(w: World, step: Step)
    requires Ready(w) && Enabled(w.agent, step)
    requires !step.SkipDuplicate? && !step.SkipByPolicy? && !step.MarkInFlight?
    ensures Allowed(w, step)
  {
  }

  // ---- When the lock makes up for a deleted mark ----

  /** One caller is inside, the entry is in the map, and whoever waits waits for a live one. */
  ghost predicate Guarded(lock: L.State, j: JobKey) {
    && j in lock.locks
    && L.Exclusive(lock, j)
    && forall c | 0 <= c < |lock.callers| && L.LiveOn(lock, j, c) && lock.callers[c].phase == L.Waiting ::
         lock.callers[c].prev.Some? && L.Live(lock, lock.callers[c].prev.value)
  }

  /** The job is protected by its mark, or its mark is gone but the lock guards it. */
  ghost predicate Shielded(w: World, j: JobKey) {
    Ready(w) && (MarksOf(w.agent, j) || (j !in w.agent.jobs.inFlight && Guarded(w.lock, j)))
  }

  lemma GuardedIsExclusive(w: World, j: JobKey)
    requires Ready(w) && Guarded(w.lock, j)
    ensures OneHolder(w.agent.flows, j)
  {
    forall f, g | Holds(w.agent.flows, j, f) && Holds(w.agent.flows, j, g)
      ensures f == g
    {
      assert L.RunningOn(w.lock, j, f) && L.RunningOn(w.lock, j, g);
    }
  }


  lemma ArrivalKeepsGuard(lock: L.State, k: JobKey, j: JobKey)
    requires L.WellFormed(lock) && Guarded(lock, j)
    ensures Guarded(L.Apply(lock, L.Step.Arrive(k)), j)
  {
    assert L.EntryIsLast(lock, j);
    var t := L.Apply(lock, L.Step.Arrive(k));
    forall c | 0 <= c < |t.callers| && L.LiveOn(t, j, c) && t.callers[c].phase == L.Waiting
      ensures t.callers[c].prev.Some? && L.Live(t, t.callers[c].prev.value)
    {
      assert c < |lock.callers| ==> L.LiveOn(lock, j, c);
    }
    forall c, d | 0 <= d < c < |t.callers| && L.RunningOn(t, j, c)
      ensures !L.RunningOn(t, j, d)
    {
      assert L.RunningOn(lock, j, c);
      assert !L.RunningOn(lock, j, d);
    }
  }

  /** Behind the guard nobody enters the job. */
  lemma EntryKeepsGuard(lock: L.State, c: nat, j: JobKey)
    requires L.WellFormed(lock) && Guarded(lock, j) && L.Enabled(lock, L.Enter(c))
    ensures lock.callers[c].key != j && Guarded(L.Apply(lock, L.Enter(c)), j)
  {
    assert lock.callers[c].key == j ==> L.LiveOn(lock, j, c);
    var t := L.Apply(lock, L.Enter(c));
    assert forall d :: L.LiveOn(t, j, d) <==> L.LiveOn(lock, j, d);
    assert forall d :: L.RunningOn(t, j, d) <==> L.RunningOn(lock, j, d);
  }

  /** A leaving caller lifts the guard only from its own job, and then nobody is inside. */
  lemma LeaveKeepsGuard(lock: L.State, c: nat, j: JobKey)
    requires L.WellFormed(lock) && Guarded(lock, j) && L.Enabled(lock, L.Leave(c))
    ensures lock.callers[c].key != j ==> Guarded(L.Apply(lock, L.Leave(c)), j)
    ensures lock.callers[c].key == j ==> forall d :: !L.RunningOn(L.Apply(lock, L.Leave(c)), j, d)
  {
    var t := L.Apply(lock, L.Leave(c));
    assert forall d :: L.RunningOn(t, j, d) ==> L.RunningOn(lock, j, d);
    if lock.callers[c].key == j {
      assert L.RunningOn(lock, j, c);
    } else {
      forall d | 0 <= d < |t.callers| && L.LiveOn(t, j, d) && t.callers[d].phase == L.Waiting
        ensures t.callers[d].prev.Some? && L.Live(t, t.callers[d].prev.value)
      {
        assert L.LiveOn(lock, j, d) && L.WaitsBack(lock, d);
      }
    }
  }

  lemma PassKeepsGuard(lock: L.State, c: nat, j: JobKey)
    requires L.WellFormed(lock) && Guarded(lock, j) && L.Enabled(lock, L.Enter(c))
    ensures Guarded(Moved(lock, Passes(c)), j)
  {
    EntryKeepsGuard(lock, c, j);
    L.StepKeepsWellFormed(lock, L.Enter(c));
    LeaveKeepsGuard(L.Apply(lock, L.Enter(c)), c, j);
  }

  lemma OnlyMarkingMarks(s: State, step: Step, j: JobKey)
    requires Enabled(s, step) && j !in s.jobs.inFlight && !(step.MarkInFlight? && s.flows[step.f].job == j)
    ensures j !in Apply(s, step).jobs.inFlight
  {
  }

  lemma MoveKeepsGuard(lock: L.State, move: Move, j: JobKey)
    requires L.WellFormed(lock) && Guarded(lock, j) && Admits(lock, move)
    ensures Guarded(Moved(lock, move), j) || forall d :: !L.RunningOn(Moved(lock, move), j, d)
    ensures move.Enters? ==> lock.callers[move.id].key != j
  {
    match move
    case Stay =>
    case Arrives(k) => ArrivalKeepsGuard(lock, k, j);
    case Enters(c) => EntryKeepsGuard(lock, c, j);
    case Passes(c) => PassKeepsGuard(lock, c, j);
    case Leaves(c) => LeaveKeepsGuard(lock, c, j);
  }

  lemma NobodyRunningIsUnheld(w: World, j: JobKey)
    requires Coupled(w) && forall d :: !L.RunningOn(w.lock, j, d)
    ensures forall f :: !Holds(w.agent.flows, j, f)
  {
    assert forall f :: Holds(w.agent.flows, j, f) ==> L.RunningOn(w.lock, j, f);
  }

  /** A step of the product while the lock guards the job: the guard stays, or the holder has
      left and the marks are exact again. Error handlers may fire. */
  lemma StepKeepsGuard(w: World, step: Step, j: JobKey)
    requires Ready(w) && j !in w.agent.jobs.inFlight && Guarded(w.lock, j) && Allowed(w, step)
    ensures Shielded(After(w, step), j)
  {
    var t := After(w, step);
    StepKeepsReady(w, step);
    MoveKeepsGuard(w.lock, MoveOf(w.agent, step), j);
    OnlyMarkingMarks(w.agent, step, j);
    if !Guarded(t.lock, j) {
      NobodyRunningIsUnheld(t, j);
    }
  }

  /** If this step is a firing of the error handler for the job, the job is not held, or the
      lock guards it. */
  ghost predicate HarmlessIn(w: World, step: Step, j: JobKey) {
    Harmless(w.agent, step, j) || Guarded(w.lock, j)
  }

  ghost predicate HarmlessRunIn(w: World, steps: seq<Step>, j: JobKey)
    requires ValidIn(w, steps)
    decreases |steps|
  {
    steps == [] || (HarmlessIn(w, steps[0], j) && HarmlessRunIn(After(w, steps[0]), steps[1..], j))
  }

  ghost predicate HarmlessInUntilAccepted(w: World, steps: seq<Step>, j: JobKey)
    requires ValidIn(w, steps)
    decreases |steps|
  {
    steps == [] || j in w.agent.accepted ||
    (HarmlessIn(w, steps[0], j) && HarmlessInUntilAccepted(After(w, steps[0]), steps[1..], j))
  }

  lemma StepKeepsShield(w: World, step: Step, j: JobKey)
    requires Shielded(w, j) && Allowed(w, step) && HarmlessIn(w, step, j)
    ensures Shielded(After(w, step), j)
  {
    if !MarksOf(w.agent, j) {
      StepKeepsGuard(w, step, j);
    } else if Harmless(w.agent, step, j) {
      StepKeepsReady(w, step);
      StepKeepsMarks(w.agent, step, j);
    } else {
      StepKeepsReady(w, step);
    }
  }

  lemma ShieldIsExclusive(w: World, j: JobKey)
    requires Shielded(w, j)
    ensures OneHolder(w.agent.flows, j)
  {
    if Guarded(w.lock, j) {
      GuardedIsExclusive(w, j);
    }
  }

  lemma {:induction false} RunKeepsShield(w: World, steps: seq<Step>, j: JobKey)
    requires Shielded(w, j) && ValidIn(w, steps) && HarmlessRunIn(w, steps, j)
    ensures Shielded(RunIn(w, steps), j)
    decreases |steps|
  {
    if steps == [] {
    } else {
      StepKeepsShield(w, steps[0], j);
      RunKeepsShield(After(w, steps[0]), steps[1..], j);
    }
  }

  /** A shielded job stays exclusive until it is accepted, if every firing of the error handler
      strikes it unheld or guarded. */
  lemma {:induction false} ShieldedUntilAccepted(w: World, steps: seq<Step>, j: JobKey)
    requires Ready(w) && (j in w.agent.accepted || Shielded(w, j))
    requires ValidIn(w, steps) && HarmlessInUntilAccepted(w, steps, j)
    ensures Valid(w.agent, steps) && ExclusiveUntilAccepted(w.agent, steps, j)
    ensures j in RunIn(w, steps).agent.accepted || Shielded(RunIn(w, steps), j)
    decreases |steps|
  {
    ProjectsOnBoth(w, steps);
    if j in w.agent.accepted {
      RunKeepsAccepted(w.agent, steps, j);
    } else if steps == [] {
      ShieldIsExclusive(w, j);
    } else {
      ShieldIsExclusive(w, j);
      StepKeepsShield(w, steps[0], j);
      ShieldedUntilAccepted(After(w, steps[0]), steps[1..], j);
    }
  }

  lemma {:induction false} NoHandlerIsHarmlessIn(w: World, steps: seq<Step>, j: JobKey)
    requires ValidIn(w, steps) && NoHandlerStep(steps)
    ensures HarmlessRunIn(w, steps, j) && HarmlessInUntilAccepted(w, steps, j)
    decreases |steps|
  {
    if steps == [] {
    } else {
      assert !steps[0].OuterHandler?;
      assert forall i | 0 <= i < |steps[1..]| :: steps[1..][i] == steps[i + 1];
      NoHandlerIsHarmlessIn(After(w, steps[0]), steps[1..], j);
    }
  }
}
