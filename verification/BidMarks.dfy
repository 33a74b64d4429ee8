/**
 Mutual exclusion of the bid sections. Between setting a job's in-flight mark and deleting
 it there is at most one flow, although the lock may admit several: the duplicate checks
 and the mark are one step. The outer error handler is the only step that can break this,
 and only for the job whose mark it strikes, so everything here speaks of one job `j`.
 */
module BidMarks {
  import opened AgentState
  import opened BidSystem
  import opened BidQueueSafety

  predicate Marked(pc: Pc) {
    pc == Preparing || pc == InQueue || pc.Settled? || pc == PublishingBid || pc == Reporting
  }

  predicate Holds(flows: seq<Flow>, j: JobKey, f: nat) {
    f < |flows| && flows[f].job == j && Marked(flows[f].pc)
  }

  /** At most one flow is inside the bid section of the job. */
  ghost predicate OneHolder(flows: seq<Flow>, j: JobKey) {
    forall f, g :: Holds(flows, j, f) && Holds(flows, j, g) ==> f == g
  }

  /** The job is marked exactly while a flow holds it. */
  ghost predicate MarksInv(flows: seq<Flow>, inFlight: set<JobKey>, j: JobKey) {
    OneHolder(flows, j) && (j in inFlight <==> exists f :: Holds(flows, j, f))
  }

  ghost predicate MarksOf(s: State, j: JobKey) {
    MarksInv(s.flows, s.jobs.inFlight, j)
  }

  /** If this step is a firing of the error handler for the job, the job is not held. */
  predicate Harmless(s: State, step: Step, j: JobKey) {
    step.OuterHandler? && step.f < |s.flows| && s.flows[step.f].job == j ==> j !in s.jobs.inFlight
  }

  predicate HarmlessRun(s: State, steps: seq<Step>, j: JobKey)
    requires Valid(s, steps)
    decreases |steps|
  {
    steps == [] || (Harmless(s, steps[0], j) && HarmlessRun(Apply(s, steps[0]), steps[1..], j))
  }

  /** A flow moves: it keeps, sets or deletes the mark of its own job. */
  lemma MovedKeepsMarks(flows: seq<Flow>, before: set<JobKey>, f: nat, pc: Pc, after: set<JobKey>, j: JobKey)
    requires MarksInv(flows, before, j) && f < |flows|
    requires var k := flows[f].job;
             || ((Marked(flows[f].pc) <==> Marked(pc)) && (j in after <==> j in before))
             || (!Marked(flows[f].pc) && Marked(pc) && k !in before && after == before + {k})
             || (Marked(flows[f].pc) && !Marked(pc) && after == before - {k})
    ensures MarksInv(flows[f := flows[f].(pc := pc)], after, j)
  {
    var moved := flows[f := flows[f].(pc := pc)];
    assert forall g :: g != f ==> (Holds(moved, j, g) <==> Holds(flows, j, g));
    assert Holds(moved, j, f) <==> flows[f].job == j && Marked(pc);
    assert Holds(flows, j, f) <==> flows[f].job == j && Marked(flows[f].pc);
  }

  lemma InvitedKeepsMarks(flows: seq<Flow>, inFlight: set<JobKey>, flow: Flow, j: JobKey)
    requires MarksInv(flows, inFlight, j) && flow.pc == AtLock
    ensures MarksInv(flows + [flow], inFlight, j)
  {
    assert forall g :: Holds(flows + [flow], j, g) <==> Holds(flows, j, g);
  }

  lemma SettleKeepsMarks(s: State, d: nat, result: BidResult, j: JobKey)
    requires QueueInv(s) && MarksOf(s, j) && d < |s.drains| && s.drains[d].flow < |s.flows|
    ensures MarksOf(Settle(s, d, result), j)
  {
    CurrentIsOutstanding(s);
    MovedKeepsMarks(s.flows, s.jobs.inFlight, s.drains[d].flow, Settled(result), s.jobs.inFlight, j);
  }

  predicate OfFlow(step: Step) {
    step.SkipDuplicate? || step.SkipByPolicy? || step.SkipPublished? || step.MarkInFlight? || step.PrepareStops?
    || step.PrepareThrows? || step.Enqueue? || step.Resume? || step.BidPublished? || step.BidPublishThrows?
    || step.Reported? || step.OuterHandler?
  }

  /** What the step of flow `f` from `s` to `t` does: it moves that flow only, takes it into the
      bid section only if it `marks`, and settles nothing as sent. */
  ghost predicate MovesOnly(s: State, t: State, f: nat, marks: bool) {
    && f < |s.flows| && |t.flows| == |s.flows|
    && t.flows == s.flows[f := s.flows[f].(pc := t.flows[f].pc)]
    && t.flows[f].pc != Settled(Sent)
    && (Marked(t.flows[f].pc) ==> marks || Marked(s.flows[f].pc))
  }

  lemma OutsideStepMoves(s: State, step: Step)
    requires Enabled(s, step)
    requires step.SkipDuplicate? || step.SkipByPolicy? || step.SkipPublished? || step.MarkInFlight?
               || step.OuterHandler?
    ensures MovesOnly(s, Apply(s, step), step.f, step.MarkInFlight?) && Apply(s, step).drains == s.drains
  {
  }

  lemma PreparingStepMoves(s: State, step: Step)
    requires Enabled(s, step) && (step.PrepareStops? || step.PrepareThrows? || step.Reported?)
    ensures MovesOnly(s, Apply(s, step), step.f, false) && Apply(s, step).drains == s.drains
  {
  }

  lemma ResultStepMoves(s: State, step: Step)
    requires Enabled(s, step) && (step.Resume? || step.BidPublished? || step.BidPublishThrows?)
    ensures MovesOnly(s, Apply(s, step), step.f, false) && Apply(s, step).drains == s.drains
  {
  }

  lemma EnqueueMoves(s: State, f: nat)
    requires Enabled(s, Enqueue(f))
    ensures MovesOnly(s, Apply(s, Enqueue(f)), f, false)
  {
  }

  lemma FlowStepMoves(s: State, step: Step)
    requires Enabled(s, step) && OfFlow(step)
    ensures MovesOnly(s, Apply(s, step), step.f, step.MarkInFlight?)
    ensures !step.Enqueue? ==> Apply(s, step).drains == s.drains
  {
    if step.PrepareStops? || step.PrepareThrows? || step.Reported? {
      PreparingStepMoves(s, step);
    } else if step.Resume? || step.BidPublished? || step.BidPublishThrows? {
      ResultStepMoves(s, step);
    } else if step.Enqueue? {
      EnqueueMoves(s, step.f);
    } else {
      OutsideStepMoves(s, step);
    }
  }

  lemma FlowStepKeepsMarks(s: State, step: Step, j: JobKey)
    requires MarksOf(s, j) && Enabled(s, step) && Harmless(s, step, j) && OfFlow(step)
    ensures MarksOf(Apply(s, step), j)
  {
    var t := Apply(s, step);
    MovedKeepsMarks(s.flows, s.jobs.inFlight, step.f, t.flows[step.f].pc, t.jobs.inFlight, j);
  }

  lemma StepKeepsMarks(s: State, step: Step, j: JobKey)
    requires QueueInv(s) && MarksOf(s, j) && Enabled(s, step) && Harmless(s, step, j)
    ensures MarksOf(Apply(s, step), j)
  {
    if OfFlow(step) {
      FlowStepKeepsMarks(s, step, j);
    } else if step.Invite? {
      InvitedKeepsMarks(s.flows, s.jobs.inFlight, Flow(step.job, step.info, AtLock), j);
    } else if step.DropPublished? {
      SettleKeepsMarks(s, step.d, NothingSent, j);
    } else if step.DrainThrows? {
      SettleKeepsMarks(s, step.d, Rejected(step.duplicate), j);
    } else if step.ExecuteEnds? {
      SettleKeepsMarks(s, step.d, step.result, j);
    } else if step.BidRead? && step.answer {
      SettleKeepsMarks(s, step.d, AlreadyOnChain, j);
    }
  }

  lemma {:induction false} RunKeepsMarks(s: State, steps: seq<Step>, j: JobKey)
    requires QueueInv(s) && MarksOf(s, j) && Valid(s, steps) && HarmlessRun(s, steps, j)
    ensures QueueInv(Run(s, steps)) && MarksOf(Run(s, steps), j)
    decreases |steps|
  {
    if steps == [] {
    } else {
      StepKeepsMarks(s, steps[0], j);
      StepKeepsQueue(s, steps[0]);
      RunKeepsMarks(Apply(s, steps[0]), steps[1..], j);
    }
  }

  /** For every interleaving in which the error handler does not strike the job while it is
      held, at most one flow is between setting the job's mark and deleting it, and the job
      is marked exactly while there is one. Handlers may strike other jobs at will. */
  lemma OneFlowPerJob(steps: seq<Step>, j: JobKey)
    requires Valid(INIT, steps) && HarmlessRun(INIT, steps, j)
    ensures OneHolder(Run(INIT, steps).flows, j)
    ensures j in Run(INIT, steps).jobs.inFlight <==> exists f :: Holds(Run(INIT, steps).flows, j, f)
  {
    RunKeepsMarks(INIT, steps, j);
  }

  predicate NoHandlerStep(steps: seq<Step>) {
    forall i | 0 <= i < |steps| :: !steps[i].OuterHandler?
  }

  lemma {:induction false} NoHandlerIsHarmless(s: State, steps: seq<Step>, j: JobKey)
    requires Valid(s, steps) && NoHandlerStep(steps)
    ensures HarmlessRun(s, steps, j)
    decreases |steps|
  {
    if steps == [] {
    } else {
      assert !steps[0].OuterHandler?;
      assert forall i | 0 <= i < |steps[1..]| :: steps[1..][i] == steps[i + 1];
      NoHandlerIsHarmless(Apply(s, steps[0]), steps[1..], j);
    }
  }

  // ---- Exclusion along a run ----

  /** The job has at most one holder in every state of the run until it is accepted. */
  ghost predicate ExclusiveUntilAccepted(s: State, steps: seq<Step>, j: JobKey)
    requires Valid(s, steps)
    decreases |steps|
  {
    j in s.accepted ||
    (OneHolder(s.flows, j) && (steps == [] || ExclusiveUntilAccepted(Apply(s, steps[0]), steps[1..], j)))
  }

  /** Until the job is accepted, the error handler does not strike it while it is held. */
  predicate HarmlessUntilAccepted(s: State, steps: seq<Step>, j: JobKey)
    requires Valid(s, steps)
    decreases |steps|
  {
    steps == [] || j in s.accepted ||
    (Harmless(s, steps[0], j) && HarmlessUntilAccepted(Apply(s, steps[0]), steps[1..], j))
  }

  lemma {:induction false} HarmlessIsExclusive(s: State, steps: seq<Step>, j: JobKey)
    requires QueueInv(s) && MarksOf(s, j) && Valid(s, steps) && HarmlessUntilAccepted(s, steps, j)
    ensures ExclusiveUntilAccepted(s, steps, j)
    ensures QueueInv(Run(s, steps))
    ensures j !in Run(s, steps).accepted ==> MarksOf(Run(s, steps), j)
    decreases |steps|
  {
    if j in s.accepted {
      RunKeepsQueue(s, steps);
      RunKeepsAccepted(s, steps, j);
    } else if steps == [] {
    } else {
      StepKeepsMarks(s, steps[0], j);
      StepKeepsQueue(s, steps[0]);
      HarmlessIsExclusive(Apply(s, steps[0]), steps[1..], j);
    }
  }

  lemma {:induction false} RunKeepsAccepted(s: State, steps: seq<Step>, j: JobKey)
    requires j in s.accepted && Valid(s, steps)
    ensures j in Run(s, steps).accepted
    decreases |steps|
  {
    if steps == [] {
    } else {
      RunKeepsAccepted(Apply(s, steps[0]), steps[1..], j);
    }
  }

  lemma {:induction false} HarmlessIsHarmlessUntilAccepted(s: State, steps: seq<Step>, j: JobKey)
    requires Valid(s, steps) && HarmlessRun(s, steps, j)
    ensures HarmlessUntilAccepted(s, steps, j)
    decreases |steps|
  {
    if steps == [] {
    } else {
      HarmlessIsHarmlessUntilAccepted(Apply(s, steps[0]), steps[1..], j);
    }
  }
}
