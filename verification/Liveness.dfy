/**
 Nobody is stuck: from every reachable state of the agent with its lock, each flow that was
 ever invited can come to its end, whatever the error handler has done so far.
 */
module Liveness {
  import opened AgentState
  import opened BidSystem
  import opened BidQueueSafety
  import opened BidMarks
  import opened LockedBids
  import opened Wrappers
  import opened Paths

  predicate Ended(w: World, f: nat) {
    f < |w.agent.flows| && (w.agent.flows[f].pc == Failed || w.agent.flows[f].pc == Finished)
  }

  predicate Inside(pc: Pc) {
    pc == PublishingSkip || Marked(pc)
  }

  /** The queue runs empty, and a flow that awaited it goes on to report a failure. */
  lemma TaskCanSettle(w: World, f: nat) returns (steps: seq<Step>, t: World)
    requires Ready(w) && f < |w.agent.flows| && w.agent.flows[f].pc == InQueue
    ensures Path(w, steps, t) && InTurn(w, steps, t) && Ready(t)
    ensures f < |t.agent.flows| && t.agent.flows[f].pc == Reporting
  {
    steps, t := QueueEmpties(w, w.agent.flows[f].job);
    RunKeepsReady(w, steps);
    assert Placed(t.agent, f);
  }

  predicate MayLeave(pc: Pc) {
    pc == PublishingSkip || pc == Preparing || pc == PublishingBid || pc == Reporting
  }

  function LeavingStep(pc: Pc, f: nat): Step
    requires MayLeave(pc)
  {
    match pc
    case PublishingSkip => SkipPublished(f, true)
    case Preparing => PrepareStops(f)
    case PublishingBid => BidPublished(f)
    case Reporting => Reported(f, true)
  }

  /** The step by which a flow leaves, once its task is settled and recorded. */
  lemma LastStep(w: World, f: nat) returns (t: World, step: Step)
    requires Ready(w) && f < |w.agent.flows| && MayLeave(w.agent.flows[f].pc)
    ensures Path(w, [step], t) && Ready(t) && Ended(t, f)
    ensures Calm(w) ==> Prompt(w, [step]) && CalmBehind(t, f)
  {
    step := LeavingStep(w.agent.flows[f].pc, f);
    OnlyEntryIsRefused(w, step);
    t := After(w, step);
    OneStep(w, step);
    StepKeepsReady(w, step);
    if Calm(w) {
      LeaveIsCalm(w, t, f);
    }
  }

  /** Unless it leaves, a flow that resumes goes on to await something. */
  lemma SettledResumes(w: World, f: nat) returns (t: World)
    requires Ready(w) && f < |w.agent.flows| && w.agent.flows[f].pc.Settled?
    ensures Path(w, [Resume(f)], t) && Prompt(w, [Resume(f)]) && Ready(t) && f < |t.agent.flows|
    ensures t.agent.flows[f].pc == Finished || MayLeave(t.agent.flows[f].pc)
    ensures CalmBut(w, f) ==> if t.agent.flows[f].pc == Finished then CalmBehind(t, f) else Calm(t)
  {
    OnlyEntryIsRefused(w, Resume(f));
    t := After(w, Resume(f));
    OneStep(w, Resume(f));
    StepKeepsReady(w, Resume(f));
    if CalmBut(w, f) {
      if t.agent.flows[f].pc == Finished {
        LeaveIsCalm(w, t, f);
      } else {
        forall g | 0 <= g < |t.agent.flows|
          ensures !Urgent(t, g)
        {
          assert g != f ==> !Urgent(w, g);
        }
      }
    }
  }

  /** A flow whose task is settled goes on to its end. */
  lemma SettledCanEnd(w: World, f: nat) returns (steps: seq<Step>, t: World)
    requires Ready(w) && f < |w.agent.flows| && w.agent.flows[f].pc.Settled?
    ensures Path(w, steps, t) && Ready(t) && Ended(t, f)
    ensures CalmBut(w, f) ==> Prompt(w, steps) && CalmBehind(t, f)
  {
    var w1 := SettledResumes(w, f);
    if w1.agent.flows[f].pc == Finished {
      steps, t := [Resume(f)], w1;
    } else {
      var last;
      t, last := LastStep(w1, f);
      steps := Join(w, [Resume(f)], w1, [last], t, w.agent.flows[f].job);
    }
  }

  /** The lock holds up nobody who is inside: each such flow can leave. If nobody else is urgent, it
      can do so in the order of microtasks. */
  lemma InsideCanLeave(w: World, f: nat) returns (steps: seq<Step>, t: World)
    requires Ready(w) && f < |w.agent.flows| && Inside(w.agent.flows[f].pc)
    ensures Path(w, steps, t) && Ready(t) && Ended(t, f)
    ensures CalmBut(w, f) ==> Prompt(w, steps) && CalmBehind(t, f)
  {
    var pc := w.agent.flows[f].pc;
    var last;
    if pc.Settled? {
      steps, t := SettledCanEnd(w, f);
    } else if pc == InQueue {
      var w1: World;
      steps, w1 := TaskCanSettle(w, f);
      t, last := LastStep(w1, f);
      steps := Join(w, steps, w1, [last], t, w.agent.flows[f].job);
    } else {
      t, last := LastStep(w, f);
      steps := [last];
    }
  }

  lemma AdmittedEnters(w: World, f: nat) returns (step: Step, t: World)
    requires Ready(w) && f < |w.agent.flows| && w.agent.flows[f].pc == AtLock && L.Enabled(w.lock, L.Enter(f))
    ensures Path(w, [step], t) && Prompt(w, [step]) && Ready(t) && f < |t.agent.flows|
    ensures t.agent.flows[f].pc == Finished || t.agent.flows[f].pc == Preparing
    ensures CalmBut(w, f) ==> if t.agent.flows[f].pc == Finished then CalmBehind(t, f) else Calm(t)
  {
    step := if MayBid(w.agent.jobs, w.agent.flows[f].job) then MarkInFlight(f) else SkipDuplicate(f);
    t := After(w, step);
    OneStep(w, step);
    StepKeepsReady(w, step);
    if CalmBut(w, f) {
      if step.SkipDuplicate? {
        LeaveIsCalm(w, t, f);
      } else {
        forall g | 0 <= g < |t.agent.flows|
          ensures !Urgent(t, g)
        {
          assert g != f ==> !Urgent(w, g);
        }
      }
    }
  }

  /** A caller whose turn it is goes in, or passes as a duplicate, and ends. */
  lemma AdmittedCanEnd(w: World, f: nat) returns (steps: seq<Step>, t: World)
    requires Ready(w) && f < |w.agent.flows| && w.agent.flows[f].pc == AtLock && L.Enabled(w.lock, L.Enter(f))
    ensures Path(w, steps, t) && Ready(t) && Ended(t, f)
    ensures CalmBut(w, f) ==> Prompt(w, steps) && CalmBehind(t, f)
  {
    var step, w1 := AdmittedEnters(w, f);
    if w1.agent.flows[f].pc == Finished {
      steps, t := [step], w1;
    } else {
      var more;
      more, t := InsideCanLeave(w1, f);
      steps := Join(w, [step], w1, more, t, w.agent.flows[f].job);
    }
  }

  lemma MoveKeepsWhomCallersAwait(lock: L.State, move: Move)
    requires Admits(lock, move)
    ensures |lock.callers| <= |Moved(lock, move).callers|
    ensures forall c | 0 <= c < |lock.callers| :: Moved(lock, move).callers[c].prev == lock.callers[c].prev
  {
  }

  lemma {:induction false} RunKeepsWhomCallersAwait(w: World, steps: seq<Step>)
    requires ValidIn(w, steps)
    ensures |w.lock.callers| <= |RunIn(w, steps).lock.callers|
    ensures forall c | 0 <= c < |w.lock.callers| :: RunIn(w, steps).lock.callers[c].prev == w.lock.callers[c].prev
    decreases |steps|
  {
    if steps == [] {
    } else {
      MoveKeepsWhomCallersAwait(w.lock, MoveOf(w.agent, steps[0]));
      RunKeepsWhomCallersAwait(After(w, steps[0]), steps[1..]);
    }
  }

  /** A flow that is not waiting for another one can end. */
  lemma UnblockedCanEnd(w: World, f: nat) returns (steps: seq<Step>, t: World)
    requires Ready(w) && f < |w.agent.flows|
    requires var prev := w.lock.callers[f].prev; prev.Some? ==> Ended(w, prev.value)
    ensures Path(w, steps, t) && Ready(t) && Ended(t, f)
    ensures CalmBut(w, f) && w.agent.flows[f].pc != Failed ==> Prompt(w, steps) && CalmBehind(t, f)
  {
    if Ended(w, f) {
      steps, t := [], w;
    } else if w.agent.flows[f].pc == AtLock {
      steps, t := AdmittedCanEnd(w, f);
    } else {
      steps, t := InsideCanLeave(w, f);
    }
  }

  /** When the one it waited for has ended, nobody but the flow itself is urgent. */
  lemma NextInLine(w: World, p: nat, f: nat)
    requires Ready(w) && f < |w.agent.flows| && w.lock.callers[f].prev == Some(p) && CalmBehind(w, p)
    ensures CalmBut(w, f) && w.agent.flows[f].pc != Failed
  {
    assert w.agent.flows[f].pc == Failed ==> Urgent(w, f);
    assert w.lock.callers[f].phase == PhaseOf(w.agent.flows[f].pc);
  }

  /** By the order of arrival: first the one it waits for, then the flow itself. */
  lemma {:induction false} FlowCanEnd(w: World, f: nat) returns (steps: seq<Step>, t: World)
    requires Ready(w) && f < |w.agent.flows|
    ensures Path(w, steps, t) && Ready(t) && Ended(t, f)
    ensures Calm(w) ==> Prompt(w, steps) && CalmBehind(t, f)
    decreases f
  {
    assert L.WaitsBack(w.lock, f);
    if w.lock.callers[f].prev.None? {
      assert Calm(w) ==> !Urgent(w, f);
      steps, t := UnblockedCanEnd(w, f);
    } else {
      var p := w.lock.callers[f].prev.value;
      var w1: World, more: seq<Step>;
      steps, w1 := FlowCanEnd(w, p);
      RunKeepsWhomCallersAwait(w, steps);
      if CalmBehind(w1, p) {
        NextInLine(w1, p, f);
      }
      more, t := UnblockedCanEnd(w1, f);
      steps := Join(w, steps, w1, more, t, w.agent.flows[f].job);
    }
  }

  /** From every reachable state of the agent with its lock, handler firings included, every
      invited flow can come to its end without another firing; and if nothing is urgent in that
      state, with microtasks first. */
  lemma EveryFlowCanEnd(steps: seq<Step>, f: nat) returns (more: seq<Step>)
    requires ValidIn(START, steps) && f < |RunIn(START, steps).agent.flows|
    ensures ValidIn(RunIn(START, steps), more) && NoHandlerStep(more)
    ensures Calm(RunIn(START, steps)) ==> Prompt(RunIn(START, steps), more)
    ensures Ended(RunIn(RunIn(START, steps), more), f)
  {
    RunKeepsReady(START, steps);
    var t;
    more, t := FlowCanEnd(RunIn(START, steps), f);
  }
}
