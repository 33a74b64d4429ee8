/**
 The bid queue over every run, error handler included: one drainer, no lost wakeup, tasks
 dequeued in the order they were enqueued, and every dequeued task settled exactly once.
 */
module BidQueueSafety {
  import opened AgentState
  import opened BidSystem
  import opened Wrappers

  /** The flag is up exactly while a drain is active; without one there is nothing to drain. */
  predicate SingleDrainer(s: State) {
    && |s.drains| <= 1
    && (s.queue.inFlight <==> |s.drains| == 1)
    && (s.queue.tasks != [] ==> s.queue.inFlight)
  }

  function Current(s: State): seq<nat> {
    if |s.drains| == 1 then [s.drains[0].flow] else []
  }

  /** The history splits into settled tasks, the one in hand, and the ones still queued. */
  predicate InOrder(s: State) {
    && s.dequeued == s.settled + Current(s)
    && s.enqueued == s.dequeued + s.queue.tasks
  }

  predicate Placed(s: State, f: nat)
    requires f < |s.flows|
  {
    var pc := s.flows[f].pc;
    && (pc == AtLock || pc == Preparing ==> f !in s.enqueued)
    && (pc == InQueue <==> f in s.enqueued && f !in s.settled)
  }

  ghost predicate QueueInv(s: State) {
    && SingleDrainer(s)
    && InOrder(s)
    && Distinct(s.enqueued)
    && (forall f | f in s.enqueued :: f < |s.flows|)
    && (forall f | 0 <= f < |s.flows| :: Placed(s, f))
  }

  predicate OffQueue(pc: Pc) {
    pc != AtLock && pc != Preparing && pc != InQueue
  }

  lemma CurrentIsOutstanding(s: State)
    requires QueueInv(s) && |s.drains| == 1
    ensures var f := s.drains[0].flow;
            f in s.enqueued && f !in s.settled && f < |s.flows| && s.flows[f].pc == InQueue
  {
    var f := s.drains[0].flow;
    var n := |s.settled|;
    assert s.dequeued[n] == f && s.enqueued[n] == f;
    assert f in s.enqueued;
    assert forall i | 0 <= i < n :: s.settled[i] == s.enqueued[i];
    assert Placed(s, f);
  }

  lemma GotoKeepsQueue(s: State, t: State, f: nat, pc: Pc)
    requires QueueInv(s) && f < |s.flows| && s.flows[f].pc != InQueue
    requires OffQueue(pc) || (s.flows[f].pc == AtLock && pc == Preparing)
    requires t.flows == Goto(s, f, pc).flows
    requires (t.queue, t.drains, t.enqueued, t.dequeued, t.settled)
               == (s.queue, s.drains, s.enqueued, s.dequeued, s.settled)
    ensures QueueInv(t)
  {
    forall g | 0 <= g < |t.flows|
      ensures Placed(t, g)
    {
      assert Placed(s, g);
    }
  }

  lemma SettleKeepsQueue(s: State, d: nat, result: BidResult)
    requires QueueInv(s) && d < |s.drains| && s.drains[d].flow < |s.flows|
    ensures QueueInv(Settle(s, d, result))
  {
    CurrentIsOutstanding(s);
    var f := s.drains[d].flow;
    var t := Settle(s, d, result);
    assert t.settled == s.dequeued;
    assert s.queue.tasks != [] ==> s.queue.tasks == [s.queue.tasks[0]] + s.queue.tasks[1..];
    assert t.enqueued == t.dequeued + t.queue.tasks;
    assert t.dequeued == t.settled + Current(t);
    forall g | 0 <= g < |t.flows|
      ensures Placed(t, g)
    {
      assert Placed(s, g);
      assert g in t.settled <==> g in s.settled || g == f;
    }
  }

  lemma EnqueueKeepsQueue(s: State, f: nat)
    requires QueueInv(s) && Enabled(s, Enqueue(f))
    ensures QueueInv(Apply(s, Enqueue(f)))
  {
    var t := Apply(s, Enqueue(f));
    assert Placed(s, f);
    assert t.enqueued == t.dequeued + t.queue.tasks;
    assert t.dequeued == t.settled + Current(t);
    forall g | 0 <= g < |t.flows|
      ensures Placed(t, g)
    {
      assert Placed(s, g);
      assert g in t.enqueued <==> g in s.enqueued || g == f;
      assert f !in s.settled by {
        assert forall i | 0 <= i < |s.settled| :: s.settled[i] == s.enqueued[i];
      }
    }
  }

  lemma InviteKeepsQueue(s: State, job: JobKey, info: PendingJob)
    requires QueueInv(s)
    ensures QueueInv(Apply(s, Invite(job, info)))
  {
    var t := Apply(s, Invite(job, info));
    forall g | 0 <= g < |t.flows|
      ensures Placed(t, g)
    {
      assert g < |s.flows| ==> Placed(s, g);
    }
  }

  /** The parts the queue does not look at may change. */
  lemma SameQueueParts(s: State, t: State)
    requires QueueInv(s)
    requires (t.flows, t.queue, t.enqueued, t.dequeued, t.settled)
               == (s.flows, s.queue, s.enqueued, s.dequeued, s.settled)
    requires |t.drains| == |s.drains| && forall d | 0 <= d < |s.drains| :: t.drains[d].flow == s.drains[d].flow
    ensures QueueInv(t)
  {
    forall g | 0 <= g < |t.flows|
      ensures Placed(t, g)
    {
      assert Placed(s, g);
    }
  }

  lemma FlowStepKeepsQueue(s: State, step: Step)
    requires QueueInv(s) && Enabled(s, step)
    requires step.SkipDuplicate? || step.SkipByPolicy? || step.SkipPublished? || step.MarkInFlight?
    ensures QueueInv(Apply(s, step))
  {
    GotoKeepsQueue(s, Apply(s, step), step.f, Apply(s, step).flows[step.f].pc);
  }

  lemma MarkedStepKeepsQueue(s: State, step: Step)
    requires QueueInv(s) && Enabled(s, step)
    requires step.PrepareStops? || step.PrepareThrows? || step.Reported? || step.OuterHandler?
    ensures QueueInv(Apply(s, step))
  {
    GotoKeepsQueue(s, Apply(s, step), step.f, Apply(s, step).flows[step.f].pc);
  }

  lemma ResumeKeepsQueue(s: State, f: nat)
    requires QueueInv(s) && Enabled(s, Resume(f))
    ensures QueueInv(Apply(s, Resume(f)))
  {
    var t := Apply(s, Resume(f));
    assert OffQueue(t.flows[f].pc);
    GotoKeepsQueue(s, t, f, t.flows[f].pc);
  }

  lemma PublishStepKeepsQueue(s: State, step: Step)
    requires QueueInv(s) && Enabled(s, step) && (step.BidPublished? || step.BidPublishThrows?)
    ensures QueueInv(Apply(s, step))
  {
    GotoKeepsQueue(s, Apply(s, step), step.f, Apply(s, step).flows[step.f].pc);
  }

  lemma DrainStepKeepsQueue(s: State, step: Step)
    requires QueueInv(s) && Enabled(s, step)
    requires step.WindowOpen? || step.WindowClosed? || step.SubmitCall? || (step.BidRead? && !step.answer)
    ensures QueueInv(Apply(s, step))
  {
    SameQueueParts(s, Apply(s, step));
  }

  lemma EventKeepsQueue(s: State, step: Step)
    requires QueueInv(s) && Enabled(s, step)
    requires step.DeliverWinner? || step.DeliverCancelled? || step.CompetitorBid? || step.ChainAccepts?
    ensures QueueInv(Apply(s, step))
  {
    SameQueueParts(s, Apply(s, step));
  }

  lemma StepKeepsQueue(s: State, step: Step)
    requires QueueInv(s) && Enabled(s, step)
    ensures QueueInv(Apply(s, step))
  {
    match step
    case Invite(j, info) => InviteKeepsQueue(s, j, info);
    case SkipDuplicate(_) => FlowStepKeepsQueue(s, step);
    case SkipByPolicy(_) => FlowStepKeepsQueue(s, step);
    case SkipPublished(_, _) => FlowStepKeepsQueue(s, step);
    case MarkInFlight(_) => FlowStepKeepsQueue(s, step);
    case PrepareStops(_) => MarkedStepKeepsQueue(s, step);
    case PrepareThrows(_, _) => MarkedStepKeepsQueue(s, step);
    case Reported(_, _) => MarkedStepKeepsQueue(s, step);
    case OuterHandler(_) => MarkedStepKeepsQueue(s, step);
    case Resume(f) => ResumeKeepsQueue(s, f);
    case BidPublished(_) => PublishStepKeepsQueue(s, step);
    case BidPublishThrows(_, _) => PublishStepKeepsQueue(s, step);
    case Enqueue(f) => EnqueueKeepsQueue(s, f);
    case WindowOpen(_) => DrainStepKeepsQueue(s, step);
    case WindowClosed(_) => DrainStepKeepsQueue(s, step);
    case SubmitCall(_) => DrainStepKeepsQueue(s, step);
    case BidRead(d, answer) =>
      if answer {
        SettleKeepsQueue(s, d, AlreadyOnChain);
      } else {
        DrainStepKeepsQueue(s, step);
      }
    case DropPublished(d) => SettleKeepsQueue(s, d, NothingSent);
    case DrainThrows(d, duplicate) => SettleKeepsQueue(s, d, Rejected(duplicate));
    case ExecuteEnds(d, result) => SettleKeepsQueue(s, d, result);
    case DeliverWinner(_, _) => EventKeepsQueue(s, step);
    case DeliverCancelled(_) => EventKeepsQueue(s, step);
    case CompetitorBid(_, _) => EventKeepsQueue(s, step);
    case ChainAccepts(_) => EventKeepsQueue(s, step);
  }

  lemma {:induction false} RunKeepsQueue(s: State, steps: seq<Step>)
    requires QueueInv(s) && Valid(s, steps)
    ensures QueueInv(Run(s, steps))
    decreases |steps|
  {
    if steps == [] {
    } else {
      StepKeepsQueue(s, steps[0]);
      RunKeepsQueue(Apply(s, steps[0]), steps[1..]);
    }
  }

  // ---- Progress ----

  predicate OfDrain(step: Step) {
    step.WindowOpen? || step.WindowClosed? || step.DropPublished? || step.BidRead? || step.DrainThrows?
    || step.SubmitCall? || step.ExecuteEnds?
  }

  /** How many more steps the task in hand can take. */
  function Rank(at: DrainPc): nat {
    match at
    case ReadingWindow => 6
    case ReadingBid(_) => 5
    case Bidding(submits) => if submits < 3 then 4 - submits else 1
    case PublishingDrop => 1
  }

  /** How many drain steps are left if nothing more is enqueued. */
  function Work(s: State): nat {
    7 * |s.queue.tasks| + if |s.drains| == 1 then Rank(s.drains[0].at) else 0
  }

  lemma SettleProgress(s: State, d: nat, result: BidResult)
    requires QueueInv(s) && d < |s.drains| && s.drains[d].flow < |s.flows|
    ensures Work(Settle(s, d, result)) < Work(s)
  {
  }

  lemma DrainProgress(s: State, step: Step)
    requires QueueInv(s) && Enabled(s, step) && OfDrain(step)
    ensures Work(Apply(s, step)) < Work(s)
  {
    if step.DropPublished? {
      SettleProgress(s, step.d, NothingSent);
    } else if step.DrainThrows? {
      SettleProgress(s, step.d, Rejected(step.duplicate));
    } else if step.ExecuteEnds? {
      SettleProgress(s, step.d, step.result);
    } else if step.BidRead? && step.answer {
      SettleProgress(s, step.d, AlreadyOnChain);
    }
  }

  /** Every drain step is progress, and only an enqueue makes new work. */
  lemma StepProgress(s: State, step: Step)
    requires QueueInv(s) && Enabled(s, step)
    ensures OfDrain(step) ==> Work(Apply(s, step)) < Work(s)
    ensures step.Enqueue? ==> Work(Apply(s, step)) <= Work(s) + 7
    ensures !OfDrain(step) && !step.Enqueue? ==> Work(Apply(s, step)) == Work(s)
  {
    if OfDrain(step) {
      DrainProgress(s, step);
    } else if !step.Enqueue? {
      assert Apply(s, step).queue == s.queue && Apply(s, step).drains == s.drains;
    }
  }

  function DrainSteps(steps: seq<Step>): nat {
    if steps == [] then 0 else (if OfDrain(steps[0]) then 1 else 0) + DrainSteps(steps[1..])
  }

  function Enqueues(steps: seq<Step>): nat {
    if steps == [] then 0 else (if steps[0].Enqueue? then 1 else 0) + Enqueues(steps[1..])
  }

  /** No run takes more than seven drain steps per enqueued task: a drain never spins. */
  lemma {:induction false} DrainStepsAreBounded(s: State, steps: seq<Step>)
    requires QueueInv(s) && Valid(s, steps)
    ensures Work(Run(s, steps)) + DrainSteps(steps) <= Work(s) + 7 * Enqueues(steps)
    decreases |steps|
  {
    if steps == [] {
    } else {
      StepProgress(s, steps[0]);
      StepKeepsQueue(s, steps[0]);
      DrainStepsAreBounded(Apply(s, steps[0]), steps[1..]);
    }
  }

  /** A drain step towards the end of the task in hand. */
  lemma DrainGoesOn(s: State) returns (step: Step)
    requires QueueInv(s) && s.drains != []
    ensures Enabled(s, step) && QueueInv(Apply(s, step))
    ensures Apply(s, step).enqueued == s.enqueued && Work(Apply(s, step)) < Work(s)
  {
    CurrentIsOutstanding(s);
    step := match s.drains[0].at
      case ReadingWindow => WindowClosed(0)
      case PublishingDrop => DropPublished(0)
      case ReadingBid(_) => DrainThrows(0, false)
      case Bidding(_) => ExecuteEnds(0, NothingSent);
    StepKeepsQueue(s, step);
    StepProgress(s, step);
  }

  /** By drain steps alone the queue can be emptied, with every task in it settled. */
  lemma {:induction false} QueueCanEmpty(s: State) returns (steps: seq<Step>)
    requires QueueInv(s)
    ensures Valid(s, steps)
    ensures var t := Run(s, steps);
            && t.queue == EMPTY_QUEUE && t.drains == [] && t.settled == t.enqueued == s.enqueued
    decreases Work(s)
  {
    if s.drains == [] {
      steps := [];
    } else {
      var step := DrainGoesOn(s);
      var rest := QueueCanEmpty(Apply(s, step));
      steps := [step] + rest;
      assert steps[1..] == rest;
    }
  }

  // ---- The theorems, for every run from the start ----

  /** The answer the drain is waiting for arrives, without an error. */
  predicate MovesOn(step: Step) {
    step.WindowOpen? || step.DropPublished? || step.BidRead? || step.ExecuteEnds?
  }

  /** No lost wakeup: whenever a task is queued a drain is active and its next step is
      enabled; and never are two drains active, so no two `execute` overlap. */
  lemma NoLostWakeup(steps: seq<Step>)
    requires Valid(INIT, steps)
    ensures var s := Run(INIT, steps);
            && (s.queue.tasks != [] ==> |s.drains| == 1)
            && |s.drains| <= 1
            && (|s.drains| == 1 ==>
                  exists step :: Enabled(s, step) && MovesOn(step))
  {
    RunKeepsQueue(INIT, steps);
    var s := Run(INIT, steps);
    if |s.drains| == 1 {
      CurrentIsOutstanding(s);
      var step := match s.drains[0].at
        case ReadingWindow => WindowOpen(0)
        case PublishingDrop => DropPublished(0)
        case ReadingBid(_) => BidRead(0, s.drains[0].at.seenAtCall)
        case Bidding(_) => ExecuteEnds(0, NothingSent);
      assert Enabled(s, step);
    }
  }

  /** Tasks leave the queue in the order they entered it; every dequeued task but the one
      in hand has been settled, in that order, and no task is settled twice. */
  lemma SettledOnceInOrder(steps: seq<Step>)
    requires Valid(INIT, steps)
    ensures var s := Run(INIT, steps);
            && s.dequeued <= s.enqueued
            && s.settled <= s.dequeued <= s.settled + Current(s)
            && Distinct(s.settled)
            && forall f | 0 <= f < |s.flows| :: (s.flows[f].pc == InQueue <==> f in s.enqueued && f !in s.settled)
  {
    RunKeepsQueue(INIT, steps);
    var s := Run(INIT, steps);
    assert forall i | 0 <= i < |s.settled| :: s.settled[i] == s.enqueued[i];
    forall f | 0 <= f < |s.flows|
      ensures s.flows[f].pc == InQueue <==> f in s.enqueued && f !in s.settled
    {
      assert Placed(s, f);
    }
  }

  /** Liveness, over every run: at most seven drain steps are taken per enqueued task, so the
      drainer gets through whatever was enqueued; and from every reachable state there is a
      way on after which the queue is empty and every enqueued task is settled. */
  lemma EveryTaskCanSettle(steps: seq<Step>) returns (more: seq<Step>)
    requires Valid(INIT, steps)
    ensures DrainSteps(steps) <= 7 * Enqueues(steps)
    ensures Valid(Run(INIT, steps), more)
    ensures var t := Run(Run(INIT, steps), more);
            && t.queue == EMPTY_QUEUE && t.drains == []
            && t.settled == t.enqueued == Run(INIT, steps).enqueued
  {
    RunKeepsQueue(INIT, steps);
    DrainStepsAreBounded(INIT, steps);
    more := QueueCanEmpty(Run(INIT, steps));
  }
}
