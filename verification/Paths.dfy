/**
 Runs of the agent with its lock, put together from pieces, and those of them in which
 microtasks come first.
 */
module Paths {
  import opened AgentState
  import opened BidSystem
  import opened BidQueueSafety
  import opened BidMarks
  import opened LockedBids
  import opened Wrappers

  /** `steps` leads from `w` to `t` without a firing of the error handler. */
  ghost predicate Path(w: World, steps: seq<Step>, t: World) {
    ValidIn(w, steps) && RunIn(w, steps) == t && NoHandlerStep(steps)
  }

  /** The job is neither cancelled nor reported lost. */
  predicate NoClearing(steps: seq<Step>, j: JobKey) {
    forall i | 0 <= i < |steps| :: steps[i] != DeliverCancelled(j) && steps[i] != DeliverWinner(j, false)
  }

  predicate Recorded(s: State, j: JobKey) {
    j in s.jobs.submitted || j in s.jobs.pending
  }

  // ---- Microtasks first ----

  /** What JavaScript runs before anything else happens: a flow whose task has been settled
      resumes, a caller whose turn it is enters, an error reaches its handler. */
  predicate Urgent(w: World, f: nat) {
    && f < |w.agent.flows|
    && (|| w.agent.flows[f].pc.Settled?
        || w.agent.flows[f].pc == Failed
        || (w.agent.flows[f].pc == AtLock && L.Enabled(w.lock, L.Enter(f))))
  }

  predicate Calm(w: World) {
    forall f | 0 <= f < |w.agent.flows| :: !Urgent(w, f)
  }

  predicate Micro(step: Step) {
    step.Resume? || step.OuterHandler? || step.SkipDuplicate? || step.SkipByPolicy? || step.MarkInFlight?
  }

  predicate AllowedInOrder(w: World, step: Step) {
    Allowed(w, step) && (Calm(w) || Micro(step))
  }

  /** A run in which nothing else happens while something is urgent. */
  predicate Prompt(w: World, steps: seq<Step>) {
    Runs.Valid(AllowedInOrder, AfterIf, w, steps)
  }

  /** From a calm state the steps are prompt and lead to a calm state again. */
  predicate InTurn(w: World, steps: seq<Step>, t: World) {
    Calm(w) ==> Prompt(w, steps) && Calm(t)
  }

  // ---- Runs after runs ----

  /** The step if the product allows it. */
  function AfterIf(w: World, step: Step): World {
    if Allowed(w, step) then After(w, step) else w
  }

  lemma {:induction false} RunsOfProduct(w: World, steps: seq<Step>)
    ensures ValidIn(w, steps) <==> Runs.Valid(Allowed, AfterIf, w, steps)
    ensures ValidIn(w, steps) ==> RunIn(w, steps) == Runs.Run(AfterIf, w, steps)
    decreases |steps|
  {
    if steps == [] {
    } else {
      RunsOfProduct(AfterIf(w, steps[0]), steps[1..]);
    }
  }

  lemma RunInConcat(w: World, first: seq<Step>, second: seq<Step>)
    requires ValidIn(w, first) && ValidIn(RunIn(w, first), second)
    ensures ValidIn(w, first + second) && RunIn(w, first + second) == RunIn(RunIn(w, first), second)
  {
    Runs.Concat(Allowed, AfterIf, w, first, second);
    RunsOfProduct(w, first);
    RunsOfProduct(RunIn(w, first), second);
    RunsOfProduct(w, first + second);
  }

  lemma LockTraceUncons(w: World, steps: seq<Step>)
    requires steps != [] && ValidIn(w, steps)
    ensures LockTrace(w, steps) == LockSteps(MoveOf(w.agent, steps[0])) + LockTrace(After(w, steps[0]), steps[1..])
  {
  }

  lemma Regroup<T>(x: seq<T>, y: seq<T>, z: seq<T>, yz: seq<T>)
    requires yz == y + z
    ensures x + yz == (x + y) + z
  {
  }

  lemma {:induction false} LockTraceConcat(w: World, first: seq<Step>, second: seq<Step>)
    requires ValidIn(w, first) && ValidIn(RunIn(w, first), second) && ValidIn(w, first + second)
    ensures LockTrace(w, first + second) == LockTrace(w, first) + LockTrace(RunIn(w, first), second)
    decreases |first|
  {
    if first == [] {
      assert first + second == second;
    } else {
      var t := After(w, first[0]);
      assert (first + second)[1..] == first[1..] + second;
      LockTraceConcat(t, first[1..], second);
      LockTraceUncons(w, first);
      LockTraceUncons(w, first + second);
      Regroup(LockSteps(MoveOf(w.agent, first[0])), LockTrace(t, first[1..]), LockTrace(RunIn(w, first), second),
              LockTrace(t, first[1..] + second));
    }
  }

  lemma PlainConcat(first: seq<Step>, second: seq<Step>, j: JobKey)
    requires NoHandlerStep(first) && NoHandlerStep(second)
    ensures NoHandlerStep(first + second)
    ensures NoClearing(first, j) && NoClearing(second, j) ==> NoClearing(first + second, j)
  {
  }

  lemma PromptConcat(w: World, first: seq<Step>, t: World, second: seq<Step>)
    requires ValidIn(w, first) && RunIn(w, first) == t
    ensures Prompt(w, first) && Prompt(t, second) ==> Prompt(w, first + second)
  {
    RunsOfProduct(w, first);
    Runs.Concat(AllowedInOrder, AfterIf, w, first, second);
  }

  /** One path after another, keeping note of whether they clear `j`. */
  lemma Chain(w: World, first: seq<Step>, t: World, second: seq<Step>, u: World, j: JobKey) returns (steps: seq<Step>)
    requires Path(w, first, t) && Path(t, second, u)
    ensures Path(w, steps, u) && steps == first + second
    ensures NoClearing(first, j) && NoClearing(second, j) ==> NoClearing(steps, j)
  {
    steps := first + second;
    RunInConcat(w, first, second);
    PlainConcat(first, second, j);
  }

  /** The same, and prompt runs are put together to prompt ones. */
  lemma Join(w: World, first: seq<Step>, t: World, second: seq<Step>, u: World, j: JobKey) returns (steps: seq<Step>)
    requires Path(w, first, t) && Path(t, second, u)
    ensures Path(w, steps, u)
    ensures NoClearing(first, j) && NoClearing(second, j) ==> NoClearing(steps, j)
    ensures Prompt(w, first) && Prompt(t, second) ==> Prompt(w, steps)
    ensures InTurn(w, first, t) && InTurn(t, second, u) ==> InTurn(w, steps, u)
  {
    steps := Chain(w, first, t, second, u, j);
    PromptConcat(w, first, t, second);
  }

  lemma OnePromptStep(w: World, step: Step)
    requires AllowedInOrder(w, step)
    ensures Prompt(w, [step])
  {
    assert [step][1..] == [];
  }

  lemma OneStep(w: World, step: Step)
    requires Allowed(w, step) && !step.OuterHandler?
    ensures Path(w, [step], After(w, step))
    ensures Calm(w) || Micro(step) ==> Prompt(w, [step])
  {
    assert [step][1..] == [];
  }

  lemma NoStep(w: World)
    ensures Path(w, [], w) && Prompt(w, [])
  {
  }

  /** Without a change at the lock, flows that go on to await something do not disturb the calm. */
  lemma StaysCalm(w: World, t: World)
    requires Calm(w) && t.lock == w.lock && |t.agent.flows| == |w.agent.flows|
    requires forall f | 0 <= f < |t.agent.flows| ::
               t.agent.flows[f].pc == w.agent.flows[f].pc ||
               t.agent.flows[f].pc in {Preparing, InQueue, PublishingBid, Reporting}
    ensures Calm(t)
  {
    forall f | 0 <= f < |t.agent.flows|
      ensures !Urgent(t, f)
    {
      assert !Urgent(w, f);
    }
  }

  /** A step after which every flow awaits something, as before. */
  lemma QuietStep(w: World, step: Step)
    requires Allowed(w, step) && !step.OuterHandler? && After(w, step).lock == w.lock
    requires |After(w, step).agent.flows| == |w.agent.flows|
    requires forall f | 0 <= f < |w.agent.flows| ::
               After(w, step).agent.flows[f].pc == w.agent.flows[f].pc ||
               After(w, step).agent.flows[f].pc in {Preparing, InQueue, PublishingBid, Reporting}
    ensures Path(w, [step], After(w, step)) && InTurn(w, [step], After(w, step))
  {
    OneStep(w, step);
    if Calm(w) {
      StaysCalm(w, After(w, step));
    }
  }

  predicate WaitsFor(w: World, c: nat, f: nat) {
    c < |w.lock.callers| && w.lock.callers[c].phase == L.Waiting && w.lock.callers[c].prev == Some(f)
  }

  predicate FlowAt(w: World, f: nat, j: JobKey, pc: Pc) {
    f < |w.agent.flows| && w.agent.flows[f].job == j && w.agent.flows[f].pc == pc
  }

  predicate QueueIdle(w: World) {
    w.agent.queue == EMPTY_QUEUE && w.agent.drains == []
  }

  // ---- Who is urgent next ----

  predicate DoneWith(w: World, x: nat, j: JobKey) {
    && x < |w.agent.flows| && x < |w.lock.callers|
    && w.agent.flows[x].job == j && w.lock.callers[x].phase == L.Done
  }

  /** Nobody but `c` may be urgent. */
  ghost predicate CalmBut(w: World, c: nat) {
    forall f: nat | Urgent(w, f) :: f == c
  }

  /** Nobody is urgent but a caller that waited for `g`. */
  ghost predicate CalmBehind(w: World, g: nat) {
    forall f: nat | Urgent(w, f) :: WaitsFor(w, f, g)
  }

  lemma WaiterIsOfTheJob(w: World, c: nat, f: nat)
    requires Ready(w) && f < |w.agent.flows| && WaitsFor(w, c, f)
    ensures f < c && FlowAt(w, c, w.agent.flows[f].job, AtLock)
  {
    assert L.WaitsBack(w.lock, c);
    assert PhaseOf(w.agent.flows[c].pc) == L.Waiting;
  }

  /** Whoever waited for `g` is alone in that. */
  lemma NextIsAlone(w: World, g: nat, c: nat)
    requires L.OneWaiterEach(w.lock) && WaitsFor(w, c, g) && CalmBehind(w, g)
    ensures CalmBut(w, c)
  {
  }

  /** The leave of `h` makes urgent only who waited for it. */
  lemma LeaveIsCalm(w: World, t: World, h: nat)
    requires CalmBut(w, h) && h < |w.agent.flows| && h < |w.lock.callers|
    requires t.agent.flows == w.agent.flows[h := w.agent.flows[h].(pc := Finished)]
    requires t.lock.callers == w.lock.callers[h := w.lock.callers[h].(phase := L.Done)]
    ensures CalmBehind(t, h)
  {
    forall f: nat | Urgent(t, f)
      ensures WaitsFor(t, f, h)
    {
      assert f != h && !Urgent(w, f);
    }
  }

  // ---- The queue runs empty ----

  /** Steps that settle a flow's task, and the flow's next segment, which again awaits something. */
  lemma ThenResumes(w: World, first: seq<Step>, w1: World, second: seq<Step>, t: World, f: nat, pc: Pc, j: JobKey)
    returns (steps: seq<Step>)
    requires Path(w, first, w1) && (Calm(w) ==> Prompt(w, first)) && NoClearing(first, j)
    requires Path(w1, second, t) && Prompt(w1, second) && NoClearing(second, j)
    requires f < |w.agent.flows| && t.lock == w.lock && (pc == PublishingBid || pc == Reporting)
    requires t.agent.flows == w.agent.flows[f := w.agent.flows[f].(pc := pc)]
    ensures Path(w, steps, t) && NoClearing(steps, j) && InTurn(w, steps, t)
  {
    steps := Join(w, first, w1, second, t, j);
    if Calm(w) {
      StaysCalm(w, t);
    }
  }

  /** Only flows that awaited the queue have moved on, and those report a failure. */
  ghost predicate OnlyReports(w: World, t: World) {
    && t.lock == w.lock
    && t.agent == w.agent.(flows := t.agent.flows, queue := t.agent.queue, drains := t.agent.drains,
                           dequeued := t.agent.dequeued, settled := t.agent.settled)
    && |t.agent.flows| == |w.agent.flows|
    && forall f | 0 <= f < |w.agent.flows| ::
         && t.agent.flows[f] == w.agent.flows[f].(pc := t.agent.flows[f].pc)
         && (t.agent.flows[f].pc == w.agent.flows[f].pc ||
             (w.agent.flows[f].pc == InQueue && t.agent.flows[f].pc == Reporting))
  }

  lemma TaskFails(w: World, f: nat, j: JobKey) returns (steps: seq<Step>, t: World)
    requires QueueInv(w.agent) && w.agent.drains != [] && w.agent.drains[0].flow == f
    requires w.agent.drains[0].at != ReadingWindow
    ensures Path(w, steps, t) && NoClearing(steps, j) && (Calm(w) ==> Prompt(w, steps))
    ensures f < |w.agent.flows| && w.agent.flows[f].pc == InQueue
    ensures t.agent == Settle(w.agent, 0, Rejected(false)) && t.lock == w.lock && QueueInv(t.agent)
  {
    CurrentIsOutstanding(w.agent);
    var step := if w.agent.drains[0].at.Bidding? then ExecuteEnds(0, Rejected(false)) else DrainThrows(0, false);
    steps, t := [step], After(w, step);
    OneStep(w, step);
    StepKeepsQueue(w.agent, step);
  }

  lemma RejectedResumes(w: World, f: nat, j: JobKey) returns (steps: seq<Step>, t: World)
    requires QueueInv(w.agent) && f < |w.agent.flows| && w.agent.flows[f].pc == Settled(Rejected(false))
    ensures Path(w, steps, t) && NoClearing(steps, j) && Prompt(w, steps) && QueueInv(t.agent)
    ensures t == w.(agent := w.agent.(flows := w.agent.flows[f := w.agent.flows[f].(pc := Reporting)]))
  {
    steps, t := [Resume(f)], After(w, Resume(f));
    OneStep(w, Resume(f));
    StepKeepsQueue(w.agent, Resume(f));
  }

  /** The task in hand fails, and its flow at once goes on to report that. */
  lemma TaskIsReported(w: World, j: JobKey) returns (steps: seq<Step>, t: World)
    requires QueueInv(w.agent) && w.agent.drains != [] && w.agent.drains[0].at != ReadingWindow
    ensures Path(w, steps, t) && NoClearing(steps, j) && InTurn(w, steps, t)
    ensures QueueInv(t.agent) && OnlyReports(w, t) && Work(t.agent) < Work(w.agent)
  {
    var f := w.agent.drains[0].flow;
    var first, w1 := TaskFails(w, f, j);
    SettleProgress(w.agent, 0, Rejected(false));
    var second;
    second, t := RejectedResumes(w1, f, j);
    steps := ThenResumes(w, first, w1, second, t, f, Reporting, j);
  }

  lemma WindowIsRead(w: World, j: JobKey) returns (t: World)
    requires QueueInv(w.agent) && w.agent.drains != [] && w.agent.drains[0].at == ReadingWindow
    ensures Path(w, [WindowOpen(0)], t) && InTurn(w, [WindowOpen(0)], t)
    ensures QueueInv(t.agent) && OnlyReports(w, t) && Work(t.agent) < Work(w.agent)
  {
    CurrentIsOutstanding(w.agent);
    t := After(w, WindowOpen(0));
    QuietStep(w, WindowOpen(0));
    StepKeepsQueue(w.agent, WindowOpen(0));
    StepProgress(w.agent, WindowOpen(0));
  }

  lemma WorkGoesOn(w: World, j: JobKey) returns (steps: seq<Step>, t: World)
    requires QueueInv(w.agent) && w.agent.drains != []
    ensures Path(w, steps, t) && NoClearing(steps, j) && InTurn(w, steps, t)
    ensures QueueInv(t.agent) && OnlyReports(w, t) && Work(t.agent) < Work(w.agent)
  {
    if w.agent.drains[0].at == ReadingWindow {
      t := WindowIsRead(w, j);
      steps := [WindowOpen(0)];
    } else {
      steps, t := TaskIsReported(w, j);
    }
  }

  /** The queue runs empty, and every flow in it goes on to report a failure. */
  lemma {:induction false} QueueEmpties(w: World, j: JobKey) returns (steps: seq<Step>, t: World)
    requires QueueInv(w.agent)
    ensures Path(w, steps, t) && NoClearing(steps, j) && InTurn(w, steps, t)
    ensures QueueInv(t.agent) && OnlyReports(w, t) && QueueIdle(t)
    decreases Work(w.agent)
  {
    if w.agent.drains == [] {
      steps, t := [], w;
      NoStep(w);
    } else {
      var w1: World, more: seq<Step>;
      steps, w1 := WorkGoesOn(w, j);
      more, t := QueueEmpties(w1, j);
      steps := Join(w, steps, w1, more, t, j);
    }
  }
}
