/**
 The detailed `execute` callback refines the coarse steps the transition system has for it:
 whatever the environment answers, its chain read, its submissions and its end are enabled
 steps of the system, and they settle the task with the result the callback ends with.
 */
module ExecutionRefinement {
  import opened BidExecution
  import opened BidMarks
  import opened BidQueueSafety
  import opened BidSystem
  import opened ErrorText
  import opened Wrappers

  /** What the flow that awaits the task finds, for each outcome of the retry loop. */
  function ResultOf(outcome: Outcome): BidResult {
    match outcome
    case BidSent => Sent
    case AlreadyBid => AlreadyOnChain
    case LateDrop => NothingSent
    case Threw(error) => Rejected(ReasonCode(error) == DuplicateBid)
  }

  function TaskResult(result: Execution): BidResult {
    match result
    case ReadThrew(error) => Rejected(ReasonCode(error) == DuplicateBid)
    case AlreadyKnown => AlreadyOnChain
    case WindowExpired => NothingSent
    case Bid(outcome) => ResultOf(outcome)
  }

  function SubmitsThenEnd(d: nat, submits: nat, result: BidResult): seq<Step> {
    if submits == 0 then [ExecuteEnds(d, result)] else [SubmitCall(d)] + SubmitsThenEnd(d, submits - 1, result)
  }

  /** The steps the callback takes: one `SubmitCall` for each attempt of its trace. */
  function StepsOf(d: nat, result: Execution, trace: seq<seq<Event>>): seq<Step> {
    match result
    case ReadThrew(error) => [DrainThrows(d, ReasonCode(error) == DuplicateBid)]
    case AlreadyKnown => [BidRead(d, true)]
    case WindowExpired => [BidRead(d, false), ExecuteEnds(d, NothingSent)]
    case Bid(outcome) => [BidRead(d, false)] + SubmitsThenEnd(d, |trace|, ResultOf(outcome))
  }

  predicate InDrain(s: State, d: nat) {
    d < |s.drains| && s.drains[d].flow < |s.flows|
  }

  /** The task of drain `d` has been settled with `result`, the job bid for or not. */
  ghost predicate SettledWith(s: State, t: State, d: nat, result: BidResult, submitted: bool)
    requires InDrain(s, d)
  {
    var f := s.drains[d].flow;
    && t.flows == s.flows[f := s.flows[f].(pc := Settled(result))]
    && t.settled == s.settled + [f]
    && t.jobs == s.jobs && t.accepted == s.accepted
    && t.attempted == if submitted then s.attempted + {s.flows[f].job} else s.attempted
  }

  lemma {:induction false} SubmitsAreEnabled(s: State, d: nat, submits: nat, result: BidResult)
    requires InDrain(s, d) && s.drains[d].at.Bidding? && s.drains[d].at.submits + submits <= MAX_ATTEMPTS
    requires result.Sent? ==> s.drains[d].at.submits + submits > 0
    ensures Valid(s, SubmitsThenEnd(d, submits, result))
    ensures SettledWith(s, Run(s, SubmitsThenEnd(d, submits, result)), d, result, submits > 0)
    decreases submits
  {
    var steps := SubmitsThenEnd(d, submits, result);
    var t := Apply(s, steps[0]);
    if submits == 0 {
      assert steps[1..] == [];
    } else {
      assert steps[1..] == SubmitsThenEnd(d, submits - 1, result);
      SubmitsAreEnabled(t, d, submits - 1, result);
      assert s.attempted + {s.flows[s.drains[d].flow].job} + {s.flows[s.drains[d].flow].job} == t.attempted;
    }
  }

  /** Refinement. From any state in which the drain is reading the chain, an execution of the
      callback, if its chain read tells what is visible, is a sequence of enabled steps; it
      settles exactly its own task, with its own result, and submits as often as its trace. */
  lemma ExecuteIsARun(s: State, d: nat, demo: bool, read: Read, windowOpen: bool, answers: nat -> Answers,
                      result: Execution, trace: seq<seq<Event>>)
    requires InDrain(s, d) && s.drains[d].at.ReadingBid?
    requires Executes(demo, read, windowOpen, answers, result, trace)
    requires read.Answered? ==> Enabled(s, BidRead(d, read.hasBid))
    ensures Valid(s, StepsOf(d, result, trace)) && |trace| <= MAX_ATTEMPTS
    ensures SettledWith(s, Run(s, StepsOf(d, result, trace)), d, TaskResult(result), trace != [])
  {
    var steps := StepsOf(d, result, trace);
    var t := Apply(s, steps[0]);
    match result
    case ReadThrew(_) => assert steps[1..] == [];
    case AlreadyKnown => assert steps[1..] == [];
    case WindowExpired =>
      assert steps[1..] == SubmitsThenEnd(d, 0, NothingSent);
      SubmitsAreEnabled(t, d, 0, NothingSent);
    case Bid(outcome) =>
      assert steps[1..] == SubmitsThenEnd(d, |trace|, ResultOf(outcome));
      SubmitsAreEnabled(t, d, |trace|, ResultOf(outcome));
  }

  /** The callback left the flag that a bid exists, the flag that one was submitted, or raised an error. */
  predicate KnowsBid(result: Execution) {
    result.AlreadyKnown? || result == Bid(AlreadyBid)
  }

  function ErrorOf(result: Execution): Option<string> {
    match result
    case ReadThrew(error) => Some(error)
    case Bid(Threw(error)) => Some(error)
    case _ => None
  }

  /** What the flow does with the end of its execution: a bid that was sent becomes submitted and pending, for
      what the flow was invited for; a bid known to exist becomes submitted only; a late drop leaves no
      record; in these two cases the flow leaves the section. An error is reported, and is recorded as
      a bid exactly if its message names one. */
  lemma ExecutionIsRecorded(s: State, f: nat, result: Execution)
    requires f < |s.flows| && s.flows[f].pc == Settled(TaskResult(result))
    ensures Enabled(s, Resume(f))
    ensures var t := Apply(s, Resume(f));
            var j := s.flows[f].job;
            && (result == Bid(BidSent) ==>
                  && t.jobs.submitted == s.jobs.submitted + {j} && t.jobs.inFlight == s.jobs.inFlight
                  && t.jobs.pending == s.jobs.pending[j := s.flows[f].info])
            && (KnowsBid(result) ==>
                  && t.jobs.submitted == s.jobs.submitted + {j} && t.jobs.pending == s.jobs.pending
                  && t.jobs.inFlight == s.jobs.inFlight - {j} && t.flows[f].pc == Finished)
            && (result == WindowExpired || result == Bid(LateDrop) ==>
                  && t.jobs.submitted == s.jobs.submitted && t.jobs.pending == s.jobs.pending
                  && t.jobs.inFlight == s.jobs.inFlight - {j} && t.flows[f].pc == Finished)
            && (ErrorOf(result).Some? ==>
                  && t.jobs.pending == s.jobs.pending && t.jobs.inFlight == s.jobs.inFlight
                  && t.flows[f].pc == Reporting
                  && t.jobs.submitted == s.jobs.submitted
                       + if Has(ErrorOf(result).value, "bid already submitted") then {j} else {})
  {
    if ErrorOf(result).Some? {
      ReasonOf(ErrorOf(result).value);
    }
  }

  /** Steps of others that come between do not disturb the drain. */
  lemma OthersLeaveDrain(s: State, step: Step)
    requires QueueInv(s) && Enabled(s, step) && !OfDrain(step) && |s.drains| == 1
    ensures Apply(s, step).drains == s.drains
  {
  }

  // ---- With steps of others in between ----

  /** The drain steps of a run. */
  function DrainPart(steps: seq<Step>): seq<Step> {
    if steps == [] then []
    else if OfDrain(steps[0]) then [steps[0]] + DrainPart(steps[1..])
    else DrainPart(steps[1..])
  }

  /** `rest` is what the callback has still to do, and `result` how its task will be settled. */
  ghost predicate Remains(s: State, rest: seq<Step>, result: BidResult) {
    && InDrain(s, 0)
    && match s.drains[0].at
       case ReadingBid(_) =>
         || (rest == [DrainThrows(0, true)] && result == Rejected(true))
         || (rest == [DrainThrows(0, false)] && result == Rejected(false))
         || (rest == [BidRead(0, true)] && result == AlreadyOnChain && Enabled(s, BidRead(0, true)))
         || (Enabled(s, BidRead(0, false)) && exists n: nat ::
               && n <= MAX_ATTEMPTS && rest == [BidRead(0, false)] + SubmitsThenEnd(0, n, result)
               && (result.Sent? ==> n > 0))
       case Bidding(m) =>
         exists n: nat :: m + n <= MAX_ATTEMPTS && rest == SubmitsThenEnd(0, n, result) && (result.Sent? ==> m + n > 0)
       case _ => false
  }

  /** A callback that begins has all of its steps before it. */
  lemma ExecutionRemains(s: State, demo: bool, read: Read, windowOpen: bool, answers: nat -> Answers,
                         result: Execution, trace: seq<seq<Event>>)
    requires InDrain(s, 0) && s.drains[0].at.ReadingBid?
    requires Executes(demo, read, windowOpen, answers, result, trace)
    requires read.Answered? ==> Enabled(s, BidRead(0, read.hasBid))
    ensures Remains(s, StepsOf(0, result, trace), TaskResult(result))
  {
    if result.WindowExpired? {
      assert StepsOf(0, result, trace) == [BidRead(0, false)] + SubmitsThenEnd(0, 0, NothingSent);
    }
  }

  lemma SubmitsUncons(n: nat, result: BidResult)
    ensures var steps := SubmitsThenEnd(0, n, result);
            steps[0] == (if n == 0 then ExecuteEnds(0, result) else SubmitCall(0)) &&
            steps[1..] == if n == 0 then [] else SubmitsThenEnd(0, n - 1, result)
  {
  }

  /** The next step of the callback is enabled; taking it leaves the rest, or settles the task. */
  lemma OwnStep(s: State, rest: seq<Step>, result: BidResult)
    requires QueueInv(s) && Remains(s, rest, result)
    ensures rest != [] && OfDrain(rest[0]) && Enabled(s, rest[0])
    ensures |rest| > 1 ==> Remains(Apply(s, rest[0]), rest[1..], result) && Apply(s, rest[0]).settled == s.settled
                           && Apply(s, rest[0]).drains[0].flow == s.drains[0].flow
    ensures |rest| == 1 ==> Apply(s, rest[0]) == Settle(s, 0, result)
  {
    if s.drains[0].at.Bidding? {
      var m := s.drains[0].at.submits;
      var n: nat :| m + n <= MAX_ATTEMPTS && rest == SubmitsThenEnd(0, n, result) && (result.Sent? ==> m + n > 0);
      SubmitsUncons(n, result);
      if n > 0 {
        assert (m + 1) + (n - 1) <= MAX_ATTEMPTS;
      }
    } else if rest[0] == BidRead(0, false) {
      var n: nat :| n <= MAX_ATTEMPTS && rest == [BidRead(0, false)] + SubmitsThenEnd(0, n, result)
                    && (result.Sent? ==> n > 0);
      assert rest[1..] == SubmitsThenEnd(0, n, result) && 0 + n <= MAX_ATTEMPTS;
    }
  }

  lemma OthersKeepJobs(s: State, step: Step)
    requires Enabled(s, step) && !OfDrain(step)
    ensures |s.flows| <= |Apply(s, step).flows|
    ensures forall f | 0 <= f < |s.flows| :: Apply(s, step).flows[f].job == s.flows[f].job
  {
    if OfFlow(step) {
      FlowStepMoves(s, step);
    }
  }

  lemma OthersKeepHistory(s: State, step: Step)
    requires Enabled(s, step) && !OfDrain(step)
    ensures s.accepted <= Apply(s, step).accepted && Apply(s, step).settled == s.settled
  {
  }

  lemma SameRemains(s: State, t: State, rest: seq<Step>, result: BidResult)
    requires Remains(s, rest, result) && t.drains == s.drains && |s.flows| <= |t.flows| && s.accepted <= t.accepted
    requires forall f | 0 <= f < |s.flows| :: t.flows[f].job == s.flows[f].job
    ensures Remains(t, rest, result)
  {
  }

  /** A step of another flow, of the chain or of an event leaves all of it to be done. */
  lemma OthersStep(s: State, step: Step, rest: seq<Step>, result: BidResult)
    requires QueueInv(s) && Remains(s, rest, result) && Enabled(s, step) && !OfDrain(step)
    ensures Remains(Apply(s, step), rest, result) && Apply(s, step).settled == s.settled
    ensures Apply(s, step).drains == s.drains
  {
    OthersLeaveDrain(s, step);
    OthersKeepJobs(s, step);
    OthersKeepHistory(s, step);
    SameRemains(s, Apply(s, step), rest, result);
  }

  lemma {:induction false} OthersSettleNothing(s: State, steps: seq<Step>)
    requires Valid(s, steps) && DrainPart(steps) == []
    ensures Run(s, steps).settled == s.settled
    ensures steps != [] ==> !OfDrain(steps[|steps| - 1])
    decreases |steps|
  {
    if steps == [] {
    } else {
      OthersSettleNothing(Apply(s, steps[0]), steps[1..]);
    }
  }

  /** The callback's task `f` has been settled by the end of a run from `s` to `t`, and if the run
      ends just there, its flow has found the result. */
  ghost predicate HasEnded(s: State, t: State, f: nat, result: BidResult, justNow: bool) {
    t.settled == s.settled + [f] && (justNow ==> f < |t.flows| && t.flows[f].pc == Settled(result))
  }

  lemma OwnStepInRun(s: State, steps: seq<Step>, rest: seq<Step>, result: BidResult)
    requires QueueInv(s) && Remains(s, rest, result) && Valid(s, steps)
    requires steps != [] && OfDrain(steps[0]) && DrainPart(steps) <= rest
    ensures rest != [] && steps[0] == rest[0] && DrainPart(steps[1..]) <= rest[1..]
    ensures QueueInv(Apply(s, steps[0]))
    ensures |rest| > 1 ==> Remains(Apply(s, rest[0]), rest[1..], result) && Apply(s, rest[0]).settled == s.settled
                           && Apply(s, rest[0]).drains[0].flow == s.drains[0].flow
    ensures |rest| == 1 ==> Apply(s, rest[0]) == Settle(s, 0, result)
  {
    OwnStep(s, rest, result);
    StepKeepsQueue(s, steps[0]);
    assert DrainPart(steps) == [steps[0]] + DrainPart(steps[1..]);
    assert DrainPart(steps)[1..] == DrainPart(steps[1..]);
  }

  /** The last step of the callback settles its task; what follows settles nothing more. */
  lemma LastOwnStep(s: State, steps: seq<Step>, result: BidResult)
    requires QueueInv(s) && InDrain(s, 0) && Valid(s, steps) && steps != [] && DrainPart(steps[1..]) == []
    requires Apply(s, steps[0]) == Settle(s, 0, result)
    ensures HasEnded(s, Run(s, steps), s.drains[0].flow, result, OfDrain(steps[|steps| - 1]))
  {
    OthersSettleNothing(Apply(s, steps[0]), steps[1..]);
    assert steps[1..] != [] ==> steps[1..][|steps| - 2] == steps[|steps| - 1];
  }

  /** What a run of the system has made of the callback, of which it contains a prefix of the
      steps `rest`: if that is all of them, exactly its own task has been settled, with its own
      result; otherwise nothing has been settled and its next step is enabled. */
  ghost predicate Refined(s: State, steps: seq<Step>, rest: seq<Step>, result: BidResult)
    requires Valid(s, steps) && DrainPart(steps) <= rest && InDrain(s, 0)
  {
    if DrainPart(steps) == rest
    then steps != [] && HasEnded(s, Run(s, steps), s.drains[0].flow, result, OfDrain(steps[|steps| - 1]))
    else Run(s, steps).settled == s.settled && Enabled(Run(s, steps), rest[|DrainPart(steps)|])
  }

  lemma RefinedAfterOther(s: State, steps: seq<Step>, rest: seq<Step>, result: BidResult)
    requires Valid(s, steps) && steps != [] && !OfDrain(steps[0]) && DrainPart(steps[1..]) <= rest
    requires InDrain(s, 0) && InDrain(Apply(s, steps[0]), 0) && rest != []
    requires Apply(s, steps[0]).settled == s.settled && Apply(s, steps[0]).drains == s.drains
    requires Refined(Apply(s, steps[0]), steps[1..], rest, result)
    ensures DrainPart(steps) <= rest && Refined(s, steps, rest, result)
  {
    assert DrainPart(steps) == DrainPart(steps[1..]);
    assert steps[1..] != [] ==> steps[1..][|steps| - 2] == steps[|steps| - 1];
  }

  lemma RefinedAfterOwn(s: State, steps: seq<Step>, rest: seq<Step>, result: BidResult)
    requires Valid(s, steps) && steps != [] && OfDrain(steps[0])
    requires |rest| > 1 && rest[0] == steps[0] && DrainPart(steps[1..]) <= rest[1..]
    requires InDrain(s, 0) && InDrain(Apply(s, steps[0]), 0)
    requires Apply(s, steps[0]).settled == s.settled && Apply(s, steps[0]).drains[0].flow == s.drains[0].flow
    requires Refined(Apply(s, steps[0]), steps[1..], rest[1..], result)
    ensures DrainPart(steps) <= rest && Refined(s, steps, rest, result)
  {
    assert DrainPart(steps) == [steps[0]] + DrainPart(steps[1..]);
    assert rest == [rest[0]] + rest[1..];
    assert steps[1..] != [] ==> steps[1..][|steps| - 2] == steps[|steps| - 1];
  }

  lemma RefinedAtLast(s: State, steps: seq<Step>, rest: seq<Step>, result: BidResult)
    requires QueueInv(s) && InDrain(s, 0) && Valid(s, steps) && steps != [] && OfDrain(steps[0])
    requires |rest| == 1 && rest[0] == steps[0] && DrainPart(steps[1..]) <= rest[1..]
    requires Apply(s, steps[0]) == Settle(s, 0, result)
    ensures DrainPart(steps) <= rest && Refined(s, steps, rest, result)
  {
    assert DrainPart(steps) == [steps[0]] + DrainPart(steps[1..]);
    LastOwnStep(s, steps, result);
  }

  /** Refinement under interleaving. However steps of others come between, as long as the
      callback has not ended its next step is enabled; and when it has taken its last one, exactly
      its own task has been settled, with its own result. */
  lemma {:induction false} InterleavedExecution(s: State, steps: seq<Step>, rest: seq<Step>, result: BidResult)
    requires QueueInv(s) && Remains(s, rest, result) && Valid(s, steps) && DrainPart(steps) <= rest
    ensures Refined(s, steps, rest, result)
    decreases |steps|
  {
    if steps == [] {
      OwnStep(s, rest, result);
    } else if !OfDrain(steps[0]) {
      OwnStep(s, rest, result);
      OthersStep(s, steps[0], rest, result);
      StepKeepsQueue(s, steps[0]);
      InterleavedExecution(Apply(s, steps[0]), steps[1..], rest, result);
      RefinedAfterOther(s, steps, rest, result);
    } else {
      OwnStepInRun(s, steps, rest, result);
      if |rest| == 1 {
        RefinedAtLast(s, steps, rest, result);
      } else {
        InterleavedExecution(Apply(s, steps[0]), steps[1..], rest[1..], result);
        RefinedAfterOwn(s, steps, rest, result);
      }
    }
  }

  /** The same for an execution of the callback, from its chain read on. */
  lemma InterleavedExecute(s: State, steps: seq<Step>, demo: bool, read: Read, windowOpen: bool,
                           answers: nat -> Answers, result: Execution, trace: seq<seq<Event>>)
    requires QueueInv(s) && InDrain(s, 0) && s.drains[0].at.ReadingBid?
    requires Executes(demo, read, windowOpen, answers, result, trace)
    requires read.Answered? ==> Enabled(s, BidRead(0, read.hasBid))
    requires Valid(s, steps) && DrainPart(steps) <= StepsOf(0, result, trace)
    ensures Refined(s, steps, StepsOf(0, result, trace), TaskResult(result))
  {
    ExecutionRemains(s, demo, read, windowOpen, answers, result, trace);
    InterleavedExecution(s, steps, StepsOf(0, result, trace), TaskResult(result));
  }
}
