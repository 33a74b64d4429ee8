/**
 One firing of the error handler in a run of the agent with its lock, from invitations of a
 single job that are merely repeated. The first flow fails to report a failed bid, so its
 error reaches the handler; meanwhile the lock has let the second one in, whose mark the
 handler deletes; and as leaving has deleted the lock's entry, a third one walks in. Then
 both read the chain before the first bid is accepted, and a repeated winner event starts
 the audit twice.
 */
module HandlerCounterexample {
  import opened Wrappers
  import opened AgentState
  import opened BidSystem
  import opened BidMarks
  import opened LockedBids
  import opened Paths
  import opened DoubleAudit
  import AuditOnce

  function HandlerSteps(steps: seq<Step>): nat {
    if steps == [] then 0 else (if steps[0].OuterHandler? then 1 else 0) + HandlerSteps(steps[1..])
  }

  lemma {:induction false} HandlerStepsConcat(first: seq<Step>, second: seq<Step>)
    ensures HandlerSteps(first + second) == HandlerSteps(first) + HandlerSteps(second)
    decreases |first|
  {
    if first == [] {
      assert first + second == second;
    } else {
      assert (first + second)[1..] == first[1..] + second;
      HandlerStepsConcat(first[1..], second);
    }
  }

  lemma {:induction false} NoHandlerStepsCounted(steps: seq<Step>)
    requires NoHandlerStep(steps)
    ensures HandlerSteps(steps) == 0
  {
    if steps == [] {
    } else {
      assert !steps[0].OuterHandler?;
      assert forall i | 0 <= i < |steps[1..]| :: steps[1..][i] == steps[i + 1];
      NoHandlerStepsCounted(steps[1..]);
    }
  }

  /** A run from the start to `w`, microtasks first, without an event that clears `j`, with `n` firings
      of the handler, and with the given arrivals, entries and leaves at the lock. */
  ghost predicate Trail(j: JobKey, steps: seq<Step>, w: World, n: nat, trace: seq<L.Step>) {
    && ValidIn(START, steps) && RunIn(START, steps) == w && LockTrace(START, steps) == trace && Prompt(START, steps)
    && HandlerSteps(steps) == n && NoClearing(steps, j)
  }

  lemma Take(j: JobKey, steps: seq<Step>, w: World, n: nat, trace: seq<L.Step>, step: Step, t: World,
             moves: seq<L.Step>)
    returns (next: seq<Step>)
    requires Trail(j, steps, w, n, trace) && Leads(w, step, t, moves)
    requires step != DeliverCancelled(j) && step != DeliverWinner(j, false)
    ensures Trail(j, next, t, if step.OuterHandler? then n + 1 else n, trace + moves)
  {
    next := steps + [step];
    assert [step][1..] == [];
    OnePromptStep(w, step);
    PromptConcat(START, steps, w, [step]);
    RunInConcat(START, steps, [step]);
    LockTraceConcat(START, steps, [step]);
    HandlerStepsConcat(steps, [step]);
  }

  /** The step leads from `w` to `t` and makes these moves at the lock. */
  ghost predicate Leads(w: World, step: Step, t: World, moves: seq<L.Step>) {
    && Allowed(w, step) && After(w, step) == t && LockSteps(MoveOf(w.agent, step)) == moves
    && (Calm(w) || Micro(step))
  }

  /** A state in which nothing has been queued yet: the flows' positions, whether the job is
      marked, whom each caller waits for, and the owner of the lock's entry. */
  function Scene(j: JobKey, info: PendingJob, pcs: seq<Pc>, marked: bool, prevs: seq<Option<nat>>,
                 entry: Option<nat>): World
    requires |prevs| == |pcs|
  {
    World(
      INIT.(jobs := Jobs(if marked then {j} else {}, {}, map[], map[]),
            flows := seq(|pcs|, i requires 0 <= i < |pcs| => Flow(j, info, pcs[i]))),
      L.State(
        seq(|pcs|, i requires 0 <= i < |pcs| => L.Caller(j, prevs[i], PhaseOf(pcs[i]))),
        if entry.Some? then map[j := entry.value] else map[]))
  }

  // ---- The nine steps, one by one ----

  lemma SameScene(t: World, u: World)
    requires t.lock.callers == u.lock.callers && t.lock.locks == u.lock.locks
    requires t.agent.flows == u.agent.flows && t.agent.jobs.inFlight == u.agent.jobs.inFlight
    requires t.agent == u.agent.(flows := t.agent.flows, jobs := u.agent.jobs.(inFlight := t.agent.jobs.inFlight))
    ensures t == u
  {
  }

  lemma FirstArrives(j: JobKey, info: PendingJob) returns (w: World, t: World)
    ensures w == Scene(j, info, [], false, [], None)
    ensures t == Scene(j, info, [AtLock], false, [None], Some(0))
    ensures Leads(w, Invite(j, info), t, [L.Step.Arrive(j)])
  {
    w := Scene(j, info, [], false, [], None);
    t := After(w, Invite(j, info));
    var u := Scene(j, info, [AtLock], false, [None], Some(0));
    SameScene(t, u);
  }

  lemma FirstMarks(j: JobKey, info: PendingJob) returns (w: World, t: World)
    ensures w == Scene(j, info, [AtLock], false, [None], Some(0))
    ensures t == Scene(j, info, [Preparing], true, [None], Some(0))
    ensures Leads(w, MarkInFlight(0), t, [L.Enter(0)])
  {
    w := Scene(j, info, [AtLock], false, [None], Some(0));
    t := After(w, MarkInFlight(0));
    var u := Scene(j, info, [Preparing], true, [None], Some(0));
    SameScene(t, u);
  }

  lemma SecondArrives(j: JobKey, info: PendingJob) returns (w: World, t: World)
    ensures w == Scene(j, info, [Preparing], true, [None], Some(0))
    ensures t == Scene(j, info, [Preparing, AtLock], true, [None, Some(0)], Some(1))
    ensures Leads(w, Invite(j, info), t, [L.Step.Arrive(j)])
  {
    w := Scene(j, info, [Preparing], true, [None], Some(0));
    t := After(w, Invite(j, info));
    var u := Scene(j, info, [Preparing, AtLock], true, [None, Some(0)], Some(1));
    SameScene(t, u);
  }

  lemma PreparationThrows(j: JobKey, info: PendingJob) returns (w: World, t: World)
    ensures w == Scene(j, info, [Preparing, AtLock], true, [None, Some(0)], Some(1))
    ensures t == Scene(j, info, [Reporting, AtLock], true, [None, Some(0)], Some(1))
    ensures Leads(w, PrepareThrows(0, false), t, [])
  {
    w := Scene(j, info, [Preparing, AtLock], true, [None, Some(0)], Some(1));
    t := After(w, PrepareThrows(0, false));
    var u := Scene(j, info, [Reporting, AtLock], true, [None, Some(0)], Some(1));
    SameScene(t, u);
  }

  lemma ReportFails(j: JobKey, info: PendingJob) returns (w: World, t: World)
    ensures w == Scene(j, info, [Reporting, AtLock], true, [None, Some(0)], Some(1))
    ensures t == Scene(j, info, [Failed, AtLock], false, [None, Some(0)], None)
    ensures Leads(w, Reported(0, false), t, [L.Leave(0)])
  {
    w := Scene(j, info, [Reporting, AtLock], true, [None, Some(0)], Some(1));
    t := After(w, Reported(0, false));
    var u := Scene(j, info, [Failed, AtLock], false, [None, Some(0)], None);
    SameScene(t, u);
  }

  lemma SecondMarks(j: JobKey, info: PendingJob) returns (w: World, t: World)
    ensures w == Scene(j, info, [Failed, AtLock], false, [None, Some(0)], None)
    ensures t == Scene(j, info, [Failed, Preparing], true, [None, Some(0)], None)
    ensures Leads(w, MarkInFlight(1), t, [L.Enter(1)])
  {
    w := Scene(j, info, [Failed, AtLock], false, [None, Some(0)], None);
    t := After(w, MarkInFlight(1));
    var u := Scene(j, info, [Failed, Preparing], true, [None, Some(0)], None);
    SameScene(t, u);
  }

  lemma HandlerDeletesMark(j: JobKey, info: PendingJob) returns (w: World, t: World)
    ensures w == Scene(j, info, [Failed, Preparing], true, [None, Some(0)], None)
    ensures t == Scene(j, info, [Finished, Preparing], false, [None, Some(0)], None)
    ensures Leads(w, OuterHandler(0), t, [])
  {
    w := Scene(j, info, [Failed, Preparing], true, [None, Some(0)], None);
    t := After(w, OuterHandler(0));
    var u := Scene(j, info, [Finished, Preparing], false, [None, Some(0)], None);
    assert t.agent.jobs.pending == u.agent.jobs.pending;
    SameScene(t, u);
  }

  lemma ThirdArrives(j: JobKey, info: PendingJob) returns (w: World, t: World)
    ensures w == Scene(j, info, [Finished, Preparing], false, [None, Some(0)], None)
    ensures t == Scene(j, info, [Finished, Preparing, AtLock], false, [None, Some(0), None], Some(2))
    ensures Leads(w, Invite(j, info), t, [L.Step.Arrive(j)])
  {
    w := Scene(j, info, [Finished, Preparing], false, [None, Some(0)], None);
    t := After(w, Invite(j, info));
    var u := Scene(j, info, [Finished, Preparing, AtLock], false, [None, Some(0), None], Some(2));
    SameScene(t, u);
  }

  lemma ThirdMarks(j: JobKey, info: PendingJob) returns (w: World, t: World)
    ensures w == Scene(j, info, [Finished, Preparing, AtLock], false, [None, Some(0), None], Some(2))
    ensures t == Scene(j, info, [Finished, Preparing, Preparing], true, [None, Some(0), None], Some(2))
    ensures Leads(w, MarkInFlight(2), t, [L.Enter(2)])
  {
    w := Scene(j, info, [Finished, Preparing, AtLock], false, [None, Some(0), None], Some(2));
    t := After(w, MarkInFlight(2));
    var u := Scene(j, info, [Finished, Preparing, Preparing], true, [None, Some(0), None], Some(2));
    SameScene(t, u);
  }

  /** The second invitation arrives while the first flow is inside and waits for it. */
  lemma SecondWaits(j: JobKey, info: PendingJob) returns (steps: seq<Step>, t: World)
    ensures t == Scene(j, info, [Preparing, AtLock], true, [None, Some(0)], Some(1))
    ensures Trail(j, steps, t, 0, [] + [L.Step.Arrive(j)] + [L.Enter(0)] + [L.Step.Arrive(j)])
  {
    var w, t1 := FirstArrives(j, info);
    assert w == START;
    steps := Take(j, [], START, 0, [], Invite(j, info), t1, [L.Step.Arrive(j)]);
    var w1, t2 := FirstMarks(j, info);
    steps := Take(j, steps, t1, 0, [] + [L.Step.Arrive(j)], MarkInFlight(0), t2, [L.Enter(0)]);
    w, t := SecondArrives(j, info);
    steps := Take(j, steps, t2, 0, [] + [L.Step.Arrive(j)] + [L.Enter(0)], Invite(j, info), t, [L.Step.Arrive(j)]);
  }

  /** The first flow cannot even report its failure, and leaves the section and the lock. */
  lemma FirstFails(j: JobKey, info: PendingJob, before: seq<Step>, w: World, trace: seq<L.Step>)
    returns (steps: seq<Step>, t: World)
    requires w == Scene(j, info, [Preparing, AtLock], true, [None, Some(0)], Some(1)) && Trail(j, before, w, 0, trace)
    ensures t == Scene(j, info, [Failed, AtLock], false, [None, Some(0)], None)
    ensures Trail(j, steps, t, 0, trace + [] + [L.Leave(0)])
  {
    var w1, t1 := PreparationThrows(j, info);
    steps := Take(j, before, w, 0, trace, PrepareThrows(0, false), t1, []);
    w1, t := ReportFails(j, info);
    steps := Take(j, steps, t1, 0, trace + [], Reported(0, false), t, [L.Leave(0)]);
  }

  /** The second flow enters; only then the first one's error reaches the handler. */
  lemma MarkIsDeleted(j: JobKey, info: PendingJob, before: seq<Step>, w: World, trace: seq<L.Step>)
    returns (steps: seq<Step>, t: World)
    requires w == Scene(j, info, [Failed, AtLock], false, [None, Some(0)], None) && Trail(j, before, w, 0, trace)
    ensures t == Scene(j, info, [Finished, Preparing], false, [None, Some(0)], None)
    ensures Trail(j, steps, t, 1, trace + [L.Enter(1)] + [])
  {
    var w1, t1 := SecondMarks(j, info);
    steps := Take(j, before, w, 0, trace, MarkInFlight(1), t1, [L.Enter(1)]);
    w1, t := HandlerDeletesMark(j, info);
    steps := Take(j, steps, t1, 0, trace + [L.Enter(1)], OuterHandler(0), t, []);
  }

  /** A third invitation finds neither an entry nor a mark. */
  lemma ThirdEnters(j: JobKey, info: PendingJob, before: seq<Step>, w: World, trace: seq<L.Step>)
    returns (steps: seq<Step>, t: World)
    requires w == Scene(j, info, [Finished, Preparing], false, [None, Some(0)], None) && Trail(j, before, w, 1, trace)
    ensures t == Scene(j, info, [Finished, Preparing, Preparing], true, [None, Some(0), None], Some(2))
    ensures Trail(j, steps, t, 1, trace + [L.Step.Arrive(j)] + [L.Enter(2)])
  {
    var w1, t1 := ThirdArrives(j, info);
    steps := Take(j, before, w, 1, trace, Invite(j, info), t1, [L.Step.Arrive(j)]);
    w1, t := ThirdMarks(j, info);
    steps := Take(j, steps, t1, 1, trace + [L.Step.Arrive(j)], MarkInFlight(2), t, [L.Enter(2)]);
  }

  /** A waits for nobody, B for A; A leaves and deletes B's entry; C waits for nobody. */
  function ThirdCallerTrace(j: JobKey): seq<L.Step> {
    [L.Step.Arrive(j), L.Enter(0), L.Step.Arrive(j), L.Leave(0), L.Enter(1), L.Step.Arrive(j), L.Enter(2)]
  }

  lemma TwoInside(j: JobKey, info: PendingJob)
    ensures var w := Scene(j, info, [Finished, Preparing, Preparing], true, [None, Some(0), None], Some(2));
            !OneHolder(w.agent.flows, j) && !L.Exclusive(w.lock, j) && Calm(w)
  {
    var w := Scene(j, info, [Finished, Preparing, Preparing], true, [None, Some(0), None], Some(2));
    assert Holds(w.agent.flows, j, 1) && Holds(w.agent.flows, j, 2);
    assert L.RunningOn(w.lock, j, 1) && L.RunningOn(w.lock, j, 2);
  }

  lemma TraceOfParts(j: JobKey)
    ensures [] + [L.Step.Arrive(j)] + [L.Enter(0)] + [L.Step.Arrive(j)] + [] + [L.Leave(0)]
            + [L.Enter(1)] + [] + [L.Step.Arrive(j)] + [L.Enter(2)]
            == ThirdCallerTrace(j)
  {
  }

  lemma OverlapIsReached(j: JobKey, info: PendingJob) returns (steps: seq<Step>, w: World)
    ensures w == Scene(j, info, [Finished, Preparing, Preparing], true, [None, Some(0), None], Some(2))
    ensures Trail(j, steps, w, 1, ThirdCallerTrace(j))
  {
    var waits := [] + [L.Step.Arrive(j)] + [L.Enter(0)] + [L.Step.Arrive(j)];
    var fails := waits + [] + [L.Leave(0)];
    var strikes := fails + [L.Enter(1)] + [];
    steps, w := SecondWaits(j, info);
    steps, w := FirstFails(j, info, steps, w, waits);
    steps, w := MarkIsDeleted(j, info, steps, w, fails);
    steps, w := ThirdEnters(j, info, steps, w, strikes);
    TraceOfParts(j);
  }

  /** One firing of the handler, and two flows are inside the bid section of one job. The lock
      was used throughout: its steps are those of the three-caller overlap. */
  lemma HandlerLetsTwoFlowsIn(j: JobKey, info: PendingJob) returns (steps: seq<Step>)
    ensures Trail(j, steps, Scene(j, info, [Finished, Preparing, Preparing], true, [None, Some(0), None], Some(2)), 1,
                  ThirdCallerTrace(j))
    ensures L.Valid(L.FRESH, LockTrace(START, steps))
    ensures !L.Exclusive(L.Run(L.FRESH, LockTrace(START, steps)), j)
    ensures !OneHolder(RunIn(START, steps).agent.flows, j)
  {
    var w: World;
    steps, w := OverlapIsReached(j, info);
    ProjectsOnBoth(START, steps);
    TwoInside(j, info);
  }

  /** The condition on the error handler is needed: one firing on a held job is enough for a
      second audit cycle of the same job, in a run of the agent with its lock, microtasks first,
      whose only irregularities are repeated invitations, one failed report and a repeated winner
      event. */
  lemma OneHandlerStepAuditsTwice(j: JobKey, info: PendingJob) returns (steps: seq<Step>)
    ensures ValidIn(START, steps) && Prompt(START, steps) && HandlerSteps(steps) == 1 && NoClearing(steps, j)
    ensures RunIn(START, steps).agent.audits[j] == 2
    ensures Valid(INIT, steps) && !HarmlessUntilAccepted(INIT, steps, j)
    ensures L.Valid(L.FRESH, LockTrace(START, steps))
  {
    var first := HandlerLetsTwoFlowsIn(j, info);
    var w := Scene(j, info, [Finished, Preparing, Preparing], true, [None, Some(0), None], Some(2));
    var second, t := TwoPreparingAuditTwice(w, j, 1, 2);
    steps := first + second;
    RunInConcat(START, first, second);
    TwoInside(j, info);
    PromptConcat(START, first, w, second);
    HandlerStepsConcat(first, second);
    NoHandlerStepsCounted(second);
    ProjectsOnBoth(START, steps);
    if HarmlessUntilAccepted(INIT, steps, j) {
      AuditOnce.AuditStartsAtMostOnce(steps, j);
    }
  }
}
