/**
 What a firing of the error handler can and cannot do, exactly. Two questions are asked of a
 job: can two flows be inside its bid section at once, and can its audit start twice? Each
 is answered twice: for an agent of whose lock nothing is known, and for the agent with its
 lock, where the lock can make up for a mark that the handler deletes.
 */
module HandlerExactness {
  import opened AgentState
  import opened BidSystem
  import opened BidQueueSafety
  import opened BidMarks
  import opened AuditOnce
  import opened LockedBids
  import opened Paths
  import opened DoubleAudit
  import opened Wrappers

  // ---- With the lock ----

  lemma StartIsShielded(j: JobKey)
    ensures Shielded(START, j) && AuditInv(INIT, j)
  {
  }

  /** Over every run of the agent with its lock: if every firing of the error handler strikes
      the job unheld or guarded by the lock, at most one flow is inside its bid section. */
  lemma ExclusiveWithLock(steps: seq<Step>, j: JobKey)
    requires ValidIn(START, steps) && HarmlessRunIn(START, steps, j)
    ensures OneHolder(RunIn(START, steps).agent.flows, j)
  {
    StartIsShielded(j);
    RunKeepsShield(START, steps, j);
    ShieldIsExclusive(RunIn(START, steps), j);
  }

  lemma AuditInvWithLock(w: World, steps: seq<Step>, j: JobKey)
    requires Ready(w) && AuditInv(w.agent, j) && (j in w.agent.accepted || Shielded(w, j))
    requires ValidIn(w, steps) && HarmlessInUntilAccepted(w, steps, j)
    ensures AuditInv(RunIn(w, steps).agent, j) && Ready(RunIn(w, steps))
    ensures j in RunIn(w, steps).agent.accepted || Shielded(RunIn(w, steps), j)
  {
    ProjectsOnBoth(w, steps);
    RunKeepsReady(w, steps);
    ShieldedUntilAccepted(w, steps, j);
    RunKeepsAudits(w.agent, steps, j);
  }

  /** Over every run of the agent with its lock: if until the job is accepted every firing
      strikes it unheld or guarded, its audit starts at most once. */
  lemma AuditStartsAtMostOnceWithLock(steps: seq<Step>, j: JobKey)
    requires ValidIn(START, steps) && HarmlessInUntilAccepted(START, steps, j)
    ensures RunIn(START, steps).agent.audits[j] <= 1
  {
    StartIsShielded(j);
    AuditInvWithLock(START, steps, j);
    AuditInvBounds(RunIn(START, steps).agent, j);
  }

  /** The handler moves its flow out of the way and the lock does not notice. */
  lemma FiringKeepsShape(w: World, f: nat)
    requires Ready(w) && Enabled(w.agent, OuterHandler(f))
    ensures Allowed(w, OuterHandler(f))
    ensures var t := After(w, OuterHandler(f));
            var j := w.agent.flows[f].job;
            && Ready(t) && t.lock == w.lock && t.agent.accepted == w.agent.accepted && t.agent.audits == w.agent.audits
            && t.agent.jobs.inFlight == w.agent.jobs.inFlight - {j}
            && forall k, g :: Holds(t.agent.flows, k, g) <==> Holds(w.agent.flows, k, g)
  {
    StepKeepsReady(w, OuterHandler(f));
  }

  /** A firing that strikes a held and unguarded job lets a second flow in. */
  lemma HarmfulFiring(w: World, f: nat) returns (g: nat, steps: seq<Step>, u: World, a: nat)
    requires Enabled(w.agent, OuterHandler(f))
    requires Shielded(w, w.agent.flows[f].job)
    requires w.agent.flows[f].job in w.agent.jobs.inFlight && !Guarded(w.lock, w.agent.flows[f].job)
    ensures Allowed(w, OuterHandler(f))
    ensures Path(After(w, OuterHandler(f)), steps, u)
    ensures Joined(After(w, OuterHandler(f)), u, w.agent.flows[f].job, g, a)
    ensures Holds(w.agent.flows, w.agent.flows[f].job, g) && u.agent.flows[g] == w.agent.flows[g]
    ensures !Recorded(u.agent, w.agent.flows[f].job)
    ensures !Recorded(w.agent, w.agent.flows[f].job) ==> NoClearing(steps, w.agent.flows[f].job)
  {
    var j := w.agent.flows[f].job;
    FiringKeepsShape(w, f);
    g :| Holds(w.agent.flows, j, g);
    steps, u, a := SecondEnters(After(w, OuterHandler(f)), j, g);
  }

  lemma ShieldedFiringExclusiveIff(w: World, f: nat, j: JobKey)
    requires Enabled(w.agent, OuterHandler(f)) && w.agent.flows[f].job == j && Shielded(w, j)
    ensures Allowed(w, OuterHandler(f))
    ensures j !in w.agent.jobs.inFlight || Guarded(w.lock, j) <==>
              forall more | ValidIn(After(w, OuterHandler(f)), more) && NoHandlerStep(more) ::
                OneHolder(RunIn(After(w, OuterHandler(f)), more).agent.flows, j)
  {
    FiringKeepsShape(w, f);
    var t := After(w, OuterHandler(f));
    if j !in w.agent.jobs.inFlight || Guarded(w.lock, j) {
      StepKeepsShield(w, OuterHandler(f), j);
      forall more | ValidIn(t, more) && NoHandlerStep(more)
        ensures OneHolder(RunIn(t, more).agent.flows, j)
      {
        NoHandlerIsHarmlessIn(t, more, j);
        RunKeepsShield(t, more, j);
        ShieldIsExclusive(RunIn(t, more), j);
      }
    } else {
      var g, more, u, a := HarmfulFiring(w, f);
      assert Holds(u.agent.flows, j, g) && Holds(u.agent.flows, j, a);
    }
  }

  /** Exactness for the agent with its lock: after any run of harmless firings, one more keeps
      the bid section exclusive, however the run goes on, if and only if the job it strikes is
      not held or is guarded by the lock. */
  lemma FiringExclusiveWithLockIff(steps: seq<Step>, f: nat)
    requires ValidIn(START, steps) && Enabled(RunIn(START, steps).agent, OuterHandler(f))
    requires HarmlessRunIn(START, steps, RunIn(START, steps).agent.flows[f].job)
    ensures var w := RunIn(START, steps);
            var j := w.agent.flows[f].job;
            Allowed(w, OuterHandler(f)) &&
            (j !in w.agent.jobs.inFlight || Guarded(w.lock, j) <==>
              forall more | ValidIn(After(w, OuterHandler(f)), more) && NoHandlerStep(more) ::
                OneHolder(RunIn(After(w, OuterHandler(f)), more).agent.flows, j))
  {
    var w := RunIn(START, steps);
    StartIsShielded(w.agent.flows[f].job);
    RunKeepsShield(START, steps, w.agent.flows[f].job);
    ShieldedFiringExclusiveIff(w, f, w.agent.flows[f].job);
  }

  /** A firing that strikes a held, unguarded and unaccepted job can lead to two audits. */
  lemma HarmfulFiringAuditsTwice(w: World, f: nat, j: JobKey) returns (all: seq<Step>)
    requires Enabled(w.agent, OuterHandler(f)) && w.agent.flows[f].job == j && Shielded(w, j)
    requires j in w.agent.jobs.inFlight && !Guarded(w.lock, j) && j !in w.agent.accepted
    ensures Allowed(w, OuterHandler(f))
    ensures ValidIn(After(w, OuterHandler(f)), all) && NoHandlerStep(all)
    ensures RunIn(After(w, OuterHandler(f)), all).agent.audits[j] >= 2
  {
    FiringKeepsShape(w, f);
    var g, more, u, a := HarmfulFiring(w, f);
    var rest, v := JoinedAuditTwice(u, j, g, a);
    all := Join(After(w, OuterHandler(f)), more, u, rest, v, j);
  }

  lemma ShieldedFiringAuditsOnceIff(w: World, f: nat, j: JobKey)
    requires Enabled(w.agent, OuterHandler(f)) && w.agent.flows[f].job == j
    requires Ready(w) && AuditInv(w.agent, j) && (j in w.agent.accepted || Shielded(w, j))
    ensures Allowed(w, OuterHandler(f))
    ensures j !in w.agent.jobs.inFlight || Guarded(w.lock, j) || j in w.agent.accepted <==>
              forall more | ValidIn(After(w, OuterHandler(f)), more) && NoHandlerStep(more) ::
                RunIn(After(w, OuterHandler(f)), more).agent.audits[j] <= 1
  {
    if j !in w.agent.jobs.inFlight || Guarded(w.lock, j) || j in w.agent.accepted {
      HarmlessFiringAuditsOnce(w, f);
    } else {
      var all := HarmfulFiringAuditsTwice(w, f, j);
    }
  }

  /** Exactness for audits, with the lock: one more firing leaves the audit of the job it
      strikes single, however the run goes on, if and only if the job is not held, is guarded,
      or is already accepted. */
  lemma FiringAuditsOnceWithLockIff(steps: seq<Step>, f: nat)
    requires ValidIn(START, steps) && Enabled(RunIn(START, steps).agent, OuterHandler(f))
    requires HarmlessInUntilAccepted(START, steps, RunIn(START, steps).agent.flows[f].job)
    ensures var w := RunIn(START, steps);
            var j := w.agent.flows[f].job;
            Allowed(w, OuterHandler(f)) &&
            (j !in w.agent.jobs.inFlight || Guarded(w.lock, j) || j in w.agent.accepted <==>
              forall more | ValidIn(After(w, OuterHandler(f)), more) && NoHandlerStep(more) ::
                RunIn(After(w, OuterHandler(f)), more).agent.audits[j] <= 1)
  {
    var w := RunIn(START, steps);
    StartIsShielded(w.agent.flows[f].job);
    AuditInvWithLock(START, steps, w.agent.flows[f].job);
    ShieldedFiringAuditsOnceIff(w, f, w.agent.flows[f].job);
  }

  /** While a job is recorded and not yet accepted, nobody enters its bid section, marked or not,
      unless an event clears it. Error handlers may fire. */
  lemma RecordedAdmitsNobody(s: State, step: Step, j: JobKey)
    requires QueueInv(s) && OneHolder(s.flows, j) && j in s.jobs.submitted && j !in s.accepted
    requires Enabled(s, step) && step != DeliverCancelled(j) && step != DeliverWinner(j, false)
    ensures OneHolder(Apply(s, step).flows, j) && j in Apply(s, step).jobs.submitted
  {
    var t := Apply(s, step);
    forall f, g | Holds(t.flows, j, f) && Holds(t.flows, j, g)
      ensures f == g
    {
      HolderHeldBefore(s, step, j, f);
      HolderHeldBefore(s, step, j, g);
    }
  }

  lemma SettledWasHeld(s: State, d: nat, result: BidResult, j: JobKey, f: nat)
    requires QueueInv(s) && d < |s.drains| && s.drains[d].flow < |s.flows|
    requires Holds(Settle(s, d, result).flows, j, f)
    ensures Holds(s.flows, j, f)
  {
    CurrentIsOutstanding(s);
  }

  lemma HolderHeldBefore(s: State, step: Step, j: JobKey, f: nat)
    requires QueueInv(s) && j in s.jobs.submitted && Enabled(s, step) && Holds(Apply(s, step).flows, j, f)
    ensures Holds(s.flows, j, f)
  {
    if step.MarkInFlight? {
      assert s.flows[step.f].job != j;
    } else if OfFlow(step) {
      FlowStepMoves(s, step);
    } else if step.DropPublished? {
      SettledWasHeld(s, step.d, NothingSent, j, f);
    } else if step.DrainThrows? {
      SettledWasHeld(s, step.d, Rejected(step.duplicate), j, f);
    } else if step.ExecuteEnds? {
      SettledWasHeld(s, step.d, step.result, j, f);
    } else if step.BidRead? && step.answer {
      SettledWasHeld(s, step.d, AlreadyOnChain, j, f);
    }
  }

  lemma {:induction false} RecordedIsExclusive(s: State, steps: seq<Step>, j: JobKey)
    requires QueueInv(s) && OneHolder(s.flows, j) && j in s.jobs.submitted
    requires Valid(s, steps) && NoClearing(steps, j)
    ensures ExclusiveUntilAccepted(s, steps, j)
    decreases |steps|
  {
    if j in s.accepted || steps == [] {
    } else {
      assert steps[0] != DeliverCancelled(j) && steps[0] != DeliverWinner(j, false);
      assert forall i | 0 <= i < |steps[1..]| :: steps[1..][i] == steps[i + 1];
      RecordedAdmitsNobody(s, steps[0], j);
      StepKeepsQueue(s, steps[0]);
      RecordedIsExclusive(Apply(s, steps[0]), steps[1..], j);
    }
  }

  lemma HarmlessFiringAuditsOnce(w: World, f: nat)
    requires Ready(w) && Enabled(w.agent, OuterHandler(f)) && AuditInv(w.agent, w.agent.flows[f].job)
    requires w.agent.flows[f].job in w.agent.accepted || Shielded(w, w.agent.flows[f].job)
    requires w.agent.flows[f].job in w.agent.accepted || HarmlessIn(w, OuterHandler(f), w.agent.flows[f].job)
    ensures Allowed(w, OuterHandler(f))
    ensures forall more | ValidIn(After(w, OuterHandler(f)), more) && NoHandlerStep(more) ::
              RunIn(After(w, OuterHandler(f)), more).agent.audits[w.agent.flows[f].job] <= 1
  {
    var j := w.agent.flows[f].job;
    FiringKeepsShape(w, f);
    var t := After(w, OuterHandler(f));
    if j !in w.agent.accepted {
      ShieldIsExclusive(w, j);
      StepKeepsShield(w, OuterHandler(f), j);
    }
    StepKeepsAudits(w.agent, OuterHandler(f), j);
    forall more | ValidIn(t, more) && NoHandlerStep(more)
      ensures RunIn(t, more).agent.audits[j] <= 1
    {
      NoHandlerIsHarmlessIn(t, more, j);
      AuditInvWithLock(t, more, j);
      AuditInvBounds(RunIn(t, more).agent, j);
    }
  }

  lemma RecordedFiringAuditsOnce(w: World, f: nat)
    requires Ready(w) && Enabled(w.agent, OuterHandler(f)) && AuditInv(w.agent, w.agent.flows[f].job)
    requires Shielded(w, w.agent.flows[f].job) && w.agent.flows[f].job in w.agent.jobs.submitted
    ensures Allowed(w, OuterHandler(f))
    ensures var j := w.agent.flows[f].job;
            forall more | ValidIn(After(w, OuterHandler(f)), more) && NoClearing(more, j) ::
              RunIn(After(w, OuterHandler(f)), more).agent.audits[j] <= 1
  {
    var j := w.agent.flows[f].job;
    FiringKeepsShape(w, f);
    ShieldIsExclusive(w, j);
    StepKeepsAudits(w.agent, OuterHandler(f), j);
    var t := After(w, OuterHandler(f));
    forall more | ValidIn(t, more) && NoClearing(more, j)
      ensures RunIn(t, more).agent.audits[j] <= 1
    {
      ProjectsOnBoth(t, more);
      RecordedIsExclusive(t.agent, more, j);
      RunKeepsAudits(t.agent, more, j);
      AuditInvBounds(RunIn(t, more).agent, j);
    }
  }

  /** A firing that strikes a held, unguarded job, unaccepted and unrecorded, can lead to two
      audits without any event that clears the job. */
  lemma UnrecordedFiringAuditsTwice(w: World, f: nat) returns (more: seq<Step>)
    requires Enabled(w.agent, OuterHandler(f))
    requires var j := w.agent.flows[f].job;
             && Shielded(w, j) && j in w.agent.jobs.inFlight && !Guarded(w.lock, j)
             && j !in w.agent.accepted && !Recorded(w.agent, j)
             && forall g: nat | Holds(w.agent.flows, j, g) :: !ToldDuplicate(w.agent.flows[g].pc)
    ensures Allowed(w, OuterHandler(f))
    ensures var t := After(w, OuterHandler(f));
            var j := w.agent.flows[f].job;
            ValidIn(t, more) && NoHandlerStep(more) && NoClearing(more, j) && RunIn(t, more).agent.audits[j] > 1
  {
    var j := w.agent.flows[f].job;
    FiringKeepsShape(w, f);
    var g, first, u, a := HarmfulFiring(w, f);
    var rest, v := JoinedAuditTwice(u, j, g, a);
    more := Join(After(w, OuterHandler(f)), first, u, rest, v, j);
  }

  lemma ShieldedFiringUnclearedIff(w: World, f: nat, j: JobKey)
    requires Enabled(w.agent, OuterHandler(f)) && w.agent.flows[f].job == j
    requires Ready(w) && AuditInv(w.agent, j) && (j in w.agent.accepted || Shielded(w, j))
    requires PendingWithinSubmitted(w.agent)
    requires forall g: nat | Holds(w.agent.flows, j, g) && ToldDuplicate(w.agent.flows[g].pc) :: j in w.agent.accepted
    ensures Allowed(w, OuterHandler(f))
    ensures (|| j !in w.agent.jobs.inFlight || Guarded(w.lock, j)
             || j in w.agent.accepted || j in w.agent.jobs.submitted) <==>
              forall more | ValidIn(After(w, OuterHandler(f)), more) && NoHandlerStep(more) && NoClearing(more, j) ::
                RunIn(After(w, OuterHandler(f)), more).agent.audits[j] <= 1
  {
    if j !in w.agent.jobs.inFlight || Guarded(w.lock, j) || j in w.agent.accepted {
      HarmlessFiringAuditsOnce(w, f);
    } else if j in w.agent.jobs.submitted {
      RecordedFiringAuditsOnce(w, f);
    } else {
      var more := UnrecordedFiringAuditsTwice(w, f);
    }
  }

  /** Exactness for audits, with the lock, in continuations that neither cancel the job nor report
      it lost: then a job that is already recorded locally is safe as well, since no second flow
      passes the duplicate checks. A verdict that a bid exists is taken to come from a chain that
      has accepted it. */
  lemma FiringAuditsOnceUnclearedIff(steps: seq<Step>, f: nat)
    requires ValidIn(START, steps) && Enabled(RunIn(START, steps).agent, OuterHandler(f))
    requires HarmlessInUntilAccepted(START, steps, RunIn(START, steps).agent.flows[f].job)
    requires var s := RunIn(START, steps).agent;
             var j := s.flows[f].job;
             forall g: nat | Holds(s.flows, j, g) && ToldDuplicate(s.flows[g].pc) :: j in s.accepted
    ensures var w := RunIn(START, steps);
            var j := w.agent.flows[f].job;
            Allowed(w, OuterHandler(f)) &&
            (|| j !in w.agent.jobs.inFlight || Guarded(w.lock, j)
             || j in w.agent.accepted || j in w.agent.jobs.submitted <==>
              forall more | ValidIn(After(w, OuterHandler(f)), more) && NoHandlerStep(more) && NoClearing(more, j) ::
                RunIn(After(w, OuterHandler(f)), more).agent.audits[j] <= 1)
  {
    var w := RunIn(START, steps);
    var j := w.agent.flows[f].job;
    StartIsShielded(j);
    AuditInvWithLock(START, steps, j);
    ProjectsOnBoth(START, steps);
    PendingJobsAreSubmitted(INIT, steps);
    ShieldedFiringUnclearedIff(w, f, j);
  }

  // ---- Without assuming anything of the lock ----

  /** A lock that has let everybody pass so far, in the state the flows are in. */
  function Permissive(s: State): L.State {
    L.State(
      seq(|s.flows|, i requires 0 <= i < |s.flows| => L.Caller(s.flows[i].job, None, PhaseOf(s.flows[i].pc))),
      map[])
  }

  lemma PermissiveIsReady(s: State, j: JobKey)
    requires QueueInv(s)
    ensures Ready(World(s, Permissive(s))) && !Guarded(Permissive(s), j)
  {
  }

  lemma SpareFiringIsExclusive(s: State, f: nat, more: seq<Step>, j: JobKey)
    requires QueueInv(s) && MarksOf(s, j) && Enabled(s, OuterHandler(f)) && Harmless(s, OuterHandler(f), j)
    requires Valid(Apply(s, OuterHandler(f)), more) && NoHandlerStep(more)
    ensures OneHolder(Run(Apply(s, OuterHandler(f)), more).flows, j)
  {
    var t := Apply(s, OuterHandler(f));
    StepKeepsMarks(s, OuterHandler(f), j);
    StepKeepsQueue(s, OuterHandler(f));
    NoHandlerIsHarmless(t, more, j);
    RunKeepsMarks(t, more, j);
  }

  /** A firing on a held job lets a second flow in, if nothing is known of the lock. */
  lemma StrikeOverlaps(s: State, f: nat, j: JobKey) returns (more: seq<Step>, g: nat, u: World, a: nat)
    requires QueueInv(s) && MarksOf(s, j) && Enabled(s, OuterHandler(f)) && s.flows[f].job == j && j in s.jobs.inFlight
    ensures Valid(Apply(s, OuterHandler(f)), more) && NoHandlerStep(more)
    ensures u.agent == Run(Apply(s, OuterHandler(f)), more)
    ensures Ready(u) && Holds(u.agent.flows, j, g) && FlowAt(u, a, j, Preparing) && a != g
    ensures (u.agent.accepted, u.agent.audits) == (s.accepted, s.audits)
  {
    var w := World(s, Permissive(s));
    PermissiveIsReady(s, j);
    g, more, u, a := HarmfulFiring(w, f);
    FiringKeepsShape(w, f);
    ProjectsOnBoth(After(w, OuterHandler(f)), more);
  }

  lemma MarkedFiringExclusiveIff(s: State, f: nat, j: JobKey)
    requires QueueInv(s) && MarksOf(s, j) && Enabled(s, OuterHandler(f)) && s.flows[f].job == j
    ensures j !in s.jobs.inFlight <==>
              forall more | Valid(Apply(s, OuterHandler(f)), more) && NoHandlerStep(more) ::
                OneHolder(Run(Apply(s, OuterHandler(f)), more).flows, j)
  {
    if j !in s.jobs.inFlight {
      forall more | Valid(Apply(s, OuterHandler(f)), more) && NoHandlerStep(more)
        ensures OneHolder(Run(Apply(s, OuterHandler(f)), more).flows, j)
      {
        SpareFiringIsExclusive(s, f, more, j);
      }
    } else {
      var more, g, u, a := StrikeOverlaps(s, f, j);
      assert Holds(u.agent.flows, j, g) && Holds(u.agent.flows, j, a);
    }
  }

  /** Exactness when nothing is known of the lock: after any run in which the error handler has
      struck the job only unheld, one more firing keeps its bid section exclusive, however the
      run goes on, if and only if the job is not held. */
  lemma FiringExclusiveIff(steps: seq<Step>, f: nat)
    requires Valid(INIT, steps) && Enabled(Run(INIT, steps), OuterHandler(f))
    requires HarmlessRun(INIT, steps, Run(INIT, steps).flows[f].job)
    ensures var s := Run(INIT, steps);
            var j := s.flows[f].job;
            j !in s.jobs.inFlight <==>
              forall more | Valid(Apply(s, OuterHandler(f)), more) && NoHandlerStep(more) ::
                OneHolder(Run(Apply(s, OuterHandler(f)), more).flows, j)
  {
    var s := Run(INIT, steps);
    RunKeepsMarks(INIT, steps, s.flows[f].job);
    MarkedFiringExclusiveIff(s, f, s.flows[f].job);
  }

  lemma SettledRunAuditsOnce(t: State, more: seq<Step>, j: JobKey)
    requires QueueInv(t) && AuditInv(t, j) && (j in t.accepted || MarksOf(t, j))
    requires Valid(t, more) && NoHandlerStep(more)
    ensures Run(t, more).audits[j] <= 1
  {
    if j !in t.accepted {
      NoHandlerIsHarmless(t, more, j);
      HarmlessIsHarmlessUntilAccepted(t, more, j);
      HarmlessIsExclusive(t, more, j);
    }
    RunKeepsAudits(t, more, j);
    AuditInvBounds(Run(t, more), j);
  }

  lemma SpareFiringAuditsOnce(s: State, f: nat, more: seq<Step>, j: JobKey)
    requires QueueInv(s) && AuditInv(s, j) && Enabled(s, OuterHandler(f))
    requires j in s.accepted || (MarksOf(s, j) && Harmless(s, OuterHandler(f), j))
    requires Valid(Apply(s, OuterHandler(f)), more) && NoHandlerStep(more)
    ensures Run(Apply(s, OuterHandler(f)), more).audits[j] <= 1
  {
    if j !in s.accepted {
      StepKeepsMarks(s, OuterHandler(f), j);
    }
    StepKeepsQueue(s, OuterHandler(f));
    StepKeepsAudits(s, OuterHandler(f), j);
    SettledRunAuditsOnce(Apply(s, OuterHandler(f)), more, j);
  }

  /** A firing on a held, unaccepted job can lead to two audits, if nothing is known of the lock. */
  lemma StrikeAuditsTwice(s: State, f: nat, j: JobKey) returns (all: seq<Step>)
    requires QueueInv(s) && MarksOf(s, j) && Enabled(s, OuterHandler(f)) && s.flows[f].job == j && j in s.jobs.inFlight
    requires j !in s.accepted
    ensures Valid(Apply(s, OuterHandler(f)), all) && NoHandlerStep(all)
    ensures Run(Apply(s, OuterHandler(f)), all).audits[j] >= 2
  {
    var more, g, u, a := StrikeOverlaps(s, f, j);
    var rest, v := JoinedAuditTwice(u, j, g, a);
    ProjectsOnBoth(u, rest);
    RunConcat(Apply(s, OuterHandler(f)), more, rest);
    all := more + rest;
  }

  lemma KnownFiringAuditsOnceIff(s: State, f: nat, j: JobKey)
    requires QueueInv(s) && AuditInv(s, j) && (j in s.accepted || MarksOf(s, j))
    requires Enabled(s, OuterHandler(f)) && s.flows[f].job == j
    ensures j !in s.jobs.inFlight || j in s.accepted <==>
              forall more | Valid(Apply(s, OuterHandler(f)), more) && NoHandlerStep(more) ::
                Run(Apply(s, OuterHandler(f)), more).audits[j] <= 1
  {
    if j !in s.jobs.inFlight || j in s.accepted {
      forall more | Valid(Apply(s, OuterHandler(f)), more) && NoHandlerStep(more)
        ensures Run(Apply(s, OuterHandler(f)), more).audits[j] <= 1
      {
        SpareFiringAuditsOnce(s, f, more, j);
      }
    } else {
      var all := StrikeAuditsTwice(s, f, j);
    }
  }

  /** Exactness for audits when nothing is known of the lock: one more firing leaves the audit
      single, however the run goes on, if and only if the job is not held or is already
      accepted. */
  lemma FiringAuditsOnceIff(steps: seq<Step>, f: nat)
    requires Valid(INIT, steps) && Enabled(Run(INIT, steps), OuterHandler(f))
    requires HarmlessUntilAccepted(INIT, steps, Run(INIT, steps).flows[f].job)
    ensures var s := Run(INIT, steps);
            var j := s.flows[f].job;
            j !in s.jobs.inFlight || j in s.accepted <==>
              forall more | Valid(Apply(s, OuterHandler(f)), more) && NoHandlerStep(more) ::
                Run(Apply(s, OuterHandler(f)), more).audits[j] <= 1
  {
    var s := Run(INIT, steps);
    var j := s.flows[f].job;
    HarmlessIsExclusive(INIT, steps, j);
    RunKeepsAudits(INIT, steps, j);
    KnownFiringAuditsOnceIff(s, f, j);
  }
}
