/**
 Whole-run safety of bidding, job by job: pending jobs are submitted jobs, a job becomes
 pending at most once between two events that clear it, and its audit cycle starts at most
 once however often invitations and winner events are repeated. All of this needs the bid
 section to be exclusive only until the chain has accepted a bid for the job: from then on
 every chain read shows it, and no flow gains the means to record another.
 */
module AuditOnce {
  import opened AgentState
  import opened BidSystem
  import opened BidQueueSafety
  import opened BidMarks

  // ---- Pending within submitted: every run, error handler included ----

  predicate PendingWithinSubmitted(s: State) {
    s.jobs.pending.Keys <= s.jobs.submitted
  }

  lemma StepKeepsPendingWithin(s: State, step: Step)
    requires PendingWithinSubmitted(s) && Enabled(s, step)
    ensures PendingWithinSubmitted(Apply(s, step))
  {
  }

  lemma {:induction false} PendingJobsAreSubmitted(s: State, steps: seq<Step>)
    requires PendingWithinSubmitted(s) && Valid(s, steps)
    ensures PendingWithinSubmitted(Run(s, steps))
    decreases |steps|
  {
    if steps == [] {
    } else {
      StepKeepsPendingWithin(s, steps[0]);
      PendingJobsAreSubmitted(Apply(s, steps[0]), steps[1..]);
    }
  }

  // ---- Until the job is accepted ----

  predicate Early(pc: Pc) {
    pc == Preparing || pc == InQueue || pc.Settled?
  }

  /** A flow that has yet to record its bid works on a job that is not recorded. */
  ghost predicate EarlyInv(s: State, j: JobKey) {
    j in s.jobs.submitted ==> forall f | 0 <= f < |s.flows| && s.flows[f].job == j :: !Early(s.flows[f].pc)
  }

  /** Between clearing events pending was set at most once, and then the job is recorded. */
  predicate PendingSetOnce(s: State, j: JobKey) {
    s.pendingSets[j] <= 1 && (s.pendingSets[j] == 1 ==> j in s.jobs.submitted)
  }

  ghost predicate BeforeAcceptance(s: State, j: JobKey) {
    && j !in s.accepted
    && QueueInv(s)
    && PendingWithinSubmitted(s)
    && EarlyInv(s, j)
    && PendingSetOnce(s, j)
    && s.audits[j] == 0
  }

  lemma MovedKeepsEarly(s: State, t: State, f: nat, pc: Pc, j: JobKey)
    requires OneHolder(s.flows, j) && EarlyInv(s, j) && f < |s.flows|
    requires t.flows == s.flows[f := s.flows[f].(pc := pc)]
    requires s.flows[f].job != j && j in t.jobs.submitted ==> j in s.jobs.submitted
    requires s.flows[f].job == j && j in t.jobs.submitted ==>
               !Early(pc) && (j in s.jobs.submitted || Marked(s.flows[f].pc))
    ensures EarlyInv(t, j)
  {
    if s.flows[f].job == j && Marked(s.flows[f].pc) {
      assert forall g | 0 <= g < |s.flows| && g != f && s.flows[g].job == j :: !Early(s.flows[g].pc) by {
        forall g | 0 <= g < |s.flows| && g != f && s.flows[g].job == j
          ensures !Early(s.flows[g].pc)
        {
          assert Holds(s.flows, j, f) && Holds(s.flows, j, g) ==> f == g;
        }
      }
    }
  }

  lemma FlowStepKeepsEarly(s: State, step: Step, j: JobKey)
    requires OneHolder(s.flows, j) && EarlyInv(s, j) && Enabled(s, step) && OfFlow(step)
    ensures EarlyInv(Apply(s, step), j)
  {
    var t := Apply(s, step);
    MovedKeepsEarly(s, t, step.f, t.flows[step.f].pc, j);
  }

  /** A settled task was awaited, so its flow stays early. */
  lemma SettleKeepsEarly(s: State, d: nat, result: BidResult, j: JobKey)
    requires QueueInv(s) && EarlyInv(s, j) && d < |s.drains| && s.drains[d].flow < |s.flows|
    ensures EarlyInv(Settle(s, d, result), j)
  {
    CurrentIsOutstanding(s);
  }

  lemma StepKeepsEarly(s: State, step: Step, j: JobKey)
    requires QueueInv(s) && OneHolder(s.flows, j) && EarlyInv(s, j) && Enabled(s, step)
    ensures EarlyInv(Apply(s, step), j)
  {
    if OfFlow(step) {
      FlowStepKeepsEarly(s, step, j);
    } else if step.DropPublished? {
      SettleKeepsEarly(s, step.d, NothingSent, j);
    } else if step.DrainThrows? {
      SettleKeepsEarly(s, step.d, Rejected(step.duplicate), j);
    } else if step.ExecuteEnds? {
      SettleKeepsEarly(s, step.d, step.result, j);
    } else if step.BidRead? && step.answer {
      SettleKeepsEarly(s, step.d, AlreadyOnChain, j);
    }
  }

  lemma StepKeepsPendingSets(s: State, step: Step, j: JobKey)
    requires EarlyInv(s, j) && PendingSetOnce(s, j) && Enabled(s, step)
    ensures PendingSetOnce(Apply(s, step), j)
  {
  }

  // ---- From acceptance on ----

  predicate InHand(drains: seq<Drain>, f: nat) {
    |drains| == 1 && drains[0].flow == f && (drains[0].at.Bidding? || drains[0].at == ReadingBid(false))
  }

  /** The flow may still record a bid of the job without another chain read. */
  predicate CanRecord(s: State, j: JobKey, f: nat) {
    f < |s.flows| && s.flows[f].job == j && (s.flows[f].pc == Settled(Sent) || InHand(s.drains, f))
  }

  ghost predicate Spent(s: State, j: JobKey) {
    forall f :: !CanRecord(s, j, f)
  }

  /** At most one flow can still record a bid; none can once one has been recorded as pending,
      and none once an audit has started. */
  ghost predicate AfterAcceptance(s: State, j: JobKey) {
    && j in s.accepted
    && QueueInv(s)
    && (forall f, g :: CanRecord(s, j, f) && CanRecord(s, j, g) ==> f == g)
    && (j in s.jobs.pending || s.pendingSets[j] == 1 || s.audits[j] == 1 ==> Spent(s, j))
    && s.pendingSets[j] <= 1
    && s.audits[j] <= 1
    && (s.audits[j] == 1 ==> j !in s.jobs.pending)
  }

  /** A new drain starts at its first read. */
  lemma EnqueueShape(s: State, f: nat)
    requires QueueInv(s) && Enabled(s, Enqueue(f))
    ensures var t := Apply(s, Enqueue(f));
            && t.flows == s.flows[f := s.flows[f].(pc := InQueue)]
            && (t.drains == s.drains || (|t.drains| == 1 && t.drains[0].at == ReadingWindow))
  {
  }

  lemma FlowStepMakesNoRecorder(s: State, step: Step, j: JobKey, f: nat)
    requires QueueInv(s) && Enabled(s, step) && OfFlow(step)
    requires CanRecord(Apply(s, step), j, f)
    ensures CanRecord(s, j, f)
  {
    if step.Enqueue? {
      EnqueueShape(s, step.f);
    } else {
      FlowStepMoves(s, step);
    }
  }

  /** A settled task can be recorded only if it was in hand and sent. */
  lemma SettleMakesNoRecorder(s: State, d: nat, result: BidResult, j: JobKey, f: nat)
    requires QueueInv(s) && d < |s.drains| && s.drains[d].flow < |s.flows|
    requires result.Sent? ==> s.drains[d].at.Bidding?
    requires CanRecord(Settle(s, d, result), j, f)
    ensures CanRecord(s, j, f)
  {
  }

  /** Once the job is accepted, no step gives a flow the means to record a bid. */
  lemma NoNewRecorder(s: State, step: Step, j: JobKey, f: nat)
    requires QueueInv(s) && j in s.accepted && Enabled(s, step)
    requires CanRecord(Apply(s, step), j, f)
    ensures CanRecord(s, j, f)
  {
    if |s.drains| == 1 {
      CurrentIsOutstanding(s);
    }
    if OfFlow(step) {
      FlowStepMakesNoRecorder(s, step, j, f);
    } else if step.DropPublished? {
      SettleMakesNoRecorder(s, step.d, NothingSent, j, f);
    } else if step.DrainThrows? {
      SettleMakesNoRecorder(s, step.d, Rejected(step.duplicate), j, f);
    } else if step.ExecuteEnds? {
      SettleMakesNoRecorder(s, step.d, step.result, j, f);
    } else if step.BidRead? && step.answer {
      SettleMakesNoRecorder(s, step.d, AlreadyOnChain, j, f);
    }
  }

  lemma OnlyResumeSetsPending(s: State, step: Step, j: JobKey)
    requires Enabled(s, step)
    requires Apply(s, step).pendingSets[j] > s.pendingSets[j]
               || (j in Apply(s, step).jobs.pending && j !in s.jobs.pending)
    ensures step.Resume? && s.flows[step.f].job == j && s.flows[step.f].pc == Settled(Sent)
  {
  }

  /** Pending is set only by a flow that could record, and which then no longer can. */
  lemma PendingSetSpends(s: State, step: Step, j: JobKey)
    requires QueueInv(s) && Enabled(s, step)
    requires Apply(s, step).pendingSets[j] > s.pendingSets[j]
               || (j in Apply(s, step).jobs.pending && j !in s.jobs.pending)
    ensures step.Resume? && CanRecord(s, j, step.f) && !CanRecord(Apply(s, step), j, step.f)
    ensures Apply(s, step).pendingSets[j] == s.pendingSets[j] + 1 && Apply(s, step).audits[j] == s.audits[j]
  {
    OnlyResumeSetsPending(s, step, j);
    if |s.drains| == 1 {
      CurrentIsOutstanding(s);
    }
  }

  /** An audit is started only by a winner event that finds the job pending, and clears it. */
  lemma AuditNeedsPending(s: State, step: Step, j: JobKey)
    requires Enabled(s, step)
    ensures s.audits[j] <= Apply(s, step).audits[j] <= s.audits[j] + 1
    ensures Apply(s, step).audits[j] > s.audits[j] ==> j in s.jobs.pending && j !in Apply(s, step).jobs.pending
  {
  }

  lemma StepKeepsAfterAcceptance(s: State, step: Step, j: JobKey)
    requires AfterAcceptance(s, j) && Enabled(s, step)
    ensures AfterAcceptance(Apply(s, step), j)
  {
    var t := Apply(s, step);
    StepKeepsQueue(s, step);
    AuditNeedsPending(s, step, j);
    forall f | CanRecord(t, j, f)
      ensures CanRecord(s, j, f)
    {
      NoNewRecorder(s, step, j, f);
    }
    if t.pendingSets[j] > s.pendingSets[j] || (j in t.jobs.pending && j !in s.jobs.pending) {
      PendingSetSpends(s, step, j);
    }
  }

  /** At acceptance at most one flow is in the bid section, so at most one can record. */
  lemma AcceptanceIsSafe(s: State, j: JobKey)
    requires BeforeAcceptance(s, j) && OneHolder(s.flows, j) && Enabled(s, ChainAccepts(j))
    ensures AfterAcceptance(Apply(s, ChainAccepts(j)), j)
  {
    var t := Apply(s, ChainAccepts(j));
    StepKeepsQueue(s, ChainAccepts(j));
    forall f: nat | CanRecord(t, j, f)
      ensures Holds(s.flows, j, f) && Early(s.flows[f].pc)
    {
      if |s.drains| == 1 {
        CurrentIsOutstanding(s);
      }
    }
  }

  ghost predicate AuditInv(s: State, j: JobKey) {
    BeforeAcceptance(s, j) || AfterAcceptance(s, j)
  }

  lemma StepKeepsAudits(s: State, step: Step, j: JobKey)
    requires AuditInv(s, j) && Enabled(s, step) && (j !in s.accepted ==> OneHolder(s.flows, j))
    ensures AuditInv(Apply(s, step), j)
  {
    if j in s.accepted {
      StepKeepsAfterAcceptance(s, step, j);
    } else if step == ChainAccepts(j) {
      AcceptanceIsSafe(s, j);
    } else {
      StepKeepsQueue(s, step);
      StepKeepsEarly(s, step, j);
      StepKeepsPendingSets(s, step, j);
      StepKeepsPendingWithin(s, step);
      StepKeepsUnaccepted(s, step, j);
    }
  }

  lemma StepKeepsUnaccepted(s: State, step: Step, j: JobKey)
    requires j !in s.accepted && Enabled(s, step) && step != ChainAccepts(j)
    ensures j !in Apply(s, step).accepted && Apply(s, step).audits[j] == s.audits[j]
  {
  }

  /** The invariant holds along every run in which the job's bid section is exclusive until
      the job is accepted, whatever makes it so and whatever happens afterwards. */
  lemma {:induction false} RunKeepsAudits(s: State, steps: seq<Step>, j: JobKey)
    requires AuditInv(s, j) && Valid(s, steps) && ExclusiveUntilAccepted(s, steps, j)
    ensures AuditInv(Run(s, steps), j)
    decreases |steps|
  {
    if steps == [] {
    } else {
      StepKeepsAudits(s, steps[0], j);
      if j in s.accepted {
        assert j in Apply(s, steps[0]).accepted;
      }
      RunKeepsAudits(Apply(s, steps[0]), steps[1..], j);
    }
  }

  lemma AuditInvBounds(s: State, j: JobKey)
    requires AuditInv(s, j)
    ensures s.audits[j] <= 1 && s.pendingSets[j] <= 1
  {
  }

  // ---- The theorems ----

  /** Over every run in which, until the job is accepted, the error handler does not strike it
      while it is held, the job's audit cycle starts at most once, and between two clearing
      events the job becomes pending at most once. After acceptance, and for other jobs, the
      handler may fire at will; invitations and winner events may be repeated or late. */
  lemma AuditStartsAtMostOnce(steps: seq<Step>, j: JobKey)
    requires Valid(INIT, steps) && HarmlessUntilAccepted(INIT, steps, j)
    ensures Run(INIT, steps).audits[j] <= 1
    ensures Run(INIT, steps).pendingSets[j] <= 1
  {
    HarmlessIsExclusive(INIT, steps, j);
    RunKeepsAudits(INIT, steps, j);
    AuditInvBounds(Run(INIT, steps), j);
  }

  /** The same, in particular, when the error handler never fires. */
  lemma AuditStartsAtMostOnceWithoutHandler(steps: seq<Step>, j: JobKey)
    requires Valid(INIT, steps) && NoHandlerStep(steps)
    ensures Run(INIT, steps).audits[j] <= 1
    ensures Run(INIT, steps).pendingSets[j] <= 1
  {
    NoHandlerIsHarmless(INIT, steps, j);
    HarmlessIsHarmlessUntilAccepted(INIT, steps, j);
    AuditStartsAtMostOnce(steps, j);
  }
}
