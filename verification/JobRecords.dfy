/**
 What each step of the agent does to its records of a job, written out set by set, and what
 follows over whole runs: every audit is one of a contract that an invitation named, a job the
 error handler has struck is not audited until it is recorded anew, and a job known to have a
 bid is not bid for again until an event clears it.
 */
module JobRecords {
  import opened AgentState
  import opened BidMarks
  import opened BidSystem

  // ---- One step ----

  predicate OfJob(s: State, f: nat, j: JobKey) {
    f < |s.flows| && s.flows[f].job == j
  }

  predicate ResumesWith(s: State, step: Step, j: JobKey, results: set<BidResult>) {
    step.Resume? && OfJob(s, step.f, j) && s.flows[step.f].pc.Settled? && s.flows[step.f].pc.result in results
  }

  /** The step by which a flow sets the mark of the job. */
  predicate Enters(s: State, step: Step, j: JobKey) {
    step.MarkInFlight? && OfJob(s, step.f, j)
  }

  /** A flow leaves the bid section, or its error reaches the handler: the mark is deleted. */
  predicate Unmarks(s: State, step: Step, j: JobKey) {
    || ((step.PrepareStops? || step.BidPublished? || step.Reported? || step.OuterHandler?) && OfJob(s, step.f, j))
    || ResumesWith(s, step, j, {AlreadyOnChain, NothingSent})
  }

  /** A flow learns that the chain has, or is told that it has, a bid of ours. */
  predicate Learns(s: State, step: Step, j: JobKey) {
    || ((step.PrepareThrows? || step.BidPublishThrows?) && step.duplicate && OfJob(s, step.f, j))
    || ResumesWith(s, step, j, {Sent, AlreadyOnChain, Rejected(true)})
  }

  predicate Clears(step: Step, j: JobKey) {
    step == DeliverCancelled(j) || step == DeliverWinner(j, true) || step == DeliverWinner(j, false)
  }

  predicate OfMark(step: Step) {
    step.MarkInFlight? || step.PrepareStops? || step.BidPublished? || step.Reported? || step.OuterHandler?
  }

  predicate OfCatch(step: Step) {
    step.PrepareThrows? || step.BidPublishThrows?
  }

  predicate OfEvent(step: Step) {
    step.DeliverWinner? || step.DeliverCancelled? || step.CompetitorBid?
  }

  predicate Touches(step: Step) {
    OfMark(step) || OfCatch(step) || OfEvent(step) || step.Resume?
  }

  /** The records of all jobs, and the audits started so far. */
  function Records(s: State): (Jobs, multiset<JobKey>, seq<(JobKey, PendingJob)>) {
    (s.jobs, s.audits, s.started)
  }

  lemma SettleKeepsRecords(s: State, d: nat, result: BidResult)
    requires d < |s.drains| && s.drains[d].flow < |s.flows|
    ensures Records(Settle(s, d, result)) == Records(s)
  {
  }

  lemma OthersKeepRecords(s: State, step: Step)
    requires Enabled(s, step) && !Touches(step)
    ensures Records(Apply(s, step)) == Records(s)
  {
    if step.DropPublished? {
      SettleKeepsRecords(s, step.d, NothingSent);
    } else if step.DrainThrows? {
      SettleKeepsRecords(s, step.d, Rejected(step.duplicate));
    } else if step.ExecuteEnds? {
      SettleKeepsRecords(s, step.d, step.result);
    } else if step.BidRead? && step.answer {
      SettleKeepsRecords(s, step.d, AlreadyOnChain);
    }
  }

  /** The mark is set on entering and deleted on leaving and by the handler, and by nothing else. */
  predicate MarkFollows(s: State, step: Step, t: State, j: JobKey) {
    j in t.jobs.inFlight <==> Enters(s, step, j) || (j in s.jobs.inFlight && !Unmarks(s, step, j))
  }

  /** The record of a bid is made when a flow learns of one, and deleted by the events that clear
      the job. */
  predicate SubmittedFollows(s: State, step: Step, t: State, j: JobKey) {
    j in t.jobs.submitted <==> Learns(s, step, j) || (j in s.jobs.submitted && !Clears(step, j))
  }

  /** The pending entry is set by a flow whose bid was sent, to what that flow was invited for, and
      deleted by the events that clear the job and by the handler. */
  predicate PendingFollows(s: State, step: Step, t: State, j: JobKey) {
    var sets := ResumesWith(s, step, j, {Sent});
    var deletes := Clears(step, j) || (step.OuterHandler? && OfJob(s, step.f, j));
    && (j in t.jobs.pending <==> sets || (j in s.jobs.pending && !deletes))
    && (j in t.jobs.pending ==>
          if sets then t.jobs.pending[j] == s.flows[step.f].info
          else j in s.jobs.pending && t.jobs.pending[j] == s.jobs.pending[j])
  }

  /** An audit starts when a winner event naming us finds the job pending, and on that entry. */
  predicate AuditsFollow(s: State, step: Step, t: State, j: JobKey) {
    var starts := step == DeliverWinner(j, true) && j in s.jobs.pending;
    && t.audits[j] == s.audits[j] + (if starts then 1 else 0)
    && (starts ==> t.started == s.started + [(j, s.jobs.pending[j])])
  }

  predicate RecordsFollow(s: State, step: Step, t: State, j: JobKey) {
    MarkFollows(s, step, t, j) && SubmittedFollows(s, step, t, j)
    && PendingFollows(s, step, t, j) && AuditsFollow(s, step, t, j)
  }

  lemma MarkStepsFollow(s: State, step: Step, j: JobKey)
    requires Enabled(s, step) && OfMark(step)
    ensures RecordsFollow(s, step, Apply(s, step), j)
  {
  }

  lemma CatchStepsFollow(s: State, step: Step, j: JobKey)
    requires Enabled(s, step) && OfCatch(step)
    ensures RecordsFollow(s, step, Apply(s, step), j)
  {
  }

  lemma EventsFollow(s: State, step: Step, j: JobKey)
    requires Enabled(s, step) && OfEvent(step)
    ensures RecordsFollow(s, step, Apply(s, step), j)
  {
  }

  lemma ResumeFollows(s: State, f: nat, j: JobKey)
    requires Enabled(s, Resume(f))
    ensures RecordsFollow(s, Resume(f), Apply(s, Resume(f)), j)
  {
    match s.flows[f].pc.result
    case Sent =>
    case AlreadyOnChain =>
    case NothingSent =>
    case Rejected(_) =>
  }

  /** What any step does to the records of any job, in terms of the step and the records alone. */
  lemma StepsFollow(s: State, step: Step, j: JobKey)
    requires Enabled(s, step)
    ensures RecordsFollow(s, step, Apply(s, step), j)
  {
    if OfMark(step) {
      MarkStepsFollow(s, step, j);
    } else if OfCatch(step) {
      CatchStepsFollow(s, step, j);
    } else if OfEvent(step) {
      EventsFollow(s, step, j);
    } else if step.Resume? {
      ResumeFollows(s, step.f, j);
    } else {
      OthersKeepRecords(s, step);
    }
  }

  /** What is recorded of competitors is lowered by observations of a tracked job, kept otherwise, and
      deleted with the job's record. */
  predicate CompetitorFollows(s: State, step: Step, t: State, j: JobKey) {
    && (step == DeliverCancelled(j) ==> j !in t.jobs.competitors)
    && (Clears(step, j) && (j in s.jobs.pending || j in s.jobs.submitted) ==> j !in t.jobs.competitors)
    && (!Clears(step, j) && !(step.CompetitorBid? && step.job == j) ==>
          (j in t.jobs.competitors <==> j in s.jobs.competitors) &&
          (j in s.jobs.competitors ==> t.jobs.competitors[j] == s.jobs.competitors[j]))
  }

  lemma EventsCompete(s: State, step: Step, j: JobKey)
    requires Enabled(s, step) && OfEvent(step)
    ensures CompetitorFollows(s, step, Apply(s, step), j)
  {
  }

  lemma ResumeOnlyRecords(s: State, f: nat)
    requires Enabled(s, Resume(f))
    ensures var t := Apply(s, Resume(f));
            t.jobs.competitors == s.jobs.competitors && t.audits == s.audits && t.started == s.started
  {
  }

  /** Steps of flows leave what was observed, and the audits. */
  lemma FlowsOnlyRecord(s: State, step: Step)
    requires Enabled(s, step) && Touches(step) && !OfEvent(step)
    ensures var t := Apply(s, step);
            t.jobs.competitors == s.jobs.competitors && t.audits == s.audits && t.started == s.started
  {
    if step.Resume? {
      ResumeOnlyRecords(s, step.f);
    }
  }

  lemma UnobservedFollows(s: State, step: Step, t: State, j: JobKey)
    requires !OfEvent(step) && t.jobs.competitors == s.jobs.competitors
    ensures CompetitorFollows(s, step, t, j)
  {
  }

  lemma CompetitorsFollow(s: State, step: Step, j: JobKey)
    requires Enabled(s, step)
    ensures CompetitorFollows(s, step, Apply(s, step), j)
  {
    if OfEvent(step) {
      EventsCompete(s, step, j);
    } else if Touches(step) {
      FlowsOnlyRecord(s, step);
      UnobservedFollows(s, step, Apply(s, step), j);
    } else {
      OthersKeepRecords(s, step);
      UnobservedFollows(s, step, Apply(s, step), j);
    }
  }

  // ---- What a pending job and an audit are about ----

  /** Some flow was invited for the job with this contract. */
  predicate IsInvited(flows: seq<Flow>, j: JobKey, info: PendingJob) {
    exists f | 0 <= f < |flows| :: flows[f].job == j && flows[f].info == info
  }

  ghost predicate AboutInvited(s: State) {
    && (forall j | j in s.jobs.pending :: IsInvited(s.flows, j, s.jobs.pending[j]))
    && (forall n | 0 <= n < |s.started| :: IsInvited(s.flows, s.started[n].0, s.started[n].1))
  }

  /** What the flows were invited for, in the order of their invitations. */
  function Targets(flows: seq<Flow>): seq<(JobKey, PendingJob)> {
    seq(|flows|, f requires 0 <= f < |flows| => (flows[f].job, flows[f].info))
  }

  function InvitedBy(step: Step): seq<(JobKey, PendingJob)> {
    if step.Invite? then [(step.job, step.info)] else []
  }

  function Invitations(steps: seq<Step>): seq<(JobKey, PendingJob)> {
    if steps == [] then [] else InvitedBy(steps[0]) + Invitations(steps[1..])
  }

  /** Flows only move. */
  predicate OnlyPcs(flows: seq<Flow>, after: seq<Flow>) {
    |after| == |flows| && forall f | 0 <= f < |flows| :: after[f] == flows[f].(pc := after[f].pc)
  }

  lemma SettleMovesOnly(s: State, d: nat, result: BidResult)
    requires d < |s.drains| && s.drains[d].flow < |s.flows|
    ensures OnlyPcs(s.flows, Settle(s, d, result).flows)
  {
  }

  lemma StepMovesOnly(s: State, step: Step)
    requires Enabled(s, step) && !step.Invite?
    ensures OnlyPcs(s.flows, Apply(s, step).flows)
  {
    if OfFlow(step) {
      FlowStepMoves(s, step);
    } else if step.DropPublished? {
      SettleMovesOnly(s, step.d, NothingSent);
    } else if step.DrainThrows? {
      SettleMovesOnly(s, step.d, Rejected(step.duplicate));
    } else if step.ExecuteEnds? {
      SettleMovesOnly(s, step.d, step.result);
    } else if step.BidRead? && step.answer {
      SettleMovesOnly(s, step.d, AlreadyOnChain);
    }
  }

  lemma StepKeepsTargets(s: State, step: Step)
    requires Enabled(s, step)
    ensures Targets(Apply(s, step).flows) == Targets(s.flows) + InvitedBy(step)
  {
    if !step.Invite? {
      StepMovesOnly(s, step);
    }
  }

  lemma InvitedStays(s: State, step: Step, j: JobKey, info: PendingJob)
    requires Enabled(s, step) && IsInvited(s.flows, j, info)
    ensures IsInvited(Apply(s, step).flows, j, info)
  {
    StepKeepsTargets(s, step);
    var f :| 0 <= f < |s.flows| && s.flows[f].job == j && s.flows[f].info == info;
    assert Targets(Apply(s, step).flows)[f] == Targets(s.flows)[f];
  }

  lemma StartedChanges(s: State, step: Step)
    requires Enabled(s, step)
    ensures var t := Apply(s, step);
            t.started == s.started ||
            exists k :: k in s.jobs.pending && t.started == s.started + [(k, s.jobs.pending[k])]
  {
  }

  lemma StepKeepsAboutInvited(s: State, step: Step)
    requires AboutInvited(s) && Enabled(s, step)
    ensures AboutInvited(Apply(s, step))
  {
    var t := Apply(s, step);
    forall j | j in t.jobs.pending
      ensures IsInvited(t.flows, j, t.jobs.pending[j])
    {
      StepsFollow(s, step, j);
      if ResumesWith(s, step, j, {Sent}) {
        assert IsInvited(s.flows, j, s.flows[step.f].info);
      }
      InvitedStays(s, step, j, t.jobs.pending[j]);
    }
    StartedChanges(s, step);
    forall n | 0 <= n < |t.started|
      ensures IsInvited(t.flows, t.started[n].0, t.started[n].1)
    {
      if n < |s.started| {
        assert t.started[n] == s.started[n];
      }
      InvitedStays(s, step, t.started[n].0, t.started[n].1);
    }
  }

  lemma {:induction false} RunKeepsAboutInvited(s: State, steps: seq<Step>)
    requires AboutInvited(s) && Valid(s, steps)
    ensures AboutInvited(Run(s, steps))
    decreases |steps|
  {
    if steps == [] {
    } else {
      StepKeepsAboutInvited(s, steps[0]);
      RunKeepsAboutInvited(Apply(s, steps[0]), steps[1..]);
    }
  }

  lemma Associates<T>(a: seq<T>, b: seq<T>, c: seq<T>)
    ensures (a + b) + c == a + (b + c)
  {
  }

  lemma {:induction false} RunKeepsTargets(s: State, steps: seq<Step>)
    requires Valid(s, steps)
    ensures Targets(Run(s, steps).flows) == Targets(s.flows) + Invitations(steps)
    decreases |steps|
  {
    if steps == [] {
    } else {
      StepKeepsTargets(s, steps[0]);
      RunKeepsTargets(Apply(s, steps[0]), steps[1..]);
      Associates(Targets(s.flows), InvitedBy(steps[0]), Invitations(steps[1..]));
    }
  }

  /** Over every run, error handler included: what a job is pending for, and what an audit of it is
      started on, is what an invitation to that very job named. */
  lemma AuditsAreOfInvited(steps: seq<Step>)
    requires Valid(INIT, steps)
    ensures var s := Run(INIT, steps);
            && (forall j | j in s.jobs.pending :: (j, s.jobs.pending[j]) in Invitations(steps))
            && (forall n | 0 <= n < |s.started| :: s.started[n] in Invitations(steps))
  {
    RunKeepsAboutInvited(INIT, steps);
    RunKeepsTargets(INIT, steps);
    var s := Run(INIT, steps);
    assert Targets(s.flows) == Invitations(steps);
    forall j, info | IsInvited(s.flows, j, info)
      ensures (j, info) in Invitations(steps)
    {
      var f :| 0 <= f < |s.flows| && s.flows[f].job == j && s.flows[f].info == info;
      assert Targets(s.flows)[f] == (j, info);
    }
  }

  /** The jobs of the audits listed. */
  function JobsOf(started: seq<(JobKey, PendingJob)>): multiset<JobKey> {
    if started == [] then multiset{}
    else JobsOf(started[..|started| - 1]) + multiset{started[|started| - 1].0}
  }

  lemma EventIsListed(s: State, step: Step)
    requires JobsOf(s.started) == s.audits && Enabled(s, step) && OfEvent(step)
    ensures JobsOf(Apply(s, step).started) == Apply(s, step).audits
  {
    var t := Apply(s, step);
    if t.started != s.started {
      assert t.started[..|t.started| - 1] == s.started;
    }
  }

  lemma AuditIsListed(s: State, step: Step)
    requires JobsOf(s.started) == s.audits && Enabled(s, step)
    ensures JobsOf(Apply(s, step).started) == Apply(s, step).audits
  {
    if OfEvent(step) {
      EventIsListed(s, step);
    } else if Touches(step) {
      FlowsOnlyRecord(s, step);
    } else {
      OthersKeepRecords(s, step);
    }
  }

  /** The list and the count of audits agree. */
  lemma {:induction false} AuditsAreListed(s: State, steps: seq<Step>)
    requires JobsOf(s.started) == s.audits && Valid(s, steps)
    ensures JobsOf(Run(s, steps).started) == Run(s, steps).audits
    decreases |steps|
  {
    if steps == [] {
    } else {
      AuditIsListed(s, steps[0]);
      AuditsAreListed(Apply(s, steps[0]), steps[1..]);
    }
  }

  // ---- After the error handler ----

  /** No flow of the job records a sent bid. */
  ghost predicate NotRecordedAnew(s: State, steps: seq<Step>, j: JobKey)
    requires Valid(s, steps)
    decreases |steps|
  {
    steps == [] ||
    (!ResumesWith(s, steps[0], j, {Sent}) && NotRecordedAnew(Apply(s, steps[0]), steps[1..], j))
  }

  lemma {:induction false} NotPendingNotAudited(s: State, steps: seq<Step>, j: JobKey)
    requires Valid(s, steps) && j !in s.jobs.pending && NotRecordedAnew(s, steps, j)
    ensures j !in Run(s, steps).jobs.pending && Run(s, steps).audits[j] == s.audits[j]
    decreases |steps|
  {
    if steps == [] {
    } else {
      StepsFollow(s, steps[0], j);
      NotPendingNotAudited(Apply(s, steps[0]), steps[1..], j);
    }
  }

  /** Once the error handler has fired for a job, no winner event starts an audit of it until a flow
      records a sent bid anew. */
  lemma HandlerForgetsPending(s: State, f: nat, steps: seq<Step>)
    requires Enabled(s, OuterHandler(f)) && Valid(Apply(s, OuterHandler(f)), steps)
    requires NotRecordedAnew(Apply(s, OuterHandler(f)), steps, s.flows[f].job)
    ensures Run(Apply(s, OuterHandler(f)), steps).audits[s.flows[f].job] == s.audits[s.flows[f].job]
  {
    var j := s.flows[f].job;
    StepsFollow(s, OuterHandler(f), j);
    NotPendingNotAudited(Apply(s, OuterHandler(f)), steps, j);
  }

  // ---- A known bid is not repeated ----

  /** No flow enters the bid section of the job. */
  ghost predicate NobodyEnters(s: State, steps: seq<Step>, j: JobKey)
    requires Valid(s, steps)
    decreases |steps|
  {
    steps == [] || (!Enters(s, steps[0], j) && NobodyEnters(Apply(s, steps[0]), steps[1..], j))
  }

  lemma {:induction false} RecordedKeepsOut(s: State, steps: seq<Step>, j: JobKey)
    requires Valid(s, steps) && j in s.jobs.submitted
    requires forall i | 0 <= i < |steps| :: !Clears(steps[i], j)
    ensures NobodyEnters(s, steps, j) && j in Run(s, steps).jobs.submitted
    decreases |steps|
  {
    if steps == [] {
    } else {
      StepsFollow(s, steps[0], j);
      assert !Clears(steps[0], j);
      assert forall i | 0 <= i < |steps[1..]| :: steps[1..][i] == steps[i + 1];
      RecordedKeepsOut(Apply(s, steps[0]), steps[1..], j);
    }
  }

  /** From the step in which a flow learns that there is a bid of ours, by sending it, by reading the
      chain or by being refused as a duplicate, nobody enters the bid section of that job until an
      event clears it, whatever the error handler does. */
  lemma KnownBidIsNotRepeated(s: State, step: Step, steps: seq<Step>, j: JobKey)
    requires Enabled(s, step) && Learns(s, step, j) && Valid(Apply(s, step), steps)
    requires forall i | 0 <= i < |steps| :: !Clears(steps[i], j)
    ensures NobodyEnters(Apply(s, step), steps, j)
  {
    StepsFollow(s, step, j);
    RecordedKeepsOut(Apply(s, step), steps, j);
  }
}
