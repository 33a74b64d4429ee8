/**
 One auditor agent on the event loop, as a transition system. A flow is one delivered
 auction invitation; a drain is one activation of the queue drainer. A step is the code
 between two awaits, a chain event or the delivery of a chain event, and steps interleave
 freely: invitations and winner events may be duplicated or late, the per-job lock is not
 relied on at all (a flow may pass it at any time), and every call may fail.
 */
module BidSystem {
  import opened Wrappers
  import opened AgentState
  import Runs

  /** What the flow finds when its queued task is settled. */
  datatype BidResult = Sent | AlreadyOnChain | NothingSent | Rejected(duplicate: bool)

  datatype Pc =
    | AtLock                     // awaiting the job lock
    | PublishingSkip             // policy skip, published before any mark is set
    | Preparing                  // marked; activity, balance and allowance checks
    | InQueue                    // marked; awaiting the queue
    | Settled(result: BidResult) // marked; queue promise settled, continuation not yet run
    | PublishingBid              // marked; pending recorded, BID_SUBMITTED being published
    | Reporting                  // marked; in the catch block
    | Failed                     // rejected, the outer error handler has not run
    | Finished

  datatype Flow = Flow(job: JobKey, info: PendingJob, pc: Pc)

  /** `seenAtCall`: was our bid already accepted when the chain read was issued? */
  datatype DrainPc = ReadingWindow | PublishingDrop | ReadingBid(seenAtCall: bool) | Bidding(submits: nat)

  datatype Drain = Drain(flow: nat, at: DrainPc)

  datatype State = State(
    jobs: Jobs,
    flows: seq<Flow>,
    queue: Queue,
    drains: seq<Drain>,
    // the chain: bids handed to it, and bids it has accepted
    attempted: set<JobKey>,
    accepted: set<JobKey>,
    // history
    audits: multiset<JobKey>,
    pendingSets: multiset<JobKey>,
    started: seq<(JobKey, PendingJob)>, // the audits once more, with what each is an audit of
    enqueued: seq<nat>,
    dequeued: seq<nat>,
    settled: seq<nat>)

  const INIT := State(NO_JOBS, [], EMPTY_QUEUE, [], {}, {}, multiset{}, multiset{}, [], [], [], [])

  datatype Step =
    | Invite(job: JobKey, info: PendingJob)
    | SkipDuplicate(f: nat)
    | SkipByPolicy(f: nat)
    | SkipPublished(f: nat, ok: bool)
    | MarkInFlight(f: nat)
    | PrepareStops(f: nat)
    | PrepareThrows(f: nat, duplicate: bool)
    | Enqueue(f: nat)
    | WindowOpen(d: nat)
    | WindowClosed(d: nat)
    | DropPublished(d: nat)
    | BidRead(d: nat, answer: bool)
    | DrainThrows(d: nat, duplicate: bool)
    | SubmitCall(d: nat)
    | ExecuteEnds(d: nat, result: BidResult)
    | Resume(f: nat)
    | BidPublished(f: nat)
    | BidPublishThrows(f: nat, duplicate: bool)
    | Reported(f: nat, ok: bool)
    | OuterHandler(f: nat)
    | DeliverWinner(job: JobKey, isWinner: bool)
    | DeliverCancelled(job: JobKey)
    | CompetitorBid(job: JobKey, amount: Option<real>)
    | ChainAccepts(job: JobKey)

  predicate At(s: State, f: nat, pc: Pc) {
    f < |s.flows| && s.flows[f].pc == pc
  }

  predicate DrainAt(s: State, d: nat, at: DrainPc) {
    d < |s.drains| && s.drains[d].flow < |s.flows| && s.drains[d].at == at
  }

  predicate Enabled(s: State, step: Step) {
    match step
    case Invite(_, _) => true
    case SkipDuplicate(f) => At(s, f, AtLock) && !MayBid(s.jobs, s.flows[f].job)
    case SkipByPolicy(f) => At(s, f, AtLock) && MayBid(s.jobs, s.flows[f].job)
    case SkipPublished(f, _) => At(s, f, PublishingSkip)
    case MarkInFlight(f) => At(s, f, AtLock) && MayBid(s.jobs, s.flows[f].job)
    case PrepareStops(f) => At(s, f, Preparing)
    case PrepareThrows(f, _) => At(s, f, Preparing)
    case Enqueue(f) => At(s, f, Preparing)
    case WindowOpen(d) => DrainAt(s, d, ReadingWindow)
    case WindowClosed(d) => DrainAt(s, d, ReadingWindow)
    case DropPublished(d) => DrainAt(s, d, PublishingDrop)
    case BidRead(d, answer) =>
      // an accepted bid is visible: what was accepted at the call is reported
      && d < |s.drains| && s.drains[d].flow < |s.flows| && s.drains[d].at.ReadingBid?
      && (s.drains[d].at.seenAtCall ==> answer)
      && (answer ==> s.drains[d].at.seenAtCall || s.flows[s.drains[d].flow].job in s.accepted)
    case DrainThrows(d, _) =>
      // the window snapshot catches its own errors; the chain read and the publish may throw
      && d < |s.drains| && s.drains[d].flow < |s.flows|
      && (s.drains[d].at.ReadingBid? || s.drains[d].at.PublishingDrop?)
    case SubmitCall(d) =>
      d < |s.drains| && s.drains[d].flow < |s.flows| && s.drains[d].at.Bidding? && s.drains[d].at.submits < 3
    case ExecuteEnds(d, result) =>
      && d < |s.drains| && s.drains[d].flow < |s.flows| && s.drains[d].at.Bidding?
      && (result.Sent? ==> s.drains[d].at.submits > 0)
    case Resume(f) => f < |s.flows| && s.flows[f].pc.Settled?
    case BidPublished(f) => At(s, f, PublishingBid)
    case BidPublishThrows(f, _) => At(s, f, PublishingBid)
    case Reported(f, _) => At(s, f, Reporting)
    case OuterHandler(f) => At(s, f, Failed)
    case DeliverWinner(j, isWinner) => isWinner ==> j in s.accepted
    case DeliverCancelled(_) => true
    case CompetitorBid(_, _) => true
    case ChainAccepts(j) => j in s.attempted
  }

  function Goto(s: State, f: nat, pc: Pc): State
    requires f < |s.flows|
  {
    s.(flows := s.flows[f := s.flows[f].(pc := pc)])
  }

  /** Leaving the bid section: the `finally` block deletes the mark. */
  function Leave(s: State, f: nat, pc: Pc): State
    requires f < |s.flows|
  {
    Goto(s.(jobs := Unmark(s.jobs, s.flows[f].job)), f, pc)
  }

  /** Entering the catch block, which remembers a bid the chain calls a duplicate. */
  function Catch(s: State, f: nat, duplicate: bool): State
    requires f < |s.flows|
  {
    Goto(if duplicate then s.(jobs := RecordSubmitted(s.jobs, s.flows[f].job)) else s, f, Reporting)
  }

  function SetDrain(s: State, d: nat, at: DrainPc): State
    requires d < |s.drains|
  {
    s.(drains := s.drains[d := s.drains[d].(at := at)])
  }

  /** Settle the task of drain `d` and run the drainer's loop to its next await. */
  function Settle(s: State, d: nat, result: BidResult): State
    requires d < |s.drains| && s.drains[d].flow < |s.flows|
  {
    var f := s.drains[d].flow;
    var t := Goto(s, f, Settled(result)).(settled := s.settled + [f]);
    match Next(s.queue)
    case (queue, None) => t.(queue := queue, drains := s.drains[..d] + s.drains[d + 1..])
    case (queue, Some(next)) =>
      t.(queue := queue, dequeued := s.dequeued + [next], drains := s.drains[d := Drain(next, ReadingWindow)])
  }

  function Apply(s: State, step: Step): State
    requires Enabled(s, step)
  {
    match step
    case Invite(j, info) => s.(flows := s.flows + [Flow(j, info, AtLock)])
    case SkipDuplicate(f) => Goto(s, f, Finished)
    case SkipByPolicy(f) => Goto(s, f, PublishingSkip)
    case SkipPublished(f, ok) => Goto(s, f, if ok then Finished else Failed)
    case MarkInFlight(f) => Goto(s.(jobs := Mark(s.jobs, s.flows[f].job)), f, Preparing)
    case PrepareStops(f) => Leave(s, f, Finished)
    case PrepareThrows(f, duplicate) => Catch(s, f, duplicate)
    case Enqueue(f) =>
      var t := Goto(s, f, InQueue).(enqueued := s.enqueued + [f]);
      (match Push(s.queue, f)
       case (queue, None) => t.(queue := queue)
       case (queue, Some(next)) =>
         t.(queue := queue, dequeued := s.dequeued + [next], drains := s.drains + [Drain(next, ReadingWindow)]))
    case WindowOpen(d) => SetDrain(s, d, ReadingBid(s.flows[s.drains[d].flow].job in s.accepted))
    case WindowClosed(d) => SetDrain(s, d, PublishingDrop)
    case DropPublished(d) => Settle(s, d, NothingSent)
    case BidRead(d, answer) => if answer then Settle(s, d, AlreadyOnChain) else SetDrain(s, d, Bidding(0))
    case DrainThrows(d, duplicate) => Settle(s, d, Rejected(duplicate))
    case SubmitCall(d) =>
      SetDrain(s, d, Bidding(s.drains[d].at.submits + 1))
        .(attempted := s.attempted + {s.flows[s.drains[d].flow].job})
    case ExecuteEnds(d, result) => Settle(s, d, result)
    case Resume(f) =>
      var j := s.flows[f].job;
      (match s.flows[f].pc.result
       case AlreadyOnChain => Leave(s.(jobs := RecordSubmitted(s.jobs, j)), f, Finished)
       case NothingSent => Leave(s, f, Finished)
       case Sent =>
         Goto(s.(jobs := RecordPending(s.jobs, j, s.flows[f].info), pendingSets := s.pendingSets + multiset{j}),
              f, PublishingBid)
       case Rejected(duplicate) => Catch(s, f, duplicate))
    case BidPublished(f) => Leave(s, f, Finished)
    case BidPublishThrows(f, duplicate) => Catch(s, f, duplicate)
    case Reported(f, ok) => Leave(s, f, if ok then Finished else Failed)
    case OuterHandler(f) => Goto(s.(jobs := AfterOuterError(s.jobs, s.flows[f].job)), f, Finished)
    case DeliverWinner(j, isWinner) =>
      var audits := if StartsAudit(s.jobs, j, isWinner) then s.audits + multiset{j} else s.audits;
      var pendingSets := if Concerns(s.jobs, j) then s.pendingSets[j := 0] else s.pendingSets;
      var started := if StartsAudit(s.jobs, j, isWinner) then s.started + [(j, s.jobs.pending[j])] else s.started;
      s.(jobs := AfterWinner(s.jobs, j), audits := audits, pendingSets := pendingSets, started := started)
    case DeliverCancelled(j) => s.(jobs := ClearJob(s.jobs, j), pendingSets := s.pendingSets[j := 0])
    case CompetitorBid(j, amount) => s.(jobs := Observe(s.jobs, j, amount))
    case ChainAccepts(j) => s.(accepted := s.accepted + {j})
  }

  predicate Valid(s: State, steps: seq<Step>)
    decreases |steps|
  {
    steps == [] || (Enabled(s, steps[0]) && Valid(Apply(s, steps[0]), steps[1..]))
  }

  function Run(s: State, steps: seq<Step>): State
    requires Valid(s, steps)
    decreases |steps|
  {
    if steps == [] then s else Run(Apply(s, steps[0]), steps[1..])
  }

  /** The step if it is enabled. */
  function ApplyIf(s: State, step: Step): State {
    if Enabled(s, step) then Apply(s, step) else s
  }

  lemma {:induction false} RunsOfAgent(s: State, steps: seq<Step>)
    ensures Valid(s, steps) <==> Runs.Valid(Enabled, ApplyIf, s, steps)
    ensures Valid(s, steps) ==> Run(s, steps) == Runs.Run(ApplyIf, s, steps)
    decreases |steps|
  {
    if steps == [] {
    } else {
      RunsOfAgent(ApplyIf(s, steps[0]), steps[1..]);
    }
  }

  lemma RunConcat(s: State, first: seq<Step>, second: seq<Step>)
    requires Valid(s, first) && Valid(Run(s, first), second)
    ensures Valid(s, first + second) && Run(s, first + second) == Run(Run(s, first), second)
  {
    Runs.Concat(Enabled, ApplyIf, s, first, second);
    RunsOfAgent(s, first);
    RunsOfAgent(Run(s, first), second);
    RunsOfAgent(s, first + second);
  }

  // ---- Nothing is assumed of the answers ----

  /** Wherever a flow awaits a call, the call may succeed and may fail, and any failure may read like a
      refusal as a duplicate; a caller at the lock goes on as the duplicate checks say. */
  lemma FlowsMeetAnyAnswer(s: State, f: nat, yes: bool)
    requires f < |s.flows|
    ensures match s.flows[f].pc
            case AtLock =>
              && (Enabled(s, SkipDuplicate(f)) <==> !MayBid(s.jobs, s.flows[f].job))
              && (Enabled(s, MarkInFlight(f)) <==> MayBid(s.jobs, s.flows[f].job))
              && (Enabled(s, SkipByPolicy(f)) <==> MayBid(s.jobs, s.flows[f].job))
            case PublishingSkip => Enabled(s, SkipPublished(f, yes))
            case Preparing => Enabled(s, PrepareStops(f)) && Enabled(s, PrepareThrows(f, yes)) && Enabled(s, Enqueue(f))
            case InQueue => true
            case Settled(_) => Enabled(s, Resume(f))
            case PublishingBid => Enabled(s, BidPublished(f)) && Enabled(s, BidPublishThrows(f, yes))
            case Reporting => Enabled(s, Reported(f, yes))
            case Failed => Enabled(s, OuterHandler(f))
            case Finished => true
  {
  }

  /** The same for a drain. Only the chain read is bound to anything, and a bid is sent only by a submission,
      of which there are at most three. */
  lemma DrainsMeetAnyAnswer(s: State, d: nat, yes: bool, result: BidResult)
    requires d < |s.drains| && s.drains[d].flow < |s.flows|
    ensures match s.drains[d].at
            case ReadingWindow => Enabled(s, WindowOpen(d)) && Enabled(s, WindowClosed(d))
            case PublishingDrop => Enabled(s, DropPublished(d)) && Enabled(s, DrainThrows(d, yes))
            case ReadingBid(seen) =>
              && Enabled(s, DrainThrows(d, yes))
              && (Enabled(s, BidRead(d, yes)) <==>
                    if yes then seen || s.flows[s.drains[d].flow].job in s.accepted else !seen)
            case Bidding(submits) =>
              && (Enabled(s, SubmitCall(d)) <==> submits < 3)
              && (Enabled(s, ExecuteEnds(d, result)) <==> result.Sent? ==> submits > 0)
  {
  }

  /** What the steps that end a task make of it: a dropped task and one whose bid exists are settled as that,
      an error or an end of the callback as what it is. */
  lemma TasksEndAs(s: State, d: nat)
    requires d < |s.drains| && s.drains[d].flow < |s.flows|
    ensures var f := s.drains[d].flow;
            && (Enabled(s, DropPublished(d)) ==> Apply(s, DropPublished(d)).flows[f].pc == Settled(NothingSent))
            && (Enabled(s, BidRead(d, true)) ==> Apply(s, BidRead(d, true)).flows[f].pc == Settled(AlreadyOnChain))
  {
  }

  lemma ErrorsEndAs(s: State, d: nat, duplicate: bool)
    requires Enabled(s, DrainThrows(d, duplicate))
    ensures Apply(s, DrainThrows(d, duplicate)).flows[s.drains[d].flow].pc == Settled(Rejected(duplicate))
  {
  }

  lemma CallbackEndsAs(s: State, d: nat, result: BidResult)
    requires Enabled(s, ExecuteEnds(d, result))
    ensures Apply(s, ExecuteEnds(d, result)).flows[s.drains[d].flow].pc == Settled(result)
  {
  }

  /** Events may come at any time and any number of times: invitations, cancellations, competitors' bids and
      lost auctions; a won one once the bid is accepted; and acceptance once the bid was handed to the chain. */
  lemma EventsMayCome(s: State, j: JobKey, info: PendingJob, amount: Option<real>)
    ensures Enabled(s, Invite(j, info)) && Enabled(s, DeliverCancelled(j)) && Enabled(s, CompetitorBid(j, amount))
    ensures Enabled(s, DeliverWinner(j, false)) && (Enabled(s, DeliverWinner(j, true)) <==> j in s.accepted)
    ensures Enabled(s, ChainAccepts(j)) <==> j in s.attempted
  {
  }
}
