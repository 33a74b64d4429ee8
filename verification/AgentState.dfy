/**
 The module-level collections of an auditor agent and the code segments that update
 them between two awaits: marking and recording a bid, the winner and cancellation
 handlers, the error handler around message handling, the competitor observer, and the
 FIFO bid queue with its drain flag. Each segment is a function on `Jobs` or `Queue`;
 the class performs it in place.
 */
module AgentState {
  import opened ErrorText
  import opened Pricing
  import opened Wrappers

  type JobKey = string

  datatype PendingJob = PendingJob(contractAddress: string, deployerAddress: string, contractType: string, loc: int)

  datatype Jobs = Jobs(
    inFlight: set<JobKey>,
    submitted: set<JobKey>,
    pending: map<JobKey, PendingJob>,
    competitors: map<JobKey, real>)

  const NO_JOBS := Jobs({}, {}, map[], map[])

  predicate MayBid(l: Jobs, j: JobKey) {
    j !in l.submitted && j !in l.pending && j !in l.inFlight
  }

  function Mark(l: Jobs, j: JobKey): Jobs {
    l.(inFlight := l.inFlight + {j})
  }

  function Unmark(l: Jobs, j: JobKey): Jobs {
    l.(inFlight := l.inFlight - {j})
  }

  function RecordSubmitted(l: Jobs, j: JobKey): Jobs {
    l.(submitted := l.submitted + {j})
  }

  function RecordPending(l: Jobs, j: JobKey, info: PendingJob): Jobs {
    l.(submitted := l.submitted + {j}, pending := l.pending[j := info])
  }

  function ClearJob(l: Jobs, j: JobKey): Jobs {
    l.(submitted := l.submitted - {j}, pending := l.pending - {j}, competitors := l.competitors - {j})
  }

  /** A winner event is for us when it finds a local trace of the job. */
  predicate Concerns(l: Jobs, j: JobKey) {
    j in l.pending || j in l.submitted
  }

  function AfterWinner(l: Jobs, j: JobKey): Jobs {
    if Concerns(l, j) then ClearJob(l, j) else l
  }

  predicate StartsAudit(l: Jobs, j: JobKey, isWinner: bool) {
    isWinner && j in l.pending
  }

  /** The handler around message handling: it clears marks it does not own. */
  function AfterOuterError(l: Jobs, j: JobKey): Jobs {
    l.(inFlight := l.inFlight - {j}, pending := l.pending - {j})
  }

  function Observe(l: Jobs, j: JobKey, amount: Option<real>): Jobs {
    if j !in l.inFlight && j !in l.submitted then l
    else if amount.None? || amount.value <= 0.0 then l
    else if j in l.competitors && l.competitors[j] <= amount.value then l
    else l.(competitors := l.competitors[j := amount.value])
  }

  // ---- The bid queue ----

  datatype Queue = Queue(tasks: seq<nat>, inFlight: bool)

  const EMPTY_QUEUE := Queue([], false)

  /** The loop head of `drainBidQueue`: shift the next task, or clear the flag and stop. */
  function Next(q: Queue): (Queue, Option<nat>) {
    if q.tasks == [] then (q.(inFlight := false), None)
    else (q.(tasks := q.tasks[1..]), Some(q.tasks[0]))
  }

  /** `queueBidSubmission`: push, then call the drainer, which returns at once if one is
      active and otherwise runs to its first await. */
  function Push(q: Queue, task: nat): (Queue, Option<nat>) {
    var pushed := q.(tasks := q.tasks + [task]);
    if q.inFlight then (pushed, None) else Next(pushed.(inFlight := true))
  }

  // ---- The competitor minimum ----

  predicate Counts(amount: Option<real>) {
    amount.Some? && amount.value > 0.0
  }

  function ObserveAll(l: Jobs, j: JobKey, amounts: seq<Option<real>>): Jobs {
    if amounts == [] then l
    else Observe(ObserveAll(l, j, amounts[..|amounts| - 1]), j, amounts[|amounts| - 1])
  }

  /** From `l` to `r` only the record of `j` has changed, to the least one of what was recorded and the
      valid ones of the amounts. */
  ghost predicate RecordsMinimum(l: Jobs, r: Jobs, j: JobKey, amounts: seq<Option<real>>) {
    && r == l.(competitors := r.competitors)
    && (j in r.competitors <==> j in l.competitors || exists i :: 0 <= i < |amounts| && Counts(amounts[i]))
    && (j in r.competitors ==>
          && (|| (j in l.competitors && r.competitors[j] == l.competitors[j])
              || (Some(r.competitors[j]) in amounts && r.competitors[j] > 0.0))
          && (j in l.competitors ==> r.competitors[j] <= l.competitors[j])
          && forall i | 0 <= i < |amounts| && Counts(amounts[i]) :: r.competitors[j] <= amounts[i].value)
    && (forall k | k != j :: (k in r.competitors <==> k in l.competitors) &&
                             (k in l.competitors ==> r.competitors[k] == l.competitors[k]))
  }

  lemma ObserveKeepsMinimum(l: Jobs, r: Jobs, j: JobKey, before: seq<Option<real>>, amount: Option<real>)
    requires j in l.inFlight || j in l.submitted
    requires RecordsMinimum(l, r, j, before)
    ensures RecordsMinimum(l, Observe(r, j, amount), j, before + [amount])
  {
    var amounts := before + [amount];
    assert forall i | 0 <= i < |before| :: amounts[i] == before[i];
    assert amounts[|before|] == amount;
    if i :| 0 <= i < |before| && Counts(before[i]) {
      assert Counts(amounts[i]);
    }
  }

  /** While a job is tracked, the recorded value is the least of what was recorded before and the
      valid amounts seen, over any sequence of observations and whatever their order; other jobs
      are untouched. */
  lemma {:induction false} ObservedMinimum(l: Jobs, j: JobKey, amounts: seq<Option<real>>)
    requires j in l.inFlight || j in l.submitted
    ensures RecordsMinimum(l, ObserveAll(l, j, amounts), j, amounts)
  {
    if amounts == [] {
    } else {
      var n := |amounts| - 1;
      ObservedMinimum(l, j, amounts[..n]);
      ObserveKeepsMinimum(l, ObserveAll(l, j, amounts[..n]), j, amounts[..n], amounts[n]);
      assert amounts == amounts[..n] + [amounts[n]];
    }
  }

  /** What is observed of a job that is neither in flight nor submitted leaves no trace. */
  lemma {:induction false} UntrackedIsIgnored(l: Jobs, j: JobKey, amounts: seq<Option<real>>)
    requires j !in l.inFlight && j !in l.submitted
    ensures ObserveAll(l, j, amounts) == l
  {
    if amounts == [] {
    } else {
      UntrackedIsIgnored(l, j, amounts[..|amounts| - 1]);
    }
  }

  // ---- The agent, updated in place ----

  class FuzzerAgent {
    var pendingJobs: map<JobKey, PendingJob>
    var bidInFlightJobs: set<JobKey>
    var bidSubmittedJobs: set<JobKey>
    var competitorBids: map<JobKey, real>
    var bidQueue: seq<nat>
    var bidQueueInFlight: bool
    var prices: Prices
    var auditsStarted: seq<(JobKey, PendingJob)>

    function JobsView(): Jobs
      reads this
    {
      Jobs(bidInFlightJobs, bidSubmittedJobs, pendingJobs, competitorBids)
    }

    function QueueView(): Queue
      reads this
    {
      Queue(bidQueue, bidQueueInFlight)
    }

    constructor ()
      ensures JobsView() == NO_JOBS && QueueView() == EMPTY_QUEUE
      ensures prices == INITIAL_PRICES && auditsStarted == []
    {
      pendingJobs, bidInFlightJobs, bidSubmittedJobs, competitorBids := map[], {}, {}, map[];
      bidQueue, bidQueueInFlight := [], false;
      prices, auditsStarted := INITIAL_PRICES, [];
    }

    /** The duplicate checks and, on the path that proceeds, the mark: one segment. */
    method CheckAndMark(jobKey: JobKey) returns (proceeds: bool)
      modifies this`bidInFlightJobs
      ensures proceeds <==>
                jobKey !in bidSubmittedJobs && jobKey !in pendingJobs && jobKey !in old(bidInFlightJobs)
      ensures bidInFlightJobs == if proceeds then old(bidInFlightJobs) + {jobKey} else old(bidInFlightJobs)
      ensures proceeds == MayBid(old(JobsView()), jobKey)
      ensures JobsView() == if proceeds then Mark(old(JobsView()), jobKey) else old(JobsView())
    {
      if jobKey in bidSubmittedJobs || jobKey in pendingJobs {
        return false;
      }
      if jobKey in bidInFlightJobs {
        return false;
      }
      bidInFlightJobs := bidInFlightJobs + {jobKey};
      return true;
    }

    /** The `finally` block of the bid section. */
    method ClearMark(jobKey: JobKey)
      modifies this`bidInFlightJobs
      ensures bidInFlightJobs == old(bidInFlightJobs) - {jobKey}
      ensures JobsView() == Unmark(old(JobsView()), jobKey)
    {
      bidInFlightJobs := bidInFlightJobs - {jobKey};
    }

    /** After the queue settles: an existing bid is only remembered, a new one also awaits
        its winner. */
    method RecordOutcome(jobKey: JobKey, alreadyBid: bool, submitted: bool, info: PendingJob)
      modifies this`bidSubmittedJobs, this`pendingJobs
      ensures bidSubmittedJobs == old(bidSubmittedJobs) + if alreadyBid || submitted then {jobKey} else {}
      ensures pendingJobs == if submitted && !alreadyBid then old(pendingJobs)[jobKey := info] else old(pendingJobs)
      ensures JobsView() == if alreadyBid then RecordSubmitted(old(JobsView()), jobKey)
                            else if submitted then RecordPending(old(JobsView()), jobKey, info)
                            else old(JobsView())
    {
      if alreadyBid {
        bidSubmittedJobs := bidSubmittedJobs + {jobKey};
        return;
      }
      if !submitted {
        return;
      }
      bidSubmittedJobs := bidSubmittedJobs + {jobKey};
      pendingJobs := pendingJobs[jobKey := info];
    }

    /** Addresses are compared without regard to case. */
    method OnWinnerSelected(jobKey: JobKey, winners: seq<string>, myAddress: string)
      modifies this`pendingJobs, this`bidSubmittedJobs, this`competitorBids, this`prices, this`auditsStarted
      ensures pendingJobs == old(pendingJobs) - {jobKey} && bidSubmittedJobs == old(bidSubmittedJobs) - {jobKey}
      ensures competitorBids == if jobKey in old(pendingJobs) || jobKey in old(bidSubmittedJobs)
                                then old(competitorBids) - {jobKey} else old(competitorBids)
      ensures JobsView() == AfterWinner(old(JobsView()), jobKey)
      ensures var won := exists k | 0 <= k < |winners| :: Lower(winners[k]) == Lower(myAddress);
              && (StartsAudit(old(JobsView()), jobKey, won) <==> jobKey in old(pendingJobs) && won)
              && auditsStarted == old(auditsStarted) +
                   (if jobKey in old(pendingJobs) && won then [(jobKey, old(pendingJobs)[jobKey])] else [])
              && prices == if jobKey in old(pendingJobs) && won then AfterOutcome(old(prices), true) else old(prices)
    {
      var pending := None;
      if jobKey in pendingJobs {
        pending := Some(pendingJobs[jobKey]);
      }
      var hadSubmittedBid := jobKey in bidSubmittedJobs;
      if pending.None? && !hadSubmittedBid {
        return;
      }
      var isWinner := exists k | 0 <= k < |winners| :: Lower(winners[k]) == Lower(myAddress);
      pendingJobs := pendingJobs - {jobKey};
      bidSubmittedJobs := bidSubmittedJobs - {jobKey};
      competitorBids := competitorBids - {jobKey};
      if !isWinner {
        return;
      }
      if pending.None? {
        return;
      }
      prices := AfterOutcome(prices, true);
      auditsStarted := auditsStarted + [(jobKey, pending.value)];
    }

    method OnJobCancelled(jobKey: JobKey)
      modifies this`pendingJobs, this`bidSubmittedJobs, this`competitorBids
      ensures pendingJobs == old(pendingJobs) - {jobKey} && bidSubmittedJobs == old(bidSubmittedJobs) - {jobKey}
      ensures competitorBids == old(competitorBids) - {jobKey}
      ensures JobsView() == ClearJob(old(JobsView()), jobKey)
    {
      pendingJobs := pendingJobs - {jobKey};
      bidSubmittedJobs := bidSubmittedJobs - {jobKey};
      competitorBids := competitorBids - {jobKey};
    }

    method OnHandlingError(jobKey: JobKey)
      modifies this`pendingJobs, this`bidInFlightJobs
      ensures bidInFlightJobs == old(bidInFlightJobs) - {jobKey} && pendingJobs == old(pendingJobs) - {jobKey}
      ensures JobsView() == AfterOuterError(old(JobsView()), jobKey)
    {
      bidInFlightJobs := bidInFlightJobs - {jobKey};
      pendingJobs := pendingJobs - {jobKey};
    }

    method OnCompetitorBid(jobKey: JobKey, amount: Option<real>)
      modifies this`competitorBids
      ensures competitorBids ==
                if && (jobKey in bidInFlightJobs || jobKey in bidSubmittedJobs)
                   && amount.Some? && amount.value > 0.0
                   && (jobKey in old(competitorBids) ==> amount.value < old(competitorBids)[jobKey])
                then old(competitorBids)[jobKey := amount.value] else old(competitorBids)
      ensures JobsView() == Observe(old(JobsView()), jobKey, amount)
    {
      if jobKey !in bidInFlightJobs && jobKey !in bidSubmittedJobs {
        return;
      }
      if amount.None? || amount.value <= 0.0 {
        return;
      }
      if jobKey !in competitorBids || amount.value < competitorBids[jobKey] {
        competitorBids := competitorBids[jobKey := amount.value];
      }
    }

    /** The drainer from its loop test to its next await. */
    method DrainStep() returns (task: Option<nat>)
      modifies this`bidQueue, this`bidQueueInFlight
      ensures old(bidQueue) != [] ==>
                task == Some(old(bidQueue)[0]) && bidQueue == old(bidQueue)[1..] &&
                bidQueueInFlight == old(bidQueueInFlight)
      ensures old(bidQueue) == [] ==> task == None && bidQueue == [] && !bidQueueInFlight
      ensures (QueueView(), task) == Next(old(QueueView()))
    {
      if |bidQueue| > 0 {
        task := Some(bidQueue[0]);
        bidQueue := bidQueue[1..];
      } else {
        task := None;
        bidQueueInFlight := false;
      }
    }

    method QueueBidSubmission(id: nat) returns (task: Option<nat>)
      modifies this`bidQueue, this`bidQueueInFlight
      ensures bidQueueInFlight
      ensures old(bidQueueInFlight) ==> task == None && bidQueue == old(bidQueue) + [id]
      ensures !old(bidQueueInFlight) ==> task.Some? && [task.value] + bidQueue == old(bidQueue) + [id]
      ensures (QueueView(), task) == Push(old(QueueView()), id)
    {
      bidQueue := bidQueue + [id];
      if bidQueueInFlight {
        return None;
      }
      bidQueueInFlight := true;
      task := DrainStep();
    }
  }
}
