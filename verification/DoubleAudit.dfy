/**
 Building runs in which a job is audited twice. All runs here are runs of the product with
 the lock: once two flows are inside the bid section of a job that is not yet accepted, both
 can read the chain before either bid is accepted, both record it, and a repeated winner
 event starts the audit each time.
 */
module DoubleAudit {
  import opened AgentState
  import opened BidSystem
  import opened BidQueueSafety
  import opened BidMarks
  import opened LockedBids
  import opened Paths

  // ---- One task sends its bid ----

  lemma WindowOpens(w: World, j: JobKey, f: nat) returns (t: World)
    requires w.agent.drains == [Drain(f, ReadingWindow)] && FlowAt(w, f, j, InQueue) && j !in w.agent.accepted
    ensures Path(w, [WindowOpen(0)], t) && InTurn(w, [WindowOpen(0)], t)
    ensures t == w.(agent := w.agent.(drains := [Drain(f, ReadingBid(false))]))
  {
    t := After(w, WindowOpen(0));
    QuietStep(w, WindowOpen(0));
  }

  lemma NoBidShows(w: World, j: JobKey, f: nat) returns (t: World)
    requires w.agent.drains == [Drain(f, ReadingBid(false))] && FlowAt(w, f, j, InQueue)
    ensures Path(w, [BidRead(0, false)], t) && InTurn(w, [BidRead(0, false)], t)
    ensures t == w.(agent := w.agent.(drains := [Drain(f, Bidding(0))]))
  {
    t := After(w, BidRead(0, false));
    QuietStep(w, BidRead(0, false));
  }

  lemma SubmissionGoesOut(w: World, j: JobKey, f: nat) returns (t: World)
    requires w.agent.drains == [Drain(f, Bidding(0))] && FlowAt(w, f, j, InQueue)
    ensures Path(w, [SubmitCall(0)], t) && InTurn(w, [SubmitCall(0)], t)
    ensures t == w.(agent := w.agent.(drains := [Drain(f, Bidding(1))], attempted := w.agent.attempted + {j}))
  {
    t := After(w, SubmitCall(0));
    QuietStep(w, SubmitCall(0));
  }

  /** The task in hand finds the window open and no accepted bid, and submits one. */
  lemma TaskSubmits(w: World, j: JobKey, f: nat) returns (steps: seq<Step>, t: World)
    requires w.agent.drains == [Drain(f, ReadingWindow)] && FlowAt(w, f, j, InQueue) && j !in w.agent.accepted
    ensures Path(w, steps, t) && NoClearing(steps, j) && InTurn(w, steps, t)
    ensures t == w.(agent := w.agent.(drains := [Drain(f, Bidding(1))], attempted := w.agent.attempted + {j}))
  {
    var w1 := WindowOpens(w, j, f);
    var w2 := NoBidShows(w1, j, f);
    steps := Join(w, [WindowOpen(0)], w1, [BidRead(0, false)], w2, j);
    t := SubmissionGoesOut(w2, j, f);
    steps := Join(w, steps, w2, [SubmitCall(0)], t, j);
  }

  /** What a successful submission leaves behind: the task is settled and the next one taken. */
  ghost predicate TakesNext(w: World, t: World, f: nat, pc: Pc)
    requires f < |w.agent.flows|
  {
    var (queue, next) := AgentState.Next(w.agent.queue);
    && t.lock == w.lock
    && t.agent.flows == w.agent.flows[f := w.agent.flows[f].(pc := pc)]
    && t.agent.queue == queue
    && t.agent.drains == (if next.Some? then [Drain(next.value, ReadingWindow)] else [])
    && (t.agent.attempted, t.agent.accepted, t.agent.audits) == (w.agent.attempted, w.agent.accepted, w.agent.audits)
  }

  lemma TaskIsSettled(w: World, j: JobKey, f: nat) returns (t: World)
    requires w.agent.drains == [Drain(f, Bidding(1))] && FlowAt(w, f, j, InQueue)
    ensures Path(w, [ExecuteEnds(0, Sent)], t) && TakesNext(w, t, f, Settled(Sent))
    ensures Calm(w) ==> Prompt(w, [ExecuteEnds(0, Sent)])
  {
    t := After(w, ExecuteEnds(0, Sent));
    OneStep(w, ExecuteEnds(0, Sent));
  }

  /** A flow that has sent its bid resumes and records it. */
  lemma SenderRecords(w: World, j: JobKey, f: nat) returns (t: World)
    requires FlowAt(w, f, j, Settled(Sent))
    ensures Path(w, [Resume(f)], t) && Prompt(w, [Resume(f)]) && t.lock == w.lock && j in t.agent.jobs.pending
    ensures t.agent == w.agent.(flows := w.agent.flows[f := w.agent.flows[f].(pc := PublishingBid)],
                                jobs := t.agent.jobs, pendingSets := t.agent.pendingSets)
  {
    t := After(w, Resume(f));
    OneStep(w, Resume(f));
  }

  /** The submission has succeeded, and the flow resumes at once and records its bid. */
  lemma TaskIsSent(w: World, j: JobKey, f: nat) returns (steps: seq<Step>, t: World)
    requires w.agent.drains == [Drain(f, Bidding(1))] && FlowAt(w, f, j, InQueue)
    ensures Path(w, steps, t) && NoClearing(steps, j) && InTurn(w, steps, t)
    ensures TakesNext(w, t, f, PublishingBid) && j in t.agent.jobs.pending
  {
    var w1 := TaskIsSettled(w, j, f);
    t := SenderRecords(w1, j, f);
    steps := ThenResumes(w, [ExecuteEnds(0, Sent)], w1, [Resume(f)], t, f, PublishingBid, j);
  }

  /** The chain accepts a bid that is on its way. */
  lemma BidIsAccepted(w: World, j: JobKey) returns (t: World)
    requires j in w.agent.attempted
    ensures Path(w, [ChainAccepts(j)], t) && InTurn(w, [ChainAccepts(j)], t)
    ensures t == w.(agent := w.agent.(accepted := w.agent.accepted + {j}))
  {
    t := After(w, ChainAccepts(j));
    QuietStep(w, ChainAccepts(j));
  }

  /** A winner event finds the job pending and starts its audit. */
  lemma WinnerArrives(w: World, j: JobKey) returns (t: World)
    requires j in w.agent.accepted && j in w.agent.jobs.pending
    ensures Path(w, [DeliverWinner(j, true)], t) && InTurn(w, [DeliverWinner(j, true)], t)
    ensures t.agent
              == w.agent.(jobs := t.agent.jobs, audits := w.agent.audits + multiset{j}, started := t.agent.started,
                                pendingSets := t.agent.pendingSets)
  {
    t := After(w, DeliverWinner(j, true));
    QuietStep(w, DeliverWinner(j, true));
  }

  /** A task queued behind nobody comes into the drain's hand. */
  lemma TaskIsTaken(w: World, j: JobKey, f: nat) returns (steps: seq<Step>, t: World)
    requires QueueIdle(w) && FlowAt(w, f, j, Preparing)
    ensures Path(w, steps, t) && NoClearing(steps, j) && InTurn(w, steps, t)
    ensures t.agent.queue == Queue([], true) && t.agent.drains == [Drain(f, ReadingWindow)] && t.lock == w.lock
    ensures t.agent.flows == w.agent.flows[f := w.agent.flows[f].(pc := InQueue)]
    ensures (t.agent.jobs, t.agent.accepted, t.agent.audits) == (w.agent.jobs, w.agent.accepted, w.agent.audits)
  {
    steps, t := [Enqueue(f)], After(w, Enqueue(f));
    QuietStep(w, Enqueue(f));
  }

  /** A task queued behind the one in hand waits. */
  lemma TaskIsQueued(w: World, j: JobKey, f: nat) returns (steps: seq<Step>, t: World)
    requires w.agent.queue == Queue([], true) && FlowAt(w, f, j, Preparing)
    ensures Path(w, steps, t) && NoClearing(steps, j) && InTurn(w, steps, t)
    ensures t.agent.queue == Queue([f], true) && t.agent.drains == w.agent.drains && t.lock == w.lock
    ensures t.agent.flows == w.agent.flows[f := w.agent.flows[f].(pc := InQueue)]
    ensures (t.agent.jobs, t.agent.accepted, t.agent.audits) == (w.agent.jobs, w.agent.accepted, w.agent.audits)
  {
    steps, t := [Enqueue(f)], After(w, Enqueue(f));
    QuietStep(w, Enqueue(f));
  }

  /** One task comes into the drain's hand, the other behind it. */
  lemma BothEnqueue(w: World, j: JobKey, a: nat, b: nat) returns (steps: seq<Step>, t: World)
    requires QueueIdle(w) && a != b && FlowAt(w, a, j, Preparing) && FlowAt(w, b, j, Preparing)
    ensures Path(w, steps, t) && NoClearing(steps, j) && InTurn(w, steps, t) && t.lock == w.lock
    ensures t.agent.queue == Queue([b], true) && t.agent.drains == [Drain(a, ReadingWindow)]
    ensures FlowAt(t, a, j, InQueue) && FlowAt(t, b, j, InQueue)
    ensures (t.agent.accepted, t.agent.audits) == (w.agent.accepted, w.agent.audits)
  {
    var w1: World, more: seq<Step>;
    steps, w1 := TaskIsTaken(w, j, a);
    more, t := TaskIsQueued(w1, j, b);
    steps := Join(w, steps, w1, more, t, j);
  }

  /** A recorded bid is accepted, and a winner event starts its audit. */
  lemma AcceptedAndWon(w: World, j: JobKey) returns (steps: seq<Step>, t: World)
    requires j in w.agent.attempted && j in w.agent.jobs.pending
    ensures Path(w, steps, t) && NoClearing(steps, j) && InTurn(w, steps, t)
    ensures t.agent == w.agent.(accepted := w.agent.accepted + {j}, jobs := t.agent.jobs,
                                audits := w.agent.audits + multiset{j}, started := t.agent.started,
                                pendingSets := t.agent.pendingSets)
  {
    var w1 := BidIsAccepted(w, j);
    t := WinnerArrives(w1, j);
    steps := Join(w, [ChainAccepts(j)], w1, [DeliverWinner(j, true)], t, j);
  }

  /** While the second bid is being submitted, the first one is accepted and wins. */
  lemma FirstWins(w: World, j: JobKey, b: nat) returns (steps: seq<Step>, t: World)
    requires w.agent.drains == [Drain(b, ReadingWindow)] && FlowAt(w, b, j, InQueue)
    requires j in w.agent.jobs.pending && j !in w.agent.accepted
    ensures Path(w, steps, t) && NoClearing(steps, j) && InTurn(w, steps, t)
    ensures t.agent.drains == [Drain(b, Bidding(1))] && FlowAt(t, b, j, InQueue) && j in t.agent.accepted
    ensures t.agent.audits == w.agent.audits + multiset{j}
  {
    var w1: World, more: seq<Step>;
    steps, w1 := TaskSubmits(w, j, b);
    more, t := AcceptedAndWon(w1, j);
    steps := Join(w, steps, w1, more, t, j);
  }

  /** The second bid is sent and recorded all the same, and a repeated winner event finds it. */
  lemma SecondWins(w: World, j: JobKey, b: nat) returns (steps: seq<Step>, t: World)
    requires w.agent.drains == [Drain(b, Bidding(1))] && FlowAt(w, b, j, InQueue) && j in w.agent.accepted
    ensures Path(w, steps, t) && NoClearing(steps, j) && InTurn(w, steps, t)
    ensures t.agent.audits == w.agent.audits + multiset{j}
  {
    var w1: World;
    steps, w1 := TaskIsSent(w, j, b);
    t := WinnerArrives(w1, j);
    steps := Join(w, steps, w1, [DeliverWinner(j, true)], t, j);
  }

  /** With one bid recorded and not yet accepted, a second task in hand is enough. */
  lemma BothWin(w: World, j: JobKey, b: nat) returns (steps: seq<Step>, t: World)
    requires w.agent.drains == [Drain(b, ReadingWindow)] && FlowAt(w, b, j, InQueue)
    requires j in w.agent.jobs.pending && j !in w.agent.accepted
    ensures Path(w, steps, t) && NoClearing(steps, j) && InTurn(w, steps, t)
    ensures t.agent.audits[j] == w.agent.audits[j] + 2
  {
    var w1: World, more: seq<Step>;
    steps, w1 := FirstWins(w, j, b);
    more, t := SecondWins(w1, j, b);
    steps := Join(w, steps, w1, more, t, j);
  }

  /** Two flows preparing a bid for one unaccepted job end in two audits of it: no clearing event
      is involved, only a repeated winner event. */
  lemma TwoPreparingAuditTwice(w: World, j: JobKey, a: nat, b: nat) returns (steps: seq<Step>, t: World)
    requires QueueIdle(w) && a != b && FlowAt(w, a, j, Preparing) && FlowAt(w, b, j, Preparing)
    requires j !in w.agent.accepted
    ensures Path(w, steps, t) && NoClearing(steps, j) && InTurn(w, steps, t)
    ensures t.agent.audits[j] == w.agent.audits[j] + 2
  {
    var w1: World, w2: World, more: seq<Step>;
    steps, w1 := BothEnqueue(w, j, a, b);
    more, w2 := TaskSubmits(w1, j, a);
    steps := Join(w, steps, w1, more, w2, j);
    more, w1 := TaskIsSent(w2, j, a);
    steps := Join(w, steps, w2, more, w1, j);
    more, t := BothWin(w1, j, b);
    steps := Join(w, steps, w1, more, t, j);
  }

  // ---- Getting a second flow in ----

  const NO_INFO := PendingJob("", "", "", 0)

  /** A recorded job is forgotten on cancellation; an unrecorded one need not be. */
  lemma Forget(w: World, j: JobKey) returns (steps: seq<Step>, t: World)
    ensures Path(w, steps, t) && InTurn(w, steps, t) && !Recorded(t.agent, j) && t.lock == w.lock
    ensures t.agent == w.agent.(jobs := t.agent.jobs, pendingSets := t.agent.pendingSets)
    ensures t.agent.jobs.inFlight == w.agent.jobs.inFlight
    ensures !Recorded(w.agent, j) ==> NoClearing(steps, j)
    ensures Ready(w) ==> Ready(t)
  {
    if Recorded(w.agent, j) {
      t := After(w, DeliverCancelled(j));
      steps := [DeliverCancelled(j)];
      QuietStep(w, DeliverCancelled(j));
      if Ready(w) {
        StepKeepsReady(w, DeliverCancelled(j));
      }
    } else {
      steps, t := [], w;
      NoStep(w);
    }
  }

  lemma Invited(w: World, j: JobKey) returns (t: World)
    requires Ready(w) && j !in w.lock.locks
    ensures Path(w, [Invite(j, NO_INFO)], t)
    ensures t.agent == w.agent.(flows := w.agent.flows + [Flow(j, NO_INFO, AtLock)])
    ensures L.Enabled(t.lock, L.Enter(|w.agent.flows|)) && Ready(t)
    ensures Calm(w) ==> Prompt(w, [Invite(j, NO_INFO)]) && CalmBut(t, |w.agent.flows|)
  {
    t := After(w, Invite(j, NO_INFO));
    OneStep(w, Invite(j, NO_INFO));
    StepKeepsReady(w, Invite(j, NO_INFO));
    if Calm(w) {
      forall f: nat | Urgent(t, f)
        ensures f == |w.agent.flows|
      {
        assert f < |w.agent.flows| ==> L.WaitsBack(w.lock, f) && !Urgent(w, f);
      }
    }
  }

  lemma Marks(w: World, j: JobKey, c: nat) returns (t: World)
    requires Ready(w) && FlowAt(w, c, j, AtLock) && L.Enabled(w.lock, L.Enter(c))
    requires j !in w.agent.jobs.inFlight && !Recorded(w.agent, j)
    ensures Path(w, [MarkInFlight(c)], t) && !Recorded(t.agent, j) && Ready(t)
    ensures t.agent == w.agent.(flows := w.agent.flows[c := w.agent.flows[c].(pc := Preparing)], jobs := t.agent.jobs)
    ensures Prompt(w, [MarkInFlight(c)]) && (CalmBut(w, c) ==> Calm(t))
  {
    t := After(w, MarkInFlight(c));
    OneStep(w, MarkInFlight(c));
    StepKeepsReady(w, MarkInFlight(c));
    if CalmBut(w, c) {
      forall f | 0 <= f < |t.agent.flows|
        ensures !Urgent(t, f)
      {
        assert f != c ==> !Urgent(w, f);
      }
    }
  }

  /** The holder `g` of an unmarked job is joined by a second flow. */
  ghost predicate Joined(w: World, t: World, j: JobKey, g: nat, a: nat) {
    && Ready(t) && a != g && Holds(t.agent.flows, j, g) && FlowAt(t, a, j, Preparing)
    && t.agent == w.agent.(flows := t.agent.flows, jobs := t.agent.jobs, pendingSets := t.agent.pendingSets)
    && g < |w.agent.flows| && t.agent.flows[g] == w.agent.flows[g]
  }

  /** Once the job is forgotten, a newcomer is invited. */
  lemma ForgottenAndInvited(w: World, j: JobKey) returns (steps: seq<Step>, t: World)
    requires Ready(w) && j !in w.lock.locks
    ensures Path(w, steps, t) && Ready(t) && !Recorded(t.agent, j) && (!Recorded(w.agent, j) ==> NoClearing(steps, j))
    ensures t.agent == w.agent.(flows := w.agent.flows + [Flow(j, NO_INFO, AtLock)], jobs := t.agent.jobs,
                                pendingSets := t.agent.pendingSets)
    ensures t.agent.jobs.inFlight == w.agent.jobs.inFlight && L.Enabled(t.lock, L.Enter(|w.agent.flows|))
    ensures Calm(w) ==> Prompt(w, steps) && CalmBut(t, |w.agent.flows|)
  {
    var w1: World;
    steps, w1 := Forget(w, j);
    t := Invited(w1, j);
    steps := Join(w, steps, w1, [Invite(j, NO_INFO)], t, j);
  }

  /** A newcomer enters an unmarked job for which the lock has no entry. */
  lemma NewcomerEnters(w: World, j: JobKey, g: nat) returns (steps: seq<Step>, t: World)
    requires Ready(w) && Holds(w.agent.flows, j, g) && j !in w.agent.jobs.inFlight && j !in w.lock.locks
    ensures Path(w, steps, t) && InTurn(w, steps, t) && Joined(w, t, j, g, |w.agent.flows|)
    ensures !Recorded(t.agent, j) && (!Recorded(w.agent, j) ==> NoClearing(steps, j))
  {
    var w1: World;
    steps, w1 := ForgottenAndInvited(w, j);
    t := Marks(w1, j, |w.agent.flows|);
    steps := Join(w, steps, w1, [MarkInFlight(|w.agent.flows|)], t, j);
  }

  /** A waiting caller whose turn it is enters an unmarked job. */
  lemma WaiterEnters(w: World, j: JobKey, g: nat, c: nat) returns (steps: seq<Step>, t: World)
    requires Ready(w) && Holds(w.agent.flows, j, g) && j !in w.agent.jobs.inFlight
    requires FlowAt(w, c, j, AtLock) && L.Enabled(w.lock, L.Enter(c))
    ensures Path(w, steps, t) && Joined(w, t, j, g, c)
    ensures !Recorded(t.agent, j) && (!Recorded(w.agent, j) ==> NoClearing(steps, j))
    ensures !Recorded(w.agent, j) && CalmBut(w, c) ==> Prompt(w, steps) && Calm(t)
  {
    if Recorded(w.agent, j) {
      var w1: World;
      steps, w1 := Forget(w, j);
      t := Marks(w1, j, c);
      steps := Join(w, steps, w1, [MarkInFlight(c)], t, j);
    } else {
      t := Marks(w, j, c);
      steps := [MarkInFlight(c)];
    }
  }

  /** A caller of a recorded job passes as a duplicate, and the next one may be urgent. */
  lemma DuplicatePasses(w: World, j: JobKey, g: nat, c: nat) returns (t: World)
    requires Ready(w) && g < |w.agent.flows| && w.agent.flows[g].job == j && WaitsFor(w, c, g)
    requires w.lock.callers[g].phase == L.Done && Recorded(w.agent, j)
    ensures Path(w, [SkipDuplicate(c)], t) && Prompt(w, [SkipDuplicate(c)]) && Ready(t) && j !in t.lock.locks
    ensures c < |w.agent.flows| && w.agent.flows[c].job == j && w.agent.flows[c].pc == AtLock
    ensures t.agent == w.agent.(flows := w.agent.flows[c := w.agent.flows[c].(pc := Finished)])
    ensures CalmBehind(w, g) ==> CalmBehind(t, c)
  {
    WaiterIsOfTheJob(w, c, g);
    t := After(w, SkipDuplicate(c));
    OneStep(w, SkipDuplicate(c));
    StepKeepsReady(w, SkipDuplicate(c));
    if CalmBehind(w, g) {
      NextIsAlone(w, g, c);
      forall f: nat | Urgent(t, f)
        ensures WaitsFor(t, f, c)
      {
        assert !Urgent(w, f);
      }
    }
  }

  /** After `h` has left, which deletes the entry, somebody else can enter: whoever waited for it,
      or, when those have passed as duplicates, a newcomer. */
  lemma {:induction false} SomeoneEnters(w: World, j: JobKey, h: nat, g: nat)
    returns (steps: seq<Step>, t: World, a: nat)
    requires Ready(w) && Holds(w.agent.flows, j, g) && j !in w.agent.jobs.inFlight && j !in w.lock.locks
    requires h < |w.agent.flows| && w.agent.flows[h].job == j && w.lock.callers[h].phase == L.Done
    ensures Path(w, steps, t) && Joined(w, t, j, g, a)
    ensures !Recorded(t.agent, j) && (!Recorded(w.agent, j) ==> NoClearing(steps, j))
    ensures CalmBehind(w, h) ==> Prompt(w, steps) && Calm(t)
    decreases |w.agent.flows| - h
  {
    if c: nat :| WaitsFor(w, c, h) {
      WaiterIsOfTheJob(w, c, h);
      if CalmBehind(w, h) {
        NextIsAlone(w, h, c);
      }
      if Recorded(w.agent, j) {
        var w1 := DuplicatePasses(w, j, h, c);
        var more;
        more, t, a := SomeoneEnters(w1, j, c, g);
        steps := Join(w, [SkipDuplicate(c)], w1, more, t, j);
      } else {
        steps, t := WaiterEnters(w, j, g, c);
        a := c;
      }
    } else {
      steps, t := NewcomerEnters(w, j, g);
      a := |w.agent.flows|;
    }
  }

  /** Flow `h` has left the section and the lock, with its mark and the entry deleted. */
  ghost predicate Left(w: World, t: World, j: JobKey, h: nat) {
    && Ready(t) && h < |w.agent.flows| && |t.agent.flows| == |w.agent.flows|
    && t.agent.flows == w.agent.flows[h := w.agent.flows[h].(pc := Finished)] && t.agent.flows[h].job == j
    && t.lock.callers[h].phase == L.Done && j !in t.agent.jobs.inFlight && j !in t.lock.locks
    && t.agent == w.agent.(flows := t.agent.flows, jobs := t.agent.jobs)
    && (Recorded(t.agent, j) <==> Recorded(w.agent, j))
    && (Calm(w) ==> CalmBehind(t, h))
  }

  lemma SkipperLeaves(w: World, j: JobKey, e: nat) returns (t: World)
    requires Ready(w) && FlowAt(w, e, j, PublishingSkip) && j !in w.agent.jobs.inFlight
    ensures Path(w, [SkipPublished(e, true)], t) && Left(w, t, j, e)
    ensures Calm(w) ==> Prompt(w, [SkipPublished(e, true)])
  {
    t := After(w, SkipPublished(e, true));
    OneStep(w, SkipPublished(e, true));
    StepKeepsReady(w, SkipPublished(e, true));
    if Calm(w) {
      LeaveIsCalm(w, t, e);
    }
  }

  lemma LeftThenJoined(w: World, w1: World, t: World, j: JobKey, h: nat, g: nat, a: nat)
    requires Left(w, w1, j, h) && Joined(w1, t, j, g, a) && g != h
    ensures Joined(w, t, j, g, a)
  {
  }

  /** One flow leaves, and somebody else joins the holder that stays. */
  lemma ReplacedBySomeone(w: World, step: Step, w1: World, j: JobKey, h: nat, g: nat)
    returns (steps: seq<Step>, t: World, a: nat)
    requires Path(w, [step], w1) && NoClearing([step], j) && (Calm(w) ==> Prompt(w, [step]))
    requires Left(w, w1, j, h) && Holds(w1.agent.flows, j, g) && g != h
    ensures Path(w, steps, t) && InTurn(w, steps, t) && Joined(w, t, j, g, a)
    ensures !Recorded(t.agent, j) && (!Recorded(w.agent, j) ==> NoClearing(steps, j))
  {
    var more;
    more, t, a := SomeoneEnters(w1, j, h, g);
    LeftThenJoined(w, w1, t, j, h, g, a);
    steps := Join(w, [step], w1, more, t, j);
  }

  /** Another caller inside, which can only be publishing a skip, leaves and deletes the entry. */
  lemma SkipperMakesWay(w: World, j: JobKey, g: nat, e: nat) returns (steps: seq<Step>, t: World, a: nat)
    requires Ready(w) && Holds(w.agent.flows, j, g) && e != g
    requires j !in w.agent.jobs.inFlight && FlowAt(w, e, j, PublishingSkip)
    ensures Path(w, steps, t) && InTurn(w, steps, t) && Joined(w, t, j, g, a)
    ensures !Recorded(t.agent, j) && (!Recorded(w.agent, j) ==> NoClearing(steps, j))
  {
    var w1 := SkipperLeaves(w, j, e);
    steps, t, a := ReplacedBySomeone(w, SkipPublished(e, true), w1, j, e, g);
  }

  /** If the mark is gone and the lock does not guard the job, a second flow can enter. */
  lemma SecondEnters(w: World, j: JobKey, g: nat) returns (steps: seq<Step>, t: World, a: nat)
    requires Ready(w) && OneHolder(w.agent.flows, j) && Holds(w.agent.flows, j, g)
    requires j !in w.agent.jobs.inFlight && !Guarded(w.lock, j)
    ensures Path(w, steps, t) && InTurn(w, steps, t) && Joined(w, t, j, g, a)
    ensures !Recorded(t.agent, j) && (!Recorded(w.agent, j) ==> NoClearing(steps, j))
  {
    if j !in w.lock.locks {
      steps, t := NewcomerEnters(w, j, g);
      a := |w.agent.flows|;
    } else if !L.Exclusive(w.lock, j) {
      var c, d :| 0 <= d < c < |w.lock.callers| && L.RunningOn(w.lock, j, c) && L.RunningOn(w.lock, j, d);
      var e := if c == g then d else c;
      OtherInsideSkips(w, j, g, e);
      steps, t, a := SkipperMakesWay(w, j, g, e);
    } else {
      a := CallerGoesUnguarded(w, j);
      steps, t := WaiterEnters(w, j, g, a);
    }
  }

  lemma OtherInsideSkips(w: World, j: JobKey, g: nat, e: nat)
    requires Ready(w) && OneHolder(w.agent.flows, j) && Holds(w.agent.flows, j, g)
    requires e != g && L.RunningOn(w.lock, j, e)
    ensures FlowAt(w, e, j, PublishingSkip)
  {
    assert !Holds(w.agent.flows, j, e);
  }

  lemma CallerGoesUnguarded(w: World, j: JobKey) returns (c: nat)
    requires Ready(w) && !Guarded(w.lock, j) && j in w.lock.locks && L.Exclusive(w.lock, j)
    ensures FlowAt(w, c, j, AtLock) && L.Enabled(w.lock, L.Enter(c)) && !Calm(w)
  {
    c :| 0 <= c < |w.lock.callers| && L.LiveOn(w.lock, j, c) && w.lock.callers[c].phase == L.Waiting
         && !(w.lock.callers[c].prev.Some? && L.Live(w.lock, w.lock.callers[c].prev.value));
    assert L.WaitsBack(w.lock, c);
    assert PhaseOf(w.agent.flows[c].pc) == L.Waiting;
    assert Urgent(w, c);
  }

  // ---- From two flows inside to two audits ----

  /** The holder's task was settled as a bid that the chain already has. */
  predicate ToldDuplicate(pc: Pc) {
    pc == Settled(AlreadyOnChain) || pc == Settled(Rejected(true))
  }

  /** The job is not recorded, nor will the flow record it when it resumes. */
  predicate Unaware(w: World, j: JobKey, g: nat)
    requires g < |w.agent.flows|
  {
    !Recorded(w.agent, j) && !ToldDuplicate(w.agent.flows[g].pc) && w.agent.flows[g].pc != Settled(Sent)
  }

  /** The queue is empty and flow `a` is preparing beside flow `g`. */
  ghost predicate Beside(w: World, j: JobKey, g: nat, a: nat) {
    && Ready(w) && QueueIdle(w) && FlowAt(w, a, j, Preparing) && a != g
    && Holds(w.agent.flows, j, g) && w.agent.flows[g].pc != InQueue
  }

  lemma PublisherLeaves(w: World, j: JobKey, g: nat) returns (t: World)
    requires Ready(w) && FlowAt(w, g, j, PublishingBid)
    ensures Path(w, [BidPublished(g)], t) && Left(w, t, j, g) && (Calm(w) ==> Prompt(w, [BidPublished(g)]))
  {
    t := After(w, BidPublished(g));
    OneStep(w, BidPublished(g));
    StepKeepsReady(w, BidPublished(g));
    if Calm(w) {
      LeaveIsCalm(w, t, g);
    }
  }

  lemma PreparerLeaves(w: World, j: JobKey, g: nat) returns (t: World)
    requires Ready(w) && FlowAt(w, g, j, Preparing)
    ensures Path(w, [PrepareStops(g)], t) && Left(w, t, j, g) && (Calm(w) ==> Prompt(w, [PrepareStops(g)]))
  {
    t := After(w, PrepareStops(g));
    OneStep(w, PrepareStops(g));
    StepKeepsReady(w, PrepareStops(g));
    if Calm(w) {
      LeaveIsCalm(w, t, g);
    }
  }

  lemma ReporterLeaves(w: World, j: JobKey, g: nat) returns (t: World)
    requires Ready(w) && FlowAt(w, g, j, Reporting)
    ensures Path(w, [Reported(g, true)], t) && Left(w, t, j, g) && (Calm(w) ==> Prompt(w, [Reported(g, true)]))
  {
    t := After(w, Reported(g, true));
    OneStep(w, Reported(g, true));
    StepKeepsReady(w, Reported(g, true));
    if Calm(w) {
      LeaveIsCalm(w, t, g);
    }
  }

  /** A holder that awaits neither the queue nor its own next segment can leave: its `finally`
      blocks delete the mark another flow has set and the entry another flow has stored. */
  lemma HolderLeaves(w: World, j: JobKey, g: nat, a: nat) returns (step: Step, t: World)
    requires Beside(w, j, g, a) && !w.agent.flows[g].pc.Settled?
    ensures Path(w, [step], t) && NoClearing([step], j) && Left(w, t, j, g) && (Calm(w) ==> Prompt(w, [step]))
  {
    match w.agent.flows[g].pc
    case Preparing =>
      step := PrepareStops(g);
      t := PreparerLeaves(w, j, g);
    case PublishingBid =>
      step := BidPublished(g);
      t := PublisherLeaves(w, j, g);
    case Reporting =>
      step := Reported(g, true);
      t := ReporterLeaves(w, j, g);
  }

  /** The holder leaves and deletes the second flow's mark, and somebody else enters beside that. */
  lemma HolderIsReplaced(w: World, j: JobKey, g: nat, a: nat) returns (steps: seq<Step>, t: World, b: nat)
    requires Beside(w, j, g, a) && !w.agent.flows[g].pc.Settled?
    ensures Path(w, steps, t) && InTurn(w, steps, t) && (!Recorded(w.agent, j) ==> NoClearing(steps, j))
    ensures QueueIdle(t) && a != b && FlowAt(t, a, j, Preparing) && FlowAt(t, b, j, Preparing)
    ensures (t.agent.accepted, t.agent.audits) == (w.agent.accepted, w.agent.audits)
  {
    var step, w1 := HolderLeaves(w, j, g, a);
    steps, t, b := ReplacedBySomeone(w, step, w1, j, g, a);
  }

  lemma ReplacedAuditTwice(w: World, j: JobKey, g: nat, a: nat) returns (steps: seq<Step>, t: World)
    requires Beside(w, j, g, a) && !w.agent.flows[g].pc.Settled? && j !in w.agent.accepted
    ensures Path(w, steps, t) && InTurn(w, steps, t) && (!Recorded(w.agent, j) ==> NoClearing(steps, j))
    ensures t.agent.audits[j] == w.agent.audits[j] + 2
  {
    var w1: World, b: nat, more: seq<Step>;
    steps, w1, b := HolderIsReplaced(w, j, g, a);
    more, t := TwoPreparingAuditTwice(w1, j, a, b);
    steps := Join(w, steps, w1, more, t, j);
  }

  /** A holder that has sent its bid records it, and the second flow queues its task. */
  lemma SenderIsFollowed(w: World, j: JobKey, g: nat, a: nat) returns (steps: seq<Step>, t: World)
    requires QueueIdle(w) && FlowAt(w, g, j, Settled(Sent)) && FlowAt(w, a, j, Preparing)
    ensures Path(w, steps, t) && NoClearing(steps, j) && j in t.agent.jobs.pending
    ensures t.agent.drains == [Drain(a, ReadingWindow)] && FlowAt(t, a, j, InQueue)
    ensures (t.agent.accepted, t.agent.audits) == (w.agent.accepted, w.agent.audits)
  {
    var w1 := SenderRecords(w, j, g);
    var more;
    more, t := TaskIsTaken(w1, j, a);
    steps := Chain(w, [Resume(g)], w1, more, t, j);
  }

  lemma SentAuditsTwice(w: World, j: JobKey, g: nat, a: nat) returns (steps: seq<Step>, t: World)
    requires QueueIdle(w) && FlowAt(w, g, j, Settled(Sent)) && FlowAt(w, a, j, Preparing) && j !in w.agent.accepted
    ensures Path(w, steps, t) && NoClearing(steps, j) && t.agent.audits[j] == w.agent.audits[j] + 2
  {
    var w1: World, more: seq<Step>;
    steps, w1 := SenderIsFollowed(w, j, g, a);
    more, t := BothWin(w1, j, a);
    steps := Chain(w, steps, w1, more, t, j);
  }

  lemma RejectedReports(w: World, j: JobKey, g: nat, a: nat, duplicate: bool) returns (t: World)
    requires Beside(w, j, g, a) && w.agent.flows[g].pc == Settled(Rejected(duplicate))
    ensures Path(w, [Resume(g)], t) && Beside(t, j, g, a) && t.agent.flows[g].pc == Reporting
    ensures (t.agent.accepted, t.agent.audits) == (w.agent.accepted, w.agent.audits)
    ensures Unaware(w, j, g) ==> !Recorded(t.agent, j)
  {
    t := After(w, Resume(g));
    OneStep(w, Resume(g));
    StepKeepsReady(w, Resume(g));
  }

  /** A holder whose task was rejected goes on to report that. */
  lemma RejectedAuditsTwice(w: World, j: JobKey, g: nat, a: nat, duplicate: bool) returns (steps: seq<Step>, t: World)
    requires Beside(w, j, g, a) && w.agent.flows[g].pc == Settled(Rejected(duplicate)) && j !in w.agent.accepted
    ensures Path(w, steps, t) && t.agent.audits[j] == w.agent.audits[j] + 2
    ensures Unaware(w, j, g) ==> NoClearing(steps, j)
  {
    var w1 := RejectedReports(w, j, g, a, duplicate);
    var more;
    more, t := ReplacedAuditTwice(w1, j, g, a);
    steps := Chain(w, [Resume(g)], w1, more, t, j);
  }

  /** A holder whose task needed no bid leaves as soon as it resumes. */
  lemma IdlerLeaves(w: World, j: JobKey, g: nat, a: nat, result: BidResult) returns (steps: seq<Step>, t: World)
    requires Beside(w, j, g, a) && w.agent.flows[g].pc == Settled(result)
    requires result == AlreadyOnChain || result == NothingSent
    ensures Path(w, steps, t) && NoClearing(steps, j) && Ready(t) && QueueIdle(t) && FlowAt(t, a, j, Preparing)
    ensures DoneWith(t, g, j) && j !in t.agent.jobs.inFlight && j !in t.lock.locks
    ensures (t.agent.accepted, t.agent.audits) == (w.agent.accepted, w.agent.audits)
    ensures Unaware(w, j, g) ==> !Recorded(t.agent, j)
  {
    steps, t := [Resume(g)], After(w, Resume(g));
    OneStep(w, Resume(g));
    StepKeepsReady(w, Resume(g));
  }

  lemma BesideTheGone(w: World, j: JobKey, g: nat, a: nat) returns (steps: seq<Step>, t: World, b: nat)
    requires Ready(w) && QueueIdle(w) && FlowAt(w, a, j, Preparing) && DoneWith(w, g, j)
    requires j !in w.agent.jobs.inFlight && j !in w.lock.locks
    ensures Path(w, steps, t) && (!Recorded(w.agent, j) ==> NoClearing(steps, j))
    ensures QueueIdle(t) && a != b && FlowAt(t, a, j, Preparing) && FlowAt(t, b, j, Preparing)
    ensures (t.agent.accepted, t.agent.audits) == (w.agent.accepted, w.agent.audits)
  {
    steps, t, b := SomeoneEnters(w, j, g, a);
  }

  lemma IdlerIsReplaced(w: World, j: JobKey, g: nat, a: nat) returns (steps: seq<Step>, t: World, b: nat)
    requires Beside(w, j, g, a)
    requires w.agent.flows[g].pc == Settled(AlreadyOnChain) || w.agent.flows[g].pc == Settled(NothingSent)
    ensures Path(w, steps, t) && (Unaware(w, j, g) ==> NoClearing(steps, j))
    ensures QueueIdle(t) && a != b && FlowAt(t, a, j, Preparing) && FlowAt(t, b, j, Preparing)
    ensures (t.agent.accepted, t.agent.audits) == (w.agent.accepted, w.agent.audits)
  {
    var w1: World, more: seq<Step>;
    steps, w1 := IdlerLeaves(w, j, g, a, w.agent.flows[g].pc.result);
    more, t, b := BesideTheGone(w1, j, g, a);
    steps := Chain(w, steps, w1, more, t, j);
  }

  lemma IdlerAuditsTwice(w: World, j: JobKey, g: nat, a: nat) returns (steps: seq<Step>, t: World)
    requires Beside(w, j, g, a) && j !in w.agent.accepted
    requires w.agent.flows[g].pc == Settled(AlreadyOnChain) || w.agent.flows[g].pc == Settled(NothingSent)
    ensures Path(w, steps, t) && t.agent.audits[j] == w.agent.audits[j] + 2
    ensures Unaware(w, j, g) ==> NoClearing(steps, j)
  {
    var w1: World, b: nat, more: seq<Step>;
    steps, w1, b := IdlerIsReplaced(w, j, g, a);
    more, t := TwoPreparingAuditTwice(w1, j, a, b);
    steps := Chain(w, steps, w1, more, t, j);
  }

  lemma SettledAuditsTwice(w: World, j: JobKey, g: nat, a: nat) returns (steps: seq<Step>, t: World)
    requires Beside(w, j, g, a) && w.agent.flows[g].pc.Settled? && j !in w.agent.accepted
    ensures Path(w, steps, t) && t.agent.audits[j] == w.agent.audits[j] + 2
    ensures !Recorded(w.agent, j) && !ToldDuplicate(w.agent.flows[g].pc) ==> NoClearing(steps, j)
  {
    match w.agent.flows[g].pc.result
    case Sent => steps, t := SentAuditsTwice(w, j, g, a);
    case Rejected(duplicate) => steps, t := RejectedAuditsTwice(w, j, g, a, duplicate);
    case AlreadyOnChain => steps, t := IdlerAuditsTwice(w, j, g, a);
    case NothingSent => steps, t := IdlerAuditsTwice(w, j, g, a);
  }

  /** The queue runs empty while the two flows stay inside. */
  lemma BothStay(w: World, j: JobKey, g: nat, a: nat) returns (steps: seq<Step>, t: World)
    requires Ready(w) && Holds(w.agent.flows, j, g) && FlowAt(w, a, j, Preparing) && a != g
    ensures Path(w, steps, t) && NoClearing(steps, j) && InTurn(w, steps, t) && Beside(t, j, g, a)
    ensures (t.agent.accepted, t.agent.audits, t.agent.jobs) == (w.agent.accepted, w.agent.audits, w.agent.jobs)
    ensures !ToldDuplicate(w.agent.flows[g].pc) ==> !ToldDuplicate(t.agent.flows[g].pc)
  {
    steps, t := QueueEmpties(w, j);
    RunKeepsReady(w, steps);
    assert Placed(t.agent, g);
  }

  /** Two flows inside the bid section of an unaccepted job can lead to two audits, wherever the
      first one is; no clearing event is needed if the job is not recorded, provided the first
      one has not been told that the chain already has a bid. And from a state in which nothing
      is urgent the run keeps to the order of microtasks. */
  lemma JoinedAuditTwice(w: World, j: JobKey, g: nat, a: nat) returns (steps: seq<Step>, t: World)
    requires Ready(w) && Holds(w.agent.flows, j, g) && FlowAt(w, a, j, Preparing) && a != g
    requires j !in w.agent.accepted
    ensures Path(w, steps, t) && InTurn(w, steps, t) && t.agent.audits[j] == w.agent.audits[j] + 2
    ensures !Recorded(w.agent, j) && !ToldDuplicate(w.agent.flows[g].pc) ==> NoClearing(steps, j)
  {
    var w1: World, more: seq<Step>;
    steps, w1 := BothStay(w, j, g, a);
    if w1.agent.flows[g].pc.Settled? {
      assert Urgent(w1, g);
      more, t := SettledAuditsTwice(w1, j, g, a);
    } else {
      more, t := ReplacedAuditTwice(w1, j, g, a);
    }
    steps := Join(w, steps, w1, more, t, j);
  }
}
