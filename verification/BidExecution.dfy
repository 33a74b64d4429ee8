/**
 The queued `execute` callback of a bid: one chain read, one window check, then a bounded
 retry loop around `submitBid` that classifies each failure by its message and re-reads the
 chain after ambiguous ones. What the environment answers in each attempt is an arbitrary
 input; the trace records the calls.
 */
module BidExecution {
  import opened Wrappers
  import opened ErrorText

  const MAX_ATTEMPTS := 3

  datatype TopUpAnswer = Ready | NotReady | TopUpThrew(error: string)

  /** What the environment answers in one attempt; a field is used only if asked. */
  datatype Answers = Answers(
    submitError: Option<string>,    // None: `submitBid` returned a transaction
    reread: Option<bool>,           // None: the second `hasAgentBid` threw
    windowOpen: bool,
    dropPublishError: Option<string>,
    payer: TopUpAnswer,
    collateral: TopUpAnswer,
    approvalError: Option<string>)

  datatype Event =
    | Submit(failure: Option<BidError>)
    | ChainRead(answer: Option<bool>)
    | Window(open: bool)
    | PublishDrop
    | PayerTopUp
    | CollateralTopUp
    | Approve

  datatype Outcome = BidSent | AlreadyBid | LateDrop | Threw(error: string)

  /** How the submission of an attempt fails, as the loop reads its message. */
  function Failure(demo: bool, a: Answers): Option<BidError> {
    if a.submitError.None? then None else Some(ClassifyBid(demo, a.submitError.value))
  }

  /** How the submissions of all attempts fail. */
  function Failures(demo: bool, answers: nat -> Answers): nat -> Option<BidError> {
    (n: nat) => Failure(demo, answers(n))
  }

  /** The failed attempt learns that the chain already has our bid. */
  predicate FindsBid(e: Option<BidError>, a: Answers) {
    e.Some? && (e.value.duplicate || (e.value.ambiguous && a.reread == Some(true)))
  }

  predicate PayerRecovers(e: Option<BidError>, a: Answers, attempt: nat)
    requires e.Some?
  {
    attempt < MAX_ATTEMPTS && e.value.payer && a.payer.Ready?
  }

  predicate CollateralRecovers(e: Option<BidError>, a: Answers, attempt: nat)
    requires e.Some?
  {
    attempt < MAX_ATTEMPTS && e.value.collateral && a.collateral.Ready? && a.approvalError.None?
  }

  /** The error a recovery call raises, if the attempt gets to one that throws. */
  function RecoveryError(e: Option<BidError>, a: Answers, attempt: nat): Option<string>
    requires e.Some?
  {
    var failure := e.value;
    if attempt >= MAX_ATTEMPTS || PayerRecovers(e, a, attempt) then None
    else if failure.payer && a.payer.TopUpThrew? then Some(a.payer.error)
    else if !failure.collateral || a.collateral.NotReady? then None
    else if a.collateral.TopUpThrew? then Some(a.collateral.error)
    else a.approvalError
  }

  /** When the loop goes round again: the attempt failed, found no bid on chain, the window is
      open, and either a shortage was made good or the failure was ambiguous. */
  predicate Retries(e: Option<BidError>, a: Answers, attempt: nat) {
    && e.Some? && !FindsBid(e, a) && a.windowOpen && attempt < MAX_ATTEMPTS
    && RecoveryError(e, a, attempt).None?
    && (PayerRecovers(e, a, attempt) || CollateralRecovers(e, a, attempt) || e.value.ambiguous)
  }

  /** The calls of one attempt begin with its only submission, which fares as `e` says. */
  predicate OneSubmit(e: Option<BidError>, calls: seq<Event>) {
    calls != [] && calls[0] == Submit(e) && forall i | 1 <= i < |calls| :: !calls[i].Submit?
  }

  /** The calls of an attempt license another one: the window was found open and, if the
      submission failed ambiguously, the chain was re-read without showing our bid. */
  predicate Licenses(calls: seq<Event>) {
    && calls != [] && calls[0].Submit? && calls[0].failure.Some?
    && Window(true) in calls
    && Window(false) !in calls
    && ChainRead(Some(true)) !in calls
    && (calls[0].failure.value.ambiguous ==> ChainRead(Some(false)) in calls || ChainRead(None) in calls)
  }

  /** The failed attempt has shown neither a refusal as a duplicate nor, on a re-read, our bid. */
  predicate StillMissing(e: Option<BidError>, a: Answers) {
    e.Some? && !e.value.duplicate && (e.value.ambiguous ==> a.reread != Some(true))
  }

  /** Whether an attempt re-reads the chain, reads the window and publishes a drop, and what it is told. */
  ghost predicate ReadsFit(e: Option<BidError>, a: Answers, calls: seq<Event>) {
    && (forall r :: ChainRead(r) in calls <==> e.Some? && !e.value.duplicate && e.value.ambiguous && r == a.reread)
    && (forall o :: Window(o) in calls <==> StillMissing(e, a) && o == a.windowOpen)
    && (PublishDrop in calls <==> StillMissing(e, a) && !a.windowOpen)
  }

  /** Which recovery calls it makes: for HBAR, then, unless that has helped, for collateral, then for its
      allowance; none at the third attempt. */
  predicate RecoveriesFit(e: Option<BidError>, a: Answers, attempt: nat, calls: seq<Event>) {
    var mayRecover := StillMissing(e, a) && a.windowOpen && attempt < 3;
    var asksCollateral := mayRecover && e.value.collateral && (e.value.payer ==> a.payer.NotReady?);
    && (PayerTopUp in calls <==> mayRecover && e.value.payer)
    && (CollateralTopUp in calls <==> asksCollateral)
    && (Approve in calls <==> asksCollateral && a.collateral.Ready?)
  }

  /** Which calls an attempt makes besides its submission, each with the answer it gets. */
  ghost predicate CallsFit(e: Option<BidError>, a: Answers, attempt: nat, calls: seq<Event>) {
    ReadsFit(e, a, calls) && RecoveriesFit(e, a, attempt, calls)
  }

  /** A recovery call adds no read and no submission. */
  lemma RecoveryIsNoRead(e: Option<BidError>, a: Answers, calls: seq<Event>, call: Event)
    requires ReadsFit(e, a, calls) && OneSubmit(e, calls) && Licenses(calls)
    requires call.PayerTopUp? || call.CollateralTopUp? || call.Approve?
    ensures ReadsFit(e, a, calls + [call]) && OneSubmit(e, calls + [call]) && Licenses(calls + [call])
  {
    assert forall c :: c in calls + [call] <==> c in calls || c == call;
  }

  /** The outcome that ends the loop, for an attempt after which it does not go round. */
  ghost predicate EndsWith(e: Option<BidError>, a: Answers, attempt: nat, outcome: Outcome) {
    && !Retries(e, a, attempt)
    && (outcome.BidSent? <==> e.None?)
    && (outcome.AlreadyBid? <==> FindsBid(e, a))
    && (outcome.LateDrop? <==> e.Some? && !FindsBid(e, a) && !a.windowOpen && a.dropPublishError.None?)
    && (outcome.Threw? ==> e.Some?)
    && (outcome.Threw? && !a.windowOpen ==> Some(outcome.error) == a.dropPublishError)
    && (outcome.Threw? && a.windowOpen ==>
          outcome.error == match RecoveryError(e, a, attempt)
                           case Some(error) => error
                           case None => e.value.text)
  }

  /** One pass through the body of the retry loop; `None` goes round again. */
  method Attempt(e: Option<BidError>, a: Answers, attempt: nat) returns (ended: Option<Outcome>, calls: seq<Event>)
    requires 1 <= attempt <= MAX_ATTEMPTS
    ensures ended.None? <==> Retries(e, a, attempt)
    ensures ended.Some? ==> EndsWith(e, a, attempt, ended.value)
    ensures OneSubmit(e, calls) && CallsFit(e, a, attempt, calls)
    ensures ended.None? ==> Licenses(calls)
  {
    calls := [Submit(e)];
    if e.None? {
      return Some(BidSent), calls;
    }
    var failure := e.value;
    if failure.duplicate {
      return Some(AlreadyBid), calls;
    }
    if failure.ambiguous {
      calls := calls + [ChainRead(a.reread)];
      if a.reread.Some? && a.reread.value {
        return Some(AlreadyBid), calls;
      }
      assert a.reread.Some? ==> a.reread == Some(false) by {
        assert a.reread.Some? ==> a.reread.value == false;
      }
      assert calls[1] == ChainRead(a.reread) && (a.reread == Some(false) || a.reread == None);
    }
    calls := calls + [Window(a.windowOpen)];
    if !a.windowOpen {
      calls := calls + [PublishDrop];
      if a.dropPublishError.Some? {
        return Some(Threw(a.dropPublishError.value)), calls;
      }
      return Some(LateDrop), calls;
    }
    assert calls[|calls| - 1] == Window(true);
    ended, calls := Recover(failure, a, attempt, calls);
  }

  /** The rest of the pass, once the window has been found open: the recovery calls, and whether to go round
      again. */
  method Recover(failure: BidError, a: Answers, attempt: nat, before: seq<Event>)
    returns (ended: Option<Outcome>, calls: seq<Event>)
    requires 1 <= attempt <= MAX_ATTEMPTS && StillMissing(Some(failure), a) && a.windowOpen
    requires OneSubmit(Some(failure), before) && Licenses(before) && ReadsFit(Some(failure), a, before)
    requires PayerTopUp !in before && CollateralTopUp !in before && Approve !in before
    ensures ended.None? <==> Retries(Some(failure), a, attempt)
    ensures ended.Some? ==> EndsWith(Some(failure), a, attempt, ended.value)
    ensures OneSubmit(Some(failure), calls) && CallsFit(Some(failure), a, attempt, calls) && Licenses(calls)
  {
    calls := before;
    if failure.payer && attempt < MAX_ATTEMPTS {
      RecoveryIsNoRead(Some(failure), a, calls, PayerTopUp);
      calls := calls + [PayerTopUp];
      if a.payer.TopUpThrew? {
        return Some(Threw(a.payer.error)), calls;
      }
      if a.payer.Ready? {
        return None, calls;
      }
    }
    if failure.collateral && attempt < MAX_ATTEMPTS {
      RecoveryIsNoRead(Some(failure), a, calls, CollateralTopUp);
      calls := calls + [CollateralTopUp];
      if a.collateral.TopUpThrew? {
        return Some(Threw(a.collateral.error)), calls;
      }
      if a.collateral.Ready? {
        RecoveryIsNoRead(Some(failure), a, calls, Approve);
        calls := calls + [Approve];
        if a.approvalError.Some? {
          return Some(Threw(a.approvalError.value)), calls;
        }
        return None, calls;
      }
    }
    if !failure.ambiguous || attempt == MAX_ATTEMPTS {
      return Some(Threw(failure.text)), calls;
    }
    return None, calls;
  }

  /** A complete run of the retry loop, its calls listed attempt by attempt: between one and
      three submissions, each one after the first licensed by the calls before it, and exactly
      one outcome, that of the last attempt. */
  ghost predicate LoopRun(failures: nat -> Option<BidError>, answers: nat -> Answers, outcome: Outcome,
                          trace: seq<seq<Event>>)
  {
    && 1 <= |trace| <= MAX_ATTEMPTS
    && (forall n | 0 <= n < |trace| ::
          OneSubmit(failures(n + 1), trace[n]) && CallsFit(failures(n + 1), answers(n + 1), n + 1, trace[n]))
    && (forall n | 0 <= n < |trace| - 1 :: Licenses(trace[n]) && Retries(failures(n + 1), answers(n + 1), n + 1))
    && EndsWith(failures(|trace|), answers(|trace|), |trace|, outcome)
  }

  /** The attempts so far all went round again, each licensing the next. */
  ghost predicate WentRound(failures: nat -> Option<BidError>, answers: nat -> Answers, trace: seq<seq<Event>>) {
    forall n | 0 <= n < |trace| ::
      && OneSubmit(failures(n + 1), trace[n]) && CallsFit(failures(n + 1), answers(n + 1), n + 1, trace[n])
      && Licenses(trace[n])
      && Retries(failures(n + 1), answers(n + 1), n + 1)
  }

  lemma GoesRoundOnce(failures: nat -> Option<BidError>, answers: nat -> Answers, before: seq<seq<Event>>,
                      calls: seq<Event>)
    requires WentRound(failures, answers, before)
    requires OneSubmit(failures(|before| + 1), calls) && Licenses(calls)
    requires CallsFit(failures(|before| + 1), answers(|before| + 1), |before| + 1, calls)
    requires Retries(failures(|before| + 1), answers(|before| + 1), |before| + 1)
    ensures WentRound(failures, answers, before + [calls])
  {
    var trace := before + [calls];
    forall n | 0 <= n < |trace|
      ensures OneSubmit(failures(n + 1), trace[n]) && CallsFit(failures(n + 1), answers(n + 1), n + 1, trace[n])
      ensures Licenses(trace[n]) && Retries(failures(n + 1), answers(n + 1), n + 1)
    {
      assert trace[n] == if n < |before| then before[n] else calls;
    }
  }

  lemma EndsAfterRounds(failures: nat -> Option<BidError>, answers: nat -> Answers, before: seq<seq<Event>>,
                        calls: seq<Event>, outcome: Outcome)
    requires WentRound(failures, answers, before) && |before| < MAX_ATTEMPTS
    requires OneSubmit(failures(|before| + 1), calls)
    requires CallsFit(failures(|before| + 1), answers(|before| + 1), |before| + 1, calls)
    requires EndsWith(failures(|before| + 1), answers(|before| + 1), |before| + 1, outcome)
    ensures LoopRun(failures, answers, outcome, before + [calls])
  {
    var trace := before + [calls];
    forall n | 0 <= n < |trace|
      ensures OneSubmit(failures(n + 1), trace[n]) && CallsFit(failures(n + 1), answers(n + 1), n + 1, trace[n])
    {
      assert trace[n] == if n < |before| then before[n] else calls;
    }
    forall n | 0 <= n < |trace| - 1
      ensures Licenses(trace[n]) && Retries(failures(n + 1), answers(n + 1), n + 1)
    {
      assert trace[n] == before[n];
    }
  }

  method SubmitWithRetry(failures: nat -> Option<BidError>, answers: nat -> Answers)
    returns (outcome: Outcome, trace: seq<seq<Event>>)
    ensures LoopRun(failures, answers, outcome, trace)
  {
    trace := [];
    var attempt := 1;
    while attempt <= MAX_ATTEMPTS
      invariant 1 <= attempt <= MAX_ATTEMPTS && |trace| == attempt - 1
      invariant WentRound(failures, answers, trace)
      decreases MAX_ATTEMPTS - attempt
    {
      var ended, calls := Attempt(failures(attempt), answers(attempt), attempt);
      if ended.Some? {
        EndsAfterRounds(failures, answers, trace, calls, ended.value);
        return ended.value, trace + [calls];
      }
      GoesRoundOnce(failures, answers, trace, calls);
      trace := trace + [calls];
      attempt := attempt + 1;
    }
    // Unreachable: the third attempt never goes round again.
    assert false;
    outcome := LateDrop;
  }

  // ---- When the loop goes on, and how it ends ----

  /** What makes another attempt due, in terms of the failure and the answers: our bid is still missing,
      the window is open, and a payer shortage has been made good, or else a collateral shortage
      has, allowance included, or else the failure was ambiguous and no recovery call threw. */
  predicate AnotherIsDue(e: Option<BidError>, a: Answers) {
    && StillMissing(e, a) && a.windowOpen
    && (|| (e.value.payer && a.payer.Ready?)
        || (&& (e.value.payer ==> a.payer.NotReady?)
            && e.value.collateral && a.collateral.Ready? && a.approvalError.None?)
        || (&& (e.value.payer ==> a.payer.NotReady?)
            && (e.value.collateral ==> a.collateral.NotReady?)
            && e.value.ambiguous))
  }

  lemma RetriesWhenDue(e: Option<BidError>, a: Answers, attempt: nat)
    ensures Retries(e, a, attempt) <==> AnotherIsDue(e, a) && attempt < 3
  {
  }

  lemma WentOn(failures: nat -> Option<BidError>, answers: nat -> Answers, outcome: Outcome,
               trace: seq<seq<Event>>, n: nat)
    requires LoopRun(failures, answers, outcome, trace) && 1 <= n < |trace|
    ensures Retries(failures(n), answers(n), n)
  {
    var i := n - 1;
    assert Licenses(trace[i]) && Retries(failures(i + 1), answers(i + 1), i + 1);
  }

  /** After each of the first two attempts that is made, another one is made exactly when it is due. */
  lemma GoesOnIffDue(failures: nat -> Option<BidError>, answers: nat -> Answers, outcome: Outcome,
                     trace: seq<seq<Event>>, n: nat)
    requires LoopRun(failures, answers, outcome, trace) && 1 <= n < 3 && n <= |trace|
    ensures |trace| > n <==> AnotherIsDue(failures(n), answers(n))
  {
    RetriesWhenDue(failures(n), answers(n), n);
    if n < |trace| {
      WentOn(failures, answers, outcome, trace, n);
    }
  }

  /** A transient failure is never the end before the third attempt: if it is ambiguous, the window is
      open, the re-read does not show our bid and nothing is short, the bid is submitted again. */
  lemma TransientIsRepeated(failures: nat -> Option<BidError>, answers: nat -> Answers, outcome: Outcome,
                            trace: seq<seq<Event>>, n: nat)
    requires LoopRun(failures, answers, outcome, trace) && 1 <= n < 3 && n <= |trace|
    requires failures(n).Some? && failures(n).value.ambiguous && !failures(n).value.duplicate
    requires !failures(n).value.payer && !failures(n).value.collateral
    requires answers(n).windowOpen && answers(n).reread != Some(true)
    ensures |trace| > n && trace[n][0] == Submit(failures(n + 1))
  {
    GoesOnIffDue(failures, answers, outcome, trace, n);
    assert OneSubmit(failures(n + 1), trace[n]);
  }

  /** If another attempt is due after each of the first `k - 1` and the next one succeeds, the bid is sent,
      after exactly `k` submissions. */
  lemma {:induction false} SentAfterFailures(failures: nat -> Option<BidError>, answers: nat -> Answers,
                                             outcome: Outcome, trace: seq<seq<Event>>, k: nat, n: nat)
    requires LoopRun(failures, answers, outcome, trace) && 1 <= n <= k <= 3 && n <= |trace|
    requires forall i | 1 <= i < k :: AnotherIsDue(failures(i), answers(i))
    requires failures(k).None?
    ensures |trace| == k && outcome == BidSent
    decreases k - n
  {
    if n < k {
      GoesOnIffDue(failures, answers, outcome, trace, n);
      SentAfterFailures(failures, answers, outcome, trace, k, n + 1);
    } else if n < |trace| {
      WentOn(failures, answers, outcome, trace, n);
    }
  }

  /** How the loop ends, by the failure and the answers of its last attempt. */
  lemma OutcomeOfLast(failures: nat -> Option<BidError>, answers: nat -> Answers, outcome: Outcome,
                      trace: seq<seq<Event>>)
    requires LoopRun(failures, answers, outcome, trace)
    ensures var e, a := failures(|trace|), answers(|trace|);
            && (outcome == BidSent <==> e.None?)
            && (outcome == AlreadyBid <==> e.Some? && !StillMissing(e, a))
            && (StillMissing(e, a) && !a.windowOpen ==>
                  outcome == match a.dropPublishError case None => LateDrop case Some(error) => Threw(error))
            && (StillMissing(e, a) && a.windowOpen && |trace| < 3 ==>
                  outcome == Threw(
                    if e.value.payer && a.payer.TopUpThrew? then a.payer.error
                    else if e.value.collateral && a.collateral.TopUpThrew? then a.collateral.error
                    else if e.value.collateral && a.collateral.Ready? && a.approvalError.Some?
                    then a.approvalError.value
                    else e.value.text))
            && (StillMissing(e, a) && a.windowOpen && |trace| == 3 ==> outcome == Threw(e.value.text))
  {
    assert EndsWith(failures(|trace|), answers(|trace|), |trace|, outcome);
  }

  // ---- The messages that matter, in the loop ----

  lemma AmbiguousIsReread(failures: nat -> Option<BidError>, answers: nat -> Answers, outcome: Outcome,
                          trace: seq<seq<Event>>, n: nat)
    requires LoopRun(failures, answers, outcome, trace) && n + 1 < |trace|
    requires failures(n + 1).Some? && failures(n + 1).value.ambiguous
    ensures ChainRead(Some(false)) in trace[n] || ChainRead(None) in trace[n]
    ensures answers(n + 1).reread != Some(true)
  {
    assert OneSubmit(failures(n + 1), trace[n]);
    assert Licenses(trace[n]) && Retries(failures(n + 1), answers(n + 1), n + 1);
  }

  /** A submission that times out, in any case of letters, is followed by a re-read of the
      chain, which does not show our bid, before anything else is submitted. */
  lemma TimeoutIsRereadBeforeNextSubmit(demo: bool, answers: nat -> Answers, outcome: Outcome, trace: seq<seq<Event>>,
                                        n: nat, before: string, word: string, after: string)
    requires LoopRun(Failures(demo, answers), answers, outcome, trace) && n + 1 < |trace|
    requires answers(n + 1).submitError == Some(before + word + after) && Lower(word) == "timeout"
    ensures ChainRead(Some(false)) in trace[n] || ChainRead(None) in trace[n]
    ensures answers(n + 1).reread != Some(true)
  {
    TimeoutIsAmbiguous(demo, before, word, after);
    AmbiguousIsReread(Failures(demo, answers), answers, outcome, trace, n);
  }

  lemma DuplicateIsLast(failures: nat -> Option<BidError>, answers: nat -> Answers, outcome: Outcome,
                        trace: seq<seq<Event>>, n: nat)
    requires LoopRun(failures, answers, outcome, trace) && n < |trace|
    requires failures(n + 1).Some? && failures(n + 1).value.duplicate
    ensures n == |trace| - 1 && outcome == AlreadyBid
  {
    assert OneSubmit(failures(n + 1), trace[n]);
    assert FindsBid(failures(n + 1), answers(n + 1));
  }

  /** A submission refused with a message naming an existing bid is the last one, and the job
      counts as already bid, whatever else the message says. */
  lemma DuplicateEndsTheLoop(demo: bool, answers: nat -> Answers, outcome: Outcome, trace: seq<seq<Event>>,
                             n: nat, before: string, word: string, after: string)
    requires LoopRun(Failures(demo, answers), answers, outcome, trace) && n < |trace|
    requires answers(n + 1).submitError == Some(before + word + after) && Lower(word) == "bid already submitted"
    ensures n == |trace| - 1 && outcome == AlreadyBid
  {
    DuplicateTakesPrecedence(demo, before, word, after);
    DuplicateIsLast(Failures(demo, answers), answers, outcome, trace, n);
  }

  // ---- The whole callback ----

  datatype Read = Answered(hasBid: bool) | ReadFailed(error: string)

  datatype Execution = ReadThrew(error: string) | AlreadyKnown | WindowExpired | Bid(outcome: Outcome)

  /** Nothing is submitted unless the chain read answered that no bid of ours exists and the
      window was then found open. */
  ghost predicate Executes(demo: bool, read: Read, windowOpen: bool, answers: nat -> Answers,
                           result: Execution, trace: seq<seq<Event>>) {
    && (result.ReadThrew? <==> read.ReadFailed?)
    && (result.ReadThrew? ==> result.error == read.error)
    && (result.AlreadyKnown? <==> read == Answered(true))
    && (result.WindowExpired? <==> read == Answered(false) && !windowOpen)
    && (result.Bid? <==> trace != [])
    && (result.Bid? ==> LoopRun(Failures(demo, answers), answers, result.outcome, trace))
  }

  method Execute(demo: bool, read: Read, windowOpen: bool, answers: nat -> Answers)
    returns (result: Execution, trace: seq<seq<Event>>)
    ensures Executes(demo, read, windowOpen, answers, result, trace)
  {
    if read.ReadFailed? {
      return ReadThrew(read.error), [];
    }
    if read.hasBid {
      return AlreadyKnown, [];
    }
    if !windowOpen {
      return WindowExpired, [];
    }
    var outcome, calls := SubmitWithRetry(Failures(demo, answers), answers);
    return Bid(outcome), calls;
  }
}
