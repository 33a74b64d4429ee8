# AuditGuard agents: bidding runtime and money movers

A Dafny model of the parts of the AuditGuard agents that must be right while everything around
them fails or repeats itself: how an auditor agent bids on an auction, how wallets are topped up
and funded, how the scanner walks the mirror node, and the arithmetic in between.

One rule is used throughout. JavaScript runs one segment at a time, from one `await` to the next,
so a step of a transition system is one such segment, a chain event, or the delivery of an event;
steps interleave freely, and what a network or chain call answers is an arbitrary input.

Code that updates module-level collections, fields or balances is modelled by classes and methods
that update them in place (`AgentState.FuzzerAgent`, `JobLock.JobLockManager`,
`TokenLedger.Token`, `ResilientTransfer.Network`, `Scanner.ScannerAgent`, the donor, retry and
reordering loops). Each method is proved equal to a function on values, and the transition systems
and theorems are about those functions.

## The main results

- **Bid lifecycle** (`BidSystem`, `BidQueueSafety`, `BidMarks`, `AuditOnce`). Over every run, with
  invitations and winner events repeated or late, bids accepted at any time after they were handed
  to the chain, and every call failing at will: the queue never stalls, drains are never two, tasks
  are dequeued in order and settled exactly once, and no run takes more than seven drain steps per
  task. At most one flow per job is inside the bid section as long as the error handler around
  message handling does not strike that job while it is in flight; and the job's audit cycle starts
  at most once if this is so until the chain has accepted a bid for it, whatever handlers do later
  or to other jobs. Nothing is assumed of the job lock here: a flow may pass it at any time.
- **Records** (`JobRecords`). Over every run, error handler included, every audit is one of a
  contract that an invitation to that job named. A job the handler has struck is not audited until a
  sent bid is recorded anew, and from the step in which a flow learns of a bid of ours nobody enters
  the job's bid section until an event clears it. What each step does to each set is stated in full.
- **The error handler, exactly** (`LockedBids`, `DoubleAudit`, `HandlerExactness`, `FailureOrder`,
  `HandlerCounterexample`). After any run of harmless firings, one more firing keeps the bid section
  exclusive, however the run goes on, if and only if the job it strikes is not in flight; and it
  keeps the audit single if and only if the job is not in flight or already accepted. The same two
  questions are answered exactly for the agent together with its lock, with firings at any moment,
  where the lock may still guard the job. In the order in which JavaScript really runs the handler,
  after the failing flow's leave and the first segment of its one waiter, the lock guards nothing,
  and the exact condition is decided before the failure: no other flow holds the job, and nobody
  waits for the failing flow whom the duplicate checks let through. For audits, as before, the job
  may be accepted already. Both conditions are exact already for continuations in which microtasks
  come first, that is, in which nothing else happens while a settled flow has yet to resume or a
  caller to enter. If such continuations neither cancel the job nor report it lost, a job that is
  already recorded locally is safe as well, and again exactly so. A concrete run of the agent with
  its lock, microtasks first, shows a second audit after a single firing: it needs only a repeated
  invitation, one failed report and a repeated winner event.
- **Liveness** (`BidQueueSafety`, `Liveness`). From every reachable state the queue can empty, and
  every invited flow can come to its end, handler firings so far notwithstanding; with microtasks
  first, if nothing is urgent in that state.
- **Job lock** (`JobLock`). Waiting is acyclic and nobody is stuck. For each job separately, mutual
  exclusion and arrival order hold for bursts, and in general exactly when no caller arrives while
  the job's map entry is gone but an earlier caller is still alive, which happens because leaving
  deletes the entry unconditionally.
- **The `execute` callback** (`BidExecution`, `ExecutionRefinement`). One to three submissions, each
  later one licensed by the calls before it, exactly one outcome. Another submission is made exactly
  when one is due, so a success after failures that can be made good is reached. However steps of
  others come in between, each next step of an execution is enabled in the lifecycle system, and at
  its end exactly its own task is settled, with its own result.
- **Top-ups** (`TopUp`). Conservation, reserves, honest reports and an overshoot bound under
  arbitrary failures before or after effect, with the cap kept in every transfer; exact feasibility,
  the shortest sufficient prefix, the exact final balance and independence of donor order when no
  call fails. The contracts of both allocators state all of it.
- **Resilient transfer** (`ResilientTransfer`, `DonorChoice`). Exactly one payment over all EVM
  retries and the HAPI fallback if transfers land before the next balance read. Whenever they land,
  the payments made or owed are none, or one and one more for each try that sends while an earlier
  transfer has still to land, as far as the sender can pay them: at most one for each EVM try and
  one for the fallback. For every number of tries this bound is reached; with the default of three
  that is four payments. Composed with the choice of the best donor.
- **Scanner** (`Scanner`, `ScannerOverlap`). No address is published twice, overlapping cycles
  included. At every exit each fetched contract is marked seen or still above the cursor; a poll can
  break this if and only if one publish in it moves the cursor past another contract, which for new,
  dated contracts means that two share a timestamp. When cycles overlap the cursor can move back,
  exactly when another cycle has set it to something newer since the contract was taken; even so
  every known contract is seen or ahead, as long as contracts appear in the order of their
  timestamps and answers are full. A cycle handles all it has fetched, or publishes exactly the cap,
  unless it throws or the payer is exhausted. Seen does not mean published: an address is ever
  published if and only if the poll that first marks it publishes it, and a contract whose discovery
  cannot be built blocks all those behind it.
- **Arithmetic** (`BidPolicy`, `Pricing`, `Allowance`, `Timestamps`), on exact rationals and
  integers: the live bid is exact to the cent, as is the undercut.

## Assumptions about the environment

They appear as hypotheses or as guards of steps (`BidSystem.DrainsMeetAnyAnswer` and its neighbours
say that nothing else is ruled out). A bid that was accepted when `hasAgentBid` was called is
reported; a winner announcement naming the agent implies that its bid was accepted
(`BidSystem.Enabled`). One theorem, `HandlerExactness.FiringAuditsOnceUnclearedIff`, also takes a
verdict that a bid exists to come from a chain that has accepted it. For `FundsExactlyOnce` and
`DonorChoice.TopUpAgent`, a transfer that takes effect is visible to the next balance read
(`ResilientTransfer.Prompt`; `PaymentsCounted` says what happens otherwise). Nobody else moves the
balances concerned, and distinct accounts have distinct addresses. Gas is not charged to balances.
For `ScannerOverlap.OverlapLosesNothing` and `CursorFallsIff`, contracts appear at the mirror node
in the order of their timestamps, and an answer has all it knows between what was asked for and the
newest contract it lists (`ScannerOverlap.Orderly`).

## Where code and documentation differ

The comments on the bid floor say that the agent never bids below the configured share of the
budget, whatever competitors do. The code applies the floor only to an undercut;
`BidPolicy.FloorHeldIffUndercutOrBaseAbove` and `FloorCanBeMissed` follow the code.
The job lock's stated purpose is to prevent overlap; `JobLock.ArrivalSafeIffEntryOrIdle` says when
it does. The safety of bidding does not depend on it: see `AuditOnce`.

## Model

| member | source | states |
|---|---|---|
| JobLock.JobLockManager.constructor | agents/shared/job-lock.ts:1-2 | a new manager has no callers and no entries |
| JobLock.JobLockManager.Arrive | agents/shared/job-lock.ts:4-11 | arriving reads the entry to wait on and stores one's own, nothing else |
| JobLock.JobLockManager.Enter | agents/shared/job-lock.ts:13-15 | the guarded function starts once the awaited caller is done |
| JobLock.JobLockManager.Leave | agents/shared/job-lock.ts:16-19 | leaving resolves one's promise and deletes the key's entry, whoever owns it |
| JobLock.StepKeepsWellFormed | agents/shared/job-lock.ts:4-19 | every step keeps: callers wait only on earlier callers of their key, entries belong to the last, live arrival |
| JobLock.WaitsOnEarlierCallers | agents/shared/job-lock.ts:4-19 | over every run the waits-for relation points to earlier callers, so it is acyclic |
| JobLock.WaitsAreUnshared | agents/shared/job-lock.ts:6-11 | over every run no two callers wait on the same one |
| JobLock.SomeLiveCallerCanProceed | agents/shared/job-lock.ts:13-18 | from any live caller one finds a live caller, not after it, whose step is enabled: no deadlock |
| JobLock.ExclusiveInArrivalOrder | agents/shared/job-lock.ts:4-19 | without an orphan arrival on a job, its guarded functions never overlap and run in arrival order, whatever happens on other jobs |
| JobLock.BurstRunsInOrder | agents/shared/job-lock.ts:4-19 | calls on a job that all arrive before its first release run one at a time in arrival order, whatever happens on other jobs |
| JobLock.OrphanArrivalOverlaps | agents/shared/job-lock.ts:16-18 | after an arrival without entry beside a live caller, two callers are inside within two steps |
| JobLock.ArrivalSafeIffEntryOrIdle | agents/shared/job-lock.ts:4-19 | an arrival on a job keeps its mutual exclusion, whatever happens before the job's next arrival, iff the entry exists or nobody on the job is live |
| JobLock.ThirdCallerOverlaps | agents/shared/job-lock.ts:16-18 | the three-caller trace in which two guarded functions overlap |
| AgentState.FuzzerAgent.CheckAndMark | agents/fuzzer/index.ts:677-726 | proceeds iff the job is neither submitted, pending nor in flight, and then marks it, in one segment |
| AgentState.FuzzerAgent.ClearMark | agents/fuzzer/index.ts:1110-1112 | the finally block removes the job's mark and touches nothing else |
| AgentState.FuzzerAgent.RecordOutcome | agents/fuzzer/index.ts:1045-1059 | an existing bid becomes submitted only, a new one submitted and pending for exactly the contract given, otherwise nothing changes |
| AgentState.FuzzerAgent.OnWinnerSelected | agents/fuzzer/index.ts:1119-1152 | clears all traces of a concerned job; starts an audit of exactly what was pending, and updates pricing, iff the job was pending and our address is among the winners in any case of letters |
| AgentState.FuzzerAgent.OnJobCancelled | agents/fuzzer/index.ts:1154-1162 | clears pending, submitted and competitor data of the job |
| AgentState.FuzzerAgent.OnHandlingError | agents/fuzzer/index.ts:577-586 | deletes the in-flight mark and the pending entry of the job, whoever set them |
| AgentState.FuzzerAgent.OnCompetitorBid | agents/fuzzer/index.ts:1166-1186 | records a positive amount of a tracked job if it is below what is recorded |
| AgentState.FuzzerAgent.QueueBidSubmission | agents/fuzzer/index.ts:200-209 | appends the task and starts a drainer iff none is active |
| AgentState.FuzzerAgent.DrainStep | agents/fuzzer/index.ts:168-170 | the drainer takes the oldest task, or clears the flag when there is none |
| AgentState.ObservedMinimum | agents/fuzzer/index.ts:1176-1185 | over any sequence of observations of a tracked job the recorded amount is the least of what was recorded and the valid ones, and other jobs are untouched |
| AgentState.UntrackedIsIgnored | agents/fuzzer/index.ts:1176-1177 | what is observed of a job neither in flight nor submitted leaves no trace |
| BidQueueSafety.StepKeepsQueue | agents/fuzzer/index.ts:164-209 | every step of the whole system keeps the queue invariant: one drainer, flag and queue agree, history splits in order |
| BidQueueSafety.NoLostWakeup | agents/fuzzer/index.ts:164-209 | over every run a non-empty queue has exactly one active drain, whose next step is enabled, and drains are never two |
| BidQueueSafety.DrainStepsAreBounded | agents/fuzzer/index.ts:168-195 | no run takes more than seven drain steps per enqueued task, so a drain cannot spin |
| BidQueueSafety.EveryTaskCanSettle | agents/fuzzer/index.ts:168-209 | from every reachable state some continuation empties the queue and settles every enqueued task |
| BidQueueSafety.SettledOnceInOrder | agents/fuzzer/index.ts:168-195 | over every run tasks are dequeued and settled in enqueue order, none twice, and a flow awaits the queue iff its task is unsettled |
| BidMarks.StepKeepsMarks | agents/fuzzer/index.ts:676-726 | every step, unless it is a handler firing that strikes the job while held, keeps: the job is in flight exactly while a flow holds it, and at most one does |
| BidMarks.OneFlowPerJob | agents/fuzzer/index.ts:676-726 | over every run in which the handler does not strike the job while held, at most one flow is between setting and deleting its mark; the lock is not used and other jobs do not matter |
| BidMarks.NoHandlerIsHarmless | agents/fuzzer/index.ts:577-586 | a run in which the error handler never fires meets the condition |
| AuditOnce.PendingJobsAreSubmitted | agents/fuzzer/index.ts:1045-1059 | over every run, error handler included, pending jobs are submitted jobs |
| AuditOnce.StepKeepsEarly | agents/fuzzer/index.ts:676-725 | while the section is exclusive, a flow that has yet to record its bid works on a job that is not recorded |
| AuditOnce.StepKeepsPendingSets | agents/fuzzer/index.ts:1052-1059 | between clearing events a job becomes pending at most once, step by step |
| AuditOnce.NoNewRecorder | agents/fuzzer/index.ts:886-887 | once the job is accepted no step, handler firings included, gives a flow the means to record a bid of it |
| AuditOnce.PendingSetSpends | agents/fuzzer/index.ts:1052-1059 | pending is set only by a flow that could record, and which then no longer can |
| AuditOnce.StepKeepsAudits | agents/fuzzer/index.ts:1119-1151 | every step keeps: no audit before acceptance; from then on at most one flow can record, and none after a recording or an audit |
| AuditOnce.RunKeepsAudits | agents/fuzzer/index.ts:577-1162 | the invariant holds over every run in which the job has at most one holder until it is accepted, whatever makes it so |
| AuditOnce.AuditStartsAtMostOnce | agents/fuzzer/index.ts:1119-1162 | over every run in which, until the job is accepted, the handler does not strike it while held, its audit starts at most once, and pending is set at most once between clearing events |
| AuditOnce.AuditStartsAtMostOnceWithoutHandler | agents/fuzzer/index.ts:886-887 | the same for runs in which the error handler never fires |
| BidSystem.FlowsMeetAnyAnswer | agents/fuzzer/index.ts:676-1114 | wherever a flow awaits a call, both success and failure may come; at the lock it goes on as the duplicate checks say |
| BidSystem.DrainsMeetAnyAnswer | agents/fuzzer/index.ts:164-209 | the same for a drain: only the chain read is bound to anything, and a bid is sent only by one of at most three submissions |
| BidSystem.EventsMayCome | agents/fuzzer/index.ts:1119-1186 | events may come at any time and be repeated, a win only once the bid is accepted |
| BidSystem.TasksEndAs | agents/fuzzer/index.ts:168-195 | a dropped task is settled without a bid, one whose bid exists as that |
| JobRecords.StepsFollow | agents/fuzzer/index.ts:577-1186 | what any step does to mark, record, pending entry and audits of any job, set by set: who is added, who is removed, and with what contract |
| JobRecords.CompetitorsFollow | agents/fuzzer/index.ts:1119-1186 | what is recorded of competitors is deleted with the job's record and otherwise changed by observations of that job only |
| JobRecords.AuditsAreOfInvited | agents/fuzzer/index.ts:1053-1145 | over every run, what a job is pending for and what an audit of it is started on is what an invitation to that job named |
| JobRecords.AuditsAreListed | agents/fuzzer/index.ts:1141-1145 | the list of audits with their contracts and the count of audits agree over every run |
| JobRecords.HandlerForgetsPending | agents/fuzzer/index.ts:580-585 | once the error handler has fired for a job, no winner event starts an audit of it until a flow records a sent bid anew |
| JobRecords.KnownBidIsNotRepeated | agents/fuzzer/index.ts:677-684 | from the step in which a flow learns of a bid of ours, nobody enters the job's bid section until an event clears it, handler firings included |
| LockedBids.ProjectsOnBoth | agents/fuzzer/index.ts:675-1114 | a run of the agent with its lock is a run of the agent, and its arrivals, entries and leaves are a run of the lock |
| LockedBids.OnlyEntryIsRefused | agents/shared/job-lock.ts:13-18 | whatever a flow that is inside can do, the lock lets it do: only entering can be refused |
| LockedBids.StepKeepsGuard | agents/shared/job-lock.ts:4-19 | while the lock guards a job whose mark is gone, every step keeps the guard, or the holder has left and the marks are exact again |
| LockedBids.RunKeepsShield | agents/fuzzer/index.ts:675-1114 | over every run of agent and lock whose handler firings strike the job unheld or guarded, the job stays protected by its mark or by the lock |
| DoubleAudit.SecondEnters | agents/fuzzer/index.ts:675-726 | if the mark of a held job is gone and the lock does not guard it, some run without handler firings lets a second flow in; microtasks first, if nothing is urgent before |
| DoubleAudit.TwoPreparingAuditTwice | agents/fuzzer/index.ts:886-1151 | two flows preparing a bid for an unaccepted job can lead to two audits without any event that clears the job: the first resumes at once, and its bid is accepted while the second one is being submitted |
| DoubleAudit.JoinedAuditTwice | agents/fuzzer/index.ts:1110-1112 | two flows inside the section of an unaccepted job, wherever the first one is, can lead to two audits, microtasks first if nothing is urgent before; without any clearing event if the job is not recorded |
| HandlerExactness.ExclusiveWithLock | agents/fuzzer/index.ts:675-726 | over every run of agent and lock whose firings strike the job unheld or guarded, at most one flow is inside its bid section |
| HandlerExactness.AuditStartsAtMostOnceWithLock | agents/fuzzer/index.ts:1119-1162 | over every run of agent and lock in which this is so until the job is accepted, its audit starts at most once |
| HandlerExactness.FiringExclusiveIff | agents/fuzzer/index.ts:577-586 | for any lock: after any run of harmless firings, one more keeps the section exclusive in every handler-free continuation iff the job it strikes is not in flight |
| HandlerExactness.FiringAuditsOnceIff | agents/fuzzer/index.ts:577-586 | for any lock: one more firing leaves at most one audit in every handler-free continuation iff the job is not in flight or already accepted |
| HandlerExactness.FiringExclusiveWithLockIff | agents/fuzzer/index.ts:577-586 | for the agent with its lock: the section stays exclusive iff the job is not in flight or the lock guards it |
| HandlerExactness.FiringAuditsOnceWithLockIff | agents/fuzzer/index.ts:577-586 | for the agent with its lock: the audit stays single iff the job is not in flight, guarded or already accepted |
| HandlerExactness.FiringAuditsOnceUnclearedIff | agents/fuzzer/index.ts:577-586 | in continuations that neither cancel the job nor report it lost, the audit stays single iff the job is not in flight, guarded, accepted or recorded as submitted; a duplicate verdict is taken to imply an accepted bid |
| HandlerExactness.RecordedIsExclusive | agents/fuzzer/index.ts:677-684 | while a job is recorded and unaccepted nobody enters its bid section, handler firings included, unless an event clears it |
| FailureOrder.OneWaiter | agents/shared/job-lock.ts:4-19 | at most one caller waits for a flow, so only one segment comes between its failure and the handler |
| FailureOrder.HandlerFinds | agents/fuzzer/index.ts:574-586 | when the handler fires in the real order, the lock guards nothing, and the job is unheld if the failure was harmless |
| FailureOrder.FailureExclusiveIff | agents/fuzzer/index.ts:1075-1114 | in the real order a failing flow keeps the section exclusive, however the run goes on, iff no other flow holds the job and no waiter of the failing flow passes the duplicate checks |
| FailureOrder.FailureAuditsOnceIff | agents/fuzzer/index.ts:1075-1114 | in the real order the audit stays single iff this holds or the job is already accepted |
| FailureOrder.FailureExclusiveInOrderIff | agents/fuzzer/index.ts:1075-1114 | the first of these conditions is exact also for the continuations in which microtasks come first |
| FailureOrder.FailureAuditsOnceInOrderIff | agents/fuzzer/index.ts:577-586 | and so is the second |
| FailureOrder.FailureAuditsOnceUnclearedIff | agents/fuzzer/index.ts:677-684 | if besides the job is neither cancelled nor reported lost, the audit stays single iff no waiter or other holder of the job is a threat, or the job is already accepted, or already recorded as submitted |
| Liveness.InsideCanLeave | agents/fuzzer/index.ts:1110-1114 | from every consistent state of agent and lock each flow inside can leave, microtasks first if nobody else is urgent |
| Liveness.EveryFlowCanEnd | agents/fuzzer/index.ts:675-1114 | from every reachable state of agent and lock, handler firings included, every invited flow can come to its end; microtasks first, if nothing is urgent in that state |
| HandlerCounterexample.HandlerLetsTwoFlowsIn | agents/fuzzer/index.ts:675-726 | a run of the agent with its lock in which one firing lets two flows of a job into the bid section; its lock steps are those of the three-caller overlap, and microtasks come first |
| HandlerCounterexample.OneHandlerStepAuditsTwice | agents/fuzzer/index.ts:577-586 | a run of the agent with its lock, without clearing events and with a single firing of the handler, that audits a job twice, microtasks first |
| BidExecution.Attempt | agents/fuzzer/index.ts:925-1037 | one attempt: exactly when it goes round again, which outcome ends it, which calls it makes and that they license a further submission |
| BidExecution.SubmitWithRetry | agents/fuzzer/index.ts:923-1038 | one to three submissions; each later one follows an open window and, after an ambiguous failure, a re-read that showed no bid; exactly one outcome, never falling through |
| BidExecution.GoesOnIffDue | agents/fuzzer/index.ts:949-1036 | after each of the first two attempts made, another is made iff our bid is still missing, the window is open, and the payer's shortage or else the collateral's has been made good or else the failure was ambiguous |
| BidExecution.TransientIsRepeated | agents/fuzzer/index.ts:1028-1036 | an ambiguous failure with nothing short, an open window and no bid on the re-read is followed by another submission before the third attempt |
| BidExecution.SentAfterFailures | agents/fuzzer/index.ts:923-940 | if another attempt is due after each of the first k - 1 and the k-th succeeds, the bid is sent after exactly k submissions |
| BidExecution.OutcomeOfLast | agents/fuzzer/index.ts:938-1032 | the outcome by the failure and the answers of the last attempt, with the error that is thrown |
| BidExecution.Execute | agents/fuzzer/index.ts:885-1039 | nothing is submitted unless the chain read showed no bid and the window was open |
| BidExecution.TimeoutIsRereadBeforeNextSubmit | agents/fuzzer/index.ts:926-947 | a submission that times out, in any case of letters, is followed by a chain read that shows no bid before anything else is submitted |
| BidExecution.DuplicateEndsTheLoop | agents/fuzzer/index.ts:939-942 | a submission refused with a message naming an existing bid is the last one, and the outcome is already-bid, whatever else the message says |
| ErrorText.FlagsAre | agents/fuzzer/index.ts:942-995 | exactly which words make a failure a duplicate, a payer shortage or, outside demo mode, a collateral shortage |
| ErrorText.AmbiguousAre | agents/shared/bid-policy.ts:179-222 | exactly which words make a failed submission ambiguous |
| ErrorText.RetryableAre | scripts/activate-live-agents.js:732-751 | exactly which words make a failed transfer worth a retry |
| ErrorText.ContainsIff | agents/shared/bid-policy.ts:182-198 | a text contains a word exactly if the word stands in it somewhere |
| ErrorText.LowerForgetsCase | agents/shared/bid-policy.ts:180 | classification does not depend on the case of letters |
| ExecutionRefinement.ExecuteIsARun | agents/fuzzer/index.ts:885-1039 | every execution, if its chain read tells what is visible and nothing comes between, is a sequence of enabled system steps with one submission per attempt |
| ExecutionRefinement.ExecutionIsRecorded | agents/fuzzer/index.ts:1045-1075 | how each end of an execution is recorded by the flow that resumes: sent, known, dropped or thrown |
| ExecutionRefinement.InterleavedExecute | agents/fuzzer/index.ts:885-1039 | in any run whose drain steps are a prefix of those of an execution, steps of others between them, the next one is enabled and nothing is settled; once they are all taken, exactly its own task is settled with its own result |
| ExecutionRefinement.OthersLeaveDrain | agents/fuzzer/index.ts:168-195 | steps of others in between do not disturb the drain |
| TokenLedger.MoveKeepsTotal | agents/shared/contract-client.ts:502-508 | a transfer keeps the total over any duplicate-free list of accounts holding both parties |
| TopUp.VisitDonor | agents/shared/guard-autotopup.ts:139-185 | the loop body on real balances computes what one visit is specified to do |
| TopUp.VisitIs | agents/shared/guard-autotopup.ts:156-181 | one visit in balances: what is missing to the target moves, up to the donor's balance above the reserve and the cap; what is confirmed counts as topped up; a usable donor counts as used |
| TopUp.CapsAreKept | agents/shared/guard-autotopup.ts:164-170 | whatever fails, only donors whose transfers take effect lose anything, and none more than the cap for each time it is listed |
| TopUp.EndsWithFinal | agents/shared/guard-autotopup.ts:137-181 | with no failing call a recipient below the requirement ends with all that the donors reached could give, or with the target |
| TopUp.ReportsWhatArrived | agents/shared/guard-autotopup.ts:173-178 | if waiting for a transfer never throws, all that arrived is reported |
| TopUp.FundFromDonors | agents/shared/guard-autotopup.ts:132-186 | the donor loop computes the specified walk over the donors |
| TopUp.Conserves | agents/shared/guard-autotopup.ts:137-186 | whatever calls fail, the total over all parties is unchanged |
| TopUp.KeepsReserves | agents/shared/guard-autotopup.ts:156-170 | no donor ends below the lesser of its start balance and the reserve |
| TopUp.ReportsHonestly | agents/shared/guard-autotopup.ts:173-185 | the reported top-up never exceeds what arrived and the working balance never exceeds the true one |
| TopUp.NoOvershoot | agents/shared/guard-autotopup.ts:161-171 | the recipient ends at most at max(start, target) plus what was sent by calls that failed after effect |
| TopUp.ReportsExactly | agents/shared/guard-autotopup.ts:178-181 | if no call fails after effect, reported balance and top-up are exact |
| TopUp.UsedAreReached | agents/shared/guard-autotopup.ts:139-147 | the donors reported as used are the usable ones the loop reached, without the recipient |
| TopUp.VisitAllIsExact | agents/shared/guard-autotopup.ts:132-205 | with no failing call the requirement is met iff start plus the sum of the donors' balances above the reserve, each at most the cap, reaches it |
| TopUp.StopsAtShortestPrefix | agents/shared/guard-autotopup.ts:137-138 | the loop stops at the shortest donor prefix that suffices |
| TopUp.IgnoresTheRest | agents/shared/guard-autotopup.ts:137-138 | donors behind the stopping point do not influence the run |
| TopUp.VerdictIgnoresOrder | agents/shared/guard-autotopup.ts:137-186 | with distinct addresses and no failing call the verdict is the same for every permutation of the donors |
| TopUp.EnsureBidCollateralBalance | agents/shared/guard-autotopup.ts:95-206 | the GUARD allocator: whatever fails, honest reports, reserves, the cap per transfer, conservation, overshoot at most by unseen sends, and only the contacted donors matter; with no failing call, exact feasibility in any donor order, the shortest sufficient prefix and the exact final balance; each early exit exactly when its condition holds |
| TopUp.EnsureOperationalHbar | agents/shared/hbar-autotopup.ts:114-250 | the same for the HBAR allocator with its own requirement and target, a missing provider being a further early exit |
| TopUp.ResolveDonorKeys | agents/shared/guard-autotopup.ts:60-75 | the loop over candidate keys computes the keys by first appearance |
| TopUp.DonorKeysAreExact | agents/shared/guard-autotopup.ts:60-75 | donor keys never repeat, are exactly those that parse, and more candidates only append |
| TopUp.DistinctKeysDistinctDonors | agents/shared/guard-autotopup.ts:137-147 | distinct keys with distinct addresses give a donor list without repetition |
| ResilientTransfer.Network.Attempt | scripts/activate-live-agents.js:785-808 | the guarded body shared by the EVM loop and the fallback computes the specified try |
| ResilientTransfer.Network.TransferGuardResilient | scripts/activate-live-agents.js:765-891 | the running code computes the specified sequence of tries over both transports |
| ResilientTransfer.TryPaysAtMostOnce | scripts/activate-live-agents.js:786-806 | a guarded try never pays a second time and returns normally only when paid |
| ResilientTransfer.EvmPaysAtMostOnce | scripts/activate-live-agents.js:784-825 | over all EVM retries at most one payment is applied |
| ResilientTransfer.FundsExactlyOnce | scripts/activate-live-agents.js:765-891 | at most one payment over both transports; a normal return means exactly initial plus amount, a throw none or one |
| ResilientTransfer.FallbackRescues | scripts/activate-live-agents.js:832-883 | a clean fallback funds the target however the EVM tries failed |
| ResilientTransfer.LabelsAreTrue | scripts/activate-live-agents.js:776-883 | what a normal return says: the path named made a confirmed transfer in its last try, or that try found the goal reached and sent nothing; nothing happens for a zero amount or a failing first read |
| ResilientTransfer.ResultsAreTrue | scripts/activate-live-agents.js:786-824 | a try is paid, finds the goal reached, or fails with the error of its first failing call |
| ResilientTransfer.UnsafeAmountIsNotSent | scripts/activate-live-agents.js:753-758 | an amount that is no safe integer is never sent by the fallback |
| ResilientTransfer.NoFallbackNoHapi | scripts/activate-live-agents.js:827-830 | with the fallback disabled HAPI has no influence |
| ResilientTransfer.InsufficientFundsEndsEvm | scripts/activate-live-agents.js:732-825 | a try that fails for lack of funds is the last on the EVM transport, whatever else its message says |
| ResilientTransfer.TryCounts | scripts/activate-live-agents.js:786-806 | whenever transfers land, one try adds at most one payment, and beyond the first exactly when it sends while an earlier one is owed; a normal return means that one has been made |
| ResilientTransfer.PaymentsCounted | scripts/activate-live-agents.js:765-891 | whenever transfers land, the payments made or owed over both transports are none, or one and one more for each try that sends while an earlier one is owed, hence more than one iff some try does, and at most retryMax + 1; exact if the sender covers that many, an upper bound otherwise; a normal return means at least one is made |
| ResilientTransfer.EveryTryIsPaid | scripts/activate-live-agents.js:784-891 | the bound is reached for every number of retries, with a normal return: each EVM transfer times out and lands after the fallback's first read |
| ResilientTransfer.LateTransferPaysTwice | scripts/activate-live-agents.js:832-837 | a transfer that lands only after the next read is paid twice |
| DonorChoice.HeadIsFirstLargest | scripts/activate-live-agents.js:1103-1104 | the head of the stable descending sort is the earliest candidate with the largest surplus |
| DonorChoice.FindGuardDonorForTopup | scripts/activate-live-agents.js:1082-1105 | null iff no probed donor holds its reserve plus the amount; otherwise the first donor with the largest surplus above its reserve |
| DonorChoice.TopUpAgent | scripts/activate-live-agents.js:1577-1619 | after funding the agent holds exactly stake plus liquid minimum, the best donor keeps its reserve, others are untouched; after a throw none or one payment |
| Scanner.FetchIsExact | agents/scanner/index.ts:642-657 | a fetch yields, oldest first, exactly the valid contracts above the cursor |
| Scanner.AboveCursorMeans | agents/scanner/index.ts:646-650 | above a usable cursor is only what is dated later; without one everything is |
| Scanner.SortIsStable | agents/scanner/index.ts:651-656 | contracts with the same timestamp stay in the order in which they were answered |
| Scanner.ScannerAgent.TakeIfNew | agents/scanner/index.ts:1048-1049 | true iff the address was not seen, and then it is marked, in one segment |
| Scanner.ScannerAgent.ScanCycle | agents/scanner/index.ts:1002-1155 | the cycle computes the specified result for every exit, payer not ready, fetch failed, list done, cap, payer exhausted or thrown error, and each means what it says |
| Scanner.HandleIs | agents/scanner/index.ts:1048-1151 | what handling one contract does to the seen set, the published ones and the cursor |
| Scanner.HandledAreDecided | agents/scanner/index.ts:1036-1136 | every contract handled ends up seen; one that was new is published iff its payload and listing are accepted and its publish succeeds, one that was seen is left alone |
| Scanner.CycleCounts | agents/scanner/index.ts:1037-1043 | a cycle that ends at the cap has published exactly as many as the cap allows; one that completes has handled all; one that throws or finds the payer exhausted has got just there |
| Scanner.StopsOnlyForAReason | agents/scanner/index.ts:1036-1136 | without a throw or an exhausted payer a cycle handles everything or publishes exactly the cap |
| Scanner.ExhaustionStops | agents/scanner/index.ts:1122-1131 | an exhausted payer ends the cycle at the contract at which it shows |
| Scanner.FirstHandlingDecides | agents/scanner/index.ts:1048-1136 | the cycle that reaches an unseen contract publishes it iff its payload is accepted, its listing does not fail and its publish succeeds |
| Scanner.EverPublishedIff | agents/scanner/index.ts:1048-1049 | an address is ever published, over any later polls, iff the poll that first marks it seen publishes it |
| Scanner.ThrowingHeadBlocks | agents/scanner/index.ts:1045-1046 | while building the discovery of the oldest fetched contract throws, no poll changes anything, for as long as polling goes on |
| Scanner.CycleLosesNothing | agents/scanner/index.ts:1036-1152 | if no publish moves the cursor past another contract, every fetched contract ends up marked seen or still above the cursor, at every exit |
| Scanner.CycleRaisesCursor | agents/scanner/index.ts:1150-1151 | the cursor strictly rises at each of its updates |
| Scanner.CyclePublishesOnce | agents/scanner/index.ts:1036-1136 | publishes are of new addresses, never repeated, and at most the cap per cycle |
| Scanner.PollLosesNothing | agents/scanner/index.ts:1002-1152 | the same for a whole poll, including those whose payer is not ready or whose fetch fails |
| Scanner.PublishedOnceThroughout | agents/scanner/index.ts:1048-1136 | over any number of cycles no address is published twice |
| Scanner.CursorRisesThroughout | agents/scanner/index.ts:1150-1159 | over any number of cycles with distinct timestamps the cursor strictly rises |
| Scanner.NothingLostIffNoThreat | agents/scanner/index.ts:644-657 | for every state and every answer of the mirror node: a poll always leaves each fetched contract seen or above the cursor iff no publish in it can move the cursor past another contract |
| Scanner.NothingLostIffDistinctTimes | agents/scanner/index.ts:644-657 | for new, dated contracts listed once this is the case iff no two share a timestamp |
| ScannerOverlap.RunKeepsTakenOnce | agents/scanner/index.ts:1045-1049 | under any interleaving an address in hand is marked, unpublished and in no other cycle's hand |
| ScannerOverlap.PublishesAtMostOnce | agents/scanner/index.ts:1048-1159 | over the whole process, cycles overlapping, each address gets at most one publish |
| ScannerOverlap.TwoCursorsCount | agents/scanner/index.ts:625-650 | a request asks for what is above the cursor of its own time, and its answer is filtered by the cursor of the time it arrives |
| ScannerOverlap.OnlySuccessIsLogged | agents/scanner/index.ts:1120-1151 | only a publish that succeeds leads to the audit log and to setting the cursor |
| ScannerOverlap.AdvanceSetsCursor | agents/scanner/index.ts:1150-1151 | a contract with a timestamp sets the cursor to it, whatever the cursor is; one without leaves it |
| ScannerOverlap.FullAnswerIsGapless | agents/scanner/index.ts:625-657 | a full answer, filtered by the cursor of the moment it arrives, leaves out only contracts that have been seen, even if the cursor has moved back since the request |
| ScannerOverlap.OverlapLosesNothing | agents/scanner/index.ts:1036-1159 | under any interleaving of cycles, a known contract at or below any value the cursor ever had has been marked seen, so each one is seen or still above the cursor |
| ScannerOverlap.CursorFallsIff | agents/scanner/index.ts:1150-1151 | a cycle moves the cursor back iff another has set it to something newer since the contract was taken; undisturbed, it sets it higher than ever |
| ScannerOverlap.CursorCanFall | agents/scanner/index.ts:1150-1159 | two overlapping cycles publish one contract each, and the one with the older ends later and sets the cursor back |
| ScannerOverlap.GivenUpForGood | agents/scanner/index.ts:1048-1049 | an address that is marked, unpublished and in no cycle's hand stays unpublished, whatever cycles come after or overlap |
| BidPolicy.RoundIsNearest | agents/shared/bid-policy.ts:30-32 | rounding moves a value by at most half a cent, halves upwards |
| BidPolicy.LiveBidIsSound | agents/shared/bid-policy.ts:46-95 | a live bid is positive whole cents, within half a cent of an enforced known budget, with the minimum collateral and exact token amounts |
| BidPolicy.LiveBidIsNearest | agents/shared/bid-policy.ts:46-95 | the live bid exactly: the lesser of strategy amount and enforced, known budget, and the greater of strategy collateral and minimum plus buffer, each to the nearest cent; the estimated time as given |
| BidPolicy.LiveBidIsSkippedIff | agents/shared/bid-policy.ts:58-77 | no bid iff the strategy amount, or an enforced, known budget, comes to less than half a cent; and which of the two is given as the reason |
| BidPolicy.ScoutingRefinesLiveBid | agents/shared/bid-policy.ts:121-177 | scouting skips exactly when the live bid does, keeps its collateral, time and budget, and equals it unless a competitor's positive amount is below it |
| BidPolicy.ScoutedAmountBounds | agents/shared/bid-policy.ts:133-160 | the scouted amount is at least a cent, at most max(base, floor), and within half a cent of an enforced known budget |
| BidPolicy.UndercutIsExact | agents/shared/bid-policy.ts:142-150 | against a competitor below the base bid the amount is 95% of the competitor's to the nearest cent, or the floor if that is more, or a cent if both are nothing |
| BidPolicy.FloorIsShare | agents/shared/bid-policy.ts:133-139 | the floor is the given share of the budget to the nearest cent, the share clamped to 0 to 1 |
| BidPolicy.FloorHeldIffUndercutOrBaseAbove | agents/shared/bid-policy.ts:97-101 | the scouted amount respects the floor iff it is an undercut or the base bid already does |
| BidPolicy.FloorCanBeMissed | agents/fuzzer/index.ts:239-263 | the 15 GUARD this agent computes for an empty contract outside its specializations at initial prices, on a budget of 100 with a floor of 25 |
| BidPolicy.UndercutBeatsCompetitor | agents/shared/bid-policy.ts:142-150 | against a competitor above 0.10 GUARD and below the base bid, the amount is lower iff the floor is |
| BidPolicy.UndercutIsStrictIffAboveTenCents | agents/shared/bid-policy.ts:148-149 | for whole-cent competitors the undercut is strictly lower iff above 0.10 GUARD, else a tie |
| Pricing.MultiplierStaysInRange | agents/fuzzer/index.ts:219-227 | for any outcomes the multiplier stays in [0.5, 1.45], so the upper clamp never acts; wins are counted exactly |
| Pricing.ClosedFormAfterWins | agents/fuzzer/index.ts:219-227 | after n wins it is max(0.5, 0.45 + 0.55 * 0.7^n) |
| Allowance.EnsureGuardAllowance | agents/shared/contract-client.ts:474-500 | at most three reads; approvals lie in 1..2^63-1; the effective allowance covers the requirement iff that is at most 2^63-1 or already met |
| Timestamps.ReadsDecimalValue | agents/scanner/index.ts:262-269 | a well-formed timestamp of at most nine fraction digits reads as its decimal value times 10^9 |
| Timestamps.ReadsAsNull | agents/scanner/index.ts:263-265 | a text without a dot, or with nothing on one side of it, is no timestamp |
| Timestamps.LongFractionIsCut | agents/scanner/index.ts:267 | digits after the ninth are cut off |
| Timestamps.OrderIsDecimalOrder | agents/scanner/index.ts:262-269 | comparing the integers is comparing the decimal values |
| Timestamps.InitialTimestampReadsBack | agents/scanner/index.ts:253-260 | the printed start of an integer millisecond time reads back as that time times 10^6 |
| ReadinessPool.StepKeepsPool | scripts/verify-live-agents.js:244-258 | every step keeps: what was taken is in a worker's hand or reported, and rows are of roster agents |
| ReadinessPool.InRosterOrder | scripts/verify-live-agents.js:261-266 | rebuilding by agent id puts the last row of each agent in roster order |
| ReadinessPool.ReportIsRoster | scripts/verify-live-agents.js:244-266 | whatever the interleaving of workers, the report has one row per roster agent in roster order |
| ReadinessPool.NoWorkersReportNothing | scripts/verify-live-agents.js:245-259 | without a worker, which a non-numeric concurrency setting yields, nothing is checked and the report is empty |

## Left out

- HCS, fetch, RPC, SDK, wallet and HTTP calls: only their possible outcomes appear, as inputs.
- The Solidity contracts, the orchestrator and the state store: not part of this model; the auction appears through the assumptions above.
- agents/static-analysis and agents/llm-contextual: their bidding is a near copy of the fuzzer's.
- Solvency across several queued jobs: collateral is checked before queueing, so one job can spend what another checked; nothing is claimed.
- The scouting delay, the window arithmetic and the content of published messages: the window is an answer, open or closed; finite deadlines are assumed.
- The message handling before the job lock (parsing, eligibility filters, discovery queue): easy and textual.
- `BidSystem` leaves the per-job lock unconstrained, so its theorems hold for any lock; `LockedBids` adds it. Where nothing is said of microtasks, segments interleave freely. `Paths.Prompt` puts microtasks before everything else but, where several are due at once, in any order.
- Policies under which a flow stops before bidding (activity, balance, allowance): any of them may stop or throw at will in `BidSystem`.
- Gas costs in the HBAR allocator and negative environment amounts: reserve bounds are before gas, and configured amounts are non-negative.
- A failing first balance read of the allocators, and failing allowance approvals: the call just throws there.
- TopUpAgent: Hedera accounts and their EVM addresses are one identifier, so the model does not capture an account listed under a second id.
- Letter case outside ASCII in error texts, and IEEE-754 effects in amounts: exact rationals are used.
- ToConsensus: timestamp parts that are not plain digits are reported as such, although the code throws on some and accepts signs, spaces and hexadecimal; fractional start times are not printed.
- Contracts that a mirror page omits because of its limit, and the bytecode cache, baseline classification and risk blending of the scanner: easy members or foreign data.
- The supervisor, metrics, health servers, environment parsing, report formatting, deploy and funding scripts, dashboard.
