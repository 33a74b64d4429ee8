/**
 The error handler in the order in which JavaScript really runs it: a flow fails and leaves,
 the caller that waited for it runs its first segment, and then the handler fires; nothing
 else comes between. The leave has deleted the lock's entry, so the lock guards nothing when
 the handler fires, and whether the firing does harm is decided before the failure. The
 conditions are exact for every continuation, and for those in which microtasks come first.
 */
module FailureOrder {
  import opened AgentState
  import opened BidSystem
  import opened BidMarks
  import opened AuditOnce
  import opened DoubleAudit
  import opened HandlerExactness
  import opened LockedBids
  import opened Paths

  /** The steps by which a flow leaves with an error that reaches the handler. */
  predicate Fails(step: Step, f: nat) {
    step == Reported(f, false) || step == SkipPublished(f, false)
  }

  ghost predicate Awaited(w: World, f: nat) {
    exists c :: WaitsFor(w, c, f)
  }

  /** The first segment of a caller: it passes as a duplicate, is turned down by policy, or
      marks the job. */
  predicate FirstSegment(step: Step, c: nat) {
    step == SkipDuplicate(c) || step == SkipByPolicy(c) || step == MarkInFlight(c)
  }

  /** What runs between the leave of `f` and the handler: the first segment of whoever waited. */
  ghost predicate InBetween(w: World, between: seq<Step>, f: nat) {
    ValidIn(w, between) &&
    if Awaited(w, f) then |between| == 1 && exists c :: WaitsFor(w, c, f) && FirstSegment(between[0], c)
    else between == []
  }

  /** The state in which the handler has fired for `f`, which failed by `step` in `w`. */
  ghost predicate FiredInOrder(w: World, step: Step, f: nat, t: World) {
    && Allowed(w, step) && Fails(step, f)
    && exists between :: InBetween(After(w, step), between, f) && FiredAfter(After(w, step), between, f, t)
  }

  predicate FiredAfter(w: World, between: seq<Step>, f: nat, t: World) {
    ValidIn(w, between) && Allowed(RunIn(w, between), OuterHandler(f)) && t == After(RunIn(w, between), OuterHandler(f))
  }

  /** The condition, before the failing step is taken: no other flow holds the job, and nobody
      waits for the failing flow or the duplicate checks will stop whoever does. */
  ghost predicate HarmlessFailure(w: World, step: Step, f: nat)
    requires Allowed(w, step) && Fails(step, f)
  {
    && w.agent.flows[f].job !in After(w, step).agent.jobs.inFlight
    && (!Awaited(w, f) || Recorded(w.agent, w.agent.flows[f].job))
  }

  /** At most one caller waits for the failing flow, so one segment is all there is. */
  lemma OneWaiter(steps: seq<Step>, f: nat, c: nat, d: nat)
    requires ValidIn(START, steps) && WaitsFor(RunIn(START, steps), c, f) && WaitsFor(RunIn(START, steps), d, f)
    ensures c == d
  {
    ProjectsOnBoth(START, steps);
    L.WaitsAreUnshared(L.FRESH, LockTrace(START, steps));
  }

  // ---- The leave ----

  /** After the leave the entry is gone, the flow awaits its handler, and a waiting caller can
      run. */
  ghost predicate WayOpen(w: World, t: World, f: nat, j: JobKey) {
    && Ready(t) && j !in t.lock.locks && FlowAt(t, f, j, Failed) && Allowed(t, OuterHandler(f))
    && (Recorded(t.agent, j) <==> Recorded(w.agent, j)) && t.agent.accepted == w.agent.accepted
    && (forall c :: WaitsFor(t, c, f) <==> WaitsFor(w, c, f))
  }

  lemma WayOpenFrom(w: World, t: World, f: nat, j: JobKey)
    requires Ready(t) && j !in t.lock.locks && FlowAt(t, f, j, Failed)
    requires f < |w.lock.callers| && w.lock.callers[f].phase == L.Running
    requires t.lock.callers == w.lock.callers[f := w.lock.callers[f].(phase := L.Done)]
    requires t.agent.jobs == w.agent.jobs.(inFlight := t.agent.jobs.inFlight) && t.agent.accepted == w.agent.accepted
    ensures WayOpen(w, t, f, j)
  {
  }

  lemma ReporterOpensTheWay(w: World, f: nat)
    requires Ready(w) && Allowed(w, Reported(f, false))
    ensures WayOpen(w, After(w, Reported(f, false)), f, w.agent.flows[f].job)
  {
    StepKeepsReady(w, Reported(f, false));
    WayOpenFrom(w, After(w, Reported(f, false)), f, w.agent.flows[f].job);
  }

  lemma SkipperOpensTheWay(w: World, f: nat)
    requires Ready(w) && Allowed(w, SkipPublished(f, false))
    ensures WayOpen(w, After(w, SkipPublished(f, false)), f, w.agent.flows[f].job)
  {
    StepKeepsReady(w, SkipPublished(f, false));
    WayOpenFrom(w, After(w, SkipPublished(f, false)), f, w.agent.flows[f].job);
  }

  lemma LeaveOpensTheWay(w: World, step: Step, f: nat)
    requires Ready(w) && Allowed(w, step) && Fails(step, f)
    ensures WayOpen(w, After(w, step), f, w.agent.flows[f].job)
  {
    if step.Reported? {
      ReporterOpensTheWay(w, f);
    } else {
      SkipperOpensTheWay(w, f);
    }
  }

  /** The waiter's segment: it may enter, and the entry stays gone, so nothing is guarded. */
  lemma SegmentOfWaiter(w: World, step: Step, c: nat, f: nat)
    requires Ready(w) && f < |w.agent.flows| && w.agent.flows[f].pc == Failed && WaitsFor(w, c, f)
    requires FirstSegment(step, c) && Allowed(w, step) && w.agent.flows[f].job !in w.lock.locks
    ensures var t := After(w, step);
            var j := w.agent.flows[f].job;
            && Ready(t) && FlowAt(t, f, j, Failed) && j !in t.lock.locks && Allowed(t, OuterHandler(f))
            && (Recorded(t.agent, j) <==> Recorded(w.agent, j))
            && (j in t.agent.jobs.inFlight <==> step.MarkInFlight? || j in w.agent.jobs.inFlight)
            && t.agent.accepted == w.agent.accepted
            && (step.MarkInFlight? ==> MayBid(w.agent.jobs, j))
  {
    WaiterIsOfTheJob(w, c, f);
    StepKeepsReady(w, step);
  }

  // ---- What the handler finds ----

  /** What the handler of `f` finds after `between` has run in `w`. */
  ghost predicate Found(w: World, between: seq<Step>, f: nat, j: JobKey)
    requires ValidIn(w, between)
  {
    var u := RunIn(w, between);
    && Ready(u) && FlowAt(u, f, j, Failed) && Allowed(u, OuterHandler(f))
    && j !in u.lock.locks && u.agent.accepted == w.agent.accepted
    && NoHandlerStep(between) && (Recorded(u.agent, j) <==> Recorded(w.agent, j))
    && (j !in w.agent.jobs.inFlight && (!Awaited(w, f) || Recorded(w.agent, j)) ==> j !in u.agent.jobs.inFlight)
  }

  lemma FoundAfterWaiter(w: World, between: seq<Step>, f: nat, j: JobKey)
    requires Ready(w) && FlowAt(w, f, j, Failed) && j !in w.lock.locks
    requires InBetween(w, between, f) && Awaited(w, f)
    ensures Found(w, between, f, j)
  {
    var c :| WaitsFor(w, c, f) && FirstSegment(between[0], c);
    assert between == [between[0]];
    OneStep(w, between[0]);
    SegmentOfWaiter(w, between[0], c, f);
  }

  /** When the handler fires, the failed flow's job is unheld if the failure was harmless, and the
      lock guards nothing. */
  lemma HandlerFinds(w: World, step: Step, f: nat, between: seq<Step>)
    requires Ready(w) && Allowed(w, step) && Fails(step, f) && InBetween(After(w, step), between, f)
    ensures Found(After(w, step), between, f, w.agent.flows[f].job)
    ensures After(w, step).agent.accepted == w.agent.accepted
    ensures Recorded(After(w, step).agent, w.agent.flows[f].job) <==> Recorded(w.agent, w.agent.flows[f].job)
    ensures HarmlessFailure(w, step, f) ==>
              w.agent.flows[f].job !in RunIn(After(w, step), between).agent.jobs.inFlight
  {
    var w1 := After(w, step);
    var j := w.agent.flows[f].job;
    LeaveOpensTheWay(w, step, f);
    assert forall c :: WaitsFor(w1, c, f) <==> WaitsFor(w, c, f);
    assert Awaited(w1, f) <==> Awaited(w, f);
    if Awaited(w1, f) {
      FoundAfterWaiter(w1, between, f, j);
    }
  }

  /** Besides the failed flow, nobody is urgent but a caller that waited for `x`, who is done. */
  ghost predicate CalmBesides(w: World, f: nat, x: nat) {
    forall g: nat | Urgent(w, g) :: g == f || WaitsFor(w, g, x)
  }

  lemma FailureIsCalm(w: World, step: Step, f: nat)
    requires Ready(w) && Allowed(w, step) && Fails(step, f) && Calm(w)
    ensures CalmBesides(After(w, step), f, f)
  {
    var t := After(w, step);
    forall g: nat | Urgent(t, g) && g != f
      ensures WaitsFor(t, g, f)
    {
      assert !Urgent(w, g);
    }
  }

  /** After the waiter's segment nobody is urgent but the failed flow, or the next waiter if the
      first one has passed as a duplicate. */
  lemma SegmentIsCalm(w: World, f: nat, c: nat, step: Step)
    requires Ready(w) && f < |w.agent.flows| && WaitsFor(w, c, f) && CalmBesides(w, f, f) && Allowed(w, step)
    requires step == MarkInFlight(c) || step == SkipDuplicate(c)
    ensures CalmBesides(After(w, step), f, if step.SkipDuplicate? then c else f)
  {
    var t := After(w, step);
    forall g: nat | Urgent(t, g) && g != f
      ensures WaitsFor(t, g, if step.SkipDuplicate? then c else f)
    {
      assert Urgent(w, g) ==> g == c;
    }
  }

  lemma WaiterStrikes(w: World, f: nat, c: nat, j: JobKey) returns (between: seq<Step>, x: nat)
    requires Ready(w) && FlowAt(w, f, j, Failed) && WaitsFor(w, c, f) && j !in w.lock.locks
    requires j in w.agent.jobs.inFlight || !Recorded(w.agent, j)
    ensures InBetween(w, between, f) && j in RunIn(w, between).agent.jobs.inFlight
    ensures DoneWith(RunIn(w, between), x, j)
    ensures CalmBesides(w, f, f) ==> CalmBesides(RunIn(w, between), f, x)
  {
    WaiterIsOfTheJob(w, c, f);
    var segment := if MayBid(w.agent.jobs, j) then MarkInFlight(c) else SkipDuplicate(c);
    between, x := [segment], if segment.SkipDuplicate? then c else f;
    OneStep(w, segment);
    SegmentOfWaiter(w, segment, c, f);
    assert WaitsFor(w, c, f) && FirstSegment(between[0], c);
    if CalmBesides(w, f, f) {
      SegmentIsCalm(w, f, c, segment);
    }
  }

  /** A harmful failure leads, in order, to a firing that strikes the held job. */
  lemma HarmfulFailureStrikes(w: World, step: Step, f: nat) returns (between: seq<Step>, x: nat)
    requires Ready(w) && Allowed(w, step) && Fails(step, f) && !HarmlessFailure(w, step, f)
    ensures InBetween(After(w, step), between, f)
    ensures var u := RunIn(After(w, step), between);
            var j := w.agent.flows[f].job;
            j in u.agent.jobs.inFlight && DoneWith(u, x, j) && (Calm(w) ==> CalmBesides(u, f, x))
  {
    var w1 := After(w, step);
    var j := w.agent.flows[f].job;
    LeaveOpensTheWay(w, step, f);
    if Calm(w) {
      FailureIsCalm(w, step, f);
    }
    assert forall c :: WaitsFor(w1, c, f) <==> WaitsFor(w, c, f);
    if Awaited(w1, f) {
      var c :| WaitsFor(w1, c, f);
      assert WaitsFor(w, c, f);
      between, x := WaiterStrikes(w1, f, c, j);
    } else {
      between, x := [], f;
      assert forall c :: !WaitsFor(w, c, f);
    }
  }

  /** Up to the firing the job keeps its protection. */
  lemma ShieldedAtFiring(w: World, step: Step, f: nat, between: seq<Step>)
    requires f < |w.agent.flows| && Shielded(w, w.agent.flows[f].job) && Allowed(w, step) && Fails(step, f)
    requires InBetween(After(w, step), between, f)
    ensures Shielded(RunIn(After(w, step), between), w.agent.flows[f].job)
  {
    var j := w.agent.flows[f].job;
    HandlerFinds(w, step, f, between);
    StepKeepsShield(w, step, j);
    NoHandlerIsHarmlessIn(After(w, step), between, j);
    RunKeepsShield(After(w, step), between, j);
  }

  // ---- Exclusion ----

  lemma HarmlessFailureShields(w: World, step: Step, f: nat, t: World)
    requires f < |w.agent.flows| && Shielded(w, w.agent.flows[f].job)
    requires FiredInOrder(w, step, f, t) && HarmlessFailure(w, step, f)
    ensures Shielded(t, w.agent.flows[f].job)
  {
    var between :| InBetween(After(w, step), between, f) && FiredAfter(After(w, step), between, f, t);
    HandlerFinds(w, step, f, between);
    ShieldedAtFiring(w, step, f, between);
    StepKeepsShield(RunIn(After(w, step), between), OuterHandler(f), w.agent.flows[f].job);
  }

  lemma HarmlessFailureIsExclusive(w: World, step: Step, f: nat, t: World, more: seq<Step>)
    requires f < |w.agent.flows| && Shielded(w, w.agent.flows[f].job)
    requires FiredInOrder(w, step, f, t) && HarmlessFailure(w, step, f)
    requires ValidIn(t, more) && NoHandlerStep(more)
    ensures OneHolder(RunIn(t, more).agent.flows, w.agent.flows[f].job)
  {
    var j := w.agent.flows[f].job;
    HarmlessFailureShields(w, step, f, t);
    NoHandlerIsHarmlessIn(t, more, j);
    RunKeepsShield(t, more, j);
    ShieldIsExclusive(RunIn(t, more), j);
  }

  lemma JoinedIsNotExclusive(w: World, t: World, j: JobKey, g: nat, a: nat)
    requires Joined(w, t, j, g, a)
    ensures !OneHolder(t.agent.flows, j)
  {
    assert Holds(t.agent.flows, j, g) && Holds(t.agent.flows, j, a);
  }

  lemma HandlerIsCalm(w: World, f: nat, x: nat)
    requires Allowed(w, OuterHandler(f)) && CalmBesides(w, f, x)
    ensures CalmBehind(After(w, OuterHandler(f)), x)
  {
    var t := After(w, OuterHandler(f));
    forall g: nat | Urgent(t, g)
      ensures WaitsFor(t, g, x)
    {
      assert Urgent(w, g) && g != f;
    }
  }

  /** A firing that finds the entry gone and strikes the job of a holder lets a second flow in. */
  lemma StruckHolderIsJoined(w: World, f: nat, x: nat, g: nat, j: JobKey)
    returns (more: seq<Step>, u: World, a: nat)
    requires Ready(w) && Enabled(w.agent, OuterHandler(f)) && w.agent.flows[f].job == j && Holds(w.agent.flows, j, g)
    requires j !in w.lock.locks && DoneWith(w, x, j)
    ensures Allowed(w, OuterHandler(f))
    ensures var t := After(w, OuterHandler(f));
            && Path(t, more, u) && Joined(t, u, j, g, a) && !Recorded(u.agent, j)
            && t.agent.flows[g] == w.agent.flows[g] && t.agent.accepted == w.agent.accepted
            && t.agent.audits == w.agent.audits && (!Recorded(w.agent, j) ==> NoClearing(more, j))
    ensures CalmBesides(w, f, x) ==> Prompt(After(w, OuterHandler(f)), more) && Calm(u)
  {
    FiringKeepsShape(w, f);
    var t := After(w, OuterHandler(f));
    if CalmBesides(w, f, x) {
      HandlerIsCalm(w, f, x);
    }
    more, u, a := SomeoneEnters(t, j, x, g);
  }

  /** What a harmful failure can lead to: the handler fires in `t`, and then a flow `a` enters
      beside the holder `g`; if nothing was urgent at the failure, microtasks first. */
  ghost predicate Overlaps(w: World, t: World, more: seq<Step>, u: World, j: JobKey, g: nat, a: nat) {
    && Path(t, more, u) && Joined(t, u, j, g, a) && !Recorded(u.agent, j)
    && t.agent.accepted == w.agent.accepted
    && (Calm(w) ==> Prompt(t, more) && Calm(u))
    && (!Recorded(w.agent, j) ==> NoClearing(more, j))
  }

  /** At such a firing there is a holder to strike. */
  lemma HolderIsStruck(w: World, step: Step, f: nat) returns (between: seq<Step>, x: nat, g: nat)
    requires f < |w.agent.flows| && Shielded(w, w.agent.flows[f].job)
    requires Allowed(w, step) && Fails(step, f) && !HarmlessFailure(w, step, f)
    ensures InBetween(After(w, step), between, f)
    ensures var u := RunIn(After(w, step), between);
            var j := w.agent.flows[f].job;
            && Ready(u) && FlowAt(u, f, j, Failed) && Holds(u.agent.flows, j, g) && DoneWith(u, x, j)
            && j !in u.lock.locks && u.agent.accepted == w.agent.accepted
            && (Recorded(u.agent, j) <==> Recorded(w.agent, j)) && (Calm(w) ==> CalmBesides(u, f, x))
  {
    between, x := HarmfulFailureStrikes(w, step, f);
    HandlerFinds(w, step, f, between);
    ShieldedAtFiring(w, step, f, between);
    g :| Holds(RunIn(After(w, step), between).agent.flows, w.agent.flows[f].job, g);
  }

  /** A harmful failure leads to a firing after which a second flow enters. */
  lemma HarmfulFailureOverlaps(w: World, step: Step, f: nat)
    returns (t: World, g: nat, more: seq<Step>, u: World, a: nat)
    requires f < |w.agent.flows| && Shielded(w, w.agent.flows[f].job)
    requires Allowed(w, step) && Fails(step, f) && !HarmlessFailure(w, step, f)
    ensures FiredInOrder(w, step, f, t) && Overlaps(w, t, more, u, w.agent.flows[f].job, g, a)
  {
    var between, x;
    between, x, g := HolderIsStruck(w, step, f);
    var v := RunIn(After(w, step), between);
    more, u, a := StruckHolderIsJoined(v, f, x, g, w.agent.flows[f].job);
    t := After(v, OuterHandler(f));
    assert FiredAfter(After(w, step), between, f, t);
  }

  lemma HarmfulFailureIsNotExclusive(w: World, step: Step, f: nat) returns (t: World, more: seq<Step>)
    requires f < |w.agent.flows| && Shielded(w, w.agent.flows[f].job)
    requires Allowed(w, step) && Fails(step, f) && !HarmlessFailure(w, step, f)
    ensures FiredInOrder(w, step, f, t) && ValidIn(t, more) && NoHandlerStep(more) && (Calm(w) ==> Prompt(t, more))
    ensures !OneHolder(RunIn(t, more).agent.flows, w.agent.flows[f].job)
  {
    var g, u, a;
    t, g, more, u, a := HarmfulFailureOverlaps(w, step, f);
    JoinedIsNotExclusive(t, u, w.agent.flows[f].job, g, a);
  }

  lemma ShieldedFailureExclusiveIff(w: World, step: Step, f: nat, j: JobKey)
    requires f < |w.agent.flows| && w.agent.flows[f].job == j && Shielded(w, j) && Allowed(w, step) && Fails(step, f)
    ensures HarmlessFailure(w, step, f) <==>
              forall t, more | FiredInOrder(w, step, f, t) && ValidIn(t, more) && NoHandlerStep(more) ::
                OneHolder(RunIn(t, more).agent.flows, j)
    ensures Calm(w) ==>
              (HarmlessFailure(w, step, f) <==>
                 forall t, more |
                   FiredInOrder(w, step, f, t) && ValidIn(t, more) && NoHandlerStep(more) && Prompt(t, more) ::
                   OneHolder(RunIn(t, more).agent.flows, j))
  {
    if HarmlessFailure(w, step, f) {
      forall t, more | FiredInOrder(w, step, f, t) && ValidIn(t, more) && NoHandlerStep(more)
        ensures OneHolder(RunIn(t, more).agent.flows, j)
      {
        HarmlessFailureIsExclusive(w, step, f, t, more);
      }
    } else {
      var t, more := HarmfulFailureIsNotExclusive(w, step, f);
    }
  }

  /** Exactness in the real order: after any run of harmless firings, a flow that fails keeps the
      bid section of its job exclusive, however the run goes on after its handler, if and only if
      no other flow holds the job and nobody waits for the failing flow whom the duplicate checks
      let through. */
  lemma FailureExclusiveIff(steps: seq<Step>, step: Step, f: nat)
    requires ValidIn(START, steps) && Allowed(RunIn(START, steps), step) && Fails(step, f)
    requires HarmlessRunIn(START, steps, RunIn(START, steps).agent.flows[f].job)
    ensures var w := RunIn(START, steps);
            HarmlessFailure(w, step, f) <==>
              forall t, more | FiredInOrder(w, step, f, t) && ValidIn(t, more) && NoHandlerStep(more) ::
                OneHolder(RunIn(t, more).agent.flows, w.agent.flows[f].job)
  {
    var w := RunIn(START, steps);
    StartIsShielded(w.agent.flows[f].job);
    RunKeepsShield(START, steps, w.agent.flows[f].job);
    ShieldedFailureExclusiveIff(w, step, f, w.agent.flows[f].job);
  }

  /** The same when microtasks come first throughout: the condition is exact already for those
      continuations. */
  lemma FailureExclusiveInOrderIff(steps: seq<Step>, step: Step, f: nat)
    requires ValidIn(START, steps) && Calm(RunIn(START, steps))
    requires Allowed(RunIn(START, steps), step) && Fails(step, f)
    requires HarmlessRunIn(START, steps, RunIn(START, steps).agent.flows[f].job)
    ensures var w := RunIn(START, steps);
            HarmlessFailure(w, step, f) <==>
              forall t, more | FiredInOrder(w, step, f, t) && ValidIn(t, more) && NoHandlerStep(more)
                  && Prompt(t, more) ::
                OneHolder(RunIn(t, more).agent.flows, w.agent.flows[f].job)
  {
    var w := RunIn(START, steps);
    StartIsShielded(w.agent.flows[f].job);
    RunKeepsShield(START, steps, w.agent.flows[f].job);
    ShieldedFailureExclusiveIff(w, step, f, w.agent.flows[f].job);
  }

  // ---- Audits ----

  lemma AuditInvAfterStep(w: World, step: Step, j: JobKey)
    requires Ready(w) && AuditInv(w.agent, j) && (j in w.agent.accepted || Shielded(w, j))
    requires Allowed(w, step) && !step.OuterHandler?
    ensures var t := After(w, step);
            Ready(t) && AuditInv(t.agent, j) && (j in t.agent.accepted || Shielded(t, j))
  {
    StepKeepsReady(w, step);
    if j !in w.agent.accepted {
      ShieldIsExclusive(w, j);
      StepKeepsShield(w, step, j);
    } else {
      AcceptedStays(w.agent, step, j);
    }
    StepKeepsAudits(w.agent, step, j);
  }

  lemma AcceptedStays(s: State, step: Step, j: JobKey)
    requires Enabled(s, step) && j in s.accepted
    ensures j in Apply(s, step).accepted
  {
  }

  /** What is known of audits holds until the handler fires. */
  lemma AuditInvAtFiring(w: World, step: Step, f: nat, between: seq<Step>, j: JobKey)
    requires Ready(w) && AuditInv(w.agent, j) && (j in w.agent.accepted || Shielded(w, j))
    requires Allowed(w, step) && !step.OuterHandler? && ValidIn(After(w, step), between) && NoHandlerStep(between)
    ensures var u := RunIn(After(w, step), between);
            Ready(u) && AuditInv(u.agent, j) && (j in u.agent.accepted || Shielded(u, j))
  {
    AuditInvAfterStep(w, step, j);
    NoHandlerIsHarmlessIn(After(w, step), between, j);
    AuditInvWithLock(After(w, step), between, j);
  }

  lemma SafeFailureAuditsOnce(w: World, step: Step, f: nat, t: World, more: seq<Step>, j: JobKey)
    requires f < |w.agent.flows| && w.agent.flows[f].job == j
    requires Ready(w) && AuditInv(w.agent, j) && (j in w.agent.accepted || Shielded(w, j))
    requires FiredInOrder(w, step, f, t) && (HarmlessFailure(w, step, f) || j in w.agent.accepted)
    requires ValidIn(t, more) && NoHandlerStep(more)
    ensures RunIn(t, more).agent.audits[j] <= 1
  {
    var between :| InBetween(After(w, step), between, f) && FiredAfter(After(w, step), between, f, t);
    HandlerFinds(w, step, f, between);
    AuditInvAtFiring(w, step, f, between, j);
    var u := RunIn(After(w, step), between);
    HarmlessFiringAuditsOnce(u, f);
    assert t == After(u, OuterHandler(f));
  }

  /** A harmful failure on an unaccepted job leads to two audits of it. */
  lemma HarmfulFailureAuditsTwice(w: World, step: Step, f: nat, j: JobKey) returns (t: World, all: seq<Step>)
    requires f < |w.agent.flows| && w.agent.flows[f].job == j && Shielded(w, j)
    requires Allowed(w, step) && Fails(step, f) && !HarmlessFailure(w, step, f) && j !in w.agent.accepted
    ensures FiredInOrder(w, step, f, t) && ValidIn(t, all) && NoHandlerStep(all)
    ensures RunIn(t, all).agent.audits[j] >= 2
    ensures Calm(w) ==> Prompt(t, all) && (!Recorded(w.agent, j) ==> NoClearing(all, j))
  {
    var g, more, u, a;
    t, g, more, u, a := HarmfulFailureOverlaps(w, step, f);
    var rest, v := JoinedAuditTwice(u, j, g, a);
    all := Join(t, more, u, rest, v, j);
    if Calm(w) {
      assert !Urgent(u, g);
    }
  }

  lemma ShieldedFailureAuditsOnceIff(w: World, step: Step, f: nat, j: JobKey)
    requires f < |w.agent.flows| && w.agent.flows[f].job == j && Allowed(w, step) && Fails(step, f)
    requires Ready(w) && AuditInv(w.agent, j) && (j in w.agent.accepted || Shielded(w, j))
    ensures HarmlessFailure(w, step, f) || j in w.agent.accepted <==>
              forall t, more | FiredInOrder(w, step, f, t) && ValidIn(t, more) && NoHandlerStep(more) ::
                RunIn(t, more).agent.audits[j] <= 1
    ensures Calm(w) ==>
              (HarmlessFailure(w, step, f) || j in w.agent.accepted <==>
                 forall t, more |
                   FiredInOrder(w, step, f, t) && ValidIn(t, more) && NoHandlerStep(more) && Prompt(t, more) ::
                   RunIn(t, more).agent.audits[j] <= 1)
  {
    if HarmlessFailure(w, step, f) || j in w.agent.accepted {
      forall t, more | FiredInOrder(w, step, f, t) && ValidIn(t, more) && NoHandlerStep(more)
        ensures RunIn(t, more).agent.audits[j] <= 1
      {
        SafeFailureAuditsOnce(w, step, f, t, more, j);
      }
    } else {
      var t, all := HarmfulFailureAuditsTwice(w, step, f, j);
    }
  }

  /** Exactness for audits in the real order: the audit stays single if and only if, besides,
      the job may be accepted already. */
  lemma FailureAuditsOnceIff(steps: seq<Step>, step: Step, f: nat)
    requires ValidIn(START, steps) && Allowed(RunIn(START, steps), step) && Fails(step, f)
    requires HarmlessInUntilAccepted(START, steps, RunIn(START, steps).agent.flows[f].job)
    ensures var w := RunIn(START, steps);
            var j := w.agent.flows[f].job;
            HarmlessFailure(w, step, f) || j in w.agent.accepted <==>
              forall t, more | FiredInOrder(w, step, f, t) && ValidIn(t, more) && NoHandlerStep(more) ::
                RunIn(t, more).agent.audits[j] <= 1
  {
    var w := RunIn(START, steps);
    var j := w.agent.flows[f].job;
    StartIsShielded(j);
    AuditInvWithLock(START, steps, j);
    ShieldedFailureAuditsOnceIff(w, step, f, j);
  }

  /** The same when microtasks come first throughout. */
  lemma FailureAuditsOnceInOrderIff(steps: seq<Step>, step: Step, f: nat)
    requires ValidIn(START, steps) && Calm(RunIn(START, steps))
    requires Allowed(RunIn(START, steps), step) && Fails(step, f)
    requires HarmlessInUntilAccepted(START, steps, RunIn(START, steps).agent.flows[f].job)
    ensures var w := RunIn(START, steps);
            var j := w.agent.flows[f].job;
            HarmlessFailure(w, step, f) || j in w.agent.accepted <==>
              forall t, more | FiredInOrder(w, step, f, t) && ValidIn(t, more) && NoHandlerStep(more)
                  && Prompt(t, more) ::
                RunIn(t, more).agent.audits[j] <= 1
  {
    var w := RunIn(START, steps);
    var j := w.agent.flows[f].job;
    StartIsShielded(j);
    AuditInvWithLock(START, steps, j);
    ShieldedFailureAuditsOnceIff(w, step, f, j);
  }

  // ---- When no event clears the job ----

  lemma SegmentKeepsSubmitted(w: World, step: Step, c: nat)
    requires Allowed(w, step) && FirstSegment(step, c)
    ensures After(w, step).agent.jobs.submitted == w.agent.jobs.submitted
  {
  }

  lemma InBetweenKeepsSubmitted(w: World, between: seq<Step>, f: nat)
    requires InBetween(w, between, f)
    ensures RunIn(w, between).agent.jobs.submitted == w.agent.jobs.submitted
  {
    if Awaited(w, f) {
      var c :| WaitsFor(w, c, f) && FirstSegment(between[0], c);
      assert between == [between[0]];
      OneStep(w, between[0]);
      SegmentKeepsSubmitted(w, between[0], c);
    }
  }

  lemma RecordedAtFiring(w: World, step: Step, f: nat, between: seq<Step>, j: JobKey)
    requires f < |w.agent.flows| && w.agent.flows[f].job == j && j in w.agent.jobs.submitted
    requires AuditInv(w.agent, j) && Shielded(w, j) && Allowed(w, step) && Fails(step, f)
    requires InBetween(After(w, step), between, f)
    ensures var u := RunIn(After(w, step), between);
            && Ready(u) && FlowAt(u, f, j, Failed) && AuditInv(u.agent, j) && Shielded(u, j)
            && j in u.agent.jobs.submitted
  {
    HandlerFinds(w, step, f, between);
    AuditInvAtFiring(w, step, f, between, j);
    ShieldedAtFiring(w, step, f, between);
    InBetweenKeepsSubmitted(After(w, step), between, f);
  }

  lemma RecordedFailureAuditsOnce(w: World, step: Step, f: nat, t: World, more: seq<Step>, j: JobKey)
    requires f < |w.agent.flows| && w.agent.flows[f].job == j && j in w.agent.jobs.submitted
    requires AuditInv(w.agent, j) && Shielded(w, j) && FiredInOrder(w, step, f, t)
    requires ValidIn(t, more) && NoClearing(more, j)
    ensures RunIn(t, more).agent.audits[j] <= 1
  {
    var between :| InBetween(After(w, step), between, f) && FiredAfter(After(w, step), between, f, t);
    RecordedAtFiring(w, step, f, between, j);
    RecordedFiringAuditsOnce(RunIn(After(w, step), between), f);
  }

  lemma CalmFailureUnclearedIff(w: World, step: Step, f: nat, j: JobKey)
    requires f < |w.agent.flows| && w.agent.flows[f].job == j && Calm(w) && Allowed(w, step) && Fails(step, f)
    requires Ready(w) && AuditInv(w.agent, j) && (j in w.agent.accepted || Shielded(w, j))
    requires PendingWithinSubmitted(w.agent)
    ensures HarmlessFailure(w, step, f) || j in w.agent.accepted || j in w.agent.jobs.submitted <==>
              forall t, more |
                FiredInOrder(w, step, f, t) && ValidIn(t, more) && NoHandlerStep(more) && Prompt(t, more)
                && NoClearing(more, j) ::
                RunIn(t, more).agent.audits[j] <= 1
  {
    if HarmlessFailure(w, step, f) || j in w.agent.accepted || j in w.agent.jobs.submitted {
      forall t, more | FiredInOrder(w, step, f, t) && ValidIn(t, more) && NoHandlerStep(more) && NoClearing(more, j)
        ensures RunIn(t, more).agent.audits[j] <= 1
      {
        if HarmlessFailure(w, step, f) || j in w.agent.accepted {
          SafeFailureAuditsOnce(w, step, f, t, more, j);
        } else {
          RecordedFailureAuditsOnce(w, step, f, t, more, j);
        }
      }
    } else {
      var t, all := HarmfulFailureAuditsTwice(w, step, f, j);
    }
  }

  /** Exactness for audits when microtasks come first and nothing cancels the job or reports it
      lost: then a job recorded locally is safe as well. Nothing is assumed of the chain. */
  lemma FailureAuditsOnceUnclearedIff(steps: seq<Step>, step: Step, f: nat)
    requires ValidIn(START, steps) && Calm(RunIn(START, steps))
    requires Allowed(RunIn(START, steps), step) && Fails(step, f)
    requires HarmlessInUntilAccepted(START, steps, RunIn(START, steps).agent.flows[f].job)
    ensures var w := RunIn(START, steps);
            var j := w.agent.flows[f].job;
            HarmlessFailure(w, step, f) || j in w.agent.accepted || j in w.agent.jobs.submitted <==>
              forall t, more |
                FiredInOrder(w, step, f, t) && ValidIn(t, more) && NoHandlerStep(more) && Prompt(t, more)
                && NoClearing(more, j) ::
                RunIn(t, more).agent.audits[j] <= 1
  {
    var w := RunIn(START, steps);
    var j := w.agent.flows[f].job;
    StartIsShielded(j);
    AuditInvWithLock(START, steps, j);
    ProjectsOnBoth(START, steps);
    PendingJobsAreSubmitted(INIT, steps);
    CalmFailureUnclearedIff(w, step, f, j);
  }
}
