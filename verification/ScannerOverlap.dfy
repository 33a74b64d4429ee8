/**
 Scan cycles started by an interval timer may overlap: while one awaits, another runs. Whatever
 the interleaving, each address gets at most one discovery publish, because the seen check and
 the mark are one step and come before the publish. The cursor, which a cycle sets without
 looking at it, can move back; even so, no contract falls behind it unseen.
 */
module ScannerOverlap {
  import opened Scanner

  datatype Phase =
    | Fetching(asked: Stamp)                         // the request carries the cursor of its time
    | Creating
    | Handling(contract: MirrorContract, since: nat) // marked; `since`: how often the cursor had been set
    | Logging(contract: MirrorContract, since: nat)  // published; the audit log is being written
    | Ended

  datatype Scan = Scan(contracts: seq<MirrorContract>, next: nat, phase: Phase)

  /** `known`: what the mirror node has; `cursors`: every value the cursor ever had. */
  datatype System = System(
    seen: set<Address>,
    cursor: Stamp,
    scans: seq<Scan>,
    known: seq<MirrorContract>,
    publishes: multiset<Address>,
    cursors: seq<Stamp>)

  function Quiet(start: Stamp): System {
    System({}, start, [], [], multiset{}, [start])
  }

  datatype Step =
    | Appear(contract: MirrorContract)              // at the mirror node
    | StartScan                                     // a fetch is sent
    | Answered(c: nat, body: seq<MirrorContract>)   // filtered by the cursor of this moment, and sorted
    | Created(c: nat)                               // the discovery is built: seen check and mark
    | GiveUp(c: nat)                                // rejected payload or failed listing
    | Publish(c: nat, ok: bool)
    | Advance(c: nat)                               // the audit log is written: set the cursor
    | End(c: nat)                                   // fetch failed, list exhausted, cap, payer exhausted, or thrown

  predicate Enabled(s: System, step: Step) {
    match step
    case Appear(_) => true
    case StartScan => true
    case Answered(c, _) => c < |s.scans| && s.scans[c].phase.Fetching?
    case Created(c) => c < |s.scans| && s.scans[c].phase.Creating? && s.scans[c].next < |s.scans[c].contracts|
    case GiveUp(c) => c < |s.scans| && s.scans[c].phase.Handling?
    case Publish(c, _) => c < |s.scans| && s.scans[c].phase.Handling?
    case Advance(c) => c < |s.scans| && s.scans[c].phase.Logging?
    case End(c) => c < |s.scans| && (s.scans[c].phase.Creating? || s.scans[c].phase.Fetching?)
  }

  function Goto(s: System, c: nat, phase: Phase): System
    requires c < |s.scans|
  {
    s.(scans := s.scans[c := s.scans[c].(phase := phase)])
  }

  function Apply(s: System, step: Step): System
    requires Enabled(s, step)
  {
    match step
    case Appear(m) => s.(known := s.known + [m])
    case StartScan => s.(scans := s.scans + [Scan([], 0, Fetching(s.cursor))])
    case Answered(c, body) => s.(scans := s.scans[c := Scan(Fetch(s.cursor, body), 0, Creating)])
    case Created(c) =>
      var scan := s.scans[c];
      var m := scan.contracts[scan.next];
      if m.address in s.seen then s.(scans := s.scans[c := scan.(next := scan.next + 1)])
      else
        s.(seen := s.seen + {m.address},
           scans := s.scans[c := Scan(scan.contracts, scan.next + 1, Handling(m, |s.cursors|))])
    case GiveUp(c) => Goto(s, c, Creating)
    case Publish(c, ok) =>
      var m := s.scans[c].phase.contract;
      Goto(s.(publishes := s.publishes + multiset{m.address}), c,
           if ok then Logging(m, s.scans[c].phase.since) else Creating)
    case Advance(c) =>
      var created := s.scans[c].phase.contract.created;
      Goto(if created.Missing? then s else s.(cursor := created, cursors := s.cursors + [created]), c, Creating)
    case End(c) => Goto(s, c, Ended)
  }

  predicate Valid(s: System, steps: seq<Step>)
    decreases |steps|
  {
    steps == [] || (Enabled(s, steps[0]) && Valid(Apply(s, steps[0]), steps[1..]))
  }

  function Run(s: System, steps: seq<Step>): System
    requires Valid(s, steps)
    decreases |steps|
  {
    if steps == [] then s else Run(Apply(s, steps[0]), steps[1..])
  }

  /** Only a publish that succeeds leads to the audit log, and so to setting the cursor. */
  lemma OnlySuccessIsLogged(s: System, c: nat, ok: bool)
    requires Enabled(s, Publish(c, ok))
    ensures Apply(s, Publish(c, ok)).scans[c].phase
            == if ok then Logging(s.scans[c].phase.contract, s.scans[c].phase.since) else Creating
    ensures Apply(s, GiveUp(c)).scans[c].phase == Creating
  {
  }

  /** A request asks for what is above the cursor of its own time; its answer is filtered by the cursor of
      the time it arrives. */
  lemma TwoCursorsCount(s: System, c: nat, body: seq<MirrorContract>, m: MirrorContract)
    ensures Apply(s, StartScan).scans == s.scans + [Scan([], 0, Fetching(s.cursor))]
    ensures Enabled(s, Answered(c, body)) ==>
              (m in Apply(s, Answered(c, body)).scans[c].contracts <==>
                 m in body && m.validAddress && AboveCursor(s.cursor, m))
  {
    FetchIsExact(s.cursor, body);
  }

  /** A contract with a timestamp sets the cursor to it, whatever the cursor is; one without leaves it. */
  lemma AdvanceSetsCursor(s: System, c: nat)
    requires Enabled(s, Advance(c))
    ensures var created, t := s.scans[c].phase.contract.created, Apply(s, Advance(c));
            && t.cursor == (if created.Missing? then s.cursor else created)
            && t.cursors == s.cursors + (if created.Missing? then [] else [created])
            && t.scans[c].phase == Creating && t.seen == s.seen && t.publishes == s.publishes
  {
  }

  // ---- Publishing ----

  /** An address in hand is marked, not yet published, and in no other scan's hand. */
  ghost predicate TakenOnce(s: System) {
    && (forall c | 0 <= c < |s.scans| && s.scans[c].phase.Handling? ::
          s.scans[c].phase.contract.address in s.seen && s.publishes[s.scans[c].phase.contract.address] == 0)
    && (forall c, d | 0 <= c < d < |s.scans| && s.scans[c].phase.Handling? && s.scans[d].phase.Handling? ::
          s.scans[c].phase.contract.address != s.scans[d].phase.contract.address)
    && (forall a :: s.publishes[a] <= 1 && (s.publishes[a] == 1 ==> a in s.seen))
  }

  lemma TakingKeepsTakenOnce(s: System, c: nat)
    requires TakenOnce(s) && Enabled(s, Created(c))
    ensures TakenOnce(Apply(s, Created(c)))
  {
  }

  lemma PublishKeepsTakenOnce(s: System, c: nat, ok: bool)
    requires TakenOnce(s) && Enabled(s, Publish(c, ok))
    ensures TakenOnce(Apply(s, Publish(c, ok)))
  {
  }

  lemma StepKeepsTakenOnce(s: System, step: Step)
    requires TakenOnce(s) && Enabled(s, step)
    ensures TakenOnce(Apply(s, step))
  {
    if step.Created? {
      TakingKeepsTakenOnce(s, step.c);
    } else if step.Publish? {
      PublishKeepsTakenOnce(s, step.c, step.ok);
    }
  }

  lemma {:induction false} RunKeepsTakenOnce(s: System, steps: seq<Step>)
    requires TakenOnce(s) && Valid(s, steps)
    ensures TakenOnce(Run(s, steps))
    decreases |steps|
  {
    if steps == [] {
    } else {
      StepKeepsTakenOnce(s, steps[0]);
      RunKeepsTakenOnce(Apply(s, steps[0]), steps[1..]);
    }
  }

  /** At most one discovery publish per address over the whole process, cycles overlapping. */
  lemma PublishesAtMostOnce(start: Stamp, steps: seq<Step>, a: Address)
    requires Valid(Quiet(start), steps)
    ensures Run(Quiet(start), steps).publishes[a] <= 1
  {
    RunKeepsTakenOnce(Quiet(start), steps);
  }

  /** Marked, unpublished and in nobody's hand. */
  ghost predicate GivenUp(s: System, a: Address) {
    && a in s.seen && s.publishes[a] == 0
    && forall c | 0 <= c < |s.scans| && s.scans[c].phase.Handling? :: s.scans[c].phase.contract.address != a
  }

  /** An address whose discovery was rejected, or whose listing failed, stays unpublished for
      good, whichever cycles come after or overlap. */
  lemma {:induction false} GivenUpForGood(s: System, steps: seq<Step>, a: Address)
    requires GivenUp(s, a) && Valid(s, steps)
    ensures GivenUp(Run(s, steps), a) && Run(s, steps).publishes[a] == 0
    decreases |steps|
  {
    if steps == [] {
    } else {
      GivenUpForGood(Apply(s, steps[0]), steps[1..], a);
    }
  }

  // ---- What the mirror node is taken to do ----

  function Time(stamp: Stamp): nat {
    if stamp.Nanos? then stamp.value else 0
  }

  predicate Dated(m: MirrorContract) {
    m.validAddress && m.created.Nanos? && m.created.value > 0
  }

  /** The contract is newer than the start and than whatever is known. */
  predicate IsNewest(s: System, m: MirrorContract) {
    && Dated(m) && s.cursors != [] && Time(s.cursors[0]) < Time(m.created)
    && forall x | x in s.known :: Time(x.created) < Time(m.created)
  }

  /** Of what the request asked for, the answer has everything known up to its newest contract. */
  ghost predicate InFull(s: System, asked: Stamp, body: seq<MirrorContract>) {
    && (forall m | m in body :: m in s.known)
    && forall x, m | x in s.known && m in body && Time(asked) < Time(x.created) <= Time(m.created) :: x in body
  }

  /** Contracts appear in the order of their timestamps, and answers are full. */
  ghost predicate Orderly(s: System, step: Step) {
    && (step.Appear? ==> IsNewest(s, step.contract))
    && (step.Answered? && step.c < |s.scans| && s.scans[step.c].phase.Fetching? ==>
          InFull(s, s.scans[step.c].phase.asked, step.body))
  }

  ghost predicate OrderlyRun(s: System, steps: seq<Step>)
    requires Valid(s, steps)
    decreases |steps|
  {
    steps == [] || (Orderly(s, steps[0]) && OrderlyRun(Apply(s, steps[0]), steps[1..]))
  }

  // ---- What is behind the cursor has been seen ----

  /** Whatever is known up to `t` is marked, and nothing as old will appear. */
  ghost predicate Covered(s: System, t: nat) {
    && s.cursors != []
    && (forall x | x in s.known && Time(x.created) <= t :: x.address in s.seen)
    && (t <= Time(s.cursors[0]) || exists x :: x in s.known && t <= Time(x.created))
  }

  /** Whatever is known and not newer than a listed contract is marked, or listed no later. */
  ghost predicate Gapless(s: System, contracts: seq<MirrorContract>) {
    && (forall m | m in contracts :: m in s.known)
    && forall x, i | x in s.known && 0 <= i < |contracts| && Time(x.created) <= Time(contracts[i].created) ::
         x.address in s.seen || x in contracts[..i + 1]
  }

  /** The contract is the last one taken from the list, and newer than every value the cursor had
      before that. */
  ghost predicate InHand(s: System, scan: Scan, m: MirrorContract, since: nat) {
    && 0 < scan.next <= |scan.contracts| && m == scan.contracts[scan.next - 1] && since <= |s.cursors|
    && forall k | 0 <= k < since :: Time(s.cursors[k]) < Time(m.created)
  }

  ghost predicate SeenUpTo(s: System, contracts: seq<MirrorContract>, n: nat)
    requires n <= |contracts|
  {
    forall i | 0 <= i < n :: contracts[i].address in s.seen
  }

  ghost predicate ScanInv(s: System, scan: Scan) {
    && scan.next <= |scan.contracts| && Gapless(s, scan.contracts) && SeenUpTo(s, scan.contracts, scan.next)
    && match scan.phase {
         case Fetching(asked) => Covered(s, Time(asked))
         case Handling(m, since) => InHand(s, scan, m, since)
         case Logging(m, since) => InHand(s, scan, m, since)
         case _ => true
       }
  }

  ghost predicate CursorInv(s: System) {
    && s.cursors != [] && s.cursor == s.cursors[|s.cursors| - 1]
    && (forall k | 0 <= k < |s.cursors| :: Covered(s, Time(s.cursors[k])))
    && (forall x | x in s.known :: Dated(x))
    && (forall x, y | x in s.known && y in s.known && x.created == y.created :: x == y)
  }

  ghost predicate OverlapInv(s: System) {
    CursorInv(s) && forall c | 0 <= c < |s.scans| :: ScanInv(s, s.scans[c])
  }

  lemma AppearKeepsCovered(s: System, m: MirrorContract, t: nat)
    requires IsNewest(s, m) && Covered(s, t)
    ensures Covered(Apply(s, Appear(m)), t)
  {
    var u := Apply(s, Appear(m));
    if t > Time(s.cursors[0]) {
      var x :| x in s.known && t <= Time(x.created);
      assert x in u.known;
    }
  }

  lemma AppearKeepsScan(s: System, m: MirrorContract, scan: Scan)
    requires CursorInv(s) && IsNewest(s, m) && ScanInv(s, scan)
    ensures ScanInv(Apply(s, Appear(m)), scan)
  {
    if scan.phase.Fetching? {
      AppearKeepsCovered(s, m, Time(scan.phase.asked));
    }
  }

  lemma AppearKeepsOverlap(s: System, m: MirrorContract)
    requires OverlapInv(s) && IsNewest(s, m)
    ensures OverlapInv(Apply(s, Appear(m)))
  {
    forall k | 0 <= k < |s.cursors|
      ensures Covered(Apply(s, Appear(m)), Time(s.cursors[k]))
    {
      AppearKeepsCovered(s, m, Time(s.cursors[k]));
    }
    forall c | 0 <= c < |s.scans|
      ensures ScanInv(Apply(s, Appear(m)), s.scans[c])
    {
      AppearKeepsScan(s, m, s.scans[c]);
    }
  }

  /** Marks and cursor values are only added. */
  ghost predicate Adds(s: System, t: System) {
    t.known == s.known && s.seen <= t.seen && s.cursors <= t.cursors
  }

  lemma AddingKeepsScan(s: System, t: System, scan: Scan)
    requires ScanInv(s, scan) && s.cursors != [] && Adds(s, t)
    ensures ScanInv(t, scan)
  {
  }

  /** One scan has moved on, with marks and cursor values only added. */
  lemma OneScanMoves(s: System, t: System, c: nat)
    requires OverlapInv(s) && c < |s.scans| && Adds(s, t) && CursorInv(t)
    requires |t.scans| == |s.scans| && t.scans == s.scans[c := t.scans[c]] && ScanInv(t, t.scans[c])
    ensures OverlapInv(t)
  {
    forall d | 0 <= d < |t.scans|
      ensures ScanInv(t, t.scans[d])
    {
      if d != c {
        AddingKeepsScan(s, t, s.scans[d]);
      }
    }
  }

  /** A full answer, filtered by the cursor of the moment it arrives, leaves no gap that has not been
      seen, even if the cursor has moved back since the request. */
  lemma FullAnswerIsGapless(s: System, asked: Stamp, body: seq<MirrorContract>)
    requires CursorInv(s) && Covered(s, Time(asked)) && InFull(s, asked, body)
    ensures Gapless(s, Fetch(s.cursor, body))
  {
    FetchIsExact(s.cursor, body);
    var cs := Fetch(s.cursor, body);
    forall x, i | x in s.known && 0 <= i < |cs| && Time(x.created) <= Time(cs[i].created)
      ensures x.address in s.seen || x in cs[..i + 1]
    {
      assert cs[i] in cs;
      if Time(x.created) > Time(asked) && Time(x.created) > Time(s.cursor) {
        assert x in cs;
        OldComesFirst(s, cs, x, i);
      }
    }
  }

  lemma OldComesFirst(s: System, cs: seq<MirrorContract>, x: MirrorContract, i: nat)
    requires CursorInv(s) && Ascending(cs) && (forall m | m in cs :: m in s.known)
    requires x in cs && i < |cs| && Time(x.created) <= Time(cs[i].created)
    ensures x in cs[..i + 1]
  {
    var n :| 0 <= n < |cs| && cs[n] == x;
    assert cs[i] in cs;
    if n > i {
      assert SortKey(cs[i]) <= SortKey(cs[n]);
      assert x.created == cs[i].created;
      assert cs[..i + 1][i] == x;
    } else {
      assert cs[..i + 1][n] == x;
    }
  }

  lemma AnswerKeepsOverlap(s: System, c: nat, body: seq<MirrorContract>)
    requires OverlapInv(s) && Enabled(s, Answered(c, body)) && InFull(s, s.scans[c].phase.asked, body)
    ensures OverlapInv(Apply(s, Answered(c, body)))
  {
    var t := Apply(s, Answered(c, body));
    assert ScanInv(s, s.scans[c]);
    FullAnswerIsGapless(s, s.scans[c].phase.asked, body);
    OneScanMoves(s, t, c);
  }

  lemma TakenIsNewest(s: System, m: MirrorContract)
    requires CursorInv(s) && m in s.known && m.address !in s.seen
    ensures forall k | 0 <= k < |s.cursors| :: Time(s.cursors[k]) < Time(m.created)
  {
    forall k | 0 <= k < |s.cursors|
      ensures Time(s.cursors[k]) < Time(m.created)
    {
      assert Covered(s, Time(s.cursors[k]));
    }
  }

  lemma MarkingKeepsCursor(s: System, t: System)
    requires CursorInv(s) && Adds(s, t) && t.cursors == s.cursors && t.cursor == s.cursor
    ensures CursorInv(t)
  {
    forall k | 0 <= k < |t.cursors|
      ensures Covered(t, Time(t.cursors[k]))
    {
      assert Covered(s, Time(s.cursors[k]));
    }
  }

  lemma OneMoreIsSeen(s: System, contracts: seq<MirrorContract>, n: nat)
    requires n < |contracts| && SeenUpTo(s, contracts, n) && contracts[n].address in s.seen
    ensures SeenUpTo(s, contracts, n + 1)
  {
  }

  lemma PassedKeepsScan(s: System, scan: Scan)
    requires ScanInv(s, scan) && scan.phase.Creating? && scan.next < |scan.contracts|
    requires scan.contracts[scan.next].address in s.seen
    ensures ScanInv(s, scan.(next := scan.next + 1))
  {
    OneMoreIsSeen(s, scan.contracts, scan.next);
  }

  lemma HeldKeepsScan(s: System, scan: Scan, m: MirrorContract)
    requires ScanInv(s, scan) && scan.phase.Creating? && InHand(s, scan, m, |s.cursors|)
    ensures ScanInv(s, scan.(phase := Handling(m, |s.cursors|)))
  {
  }

  lemma TakenKeepsScan(s: System, t: System, scan: Scan)
    requires CursorInv(s) && ScanInv(s, scan) && scan.phase.Creating? && scan.next < |scan.contracts|
    requires Adds(s, t) && t.cursors == s.cursors && scan.contracts[scan.next].address in t.seen - s.seen
    ensures ScanInv(t, Scan(scan.contracts, scan.next + 1, Handling(scan.contracts[scan.next], |s.cursors|)))
  {
    var m := scan.contracts[scan.next];
    assert m in scan.contracts;
    TakenIsNewest(s, m);
    AddingKeepsScan(s, t, scan);
    PassedKeepsScan(t, scan);
    HeldKeepsScan(t, scan.(next := scan.next + 1), m);
  }

  lemma CreatedKeepsOverlap(s: System, c: nat)
    requires OverlapInv(s) && Enabled(s, Created(c))
    ensures OverlapInv(Apply(s, Created(c)))
  {
    var t := Apply(s, Created(c));
    assert ScanInv(s, s.scans[c]);
    MarkingKeepsCursor(s, t);
    if s.scans[c].contracts[s.scans[c].next].address in s.seen {
      PassedKeepsScan(s, s.scans[c]);
      AddingKeepsScan(s, t, t.scans[c]);
    } else {
      TakenKeepsScan(s, t, s.scans[c]);
    }
    OneScanMoves(s, t, c);
  }

  /** Once a contract is taken, everything as old is marked. */
  lemma InHandIsCovered(s: System, scan: Scan, m: MirrorContract, since: nat)
    requires CursorInv(s) && ScanInv(s, scan) && InHand(s, scan, m, since)
    ensures m in s.known && Covered(s, Time(m.created))
  {
    var i := scan.next - 1;
    assert m in scan.contracts;
    forall x | x in s.known && Time(x.created) <= Time(m.created)
      ensures x.address in s.seen
    {
      if x in scan.contracts[..i + 1] {
        var n :| 0 <= n < i + 1 && scan.contracts[n] == x;
      }
    }
  }

  lemma AdvanceKeepsOverlap(s: System, c: nat)
    requires OverlapInv(s) && Enabled(s, Advance(c))
    ensures OverlapInv(Apply(s, Advance(c)))
  {
    var t := Apply(s, Advance(c));
    var scan := s.scans[c];
    assert ScanInv(s, scan);
    InHandIsCovered(s, scan, scan.phase.contract, scan.phase.since);
    forall k | 0 <= k < |t.cursors|
      ensures Covered(t, Time(t.cursors[k]))
    {
      assert k < |s.cursors| ==> Covered(s, Time(s.cursors[k]));
    }
    AddingKeepsScan(s, t, scan.(phase := Creating));
    OneScanMoves(s, t, c);
  }

  lemma StartKeepsOverlap(s: System)
    requires OverlapInv(s)
    ensures OverlapInv(Apply(s, StartScan))
  {
    var t := Apply(s, StartScan);
    MarkingKeepsCursor(s, t);
    forall c | 0 <= c < |t.scans|
      ensures ScanInv(t, t.scans[c])
    {
      if c < |s.scans| {
        AddingKeepsScan(s, t, s.scans[c]);
      }
    }
  }

  /** The other steps only change where a scan is. */
  lemma MovingOnKeepsOverlap(s: System, step: Step)
    requires OverlapInv(s) && Enabled(s, step) && (step.GiveUp? || step.Publish? || step.End?)
    ensures OverlapInv(Apply(s, step))
  {
    var t := Apply(s, step);
    assert ScanInv(s, s.scans[step.c]);
    MarkingKeepsCursor(s, t);
    AddingKeepsScan(s, t, s.scans[step.c]);
    OneScanMoves(s, t, step.c);
  }

  lemma StepKeepsOverlap(s: System, step: Step)
    requires OverlapInv(s) && Enabled(s, step) && Orderly(s, step)
    ensures OverlapInv(Apply(s, step))
  {
    match step
    case Appear(m) => AppearKeepsOverlap(s, m);
    case StartScan => StartKeepsOverlap(s);
    case Answered(c, body) => AnswerKeepsOverlap(s, c, body);
    case Created(c) => CreatedKeepsOverlap(s, c);
    case Advance(c) => AdvanceKeepsOverlap(s, c);
    case GiveUp(_) => MovingOnKeepsOverlap(s, step);
    case Publish(_, _) => MovingOnKeepsOverlap(s, step);
    case End(_) => MovingOnKeepsOverlap(s, step);
  }

  lemma {:induction false} RunKeepsOverlap(s: System, steps: seq<Step>)
    requires OverlapInv(s) && Valid(s, steps) && OrderlyRun(s, steps)
    ensures OverlapInv(Run(s, steps))
    decreases |steps|
  {
    if steps == [] {
    } else {
      StepKeepsOverlap(s, steps[0]);
      RunKeepsOverlap(Apply(s, steps[0]), steps[1..]);
    }
  }

  /** However cycles overlap and whatever fails: a contract at or below any value the cursor ever had
      has been marked seen. So each known contract is seen or will be fetched. */
  lemma OverlapLosesNothing(start: Stamp, steps: seq<Step>, x: MirrorContract)
    requires Valid(Quiet(start), steps) && OrderlyRun(Quiet(start), steps)
    requires x in Run(Quiet(start), steps).known
    ensures var s := Run(Quiet(start), steps);
            && (x.address in s.seen || AboveCursor(s.cursor, x))
            && forall k | 0 <= k < |s.cursors| && !AboveCursor(s.cursors[k], x) :: x.address in s.seen
  {
    RunKeepsOverlap(Quiet(start), steps);
    var s := Run(Quiet(start), steps);
    forall k | 0 <= k < |s.cursors| && !AboveCursor(s.cursors[k], x)
      ensures x.address in s.seen
    {
      assert Covered(s, Time(s.cursors[k]));
    }
  }

  /** A cycle moves the cursor back exactly when another one has set it to something newer since the
      contract was taken. Undisturbed, it sets it higher than ever. */
  lemma CursorFallsIff(start: Stamp, steps: seq<Step>, c: nat)
    requires Valid(Quiet(start), steps) && OrderlyRun(Quiet(start), steps)
    requires Enabled(Run(Quiet(start), steps), Advance(c))
    ensures var s := Run(Quiet(start), steps);
            var Logging(m, since) := s.scans[c].phase;
            && Apply(s, Advance(c)).cursor == m.created
            && (Time(m.created) < Time(s.cursor) <==>
                  since < |s.cursors| && Time(m.created) < Time(s.cursors[|s.cursors| - 1]))
            && (since == |s.cursors| ==> forall k | 0 <= k < |s.cursors| :: Time(s.cursors[k]) < Time(m.created))
  {
    RunKeepsOverlap(Quiet(start), steps);
    var s := Run(Quiet(start), steps);
    assert ScanInv(s, s.scans[c]);
    InHandIsCovered(s, s.scans[c], s.scans[c].phase.contract, s.scans[c].phase.since);
  }

  // ---- The cursor can fall ----

  ghost predicate Reaches(start: Stamp, steps: seq<Step>, s: System) {
    Valid(Quiet(start), steps) && OrderlyRun(Quiet(start), steps) && Run(Quiet(start), steps) == s
  }

  lemma {:induction false} RunSnoc(s: System, steps: seq<Step>, step: Step)
    requires Valid(s, steps) && OrderlyRun(s, steps)
    requires Enabled(Run(s, steps), step) && Orderly(Run(s, steps), step)
    ensures Valid(s, steps + [step]) && OrderlyRun(s, steps + [step])
    ensures Run(s, steps + [step]) == Apply(Run(s, steps), step)
    decreases |steps|
  {
    if steps == [] {
      assert [] + [step] == [step] && [step][1..] == [];
    } else {
      assert (steps + [step])[0] == steps[0] && (steps + [step])[1..] == steps[1..] + [step];
      RunSnoc(Apply(s, steps[0]), steps[1..], step);
    }
  }

  lemma Take(start: Stamp, steps: seq<Step>, s: System, step: Step) returns (next: seq<Step>, t: System)
    requires Reaches(start, steps, s) && Enabled(s, step) && Orderly(s, step)
    ensures Reaches(start, next, t) && t == Apply(s, step)
  {
    next, t := steps + [step], Apply(s, step);
    RunSnoc(Quiet(start), steps, step);
  }

  predicate OlderAndNewer(start: Stamp, older: MirrorContract, newer: MirrorContract) {
    && Dated(older) && Dated(newer) && older.address != newer.address
    && Time(start) < Time(older.created) < Time(newer.created)
  }

  lemma BothAreFetched(start: Stamp, older: MirrorContract, newer: MirrorContract)
    requires OlderAndNewer(start, older, newer)
    ensures Fetch(start, [older, newer]) == [older, newer]
  {
    assert [older, newer][1..] == [newer] && [newer][1..] == [];
    assert Filtered(start, [newer]) == [newer];
    assert SortByTime([newer]) == [newer];
  }

  /** Both contracts are known, and a cycle has fetched them and started on the older one. */
  lemma OlderIsTaken(start: Stamp, older: MirrorContract, newer: MirrorContract)
    returns (steps: seq<Step>, s: System)
    requires OlderAndNewer(start, older, newer)
    ensures Reaches(start, steps, s)
    ensures s == System({older.address}, start, [Scan([older, newer], 1, Handling(older, 1))], [older, newer],
                        multiset{}, [start])
  {
    BothAreFetched(start, older, newer);
    steps, s := Take(start, [], Quiet(start), Appear(older));
    steps, s := Take(start, steps, s, Appear(newer));
    steps, s := Take(start, steps, s, StartScan);
    steps, s := Take(start, steps, s, Answered(0, [older, newer]));
    steps, s := Take(start, steps, s, Created(0));
  }

  /** A second cycle passes over it and takes the newer one. */
  lemma NewerIsTaken(start: Stamp, older: MirrorContract, newer: MirrorContract, before: seq<Step>, w: System)
    returns (steps: seq<Step>, s: System)
    requires OlderAndNewer(start, older, newer) && Reaches(start, before, w)
    requires w == System({older.address}, start, [Scan([older, newer], 1, Handling(older, 1))], [older, newer],
                         multiset{}, [start])
    ensures Reaches(start, steps, s)
    ensures s == System({older.address, newer.address}, start,
                        [Scan([older, newer], 1, Handling(older, 1)), Scan([older, newer], 2, Handling(newer, 1))],
                        [older, newer], multiset{}, [start])
  {
    BothAreFetched(start, older, newer);
    steps, s := Take(start, before, w, StartScan);
    steps, s := Take(start, steps, s, Answered(1, [older, newer]));
    steps, s := Take(start, steps, s, Created(1));
    steps, s := Take(start, steps, s, Created(1));
  }

  /** It publishes the newer one and sets the cursor. */
  lemma NewerOvertakes(start: Stamp, older: MirrorContract, newer: MirrorContract, before: seq<Step>, w: System)
    returns (steps: seq<Step>, s: System)
    requires OlderAndNewer(start, older, newer) && Reaches(start, before, w)
    requires w == System({older.address, newer.address}, start,
                         [Scan([older, newer], 1, Handling(older, 1)), Scan([older, newer], 2, Handling(newer, 1))],
                         [older, newer], multiset{}, [start])
    ensures Reaches(start, steps, s)
    ensures s == System({older.address, newer.address}, newer.created,
                        [Scan([older, newer], 1, Handling(older, 1)), Scan([older, newer], 2, Creating)],
                        [older, newer], multiset{newer.address}, [start, newer.created])
  {
    steps, s := Take(start, before, w, Publish(1, true));
    steps, s := Take(start, steps, s, Advance(1));
  }

  /** Two contracts, each published once by its cycle: the cycle with the older one ends later and sets
      the cursor back behind the newer one. */
  lemma CursorCanFall(start: Stamp, older: MirrorContract, newer: MirrorContract) returns (steps: seq<Step>, s: System)
    requires OlderAndNewer(start, older, newer)
    ensures Reaches(start, steps, s)
    ensures s.cursors == [start, newer.created, older.created] && s.cursor == older.created
    ensures s.publishes == multiset{older.address, newer.address}
  {
    steps, s := OlderIsTaken(start, older, newer);
    steps, s := NewerIsTaken(start, older, newer, steps, s);
    steps, s := NewerOvertakes(start, older, newer, steps, s);
    steps, s := Take(start, steps, s, Publish(0, true));
    steps, s := Take(start, steps, s, Advance(0));
  }
}
