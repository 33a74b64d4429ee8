/**
 The scanner's polling loop: contracts newer than a timestamp cursor are fetched, sorted,
 checked against the set of contracts already seen, and published, up to a cap per cycle.
 */
module Scanner {
  import opened Wrappers

  type Address = string

  /** A consensus timestamp as `toConsensusBigInt` reads it. */
  datatype Stamp = Missing | Malformed | Nanos(value: nat)

  datatype MirrorContract = MirrorContract(address: Address, validAddress: bool, created: Stamp)

  function Consensus(s: Stamp): Option<nat> {
    if s.Nanos? then Some(s.value) else None
  }

  // ---- Fetching ----

  /** The client-side filter: without a usable cursor everything passes. */
  predicate AboveCursor(cursor: Stamp, c: MirrorContract) {
    match Consensus(cursor)
    case None => true
    case Some(t) => t == 0 || (c.created.Nanos? && c.created.value > t)
  }

  function Filtered(cursor: Stamp, body: seq<MirrorContract>): seq<MirrorContract> {
    if body == [] then []
    else (if body[0].validAddress && AboveCursor(cursor, body[0]) then [body[0]] else []) + Filtered(cursor, body[1..])
  }

  function SortKey(c: MirrorContract): nat {
    if c.created.Nanos? then c.created.value else 0
  }

  function InsertByTime(c: MirrorContract, sorted: seq<MirrorContract>): seq<MirrorContract> {
    if sorted == [] || SortKey(c) <= SortKey(sorted[0]) then [c] + sorted
    else [sorted[0]] + InsertByTime(c, sorted[1..])
  }

  function SortByTime(cs: seq<MirrorContract>): seq<MirrorContract> {
    if cs == [] then [] else InsertByTime(cs[0], SortByTime(cs[1..]))
  }

  function Fetch(cursor: Stamp, body: seq<MirrorContract>): seq<MirrorContract> {
    SortByTime(Filtered(cursor, body))
  }

  predicate Ascending(cs: seq<MirrorContract>) {
    forall i, k | 0 <= i < k < |cs| :: SortKey(cs[i]) <= SortKey(cs[k])
  }

  /** The smallest goes in front. */
  lemma FrontKeepsAscending(c: MirrorContract, sorted: seq<MirrorContract>)
    requires Ascending(sorted) && forall k | 0 <= k < |sorted| :: SortKey(c) <= SortKey(sorted[k])
    ensures Ascending([c] + sorted)
  {
  }

  lemma {:induction false} InsertKeepsItems(c: MirrorContract, sorted: seq<MirrorContract>)
    ensures multiset(InsertByTime(c, sorted)) == multiset(sorted) + multiset{c}
  {
    if sorted == [] || SortKey(c) <= SortKey(sorted[0]) {
    } else {
      InsertKeepsItems(c, sorted[1..]);
      assert sorted == [sorted[0]] + sorted[1..];
    }
  }

  /** Whatever is inserted into the rest, the first stays the smallest. */
  lemma FirstStaysFirst(c: MirrorContract, sorted: seq<MirrorContract>)
    requires Ascending(sorted) && sorted != [] && SortKey(sorted[0]) <= SortKey(c)
    ensures forall k | 0 <= k < |InsertByTime(c, sorted[1..])| ::
              SortKey(sorted[0]) <= SortKey(InsertByTime(c, sorted[1..])[k])
  {
    var rest, tail := sorted[1..], InsertByTime(c, sorted[1..]);
    InsertKeepsItems(c, rest);
    forall k | 0 <= k < |tail|
      ensures SortKey(sorted[0]) <= SortKey(tail[k])
    {
      assert tail[k] in multiset(tail);
      if tail[k] != c {
        assert tail[k] in multiset(rest);
        var n :| 0 <= n < |rest| && rest[n] == tail[k];
        assert rest[n] == sorted[n + 1];
      }
    }
  }

  lemma {:induction false} InsertKeeps(c: MirrorContract, sorted: seq<MirrorContract>)
    requires Ascending(sorted)
    ensures Ascending(InsertByTime(c, sorted))
    ensures multiset(InsertByTime(c, sorted)) == multiset(sorted) + multiset{c}
  {
    InsertKeepsItems(c, sorted);
    if sorted == [] || SortKey(c) <= SortKey(sorted[0]) {
      FrontKeepsAscending(c, sorted);
    } else {
      InsertKeeps(c, sorted[1..]);
      FirstStaysFirst(c, sorted);
      FrontKeepsAscending(sorted[0], InsertByTime(c, sorted[1..]));
    }
  }

  lemma {:induction false} SortIsAscending(cs: seq<MirrorContract>)
    ensures Ascending(SortByTime(cs)) && multiset(SortByTime(cs)) == multiset(cs)
  {
    if cs == [] {
    } else {
      SortIsAscending(cs[1..]);
      InsertKeeps(cs[0], SortByTime(cs[1..]));
      assert cs == [cs[0]] + cs[1..];
    }
  }

  function OfKey(cs: seq<MirrorContract>, key: nat): seq<MirrorContract> {
    if cs == [] then [] else (if SortKey(cs[0]) == key then [cs[0]] else []) + OfKey(cs[1..], key)
  }

  lemma {:induction false} InsertIsStable(c: MirrorContract, sorted: seq<MirrorContract>, key: nat)
    requires Ascending(sorted)
    ensures OfKey(InsertByTime(c, sorted), key) == OfKey([c] + sorted, key)
  {
    assert ([c] + sorted)[1..] == sorted;
    if sorted == [] || SortKey(c) <= SortKey(sorted[0]) {
    } else {
      InsertIsStable(c, sorted[1..], key);
      assert ([c] + sorted[1..])[1..] == sorted[1..];
      assert ([sorted[0]] + InsertByTime(c, sorted[1..]))[1..] == InsertByTime(c, sorted[1..]);
    }
  }

  /** Contracts with the same timestamp stay in the order in which they were answered. */
  lemma {:induction false} SortIsStable(cs: seq<MirrorContract>, key: nat)
    ensures OfKey(SortByTime(cs), key) == OfKey(cs, key)
  {
    if cs == [] {
    } else {
      SortIsStable(cs[1..], key);
      SortIsAscending(cs[1..]);
      InsertIsStable(cs[0], SortByTime(cs[1..]), key);
      assert ([cs[0]] + SortByTime(cs[1..]))[1..] == SortByTime(cs[1..]);
    }
  }

  lemma {:induction false} FilterIsExact(cursor: Stamp, body: seq<MirrorContract>, c: MirrorContract)
    ensures c in Filtered(cursor, body) <==> c in body && c.validAddress && AboveCursor(cursor, c)
  {
    if body == [] {
    } else {
      FilterIsExact(cursor, body[1..], c);
    }
  }

  /** Above a usable cursor is only what is dated later; without one, everything is. */
  lemma AboveCursorMeans(cursor: Stamp, c: MirrorContract)
    ensures cursor.Nanos? && cursor.value > 0 ==>
              (AboveCursor(cursor, c) <==> c.created.Nanos? && cursor.value < c.created.value)
    ensures !cursor.Nanos? || cursor.value == 0 ==> AboveCursor(cursor, c)
  {
  }

  /** A fetch returns, oldest first, exactly the valid contracts above the cursor. */
  lemma FetchIsExact(cursor: Stamp, body: seq<MirrorContract>)
    ensures Ascending(Fetch(cursor, body))
    ensures forall c :: c in Fetch(cursor, body) <==> c in body && c.validAddress && AboveCursor(cursor, c)
  {
    SortIsAscending(Filtered(cursor, body));
    forall c
      ensures c in Fetch(cursor, body) <==> c in body && c.validAddress && AboveCursor(cursor, c)
    {
      FilterIsExact(cursor, body, c);
      assert c in Fetch(cursor, body) <==> c in multiset(Filtered(cursor, body));
    }
  }

  // ---- One cycle ----

  datatype HotLead = NotListed | Listed | ListingInactive | ListingFailed

  /** `stop`: the payer is exhausted and could not be recovered. */
  datatype Publish = Published | PublishFailed(stop: bool)

  /** What happens while one contract is handled; a field is used only if asked. */
  datatype Answer = Answer(createThrows: bool, payloadValid: bool, hotLead: HotLead, publish: Publish)

  datatype Config = Config(cap: nat, strict: bool)

  datatype Exit = PayerNotReady | FetchFailed | Completed | CapReached | PayerExhausted | CreateThrew

  /** `cursors` is the history of the cursor, `published` that of successful publishes. */
  datatype State = State(seen: set<Address>, cursor: Stamp, published: seq<Address>, cursors: seq<Stamp>)

  predicate Rejects(cfg: Config, a: Answer) {
    cfg.strict && (!a.payloadValid || a.hotLead.ListingFailed?)
  }

  /** A contract that passes the seen check is marked seen before anything can fail. */
  function Handle(cfg: Config, s: State, c: MirrorContract, a: Answer): State {
    if c.address in s.seen then s
    else
      var marked := s.(seen := s.seen + {c.address});
      if Rejects(cfg, a) || !a.publish.Published? then marked
      else
        var done := marked.(published := s.published + [c.address]);
        if c.created.Missing? then done else done.(cursor := c.created, cursors := s.cursors + [c.created])
  }

  predicate Publishes(cfg: Config, s: State, c: MirrorContract, a: Answer) {
    c.address !in s.seen && !Rejects(cfg, a) && a.publish.Published?
  }

  function Counted(cfg: Config, s: State, c: MirrorContract, a: Answer, processed: nat): nat {
    if Publishes(cfg, s, c, a) then processed + 1 else processed
  }

  predicate Stops(cfg: Config, s: State, c: MirrorContract, a: Answer) {
    c.address !in s.seen && !Rejects(cfg, a) && a.publish == PublishFailed(true)
  }

  /** The cycle from contract `i` on; the last component counts the contracts handled. */
  function Cycle(cfg: Config, s: State, cs: seq<MirrorContract>, answers: nat -> Answer, i: nat,
                 processed: nat): (State, Exit, nat)
    requires i <= |cs|
    decreases |cs| - i
  {
    if i == |cs| then (s, Completed, i)
    else if processed >= cfg.cap then (s, CapReached, i)
    else if answers(i).createThrows then (s, CreateThrew, i)
    else
      var t := Handle(cfg, s, cs[i], answers(i));
      if Stops(cfg, s, cs[i], answers(i)) then (t, PayerExhausted, i + 1)
      else Cycle(cfg, t, cs, answers, i + 1, Counted(cfg, s, cs[i], answers(i), processed))
  }

  /** One call of the cycle: whether the payer preflight succeeds, what the mirror node answers
      (`None`: the fetch throws), and what happens to each contract. */
  datatype Poll = Poll(payerReady: bool, body: Option<seq<MirrorContract>>, answers: nat -> Answer)

  function Discovered(s: State, poll: Poll): seq<MirrorContract> {
    if poll.payerReady && poll.body.Some? then Fetch(s.cursor, poll.body.value) else []
  }

  function PollCycle(cfg: Config, s: State, poll: Poll): (State, Exit, nat) {
    if !poll.payerReady then (s, PayerNotReady, 0)
    else if poll.body.None? then (s, FetchFailed, 0)
    else Cycle(cfg, s, Discovered(s, poll), poll.answers, 0, 0)
  }

  class ScannerAgent {
    var seenContracts: set<Address>
    var lastSeenTimestamp: Stamp
    var published: seq<Address>
    var cursors: seq<Stamp>

    function View(): State
      reads this
    {
      State(seenContracts, lastSeenTimestamp, published, cursors)
    }

    constructor (initial: Stamp)
      ensures View() == State({}, initial, [], [initial])
    {
      seenContracts, lastSeenTimestamp, published, cursors := {}, initial, [], [initial];
    }

    /** The seen check and the mark: one segment, so overlapping cycles cannot both pass. */
    method TakeIfNew(address: Address) returns (isNew: bool)
      modifies this`seenContracts
      ensures isNew <==> address !in old(seenContracts)
      ensures seenContracts == if isNew then old(seenContracts) + {address} else old(seenContracts)
    {
      if address in seenContracts {
        return false;
      }
      seenContracts := seenContracts + {address};
      return true;
    }

    method ScanCycle(cfg: Config, poll: Poll) returns (exit: Exit, handled: nat)
      modifies this
      ensures (View(), exit, handled) == PollCycle(cfg, old(View()), poll)
      ensures handled <= |Discovered(old(View()), poll)|
      ensures exit == PayerNotReady <==> !poll.payerReady
      ensures exit == FetchFailed <==> poll.payerReady && poll.body.None?
      ensures exit == Completed ==> handled == |Discovered(old(View()), poll)|
      ensures exit == CapReached ==> |published| == |old(published)| + cfg.cap
      ensures exit == CreateThrew ==> poll.answers(handled).createThrows
    {
      if !poll.payerReady {
        return PayerNotReady, 0;
      }
      if poll.body.None? {
        return FetchFailed, 0;
      }
      var discovered := Fetch(lastSeenTimestamp, poll.body.value);
      CycleCounts(cfg, View(), discovered, poll.answers, 0, 0);
      var answers := poll.answers;
      var processed := 0;
      ghost var start := View();
      for i := 0 to |discovered|
        invariant Cycle(cfg, start, discovered, answers, 0, 0) == Cycle(cfg, View(), discovered, answers, i, processed)
      {
        if processed >= cfg.cap {
          return CapReached, i;
        }
        var c, a := discovered[i], answers(i);
        if a.createThrows {
          return CreateThrew, i;
        }
        var isNew := TakeIfNew(c.address);
        if !isNew {
          continue;
        }
        if !a.payloadValid && cfg.strict {
          continue;
        }
        if a.hotLead.ListingFailed? && cfg.strict {
          continue;
        }
        if a.publish.PublishFailed? {
          if a.publish.stop {
            return PayerExhausted, i + 1;
          }
          continue;
        }
        published := published + [c.address];
        processed := processed + 1;
        if !c.created.Missing? {
          lastSeenTimestamp := c.created;
          cursors := cursors + [c.created];
        }
      }
      return Completed, |discovered|;
    }
  }

  // ---- Handled once, decided once ----

  /** A contract that has been marked seen is never decided again: it stays published or stays
      unpublished. */
  lemma {:induction false} CycleKeepsVerdict(cfg: Config, s: State, cs: seq<MirrorContract>, answers: nat -> Answer,
                                             i: nat, processed: nat, a: Address)
    requires i <= |cs| && a in s.seen
    ensures var t := Cycle(cfg, s, cs, answers, i, processed).0;
            a in t.seen && (a in t.published <==> a in s.published)
    decreases |cs| - i
  {
    if i == |cs| || processed >= cfg.cap || answers(i).createThrows {
    } else {
      var t := Handle(cfg, s, cs[i], answers(i));
      if !Stops(cfg, s, cs[i], answers(i)) {
        CycleKeepsVerdict(cfg, t, cs, answers, i + 1, Counted(cfg, s, cs[i], answers(i), processed), a);
      }
    }
  }

  /** The cycle that reaches an unseen contract publishes it if and only if it does so then
      and there: the payload is accepted, the listing does not fail, the publish succeeds. */
  lemma FirstHandlingDecides(cfg: Config, s: State, cs: seq<MirrorContract>, answers: nat -> Answer, i: nat,
                             processed: nat)
    requires i < |cs| && processed < cfg.cap && !answers(i).createThrows
    requires cs[i].address !in s.seen && cs[i].address !in s.published
    ensures var t := Cycle(cfg, s, cs, answers, i, processed).0;
            cs[i].address in t.published <==> WouldPublish(cfg, answers(i))
  {
    var t := Handle(cfg, s, cs[i], answers(i));
    if !Stops(cfg, s, cs[i], answers(i)) {
      CycleKeepsVerdict(cfg, t, cs, answers, i + 1, Counted(cfg, s, cs[i], answers(i), processed), cs[i].address);
    }
  }

  // ---- How a cycle ends, and what it has done by then ----

  /** The contract is published if it is handled: its payload is not rejected and its listing does not
      fail, or the mode is not strict; and the publish succeeds. */
  predicate WouldPublish(cfg: Config, a: Answer) {
    (cfg.strict ==> a.payloadValid && !a.hotLead.ListingFailed?) && a.publish.Published?
  }

  /** Every contract handled is afterwards seen; one whose address was new then is published exactly if its
      answers allow it, and one whose address was not is left alone. */
  lemma {:induction false} HandledAreDecided(cfg: Config, s: State, cs: seq<MirrorContract>, answers: nat -> Answer,
                                             i: nat, processed: nat, k: nat)
    requires i <= |cs| && i <= k < Cycle(cfg, s, cs, answers, i, processed).2 && PublishedOnce(s)
    ensures var (t, exit, handled) := Cycle(cfg, s, cs, answers, i, processed);
            && handled <= |cs| && cs[k].address in t.seen
            && (cs[k].address !in s.seen + AddressesOf(cs[i..k]) ==>
                  (cs[k].address in t.published <==> WouldPublish(cfg, answers(k))))
            && (cs[k].address in s.seen ==> (cs[k].address in t.published <==> cs[k].address in s.published))
    decreases |cs| - i
  {
    var t := Handle(cfg, s, cs[i], answers(i));
    CycleCounts(cfg, s, cs, answers, i, processed);
    if k == i {
      assert cs[i..k] == [];
      if !Stops(cfg, s, cs[i], answers(i)) {
        CycleKeepsVerdict(cfg, t, cs, answers, i + 1, Counted(cfg, s, cs[i], answers(i), processed), cs[i].address);
      }
    } else {
      HandledAreDecided(cfg, t, cs, answers, i + 1, Counted(cfg, s, cs[i], answers(i), processed), k);
      SliceAddresses(cs, i, k);
    }
  }

  lemma SliceAddresses(cs: seq<MirrorContract>, i: nat, k: nat)
    requires i < k <= |cs|
    ensures AddressesOf(cs[i..k]) == {cs[i].address} + AddressesOf(cs[i + 1..k])
  {
    assert cs[i..k] == [cs[i]] + cs[i + 1..k];
    assert forall c :: c in cs[i..k] <==> c == cs[i] || c in cs[i + 1..k];
    forall a | a in {cs[i].address} + AddressesOf(cs[i + 1..k])
      ensures a in AddressesOf(cs[i..k])
    {
      if a == cs[i].address {
        assert cs[i] in cs[i..k];
      } else {
        var c :| c in cs[i + 1..k] && c.address == a;
        assert c in cs[i..k];
      }
    }
  }

  /** What handling one contract does: it is seen afterwards; if it was not before and is published, it joins the
      published ones, and the cursor moves to its timestamp if it has one; otherwise nothing else changes. */
  lemma HandleIs(cfg: Config, s: State, c: MirrorContract, a: Answer)
    ensures var t := Handle(cfg, s, c, a);
            var publishes := c.address !in s.seen && WouldPublish(cfg, a);
            && t.seen == s.seen + {c.address}
            && t.published == s.published + (if publishes then [c.address] else [])
            && t.cursor == (if publishes && !c.created.Missing? then c.created else s.cursor)
            && t.cursors == s.cursors + if publishes && !c.created.Missing? then [c.created] else []
  {
  }

  /** An exhausted payer ends the cycle at the contract at which it shows. */
  lemma {:induction false} ExhaustionStops(cfg: Config, s: State, cs: seq<MirrorContract>, answers: nat -> Answer,
                                           i: nat, processed: nat, k: nat)
    requires i <= |cs| && i <= k < Cycle(cfg, s, cs, answers, i, processed).2
    requires k < |cs| && cs[k].address !in s.seen + AddressesOf(cs[i..k]) && answers(k).publish == PublishFailed(true)
    requires cfg.strict ==> answers(k).payloadValid && !answers(k).hotLead.ListingFailed?
    ensures var (t, exit, handled) := Cycle(cfg, s, cs, answers, i, processed);
            exit == PayerExhausted && handled == k + 1
    decreases |cs| - i
  {
    if k == i {
      assert cs[i..k] == [];
    } else {
      SliceAddresses(cs, i, k);
      ExhaustionStops(cfg, Handle(cfg, s, cs[i], answers(i)), cs, answers, i + 1,
                      Counted(cfg, s, cs[i], answers(i), processed), k);
    }
  }

  /** How many contracts a cycle has handled and published, by its exit: all of them; or as many published
      as the cap allows, with contracts left; or as many as came before one that throws; or up to one at
      which the payer is exhausted. */
  lemma {:induction false} CycleCounts(cfg: Config, s: State, cs: seq<MirrorContract>, answers: nat -> Answer, i: nat,
                                       processed: nat)
    requires i <= |cs|
    ensures var (t, exit, handled) := Cycle(cfg, s, cs, answers, i, processed);
            && i <= handled <= |cs| && |s.published| <= |t.published|
            && exit in {Completed, CapReached, CreateThrew, PayerExhausted}
            && (exit == Completed ==> handled == |cs|)
            && (exit == CapReached ==> handled < |cs|)
            && (exit == CapReached && processed <= cfg.cap ==>
                  |t.published| - |s.published| == cfg.cap - processed)
            && (exit != CapReached && processed < cfg.cap ==>
                  |t.published| - |s.published| <= cfg.cap - processed)
            && (exit == CreateThrew ==> handled < |cs| && answers(handled).createThrows)
            && (exit == PayerExhausted ==> i < handled && answers(handled - 1).publish == PublishFailed(true))
            && (forall k | i <= k < handled :: !answers(k).createThrows)
    decreases |cs| - i
  {
    if i == |cs| || processed >= cfg.cap || answers(i).createThrows {
    } else {
      var t := Handle(cfg, s, cs[i], answers(i));
      if !Stops(cfg, s, cs[i], answers(i)) {
        CycleCounts(cfg, t, cs, answers, i + 1, Counted(cfg, s, cs[i], answers(i), processed));
      }
    }
  }

  /** A cycle goes on as long as it can: it stops short of the last contract only at the cap, at a contract
      whose discovery cannot be built, or when the payer is exhausted. */
  lemma StopsOnlyForAReason(cfg: Config, s: State, cs: seq<MirrorContract>, answers: nat -> Answer)
    requires forall k | 0 <= k < |cs| :: !answers(k).createThrows && answers(k).publish != PublishFailed(true)
    ensures var (t, exit, handled) := Cycle(cfg, s, cs, answers, 0, 0);
            || (exit == Completed && handled == |cs|)
            || (exit == CapReached && |t.published| == |s.published| + cfg.cap)
  {
    CycleCounts(cfg, s, cs, answers, 0, 0);
  }

  // ---- Which contracts a cycle can drop unhandled ----

  /** Marked seen, or still ahead of the cursor and so fetched again. */
  predicate SeenOrAhead(s: State, c: MirrorContract) {
    c.address in s.seen || AboveCursor(s.cursor, c)
  }

  function AddressesOf(cs: seq<MirrorContract>): set<Address> {
    set c | c in cs :: c.address
  }

  /** Publishing contract `i` can move the cursor past contract `k`, not yet seen then. */
  predicate Threat(s: State, cs: seq<MirrorContract>, i: nat, k: nat) {
    && i < k < |cs|
    && cs[i].address !in s.seen + AddressesOf(cs[..i])
    && cs[k].address !in s.seen + AddressesOf(cs[..i + 1])
    && !cs[i].created.Missing? && !AboveCursor(cs[i].created, cs[k])
  }

  ghost predicate NoThreat(s: State, cs: seq<MirrorContract>) {
    forall i, k | 0 <= i < k < |cs| :: !Threat(s, cs, i, k)
  }

  lemma AddressesOfNext(cs: seq<MirrorContract>, i: nat)
    requires i < |cs|
    ensures AddressesOf(cs[..i + 1]) == AddressesOf(cs[..i]) + {cs[i].address}
  {
    assert cs[..i + 1] == cs[..i] + [cs[i]];
    assert forall c :: c in cs[..i + 1] <==> c in cs[..i] || c == cs[i];
    forall a | a in AddressesOf(cs[..i]) + {cs[i].address}
      ensures a in AddressesOf(cs[..i + 1])
    {
      if a == cs[i].address {
        assert cs[i] in cs[..i + 1];
      } else {
        var c :| c in cs[..i] && c.address == a;
        assert c in cs[..i + 1];
      }
    }
  }

  /** `start` is where the cycle began; its first `i` contracts have been handled. */
  ghost predicate HandledUpTo(start: State, s: State, cs: seq<MirrorContract>, i: nat)
    requires i <= |cs|
  {
    s.seen == start.seen + AddressesOf(cs[..i])
  }

  lemma HandleKeepsAhead(cfg: Config, start: State, s: State, cs: seq<MirrorContract>, a: Answer, i: nat)
    requires i < |cs| && NoThreat(start, cs) && HandledUpTo(start, s, cs, i)
    requires forall k | 0 <= k < |cs| :: SeenOrAhead(s, cs[k])
    ensures HandledUpTo(start, Handle(cfg, s, cs[i], a), cs, i + 1)
    ensures forall k | 0 <= k < |cs| :: SeenOrAhead(Handle(cfg, s, cs[i], a), cs[k])
  {
    var t := Handle(cfg, s, cs[i], a);
    AddressesOfNext(cs, i);
    forall k | 0 <= k < |cs|
      ensures SeenOrAhead(t, cs[k])
    {
      assert SeenOrAhead(s, cs[k]);
      if cs[k].address !in t.seen && t.cursor != s.cursor {
        SeenInPrefix(cs, k, i + 1);
        assert !Threat(start, cs, i, k);
      }
    }
  }

  lemma SeenInPrefix(cs: seq<MirrorContract>, k: nat, n: nat)
    requires k < |cs| && n <= |cs|
    ensures k < n ==> cs[k].address in AddressesOf(cs[..n])
  {
    if k < n {
      assert cs[..n][k] == cs[k];
    }
  }

  lemma {:induction false} CycleLosesNothing(cfg: Config, start: State, s: State, cs: seq<MirrorContract>,
                                             answers: nat -> Answer, i: nat, processed: nat)
    requires i <= |cs| && NoThreat(start, cs) && HandledUpTo(start, s, cs, i)
    requires forall k | 0 <= k < |cs| :: SeenOrAhead(s, cs[k])
    ensures forall k | 0 <= k < |cs| :: SeenOrAhead(Cycle(cfg, s, cs, answers, i, processed).0, cs[k])
    decreases |cs| - i
  {
    if i == |cs| || processed >= cfg.cap || answers(i).createThrows {
    } else {
      var t := Handle(cfg, s, cs[i], answers(i));
      HandleKeepsAhead(cfg, start, s, cs, answers(i), i);
      if !Stops(cfg, s, cs[i], answers(i)) {
        CycleLosesNothing(cfg, start, t, cs, answers, i + 1, Counted(cfg, s, cs[i], answers(i), processed));
      }
    }
  }

  /** Every contract has a positive timestamp, later than that of the one before it. */
  predicate DistinctTimes(cs: seq<MirrorContract>) {
    && (forall i | 0 <= i < |cs| :: cs[i].created.Nanos? && cs[i].created.value > 0)
    && (forall i, k | 0 <= i < k < |cs| :: cs[i].created.value < cs[k].created.value)
  }

  /** The cursor's history rises strictly and ends at the present cursor. */
  predicate Rising(s: State) {
    && s.cursors != [] && s.cursor == s.cursors[|s.cursors| - 1]
    && (forall i | 0 <= i < |s.cursors| :: s.cursors[i].Nanos? && s.cursors[i].value > 0)
    && (forall i, k | 0 <= i < k < |s.cursors| :: s.cursors[i].value < s.cursors[k].value)
  }

  lemma {:induction false} CycleRaisesCursor(cfg: Config, s: State, cs: seq<MirrorContract>, answers: nat -> Answer,
                                             i: nat, processed: nat)
    requires i <= |cs| && DistinctTimes(cs) && Rising(s)
    requires forall k | i <= k < |cs| :: AboveCursor(s.cursor, cs[k])
    ensures var t := Cycle(cfg, s, cs, answers, i, processed).0;
            Rising(t) && s.cursors <= t.cursors
    decreases |cs| - i
  {
    if i == |cs| || processed >= cfg.cap || answers(i).createThrows {
    } else {
      var t := Handle(cfg, s, cs[i], answers(i));
      assert Rising(t) && s.cursors <= t.cursors;
      if !Stops(cfg, s, cs[i], answers(i)) {
        CycleRaisesCursor(cfg, t, cs, answers, i + 1, Counted(cfg, s, cs[i], answers(i), processed));
      }
    }
  }

  /** Published contracts are seen ones and differ from each other. */
  predicate PublishedOnce(s: State) {
    && (forall i | 0 <= i < |s.published| :: s.published[i] in s.seen)
    && (forall i, k | 0 <= i < k < |s.published| :: s.published[i] != s.published[k])
  }

  lemma {:induction false} CyclePublishesOnce(cfg: Config, s: State, cs: seq<MirrorContract>, answers: nat -> Answer,
                                              i: nat, processed: nat)
    requires i <= |cs| && PublishedOnce(s) && processed <= cfg.cap
    ensures var t := Cycle(cfg, s, cs, answers, i, processed).0;
            PublishedOnce(t) && s.seen <= t.seen && s.published <= t.published
            && |t.published| - |s.published| <= cfg.cap - processed
    decreases |cs| - i
  {
    if i == |cs| || processed >= cfg.cap || answers(i).createThrows {
    } else {
      var t := Handle(cfg, s, cs[i], answers(i));
      if !Stops(cfg, s, cs[i], answers(i)) {
        CyclePublishesOnce(cfg, t, cs, answers, i + 1, Counted(cfg, s, cs[i], answers(i), processed));
      }
    }
  }

  // ---- A process of cycles, one after another ----

  function AfterPoll(cfg: Config, s: State, poll: Poll): State {
    PollCycle(cfg, s, poll).0
  }

  function AfterPolls(cfg: Config, s: State, polls: seq<Poll>): State
    decreases |polls|
  {
    if polls == [] then s else AfterPolls(cfg, AfterPoll(cfg, s, polls[0]), polls[1..])
  }

  /** What each poll fetches carries distinct timestamps. */
  predicate TimesDistinctThroughout(cfg: Config, s: State, polls: seq<Poll>)
    decreases |polls|
  {
    polls == [] || (DistinctTimes(Discovered(s, polls[0]))
                    && TimesDistinctThroughout(cfg, AfterPoll(cfg, s, polls[0]), polls[1..]))
  }

  lemma DiscoveredAboveCursor(s: State, poll: Poll)
    ensures Ascending(Discovered(s, poll))
    ensures forall k | 0 <= k < |Discovered(s, poll)| :: AboveCursor(s.cursor, Discovered(s, poll)[k])
  {
    if poll.payerReady && poll.body.Some? {
      FetchIsExact(s.cursor, poll.body.value);
    }
    forall k | 0 <= k < |Discovered(s, poll)|
      ensures AboveCursor(s.cursor, Discovered(s, poll)[k])
    {
      assert Discovered(s, poll)[k] in Discovered(s, poll);
    }
  }

  /** One poll, whatever its exit, if no publish threatens another contract: everything it
      fetched is afterwards marked seen or still above the cursor. */
  lemma PollLosesNothing(cfg: Config, s: State, poll: Poll)
    requires NoThreat(s, Discovered(s, poll))
    ensures forall k | 0 <= k < |Discovered(s, poll)| :: SeenOrAhead(AfterPoll(cfg, s, poll), Discovered(s, poll)[k])
  {
    var cs := Discovered(s, poll);
    DiscoveredAboveCursor(s, poll);
    assert cs[..0] == [];
    CycleLosesNothing(cfg, s, s, cs, poll.answers, 0, 0);
  }

  /** Over the whole process of non-overlapping cycles no address is published twice. */
  lemma {:induction false} PublishedOnceThroughout(cfg: Config, s: State, polls: seq<Poll>)
    requires PublishedOnce(s)
    ensures PublishedOnce(AfterPolls(cfg, s, polls))
    decreases |polls|
  {
    if polls == [] {
    } else {
      CyclePublishesOnce(cfg, s, Discovered(s, polls[0]), polls[0].answers, 0, 0);
      PublishedOnceThroughout(cfg, AfterPoll(cfg, s, polls[0]), polls[1..]);
    }
  }

  /** With distinct timestamps the cursor rises strictly at each update of the process. */
  lemma {:induction false} CursorRisesThroughout(cfg: Config, s: State, polls: seq<Poll>)
    requires Rising(s) && TimesDistinctThroughout(cfg, s, polls)
    ensures Rising(AfterPolls(cfg, s, polls)) && s.cursors <= AfterPolls(cfg, s, polls).cursors
    decreases |polls|
  {
    if polls == [] {
    } else {
      DiscoveredAboveCursor(s, polls[0]);
      CycleRaisesCursor(cfg, s, Discovered(s, polls[0]), polls[0].answers, 0, 0);
      CursorRisesThroughout(cfg, AfterPoll(cfg, s, polls[0]), polls[1..]);
    }
  }

  lemma {:induction false} VerdictStands(cfg: Config, s: State, polls: seq<Poll>, a: Address)
    requires a in s.seen
    ensures a in AfterPolls(cfg, s, polls).published <==> a in s.published
    decreases |polls|
  {
    if polls == [] {
    } else {
      CycleKeepsVerdict(cfg, s, Discovered(s, polls[0]), polls[0].answers, 0, 0, a);
      VerdictStands(cfg, AfterPoll(cfg, s, polls[0]), polls[1..], a);
    }
  }

  /** Whether an address is ever published is decided by the poll that first marks it seen: if
      its publish fails there, or it is rejected there, no later poll publishes it. */
  lemma EverPublishedIff(cfg: Config, s: State, poll: Poll, later: seq<Poll>, a: Address)
    requires a !in s.seen && a in AfterPoll(cfg, s, poll).seen
    ensures a in AfterPolls(cfg, s, [poll] + later).published <==> a in AfterPoll(cfg, s, poll).published
  {
    assert ([poll] + later)[1..] == later;
    VerdictStands(cfg, AfterPoll(cfg, s, poll), later, a);
  }

  /** The oldest fetched contract blocks all others as long as building its discovery throws:
      nothing is marked, published or passed by the cursor, in however many polls. Polls go on
      only when the interval timer started them; if the very first cycle throws, the process
      ends. */
  lemma {:induction false} ThrowingHeadBlocks(cfg: Config, s: State, polls: seq<Poll>)
    requires forall n | 0 <= n < |polls| && Discovered(s, polls[n]) != [] :: polls[n].answers(0).createThrows
    ensures AfterPolls(cfg, s, polls) == s
    decreases |polls|
  {
    if polls == [] {
    } else {
      assert AfterPoll(cfg, s, polls[0]) == s;
      assert forall n | 0 <= n < |polls[1..]| :: polls[1..][n] == polls[n + 1];
      ThrowingHeadBlocks(cfg, s, polls[1..]);
    }
  }

  // ---- Exactly when nothing can be lost ----

  /** A cycle that publishes contract `n` only, and stops before the next. */
  function OnlyPublish(n: nat): nat -> Answer {
    k => Answer(k == n + 1, true, NotListed, if k == n then Published else PublishFailed(false))
  }

  lemma {:induction false} ThreatenedIsLost(cfg: Config, start: State, s: State, cs: seq<MirrorContract>, n: nat,
                                            k: nat, i: nat)
    requires cfg.cap >= 1 && i <= n < k < |cs| && Threat(start, cs, n, k) && HandledUpTo(start, s, cs, i)
    ensures !SeenOrAhead(Cycle(cfg, s, cs, OnlyPublish(n), i, 0).0, cs[k])
    decreases n - i
  {
    var t := Handle(cfg, s, cs[i], OnlyPublish(n)(i));
    AddressesOfNext(cs, i);
    if i < n {
      ThreatenedIsLost(cfg, start, t, cs, n, k, i + 1);
    } else {
      assert Cycle(cfg, t, cs, OnlyPublish(n), n + 1, 1).0 == t;
    }
  }

  /** However the contracts fare, each one fetched is afterwards seen or still ahead. */
  ghost predicate NeverLoses(cfg: Config, s: State, body: seq<MirrorContract>) {
    forall answers: nat -> Answer, k | 0 <= k < |Fetch(s.cursor, body)| ::
      SeenOrAhead(AfterPoll(cfg, s, Poll(true, Some(body), answers)), Fetch(s.cursor, body)[k])
  }

  /** Exactness, for every state and every answer of the mirror node: a poll can lose a
      contract if and only if one publish in it threatens another contract. */
  lemma NothingLostIffNoThreat(cfg: Config, s: State, body: seq<MirrorContract>)
    requires cfg.cap >= 1
    ensures NoThreat(s, Fetch(s.cursor, body)) <==> NeverLoses(cfg, s, body)
  {
    var cs := Fetch(s.cursor, body);
    if NoThreat(s, cs) {
      forall answers: nat -> Answer, k | 0 <= k < |cs|
        ensures SeenOrAhead(AfterPoll(cfg, s, Poll(true, Some(body), answers)), cs[k])
      {
        PollLosesNothing(cfg, s, Poll(true, Some(body), answers));
      }
    } else {
      var n, k :| 0 <= n < k < |cs| && Threat(s, cs, n, k);
      assert cs[..0] == [];
      ThreatenedIsLost(cfg, s, s, cs, n, k, 0);
      assert !SeenOrAhead(AfterPoll(cfg, s, Poll(true, Some(body), OnlyPublish(n))), cs[k]);
    }
  }

  /** Fetched contracts that are new, dated and listed once. */
  ghost predicate FreshBatch(s: State, cs: seq<MirrorContract>) {
    && (forall k | 0 <= k < |cs| :: cs[k].address !in s.seen && cs[k].created.Nanos? && cs[k].created.value > 0)
    && (forall k, m | 0 <= k < m < |cs| :: cs[k].address != cs[m].address)
  }

  lemma DistinctTimesNoThreat(s: State, cs: seq<MirrorContract>)
    requires DistinctTimes(cs)
    ensures NoThreat(s, cs)
  {
    forall i, k | 0 <= i < k < |cs|
      ensures !Threat(s, cs, i, k)
    {
      assert AboveCursor(cs[i].created, cs[k]);
    }
  }

  lemma SharedTimeThreatens(s: State, cs: seq<MirrorContract>, i: nat, k: nat)
    requires Ascending(cs) && FreshBatch(s, cs) && i < k < |cs| && cs[i].created.value >= cs[k].created.value
    ensures Threat(s, cs, i, k)
  {
    assert SortKey(cs[i]) <= SortKey(cs[k]);
    forall n | n == i || n == k
      ensures cs[n].address !in AddressesOf(cs[..i]) && (n == k ==> cs[n].address !in AddressesOf(cs[..i + 1]))
    {
      forall c | c in cs[..i + 1]
        ensures c in cs[..i] || n == k ==> c.address != cs[n].address
      {
        var m :| 0 <= m < i + 1 && cs[..i + 1][m] == c;
        if c in cs[..i] {
          var l :| 0 <= l < i && cs[..i][l] == c;
          assert cs[l].address != cs[n].address;
        }
      }
    }
  }

  /** For new, dated contracts listed once this means: if and only if no two of them share a
      timestamp. */
  lemma NothingLostIffDistinctTimes(cfg: Config, s: State, body: seq<MirrorContract>)
    requires cfg.cap >= 1 && FreshBatch(s, Fetch(s.cursor, body))
    ensures DistinctTimes(Fetch(s.cursor, body)) <==> NeverLoses(cfg, s, body)
  {
    var cs := Fetch(s.cursor, body);
    NothingLostIffNoThreat(cfg, s, body);
    FetchIsExact(s.cursor, body);
    if DistinctTimes(cs) {
      DistinctTimesNoThreat(s, cs);
    } else {
      var i, k :| 0 <= i < k < |cs| && cs[i].created.value >= cs[k].created.value;
      SharedTimeThreatens(s, cs, i, k);
    }
  }
}
