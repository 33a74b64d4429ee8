/**
 The donor top-up allocators: GUARD for bid collateral and HBAR for transaction fees. Both
 walk a list of donor wallets, take from each what it has above a reserve, at most a cap
 and at most what is still missing to a target, and stop once the requirement is met. Every
 balance read and every transfer may fail, a transfer also after it has taken effect.
 */
module TopUp {
  import opened TokenLedger
  import opened Wrappers

  /** `cap` 0 means no cap. */
  datatype Config = Config(reserve: nat, cap: nat)

  /** How a transfer to the recipient goes: it never takes effect; it does but waiting for it
      throws; it does and is confirmed but the balance re-read throws; all goes well. */
  datatype Send = NotSent | SentUnconfirmed | SentUnread | SentAndRead

  datatype Donor = Donor(address: Account, usable: bool, readable: bool, send: Send)

  datatype Progress = Progress(ledger: Ledger, current: nat, toppedUp: nat, used: set<Account>)

  function Min(a: nat, b: nat): nat {
    if a < b then a else b
  }

  function Available(cfg: Config, balance: nat): nat {
    if balance > cfg.reserve then balance - cfg.reserve else 0
  }

  /** The most a donor can give in one transfer. */
  function Offer(cfg: Config, balance: nat): nat {
    if cfg.cap > 0 then Min(cfg.cap, Available(cfg, balance)) else Available(cfg, balance)
  }

  function Amount(cfg: Config, target: nat, p: Progress, donor: Account): nat {
    if p.current >= target then 0 else Min(target - p.current, Offer(cfg, Balance(p.ledger, donor)))
  }

  /** One pass through the body of the donor loop. */
  function Visit(cfg: Config, recipient: Account, target: nat, p: Progress, d: Donor): Progress {
    if !d.usable || d.address == recipient then p
    else
      var q := p.(used := p.used + {d.address});
      var amount := Amount(cfg, target, p, d.address);
      if !d.readable || amount == 0 || d.send.NotSent? then q
      else
        var moved := q.(ledger := Move(p.ledger, d.address, recipient, amount));
        match d.send
        case SentUnconfirmed => moved
        case SentUnread => moved.(toppedUp := p.toppedUp + amount)
        case SentAndRead =>
          moved.(toppedUp := p.toppedUp + amount, current := Balance(moved.ledger, recipient))
  }

  function VisitAll(cfg: Config, recipient: Account, required: nat, target: nat, p: Progress, ds: seq<Donor>): Progress
    decreases |ds|
  {
    if ds == [] || p.current >= required then p
    else VisitAll(cfg, recipient, required, target, Visit(cfg, recipient, target, p, ds[0]), ds[1..])
  }

  /** Where the loop begins. */
  function Start(recipient: Account, before: Ledger): Progress {
    Progress(before, Balance(before, recipient), 0, {})
  }

  /** How many donors the loop reaches before it stops. */
  function Reached(cfg: Config, recipient: Account, required: nat, target: nat, p: Progress, ds: seq<Donor>): (k: nat)
    ensures k <= |ds|
    decreases |ds|
  {
    if ds == [] || p.current >= required then 0
    else 1 + Reached(cfg, recipient, required, target, Visit(cfg, recipient, target, p, ds[0]), ds[1..])
  }

  // ---- Whatever fails: conservation, reserves, honest accounting, no overshoot ----

  predicate KnowsAllParties(accounts: seq<Account>, recipient: Account, ds: seq<Donor>) {
    Distinct(accounts) && recipient in accounts && forall i | 0 <= i < |ds| :: ds[i].address in accounts
  }

  lemma {:induction false} Conserves(cfg: Config, recipient: Account, required: nat, target: nat, p: Progress,
                                     ds: seq<Donor>, accounts: seq<Account>)
    requires KnowsAllParties(accounts, recipient, ds)
    ensures Total(VisitAll(cfg, recipient, required, target, p, ds).ledger, accounts) == Total(p.ledger, accounts)
    decreases |ds|
  {
    if ds == [] || p.current >= required {
    } else {
      var q := Visit(cfg, recipient, target, p, ds[0]);
      if q.ledger != p.ledger {
        MoveKeepsTotal(p.ledger, ds[0].address, recipient, Amount(cfg, target, p, ds[0].address), accounts);
      }
      Conserves(cfg, recipient, required, target, q, ds[1..], accounts);
    }
  }

  /** No account but the recipient ends below the lesser of its start and the reserve. */
  lemma {:induction false} KeepsReserves(cfg: Config, recipient: Account, required: nat, target: nat, p: Progress,
                                         ds: seq<Donor>, a: Account)
    requires a != recipient
    ensures var q := VisitAll(cfg, recipient, required, target, p, ds);
            Balance(q.ledger, a) >= Min(Balance(p.ledger, a), cfg.reserve)
    decreases |ds|
  {
    if ds == [] || p.current >= required {
    } else {
      KeepsReserves(cfg, recipient, required, target, Visit(cfg, recipient, target, p, ds[0]), ds[1..], a);
    }
  }

  /** The reported top-up never exceeds what arrived, and the balance the loop works with
      never exceeds the true one. */
  lemma {:induction false} ReportsHonestly(cfg: Config, recipient: Account, required: nat, target: nat, p: Progress,
                                           ds: seq<Donor>)
    requires p.current <= Balance(p.ledger, recipient)
    ensures var q := VisitAll(cfg, recipient, required, target, p, ds);
            && q.current <= Balance(q.ledger, recipient)
            && q.toppedUp - p.toppedUp <= Balance(q.ledger, recipient) - Balance(p.ledger, recipient)
    decreases |ds|
  {
    if ds == [] || p.current >= required {
    } else {
      ReportsHonestly(cfg, recipient, required, target, Visit(cfg, recipient, target, p, ds[0]), ds[1..]);
    }
  }

  // ---- Who gives, and how much ----

  /** A donor that is asked, answers, and whose transfer takes effect. */
  predicate Gives(recipient: Account, d: Donor) {
    d.usable && d.readable && d.address != recipient && !d.send.NotSent?
  }

  /** The cap once for each time the account is listed as a donor that gives. */
  function CapOf(cap: nat, recipient: Account, a: Account, ds: seq<Donor>): nat {
    if ds == [] then 0
    else (if ds[0].address == a && Gives(recipient, ds[0]) then cap else 0) + CapOf(cap, recipient, a, ds[1..])
  }

  /** One visit costs at most the cap, at most what is missing to the target, and only the donor. */
  lemma VisitCosts(cfg: Config, recipient: Account, target: nat, p: Progress, d: Donor, a: Account)
    requires a != recipient
    ensures var cost := Balance(p.ledger, a) - Balance(Visit(cfg, recipient, target, p, d).ledger, a);
            && cost >= 0
            && (a != d.address || !Gives(recipient, d) ==> cost == 0)
            && (cfg.cap > 0 ==> cost <= cfg.cap)
            && (cost > 0 ==> p.current + cost <= target)
  {
  }

  /** Nobody but a donor that gives loses anything, and with a cap nobody gives more than the cap for each
      time it is listed. */
  lemma {:induction false} CapsAreKept(cfg: Config, recipient: Account, required: nat, target: nat, p: Progress,
                                       ds: seq<Donor>, a: Account)
    requires a != recipient
    ensures var cost := Balance(p.ledger, a)
                        - Balance(VisitAll(cfg, recipient, required, target, p, ds).ledger, a);
            && cost >= 0
            && ((forall i | 0 <= i < |ds| && Gives(recipient, ds[i]) :: ds[i].address != a) ==> cost == 0)
            && (cfg.cap > 0 ==> cost <= CapOf(cfg.cap, recipient, a, ds))
    decreases |ds|
  {
    if ds == [] || p.current >= required {
    } else {
      VisitCosts(cfg, recipient, target, p, ds[0], a);
      CapsAreKept(cfg, recipient, required, target, Visit(cfg, recipient, target, p, ds[0]), ds[1..], a);
      assert forall i | 0 <= i < |ds[1..]| :: ds[1..][i] == ds[i + 1];
    }
  }

  lemma {:induction false} CapOfUnlisted(cap: nat, recipient: Account, a: Account, ds: seq<Donor>)
    requires forall i | 0 <= i < |ds| :: ds[i].address != a
    ensures CapOf(cap, recipient, a, ds) == 0
  {
    if ds == [] {
    } else {
      assert forall i | 0 <= i < |ds[1..]| :: ds[1..][i] == ds[i + 1];
      CapOfUnlisted(cap, recipient, a, ds[1..]);
    }
  }

  /** A donor listed once gives at most the cap. */
  lemma {:induction false} CapOfListedOnce(cap: nat, recipient: Account, a: Account, ds: seq<Donor>)
    requires DistinctAddresses(ds)
    ensures CapOf(cap, recipient, a, ds) <= cap
  {
    if ds == [] {
    } else {
      assert forall i | 0 <= i < |ds[1..]| :: ds[1..][i] == ds[i + 1];
      if ds[0].address == a {
        CapOfUnlisted(cap, recipient, a, ds[1..]);
      } else {
        CapOfListedOnce(cap, recipient, a, ds[1..]);
      }
    }
  }

  /** One visit in terms of balances: what is missing to the target moves, as far as the donor's share
      goes; it counts as topped up unless waiting for it throws; the balance worked with is read
      anew if nothing throws; and a usable donor counts as used, whatever happens. */
  lemma VisitIs(cfg: Config, recipient: Account, target: nat, p: Progress, d: Donor)
    ensures var q := Visit(cfg, recipient, target, p, d);
            var missing := if p.current < target then target - p.current else 0;
            var moved := if Gives(recipient, d) then Min(missing, Share(cfg, p.ledger, recipient, d)) else 0;
            && (d.address != recipient ==> Balance(q.ledger, d.address) == Balance(p.ledger, d.address) - moved)
            && Balance(q.ledger, recipient) == Balance(p.ledger, recipient) + moved
            && q.toppedUp == p.toppedUp + (if d.send.SentUnconfirmed? then 0 else moved)
            && q.current == (if moved > 0 && d.send.SentAndRead? then Balance(q.ledger, recipient) else p.current)
            && q.used == p.used + if d.usable && d.address != recipient then {d.address} else {}
  {
  }

  predicate FailsAfterEffect(d: Donor) {
    d.send.SentUnconfirmed? || d.send.SentUnread?
  }

  /** What was sent by calls that failed after taking effect, so that the loop did not see it. */
  function Unseen(cfg: Config, recipient: Account, required: nat, target: nat, p: Progress, ds: seq<Donor>): nat
    decreases |ds|
  {
    if ds == [] || p.current >= required then 0
    else
      var q := Visit(cfg, recipient, target, p, ds[0]);
      (if FailsAfterEffect(ds[0]) && q.ledger != p.ledger then Amount(cfg, target, p, ds[0].address) else 0)
      + Unseen(cfg, recipient, required, target, q, ds[1..])
  }

  function Max(a: nat, b: nat): nat {
    if a > b then a else b
  }

  lemma {:induction false} OvershootBound(cfg: Config, recipient: Account, required: nat, target: nat, p: Progress,
                                          ds: seq<Donor>, start: nat, unseen: nat)
    requires required <= target
    requires p.current <= Balance(p.ledger, recipient) <= Max(start, target) + unseen
    requires Balance(p.ledger, recipient) - p.current <= unseen
    ensures Balance(VisitAll(cfg, recipient, required, target, p, ds).ledger, recipient)
            <= Max(start, target) + unseen + Unseen(cfg, recipient, required, target, p, ds)
    decreases |ds|
  {
    if ds == [] || p.current >= required {
    } else {
      var q := Visit(cfg, recipient, target, p, ds[0]);
      var lost := if FailsAfterEffect(ds[0]) && q.ledger != p.ledger then Amount(cfg, target, p, ds[0].address) else 0;
      OvershootBound(cfg, recipient, required, target, q, ds[1..], start, unseen + lost);
    }
  }

  lemma {:induction false} NothingUnseen(cfg: Config, recipient: Account, required: nat, target: nat, p: Progress,
                                         ds: seq<Donor>)
    requires forall i | 0 <= i < |ds| :: !FailsAfterEffect(ds[i])
    ensures Unseen(cfg, recipient, required, target, p, ds) == 0
    decreases |ds|
  {
    if ds == [] || p.current >= required {
    } else {
      assert !FailsAfterEffect(ds[0]);
      assert forall i | 0 <= i < |ds[1..]| :: ds[1..][i] == ds[i + 1];
      NothingUnseen(cfg, recipient, required, target, Visit(cfg, recipient, target, p, ds[0]), ds[1..]);
    }
  }

  /** The recipient ends at most at the greater of its start and the target, plus whatever
      was sent by calls that failed after taking effect; so if none did, not above it. */
  lemma NoOvershoot(cfg: Config, recipient: Account, required: nat, target: nat, ledger: Ledger, ds: seq<Donor>)
    requires required <= target
    ensures var start := Start(recipient, ledger);
            var final := Balance(VisitAll(cfg, recipient, required, target, start, ds).ledger, recipient);
            var bound := Max(Balance(ledger, recipient), target);
            && final <= bound + Unseen(cfg, recipient, required, target, start, ds)
            && ((forall i | 0 <= i < |ds| :: !FailsAfterEffect(ds[i])) ==> final <= bound)
  {
    var start := Start(recipient, ledger);
    OvershootBound(cfg, recipient, required, target, start, ds, start.current, 0);
    if forall i | 0 <= i < |ds| :: !FailsAfterEffect(ds[i]) {
      NothingUnseen(cfg, recipient, required, target, start, ds);
    }
  }

  /** If waiting for a transfer never throws, all that arrived is reported as topped up. */
  lemma {:induction false} ReportsWhatArrived(cfg: Config, recipient: Account, required: nat, target: nat,
                                              p: Progress, ds: seq<Donor>)
    requires forall i | 0 <= i < |ds| :: !ds[i].send.SentUnconfirmed?
    ensures var q := VisitAll(cfg, recipient, required, target, p, ds);
            q.toppedUp - p.toppedUp == Balance(q.ledger, recipient) - Balance(p.ledger, recipient)
    decreases |ds|
  {
    if ds == [] || p.current >= required {
    } else {
      assert !ds[0].send.SentUnconfirmed?;
      assert forall i | 0 <= i < |ds[1..]| :: ds[1..][i] == ds[i + 1];
      ReportsWhatArrived(cfg, recipient, required, target, Visit(cfg, recipient, target, p, ds[0]), ds[1..]);
    }
  }

  /** If no call fails after taking effect, the report is exact. */
  lemma {:induction false} ReportsExactly(cfg: Config, recipient: Account, required: nat, target: nat, p: Progress,
                                          ds: seq<Donor>)
    requires p.current == Balance(p.ledger, recipient)
    requires forall i | 0 <= i < |ds| :: !FailsAfterEffect(ds[i])
    ensures var q := VisitAll(cfg, recipient, required, target, p, ds);
            && q.current == Balance(q.ledger, recipient)
            && q.toppedUp - p.toppedUp == Balance(q.ledger, recipient) - Balance(p.ledger, recipient)
    decreases |ds|
  {
    if ds == [] || p.current >= required {
    } else {
      assert !FailsAfterEffect(ds[0]);
      assert forall i | 0 <= i < |ds[1..]| :: ds[1..][i] == ds[i + 1];
      ReportsExactly(cfg, recipient, required, target, Visit(cfg, recipient, target, p, ds[0]), ds[1..]);
    }
  }

  /** The usable donors other than the recipient. */
  function Addresses(recipient: Account, ds: seq<Donor>): set<Account> {
    if ds == [] then {}
    else (if ds[0].usable && ds[0].address != recipient then {ds[0].address} else {}) + Addresses(recipient, ds[1..])
  }

  /** The donors reported as used are the usable ones that the loop reached. */
  lemma {:induction false} UsedAreReached(cfg: Config, recipient: Account, required: nat, target: nat, p: Progress,
                                          ds: seq<Donor>)
    ensures var k := Reached(cfg, recipient, required, target, p, ds);
            k <= |ds| && VisitAll(cfg, recipient, required, target, p, ds).used
                == p.used + Addresses(recipient, ds[..k])
    decreases |ds|
  {
    var k := Reached(cfg, recipient, required, target, p, ds);
    if ds == [] || p.current >= required {
      assert ds[..k] == [];
    } else {
      var q := Visit(cfg, recipient, target, p, ds[0]);
      UsedAreReached(cfg, recipient, required, target, q, ds[1..]);
      assert ds[..k][0] == ds[0] && ds[..k][1..] == ds[1..][..k - 1];
    }
  }

  // ---- When no call fails: exact feasibility ----

  predicate Healthy(ds: seq<Donor>) {
    forall i | 0 <= i < |ds| :: ds[i].usable && ds[i].readable && ds[i].send.SentAndRead?
  }

  predicate DistinctAddresses(ds: seq<Donor>) {
    forall i, k | 0 <= i < k < |ds| :: ds[i].address != ds[k].address
  }

  /** What a donor could give: its balance above the reserve, but at most the cap. */
  function Share(cfg: Config, ledger: Ledger, recipient: Account, d: Donor): nat {
    var surplus := Balance(ledger, d.address) - cfg.reserve;
    if d.address == recipient || surplus <= 0 then 0
    else if cfg.cap > 0 && surplus > cfg.cap then cfg.cap
    else surplus
  }

  /** What the donors could give together, each once. */
  function Capacity(cfg: Config, ledger: Ledger, recipient: Account, ds: seq<Donor>): nat {
    if ds == [] then 0 else Share(cfg, ledger, recipient, ds[0]) + Capacity(cfg, ledger, recipient, ds[1..])
  }

  lemma {:induction false} CapacityUntouched(cfg: Config, before: Ledger, after: Ledger, recipient: Account,
                                             ds: seq<Donor>)
    requires forall i | 0 <= i < |ds| && ds[i].address != recipient ::
               Balance(after, ds[i].address) == Balance(before, ds[i].address)
    ensures Capacity(cfg, after, recipient, ds) == Capacity(cfg, before, recipient, ds)
  {
    if ds == [] {
    } else {
      assert forall i | 0 <= i < |ds[1..]| :: ds[1..][i] == ds[i + 1];
      CapacityUntouched(cfg, before, after, recipient, ds[1..]);
    }
  }

  /** A healthy donor adds its whole share, or enough to reach the target. */
  lemma HealthyVisit(cfg: Config, recipient: Account, required: nat, target: nat, p: Progress, ds: seq<Donor>)
    requires ds != [] && Healthy(ds) && DistinctAddresses(ds)
    requires p.current == Balance(p.ledger, recipient) && p.current < required <= target
    ensures var q := Visit(cfg, recipient, target, p, ds[0]);
            && q.current == Balance(q.ledger, recipient)
                == p.current + Min(target - p.current, Share(cfg, p.ledger, recipient, ds[0]))
            && Capacity(cfg, q.ledger, recipient, ds[1..]) == Capacity(cfg, p.ledger, recipient, ds[1..])
            && Healthy(ds[1..]) && DistinctAddresses(ds[1..])
  {
    var q := Visit(cfg, recipient, target, p, ds[0]);
    assert forall i | 0 <= i < |ds[1..]| :: ds[1..][i] == ds[i + 1];
    CapacityUntouched(cfg, p.ledger, q.ledger, recipient, ds[1..]);
  }

  lemma {:induction false} VisitAllIsExact(cfg: Config, recipient: Account, required: nat, target: nat, p: Progress,
                                           ds: seq<Donor>)
    requires Healthy(ds) && DistinctAddresses(ds) && required <= target
    requires p.current == Balance(p.ledger, recipient)
    ensures VisitAll(cfg, recipient, required, target, p, ds).current >= required
            <==> p.current + Capacity(cfg, p.ledger, recipient, ds) >= required
    decreases |ds|
  {
    if ds == [] || p.current >= required {
    } else {
      HealthyVisit(cfg, recipient, required, target, p, ds);
      VisitAllIsExact(cfg, recipient, required, target, Visit(cfg, recipient, target, p, ds[0]), ds[1..]);
    }
  }

  /** The capacity of a prefix, seen before and after its first donor has given. */
  lemma PrefixCapacity(cfg: Config, recipient: Account, required: nat, target: nat, p: Progress, ds: seq<Donor>, i: nat)
    requires ds != [] && Healthy(ds) && DistinctAddresses(ds) && 0 < i <= |ds|
    requires p.current == Balance(p.ledger, recipient) && p.current < required <= target
    ensures var q := Visit(cfg, recipient, target, p, ds[0]);
            Capacity(cfg, p.ledger, recipient, ds[..i])
            == Share(cfg, p.ledger, recipient, ds[0]) + Capacity(cfg, q.ledger, recipient, ds[1..][..i - 1])
  {
    var q := Visit(cfg, recipient, target, p, ds[0]);
    var behind := ds[1..][..i - 1];
    assert ds[..i][1..] == behind;
    assert forall n | 0 <= n < |behind| :: behind[n] == ds[n + 1];
    CapacityUntouched(cfg, p.ledger, q.ledger, recipient, behind);
  }

  /** The loop stops at the shortest prefix of donors that suffices: no shorter one does, and
      donors behind it are not reached. */
  lemma {:induction false} StopsAtShortestPrefix(cfg: Config, recipient: Account, required: nat, target: nat,
                                                 p: Progress, ds: seq<Donor>)
    requires Healthy(ds) && DistinctAddresses(ds) && required <= target
    requires p.current == Balance(p.ledger, recipient)
    ensures var k := Reached(cfg, recipient, required, target, p, ds);
            && k <= |ds|
            && (forall i | 0 <= i < k :: p.current + Capacity(cfg, p.ledger, recipient, ds[..i]) < required)
            && (k < |ds| ==> p.current + Capacity(cfg, p.ledger, recipient, ds[..k]) >= required)
    decreases |ds|
  {
    var k := Reached(cfg, recipient, required, target, p, ds);
    if ds == [] || p.current >= required {
    } else {
      var q := Visit(cfg, recipient, target, p, ds[0]);
      HealthyVisit(cfg, recipient, required, target, p, ds);
      StopsAtShortestPrefix(cfg, recipient, required, target, q, ds[1..]);
      forall i | 0 <= i < k
        ensures p.current + Capacity(cfg, p.ledger, recipient, ds[..i]) < required
      {
        if i > 0 {
          PrefixCapacity(cfg, recipient, required, target, p, ds, i);
          assert q.current + Capacity(cfg, q.ledger, recipient, ds[1..][..i - 1]) < required;
        }
      }
      PrefixCapacity(cfg, recipient, required, target, p, ds, k);
    }
  }

  /** What the first donor gives and what the rest gives add up, up to the target. */
  lemma FirstAndRest(current: nat, target: nat, share: nat, rest: nat)
    requires current <= target
    ensures var q := current + Min(target - current, share);
            Min(target, q + rest) == Min(target, current + (share + rest))
  {
  }

  /** Where the recipient ends, given how many donors are reached and what they could give together. */
  function FinalBalance(have: nat, required: nat, target: nat, capacity: nat): nat {
    if have >= required then have else Min(target, have + capacity)
  }

  lemma FinalAfterFirst(cfg: Config, recipient: Account, required: nat, target: nat, p: Progress, ds: seq<Donor>,
                        k: nat, final: nat)
    requires Healthy(ds) && DistinctAddresses(ds) && 0 < k <= |ds| && p.current < required <= target
    requires p.current == Balance(p.ledger, recipient)
    requires var q := Visit(cfg, recipient, target, p, ds[0]);
             && (q.current >= required ==> k == 1)
             && final == FinalBalance(q.current, required, target,
                                      Capacity(cfg, q.ledger, recipient, ds[1..][..k - 1]))
    ensures final == FinalBalance(p.current, required, target, Capacity(cfg, p.ledger, recipient, ds[..k]))
  {
    var q := Visit(cfg, recipient, target, p, ds[0]);
    HealthyVisit(cfg, recipient, required, target, p, ds);
    PrefixCapacity(cfg, recipient, required, target, p, ds, k);
    FirstAndRest(p.current, target, Share(cfg, p.ledger, recipient, ds[0]),
                 Capacity(cfg, q.ledger, recipient, ds[1..][..k - 1]));
  }

  lemma VisitAllUncons(cfg: Config, recipient: Account, required: nat, target: nat, p: Progress, ds: seq<Donor>)
    requires ds != [] && p.current < required
    ensures var q := Visit(cfg, recipient, target, p, ds[0]);
            && VisitAll(cfg, recipient, required, target, p, ds)
                 == VisitAll(cfg, recipient, required, target, q, ds[1..])
            && Reached(cfg, recipient, required, target, p, ds)
                 == 1 + Reached(cfg, recipient, required, target, q, ds[1..])
            && (q.current >= required ==> Reached(cfg, recipient, required, target, p, ds) == 1)
  {
  }

  /** A start below the requirement ends with all that the donors reached could give, or with the target. */
  lemma {:induction false} EndsWithFinal(cfg: Config, recipient: Account, required: nat, target: nat,
                                         p: Progress, ds: seq<Donor>)
    requires Healthy(ds) && DistinctAddresses(ds) && required <= target
    requires p.current == Balance(p.ledger, recipient)
    ensures var k := Reached(cfg, recipient, required, target, p, ds);
            VisitAll(cfg, recipient, required, target, p, ds).current
            == FinalBalance(p.current, required, target, Capacity(cfg, p.ledger, recipient, ds[..k]))
    decreases |ds|
  {
    if ds == [] || p.current >= required {
      assert ds == [] ==> ds[..Reached(cfg, recipient, required, target, p, ds)] == [];
    } else {
      var q := Visit(cfg, recipient, target, p, ds[0]);
      HealthyVisit(cfg, recipient, required, target, p, ds);
      EndsWithFinal(cfg, recipient, required, target, q, ds[1..]);
      VisitAllUncons(cfg, recipient, required, target, p, ds);
      FinalAfterFirst(cfg, recipient, required, target, p, ds,
                      Reached(cfg, recipient, required, target, p, ds),
                      VisitAll(cfg, recipient, required, target, p, ds).current);
    }
  }

  /** Donors behind the stopping point do not influence the run. */
  lemma {:induction false} IgnoresTheRest(cfg: Config, recipient: Account, required: nat, target: nat, p: Progress,
                                          ds: seq<Donor>)
    ensures var k := Reached(cfg, recipient, required, target, p, ds);
            k <= |ds| && VisitAll(cfg, recipient, required, target, p, ds)
                == VisitAll(cfg, recipient, required, target, p, ds[..k])
    decreases |ds|
  {
    var k := Reached(cfg, recipient, required, target, p, ds);
    if ds == [] || p.current >= required {
    } else {
      IgnoresTheRest(cfg, recipient, required, target, Visit(cfg, recipient, target, p, ds[0]), ds[1..]);
      assert ds[..k][0] == ds[0] && ds[..k][1..] == ds[1..][..k - 1];
    }
  }

  // ---- The order of donors does not matter ----

  lemma {:induction false} CapacityOfPick(cfg: Config, ledger: Ledger, recipient: Account, ds: seq<Donor>, i: nat)
    requires i < |ds|
    ensures Capacity(cfg, ledger, recipient, ds)
            == Share(cfg, ledger, recipient, ds[i]) + Capacity(cfg, ledger, recipient, ds[..i] + ds[i + 1..])
    decreases i
  {
    var rest := ds[..i] + ds[i + 1..];
    if i == 0 {
      assert rest == ds[1..];
    } else {
      assert rest[0] == ds[0] && rest[1..] == ds[1..][..i - 1] + ds[1..][i..];
      CapacityOfPick(cfg, ledger, recipient, ds[1..], i - 1);
    }
  }

  lemma WithoutCommonItem<T>(ds: seq<T>, es: seq<T>, i: nat)
    requires multiset(ds) == multiset(es)
    requires ds != [] && i < |es| && es[i] == ds[0]
    ensures multiset(ds[1..]) == multiset(es[..i] + es[i + 1..])
  {
    assert ds == [ds[0]] + ds[1..];
    assert es == es[..i] + [es[i]] + es[i + 1..];
    assert multiset(ds[1..]) == multiset(ds) - multiset{ds[0]};
    assert multiset(es[..i] + es[i + 1..]) == multiset(es) - multiset{es[i]};
  }

  lemma {:induction false} CapacityIgnoresOrder(cfg: Config, ledger: Ledger, recipient: Account, ds: seq<Donor>,
                                                es: seq<Donor>)
    requires multiset(ds) == multiset(es)
    ensures Capacity(cfg, ledger, recipient, ds) == Capacity(cfg, ledger, recipient, es)
    decreases |ds|
  {
    if ds == [] {
      assert |multiset(es)| == 0;
    } else {
      assert ds[0] in multiset(es);
      var i :| 0 <= i < |es| && es[i] == ds[0];
      WithoutCommonItem(ds, es, i);
      CapacityIgnoresOrder(cfg, ledger, recipient, ds[1..], es[..i] + es[i + 1..]);
      CapacityOfPick(cfg, ledger, recipient, es, i);
    }
  }

  lemma TwiceMeansTwoPlaces<T>(ds: seq<T>, x: T)
    requires multiset(ds)[x] >= 2
    ensures exists i, k :: 0 <= i < k < |ds| && ds[i] == ds[k] == x
  {
    var i :| 0 <= i < |ds| && ds[i] == x;
    var rest := ds[..i] + ds[i + 1..];
    assert ds == ds[..i] + [ds[i]] + ds[i + 1..];
    assert x in multiset(rest);
    var n :| 0 <= n < |rest| && rest[n] == x;
    var k := if n < i then n else n + 1;
    assert ds[k] == x && k != i;
  }

  lemma OccursTwice<T>(es: seq<T>, i: nat, k: nat)
    requires i < k < |es| && es[i] == es[k]
    ensures multiset(es)[es[i]] >= 2
  {
    assert es == es[..k] + [es[k]] + es[k + 1..];
    assert es[..k][i] == es[i];
    assert multiset(es[..k])[es[i]] >= 1;
  }

  /** Whether addresses are distinct does not depend on the order. */
  lemma SameDonorsDistinct(ds: seq<Donor>, es: seq<Donor>)
    requires multiset(ds) == multiset(es) && DistinctAddresses(ds)
    ensures DistinctAddresses(es)
  {
    forall i, k | 0 <= i < k < |es|
      ensures es[i].address != es[k].address
    {
      if es[i] == es[k] {
        OccursTwice(es, i, k);
        TwiceMeansTwoPlaces(ds, es[i]);
      } else {
        assert es[i] in multiset(ds) && es[k] in multiset(ds);
      }
    }
  }

  lemma SameDonorsSameHealth(ds: seq<Donor>, es: seq<Donor>)
    requires multiset(ds) == multiset(es) && Healthy(ds)
    ensures Healthy(es)
  {
    forall i | 0 <= i < |es|
      ensures es[i].usable && es[i].readable && es[i].send.SentAndRead?
    {
      assert es[i] in multiset(ds);
    }
  }

  /** The verdict is the same for every order of the same donors. */
  lemma VerdictIgnoresOrder(cfg: Config, recipient: Account, required: nat, target: nat, ledger: Ledger,
                            ds: seq<Donor>, es: seq<Donor>)
    requires multiset(ds) == multiset(es) && required <= target
    requires Healthy(ds) && DistinctAddresses(ds)
    ensures var start := Start(recipient, ledger);
            VisitAll(cfg, recipient, required, target, start, ds).current >= required
            <==> VisitAll(cfg, recipient, required, target, start, es).current >= required
  {
    var start := Start(recipient, ledger);
    SameDonorsSameHealth(ds, es);
    SameDonorsDistinct(ds, es);
    VisitAllIsExact(cfg, recipient, required, target, start, ds);
    VisitAllIsExact(cfg, recipient, required, target, start, es);
    CapacityIgnoresOrder(cfg, ledger, recipient, ds, es);
  }

  // ---- The allocators ----

  /** The body of the donor loop, moving real balances. */
  method VisitDonor(token: Token, cfg: Config, recipient: Account, target: nat, d: Donor, p: Progress)
    returns (current: nat, toppedUp: nat, used: set<Account>)
    requires p.ledger == token.ledger
    modifies token
    ensures Progress(token.ledger, current, toppedUp, used) == Visit(cfg, recipient, target, p, d)
  {
    current, toppedUp, used := p.current, p.toppedUp, p.used;
    if !d.usable {
      return;
    }
    if d.address == recipient {
      return;
    }
    used := used + {d.address};
    if !d.readable {
      return;
    }
    var donorBalance := Balance(token.ledger, d.address);
    var available := if donorBalance > cfg.reserve then donorBalance - cfg.reserve else 0;
    if available <= 0 {
      return;
    }
    var missing := if target > current then target - current else 0;
    if missing <= 0 {
      return;
    }
    var amount := missing;
    if cfg.cap > 0 && amount > cfg.cap {
      amount := cfg.cap;
    }
    if amount > available {
      amount := available;
    }
    if amount <= 0 || d.send.NotSent? {
      return;
    }
    token.Transfer(d.address, recipient, amount);
    if !d.send.SentUnconfirmed? {
      toppedUp := toppedUp + amount;
      if d.send.SentAndRead? {
        current := Balance(token.ledger, recipient);
      }
    }
  }

  /** The donor loop. */
  method FundFromDonors(token: Token, cfg: Config, recipient: Account, required: nat, target: nat,
                        initial: nat, donors: seq<Donor>)
    returns (current: nat, toppedUp: nat, used: set<Account>)
    modifies token
    ensures Progress(token.ledger, current, toppedUp, used)
            == VisitAll(cfg, recipient, required, target, Progress(old(token.ledger), initial, 0, {}), donors)
  {
    current, toppedUp, used := initial, 0, {};
    ghost var start := Progress(token.ledger, initial, 0, {});
    var i := 0;
    while i < |donors| && current < required
      invariant 0 <= i <= |donors|
      invariant VisitAll(cfg, recipient, required, target, start, donors)
                == VisitAll(cfg, recipient, required, target, Progress(token.ledger, current, toppedUp, used),
                    donors[i..])
    {
      assert donors[i..][0] == donors[i] && donors[i..][1..] == donors[i + 1..];
      current, toppedUp, used :=
        VisitDonor(token, cfg, recipient, target, donors[i], Progress(token.ledger, current, toppedUp, used));
      i := i + 1;
    }
  }

  datatype Reason =
    | Satisfied
    | TopUpUnavailable        // no provider (HBAR only)
    | TopUpDisabled
    | NoDonorsConfigured
    | ShortAfterTopUp

  datatype Result = Result(ok: bool, balance: nat, attempted: bool, toppedUp: nat, reason: Reason, used: set<Account>)

  /** The donors that a run from `before` gets to: those behind them are not contacted. */
  function Contacted(cfg: Config, recipient: Account, required: nat, target: nat, donors: seq<Donor>,
                     before: Ledger): seq<Donor> {
    donors[..Reached(cfg, recipient, required, target, Start(recipient, before), donors)]
  }

  /** What an account other than the recipient may lose: nothing below its reserve, nothing unless it is a
      donor whose transfer takes effect, and at most the cap for each time it is listed. */
  ghost predicate AccountIsSafe(cfg: Config, recipient: Account, donors: seq<Donor>, before: Ledger, after: Ledger,
                                a: Account)
  {
    && Min(Balance(before, a), cfg.reserve) <= Balance(after, a) <= Balance(before, a)
    && ((forall i | 0 <= i < |donors| && Gives(recipient, donors[i]) :: donors[i].address != a) ==>
          Balance(after, a) == Balance(before, a))
    && (cfg.cap > 0 ==> Balance(before, a) - Balance(after, a) <= CapOf(cfg.cap, recipient, a, donors))
    && (cfg.cap > 0 && DistinctAddresses(donors) ==> Balance(before, a) - Balance(after, a) <= cfg.cap)
  }

  /** What both allocators promise, whichever calls fail: `before` and `after` are the true
      ledgers. */
  ghost predicate Promises(cfg: Config, recipient: Account, required: nat, target: nat, donors: seq<Donor>,
                           before: Ledger, after: Ledger, r: Result)
  {
    // the report is honest
    && (r.ok ==> Balance(after, recipient) >= required)
    && (r.ok <==> r.reason.Satisfied?)
    && Balance(before, recipient) + r.toppedUp <= Balance(after, recipient)
    && ((forall i | 0 <= i < |donors| :: !donors[i].send.SentUnconfirmed?) ==>
          Balance(before, recipient) + r.toppedUp == Balance(after, recipient))
    && r.balance <= Balance(after, recipient)
    // nobody else falls below the reserve or gives more than the cap, nothing is created or lost
    && (forall a | a != recipient :: AccountIsSafe(cfg, recipient, donors, before, after, a))
    && (forall accounts | KnowsAllParties(accounts, recipient, donors) ::
        Total(after, accounts) == Total(before, accounts))
    // the target is exceeded at most by what failed after taking effect
    && Balance(after, recipient) <= Max(Balance(before, recipient), target)
                                    + Unseen(cfg, recipient, required, target, Start(recipient, before), donors)
    && ((forall i | 0 <= i < |donors| :: !FailsAfterEffect(donors[i])) ==>
          && Balance(after, recipient) <= Max(Balance(before, recipient), target)
          && r.balance == Balance(after, recipient) == Balance(before, recipient) + r.toppedUp)
    // only the donors it gets to matter
    && (!r.attempted ==>
          after == before && r.used == {} && r.toppedUp == 0 && r.balance == Balance(before, recipient))
    && (r.attempted ==>
          var ds := Contacted(cfg, recipient, required, target, donors, before);
          && r.used == Addresses(recipient, ds)
          && after == VisitAll(cfg, recipient, required, target, Start(recipient, before), ds).ledger)
  }

  /** With `k` donors contacted: success is exactly feasibility, in whatever order the donors are
      listed, those contacted are the shortest prefix that suffices, and what they could give has
      arrived, up to the target. */
  ghost predicate ExactAt(cfg: Config, recipient: Account, required: nat, target: nat, donors: seq<Donor>,
                          before: Ledger, k: nat, r: Result)
    requires k <= |donors|
  {
    var have := Balance(before, recipient);
    && (forall es | multiset(es) == multiset(donors) ::
          r.ok <==> have + Capacity(cfg, before, recipient, es) >= required)
    && (forall i | 0 <= i < k :: have + Capacity(cfg, before, recipient, donors[..i]) < required)
    && (k < |donors| ==> have + Capacity(cfg, before, recipient, donors[..k]) >= required)
    && r.balance == FinalBalance(have, required, target, Capacity(cfg, before, recipient, donors[..k]))
  }

  /** What holds with top-up enabled and no failing call. */
  ghost predicate IsExact(cfg: Config, recipient: Account, required: nat, target: nat, donors: seq<Donor>,
                          before: Ledger, r: Result)
  {
    Healthy(donors) && DistinctAddresses(donors) ==>
      ExactAt(cfg, recipient, required, target, donors, before,
              Reached(cfg, recipient, required, target, Start(recipient, before), donors), r)
  }

  lemma AccountsAreSafe(cfg: Config, recipient: Account, required: nat, target: nat, donors: seq<Donor>,
                        before: Ledger, a: Account)
    requires a != recipient
    ensures AccountIsSafe(cfg, recipient, donors, before,
                          VisitAll(cfg, recipient, required, target, Start(recipient, before), donors).ledger, a)
  {
    KeepsReserves(cfg, recipient, required, target, Start(recipient, before), donors, a);
    CapsAreKept(cfg, recipient, required, target, Start(recipient, before), donors, a);
    if DistinctAddresses(donors) {
      CapOfListedOnce(cfg.cap, recipient, a, donors);
    }
  }

  /** What an allocator reports when it has been through the donors. */
  function Report(required: nat, p: Progress): Result {
    Result(p.current >= required, p.current, true, p.toppedUp,
           if p.current >= required then Satisfied else ShortAfterTopUp, p.used)
  }

  lemma VisitAllPromises(cfg: Config, recipient: Account, required: nat, target: nat, donors: seq<Donor>,
                         before: Ledger)
    requires required <= target
    ensures var p := VisitAll(cfg, recipient, required, target, Start(recipient, before), donors);
            Promises(cfg, recipient, required, target, donors, before, p.ledger, Report(required, p))
  {
    var start := Start(recipient, before);
    IgnoresTheRest(cfg, recipient, required, target, start, donors);
    ReportsHonestly(cfg, recipient, required, target, start, donors);
    UsedAreReached(cfg, recipient, required, target, start, donors);
    if forall i | 0 <= i < |donors| :: !FailsAfterEffect(donors[i]) {
      ReportsExactly(cfg, recipient, required, target, start, donors);
    }
    if forall i | 0 <= i < |donors| :: !donors[i].send.SentUnconfirmed? {
      ReportsWhatArrived(cfg, recipient, required, target, start, donors);
    }
    NoOvershoot(cfg, recipient, required, target, before, donors);
    forall a | a != recipient
      ensures AccountIsSafe(cfg, recipient, donors, before,
                            VisitAll(cfg, recipient, required, target, start, donors).ledger, a)
    {
      AccountsAreSafe(cfg, recipient, required, target, donors, before, a);
    }
    forall accounts | KnowsAllParties(accounts, recipient, donors)
      ensures Total(VisitAll(cfg, recipient, required, target, start, donors).ledger, accounts)
                == Total(before, accounts)
    {
      Conserves(cfg, recipient, required, target, start, donors, accounts);
    }
  }

  lemma CapacityInAnyOrder(cfg: Config, ledger: Ledger, recipient: Account, ds: seq<Donor>)
    ensures forall es | multiset(es) == multiset(ds) ::
              Capacity(cfg, ledger, recipient, es) == Capacity(cfg, ledger, recipient, ds)
  {
    forall es | multiset(es) == multiset(ds)
      ensures Capacity(cfg, ledger, recipient, es) == Capacity(cfg, ledger, recipient, ds)
    {
      CapacityIgnoresOrder(cfg, ledger, recipient, ds, es);
    }
  }

  /** The parts of exactness, put together for a loop that has reached `k` donors and ended with `p`. */
  lemma ExactFrom(cfg: Config, recipient: Account, required: nat, target: nat, donors: seq<Donor>, before: Ledger,
                  p: Progress, k: nat)
    requires Healthy(donors) && DistinctAddresses(donors) && required <= target
    requires p == VisitAll(cfg, recipient, required, target, Start(recipient, before), donors)
    requires k == Reached(cfg, recipient, required, target, Start(recipient, before), donors)
    ensures ExactAt(cfg, recipient, required, target, donors, before, k, Report(required, p))
  {
    var start := Start(recipient, before);
    VisitAllIsExact(cfg, recipient, required, target, start, donors);
    StopsAtShortestPrefix(cfg, recipient, required, target, start, donors);
    EndsWithFinal(cfg, recipient, required, target, start, donors);
    CapacityInAnyOrder(cfg, before, recipient, donors);
  }

  lemma VisitAllReportsExactly(cfg: Config, recipient: Account, required: nat, target: nat, donors: seq<Donor>,
                               before: Ledger)
    requires required <= target
    ensures var p := VisitAll(cfg, recipient, required, target, Start(recipient, before), donors);
            IsExact(cfg, recipient, required, target, donors, before, Report(required, p))
  {
    if Healthy(donors) && DistinctAddresses(donors) {
      var start := Start(recipient, before);
      ExactFrom(cfg, recipient, required, target, donors, before,
                VisitAll(cfg, recipient, required, target, start, donors),
                Reached(cfg, recipient, required, target, start, donors));
    }
  }

  /** All of it, for both allocators. */
  lemma DonorsDeliver(cfg: Config, recipient: Account, required: nat, target: nat, donors: seq<Donor>, before: Ledger)
    requires required <= target
    ensures var p := VisitAll(cfg, recipient, required, target, Start(recipient, before), donors);
            && Promises(cfg, recipient, required, target, donors, before, p.ledger, Report(required, p))
            && IsExact(cfg, recipient, required, target, donors, before, Report(required, p))
  {
    VisitAllPromises(cfg, recipient, required, target, donors, before);
    VisitAllReportsExactly(cfg, recipient, required, target, donors, before);
  }

  /** GUARD: the target is the requirement plus a buffer. */
  method EnsureBidCollateralBalance(token: Token, cfg: Config, enabled: bool, buffer: nat,
                                    recipient: Account, required: nat, donors: seq<Donor>)
    returns (r: Result)
    modifies token
    ensures Promises(cfg, recipient, required, required + buffer, donors, old(token.ledger), token.ledger, r)
    ensures enabled && donors != [] ==>
              IsExact(cfg, recipient, required, required + buffer, donors, old(token.ledger), r)
    ensures !enabled || donors == [] ==>
              (r.ok <==> Balance(old(token.ledger), recipient) >= required) && token.ledger == old(token.ledger)
    ensures r.attempted <==> Balance(old(token.ledger), recipient) < required && enabled
    ensures r.reason == TopUpDisabled <==> Balance(old(token.ledger), recipient) < required && !enabled
    ensures r.reason == NoDonorsConfigured <==>
              Balance(old(token.ledger), recipient) < required && enabled && donors == []
  {
    var initial := Balance(token.ledger, recipient);
    if initial >= required {
      return Result(true, initial, false, 0, Satisfied, {});
    }
    if !enabled {
      return Result(false, initial, false, 0, TopUpDisabled, {});
    }
    if donors == [] {
      return Result(false, initial, true, 0, NoDonorsConfigured, {});
    }
    DonorsDeliver(cfg, recipient, required, required + buffer, donors, token.ledger);
    var current, toppedUp, used := FundFromDonors(token, cfg, recipient, required, required + buffer, initial, donors);
    if current >= required {
      return Result(true, current, true, toppedUp, Satisfied, used);
    }
    return Result(false, current, true, toppedUp, ShortAfterTopUp, used);
  }

  /** HBAR: a zero requirement means the configured minimum, and the target is the greater of
      the configured one and the requirement. */
  method EnsureOperationalHbar(token: Token, cfg: Config, hasProvider: bool, enabled: bool, minimum: nat,
                               configuredTarget: nat,
                               recipient: Account, requested: nat, donors: seq<Donor>)
    returns (r: Result, required: nat)
    modifies token
    ensures required == if requested > 0 then requested else minimum
    ensures hasProvider ==>
              Promises(cfg, recipient, required, Max(configuredTarget, required), donors, old(token.ledger),
                  token.ledger, r)
    ensures hasProvider && enabled && donors != [] ==>
              IsExact(cfg, recipient, required, Max(configuredTarget, required), donors, old(token.ledger), r)
    ensures !hasProvider ==> !r.ok
    ensures r.attempted <==> hasProvider && Balance(old(token.ledger), recipient) < required && enabled
    ensures r.reason == TopUpUnavailable <==> !hasProvider
    ensures r.reason == TopUpDisabled <==> hasProvider && Balance(old(token.ledger), recipient) < required && !enabled
    ensures r.reason == NoDonorsConfigured <==>
              hasProvider && Balance(old(token.ledger), recipient) < required && enabled && donors == []
    ensures !hasProvider || !enabled || donors == [] ==> token.ledger == old(token.ledger)
    ensures hasProvider && (!enabled || donors == []) ==> (r.ok <==> Balance(old(token.ledger), recipient) >= required)
  {
    required := if requested > 0 then requested else minimum;
    if !hasProvider {
      return Result(false, 0, false, 0, TopUpUnavailable, {}), required;
    }
    var target := if configuredTarget > required then configuredTarget else required;
    var initial := Balance(token.ledger, recipient);
    if initial >= required {
      return Result(true, initial, false, 0, Satisfied, {}), required;
    }
    if !enabled {
      return Result(false, initial, false, 0, TopUpDisabled, {}), required;
    }
    if donors == [] {
      return Result(false, initial, true, 0, NoDonorsConfigured, {}), required;
    }
    DonorsDeliver(cfg, recipient, required, target, donors, token.ledger);
    var current, toppedUp, used := FundFromDonors(token, cfg, recipient, required, target, initial, donors);
    if current >= required {
      return Result(true, current, true, toppedUp, Satisfied, used), required;
    }
    return Result(false, current, true, toppedUp, ShortAfterTopUp, used), required;
  }

  // ---- Donor keys ----

  /** The keys that parse, each once, in order of first appearance. */
  function FirstAppearances(parsed: seq<Option<string>>): seq<string> {
    if parsed == [] then []
    else
      var n := |parsed| - 1;
      var before := FirstAppearances(parsed[..n]);
      if parsed[n].Some? && parsed[n].value !in before then before + [parsed[n].value] else before
  }

  method ResolveDonorKeys(parsed: seq<Option<string>>) returns (keys: seq<string>)
    ensures keys == FirstAppearances(parsed)
  {
    keys := [];
    for n := 0 to |parsed|
      invariant keys == FirstAppearances(parsed[..n])
    {
      assert parsed[..n + 1][..n] == parsed[..n];
      if parsed[n].Some? && parsed[n].value !in keys {
        keys := keys + [parsed[n].value];
      }
    }
    assert parsed[..|parsed|] == parsed;
  }

  /** The donor keys never repeat, are exactly the keys that parse, and a longer candidate
      list only appends to them. */
  lemma {:induction false} DonorKeysAreExact(parsed: seq<Option<string>>, k: nat)
    requires k <= |parsed|
    ensures Distinct(FirstAppearances(parsed))
    ensures forall key :: key in FirstAppearances(parsed) <==> Some(key) in parsed
    ensures FirstAppearances(parsed[..k]) <= FirstAppearances(parsed)
    decreases |parsed|
  {
    if parsed == [] {
    } else {
      var n := |parsed| - 1;
      assert parsed == parsed[..n] + [parsed[n]];
      DonorKeysAreExact(parsed[..n], if k <= n then k else n);
      if k <= n {
        assert parsed[..n][..k] == parsed[..k];
      } else {
        assert parsed[..k] == parsed;
      }
    }
  }

  /** Distinct keys that derive distinct addresses make a donor list without repetition. */
  lemma DistinctKeysDistinctDonors(keys: seq<string>, wallet: string -> Donor, donors: seq<Donor>)
    requires Distinct(keys)
    requires |donors| == |keys| && forall i | 0 <= i < |keys| :: donors[i] == wallet(keys[i])
    requires forall k, l | k in keys && l in keys && wallet(k).address == wallet(l).address :: k == l
    ensures DistinctAddresses(donors)
  {
    forall i, k | 0 <= i < k < |donors|
      ensures donors[i].address != donors[k].address
    {
      assert keys[i] in keys && keys[k] in keys && keys[i] != keys[k];
    }
  }
}
