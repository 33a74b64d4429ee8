/**
 Funding one account over two transports: bounded EVM retries, then one HAPI transfer, all
 guarded by a balance goal fixed at the start. Any call may fail, a transfer also after it
 has taken effect; how the failure reads decides whether the EVM loop goes on.
 */
module ResilientTransfer {
  import opened ErrorText
  import opened TokenLedger
  import opened Wrappers

  const MAX_SAFE_INTEGER := 0x1F_FFFF_FFFF_FFFF

  /** Whether a submitted transfer moves tokens: never, before the next balance read, or later,
      at a time of its own. */
  datatype Effect = Never | AtOnce | Late

  datatype Fault = Fault(text: string, retryable: bool)

  /** A failure as the EVM loop reads it. */
  function Classified(text: string): Fault {
    Fault(text, Retryable(ClassifyTransfer(text)))
  }

  /** What the environment does in one try; a field is used only if the try gets there. */
  datatype Try = Try(
    landsBefore: nat,             // how many of the transfers owed land before the first read
    readFault: Option<Fault>,     // the balance read before
    prepareFault: Option<Fault>,  // static call; or building and signing the HAPI transfer
    effect: Effect,
    sendFault: Option<Fault>,     // submission, waiting, or a receipt that is not a success
    landsAfter: nat,              // how many of the transfers owed land before the second read
    rereadFault: Option<Fault>,   // the balance read after
    mismatch: Fault)              // the error raised when the balance did not grow enough

  datatype Payment = Payment(from: Account, to: Account, amount: nat)

  /** The token ledger, and how many transfers sent have still to land. */
  datatype World = World(ledger: Ledger, due: nat)

  datatype TryResult = AlreadyFunded | Paid | Failed(fault: Fault)

  datatype Outcome = Noop | FundedAlready | EvmTransfer | HapiFallback | Threw

  function Land(ledger: Ledger, p: Payment): Ledger {
    if p.amount <= Balance(ledger, p.from) then Move(ledger, p.from, p.to, p.amount) else ledger
  }

  function LandMany(ledger: Ledger, p: Payment, n: nat): Ledger {
    if n == 0 then ledger else Land(LandMany(ledger, p, n - 1), p)
  }

  /** Up to `n` of the transfers owed land; one that the sender cannot cover is lost. */
  function AfterLandings(w: World, p: Payment, n: nat): World {
    var m := if n < w.due then n else w.due;
    World(LandMany(w.ledger, p, m), w.due - m)
  }

  function AfterSend(w: World, p: Payment, effect: Effect): World {
    match effect
    case Never => w
    case AtOnce => w.(ledger := Land(w.ledger, p))
    case Late => w.(due := w.due + 1)
  }

  /** One guarded try, on either transport. */
  function TryOnce(w: World, p: Payment, goal: nat, t: Try): (World, TryResult) {
    if t.readFault.Some? then (w, Failed(t.readFault.value))
    else
      var read := AfterLandings(w, p, t.landsBefore);
      var before := Balance(read.ledger, p.to);
      if before >= goal then (read, AlreadyFunded)
      else if t.prepareFault.Some? then (read, Failed(t.prepareFault.value))
      else
        var sent := AfterSend(read, p, t.effect);
        if t.sendFault.Some? then (sent, Failed(t.sendFault.value))
        else if t.rereadFault.Some? then (sent, Failed(t.rereadFault.value))
        else
          var after := AfterLandings(sent, p, t.landsAfter);
          (after, if Balance(after.ledger, p.to) < before + p.amount then Failed(t.mismatch) else Paid)
  }

  /** The EVM retry loop from attempt `attempt`: `Failed` when it gives up. */
  function EvmTries(w: World, p: Payment, goal: nat, retryMax: nat, evm: nat -> Try, attempt: nat)
    : (World, Option<TryResult>)
    requires attempt >= 1
    decreases retryMax + 1 - attempt
  {
    if attempt > retryMax then (w, None)
    else
      match TryOnce(w, p, goal, evm(attempt))
      case (after, Failed(fault)) =>
        if fault.retryable && attempt < retryMax then EvmTries(after, p, goal, retryMax, evm, attempt + 1)
        else (after, None)
      case (after, result) => (after, Some(result))
  }

  /** Building a HAPI transfer fails for an amount that is no safe integer. */
  function Safely(p: Payment, t: Try): Try {
    if p.amount > MAX_SAFE_INTEGER
    then t.(prepareFault := Some(Fault("token transfer amount exceeds JS safe integer range", false)))
    else t
  }

  function HapiTry(w: World, p: Payment, goal: nat, t: Try): (World, TryResult) {
    TryOnce(w, p, goal, Safely(p, t))
  }

  function TransferResilient(w: World, p: Payment, initialFault: Option<Fault>, retryMax: nat, fallback: bool,
                             evm: nat -> Try, hapi: Try): (World, Outcome)
  {
    if p.amount == 0 then (w, Noop)
    else if initialFault.Some? then (w, Threw)
    else
      var goal := Balance(w.ledger, p.to) + p.amount;
      var (after, result) := EvmTries(w, p, goal, retryMax, evm, 1);
      Finish(after, result, p, goal, fallback, hapi)
  }

  /** What follows the EVM loop: nothing, or the fallback if the loop gave up and it is enabled. */
  function Finish(after: World, result: Option<TryResult>, p: Payment, goal: nat, fallback: bool, hapi: Try)
    : (World, Outcome)
  {
    match result
    case Some(result) => (after, if result.Paid? then EvmTransfer else FundedAlready)
    case None =>
      if !fallback then (after, Threw)
      else
        match HapiTry(after, p, goal, hapi)
        case (final, AlreadyFunded) => (final, FundedAlready)
        case (final, Paid) => (final, HapiFallback)
        case (final, Failed(_)) => (final, Threw)
  }

  // ---- The running code ----

  /** The token contract and the network, as the code calls them. */
  class Network {
    var ledger: Ledger
    var due: nat

    function View(): World
      reads this
    {
      World(ledger, due)
    }

    constructor (initial: Ledger)
      ensures View() == World(initial, 0)
    {
      ledger, due := initial, 0;
    }

    /** The network lets up to `lands` of the transfers owed take effect, and answers. */
    method BalanceOf(p: Payment, lands: nat) returns (balance: nat)
      modifies this
      ensures View() == AfterLandings(old(View()), p, lands) && balance == Balance(ledger, p.to)
    {
      ghost var start := View();
      ghost var total := if lands < due then lands else due;
      ghost var landed := 0;
      var left := lands;
      while left > 0 && due > 0
        invariant landed <= total && left == lands - landed && due == start.due - landed
        invariant ledger == LandMany(start.ledger, p, landed)
        decreases left
      {
        ledger, due, left := Land(ledger, p), due - 1, left - 1;
        landed := landed + 1;
      }
      balance := Balance(ledger, p.to);
    }

    method Submit(p: Payment, effect: Effect)
      modifies this
      ensures View() == AfterSend(old(View()), p, effect)
    {
      match effect {
        case Never =>
        case AtOnce => ledger := Land(ledger, p);
        case Late => due := due + 1;
      }
    }

    /** The guarded body that the EVM loop and the HAPI fallback share. */
    method Attempt(p: Payment, goal: nat, t: Try) returns (result: TryResult)
      modifies this
      ensures (View(), result) == TryOnce(old(View()), p, goal, t)
    {
      if t.readFault.Some? {
        return Failed(t.readFault.value);
      }
      var before := BalanceOf(p, t.landsBefore);
      if before >= goal {
        return AlreadyFunded;
      }
      if t.prepareFault.Some? {
        return Failed(t.prepareFault.value);
      }
      Submit(p, t.effect);
      if t.sendFault.Some? {
        return Failed(t.sendFault.value);
      }
      if t.rereadFault.Some? {
        return Failed(t.rereadFault.value);
      }
      var after := BalanceOf(p, t.landsAfter);
      if after < before + p.amount {
        return Failed(t.mismatch);
      }
      return Paid;
    }

    method TransferGuardResilient(p: Payment, initialFault: Option<Fault>, retryMax: nat, fallback: bool,
                                  evm: nat -> Try, hapi: Try)
      returns (outcome: Outcome)
      modifies this
      ensures (View(), outcome) == TransferResilient(old(View()), p, initialFault, retryMax, fallback, evm, hapi)
    {
      if p.amount == 0 {
        return Noop;
      }
      if initialFault.Some? {
        return Threw;
      }
      var initialBalance := BalanceOf(p, 0);
      var goal := initialBalance + p.amount;
      ghost var start := View();
      var attempt := 1;
      while attempt <= retryMax
        invariant 1 <= attempt
        invariant EvmTries(start, p, goal, retryMax, evm, 1) == EvmTries(View(), p, goal, retryMax, evm, attempt)
      {
        var result := Attempt(p, goal, evm(attempt));
        match result {
          case AlreadyFunded => return FundedAlready;
          case Paid => return EvmTransfer;
          case Failed(fault) =>
            if !(fault.retryable && attempt < retryMax) {
              break;
            }
        }
        attempt := attempt + 1;
      }
      assert EvmTries(start, p, goal, retryMax, evm, 1) == (View(), None);
      if !fallback {
        return Threw;
      }
      var guarded := hapi;
      if p.amount > MAX_SAFE_INTEGER {
        guarded := hapi.(prepareFault := Some(Fault("token transfer amount exceeds JS safe integer range", false)));
      }
      var result := Attempt(p, goal, guarded);
      match result {
        case AlreadyFunded => return FundedAlready;
        case Paid => return HapiFallback;
        case Failed(_) => return Threw;
      }
    }
  }

  // ---- Exactly once ----

  /** Every applied transfer is visible to the next balance read. */
  ghost predicate Prompt(retryMax: nat, evm: nat -> Try, hapi: Try) {
    !hapi.effect.Late? && forall n | 1 <= n <= retryMax :: !evm(n).effect.Late?
  }

  /** Nothing has been paid yet, or exactly the one payment. */
  predicate PaidAtMostOnce(start: Ledger, now: Ledger, p: Payment) {
    now == start || (p.amount <= Balance(start, p.from) && now == Move(start, p.from, p.to, p.amount))
  }

  lemma TryPaysAtMostOnce(start: Ledger, w: World, p: Payment, t: Try)
    requires p.from != p.to && p.amount > 0 && w.due == 0 && !t.effect.Late?
    requires PaidAtMostOnce(start, w.ledger, p)
    ensures var (after, result) := TryOnce(w, p, Balance(start, p.to) + p.amount, t);
            && after.due == 0 && PaidAtMostOnce(start, after.ledger, p)
            && (!result.Failed? ==>
                after.ledger != start && Balance(after.ledger, p.to) == Balance(start, p.to) + p.amount)
  {
  }

  lemma {:induction false} EvmPaysAtMostOnce(start: Ledger, w: World, p: Payment, retryMax: nat, evm: nat -> Try,
                                             hapi: Try, attempt: nat)
    requires attempt >= 1
    requires p.from != p.to && p.amount > 0 && w.due == 0 && Prompt(retryMax, evm, hapi)
    requires PaidAtMostOnce(start, w.ledger, p)
    ensures var (after, result) := EvmTries(w, p, Balance(start, p.to) + p.amount, retryMax, evm, attempt);
            && after.due == 0 && PaidAtMostOnce(start, after.ledger, p)
            && (result.Some? ==>
                !result.value.Failed? && Balance(after.ledger, p.to) == Balance(start, p.to) + p.amount)
    decreases retryMax + 1 - attempt
  {
    if attempt > retryMax {
    } else {
      TryPaysAtMostOnce(start, w, p, evm(attempt));
      var (after, result) := TryOnce(w, p, Balance(start, p.to) + p.amount, evm(attempt));
      if result.Failed? && result.fault.retryable && attempt < retryMax {
        EvmPaysAtMostOnce(start, after, p, retryMax, evm, hapi, attempt + 1);
      }
    }
  }

  /** Over all EVM retries and the fallback at most one transfer is applied: the ledger ends
      as it began or as after exactly one payment. A normal return means the latter, so the
      target holds exactly its initial balance plus the amount; a throw means either. */
  lemma FundsExactlyOnce(ledger: Ledger, p: Payment, initialFault: Option<Fault>, retryMax: nat, fallback: bool,
                         evm: nat -> Try, hapi: Try)
    requires p.from != p.to && Prompt(retryMax, evm, hapi)
    ensures var w := World(ledger, 0);
            var (after, outcome) := TransferResilient(w, p, initialFault, retryMax, fallback, evm, hapi);
            && PaidAtMostOnce(ledger, after.ledger, p)
            && (!outcome.Threw? ==> Balance(after.ledger, p.to) == Balance(ledger, p.to) + p.amount)
            && (!outcome.Threw? && p.amount > 0 ==> after.ledger != ledger)
  {
    if p.amount > 0 && initialFault.None? {
      var w := World(ledger, 0);
      EvmPaysAtMostOnce(ledger, w, p, retryMax, evm, hapi, 1);
      var (after, result) := EvmTries(w, p, Balance(ledger, p.to) + p.amount, retryMax, evm, 1);
      TryPaysAtMostOnce(ledger, after, p, hapi);
      var unsafe := Fault("token transfer amount exceeds JS safe integer range", false);
      TryPaysAtMostOnce(ledger, after, p, hapi.(prepareFault := Some(unsafe)));
    }
  }

  predicate Clean(t: Try) {
    t.readFault.None? && t.prepareFault.None? && t.sendFault.None? && t.rereadFault.None?
  }

  /** However the EVM tries fail, a clean fallback that takes effect funds the target, if the
      donor covers the amount and it is a safe integer. */
  lemma FallbackRescues(ledger: Ledger, p: Payment, retryMax: nat, evm: nat -> Try, hapi: Try)
    requires p.from != p.to && 0 < p.amount <= MAX_SAFE_INTEGER && p.amount <= Balance(ledger, p.from)
    requires Prompt(retryMax, evm, hapi) && Clean(hapi) && hapi.effect.AtOnce?
    ensures var (after, outcome) := TransferResilient(World(ledger, 0), p, None, retryMax, true, evm, hapi);
            !outcome.Threw? && after.ledger == Move(ledger, p.from, p.to, p.amount)
  {
    EvmPaysAtMostOnce(ledger, World(ledger, 0), p, retryMax, evm, hapi, 1);
    FundsExactlyOnce(ledger, p, None, retryMax, true, evm, hapi);
  }

  // ---- What a return says ----

  /** A try that from `u` finds the goal not reached, sends without a fault, and at `end` sees the amount
      arrive. */
  predicate FundsBy(u: World, p: Payment, goal: nat, t: Try, end: World) {
    var read := AfterLandings(u, p, t.landsBefore);
    && Clean(t) && Balance(read.ledger, p.to) < goal
    && end == AfterLandings(AfterSend(read, p, t.effect), p, t.landsAfter)
    && Balance(end.ledger, p.to) >= Balance(read.ledger, p.to) + p.amount
  }

  /** A try that finds the goal reached at its first balance read, and sends nothing. */
  predicate FindsFunded(u: World, p: Payment, goal: nat, t: Try, end: World) {
    t.readFault.None? && end == AfterLandings(u, p, t.landsBefore) && Balance(end.ledger, p.to) >= goal
  }

  lemma ResultsAreTrue(u: World, p: Payment, goal: nat, t: Try)
    ensures var (end, result) := TryOnce(u, p, goal, t);
            && (result.Paid? <==> FundsBy(u, p, goal, t, end))
            && (result.AlreadyFunded? <==> FindsFunded(u, p, goal, t, end))
            && (result.Failed? ==> result.fault == FirstFault(u, p, t))
  {
  }

  /** The error a failed try raises: that of the first of its calls to fail, and otherwise that the balance did
      not rise by the amount. */
  function FirstFault(u: World, p: Payment, t: Try): Fault {
    match (t.readFault, t.prepareFault, t.sendFault, t.rereadFault)
    case (Some(fault), _, _, _) => fault
    case (None, Some(fault), _, _) => fault
    case (None, None, Some(fault), _) => fault
    case (None, None, None, Some(fault)) => fault
    case (None, None, None, None) => t.mismatch
  }

  /** The EVM try with which the loop ends well, and the state it began in. */
  lemma {:induction false} EvmLabelsAreTrue(w: World, p: Payment, goal: nat, retryMax: nat, evm: nat -> Try,
                                            attempt: nat) returns (n: nat, u: World)
    requires attempt >= 1
    ensures var (end, result) := EvmTries(w, p, goal, retryMax, evm, attempt);
            result.Some? ==>
              && attempt <= n <= retryMax
              && (result.value.Paid? ==> FundsBy(u, p, goal, evm(n), end))
              && (result.value.AlreadyFunded? ==> FindsFunded(u, p, goal, evm(n), end))
              && !result.value.Failed?
    decreases retryMax + 1 - attempt
  {
    n, u := attempt, w;
    if attempt <= retryMax {
      ResultsAreTrue(w, p, goal, evm(attempt));
      var (after, result) := TryOnce(w, p, goal, evm(attempt));
      if result.Failed? && result.fault.retryable && attempt < retryMax {
        n, u := EvmLabelsAreTrue(after, p, goal, retryMax, evm, attempt + 1);
      }
    }
  }

  lemma FinishLabelsAreTrue(after: World, result: Option<TryResult>, p: Payment, goal: nat, fallback: bool, hapi: Try)
    requires result.Some? ==> !result.value.Failed?
    ensures var (end, outcome) := Finish(after, result, p, goal, fallback, hapi);
            && (outcome.EvmTransfer? <==> result == Some(Paid))
            && (outcome.HapiFallback? ==>
                  fallback && p.amount <= MAX_SAFE_INTEGER && result.None? && FundsBy(after, p, goal, hapi, end))
            && (outcome.FundedAlready? ==>
                  result == Some(AlreadyFunded) ||
                  (fallback && result.None? && FindsFunded(after, p, goal, hapi, end)))
            && (result.Some? ==> end == after)
            && !outcome.Noop?
  {
    ResultsAreTrue(after, p, goal, Safely(p, hapi));
  }

  /** What a normal return says of the last try made, the `n`-th EVM try or the fallback, begun in `u`: a
      transfer by it, confirmed, or that it found the goal reached and sent nothing. */
  lemma LabelsAreTrue(w: World, p: Payment, initialFault: Option<Fault>, retryMax: nat, fallback: bool,
                      evm: nat -> Try, hapi: Try) returns (n: nat, u: World)
    ensures var (end, outcome) := TransferResilient(w, p, initialFault, retryMax, fallback, evm, hapi);
            var goal := Balance(w.ledger, p.to) + p.amount;
            && (outcome.Noop? <==> p.amount == 0)
            && (outcome.Noop? || (p.amount > 0 && initialFault.Some?) ==> end == w)
            && (p.amount > 0 && initialFault.Some? ==> outcome.Threw?)
            && (outcome.EvmTransfer? ==> 1 <= n <= retryMax && FundsBy(u, p, goal, evm(n), end))
            && (outcome.HapiFallback? ==>
                  fallback && p.amount <= MAX_SAFE_INTEGER && FundsBy(u, p, goal, hapi, end))
            && (outcome.FundedAlready? ==>
                  (1 <= n <= retryMax && FindsFunded(u, p, goal, evm(n), end))
                  || (fallback && FindsFunded(u, p, goal, hapi, end)))
  {
    n, u := 0, w;
    if p.amount > 0 && initialFault.None? {
      var goal := Balance(w.ledger, p.to) + p.amount;
      var tries := EvmTries(w, p, goal, retryMax, evm, 1);
      n, u := EvmLabelsAreTrue(w, p, goal, retryMax, evm, 1);
      FinishLabelsAreTrue(tries.0, tries.1, p, goal, fallback, hapi);
      TransferIsFinish(w, p, retryMax, fallback, evm, hapi, goal);
      if tries.1.None? {
        u := tries.0;
      }
    }
  }

  /** An amount that is no safe integer is never sent by the fallback. */
  lemma UnsafeAmountIsNotSent(w: World, p: Payment, goal: nat, hapi: Try)
    requires p.amount > MAX_SAFE_INTEGER
    ensures var (after, result) := HapiTry(w, p, goal, hapi);
            (after == w || after == AfterLandings(w, p, hapi.landsBefore)) && !result.Paid?
  {
  }

  /** Without the fallback, what HAPI would do has no influence. */
  lemma NoFallbackNoHapi(w: World, p: Payment, initialFault: Option<Fault>, retryMax: nat, evm: nat -> Try,
                         hapi: Try, other: Try)
    ensures TransferResilient(w, p, initialFault, retryMax, false, evm, hapi)
            == TransferResilient(w, p, initialFault, retryMax, false, evm, other)
  {
  }

  // ---- Without promptness ----

  /** The payment has been applied `k` times. */
  ghost predicate PaidTimes(start: Ledger, now: Ledger, p: Payment, k: nat) {
    && k * p.amount <= Balance(start, p.from)
    && Balance(now, p.from) == Balance(start, p.from) - k * p.amount
    && Balance(now, p.to) == Balance(start, p.to) + k * p.amount
    && forall a | a != p.from && a != p.to :: Balance(now, a) == Balance(start, a)
  }

  /** The sender can pay `c` times. */
  predicate Covers(start: Ledger, p: Payment, c: nat) {
    c * p.amount <= Balance(start, p.from)
  }

  lemma CoversLess(start: Ledger, p: Payment, c: nat, k: nat)
    requires Covers(start, p, c) && k <= c
    ensures Covers(start, p, k)
  {
    assert c * p.amount == k * p.amount + (c - k) * p.amount;
    assert (c - k) * p.amount >= 0;
  }

  lemma LandsOnce(start: Ledger, ledger: Ledger, p: Payment, k: nat) returns (n: nat)
    requires p.from != p.to && PaidTimes(start, ledger, p, k)
    ensures PaidTimes(start, Land(ledger, p), p, n) && k <= n <= k + 1
    ensures Covers(start, p, k + 1) ==> n == k + 1
  {
    assert (k + 1) * p.amount == k * p.amount + p.amount;
    n := if p.amount <= Balance(ledger, p.from) then k + 1 else k;
  }

  lemma {:induction false} LandsMany(start: Ledger, ledger: Ledger, p: Payment, m: nat, k: nat, c: nat) returns (n: nat)
    requires p.from != p.to && PaidTimes(start, ledger, p, k)
    ensures PaidTimes(start, LandMany(ledger, p, m), p, n) && k <= n <= k + m
    ensures Covers(start, p, c) && k + m <= c ==> n == k + m
    decreases m
  {
    if m == 0 {
      n := k;
    } else {
      var before := LandsMany(start, ledger, p, m - 1, k, c);
      n := LandsOnce(start, LandMany(ledger, p, m - 1), p, before);
      if Covers(start, p, c) && k + m <= c {
        CoversLess(start, p, c, before + 1);
      }
    }
  }

  /** Landings turn what is owed into payments made; only what cannot be covered is lost. */
  lemma LandingsCount(start: Ledger, w: World, p: Payment, lands: nat, k: nat, c: nat) returns (n: nat)
    requires p.from != p.to && PaidTimes(start, w.ledger, p, k)
    ensures var t := AfterLandings(w, p, lands);
            && PaidTimes(start, t.ledger, p, n) && k <= n && n + t.due <= k + w.due
            && (Covers(start, p, c) && k + w.due <= c ==> n + t.due == k + w.due)
  {
    n := LandsMany(start, w.ledger, p, if lands < w.due then lands else w.due, k, c);
  }

  lemma SendCounts(start: Ledger, w: World, p: Payment, effect: Effect, k: nat, c: nat) returns (n: nat)
    requires p.from != p.to && PaidTimes(start, w.ledger, p, k)
    ensures var t := AfterSend(w, p, effect);
            var sends := if effect.Never? then 0 else 1;
            && PaidTimes(start, t.ledger, p, n) && k <= n && n + t.due <= k + w.due + sends
            && (Covers(start, p, c) && k + w.due < c ==> n + t.due == k + w.due + sends)
  {
    n := k;
    if effect.AtOnce? {
      n := LandsOnce(start, w.ledger, p, k);
      if Covers(start, p, c) && k + w.due < c {
        CoversLess(start, p, c, k + 1);
      }
    }
  }

  lemma GoalMeansPaid(start: Ledger, ledger: Ledger, p: Payment, k: nat)
    requires p.amount > 0 && PaidTimes(start, ledger, p, k)
    ensures Balance(ledger, p.to) >= Balance(start, p.to) + p.amount <==> k >= 1
  {
    if k >= 1 {
      assert k * p.amount == p.amount + (k - 1) * p.amount;
      assert (k - 1) * p.amount >= 0;
    } else {
      assert k * p.amount == 0;
    }
  }

  /** The try gets to a send that takes effect, now or later. */
  predicate Sends(w: World, p: Payment, goal: nat, t: Try) {
    && t.readFault.None? && Balance(AfterLandings(w, p, t.landsBefore).ledger, p.to) < goal
    && t.prepareFault.None? && !t.effect.Never?
  }

  /** It does so although an earlier transfer is still owed when its balance read answers. */
  predicate SendsAgain(w: World, p: Payment, goal: nat, t: Try) {
    Sends(w, p, goal, t) && AfterLandings(w, p, t.landsBefore).due > 0
  }

  function Again(w: World, p: Payment, goal: nat, t: Try): nat {
    if SendsAgain(w, p, goal, t) then 1 else 0
  }

  /** The tally of payments, `k` made and the rest owed, after `again` tries that sent again and
      with at most `left` tries of `c` to come: none yet, or one and one more for each of those,
      unless the sender could not cover one and it was lost. */
  ghost predicate Tally(start: Ledger, w: World, p: Payment, k: nat, again: nat, left: nat, c: nat) {
    && PaidTimes(start, w.ledger, p, k)
    && k + w.due + left <= c
    && k + w.due <= 1 + again
    && (Covers(start, p, c) ==> (k + w.due == 0 && again == 0) || k + w.due == 1 + again)
  }

  lemma TryCounts(start: Ledger, w: World, p: Payment, t: Try, k: nat, again: nat, left: nat, c: nat) returns (n: nat)
    requires p.from != p.to && p.amount > 0 && Tally(start, w, p, k, again, left + 1, c)
    ensures var goal := Balance(start, p.to) + p.amount;
            var (after, result) := TryOnce(w, p, goal, t);
            && Tally(start, after, p, n, again + Again(w, p, goal, t), left, c) && k <= n
            && (!result.Failed? ==> n >= 1)
  {
    n := k;
    if t.readFault.None? {
      n := LandingsCount(start, w, p, t.landsBefore, k, c);
      var read := AfterLandings(w, p, t.landsBefore);
      GoalMeansPaid(start, read.ledger, p, n);
      if n == 0 && t.prepareFault.None? {
        n := SendCounts(start, read, p, t.effect, 0, c);
        var sent := AfterSend(read, p, t.effect);
        if t.sendFault.None? && t.rereadFault.None? {
          n := LandingsCount(start, sent, p, t.landsAfter, n, c);
          GoalMeansPaid(start, AfterLandings(sent, p, t.landsAfter).ledger, p, n);
        }
      }
    }
  }

  /** How many EVM tries, from attempt `attempt` on, send while an earlier transfer is owed. */
  function EvmAgain(w: World, p: Payment, goal: nat, retryMax: nat, evm: nat -> Try, attempt: nat): nat
    requires attempt >= 1
    decreases retryMax + 1 - attempt
  {
    if attempt > retryMax then 0
    else
      Again(w, p, goal, evm(attempt)) +
      match TryOnce(w, p, goal, evm(attempt))
      case (after, Failed(fault)) =>
        if fault.retryable && attempt < retryMax then EvmAgain(after, p, goal, retryMax, evm, attempt + 1) else 0
      case _ => 0
  }

  /** The same over the whole transfer, on either transport. */
  function TriesAgain(w: World, p: Payment, initialFault: Option<Fault>, retryMax: nat, fallback: bool,
                      evm: nat -> Try, hapi: Try): nat
  {
    if p.amount == 0 || initialFault.Some? then 0
    else
      var goal := Balance(w.ledger, p.to) + p.amount;
      var (after, result) := EvmTries(w, p, goal, retryMax, evm, 1);
      EvmAgain(w, p, goal, retryMax, evm, 1) + AgainAfter(after, result, p, goal, fallback, hapi)
  }

  function AgainAfter(after: World, result: Option<TryResult>, p: Payment, goal: nat, fallback: bool, hapi: Try): nat {
    if result.None? && fallback then Again(after, p, goal, Safely(p, hapi)) else 0
  }

  lemma {:induction false} EvmCounts(start: Ledger, w: World, p: Payment, retryMax: nat, evm: nat -> Try, attempt: nat,
                                     k: nat, again: nat, left: nat, c: nat) returns (n: nat)
    requires 1 <= attempt <= retryMax + 1 && p.from != p.to && p.amount > 0
    requires Tally(start, w, p, k, again, left + retryMax + 1 - attempt, c)
    ensures var goal := Balance(start, p.to) + p.amount;
            var (after, result) := EvmTries(w, p, goal, retryMax, evm, attempt);
            && Tally(start, after, p, n, again + EvmAgain(w, p, goal, retryMax, evm, attempt), left, c) && k <= n
            && (result.Some? ==> n >= 1)
    decreases retryMax + 1 - attempt
  {
    var goal := Balance(start, p.to) + p.amount;
    if attempt > retryMax {
      n := k;
    } else {
      var more := Again(w, p, goal, evm(attempt));
      n := TryCounts(start, w, p, evm(attempt), k, again, left + retryMax - attempt, c);
      var (after, result) := TryOnce(w, p, goal, evm(attempt));
      if result.Failed? && result.fault.retryable && attempt < retryMax {
        n := EvmCounts(start, after, p, retryMax, evm, attempt + 1, n, again + more, left, c);
      }
    }
  }

  /** What the tries counted so far and the fallback come to, whatever the EVM tries were. */
  ghost predicate Counted(start: Ledger, p: Payment, k: nat, again: nat, c: nat, end: (World, Outcome)) {
    Tally(start, end.0, p, k, again, 0, c) && (!end.1.Threw? ==> k >= 1)
  }

  lemma FinishCounts(start: Ledger, after: World, result: Option<TryResult>, p: Payment, fallback: bool, hapi: Try,
                     k: nat, again: nat, c: nat)
    returns (n: nat)
    requires p.from != p.to && p.amount > 0 && Tally(start, after, p, k, again, 1, c) && (result.Some? ==> k >= 1)
    ensures var goal := Balance(start, p.to) + p.amount;
            Counted(start, p, n, again + AgainAfter(after, result, p, goal, fallback, hapi), c,
                    Finish(after, result, p, goal, fallback, hapi))
  {
    n := k;
    if result.None? && fallback {
      n := TryCounts(start, after, p, Safely(p, hapi), k, again, 0, c);
    }
  }

  /** The whole transfer is the EVM tries and what follows them. */
  lemma TransferIsFinish(w: World, p: Payment, retryMax: nat, fallback: bool, evm: nat -> Try, hapi: Try, goal: nat)
    requires p.amount > 0 && goal == Balance(w.ledger, p.to) + p.amount
    ensures var (after, result) := EvmTries(w, p, goal, retryMax, evm, 1);
            && TransferResilient(w, p, None, retryMax, fallback, evm, hapi)
                 == Finish(after, result, p, goal, fallback, hapi)
            && TriesAgain(w, p, None, retryMax, fallback, evm, hapi)
                 == EvmAgain(w, p, goal, retryMax, evm, 1) + AgainAfter(after, result, p, goal, fallback, hapi)
  {
  }

  lemma TriesCounted(ledger: Ledger, p: Payment, retryMax: nat, fallback: bool, evm: nat -> Try, hapi: Try,
                     goal: nat, tries: (World, Option<TryResult>), again: nat)
    returns (k: nat)
    requires p.from != p.to && p.amount > 0 && goal == Balance(ledger, p.to) + p.amount
    requires tries == EvmTries(World(ledger, 0), p, goal, retryMax, evm, 1)
    requires again == EvmAgain(World(ledger, 0), p, goal, retryMax, evm, 1)
    ensures Counted(ledger, p, k, again + AgainAfter(tries.0, tries.1, p, goal, fallback, hapi), retryMax + 1,
                    Finish(tries.0, tries.1, p, goal, fallback, hapi))
  {
    k := EvmCounts(ledger, World(ledger, 0), p, retryMax, evm, 1, 0, 0, 1, retryMax + 1);
    k := FinishCounts(ledger, tries.0, tries.1, p, fallback, hapi, k, again, retryMax + 1);
  }

  /** Whenever transfers land: if none is sent with effect nothing is paid, and otherwise the
      payments made or owed in the end are one, and one more for each try that sends while an
      earlier transfer is still owed at its balance read; at most one for each EVM try and one for
      the fallback; and a normal return means that at least one has been made. The count is exact
      if the sender covers that many, and an upper bound in any case. */
  lemma PaymentsCounted(ledger: Ledger, p: Payment, initialFault: Option<Fault>, retryMax: nat, fallback: bool,
                        evm: nat -> Try, hapi: Try) returns (k: nat)
    requires p.from != p.to && p.amount > 0
    ensures var w := World(ledger, 0);
            var (after, outcome) := TransferResilient(w, p, initialFault, retryMax, fallback, evm, hapi);
            var again := TriesAgain(w, p, initialFault, retryMax, fallback, evm, hapi);
            && PaidTimes(ledger, after.ledger, p, k)
            && k + after.due <= 1 + again && k + after.due <= retryMax + 1
            && (!outcome.Threw? ==> k >= 1)
            && (Covers(ledger, p, retryMax + 1) ==>
                  && ((k + after.due == 0 && again == 0) || k + after.due == 1 + again)
                  && (k + after.due > 1 <==> again > 0))
  {
    var w := World(ledger, 0);
    var goal := Balance(ledger, p.to) + p.amount;
    k := 0;
    if initialFault.None? {
      var tries, again := EvmTries(w, p, goal, retryMax, evm, 1), EvmAgain(w, p, goal, retryMax, evm, 1);
      k := TriesCounted(ledger, p, retryMax, fallback, evm, hapi, goal, tries, again);
      TransferIsFinish(w, p, retryMax, fallback, evm, hapi, goal);
    } else {
      assert TransferResilient(w, p, initialFault, retryMax, fallback, evm, hapi) == (w, Threw);
    }
  }

  // ---- The bound is reached ----

  /** A transfer that is sent, times out, and lands later. */
  function LostTry(attempt: nat): Try {
    Try(0, None, None, Late, Some(Classified("timeout")), 0, None, Fault("", false))
  }

  /** A transfer that is applied and confirmed, by when `lands` earlier ones have landed. */
  function GoodTry(lands: nat): Try {
    Try(0, None, None, AtOnce, None, lands, None, Fault("", false))
  }

  /** Every try sends, fails in a way worth a retry, and leaves one more transfer owed. */
  ghost predicate Loses(ledger: Ledger, p: Payment, goal: nat, evm: nat -> Try, fault: Fault) {
    && fault.retryable
    && forall i: nat, due: nat {:trigger TryOnce(World(ledger, due), p, goal, evm(i))} ::
         TryOnce(World(ledger, due), p, goal, evm(i)) == (World(ledger, due + 1), Failed(fault))
  }

  lemma LostTriesLose(ledger: Ledger, p: Payment, goal: nat)
    requires Balance(ledger, p.to) < goal
    ensures Loses(ledger, p, goal, LostTry, Classified("timeout"))
  {
    TimeoutIsRetried();
  }

  ghost predicate GivesUp(w: World, p: Payment, goal: nat, retryMax: nat, evm: nat -> Try, attempt: nat, last: World) {
    attempt >= 1 && EvmTries(w, p, goal, retryMax, evm, attempt) == (last, None)
  }

  lemma LastTryIsLost(ledger: Ledger, due: nat, p: Payment, goal: nat, retryMax: nat, evm: nat -> Try, fault: Fault)
    requires 1 <= retryMax && Loses(ledger, p, goal, evm, fault)
    ensures GivesUp(World(ledger, due), p, goal, retryMax, evm, retryMax, World(ledger, due + 1))
  {
    assert TryOnce(World(ledger, due), p, goal, evm(retryMax)) == (World(ledger, due + 1), Failed(fault));
  }

  lemma OneMoreIsLost(ledger: Ledger, due: nat, p: Payment, goal: nat, retryMax: nat, evm: nat -> Try, fault: Fault,
                      attempt: nat, last: World)
    requires 1 <= attempt < retryMax && Loses(ledger, p, goal, evm, fault)
    requires GivesUp(World(ledger, due + 1), p, goal, retryMax, evm, attempt + 1, last)
    ensures GivesUp(World(ledger, due), p, goal, retryMax, evm, attempt, last)
  {
    assert TryOnce(World(ledger, due), p, goal, evm(attempt)) == (World(ledger, due + 1), Failed(fault));
  }

  lemma {:induction false} LostTriesAddUp(ledger: Ledger, due: nat, p: Payment, goal: nat, retryMax: nat,
                                          evm: nat -> Try, fault: Fault, attempt: nat, last: World)
    requires 1 <= attempt <= retryMax && Loses(ledger, p, goal, evm, fault)
    requires last == World(ledger, due + retryMax + 1 - attempt)
    ensures GivesUp(World(ledger, due), p, goal, retryMax, evm, attempt, last)
    decreases retryMax - attempt
  {
    if attempt == retryMax {
      LastTryIsLost(ledger, due, p, goal, retryMax, evm, fault);
    } else {
      LostTriesAddUp(ledger, due + 1, p, goal, retryMax, evm, fault, attempt + 1, last);
      OneMoreIsLost(ledger, due, p, goal, retryMax, evm, fault, attempt, last);
    }
  }

  lemma GoodTryPaysAll(ledger: Ledger, p: Payment, lost: nat)
    requires p.from != p.to && p.amount > 0 && Covers(ledger, p, lost + 1)
    ensures var (after, result) := TryOnce(World(ledger, lost), p, Balance(ledger, p.to) + p.amount, GoodTry(lost));
            result == Paid && after.due == 0 && PaidTimes(ledger, after.ledger, p, lost + 1)
  {
    var w := World(ledger, lost);
    var sent := AfterSend(w, p, AtOnce);
    var k := SendCounts(ledger, w, p, AtOnce, 0, lost + 1);
    var n := LandingsCount(ledger, sent, p, lost, k, lost + 1);
    GoalMeansPaid(ledger, AfterLandings(sent, p, lost).ledger, p, n);
    assert AfterLandings(w, p, 0) == w;
  }

  lemma AllTriesAreLost(ledger: Ledger, p: Payment, goal: nat, retryMax: nat)
    requires Balance(ledger, p.to) < goal
    ensures GivesUp(World(ledger, 0), p, goal, retryMax, LostTry, 1, World(ledger, retryMax))
  {
    if retryMax > 0 {
      LostTriesLose(ledger, p, goal);
      LostTriesAddUp(ledger, 0, p, goal, retryMax, LostTry, Classified("timeout"), 1, World(ledger, retryMax));
    }
  }

  lemma FallbackPays(ledger: Ledger, p: Payment, goal: nat, lost: nat)
    requires p.from != p.to && 0 < p.amount <= MAX_SAFE_INTEGER && Covers(ledger, p, lost + 1)
    requires goal == Balance(ledger, p.to) + p.amount
    ensures var (after, outcome) := Finish(World(ledger, lost), None, p, goal, true, GoodTry(lost));
            outcome == HapiFallback && after.due == 0 && PaidTimes(ledger, after.ledger, p, lost + 1)
  {
    GoodTryPaysAll(ledger, p, lost);
  }

  /** The bound is reached for every number of retries: if each EVM transfer is lost to a timeout
      and lands only after the fallback's first read, all of them and the fallback are paid, and
      the call returns normally. */
  lemma EveryTryIsPaid(ledger: Ledger, p: Payment, retryMax: nat)
    requires p.from != p.to && 0 < p.amount <= MAX_SAFE_INTEGER && Covers(ledger, p, retryMax + 1)
    ensures var (after, outcome) :=
              TransferResilient(World(ledger, 0), p, None, retryMax, true, LostTry, GoodTry(retryMax));
            outcome == HapiFallback && after.due == 0 && PaidTimes(ledger, after.ledger, p, retryMax + 1)
  {
    var goal := Balance(ledger, p.to) + p.amount;
    AllTriesAreLost(ledger, p, goal, retryMax);
    FallbackPays(ledger, p, goal, retryMax);
    TransferIsFinish(World(ledger, 0), p, retryMax, true, LostTry, GoodTry(retryMax), goal);
  }

  /** In particular promptness is needed: with a single EVM try the payment can be made twice. */
  lemma LateTransferPaysTwice(from: Account, to: Account)
    requires from != to
    ensures var w := World(map[from := 10, to := 0], 0);
            var (after, outcome) :=
              TransferResilient(w, Payment(from, to, 5), None, 1, true, LostTry, GoodTry(1));
            outcome == HapiFallback && Balance(after.ledger, to) == 10 && Balance(after.ledger, from) == 0
  {
    EveryTryIsPaid(map[from := 10, to := 0], Payment(from, to, 5), 1);
  }

  /** A try that fails for lack of funds is the last one on the EVM transport, whatever else its
      message says, and even if it also reads like a network fault. */
  lemma InsufficientFundsEndsEvm(w: World, p: Payment, goal: nat, retryMax: nat, evm: nat -> Try, attempt: nat,
                                 before: string, word: string, after: string)
    requires 1 <= attempt <= retryMax && Lower(word) == "insufficient funds"
    requires TryOnce(w, p, goal, evm(attempt)).1 == Failed(Classified(before + word + after))
    ensures EvmTries(w, p, goal, retryMax, evm, attempt) == (TryOnce(w, p, goal, evm(attempt)).0, None)
  {
    InsufficientFundsNeverRetried(before, word, after);
  }
}
