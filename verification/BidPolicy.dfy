/**
 Bid amounts in GUARD, as exact rationals: rounding to cents, the budget cap, the collateral
 floor, and the undercut after scouting.
 */
module BidPolicy {
  import opened Wrappers

  /** A value that need not be a finite number. */
  datatype Number = Finite(value: real) | NotFinite

  datatype StrategyBid = StrategyBid(amount: Number, collateral: Number, estimatedTimeSec: int)

  datatype Policy = Policy(minCollateral: Number, collateralBuffer: Number, enforceBudgetCap: bool)

  datatype LiveBid = LiveBid(
    amount: real, collateral: real, estimatedTimeSec: int,
    amountWei: int, collateralWei: int, inviteBudget: Option<real>)

  datatype Skip = InvalidBidAmount | InvalidBudget

  datatype Decision = Bid(bid: LiveBid) | Skipped(why: Skip)

  /** Nearest cent, halves upwards. */
  function Cents(value: real): int {
    (value * 100.0 + 0.5).Floor
  }

  function Round(value: real): real {
    Cents(value) as real / 100.0
  }

  /** Eight decimals, of a value that `toFixed(2)` prints exactly. */
  function Wei(value: real): int {
    Cents(value) * 1_000_000
  }

  function Safe(n: Number): real {
    if n.NotFinite? || n.value < 0.0 then 0.0 else n.value
  }

  function SafeBudget(n: Number): Option<real> {
    if n.NotFinite? then None else Some(Round(if n.value > 0.0 then n.value else 0.0))
  }

  function MaxReal(a: real, b: real): real {
    if a > b then a else b
  }

  function MinCollateral(policy: Policy): real {
    Round(Safe(policy.minCollateral) + Safe(policy.collateralBuffer))
  }

  function ComputeLiveBid(strategy: StrategyBid, inviteBudget: Number, policy: Policy): Decision {
    var budget := SafeBudget(inviteBudget);
    var amount := Round(Safe(strategy.amount));
    var collateral := MaxReal(Round(Safe(strategy.collateral)), MinCollateral(policy));
    if amount <= 0.0 then Skipped(InvalidBidAmount)
    else if policy.enforceBudgetCap && budget.Some? && budget.value <= 0.0 then Skipped(InvalidBudget)
    else
      var capped := if policy.enforceBudgetCap && budget.Some? && amount > budget.value then budget.value else amount;
      Bid(LiveBid(capped, collateral, strategy.estimatedTimeSec, Wei(capped), Wei(collateral), budget))
  }

  function Fraction(f: real): real {
    var capped := if f < 1.0 then f else 1.0;
    MaxReal(0.0, capped)
  }

  /** The least amount the agent bids: a share of the budget, or zero if that is unknown. */
  function FloorAmount(budget: Option<real>, maxBidFraction: real): real {
    if budget.Some? && budget.value > 0.0 then RoundedShare(budget.value, Fraction(maxBidFraction)) else 0.0
  }

  function RoundedShare(budget: real, f: real): real {
    Round(budget * f)
  }

  function Undercut(competitor: real): real {
    Round(competitor * 0.95)
  }

  /** A competitor that beats the base bid. */
  predicate Beaten(base: real, lowestCompetitor: Option<real>) {
    lowestCompetitor.Some? && 0.0 < lowestCompetitor.value < base
  }

  function ComputeScoutedBid(strategy: StrategyBid, inviteBudget: Number, lowestCompetitor: Option<real>,
                             policy: Policy, maxBidFraction: real): Decision
  {
    match ComputeLiveBid(strategy, inviteBudget, policy)
    case Skipped(why) => Skipped(why)
    case Bid(base) =>
      var budget := SafeBudget(inviteBudget);
      var floor := FloorAmount(budget, maxBidFraction);
      var amount :=
        if !Beaten(base.amount, lowestCompetitor) then base.amount
        else MaxReal(if floor > 0.0 then floor else 0.01, Undercut(lowestCompetitor.value));
      if amount <= 0.0 then Skipped(InvalidBidAmount)
      else
        var collateral := MaxReal(base.collateral, MinCollateral(policy));
        Bid(LiveBid(amount, collateral, base.estimatedTimeSec, Wei(amount), Wei(collateral), budget))
  }

  // ---- Rounding ----

  predicate WholeCents(value: real) {
    Round(value) == value
  }

  lemma RoundIsNearest(value: real)
    ensures value - 0.005 < Round(value) <= value + 0.005
  {
    var c := Cents(value);
    assert c as real <= value * 100.0 + 0.5 < c as real + 1.0;
  }

  lemma RoundOfCents(c: int)
    ensures Cents(c as real / 100.0) == c && WholeCents(c as real / 100.0)
  {
    assert c as real / 100.0 * 100.0 + 0.5 == c as real + 0.5;
  }

  lemma RoundIsWholeCents(value: real)
    ensures WholeCents(Round(value))
    ensures Round(value) > 0.0 ==> Round(value) >= 0.01
  {
    RoundOfCents(Cents(value));
  }

  lemma RoundIsMonotone(a: real, b: real)
    requires a <= b
    ensures Round(a) <= Round(b)
  {
    assert Cents(a) <= Cents(b);
  }

  // ---- The live bid ----

  /** A live bid is a positive whole number of cents, never above a known budget that is
      enforced, with at least the policy's collateral; its token amounts are exact. */
  lemma LiveBidIsSound(strategy: StrategyBid, inviteBudget: Number, policy: Policy)
    ensures var d := ComputeLiveBid(strategy, inviteBudget, policy);
            d.Bid? ==>
              && d.bid.amount >= 0.01 && WholeCents(d.bid.amount)
              && d.bid.amount <= Round(Safe(strategy.amount))
              && (policy.enforceBudgetCap && inviteBudget.Finite? ==> d.bid.amount <= inviteBudget.value + 0.005)
              && d.bid.collateral >= MinCollateral(policy) && WholeCents(d.bid.collateral)
              && d.bid.amountWei as real == d.bid.amount * 100_000_000.0
              && d.bid.collateralWei as real == d.bid.collateral * 100_000_000.0
  {
    RoundIsWholeCents(Safe(strategy.amount));
    RoundIsWholeCents(Safe(strategy.collateral));
    RoundIsWholeCents(Safe(policy.minCollateral) + Safe(policy.collateralBuffer));
    if inviteBudget.Finite? {
      var b := MaxReal(inviteBudget.value, 0.0);
      RoundIsWholeCents(b);
      RoundIsNearest(b);
    }
    var d := ComputeLiveBid(strategy, inviteBudget, policy);
    if d.Bid? {
      WeiIsExact(d.bid.amount);
      WeiIsExact(d.bid.collateral);
    }
  }

  lemma WeiIsExact(value: real)
    requires WholeCents(value)
    ensures Wei(value) as real == value * 100_000_000.0
  {
    assert value == Cents(value) as real / 100.0;
  }

  // ---- Exactly which live bid ----

  /** The amount of a number that may be missing or negative. */
  function Positive(n: Number): real {
    if n.Finite? && n.value > 0.0 then n.value else 0.0
  }

  /** What the agent would bid before rounding: the strategy's amount, or less if a known budget is enforced. */
  function Wanted(strategy: StrategyBid, inviteBudget: Number, policy: Policy): real {
    var amount := Positive(strategy.amount);
    if policy.enforceBudgetCap && inviteBudget.Finite? && Positive(inviteBudget) < amount
    then Positive(inviteBudget) else amount
  }

  /** The collateral before rounding: the strategy's, or the minimum plus the buffer if that is more. */
  function Required(strategy: StrategyBid, policy: Policy): real {
    var minimum := Positive(policy.minCollateral) + Positive(policy.collateralBuffer);
    if Positive(strategy.collateral) > minimum then Positive(strategy.collateral) else minimum
  }

  lemma RoundsToZeroIff(value: real)
    requires value >= 0.0
    ensures Round(value) <= 0.0 <==> value < 0.005
    ensures Round(value) >= 0.0
  {
    assert Cents(value) >= 0;
    assert Cents(value) == 0 <==> value * 100.0 + 0.5 < 1.0;
  }

  /** When no live bid is made, and why: the strategy's amount comes to less than half a cent; or it does
      not, but an enforced, known budget does. */
  lemma LiveBidIsSkippedIff(strategy: StrategyBid, inviteBudget: Number, policy: Policy)
    ensures var d := ComputeLiveBid(strategy, inviteBudget, policy);
            var tooSmall := Positive(strategy.amount) < 0.005;
            var noBudget := policy.enforceBudgetCap && inviteBudget.Finite? && inviteBudget.value < 0.005;
            && (d == Skipped(InvalidBidAmount) <==> tooSmall)
            && (d == Skipped(InvalidBudget) <==> !tooSmall && noBudget)
            && (d.Bid? <==> !tooSmall && !noBudget)
  {
    RoundsToZeroIff(Positive(strategy.amount));
    RoundsToZeroIff(Positive(inviteBudget));
  }

  /** The live bid, exactly: the wanted amount and the required collateral, each to the nearest cent with
      halves upwards; the estimated time as the strategy gives it; the budget to the nearest cent. */
  lemma LiveBidIsNearest(strategy: StrategyBid, inviteBudget: Number, policy: Policy)
    requires ComputeLiveBid(strategy, inviteBudget, policy).Bid?
    ensures var bid := ComputeLiveBid(strategy, inviteBudget, policy).bid;
            var x, z := Wanted(strategy, inviteBudget, policy), Required(strategy, policy);
            && x - 0.005 < bid.amount <= x + 0.005 && WholeCents(bid.amount)
            && z - 0.005 < bid.collateral <= z + 0.005 && WholeCents(bid.collateral)
            && bid.estimatedTimeSec == strategy.estimatedTimeSec
            && (bid.inviteBudget.Some? <==> inviteBudget.Finite?)
            && (inviteBudget.Finite? ==>
                  var b := Positive(inviteBudget);
                  b - 0.005 < bid.inviteBudget.value <= b + 0.005 && WholeCents(bid.inviteBudget.value))
  {
    LiveBidIsSound(strategy, inviteBudget, policy);
    RoundIsNearest(Wanted(strategy, inviteBudget, policy));
    RoundIsNearest(Required(strategy, policy));
    RoundIsNearest(Positive(inviteBudget));
    RoundIsWholeCents(Positive(inviteBudget));
    LesserIsRounded(Positive(strategy.amount), Positive(inviteBudget));
    LesserIsRounded(Positive(policy.minCollateral) + Positive(policy.collateralBuffer),
                    Positive(strategy.collateral));
  }

  /** Rounding does not change which of two amounts is the lesser, and so commutes with taking it. */
  lemma LesserIsRounded(a: real, b: real)
    ensures a <= b ==> Round(a) <= Round(b)
    ensures b <= a ==> Round(b) <= Round(a)
  {
    if a <= b {
      RoundIsMonotone(a, b);
    } else {
      RoundIsMonotone(b, a);
    }
  }

  // ---- Scouting refines the live bid ----

  /** Scouting never changes whether the agent bids, nor its collateral, so the balance and
      allowance checked before scouting are those the final bid uses; and unless a competitor
      is below the base bid it changes nothing at all. The second skip branch is dead. */
  lemma ScoutingRefinesLiveBid(strategy: StrategyBid, inviteBudget: Number, lowest: Option<real>, policy: Policy,
                               fraction: real)
    ensures var live := ComputeLiveBid(strategy, inviteBudget, policy);
            var scouted := ComputeScoutedBid(strategy, inviteBudget, lowest, policy, fraction);
            && (live.Skipped? ==> scouted == live)
            && (live.Bid? ==>
                  && scouted.Bid?
                  && scouted.bid.collateral == live.bid.collateral
                  && scouted.bid.collateralWei == live.bid.collateralWei
                  && scouted.bid.estimatedTimeSec == live.bid.estimatedTimeSec
                  && scouted.bid.inviteBudget == live.bid.inviteBudget
                  && (lowest.None? || lowest.value <= 0.0 || live.bid.amount <= lowest.value ==> scouted == live))
  {
    LiveBidIsSound(strategy, inviteBudget, policy);
  }

  // ---- Bounds on the scouted amount ----

  /** A share as a number of its own, so that what follows needs no products. */
  lemma ShareOfBudget(budget: real, f: real) returns (share: real)
    requires 0.0 <= budget && 0.0 <= f <= 1.0
    ensures share == budget * f && 0.0 <= share <= budget
  {
    share := budget * f;
    assert budget * (1.0 - f) >= 0.0;
  }

  lemma RoundedShareBounds(budget: real, f: real)
    requires WholeCents(budget) && 0.0 <= budget && 0.0 <= f <= 1.0
    ensures var floor := RoundedShare(budget, f);
            0.0 <= floor <= budget && WholeCents(floor) && (floor > 0.0 ==> floor >= 0.01)
  {
    var share := ShareOfBudget(budget, f);
    RoundOfCents(0);
    RoundIsWholeCents(share);
    RoundIsMonotone(0.0, share);
    RoundIsMonotone(share, budget);
  }

  lemma FloorBelowBudget(budget: Option<real>, fraction: real)
    requires budget.Some? ==> WholeCents(budget.value) && budget.value >= 0.0
    ensures var floor := FloorAmount(budget, fraction);
            && floor >= 0.0 && WholeCents(floor) && (floor > 0.0 ==> floor >= 0.01)
            && (budget.Some? ==> floor <= budget.value)
            && (budget.None? ==> floor == 0.0)
  {
    assert WholeCents(0.0) by {
      RoundOfCents(0);
    }
    if budget.Some? && budget.value > 0.0 {
      RoundedShareBounds(budget.value, Fraction(fraction));
    }
  }

  lemma SafeBudgetIsSound(inviteBudget: Number)
    ensures var budget := SafeBudget(inviteBudget);
            && (budget.Some? <==> inviteBudget.Finite?)
            && (budget.Some? ==> WholeCents(budget.value) && budget.value >= 0.0)
            && (budget.Some? && budget.value > 0.0 ==> budget.value <= inviteBudget.value + 0.005)
  {
    if inviteBudget.Finite? {
      var b := if inviteBudget.value > 0.0 then inviteBudget.value else 0.0;
      RoundOfCents(0);
      RoundIsWholeCents(b);
      RoundIsMonotone(0.0, b);
      RoundIsNearest(b);
    }
  }

  /** Where a scouted amount lies: at least a cent, at most the greater of the base bid and
      the floor, and within half a cent of an enforced, known budget. */
  lemma ScoutedAmountBounds(strategy: StrategyBid, inviteBudget: Number, lowest: Option<real>, policy: Policy,
                            fraction: real)
    requires ComputeScoutedBid(strategy, inviteBudget, lowest, policy, fraction).Bid?
    ensures var base := ComputeLiveBid(strategy, inviteBudget, policy).bid.amount;
            var amount := ComputeScoutedBid(strategy, inviteBudget, lowest, policy, fraction).bid.amount;
            && 0.01 <= amount <= MaxReal(base, FloorAmount(SafeBudget(inviteBudget), fraction))
            && WholeCents(amount)
            && (policy.enforceBudgetCap && inviteBudget.Finite? ==> amount <= inviteBudget.value + 0.005)
  {
    var base := ComputeLiveBid(strategy, inviteBudget, policy).bid.amount;
    LiveBidIsSound(strategy, inviteBudget, policy);
    SafeBudgetIsSound(inviteBudget);
    FloorBelowBudget(SafeBudget(inviteBudget), fraction);
    RoundOfCents(1);
    if Beaten(base, lowest) {
      RoundIsMonotone(lowest.value * 0.95, base);
      RoundIsWholeCents(lowest.value * 0.95);
    }
  }

  /** The floor is the given share of the budget, to the nearest cent; a share outside 0 to 1 counts as the
      nearer of those. */
  lemma FloorIsShare(budget: real, fraction: real)
    requires budget > 0.0
    ensures var f := if fraction < 0.0 then 0.0 else if fraction > 1.0 then 1.0 else fraction;
            budget * f - 0.005 < FloorAmount(Some(budget), fraction) <= budget * f + 0.005
    ensures FloorAmount(None, fraction) == 0.0 && FloorAmount(Some(0.0), fraction) == 0.0
  {
    RoundIsNearest(budget * Fraction(fraction));
  }

  /** The amount after a competitor has been seen below the base bid: the floor if the undercut is not above it,
      a cent if there is no floor and the undercut rounds to nothing, and otherwise 95% of the
      competitor's amount to the nearest cent. */
  lemma UndercutIsExact(strategy: StrategyBid, inviteBudget: Number, lowest: real, policy: Policy, fraction: real)
    requires ComputeLiveBid(strategy, inviteBudget, policy).Bid?
    requires 0.0 < lowest < ComputeLiveBid(strategy, inviteBudget, policy).bid.amount
    ensures var d := ComputeScoutedBid(strategy, inviteBudget, Some(lowest), policy, fraction);
            var floor := FloorAmount(SafeBudget(inviteBudget), fraction);
            && d.Bid? && d.bid.amount >= floor && d.bid.amount > lowest * 0.95 - 0.005
            && (d.bid.amount <= lowest * 0.95 + 0.005 || d.bid.amount == floor
                || (floor <= 0.0 && d.bid.amount == 0.01))
            && d.bid.amountWei as real == d.bid.amount * 100_000_000.0
  {
    ScoutingRefinesLiveBid(strategy, inviteBudget, Some(lowest), policy, fraction);
    SafeBudgetIsSound(inviteBudget);
    FloorBelowBudget(SafeBudget(inviteBudget), fraction);
    RoundIsNearest(lowest * 0.95);
    RoundIsWholeCents(lowest * 0.95);
    RoundOfCents(1);
    WeiIsExact(ComputeScoutedBid(strategy, inviteBudget, Some(lowest), policy, fraction).bid.amount);
  }

  /** The floor is promised regardless of competitors, but it is applied only to an undercut:
      the amount respects it if and only if the base bid is undercut or already does. */
  lemma FloorHeldIffUndercutOrBaseAbove(strategy: StrategyBid, inviteBudget: Number, lowest: Option<real>,
                                        policy: Policy, fraction: real)
    requires ComputeLiveBid(strategy, inviteBudget, policy).Bid?
    ensures var base := ComputeLiveBid(strategy, inviteBudget, policy).bid.amount;
            var scouted := ComputeScoutedBid(strategy, inviteBudget, lowest, policy, fraction);
            var floor := FloorAmount(SafeBudget(inviteBudget), fraction);
            scouted.Bid? && (scouted.bid.amount >= floor <==> Beaten(base, lowest) || base >= floor)
  {
    ScoutingRefinesLiveBid(strategy, inviteBudget, lowest, policy, fraction);
    SafeBudgetIsSound(inviteBudget);
    FloorBelowBudget(SafeBudget(inviteBudget), fraction);
  }

  /** What the agent computes for an empty contract outside its specializations at the initial
      prices, 15 GUARD, on a budget of 100 with a floor of a quarter, and no competitor. */
  lemma FloorCanBeMissed(time: int)
    ensures var strategy := StrategyBid(Finite(15.0), Finite(9.0), time);
            var policy := Policy(Finite(50.0), Finite(0.0), true);
            var scouted := ComputeScoutedBid(strategy, Finite(100.0), None, policy, 0.25);
            scouted.Bid? && scouted.bid.amount == 15.0 && FloorAmount(SafeBudget(Finite(100.0)), 0.25) == 25.0
  {
    RoundOfCents(1500);
    RoundOfCents(10000);
    RoundOfCents(2500);
  }

  /** The undercut beats any competitor above 0.10 GUARD, unless the floor binds. */
  lemma UndercutBeatsCompetitor(strategy: StrategyBid, inviteBudget: Number, lowest: real, policy: Policy,
                                fraction: real)
    requires ComputeLiveBid(strategy, inviteBudget, policy).Bid?
    requires 0.10 < lowest < ComputeLiveBid(strategy, inviteBudget, policy).bid.amount
    ensures var amount := ComputeScoutedBid(strategy, inviteBudget, Some(lowest), policy, fraction).bid.amount;
            var floor := FloorAmount(SafeBudget(inviteBudget), fraction);
            amount < lowest <==> floor < lowest
  {
    ScoutingRefinesLiveBid(strategy, inviteBudget, Some(lowest), policy, fraction);
    SafeBudgetIsSound(inviteBudget);
    FloorBelowBudget(SafeBudget(inviteBudget), fraction);
    RoundIsNearest(lowest * 0.95);
    assert Undercut(lowest) <= lowest * 0.95 + 0.005 < lowest;
  }

  /** Among competitors quoted in whole cents, 0.10 GUARD is exactly the limit: above it the
      undercut is strictly lower, at it and below it is a tie. */
  lemma UndercutIsStrictIffAboveTenCents(cents: int)
    requires cents > 0
    ensures Undercut(cents as real / 100.0) < cents as real / 100.0 <==> cents > 10
    ensures cents <= 10 ==> Undercut(cents as real / 100.0) == cents as real / 100.0
  {
    var v := cents as real / 100.0 * 0.95 * 100.0 + 0.5;
    assert v == cents as real * 0.95 + 0.5;
    assert Cents(cents as real / 100.0 * 0.95) == v.Floor;
    if cents <= 10 {
      assert cents as real <= v < cents as real + 1.0;
    }
  }
}
