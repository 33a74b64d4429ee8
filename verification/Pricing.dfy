/** The dynamic price multiplier of an auditor agent, in exact arithmetic. */
module Pricing {
  datatype Prices = Prices(bidMultiplier: real, totalBids: nat, totalWins: nat)

  const ALPHA := 0.3
  const TARGET := 0.45

  const INITIAL_PRICES := Prices(1.0, 0, 0)

  function Clamp(low: real, high: real, x: real): real {
    var capped := if x < high then x else high;
    if capped > low then capped else low
  }

  /** One call of `updatePricingAfterOutcome`. */
  function AfterOutcome(p: Prices, won: bool): Prices {
    var bids := p.totalBids + 1;
    var wins := if won then p.totalWins + 1 else p.totalWins;
    var winRate := wins as real / bids as real;
    var next := p.bidMultiplier * (1.0 - ALPHA) + (1.0 + (TARGET - winRate)) * ALPHA;
    Prices(Clamp(0.5, 2.0, next), bids, wins)
  }

  function AfterOutcomes(outcomes: seq<bool>): Prices {
    if outcomes == [] then INITIAL_PRICES
    else AfterOutcome(AfterOutcomes(outcomes[..|outcomes| - 1]), outcomes[|outcomes| - 1])
  }

  function Wins(outcomes: seq<bool>): nat {
    if outcomes == [] then 0
    else Wins(outcomes[..|outcomes| - 1]) + if outcomes[|outcomes| - 1] then 1 else 0
  }

  lemma RateIsFraction(wins: nat, bids: nat)
    requires wins <= bids && bids > 0
    ensures 0.0 <= wins as real / bids as real <= 1.0
    ensures wins == bids ==> wins as real / bids as real == 1.0
  {
    var w, b := wins as real, bids as real;
    assert w / b * b == w;
  }

  /** Whatever the outcomes, the multiplier stays in [0.5, 1.45]: the upper clamp at 2.0 is
      never reached, and an update is the weighted average floored at 0.5. */
  lemma {:induction false} MultiplierStaysInRange(outcomes: seq<bool>)
    ensures var p := AfterOutcomes(outcomes);
            && 0.5 <= p.bidMultiplier <= 1.45
            && p.totalBids == |outcomes| && p.totalWins == Wins(outcomes) <= p.totalBids
    ensures outcomes != [] ==>
              var p := AfterOutcomes(outcomes[..|outcomes| - 1]);
              var w := Wins(outcomes) as real / |outcomes| as real;
              var average := 0.7 * p.bidMultiplier + 0.3 * (1.45 - w);
              AfterOutcomes(outcomes).bidMultiplier == if average > 0.5 then average else 0.5
  {
    if outcomes == [] {
    } else {
      var before := outcomes[..|outcomes| - 1];
      MultiplierStaysInRange(before);
      RateIsFraction(AfterOutcomes(outcomes).totalWins, |outcomes|);
    }
  }

  function Power(base: real, n: nat): real {
    if n == 0 then 1.0 else base * Power(base, n - 1)
  }

  /** The agents report wins only; after n of them the multiplier has this closed form. */
  lemma {:induction false} ClosedFormAfterWins(outcomes: seq<bool>)
    requires forall i | 0 <= i < |outcomes| :: outcomes[i]
    ensures var x := 0.45 + 0.55 * Power(0.7, |outcomes|);
            AfterOutcomes(outcomes) == Prices(if x > 0.5 then x else 0.5, |outcomes|, |outcomes|)
  {
    if outcomes == [] {
    } else {
      var n := |outcomes|;
      var before := outcomes[..n - 1];
      ClosedFormAfterWins(before);
      RateIsFraction(n, n);
      assert Power(0.7, n) == 0.7 * Power(0.7, n - 1);
      PowerPositive(n);
    }
  }

  lemma {:induction false} PowerPositive(n: nat)
    ensures Power(0.7, n) > 0.0
  {
    if n == 0 {
    } else {
      PowerPositive(n - 1);
    }
  }
}
