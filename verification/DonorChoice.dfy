/**
 Choosing the account that funds an agent, and the activation step that composes the choice
 with the resilient transfer.
 */
module DonorChoice {
  import opened ResilientTransfer
  import opened TokenLedger
  import opened Wrappers

  /** `probe`: the balance read for the profile, or `None` when probing throws. */
  datatype Profile = Profile(accountId: Account, reserve: nat, probe: Option<nat>)

  datatype Candidate = Candidate(accountId: Account, reserve: nat, available: nat)

  /** What the account holds above its reserve. */
  function Available(p: Profile): (surplus: nat)
    requires p.probe.Some?
    ensures p.probe.value >= p.reserve ==> p.reserve + surplus == p.probe.value
    ensures p.probe.value < p.reserve ==> surplus == 0
  {
    if p.probe.value > p.reserve then p.probe.value - p.reserve else 0
  }

  /** The account is not excluded, was probed, and can pay the amount and keep its reserve. */
  predicate Covers(p: Profile, amount: nat, exclude: set<Account>) {
    p.accountId !in exclude && p.probe.Some? && (p.probe.value >= p.reserve + amount || amount == 0)
  }

  // ---- The stable descending sort of the candidates ----

  function Insert(c: Candidate, sorted: seq<Candidate>): seq<Candidate> {
    if sorted == [] || c.available >= sorted[0].available then [c] + sorted
    else [sorted[0]] + Insert(c, sorted[1..])
  }

  function SortDescending(cs: seq<Candidate>): seq<Candidate> {
    if cs == [] then [] else Insert(cs[0], SortDescending(cs[1..]))
  }

  /** The head of the sorted list is the earliest candidate with the largest surplus. */
  ghost predicate IsFirstLargest(cs: seq<Candidate>, best: nat) {
    && best < |cs|
    && (forall k | 0 <= k < |cs| :: cs[k].available <= cs[best].available)
    && (forall k | 0 <= k < best :: cs[k].available < cs[best].available)
  }

  lemma {:induction false} HeadIsFirstLargest(cs: seq<Candidate>) returns (best: nat)
    requires cs != []
    ensures IsFirstLargest(cs, best)
    ensures SortDescending(cs) != [] && SortDescending(cs)[0] == cs[best]
  {
    var rest := cs[1..];
    if rest == [] {
      best := 0;
    } else {
      var b := HeadIsFirstLargest(rest);
      assert forall k | 0 <= k < |rest| :: rest[k] == cs[k + 1];
      best := if cs[0].available >= rest[b].available then 0 else b + 1;
      forall k | 0 <= k < |cs|
        ensures cs[k].available <= cs[best].available
        ensures k < best ==> cs[k].available < cs[best].available
      {
        assert k > 0 ==> rest[k - 1].available <= rest[b].available;
        assert 0 < k < b + 1 ==> rest[k - 1].available < rest[b].available;
      }
    }
  }

  /** The profile chosen: it covers the amount, no covering profile has a larger surplus, and
      none before it has as large a one. */
  ghost predicate IsBest(profiles: seq<Profile>, amount: nat, exclude: set<Account>, i: nat) {
    && i < |profiles| && Covers(profiles[i], amount, exclude)
    && (forall k | 0 <= k < |profiles| && Covers(profiles[k], amount, exclude) ::
        Available(profiles[k]) <= Available(profiles[i]))
    && (forall k | 0 <= k < i && Covers(profiles[k], amount, exclude) ::
        Available(profiles[k]) < Available(profiles[i]))
  }

  /** The candidates are the covering profiles, in profile order; `origin` says which. */
  ghost predicate Collected(profiles: seq<Profile>, amount: nat, exclude: set<Account>, n: nat,
                            candidates: seq<Candidate>, origin: seq<nat>)
    requires n <= |profiles|
  {
    && |origin| == |candidates|
    && (forall c | 0 <= c < |origin| ::
          && origin[c] < n && Covers(profiles[origin[c]], amount, exclude)
          && candidates[c] ==
               Candidate(profiles[origin[c]].accountId, profiles[origin[c]].reserve, Available(profiles[origin[c]])))
    && (forall c, d | 0 <= c < d < |origin| :: origin[c] < origin[d])
    && (forall k | 0 <= k < n && Covers(profiles[k], amount, exclude) :: k in origin)
  }

  lemma BestCandidateIsBest(profiles: seq<Profile>, amount: nat, exclude: set<Account>,
                            candidates: seq<Candidate>, origin: seq<nat>, best: nat)
    requires Collected(profiles, amount, exclude, |profiles|, candidates, origin)
    requires IsFirstLargest(candidates, best)
    ensures IsBest(profiles, amount, exclude, origin[best])
  {
    forall k | 0 <= k < |profiles| && Covers(profiles[k], amount, exclude)
      ensures Available(profiles[k]) <= Available(profiles[origin[best]])
      ensures k < origin[best] ==> Available(profiles[k]) < Available(profiles[origin[best]])
    {
      var c :| 0 <= c < |origin| && origin[c] == k;
      assert candidates[c].available == Available(profiles[k]);
    }
  }

  method FindGuardDonorForTopup(profiles: seq<Profile>, amount: nat, exclude: set<Account>)
    returns (donor: Option<Candidate>, ghost index: nat)
    ensures donor.None? <==> forall k | 0 <= k < |profiles| :: !Covers(profiles[k], amount, exclude)
    ensures donor.Some? ==>
              && IsBest(profiles, amount, exclude, index)
              && donor.value ==
                   Candidate(profiles[index].accountId, profiles[index].reserve, Available(profiles[index]))
  {
    var candidates: seq<Candidate> := [];
    ghost var origin: seq<nat> := [];
    for n := 0 to |profiles|
      invariant Collected(profiles, amount, exclude, n, candidates, origin)
    {
      var p := profiles[n];
      if p.accountId !in exclude && p.probe.Some? {
        var available := if p.probe.value > p.reserve then p.probe.value - p.reserve else 0;
        if available >= amount {
          candidates := candidates + [Candidate(p.accountId, p.reserve, available)];
          origin := origin + [n];
        }
      }
    }
    if candidates == [] {
      return None, 0;
    }
    ghost var best := HeadIsFirstLargest(candidates);
    BestCandidateIsBest(profiles, amount, exclude, candidates, origin, best);
    return Some(SortDescending(candidates)[0]), origin[best];
  }

  // ---- The activation step ----

  datatype TopUpResult = Enough | OperatorSkipped | NoDonor | TransferThrew | Funded(donor: Account)

  /** Probes report true balances, and an account is listed once. */
  predicate TruthfulProbes(profiles: seq<Profile>, ledger: Ledger) {
    && (forall i | 0 <= i < |profiles| && profiles[i].probe.Some? ::
        profiles[i].probe.value == Balance(ledger, profiles[i].accountId))
    && (forall i, k | 0 <= i < k < |profiles| :: profiles[i].accountId != profiles[k].accountId)
  }

  /** The environment keeps its word: no transfer is in transit, applied transfers are visible
      to the next read, and the probes are truthful. */
  ghost predicate Honest(w: World, profiles: seq<Profile>, retryMax: nat, evm: nat -> Try, hapi: Try) {
    w.due == 0 && Prompt(retryMax, evm, hapi) && TruthfulProbes(profiles, w.ledger)
  }

  /** The step of `main` that brings an agent to stake plus liquid minimum. In an honest
      environment, when it reports funding, the agent holds exactly the minimum, the donor was
      the best one and keeps its reserve, and no other account is touched; when it throws, the
      ledger is as before or as after that one payment. */
  method TopUpAgent(net: Network, agent: Account, operator: Account, stake: nat, minLiquid: nat, profiles: seq<Profile>,
                    initialFault: Option<Fault>, retryMax: nat, fallback: bool, evm: nat -> Try, hapi: Try)
    returns (result: TopUpResult)
    modifies net
    ensures var held := Balance(old(net.ledger), agent);
            && (result.Enough? <==> held >= stake + minLiquid)
            && (result.OperatorSkipped? <==> held < stake + minLiquid && agent == operator)
            && (result.NoDonor? <==>
                  (held < stake + minLiquid && agent != operator &&
                   forall k | 0 <= k < |profiles| :: !Covers(profiles[k], stake + minLiquid - held, {agent})))
    ensures result.Enough? || result.OperatorSkipped? || result.NoDonor? ==> net.ledger == old(net.ledger)
    ensures result.Funded? && Honest(old(net.View()), profiles, retryMax, evm, hapi) ==>
              var topup := stake + minLiquid - Balance(old(net.ledger), agent);
              && Balance(net.ledger, agent) == stake + minLiquid
              && (exists i: nat :: IsBest(profiles, topup, {agent}, i) && profiles[i].accountId == result.donor
                              && Balance(net.ledger, result.donor) >= profiles[i].reserve)
              && Balance(net.ledger, result.donor) + topup == Balance(old(net.ledger), result.donor)
              && forall a | a != agent && a != result.donor :: Balance(net.ledger, a) == Balance(old(net.ledger), a)
    ensures result.TransferThrew? && Honest(old(net.View()), profiles, retryMax, evm, hapi) ==>
              exists i: nat :: IsBest(profiles, stake + minLiquid - Balance(old(net.ledger), agent), {agent}, i)
                && PaidAtMostOnce(old(net.ledger), net.ledger,
                     Payment(profiles[i].accountId, agent, stake + minLiquid - Balance(old(net.ledger), agent)))
  {
    var balance := Balance(net.ledger, agent);
    var minTotal := stake + minLiquid;
    if balance >= minTotal {
      return Enough;
    }
    var topup := minTotal - balance;
    if agent == operator {
      return OperatorSkipped;
    }
    var donor, index := FindGuardDonorForTopup(profiles, topup, {agent});
    if donor.None? {
      return NoDonor;
    }
    var p := Payment(donor.value.accountId, agent, topup);
    if Honest(net.View(), profiles, retryMax, evm, hapi) {
      FundsExactlyOnce(net.ledger, p, initialFault, retryMax, fallback, evm, hapi);
    }
    var outcome := net.TransferGuardResilient(p, initialFault, retryMax, fallback, evm, hapi);
    if outcome.Threw? {
      return TransferThrew;
    }
    return Funded(donor.value.accountId);
  }
}
