/** `ensureGuardAllowance`: read the allowance with retries, approve a bounded multiple if short. */
module Allowance {
  import opened Wrappers

  const INT64_MAX := 0x7FFF_FFFF_FFFF_FFFF
  const ONE_GUARD := 100_000_000

  datatype Result = Sufficient(allowance: nat) | Approved(amount: nat) | Unreadable

  /** The allowance afterwards, if the approval transaction succeeds. */
  function Effective(r: Result): nat
    requires !r.Unreadable?
  {
    match r
    case Sufficient(allowance) => allowance
    case Approved(amount) => amount
  }

  /** The first of three reads that answers. */
  function FirstRead(answers: nat -> Option<nat>): Option<nat> {
    if answers(0).Some? then answers(0) else if answers(1).Some? then answers(1) else answers(2)
  }

  /** At most three reads are made; an approval lies in 1..2^63-1 and happens only when the
      allowance is short; and the effective allowance covers the requirement unless that
      itself exceeds 2^63-1 and the present allowance does not reach it. */
  method EnsureGuardAllowance(answers: nat -> Option<nat>, minRequired: nat) returns (r: Result, attempts: nat)
    ensures 1 <= attempts <= 3
    ensures forall k | 0 <= k < attempts - 1 :: answers(k).None?
    ensures r.Unreadable? <==> FirstRead(answers).None?
    ensures FirstRead(answers).Some? ==>
              && (r.Approved? <==> FirstRead(answers).value < minRequired)
              && (r.Sufficient? ==> r.allowance == FirstRead(answers).value)
              && (Effective(r) >= minRequired <==> minRequired <= INT64_MAX || FirstRead(answers).value >= minRequired)
    ensures r.Approved? ==> 1 <= r.amount <= INT64_MAX
    ensures r.Approved? ==> r.amount == if 100 * minRequired <= INT64_MAX then 100 * minRequired else INT64_MAX
  {
    var allowance := 0;
    attempts := 0;
    while true
      invariant 0 <= attempts <= 2
      invariant forall k | 0 <= k < attempts :: answers(k).None?
      decreases 3 - attempts
    {
      var answer := answers(attempts);
      attempts := attempts + 1;
      if answer.Some? {
        allowance := answer.value;
        break;
      }
      if attempts == 3 {
        return Unreadable, attempts;
      }
    }
    if allowance >= minRequired {
      return Sufficient(allowance), attempts;
    }
    // A zero requirement is always met, so the one-GUARD default is never used here.
    var minNonZero := if minRequired > 0 then minRequired else ONE_GUARD;
    assert minNonZero == minRequired;
    var desired := minNonZero * 100;
    var capped := if desired > INT64_MAX then INT64_MAX else desired;
    return Approved(capped), attempts;
  }
}
