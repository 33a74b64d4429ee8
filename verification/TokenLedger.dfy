/** A token or coin ledger: balances by account, moved by transfers. */
module TokenLedger {
  import opened Wrappers

  type Account = string

  type Ledger = map<Account, nat>

  function Balance(ledger: Ledger, a: Account): nat {
    if a in ledger then ledger[a] else 0
  }

  function Move(ledger: Ledger, from: Account, to: Account, amount: nat): Ledger
    requires amount <= Balance(ledger, from)
  {
    var debited := ledger[from := Balance(ledger, from) - amount];
    debited[to := Balance(debited, to) + amount]
  }

  function Total(ledger: Ledger, accounts: seq<Account>): nat {
    if accounts == [] then 0 else Balance(ledger, accounts[0]) + Total(ledger, accounts[1..])
  }

  lemma {:induction false} TotalUntouched(before: Ledger, after: Ledger, accounts: seq<Account>)
    requires forall a | a in accounts :: Balance(after, a) == Balance(before, a)
    ensures Total(after, accounts) == Total(before, accounts)
  {
    if accounts == [] {
    } else {
      assert accounts[0] in accounts;
      TotalUntouched(before, after, accounts[1..]);
    }
  }

  lemma {:induction false} TotalWithOneChange(before: Ledger, after: Ledger, accounts: seq<Account>, who: Account)
    requires Distinct(accounts) && who in accounts
    requires forall a | a in accounts && a != who :: Balance(after, a) == Balance(before, a)
    ensures Total(after, accounts) - Total(before, accounts) == Balance(after, who) - Balance(before, who)
  {
    var rest := accounts[1..];
    assert forall i | 0 <= i < |rest| :: rest[i] == accounts[i + 1];
    if accounts[0] == who {
      assert who !in rest;
      TotalUntouched(before, after, rest);
    } else {
      assert accounts[0] in accounts;
      TotalWithOneChange(before, after, rest, who);
    }
  }

  /** A transfer keeps the total over any duplicate-free list of accounts with both parties. */
  lemma MoveKeepsTotal(ledger: Ledger, from: Account, to: Account, amount: nat, accounts: seq<Account>)
    requires amount <= Balance(ledger, from)
    requires Distinct(accounts) && from in accounts && to in accounts
    ensures Total(Move(ledger, from, to, amount), accounts) == Total(ledger, accounts)
  {
    var debited := ledger[from := Balance(ledger, from) - amount];
    TotalWithOneChange(ledger, debited, accounts, from);
    TotalWithOneChange(debited, Move(ledger, from, to, amount), accounts, to);
  }

  /** The ledger as the running program meets it. */
  class Token {
    var ledger: Ledger

    constructor (initial: Ledger)
      ensures ledger == initial
    {
      ledger := initial;
    }

    method Transfer(from: Account, to: Account, amount: nat)
      requires amount <= Balance(ledger, from)
      modifies this
      ensures ledger == Move(old(ledger), from, to, amount)
    {
      ledger := ledger[from := Balance(ledger, from) - amount];
      ledger := ledger[to := Balance(ledger, to) + amount];
    }
  }
}
