/** The balance book of an ERC-20 token (the Methods section of EIP-20):
    balances per account, and the credit and debit steps that minting,
    burning and transferring are built from. Both fungible tokens use it. */
module Ledger {

  /** An account. Only equality and the zero address matter to the model. */
  type Address = nat

  /** The zero address, which ERC-20 ledgers refuse as a recipient. */
  const ZeroAddress: Address := 0

  /** 10^n. */
  function Pow10(n: nat): (r: nat)
    ensures r >= 1
  {
    if n == 0 then 1 else 10 * Pow10(n - 1)
  }

  /** The number of wei in one ether. */
  const OneEther: nat := Pow10(18)

  /** The balance of `a`; an account that was never credited holds 0. */
  function BalanceOf(m: map<Address, nat>, a: Address): (r: nat)
    ensures a !in m ==> r == 0
    ensures r <= Sum(m)
  {
    BalanceAtMostSum(m, a);
    if a in m then m[a] else 0
  }

  /** The sum of all balances. */
  ghost function Sum(m: map<Address, nat>): nat
    decreases |m|
  {
    if m == map[] then 0
    else
      var a: Address :| a in m;
      m[a] + Sum(m - {a})
  }

  /** The sum splits off any one account. */
  lemma {:induction false} SumRemove(m: map<Address, nat>, a: Address)
    requires a in m
    ensures Sum(m) == m[a] + Sum(m - {a})
    decreases |m|
  {
    var b: Address :| b in m && Sum(m) == m[b] + Sum(m - {b});
    if b != a {
      assert m - {b} - {a} == m - {a} - {b};
      SumRemove(m - {b}, a);
      SumRemove(m - {a}, b);
    }
  }

  /** Setting one balance to `v` moves the sum by `v` minus the old balance. */
  lemma {:induction false} SumUpdate(m: map<Address, nat>, a: Address, v: nat)
    ensures Sum(m[a := v]) + BalanceOf(m, a) == Sum(m) + v
  {
    SumRemove(m[a := v], a);
    if a in m {
      SumRemove(m, a);
      assert m[a := v] - {a} == m - {a};
    } else {
      assert m[a := v] - {a} == m;
    }
  }

  /** No single balance exceeds the sum of all balances. */
  lemma {:induction false} BalanceAtMostSum(m: map<Address, nat>, a: Address)
    ensures a in m ==> m[a] <= Sum(m)
  {
    if a in m {
      SumRemove(m, a);
    }
  }

  /** A book holding `v` on one account sums to `v`. */
  lemma {:induction false} SumSingleton(a: Address, v: nat)
    ensures Sum(map[a := v]) == v
  {
    SumUpdate(map[], a, v);
  }

  /** `m` with `amount` added to the balance of `a`: the credit half of a
      mint or a transfer. */
  function Credit(m: map<Address, nat>, a: Address, amount: nat): (r: map<Address, nat>)
    ensures BalanceOf(r, a) == BalanceOf(m, a) + amount
    ensures forall b :: b != a ==> BalanceOf(r, b) == BalanceOf(m, b)
    ensures Sum(r) == Sum(m) + amount
  {
    SumUpdate(m, a, BalanceOf(m, a) + amount);
    m[a := BalanceOf(m, a) + amount]
  }

  /** `m` with `amount` taken from the balance of `a`, which must cover it:
      the debit half of a burn or a transfer. */
  function Debit(m: map<Address, nat>, a: Address, amount: nat): (r: map<Address, nat>)
    requires amount <= BalanceOf(m, a)
    ensures BalanceOf(r, a) + amount == BalanceOf(m, a)
    ensures forall b :: b != a ==> BalanceOf(r, b) == BalanceOf(m, b)
    ensures Sum(r) + amount == Sum(m)
  {
    var v := BalanceOf(m, a) - amount;
    SumUpdate(m, a, v);
    m[a := v]
  }

  /** Moving `amount` from one account to another leaves the sum as it was,
      also when both are the same account. */
  lemma TransferPreservesSum(m: map<Address, nat>, from: Address, to: Address, amount: nat)
    requires amount <= BalanceOf(m, from)
    ensures Sum(Credit(Debit(m, from, amount), to, amount)) == Sum(m)
    ensures from == to ==> BalanceOf(Credit(Debit(m, from, amount), to, amount), from) == BalanceOf(m, from)
  {
  }
}
