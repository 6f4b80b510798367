/** The share balances kept by the fungible-token primitive: a map from
    account to balance in which a missing account holds nothing, and the sum
    of all balances that the ledger's total supply must equal. */
module Balances {
  import opened Accounts

  /** `ft_balance_of`: an account that was never registered holds 0. No
      balance exceeds the sum, and the others hold the rest of it. */
  function BalanceOf(m: map<AccountId, nat>, a: AccountId): (r: nat)
    ensures r <= Sum(m)
    ensures Sum(m) == r + Sum(m - {a})
  {
    if a in m then
      SumRemove(m, a);
      m[a]
    else
      assert m - {a} == m;
      0
  }

  /** Some account of a non-empty set. */
  ghost function Pick(s: set<AccountId>): (k: AccountId)
    requires s != {}
    ensures k in s
  {
    var k :| k in s; k
  }

  /** The sum of every balance in the map. */
  ghost function Sum(m: map<AccountId, nat>): nat
    decreases m.Keys
  {
    if m.Keys == {} then 0
    else
      var k := Pick(m.Keys);
      m[k] + Sum(m - {k})
  }

  /** Every balance is scaled by `price`: what each holder's shares are worth. */
  function Scaled(m: map<AccountId, nat>, price: nat): (r: map<AccountId, nat>)
    ensures r.Keys == m.Keys
    ensures forall a :: BalanceOf(r, a) == BalanceOf(m, a) * price
  {
    map a | a in m :: m[a] * price
  }

  /** Sum does not depend on which key it happens to pick first. */
  lemma {:induction false} SumRemove(m: map<AccountId, nat>, x: AccountId)
    requires x in m
    ensures Sum(m) == m[x] + Sum(m - {x})
    decreases m.Keys
  {
    var k := Pick(m.Keys);
    if k != x {
      SumRemove(m - {k}, x);
      SumRemove(m - {x}, k);
      assert m - {k} - {x} == m - {x} - {k};
    }
  }

  /** Overwriting one balance changes the sum by exactly the difference. */
  lemma SumUpdate(m: map<AccountId, nat>, a: AccountId, v: nat)
    ensures Sum(m[a := v]) + BalanceOf(m, a) == Sum(m) + v
  {
    SumRemove(m[a := v], a);
    assert m[a := v] - {a} == m - {a};
    if a in m {
      SumRemove(m, a);
    } else {
      assert m - {a} == m;
    }
  }

  /** Pricing every balance at `price` prices the whole supply at `price`. */
  lemma {:induction false} SumScaled(m: map<AccountId, nat>, price: nat)
    ensures Sum(Scaled(m, price)) == Sum(m) * price
    decreases m.Keys
  {
    if m.Keys != {} {
      var k := Pick(m.Keys);
      var s := Scaled(m, price);
      SumRemove(m, k);
      SumRemove(s, k);
      assert s - {k} == Scaled(m - {k}, price);
      SumScaled(m - {k}, price);
      calc {
        Sum(s);
        s[k] + Sum(Scaled(m - {k}, price));
        m[k] * price + Sum(m - {k}) * price;
        (m[k] + Sum(m - {k})) * price;
      }
    }
  }

  /** Moving `amount` from one holder to another keeps the sum. */
  lemma SumTransfer(m: map<AccountId, nat>, from: AccountId, to: AccountId, amount: nat)
    requires from != to && amount <= BalanceOf(m, from)
    ensures Sum(m[from := BalanceOf(m, from) - amount][to := BalanceOf(m, to) + amount]) == Sum(m)
  {
    var m1 := m[from := BalanceOf(m, from) - amount];
    SumUpdate(m, from, BalanceOf(m, from) - amount);
    assert BalanceOf(m1, to) == BalanceOf(m, to);
    SumUpdate(m1, to, BalanceOf(m, to) + amount);
  }

  /** No holder's shares are worth more than all shares together. */
  lemma {:induction false} ValueAtMostTotal(m: map<AccountId, nat>, a: AccountId, price: nat)
    ensures BalanceOf(m, a) * price <= Sum(m) * price
  {
    PriceOfDifference(BalanceOf(m, a), Sum(m), price);
  }

  /** Pricing respects order and differences: (b - a) shares cost b*p - a*p. */
  lemma PriceOfDifference(a: nat, b: nat, price: nat)
    requires a <= b
    ensures a * price <= b * price
    ensures b * price - a * price == (b - a) * price
  {
  }
}
