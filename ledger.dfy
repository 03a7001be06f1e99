/**
 * Sums over per-account balances, used to state that the escrow holds
 * exactly the ETH it owes its holders.
 */
module Ledger {
  import opened Types

  /** The sum of all balances in `m`. */
  ghost function Total(m: map<Address, nat>): nat
    decreases |m|
  {
    if m == map[] then 0
    else
      var k :| k in m;
      m[k] + Total(m - {k})
  }

  /** Any single account can be split off the total. */
  lemma {:induction false} TotalRemove(m: map<Address, nat>, k: Address)
    requires k in m
    ensures Total(m) == m[k] + Total(m - {k})
    decreases |m|
  {
    var j :| j in m && Total(m) == m[j] + Total(m - {j});
    if j != k {
      assert m - {j} - {k} == m - {k} - {j};
      TotalRemove(m - {j}, k);
      TotalRemove(m - {k}, j);
    }
  }

  /** Setting one account's balance changes the total by exactly the difference. */
  lemma TotalUpdate(m: map<Address, nat>, k: Address, v: nat)
    ensures Total(m[k := v]) + (if k in m then m[k] else 0) == Total(m) + v
  {
    var m' := m[k := v];
    TotalRemove(m', k);
    assert m' - {k} == m - {k};
    if k in m {
      TotalRemove(m, k);
    } else {
      assert m - {k} == m;
    }
  }

  /** No single balance exceeds the total. */
  lemma TotalCovers(m: map<Address, nat>, k: Address)
    ensures (if k in m then m[k] else 0) <= Total(m)
  {
    if k in m {
      TotalRemove(m, k);
    }
  }
}
