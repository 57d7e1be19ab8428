/**
 * Token amounts and the default-zero tables that hold them.
 *
 * A `Balance` is the ink! default environment's `u128`.  Both tables of the
 * ledger are maps whose absent keys read as zero; `Sum` totals a balance table
 * and the lemmas below say how it reacts to a single write.
 */
module BalanceMap {

  /** An unsigned 128-bit amount of the token's smallest unit. */
  newtype Balance = x: int | 0 <= x < 0x1_0000_0000_0000_0000_0000_0000_0000_0000

  /** The largest amount a `Balance` can hold. */
  const BALANCE_MAX: int := 0xFFFF_FFFF_FFFF_FFFF_FFFF_FFFF_FFFF_FFFF

  /** Default-zero lookup: the stored amount, or zero when the key was never written. */
  function Get<K>(m: map<K, Balance>, k: K): (r: Balance)
    ensures k in m ==> r == m[k]
    ensures k !in m ==> r == 0
  {
    if k in m then m[k] else 0
  }

  /** The total of the entries of `m` whose keys are in `ks`. */
  ghost function SumOver<K>(m: map<K, Balance>, ks: set<K>): (total: nat)
    requires ks <= m.Keys
    decreases ks
  {
    if ks == {} then 0 else var k :| k in ks; m[k] as int + SumOver(m, ks - {k})
  }

  /** The total of all entries of a table. */
  ghost function Sum<K>(m: map<K, Balance>): (total: nat)
  {
    SumOver(m, m.Keys)
  }

  /** Any key of the set may be the one taken out first. */
  lemma {:induction false} SumOverRemove<K>(m: map<K, Balance>, ks: set<K>, j: K)
    requires ks <= m.Keys && j in ks
    ensures SumOver(m, ks) == m[j] as int + SumOver(m, ks - {j})
    decreases ks
  {
    var k :| k in ks && SumOver(m, ks) == m[k] as int + SumOver(m, ks - {k});
    if k != j {
      SumOverRemove(m, ks - {k}, j);
      SumOverRemove(m, ks - {j}, k);
      assert ks - {k} - {j} == ks - {j} - {k};
    }
  }

  /** Two tables that agree on `ks` have the same total over `ks`. */
  lemma {:induction false} SumOverAgree<K>(m: map<K, Balance>, m': map<K, Balance>, ks: set<K>)
    requires ks <= m.Keys && ks <= m'.Keys
    requires forall k :: k in ks ==> m[k] == m'[k]
    ensures SumOver(m, ks) == SumOver(m', ks)
    decreases ks
  {
    if ks != {} {
      var k :| k in ks;
      SumOverRemove(m, ks, k);
      SumOverRemove(m', ks, k);
      SumOverAgree(m, m', ks - {k});
    }
  }

  /** The empty table totals zero. */
  lemma SumEmpty<K>()
    ensures Sum<K>(map[]) == 0
  {
    var empty: map<K, Balance> := map[];
    assert empty.Keys == {};
  }

  /** One write changes the total by exactly the difference between the new and the old amount. */
  lemma SumUpdate<K>(m: map<K, Balance>, j: K, v: Balance)
    ensures Sum(m[j := v]) == Sum(m) - Get(m, j) as int + v as int
  {
    var m' := m[j := v];
    SumOverRemove(m', m'.Keys, j);
    if j in m {
      SumOverRemove(m, m.Keys, j);
      assert m'.Keys - {j} == m.Keys - {j};
    } else {
      assert m'.Keys - {j} == m.Keys;
    }
    SumOverAgree(m, m', m'.Keys - {j});
  }

  /** No entry exceeds the total of its table. */
  lemma EntryAtMostSum<K>(m: map<K, Balance>, j: K)
    ensures Get(m, j) as int <= Sum(m)
  {
    if j in m {
      SumOverRemove(m, m.Keys, j);
    }
  }
}
