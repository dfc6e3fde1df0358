/** Sums as cardinalities: a row that weighs n is n units, the k-th of the i-th. */
module Counting {

  function Units(i: nat, n: nat): set<(nat, nat)> {
    set k: nat | k < n :: (i, k)
  }

  lemma {:induction false} UnitsAreMany(i: nat, n: nat)
    ensures |Units(i, n)| == n
  {
    if n == 0 {
      assert Units(i, 0) == {};
    } else {
      UnitsAreMany(i, n - 1);
      assert Units(i, n) == Units(i, n - 1) + {(i, n - 1)};
    }
  }

  /** One more row: its units are new. */
  lemma OneMoreRow(before: set<(nat, nat)>, after: set<(nat, nat)>, i: nat, n: nat)
    requires after == before + Units(i, n) && forall u :: u in before ==> u.0 < i
    ensures |after| == |before| + n
  {
    UnitsAreMany(i, n);
    assert before !! Units(i, n);
  }
}
