/** Initial segments of the numbers, as sets. */
module IntSets {

  /** The numbers below `k`. */
  function Below(k: int): set<int> {
    if k <= 0 then {} else Below(k - 1) + {k - 1}
  }

  lemma {:induction false} InBelow(j: int, k: int)
    requires 0 <= j < k
    ensures j in Below(k)
  {
    if j < k - 1 {
      InBelow(j, k - 1);
    }
  }

  /** A set of numbers below `k` has at most `k` members, and all of them only when it has `k`. */
  lemma {:induction false} BelowCard(s: set<int>, k: nat)
    requires s <= Below(k)
    ensures |s| <= k
    ensures |s| == k ==> s == Below(k)
    decreases k
  {
    if k > 0 {
      BelowCard(s - {k - 1}, k - 1);
    }
  }
}
