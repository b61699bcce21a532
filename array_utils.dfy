/** `range` from the array helpers. */
module ArrayUtils {

  /** `[...Array(n).keys()]`: the numbers 0 to n - 1 in order. */
  function Range(n: nat): (r: seq<int>)
    ensures |r| == n
    ensures forall k :: 0 <= k < n ==> r[k] == k
  {
    if n == 0 then [] else Range(n - 1) + [n - 1]
  }

  /** `range(n)` is strictly increasing, so no number occurs twice. */
  lemma RangeIncreasing(n: nat, a: nat, b: nat)
    requires a < b < n
    ensures Range(n)[a] < Range(n)[b]
  {
  }

  /** `range(n)` holds exactly the numbers below `n`. */
  lemma RangeMembers(n: nat, x: int)
    ensures x in Range(n) <==> 0 <= x < n
  {
    if 0 <= x < n {
      assert Range(n)[x] == x;
    }
  }
}
