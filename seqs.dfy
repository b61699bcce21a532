/** The JavaScript array operations the core relies on, over Dafny sequences. */
module Seqs {

  /** `Array.prototype.indexOf`: the first position holding `x`, or -1. */
  function IndexOf<T(==)>(s: seq<T>, x: T): (k: int)
    ensures k == -1 <==> x !in s
    ensures k != -1 ==> 0 <= k < |s| && s[k] == x
    ensures forall j :: 0 <= j < |s| && j < k ==> s[j] != x
  {
    if s == [] then -1
    else if s[0] == x then 0
    else
      var k := IndexOf(s[1..], x);
      if k == -1 then -1 else k + 1
  }

  /** `splice(k, 1)`: drop the element at position `k`. */
  function RemoveAt<T>(s: seq<T>, k: nat): (r: seq<T>)
    requires k < |s|
    ensures |r| == |s| - 1
    ensures forall j :: 0 <= j < k ==> r[j] == s[j]
    ensures forall j :: k <= j < |r| ==> r[j] == s[j + 1]
  {
    s[..k] + s[k + 1..]
  }

  /** `shift()`: drop the first element; an empty array stays empty. */
  function Shift<T>(s: seq<T>): (r: seq<T>)
    ensures |r| == if s == [] then 0 else |s| - 1
    ensures s != [] ==> [s[0]] + r == s
  {
    if s == [] then s else s[1..]
  }

  /** No value occurs twice. */
  ghost predicate Distinct<T>(s: seq<T>) {
    forall a, b :: 0 <= a < b < |s| ==> s[a] != s[b]
  }
}
