/** The draw order of a multi-texture material's layers (`projectedTexturesIndices`):
    a list of fixed length N that starts as N placeholders (-1). Projecting layer
    `i` moves `i` to the back, where it is drawn on top; projecting a layer that is
    not in the list yet drops the front entry. */
module LayerStack {
  import opened Seqs

  /** The placeholder for a slot no layer occupies yet. */
  const Unset: int := -1

  /** The initial list: `textures.map(() => -1)`. */
  function AllUnset(n: nat): (s: seq<int>)
    ensures |s| == n && forall k :: 0 <= k < n ==> s[k] == Unset
  {
    seq(n, _ => Unset)
  }

  /** `includes(i) ? splice(indexOf(i), 1) : shift()`, then `push(i)`. */
  function Reorder(s: seq<int>, i: int): (r: seq<int>)
    ensures |r| == (if s == [] then 1 else |s|)
    ensures r[|r| - 1] == i
    ensures i in s ==> r[..|r| - 1] == RemoveAt(s, IndexOf(s, i))
    ensures i !in s ==> r[..|r| - 1] == Shift(s)
  {
    var rest := if i in s then RemoveAt(s, IndexOf(s, i)) else Shift(s);
    assert (rest + [i])[..|rest|] == rest;
    rest + [i]
  }

  /** The shape every reachable list has: placeholders first, then layer indices
      below `n`, none of them twice. */
  ghost predicate Stacked(s: seq<int>, n: nat) {
    (forall a, b :: 0 <= a < b < |s| && s[a] != Unset ==> s[b] != Unset) &&
    (forall k :: 0 <= k < |s| ==> s[k] == Unset || 0 <= s[k] < n) &&
    (forall a, b :: 0 <= a < b < |s| && s[a] != Unset ==> s[a] != s[b])
  }

  lemma InitialStacked(n: nat)
    ensures Stacked(AllUnset(n), n)
  {
  }

  /** `|set(s)| == |s|` for a list with no repeats. */
  lemma {:induction false} DistinctCard(s: seq<int>)
    requires Distinct(s)
    ensures |set x | x in s| == |s|
  {
    if s != [] {
      DistinctCard(s[1..]);
      assert (set x | x in s) == {s[0]} + (set x | x in s[1..]);
      assert s[0] !in s[1..];
    }
  }

  /** The layer indices below `n`. */
  function Below(n: nat): (r: set<int>)
    ensures forall x :: x in r <==> 0 <= x < n
    ensures |r| == n
  {
    if n == 0 then {} else Below(n - 1) + {n - 1}
  }

  lemma SubsetCard(a: set<int>, b: set<int>)
    requires a <= b
    ensures |a| <= |b|
  {
    assert b == a + (b - a);
  }

  /** A full list (no placeholder at the front) holds every layer index. This is why
      dropping the front entry only ever drops a placeholder. */
  lemma FullHoldsAll(s: seq<int>, n: nat, i: int)
    requires Stacked(s, n) && |s| == n && 0 <= i < n
    requires i !in s
    ensures s[0] == Unset
  {
    if s[0] != Unset {
      assert Distinct(s) by {
        forall a, b | 0 <= a < b < |s| ensures s[a] != s[b] {
          assert s[0] != Unset;
          if a > 0 { assert s[a] != Unset; }
        }
      }
      DistinctCard(s);
      var held := set x | x in s;
      var free := Below(n) - {i};
      assert held <= free by {
        forall x | x in held ensures x in free {
          var k :| 0 <= k < |s| && s[k] == x;
          if k > 0 { assert s[k] != Unset; }
        }
      }
      SubsetCard(held, free);
    }
  }

  /** Reordering keeps the length and the shape of the list. */
  lemma ReorderStacked(s: seq<int>, n: nat, i: int)
    requires Stacked(s, n) && |s| == n && 0 <= i < n
    ensures var r := Reorder(s, i);
            |r| == n && Stacked(r, n)
  {
    var r := Reorder(s, i);
    if i in s {
      var k := IndexOf(s, i);
      assert forall j :: 0 <= j < |s| && j != k ==> s[j] != i;
      assert forall j :: 0 <= j < |r| - 1 ==> r[j] == (if j < k then s[j] else s[j + 1]);
    } else {
      FullHoldsAll(s, n, i);
      assert forall j :: 0 <= j < |r| - 1 ==> r[j] == s[j + 1];
    }
  }

  /** After reordering, the layer indices held are the ones held before plus `i`. */
  lemma ReorderMembers(s: seq<int>, n: nat, i: int)
    requires Stacked(s, n) && |s| == n && 0 <= i < n
    ensures forall x :: x != Unset ==> (x in Reorder(s, i) <==> x in s || x == i)
  {
    var r := Reorder(s, i);
    assert r == r[..|r| - 1] + [i];
    if i in s {
      var k := IndexOf(s, i);
      assert s == s[..k] + [i] + s[k + 1..];
    } else {
      FullHoldsAll(s, n, i);
      assert s == [Unset] + s[1..];
    }
  }

  /** Re-projecting a layer that is already listed keeps every other entry in its
      relative order. */
  lemma ReorderKeepsOthers(s: seq<int>, i: int)
    requires i in s
    ensures var k := IndexOf(s, i);
            Reorder(s, i) == s[..k] + s[k + 1..] + [i]
  {
  }
}
