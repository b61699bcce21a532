/** JavaScript string primitives used by the shader patcher: `indexOf`, `split`,
    `Array.prototype.join`, the `split`/`join` replace-all idiom, `replace` with a
    string pattern, and the decimal rendering of a number in a template literal. */
module Text {

  /** `pat` occurs in `s` starting at position `j`. */
  predicate OccursAt(s: string, pat: string, j: int) {
    0 <= j && j + |pat| <= |s| && s[j..j + |pat|] == pat
  }

  ghost predicate Contains(s: string, pat: string) {
    exists j :: OccursAt(s, pat, j)
  }

  /** `s.indexOf(pat, from)`: the first occurrence at or after `from`, or -1. */
  function IndexOfFrom(s: string, pat: string, from: nat): (r: int)
    requires from <= |s|
    decreases |s| - from
    ensures r == -1 || (from <= r && OccursAt(s, pat, r))
    ensures r == -1 ==> forall j :: from <= j ==> !OccursAt(s, pat, j)
    ensures r != -1 ==> forall j :: from <= j < r ==> !OccursAt(s, pat, j)
  {
    if from + |pat| > |s| then -1
    else if s[from..from + |pat|] == pat then from
    else IndexOfFrom(s, pat, from + 1)
  }

  /** `s.indexOf(pat)`. */
  function IndexOf(s: string, pat: string): (r: int)
    ensures r == -1 <==> !Contains(s, pat)
    ensures r != -1 ==> OccursAt(s, pat, r) && forall j :: 0 <= j < r ==> !OccursAt(s, pat, j)
  {
    IndexOfFrom(s, pat, 0)
  }

  /** The one-character strings of `s`, which is what `s.split('')` yields. */
  function Chars(s: string): (r: seq<string>)
    ensures |r| == |s| && forall k :: 0 <= k < |s| ==> r[k] == [s[k]]
  {
    if s == [] then [] else [[s[0]]] + Chars(s[1..])
  }

  /** `s.split(sep)` for a string separator and no limit. */
  function Split(s: string, sep: string): (parts: seq<string>)
    decreases |s|
    ensures sep == [] ==> |parts| == |s| && forall k :: 0 <= k < |s| ==> parts[k] == [s[k]]
    ensures sep != [] && !Contains(s, sep) ==> parts == [s]
    ensures sep != [] && Contains(s, sep) ==> |parts| >= 2 && parts[0] == s[..IndexOf(s, sep)]
  {
    if sep == [] then Chars(s)
    else
      var i := IndexOf(s, sep);
      if i == -1 then [s] else [s[..i]] + Split(s[i + |sep|..], sep)
  }

  /** `parts.join(sep)`. */
  function Join(parts: seq<string>, sep: string): (r: string)
    ensures parts == [] ==> r == []
    ensures parts != [] ==> |parts[0]| <= |r| && r[..|parts[0]|] == parts[0]
    ensures |parts| >= 2 ==> |parts[0]| + |sep| <= |r| && r[|parts[0]|..|parts[0]| + |sep|] == sep
  {
    if parts == [] then []
    else if |parts| == 1 then parts[0]
    else parts[0] + sep + Join(parts[1..], sep)
  }

  /** `s.split(find).join(rep)`: every occurrence of `find` replaced by `rep`. */
  function ReplaceAll(s: string, find: string, rep: string): (r: string)
    ensures find != [] && !Contains(s, find) ==> r == s
  {
    Join(Split(s, find), rep)
  }

  /** `s.replace(pat, rep)` for a string pattern and a replacement text without `$`:
      only the first occurrence is replaced. */
  function ReplaceFirst(s: string, pat: string, rep: string): (r: string)
    ensures !Contains(s, pat) ==> r == s
  {
    var i := IndexOf(s, pat);
    if i == -1 then s else s[..i] + rep + s[i + |pat|..]
  }

  /** A string is the part before position `i`, the part from `i` to `j`, and the rest. */
  lemma Pieces(s: string, i: int, j: int)
    requires 0 <= i <= j <= |s|
    ensures s == s[..i] + s[i..j] + s[j..]
  {
  }

  lemma JoinCons(head: string, rest: seq<string>, sep: string)
    requires |rest| >= 1
    ensures Join([head] + rest, sep) == head + sep + Join(rest, sep)
  {
    assert ([head] + rest)[1..] == rest;
  }

  /** One step of `split`: the piece before the first separator, then the split of the rest. */
  lemma SplitFound(s: string, sep: string)
    requires sep != [] && IndexOf(s, sep) != -1
    ensures var i := IndexOf(s, sep);
            Split(s, sep) == [s[..i]] + Split(s[i + |sep|..], sep)
  {
  }

  lemma {:induction false} SplitNotEmpty(s: string, sep: string)
    requires sep != []
    ensures |Split(s, sep)| >= 1
  {
    var i := IndexOf(s, sep);
    if i != -1 {
      SplitNotEmpty(s[i + |sep|..], sep);
    }
  }

  lemma {:induction false} JoinChars(s: string)
    ensures Join(Chars(s), []) == s
  {
    if |s| > 1 {
      JoinChars(s[1..]);
      JoinCons([s[0]], Chars(s[1..]), []);
      Pieces(s, 0, 1);
    }
  }

  /** Joining the pieces of a split with the separator gives back the string:
      `s.split(sep).join(sep) == s`, for every separator, the empty one included. */
  lemma {:induction false} JoinSplit(s: string, sep: string)
    decreases |s|
    ensures Join(Split(s, sep), sep) == s
  {
    if sep == [] {
      JoinChars(s);
    } else {
      var i := IndexOf(s, sep);
      if i != -1 {
        var rest := s[i + |sep|..];
        JoinSplit(rest, sep);
        SplitNotEmpty(rest, sep);
        SplitFound(s, sep);
        JoinCons(s[..i], Split(rest, sep), sep);
        Pieces(s, i, i + |sep|);
      }
    }
  }

  lemma HeadFree(s: string, sep: string)
    requires sep != [] && IndexOf(s, sep) != -1
    ensures !Contains(s[..IndexOf(s, sep)], sep)
  {
    var i := IndexOf(s, sep);
    var head := s[..i];
    forall j | OccursAt(head, sep, j) ensures false {
      assert head[j..j + |sep|] == s[j..j + |sep|];
      assert OccursAt(s, sep, j);
    }
  }

  /** No piece of a split by a non-empty separator contains the separator. */
  lemma {:induction false} SplitPiecesFree(s: string, sep: string)
    requires sep != []
    decreases |s|
    ensures forall k :: 0 <= k < |Split(s, sep)| ==> !Contains(Split(s, sep)[k], sep)
  {
    var i := IndexOf(s, sep);
    if i != -1 {
      var rest := s[i + |sep|..];
      SplitPiecesFree(rest, sep);
      HeadFree(s, sep);
      SplitFound(s, sep);
      var parts := Split(s, sep);
      forall k | 0 <= k < |parts| ensures !Contains(parts[k], sep) {
        if k > 0 {
          assert parts[k] == Split(rest, sep)[k - 1];
        }
      }
    }
  }

  /** Replacing all occurrences rewrites the first one and goes on with the rest. */
  lemma ReplaceAllSteps(s: string, find: string, rep: string)
    requires find != [] && IndexOf(s, find) != -1
    ensures var i := IndexOf(s, find);
            ReplaceAll(s, find, rep) == s[..i] + rep + ReplaceAll(s[i + |find|..], find, rep)
  {
    var i := IndexOf(s, find);
    SplitNotEmpty(s[i + |find|..], find);
    SplitFound(s, find);
    JoinCons(s[..i], Split(s[i + |find|..], find), rep);
  }

  /** A replacement key that occurs exactly once is swapped for its value and the
      text around it is kept. */
  lemma ReplaceAllUnique(s: string, find: string, rep: string, i: nat)
    requires find != [] && OccursAt(s, find, i)
    requires forall j :: j != i ==> !OccursAt(s, find, j)
    ensures ReplaceAll(s, find, rep) == s[..i] + rep + s[i + |find|..]
  {
    assert IndexOf(s, find) == i;
    TailFree(s, find, i);
    ReplaceAllSteps(s, find, rep);
  }

  /** What follows the only occurrence of `find` holds no occurrence. */
  lemma TailFree(s: string, find: string, i: nat)
    requires find != [] && OccursAt(s, find, i)
    requires forall j :: j != i ==> !OccursAt(s, find, j)
    ensures !Contains(s[i + |find|..], find)
  {
    var rest := s[i + |find|..];
    forall j | OccursAt(rest, find, j) ensures false {
      assert rest[j..j + |find|] == s[i + |find| + j..i + |find| + j + |find|];
      assert OccursAt(s, find, i + |find| + j);
    }
  }

  lemma OccursChar(s: string, c: char, j: int)
    requires OccursAt(s, [c], j)
    ensures s[j] == c
  {
    assert s[j..j + 1][0] == s[j];
  }

  lemma CharAbsent(s: string, c: char)
    requires c !in s
    ensures !Contains(s, [c])
  {
    forall j | OccursAt(s, [c], j) ensures false {
      OccursChar(s, c, j);
    }
  }

  /** In `p + [c] + rest` with no `c` in `p`, the first `c` follows `p`. */
  lemma FirstSeparator(p: string, rest: string, c: char)
    requires c !in p
    ensures var s := p + [c] + rest;
      IndexOf(s, [c]) == |p| && s[..|p|] == p && s[|p| + 1..] == rest
  {
    var s := p + [c] + rest;
    forall j | 0 <= j < |p| ensures !OccursAt(s, [c], j) {
      if OccursAt(s, [c], j) {
        assert s[j] == p[j];
        OccursChar(s, c, j);
      }
    }
    assert OccursAt(s, [c], |p|);
  }

  /** Splitting a join by a one-character separator that no part contains gives the
      parts back. */
  lemma {:induction false} SplitJoin(parts: seq<string>, c: char)
    requires |parts| >= 1
    requires forall k :: 0 <= k < |parts| ==> c !in parts[k]
    ensures Split(Join(parts, [c]), [c]) == parts
  {
    var s := Join(parts, [c]);
    var p := parts[0];
    if |parts| == 1 {
      CharAbsent(p, c);
    } else {
      var rest := Join(parts[1..], [c]);
      assert s == p + [c] + rest;
      FirstSeparator(p, rest, c);
      SplitJoin(parts[1..], c);
      SplitFound(s, [c]);
      assert parts == [p] + parts[1..];
    }
  }

  function Digit(d: nat): (c: char)
    requires d < 10
    ensures '0' <= c <= '9'
  {
    "0123456789"[d]
  }

  /** The decimal digits of `n`, as `${n}` renders it. */
  function NatToString(n: nat): (r: string)
    ensures |r| >= 1 && forall k :: 0 <= k < |r| ==> '0' <= r[k] <= '9'
  {
    if n < 10 then [Digit(n)] else NatToString(n / 10) + [Digit(n % 10)]
  }

  /** The value of a decimal digit character. */
  function DigitValue(c: char): (d: nat)
    requires '0' <= c <= '9'
    ensures d < 10
  {
    c as int - '0' as int
  }

  lemma DigitRoundTrip(d: nat)
    requires d < 10
    ensures DigitValue(Digit(d)) == d
  {
    assert "0123456789"[d] as int == '0' as int + d;
  }

  /** Reads a string of decimal digits back as a number. */
  function ParseNat(s: string): (n: nat)
    requires forall k :: 0 <= k < |s| ==> '0' <= s[k] <= '9'
  {
    if |s| == 0 then 0 else ParseNat(s[..|s| - 1]) * 10 + DigitValue(s[|s| - 1])
  }

  /** `${n}` is read back as `n`, so different numbers render differently. */
  lemma {:induction false} ParseNatToString(n: nat)
    ensures ParseNat(NatToString(n)) == n
  {
    var s := NatToString(n);
    if n < 10 {
      assert s[..|s| - 1] == [];
      DigitRoundTrip(n);
    } else {
      assert s[..|s| - 1] == NatToString(n / 10);
      ParseNatToString(n / 10);
      DigitRoundTrip(n % 10);
    }
  }

  lemma NatToStringInjective(a: nat, b: nat)
    requires NatToString(a) == NatToString(b)
    ensures a == b
  {
    ParseNatToString(a);
    ParseNatToString(b);
  }
}
