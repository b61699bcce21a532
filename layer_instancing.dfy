/** Per-instance projection data of the layered material: one group of four row
    attributes `savedModelMatrix{r}_{i}` per texture layer `i`. */
module LayerInstancing {
  import opened Three
  import Text
  import Instancing

  /** `savedModelMatrix${r}_${i}`. */
  function AttrName(r: nat, i: nat): string {
    "savedModelMatrix" + Text.NatToString(r) + "_" + Text.NatToString(i)
  }

  lemma AttrNameParts(r: nat, i: nat)
    requires r < 10
    ensures var s := AttrName(r, i); |s| > 18 && s[16] == Text.Digit(r) && s[18..] == Text.NatToString(i)
  {
    var s := AttrName(r, i);
    assert Text.NatToString(r) == [Text.Digit(r)];
    assert s == ("savedModelMatrix" + [Text.Digit(r)] + "_") + Text.NatToString(i);
  }

  /** Different rows or layers never share an attribute name. */
  lemma AttrNameInjective(r: nat, i: nat, q: nat, k: nat)
    requires r < 10 && q < 10
    requires AttrName(r, i) == AttrName(q, k)
    ensures r == q && i == k
  {
    AttrNameParts(r, i);
    AttrNameParts(q, k);
    Text.DigitRoundTrip(r);
    Text.DigitRoundTrip(q);
    Text.NatToStringInjective(i, k);
  }

  /** The four row attribute names of layer `i`. */
  function LayerRowNames(i: nat): (names: seq<string>)
    ensures |names| == 4 && forall r :: 0 <= r < 4 ==> names[r] == AttrName(r, i)
  {
    [AttrName(0, i), AttrName(1, i), AttrName(2, i), AttrName(3, i)]
  }

  lemma LayerRowNaming(i: nat)
    ensures Instancing.RowNaming(LayerRowNames(i))
  {
    forall r, q | 0 <= r < q < 4 ensures LayerRowNames(i)[r] != LayerRowNames(i)[q] {
      if AttrName(r, i) == AttrName(q, i) {
        AttrNameInjective(r, i, q, i);
      }
    }
  }

  /** Distinct layers never share an attribute name. */
  lemma LayerRowsApart(i: nat, k: nat)
    requires i != k
    ensures forall r, q :: 0 <= r < 4 && 0 <= q < 4 ==> LayerRowNames(i)[r] != LayerRowNames(k)[q]
  {
    forall r, q | 0 <= r < 4 && 0 <= q < 4 ensures LayerRowNames(i)[r] != LayerRowNames(k)[q] {
      if AttrName(r, i) == AttrName(q, k) {
        AttrNameInjective(r, i, q, k);
      }
    }
  }

  /** A naming of the row attributes of every layer: four different names per
      layer, and no name shared by two layers. */
  ghost predicate LayerNaming(names: nat -> seq<string>) {
    (forall i :: Instancing.RowNaming(names(i))) &&
    forall i, k, r, q :: i != k && 0 <= r < 4 && 0 <= q < 4 && |names(i)| == 4 && |names(k)| == 4 ==>
      names(i)[r] != names(k)[q]
  }

  lemma LayerRowNamesNaming()
    ensures LayerNaming(LayerRowNames)
  {
    forall i ensures Instancing.RowNaming(LayerRowNames(i)) {
      LayerRowNaming(i);
    }
    forall i, k, r, q | i != k && 0 <= r < 4 && 0 <= q < 4
      ensures LayerRowNames(i)[r] != LayerRowNames(k)[q]
    {
      LayerRowsApart(i, k);
    }
  }

  /** All names of the layers below `count`. */
  function NamesBelow(names: nat -> seq<string>, count: nat): set<string> {
    if count == 0 then {} else var row := names(count - 1); NamesBelow(names, count - 1) + set n | n in row
  }

  lemma {:induction false} NamesBelowMembers(names: nat -> seq<string>, count: nat, name: string)
    requires LayerNaming(names)
    ensures name in NamesBelow(names, count) <==>
      exists r, k :: 0 <= r < 4 && 0 <= k < count && name == names(k)[r]
  {
    if count > 0 {
      var i := count - 1;
      NamesBelowMembers(names, i, name);
      assert Instancing.RowNaming(names(i));
      if name in names(i) {
        var r :| 0 <= r < 4 && names(i)[r] == name;
        assert 0 <= i < count && name == names(i)[r];
      }
      if exists r, k :: 0 <= r < 4 && 0 <= k < count && name == names(k)[r] {
        var r, k :| 0 <= r < 4 && 0 <= k < count && name == names(k)[r];
        if k == i {
          assert name in names(i);
        }
      }
    }
  }

  /** The names `allocateProjectionData` sets for `texturesCount` layers. */
  function LayerNames(texturesCount: nat): set<string> {
    NamesBelow(LayerRowNames, texturesCount)
  }

  /** They are exactly `savedModelMatrix{r}_{k}` for `r < 4` and `k < texturesCount`. */
  lemma LayerNamesMembers(texturesCount: nat, name: string)
    ensures name in LayerNames(texturesCount) <==>
      exists r, k :: 0 <= r < 4 && 0 <= k < texturesCount && name == AttrName(r, k)
  {
    LayerRowNamesNaming();
    NamesBelowMembers(LayerRowNames, texturesCount, name);
    if name in LayerNames(texturesCount) {
      var r, k :| 0 <= r < 4 && 0 <= k < texturesCount && name == LayerRowNames(k)[r];
      RowName(r, k);
    } else {
      forall r, k | 0 <= r < 4 && 0 <= k < texturesCount ensures name != AttrName(r, k) {
        RowName(r, k);
      }
    }
  }

  lemma RowName(r: nat, k: nat)
    requires r < 4
    ensures LayerRowNames(k)[r] == AttrName(r, k)
  {
  }

  /** The attributes are those of `base` with the names in `names` set and `base`'s
      other entries kept. */
  ghost predicate Extends(attrs: map<string, BufferAttribute>, base: map<string, BufferAttribute>, names: set<string>) {
    (forall name :: name in attrs <==> name in base || name in names) &&
    forall name :: name in base && name !in names ==> attrs[name] == base[name]
  }

  /** Setting the names of one more row keeps the extension property. */
  lemma ExtendsStep(before: map<string, BufferAttribute>, after: map<string, BufferAttribute>,
                    base: map<string, BufferAttribute>, below: set<string>, row: seq<string>)
    requires Extends(before, base, below)
    requires forall name :: name in after <==> name in before || name in row
    requires forall name :: name in before && name !in row ==> after[name] == before[name]
    ensures Extends(after, base, below + set n | n in row)
  {
  }

  /** Layer `k`'s four names hold the attributes `made[k]`. */
  ghost predicate Placed(attrs: map<string, BufferAttribute>, names: nat -> seq<string>,
                         made: seq<seq<BufferAttribute>>)
  {
    forall k :: 0 <= k < |made| ==>
      |names(k)| == 4 && |made[k]| == 4 &&
      forall r :: 0 <= r < 4 ==> names(k)[r] in attrs && attrs[names(k)[r]] == made[k][r]
  }

  /** Setting layer `i`'s rows leaves the rows of the layers below in place. */
  lemma PlacedStep(before: map<string, BufferAttribute>, after: map<string, BufferAttribute>,
                   names: nat -> seq<string>, made: seq<seq<BufferAttribute>>, rows: seq<BufferAttribute>)
    requires LayerNaming(names) && Placed(before, names, made)
    requires forall name :: name in before && name !in names(|made|) ==> name in after && after[name] == before[name]
    requires |rows| == 4 && forall r :: 0 <= r < 4 ==> names(|made|)[r] in after && after[names(|made|)[r]] == rows[r]
    ensures Placed(after, names, made + [rows])
  {
    var i := |made|;
    assert Instancing.RowNaming(names(i));
    forall k | 0 <= k < i
      ensures forall r :: 0 <= r < 4 ==> names(k)[r] in after && after[names(k)[r]] == made[k][r]
    {
      assert Instancing.RowNaming(names(k));
      assert forall r :: 0 <= r < 4 ==> names(k)[r] !in names(i);
    }
  }

  /** Four attributes in different arrays, each zeroed for `instancesCount` instances. */
  ghost predicate ZeroedRows(rows: seq<BufferAttribute>, instancesCount: nat)
    reads rows, set r | 0 <= r < |rows| :: rows[r].buffer
  {
    |rows| == 4 && Instancing.Separate(rows) &&
    forall r :: 0 <= r < 4 ==> Instancing.Zeroed(rows[r], instancesCount)
  }

  ghost predicate AllZeroed(made: seq<seq<BufferAttribute>>, instancesCount: nat)
    reads set k, r | 0 <= k < |made| && 0 <= r < |made[k]| :: made[k][r]
    reads set k, r | 0 <= k < |made| && 0 <= r < |made[k]| :: made[k][r].buffer
  {
    forall k :: 0 <= k < |made| ==> ZeroedRows(made[k], instancesCount)
  }

  lemma AllZeroedStep(made: seq<seq<BufferAttribute>>, rows: seq<BufferAttribute>, instancesCount: nat)
    requires AllZeroed(made, instancesCount) && ZeroedRows(rows, instancesCount)
    ensures AllZeroed(made + [rows], instancesCount)
  {
    assert forall k :: 0 <= k < |made| ==> (made + [rows])[k] == made[k];
  }

  /** The state after the loop of `allocateProjectionData` has handled the layers
      below `|made|`, whose rows are the attributes `made`. */
  ghost predicate Progress(attrs: map<string, BufferAttribute>, base: map<string, BufferAttribute>,
                           names: nat -> seq<string>, made: seq<seq<BufferAttribute>>, instancesCount: nat)
    reads set k, r | 0 <= k < |made| && 0 <= r < |made[k]| :: made[k][r]
    reads set k, r | 0 <= k < |made| && 0 <= r < |made[k]| :: made[k][r].buffer
  {
    Extends(attrs, base, NamesBelow(names, |made|)) && Placed(attrs, names, made) && AllZeroed(made, instancesCount)
  }

  /** The arrays of all the attributes in `made`. */
  ghost function Buffers(made: seq<seq<BufferAttribute>>): set<array<real>> {
    set k, r | 0 <= k < |made| && 0 <= r < |made[k]| :: made[k][r].buffer
  }

  /** No two row attributes of any layers share an array. */
  ghost predicate AllSeparate(made: seq<seq<BufferAttribute>>) {
    forall k, r, k2, r2 ::
      (0 <= k < |made| && 0 <= r < |made[k]| && 0 <= k2 < |made| && 0 <= r2 < |made[k2]| && (k != k2 || r != r2)) ==>
        made[k][r].buffer != made[k2][r2].buffer
  }

  lemma AllSeparateStep(made: seq<seq<BufferAttribute>>, rows: seq<BufferAttribute>)
    requires AllSeparate(made) && Instancing.Separate(rows)
    requires Buffers(made) !! Buffers([rows])
    ensures AllSeparate(made + [rows])
  {
    var m: seq<seq<BufferAttribute>> := made + [rows];
    forall k: int, r: int, k2: int, r2: int | 0 <= k < |m| && 0 <= r < |m[k]| && 0 <= k2 < |m| && 0 <= r2 < |m[k2]| &&
                          (k != k2 || r != r2)
      ensures m[k][r].buffer != m[k2][r2].buffer
    {
      if k < |made| && k2 == |made| {
        assert m[k][r].buffer in Buffers(made);
        assert m[k2][r2].buffer == [rows][0][r2].buffer;
      } else if k == |made| && k2 < |made| {
        assert m[k2][r2].buffer in Buffers(made);
        assert m[k][r].buffer == [rows][0][r].buffer;
      } else if k == |made| && k2 == |made| {
        assert r != r2;
        if r < r2 {
          assert rows[r].buffer != rows[r2].buffer;
        } else {
          assert rows[r2].buffer != rows[r].buffer;
        }
      } else {
        assert m[k][r] == made[k][r] && m[k2][r2] == made[k2][r2];
      }
    }
  }

  lemma BuffersStep(made: seq<seq<BufferAttribute>>, rows: seq<BufferAttribute>)
    ensures Buffers(made + [rows]) == Buffers(made) + Buffers([rows])
  {
    var m := made + [rows];
    forall b | b in Buffers(m) ensures b in Buffers(made) + Buffers([rows]) {
      var k, r :| 0 <= k < |m| && 0 <= r < |m[k]| && b == m[k][r].buffer;
      if k == |made| {
        assert b == [rows][0][r].buffer;
      } else {
        assert b == made[k][r].buffer;
      }
    }
    forall b | b in Buffers(made) + Buffers([rows]) ensures b in Buffers(m) {
      if b in Buffers(made) {
        var k, r :| 0 <= k < |made| && 0 <= r < |made[k]| && b == made[k][r].buffer;
        assert b == m[k][r].buffer;
      } else {
        var k, r :| 0 <= k < 1 && 0 <= r < |[rows][k]| && b == [rows][k][r].buffer;
        assert b == m[|made|][r].buffer;
      }
    }
  }

  /** What `Progress` says about one layer: its four names hold `made[k]`, new zeroed
      attributes in different arrays. */
  lemma ProgressRows(g: Geometry, base: map<string, BufferAttribute>, names: nat -> seq<string>,
                     made: seq<seq<BufferAttribute>>, instancesCount: nat, k: nat)
    requires Progress(g.attributes, base, names, made, instancesCount) && k < |made|
    ensures |names(k)| == 4 && Instancing.HasRows(g, names(k))
    ensures Instancing.Rows(g, names(k)) == made[k] && ZeroedRows(made[k], instancesCount)
  {
  }

  /** `allocateProjectionData(geometry, instancesCount, texturesCount)`: for every
      layer `k` below `texturesCount` (callers pass 1 for the source's default) the
      four row attributes `savedModelMatrix{r}_{k}` are set to new zeroed ones,
      `made[k]`, no two of all of them sharing an array; the other attributes are
      kept. */
  method AllocateProjectionData(g: Geometry, instancesCount: nat, texturesCount: nat)
    returns (ghost made: seq<seq<BufferAttribute>>)
    modifies g
    ensures |made| == texturesCount && Progress(g.attributes, old(g.attributes), LayerRowNames, made, instancesCount)
    ensures Extends(g.attributes, old(g.attributes), LayerNames(texturesCount))
    ensures fresh(Buffers(made)) && AllSeparate(made)
  {
    LayerRowNamesNaming();
    made := AllocateLayers(g, LayerRowNames, instancesCount, texturesCount);
  }

  /** The loop of `allocateProjectionData` over any naming of the layers; `made` are
      the new attributes, layer by layer. */
  method AllocateLayers(g: Geometry, names: nat -> seq<string>, instancesCount: nat, texturesCount: nat)
    returns (ghost made: seq<seq<BufferAttribute>>)
    requires LayerNaming(names)
    modifies g
    ensures |made| == texturesCount && Progress(g.attributes, old(g.attributes), names, made, instancesCount)
    ensures fresh(Buffers(made)) && AllSeparate(made)
  {
    made := [];
    var i := 0;
    while i < texturesCount
      invariant 0 <= i <= texturesCount && |made| == i
      invariant Progress(g.attributes, old(g.attributes), names, made, instancesCount)
      invariant fresh(Buffers(made)) && AllSeparate(made)
    {
      var rows := AllocateLayer(g, names, old(g.attributes), made, i, instancesCount);
      assert ZeroedRows(rows, instancesCount) by {
        assert (made + [rows])[i] == rows;
      }
      AllSeparateStep(made, rows);
      BuffersStep(made, rows);
      made := made + [rows];
      i := i + 1;
    }
  }

  /** One iteration, for layer `i`: its four attributes are set and the layers
      below keep theirs. */
  method AllocateLayer(g: Geometry, names: nat -> seq<string>, ghost base: map<string, BufferAttribute>,
                       ghost made: seq<seq<BufferAttribute>>, i: nat, instancesCount: nat)
    returns (ghost rows: seq<BufferAttribute>)
    requires LayerNaming(names) && |made| == i
    requires Progress(g.attributes, base, names, made, instancesCount)
    modifies g
    ensures Progress(g.attributes, base, names, made + [rows], instancesCount)
    ensures |rows| == 4 && fresh(Buffers([rows]))
  {
    assert Instancing.RowNaming(names(i));
    ghost var before := g.attributes;
    Instancing.AllocateRows(g, names(i), instancesCount);
    rows := Instancing.Rows(g, names(i));
    ExtendsStep(before, g.attributes, base, NamesBelow(names, i), names(i));
    PlacedStep(before, g.attributes, names, made, rows);
    AllZeroedStep(made, rows, instancesCount);
    assert forall b :: b in Buffers([rows]) ==> exists r :: 0 <= r < 4 && b == rows[r].buffer;
  }
}
