/** Per-instance projection data: the four attributes `savedModelMatrix0..3` that hold
    each instance's saved model matrix one row per attribute, four numbers per
    instance. */
module Instancing {
  import opened Three

  const RowNames: seq<string> :=
    ["savedModelMatrix0", "savedModelMatrix1", "savedModelMatrix2", "savedModelMatrix3"]

  lemma RowNamesDistinct()
    ensures forall r, q :: 0 <= r < q < 4 ==> RowNames[r] != RowNames[q]
  {
    forall r, q | 0 <= r < q < 4 ensures RowNames[r] != RowNames[q] {
      assert RowNames[r][16] != RowNames[q][16];
    }
  }

  /** `elements[4r..4r+3]`, what row attribute `r` receives. */
  function Row(m: Matrix4, r: nat): (v: seq<real>)
    requires r < 4
    ensures |v| == 4 && forall c :: 0 <= c < 4 ==> v[c] == m[4 * r + c]
  {
    m[4 * r..4 * r + 4]
  }

  lemma RowValues(m: Matrix4)
    ensures Row(m, 0) == [m[0], m[1], m[2], m[3]] && Row(m, 1) == [m[4], m[5], m[6], m[7]]
    ensures Row(m, 2) == [m[8], m[9], m[10], m[11]] && Row(m, 3) == [m[12], m[13], m[14], m[15]]
  {
  }

  /** A freshly allocated attribute for `instancesCount` instances: item size 4 and
      `4 * instancesCount` zeros. */
  ghost predicate Zeroed(a: BufferAttribute, instancesCount: nat)
    reads a, a.buffer
  {
    a.itemSize == 4 && a.buffer.Length == 4 * instancesCount &&
    forall j :: 0 <= j < a.buffer.Length ==> a.buffer[j] == 0.0
  }

  /** The four buffers are different arrays. */
  ghost predicate Separate(rows: seq<BufferAttribute>) {
    forall r, q :: 0 <= r < q < |rows| ==> rows[r].buffer != rows[q].buffer
  }

  /** Four different attribute names, one per matrix row. */
  predicate RowNaming(names: seq<string>) {
    |names| == 4 && forall r, q :: 0 <= r < q < 4 ==> names[r] != names[q]
  }

  /** All four row attributes are present on the geometry. */
  predicate HasRows(g: Geometry, names: seq<string>)
    reads g
    requires |names| == 4
  {
    forall r :: 0 <= r < 4 ==> names[r] in g.attributes
  }

  function Rows(g: Geometry, names: seq<string>): (rows: seq<BufferAttribute>)
    reads g
    requires |names| == 4 && HasRows(g, names)
    ensures |rows| == 4 && forall r :: 0 <= r < 4 ==> rows[r] == g.attributes[names[r]]
  {
    [g.attributes[names[0]], g.attributes[names[1]], g.attributes[names[2]], g.attributes[names[3]]]
  }

  /** The arrays a write of the four rows may touch. */
  function RowBuffers(g: Geometry, names: seq<string>): set<array<real>>
    reads g
    requires |names| == 4
  {
    if HasRows(g, names) then set r | 0 <= r < 4 :: Rows(g, names)[r].buffer else {}
  }

  /** `geometry.setAttribute(name, new InstancedBufferAttribute(new Float32Array(instancesCount * 4), 4))`. */
  method AddRow(g: Geometry, name: string, instancesCount: nat) returns (a: BufferAttribute)
    modifies g
    ensures g.attributes == old(g.attributes)[name := a]
    ensures fresh(a.buffer) && Zeroed(a, instancesCount)
  {
    a := new BufferAttribute.Zeroed(4 * instancesCount, 4);
    g.SetAttribute(name, a);
  }

  /** The attributes after four different names are given the attributes `rows`. */
  lemma SetFour(before: map<string, BufferAttribute>, names: seq<string>, rows: seq<BufferAttribute>)
    requires RowNaming(names) && |rows| == 4
    ensures var after := before[names[0] := rows[0]][names[1] := rows[1]][names[2] := rows[2]][names[3] := rows[3]];
      (forall name :: name in after <==> name in before || name in names) &&
      (forall name :: name in before && name !in names ==> after[name] == before[name]) &&
      forall r :: 0 <= r < 4 ==> names[r] in after && after[names[r]] == rows[r]
  {
  }

  /** Four new zeroed attributes for `instancesCount` instances are set under the four
      names, and the other attributes are kept. */
  method AllocateRows(g: Geometry, names: seq<string>, instancesCount: nat)
    requires RowNaming(names)
    modifies g
    ensures forall name :: name in g.attributes <==> name in old(g.attributes) || name in names
    ensures forall name :: name in old(g.attributes) && name !in names ==>
      g.attributes[name] == old(g.attributes[name])
    ensures HasRows(g, names) && Separate(Rows(g, names))
    ensures forall r :: 0 <= r < 4 ==>
      fresh(Rows(g, names)[r].buffer) && Zeroed(Rows(g, names)[r], instancesCount)
  {
    var a0 := AddRow(g, names[0], instancesCount);
    var a1 := AddRow(g, names[1], instancesCount);
    var a2 := AddRow(g, names[2], instancesCount);
    var a3 := AddRow(g, names[3], instancesCount);
    SetFour(old(g.attributes), names, [a0, a1, a2, a3]);
    assert Rows(g, names) == [a0, a1, a2, a3];
  }

  /** `allocateProjectionData(geometry, instancesCount)`: the attributes
      `savedModelMatrix0..3` are replaced by new zeroed ones, and the other attributes
      are kept. */
  method AllocateProjectionData(g: Geometry, instancesCount: nat)
    modifies g
    ensures forall name :: name in g.attributes <==> name in old(g.attributes) || name in RowNames
    ensures forall name :: name in old(g.attributes) && name !in RowNames ==>
      g.attributes[name] == old(g.attributes[name])
    ensures HasRows(g, RowNames) && Separate(Rows(g, RowNames))
    ensures forall r :: 0 <= r < 4 ==>
      fresh(Rows(g, RowNames)[r].buffer) && Zeroed(Rows(g, RowNames)[r], instancesCount)
  {
    RowNamesDistinct();
    AllocateRows(g, RowNames, instancesCount);
  }

  /** `attribute.setXYZW(index, ...)` with row `r` of `m`. */
  method WriteRow(a: BufferAttribute, index: int, m: Matrix4, r: nat)
    requires r < 4
    modifies a.buffer
    ensures a.buffer[..] == WriteXYZW(old(a.buffer[..]), a.itemSize, index, Row(m, r))
  {
    a.SetXYZW(index, m[4 * r], m[4 * r + 1], m[4 * r + 2], m[4 * r + 3]);
    assert [m[4 * r], m[4 * r + 1], m[4 * r + 2], m[4 * r + 3]] == Row(m, r);
  }

  /** Row `r` of `m` is in slot `index` of attribute `r` and every other slot keeps
      its value, for attributes over different arrays. */
  twostate predicate Written(rows: seq<BufferAttribute>, index: int, m: Matrix4)
    requires |rows| == 4
    reads rows[0].buffer, rows[1].buffer, rows[2].buffer, rows[3].buffer
  {
    Separate(rows) ==> forall r :: 0 <= r < 4 ==>
      rows[r].buffer[..] == WriteXYZW(old(rows[r].buffer[..]), rows[r].itemSize, index, Row(m, r))
  }

  /** The four `setXYZW(index, ...)` calls: row `r` of `m` goes to slot `index` of
      attribute `r`, and every other slot keeps its value. */
  method WriteRows(rows: seq<BufferAttribute>, index: int, m: Matrix4)
    requires |rows| == 4
    modifies rows[0].buffer, rows[1].buffer, rows[2].buffer, rows[3].buffer
    ensures Separate(rows) ==> forall r :: 0 <= r < 4 ==>
      rows[r].buffer[..] == WriteXYZW(old(rows[r].buffer[..]), rows[r].itemSize, index, Row(m, r))
  {
    ghost var b := [rows[0].buffer[..], rows[1].buffer[..], rows[2].buffer[..], rows[3].buffer[..]];
    WriteRow(rows[0], index, m, 0);
    ghost var c0, p1 := rows[0].buffer[..], rows[1].buffer[..];
    WriteRow(rows[1], index, m, 1);
    ghost var c1, p2 := rows[1].buffer[..], rows[2].buffer[..];
    WriteRow(rows[2], index, m, 2);
    ghost var c2, p3 := rows[2].buffer[..], rows[3].buffer[..];
    WriteRow(rows[3], index, m, 3);
    if Separate(rows) {
      assert rows[0].buffer != rows[1].buffer && rows[0].buffer != rows[2].buffer && rows[0].buffer != rows[3].buffer;
      assert rows[1].buffer != rows[2].buffer && rows[1].buffer != rows[3].buffer && rows[2].buffer != rows[3].buffer;
      assert p1 == b[1] && p2 == b[2] && p3 == b[3];
      assert rows[0].buffer[..] == c0 && rows[1].buffer[..] == c1 && rows[2].buffer[..] == c2;
      forall r | 0 <= r < 4
        ensures rows[r].buffer[..] == WriteXYZW(b[r], rows[r].itemSize, index, Row(m, r))
      {
        if r == 0 {
        } else if r == 1 {
        } else if r == 2 {
        }
      }
    }
  }

  /** The four row writes on the attributes `names` of a geometry that has them. */
  method WriteAt(g: Geometry, names: seq<string>, index: int, m: Matrix4)
    requires |names| == 4 && HasRows(g, names)
    modifies RowBuffers(g, names)
    ensures Written(old(Rows(g, names)), index, m)
  {
    WriteRows(Rows(g, names), index, m);
  }
}
