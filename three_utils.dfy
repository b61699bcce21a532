/** The shader helpers shared by every variant of the material: `monkeyPatch`, the
    readiness test behind `addLoadListener`, and the texel-decoding template. */
module ThreeUtils {
  import opened Wrappers
  import opened Text
  import opened Three

  /** The line of the built-in shader where `header` and `main` are inserted. */
  const Marker: string := "void main() {"

  /** What the first marker is replaced by: the header, the marker itself, then the
      start of the body of `main`. */
  function MainBlock(header: string, main: string): string {
    "\n    " + header + "\n    " + Marker + "\n      " + main + "\n    "
  }

  /** The literal replacements, in key order, each applied to the text the previous
      one produced: `split(key).join(value)`. */
  function ReplaceEach(s: string, replacements: seq<(string, string)>): (r: string)
    decreases |replacements|
    ensures replacements == [] ==> r == s
    ensures |replacements| == 1 ==> r == ReplaceAll(s, replacements[0].0, replacements[0].1)
  {
    if replacements == [] then s
    else
      var last := replacements[|replacements| - 1];
      ReplaceAll(ReplaceEach(s, replacements[..|replacements| - 1]), last.0, last.1)
  }

  /** `#define ${d} ${defines[d]}`. */
  function DefineLine(d: (string, string)): string {
    "#define " + d.0 + " " + d.1
  }

  function DefineLines(defines: seq<(string, string)>): (lines: seq<string>)
    ensures |lines| == |defines|
    ensures forall k :: 0 <= k < |defines| ==> lines[k] == DefineLine(defines[k])
  {
    seq(|defines|, k requires 0 <= k < |defines| => DefineLine(defines[k]))
  }

  /** The defines block: one `#define` line per key, joined by newlines. */
  function DefinesBlock(defines: seq<(string, string)>): (r: string)
    ensures defines == [] ==> r == []
    ensures |defines| == 1 ==> r == DefineLine(defines[0])
  {
    Join(DefineLines(defines), "\n")
  }

  /** Text free of `$`, so that `String.prototype.replace` inserts it literally. */
  predicate NoDollar(s: string) {
    '$' !in s
  }

  /** The shader `monkeyPatch` returns. `defines` and `replacements` (the `...replaces` rest object) list an object's
      entries in `Object.keys` order. */
  function PatchedShader(shader: string, defines: seq<(string, string)>, header: string,
                         main: string, replacements: seq<(string, string)>): (r: string)
    requires NoDollar(header) && NoDollar(main)
    ensures OccursAt(r, DefinesBlock(defines), 5)
    ensures OccursAt(r, "\n  ", |r| - 3)
  {
    var body := ReplaceFirst(ReplaceEach(shader, replacements), Marker, MainBlock(header, main));
    Wrapped(DefinesBlock(defines), body);
    "\n    " + DefinesBlock(defines) + "\n    " + body + "\n  "
  }

  /** The defines block sits after the first indentation, and the closing indentation
      ends the text. */
  lemma Wrapped(d: string, body: string)
    ensures var r := "\n    " + d + "\n    " + body + "\n  ";
            OccursAt(r, d, 5) && OccursAt(r, "\n  ", |r| - 3)
  {
    var a := "\n    " + d;
    var r := a + "\n    " + body + "\n  ";
    SliceLeft(a + "\n    " + body, "\n  ", 5, 5 + |d|);
    SliceLeft(a + "\n    ", body, 5, 5 + |d|);
    SliceLeft(a, "\n    ", 5, 5 + |d|);
    SliceRight("\n    ", d, 5, 5 + |d|);
    SliceRight(a + "\n    " + body, "\n  ", |r| - 3, |r|);
  }

  /** `monkeyPatch(shader, {defines, header, main, ...replaces})`. */
  method MonkeyPatch(shader: string, defines: seq<(string, string)>, header: string,
                     main: string, replacements: seq<(string, string)>) returns (r: string)
    requires NoDollar(header) && NoDollar(main)
    ensures r == PatchedShader(shader, defines, header, main, replacements)
  {
    var patchedShader := shader;
    var k := 0;
    while k < |replacements|
      invariant 0 <= k <= |replacements|
      invariant patchedShader == ReplaceEach(shader, replacements[..k])
    {
      patchedShader := ReplaceAll(patchedShader, replacements[k].0, replacements[k].1);
      k := k + 1;
      assert replacements[..k][..k - 1] == replacements[..k - 1];
    }
    assert replacements[..|replacements|] == replacements;
    patchedShader := ReplaceFirst(patchedShader, Marker, MainBlock(header, main));
    var stringDefines := DefinesBlock(defines);
    r := "\n    " + stringDefines + "\n    " + patchedShader + "\n  ";
  }

  /** Keys apply in order: the first key rewrites the shader, and the remaining keys
      rewrite its result. */
  lemma {:induction false} ReplaceEachFirstKeyFirst(s: string, kv: (string, string), rest: seq<(string, string)>)
    decreases |rest|
    ensures ReplaceEach(s, [kv] + rest) == ReplaceEach(ReplaceAll(s, kv.0, kv.1), rest)
  {
    if rest == [] {
      assert ([kv] + rest)[..0] == [];
    } else {
      var all := [kv] + rest;
      var front := rest[..|rest| - 1];
      assert all[..|all| - 1] == [kv] + front;
      ReplaceEachFirstKeyFirst(s, kv, front);
    }
  }

  /** Keys that do not occur in the shader leave it unchanged. */
  lemma {:induction false} ReplaceEachAbsent(s: string, replacements: seq<(string, string)>)
    requires forall k :: 0 <= k < |replacements| ==> replacements[k].0 != [] && !Contains(s, replacements[k].0)
    decreases |replacements|
    ensures ReplaceEach(s, replacements) == s
  {
    if replacements != [] {
      ReplaceEachAbsent(s, replacements[..|replacements| - 1]);
    }
  }

  /** Replacing each key by itself changes nothing, whatever the keys. */
  lemma {:induction false} ReplaceEachIdentity(s: string, replacements: seq<(string, string)>)
    requires forall k :: 0 <= k < |replacements| ==> replacements[k].0 == replacements[k].1
    decreases |replacements|
    ensures ReplaceEach(s, replacements) == s
  {
    if replacements != [] {
      ReplaceEachIdentity(s, replacements[..|replacements| - 1]);
      JoinSplit(s, replacements[|replacements| - 1].0);
    }
  }

  lemma Slice3(a: string, b: string, c: string)
    ensures (a + b + c)[|a|..|a| + |b|] == b
  {
  }

  lemma Regroup(a: string, b: string, c: string, d: string, e: string)
    ensures a + (b + c + d) + e == (a + b) + c + (d + e)
  {
  }

  lemma SliceLeft(a: string, b: string, i: int, j: int)
    requires 0 <= i <= j <= |a|
    ensures (a + b)[i..j] == a[i..j]
  {
  }

  lemma SliceRight(a: string, b: string, i: int, j: int)
    requires |a| <= i <= j <= |a| + |b|
    ensures (a + b)[i..j] == b[i - |a|..j - |a|]
  {
  }

  /** Where the header, the marker and the main text sit inside the block. */
  lemma MainBlockSlices(header: string, main: string)
    ensures var b := MainBlock(header, main);
            b[5..5 + |header|] == header &&
            b[|header| + 10..|header| + 23] == Marker &&
            b[|header| + 30..|header| + 30 + |main|] == main
  {
    var w, w3 := "\n    ", "\n      ";
    var a1 := w + header;
    var a2 := a1 + w;
    var a3 := a2 + Marker;
    var a4 := a3 + w3;
    var a5 := a4 + main;
    var h := |header|;
    assert |w| == 5 && |w3| == 7 && |Marker| == 13;
    SliceLeft(a5, w, 5, 5 + h);
    SliceLeft(a4, main, 5, 5 + h);
    SliceLeft(a3, w3, 5, 5 + h);
    SliceLeft(a2, Marker, 5, 5 + h);
    SliceLeft(a1, w, 5, 5 + h);
    SliceRight(w, header, 5, 5 + h);
    SliceLeft(a5, w, h + 10, h + 23);
    SliceLeft(a4, main, h + 10, h + 23);
    SliceLeft(a3, w3, h + 10, h + 23);
    SliceRight(a2, Marker, h + 10, h + 23);
    SliceLeft(a5, w, h + 30, h + 30 + |main|);
    SliceRight(a4, main, h + 30, h + 30 + |main|);
  }

  /** Where the header, the marker and the main text sit once the block is in place. */
  lemma BlockLayout(pre: string, header: string, main: string, post: string)
    ensures var r := pre + MainBlock(header, main) + post;
            var p := |pre| + 5;
            r[p..p + |header|] == header &&
            r[p + |header| + 5..p + |header| + 18] == Marker &&
            r[p + |header| + 25..p + |header| + 25 + |main|] == main
  {
    var b := MainBlock(header, main);
    var n, h, m := |pre|, |header|, |main|;
    MainBlockSlices(header, main);
    assert |b| == h + m + 35;
    SliceLeft(pre + b, post, n + 5, n + 5 + h);
    SliceRight(pre, b, n + 5, n + 5 + h);
    SliceLeft(pre + b, post, n + h + 10, n + h + 23);
    SliceRight(pre, b, n + h + 10, n + h + 23);
    SliceLeft(pre + b, post, n + h + 30, n + h + 30 + m);
    SliceRight(pre, b, n + h + 30, n + h + 30 + m);
  }

  /** When the replaced shader has the marker, the output is the defines block, the text
      before the first marker (which holds no marker), the header, the marker, the
      main text, and the rest of the shader, in this order; the header and main text
      appear verbatim, untouched by the replacements. */
  lemma InsertAtMain(shader: string, defines: seq<(string, string)>, header: string,
                     main: string, replacements: seq<(string, string)>)
    requires NoDollar(header) && NoDollar(main)
    requires Contains(ReplaceEach(shader, replacements), Marker)
    ensures var t := ReplaceEach(shader, replacements);
            var i := IndexOf(t, Marker);
            var r := PatchedShader(shader, defines, header, main, replacements);
            var p := 15 + |DefinesBlock(defines)| + i;
            0 <= i && i + |Marker| <= |t| && !Contains(t[..i], Marker) &&
            r == "\n    " + DefinesBlock(defines) + "\n    " + t[..i] + MainBlock(header, main) + t[i + |Marker|..] + "\n  " &&
            BlockAt(r, header, main, p)
  {
    var t := ReplaceEach(shader, replacements);
    InsertAtMainShape(shader, defines, header, main, replacements);
    LayoutAt(PatchedShader(shader, defines, header, main, replacements), DefinesBlock(defines),
             t, IndexOf(t, Marker), header, main);
    HeadFree(t, Marker);
  }

  /** The header, the marker and the main text at their places from position `p`. */
  predicate BlockAt(r: string, header: string, main: string, p: int) {
    0 <= p && p + |header| + 25 + |main| <= |r| &&
    r[p..p + |header|] == header &&
    r[p + |header| + 5..p + |header| + 18] == Marker &&
    r[p + |header| + 25..p + |header| + 25 + |main|] == main
  }

  /** `BlockLayout` at a known position of the block. */
  lemma LayoutAt(r: string, d: string, t: string, i: int, header: string, main: string)
    requires 0 <= i && i + |Marker| <= |t|
    requires r == "\n    " + d + "\n    " + t[..i] + MainBlock(header, main) + t[i + |Marker|..] + "\n  "
    ensures BlockAt(r, header, main, 15 + |d| + i)
  {
    var pre := "\n    " + d + "\n    " + t[..i];
    var post := t[i + |Marker|..] + "\n  ";
    assert r == pre + MainBlock(header, main) + post;
    BlockLayout(pre, header, main, post);
  }

  /** The marker case as one concatenation of the prefix, the block and the suffix. */
  lemma InsertAtMainShape(shader: string, defines: seq<(string, string)>, header: string,
                          main: string, replacements: seq<(string, string)>)
    requires NoDollar(header) && NoDollar(main)
    requires Contains(ReplaceEach(shader, replacements), Marker)
    ensures var t := ReplaceEach(shader, replacements);
            var i := IndexOf(t, Marker);
            var r := PatchedShader(shader, defines, header, main, replacements);
            0 <= i && i + |Marker| <= |t| &&
            r == "\n    " + DefinesBlock(defines) + "\n    " + t[..i] + MainBlock(header, main) + t[i + |Marker|..] + "\n  "
  {
    var t := ReplaceEach(shader, replacements);
    var i := IndexOf(t, Marker);
    var mb := MainBlock(header, main);
    ReplaceFirstAt(t, Marker, mb);
    Spliced(DefinesBlock(defines), ReplaceFirst(t, Marker, mb), t[..i], mb, t[i + |Marker|..]);
  }

  lemma ReplaceFirstAt(t: string, pat: string, rep: string)
    requires IndexOf(t, pat) != -1
    ensures var i := IndexOf(t, pat);
            0 <= i && i + |pat| <= |t| && ReplaceFirst(t, pat, rep) == t[..i] + rep + t[i + |pat|..]
  {
  }

  lemma Spliced(d: string, x: string, a: string, b: string, c: string)
    requires x == a + b + c
    ensures "\n    " + d + "\n    " + x + "\n  " == "\n    " + d + "\n    " + a + b + c + "\n  "
  {
    Regroup("\n    " + d + "\n    ", a, b, c, "\n  ");
  }

  /** Without a marker nothing is inserted: the output is the defines block and the
      replaced shader. */
  lemma NoMarker(shader: string, defines: seq<(string, string)>, header: string,
                 main: string, replacements: seq<(string, string)>)
    requires NoDollar(header) && NoDollar(main)
    requires !Contains(ReplaceEach(shader, replacements), Marker)
    ensures PatchedShader(shader, defines, header, main, replacements) ==
            "\n    " + DefinesBlock(defines) + "\n    " + ReplaceEach(shader, replacements) + "\n  "
  {
  }

  /** Both cases at once: with a marker the block replaces the first one, without
      one the shader is only wrapped. */
  lemma PatchedCases(shader: string, defines: seq<(string, string)>, header: string,
                     main: string, replacements: seq<(string, string)>)
    requires NoDollar(header) && NoDollar(main)
    ensures var t := ReplaceEach(shader, replacements);
            var i := IndexOf(t, Marker);
            var r := PatchedShader(shader, defines, header, main, replacements);
            var pre := "\n    " + DefinesBlock(defines) + "\n    ";
            (i == -1 ==> r == pre + t + "\n  ") &&
            (i != -1 ==> 0 <= i && i + |Marker| <= |t| &&
                         r == pre + t[..i] + MainBlock(header, main) + t[i + |Marker|..] + "\n  ")
  {
    if Contains(ReplaceEach(shader, replacements), Marker) {
      InsertAtMainShape(shader, defines, header, main, replacements);
    } else {
      NoMarker(shader, defines, header, main, replacements);
    }
  }

  /** With no defines the shader, after the replacements, is only wrapped when it
      has no marker, and otherwise gets the block in place of its first marker. */
  lemma NoDefinesPatch(shader: string, header: string, main: string, replacements: seq<(string, string)>)
    requires NoDollar(header) && NoDollar(main)
    ensures var t := ReplaceEach(shader, replacements);
            var i := IndexOf(t, Marker);
            var r := PatchedShader(shader, [], header, main, replacements);
            (i == -1 ==> r == "\n    " + "\n    " + t + "\n  ") &&
            (i != -1 ==> 0 <= i && i + |Marker| <= |t| &&
                         r == "\n    " + "\n    " + t[..i] + MainBlock(header, main) + t[i + |Marker|..] + "\n  ")
  {
    PatchedCases(shader, [], header, main, replacements);
    assert DefinesBlock([]) == [];
    assert "\n    " + DefinesBlock([]) == "\n    ";
  }

  /** The defines block is empty exactly when there are no defines, as for the
      default `defines = ''`, an object without keys. */
  lemma DefinesBlockEmpty(defines: seq<(string, string)>)
    ensures DefinesBlock(defines) == [] <==> defines == []
  {
    var lines := DefineLines(defines);
    if |lines| >= 2 {
      assert DefinesBlock(defines) == lines[0] + "\n" + Join(lines[1..], "\n");
    } else if |lines| == 1 {
      assert DefinesBlock(defines) == DefineLine(defines[0]);
    }
  }

  /** With no newline in keys and values, splitting the defines block at newlines gives
      back one `#define` line per key. */
  lemma DefinesLines(defines: seq<(string, string)>)
    requires defines != []
    requires forall k :: 0 <= k < |defines| ==> '\n' !in defines[k].0 && '\n' !in defines[k].1
    ensures Split(DefinesBlock(defines), "\n") == DefineLines(defines)
  {
    var lines := DefineLines(defines);
    forall k | 0 <= k < |lines| ensures '\n' !in lines[k] {
      assert lines[k] == "#define " + defines[k].0 + " " + defines[k].1;
    }
    SplitJoin(lines, '\n');
  }

  /** The readiness test of `addLoadListener`: an image whose video size, if it has
      one, is not zero on either axis. A ready texture gets no listener. */
  predicate IsReady(image: Option<Image>)
    ensures IsReady(image) ==> image.Some? && !VideoPending(image.value)
    ensures image.Some? && image.value.videoWidth.Undefined? && image.value.videoHeight.Undefined? ==> IsReady(image)
  {
    image.Some? && image.value.videoWidth != Num(0.0) && image.value.videoHeight != Num(0.0)
  }

  /** The encodings of a texture. */
  datatype Encoding =
    | LinearEncoding | SRGBEncoding | RGBEEncoding | RGBM7Encoding | RGBM16Encoding
    | RGBDEncoding | GammaEncoding | LogLuvEncoding | OtherEncoding(code: int)

  /** `getEncodingComponents`: sRGB is decoded as sRGB, everything else as linear. */
  function EncodingComponents(e: Encoding): (c: (string, string))
    ensures e == SRGBEncoding ==> c == ("sRGB", "( value )")
    ensures e != SRGBEncoding ==> c == ("Linear", "( value )")
  {
    match e
    case LinearEncoding => ("Linear", "( value )")
    case SRGBEncoding => ("sRGB", "( value )")
    case _ => ("Linear", "( value )")
  }

  /** The GLSL function `name` that decodes a texel with the given components. */
  function TexelDecoder(name: string, c: (string, string)): string {
    "\n    vec4 " + name + "(vec4 value) {\n      return " + c.0 + "ToLinear" + c.1 + ";\n    }\n  "
  }

  /** `getTexelDecodingFunction(name, encoding)`. */
  function TexelDecodingFunction(name: string, e: Encoding): (r: string)
    ensures OccursAt(r, name, 10)
    ensures var c := EncodingComponents(e); OccursAt(r, c.0 + "ToLinear" + c.1, 10 + |name| + 28)
  {
    TexelDecoderLayout(name, EncodingComponents(e));
    TexelDecoder(name, EncodingComponents(e))
  }

  /** The function's name and its return expression `c[0] + "ToLinear" + c[1]` sit at
      fixed places in the template. */
  lemma TexelDecoderLayout(name: string, c: (string, string))
    ensures var r := TexelDecoder(name, c);
            var e := c.0 + "ToLinear" + c.1;
            r[10..10 + |name|] == name && r[10 + |name| + 28..10 + |name| + 28 + |e|] == e
  {
    var e := c.0 + "ToLinear" + c.1;
    var r := TexelDecoder(name, c);
    assert r == "\n    vec4 " + name + ("(vec4 value) {\n      return " + e + ";\n    }\n  ");
    Slice3("\n    vec4 ", name, "(vec4 value) {\n      return " + e + ";\n    }\n  ");
    var a := "\n    vec4 " + name + "(vec4 value) {\n      return ";
    assert r == a + e + ";\n    }\n  ";
    Slice3(a, e, ";\n    }\n  ");
  }
}
