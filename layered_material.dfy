/** The multi-texture `ProjectedMaterial` of the example library: N textures, each
    projected on its own from the same camera and kept in its own slot of list-valued
    uniforms. The order in which layers were projected decides which one is drawn on
    top (`projectedTexturesIndices`, see `LayerStack`). */
module LayeredMaterial {
  import opened Wrappers
  import opened Three
  import opened Dimensions
  import LayerStack
  import Text
  import ThreeUtils
  import Instancing
  import LayerInstancing

  /** `getEncodingComponents` of this variant: eight encodings with their decoder
      names and arguments, every other value decoded as linear. */
  function EncodingComponents(e: ThreeUtils.Encoding): (c: (string, string))
    ensures c.0 in {"Linear", "sRGB", "RGBE", "RGBM", "RGBD", "Gamma", "LogLuv"}
    ensures c.0 == "RGBM" <==> e.RGBM7Encoding? || e.RGBM16Encoding?
  {
    match e
    case LinearEncoding => ("Linear", "( value )")
    case SRGBEncoding => ("sRGB", "( value )")
    case RGBEEncoding => ("RGBE", "( value )")
    case RGBM7Encoding => ("RGBM", "( value, 7.0 )")
    case RGBM16Encoding => ("RGBM", "( value, 16.0 )")
    case RGBDEncoding => ("RGBD", "( value, 256.0 )")
    case GammaEncoding => ("Gamma", "( value, float( GAMMA_FACTOR ) )")
    case LogLuvEncoding => ("LogLuv", "( value )")
    case OtherEncoding(_) => ("Linear", "( value )")
  }

  /** The table extends the two-entry table of the utilities: both agree wherever
      the smaller one names the encoding (linear, sRGB) and on unknown values, and
      each further encoding gets a decoder of its own. */
  lemma EncodingTablesAgree(e: ThreeUtils.Encoding)
    ensures e.LinearEncoding? || e.SRGBEncoding? || e.OtherEncoding? ==>
      EncodingComponents(e) == ThreeUtils.EncodingComponents(e)
    ensures !(e.LinearEncoding? || e.SRGBEncoding? || e.OtherEncoding?) ==>
      EncodingComponents(e).0 != ThreeUtils.EncodingComponents(e).0
  {
  }

  /** The two RGBM encodings share a decoder and differ in its range argument; no
      two other encodings share a decoder. */
  lemma EncodingNamesDistinct(a: ThreeUtils.Encoding, b: ThreeUtils.Encoding)
    requires !a.OtherEncoding? && !b.OtherEncoding?
    requires EncodingComponents(a) == EncodingComponents(b)
    ensures a == b
  {
  }

  /** `getTexelDecodingFunction` of this variant. */
  function TexelDecodingFunction(functionName: string, e: ThreeUtils.Encoding): (r: string)
    ensures Text.OccursAt(r, functionName, 10)
    ensures var c := EncodingComponents(e);
      Text.OccursAt(r, c.0 + "ToLinear" + c.1, 10 + |functionName| + 28)
  {
    ThreeUtils.TexelDecoderLayout(functionName, EncodingComponents(e));
    ThreeUtils.TexelDecoder(functionName, EncodingComponents(e))
  }

  /** For the encodings both tables know, the decoding function is the utilities'
      one; for the others it calls the encoding's own decoder. */
  lemma TexelDecodingAgrees(functionName: string, e: ThreeUtils.Encoding)
    ensures e.LinearEncoding? || e.SRGBEncoding? || e.OtherEncoding? ==>
      TexelDecodingFunction(functionName, e) == ThreeUtils.TexelDecodingFunction(functionName, e)
    ensures TexelDecodingFunction(functionName, e) ==
      ThreeUtils.TexelDecoder(functionName, (EncodingComponents(e).0, EncodingComponents(e).1))
  {
    EncodingTablesAgree(e);
  }

  /** `computeScaledDimensions` of this variant: `(1, 1)` while there is no image,
      and otherwise the scale factors for the natural aspect, or the camera error.
      There is no wait for a video frame. */
  function LayerDimensions(image: Option<Image>, camera: CameraProjection, scale: Positive, cover: bool)
    : (r: Result<Scaled, Error>)
    requires NaturallySized(image)
    ensures image.None? ==> r == Success(Scaled(1.0, 1.0))
    ensures image.Some? ==>
      (r.Success? <==> CameraRatio(camera).Success?) &&
      (r.Success? ==> r.value == ScaleFactors(NaturalRatio(image.value), CameraRatio(camera).value, scale, cover))
    ensures r.Failure? ==> image.Some? && r.error == UnsupportedCamera(camera.typeName)
  {
    if image.None? then Success(Scaled(1.0, 1.0))
    else
      var ratio := NaturalRatio(image.value);
      var rc := CameraRatio(camera);
      if rc.Failure? then Failure(rc.error) else Success(ScaleFactors(ratio, rc.value, scale, cover))
  }

  /** For an image with a natural size that is not a pending video, this variant
      computes what the published build computes. */
  lemma LayerDimensionsAgree(image: Image, camera: CameraProjection, scale: Positive, cover: bool)
    requires HasNaturalSize(image) && !VideoPending(image)
    ensures LayerDimensions(Some(image), camera, scale, cover) == ScaledDimensions(Some(image), camera, scale, cover)
  {
    assert SourceWidth(image) == image.naturalWidth && SourceHeight(image) == image.naturalHeight;
  }

  /** The dimensions of every layer, as `textures.map(...)` computes them: all of
      them, or the error of the first layer that cannot be measured. */
  function LayersDimensions(images: seq<Option<Image>>, camera: CameraProjection, scales: seq<Positive>,
                            cover: bool): (r: Result<seq<Scaled>, Error>)
    requires |images| == |scales| && forall k :: 0 <= k < |images| ==> NaturallySized(images[k])
    ensures r.Success? <==> forall k :: 0 <= k < |images| ==> LayerDimensions(images[k], camera, scales[k], cover).Success?
    ensures r.Success? ==> |r.value| == |images|
    ensures r.Success? ==>
      forall k :: 0 <= k < |images| ==> r.value[k] == LayerDimensions(images[k], camera, scales[k], cover).value
    ensures r.Failure? ==> r.error == UnsupportedCamera(camera.typeName)
  {
    if |images| == 0 then Success([])
    else
      var first := LayerDimensions(images[0], camera, scales[0], cover);
      if first.Failure? then Failure(first.error)
      else
        var rest := LayersDimensions(images[1..], camera, scales[1..], cover);
        if rest.Failure? then rest
        else
          assert forall k :: 1 <= k < |images| ==> images[k] == images[1..][k - 1] && scales[k] == scales[1..][k - 1];
          Success([first.value] + rest.value)
  }

  /** Computing all layers fails exactly when some layer has an image and the camera
      is of an unsupported type. */
  lemma LayersFailOnlyForCamera(images: seq<Option<Image>>, camera: CameraProjection, scales: seq<Positive>,
                                cover: bool)
    requires |images| == |scales| && forall k :: 0 <= k < |images| ==> NaturallySized(images[k])
    ensures LayersDimensions(images, camera, scales, cover).Failure? <==>
      camera.OtherCamera? && exists k :: 0 <= k < |images| && images[k].Some?
  {
    if camera.OtherCamera? && exists k :: 0 <= k < |images| && images[k].Some? {
      var k :| 0 <= k < |images| && images[k].Some?;
      assert LayerDimensions(images[k], camera, scales[k], cover).Failure?;
    }
  }

  /** `texture.image` of each texture. */
  function Images(ts: seq<Texture>): (r: seq<Option<Image>>)
    reads ts
    ensures |r| == |ts| && forall k :: 0 <= k < |ts| ==> r[k] == ts[k].image
  {
    seq(|ts|, k reads ts requires 0 <= k < |ts| => ts[k].image)
  }

  /** The load listeners `textures.forEach(addLoadListener)` leaves polling, from
      layer `from` on: one per texture without an image, with its layer index. */
  function Waiting(ts: seq<Texture>, from: nat): (w: seq<(nat, Texture)>)
    reads ts
    decreases |ts| - from
    ensures forall j :: 0 <= j < |w| ==> from <= w[j].0 < |ts| && w[j].1 == ts[w[j].0] && w[j].1.image.None?
    ensures forall k :: from <= k < |ts| && ts[k].image.None? ==> (k, ts[k]) in w
  {
    if from >= |ts| then []
    else if ts[from].image.None? then [(from, ts[from])] + Waiting(ts, from + 1)
    else Waiting(ts, from + 1)
  }

  /** `this.uniforms`: one list entry per layer, except the shared projection
      matrix. */
  datatype LayerUniforms = LayerUniforms(
    projectedTextures: seq<Texture>,
    isTextureLoaded: seq<bool>,
    isTextureProjected: seq<bool>,
    projectedTexturesIndices: seq<int>,
    viewMatricesCamera: seq<Matrix4>,
    projectionMatrixCamera: Matrix4,
    projPositions: seq<Vector3>,
    projDirections: seq<Vector3>,
    savedModelMatrices: seq<Matrix4>,
    widthsScaled: seq<real>,
    heightsScaled: seq<real>,
    textureOffsets: seq<Vector2>)

  /** Every per-layer list has one entry per texture. */
  predicate Shaped(u: LayerUniforms) {
    var n := |u.projectedTextures|;
    |u.isTextureLoaded| == n && |u.isTextureProjected| == n && |u.projectedTexturesIndices| == n &&
    |u.viewMatricesCamera| == n && |u.projPositions| == n && |u.projDirections| == n &&
    |u.savedModelMatrices| == n && |u.widthsScaled| == n && |u.heightsScaled| == n
  }

  /** The draw order has its reachable shape, and a layer is listed exactly when it
      has been projected. */
  ghost predicate Ordered(u: LayerUniforms)
    requires Shaped(u)
  {
    var n := |u.projectedTextures|;
    LayerStack.Stacked(u.projectedTexturesIndices, n) &&
    forall j :: 0 <= j < n ==> (u.isTextureProjected[j] <==> j in u.projectedTexturesIndices)
  }

  /** The uniforms a material over `ts` starts with. */
  function InitialUniforms(ts: seq<Texture>, widths: seq<real>, heights: seq<real>, offsets: seq<Vector2>)
    : (u: LayerUniforms)
    reads ts
    requires |widths| == |ts| && |heights| == |ts|
    ensures Shaped(u) && u.projectedTextures == ts
    ensures forall j :: 0 <= j < |ts| ==>
      u.isTextureLoaded[j] == ts[j].image.Some? && !u.isTextureProjected[j] &&
      u.projectedTexturesIndices[j] == LayerStack.Unset
  {
    var n := |ts|;
    LayerUniforms(ts, seq(n, j reads ts requires 0 <= j < n => ts[j].image.Some?), seq(n, _ => false),
      LayerStack.AllUnset(n), seq(n, _ => Identity), Identity, seq(n, _ => Origin), seq(n, _ => Backward),
      seq(n, _ => Identity), widths, heights, offsets)
  }

  /** A new material has projected nothing yet, and its draw order is all
      placeholders. */
  lemma InitialOrdered(ts: seq<Texture>, widths: seq<real>, heights: seq<real>, offsets: seq<Vector2>)
    requires |widths| == |ts| && |heights| == |ts|
    ensures Ordered(InitialUniforms(ts, widths, heights, offsets))
  {
    var u := InitialUniforms(ts, widths, heights, offsets);
    LayerStack.InitialStacked(|ts|);
    forall j | 0 <= j < |ts| ensures !(j in u.projectedTexturesIndices) {
      assert forall k :: 0 <= k < |ts| ==> u.projectedTexturesIndices[k] != j;
    }
  }

  /** `saveCameraMatrices(mesh, {textureIndex: i})`: layer `i`'s view matrix,
      position and direction, the shared projection matrix, layer `i`'s projected
      flag, and `i` moved to the top of the draw order. */
  function SnapshotLayer(u: LayerUniforms, i: nat, c: Camera): (v: LayerUniforms)
    reads c
    requires Shaped(u) && i < |u.projectedTextures|
    ensures Shaped(v) && v.projectedTextures == u.projectedTextures
    ensures v.viewMatricesCamera[i] == c.matrixWorldInverse && v.projectionMatrixCamera == c.projectionMatrix
    ensures v.projPositions[i] == c.position && v.projDirections[i] == c.direction && v.isTextureProjected[i]
    ensures v.projectedTexturesIndices == LayerStack.Reorder(u.projectedTexturesIndices, i)
    ensures forall j :: 0 <= j < |u.projectedTextures| && j != i ==>
      v.viewMatricesCamera[j] == u.viewMatricesCamera[j] && v.projPositions[j] == u.projPositions[j] &&
      v.projDirections[j] == u.projDirections[j] && v.isTextureProjected[j] == u.isTextureProjected[j]
    ensures v.savedModelMatrices == u.savedModelMatrices && v.isTextureLoaded == u.isTextureLoaded
    ensures v.widthsScaled == u.widthsScaled && v.heightsScaled == u.heightsScaled
    ensures v.textureOffsets == u.textureOffsets
  {
    u.(viewMatricesCamera := u.viewMatricesCamera[i := c.matrixWorldInverse],
       projectionMatrixCamera := c.projectionMatrix,
       projPositions := u.projPositions[i := c.position],
       projDirections := u.projDirections[i := c.direction],
       isTextureProjected := u.isTextureProjected[i := true],
       projectedTexturesIndices := LayerStack.Reorder(u.projectedTexturesIndices, i))
  }

  /** A snapshot keeps the draw order in its shape and the projected flags in step
      with it. */
  lemma SnapshotOrdered(u: LayerUniforms, i: nat, c: Camera)
    requires Shaped(u) && i < |u.projectedTextures| && Ordered(u)
    ensures Ordered(SnapshotLayer(u, i, c))
  {
    var n := |u.projectedTextures|;
    LayerStack.ReorderStacked(u.projectedTexturesIndices, n, i);
    LayerStack.ReorderMembers(u.projectedTexturesIndices, n, i);
  }

  /** The texture list `new ProjectedMaterial(...)` works with: a single `texture`
      wins; otherwise `textures` (whose entries may be `null` or `undefined`), and
      reading the length of a missing list fails. */
  function TextureList(texture: Arg<Texture>, textures: Arg<seq<Option<Texture>>>)
    : (r: Result<seq<Option<Texture>>, Error>)
    ensures texture.Given? ==> r == Success([Some(texture.value)])
    ensures !texture.Given? ==> (r.Success? <==> textures.Given?) && (r.Success? ==> r.value == textures.value)
  {
    if texture.Given? then Success([Some(texture.value)])
    else if textures.Given? then Success(textures.value)
    else Failure(TypeError)
  }

  /** The list is not empty and every entry is a texture. */
  predicate Acceptable(list: seq<Option<Texture>>) {
    |list| > 0 && forall k :: 0 <= k < |list| ==> list[k].Some? && list[k].value.isTexture
  }

  function Unwrap(list: seq<Option<Texture>>): (ts: seq<Texture>)
    requires forall k :: 0 <= k < |list| ==> list[k].Some?
    ensures |ts| == |list| && forall k :: 0 <= k < |list| ==> ts[k] == list[k].value
  {
    seq(|list|, k requires 0 <= k < |list| => list[k].value)
  }

  /** The per-layer scales or offsets: `[single]` for a single texture, `single`
      repeated once per texture when no list is given (the offsets as clones, which
      are equal values), otherwise the list. */
  function PerLayer<T>(texture: Arg<Texture>, single: T, list: Option<seq<T>>, n: nat): (r: seq<T>)
    ensures texture.Given? ==> r == [single]
    ensures !texture.Given? && list.Some? ==> r == list.value
    ensures !texture.Given? && list.None? ==> |r| == n && forall k :: 0 <= k < n ==> r[k] == single
  {
    if texture.Given? then [single]
    else if list.None? then seq(n, _ => single)
    else list.value
  }

  function Widths(ds: seq<Scaled>): (r: seq<real>)
    ensures |r| == |ds| && forall k :: 0 <= k < |ds| ==> r[k] == ds[k].width
  {
    seq(|ds|, k requires 0 <= k < |ds| => ds[k].width)
  }

  function Heights(ds: seq<Scaled>): (r: seq<real>)
    ensures |r| == |ds| && forall k :: 0 <= k < |ds| ==> r[k] == ds[k].height
  {
    seq(|ds|, k requires 0 <= k < |ds| => ds[k].height)
  }

  class ProjectedMaterial {
    const camera: Camera
    /** The `cover` the load listeners were created with. */
    const initialCover: bool
    var cover: bool
    var textureScales: seq<Positive>
    /** The scale list the load listeners read: the constructor's list, which the
        `textureScale` setter writes into until `textureScales` replaces it. */
    var listenerScales: seq<Positive>
    var scalesShared: bool
    var uniforms: LayerUniforms
    /** The load listeners still polling: layer index and texture. */
    var loadWaits: seq<(nat, Texture)>

    /** Everything but the uniforms is as it was. */
    twostate predicate Kept()
      reads this
    {
      cover == old(cover) && textureScales == old(textureScales) && listenerScales == old(listenerScales) &&
      scalesShared == old(scalesShared) && loadWaits == old(loadWaits)
    }

    /** The number of layers. */
    function Count(): nat
      reads this
    {
      |uniforms.projectedTextures|
    }

    ghost predicate Valid()
      reads this
    {
      Count() > 0 && Shaped(uniforms) && Ordered(uniforms) &&
      |textureScales| == Count() && |listenerScales| == Count() &&
      (scalesShared ==> listenerScales == textureScales) &&
      forall w :: 0 <= w < |loadWaits| ==> loadWaits[w].0 < Count()
    }

    /** Every image this material or its listeners may measure has a natural size. */
    ghost predicate Sized()
      reads this, uniforms.projectedTextures, set w | 0 <= w < |loadWaits| :: loadWaits[w].1
    {
      (forall k :: 0 <= k < |uniforms.projectedTextures| ==> NaturallySized(uniforms.projectedTextures[k].image)) &&
      forall w :: 0 <= w < |loadWaits| ==> NaturallySized(loadWaits[w].1.image)
    }

    /** The dimensions of the current textures, scales and cover. */
    function CurrentDimensions(): (r: Result<seq<Scaled>, Error>)
      reads this, camera, uniforms.projectedTextures
      requires |textureScales| == Count()
      requires forall k :: 0 <= k < Count() ==> NaturallySized(uniforms.projectedTextures[k].image)
    {
      LayersDimensions(Images(uniforms.projectedTextures), camera.projection, textureScales, cover)
    }

    /** The uniforms after `saveDimensions` computed `d`. */
    static function Saved(u: LayerUniforms, d: Result<seq<Scaled>, Error>): LayerUniforms {
      if d.Success? then u.(widthsScaled := Widths(d.value), heightsScaled := Heights(d.value)) else u
    }

    constructor Init(camera: Camera, cover: bool, textureScales: seq<Positive>, uniforms: LayerUniforms,
                     loadWaits: seq<(nat, Texture)>)
      ensures this.camera == camera && initialCover == cover && this.cover == cover
      ensures this.textureScales == textureScales && listenerScales == textureScales && scalesShared
      ensures this.uniforms == uniforms && this.loadWaits == loadWaits
    {
      this.camera := camera;
      initialCover := cover;
      this.cover := cover;
      this.textureScales := textureScales;
      listenerScales := textureScales;
      scalesShared := true;
      this.uniforms := uniforms;
      this.loadWaits := loadWaits;
    }

    /** `new ProjectedMaterial({camera, texture, textures, textureScale, textureScales,
        textureOffset, textureOffsets, cover})`, checked in this order: the texture
        list must exist, be non-empty and hold only textures; the camera must be a
        camera; the dimensions of every layer are computed, which fails for an
        unsupported camera. The new material has one entry per layer in every
        uniform list, has projected nothing, counts a layer as loaded when its
        texture has an image, and waits for every texture without one. */
    static method New(camera: Arg<Camera>, texture: Arg<Texture>, textures: Arg<seq<Option<Texture>>>,
                      textureScale: Positive, textureScales: Option<seq<Positive>>,
                      textureOffset: Vector2, textureOffsets: Option<seq<Vector2>>, cover: bool)
      returns (r: Result<ProjectedMaterial, Error>)
      requires var list := TextureList(texture, textures);
        list.Success? && Acceptable(list.value) ==>
          |PerLayer(texture, textureScale, textureScales, |list.value|)| == |list.value| &&
          forall k :: 0 <= k < |list.value| ==> NaturallySized(list.value[k].value.image)
      ensures var list := TextureList(texture, textures);
        (list.Failure? ==> r == Failure(TypeError)) &&
        (list.Success? && !Acceptable(list.value) ==> r == Failure(InvalidTexture)) &&
        (list.Success? && Acceptable(list.value) && !(camera.Given? && camera.value.isCamera) ==>
          r == Failure(InvalidCamera))
      ensures var list := TextureList(texture, textures);
        list.Success? && Acceptable(list.value) && camera.Given? && camera.value.isCamera ==>
          var ts := Unwrap(list.value);
          var d := LayersDimensions(Images(ts), camera.value.projection,
            PerLayer(texture, textureScale, textureScales, |ts|), cover);
          (r.Success? <==> d.Success?) && (r.Failure? ==> r.error == d.error)
      ensures r.Failure? ==> r.error in {TypeError, InvalidTexture, InvalidCamera} || r.error.UnsupportedCamera?
      ensures r.Success? ==>
        var list := TextureList(texture, textures).value;
        var ts := Unwrap(list);
        var scales := PerLayer(texture, textureScale, textureScales, |ts|);
        var m := r.value;
        Acceptable(list) && camera.Given? && m.camera == camera.value &&
        fresh(m) && m.Valid() && m.Sized() &&
        m.cover == cover && m.textureScales == scales &&
        m.CurrentDimensions().Success? &&
        m.uniforms == InitialUniforms(ts, Widths(m.CurrentDimensions().value), Heights(m.CurrentDimensions().value),
          PerLayer(texture, textureOffset, textureOffsets, |ts|)) &&
        m.loadWaits == Waiting(ts, 0)
    {
      var list := TextureList(texture, textures);
      if list.Failure? {
        return Failure(TypeError);
      }
      if |list.value| == 0 {
        return Failure(InvalidTexture);
      }
      var k := 0;
      while k < |list.value|
        invariant 0 <= k <= |list.value|
        invariant forall j :: 0 <= j < k ==> list.value[j].Some? && list.value[j].value.isTexture
      {
        if list.value[k].None? || !list.value[k].value.isTexture {
          return Failure(InvalidTexture);
        }
        k := k + 1;
      }
      var ts := Unwrap(list.value);
      var scales := PerLayer(texture, textureScale, textureScales, |ts|);
      var offsets := PerLayer(texture, textureOffset, textureOffsets, |ts|);
      if !camera.Given? || !camera.value.isCamera {
        return Failure(InvalidCamera);
      }
      var d := LayersDimensions(Images(ts), camera.value.projection, scales, cover);
      if d.Failure? {
        return Failure(d.error);
      }
      var m := Make(camera.value, ts, scales, offsets, cover, d.value);
      r := Success(m);
    }

    /** The material `New` builds once its checks pass and the dimensions `ds` of
        every layer are known. */
    static method Make(camera: Camera, ts: seq<Texture>, scales: seq<Positive>, offsets: seq<Vector2>,
                       cover: bool, ds: seq<Scaled>) returns (m: ProjectedMaterial)
      requires |ts| > 0 && |scales| == |ts|
      requires forall k :: 0 <= k < |ts| ==> NaturallySized(ts[k].image)
      requires LayersDimensions(Images(ts), camera.projection, scales, cover) == Success(ds)
      ensures fresh(m) && m.camera == camera && m.Valid() && m.Sized()
      ensures m.cover == cover && m.textureScales == scales
      ensures m.CurrentDimensions() == Success(ds)
      ensures m.uniforms == InitialUniforms(ts, Widths(ds), Heights(ds), offsets)
      ensures m.loadWaits == Waiting(ts, 0)
    {
      var u := InitialUniforms(ts, Widths(ds), Heights(ds), offsets);
      InitialOrdered(ts, Widths(ds), Heights(ds), offsets);
      m := new ProjectedMaterial.Init(camera, cover, scales, u, Waiting(ts, 0));
    }

    /** `saveDimensions()`: the dimensions of every layer from the current textures,
        scales and cover, or the camera error with the uniforms left as they were. */
    method SaveDimensions() returns (o: Outcome<Error>)
      requires Valid() && Sized()
      modifies this
      ensures Valid() && Sized()
      ensures Kept()
      ensures var d := LayersDimensions(Images(old(uniforms.projectedTextures)), camera.projection, textureScales, cover);
        o == Thrown(d) && uniforms == Saved(old(uniforms), d)
    {
      var d := LayersDimensions(Images(uniforms.projectedTextures), camera.projection, textureScales, cover);
      if d.Failure? {
        return Fail(d.error);
      }
      uniforms := uniforms.(widthsScaled := Widths(d.value), heightsScaled := Heights(d.value));
      o := Pass;
    }

    /** The `texture` setter: layer 0's texture is replaced and nothing else; the
        dimensions are not recomputed. */
    method SetTexture(t: Texture)
      requires Valid()
      modifies this
      ensures Valid()
      ensures uniforms == old(uniforms).(projectedTextures := old(uniforms.projectedTextures)[0 := t])
      ensures Kept()
    {
      uniforms := uniforms.(projectedTextures := uniforms.projectedTextures[0 := t]);
    }

    /** The `textures` setter: the texture list is replaced and nothing else. */
    method SetTextures(ts: seq<Texture>)
      requires Valid() && |ts| == Count()
      modifies this
      ensures Valid()
      ensures uniforms == old(uniforms).(projectedTextures := ts)
      ensures Kept()
    {
      uniforms := uniforms.(projectedTextures := ts);
    }

    /** The `textureScale` setter: layer 0's scale is replaced, in the list the load
        listeners read too while it is shared, and every layer is recomputed. */
    method SetTextureScale(s: Positive) returns (o: Outcome<Error>)
      requires Valid() && Sized()
      modifies this
      ensures Valid() && Sized()
      ensures textureScales == old(textureScales)[0 := s] && scalesShared == old(scalesShared)
      ensures listenerScales == (if scalesShared then old(listenerScales)[0 := s] else old(listenerScales))
      ensures cover == old(cover) && loadWaits == old(loadWaits)
      ensures var d := LayersDimensions(Images(old(uniforms.projectedTextures)), camera.projection, textureScales, cover);
        o == Thrown(d) && uniforms == Saved(old(uniforms), d)
    {
      textureScales := textureScales[0 := s];
      if scalesShared {
        listenerScales := listenerScales[0 := s];
      }
      o := SaveDimensions();
    }

    /** The `textureScales` setter: the list is replaced (the load listeners keep the
        old one) and every layer is recomputed. */
    method SetTextureScales(ss: seq<Positive>) returns (o: Outcome<Error>)
      requires Valid() && Sized() && |ss| == Count()
      modifies this
      ensures Valid() && Sized()
      ensures textureScales == ss && !scalesShared && listenerScales == old(listenerScales)
      ensures cover == old(cover) && loadWaits == old(loadWaits)
      ensures var d := LayersDimensions(Images(old(uniforms.projectedTextures)), camera.projection, ss, cover);
        o == Thrown(d) && uniforms == Saved(old(uniforms), d)
    {
      textureScales := ss;
      scalesShared := false;
      o := SaveDimensions();
    }

    /** The `textureOffset` setter: layer 0's offset is replaced (an empty list gets
        it as its first entry); nothing is recomputed. */
    method SetTextureOffset(v: Vector2)
      requires Valid()
      modifies this
      ensures Valid()
      ensures var offsets := old(uniforms.textureOffsets);
        uniforms == old(uniforms).(textureOffsets := if |offsets| == 0 then [v] else offsets[0 := v])
      ensures Kept()
    {
      var offsets := uniforms.textureOffsets;
      uniforms := uniforms.(textureOffsets := if |offsets| == 0 then [v] else offsets[0 := v]);
    }

    /** The `textureOffsets` setter as written: it assigns the `value` of
        `uniforms.textureOffset`, a uniform this material does not have, so the
        assignment to a property of `undefined` throws and nothing changes. */
    method SetTextureOffsetsAsWritten(vs: seq<Vector2>) returns (o: Outcome<Error>)
      ensures o == Fail(TypeError)
    {
      o := Fail(TypeError);
    }

    /** The `textureOffsets` setter as intended: the list of offsets is replaced. */
    method SetTextureOffsets(vs: seq<Vector2>)
      requires Valid()
      modifies this
      ensures Valid() && Kept()
      ensures uniforms == old(uniforms).(textureOffsets := vs)
    {
      uniforms := uniforms.(textureOffsets := vs);
    }

    /** The `cover` setter: the flag is stored and every layer is recomputed. */
    method SetCover(b: bool) returns (o: Outcome<Error>)
      requires Valid() && Sized()
      modifies this
      ensures Valid() && Sized()
      ensures cover == b && textureScales == old(textureScales)
      ensures listenerScales == old(listenerScales) && scalesShared == old(scalesShared) && loadWaits == old(loadWaits)
      ensures var d := LayersDimensions(Images(old(uniforms.projectedTextures)), camera.projection, textureScales, b);
        o == Thrown(d) && uniforms == Saved(old(uniforms), d)
    {
      cover := b;
      o := SaveDimensions();
    }

    /** `saveCameraMatrices` for layer `i`. */
    method SaveCameraMatrices(i: nat)
      requires Valid() && i < Count()
      modifies this
      ensures Valid()
      ensures uniforms == SnapshotLayer(old(uniforms), i, camera)
      ensures Kept()
    {
      SnapshotOrdered(uniforms, i, camera);
      uniforms := SnapshotLayer(uniforms, i, camera);
    }

    /** A window resize: the camera's projection matrix is copied and every layer is
        recomputed. */
    method OnResize() returns (o: Outcome<Error>)
      requires Valid() && Sized()
      modifies this
      ensures Valid() && Sized()
      ensures Kept()
      ensures var u := old(uniforms).(projectionMatrixCamera := camera.projectionMatrix);
        var d := LayersDimensions(Images(u.projectedTextures), camera.projection, textureScales, cover);
        o == Thrown(d) && uniforms == Saved(u, d)
    {
      uniforms := uniforms.(projectionMatrixCamera := camera.projectionMatrix);
      o := SaveDimensions();
    }

    /** One tick of load listener `k`: once its texture has an image the listener
        stops, its layer counts as loaded, and that layer alone is recomputed with the
        listener's scale and the constructor's cover; before that nothing happens. */
    method PollLoad(k: nat) returns (o: Outcome<Error>)
      requires Valid() && Sized()
      modifies this
      ensures Valid() && Sized()
      ensures cover == old(cover) && textureScales == old(textureScales)
      ensures listenerScales == old(listenerScales) && scalesShared == old(scalesShared)
      ensures !(k < |old(loadWaits)| && old(loadWaits)[k].1.image.Some?) ==>
        o == Pass && uniforms == old(uniforms) && loadWaits == old(loadWaits)
      ensures k < |old(loadWaits)| && old(loadWaits)[k].1.image.Some? ==>
        var (i, tex) := old(loadWaits)[k];
        loadWaits == old(loadWaits)[..k] + old(loadWaits)[k + 1..] &&
        var u := old(uniforms).(isTextureLoaded := old(uniforms.isTextureLoaded)[i := true]);
        var d := LayerDimensions(tex.image, camera.projection, listenerScales[i], initialCover);
        (d.Failure? ==> o == Fail(d.error) && uniforms == u) &&
        (d.Success? ==>
           o == Pass &&
           uniforms == u.(widthsScaled := u.widthsScaled[i := d.value.width],
                          heightsScaled := u.heightsScaled[i := d.value.height]))
    {
      if !(k < |loadWaits| && loadWaits[k].1.image.Some?) {
        return Pass;
      }
      var (i, tex) := loadWaits[k];
      loadWaits := loadWaits[..k] + loadWaits[k + 1..];
      uniforms := uniforms.(isTextureLoaded := uniforms.isTextureLoaded[i := true]);
      var d := LayerDimensions(tex.image, camera.projection, listenerScales[i], initialCover);
      if d.Failure? {
        return Fail(d.error);
      }
      uniforms := uniforms.(widthsScaled := uniforms.widthsScaled[i := d.value.width],
                            heightsScaled := uniforms.heightsScaled[i := d.value.height]);
      o := Pass;
    }
  }

  /** `material.isProjectedMaterial` for the material `project` works on: an array
      of materials has no such property. */
  predicate Targets(slot: MaterialSlot<ProjectedMaterial>) {
    slot.Single? && slot.only.Projected?
  }

  /** `project(mesh, {textureIndex: i})`: the material kind is checked, then the
      index; nothing is written on failure. Then layer `i` saves the mesh's world
      matrix and snapshots the camera. */
  method Project(mesh: Mesh<ProjectedMaterial>, i: nat) returns (o: Outcome<Error>)
    requires Targets(mesh.material) ==> mesh.material.only.material.Valid()
    modifies if Targets(mesh.material) then {mesh.material.only.material} else {}
    ensures !Targets(mesh.material) ==> o == Fail(NotProjectedMaterial)
    ensures Targets(mesh.material) ==>
      var m := mesh.material.only.material;
      m.Valid() && m.Kept() &&
      (i >= old(m.Count()) ==> o == Fail(TextureIndexOutOfRange) && m.uniforms == old(m.uniforms)) &&
      (i < old(m.Count()) ==>
         o == Pass &&
         var u := old(m.uniforms);
         m.uniforms == SnapshotLayer(u.(savedModelMatrices := u.savedModelMatrices[i := mesh.matrixWorld]), i, m.camera))
  {
    if !Targets(mesh.material) {
      return Fail(NotProjectedMaterial);
    }
    var m := mesh.material.only.material;
    if i >= |m.uniforms.projectedTextures| {
      return Fail(TextureIndexOutOfRange);
    }
    m.uniforms := m.uniforms.(savedModelMatrices := m.uniforms.savedModelMatrices[i := mesh.matrixWorld]);
    m.SaveCameraMatrices(i);
    o := Pass;
  }

  /** The arrays `projectInstanceAt` may write for layer `i`. */
  function LayerBuffers(g: Geometry, i: nat): set<array<real>>
    reads g
  {
    Instancing.RowBuffers(g, LayerInstancing.LayerRowNames(i))
  }

  /** The checks `projectInstanceAt` makes before writing, in order: an instanced
      mesh, the material kind, the layer index, a buffer geometry, and layer `i`'s
      four row attributes. */
  function InstanceCheck(mesh: Mesh<ProjectedMaterial>, i: nat): (o: Outcome<Error>)
    reads if Targets(mesh.material) then {mesh.material.only.material} else {}, mesh.geometry
    ensures o.Pass? <==>
      mesh.isInstancedMesh && Targets(mesh.material) && i < mesh.material.only.material.Count() &&
      mesh.geometry.isBufferGeometry && Instancing.HasRows(mesh.geometry, LayerInstancing.LayerRowNames(i))
    ensures !mesh.isInstancedMesh ==> o == Fail(NotInstancedMesh)
  {
    if !mesh.isInstancedMesh then Fail(NotInstancedMesh)
    else if !Targets(mesh.material) then Fail(NotProjectedMaterial)
    else if i >= mesh.material.only.material.Count() then Fail(TextureIndexOutOfRange)
    else if !mesh.geometry.isBufferGeometry then Fail(NotBufferGeometry)
    else if !Instancing.HasRows(mesh.geometry, LayerInstancing.LayerRowNames(i)) then Fail(NotAllocated)
    else Pass
  }

  /** `projectInstanceAt(index, mesh, matrixWorld, {textureIndex: i, forceCameraSave})`:
      nothing is written when a check fails. Otherwise the rows of `matrixWorld` go
      to slot `index` of layer `i`'s attributes, and the camera is snapshot for that
      layer only for instance 0 or when forced. */
  method ProjectInstanceAt(index: int, mesh: Mesh<ProjectedMaterial>, matrixWorld: Matrix4, i: nat,
                           forceCameraSave: bool) returns (o: Outcome<Error>)
    requires Targets(mesh.material) ==> mesh.material.only.material.Valid()
    modifies if Targets(mesh.material) then {mesh.material.only.material} else {}, LayerBuffers(mesh.geometry, i)
    ensures o == old(InstanceCheck(mesh, i))
    ensures o.Fail? ==> forall b :: b in LayerBuffers(mesh.geometry, i) ==> b[..] == old(b[..])
    ensures Targets(mesh.material) ==>
      var m := mesh.material.only.material;
      m.Valid() && m.Kept() &&
      m.uniforms == (if o.Pass? && (index == 0 || forceCameraSave) then SnapshotLayer(old(m.uniforms), i, m.camera)
                     else old(m.uniforms))
    ensures o.Pass? ==>
      Instancing.Written(old(Instancing.Rows(mesh.geometry, LayerInstancing.LayerRowNames(i))), index, matrixWorld)
  {
    o := InstanceCheck(mesh, i);
    if o.Fail? {
      return;
    }
    ApplyInstance(mesh.material.only.material, mesh.geometry, i, index, matrixWorld, index == 0 || forceCameraSave);
  }

  /** What `projectInstanceAt` does once its checks pass: the row writes, then the
      camera snapshot of layer `i` when `save` holds. */
  method ApplyInstance(m: ProjectedMaterial, g: Geometry, i: nat, index: int, matrixWorld: Matrix4, save: bool)
    requires m.Valid() && i < m.Count() && Instancing.HasRows(g, LayerInstancing.LayerRowNames(i))
    modifies m, LayerBuffers(g, i)
    ensures m.Valid() && m.Kept()
    ensures m.uniforms == (if save then SnapshotLayer(old(m.uniforms), i, m.camera) else old(m.uniforms))
    ensures Instancing.Written(old(Instancing.Rows(g, LayerInstancing.LayerRowNames(i))), index, matrixWorld)
  {
    Instancing.WriteAt(g, LayerInstancing.LayerRowNames(i), index, matrixWorld);
    if save {
      m.SaveCameraMatrices(i);
    }
  }
}
