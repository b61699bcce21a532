/** The aspect-ratio arithmetic behind `widthScaled` and `heightScaled`: the camera
    ratio and the scale factors that make the image keep its proportions inside the
    projector frustum, either fitting in it (contain) or filling it (cover). */
module Dimensions {
  import opened Wrappers
  import opened Three

  type Positive = x: real | x > 0.0 witness 1.0

  function Abs(x: real): real {
    if x < 0.0 then -x else x
  }

  /** `getCameraRatio`: the aspect of a perspective camera, the frustum's width over
      its height for an orthographic one, an error for any other camera type. */
  function CameraRatio(k: CameraProjection): (r: Result<Positive, Error>)
    ensures k.Perspective? ==> r == Success(k.aspect)
    ensures k.Orthographic? ==>
      r.Success? && r.value * Abs(k.top - k.bottom) == Abs(k.right - k.left)
    ensures k.OtherCamera? ==> r == Failure(UnsupportedCamera(k.typeName))
  {
    match k
    case Perspective(a) => Success(a)
    case Orthographic(l, rt, t, b) =>
      var width := Abs(rt - l);
      var height := Abs(t - b);
      Success(width / height)
    case OtherCamera(n) => Failure(UnsupportedCamera(n))
  }

  /** The contain/cover rule: the branch where the image is relatively narrower
      (contain) or wider (cover) than the camera. */
  predicate WidthBound(ratio: real, ratioCamera: real, cover: bool) {
    if cover then ratio > ratioCamera else ratio < ratioCamera
  }

  /** `[widthScaled, heightScaled]`. */
  datatype Scaled = Scaled(width: real, height: real)

  /** The two scale factors for an image of aspect `ratio` seen by a camera of aspect
      `ratioCamera`, computed as the source does through a camera of width 1. The
      shader divides texture coordinates by them, so `1 / scale` on both axes is the
      frustum filled exactly. */
  function ScaleFactors(ratio: Positive, ratioCamera: Positive, scale: Positive, cover: bool)
    : (r: Scaled)
    ensures WidthBound(ratio, ratioCamera, cover) ==>
      r.width == ratioCamera / (ratio * scale) && r.height == 1.0 / scale
    ensures !WidthBound(ratio, ratioCamera, cover) ==>
      r.width == 1.0 / scale && r.height == ratio / (ratioCamera * scale)
  {
    var widthCamera := 1.0;
    var heightCamera := widthCamera * (1.0 / ratioCamera);
    if WidthBound(ratio, ratioCamera, cover) then
      var width := heightCamera * ratio;
      assert width / widthCamera == (1.0 / ratioCamera) * ratio;
      WidthFactor(ratioCamera, ratio, scale, width / widthCamera);
      Scaled(1.0 / (width / widthCamera * scale), 1.0 / scale)
    else
      var height := widthCamera * (1.0 / ratio);
      assert height / heightCamera == ratioCamera / ratio;
      HeightFactor(ratioCamera, ratio, scale, height / heightCamera);
      Scaled(1.0 / scale, 1.0 / (height / heightCamera * scale))
  }

  lemma WidthFactor(rc: Positive, ratio: Positive, s: Positive, width: real)
    requires width == (1.0 / rc) * ratio
    ensures 1.0 / (width * s) == rc / (ratio * s)
  {
    assert width * s * (rc / (ratio * s)) == 1.0;
  }

  lemma HeightFactor(rc: Positive, ratio: Positive, s: Positive, height: real)
    requires height == rc / ratio
    ensures 1.0 / (height * s) == ratio / (rc * s)
  {
    assert height * s * (ratio / (rc * s)) == 1.0;
  }

  /** Both factors describe the image's proportions: `width * ratio == height *
      ratioCamera`, and both are positive. */
  lemma ScaleFactorsProportional(ratio: Positive, ratioCamera: Positive, scale: Positive, cover: bool)
    ensures var r := ScaleFactors(ratio, ratioCamera, scale, cover);
            r.width > 0.0 && r.height > 0.0 && r.width * ratio == r.height * ratioCamera
  {
    var r := ScaleFactors(ratio, ratioCamera, scale, cover);
    if WidthBound(ratio, ratioCamera, cover) {
      assert r.width * ratio == ratioCamera / scale;
    } else {
      assert r.height * ratioCamera == ratio / scale;
    }
  }

  /** Containing never crops: both factors are at least `1 / scale`, one of them
      exactly. Covering never leaves a margin: both are at most `1 / scale`, one of
      them exactly. */
  lemma ScaleFactorsBounds(ratio: Positive, ratioCamera: Positive, scale: Positive, cover: bool)
    ensures var r := ScaleFactors(ratio, ratioCamera, scale, cover);
            (r.width == 1.0 / scale || r.height == 1.0 / scale) &&
            (!cover ==> r.width >= 1.0 / scale && r.height >= 1.0 / scale) &&
            (cover ==> r.width <= 1.0 / scale && r.height <= 1.0 / scale)
  {
    var r := ScaleFactors(ratio, ratioCamera, scale, cover);
    if WidthBound(ratio, ratioCamera, cover) {
      Quotient(ratioCamera, ratio, scale);
    } else {
      Quotient(ratio, ratioCamera, scale);
    }
  }

  /** `a / (b * s)` lies on the same side of `1 / s` as `a` does of `b`. */
  lemma Quotient(a: Positive, b: Positive, s: Positive)
    ensures a >= b ==> a / (b * s) >= 1.0 / s
    ensures a <= b ==> a / (b * s) <= 1.0 / s
  {
    assert a / (b * s) == (a / b) * (1.0 / s);
  }

  /** Covering and containing differ by one factor: the contain result is the cover
      result enlarged by the larger of the two ratios between the aspects. */
  lemma CoverContainDuality(ratio: Positive, ratioCamera: Positive, scale: Positive)
    ensures var k := if ratio < ratioCamera then ratioCamera / ratio else ratio / ratioCamera;
            var contain := ScaleFactors(ratio, ratioCamera, scale, false);
            var cover := ScaleFactors(ratio, ratioCamera, scale, true);
            k >= 1.0 && contain.width == cover.width * k && contain.height == cover.height * k
  {
  }

  /** Multiplying `textureScale` by `c` divides both factors by `c`. */
  lemma ScaleInverse(ratio: Positive, ratioCamera: Positive, scale: Positive, c: Positive)
    ensures var a := ScaleFactors(ratio, ratioCamera, scale, false);
            var b := ScaleFactors(ratio, ratioCamera, scale * c, false);
            b.width * c == a.width && b.height * c == a.height
  {
  }

  /** A square camera, an image twice as wide as it is tall, scale 1: containing gives
      `(1, 2)` and covering gives `(0.5, 1)`. */
  lemma WideImageExample()
    ensures ScaleFactors(2.0, 1.0, 1.0, false) == Scaled(1.0, 2.0)
    ensures ScaleFactors(2.0, 1.0, 1.0, true) == Scaled(0.5, 1.0)
  {
  }

  /** The aspect of a measurable element whose frame is known. */
  function ImageRatio(i: Image): (r: Positive)
    requires !VideoPending(i)
  {
    SourceWidth(i).value / SourceHeight(i).value
  }

  /** The older variants read only `naturalWidth` and `naturalHeight`; the model
      needs them positive once there is an image. */
  predicate NaturallySized(image: Option<Image>) {
    image.None? || HasNaturalSize(image.value)
  }

  function NaturalRatio(i: ImageData): Positive
    requires HasNaturalSize(i)
  {
    i.naturalWidth.value / i.naturalHeight.value
  }

  /** `computeScaledDimensions` of the published build: `(1, 1)` while there is no
      image or the video frame size is unknown; otherwise the scale factors for the
      image's aspect, or the camera error. */
  function ScaledDimensions(image: Option<Image>, camera: CameraProjection, scale: Positive, cover: bool)
    : (r: Result<Scaled, Error>)
    ensures image.None? ==> r == Success(Scaled(1.0, 1.0))
    ensures image.Some? && VideoPending(image.value) ==> r == Success(Scaled(1.0, 1.0))
    ensures image.Some? && !VideoPending(image.value) ==>
      (r.Success? <==> CameraRatio(camera).Success?) &&
      (r.Failure? ==> r.error == CameraRatio(camera).error) &&
      (r.Success? ==> r.value == ScaleFactors(ImageRatio(image.value), CameraRatio(camera).value, scale, cover))
    ensures r.Failure? ==> r.error.UnsupportedCamera?
  {
    if image.None? then Success(Scaled(1.0, 1.0))
    else if VideoPending(image.value) then Success(Scaled(1.0, 1.0))
    else
      var ratio := ImageRatio(image.value);
      var rc := CameraRatio(camera);
      if rc.Failure? then Failure(rc.error) else Success(ScaleFactors(ratio, rc.value, scale, cover))
  }
}
