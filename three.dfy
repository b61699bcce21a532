/** The three.js objects the material reads and writes: images, textures, cameras,
    geometries with their per-instance buffer attributes, and meshes. Only the
    parts the material touches are modelled; matrices and vectors are opaque
    lists of numbers that the material copies. */
module Three {
  import opened Wrappers

  /** A numeric property of an image element: a number, or `undefined` when the
      element does not have that property (an image has no `videoWidth`). */
  datatype JsNumber = Undefined | Num(value: real)

  /** JavaScript truthiness of a number (NaN is not modelled). */
  predicate Truthy(n: JsNumber) {
    n.Num? && n.value != 0.0
  }

  /** `a || b` on numbers: `a` when it is truthy, `b` otherwise. */
  function Or(a: JsNumber, b: JsNumber): JsNumber {
    if Truthy(a) then a else b
  }

  predicate PositiveNum(n: JsNumber) {
    n.Num? && n.value > 0.0
  }

  /** The size properties of `texture.image` (an image, canvas or video element). */
  datatype ImageData = ImageData(
    naturalWidth: JsNumber, naturalHeight: JsNumber,
    videoWidth: JsNumber, videoHeight: JsNumber,
    clientWidth: JsNumber, clientHeight: JsNumber)

  /** A video element whose frame size is not known yet. */
  predicate VideoPending(i: ImageData) {
    i.videoWidth == Num(0.0) && i.videoHeight == Num(0.0)
  }

  /** `naturalWidth || videoWidth || clientWidth`. */
  function SourceWidth(i: ImageData): (w: JsNumber)
    ensures Truthy(i.naturalWidth) ==> w == i.naturalWidth
    ensures !Truthy(i.naturalWidth) && Truthy(i.videoWidth) ==> w == i.videoWidth
    ensures !Truthy(i.naturalWidth) && !Truthy(i.videoWidth) ==> w == i.clientWidth
  {
    Or(Or(i.naturalWidth, i.videoWidth), i.clientWidth)
  }

  /** `naturalHeight || videoHeight || clientHeight`. */
  function SourceHeight(i: ImageData): (h: JsNumber)
    ensures Truthy(i.naturalHeight) ==> h == i.naturalHeight
    ensures !Truthy(i.naturalHeight) && Truthy(i.videoHeight) ==> h == i.videoHeight
    ensures !Truthy(i.naturalHeight) && !Truthy(i.videoHeight) ==> h == i.clientHeight
  {
    Or(Or(i.naturalHeight, i.videoHeight), i.clientHeight)
  }

  /** An element whose aspect ratio is a positive number once its frame is known. */
  predicate Measurable(i: ImageData) {
    VideoPending(i) || (PositiveNum(SourceWidth(i)) && PositiveNum(SourceHeight(i)))
  }

  type Image = i: ImageData | Measurable(i)
    witness ImageData(Num(1.0), Num(1.0), Undefined, Undefined, Undefined, Undefined)

  /** The element has positive `naturalWidth` and `naturalHeight`, which is all the
      older variants of the material read. */
  predicate HasNaturalSize(i: ImageData) {
    PositiveNum(i.naturalWidth) && PositiveNum(i.naturalHeight)
  }

  /** The projection a camera uses; `OtherCamera` is any camera type the material
      does not support, carrying its `type` name. */
  datatype CameraKind =
    | Perspective(aspect: real)
    | Orthographic(left: real, right: real, top: real, bottom: real)
    | OtherCamera(typeName: string)

  /** A usable camera: a positive aspect, a frustum of non-zero width and height. */
  predicate Proper(k: CameraKind) {
    match k
    case Perspective(a) => a > 0.0
    case Orthographic(l, r, t, b) => l != r && t != b
    case OtherCamera(n) => n != "PerspectiveCamera" && n != "OrthographicCamera"
  }

  type CameraProjection = k: CameraKind | Proper(k) witness Perspective(1.0)

  type Matrix4 = m: seq<real> | |m| == 16
    witness [1.0, 0.0, 0.0, 0.0, 0.0, 1.0, 0.0, 0.0, 0.0, 0.0, 1.0, 0.0, 0.0, 0.0, 0.0, 1.0]
  type Vector3 = v: seq<real> | |v| == 3 witness [0.0, 0.0, 0.0]
  type Vector2 = v: seq<real> | |v| == 2 witness [0.0, 0.0]

  /** `new Matrix4()`. */
  const Identity: Matrix4 :=
    [1.0, 0.0, 0.0, 0.0, 0.0, 1.0, 0.0, 0.0, 0.0, 0.0, 1.0, 0.0, 0.0, 0.0, 0.0, 1.0]
  /** `new Vector3()`. */
  const Origin: Vector3 := [0.0, 0.0, 0.0]
  /** `new Vector2()`. */
  const ZeroOffset: Vector2 := [0.0, 0.0]
  /** `new Vector3(0, 0, -1)`, the initial projection direction. */
  const Backward: Vector3 := [0.0, 0.0, -1.0]

  /** A camera. `isCamera` is false for an object that is not one. */
  class Camera {
    const isCamera: bool
    var projection: CameraProjection
    var projectionMatrix: Matrix4
    var matrixWorldInverse: Matrix4
    var matrixWorld: Matrix4
    var position: Vector3
    /** The point (0, 0, 1) carried through `matrixWorld` (`applyMatrix4`), which the
        model takes as given with the camera's pose. */
    var direction: Vector3

    constructor (isCamera: bool, projection: CameraProjection, projectionMatrix: Matrix4,
                 matrixWorldInverse: Matrix4, matrixWorld: Matrix4, position: Vector3,
                 direction: Vector3)
      ensures this.isCamera == isCamera && this.projection == projection
      ensures this.projectionMatrix == projectionMatrix
      ensures this.matrixWorldInverse == matrixWorldInverse && this.matrixWorld == matrixWorld
      ensures this.position == position && this.direction == direction
    {
      this.isCamera := isCamera;
      this.projection := projection;
      this.projectionMatrix := projectionMatrix;
      this.matrixWorldInverse := matrixWorldInverse;
      this.matrixWorld := matrixWorld;
      this.position := position;
      this.direction := direction;
    }

    /** `new PerspectiveCamera()`: aspect 1, at the origin, looking down -z. Its
        projection matrix, computed from a 50 degree field of view, is left open. */
    constructor Default()
      ensures isCamera && projection == Perspective(1.0)
      ensures matrixWorldInverse == Identity
      ensures matrixWorld == Identity && position == Origin && direction == [0.0, 0.0, 1.0]
    {
      isCamera := true;
      projection := Perspective(1.0);
      matrixWorldInverse := Identity;
      matrixWorld := Identity;
      position := Origin;
      direction := [0.0, 0.0, 1.0];
    }
  }

  /** A texture. `isTexture` is false for an object that is not one; `image` is
      filled in by a loader at some later time. */
  class Texture {
    const isTexture: bool
    var image: Option<Image>

    constructor (isTexture: bool, image: Option<Image>)
      ensures this.isTexture == isTexture && this.image == image
    {
      this.isTexture := isTexture;
      this.image := image;
    }

    /** A loader finishing: the element becomes available. */
    method Load(img: Image)
      modifies this
      ensures image == Some(img)
    {
      image := Some(img);
    }
  }

  /** `array[p] = x` on a typed array: a position outside the buffer is ignored. */
  function SetAt(s: seq<real>, p: int, x: real): (r: seq<real>)
    ensures |r| == |s|
    ensures forall j :: 0 <= j < |s| ==> r[j] == (if j == p then x else s[j])
  {
    if 0 <= p < |s| then s[p := x] else s
  }

  /** The buffer after `setXYZW(index, v[0], v[1], v[2], v[3])` on an attribute of
      item size `itemSize`: the four positions from `index * itemSize` take the four
      values, each write outside the buffer being ignored. */
  function WriteXYZW(s: seq<real>, itemSize: nat, index: int, v: seq<real>): (r: seq<real>)
    requires |v| == 4
    ensures |r| == |s|
    ensures forall j :: 0 <= j < |s| ==>
      r[j] == (if index * itemSize <= j < index * itemSize + 4 then v[j - index * itemSize] else s[j])
  {
    var p := index * itemSize;
    SetAt(SetAt(SetAt(SetAt(s, p, v[0]), p + 1, v[1]), p + 2, v[2]), p + 3, v[3])
  }

  /** A buffer attribute over a float array. */
  class BufferAttribute {
    const itemSize: nat
    /** The attribute's `array`. */
    const buffer: array<real>

    /** `new InstancedBufferAttribute(new Float32Array(count), itemSize)`. */
    constructor Zeroed(count: nat, itemSize: nat)
      ensures this.itemSize == itemSize && fresh(buffer)
      ensures buffer.Length == count && forall j :: 0 <= j < count ==> buffer[j] == 0.0
    {
      this.itemSize := itemSize;
      buffer := new real[count](_ => 0.0);
    }

    method SetXYZW(index: int, x: real, y: real, z: real, w: real)
      modifies buffer
      ensures buffer[..] == WriteXYZW(old(buffer[..]), itemSize, index, [x, y, z, w])
    {
      var p := index * itemSize;
      if 0 <= p < buffer.Length { buffer[p] := x; }
      if 0 <= p + 1 < buffer.Length { buffer[p + 1] := y; }
      if 0 <= p + 2 < buffer.Length { buffer[p + 2] := z; }
      if 0 <= p + 3 < buffer.Length { buffer[p + 3] := w; }
    }
  }

  /** A geometry and its named attributes. */
  class Geometry {
    const isBufferGeometry: bool
    var attributes: map<string, BufferAttribute>

    constructor (isBufferGeometry: bool)
      ensures this.isBufferGeometry == isBufferGeometry && attributes == map[]
    {
      this.isBufferGeometry := isBufferGeometry;
      attributes := map[];
    }

    method SetAttribute(name: string, attribute: BufferAttribute)
      modifies this
      ensures attributes == old(attributes)[name := attribute]
    {
      attributes := attributes[name := attribute];
    }
  }

  /** A material attached to a mesh: one of the projected materials, or another one. */
  datatype MaterialRef<M> = Projected(material: M) | OtherMaterial

  /** `mesh.material`: a single material or an array of them. */
  datatype MaterialSlot<M> = Single(only: MaterialRef<M>) | List(items: seq<MaterialRef<M>>)

  /** A mesh; `matrixWorld` is its world matrix as `updateWorldMatrix` leaves it. */
  datatype Mesh<M> = Mesh(
    isInstancedMesh: bool, material: MaterialSlot<M>, matrixWorld: Matrix4, geometry: Geometry)

  /** `material.isProjectedMaterial`, or `material.every(m => m.isProjectedMaterial)`. */
  predicate AllProjected<M>(slot: MaterialSlot<M>) {
    match slot
    case Single(m) => m.Projected?
    case List(ms) => forall k :: 0 <= k < |ms| ==> ms[k].Projected?
  }

  /** `material === m`, or `material.some(x => x === m)`. */
  predicate Includes<M(==)>(slot: MaterialSlot<M>, m: M) {
    match slot
    case Single(x) => x == Projected(m)
    case List(ms) => Projected(m) in ms
  }

  /** The errors the material throws; `TypeError` is the one the runtime throws when a
      property of `null` or `undefined` is read. */
  datatype Error =
    | InvalidTexture
    | InvalidCamera
    | UnsupportedCamera(typeName: string)
    | NotProjectedMaterial
    | MaterialMismatch
    | TransparentRequired
    | NotInstancedMesh
    | NotAllocated
    | TextureIndexOutOfRange
    | NotBufferGeometry
    | NotInstancedMaterial
    | TypeError

  /** An argument that may be left out (`undefined`), be `null`, or be given. */
  datatype Arg<T> = Missing | Null | Given(value: T)
}
