/** The early single-texture `ProjectedMaterial`: the camera is captured when the
    material is made, the vertex shader is chosen once by the `instanced` flag, and
    `project` only saves the mesh's world matrix. */
module EarlyMaterial {
  import opened Wrappers
  import opened Three
  import opened Dimensions
  import Text
  import ThreeUtils
  import Instancing
  import LayeredMaterial

  /** The GLSL snippets the material adds to the built-in shaders: the two
      alternative openings of the vertex header (the four per-instance rows, the saved
      matrix as a uniform), the rest of it (camera uniforms and varyings), the two
      parts of the start of `main` (the matrix assembled from its rows, then the
      projection), the fragment header and the fragment code that replaces the
      diffuse line. */
  datatype Snippets = Snippets(
    instancedRows: string,
    savedMatrixUniform: string,
    cameraDeclarations: string,
    assembleMatrix: string,
    projectVertex: string,
    fragmentHeader: string,
    fragmentBody: string)

  /** Snippets that `String.prototype.replace` inserts literally. */
  predicate Clean(s: Snippets) {
    ThreeUtils.NoDollar(s.instancedRows) && ThreeUtils.NoDollar(s.savedMatrixUniform) &&
    ThreeUtils.NoDollar(s.cameraDeclarations) && ThreeUtils.NoDollar(s.assembleMatrix) &&
    ThreeUtils.NoDollar(s.projectVertex) && ThreeUtils.NoDollar(s.fragmentHeader)
  }

  /** The line of the built-in fragment shader that the projection replaces. */
  const DiffuseLine: string := "vec4 diffuseColor = vec4( diffuse, opacity );"

  /** The opening of the vertex header that the `instanced` flag picks. */
  function Opening(s: Snippets, instanced: bool): string {
    if instanced then s.instancedRows else s.savedMatrixUniform
  }

  /** The vertex header, `[instanced ? rows : uniform, declarations].join('')`. */
  function VertexHeader(s: Snippets, instanced: bool): (h: string)
    requires Clean(s)
    ensures ThreeUtils.NoDollar(h)
  {
    Opening(s, instanced) + s.cameraDeclarations
  }

  /** The start of `main`, `[instanced ? assembly : '', projection].join('')`. */
  function VertexMain(s: Snippets, instanced: bool): (m: string)
    requires Clean(s)
    ensures ThreeUtils.NoDollar(m)
  {
    (if instanced then s.assembleMatrix else "") + s.projectVertex
  }

  /** The vertex shader: the built-in lambert vertex shader `chunk` with the header
      and the start of `main` inserted at its `main`, with no defines and no
      replacements. */
  function VertexShader(s: Snippets, chunk: string, instanced: bool): (r: string)
    requires Clean(s)
    ensures var i := Text.IndexOf(chunk, ThreeUtils.Marker);
            (i == -1 ==> r == "\n    " + "\n    " + chunk + "\n  ") &&
            (i != -1 ==> r == "\n    " + "\n    " + chunk[..i] +
                              ThreeUtils.MainBlock(VertexHeader(s, instanced), VertexMain(s, instanced)) +
                              chunk[i + |ThreeUtils.Marker|..] + "\n  ")
  {
    ThreeUtils.NoDefinesPatch(chunk, VertexHeader(s, instanced), VertexMain(s, instanced), []);
    ThreeUtils.PatchedShader(chunk, [], VertexHeader(s, instanced), VertexMain(s, instanced), [])
  }

  /** The fragment shader: the built-in lambert fragment shader `chunk` with the
      diffuse line replaced by the projection and the header inserted before `main`. */
  function FragmentShader(s: Snippets, chunk: string): (r: string)
    requires Clean(s)
    ensures var t := Text.ReplaceAll(chunk, DiffuseLine, s.fragmentBody);
            var i := Text.IndexOf(t, ThreeUtils.Marker);
            (i == -1 ==> r == "\n    " + "\n    " + t + "\n  ") &&
            (i != -1 ==> r == "\n    " + "\n    " + t[..i] + ThreeUtils.MainBlock(s.fragmentHeader, "") +
                              t[i + |ThreeUtils.Marker|..] + "\n  ")
  {
    ThreeUtils.NoDefinesPatch(chunk, s.fragmentHeader, "", [(DiffuseLine, s.fragmentBody)]);
    ThreeUtils.PatchedShader(chunk, [], s.fragmentHeader, "", [(DiffuseLine, s.fragmentBody)])
  }

  /** The `instanced` flag picks the declaration that opens the vertex header: the
      four per-instance rows or the saved-matrix uniform; for a built-in shader with a
      `main`, the header and the start of `main` land right before and after its
      marker. */
  lemma VertexShaderLayout(s: Snippets, chunk: string, instanced: bool)
    requires Clean(s)
    requires Text.Contains(chunk, ThreeUtils.Marker)
    ensures var r := VertexShader(s, chunk, instanced);
            var h := VertexHeader(s, instanced);
            var m := VertexMain(s, instanced);
            var d := Opening(s, instanced);
            var p := 15 + Text.IndexOf(chunk, ThreeUtils.Marker);
            r[p..p + |h|] == h && r[p..p + |d|] == d &&
            r[p + |h| + 25..p + |h| + 25 + |m|] == m
  {
    var h := VertexHeader(s, instanced);
    ThreeUtils.InsertAtMain(chunk, [], h, VertexMain(s, instanced), []);
    ThreeUtils.DefinesBlockEmpty([]);
    var r := VertexShader(s, chunk, instanced);
    var p := 15 + Text.IndexOf(chunk, ThreeUtils.Marker);
    var d := Opening(s, instanced);
    assert h[..|d|] == d;
    assert r[p..p + |d|] == r[p..p + |h|][..|d|];
  }

  /** When the built-in fragment shader has the diffuse line exactly once, that line
      alone is swapped for the projection code before the header goes in. */
  lemma FragmentSwapsDiffuse(s: Snippets, chunk: string, i: nat)
    requires Text.OccursAt(chunk, DiffuseLine, i)
    requires forall j :: j != i ==> !Text.OccursAt(chunk, DiffuseLine, j)
    ensures ThreeUtils.ReplaceEach(chunk, [(DiffuseLine, s.fragmentBody)]) ==
            chunk[..i] + s.fragmentBody + chunk[i + |DiffuseLine|..]
  {
    assert [(DiffuseLine, s.fragmentBody)][..0] == [];
    assert DiffuseLine != [];
    Text.ReplaceAllUnique(chunk, DiffuseLine, s.fragmentBody, i);
  }

  /** `computeScaledDimensions` of this variant: it reads the natural size of the
      texture's image, which fails when there is no image, and the camera's
      `aspect`. */
  function EarlyDimensions(image: Option<Image>, camera: CameraProjection, scale: Positive, cover: bool)
    : (r: Result<Scaled, Error>)
    requires NaturallySized(image) && (image.Some? ==> camera.Perspective?)
    ensures r.Failure? <==> image.None?
    ensures r.Failure? ==> r.error == TypeError
    ensures r.Success? ==> r.value == ScaleFactors(NaturalRatio(image.value), camera.aspect, scale, cover)
  {
    if image.None? then Failure(TypeError)
    else Success(ScaleFactors(NaturalRatio(image.value), camera.aspect, scale, cover))
  }

  /** With an image, this variant computes what the layered variant computes for a
      perspective camera; without one it fails where the layered one gives `(1, 1)`. */
  lemma EarlyDimensionsAgree(image: Option<Image>, camera: CameraProjection, scale: Positive, cover: bool)
    requires NaturallySized(image) && (image.Some? ==> camera.Perspective?)
    ensures image.Some? ==>
      EarlyDimensions(image, camera, scale, cover) == LayeredMaterial.LayerDimensions(image, camera, scale, cover)
    ensures image.None? ==>
      EarlyDimensions(image, camera, scale, cover).Failure? &&
      LayeredMaterial.LayerDimensions(image, camera, scale, cover) == Success(Scaled(1.0, 1.0))
  {
  }

  /** `this.uniforms`, without the lambert uniforms. */
  datatype EarlyUniforms = EarlyUniforms(
    baseColor: int,
    projectedTexture: Texture,
    viewMatrixCamera: Matrix4,
    projectionMatrixCamera: Matrix4,
    modelMatrixCamera: Matrix4,
    savedModelMatrix: Matrix4,
    projPosition: Vector3,
    widthScaled: real,
    heightScaled: real,
    opacity: real)

  class ProjectedMaterial {
    /** What the resize listener reads. */
    const camera: Camera
    const texture: Texture
    const textureScale: Positive
    const cover: bool
    const instanced: bool
    const vertexShader: string
    const fragmentShader: string
    var uniforms: EarlyUniforms

    constructor Init(camera: Camera, texture: Texture, textureScale: Positive, cover: bool, instanced: bool,
                     vertexShader: string, fragmentShader: string, uniforms: EarlyUniforms)
      ensures this.camera == camera && this.texture == texture && this.textureScale == textureScale
      ensures this.cover == cover && this.instanced == instanced
      ensures this.vertexShader == vertexShader && this.fragmentShader == fragmentShader
      ensures this.uniforms == uniforms
    {
      this.camera := camera;
      this.texture := texture;
      this.textureScale := textureScale;
      this.cover := cover;
      this.instanced := instanced;
      this.vertexShader := vertexShader;
      this.fragmentShader := fragmentShader;
      this.uniforms := uniforms;
    }

    /** `new ProjectedMaterial({camera, texture, color, textureScale, instanced, cover,
        opacity})` over the built-in lambert shaders `vertexChunk` and `fragmentChunk`
        and the material's own `snippets`.
        The texture is checked first, then the camera; the camera's matrices and
        position are captured, its dimensions computed (which fails without an
        image), and the shaders patched. */
    static method New(camera: Arg<Camera>, texture: Arg<Texture>, color: int, textureScale: Positive,
                      instanced: bool, cover: bool, opacity: real, snippets: Snippets,
                      vertexChunk: string, fragmentChunk: string)
      returns (r: Result<ProjectedMaterial, Error>)
      requires Clean(snippets)
      requires (texture.Given? && texture.value.isTexture && texture.value.image.Some? &&
                camera.Given? && camera.value.isCamera) ==>
        camera.value.projection.Perspective? && NaturallySized(texture.value.image)
      ensures !(texture.Given? && texture.value.isTexture) ==> r == Failure(InvalidTexture)
      ensures texture.Given? && texture.value.isTexture && !(camera.Given? && camera.value.isCamera) ==>
        r == Failure(InvalidCamera)
      ensures texture.Given? && texture.value.isTexture && camera.Given? && camera.value.isCamera ==>
        var c := camera.value;
        var t := texture.value;
        var d := EarlyDimensions(t.image, c.projection, textureScale, cover);
        (d.Failure? ==> r == Failure(TypeError)) &&
        (d.Success? ==>
           r.Success? && fresh(r.value) &&
           var m := r.value;
           m.camera == c && m.texture == t && m.textureScale == textureScale && m.cover == cover &&
           m.instanced == instanced &&
           m.vertexShader == VertexShader(snippets, vertexChunk, instanced) &&
           m.fragmentShader == FragmentShader(snippets, fragmentChunk) &&
           m.uniforms == EarlyUniforms(color, t, c.matrixWorldInverse, c.projectionMatrix, c.matrixWorld,
             Identity, c.position, d.value.width, d.value.height, opacity))
    {
      if !texture.Given? || !texture.value.isTexture {
        return Failure(InvalidTexture);
      }
      if !camera.Given? || !camera.value.isCamera {
        return Failure(InvalidCamera);
      }
      var c := camera.value;
      var t := texture.value;
      var d := EarlyDimensions(t.image, c.projection, textureScale, cover);
      if d.Failure? {
        return Failure(TypeError);
      }
      var vertexShader := ThreeUtils.MonkeyPatch(vertexChunk, [], VertexHeader(snippets, instanced),
        VertexMain(snippets, instanced), []);
      var fragmentShader := ThreeUtils.MonkeyPatch(fragmentChunk, [], snippets.fragmentHeader, "",
        [(DiffuseLine, snippets.fragmentBody)]);
      var u := EarlyUniforms(color, t, c.matrixWorldInverse, c.projectionMatrix, c.matrixWorld,
        Identity, c.position, d.value.width, d.value.height, opacity);
      var m := new ProjectedMaterial.Init(c, t, textureScale, cover, instanced, vertexShader, fragmentShader, u);
      r := Success(m);
    }

    /** The resize listener: the camera's projection matrix is copied, then the
        dimensions are recomputed from the captured texture, scale and cover; without
        an image the copy stays and the dimensions do not change. */
    method OnResize() returns (o: Outcome<Error>)
      requires NaturallySized(texture.image) && (texture.image.Some? ==> camera.projection.Perspective?)
      modifies this
      ensures var u := old(uniforms).(projectionMatrixCamera := camera.projectionMatrix);
        var d := EarlyDimensions(texture.image, camera.projection, textureScale, cover);
        (d.Failure? ==> o == Fail(TypeError) && uniforms == u) &&
        (d.Success? ==> o == Pass && uniforms == u.(widthScaled := d.value.width, heightScaled := d.value.height))
    {
      uniforms := uniforms.(projectionMatrixCamera := camera.projectionMatrix);
      var d := EarlyDimensions(texture.image, camera.projection, textureScale, cover);
      if d.Failure? {
        return Fail(d.error);
      }
      uniforms := uniforms.(widthScaled := d.value.width, heightScaled := d.value.height);
      o := Pass;
    }
  }

  /** `mesh.material.isProjectedMaterial`, which an array of materials does not have. */
  predicate Targets(slot: MaterialSlot<ProjectedMaterial>) {
    slot.Single? && slot.only.Projected?
  }

  /** `project(mesh)`: a mesh whose material is not a projected material is refused;
      otherwise the material saves the mesh's world matrix and nothing else. */
  method Project(mesh: Mesh<ProjectedMaterial>) returns (o: Outcome<Error>)
    modifies if Targets(mesh.material) then {mesh.material.only.material} else {}
    ensures !Targets(mesh.material) ==> o == Fail(NotProjectedMaterial)
    ensures Targets(mesh.material) ==>
      o == Pass &&
      var m := mesh.material.only.material;
      m.uniforms == old(m.uniforms).(savedModelMatrix := mesh.matrixWorld)
  {
    if !Targets(mesh.material) {
      return Fail(NotProjectedMaterial);
    }
    var m := mesh.material.only.material;
    m.uniforms := m.uniforms.(savedModelMatrix := mesh.matrixWorld);
    o := Pass;
  }

  /** The checks of `projectInstanceAt`, in order: an instanced mesh, a projected
      material, the four row attributes, and a material made with `instanced: true`. */
  function InstanceCheck(mesh: Mesh<ProjectedMaterial>): (o: Outcome<Error>)
    reads mesh.geometry
    ensures o.Pass? <==>
      mesh.isInstancedMesh && Targets(mesh.material) && Instancing.HasRows(mesh.geometry, Instancing.RowNames) &&
      mesh.material.only.material.instanced
    ensures !mesh.isInstancedMesh ==> o == Fail(NotInstancedMesh)
    ensures mesh.isInstancedMesh && !Targets(mesh.material) ==> o == Fail(NotProjectedMaterial)
  {
    if !mesh.isInstancedMesh then Fail(NotInstancedMesh)
    else if !Targets(mesh.material) then Fail(NotProjectedMaterial)
    else if !Instancing.HasRows(mesh.geometry, Instancing.RowNames) then Fail(NotAllocated)
    else if !mesh.material.only.material.instanced then Fail(NotInstancedMaterial)
    else Pass
  }

  /** `projectInstanceAt(index, instancedMesh, matrixWorld)`: after the checks, the rows
      of `matrixWorld` go to slot `index` of the four attributes; the material is not
      touched, and nothing is written when a check fails. */
  method ProjectInstanceAt(index: int, mesh: Mesh<ProjectedMaterial>, matrixWorld: Matrix4)
    returns (o: Outcome<Error>)
    modifies Instancing.RowBuffers(mesh.geometry, Instancing.RowNames)
    ensures o == InstanceCheck(mesh)
    ensures o.Fail? ==>
      forall b :: b in Instancing.RowBuffers(mesh.geometry, Instancing.RowNames) ==> b[..] == old(b[..])
    ensures o.Pass? ==> Instancing.Written(old(Instancing.Rows(mesh.geometry, Instancing.RowNames)), index, matrixWorld)
  {
    o := InstanceCheck(mesh);
    if o.Fail? {
      return;
    }
    Instancing.WriteAt(mesh.geometry, Instancing.RowNames, index, matrixWorld);
  }

  /** `allocateProjectionData(geometry, instancesCount)` of this variant, the same
      four zeroed row attributes as the published build's. */
  method AllocateProjectionData(g: Geometry, instancesCount: nat)
    modifies g
    ensures forall name :: name in g.attributes <==> name in old(g.attributes) || name in Instancing.RowNames
    ensures forall name :: name in old(g.attributes) && name !in Instancing.RowNames ==>
      g.attributes[name] == old(g.attributes[name])
    ensures Instancing.HasRows(g, Instancing.RowNames) && Instancing.Separate(Instancing.Rows(g, Instancing.RowNames))
    ensures forall r :: 0 <= r < 4 ==>
      var a := Instancing.Rows(g, Instancing.RowNames)[r];
      fresh(a.buffer) && Instancing.Zeroed(a, instancesCount)
  {
    Instancing.AllocateProjectionData(g, instancesCount);
  }
}
