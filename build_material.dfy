/** The published `ProjectedMaterial`: one texture projected from one camera. The
    material keeps the camera, the cover flag and the texture scale privately and the
    rest in its uniforms; `project` snapshots the camera and the mesh's world matrix
    into the uniforms, so the texture stays where it was projected when either moves
    afterwards. */
module BuildMaterial {
  import opened Wrappers
  import opened Three
  import opened Dimensions
  import opened ThreeUtils
  import Seqs
  import Instancing

  /** `this.uniforms`, one field per `{ value }` entry. */
  datatype Uniforms = Uniforms(
    projectedTexture: Texture,
    isTextureLoaded: bool,
    isTextureProjected: bool,
    backgroundOpacity: real,
    viewMatrixCamera: Matrix4,
    projectionMatrixCamera: Matrix4,
    projPosition: Vector3,
    projDirection: Vector3,
    savedModelMatrix: Matrix4,
    widthScaled: real,
    heightScaled: real,
    textureOffset: Vector2)

  /** The uniforms that only a projection writes: the camera snapshot, the mesh
      matrix and the background opacity. */
  function Projection(u: Uniforms): (bool, Matrix4, Matrix4, Vector3, Vector3, Matrix4, real) {
    (u.isTextureProjected, u.viewMatrixCamera, u.projectionMatrixCamera, u.projPosition,
     u.projDirection, u.savedModelMatrix, u.backgroundOpacity)
  }

  /** The uniforms a new material starts with. */
  function InitialUniforms(texture: Texture, d: Scaled, textureOffset: Vector2): (r: Uniforms)
    reads texture
    ensures r.projectedTexture == texture && (r.isTextureLoaded <==> texture.image.Some?)
    ensures Projection(r) == (false, Identity, Identity, Origin, Backward, Identity, 1.0)
    ensures r.widthScaled == d.width && r.heightScaled == d.height && r.textureOffset == textureOffset
  {
    Uniforms(texture, texture.image.Some?, false, 1.0, Identity, Identity, Origin, Backward,
             Identity, d.width, d.height, textureOffset)
  }

  /** The uniforms after `saveCameraMatrices`: the camera's view and projection
      matrices, position and direction, and the projected flag. */
  function Snapshot(u: Uniforms, c: Camera): (v: Uniforms)
    reads c
    ensures v.isTextureProjected && v.viewMatrixCamera == c.matrixWorldInverse
    ensures v.projectionMatrixCamera == c.projectionMatrix
    ensures v.projPosition == c.position && v.projDirection == c.direction
    ensures v.projectedTexture == u.projectedTexture && v.isTextureLoaded == u.isTextureLoaded
    ensures v.backgroundOpacity == u.backgroundOpacity && v.savedModelMatrix == u.savedModelMatrix
    ensures v.widthScaled == u.widthScaled && v.heightScaled == u.heightScaled
    ensures v.textureOffset == u.textureOffset
  {
    u.(viewMatrixCamera := c.matrixWorldInverse, projectionMatrixCamera := c.projectionMatrix,
       projPosition := c.position, projDirection := c.direction, isTextureProjected := true)
  }

  function WithDimensions(u: Uniforms, d: Scaled): Uniforms {
    u.(widthScaled := d.width, heightScaled := d.height)
  }

  /** The uniforms after `#saveDimensions` computed `d`: the new dimensions, or as
      they were when the computation threw. */
  function Saved(u: Uniforms, d: Result<Scaled, Error>): Uniforms {
    if d.Success? then WithDimensions(u, d.value) else u
  }

  /** `backgroundOpacity` after a successful projection: 0 when the material is not
      the first of a material array. */
  function Opacity(slot: MaterialSlot<ProjectedMaterial>, m: ProjectedMaterial, current: real): (o: real)
    ensures o == 0.0 || o == current
    ensures slot.Single? ==> o == current
    ensures slot.List? && Projected(m) in slot.items && slot.items[0] != Projected(m) ==> o == 0.0
    ensures slot.List? && (Projected(m) !in slot.items || slot.items[0] == Projected(m)) ==> o == current
  {
    if slot.List? && Seqs.IndexOf(slot.items, Projected(m)) > 0 then 0.0 else current
  }

  class ProjectedMaterial {
    var camera: Camera
    var cover: bool
    var textureScale: Positive
    var uniforms: Uniforms
    /** The material option `transparent`. */
    var transparent: bool
    /** Whether the window resize listener is registered. */
    var resizeSubscribed: bool
    /** The textures whose load listeners are still polling. */
    var loadWaits: seq<Texture>

    /** The camera is a camera and the texture a texture. */
    ghost predicate Valid()
      reads this
    {
      camera.isCamera && uniforms.projectedTexture.isTexture
    }

    /** `computeScaledDimensions` of the current texture, camera, scale and cover. */
    function CurrentDimensions(): Result<Scaled, Error>
      reads this, camera, uniforms.projectedTexture
    {
      ScaledDimensions(uniforms.projectedTexture.image, camera.projection, textureScale, cover)
    }

    /** The dimension uniforms are those of the current settings. */
    ghost predicate DimensionsCurrent()
      reads this, camera, uniforms.projectedTexture
    {
      CurrentDimensions() == Success(Scaled(uniforms.widthScaled, uniforms.heightScaled))
    }

    /** The private state other than the uniforms is as it was. */
    twostate predicate SettingsKept()
      reads this
    {
      camera == old(camera) && cover == old(cover) && textureScale == old(textureScale) &&
      transparent == old(transparent) && resizeSubscribed == old(resizeSubscribed) &&
      loadWaits == old(loadWaits)
    }

    constructor Init(camera: Camera, texture: Texture, textureScale: Positive,
                     textureOffset: Vector2, cover: bool, transparent: bool, d: Scaled)
      ensures this.camera == camera && this.cover == cover && this.textureScale == textureScale
      ensures this.transparent == transparent && resizeSubscribed
      ensures uniforms == InitialUniforms(texture, d, textureOffset)
      ensures loadWaits == (if IsReady(texture.image) then [] else [texture])
    {
      this.camera := camera;
      this.cover := cover;
      this.textureScale := textureScale;
      this.transparent := transparent;
      uniforms := InitialUniforms(texture, d, textureOffset);
      resizeSubscribed := true;
      loadWaits := if IsReady(texture.image) then [] else [texture];
    }

    /** `new ProjectedMaterial({camera, texture, textureScale, textureOffset, cover,
        transparent})`. A missing texture or camera is replaced by a new default one;
        `null` fails on the property read; a non-texture and then a non-camera are
        rejected; an unsupported camera fails when the image can be measured. The
        new material has not projected, shows its background, counts the texture as
        loaded when it has an image, holds the scaled dimensions of its settings,
        listens to resizes, and waits for the texture unless it is ready. */
    static method New(camera: Arg<Camera>, texture: Arg<Texture>, textureScale: Positive,
                      textureOffset: Vector2, cover: bool, transparent: bool)
      returns (r: Result<ProjectedMaterial, Error>)
      ensures texture.Null? ==> r == Failure(TypeError)
      ensures texture.Given? && !texture.value.isTexture ==> r == Failure(InvalidTexture)
      ensures !texture.Null? && (texture.Given? ==> texture.value.isTexture) ==>
        (camera.Null? ==> r == Failure(TypeError)) &&
        (camera.Given? && !camera.value.isCamera ==> r == Failure(InvalidCamera))
      ensures texture.Missing? && camera.Missing? ==> r.Success?
      ensures texture.Missing? && camera.Given? && camera.value.isCamera ==> r.Success?
      ensures texture.Given? && texture.value.isTexture && camera.Missing? ==> r.Success?
      ensures texture.Given? && texture.value.isTexture && camera.Given? && camera.value.isCamera ==>
        (r.Success? <==> ScaledDimensions(texture.value.image, camera.value.projection, textureScale, cover).Success?) &&
        (r.Failure? ==> r.error == ScaledDimensions(texture.value.image, camera.value.projection, textureScale, cover).error)
      ensures r.Success? ==>
        var m := r.value;
        fresh(m) && m.Valid() &&
        (texture.Given? ==> m.uniforms.projectedTexture == texture.value) &&
        (texture.Missing? ==> fresh(m.uniforms.projectedTexture) && m.uniforms.projectedTexture.image.None?) &&
        (camera.Given? ==> m.camera == camera.value) &&
        (camera.Missing? ==> fresh(m.camera) && m.camera.projection == Perspective(1.0)) &&
        m.cover == cover && m.textureScale == textureScale && m.transparent == transparent &&
        m.CurrentDimensions().Success? &&
        m.uniforms == InitialUniforms(m.uniforms.projectedTexture, m.CurrentDimensions().value, textureOffset) &&
        m.resizeSubscribed &&
        m.loadWaits == (if IsReady(m.uniforms.projectedTexture.image) then [] else [m.uniforms.projectedTexture])
    {
      if texture.Null? {
        return Failure(TypeError);
      }
      var tex: Texture;
      if texture.Missing? {
        tex := new Texture(true, None);
      } else {
        tex := texture.value;
      }
      if !tex.isTexture {
        return Failure(InvalidTexture);
      }
      if camera.Null? {
        return Failure(TypeError);
      }
      var cam: Camera;
      if camera.Missing? {
        cam := new Camera.Default();
      } else {
        cam := camera.value;
      }
      if !cam.isCamera {
        return Failure(InvalidCamera);
      }
      var d := ScaledDimensions(tex.image, cam.projection, textureScale, cover);
      if d.Failure? {
        return Failure(d.error);
      }
      var m := new ProjectedMaterial.Init(cam, tex, textureScale, textureOffset, cover, transparent, d.value);
      r := Success(m);
    }

    /** `#saveDimensions`: the scaled dimensions of the current settings, or the camera
        error with the uniforms left as they were. */
    method SaveDimensions() returns (o: Outcome<Error>)
      modifies this
      ensures SettingsKept()
      ensures o == Thrown(old(CurrentDimensions())) && uniforms == Saved(old(uniforms), old(CurrentDimensions()))
      ensures o == Pass ==> DimensionsCurrent()
    {
      var d := ScaledDimensions(uniforms.projectedTexture.image, camera.projection, textureScale, cover);
      if d.Failure? {
        return Fail(d.error);
      }
      uniforms := WithDimensions(uniforms, d.value);
      o := Pass;
    }

    /** `#saveCameraMatrices`. */
    method SaveCameraMatrices()
      modifies this
      ensures SettingsKept() && uniforms == Snapshot(old(uniforms), camera)
    {
      uniforms := Snapshot(uniforms, camera);
    }

    /** The `camera` setter: anything but a camera is rejected with nothing changed;
        a camera is stored and the dimensions are recomputed with it. */
    method SetCamera(c: Arg<Camera>) returns (o: Outcome<Error>)
      requires Valid()
      modifies this
      ensures Valid()
      ensures uniforms.projectedTexture == old(uniforms.projectedTexture) && uniforms.isTextureLoaded == old(uniforms.isTextureLoaded)
      ensures Projection(uniforms) == Projection(old(uniforms))
      ensures c.Given? && c.value.isCamera && o.Fail? ==> o.error.UnsupportedCamera?
      ensures !(c.Given? && c.value.isCamera) ==>
        o == Fail(InvalidCamera) && camera == old(camera) && uniforms == old(uniforms)
      ensures c.Given? && c.value.isCamera ==>
        camera == c.value &&
        var d := ScaledDimensions(old(uniforms.projectedTexture.image), c.value.projection, textureScale, cover);
        o == Thrown(d) && uniforms == Saved(old(uniforms), d)
      ensures cover == old(cover) && textureScale == old(textureScale) && transparent == old(transparent)
      ensures resizeSubscribed == old(resizeSubscribed) && loadWaits == old(loadWaits)
    {
      if !c.Given? || !c.value.isCamera {
        return Fail(InvalidCamera);
      }
      camera := c.value;
      o := SaveDimensions();
    }

    /** The `texture` setter: anything but a texture is rejected with nothing changed.
        A texture is stored and counts as loaded when it has an image; then the
        dimensions are recomputed at once, and otherwise a load listener is added. */
    method SetTexture(t: Arg<Texture>) returns (o: Outcome<Error>)
      requires Valid()
      modifies this
      ensures Valid()
      ensures Projection(uniforms) == Projection(old(uniforms))
      ensures t.Given? && t.value.isTexture && o.Fail? ==> o.error.UnsupportedCamera?
      ensures t.Given? && t.value.isTexture ==>
        uniforms.projectedTexture == t.value && uniforms.isTextureLoaded == t.value.image.Some? &&
        loadWaits == old(loadWaits) + (if t.value.image.None? then [t.value] else [])
      ensures !(t.Given? && t.value.isTexture) ==>
        o == Fail(InvalidTexture) && uniforms == old(uniforms) && loadWaits == old(loadWaits)
      ensures t.Given? && t.value.isTexture && t.value.image.None? ==>
        o == Pass && loadWaits == old(loadWaits) + [t.value] &&
        uniforms == old(uniforms).(projectedTexture := t.value, isTextureLoaded := false)
      ensures t.Given? && t.value.isTexture && t.value.image.Some? ==>
        loadWaits == old(loadWaits) &&
        var u := old(uniforms).(projectedTexture := t.value, isTextureLoaded := true);
        var d := ScaledDimensions(t.value.image, camera.projection, textureScale, cover);
        o == Thrown(d) && uniforms == Saved(u, d)
      ensures camera == old(camera) && cover == old(cover) && textureScale == old(textureScale)
      ensures transparent == old(transparent) && resizeSubscribed == old(resizeSubscribed)
    {
      if !t.Given? || !t.value.isTexture {
        return Fail(InvalidTexture);
      }
      var tex := t.value;
      uniforms := uniforms.(projectedTexture := tex, isTextureLoaded := tex.image.Some?);
      if !uniforms.isTextureLoaded {
        if !IsReady(tex.image) {
          loadWaits := loadWaits + [tex];
        }
        o := Pass;
      } else {
        o := SaveDimensions();
      }
    }

    /** The `textureScale` setter: stores the scale and recomputes the dimensions. */
    method SetTextureScale(s: Positive) returns (o: Outcome<Error>)
      requires Valid()
      modifies this
      ensures Valid()
      ensures uniforms.textureOffset == old(uniforms.textureOffset)
      ensures uniforms.projectedTexture == old(uniforms.projectedTexture) && uniforms.isTextureLoaded == old(uniforms.isTextureLoaded)
      ensures Projection(uniforms) == Projection(old(uniforms))
      ensures o == Pass ==> DimensionsCurrent()
      ensures o.Fail? ==> o.error.UnsupportedCamera?
      ensures textureScale == s
      ensures var d := ScaledDimensions(old(uniforms.projectedTexture.image), camera.projection, s, cover);
        o == Thrown(d) && uniforms == Saved(old(uniforms), d)
      ensures camera == old(camera) && cover == old(cover) && transparent == old(transparent)
      ensures resizeSubscribed == old(resizeSubscribed) && loadWaits == old(loadWaits)
    {
      textureScale := s;
      o := SaveDimensions();
    }

    /** The `textureOffset` setter: stores the offset and nothing else. */
    method SetTextureOffset(v: Vector2)
      modifies this
      ensures SettingsKept() && uniforms == old(uniforms).(textureOffset := v)
      ensures Projection(uniforms) == Projection(old(uniforms))
    {
      uniforms := uniforms.(textureOffset := v);
    }

    /** The `cover` setter: stores the flag and recomputes the dimensions. */
    method SetCover(b: bool) returns (o: Outcome<Error>)
      requires Valid()
      modifies this
      ensures Valid()
      ensures uniforms.textureOffset == old(uniforms.textureOffset)
      ensures uniforms.projectedTexture == old(uniforms.projectedTexture) && uniforms.isTextureLoaded == old(uniforms.isTextureLoaded)
      ensures Projection(uniforms) == Projection(old(uniforms))
      ensures o == Pass ==> DimensionsCurrent()
      ensures o.Fail? ==> o.error.UnsupportedCamera?
      ensures cover == b
      ensures var d := ScaledDimensions(old(uniforms.projectedTexture.image), camera.projection, textureScale, b);
        o == Thrown(d) && uniforms == Saved(old(uniforms), d)
      ensures camera == old(camera) && textureScale == old(textureScale) && transparent == old(transparent)
      ensures resizeSubscribed == old(resizeSubscribed) && loadWaits == old(loadWaits)
    {
      cover := b;
      o := SaveDimensions();
    }

    /** The rule both projections apply to a material array: every material of the
        array must be transparent, and those after the first hide their background
        so that the first shows through. */
    method ArrayRule(slot: MaterialSlot<ProjectedMaterial>) returns (o: Outcome<Error>)
      modifies this
      ensures SettingsKept()
      ensures slot.List? && !transparent ==> o == Fail(TransparentRequired) && uniforms == old(uniforms)
      ensures (slot.List? ==> transparent) ==>
        o == Pass && uniforms == old(uniforms).(backgroundOpacity := Opacity(slot, this, old(uniforms.backgroundOpacity)))
    {
      if slot.List? {
        var materialIndex := Seqs.IndexOf(slot.items, Projected(this));
        if !transparent {
          return Fail(TransparentRequired);
        }
        if materialIndex > 0 {
          uniforms := uniforms.(backgroundOpacity := 0.0);
        }
      }
      o := Pass;
    }

    /** `project(mesh)`. The material kind is checked, then that this material is on
        the mesh, with nothing written on failure. Then the mesh's world matrix is
        saved; with a material array a non-transparent material fails here, after
        that write, and a material other than the first hides its background. Last
        the camera is snapshot. */
    method Project(mesh: Mesh<ProjectedMaterial>) returns (o: Outcome<Error>)
      modifies this
      ensures SettingsKept()
      ensures !AllProjected(mesh.material) ==>
        o == Fail(NotProjectedMaterial) && uniforms == old(uniforms)
      ensures AllProjected(mesh.material) && !Includes(mesh.material, this) ==>
        o == Fail(MaterialMismatch) && uniforms == old(uniforms)
      ensures AllProjected(mesh.material) && Includes(mesh.material, this) &&
              mesh.material.List? && !transparent ==>
        o == Fail(TransparentRequired) && uniforms == old(uniforms).(savedModelMatrix := mesh.matrixWorld)
      ensures AllProjected(mesh.material) && Includes(mesh.material, this) &&
              (mesh.material.List? ==> transparent) ==>
        o == Pass &&
        uniforms == Snapshot(old(uniforms).(savedModelMatrix := mesh.matrixWorld,
          backgroundOpacity := Opacity(mesh.material, this, old(uniforms.backgroundOpacity))), camera)
    {
      if !AllProjected(mesh.material) {
        return Fail(NotProjectedMaterial);
      }
      if !Includes(mesh.material, this) {
        return Fail(MaterialMismatch);
      }
      uniforms := uniforms.(savedModelMatrix := mesh.matrixWorld);
      o := ArrayRule(mesh.material);
      if o.Fail? {
        return;
      }
      SaveCameraMatrices();
      o := Pass;
    }

    /** The checks `projectInstanceAt` makes before writing, in order: an instanced
        mesh, the material kind, this material on the mesh, the four row attributes. */
    function InstanceCheck(mesh: Mesh<ProjectedMaterial>): (o: Outcome<Error>)
      reads mesh.geometry
      ensures o.Pass? <==>
        mesh.isInstancedMesh && AllProjected(mesh.material) && Includes(mesh.material, this) &&
        Instancing.HasRows(mesh.geometry, Instancing.RowNames)
      ensures !mesh.isInstancedMesh ==> o == Fail(NotInstancedMesh)
      ensures mesh.isInstancedMesh && !AllProjected(mesh.material) ==> o == Fail(NotProjectedMaterial)
      ensures mesh.isInstancedMesh && AllProjected(mesh.material) && !Includes(mesh.material, this) ==>
        o == Fail(MaterialMismatch)
    {
      if !mesh.isInstancedMesh then Fail(NotInstancedMesh)
      else if !AllProjected(mesh.material) then Fail(NotProjectedMaterial)
      else if !Includes(mesh.material, this) then Fail(MaterialMismatch)
      else if !Instancing.HasRows(mesh.geometry, Instancing.RowNames) then Fail(NotAllocated)
      else Pass
    }

    /** What `projectInstanceAt` does to the material once the rows are written: the
        material-array rule, then the camera snapshot for instance 0 or when forced. */
    method FinishInstance(slot: MaterialSlot<ProjectedMaterial>, save: bool) returns (o: Outcome<Error>)
      modifies this
      ensures SettingsKept()
      ensures slot.List? && !transparent ==> o == Fail(TransparentRequired) && uniforms == old(uniforms)
      ensures (slot.List? ==> transparent) ==>
        var u := old(uniforms).(backgroundOpacity := Opacity(slot, this, old(uniforms.backgroundOpacity)));
        o == Pass && uniforms == (if save then Snapshot(u, camera) else u)
    {
      o := ArrayRule(slot);
      if o.Fail? {
        return;
      }
      if save {
        SaveCameraMatrices();
      }
      o := Pass;
    }

    /** `projectInstanceAt(index, mesh, matrixWorld, {forceCameraSave})`: nothing is
        written when a check fails. Then the rows of `matrixWorld` go to slot `index`;
        the material-array rule of `project` follows, and the camera is snapshot only
        for instance 0 or when forced. */
    method ProjectInstanceAt(index: int, mesh: Mesh<ProjectedMaterial>, matrixWorld: Matrix4,
                             forceCameraSave: bool) returns (o: Outcome<Error>)
      modifies this, Instancing.RowBuffers(mesh.geometry, Instancing.RowNames)
      ensures SettingsKept()
      ensures InstanceCheck(mesh).Fail? ==> o == InstanceCheck(mesh) && uniforms == old(uniforms)
      ensures o.Fail? && o.error != TransparentRequired ==>
        forall b :: b in Instancing.RowBuffers(mesh.geometry, Instancing.RowNames) ==> b[..] == old(b[..])
      ensures InstanceCheck(mesh).Pass? ==>
        Instancing.Written(old(Instancing.Rows(mesh.geometry, Instancing.RowNames)), index, matrixWorld) &&
        (mesh.material.List? && !transparent ==> o == Fail(TransparentRequired) && uniforms == old(uniforms)) &&
        ((mesh.material.List? ==> transparent) ==>
          var u := old(uniforms).(backgroundOpacity := Opacity(mesh.material, this, old(uniforms.backgroundOpacity)));
          o == Pass && uniforms == (if index == 0 || forceCameraSave then Snapshot(u, camera) else u))
    {
      o := InstanceCheck(mesh);
      if o.Fail? {
        return;
      }
      Instancing.WriteRows(Instancing.Rows(mesh.geometry, Instancing.RowNames), index, matrixWorld);
      o := FinishInstance(mesh.material, index == 0 || forceCameraSave);
    }

    /** `copy(source)`: takes `transparent` from the source (the part of the base
        class copy the model keeps), then runs the camera, texture, scale, offset and
        cover setters with the source's values, stopping at the first that fails. On
        success every setting is the source's and the dimensions are those of the new
        settings; a failure can only be an unsupported camera. The projection
        snapshot of this material is not copied. */
    method Copy(source: ProjectedMaterial) returns (o: Outcome<Error>)
      requires Valid() && source.Valid()
      modifies this
      ensures Valid()
      ensures transparent == old(source.transparent) && resizeSubscribed == old(resizeSubscribed)
      ensures o.Fail? ==> o.error.UnsupportedCamera?
      ensures o.Fail? ==>
        camera == old(source.camera) && textureScale == old(textureScale) && cover == old(cover) &&
        uniforms.textureOffset == old(uniforms.textureOffset) && Projection(uniforms) == Projection(old(uniforms))
      ensures o == Pass ==>
        camera == old(source.camera) && uniforms.projectedTexture == old(source.uniforms.projectedTexture) &&
        textureScale == old(source.textureScale) && cover == old(source.cover) &&
        uniforms.textureOffset == old(source.uniforms.textureOffset) &&
        uniforms.isTextureLoaded == uniforms.projectedTexture.image.Some? &&
        DimensionsCurrent() &&
        Projection(uniforms) == Projection(old(uniforms)) &&
        loadWaits == old(loadWaits) + (if uniforms.projectedTexture.image.None? then [uniforms.projectedTexture] else [])
    {
      transparent := source.transparent;
      o := CopySettings(source.camera, source.uniforms.projectedTexture, source.textureScale,
        source.uniforms.textureOffset, source.cover);
    }

    /** The setters `copy` runs, in order, stopping at the first that fails. */
    method CopySettings(c: Camera, t: Texture, scale: Positive, offset: Vector2, b: bool) returns (o: Outcome<Error>)
      requires Valid() && c.isCamera && t.isTexture
      modifies this
      ensures Valid()
      ensures transparent == old(transparent) && resizeSubscribed == old(resizeSubscribed)
      ensures o.Fail? ==> o.error.UnsupportedCamera?
      ensures o.Fail? ==>
        camera == c && textureScale == old(textureScale) && cover == old(cover) &&
        uniforms.textureOffset == old(uniforms.textureOffset) && Projection(uniforms) == Projection(old(uniforms))
      ensures o == Pass ==>
        camera == c && uniforms.projectedTexture == t && textureScale == scale && cover == b &&
        uniforms.textureOffset == offset &&
        uniforms.isTextureLoaded == uniforms.projectedTexture.image.Some? &&
        DimensionsCurrent() &&
        Projection(uniforms) == Projection(old(uniforms)) &&
        loadWaits == old(loadWaits) + (if uniforms.projectedTexture.image.None? then [uniforms.projectedTexture] else [])
    {
      ghost var projection := Projection(uniforms);
      o := SetCamera(Given(c));
      if o.Fail? { return; }
      o := SetTexture(Given(t));
      if o.Fail? { return; }
      assert camera == c && uniforms.projectedTexture == t;
      assert Projection(uniforms) == projection;
      o := SetTextureScale(scale);
      if o.Fail? { return; }
      SetTextureOffset(offset);
      assert camera == c && uniforms.projectedTexture == t && textureScale == scale;
      assert Projection(uniforms) == projection;
      o := SetCover(b);
    }

    /** `dispose()`: the resize listener is removed. */
    method Dispose()
      modifies this
      ensures !resizeSubscribed && uniforms == old(uniforms)
      ensures camera == old(camera) && cover == old(cover) && textureScale == old(textureScale)
      ensures transparent == old(transparent) && loadWaits == old(loadWaits)
    {
      resizeSubscribed := false;
    }

    /** A window resize: while subscribed, the camera's projection matrix is copied and
        the dimensions are recomputed; after `dispose` nothing happens. */
    method OnResize() returns (o: Outcome<Error>)
      modifies this
      ensures SettingsKept()
      ensures !resizeSubscribed ==> o == Pass && uniforms == old(uniforms)
      ensures resizeSubscribed ==>
        var u := old(uniforms).(projectionMatrixCamera := camera.projectionMatrix);
        var d := ScaledDimensions(u.projectedTexture.image, camera.projection, textureScale, cover);
        o == Thrown(d) && uniforms == Saved(u, d)
    {
      if !resizeSubscribed {
        return Pass;
      }
      uniforms := uniforms.(projectionMatrixCamera := camera.projectionMatrix);
      o := SaveDimensions();
    }

    /** One tick of load listener `k`: once its texture is ready the listener stops,
        the texture counts as loaded, and the dimensions are recomputed for the
        material's current texture; before that nothing happens. */
    method PollLoad(k: nat) returns (o: Outcome<Error>)
      modifies this
      ensures camera == old(camera) && cover == old(cover) && textureScale == old(textureScale)
      ensures transparent == old(transparent) && resizeSubscribed == old(resizeSubscribed)
      ensures !(k < |old(loadWaits)| && IsReady(old(loadWaits)[k].image)) ==>
        o == Pass && uniforms == old(uniforms) && loadWaits == old(loadWaits)
      ensures k < |old(loadWaits)| && IsReady(old(loadWaits)[k].image) ==>
        loadWaits == Seqs.RemoveAt(old(loadWaits), k) &&
        var u := old(uniforms).(isTextureLoaded := true);
        var d := ScaledDimensions(u.projectedTexture.image, camera.projection, textureScale, cover);
        o == Thrown(d) && uniforms == Saved(u, d)
    {
      if k < |loadWaits| && IsReady(loadWaits[k].image) {
        loadWaits := Seqs.RemoveAt(loadWaits, k);
        uniforms := uniforms.(isTextureLoaded := true);
        o := SaveDimensions();
      } else {
        o := Pass;
      }
    }
  }
}
