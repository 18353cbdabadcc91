/** `ResourceModelRenderer`: turns a block-state variant's resolved model into
    triangles of the tile model, face by face and element by element, and folds the
    colour of the faces that look up into the block's map colour.

    The tile model and the caller's colour are objects the Java code updates in
    place; here they are the values `View` and `Color`, held in the renderer's fields
    while it renders.  Each method is proved equal to a specification function on
    the renderer's `State`, and the lemmas at the end are about those functions. */
module ResourceModelRenderer {
  import opened Matrix3x3
  import opened RenderTypes
  import opened FaceRules

  /** The tint colour before it has been loaded: alpha -1 marks it unset. */
  const TintUnset: Color := Color(0.0, 0.0, 0.0, -1.0, true)

  /** The hash seeds of the random x and z offsets. */
  const OffsetSeedX: int := 123984
  const OffsetSeedZ: int := 345542

  /** A `TileModelView`: the triangles of the tile model, the transformations applied
      to ranges of them, and the index where the current view begins (it ends at the
      end of the model). */
  datatype View = View(mesh: seq<Triangle>, ops: seq<RegionOp>, start: nat)

  /** `initialize()`: an empty view at the end of the model. */
  function Initialize(v: View): (r: View)
    ensures r.mesh == v.mesh && r.ops == v.ops && r.start == |v.mesh|
  {
    v.(start := |v.mesh|)
  }

  /** What a render changes: the view it writes to, the lazily loaded tint colour and
      the number of times the tint calculator was asked for it, the block's map colour
      and the highest opacity added to it. */
  datatype State = State(view: View, tintColor: Color, tintCalls: nat,
                         blockColor: Color, blockColorOpacity: real)

  /** What a render reads: the block, its variant and resolved model, the settings and
      the collaborators. */
  datatype Ctx = Ctx(block: Block, variant: Variant, model: Model,
                     settings: RenderSettings, env: Env)

  /** The result of tinting one face: its colour, the tint colour afterwards and the
      calculator call count afterwards. */
  datatype Tint = Tint(rgb: Rgb, tintColor: Color, calls: nat)

  /** `applyFaceTint`: a face with a tint index takes the block's tint colour, loading
      it from the calculator only while it is still unset; other faces are white. */
  function FaceTint(env: Env, block: Block, face: Face, tintColor: Color, calls: nat): (t: Tint)
    ensures face.tintIndex < 0 ==> t == Tint(Rgb(1.0, 1.0, 1.0), tintColor, calls)
    ensures face.tintIndex >= 0 ==> t.rgb == Rgb(t.tintColor.r, t.tintColor.g, t.tintColor.b)
    ensures face.tintIndex >= 0 && tintColor.a >= 0.0 ==> t.tintColor == tintColor && t.calls == calls
    ensures face.tintIndex >= 0 && tintColor.a < 0.0 ==> t.tintColor == env.tint(block) && t.calls == calls + 1
  {
    if face.tintIndex >= 0 then
      var loaded := if tintColor.a < 0.0 then env.tint(block) else tintColor;
      Tint(Rgb(loaded.r, loaded.g, loaded.b), loaded, if tintColor.a < 0.0 then calls + 1 else calls)
    else Tint(Rgb(1.0, 1.0, 1.0), tintColor, calls)
  }

  /** `applyAmbientOcclusion` for one corner: the occlusion factor when the model asks
      for ambient occlusion, full light otherwise. */
  function CornerAo(c: Ctx, v: Vec3, dir: Direction): real
  {
    if c.model.ambientOcclusion then AoFactor(c.block, c.variant, v, dir) else 1.0
  }

  /** A face is drawn when the element has it, it is not removed as a cave face, and
      it is not culled. */
  predicate Emits(c: Ctx, element: Element, dir: Direction)
  {
    dir in element.faces &&
    !ShouldRemoveInCave(c.block, c.settings, CalculateLight(c.block, c.variant, dir)) &&
    !ShouldCullFace(c.settings, c.block, c.variant, element.faces[dir], FaceRotationVector(element, c.variant, dir))
  }

  /** `createElementFace` with the face's corners c0..c3: two triangles (c0, c1, c2)
      and (c0, c2, c3) with the face's texture, UVs, tint, light and occlusion, and
      the face's contribution to the map colour. */
  function FaceStep(c: Ctx, element: Element, dir: Direction, c0: Vec3, c1: Vec3, c2: Vec3, c3: Vec3,
                    s: State): State
  {
    if Emits(c, element, dir) then FaceEmission(c, element, dir, c0, c1, c2, c3, s) else s
  }

  /** The part of `createElementFace` after a face has passed the checks of `Emits`. */
  function FaceEmission(c: Ctx, element: Element, dir: Direction, c0: Vec3, c1: Vec3, c2: Vec3, c3: Vec3,
                        s: State): State
    requires dir in element.faces
  {
    var face := element.faces[dir];
    var light := CalculateLight(c.block, c.variant, dir);
    var normal := FaceRotationVector(element, c.variant, dir);
    var material := c.env.textureId(face.texture);
    var uv := FaceUvs(c.env, c.variant, face, dir);
    var tint := FaceTint(c.env, c.block, face, s.tintColor, s.tintCalls);
    var blockLight := Max(light.blockLight, element.lightEmission);
    var ao0, ao1, ao2, ao3 := CornerAo(c, c0, dir), CornerAo(c, c1, dir), CornerAo(c, c2, dir), CornerAo(c, c3, dir);
    var t1 := Triangle(c0, c1, c2, material, uv[0], uv[1], uv[2], tint.rgb, blockLight, light.sky, ao0, ao1, ao2);
    var t2 := Triangle(c0, c2, c3, material, uv[0], uv[2], uv[3], tint.rgb, blockLight, light.sky, ao0, ao2, ao3);
    var contribution := MapContribution(c.env, c.settings, tint.tintColor, face.texture, normal, light);
    State(View(s.view.mesh + [t1, t2], s.view.ops, |s.view.mesh|),
          tint.tintColor, tint.calls,
          if contribution.Some? then c.env.add(s.blockColor, contribution.value) else s.blockColor,
          if contribution.Some? then MaxReal(s.blockColorOpacity, contribution.value.a) else s.blockColorOpacity)
  }

  /** One face of an element, drawn on the four corners the corner layout assigns to
      its direction. */
  function FaceAt(c: Ctx, element: Element, dir: Direction, s: State): State
  {
    var k, f := Corners(element.from, element.to), FaceCorners(dir);
    FaceStep(c, element, dir, k[f[0]], k[f[1]], k[f[2]], k[f[3]], s)
  }

  /** `buildModelElementResource`: the element's six faces in the order DOWN, UP,
      NORTH, SOUTH, WEST, EAST, then the element's rotation scaled to block units
      applied to the triangles added since the view's start. */
  function ElementStep(c: Ctx, element: Element, s: State): State
  {
    var modelStart := s.view.start;
    var s6 := FaceAt(c, element, East, FaceAt(c, element, West, FaceAt(c, element, South,
                FaceAt(c, element, North, FaceAt(c, element, Up, FaceAt(c, element, Down, s))))));
    s6.(view := View(s6.view.mesh,
                     s6.view.ops + [ElementTransform(modelStart, |s6.view.mesh|, element.rotation, BlockScale)],
                     modelStart))
  }

  /** The element loop of `render`: each element is built into a fresh view at the end
      of the model. */
  function Elements(c: Ctx, elements: seq<Element>, s: State): State
  {
    if elements == [] then s
    else
      var before := Elements(c, elements[..|elements| - 1], s);
      ElementStep(c, elements[|elements| - 1], before.(view := Initialize(before.view)))
  }

  /** `render`: with a resolved model, reset the tint, build every element, turn the
      summed map colour into a straight colour whose alpha is the highest opacity
      seen, restore the view to the model's start, and apply the variant transform and
      the random offset to the whole block.  An unresolved model only resets the map
      colour. */
  function RenderSpec(settings: RenderSettings, env: Env, block: Block, variant: Variant,
                      blockModel: View, color: Color, s: State): State
  {
    var s0 := s.(view := blockModel, blockColor := color, blockColorOpacity := 0.0);
    if variant.model.None? then s0
    else
      var c := Ctx(block, variant, variant.model.value, settings, env);
      var s1 := s0.(tintColor := TintUnset);
      var modelStart := blockModel.start;
      var s2 := if c.model.elements.Some? then Elements(c, c.model.elements.value, s1) else s1;
      FinishSpec(env, block, variant, modelStart, s2)
  }

  /** The end of `render` for a resolved model: the summed map colour becomes a straight
      colour whose alpha is the highest opacity seen, the view goes back to the model's
      start, and the variant transform and the random offset are applied to the whole
      block. */
  function FinishSpec(env: Env, block: Block, variant: Variant, modelStart: nat, s: State): (r: State)
    ensures r.view.mesh == s.view.mesh && r.view.start == modelStart && s.view.ops <= r.view.ops
    ensures r.tintColor == s.tintColor && r.tintCalls == s.tintCalls && r.blockColorOpacity == s.blockColorOpacity
    ensures s.blockColor.a > 0.0 ==> r.blockColor.a == s.blockColorOpacity
    ensures s.blockColor.a <= 0.0 ==> r.blockColor == s.blockColor
    ensures |r.view.ops| == |s.view.ops| + (if variant.transformed then 1 else 0) + (if block.randomOffset then 1 else 0)
    ensures variant.transformed ==>
              r.view.ops[|s.view.ops|] == VariantTransform(modelStart, |s.view.mesh|, variant.transform)
    ensures block.randomOffset ==>
              var t := r.view.ops[|r.view.ops| - 1];
              t.Translate? && t.start == modelStart && t.end == |s.view.mesh| && t.dy == 0.0 &&
              -0.375 <= t.dx < 0.375 && -0.375 <= t.dz < 0.375
  {
    var s1 := if s.blockColor.a > 0.0
              then s.(blockColor := env.straight(env.flatten(s.blockColor)).(a := s.blockColorOpacity))
              else s;
    var v1 := s1.view.(start := modelStart);
    var v2 := if variant.transformed
              then v1.(ops := v1.ops + [VariantTransform(modelStart, |v1.mesh|, variant.transform)])
              else v1;
    var v3 := if block.randomOffset
              then v2.(ops := v2.ops + [Translate(modelStart, |v2.mesh|, Jitter(block.x, block.z, OffsetSeedX), 0.0,
                                                  Jitter(block.x, block.z, OffsetSeedZ))])
              else v2;
    s1.(view := v3)
  }

  /** The renderer object: its settings and collaborators, its scratch arrays for the
      corners and UVs, the block being rendered, and the render state. */
  class Renderer {
    const settings: RenderSettings
    const env: Env
    const corners: array<Vec3>
    const rawUvs: array<Vec2>
    /** `uvs[i]` is the index of the raw UV that the Java array entry aliases. */
    const uvs: array<nat>

    var block: Block
    var variant: Variant
    var modelResource: Option<Model>
    var view: View
    var tintColor: Color
    var tintCalls: nat
    var blockColor: Color
    var blockColorOpacity: real

    ghost predicate Valid()
    {
      corners.Length == 8 && rawUvs.Length == 4 && uvs.Length == 4
    }

    function Current(): State
      reads this
    {
      State(view, tintColor, tintCalls, blockColor, blockColorOpacity)
    }

    function Context(): Ctx
      requires modelResource.Some?
      reads this`block, this`variant, this`modelResource
    {
      Ctx(block, variant, modelResource.value, settings, env)
    }

    constructor(settings: RenderSettings, env: Env, block: Block, variant: Variant)
      ensures Valid() && fresh(corners) && fresh(rawUvs) && fresh(uvs)
      ensures this.settings == settings && this.env == env
      ensures Current() == State(View([], [], 0), TintUnset, 0, Color(0.0, 0.0, 0.0, 0.0, false), 0.0)
    {
      this.settings := settings;
      this.env := env;
      corners := new Vec3[8](_ => Vec3(0.0, 0.0, 0.0));
      rawUvs := new Vec2[4](_ => Vec2(0.0, 0.0));
      uvs := new nat[4](i => i);
      this.block := block;
      this.variant := variant;
      modelResource := None;
      view := View([], [], 0);
      tintColor := TintUnset;
      tintCalls := 0;
      blockColor := Color(0.0, 0.0, 0.0, 0.0, false);
      blockColorOpacity := 0.0;
    }

    /** `render`. */
    method Render(block: Block, variant: Variant, blockModel: View, color: Color)
      requires Valid()
      modifies this, corners, rawUvs, uvs
      ensures Valid() && this.block == block && this.variant == variant && modelResource == variant.model
      ensures Current() == RenderSpec(settings, env, block, variant, blockModel, color, old(Current()))
    {
      this.block := block;
      view := blockModel;
      blockColor := color;
      blockColorOpacity := 0.0;
      this.variant := variant;
      modelResource := variant.model;

      if modelResource.None? {
        return;
      }

      tintColor := TintUnset;
      var modelStart := view.start;

      if modelResource.value.elements.Some? {
        BuildElements(modelResource.value.elements.value);
      }
      FinishModel(modelStart);
    }

    /** The end of `render`: map colour, view start, variant transform, random offset. */
    method FinishModel(modelStart: nat)
      modifies this`view, this`blockColor
      ensures Current() == FinishSpec(env, block, variant, modelStart, old(Current()))
    {
      if blockColor.a > 0.0 {
        blockColor := env.straight(env.flatten(blockColor));
        blockColor := blockColor.(a := blockColorOpacity);
      }

      view := view.(start := modelStart);

      if variant.transformed {
        view := view.(ops := view.ops + [VariantTransform(modelStart, |view.mesh|, variant.transform)]);
      }

      if block.randomOffset {
        var dx := Jitter(block.x, block.z, OffsetSeedX);
        var dz := Jitter(block.x, block.z, OffsetSeedZ);
        view := view.(ops := view.ops + [Translate(modelStart, |view.mesh|, dx, 0.0, dz)]);
      }
    }

    /** The element loop of `render`. */
    method BuildElements(elements: seq<Element>)
      requires Valid() && modelResource.Some?
      modifies this`view, this`tintColor, this`tintCalls, this`blockColor, this`blockColorOpacity,
               corners, rawUvs, uvs
      ensures Current() == Elements(Context(), elements, old(Current()))
    {
      ghost var s0 := Current();
      for i := 0 to |elements|
        invariant Current() == Elements(Context(), elements[..i], s0)
      {
        assert elements[..i + 1][..i] == elements[..i];
        view := Initialize(view);
        ghost var before := Current();
        BuildModelElementResource(elements[i]);
        assert Elements(Context(), elements[..i + 1], s0) == ElementStep(Context(), elements[i], before);
      }
      assert elements[..|elements|] == elements;
    }

    /** `buildModelElementResource`. */
    method BuildModelElementResource(element: Element)
      requires Valid() && modelResource.Some?
      modifies this`view, this`tintColor, this`tintCalls, this`blockColor, this`blockColorOpacity,
               corners, rawUvs, uvs
      ensures Current() == ElementStep(Context(), element, old(Current()))
    {
      SetCorners(element.from, element.to);

      var modelStart := view.start;
      CreateElementFace(element, Down, corners[FaceCorners(Down)[0]], corners[FaceCorners(Down)[1]],
                        corners[FaceCorners(Down)[2]], corners[FaceCorners(Down)[3]]);
      CreateElementFace(element, Up, corners[FaceCorners(Up)[0]], corners[FaceCorners(Up)[1]],
                        corners[FaceCorners(Up)[2]], corners[FaceCorners(Up)[3]]);
      CreateElementFace(element, North, corners[FaceCorners(North)[0]], corners[FaceCorners(North)[1]],
                        corners[FaceCorners(North)[2]], corners[FaceCorners(North)[3]]);
      CreateElementFace(element, South, corners[FaceCorners(South)[0]], corners[FaceCorners(South)[1]],
                        corners[FaceCorners(South)[2]], corners[FaceCorners(South)[3]]);
      CreateElementFace(element, West, corners[FaceCorners(West)[0]], corners[FaceCorners(West)[1]],
                        corners[FaceCorners(West)[2]], corners[FaceCorners(West)[3]]);
      CreateElementFace(element, East, corners[FaceCorners(East)[0]], corners[FaceCorners(East)[1]],
                        corners[FaceCorners(East)[2]], corners[FaceCorners(East)[3]]);
      view := view.(start := modelStart);

      view := view.(ops := view.ops + [ElementTransform(modelStart, |view.mesh|, element.rotation, BlockScale)]);
    }

    /** The corner loop of `buildModelElementResource`. */
    method SetCorners(from: Vec3, to: Vec3)
      requires Valid()
      modifies corners
      ensures corners[..] == Corners(from, to)
    {
      var minX, minY, minZ := MinReal(from.x, to.x), MinReal(from.y, to.y), MinReal(from.z, to.z);
      var maxX, maxY, maxZ := MaxReal(from.x, to.x), MaxReal(from.y, to.y), MaxReal(from.z, to.z);
      corners[0] := Vec3(minX, minY, minZ);
      corners[1] := Vec3(minX, minY, maxZ);
      corners[2] := Vec3(maxX, minY, minZ);
      corners[3] := Vec3(maxX, minY, maxZ);
      corners[4] := Vec3(minX, maxY, minZ);
      corners[5] := Vec3(minX, maxY, maxZ);
      corners[6] := Vec3(maxX, maxY, minZ);
      corners[7] := Vec3(maxX, maxY, maxZ);
    }

    /** `createElementFace`. */
    method CreateElementFace(element: Element, dir: Direction, c0: Vec3, c1: Vec3, c2: Vec3, c3: Vec3)
      requires Valid() && modelResource.Some?
      modifies this`view, this`tintColor, this`tintCalls, this`blockColor, this`blockColorOpacity, rawUvs, uvs
      ensures Current() == FaceStep(Context(), element, dir, c0, c1, c2, c3, old(Current()))
    {
      if dir !in element.faces {
        return;
      }
      var face := element.faces[dir];

      var faceLight := CalculateLight(block, variant, dir);
      if ShouldRemoveInCave(block, settings, faceLight) {
        return;
      }

      var faceRotationVector := FaceRotationVector(element, variant, dir);
      if ShouldCullFace(settings, block, variant, face, faceRotationVector) {
        return;
      }

      assert Emits(Context(), element, dir);
      EmitFace(element, dir, faceLight, faceRotationVector, c0, c1, c2, c3);
    }

    /** The triangles, UVs, tint, light and occlusion of a face that is drawn, and its
        contribution to the map colour. */
    method EmitFace(element: Element, dir: Direction, faceLight: FaceLight, faceRotationVector: Vec3,
                    c0: Vec3, c1: Vec3, c2: Vec3, c3: Vec3)
      requires Valid() && modelResource.Some? && dir in element.faces
      requires faceLight == CalculateLight(block, variant, dir)
      requires faceRotationVector == FaceRotationVector(element, variant, dir)
      modifies this`view, this`tintColor, this`tintCalls, this`blockColor, this`blockColorOpacity, rawUvs, uvs
      ensures Current() == FaceEmission(Context(), element, dir, c0, c1, c2, c3, old(Current()))
    {
      ghost var spec := FaceEmission(Context(), element, dir, c0, c1, c2, c3, Current());
      var face := element.faces[dir];
      var face1 := |view.mesh|;
      var material := env.textureId(face.texture);

      CalculateUvCoordinates(face, dir);
      var finalUvs := [rawUvs[uvs[0]], rawUvs[uvs[1]], rawUvs[uvs[2]], rawUvs[uvs[3]]];

      var color := ApplyFaceTint(face);

      var emissiveBlockLight := Max(faceLight.blockLight, element.lightEmission);

      var ao0, ao1, ao2, ao3 := ApplyAmbientOcclusion(c0, c1, c2, c3, dir);

      var t1 := Triangle(c0, c1, c2, material, finalUvs[0], finalUvs[1], finalUvs[2], color,
                         emissiveBlockLight, faceLight.sky, ao0, ao1, ao2);
      var t2 := Triangle(c0, c2, c3, material, finalUvs[0], finalUvs[2], finalUvs[3], color,
                         emissiveBlockLight, faceLight.sky, ao0, ao2, ao3);
      view := View(view.mesh + [t1, t2], view.ops, face1);
      assert view == spec.view;
      assert tintColor == spec.tintColor && tintCalls == spec.tintCalls;

      UpdateMapColor(face.texture, faceRotationVector, faceLight);
      assert blockColor == spec.blockColor && blockColorOpacity == spec.blockColorOpacity;
    }

    /** `calculateUvCoordinates`: fills the raw UVs, points each UV entry at the raw
        UV its rotation selects, and rotates the selected UVs in place for UV lock. */
    method CalculateUvCoordinates(face: Face, dir: Direction)
      requires Valid()
      modifies rawUvs, uvs
      ensures forall i :: 0 <= i < 4 ==> uvs[i] < 4 && rawUvs[uvs[i]] == FaceUvs(env, variant, face, dir)[i]
    {
      var raw := RawUvs(face.uv);
      rawUvs[0] := raw[0];
      rawUvs[1] := raw[1];
      rawUvs[2] := raw[2];
      rawUvs[3] := raw[3];

      var rotationSteps := JavaRem(FloorDiv(face.rotation, 90), 4);
      if rotationSteps < 0 {
        rotationSteps := rotationSteps + 4;
      }
      assert rotationSteps == RotationSteps(face.rotation);
      SelectUvs(rotationSteps);

      if variant.uvlock && variant.transformed {
        var uvRotation := UvLockAngle(env, variant, dir);
        if uvRotation != 0.0 {
          RotateSelectedUvs(uvRotation);
        }
      }
    }

    /** The selection loop of `calculateUvCoordinates`: UV entry i aliases raw UV
        (steps + i) mod 4, so the entries are a relabelling of the raw UVs and no raw
        UV is selected twice. */
    method SelectUvs(steps: nat)
      requires Valid() && steps < 4
      modifies uvs
      ensures forall i :: 0 <= i < 4 ==> uvs[i] < 4 && rawUvs[uvs[i]] == RotatedUvs(rawUvs[..], steps)[i]
      ensures forall i, j :: 0 <= i < j < 4 ==> uvs[i] != uvs[j]
    {
      for i := 0 to 4
        invariant forall j :: 0 <= j < i ==> uvs[j] == (steps + j) % 4
      {
        uvs[i] := (steps + i) % 4;
      }
      RotationDistinct(steps, uvs[..]);
    }

    /** The UV-lock loop of `calculateUvCoordinates`: every selected raw UV is rotated
        by `angle` degrees about the centre, each exactly once because the selection
        has no repeats. */
    method RotateSelectedUvs(angle: real)
      requires Valid()
      requires forall i :: 0 <= i < 4 ==> uvs[i] < 4
      requires forall i, j :: 0 <= i < j < 4 ==> uvs[i] != uvs[j]
      modifies rawUvs
      ensures forall i :: 0 <= i < 4 ==> rawUvs[uvs[i]] == LockUv(env, angle, old(rawUvs[uvs[i]]))
    {
      var cx, cy := env.cosDeg(angle), env.sinDeg(angle);
      for i := 0 to 4
        invariant forall j :: 0 <= j < i ==> rawUvs[uvs[j]] == LockUv(env, angle, old(rawUvs[uvs[j]]))
        invariant forall j :: i <= j < 4 ==> rawUvs[uvs[j]] == old(rawUvs[uvs[j]])
      {
        var uv := rawUvs[uvs[i]];
        var moved := env.rotate(Vec2(uv.x - 0.5, uv.y - 0.5), cx, cy);
        rawUvs[uvs[i]] := Vec2(moved.x + 0.5, moved.y + 0.5);
      }
    }

    /** `applyFaceTint`: the colour of the face's triangles. */
    method ApplyFaceTint(face: Face) returns (color: Rgb)
      modifies this`tintColor, this`tintCalls
      ensures var t := FaceTint(env, block, face, old(tintColor), old(tintCalls));
              color == t.rgb && tintColor == t.tintColor && tintCalls == t.calls
    {
      if face.tintIndex >= 0 {
        if tintColor.a < 0.0 {
          tintColor := env.tint(block);
          tintCalls := tintCalls + 1;
        }
        color := Rgb(tintColor.r, tintColor.g, tintColor.b);
      } else {
        color := Rgb(1.0, 1.0, 1.0);
      }
    }

    /** `applyAmbientOcclusion`: the occlusion factors of the four corners, computed
        only when the model asks for ambient occlusion. */
    method ApplyAmbientOcclusion(c0: Vec3, c1: Vec3, c2: Vec3, c3: Vec3, dir: Direction)
      returns (ao0: real, ao1: real, ao2: real, ao3: real)
      requires modelResource.Some?
      ensures ao0 == CornerAo(Context(), c0, dir) && ao1 == CornerAo(Context(), c1, dir)
      ensures ao2 == CornerAo(Context(), c2, dir) && ao3 == CornerAo(Context(), c3, dir)
    {
      ao0, ao1, ao2, ao3 := 1.0, 1.0, 1.0, 1.0;
      if modelResource.value.ambientOcclusion {
        ao0 := TestAo(c0, dir);
        ao1 := TestAo(c1, dir);
        ao2 := TestAo(c2, dir);
        ao3 := TestAo(c3, dir);
      }
    }

    /** `updateMapColor`: adds the face's contribution, if any, to the block colour and
        raises the opacity to the contribution's alpha. */
    method UpdateMapColor(texture: Option<nat>, faceRotationVector: Vec3, faceLight: FaceLight)
      modifies this`blockColor, this`blockColorOpacity
      ensures var m := MapContribution(env, settings, tintColor, texture, faceRotationVector, faceLight);
              blockColor == (if m.Some? then env.add(old(blockColor), m.value) else old(blockColor)) &&
              blockColorOpacity == (if m.Some? then MaxReal(old(blockColorOpacity), m.value.a)
                                    else old(blockColorOpacity))
    {
      if faceRotationVector.y <= 0.01 || texture.None? {
        return;
      }
      var textureColor := env.textureColor(texture.value);
      if textureColor.None? {
        return;
      }

      var mapColor := textureColor.value;
      if tintColor.a >= 0.0 {
        mapColor := env.multiply(mapColor, tintColor);
      }

      var combinedLight := MaxReal(faceLight.sky as real / 15.0, faceLight.blockLight as real / 15.0);
      combinedLight := (1.0 - settings.ambientLight) * combinedLight + settings.ambientLight;
      mapColor := mapColor.(r := mapColor.r * combinedLight);
      mapColor := mapColor.(g := mapColor.g * combinedLight);
      mapColor := mapColor.(b := mapColor.b * combinedLight);

      if mapColor.a > blockColorOpacity {
        blockColorOpacity := mapColor.a;
      }

      ghost var m := MapContribution(env, settings, tintColor, texture, faceRotationVector, faceLight);
      assert combinedLight == CombinedLight(settings, faceLight);
      assert m.Some?;
      assert m.value == mapColor;
      blockColor := env.add(blockColor, mapColor);
    }

    /** The sign `testAo` gives one coordinate of a corner: +1 on the block's far
        side, -1 on its near side, 0 inside. */
    static method CornerSign(c: real) returns (sign: int)
      ensures sign == AoSign(c)
    {
      sign := 0;
      if c == 16.0 {
        sign := 1;
      } else if c == 0.0 {
        sign := -1;
      }
    }

    /** One neighbour test of `testAo`: the neighbour at offset o counts when o leans
        towards the face direction d and the neighbour occludes. */
    method Probe(o: Offset, d: Offset) returns (n: nat)
      ensures n == ProbeCount(block, variant, o, d)
    {
      n := 0;
      if o.x * d.x + o.y * d.y + o.z * d.z > 0 {
        if RelativeBlock(block, variant, o).occluding {
          n := 1;
        }
      }
    }

    /** `testAo`: counts the occluding neighbours among those the corner's face looks
        towards. */
    method TestAo(vertex: Vec3, dir: Direction) returns (ao: real)
      ensures ao == AoFactor(block, variant, vertex, dir)
    {
      var dirVec := DirVector(dir);

      var x := CornerSign(vertex.x);
      var y := CornerSign(vertex.y);
      var z := CornerSign(vertex.z);

      var occluding := Probe(Offset(x, y, 0), dirVec);
      var n := Probe(Offset(x, 0, z), dirVec);
      occluding := occluding + n;
      n := Probe(Offset(0, y, z), dirVec);
      occluding := occluding + n;
      n := Probe(Offset(x, y, z), dirVec);
      occluding := occluding + n;

      if occluding > 3 {
        occluding := 3;
      }
      ao := MaxReal(0.0, MinReal(1.0 - occluding as real * 0.25, 1.0));
    }
  }
}
