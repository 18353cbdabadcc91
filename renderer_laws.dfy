/** Properties of the render specification: what one face writes, what an element
    and a whole render keep (the tile model only grows, the opacity only rises, the
    tint is loaded at most once), and how a render ends. */
module RendererLaws {
  import opened Matrix3x3
  import opened RenderTypes
  import opened FaceRules
  import opened ResourceModelRenderer

  /** r continues s: the triangles and transformations of s are still the first ones
      of r, and the map-colour opacity has not fallen. */
  predicate Extends(s: State, r: State)
  {
    s.view.mesh <= r.view.mesh && s.view.ops <= r.view.ops && s.blockColorOpacity <= r.blockColorOpacity
  }

  /** Since the count stood at `base`, the tint calculator has been asked at most once,
      and once asked its colour stays. */
  predicate TintLoadedOnce(c: Ctx, s: State, base: nat)
  {
    (s.tintColor.a < 0.0 && s.tintCalls == base) ||
    (s.tintColor == c.env.tint(c.block) && s.tintCalls == base + 1)
  }

  /** The four light factors ambient occlusion can give a corner. */
  predicate IsAoValue(f: real)
  {
    f == 1.0 || f == 0.75 || f == 0.5 || f == 0.25
  }

  /** A drawn face appends exactly two triangles, (c0, c1, c2) and (c0, c2, c3), both
      taking the face's UVs and occlusion factors by the same diagonal split, and the
      view starts at the first of them. */
  lemma FaceTriangles(c: Ctx, element: Element, dir: Direction, c0: Vec3, c1: Vec3, c2: Vec3, c3: Vec3,
                      s: State)
    requires Emits(c, element, dir)
    ensures var r, n := FaceStep(c, element, dir, c0, c1, c2, c3, s), |s.view.mesh|;
            |r.view.mesh| == n + 2 && r.view.mesh[..n] == s.view.mesh &&
            r.view.ops == s.view.ops && r.view.start == n &&
            var t1, t2 := r.view.mesh[n], r.view.mesh[n + 1];
            t1.p0 == c0 && t1.p1 == c1 && t1.p2 == c2 && t2.p0 == c0 && t2.p1 == c2 && t2.p2 == c3 &&
            [t1.uv0, t1.uv1, t1.uv2, t2.uv2] == FaceUvs(c.env, c.variant, element.faces[dir], dir) &&
            t2.uv0 == t1.uv0 && t2.uv1 == t1.uv2 &&
            t1.ao0 == CornerAo(c, c0, dir) && t1.ao1 == CornerAo(c, c1, dir) &&
            t1.ao2 == CornerAo(c, c2, dir) && t2.ao2 == CornerAo(c, c3, dir) &&
            t2.ao0 == t1.ao0 && t2.ao1 == t1.ao2
  {
  }

  /** The two triangles of a drawn face share its material, colour and light: block
      light at least the element's emission, sky light that of the face.  Each
      occlusion factor is one of 1, 3/4, 1/2 and 1/4, and all are 1 when the model turns
      ambient occlusion off; an untinted face is white. */
  lemma FaceShading(c: Ctx, element: Element, dir: Direction, c0: Vec3, c1: Vec3, c2: Vec3, c3: Vec3,
                    s: State)
    requires Emits(c, element, dir)
    ensures var r, n := FaceStep(c, element, dir, c0, c1, c2, c3, s), |s.view.mesh|;
            |r.view.mesh| == n + 2 &&
            var t1, t2 := r.view.mesh[n], r.view.mesh[n + 1];
            IsAoValue(t1.ao0) && IsAoValue(t1.ao1) && IsAoValue(t1.ao2) && IsAoValue(t2.ao2) &&
            t1.material == t2.material == c.env.textureId(element.faces[dir].texture) &&
            t1.color == t2.color &&
            (element.faces[dir].tintIndex < 0 ==> t1.color == Rgb(1.0, 1.0, 1.0)) &&
            (!c.model.ambientOcclusion ==> t1.ao0 == t1.ao1 == t1.ao2 == t2.ao2 == 1.0) &&
            var light := CalculateLight(c.block, c.variant, dir);
            t1.blockLight == t2.blockLight == Max(light.blockLight, element.lightEmission) &&
            t1.sunLight == t2.sunLight == light.sky
  {
    AoFactorValues(c.block, c.variant, c0, dir);
    AoFactorValues(c.block, c.variant, c1, dir);
    AoFactorValues(c.block, c.variant, c2, dir);
    AoFactorValues(c.block, c.variant, c3, dir);
  }

  /** A face is skipped exactly when the element has no such face, the face is removed
      as a dark cave face, only tops are rendered and its normal does not point up, or
      its cull-face neighbour hides it; a skipped face changes nothing. */
  lemma FaceSkipped(c: Ctx, element: Element, dir: Direction, c0: Vec3, c1: Vec3, c2: Vec3, c3: Vec3,
                    s: State)
    ensures var light, normal := CalculateLight(c.block, c.variant, dir), FaceRotationVector(element, c.variant, dir);
            !Emits(c, element, dir) <==>
              dir !in element.faces ||
              (c.block.removeIfCave && light.sky == 0 &&
               (c.settings.caveDetectionUsesBlockLight ==> light.blockLight == 0)) ||
              (c.settings.renderTopOnly && normal.y < 0.01) ||
              CulledByNeighbor(c.block, c.variant, element.faces[dir])
    ensures !Emits(c, element, dir) ==> FaceStep(c, element, dir, c0, c1, c2, c3, s) == s
  {
  }

  /** A face step adds at most two triangles and no transformation, leaves the map
      colour alone unless the face is drawn, points up and has a texture colour, and
      keeps the tint loaded at most once when the calculator gives a real colour. */
  lemma FaceStepExtends(c: Ctx, element: Element, dir: Direction, c0: Vec3, c1: Vec3, c2: Vec3, c3: Vec3,
                        s: State, base: nat)
    ensures var r := FaceStep(c, element, dir, c0, c1, c2, c3, s);
            Extends(s, r) && |r.view.mesh| <= |s.view.mesh| + 2 && r.view.ops == s.view.ops &&
            (TintLoadedOnce(c, s, base) && c.env.tint(c.block).a >= 0.0 ==> TintLoadedOnce(c, r, base))
    ensures var r := FaceStep(c, element, dir, c0, c1, c2, c3, s);
            r.blockColor != s.blockColor ==>
              Emits(c, element, dir) && FaceRotationVector(element, c.variant, dir).y > 0.01 &&
              element.faces[dir].texture.Some? &&
              c.env.textureColor(element.faces[dir].texture.value).Some?
  {
  }

  /** One face drawn on its corners from the layout table keeps everything built
      before it, as `FaceStepExtends` states for any corners. */
  lemma FaceAtExtends(c: Ctx, element: Element, dir: Direction, s: State, base: nat)
    ensures var r := FaceAt(c, element, dir, s);
            Extends(s, r) && |r.view.mesh| <= |s.view.mesh| + 2 && r.view.ops == s.view.ops &&
            (TintLoadedOnce(c, s, base) && c.env.tint(c.block).a >= 0.0 ==> TintLoadedOnce(c, r, base))
  {
    var k, f := Corners(element.from, element.to), FaceCorners(dir);
    FaceStepExtends(c, element, dir, k[f[0]], k[f[1]], k[f[2]], k[f[3]], s, base);
  }

  /** An element adds at most twelve triangles, appends exactly one transformation,
      its rotation scaled to block units over the triangles added since the view's
      start, and leaves the view's start where it was. */
  lemma ElementStepExtends(c: Ctx, element: Element, s: State, base: nat)
    ensures var r := ElementStep(c, element, s);
            Extends(s, r) && |r.view.mesh| <= |s.view.mesh| + 12 && r.view.start == s.view.start &&
            r.view.ops == s.view.ops + [ElementTransform(s.view.start, |r.view.mesh|, element.rotation, BlockScale)] &&
            (TintLoadedOnce(c, s, base) && c.env.tint(c.block).a >= 0.0 ==> TintLoadedOnce(c, r, base))
  {
    FaceAtExtends(c, element, Down, s, base);
    var s1 := FaceAt(c, element, Down, s);
    FaceAtExtends(c, element, Up, s1, base);
    var s2 := FaceAt(c, element, Up, s1);
    FaceAtExtends(c, element, North, s2, base);
    var s3 := FaceAt(c, element, North, s2);
    FaceAtExtends(c, element, South, s3, base);
    var s4 := FaceAt(c, element, South, s3);
    FaceAtExtends(c, element, West, s4, base);
    var s5 := FaceAt(c, element, West, s4);
    FaceAtExtends(c, element, East, s5, base);
  }

  /** The element loop keeps everything built before it, adds at most twelve
      triangles and exactly one transformation per element, and loads the tint at most
      once. */
  lemma {:induction false} ElementsExtend(c: Ctx, elements: seq<Element>, s: State, base: nat)
    ensures var r := Elements(c, elements, s);
            Extends(s, r) && |r.view.mesh| <= |s.view.mesh| + 12 * |elements| &&
            |r.view.ops| == |s.view.ops| + |elements| &&
            (TintLoadedOnce(c, s, base) && c.env.tint(c.block).a >= 0.0 ==> TintLoadedOnce(c, r, base))
  {
    if elements != [] {
      var before := Elements(c, elements[..|elements| - 1], s);
      ElementsExtend(c, elements[..|elements| - 1], s, base);
      ElementStepExtends(c, elements[|elements| - 1], before.(view := Initialize(before.view)), base);
    }
  }

  /** A variant whose model does not resolve leaves the caller's view and colour as
      they came: nothing is added or transformed and the tint is not touched. */
  lemma RenderUnresolved(settings: RenderSettings, env: Env, block: Block, variant: Variant,
                         blockModel: View, color: Color, s: State)
    requires variant.model.None?
    ensures var r := RenderSpec(settings, env, block, variant, blockModel, color, s);
            r.view == blockModel && r.blockColor == color && r.blockColorOpacity == 0.0 &&
            r.tintColor == s.tintColor && r.tintCalls == s.tintCalls
  {
  }

  /** A render keeps the caller's triangles and transformations, adds at most twelve
      triangles per element, returns the view to where it started, and never lowers
      the opacity below zero. */
  lemma RenderGrowth(settings: RenderSettings, env: Env, block: Block, variant: Variant,
                     blockModel: View, color: Color, s: State)
    ensures var r := RenderSpec(settings, env, block, variant, blockModel, color, s);
            blockModel.mesh <= r.view.mesh && blockModel.ops <= r.view.ops &&
            r.view.start == blockModel.start && r.blockColorOpacity >= 0.0 &&
            (variant.model.Some? ==>
               var elements := if variant.model.value.elements.Some? then |variant.model.value.elements.value| else 0;
               |r.view.mesh| <= |blockModel.mesh| + 12 * elements)
  {
    if variant.model.Some? {
      var c := Ctx(block, variant, variant.model.value, settings, env);
      var s1 := s.(view := blockModel, blockColor := color, blockColorOpacity := 0.0, tintColor := TintUnset);
      if c.model.elements.Some? {
        ElementsExtend(c, c.model.elements.value, s1, s.tintCalls);
      }
    }
  }

  /** The tint is reset at the start of every render and loaded only while unset, so
      a calculator that gives a real colour is asked at most once per render. */
  lemma RenderTintOnce(settings: RenderSettings, env: Env, block: Block, variant: Variant,
                       blockModel: View, color: Color, s: State)
    requires env.tint(block).a >= 0.0
    ensures RenderSpec(settings, env, block, variant, blockModel, color, s).tintCalls <= s.tintCalls + 1
  {
    if variant.model.Some? {
      var c := Ctx(block, variant, variant.model.value, settings, env);
      var s1 := s.(view := blockModel, blockColor := color, blockColorOpacity := 0.0, tintColor := TintUnset);
      assert TintLoadedOnce(c, s1, s.tintCalls);
      if c.model.elements.Some? {
        ElementsExtend(c, c.model.elements.value, s1, s.tintCalls);
      }
    }
  }
}
