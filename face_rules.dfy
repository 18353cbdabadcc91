/** The pure decisions and arithmetic of ResourceModelRenderer.java: rotation-relative
    neighbour lookup, face light, cave removal, face culling, the element's corners,
    UV coordinates and their rotation, ambient occlusion, the map-colour
    contribution of a face, and the position hash behind the random offset. */
module FaceRules {
  import opened Matrix3x3
  import opened RenderTypes

  /** `BLOCK_SCALE`: model units are sixteenths of a block. */
  const BlockScale: real := 1.0 / 16.0

  function Max(a: int, b: int): (m: int)
    ensures m >= a && m >= b && (m == a || m == b)
  {
    if a >= b then a else b
  }

  function MaxReal(a: real, b: real): (m: real)
    ensures m >= a && m >= b && (m == a || m == b)
  {
    if a >= b then a else b
  }

  function MinReal(a: real, b: real): (m: real)
    ensures m <= a && m <= b && (m == a || m == b)
  {
    if a <= b then a else b
  }

  /** `Math.round`: the integer nearest to r, halves rounded up. */
  function Round(r: real): (n: int)
    ensures n as real - 0.5 <= r < n as real + 0.5
  {
    (r + 0.5).Floor
  }

  function ToVec(o: Offset): Vec3
  {
    Vec3(o.x as real, o.y as real, o.z as real)
  }

  /** `VectorM3f.rotateAndScale`: the linear part of a transform applied to a vector. */
  function RotateAndScale(m: Mat3, v: Vec3): Vec3
  {
    Vec3(m.m00 * v.x + m.m01 * v.y + m.m02 * v.z,
         m.m10 * v.x + m.m11 * v.y + m.m12 * v.z,
         m.m20 * v.x + m.m21 * v.y + m.m22 * v.z)
  }

  /** `makeRotationRelative`: the variant's transform is applied only when the
      variant is transformed. */
  function MakeRotationRelative(variant: Variant, v: Vec3): (r: Vec3)
    ensures !variant.transformed ==> r == v
  {
    if variant.transformed then RotateAndScale(variant.transform, v) else v
  }

  /** The neighbour offset actually looked up for a direction given in model space:
      rotated by the variant and rounded to integers. */
  function RelativeOffset(variant: Variant, o: Offset): (r: Offset)
    ensures !variant.transformed ==> r == o
  {
    var v := MakeRotationRelative(variant, ToVec(o));
    Offset(Round(v.x), Round(v.y), Round(v.z))
  }

  /** `getRotationRelativeBlock(dx, dy, dz)`. */
  function RelativeBlock(block: Block, variant: Variant, o: Offset): Neighbor
  {
    block.neighbor(RelativeOffset(variant, o))
  }

  /** The sky and block light of a face. */
  datatype FaceLight = FaceLight(sky: nat, blockLight: nat)

  /** `calculateLight`: each level is the brighter of the block's own and that of the
      neighbour the face looks at. */
  function CalculateLight(block: Block, variant: Variant, dir: Direction): (l: FaceLight)
    ensures var own, faced := block.light, RelativeBlock(block, variant, DirVector(dir)).light;
            l.sky >= own.sky && l.sky >= faced.sky && (l.sky == own.sky || l.sky == faced.sky) &&
            l.blockLight >= own.blockLight && l.blockLight >= faced.blockLight &&
            (l.blockLight == own.blockLight || l.blockLight == faced.blockLight)
  {
    var faced := RelativeBlock(block, variant, DirVector(dir)).light;
    FaceLight(Max(block.light.sky, faced.sky), Max(block.light.blockLight, faced.blockLight))
  }

  /** `shouldRemoveInCave`: only for blocks marked remove-if-cave, and only when the
      face is dark: no sky light, and also no block light when cave detection uses
      block light. */
  function ShouldRemoveInCave(block: Block, settings: RenderSettings, l: FaceLight): (r: bool)
    ensures r <==> block.removeIfCave && l.sky == 0 &&
                   (settings.caveDetectionUsesBlockLight ==> l.blockLight == 0)
  {
    if !block.removeIfCave then false
    else
      var lightLevel := if settings.caveDetectionUsesBlockLight then Max(l.blockLight, l.sky) else l.sky;
      lightLevel == 0
  }

  /** `calculateFaceRotationVector`: the face normal rotated by the element and then
      made rotation-relative. */
  function FaceRotationVector(element: Element, variant: Variant, dir: Direction): Vec3
  {
    MakeRotationRelative(variant, RotateAndScale(element.rotation, ToVec(DirVector(dir))))
  }

  /** The face is hidden by its cull-face neighbour: that neighbour culls, or it culls
      identical blocks and has the same block state. */
  predicate CulledByNeighbor(block: Block, variant: Variant, face: Face)
  {
    face.cullface.Some? &&
    var b := RelativeBlock(block, variant, DirVector(face.cullface.value));
    b.culling || (b.cullingIdentical && b.state == block.state)
  }

  /** `shouldCullFace`: culled when only tops are rendered and the normal does not
      point up, or when the cull-face neighbour hides it. */
  function ShouldCullFace(settings: RenderSettings, block: Block, variant: Variant, face: Face, normal: Vec3): (r: bool)
    ensures r <==> (settings.renderTopOnly && normal.y < 0.01) || CulledByNeighbor(block, variant, face)
    ensures !settings.renderTopOnly && face.cullface.None? ==> !r
  {
    if settings.renderTopOnly && normal.y < 0.01 then true
    else if face.cullface.Some? then
      var b := RelativeBlock(block, variant, DirVector(face.cullface.value));
      if b.culling then true
      else b.cullingIdentical && b.state == block.state
    else false
  }

  // ---------------------------------------------------------------------------
  // Corners

  /** The eight corners of an element, from the per-axis minimum and maximum of its
      two defining points.  Bit 0 of the index selects z, bit 1 x and bit 2 y. */
  function Corners(from: Vec3, to: Vec3): (c: seq<Vec3>)
    ensures |c| == 8
    ensures forall i :: 0 <= i < 8 ==>
              c[i] == Vec3(if i / 2 % 2 == 1 then MaxReal(from.x, to.x) else MinReal(from.x, to.x),
                           if i / 4 == 1 then MaxReal(from.y, to.y) else MinReal(from.y, to.y),
                           if i % 2 == 1 then MaxReal(from.z, to.z) else MinReal(from.z, to.z))
  {
    var minX, minY, minZ := MinReal(from.x, to.x), MinReal(from.y, to.y), MinReal(from.z, to.z);
    var maxX, maxY, maxZ := MaxReal(from.x, to.x), MaxReal(from.y, to.y), MaxReal(from.z, to.z);
    [Vec3(minX, minY, minZ), Vec3(minX, minY, maxZ), Vec3(maxX, minY, minZ), Vec3(maxX, minY, maxZ),
     Vec3(minX, maxY, minZ), Vec3(minX, maxY, maxZ), Vec3(maxX, maxY, minZ), Vec3(maxX, maxY, maxZ)]
  }

  /** Corner 0 is the low corner and corner 7 the high one, and swapping the two
      defining points gives the same corners. */
  lemma CornersOrdered(from: Vec3, to: Vec3)
    ensures var c := Corners(from, to);
            c[0].x <= c[7].x && c[0].y <= c[7].y && c[0].z <= c[7].z
    ensures Corners(from, to) == Corners(to, from)
  {
  }

  /** The corner indices of each face, in the order passed to `createElementFace`. */
  function FaceCorners(dir: Direction): (k: seq<nat>)
    ensures |k| == 4 && forall i :: 0 <= i < 4 ==> k[i] < 8
  {
    match dir
    case Down => [0, 2, 3, 1]
    case Up => [5, 7, 6, 4]
    case North => [2, 0, 4, 6]
    case South => [1, 3, 7, 5]
    case West => [0, 1, 5, 4]
    case East => [3, 2, 6, 7]
  }

  /** The coordinate of a point along the axis a direction points along. */
  function SideCoord(dir: Direction, v: Vec3): real
  {
    match dir
    case Down | Up => v.y
    case North | South => v.z
    case West | East => v.x
  }

  /** Where the side of an element facing `dir` lies on that axis. */
  function SideValue(from: Vec3, to: Vec3, dir: Direction): real
  {
    match dir
    case Down => MinReal(from.y, to.y)
    case Up => MaxReal(from.y, to.y)
    case North => MinReal(from.z, to.z)
    case South => MaxReal(from.z, to.z)
    case West => MinReal(from.x, to.x)
    case East => MaxReal(from.x, to.x)
  }

  /** The four corners of a face are four different corners of the element, all on
      the element's side facing the face's direction. */
  lemma {:induction false} FaceCornersOnSide(from: Vec3, to: Vec3, dir: Direction)
    ensures forall i :: 0 <= i < 4 ==>
              SideCoord(dir, Corners(from, to)[FaceCorners(dir)[i]]) == SideValue(from, to, dir)
    ensures forall i, j :: 0 <= i < j < 4 ==> FaceCorners(dir)[i] != FaceCorners(dir)[j]
  {
    var c, k := Corners(from, to), FaceCorners(dir);
    forall i | 0 <= i < 4
      ensures SideCoord(dir, c[k[i]]) == SideValue(from, to, dir)
    {
      assert c[k[i]] == Corners(from, to)[k[i]];
    }
  }

  // ---------------------------------------------------------------------------
  // UV coordinates

  /** The four UV corners of a face, (u0, v1), (u1, v1), (u1, v0), (u0, v0), scaled
      from texels to the unit square. */
  function RawUvs(uv: Vec4): (r: seq<Vec2>)
    ensures |r| == 4
    ensures r[0].x == r[3].x && r[1].x == r[2].x && r[0].y == r[1].y && r[2].y == r[3].y
    ensures r[0].x * 16.0 == uv.x && r[1].x * 16.0 == uv.z && r[2].y * 16.0 == uv.y && r[0].y * 16.0 == uv.w
  {
    [Vec2(uv.x / 16.0, uv.w / 16.0), Vec2(uv.z / 16.0, uv.w / 16.0),
     Vec2(uv.z / 16.0, uv.y / 16.0), Vec2(uv.x / 16.0, uv.y / 16.0)]
  }

  /** Java's `%` for a positive divisor: the remainder takes the sign of the dividend. */
  function JavaRem(a: int, b: int): (r: int)
    requires b > 0
    ensures -b < r < b
    ensures a >= 0 ==> r >= 0
    ensures a <= 0 ==> r <= 0
  {
    if a >= 0 then a % b else -((-a) % b)
  }

  /** `Math.floorDiv` for a positive divisor: the quotient rounded down. */
  function FloorDiv(a: int, b: int): (q: int)
    requires b > 0
    ensures q * b <= a < q * b + b
  {
    a / b
  }

  /** The number of quarter turns of a face's UV rotation, normalised into 0..3: the
      rotation in degrees divided by 90 rounding down, taken modulo 4. */
  function RotationSteps(rotation: int): (s: nat)
    ensures s < 4
    ensures s == FloorDiv(rotation, 90) % 4
  {
    var steps := JavaRem(FloorDiv(rotation, 90), 4);
    if steps < 0 then steps + 4 else steps
  }

  /** The UV corners relabelled by `steps` quarter turns: corner i takes raw corner
      (steps + i) mod 4. */
  function RotatedUvs(raw: seq<Vec2>, steps: nat): (r: seq<Vec2>)
    requires |raw| == 4 && steps < 4
    ensures |r| == 4
  {
    seq(4, i requires 0 <= i < 4 => raw[(steps + i) % 4])
  }

  /** The relabelling written out corner by corner. */
  lemma RotatedUvsListed(raw: seq<Vec2>, s: nat)
    requires |raw| == 4 && s < 4
    ensures RotatedUvs(raw, s) == [raw[s], raw[(s + 1) % 4], raw[(s + 2) % 4], raw[(s + 3) % 4]]
  {
  }

  /** Zero steps leaves the corners as they are. */
  lemma RotatedUvsZero(raw: seq<Vec2>)
    requires |raw| == 4
    ensures RotatedUvs(raw, 0) == raw
  {
    RotatedUvsListed(raw, 0);
    assert raw == [raw[0], raw[1], raw[2], raw[3]];
  }

  /** A relabelling is a permutation of the four corners. */
  lemma RotatedUvsPermutes(raw: seq<Vec2>, s: nat)
    requires |raw| == 4 && s < 4
    ensures multiset(RotatedUvs(raw, s)) == multiset(raw)
  {
    var r := RotatedUvs(raw, s);
    assert r == raw[s..] + raw[..s];
    assert raw == raw[..s] + raw[s..];
    calc {
      multiset(r);
      multiset(raw[s..]) + multiset(raw[..s]);
      multiset(raw[..s]) + multiset(raw[s..]);
      multiset(raw);
    }
  }

  /** Reduction modulo 4 of a small number as subtraction. */
  lemma ModFour(x: nat)
    requires x < 8
    ensures x % 4 == if x >= 4 then x - 4 else x
  {
  }

  /** The corners selected by `steps` quarter turns are four different corners. */
  lemma RotationDistinct(steps: nat, selected: seq<nat>)
    requires steps < 4 && |selected| == 4
    requires forall i :: 0 <= i < 4 ==> selected[i] == (steps + i) % 4
    ensures forall i, j :: 0 <= i < j < 4 ==> selected[i] != selected[j]
  {
    ModFour(steps + 1);
    ModFour(steps + 2);
    ModFour(steps + 3);
  }

  /** Two relabellings compose to one by the sum of their steps, modulo 4. */
  lemma RotatedUvsCompose(raw: seq<Vec2>, s: nat, t: nat)
    requires |raw| == 4 && s < 4 && t < 4
    ensures RotatedUvs(RotatedUvs(raw, s), t) == RotatedUvs(raw, (s + t) % 4)
  {
    var r := RotatedUvs(raw, s);
    var rr, direct := RotatedUvs(r, t), RotatedUvs(raw, (s + t) % 4);
    ModFour(s + t);
    forall i | 0 <= i < 4
      ensures rr[i] == direct[i]
    {
      var a := (t + i) % 4;
      ModFour(t + i);
      ModFour(s + a);
      ModFour((s + t) % 4 + i);
      assert rr[i] == r[a] == raw[(s + a) % 4];
    }
  }

  /** The UV-lock rotation angle in degrees for a face of a transformed variant. */
  function UvLockAngle(env: Env, variant: Variant, dir: Direction): real
  {
    var d := DirVector(dir);
    variant.y * (d.y as real * env.cosDeg(variant.x) + d.z as real * env.sinDeg(variant.x)) +
    variant.x * (1.0 - d.y as real)
  }

  /** One UV point rotated by `angle` degrees about the centre (0.5, 0.5). */
  function LockUv(env: Env, angle: real, uv: Vec2): Vec2
  {
    var r := env.rotate(Vec2(uv.x - 0.5, uv.y - 0.5), env.cosDeg(angle), env.sinDeg(angle));
    Vec2(r.x + 0.5, r.y + 0.5)
  }

  /** UV lock applies only to a uv-locked, transformed variant with a non-zero angle. */
  predicate UvLockApplies(env: Env, variant: Variant, dir: Direction)
  {
    variant.uvlock && variant.transformed && UvLockAngle(env, variant, dir) != 0.0
  }

  /** `calculateUvCoordinates`: the relabelled raw UVs, each rotated about the centre
      when UV lock applies. */
  function FaceUvs(env: Env, variant: Variant, face: Face, dir: Direction): (r: seq<Vec2>)
    ensures |r| == 4
  {
    var rotated := RotatedUvs(RawUvs(face.uv), RotationSteps(face.rotation));
    if UvLockApplies(env, variant, dir) then
      seq(4, i requires 0 <= i < 4 => LockUv(env, UvLockAngle(env, variant, dir), rotated[i]))
    else rotated
  }

  /** Without UV lock the face's UVs are a relabelling of its raw UVs, and with zero
      rotation they are the raw UVs themselves. */
  lemma FaceUvsWithoutLock(env: Env, variant: Variant, face: Face, dir: Direction)
    requires !UvLockApplies(env, variant, dir)
    ensures multiset(FaceUvs(env, variant, face, dir)) == multiset(RawUvs(face.uv))
    ensures 0 <= face.rotation < 90 ==> FaceUvs(env, variant, face, dir) == RawUvs(face.uv)
  {
    var raw := RawUvs(face.uv);
    RotatedUvsPermutes(raw, RotationSteps(face.rotation));
    if 0 <= face.rotation < 90 {
      RotatedUvsZero(raw);
    }
  }

  // ---------------------------------------------------------------------------
  // Ambient occlusion

  /** A corner coordinate on the block's far side (16) counts +1, on its near side (0)
      -1, and anywhere inside 0. */
  function AoSign(c: real): (sign: int)
    ensures -1 <= sign <= 1
    ensures (sign == 1 <==> c == 16.0) && (sign == -1 <==> c == 0.0)
  {
    if c == 16.0 then 1 else if c == 0.0 then -1 else 0
  }

  /** The offset (x, y, z) leans towards direction d. */
  predicate Faces(x: int, y: int, z: int, d: Offset)
  {
    x * d.x + y * d.y + z * d.z > 0
  }

  /** One probe of `testAo`: 1 when the neighbour at offset o is probed, because o
      leans towards the face direction d, and it occludes. */
  function ProbeCount(block: Block, variant: Variant, o: Offset, d: Offset): nat
  {
    if Faces(o.x, o.y, o.z, d) && RelativeBlock(block, variant, o).occluding then 1 else 0
  }

  /** The occluding neighbours of a corner: of the two edge neighbours and the
      diagonal one next to the corner, those towards the face direction that occlude.
      Each axis takes the corner's side sign. */
  function CornerOcclusion(block: Block, variant: Variant, v: Vec3, dir: Direction): nat
  {
    var x, y, z, d := AoSign(v.x), AoSign(v.y), AoSign(v.z), DirVector(dir);
    ProbeCount(block, variant, Offset(x, y, 0), d) + ProbeCount(block, variant, Offset(x, 0, z), d) +
    ProbeCount(block, variant, Offset(0, y, z), d) + ProbeCount(block, variant, Offset(x, y, z), d)
  }

  /** The number of probes `testAo` makes for a corner, occluding or not. */
  function ActiveProbes(v: Vec3, dir: Direction): nat
  {
    var x, y, z, d := AoSign(v.x), AoSign(v.y), AoSign(v.z), DirVector(dir);
    (if Faces(x, y, 0, d) then 1 else 0) + (if Faces(x, 0, z, d) then 1 else 0) +
    (if Faces(0, y, z, d) then 1 else 0) + (if Faces(x, y, z, d) then 1 else 0)
  }

  /** `testAo`: the light factor of a corner, a quarter darker for each occluding
      neighbour up to three, clamped to [0, 1]. */
  function AoFactor(block: Block, variant: Variant, v: Vec3, dir: Direction): real
  {
    var n := CornerOcclusion(block, variant, v, dir);
    var occluding := if n > 3 then 3 else n;
    MaxReal(0.0, MinReal(1.0 - occluding as real * 0.25, 1.0))
  }

  /** For a face direction along one axis at most three of the four probes are made,
      since the probe along the face's own plane never leans towards it; so the cap at
      three never takes effect, and the factor is one of 1, 3/4, 1/2 and 1/4, a
      quarter less per occluding neighbour. */
  lemma AoFactorValues(block: Block, variant: Variant, v: Vec3, dir: Direction)
    ensures CornerOcclusion(block, variant, v, dir) <= ActiveProbes(v, dir) <= 3
    ensures var f := AoFactor(block, variant, v, dir);
            f == 1.0 - CornerOcclusion(block, variant, v, dir) as real * 0.25 &&
            (f == 1.0 || f == 0.75 || f == 0.5 || f == 0.25)
  {
    var x, y, z, d := AoSign(v.x), AoSign(v.y), AoSign(v.z), DirVector(dir);
    match dir
    case Down | Up => assert !Faces(x, 0, z, d);
    case North | South => assert !Faces(x, y, 0, d);
    case West | East => assert !Faces(0, y, z, d);
  }

  // ---------------------------------------------------------------------------
  // Map colour

  /** The light a top face contributes with: the brighter of sky and block light as a
      fraction of 15, lifted by the ambient light. */
  function CombinedLight(settings: RenderSettings, l: FaceLight): real
  {
    var combined := MaxReal(l.sky as real / 15.0, l.blockLight as real / 15.0);
    (1.0 - settings.ambientLight) * combined + settings.ambientLight
  }

  /** `updateMapColor`'s colour for a face: the texture's premultiplied colour, times
      the tint when a tint has been loaded, with its colour channels scaled by the
      combined light.  Absent for faces that do not point up or whose texture does not
      resolve. */
  function MapContribution(env: Env, settings: RenderSettings, tintColor: Color,
                           texture: Option<nat>, normal: Vec3, l: FaceLight): (r: Option<Color>)
    ensures r.Some? <==> normal.y > 0.01 && texture.Some? && env.textureColor(texture.value).Some?
    ensures r.Some? ==>
              var base := if tintColor.a >= 0.0 then env.multiply(env.textureColor(texture.value).value, tintColor)
                          else env.textureColor(texture.value).value;
              r.value.a == base.a && r.value.premultiplied == base.premultiplied &&
              r.value.r == base.r * CombinedLight(settings, l) &&
              r.value.g == base.g * CombinedLight(settings, l) &&
              r.value.b == base.b * CombinedLight(settings, l)
  {
    if normal.y <= 0.01 || texture.None? then None
    else match env.textureColor(texture.value)
      case None => None
      case Some(textureColor) =>
        var mapColor := if tintColor.a >= 0.0 then env.multiply(textureColor, tintColor) else textureColor;
        var light := CombinedLight(settings, l);
        Some(mapColor.(r := mapColor.r * light, g := mapColor.g * light, b := mapColor.b * light))
  }

  // ---------------------------------------------------------------------------
  // Random offset

  const TwoTo64: nat := 0x1_0000_0000_0000_0000

  /** A Java `int` or `long` value as the unsigned reading of its 64-bit two's
      complement. */
  function ToLong(v: int): (r: nat)
    ensures r < TwoTo64 && (r - v) % TwoTo64 == 0
  {
    v % TwoTo64
  }

  /** `long` multiplication and addition, wrapping around on overflow. */
  function MulLong(a: nat, b: nat): (r: nat)
    ensures r < TwoTo64
  {
    (a * b) % TwoTo64
  }

  function AddLong(a: nat, b: nat): (r: nat)
    ensures r < TwoTo64
  {
    (a + b) % TwoTo64
  }

  function Pow2(n: nat): (p: nat)
    ensures p >= 1
  {
    if n == 0 then 1 else 2 * Pow2(n - 1)
  }

  /** Bitwise exclusive or of the low n bits of a and b. */
  function XorBits(a: nat, b: nat, n: nat): (r: nat)
    ensures r < Pow2(n)
  {
    if n == 0 then 0
    else 2 * XorBits(a / 2, b / 2, n - 1) + (if a % 2 != b % 2 then 1 else 0)
  }

  /** The 64-bit hash of `hashToFloat`: the three products xor-ed, times itself plus
      456149, all with Java's wrap-around. */
  function Hash(x: int, z: int, seed: int): nat
  {
    var hash := XorBits(XorBits(MulLong(ToLong(x), 73428767), MulLong(ToLong(z), 4382893), 64),
                        MulLong(ToLong(seed), 457), 64);
    MulLong(hash, AddLong(hash, 456149))
  }

  /** `hashToFloat`: the low 24 bits of the hash of (x, z, seed) scaled into [0, 1). */
  function HashToFloat(x: int, z: int, seed: int): (r: real)
    ensures 0.0 <= r < 1.0
  {
    (Hash(x, z, seed) % 0x100_0000) as real / 16777216.0
  }

  /** The horizontal offset of a block with a random offset: a hash of its position
      with a fixed seed, mapped into [-3/8, 3/8). */
  function Jitter(x: int, z: int, seed: int): (d: real)
    ensures -0.375 <= d < 0.375
  {
    (HashToFloat(x, z, seed) - 0.5) * 0.75
  }
}
