# BlueMap block model renderer, matrices

A Dafny model of three classes of BlueMap's core:

- `ResourceModelRenderer` turns the resolved resource-pack model of a block-state
  variant into triangles of the hires tile model. It works element by element and
  face by face. For every face it decides whether the face is drawn. A drawn face
  gets two triangles with positions, material, UVs, tint colour, light and ambient
  occlusion. Faces that look up are folded into the block's map colour. At the end
  the renderer restores the view, applies the variant transform and the random
  offset, and fixes up the map colour's alpha.
- `MatrixM3f` is a mutable 3x3 float matrix. Every operation overwrites the nine
  fields and returns the receiver.
- `Matrix3x3` is the immutable 3x3 matrix value with its validating constructors
  and factories.

Files and modules:

- `matrix3x3.dfy` (module `Matrix3x3`): the `Mat3` value and its constructors.
  Construction errors are a `Result`.
- `matrix_m3f.dfy` (module `MatrixM3f`):
  - the class `MatrixM3f` with its nine fields;
  - the algebra that specifies it: product, determinant, adjugate, inverse and
    quaternion matrix;
  - the laws of that algebra, proved as lemmas.
- `render_types.dfy` (module `RenderTypes`): the values the renderer reads and
  writes, and `Env`, which holds the collaborators whose code is not modelled.
- `face_rules.dfy` (module `FaceRules`): the pure decisions and arithmetic of the
  renderer. This covers light, cave removal, culling, corners, UVs, ambient
  occlusion, the map colour contribution and the position hash.
- `renderer.dfy` (module `ResourceModelRenderer`):
  - specification functions on a render `State`: `FaceStep`, `ElementStep`,
    `Elements`, `RenderSpec` and `FinishSpec`;
  - the class `Renderer`. It keeps the Java scratch arrays (`corners`, `rawUvs`,
    `uvs`) and the render fields. Each method is proved to produce exactly the
    state its specification function gives.
- `renderer_laws.dfy` (module `RendererLaws`): what the specification functions
  guarantee about one face, one element and a whole render.

The Java `uvs` array holds references into `rawUvs`. Here it is an `array<nat>` of
indices into `rawUvs`, so the in-place UV-lock rotation goes through the same
aliasing. `SelectUvs` proves that no raw UV is selected twice, so each one is
rotated exactly once.

## Model

| member | source | states |
|---|---|---|
| `Matrix3x3.OfArray` | core/src/main/java/de/bluecolored/bluemap/core/util/math/Matrix3x3.java:34-41 | fails with "Array must contain exactly 9 values" exactly when the array does not have nine values; otherwise entry (i / 3, i % 3) is `values[i]` |
| `Matrix3x3.OfRows` | core/src/main/java/de/bluecolored/bluemap/core/util/math/Matrix3x3.java:44-51 | "Array must be 3x3" exactly when there are not three rows or the first row does not have three values; otherwise it succeeds exactly when rows 1 and 2 have at least three values (a shorter one is an index-out-of-bounds); entry (i, j) is `rows[i][j]` |
| `Matrix3x3.Identity` | core/src/main/java/de/bluecolored/bluemap/core/util/math/Matrix3x3.java:54-61 | ones on the diagonal, zeros elsewhere |
| `Matrix3x3.Scale` | core/src/main/java/de/bluecolored/bluemap/core/util/math/Matrix3x3.java:64-70 | diagonal (x, y, z), zeros off the diagonal |
| `Matrix3x3.Translation` | core/src/main/java/de/bluecolored/bluemap/core/util/math/Matrix3x3.java:73-79 | (x, y) in the last column, the identity everywhere else |
| `Matrix3x3.ToArray` | core/src/main/java/de/bluecolored/bluemap/core/util/math/Matrix3x3.java:82-84 | nine values, entry (i / 3, i % 3) at index i |
| `Matrix3x3.EntriesDetermine` | core/src/main/java/de/bluecolored/bluemap/core/util/math/Matrix3x3.java:29-31 | two matrices with equal entries are equal |
| `Matrix3x3.ArrayRoundTrip` | core/src/main/java/de/bluecolored/bluemap/core/util/math/Matrix3x3.java:82-84 | constructing from `toArray()` gives back the same matrix |
| `Matrix3x3.ToArrayOfArray` | core/src/main/java/de/bluecolored/bluemap/core/util/math/Matrix3x3.java:34-41 | a nine-value array is accepted, and `toArray()` returns it unchanged |
| `Matrix3x3.RowsAgreeWithArray` | core/src/main/java/de/bluecolored/bluemap/core/util/math/Matrix3x3.java:44-51 | three rows of three give the same matrix as the flat constructor on their concatenation |
| `MatrixM3f.MatrixM3f.constructor` | core/src/main/java/de/bluecolored/bluemap/core/util/math/MatrixM3f.java:31-33 | a new matrix holds the identity |
| `MatrixM3f.MatrixM3f.Set` | core/src/main/java/de/bluecolored/bluemap/core/util/math/MatrixM3f.java:35-40 | all nine fields take the argument's entries; returns the receiver |
| `MatrixM3f.MatrixM3f.Invert` | core/src/main/java/de/bluecolored/bluemap/core/util/math/MatrixM3f.java:42-51 | the new value is the adjugate over the determinant, and it is a two-sided inverse of the old value |
| `MatrixM3f.MatrixM3f.Identity` | core/src/main/java/de/bluecolored/bluemap/core/util/math/MatrixM3f.java:53-55 | the new value is the identity |
| `MatrixM3f.MatrixM3f.Scale` | core/src/main/java/de/bluecolored/bluemap/core/util/math/MatrixM3f.java:57-59 | the new value is scale(x, y, z) times the old value |
| `MatrixM3f.MatrixM3f.Translate` | core/src/main/java/de/bluecolored/bluemap/core/util/math/MatrixM3f.java:61-63 | the new value is translation(x, y) times the old value |
| `MatrixM3f.MatrixM3f.RotateByQuaternion` | core/src/main/java/de/bluecolored/bluemap/core/util/math/MatrixM3f.java:118-132 | the new value is the quaternion's rotation matrix times the old value |
| `MatrixM3f.MatrixM3f.Multiply` | core/src/main/java/de/bluecolored/bluemap/core/util/math/MatrixM3f.java:134-146 | the new value is the old value times the argument |
| `MatrixM3f.MatrixM3f.MultiplyTo` | core/src/main/java/de/bluecolored/bluemap/core/util/math/MatrixM3f.java:148-160 | the new value is the argument times the old value |
| `MatrixM3f.MatrixM3f.Determinant` | core/src/main/java/de/bluecolored/bluemap/core/util/math/MatrixM3f.java:162-164 | returns the determinant without changing the matrix |
| `MatrixM3f.IdentityEntries` | core/src/main/java/de/bluecolored/bluemap/core/util/math/Matrix3x3.java:54-57 | the identity built from its flat array has the expected nine entries |
| `MatrixM3f.ProductIdentity` | core/src/main/java/de/bluecolored/bluemap/core/util/math/MatrixM3f.java:134-160 | the identity is neutral on both sides of the product |
| `MatrixM3f.ProductAssociative` | core/src/main/java/de/bluecolored/bluemap/core/util/math/MatrixM3f.java:148-160 | the product is associative, so chained `multiplyTo` calls compose |
| `MatrixM3f.ProductNotCommutative` | core/src/main/java/de/bluecolored/bluemap/core/util/math/MatrixM3f.java:134-146 | `multiply` and `multiplyTo` differ on a concrete pair of matrices |
| `MatrixM3f.DetIdentity` | core/src/main/java/de/bluecolored/bluemap/core/util/math/MatrixM3f.java:162-164 | the identity has determinant 1 |
| `MatrixM3f.DetEqualRows` | core/src/main/java/de/bluecolored/bluemap/core/util/math/MatrixM3f.java:162-164 | a matrix with two equal rows has determinant 0 |
| `MatrixM3f.DetExamples` | core/src/main/java/de/bluecolored/bluemap/core/util/math/MatrixM3f.java:162-163 | the determinant on two concrete matrices (0 and 2) |
| `MatrixM3f.DetProduct` | core/src/main/java/de/bluecolored/bluemap/core/util/math/MatrixM3f.java:162-164 | det(a b) = det(a) det(b) |
| `MatrixM3f.AdjugateProduct` | core/src/main/java/de/bluecolored/bluemap/core/util/math/MatrixM3f.java:44-48 | a matrix times the numerators `invert()` writes is det times the identity |
| `MatrixM3f.InverseRight` | core/src/main/java/de/bluecolored/bluemap/core/util/math/MatrixM3f.java:42-50 | with a non-zero determinant, what `invert()` stores is a right inverse |
| `MatrixM3f.RightInverseUnique` | core/src/main/java/de/bluecolored/bluemap/core/util/math/MatrixM3f.java:43-49 | a right inverse of a right inverse is the original matrix |
| `MatrixM3f.RightInverseInvertible` | core/src/main/java/de/bluecolored/bluemap/core/util/math/MatrixM3f.java:43-44 | a right inverse has a non-zero determinant, and the two determinants multiply to 1 |
| `MatrixM3f.InverseInvolutive` | core/src/main/java/de/bluecolored/bluemap/core/util/math/MatrixM3f.java:42-51 | inverting twice gives back the original matrix |
| `MatrixM3f.InverseIsTwoSided` | core/src/main/java/de/bluecolored/bluemap/core/util/math/MatrixM3f.java:43-50 | what `invert()` stores is an inverse on both sides |
| `MatrixM3f.InverseOfIdentity` | core/src/main/java/de/bluecolored/bluemap/core/util/math/MatrixM3f.java:42-49 | inverting the identity gives the identity |
| `MatrixM3f.InverseExample` | core/src/main/java/de/bluecolored/bluemap/core/util/math/MatrixM3f.java:44-48 | the inverse of a concrete matrix with determinant 4 |
| `MatrixM3f.QuaternionIdentity` | core/src/main/java/de/bluecolored/bluemap/core/util/math/MatrixM3f.java:118-131 | the quaternion (0, 0, 0, 1) gives the identity, so rotating by it changes nothing |
| `MatrixM3f.QuaternionEntries` | core/src/main/java/de/bluecolored/bluemap/core/util/math/MatrixM3f.java:119-129 | the nine entries of the rotation matrix built from the quaternion |
| `MatrixM3f.QuaternionOrthogonal` | core/src/main/java/de/bluecolored/bluemap/core/util/math/MatrixM3f.java:118-132 | for a unit quaternion the rotation matrix times its transpose is the identity |
| `RenderTypes.DirVector` | core/src/main/java/de/bluecolored/bluemap/core/map/hires/block/ResourceModelRenderer.java:427-437 | every face direction is a unit offset along one axis |
| `FaceRules.Round` | core/src/main/java/de/bluecolored/bluemap/core/map/hires/block/ResourceModelRenderer.java:444-448 | `Math.round` gives the integer within a half of its argument, with halves rounded up |
| `FaceRules.MakeRotationRelative` | core/src/main/java/de/bluecolored/bluemap/core/map/hires/block/ResourceModelRenderer.java:451-454 | a variant that is not transformed leaves the direction unchanged |
| `FaceRules.RelativeOffset` | core/src/main/java/de/bluecolored/bluemap/core/map/hires/block/ResourceModelRenderer.java:440-449 | the neighbour looked up is the one at the rounded rotated offset; without a transform it is the one at the offset itself |
| `FaceRules.CalculateLight` | core/src/main/java/de/bluecolored/bluemap/core/map/hires/block/ResourceModelRenderer.java:234-243 | sky and block light are each the larger of the block's own and the faced neighbour's |
| `FaceRules.ShouldRemoveInCave` | core/src/main/java/de/bluecolored/bluemap/core/map/hires/block/ResourceModelRenderer.java:248-256 | removed exactly when the block is remove-if-cave, the face has no sky light, and, when cave detection uses block light, no block light either |
| `FaceRules.ShouldCullFace` | core/src/main/java/de/bluecolored/bluemap/core/map/hires/block/ResourceModelRenderer.java:275-286 | culled exactly when tops only are rendered and the normal's y is below 0.01, or the cull-face neighbour culls, or it culls identical blocks and has the same state; never culled without either setting |
| `FaceRules.Corners` | core/src/main/java/de/bluecolored/bluemap/core/map/hires/block/ResourceModelRenderer.java:137-153 | eight corners; bit 0 of the index selects min or max z, bit 1 x and bit 2 y |
| `FaceRules.CornersOrdered` | core/src/main/java/de/bluecolored/bluemap/core/map/hires/block/ResourceModelRenderer.java:137-143 | corner 0 is below corner 7 on every axis, and swapping `from` and `to` gives the same corners |
| `FaceRules.FaceCorners` | core/src/main/java/de/bluecolored/bluemap/core/map/hires/block/ResourceModelRenderer.java:156-161 | each face names four corner indices below 8 |
| `FaceRules.FaceCornersOnSide` | core/src/main/java/de/bluecolored/bluemap/core/map/hires/block/ResourceModelRenderer.java:155-161 | each face's four corners are distinct and all lie on the element's side facing that direction |
| `FaceRules.RawUvs` | core/src/main/java/de/bluecolored/bluemap/core/map/hires/block/ResourceModelRenderer.java:310-314 | the four UV corners (u0, v1), (u1, v1), (u1, v0), (u0, v0), scaled from texels by 1/16 |
| `FaceRules.JavaRem` | core/src/main/java/de/bluecolored/bluemap/core/map/hires/block/ResourceModelRenderer.java:316 | Java's `%`: the remainder is smaller than the divisor and has the dividend's sign |
| `FaceRules.FloorDiv` | core/src/main/java/de/bluecolored/bluemap/core/map/hires/block/ResourceModelRenderer.java:316-317 | `Math.floorDiv`: the quotient rounded down |
| `FaceRules.RotationSteps` | core/src/main/java/de/bluecolored/bluemap/core/map/hires/block/ResourceModelRenderer.java:315-317 | the normalised step count is in 0..3 and equals floorDiv(rotation, 90) mod 4 |
| `FaceRules.RotatedUvs` | core/src/main/java/de/bluecolored/bluemap/core/map/hires/block/ResourceModelRenderer.java:319 | four UV corners |
| `FaceRules.RotatedUvsListed` | core/src/main/java/de/bluecolored/bluemap/core/map/hires/block/ResourceModelRenderer.java:318-320 | UV corner i is raw corner (steps + i) mod 4 |
| `FaceRules.RotatedUvsZero` | core/src/main/java/de/bluecolored/bluemap/core/map/hires/block/ResourceModelRenderer.java:318-319 | zero steps leaves the raw corners as they are |
| `FaceRules.RotatedUvsPermutes` | core/src/main/java/de/bluecolored/bluemap/core/map/hires/block/ResourceModelRenderer.java:317-320 | the selected UVs are a permutation of the raw UVs |
| `FaceRules.RotatedUvsCompose` | core/src/main/java/de/bluecolored/bluemap/core/map/hires/block/ResourceModelRenderer.java:316-320 | two relabellings compose to one by the sum of their steps mod 4 |
| `FaceRules.FaceUvsWithoutLock` | core/src/main/java/de/bluecolored/bluemap/core/map/hires/block/ResourceModelRenderer.java:309-340 | without UV lock the face's UVs are a permutation of its raw UVs, and with a rotation in [0, 90) they are the raw UVs themselves |
| `FaceRules.AoSign` | core/src/main/java/de/bluecolored/bluemap/core/map/hires/block/ResourceModelRenderer.java:459-464 | a corner coordinate's sign is +1 exactly when it is 16, -1 exactly when it is 0, and 0 otherwise |
| `FaceRules.AoFactorValues` | core/src/main/java/de/bluecolored/bluemap/core/map/hires/block/ResourceModelRenderer.java:456-500 | at most three of the four neighbour probes are made for any face, so the cap at three never applies; the factor is 1 minus a quarter per occluding neighbour, one of 1, 3/4, 1/2 and 1/4 |
| `FaceRules.MapContribution` | core/src/main/java/de/bluecolored/bluemap/core/map/hires/block/ResourceModelRenderer.java:398-421 | a face contributes exactly when its normal's y is above 0.01 and its texture resolves to a colour; that colour is multiplied by the tint when a tint is loaded, and its colour channels are scaled by the combined light while alpha is kept |
| `FaceRules.ToLong` | core/src/main/java/de/bluecolored/bluemap/core/map/hires/block/ResourceModelRenderer.java:503 | a Java `int` or `long` as its 64-bit two's-complement bit pattern, congruent to the value |
| `FaceRules.XorBits` | core/src/main/java/de/bluecolored/bluemap/core/map/hires/block/ResourceModelRenderer.java:503 | the xor of n low bits fits in n bits |
| `FaceRules.HashToFloat` | core/src/main/java/de/bluecolored/bluemap/core/map/hires/block/ResourceModelRenderer.java:502-505 | the masked hash scaled into [0, 1) |
| `FaceRules.Jitter` | core/src/main/java/de/bluecolored/bluemap/core/map/hires/block/ResourceModelRenderer.java:123-124 | the random offset of a block lies in [-0.375, 0.375) |
| `ResourceModelRenderer.Initialize` | core/src/main/java/de/bluecolored/bluemap/core/map/hires/block/ResourceModelRenderer.java:106 | `initialize()` keeps the model and starts an empty view at its end |
| `ResourceModelRenderer.FaceTint` | core/src/main/java/de/bluecolored/bluemap/core/map/hires/block/ResourceModelRenderer.java:354-366 | an untinted face is white and leaves the tint alone; a tinted face takes the tint colour, asking the calculator once when the tint is still unset and never when it is loaded |
| `ResourceModelRenderer.FinishSpec` | core/src/main/java/de/bluecolored/bluemap/core/map/hires/block/ResourceModelRenderer.java:110-126 | the triangles stay and the view goes back to the model's start; a visible map colour takes the highest opacity as alpha; the variant transform and then a horizontal offset within ±0.375 are applied to the whole block, exactly when the variant is transformed and the block has a random offset |
| `ResourceModelRenderer.Renderer.constructor` | core/src/main/java/de/bluecolored/bluemap/core/map/hires/block/ResourceModelRenderer.java:78-86 | the render settings and collaborators are kept; eight zero corners and four zero raw UVs are allocated; the view, tint and map colour start empty (a modelling choice, see Left out) |
| `ResourceModelRenderer.Renderer.Render` | core/src/main/java/de/bluecolored/bluemap/core/map/hires/block/ResourceModelRenderer.java:88-128 | the new render state is `RenderSpec` of the old one |
| `ResourceModelRenderer.Renderer.FinishModel` | core/src/main/java/de/bluecolored/bluemap/core/map/hires/block/ResourceModelRenderer.java:110-127 | the new render state is `FinishSpec` of the old one |
| `ResourceModelRenderer.Renderer.BuildElements` | core/src/main/java/de/bluecolored/bluemap/core/map/hires/block/ResourceModelRenderer.java:103-108 | the loop's state is `Elements` of the elements so far |
| `ResourceModelRenderer.Renderer.BuildModelElementResource` | core/src/main/java/de/bluecolored/bluemap/core/map/hires/block/ResourceModelRenderer.java:131-169 | the new render state is `ElementStep` of the old one, whose six faces take their corners from the `FaceCorners` layout in Java's order |
| `ResourceModelRenderer.Renderer.SetCorners` | core/src/main/java/de/bluecolored/bluemap/core/map/hires/block/ResourceModelRenderer.java:137-153 | the corner array holds `Corners(from, to)` |
| `ResourceModelRenderer.Renderer.CreateElementFace` | core/src/main/java/de/bluecolored/bluemap/core/map/hires/block/ResourceModelRenderer.java:196-229 | the new render state is `FaceStep` of the old one |
| `ResourceModelRenderer.Renderer.EmitFace` | core/src/main/java/de/bluecolored/bluemap/core/map/hires/block/ResourceModelRenderer.java:207-228 | the new render state is `FaceEmission` of the old one |
| `ResourceModelRenderer.Renderer.CalculateUvCoordinates` | core/src/main/java/de/bluecolored/bluemap/core/map/hires/block/ResourceModelRenderer.java:309-340 | UV entry i is a raw UV equal to `FaceUvs` at i |
| `ResourceModelRenderer.Renderer.SelectUvs` | core/src/main/java/de/bluecolored/bluemap/core/map/hires/block/ResourceModelRenderer.java:318-320 | entry i selects raw UV (steps + i) mod 4, and no raw UV twice |
| `ResourceModelRenderer.Renderer.RotateSelectedUvs` | core/src/main/java/de/bluecolored/bluemap/core/map/hires/block/ResourceModelRenderer.java:330-336 | every selected raw UV is rotated about (0.5, 0.5) exactly once |
| `ResourceModelRenderer.Renderer.ApplyFaceTint` | core/src/main/java/de/bluecolored/bluemap/core/map/hires/block/ResourceModelRenderer.java:354-366 | colour, tint and call count are those of `FaceTint` |
| `ResourceModelRenderer.Renderer.ApplyAmbientOcclusion` | core/src/main/java/de/bluecolored/bluemap/core/map/hires/block/ResourceModelRenderer.java:383-393 | the four factors are `CornerAo` of the four corners |
| `ResourceModelRenderer.Renderer.UpdateMapColor` | core/src/main/java/de/bluecolored/bluemap/core/map/hires/block/ResourceModelRenderer.java:398-421 | the contribution, when there is one, is added to the block colour and the opacity is raised to its alpha; otherwise nothing changes |
| `ResourceModelRenderer.Renderer.CornerSign` | core/src/main/java/de/bluecolored/bluemap/core/map/hires/block/ResourceModelRenderer.java:459-464 | the sign of one corner coordinate is `AoSign` |
| `ResourceModelRenderer.Renderer.Probe` | core/src/main/java/de/bluecolored/bluemap/core/map/hires/block/ResourceModelRenderer.java:482-484 | one neighbour test counts `ProbeCount` |
| `ResourceModelRenderer.Renderer.TestAo` | core/src/main/java/de/bluecolored/bluemap/core/map/hires/block/ResourceModelRenderer.java:456-500 | returns `AoFactor` of the corner |
| `RendererLaws.FaceTriangles` | core/src/main/java/de/bluecolored/bluemap/core/map/hires/block/ResourceModelRenderer.java:207-225 | a drawn face appends exactly two triangles (c0, c1, c2) and (c0, c2, c3) at the view's new start; their UVs are the face's four UVs split along the same diagonal, and so are their occlusion factors |
| `RendererLaws.FaceShading` | core/src/main/java/de/bluecolored/bluemap/core/map/hires/block/ResourceModelRenderer.java:214-225 | both triangles of a drawn face share material, colour, block light (at least the emission) and sky light; an untinted face is white; each occlusion factor is 1, 3/4, 1/2 or 1/4, and all are 1 without ambient occlusion |
| `RendererLaws.FaceSkipped` | core/src/main/java/de/bluecolored/bluemap/core/map/hires/block/ResourceModelRenderer.java:197-205 | a face is skipped exactly when the element lacks it, it is a dark cave face, it is not a top face under tops-only, or its neighbour culls it; a skipped face changes nothing |
| `RendererLaws.FaceStepExtends` | core/src/main/java/de/bluecolored/bluemap/core/map/hires/block/ResourceModelRenderer.java:196-228 | a face keeps the existing triangles, adds at most two and no transformation, never lowers the opacity, loads the tint at most once, and changes the map colour only when drawn, facing up and textured |
| `RendererLaws.FaceAtExtends` | core/src/main/java/de/bluecolored/bluemap/core/map/hires/block/ResourceModelRenderer.java:156-161 | a face drawn on the corners the layout assigns to its direction keeps the existing triangles, adds at most two and no transformation, and loads the tint at most once |
| `RendererLaws.ElementStepExtends` | core/src/main/java/de/bluecolored/bluemap/core/map/hires/block/ResourceModelRenderer.java:155-168 | an element keeps the existing triangles, adds at most twelve, appends exactly its scaled rotation over its own triangles, and restores the view's start |
| `RendererLaws.ElementsExtend` | core/src/main/java/de/bluecolored/bluemap/core/map/hires/block/ResourceModelRenderer.java:104-107 | the element loop keeps what was built, adds at most twelve triangles and exactly one transformation per element, and loads the tint at most once |
| `RendererLaws.RenderUnresolved` | core/src/main/java/de/bluecolored/bluemap/core/map/hires/block/ResourceModelRenderer.java:88-96 | a model that does not resolve leaves the view and the colour as passed in, with opacity 0 and the tint untouched |
| `RendererLaws.RenderGrowth` | core/src/main/java/de/bluecolored/bluemap/core/map/hires/block/ResourceModelRenderer.java:100-117 | a render keeps the caller's triangles and transformations, ends at the start it was given, never has a negative opacity, and adds at most twelve triangles per element |
| `RendererLaws.RenderTintOnce` | core/src/main/java/de/bluecolored/bluemap/core/map/hires/block/ResourceModelRenderer.java:98 | the tint is reset once per render and loaded only while unset, so the calculator is asked at most once per render |

## Left out

- Floats are modelled as reals. Rounding, infinities and NaN are not modelled.
  Integer arithmetic is exact except in the position hash, where Java's 64-bit
  wrap-around is written out.
- `MatrixM3f.MatrixM3f.Invert`: requires a non-zero determinant. Java divides by
  zero and stores infinities or NaN, which reals cannot express.
- The two trigonometric `rotate` overloads of `MatrixM3f.java` (lines 65-116) are
  not modelled. They depend on `TrigMath` sine and cosine, which are not part of
  this model.
- `TileModel`, `TileModelView`, `MatrixM4f`, `VectorM3f`, `VectorM2f`, `Color`,
  `Direction`, the resource pack, the texture gallery and the block colour
  calculator are not part of this model. The renderer reaches them through the
  functions in `Env`, so nothing is assumed about texture ids, texture colours,
  tint colours, colour multiply, add, flatten and straight, sine, cosine and 2-D
  rotation.
- The view's `transform` and `translate` calls are recorded as `RegionOp` entries
  over the triangle range they apply to, rather than applied to the positions. Of
  each transform, only the 3x3 linear part is kept.
- The Java renderer updates the caller's `TileModelView` and `Color` objects in
  place. The model holds them as values in the renderer's fields and returns them
  as the new state. Aliasing between the caller's objects and other objects is not
  modelled.
- `tintCalls` counts calls to the tint calculator. It exists only to state that
  the tint is loaded at most once per render.
- The Java methods `render`, `createElementFace` and `calculateUvCoordinates` are
  split into the helper methods listed above. The
  split follows the Java statements in order.
- `FaceRules.RotatedUvs`: its own contract states only the length. The
  relabelling is stated by `RotatedUvsListed`, `RotatedUvsPermutes` and
  `RotatedUvsCompose`.
- `ResourceModelRenderer.Renderer.constructor`: the Java constructor takes no block or variant, leaves
  the `uvs` entries null and starts with a default `Color` as tint. The model's
  constructor takes an initial block and variant, points `uvs` at the raw UVs
  0..3, and starts the tint as unset (alpha -1). None of this is observable:
  `render` sets the block, variant and tint, and rewrites `uvs`, before they are
  read.
- The map-colour tint test at `ResourceModelRenderer.java:405` checks whether any
  tint has been loaded during this render, not whether this face is tinted. So an
  untinted top face that comes after a tinted face gets the tint in the map
  colour. This is modelled as written.
- Concurrency is not modelled. The renderer is a single-threaded object.
