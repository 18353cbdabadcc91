/** The values the block renderer reads and writes: directions, vectors, colours,
    the block with its neighbourhood, the resolved resource-pack model, the render
    settings, the triangles of the tile model, and the collaborators the renderer
    calls but whose code is not part of this model. */
module RenderTypes {
  import opened Matrix3x3

  /** The six block faces, in the order the renderer visits them. */
  datatype Direction = Down | Up | North | South | West | East

  /** An integer block offset (`Vector3i`). */
  datatype Offset = Offset(x: int, y: int, z: int)

  /** The unit vector of a direction: y is up, north is -z, west is -x. */
  function DirVector(d: Direction): (v: Offset)
    ensures v.x * v.x + v.y * v.y + v.z * v.z == 1
  {
    match d
    case Down => Offset(0, -1, 0)
    case Up => Offset(0, 1, 0)
    case North => Offset(0, 0, -1)
    case South => Offset(0, 0, 1)
    case West => Offset(-1, 0, 0)
    case East => Offset(1, 0, 0)
  }

  datatype Vec3 = Vec3(x: real, y: real, z: real)
  datatype Vec2 = Vec2(x: real, y: real)

  /** A face's UV rectangle in texels: (u0, v0, u1, v1) stored as (x, y, z, w). */
  datatype Vec4 = Vec4(x: real, y: real, z: real, w: real)

  datatype Color = Color(r: real, g: real, b: real, a: real, premultiplied: bool)

  /** The colour written to a triangle. */
  datatype Rgb = Rgb(r: real, g: real, b: real)

  datatype LightData = LightData(sky: nat, blockLight: nat)

  /** What the renderer asks of a neighbouring block. */
  datatype Neighbor = Neighbor(light: LightData, culling: bool, cullingIdentical: bool,
                               occluding: bool, state: int)

  /** The block being rendered (`BlockNeighborhood`): its position, light, state and
      properties, and its neighbours by offset. */
  datatype Block = Block(x: int, z: int, light: LightData, state: int,
                         removeIfCave: bool, randomOffset: bool,
                         neighbor: Offset -> Neighbor)

  /** One face of an element.  `texture` is the texture path the face's texture
      variable resolves to, if any. */
  datatype Face = Face(uv: Vec4, rotation: int, tintIndex: int,
                       cullface: Option<Direction>, texture: Option<nat>)

  datatype Option<T> = None | Some(value: T)

  /** A cuboid of a model.  `rotation` is the linear part of the element's rotation
      matrix. */
  datatype Element = Element(from: Vec3, to: Vec3, faces: map<Direction, Face>,
                             rotation: Mat3, lightEmission: int)

  /** A resolved model; `elements` is absent when the model declares none. */
  datatype Model = Model(elements: Option<seq<Element>>, ambientOcclusion: bool)

  /** A block-state variant: the model it resolves to (absent when it does not),
      its flags, the linear part of its transform, and its x and y rotation in
      degrees. */
  datatype Variant = Variant(model: Option<Model>, uvlock: bool, transformed: bool,
                             transform: Mat3, x: real, y: real)

  datatype RenderSettings = RenderSettings(renderTopOnly: bool, caveDetectionUsesBlockLight: bool,
                                           ambientLight: real)

  /** The collaborators: texture ids from the gallery, a texture's premultiplied
      colour from the resource pack, the tint calculator, the colour operations,
      sine and cosine of degrees, and `VectorM2f.rotate(cos, sin)`. */
  datatype Env = Env(textureId: Option<nat> -> int,
                     textureColor: nat -> Option<Color>,
                     tint: Block -> Color,
                     multiply: (Color, Color) -> Color,
                     add: (Color, Color) -> Color,
                     flatten: Color -> Color,
                     straight: Color -> Color,
                     sinDeg: real -> real,
                     cosDeg: real -> real,
                     rotate: (Vec2, real, real) -> Vec2)

  /** One triangle of the tile model with everything the renderer sets on it. */
  datatype Triangle = Triangle(p0: Vec3, p1: Vec3, p2: Vec3, material: int,
                               uv0: Vec2, uv1: Vec2, uv2: Vec2, color: Rgb,
                               blockLight: int, sunLight: int,
                               ao0: real, ao1: real, ao2: real)

  /** A transformation applied to the triangles [start, end) of the tile model. */
  datatype RegionOp =
    | ElementTransform(start: nat, end: nat, rotation: Mat3, scale: real)
    | VariantTransform(start: nat, end: nat, transform: Mat3)
    | Translate(start: nat, end: nat, dx: real, dy: real, dz: real)
}
