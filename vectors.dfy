/** The small value types that cross the Qt/Rust boundary: points, sizes,
    vectors and colours. Coordinates are exact reals; the f32/f64 casts
    between the two sides are not modelled. */
module Vectors {

  /** QPointF / a cursor position in item pixels. */
  datatype Point = Point(x: real, y: real)

  /** QSizeF: the item's size. */
  datatype Size = Size(width: real, height: real)

  /** `[f32; 2]`: a draw-data vertex. */
  datatype Vec2 = Vec2(x: real, y: real)

  /** QVector3D */
  datatype Vec3 = Vec3(x: real, y: real, z: real)

  /** QVector4D */
  datatype Vec4 = Vec4(x: real, y: real, z: real, w: real)

  /** `[f32; 4]`: a draw-data colour, copied as it is. */
  datatype Rgba = Rgba(r: real, g: real, b: real, a: real)

  type Byte = x: int | 0 <= x < 256

  /** `u32` / `uint`: an index into a vertex buffer. */
  type U32 = x: int | 0 <= x < 0x1_0000_0000

  /** QColor as read through red()/green()/blue(), each already in 0..255. */
  datatype Color = Color(red: Byte, green: Byte, blue: Byte)

  const Zero3: Vec3 := Vec3(0.0, 0.0, 0.0)
  const One3: Vec3 := Vec3(1.0, 1.0, 1.0)
  const Zero4: Vec4 := Vec4(0.0, 0.0, 0.0, 0.0)
  /** The identity rotation as a QVector4D (x, y, z, w). */
  const IdentityRotation: Vec4 := Vec4(0.0, 0.0, 0.0, 1.0)
}
