/** Screen-space values shared by the marker code: the vector types of
    System.Numerics (with `float` read as `real`), the main viewport, and the
    min/max of MathF. */
module Geometry {

  datatype Option<T> = None | Some(value: T)

  /** A 2D point or extent on screen; y grows downwards. */
  datatype Vec2 = Vec2(x: real, y: real)

  /** A 4-component vector. Used both for margins (L, D, R, U) = (x, y, z, w)
      and for display-area edges in the same order, and for RGBA colours. */
  datatype Vec4 = Vec4(x: real, y: real, z: real, w: real)

  /** The host's main viewport: its origin and size in screen pixels. */
  datatype Viewport = Viewport(pos: Vec2, size: Vec2)

  function Add(a: Vec2, b: Vec2): Vec2 { Vec2(a.x + b.x, a.y + b.y) }

  function Sub(a: Vec2, b: Vec2): Vec2 { Vec2(a.x - b.x, a.y - b.y) }

  function Scale(a: Vec2, k: real): Vec2 { Vec2(a.x * k, a.y * k) }

  function Max(a: real, b: real): (r: real)
    ensures r >= a && r >= b && (r == a || r == b)
  {
    if a >= b then a else b
  }

  function Min(a: real, b: real): (r: real)
    ensures r <= a && r <= b && (r == a || r == b)
  {
    if a <= b then a else b
  }
}
