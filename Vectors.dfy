/**
 * Two-component velocity and acceleration vectors (components.py:5-8).
 * The game keeps them as Python floats; here they are exact reals.
 */
module Vectors {

  datatype Vec2 = Vec2(x: real, y: real)

  const ZERO: Vec2 := Vec2(0.0, 0.0)

  /** `add_vectors`: componentwise sum. */
  function Add(a: Vec2, b: Vec2): Vec2 {
    Vec2(a.x + b.x, a.y + b.y)
  }

  /** `mul_vectors`: every component scaled by `m`. */
  function Scale(a: Vec2, m: real): Vec2 {
    Vec2(a.x * m, a.y * m)
  }

  /** Scaling by `m` and then by `1 / m` gives the vector back: `acc / mass` undoes `force * mass`. */
  lemma ScaleInverse(a: Vec2, m: real)
    requires m != 0.0
    ensures Scale(Scale(a, m), 1.0 / m) == a
  {
    assert a.x * m * (1.0 / m) == a.x * (m * (1.0 / m));
    assert a.y * m * (1.0 / m) == a.y * (m * (1.0 / m));
  }

  /** Scaling distributes over the sum. */
  lemma ScaleAdd(a: Vec2, b: Vec2, m: real)
    ensures Scale(Add(a, b), m) == Add(Scale(a, m), Scale(b, m))
  {
    assert (a.x + b.x) * m == a.x * m + b.x * m;
    assert (a.y + b.y) * m == a.y * m + b.y * m;
  }
}
