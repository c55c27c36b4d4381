/** The few pieces of engine and language arithmetic the camera controller
    relies on: Unity's `Vector2`/`Vector3` value types, `Mathf.Abs`,
    `Mathf.Clamp`, and C#'s truncating integer division by two.
    Floats are modelled as mathematical reals. */
module EngineMath {

  /** A 2D value such as a screen position or an edge vector. */
  datatype Vec2 = Vec2(x: real, y: real)

  /** A 3D value such as a world position or an axis direction. */
  datatype Vec3 = Vec3(x: real, y: real, z: real) {

    function Add(v: Vec3): Vec3 {
      Vec3(x + v.x, y + v.y, z + v.z)
    }

    function Sub(v: Vec3): Vec3 {
      Vec3(x - v.x, y - v.y, z - v.z)
    }

    function Scale(k: real): Vec3 {
      Vec3(x * k, y * k, z * k)
    }
  }

  /** Scaling twice is scaling by the product (`v * a * b` in the engine's
      left-to-right vector arithmetic). */
  lemma ScaleTwice(v: Vec3, a: real, b: real)
    ensures v.Scale(a).Scale(b) == v.Scale(a * b)
  {
  }

  const Zero2: Vec2 := Vec2(0.0, 0.0)

  function Abs(v: real): (r: real)
    ensures r >= 0.0
    ensures r == v || r == -v
  {
    if v < 0.0 then -v else v
  }

  /** `Mathf.Clamp(value, min, max)`: the lower bound is tested first, so with
      `min > max` a value below `min` gives `min` and any other value above
      `max` gives `max`. */
  function Clamp(value: real, min: real, max: real): (r: real)
    ensures min <= max ==> min <= r <= max
    ensures min <= value <= max ==> r == value
    ensures r == value || r == min || r == max
    ensures value < min ==> r == min
    ensures min <= value && value > max ==> r == max
  {
    if value < min then min else if value > max then max else value
  }

  /** C#'s `n / 2` on `int`, which truncates toward zero (Dafny's own `/` is
      Euclidean and differs for negative `n`). */
  function HalfTruncated(n: int): (h: int)
    ensures n >= 0 ==> 0 <= h && 2 * h <= n <= 2 * h + 1
    ensures n < 0 ==> h <= 0 && 2 * h - 1 <= n <= 2 * h
  {
    if n >= 0 then n / 2 else -((-n) / 2)
  }
}
