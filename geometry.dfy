/** Positions and the scalar helpers of the engine's math library that the
    game scripts use, over mathematical reals. */
module Geometry {
  datatype Vec3 = Vec3(x: real, y: real, z: real)

  /** `Vector3.up * k` added to a position. */
  function Raise(p: Vec3, k: real): (r: Vec3)
    ensures r.x == p.x && r.z == p.z && r.y - p.y == k
  {
    p.(y := p.y + k)
  }

  /** `Mathf.Clamp(v, lo, hi)`: below `lo` gives `lo`, otherwise above `hi`
      gives `hi`. With `lo <= hi` the result lies in [lo, hi]; with the bounds
      crossed it is one of the two bounds. */
  function Clamp(v: real, lo: real, hi: real): (r: real)
    ensures lo <= hi ==> lo <= r <= hi
    ensures lo <= v <= hi ==> r == v
    ensures v < lo ==> r == lo
    ensures v >= lo && v > hi ==> r == hi
    ensures hi < lo ==> r == lo || r == hi
  {
    if v < lo then lo else if v > hi then hi else v
  }

  /** `v` lies between `a` and `b`, in whichever order they come. */
  predicate Between(a: real, v: real, b: real) {
    (a <= v <= b) || (b <= v <= a)
  }

  /** `Mathf.Clamp01`. */
  function Clamp01(v: real): (r: real)
    ensures 0.0 <= r <= 1.0
    ensures 0.0 <= v <= 1.0 ==> r == v
  {
    Clamp(v, 0.0, 1.0)
  }

  /** `Mathf.Abs`. */
  function Abs(v: real): (r: real)
    ensures r >= 0.0 && (r == v || r == -v)
  {
    if v < 0.0 then -v else v
  }
}
