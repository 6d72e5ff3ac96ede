/** Values shared by the tools: three-component vectors, quaternions, JavaScript
    numbers that may be NaN, optional values and the in-place overwrite of a
    run of slots in a typed array. */
module Geometry {

  datatype Option<+T> = None | Some(value: T)

  /** A three.js Vector3, with exact real coordinates (no Float32 rounding). */
  datatype Vec3 = Vec3(x: real, y: real, z: real) {

    function Add(v: Vec3): Vec3 { Vec3(x + v.x, y + v.y, z + v.z) }

    function Sub(v: Vec3): Vec3 { Vec3(x - v.x, y - v.y, z - v.z) }

    function Scale(s: real): Vec3 { Vec3(x * s, y * s, z * s) }

    /** The cross product, as three.js computes it. */
    function Cross(v: Vec3): Vec3 {
      Vec3(y * v.z - z * v.y, z * v.x - x * v.z, x * v.y - y * v.x)
    }

    /** The three coordinates in the order three.js stores them in an array. */
    function Floats(): (r: seq<real>)
      ensures |r| == 3 && r[0] == x && r[1] == y && r[2] == z
    {
      [x, y, z]
    }
  }

  const Origin := Vec3(0.0, 0.0, 0.0)

  /** Square of the Euclidean distance between two points. */
  function DistanceSquared(a: Vec3, b: Vec3): (d: real)
    ensures d >= 0.0
  {
    (a.x - b.x) * (a.x - b.x) + (a.y - b.y) * (a.y - b.y) + (a.z - b.z) * (a.z - b.z)
  }

  /** A rotation as a three.js Quaternion; rotating a vector by it is left
      abstract wherever it is used. */
  datatype Quaternion = Quaternion(x: real, y: real, z: real, w: real)

  /** A JavaScript number stored in a typed array: a real value, or NaN (what
      0/0 and arithmetic on `undefined` produce). */
  datatype Scalar = Num(value: real) | NaN

  /** JavaScript `a / b` on two integers, where a zero divisor only ever meets
      a zero dividend (0 / 0 is NaN; the infinities are not needed here). */
  function Divide(a: int, b: int): (r: Scalar)
    requires b == 0 ==> a == 0
    ensures r.NaN? <==> b == 0
    ensures r.Num? ==> r.value * b as real == a as real
  {
    if b != 0 then Num(a as real / b as real) else NaN
  }

  /** `s` with the slots [at, at + |w|) overwritten by `w`: what a run of
      post-incremented writes into a typed array does (as in a typed array,
      a write past the end is dropped). */
  function Splice<T>(s: seq<T>, at: nat, w: seq<T>): (r: seq<T>)
    ensures |r| == |s|
    ensures forall k :: 0 <= k < |s| && k < at ==> r[k] == s[k]
    ensures forall k :: 0 <= k < |s| && at <= k < at + |w| ==> r[k] == w[k - at]
    ensures forall k :: at + |w| <= k < |s| ==> r[k] == s[k]
  {
    seq(|s|, k requires 0 <= k < |s| => if at <= k < at + |w| then w[k - at] else s[k])
  }

  /** Two adjacent runs of writes are one run of their concatenation. */
  lemma SpliceThenSplice<T>(s: seq<T>, at: nat, w1: seq<T>, w2: seq<T>)
    requires at + |w1| + |w2| <= |s|
    ensures Splice(Splice(s, at, w1), at + |w1|, w2) == Splice(s, at, w1 + w2)
  {
  }

  /** Three post-incremented writes of a vector's coordinates at `at`. */
  method PutVec3(a: array<real>, at: nat, v: Vec3) returns (next: nat)
    requires at + 3 <= a.Length
    modifies a
    ensures next == at + 3
    ensures a[..] == Splice(old(a[..]), at, v.Floats())
  {
    next := at;
    a[next] := v.x;
    next := next + 1;
    a[next] := v.y;
    next := next + 1;
    a[next] := v.z;
    next := next + 1;
  }

  /** Products of non-negative reals are non-negative. */
  lemma ProductNonNegative(a: real, b: real)
    requires a >= 0.0 && b >= 0.0
    ensures a * b >= 0.0
  {
  }

  /** A number in [0, 1] squared stays in [0, itself]. */
  lemma SquareInUnitInterval(f: real)
    requires 0.0 <= f <= 1.0
    ensures 0.0 <= f * f <= f
  {
    ProductNonNegative(f, f);
  }

  /** Scaling a non-negative t by a factor in [0, 1] gives a value in [0, t]. */
  lemma ScaleDown(g: real, t: real)
    requires 0.0 <= g <= 1.0 && t >= 0.0
    ensures 0.0 <= g * t <= t
  {
  }
}
