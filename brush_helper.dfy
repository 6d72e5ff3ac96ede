/** The ribbon-strip synthesizer of src/modules/tool/helper/brush-helper.js:
    a stream of (position, orientation, pressure) samples becomes a triangle
    strip held in fixed-size position, normal and UV arrays. */
module Brush {
  import opened Geometry

  /** `_vboLimit`: the position and normal arrays hold 9 floats per unit of
      it, the UV array 4. */
  const VboLimit := 10000

  /** The options the helper reads: `delta`, `brushThickness`,
      `enablePressure` and `maxSpread`. */
  datatype BrushOptions = BrushOptions(
    delta: real, brushThickness: real, enablePressure: bool, maxSpread: int)

  // ---------------------------------------------------------------------
  // Distance-reject guard
  // ---------------------------------------------------------------------

  /** `_lastPoint.distanceTo(p) < _delta`, with the negative-infinity sentinel
      written as None (its distance to any point is +Infinity). The square
      root is avoided: for a distance d >= 0, d < delta exactly when delta > 0
      and d * d < delta * delta (see TooCloseIsDistanceBelowDelta). */
  predicate TooClose(last: Option<Vec3>, p: Vec3, delta: real) {
    last.Some? && delta > 0.0 && DistanceSquared(last.value, p) < delta * delta
  }

  /** The guard without a square root agrees with the one that takes it. */
  lemma TooCloseIsDistanceBelowDelta(last: Vec3, p: Vec3, delta: real, dist: real)
    requires dist >= 0.0 && dist * dist == DistanceSquared(last, p)
    ensures TooClose(Some(last), p, delta) <==> dist < delta
  {
    if dist < delta {
      var e := delta - dist;
      assert delta * delta == dist * dist + 2.0 * dist * e + e * e;
      assert e * e > 0.0 && dist * e >= 0.0;
    } else if delta > 0.0 {
      var e := dist - delta;
      assert dist * dist == delta * delta + 2.0 * delta * e + e * e;
      assert e * e >= 0.0 && delta * e >= 0.0;
    }
  }

  /** The sentinel a new segment starts with lets any first sample through. */
  lemma SentinelAcceptsAnySample(p: Vec3, delta: real)
    ensures !TooClose(None, p, delta)
  {
  }

  // ---------------------------------------------------------------------
  // Thickness policies
  // ---------------------------------------------------------------------

  /** `pressure >= 0.8 ? 0.8 : pressure`: the pressure capped at 0.8. */
  function ClampPressure(p: real): (c: real)
    ensures c <= 0.8 && c <= p
    ensures c == p || c == 0.8
  {
    if p >= 0.8 then 0.8 else p
  }

  function Abs(x: real): (r: real)
    ensures r >= 0.0 && (r == x || r == -x)
  {
    if x < 0.0 then -x else x
  }

  /** `test` in `_computeThicknessWithPressure`: one minus the jump between
      the previous and the current clamped pressure. */
  function Smoothing(last: real, clamped: real): (f: real)
    ensures f <= 1.0
    ensures f == 1.0 <==> last == clamped
  {
    1.0 - Abs(last - clamped)
  }

  /** `_thickness * pressureValue * test * test`. */
  function PressureThickness(thickness: real, last: real, pressure: real): real {
    var c := ClampPressure(pressure);
    var f := Smoothing(last, c);
    thickness * c * f * f
  }

  /** For a pressure in [0, 1] following one whose clamp lies in [0, 0.8],
      the damped thickness lies between 0 and the undamped one. */
  lemma PressureThicknessBounded(thickness: real, last: real, pressure: real)
    requires thickness >= 0.0 && 0.0 <= pressure <= 1.0 && 0.0 <= last <= 0.8
    ensures 0.0 <= PressureThickness(thickness, last, pressure) <= thickness * ClampPressure(pressure)
  {
    var c := ClampPressure(pressure);
    var f := Smoothing(last, c);
    var tc := thickness * c;
    assert 0.0 <= c && 0.0 <= f <= 1.0;
    ProductNonNegative(thickness, c);
    SquareInUnitInterval(f);
    ScaleDown(f * f, tc);
    var v := PressureThickness(thickness, last, pressure);
    assert v == tc * f * f == (f * f) * tc;
    assert 0.0 <= v <= tc;
  }

  /** `_lastPressure` after a run of pressure samples: 0 before any, then
      the clamp of the latest one, as the constructor and
      `_computeThicknessWithPressure` set it. */
  function LastPressureAfter(pressures: seq<real>): real {
    if pressures == [] then 0.0 else ClampPressure(pressures[|pressures| - 1])
  }

  /** Every pressure of the run lies in [0, 1]. */
  predicate InUnitInterval(pressures: seq<real>) {
    forall k :: 0 <= k < |pressures| ==> 0.0 <= pressures[k] <= 1.0
  }

  /** For any run of pressures in [0, 1], the next sample's damped
      thickness lies between 0 and the undamped one: the remembered
      pressure is then always in [0, 0.8]. */
  lemma PressureHistoryThicknessBounded(thickness: real, pressures: seq<real>, pressure: real)
    requires thickness >= 0.0 && 0.0 <= pressure <= 1.0
    requires InUnitInterval(pressures)
    ensures 0.0 <= LastPressureAfter(pressures) <= 0.8
    ensures 0.0 <= PressureThickness(thickness, LastPressureAfter(pressures), pressure)
                <= thickness * ClampPressure(pressure)
  {
    PressureThicknessBounded(thickness, LastPressureAfter(pressures), pressure);
  }

  /** A repeated clamped pressure costs nothing: the thickness is the
      undamped one. */
  lemma RepeatedPressureIsUndamped(thickness: real, pressure: real)
    ensures PressureThickness(thickness, ClampPressure(pressure), pressure)
         == thickness * ClampPressure(pressure)
  {
  }

  // ---------------------------------------------------------------------
  // UV policies
  // ---------------------------------------------------------------------

  /** `max` in `addPoint`: the spread bound, raised to the rung count
      `_verticesCount / 6` once that reaches a positive bound. */
  function UvMax(maxSpread: int, verticesCount: nat): (m: int)
    ensures maxSpread <= 0 ==> m == maxSpread
    ensures maxSpread > 0 ==> m >= maxSpread && m >= verticesCount / 6
    ensures m == maxSpread || m == verticesCount / 6
  {
    if maxSpread > 0 && verticesCount / 6 >= maxSpread then verticesCount / 6 else maxSpread
  }

  /** The four UV floats of one rung: (u, 0) then (u, 1). */
  function UvPair(u: Scalar): (r: seq<Scalar>)
    ensures |r| == 4 && r[0] == r[2] == u && r[1] == Num(0.0) && r[3] == Num(1.0)
  {
    [u, Num(0.0), u, Num(1.0)]
  }

  /** The first n rows the pressure-independent policy writes for a given
      `max`: float k belongs to row k / 4, and row i is (i / max, 0),
      (i / max, 1). */
  function UvRows(max: int, n: nat): (s: seq<Scalar>)
    requires n == 0 || n <= max + 1
    ensures |s| == 4 * n
  {
    seq(4 * n, k requires 0 <= k < 4 * n => UvPair(Divide(k / 4, max))[k % 4])
  }

  /** Row i of the rewrite is exactly (i / max, 0), (i / max, 1). */
  lemma UvRowsAt(max: int, n: nat, i: nat)
    requires n <= max + 1 && i < n
    ensures UvRows(max, n)[4 * i .. 4 * i + 4] == UvPair(Divide(i, max))
  {
    forall j | 0 <= j < 4
      ensures UvRows(max, n)[4 * i + j] == UvPair(Divide(i, max))[j]
    {
      assert (4 * i + j) / 4 == i && (4 * i + j) % 4 == j;
    }
  }

  /** One more pass of the loop appends one row: the rows written so far
      are a prefix of the rows written later. */
  lemma UvRowsExtend(max: int, n: nat)
    requires n + 1 <= max + 1
    ensures UvRows(max, n + 1) == UvRows(max, n) + UvPair(Divide(n, max))
  {
    var longer, shorter := UvRows(max, n + 1), UvRows(max, n) + UvPair(Divide(n, max));
    forall k | 0 <= k < 4 * (n + 1)
      ensures longer[k] == shorter[k]
    {
      if k >= 4 * n {
        assert k / 4 == n && k % 4 == k - 4 * n;
      }
    }
  }

  /** With a positive `max`, every coordinate the rewrite produces is a
      number in [0, 1]; with `max` = 0 the U coordinate is 0 / 0, NaN. */
  lemma UvRowsInUnitSquare(max: int, n: nat, k: nat)
    requires n <= max + 1 && k < 4 * n
    ensures max > 0 ==> UvRows(max, n)[k].Num? && 0.0 <= UvRows(max, n)[k].value <= 1.0
    ensures max == 0 && k % 2 == 0 ==> UvRows(max, n)[k] == NaN
  {
    var i := k / 4;
    assert 4 * i <= k < 4 * i + 4;
    UvRowsAt(max, n, i);
    var u := Divide(i, max);
    assert UvRows(max, n)[k] == UvPair(u)[k - 4 * i];
    if max > 0 {
      assert u.value == i as real / max as real;
      RatioInUnitInterval(i, max);
    }
  }

  lemma RatioInUnitInterval(i: int, m: int)
    requires 0 <= i <= m && m > 0
    ensures 0.0 <= i as real / m as real <= 1.0
  {
  }

  // ---------------------------------------------------------------------
  // Rungs and normals
  // ---------------------------------------------------------------------

  /** The six floats of a rung: point - offset, then point + offset. Its
      midpoint is the input point and its width is twice the offset. */
  function Rung(p: Vec3, offset: Vec3): (r: seq<real>)
    ensures |r| == 6
    ensures forall k :: 0 <= k < 3 ==> (r[k] + r[k + 3]) / 2.0 == p.Floats()[k]
    ensures forall k :: 0 <= k < 3 ==> r[k + 3] - r[k] == 2.0 * offset.Floats()[k]
  {
    p.Sub(offset).Floats() + p.Add(offset).Floats()
  }

  /** `v.fromArray(array, at)`. */
  function VertexAt(s: seq<real>, at: int): Vec3
    requires 0 <= at && at + 3 <= |s|
  {
    Vec3(s[at], s[at + 1], s[at + 2])
  }

  /** The triangle the normal loop looks at for offset i (0, 3 or 6):
      cross(v0 - v1, v2 - v1) with v0, v1, v2 starting 9 + i, 6 + i and
      3 + i floats before the cursor. */
  function TriangleNormal(s: seq<real>, cursor: int, i: nat): Vec3
    requires 9 + i <= cursor <= |s|
  {
    var v0 := VertexAt(s, cursor - 9 - i);
    var v1 := VertexAt(s, cursor - 6 - i);
    var v2 := VertexAt(s, cursor - 3 - i);
    v0.Sub(v1).Cross(v2.Sub(v1))
  }

  /** Sum of the first `count` triangle normals of the look-back window. */
  function NormalSum(s: seq<real>, cursor: int, count: nat): Vec3
    requires 6 + 3 * count <= cursor <= |s|
  {
    if count == 0 then Origin
    else NormalSum(s, cursor, count - 1).Add(TriangleNormal(s, cursor, 3 * (count - 1)))
  }

  /** `n.divideScalar(it)` after the loop: the mean of the triangle normals. */
  function AveragedNormal(s: seq<real>, cursor: int, count: nat): Vec3
    requires 0 < count && 6 + 3 * count <= cursor <= |s|
  {
    NormalSum(s, cursor, count).Scale(1.0 / count as real)
  }

  /** The normal computation reads nothing outside the floats
      [cursor - 6 - 3 * count, cursor): for the window of three triangles,
      the last 15 floats. */
  lemma {:induction false} NormalReadsOnlyWindow(s1: seq<real>, s2: seq<real>, cursor: int, count: nat)
    requires 6 + 3 * count <= cursor <= |s1| && cursor <= |s2|
    requires forall k :: cursor - 6 - 3 * count <= k < cursor ==> s1[k] == s2[k]
    ensures NormalSum(s1, cursor, count) == NormalSum(s2, cursor, count)
  {
    if count > 0 {
      NormalReadsOnlyWindow(s1, s2, cursor, count - 1);
      var i := 3 * (count - 1);
      assert VertexAt(s1, cursor - 9 - i) == VertexAt(s2, cursor - 9 - i);
      assert VertexAt(s1, cursor - 6 - i) == VertexAt(s2, cursor - 6 - i);
      assert VertexAt(s1, cursor - 3 - i) == VertexAt(s2, cursor - 3 - i);
    }
  }

  /** The 18 floats written for one sample: the same normal six times. */
  function NormalRun(n: Vec3): (r: seq<real>)
    ensures |r| == 18
    ensures forall k :: 0 <= k < 18 ==> r[k] == n.Floats()[k % 3]
  {
    var t := n.Floats();
    t + t + t + t + t + t
  }

  /** How many triangles `_processPoint` averages, given its local cursor
      (the old `_verticesCount` plus 6). */
  function LookBack(cursor: int): nat {
    if cursor - 3 * 3 == 0 then 1 else if cursor - 4 * 3 == 3 then 2 else 3
  }

  /** Under the guard `_verticesCount >= 12` the local cursor is at least 18,
      so the one- and two-triangle branches never run. */
  lemma LookBackIsThreeUnderGuard(verticesCount: int)
    requires verticesCount >= 3 * 4
    ensures LookBack(verticesCount + 6) == 3
  {
  }

  // ---------------------------------------------------------------------
  // Writes into the typed arrays
  // ---------------------------------------------------------------------

  /** Two `new Float32Array(n)`: two distinct arrays of n zeroes. */
  method ZeroedPair(n: nat) returns (a: array<real>, b: array<real>)
    ensures fresh(a) && fresh(b) && a != b && a.Length == b.Length == n
    ensures forall k :: 0 <= k < n ==> a[k] == 0.0 && b[k] == 0.0
  {
    a := new real[n](_ => 0.0);
    b := new real[n](_ => 0.0);
  }

  method ZeroedScalars(n: nat) returns (a: array<Scalar>)
    ensures fresh(a) && a.Length == n
    ensures forall k :: 0 <= k < n ==> a[k] == Num(0.0)
  {
    a := new Scalar[n](_ => Num(0.0));
  }

  /** Four post-incremented writes of one UV row at `at`. */
  method PutUvPair(a: array<Scalar>, at: nat, u: Scalar) returns (next: nat)
    requires at + 4 <= a.Length
    modifies a
    ensures next == at + 4
    ensures a[..] == Splice(old(a[..]), at, UvPair(u))
  {
    next := at;
    a[next] := u;
    next := next + 1;
    a[next] := Num(0.0);
    next := next + 1;
    a[next] := u;
    next := next + 1;
    a[next] := Num(1.0);
    next := next + 1;
  }

  /** The loop of `_computeUVWithoutPressure`: rows 0 .. max written from
      slot 0, returning the cursor after the last one. */
  method PutUvRows(a: array<Scalar>, max: int) returns (cursor: nat)
    requires 4 * (max + 1) <= a.Length
    modifies a
    ensures cursor == if max >= 0 then 4 * (max + 1) else 0
    ensures max >= 0 ==> a[..] == Splice(old(a[..]), 0, UvRows(max, max + 1))
    ensures max < 0 ==> a[..] == old(a[..])
  {
    ghost var s := a[..];
    cursor := 0;
    var i := 0;
    while i <= max
      invariant 0 <= i && (max >= 0 ==> i <= max + 1) && (max < 0 ==> i == 0)
      invariant cursor == 4 * i
      invariant a[..] == Splice(s, 0, UvRows(max, i))
    {
      var u := Divide(i, max);
      cursor := PutUvPair(a, cursor, u);
      SpliceThenSplice(s, 0, UvRows(max, i), UvPair(u));
      UvRowsExtend(max, i);
      i := i + 1;
    }
    assert max < 0 ==> Splice(s, 0, []) == s;
  }

  /** The six post-incremented writes of a rung at `at`: point A = p -
      offset, then point B = p + offset. */
  method PutRung(a: array<real>, at: nat, p: Vec3, offset: Vec3) returns (next: nat)
    requires at + 6 <= a.Length
    modifies a
    ensures next == at + 6
    ensures a[..] == Splice(old(a[..]), at, Rung(p, offset))
  {
    next := PutVec3(a, at, p.Sub(offset));
    next := PutVec3(a, next, p.Add(offset));
    SpliceThenSplice(old(a[..]), at, p.Sub(offset).Floats(), p.Add(offset).Floats());
  }

  /** The 18 post-incremented writes of one normal repeated six times. */
  method PutNormalRun(a: array<real>, at: nat, n: Vec3) returns (next: nat)
    requires at + 18 <= a.Length
    modifies a
    ensures next == at + 18
    ensures a[..] == Splice(old(a[..]), at, NormalRun(n))
  {
    ghost var s := a[..];
    var t := n.Floats();
    next := PutVec3(a, at, n);
    next := PutVec3(a, next, n);
    SpliceThenSplice(s, at, t, t);
    next := PutVec3(a, next, n);
    SpliceThenSplice(s, at, t + t, t);
    next := PutVec3(a, next, n);
    SpliceThenSplice(s, at, t + t + t, t);
    next := PutVec3(a, next, n);
    SpliceThenSplice(s, at, t + t + t + t, t);
    next := PutVec3(a, next, n);
    SpliceThenSplice(s, at, t + t + t + t + t, t);
  }

  /** `v.fromArray(a, at)`. */
  method ReadVec3(a: array<real>, at: nat) returns (v: Vec3)
    requires at + 3 <= a.Length
    ensures v == VertexAt(a[..], at)
  {
    v := Vec3(a[at], a[at + 1], a[at + 2]);
  }

  /** The normal loop of `_processPoint`: the sum of the `it` triangle
      normals behind the cursor, read from the position array. */
  method SumTriangleNormals(a: array<real>, cursor: nat, it: nat) returns (n: Vec3)
    requires 6 + 3 * it <= cursor <= a.Length
    ensures n == NormalSum(a[..], cursor, it)
  {
    n := Origin;
    var i := 0;
    ghost var done := 0;
    while i < it * 3
      invariant i == 3 * done && done <= it
      invariant n == NormalSum(a[..], cursor, done)
    {
      var v0 := ReadVec3(a, cursor - 9 - i);
      var v1 := ReadVec3(a, cursor - 6 - i);
      var v2 := ReadVec3(a, cursor - 3 - i);
      n := n.Add(v0.Sub(v1).Cross(v2.Sub(v1)));
      i := i + 3;
      done := done + 1;
    }
  }

  /** The normal step of `_processPoint` for a local cursor of at least 18
      (the guard `_verticesCount >= 12` holds): the mean of the last `it`
      triangle normals, written six times at the normal cursor. */
  method PutAveragedNormal(vertices: array<real>, normals: array<real>, vc: nat, nc: nat)
    returns (next: nat)
    requires vertices != normals
    requires 18 <= vc <= vertices.Length && nc + 18 <= normals.Length
    modifies normals
    ensures next == nc + 18
    ensures normals[..] == Splice(old(normals[..]), nc, NormalRun(AveragedNormal(vertices[..], vc, 3)))
  {
    var it := 3;
    if vc - 3 * 3 == 0 {
      it := 1;
    } else if vc - 4 * 3 == 3 {
      it := 2;
    }
    assert it == LookBack(vc) == 3;

    var n := SumTriangleNormals(vertices, vc, it);
    n := n.Scale(1.0 / it as real);
    next := PutNormalRun(normals, nc, n);
  }

  /** 6 floats per rung: the rung count and the drawn-vertex count of n
      rungs. */
  lemma RungArithmetic(n: nat)
    ensures (6 * n) / 6 == n && (6 * n) / 3 == 2 * n
  {
  }

  // ---------------------------------------------------------------------
  // The helper
  // ---------------------------------------------------------------------

  class BrushHelper {
    const options: BrushOptions
    const delta: real
    /** `applyQuaternion`, left abstract: the rotation of a vector by an
        orientation. */
    const rotate: (Quaternion, Vec3) -> Vec3

    var thickness: real
    var lastPressure: real
    var lastPoint: Option<Vec3>
    var verticesCount: nat
    var normalsCount: nat
    var uvCount: nat
    var uv: nat
    var vertices: array<real>
    var normals: array<real>
    var uvs: array<Scalar>
    var drawStart: nat
    var drawCount: nat
    /** Samples accepted since the segment was created. */
    ghost var accepted: nat
    /** The pressures the pressure policy has been given, oldest first. */
    ghost var pressures: seq<real>

    /** The cursor invariants: 6 position floats, 4 UV floats and 2 drawn
        vertices per accepted sample; normals lag two samples behind; in
        pressure mode the UV write cursor is the UV count; the remembered
        pressure is the one the pressure history leaves. */
    ghost predicate Valid()
      reads this
    {
      && Remembers()
      && vertices != normals
      && normals.Length == vertices.Length
      && verticesCount == 6 * accepted
      && uvCount == 4 * accepted
      && normalsCount == (if accepted >= 2 then 6 * (accepted - 2) else 0)
      && verticesCount <= vertices.Length
      && drawStart == 0 && drawCount == 2 * accepted
      && (options.enablePressure ==> uv == uvCount)
    }

    /** `_lastPressure` is what the pressures given so far leave. */
    ghost predicate Remembers()
      reads this
    {
      lastPressure == LastPressureAfter(pressures)
    }

    /** Whether the next sample at p passes the distance guard. */
    predicate Accepts(p: Vec3)
      reads this
    {
      !TooClose(lastPoint, p, delta)
    }

    /** What the caller must ensure before a sample that will be accepted:
        room for one more rung and for the UVs the policy writes. */
    predicate HasRoom()
      reads this
    {
      && verticesCount + 6 <= vertices.Length
      && if options.enablePressure then uv + 4 <= uvs.Length
         else 4 * (UvMax(options.maxSpread, verticesCount) + 1) <= uvs.Length
    }

    /** The thickness the selected policy gives a sample, given the base
        thickness and the previous clamped pressure. */
    function SampleThickness(thickness: real, last: real, pressure: real): real {
      if options.enablePressure then PressureThickness(thickness, last, pressure) else thickness
    }

    /** Half the rung: the rotated x axis scaled by the sample's thickness. */
    function Offset(q: Quaternion, thickness: real, last: real, pressure: real): Vec3 {
      rotate(q, Vec3(1.0, 0.0, 0.0)).Scale(SampleThickness(thickness, last, pressure))
    }

    /** Before `createMesh` there are no arrays; they are modelled as empty
        ones, so no sample can be written until a mesh exists. */
    constructor (options: BrushOptions, rotate: (Quaternion, Vec3) -> Vec3)
      ensures Valid()
      ensures this.options == options && this.rotate == rotate && delta == options.delta
      ensures thickness == options.brushThickness / 2.0 && lastPressure == 0.0 && pressures == []
      ensures lastPoint == None && accepted == 0 && uv == 0
      ensures vertices.Length == 0 && uvs.Length == 0
    {
      this.options := options;
      this.rotate := rotate;
      delta := options.delta;
      thickness := options.brushThickness / 2.0;
      lastPressure := 0.0;
      lastPoint := None;
      verticesCount, normalsCount, uvCount, uv := 0, 0, 0, 0;
      vertices := new real[0];
      normals := new real[0];
      uvs := new Scalar[0];
      drawStart, drawCount := 0, 0;
      accepted := 0;
      pressures := [];
    }

    /** Starts a new segment: zeroed arrays, zero cursors, empty draw range,
        and the sentinel that lets the next sample through. */
    method CreateMesh()
      requires Remembers()
      modifies this
      ensures Valid() && fresh(vertices) && fresh(normals) && fresh(uvs)
      ensures vertices.Length == normals.Length == VboLimit * 3 * 3
      ensures uvs.Length == VboLimit * 2 * 2
      ensures forall k :: 0 <= k < vertices.Length ==> vertices[k] == 0.0 && normals[k] == 0.0
      ensures forall k :: 0 <= k < uvs.Length ==> uvs[k] == Num(0.0)
      ensures accepted == 0 && verticesCount == normalsCount == uvCount == uv == 0
      ensures drawStart == 0 && drawCount == 0
      ensures lastPoint == None
      ensures thickness == old(thickness) && lastPressure == old(lastPressure) && pressures == old(pressures)
    {
      var v, n := ZeroedPair(VboLimit * 3 * 3);
      var u := ZeroedScalars(VboLimit * 2 * 2);
      vertices, normals, uvs := v, n, u;
      ResetCursors();
    }

    /** The cursor, draw range and last-point resets of `createMesh`. */
    method ResetCursors()
      modifies this`verticesCount, this`normalsCount, this`uvCount, this`uv
      modifies this`drawStart, this`drawCount, this`lastPoint, this`accepted
      ensures verticesCount == normalsCount == uvCount == uv == 0
      ensures drawStart == 0 && drawCount == 0 && lastPoint == None && accepted == 0
    {
      drawStart, drawCount := 0, 0;
      verticesCount, normalsCount, uvCount, uv := 0, 0, 0, 0;
      lastPoint := None;
      accepted := 0;
    }

    method SetThickness(t: real)
      modifies this`thickness
      ensures thickness == t / 2.0
    {
      thickness := t / 2.0;
    }

    /** The pressure policy's thickness; remembers the clamped pressure.
        While every pressure given is in [0, 1], the thickness lies between
        0 and the undamped one. */
    method ComputeThicknessWithPressure(pressure: real) returns (v: real)
      requires Remembers()
      modifies this`lastPressure, this`pressures
      ensures Remembers() && pressures == old(pressures) + [pressure]
      ensures v == PressureThickness(thickness, old(lastPressure), pressure)
      ensures lastPressure == ClampPressure(pressure)
      ensures thickness >= 0.0 && InUnitInterval(pressures) ==> 0.0 <= v <= thickness * ClampPressure(pressure)
    {
      if thickness >= 0.0 && InUnitInterval(old(pressures) + [pressure]) {
        assert InUnitInterval(old(pressures)) by {
          forall k | 0 <= k < |old(pressures)|
            ensures 0.0 <= old(pressures)[k] <= 1.0
          {
            assert (old(pressures) + [pressure])[k] == old(pressures)[k];
          }
        }
        assert (old(pressures) + [pressure])[|old(pressures)|] == pressure;
        PressureHistoryThicknessBounded(thickness, pressures, pressure);
      }
      pressures := pressures + [pressure];
      var pressureValue := if pressure >= 0.8 then 0.8 else pressure;
      var test := 1.0 - Abs(lastPressure - pressureValue);
      v := thickness * pressureValue * test * test;
      lastPressure := pressureValue;
    }

    /** `_computeUV`, bound at construction to one of the two policies. */
    method ComputeUv(max: int, pressure: real)
      requires options.enablePressure ==> uv + 4 <= uvs.Length
      requires !options.enablePressure ==> 4 * (max + 1) <= uvs.Length
      modifies this`uv, uvs
      ensures options.enablePressure ==>
                uv == old(uv) + 4 && uvs[..] == Splice(old(uvs[..]), old(uv), UvPair(Num(pressure)))
      ensures !options.enablePressure ==>
                && uv == (if max >= 0 then 4 * (max + 1) else 0)
                && (max >= 0 ==> uvs[..] == Splice(old(uvs[..]), 0, UvRows(max, max + 1)))
                && (max < 0 ==> uvs[..] == old(uvs[..]))
    {
      if options.enablePressure {
        ComputeUvWithPressure(max, pressure);
      } else {
        ComputeUvWithoutPressure(max);
      }
    }

    /** The pressure policy's UVs: (p, 0), (p, 1) appended at the UV cursor. */
    method ComputeUvWithPressure(max: int, pressure: real)
      requires uv + 4 <= uvs.Length
      modifies this`uv, uvs
      ensures uv == old(uv) + 4
      ensures uvs[..] == Splice(old(uvs[..]), old(uv), UvPair(Num(pressure)))
    {
      uv := PutUvPair(uvs, uv, Num(pressure));
    }

    /** The pressure-independent policy: the UV array is rewritten from slot
        0 with rows 0 .. max, and the cursor ends after the last row. */
    method ComputeUvWithoutPressure(max: int)
      requires 4 * (max + 1) <= uvs.Length
      modifies this`uv, uvs
      ensures uv == if max >= 0 then 4 * (max + 1) else 0
      ensures max >= 0 ==> uvs[..] == Splice(old(uvs[..]), 0, UvRows(max, max + 1))
      ensures max < 0 ==> uvs[..] == old(uvs[..])
    {
      uv := PutUvRows(uvs, max);
    }

    /** `_processPoint`: writes the rung at the vertex cursor `vc0` and, once
        the segment holds two rungs (the guard reads the field, the writes
        use the cursors passed in), the averaged normal of the last three
        triangles six times at the normal cursor `nc0`; the normal count
        then advances by 6. */
    method ProcessPoint(p: Vec3, q: Quaternion, vc0: nat, nc0: nat, pressure: real)
      requires vertices != normals
      requires vc0 + 6 <= vertices.Length
      requires verticesCount >= 3 * 4 ==> 3 * 4 <= vc0 && nc0 + 18 <= normals.Length
      requires Remembers()
      modifies this`lastPressure, this`pressures, this`normalsCount, vertices, normals
      ensures Remembers()
      ensures pressures == if options.enablePressure then old(pressures) + [pressure] else old(pressures)
      ensures lastPressure == if options.enablePressure then ClampPressure(pressure) else old(lastPressure)
      ensures vertices[..] == Splice(old(vertices[..]), vc0,
                                     Rung(p, Offset(q, thickness, old(lastPressure), pressure)))
      ensures verticesCount >= 3 * 4 ==>
                normalsCount == old(normalsCount) + 6 &&
                normals[..] == Splice(old(normals[..]), nc0,
                                      NormalRun(AveragedNormal(vertices[..], vc0 + 6, 3)))
      ensures verticesCount < 3 * 4 ==> normalsCount == old(normalsCount) && normals[..] == old(normals[..])
    {
      var axisLock := rotate(q, Vec3(1.0, 0.0, 0.0));
      var th;
      if options.enablePressure {
        th := ComputeThicknessWithPressure(pressure);
      } else {
        th := thickness;
      }
      axisLock := axisLock.Scale(th);

      var vc := PutRung(vertices, vc0, p, axisLock);

      if verticesCount >= 3 * 4 {
        var nc := PutAveragedNormal(vertices, normals, vc, nc0);
        normalsCount := normalsCount + 3 * 2;
      }
    }

    /** One sample. Too close to the last accepted point: nothing at all
        changes. Otherwise the sample is accepted, as Accepted states. */
    method AddPoint(p: Vec3, q: Quaternion, pressure: real)
      requires Valid()
      requires Accepts(p) ==> HasRoom()
      modifies this, vertices, normals, uvs
      ensures Valid()
      ensures vertices == old(vertices) && normals == old(normals) && uvs == old(uvs)
      ensures !old(Accepts(p)) ==>
                unchanged(this) && unchanged(vertices) && unchanged(normals) && unchanged(uvs)
      ensures old(Accepts(p)) ==> Accepted(p, q, pressure)
    {
      if TooClose(lastPoint, p, delta) {
        return;
      }
      Accept(p, q, pressure);
    }

    /** The accepted path of `addPoint`: the UVs for the spread bound, the
        rung and normals at the current cursors, the counters and the draw
        range. */
    method Accept(p: Vec3, q: Quaternion, pressure: real)
      requires Valid() && HasRoom()
      modifies this`uv, this`lastPressure, this`pressures, this`normalsCount, this`verticesCount, this`uvCount
      modifies this`accepted, this`drawStart, this`drawCount, this`lastPoint, vertices, normals, uvs
      ensures Valid()
      ensures Accepted(p, q, pressure)
    {
      RungArithmetic(accepted + 1);
      var max := UvMax(options.maxSpread, verticesCount);
      // The rung and the UVs go to different arrays and neither write reads
      // what the other changes, so they are done in the cheaper order here.
      Record(p, q, pressure);
      ComputeUv(max, pressure);
    }

    /** The rung and normal writes of an accepted sample at the current
        cursors, followed by the bookkeeping. */
    method Record(p: Vec3, q: Quaternion, pressure: real)
      requires vertices != normals
      requires verticesCount + 6 <= vertices.Length
      requires verticesCount >= 3 * 4 ==> normalsCount + 18 <= normals.Length
      requires Remembers()
      modifies this`lastPressure, this`pressures, this`normalsCount, this`verticesCount, this`uvCount
      modifies this`accepted, this`drawStart, this`drawCount, this`lastPoint, vertices, normals
      ensures verticesCount == old(verticesCount) + 6 && uvCount == old(uvCount) + 4
      ensures accepted == old(accepted) + 1 && lastPoint == Some(p)
      ensures drawStart == 0 && drawCount == verticesCount / 3
      ensures Remembers()
      ensures pressures == if options.enablePressure then old(pressures) + [pressure] else old(pressures)
      ensures lastPressure == if options.enablePressure then ClampPressure(pressure) else old(lastPressure)
      ensures vertices[..] == Splice(old(vertices[..]), old(verticesCount),
                                     Rung(p, Offset(q, thickness, old(lastPressure), pressure)))
      ensures old(verticesCount) >= 3 * 4 ==>
                && normalsCount == old(normalsCount) + 6
                && old(verticesCount) + 6 <= vertices.Length
                && normals[..] == Splice(old(normals[..]), old(normalsCount),
                                         NormalRun(AveragedNormal(vertices[..], old(verticesCount) + 6, 3)))
      ensures old(verticesCount) < 3 * 4 ==> normalsCount == old(normalsCount) && normals[..] == old(normals[..])
    {
      ProcessPoint(p, q, verticesCount, normalsCount, pressure);
      Advance(p);
    }

    /** The bookkeeping after the writes of an accepted sample. */
    method Advance(p: Vec3)
      modifies this`verticesCount, this`uvCount, this`accepted, this`drawStart, this`drawCount, this`lastPoint
      ensures verticesCount == old(verticesCount) + 6 && uvCount == old(uvCount) + 4
      ensures accepted == old(accepted) + 1 && lastPoint == Some(p)
      ensures drawStart == 0 && drawCount == verticesCount / 3
    {
      verticesCount := verticesCount + 6;
      uvCount := uvCount + 4;
      accepted := accepted + 1;
      drawStart, drawCount := 0, verticesCount / 3;
      lastPoint := Some(p);
    }

    /** The state after an accepted sample, against the state before it:
        one more sample, p is the last point, the rung (and, from the third
        sample on, the normals) written at the old cursors, and the UVs the
        policy writes. */
    twostate predicate Accepted(p: Vec3, q: Quaternion, pressure: real)
      reads this, vertices, normals, uvs
    {
      && accepted == old(accepted) + 1
      && lastPoint == Some(p)
      && thickness == old(thickness)
      && lastPressure == (if options.enablePressure then ClampPressure(pressure) else old(lastPressure))
      && pressures == (if options.enablePressure then old(pressures) + [pressure] else old(pressures))
      && vertices[..] == Splice(old(vertices[..]), old(verticesCount),
                                Rung(p, Offset(q, thickness, old(lastPressure), pressure)))
      && (old(verticesCount) >= 3 * 4 ==>
            && old(verticesCount) + 6 <= vertices.Length
            && normals[..] == Splice(old(normals[..]), old(normalsCount),
                                     NormalRun(AveragedNormal(vertices[..], old(verticesCount) + 6, 3))))
      && (old(verticesCount) < 3 * 4 ==> normals[..] == old(normals[..]))
      && (options.enablePressure ==>
            uvs[..] == Splice(old(uvs[..]), old(uv), UvPair(Num(pressure))))
      && (!options.enablePressure ==>
            var max := UvMax(options.maxSpread, old(verticesCount));
            && uv == (if max >= 0 then 4 * (max + 1) else 0)
            && (max >= 0 ==> uvs[..] == Splice(old(uvs[..]), 0, UvRows(max, max + 1)))
            && (max < 0 ==> uvs[..] == old(uvs[..])))
    }
  }
}
