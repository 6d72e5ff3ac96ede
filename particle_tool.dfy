/** The particle tool: the pool of free texel indices of a primitives
    renderer, the ring of particle slots an emitter writes into, the pool of
    random numbers and the cap on the number of emitters. The GPU passes,
    shaders and three.js objects are not modelled. */
module Particles {
  import opened Geometry

  // ---------------------------------------------------------------------
  // Powers of two
  // ---------------------------------------------------------------------

  /** n is 1, 2, 4, 8, ... */
  predicate PowerOfTwo(n: int)
    decreases if n < 0 then 0 else n
  {
    n == 1 || (n >= 2 && n % 2 == 0 && PowerOfTwo(n / 2))
  }

  /** Of two powers of two, the smaller is at most half the larger. */
  lemma {:induction false} PowerOfTwoBelow(p: int, q: int)
    requires PowerOfTwo(p) && PowerOfTwo(q) && p < q
    ensures q >= 2 && p <= q / 2
    decreases q
  {
    if p >= 2 {
      PowerOfTwoBelow(p / 2, q / 2);
    }
  }

  /** `PrimitivesRenderer._getNextPowerTwo(nb)`: doubles from 1 until nb is
      reached, so the result is the least power of two that is >= nb (1 for
      nb <= 1). */
  method NextPowerTwo(nb: int) returns (i: int)
    ensures PowerOfTwo(i) && i >= nb
    ensures forall p :: PowerOfTwo(p) && p >= nb ==> i <= p
    ensures nb <= 1 ==> i == 1
  {
    i := 1;
    while i < nb
      invariant PowerOfTwo(i)
      invariant i == 1 || i / 2 < nb
      decreases nb - i
    {
      i := i * 2;
    }
    forall p | PowerOfTwo(p) && p >= nb
      ensures i <= p
    {
      if p < i {
        PowerOfTwoBelow(p, i);
      }
    }
  }

  // ---------------------------------------------------------------------
  // Texel indices
  // ---------------------------------------------------------------------

  /** The flat texel indices of a side × side texture, from the last to the
      first: the order `initIndicesArray` pushes them in. */
  function Descending(side: nat): (d: seq<int>)
    ensures |d| == side * side
    ensures forall a, b :: 0 <= a < b < |d| ==> d[a] > d[b]
    ensures forall v :: v in d <==> 0 <= v < side * side
  {
    var d := seq(side * side, k requires 0 <= k < side * side => side * side - 1 - k);
    CountdownCovers(d);
    d
  }

  /** A countdown from |d| - 1 to 0 holds every value below |d|. */
  lemma CountdownCovers(d: seq<int>)
    requires forall k :: 0 <= k < |d| ==> d[k] == |d| - 1 - k
    ensures forall v :: 0 <= v < |d| ==> v in d
  {
    forall v | 0 <= v < |d|
      ensures v in d
    {
      assert d[|d| - 1 - v] == v;
    }
  }

  /** A texel of the position texture, as `getAvailableIndex` returns it:
      its column and row, or NaN for both when the pool was empty. */
  datatype Texel = Texel(x: int, y: int) | NaNTexel

  /** The column and row of the flat index v: `v % side` and
      `Math.floor(v / side)`, which for v >= 0 are Dafny's `%` and `/`. */
  function TexelOf(v: int, side: nat): (t: Texel)
    requires side > 0 && 0 <= v < side * side
    ensures t.Texel? && 0 <= t.x < side && 0 <= t.y < side
    ensures t.y * side + t.x == v
  {
    RowBelowSide(v, side);
    Texel(v % side, v / side)
  }

  /** An index below side² lies in one of the first `side` rows. */
  lemma RowBelowSide(v: int, side: nat)
    requires side > 0 && 0 <= v < side * side
    ensures v / side < side
  {
    assert (v / side) * side <= v;
    MultiplyCancel(v / side, side, side);
  }

  /** a × c < b × c with c > 0 gives a < b. */
  lemma MultiplyCancel(a: int, b: int, c: int)
    requires c > 0 && a * c < b * c
    ensures a < b
  {
    assert (b - a) * c == b * c - a * c;
  }

  /** Different indices give different texels. */
  lemma TexelOfInjective(v: int, w: int, side: nat)
    requires side > 0 && 0 <= v < side * side && 0 <= w < side * side
    requires TexelOf(v, side) == TexelOf(w, side)
    ensures v == w
  {
    var a, b := TexelOf(v, side), TexelOf(w, side);
    assert v == a.y * side + a.x && w == b.y * side + b.x;
  }

  /** The place of index `i * side + j` in `Descending(side)`, when rows
      i + 1 .. side - 1 and the columns j + 1 .. side - 1 of row i were
      pushed before it. */
  lemma PushedBefore(side: nat, i: int, j: int)
    requires 0 <= i < side && -1 <= j < side
    ensures 0 <= (side - 1 - i) * side + (side - 1 - j) <= side * side
    ensures j == -1 ==> (side - 1 - i) * side + (side - 1 - j) == (side - 1 - (i - 1)) * side
    ensures j >= 0 ==> (side - 1 - i) * side + (side - 1 - j) < side * side
                       && Descending(side)[(side - 1 - i) * side + (side - 1 - j)] == i * side + j
  {
    var a := side - 1 - i;
    NonNegativeProduct(a, side);
    NonNegativeProduct(i, side);
    assert a * side == side * side - side - i * side;
    assert (side - 1 - (i - 1)) * side == a * side + side;
  }

  /** Products of non-negative integers are non-negative. */
  lemma NonNegativeProduct(a: int, b: int)
    requires a >= 0 && b >= 0
    ensures a * b >= 0
  {
  }

  // ---------------------------------------------------------------------
  // PrimitivesRenderer
  // ---------------------------------------------------------------------

  /** `PrimitivesRenderer`: the stack of free texel indices and the clock
      of the simulation. */
  class PrimitivesRenderer {
    const bufferSide: nat
    var indices: seq<int>
    var t: real

    /** Every index on the stack names a texel of the texture. */
    ghost predicate Valid()
      reads this
    {
      forall k :: 0 <= k < |indices| ==> 0 <= indices[k] < bufferSide * bufferSide
    }

    /** The clock starts at 0 and every texel index is free. */
    constructor (bufferSide: nat)
      ensures this.bufferSide == bufferSide && t == 0.0
      ensures indices == Descending(bufferSide)
      ensures Valid()
    {
      this.bufferSide := bufferSide;
      t := 0.0;
      indices := [];
      new;
      InitIndicesArray();
    }

    /** `initIndicesArray`: pushes the texel indices, rows and columns from
        the last down to the first. */
    method InitIndicesArray()
      modifies this`indices
      ensures indices == old(indices) + Descending(bufferSide)
    {
      var n := bufferSide;
      ghost var d := Descending(n);
      var i: int := n - 1;
      while i >= 0
        invariant -1 <= i <= n - 1
        invariant 0 <= (n - 1 - i) * n <= n * n
        invariant indices == old(indices) + d[..(n - 1 - i) * n]
      {
        var j: int := n - 1;
        PushedBefore(n, i, j);
        while j >= 0
          invariant -1 <= j <= n - 1
          invariant 0 <= (n - 1 - i) * n + (n - 1 - j) <= n * n
          invariant indices == old(indices) + d[..(n - 1 - i) * n + (n - 1 - j)]
        {
          var m := (n - 1 - i) * n + (n - 1 - j);
          PushedBefore(n, i, j);
          assert d[..m + 1] == d[..m] + [i * n + j];
          indices := indices + [i * n + j];
          j := j - 1;
          PushedBefore(n, i, j);
        }
        PushedBefore(n, i, -1);
        i := i - 1;
      }
      assert d[..n * n] == d;
    }

    /** `getAvailableIndex`: pops the top index and splits it into column
        and row; an empty stack pops `undefined`, which gives NaN for both. */
    method GetAvailableIndex() returns (texel: Texel)
      requires Valid()
      modifies this`indices
      ensures Valid()
      ensures old(indices) == [] ==> texel == NaNTexel && indices == []
      ensures old(indices) != [] ==>
                var v := old(indices)[|old(indices)| - 1];
                && indices == old(indices)[..|old(indices)| - 1]
                && texel == TexelOf(v, bufferSide)
                && texel.Texel? && 0 <= texel.x < bufferSide && 0 <= texel.y < bufferSide
                && texel.y * bufferSide + texel.x == v
    {
      if indices == [] {
        return NaNTexel;
      }
      var v := indices[|indices| - 1];
      indices := indices[..|indices| - 1];
      texel := TexelOf(v, bufferSide);
    }

    /** `update(dt)`: the clock advances by dt and never goes below 0. */
    method Update(dt: real)
      modifies this`t
      ensures t >= 0.0
      ensures old(t) + dt >= 0.0 ==> t == old(t) + dt
      ensures old(t) + dt < 0.0 ==> t == 0.0
    {
      t := t + dt;
      if t < 0.0 {
        t := 0.0;
      }
    }
  }

  /** Right after `initIndicesArray`, successive pops give the flat indices
      0, 1, 2, ...: the k-th pop (from 0) returns the texel of index k. */
  lemma PopsAscend(side: nat, k: nat)
    requires side > 0 && k < side * side
    ensures var d := Descending(side);
            var rest := d[..|d| - k];
            rest[|rest| - 1] == k && TexelOf(rest[|rest| - 1], side) == Texel(k % side, k / side)
  {
  }

  // ---------------------------------------------------------------------
  // ParticleEmitter
  // ---------------------------------------------------------------------

  /** The particle count of an emitter when none (0 or `undefined`) is given. */
  const DefaultMaxParticles: nat := 100000

  /** `maxParticles || 100000`. */
  function MaxParticles(maxParticles: nat): (m: nat)
    ensures m > 0
    ensures maxParticles > 0 ==> m == maxParticles
  {
    if maxParticles == 0 then DefaultMaxParticles else maxParticles
  }

  /** `ParticleEmitter`: a ring of particle slots, each with a texel index
      (two floats) and a start position (three floats). */
  class ParticleEmitter {
    const maxCount: nat
    const renderer: PrimitivesRenderer
    const texWidth: int
    const idx: array<Scalar>
    const positions: array<real>
    var cursor: nat

    /** The cursor names a slot and both attribute arrays hold one entry
        per slot. */
    ghost predicate Valid()
      reads this, renderer
    {
      && cursor < maxCount
      && idx.Length == 2 * maxCount
      && positions.Length == 3 * maxCount
      && renderer.Valid()
    }

    /** A new emitter: `maxParticles || 100000` slots, all zero, its own
        renderer, and the texture width `_getNextPowerTwo(bufferSide)`. */
    constructor (maxParticles: nat, bufferSide: nat)
      ensures Valid() && fresh(renderer) && fresh(idx) && fresh(positions)
      ensures maxCount == MaxParticles(maxParticles) && cursor == 0
      ensures renderer.bufferSide == bufferSide && renderer.indices == Descending(bufferSide)
      ensures PowerOfTwo(texWidth) && texWidth >= bufferSide
      ensures forall k :: 0 <= k < idx.Length ==> idx[k] == Num(0.0)
      ensures forall k :: 0 <= k < positions.Length ==> positions[k] == 0.0
    {
      var m := MaxParticles(maxParticles);
      var r := new PrimitivesRenderer(bufferSide);
      var w := NextPowerTwo(bufferSide);
      maxCount, renderer, texWidth := m, r, w;
      idx := new Scalar[2 * m](_ => Num(0.0));
      positions := new real[3 * m](_ => 0.0);
      cursor := 0;
    }

    /** `spawnParticle(position)`: the slot at the cursor gets the next free
        texel and the position; nothing else is written, and the cursor
        moves on, wrapping to 0 after the last slot. */
    method SpawnParticle(position: Vec3)
      requires Valid()
      modifies this`cursor, renderer`indices, idx, positions
      ensures Valid()
      ensures cursor == if old(cursor) + 1 == maxCount then 0 else old(cursor) + 1
      ensures positions[..] == Splice(old(positions[..]), 3 * old(cursor), position.Floats())
      ensures var texel := if old(renderer.indices) == [] then NaNTexel
                           else TexelOf(old(renderer.indices)[|old(renderer.indices)| - 1], renderer.bufferSide);
              idx[..] == Splice(old(idx[..]), 2 * old(cursor), TexelFloats(texel))
      ensures old(renderer.indices) != [] ==> renderer.indices == old(renderer.indices)[..|old(renderer.indices)| - 1]
      ensures old(renderer.indices) == [] ==> renderer.indices == []
    {
      var i := cursor;
      var texel := renderer.GetAvailableIndex();
      PutPair(idx, 2 * i, TexelFloats(texel));
      var _ := PutVec3(positions, 3 * i, position);
      cursor := cursor + 1;
      if cursor >= maxCount {
        cursor := 0;
      }
    }

    /** The `for` loop of `_spawnParticleEmitter` on a new emitter: n
        particles spawned at `position`, which fill slots 0 .. n - 1 with
        the position and with the texels of indices 0 .. n - 1 popped in
        turn. */
    method SpawnFresh(position: Vec3, n: nat)
      requires Valid() && cursor == 0 && n <= maxCount
      requires positions[..] == SpawnedPositions(position, 0, maxCount)
      requires idx[..] == SpawnedTexels(renderer.bufferSide, 0, maxCount)
      requires renderer.indices == Descending(renderer.bufferSide)
      modifies this`cursor, renderer`indices, idx, positions
      ensures Valid() && cursor == n % maxCount
      ensures positions[..] == SpawnedPositions(position, n, maxCount)
      ensures idx[..] == SpawnedTexels(renderer.bufferSide, n, maxCount)
      ensures var d := Descending(renderer.bufferSide);
              renderer.indices == d[..|d| - Min(n, |d|)]
    {
      ghost var d := Descending(renderer.bufferSide);
      assert d[..|d| - Min(0, |d|)] == d;
      var i := 0;
      while i < n
        invariant 0 <= i <= n
        invariant Valid() && cursor == (if i == maxCount then 0 else i)
        invariant positions[..] == SpawnedPositions(position, i, maxCount)
        invariant idx[..] == SpawnedTexels(renderer.bufferSide, i, maxCount)
        invariant renderer.indices == d[..|d| - Min(i, |d|)]
      {
        NextPop(renderer.bufferSide, i);
        SpawnedPositionsStep(position, i, maxCount);
        SpawnedTexelsStep(renderer.bufferSide, i, maxCount);
        SpawnParticle(position);
        i := i + 1;
      }
      if n < maxCount {
        ModUnique(n, maxCount, 0, n);
      } else {
        ModUnique(n, maxCount, 1, 0);
      }
    }
  }

  /** The two floats a texel is stored as. */
  function TexelFloats(t: Texel): (r: seq<Scalar>)
    ensures |r| == 2
    ensures t.Texel? ==> r == [Num(t.x as real), Num(t.y as real)]
    ensures t.NaNTexel? ==> r == [NaN, NaN]
  {
    match t
    case Texel(x, y) => [Num(x as real), Num(y as real)]
    case NaNTexel => [NaN, NaN]
  }

  /** Two writes at `at` and `at + 1`. */
  method PutPair(a: array<Scalar>, at: nat, w: seq<Scalar>)
    requires |w| == 2 && at + 2 <= a.Length
    modifies a
    ensures a[..] == Splice(old(a[..]), at, w)
  {
    a[at] := w[0];
    a[at + 1] := w[1];
  }


  /** The texel the pop numbered j (from 0) of a fresh stack gives: the
      texel of index j, or NaN once the side² indices are used up. */
  function TexelAt(j: nat, side: nat): Texel {
    if side > 0 && j < side * side then TexelOf(j, side) else NaNTexel
  }

  /** The position floats of an emitter with m slots after n spawns at
      `position`: slots 0 .. n - 1 hold it, the others are still 0. */
  function SpawnedPositions(position: Vec3, n: nat, m: nat): (r: seq<real>)
    requires n <= m
    ensures |r| == 3 * m
  {
    seq(3 * m, k requires 0 <= k < 3 * m => if k < 3 * n then position.Floats()[k % 3] else 0.0)
  }

  /** The texel floats of an emitter with m slots after n spawns from a
      fresh stack of a side × side texture: slot s holds `TexelAt(s, side)`
      for s < n, the others are still 0. */
  function SpawnedTexels(side: nat, n: nat, m: nat): (r: seq<Scalar>)
    requires n <= m
    ensures |r| == 2 * m
  {
    seq(2 * m, k requires 0 <= k < 2 * m => if k < 2 * n then TexelFloats(TexelAt(k / 2, side))[k % 2] else Num(0.0))
  }

  /** Spawning into slot i after i spawns writes the next slot's position. */
  lemma SpawnedPositionsStep(position: Vec3, i: nat, m: nat)
    requires i < m
    ensures Splice(SpawnedPositions(position, i, m), 3 * i, position.Floats()) == SpawnedPositions(position, i + 1, m)
  {
    var a := Splice(SpawnedPositions(position, i, m), 3 * i, position.Floats());
    var b := SpawnedPositions(position, i + 1, m);
    forall k | 3 * i <= k < 3 * i + 3
      ensures a[k] == b[k]
    {
      ModUnique(k, 3, i, k - 3 * i);
    }
  }

  /** Spawning into slot i after i spawns writes the texel of the i-th pop. */
  lemma SpawnedTexelsStep(side: nat, i: nat, m: nat)
    requires i < m
    ensures Splice(SpawnedTexels(side, i, m), 2 * i, TexelFloats(TexelAt(i, side))) == SpawnedTexels(side, i + 1, m)
  {
    var a := Splice(SpawnedTexels(side, i, m), 2 * i, TexelFloats(TexelAt(i, side)));
    var b := SpawnedTexels(side, i + 1, m);
    forall k | 2 * i <= k < 2 * i + 2
      ensures a[k] == b[k]
    {
      ModUnique(k, 2, i, k - 2 * i);
      DivUnique(k, 2, i, k - 2 * i);
    }
  }

  /** After i pops of a fresh stack, the next pop gives `TexelAt(i, side)`
      and leaves one index fewer. */
  lemma NextPop(side: nat, i: nat)
    ensures var d := Descending(side);
            var rest := d[..|d| - Min(i, |d|)];
            && (rest == [] ==> TexelAt(i, side) == NaNTexel && Min(i + 1, |d|) == |d|)
            && (rest != [] ==> TexelOf(rest[|rest| - 1], side) == TexelAt(i, side)
                               && rest[..|rest| - 1] == d[..|d| - Min(i + 1, |d|)])
  {
    var d := Descending(side);
    if i < |d| {
      assert side > 0;
      PopsAscend(side, i);
    }
  }

  function Min(a: nat, b: nat): nat {
    if a < b then a else b
  }

  // ---------------------------------------------------------------------
  // ParticleTool
  // ---------------------------------------------------------------------

  /** The number of random values the tool preloads. */
  const PoolSize: nat := 100000

  /** The options the model depends on, with their defaults. */
  datatype Options = Options(maxEmitters: int, initialParticlesPerEmitter: nat, bufferSide: nat)

  const DefaultOptions := Options(200, 20 * 20, 20)

  /** The index `getRandom` moves to from i, in a pool of n values:
      pre-increment, back to 1 at the end. */
  function NextRandomIndex(i: int, n: nat): (j: int)
    requires n >= 2
    ensures 0 <= i < n ==> 1 <= j < n
  {
    if i + 1 >= n then 1 else i + 1
  }

  /** The index after k calls from the index 0 the constructor leaves. */
  function RandomIndexAfter(k: nat, n: nat): int
    requires n >= 2
  {
    if k == 0 then 0 else NextRandomIndex(RandomIndexAfter(k - 1, n), n)
  }

  /** The k-th call (from 1) reads slot 1 + (k - 1) mod (n - 1): the pool
      is cycled through, and slot 0 is never read. */
  lemma {:induction false} RandomIndexCycles(k: nat, n: nat)
    requires n >= 2 && k >= 1
    ensures RandomIndexAfter(k, n) == 1 + (k - 1) % (n - 1)
  {
    if k > 1 {
      RandomIndexCycles(k - 1, n);
      var prev := 1 + (k - 2) % (n - 1);
      if prev + 1 >= n {
        assert (k - 2) % (n - 1) == n - 2;
        assert (k - 1) % (n - 1) == 0 by {
          ModNext(k - 2, n - 1);
        }
      } else {
        ModNext(k - 2, n - 1);
      }
    }
  }

  /** One step of a counter modulo m. */
  lemma ModNext(a: nat, m: nat)
    requires m >= 1
    ensures (a + 1) % m == if a % m + 1 == m then 0 else a % m + 1
  {
    var q := a / m;
    if a % m + 1 == m {
      ModUnique(a + 1, m, q + 1, 0);
    } else {
      ModUnique(a + 1, m, q, a % m + 1);
    }
  }

  /** The remainder is the only r in [0, m) with x == q × m + r. */
  lemma ModUnique(x: int, m: nat, q: int, r: int)
    requires m >= 1 && x == q * m + r && 0 <= r < m
    ensures x % m == r
  {
    var q', r' := x / m, x % m;
    assert (q - q') * m == r' - r;
    MultipleOfAtLeast(q - q', m);
  }

  /** The quotient is the only q with x == q × m + r for an r in [0, m). */
  lemma DivUnique(x: int, m: nat, q: int, r: int)
    requires m >= 1 && x == q * m + r && 0 <= r < m
    ensures x / m == q
  {
    ModUnique(x, m, q, r);
    var q' := x / m;
    assert (q - q') * m == 0;
    MultipleOfAtLeast(q - q', m);
  }

  /** A non-zero multiple of m is at least m away from 0. */
  lemma MultipleOfAtLeast(d: int, m: int)
    requires m >= 1
    ensures d >= 1 ==> d * m >= m
    ensures d <= -1 ==> d * m <= -m
  {
    if d >= 1 {
      assert d * m == (d - 1) * m + m;
    } else if d <= -1 {
      assert d * m == (d + 1) * m - m;
    }
  }

  /** `ParticleTool`: the emitters created so far and the pool of random
      values. */
  class ParticleTool {
    const maxEmitters: int
    const particlesPerEmitter: nat
    const bufferSide: nat
    var emitters: seq<ParticleEmitter>
    var rand: seq<real>
    var randomIndex: int

    /** The pool is full and the index names one of its slots. */
    ghost predicate Valid()
      reads this
    {
      |rand| == PoolSize && 0 <= randomIndex < |rand|
    }

    /** The pool gets `random(k) - 0.5` for the k-th draw of `Math.random`
        (the draws are a parameter), and the index is left at 0. */
    constructor (options: Options, random: nat -> real)
      ensures Valid()
      ensures maxEmitters == options.maxEmitters && particlesPerEmitter == options.initialParticlesPerEmitter
      ensures bufferSide == options.bufferSide
      ensures emitters == [] && randomIndex == 0
      ensures forall k :: 0 <= k < PoolSize ==> rand[k] == random(k) - 0.5
    {
      maxEmitters := options.maxEmitters;
      particlesPerEmitter := options.initialParticlesPerEmitter;
      bufferSide := options.bufferSide;
      emitters := [];
      rand := [];
      new;
      randomIndex := PoolSize;
      while randomIndex > 0
        invariant 0 <= randomIndex <= PoolSize
        invariant emitters == []
        invariant |rand| == PoolSize - randomIndex
        invariant forall k :: 0 <= k < |rand| ==> rand[k] == random(k) - 0.5
      {
        rand := rand + [random(PoolSize - randomIndex) - 0.5];
        randomIndex := randomIndex - 1;
      }
      assert |rand| == PoolSize;
    }

    /** `getRandom`: moves the index on (back to 1 at the end of the pool)
        and returns the value there. */
    method GetRandom() returns (r: real)
      requires Valid()
      modifies this`randomIndex
      ensures Valid() && 1 <= randomIndex
      ensures randomIndex == NextRandomIndex(old(randomIndex), |rand|)
      ensures r == rand[randomIndex]
    {
      randomIndex := randomIndex + 1;
      if randomIndex >= |rand| {
        randomIndex := 1;
      }
      r := rand[randomIndex];
    }

    /** `_spawnParticleEmitter(data)`: once `_maxEmitters` emitters exist,
        nothing happens (the result is `undefined`); otherwise one new
        emitter is appended and `initialParticlesPerEmitter` particles are
        spawned in it at the given position. */
    method SpawnParticleEmitter(position: Vec3) returns (added: bool)
      modifies this`emitters
      ensures added <==> old(|emitters|) < maxEmitters
      ensures !added ==> emitters == old(emitters)
      ensures added ==>
                && |emitters| == old(|emitters|) + 1
                && emitters[..old(|emitters|)] == old(emitters)
                && fresh(emitters[|emitters| - 1])
                && emitters[|emitters| - 1].Valid()
                && emitters[|emitters| - 1].cursor == particlesPerEmitter % emitters[|emitters| - 1].maxCount
      ensures added ==>
                var c := emitters[|emitters| - 1];
                var d := Descending(bufferSide);
                && particlesPerEmitter <= c.maxCount
                && c.positions[..] == SpawnedPositions(position, particlesPerEmitter, c.maxCount)
                && c.idx[..] == SpawnedTexels(bufferSide, particlesPerEmitter, c.maxCount)
                && c.renderer.indices == d[..|d| - Min(particlesPerEmitter, |d|)]
      ensures old(|emitters|) <= maxEmitters ==> |emitters| <= maxEmitters
    {
      if |emitters| >= maxEmitters {
        return false;
      }
      var c := new ParticleEmitter(particlesPerEmitter, bufferSide);
      emitters := emitters + [c];
      assert c.positions[..] == SpawnedPositions(position, 0, c.maxCount);
      assert c.idx[..] == SpawnedTexels(bufferSide, 0, c.maxCount);
      c.SpawnFresh(position, particlesPerEmitter);
      added := true;
    }
  }
}
