/**
 * The particle field of the 3D scene: `count` particles stored as flat
 * `[x0, y0, z0, x1, ...]` buffers of positions, velocities and colours,
 * updated in place once per frame, particle by particle (a particle sees the
 * already-updated positions of the particles before it). Per particle: a
 * bounded cyclic scan for neighbours, short-range pair forces, an audio-driven
 * push, damping, and an inelastic bounce off the walls of the box [-10, 10]^3.
 * Also: the capped list of connection-line segments between close particles.
 *
 * `Math.sqrt` is a parameter `sqrt`. The pair force uses it as the source
 * does (its gates are on the distance `sqrt` returns); the neighbour scan and
 * the connection test are stated over the squared distance, and
 * `RadiusTestMatches` and `GateMatchesDistance` show that for a true root
 * the squared tests and the distance tests agree. The `Math.sin`/`Math.cos`
 * music terms and three.js's `setHSL` are parameters too.
 */
module Scene3D {
  import opened Common
  import opened JsNumber

  const ParticleCount: nat := 2000
  /** How many particles after a particle (cyclically) the neighbour scan looks at. */
  const CheckLimit: nat := 50
  const NeighborRadius: real := 2.0
  const WallDistance: real := 10.0
  const MaxConnections: nat := 500
  /** Squared length below which a connection line is drawn (1.5 squared). */
  const ConnectionSqRadius: real := 2.25

  // ------------------------------------------------------------ geometry

  /** The coordinates of particle `i` (zeros past the end of the buffer). */
  function Point(ps: seq<real>, i: nat): Vec3 {
    if 3 * i + 2 < |ps| then [ps[3 * i], ps[3 * i + 1], ps[3 * i + 2]] else [0.0, 0.0, 0.0]
  }

  /** The offset of a neighbour from the particle it acts on, per axis. */
  datatype Offset = Offset(dx: real, dy: real, dz: real)

  /** The squared length `dx * dx + dy * dy + dz * dz` of an offset. */
  function Norm2(d: Offset): real {
    d.dx * d.dx + d.dy * d.dy + d.dz * d.dz
  }

  /** The offset of particle `j` from particle `i`. */
  function OffsetOf(ps: seq<real>, i: nat, j: nat): Offset
    requires 3 * i + 2 < |ps| && 3 * j + 2 < |ps|
  {
    Offset(ps[3 * j] - ps[3 * i], ps[3 * j + 1] - ps[3 * i + 1], ps[3 * j + 2] - ps[3 * i + 2])
  }

  /** `distance < radius`, for a distance whose square is `sq`. */
  predicate Within(sq: real, radius: real) {
    radius > 0.0 && sq < radius * radius
  }

  /** For a true distance `s`, the squared test agrees with `s < radius`. */
  lemma RadiusTestMatches(s: real, radius: real)
    requires s >= 0.0
    ensures s < radius <==> Within(s * s, radius)
  {
    if radius > 0.0 {
      if s < radius {
        SquareLess(s, radius);
      } else if radius < s {
        SquareLess(radius, s);
      }
    }
  }

  lemma SquareLess(a: real, b: real)
    requires 0.0 <= a < b
    ensures a * a < b * b
  {
    PositiveProduct(b - a, b + a);
    assert b * b - a * a == (b - a) * (b + a);
  }

  lemma PositiveProduct(x: real, y: real)
    requires x > 0.0 && y > 0.0
    ensures x * y > 0.0
  {
  }

  // ---------------------------------------------------- neighbour scan specification

  function CheckCount(n: nat): nat {
    if n < CheckLimit then n else CheckLimit
  }

  /** The `k`-th particle examined for `index`: `(index + k + 1) % particleCount`. */
  function Candidate(index: nat, k: nat, n: nat): (c: nat)
    requires n > 0
    ensures c < n
  {
    (index + k + 1) % n
  }

  /** The neighbours found among the first `k` candidates, in examination order. */
  function NeighborsUpTo(ps: seq<real>, n: nat, index: nat, radius: real, k: nat): (r: seq<nat>)
    requires n > 0 && |ps| == 3 * n && index < n
    ensures |r| <= k
    ensures forall m :: 0 <= m < |r| ==> r[m] < n
  {
    if k == 0 then []
    else
      var prev := NeighborsUpTo(ps, n, index, radius, k - 1);
      var c := Candidate(index, k - 1, n);
      if Within(Norm2(OffsetOf(ps, index, c)), radius) then prev + [c] else prev
  }

  predicate IsNeighbor(ps: seq<real>, n: nat, index: nat, radius: real, j: nat)
    requires n > 0 && |ps| == 3 * n && index < n && j < n
  {
    Within(Norm2(OffsetOf(ps, index, j)), radius)
  }

  /**
   * An index is reported exactly when it is among the first `k` candidates and
   * lies within the radius.
   */
  lemma {:induction false} NeighborsExactly(ps: seq<real>, n: nat, index: nat, radius: real, k: nat, j: nat)
    requires n > 0 && |ps| == 3 * n && index < n && j < n
    ensures j in NeighborsUpTo(ps, n, index, radius, k) <==>
              IsNeighbor(ps, n, index, radius, j) && exists m :: 0 <= m < k && Candidate(index, m, n) == j
  {
    if k > 0 {
      NeighborsExactly(ps, n, index, radius, k - 1, j);
      if IsNeighbor(ps, n, index, radius, j) && exists m :: 0 <= m < k && Candidate(index, m, n) == j {
        var m :| 0 <= m < k && Candidate(index, m, n) == j;
        if m < k - 1 {
          assert exists m' :: 0 <= m' < k - 1 && Candidate(index, m', n) == j;
        }
      }
    }
  }

  /** The candidates are distinct while fewer than `n` are examined. */
  lemma CandidatesDistinct(index: nat, n: nat, a: nat, b: nat)
    requires n > 0 && index < n && a < b < n
    ensures Candidate(index, a, n) != Candidate(index, b, n)
  {
    ModBelowTwice(index + a + 1, n);
    ModBelowTwice(index + b + 1, n);
  }

  /** With more than 50 particles a particle never examines itself. */
  lemma NoSelfCandidate(index: nat, n: nat, k: nat)
    requires n > CheckLimit && index < n && k < CheckLimit
    ensures Candidate(index, k, n) != index
  {
    ModBelowTwice(index + k + 1, n);
  }

  /** Below `2 * n`, taking the remainder subtracts `n` at most once. */
  lemma ModBelowTwice(x: int, n: int)
    requires 0 <= x < 2 * n
    ensures x % n == if x < n then x else x - n
  {
  }

  /** Hence the neighbour list never contains the particle itself. */
  lemma NoSelfNeighbor(ps: seq<real>, n: nat, index: nat, radius: real)
    requires n > CheckLimit && |ps| == 3 * n && index < n
    ensures index !in NeighborsUpTo(ps, n, index, radius, CheckCount(n))
  {
    NeighborsExactly(ps, n, index, radius, CheckCount(n), index);
    forall m | 0 <= m < CheckCount(n)
      ensures Candidate(index, m, n) != index
    {
      NoSelfCandidate(index, n, m);
    }
  }

  // -------------------------------------------------------------- forces

  /** Three values, one per axis (or per colour channel). */
  datatype Triple = Triple(x: real, y: real, z: real) {
    function At(a: nat): real
      requires a < 3
    {
      if a == 0 then x else if a == 1 then y else z
    }
  }

  /** A force on one particle, one component per axis. */
  datatype Force = Force(x: real, y: real, z: real)

  const NoForce: Force := Force(0.0, 0.0, 0.0)

  function Plus(a: Force, b: Force): Force {
    Force(a.x + b.x, a.y + b.y, a.z + b.z)
  }

  /**
   * The pull of one neighbour at offset `d` (neighbour minus self), with
   * `distance = sqrt(dx * dx + dy * dy + dz * dz)`: nothing unless
   * 0 < distance < 2; otherwise the unit direction times -0.001 (repulsion)
   * below distance 1 and 0.0005 (attraction) from 1 on.
   */
  function PairForce(d: Offset, sqrt: real -> real): (r: Force)
    ensures !(0.0 < sqrt(Norm2(d)) < 2.0) ==> r == NoForce
  {
    var distance := sqrt(Norm2(d));
    if 0.0 < distance < 2.0 then
      var force := if distance < 1.0 then -0.001 else 0.0005;
      Force(Pull(d.dx, distance, force), Pull(d.dy, distance, force), Pull(d.dz, distance, force))
    else
      NoForce
  }

  /** One component of the pull: `(x / distance) * force`. */
  function Pull(x: real, distance: real, force: real): real
    requires distance > 0.0
  {
    x / distance * force
  }

  /** The pull of particle `j` on particle `i`. */
  function PullOf(ps: seq<real>, i: nat, j: nat, sqrt: real -> real): Force
    requires 3 * i + 2 < |ps| && 3 * j + 2 < |ps|
  {
    PairForce(OffsetOf(ps, i, j), sqrt)
  }

  /** A particle outside the force range exerts no pull. */
  lemma FarPull(ps: seq<real>, i: nat, j: nat, sqrt: real -> real)
    requires 3 * i + 2 < |ps| && 3 * j + 2 < |ps|
    requires !(0.0 < sqrt(Norm2(OffsetOf(ps, i, j))) < 2.0)
    ensures PullOf(ps, i, j, sqrt) == NoForce
  {
  }

  /**
   * Inside the force range every component of the pull points away from the
   * neighbour (repulsion) below distance 1, and towards it from 1 on.
   */
  lemma PairForceDirection(d: Offset, sqrt: real -> real)
    ensures var r, distance := PairForce(d, sqrt), sqrt(Norm2(d));
            0.0 < distance < 1.0 ==> r.x * d.dx <= 0.0 && r.y * d.dy <= 0.0 && r.z * d.dz <= 0.0
    ensures var r, distance := PairForce(d, sqrt), sqrt(Norm2(d));
            1.0 <= distance < 2.0 ==> r.x * d.dx >= 0.0 && r.y * d.dy >= 0.0 && r.z * d.dz >= 0.0
  {
    var distance := sqrt(Norm2(d));
    if 0.0 < distance < 2.0 {
      var force := if distance < 1.0 then -0.001 else 0.0005;
      var r := PairForce(d, sqrt);
      PullSign(d.dx, distance, force, r.x);
      PullSign(d.dy, distance, force, r.y);
      PullSign(d.dz, distance, force, r.z);
    }
  }

  lemma PullSign(x: real, s: real, m: real, r: real)
    requires s > 0.0 && r == x / s * m
    ensures m < 0.0 ==> r * x <= 0.0
    ensures m > 0.0 ==> r * x >= 0.0
  {
    var u := x / s;
    assert u * s == x;
    SameSign(u, s, x);
    ProductSign(u, m, r);
    ProductSign2(u, x, r, m);
  }

  lemma SameSign(u: real, s: real, x: real)
    requires s > 0.0 && u * s == x
    ensures u * x >= 0.0
  {
    assert u * x == u * u * s;
    assert u * u >= 0.0;
  }

  lemma ProductSign(u: real, m: real, r: real)
    requires r == u * m
    ensures r * u == u * u * m
  {
  }

  lemma ProductSign2(u: real, x: real, r: real, m: real)
    requires r == u * m && u * x >= 0.0
    ensures m < 0.0 ==> r * x <= 0.0
    ensures m > 0.0 ==> r * x >= 0.0
  {
    assert r * x == (u * x) * m;
  }

  /**
   * For a true square root, a neighbour at the same place exerts no pull, and
   * inside the force range the pull has length 0.001 below distance 1 and
   * 0.0005 from 1 on: its squared length is the force factor squared.
   */
  lemma PairForceMagnitude(d: Offset, sqrt: real -> real)
    requires sqrt(Norm2(d)) >= 0.0 && sqrt(Norm2(d)) * sqrt(Norm2(d)) == Norm2(d)
    ensures Norm2(d) == 0.0 ==> PairForce(d, sqrt) == NoForce
    ensures var r, distance := PairForce(d, sqrt), sqrt(Norm2(d));
            var m := if distance < 1.0 then -0.001 else 0.0005;
            0.0 < distance < 2.0 ==> r.x * r.x + r.y * r.y + r.z * r.z == m * m
  {
    var distance := sqrt(Norm2(d));
    if 0.0 < distance < 2.0 {
      var m := if distance < 1.0 then -0.001 else 0.0005;
      var r := PairForce(d, sqrt);
      NormNonZero(distance, Norm2(d));
      ScaledSquare(d.dx, distance, m, Norm2(d), m * m, r.x);
      ScaledSquare(d.dy, distance, m, Norm2(d), m * m, r.y);
      ScaledSquare(d.dz, distance, m, Norm2(d), m * m, r.z);
      CancelNorm(r.x, r.y, r.z, d.dx, d.dy, d.dz, Norm2(d), m * m);
    }
  }

  /** A positive length has a non-zero square. */
  lemma NormNonZero(s: real, n: real)
    requires s > 0.0 && s * s == n
    ensures n != 0.0
  {
    calc {
      n;
    ==
      s * s;
    > { PositiveProduct(s, s); }
      0.0;
    }
  }

  /** `(x / s) * s` is `x` again. */
  lemma DivBack(x: real, s: real)
    requires s > 0.0
    ensures (x / s) * s == x
  {
  }

  lemma SquareRegroup(u: real, s: real, m: real, r: real)
    requires r == u * m
    ensures (r * r) * (s * s) == ((u * s) * (u * s)) * (m * m)
  {
  }

  /** The square of `x / s * m`, scaled back by `n = s * s`, is `x * x * q` for `q = m * m`. */
  lemma ScaledSquare(x: real, s: real, m: real, n: real, q: real, r: real)
    requires s > 0.0 && s * s == n && m * m == q && r == x / s * m
    ensures r * r * n == x * x * q
  {
    DivBack(x, s);
    SquareRegroup(x / s, s, m, r);
  }

  lemma ScaleSum(x: real, y: real, z: real, n: real, q: real)
    requires n == x * x + y * y + z * z
    ensures n * q == x * x * q + y * y * q + z * z * q
  {
  }

  /** Summing the scaled squares and cancelling the non-zero squared length `n`. */
  lemma CancelNorm(a: real, b: real, c: real, x: real, y: real, z: real, n: real, q: real)
    requires n != 0.0 && n == x * x + y * y + z * z
    requires a * a * n == x * x * q && b * b * n == y * y * q && c * c * n == z * z * q
    ensures a * a + b * b + c * c == q
  {
    ScaleSum(x, y, z, n, q);
  }

  /** For a true distance `s`, the squared gates agree with the distance gates. */
  lemma GateMatchesDistance(s: real)
    requires s >= 0.0
    ensures (0.0 < s < 2.0) <==> (0.0 < s * s < 4.0)
    ensures s < 1.0 <==> s * s < 1.0
  {
    RadiusTestMatches(s, 2.0);
    RadiusTestMatches(s, 1.0);
    if s > 0.0 {
      PositiveProduct(s, s);
    }
  }

  /** The summed pull of the listed neighbours on particle `i`, in list order. */
  function ForceSum(ps: seq<real>, n: nat, i: nat, nbrs: seq<nat>, sqrt: real -> real): Force
    requires |ps| == 3 * n && i < n && forall m :: 0 <= m < |nbrs| ==> nbrs[m] < n
  {
    if nbrs == [] then NoForce
    else Plus(ForceSum(ps, n, i, nbrs[..|nbrs| - 1], sqrt), PullOf(ps, i, nbrs[|nbrs| - 1], sqrt))
  }

  /** Extending the list of neighbours by one adds that neighbour's pull. */
  lemma ForceSumStep(ps: seq<real>, n: nat, i: nat, nbrs: seq<nat>, k: nat, sqrt: real -> real)
    requires |ps| == 3 * n && i < n && forall m :: 0 <= m < |nbrs| ==> nbrs[m] < n
    requires k < |nbrs|
    ensures ForceSum(ps, n, i, nbrs[..k + 1], sqrt) == Plus(ForceSum(ps, n, i, nbrs[..k], sqrt), PullOf(ps, i, nbrs[k], sqrt))
  {
    assert nbrs[..k + 1][..k] == nbrs[..k];
  }

  /**
   * The same sum taken over the first `k` candidates directly: a candidate
   * contributes its pull when it lies within the neighbour radius.
   */
  function ForceFrom(ps: seq<real>, n: nat, i: nat, k: nat, sqrt: real -> real): Force
    requires |ps| == 3 * n && i < n && n > 0
  {
    if k == 0 then NoForce
    else
      var c := Candidate(i, k - 1, n);
      Plus(ForceFrom(ps, n, i, k - 1, sqrt),
           if Within(Norm2(OffsetOf(ps, i, c)), NeighborRadius) then PullOf(ps, i, c, sqrt) else NoForce)
  }

  /** Summing the pulls of the listed neighbours is summing over the candidates within the radius. */
  lemma {:induction false} ForceOfNeighbors(ps: seq<real>, n: nat, i: nat, k: nat, sqrt: real -> real)
    requires |ps| == 3 * n && i < n && n > 0
    ensures ForceSum(ps, n, i, NeighborsUpTo(ps, n, i, NeighborRadius, k), sqrt) == ForceFrom(ps, n, i, k, sqrt)
  {
    if k > 0 {
      ForceOfNeighbors(ps, n, i, k - 1, sqrt);
      var prev := NeighborsUpTo(ps, n, i, NeighborRadius, k - 1);
      var c := Candidate(i, k - 1, n);
      if Within(Norm2(OffsetOf(ps, i, c)), NeighborRadius) {
        assert (prev + [c])[..|prev|] == prev;
      }
    }
  }

  /** With no neighbour within the force range, the summed pull is zero. */
  lemma {:induction false} FarNeighborsNoForce(ps: seq<real>, n: nat, i: nat, nbrs: seq<nat>, sqrt: real -> real)
    requires |ps| == 3 * n && i < n && forall m :: 0 <= m < |nbrs| ==> nbrs[m] < n
    requires forall m :: 0 <= m < |nbrs| ==> !(0.0 < sqrt(Norm2(OffsetOf(ps, i, nbrs[m]))) < 2.0)
    ensures ForceSum(ps, n, i, nbrs, sqrt) == NoForce
  {
    if nbrs != [] {
      var prev, j := nbrs[..|nbrs| - 1], nbrs[|nbrs| - 1];
      assert forall m :: 0 <= m < |prev| ==> prev[m] == nbrs[m];
      FarNeighborsNoForce(ps, n, i, prev, sqrt);
      FarPull(ps, i, j, sqrt);
    }
  }

  // ------------------------------------------------------ per-axis motion

  /**
   * One axis of one particle: velocity += (force + music) * delta, then
   * damping by 0.99, then position += velocity; a position beyond the wall
   * is put on the wall (its sign kept) and the velocity reversed and scaled
   * by 0.8.
   */
  function AxisStep(p: real, v: real, force: real, music: real, delta: real): (r: (real, real))
    ensures -WallDistance <= r.0 <= WallDistance
    ensures var v1 := (v + (force + music) * delta) * 0.99;
            var p1 := p + v1;
            && (-WallDistance <= p1 <= WallDistance ==> r == (p1, v1))
            && (p1 > WallDistance ==> r == (WallDistance, v1 * -0.8))
            && (p1 < -WallDistance ==> r == (-WallDistance, v1 * -0.8))
  {
    var v1 := (v + (force + music) * delta) * 0.99;
    var p1 := p + v1;
    if Abs(p1) > WallDistance then (Sign(p1) * WallDistance, v1 * -0.8) else (p1, v1)
  }

  // ------------------------------------------------------- the whole frame

  /** What a frame depends on besides the buffers. */
  datatype Frame = Frame(
    features: AudioFeatures,
    delta: real,
    trig: seq<Triple>,
    sqrt: real -> real,
    setHsl: HslColor -> Triple)

  /** The music push on a particle from its three trigonometric samples. */
  function MusicForce(f: AudioFeatures, trig: Triple): Force {
    Force(trig.x * (f.volume / 100.0) * 0.01,
          trig.y * (f.bpm / 120.0) * 0.01,
          trig.z * ((f.pitch - 220.0) / 660.0) * 0.01)
  }

  datatype HslColor = HslColor(hue: real, saturation: real, lightness: real)

  /** The colour handed to `setHSL`: hue, saturation and lightness from the audio. */
  function ParticleHsl(f: AudioFeatures): HslColor {
    var pitchInfluence := (f.pitch - 220.0) / 660.0;
    HslColor((pitchInfluence + 1.0) * 0.5, f.volume / 100.0, 0.5 + (f.bpm / 120.0) * 0.5)
  }

  /** The colour every particle receives this frame. */
  function FrameColor(fr: Frame): Triple {
    fr.setHsl(ParticleHsl(fr.features))
  }

  /** A frame for `n` particles: one trigonometric sample per particle. */
  predicate FrameFits(fr: Frame, n: nat) {
    |fr.trig| == n
  }

  datatype Buffers = Buffers(pos: seq<real>, vel: seq<real>, col: seq<real>)

  predicate WellFormed(b: Buffers, n: nat) {
    n > 0 && |b.pos| == 3 * n && |b.vel| == 3 * n && |b.col| == 3 * n
  }

  /** `s` with the three slots of particle `i` replaced by `v`. */
  function Put3(s: seq<real>, i: nat, v: Triple): (r: seq<real>)
    requires 3 * i + 2 < |s|
    ensures |r| == |s|
  {
    s[3 * i := v.x][3 * i + 1 := v.y][3 * i + 2 := v.z]
  }

  lemma Put3Slots(s: seq<real>, i: nat, v: Triple)
    requires 3 * i + 2 < |s|
    ensures forall k :: 0 <= k < |s| && !(3 * i <= k < 3 * i + 3) ==> Put3(s, i, v)[k] == s[k]
    ensures forall k :: 3 * i <= k < 3 * i + 3 ==> Put3(s, i, v)[k] == v.At(k - 3 * i)
  {
  }

  /**
   * Particle `i`'s update when the total pull on it is `force`: the music
   * push, the motion of each axis, and the frame colour.
   */
  function Advance(b: Buffers, n: nat, i: nat, fr: Frame, force: Force): (r: Buffers)
    requires WellFormed(b, n) && i < n && FrameFits(fr, n)
    ensures WellFormed(r, n)
  {
    var music := MusicForce(fr.features, fr.trig[i]);
    var x := AxisStep(b.pos[3 * i], b.vel[3 * i], force.x, music.x, fr.delta);
    var y := AxisStep(b.pos[3 * i + 1], b.vel[3 * i + 1], force.y, music.y, fr.delta);
    var z := AxisStep(b.pos[3 * i + 2], b.vel[3 * i + 2], force.z, music.z, fr.delta);
    Buffers(Put3(b.pos, i, Triple(x.0, y.0, z.0)), Put3(b.vel, i, Triple(x.1, y.1, z.1)), Put3(b.col, i, FrameColor(fr)))
  }

  /** The buffers after particle `i`'s update, with the pull of its neighbours in `b`. */
  function Step(b: Buffers, n: nat, i: nat, fr: Frame): (r: Buffers)
    requires WellFormed(b, n) && i < n && FrameFits(fr, n)
    ensures WellFormed(r, n)
  {
    Advance(b, n, i, fr, ForceFrom(b.pos, n, i, CheckCount(n), fr.sqrt))
  }

  /**
   * Particle `i`'s update changes only its own three slots of each buffer,
   * puts its coordinates inside the box and gives it the frame colour,
   * whatever the pull on it.
   */
  lemma AdvanceFrame(b: Buffers, n: nat, i: nat, fr: Frame, force: Force)
    requires WellFormed(b, n) && i < n && FrameFits(fr, n)
    ensures var r := Advance(b, n, i, fr, force);
            && (forall k :: 0 <= k < 3 * n && !(3 * i <= k < 3 * i + 3) ==>
                  r.pos[k] == b.pos[k] && r.vel[k] == b.vel[k] && r.col[k] == b.col[k])
            && (forall k :: 3 * i <= k < 3 * i + 3 ==> -WallDistance <= r.pos[k] <= WallDistance)
            && (forall k :: 3 * i <= k < 3 * i + 3 ==> r.col[k] == FrameColor(fr).At(k - 3 * i))
  ensures var r, music := Advance(b, n, i, fr, force), MusicForce(fr.features, fr.trig[i]);
            && (r.pos[3 * i], r.vel[3 * i]) == AxisStep(b.pos[3 * i], b.vel[3 * i], force.x, music.x, fr.delta)
            && (r.pos[3 * i + 1], r.vel[3 * i + 1]) == AxisStep(b.pos[3 * i + 1], b.vel[3 * i + 1], force.y, music.y, fr.delta)
            && (r.pos[3 * i + 2], r.vel[3 * i + 2]) == AxisStep(b.pos[3 * i + 2], b.vel[3 * i + 2], force.z, music.z, fr.delta)
  {
    var r := Advance(b, n, i, fr, force);
    Put3Slots(b.pos, i, Triple(r.pos[3 * i], r.pos[3 * i + 1], r.pos[3 * i + 2]));
    Put3Slots(b.vel, i, Triple(r.vel[3 * i], r.vel[3 * i + 1], r.vel[3 * i + 2]));
    Put3Slots(b.col, i, FrameColor(fr));
  }

  /** The first `k` particles are inside the box and have colour `c`. */
  predicate Settled(r: Buffers, n: nat, k: nat, c: Triple)
    requires WellFormed(r, n) && k <= n
  {
    forall m :: 0 <= m < 3 * k ==> -WallDistance <= r.pos[m] <= WallDistance && r.col[m] == c.At(m % 3)
  }

  /** The positions, velocities and colours of the particles from `k` on are as in `b`. */
  predicate Untouched(r: Buffers, b: Buffers, n: nat, k: nat)
    requires WellFormed(r, n) && WellFormed(b, n)
  {
    forall m :: 3 * k <= m < 3 * n ==> r.pos[m] == b.pos[m] && r.vel[m] == b.vel[m] && r.col[m] == b.col[m]
  }

  /** Updating particle `i` after the ones before it extends the settled prefix by one. */
  lemma AdvanceSettles(b: Buffers, n: nat, i: nat, fr: Frame, force: Force)
    requires WellFormed(b, n) && i < n && FrameFits(fr, n) && Settled(b, n, i, FrameColor(fr))
    ensures Settled(Advance(b, n, i, fr, force), n, i + 1, FrameColor(fr))
  {
    var r := Advance(b, n, i, fr, force);
    AdvanceFrame(b, n, i, fr, force);
    forall m | 0 <= m < 3 * (i + 1)
      ensures -WallDistance <= r.pos[m] <= WallDistance && r.col[m] == FrameColor(fr).At(m % 3)
    {
      if m >= 3 * i {
        ModBelowTwice3(m, i);
      }
    }
  }

  /** The buffers after particles `0 .. k-1` have been updated in order. */
  function Steps(b: Buffers, n: nat, k: nat, fr: Frame): (r: Buffers)
    requires WellFormed(b, n) && k <= n && FrameFits(fr, n)
    ensures WellFormed(r, n)
    decreases k, 0
  {
    if k == 0 then b else AfterTurn(b, n, k - 1, fr)
  }

  /**
   * The buffers right after particle `i`'s turn: its update applied to the
   * buffers the particles before it left behind (the buffers are updated in
   * place, so it meets their new positions).
   */
  function AfterTurn(b: Buffers, n: nat, i: nat, fr: Frame): (r: Buffers)
    requires WellFormed(b, n) && i < n && FrameFits(fr, n)
    ensures WellFormed(r, n)
    decreases i, 1
  {
    Step(Steps(b, n, i, fr), n, i, fr)
  }

  /** One more particle's update is one more step of the frame. */
  lemma StepsNext(start: Buffers, before: Buffers, after: Buffers, n: nat, i: nat, fr: Frame)
    requires WellFormed(start, n) && i < n && FrameFits(fr, n)
    requires before == Steps(start, n, i, fr) && after == Step(before, n, i, fr)
    ensures after == Steps(start, n, i + 1, fr)
  {
    assert AfterTurn(start, n, i, fr) == after;
  }

  /**
   * After the first `k` particles are updated, their coordinates are inside
   * the box and their colours are the frame colour.
   */
  lemma {:induction false} StepsSettle(b: Buffers, n: nat, k: nat, fr: Frame)
    requires WellFormed(b, n) && k <= n && FrameFits(fr, n)
    ensures Settled(Steps(b, n, k, fr), n, k, FrameColor(fr))
  {
    if k > 0 {
      StepsSettle(b, n, k - 1, fr);
      var before := Steps(b, n, k - 1, fr);
      assert Steps(b, n, k, fr) == AfterTurn(b, n, k - 1, fr) == Step(before, n, k - 1, fr);
      AdvanceSettles(before, n, k - 1, fr, ForceFrom(before.pos, n, k - 1, CheckCount(n), fr.sqrt));
    }
  }

  /** The positions, velocities and colours of the particles not yet reached are those of the frame's start. */
  lemma {:induction false} StepsLeaveRest(b: Buffers, n: nat, k: nat, fr: Frame)
    requires WellFormed(b, n) && k <= n && FrameFits(fr, n)
    ensures Untouched(Steps(b, n, k, fr), b, n, k)
  {
    if k > 0 {
      StepsLeaveRest(b, n, k - 1, fr);
      var before := Steps(b, n, k - 1, fr);
      assert Steps(b, n, k, fr) == AfterTurn(b, n, k - 1, fr) == Step(before, n, k - 1, fr);
      AdvanceFrame(before, n, k - 1, fr, ForceFrom(before.pos, n, k - 1, CheckCount(n), fr.sqrt));
      UntouchedTrans(Steps(b, n, k, fr), before, b, n, k);
    }
  }

  /** With every particle settled, every coordinate is in the box and every colour the frame colour. */
  lemma AllSettled(r: Buffers, n: nat, c: Triple)
    requires WellFormed(r, n) && Settled(r, n, n, c)
    ensures forall k :: 0 <= k < |r.pos| ==> -WallDistance <= r.pos[k] <= WallDistance
    ensures forall k :: 0 <= k < |r.col| ==> r.col[k] == c.At(k % 3)
  {
  }

  lemma UntouchedTrans(r: Buffers, mid: Buffers, b: Buffers, n: nat, k: nat)
    requires WellFormed(r, n) && WellFormed(mid, n) && WellFormed(b, n) && k > 0
    requires Untouched(r, mid, n, k) && Untouched(mid, b, n, k - 1)
    ensures Untouched(r, b, n, k)
  {
  }

  lemma ModBelowTwice3(m: int, i: int)
    requires i >= 0 && 3 * i <= m < 3 * i + 3
    ensures m % 3 == m - 3 * i
  {
  }

  // ---------------------------------------------------- neighbouring lines

  /** Whether particles `i` and `j` are joined by a line. */
  predicate Connected(ps: seq<real>, n: nat, i: nat, j: nat)
    requires |ps| == 3 * n && i < n && j < n
  {
    Norm2(OffsetOf(ps, i, j)) < ConnectionSqRadius
  }

  /** One past the last partner of particle `i`: `min(i + 6, particleCount)`. */
  function RowEnd(i: nat, n: nat): nat {
    if i + 6 < n then i + 6 else n
  }

  /** The connected pairs `(i, j')` with `i < j' < j`, in increasing `j'`. */
  function RowPairs(ps: seq<real>, n: nat, i: nat, j: nat): (r: seq<(nat, nat)>)
    requires |ps| == 3 * n && i < n && j <= RowEnd(i, n)
    decreases j
  {
    if j <= i + 1 then []
    else
      var k: nat := j - 1;
      var prev := RowPairs(ps, n, i, k);
      if Connected(ps, n, i, k) then prev + [(i, k)] else prev
  }

  /** Every connected pair of the row is listed. */
  lemma {:induction false} RowPairsComplete(ps: seq<real>, n: nat, i: nat, j: nat, k: nat)
    requires |ps| == 3 * n && i < n && j <= RowEnd(i, n) && i < k < j && Connected(ps, n, i, k)
    ensures (i, k) in RowPairs(ps, n, i, j)
    decreases j
  {
    if k < j - 1 {
      RowPairsComplete(ps, n, i, j - 1, k);
    } else {
      assert RowPairs(ps, n, i, j)[|RowPairs(ps, n, i, j)| - 1] == (i, k);
    }
  }

  /** All connected pairs whose first particle is below `i`, row by row. */
  function PairsBefore(ps: seq<real>, n: nat, i: nat): (r: seq<(nat, nat)>)
    requires |ps| == 3 * n && i <= n
  {
    if i == 0 then [] else PairsBefore(ps, n, i - 1) + RowPairs(ps, n, i - 1, RowEnd(i - 1, n))
  }

  /** A pair of row `i` joins `i` to a connected later particle of the row. */
  lemma {:induction false} RowPairsSound(ps: seq<real>, n: nat, i: nat, j: nat)
    requires |ps| == 3 * n && i < n && j <= RowEnd(i, n)
    ensures forall m :: 0 <= m < |RowPairs(ps, n, i, j)| ==>
              && RowPairs(ps, n, i, j)[m].0 == i && i < RowPairs(ps, n, i, j)[m].1 < j
              && Connected(ps, n, i, RowPairs(ps, n, i, j)[m].1)
    decreases j
  {
    if j > i + 1 {
      var k: nat := j - 1;
      RowPairsSound(ps, n, i, k);
      var prev, r := RowPairs(ps, n, i, k), RowPairs(ps, n, i, j);
      if Connected(ps, n, i, k) {
        assert r == prev + [(i, k)];
        forall m | 0 <= m < |r|
          ensures r[m].0 == i && i < r[m].1 < j && Connected(ps, n, i, r[m].1)
        {
          if m < |prev| {
            assert r[m] == prev[m];
          } else {
            assert r[m] == (i, k);
          }
        }
      } else {
        assert r == prev;
      }
    }
  }

  /** A pair `(a, b)` with `a < i`, `a < b <= a + 5`, `b < n` and the two particles connected. */
  predicate ProperPair(ps: seq<real>, n: nat, i: nat, p: (nat, nat))
    requires |ps| == 3 * n
  {
    p.0 < i && p.0 < p.1 <= p.0 + 5 && p.1 < n && Connected(ps, n, p.0, p.1)
  }

  /** Every pair listed below `i` is connected, its second particle at most five after the first. */
  lemma {:induction false} PairsBeforeSound(ps: seq<real>, n: nat, i: nat)
    requires |ps| == 3 * n && i <= n
    ensures forall m :: 0 <= m < |PairsBefore(ps, n, i)| ==> ProperPair(ps, n, i, PairsBefore(ps, n, i)[m])
  {
    if i > 0 {
      var a, b := PairsBefore(ps, n, i - 1), RowPairs(ps, n, i - 1, RowEnd(i - 1, n));
      var r := PairsBefore(ps, n, i);
      PairsBeforeSound(ps, n, i - 1);
      RowPairsSound(ps, n, i - 1, RowEnd(i - 1, n));
      assert r == a + b;
      forall m | 0 <= m < |r|
        ensures ProperPair(ps, n, i, r[m])
      {
        if m < |a| {
          assert r[m] == a[m];
        } else {
          assert r[m] == b[m - |a|];
        }
      }
    }
  }

  /** The first `k` elements of `s`, or all of them when there are fewer. */
  function Take<T>(s: seq<T>, k: nat): (r: seq<T>)
    ensures |r| == if |s| < k then |s| else k
    ensures r == s[..|r|]
  {
    if |s| <= k then s else s[..k]
  }

  /** The pairs joined by a line: the first 500 connected pairs. */
  function DrawnPairs(ps: seq<real>, n: nat): (r: seq<(nat, nat)>)
    requires |ps| == 3 * n
    ensures |r| <= MaxConnections
    ensures forall m :: 0 <= m < |r| ==> ProperPair(ps, n, n, r[m])
  {
    PairsBeforeSound(ps, n, n);
    Take(PairsBefore(ps, n, n), MaxConnections)
  }

  /** Both endpoints of each pair, six coordinates per pair, in pair order. */
  function Segments(ps: seq<real>, pairs: seq<(nat, nat)>): (r: seq<real>)
    ensures |r| == 6 * |pairs|
  {
    if pairs == [] then []
    else
      var (i, j) := pairs[|pairs| - 1];
      Segments(ps, pairs[..|pairs| - 1]) + (Point(ps, i) + Point(ps, j))
  }

  /** The segments of a concatenation are the concatenated segments. */
  lemma {:induction false} SegmentsConcat(ps: seq<real>, a: seq<(nat, nat)>, b: seq<(nat, nat)>)
    ensures Segments(ps, a + b) == Segments(ps, a) + Segments(ps, b)
    decreases |b|
  {
    if b == [] {
      assert a + b == a;
    } else {
      var b', last := b[..|b| - 1], b[|b| - 1];
      assert b == b' + [last];
      assert a + b == (a + b') + [last];
      SegmentsConcat(ps, a, b');
      SegmentsAppend(ps, a + b', last.0, last.1);
      SegmentsAppend(ps, b', last.0, last.1);
      AppendAssoc(Segments(ps, a), Segments(ps, b'), Point(ps, last.0) + Point(ps, last.1));
      calc {
        Segments(ps, a + b);
        Segments(ps, a + b') + (Point(ps, last.0) + Point(ps, last.1));
        (Segments(ps, a) + Segments(ps, b')) + (Point(ps, last.0) + Point(ps, last.1));
        Segments(ps, a) + (Segments(ps, b') + (Point(ps, last.0) + Point(ps, last.1)));
        Segments(ps, a) + Segments(ps, b);
      }
    }
  }

  /** Appending a pair appends its two endpoints' coordinates. */
  lemma SegmentsAppend(ps: seq<real>, pairs: seq<(nat, nat)>, i: nat, j: nat)
    ensures Segments(ps, pairs + [(i, j)]) == Segments(ps, pairs) + (Point(ps, i) + Point(ps, j))
  {
    assert (pairs + [(i, j)])[..|pairs|] == pairs;
  }

  /** `linePos` as the builder lays it out: the segments of row `i` up to `j`. */
  function RowLines(ps: seq<real>, n: nat, i: nat, j: nat): (r: seq<real>)
    requires |ps| == 3 * n && i < n && j <= RowEnd(i, n)
    decreases j
  {
    if j <= i + 1 then []
    else
      var k: nat := j - 1;
      var prev := RowLines(ps, n, i, k);
      if Connected(ps, n, i, k) then prev + (Point(ps, i) + Point(ps, k)) else prev
  }

  /** The segments of all rows below `i`. */
  function LinesBefore(ps: seq<real>, n: nat, i: nat): (r: seq<real>)
    requires |ps| == 3 * n && i <= n
  {
    if i == 0 then [] else LinesBefore(ps, n, i - 1) + RowLines(ps, n, i - 1, RowEnd(i - 1, n))
  }

  lemma {:induction false} RowLinesAreSegments(ps: seq<real>, n: nat, i: nat, j: nat)
    requires |ps| == 3 * n && i < n && j <= RowEnd(i, n)
    ensures RowLines(ps, n, i, j) == Segments(ps, RowPairs(ps, n, i, j))
    decreases j
  {
    if j > i + 1 {
      RowLinesAreSegments(ps, n, i, j - 1);
      RowLinesExtend(ps, n, i, j);
    }
  }

  /** The step of `RowLinesAreSegments`: column `j - 1` is added to both sides alike. */
  lemma RowLinesExtend(ps: seq<real>, n: nat, i: nat, j: nat)
    requires |ps| == 3 * n && i + 1 < j <= RowEnd(i, n)
    requires RowLines(ps, n, i, j - 1) == Segments(ps, RowPairs(ps, n, i, j - 1))
    ensures RowLines(ps, n, i, j) == Segments(ps, RowPairs(ps, n, i, j))
  {
    var prev := RowPairs(ps, n, i, j - 1);
    if Connected(ps, n, i, j - 1) {
      SegmentsAppend(ps, prev, i, j - 1);
      calc {
        RowLines(ps, n, i, j);
        RowLines(ps, n, i, j - 1) + (Point(ps, i) + Point(ps, j - 1));
        Segments(ps, prev) + (Point(ps, i) + Point(ps, j - 1));
        Segments(ps, RowPairs(ps, n, i, j));
      }
    } else {
      calc {
        RowLines(ps, n, i, j);
        RowLines(ps, n, i, j - 1);
        Segments(ps, prev);
        Segments(ps, RowPairs(ps, n, i, j));
      }
    }
  }

  /** Laid out row by row, the segments are those of the connected pairs. */
  lemma {:induction false} LinesBeforeAreSegments(ps: seq<real>, n: nat, i: nat)
    requires |ps| == 3 * n && i <= n
    ensures LinesBefore(ps, n, i) == Segments(ps, PairsBefore(ps, n, i))
  {
    if i > 0 {
      var e := RowEnd(i - 1, n);
      var pb, row := PairsBefore(ps, n, i - 1), RowPairs(ps, n, i - 1, e);
      LinesBeforeAreSegments(ps, n, i - 1);
      RowLinesAreSegments(ps, n, i - 1, e);
      SegmentsConcat(ps, pb, row);
      calc {
        LinesBefore(ps, n, i);
        LinesBefore(ps, n, i - 1) + RowLines(ps, n, i - 1, e);
        Segments(ps, pb) + Segments(ps, row);
        Segments(ps, pb + row);
        Segments(ps, PairsBefore(ps, n, i));
      }
    }
  }

  /** The segments of the first `k` pairs are the first `6 * k` coordinates. */
  lemma SegmentsTake(ps: seq<real>, pairs: seq<(nat, nat)>, k: nat)
    ensures Segments(ps, Take(pairs, k)) == Take(Segments(ps, pairs), 6 * k)
  {
    if k < |pairs| {
      var s := Segments(ps, pairs);
      assert pairs == pairs[..k] + pairs[k..];
      SegmentsConcat(ps, pairs[..k], pairs[k..]);
      assert s[..6 * k] == Segments(ps, pairs[..k]);
    }
  }

  /** The first 3000 coordinates laid out are the segments of the drawn pairs. */
  lemma DrawnLines(ps: seq<real>, n: nat)
    requires |ps| == 3 * n
    ensures Take(LinesBefore(ps, n, n), 6 * MaxConnections) == Segments(ps, DrawnPairs(ps, n))
  {
    LinesBeforeAreSegments(ps, n, n);
    SegmentsTake(ps, PairsBefore(ps, n, n), MaxConnections);
  }

  /** The row laid out up to `j` is a prefix of the one laid out up to `j'`. */
  lemma {:induction false} RowLinesPrefix(ps: seq<real>, n: nat, i: nat, j: nat, j': nat)
    requires |ps| == 3 * n && i < n && j <= j' <= RowEnd(i, n)
    ensures RowLines(ps, n, i, j) <= RowLines(ps, n, i, j')
    decreases j' - j
  {
    if j < j' {
      RowLinesPrefix(ps, n, i, j, j' - 1);
    }
  }

  lemma {:induction false} LinesBeforePrefix(ps: seq<real>, n: nat, i: nat, i': nat)
    requires |ps| == 3 * n && i <= i' <= n
    ensures LinesBefore(ps, n, i) <= LinesBefore(ps, n, i')
    decreases i' - i
  {
    if i < i' {
      LinesBeforePrefix(ps, n, i, i' - 1);
    }
  }

  /** What has been laid out part-way through row `i` is a prefix of all rows. */
  lemma PartialRowPrefix(ps: seq<real>, n: nat, i: nat, j: nat)
    requires |ps| == 3 * n && i < n && j <= RowEnd(i, n)
    ensures LinesBefore(ps, n, i) + RowLines(ps, n, i, j) <= LinesBefore(ps, n, n)
  {
    RowLinesPrefix(ps, n, i, j, RowEnd(i, n));
    LinesBeforePrefix(ps, n, i + 1, n);
  }

  /**
   * One column of row `i` in the builder, over the coordinates it reads:
   * when `i` and `j` are close enough the row gains those six coordinates,
   * otherwise nothing.
   */
  lemma ColumnStep(ps: seq<real>, n: nat, i: nat, j: nat, x1: real, y1: real, z1: real, x2: real, y2: real, z2: real)
    requires |ps| == 3 * n && i < n && i + 1 <= j < RowEnd(i, n)
    requires x1 == ps[i * 3] && y1 == ps[i * 3 + 1] && z1 == ps[i * 3 + 2]
    requires x2 == ps[j * 3] && y2 == ps[j * 3 + 1] && z2 == ps[j * 3 + 2]
    ensures Norm2(Offset(x2 - x1, y2 - y1, z2 - z1)) < ConnectionSqRadius ==>
              LinesBefore(ps, n, i) + RowLines(ps, n, i, j + 1)
              == (LinesBefore(ps, n, i) + RowLines(ps, n, i, j)) + [x1, y1, z1, x2, y2, z2]
    ensures !(Norm2(Offset(x2 - x1, y2 - y1, z2 - z1)) < ConnectionSqRadius) ==>
              LinesBefore(ps, n, i) + RowLines(ps, n, i, j + 1) == LinesBefore(ps, n, i) + RowLines(ps, n, i, j)
  {
    assert OffsetOf(ps, i, j) == Offset(x2 - x1, y2 - y1, z2 - z1);
    var seg := Point(ps, i) + Point(ps, j);
    assert seg == [x1, y1, z1, x2, y2, z2];
    AppendAssoc(LinesBefore(ps, n, i), RowLines(ps, n, i, j), seg);
  }

  /** A finished row `i` completes the lines below `i + 1`. */
  lemma LinesBeforeNext(ps: seq<real>, n: nat, i: nat, j: nat)
    requires |ps| == 3 * n && i < n && j == RowEnd(i, n)
    ensures LinesBefore(ps, n, i) + RowLines(ps, n, i, j) == LinesBefore(ps, n, i + 1)
  {
  }

  /** A prefix of `all` that is `all` itself or has `k` elements is what `Take(all, k)` keeps. */
  lemma TakeOfPrefix<T>(p: seq<T>, all: seq<T>, k: nat)
    requires p <= all && (|p| == k || p == all) && |p| <= k
    ensures Take(all, k) == p
  {
  }

  /**
   * `ConnectionLines`' segment builder: for each particle `i`, the next five
   * particles `j`, stopping as soon as 500 connections have been made.
   */
  method ConnectionLines(positions: seq<real>, particleCount: nat) returns (linePos: seq<real>)
    requires |positions| == 3 * particleCount
    ensures linePos == Take(LinesBefore(positions, particleCount, particleCount), 6 * MaxConnections)
    ensures linePos == Segments(positions, DrawnPairs(positions, particleCount))
    ensures |linePos| == 6 * |DrawnPairs(positions, particleCount)| <= 6 * MaxConnections
  {
    var n := particleCount;
    linePos := [];
    var connectionCount := 0;
    var i := 0;
    while i < n && connectionCount < MaxConnections
      invariant 0 <= i <= n
      invariant |linePos| == 6 * connectionCount <= 6 * MaxConnections
      invariant linePos <= LinesBefore(positions, n, n)
      invariant connectionCount < MaxConnections ==> linePos == LinesBefore(positions, n, i)
    {
      linePos, connectionCount := ConnectRow(positions, n, i, linePos, connectionCount);
      i := i + 1;
    }
    TakeOfPrefix(linePos, LinesBefore(positions, n, n), 6 * MaxConnections);
    DrawnLines(positions, n);
  }

  /**
   * The inner loop for particle `i`: the connections to the next five
   * particles, appended while fewer than 500 have been made.
   */
  method ConnectRow(positions: seq<real>, n: nat, i: nat, linePos0: seq<real>, count0: nat)
    returns (linePos: seq<real>, connectionCount: nat)
    requires |positions| == 3 * n && i < n
    requires |linePos0| == 6 * count0 && count0 < MaxConnections
    requires linePos0 == LinesBefore(positions, n, i)
    ensures |linePos| == 6 * connectionCount <= 6 * MaxConnections
    ensures linePos <= LinesBefore(positions, n, n)
    ensures connectionCount < MaxConnections ==> linePos == LinesBefore(positions, n, i + 1)
  {
    linePos, connectionCount := linePos0, count0;
    var j := i + 1;
    assert LinesBefore(positions, n, i) + RowLines(positions, n, i, j) == linePos0;
    while j < RowEnd(i, n) && connectionCount < MaxConnections
      invariant i + 1 <= j <= RowEnd(i, n)
      invariant |linePos| == 6 * connectionCount <= 6 * MaxConnections
      invariant linePos == LinesBefore(positions, n, i) + RowLines(positions, n, i, j)
    {
      linePos, connectionCount := ConnectPair(positions, n, i, j, linePos, connectionCount);
      j := j + 1;
    }
    PartialRowPrefix(positions, n, i, j);
    if connectionCount < MaxConnections {
      LinesBeforeNext(positions, n, i, j);
    }
  }

  /** One step of the inner loop: particle `j` joined to particle `i` when they are close. */
  method ConnectPair(positions: seq<real>, n: nat, i: nat, j: nat, linePos0: seq<real>, count0: nat)
    returns (linePos: seq<real>, connectionCount: nat)
    requires |positions| == 3 * n && i < n && i + 1 <= j < RowEnd(i, n)
    requires |linePos0| == 6 * count0 && count0 < MaxConnections
    requires linePos0 == LinesBefore(positions, n, i) + RowLines(positions, n, i, j)
    ensures |linePos| == 6 * connectionCount <= 6 * MaxConnections
    ensures linePos == LinesBefore(positions, n, i) + RowLines(positions, n, i, j + 1)
  {
    linePos, connectionCount := linePos0, count0;
    var x1, y1, z1 := positions[i * 3], positions[i * 3 + 1], positions[i * 3 + 2];
    var x2, y2, z2 := positions[j * 3], positions[j * 3 + 1], positions[j * 3 + 2];
    ColumnStep(positions, n, i, j, x1, y1, z1, x2, y2, z2);
    if Norm2(Offset(x2 - x1, y2 - y1, z2 - z1)) < ConnectionSqRadius {
      linePos := linePos + [x1, y1, z1, x2, y2, z2];
      connectionCount := connectionCount + 1;
    }
  }

  // ------------------------------------------------------------- the class

  /** `Math.random()`-driven coordinates: `(r - 0.5) * 20`, inside [-10, 10). */
  function InitialPositions(rand: seq<real>): (r: seq<real>)
    requires forall k :: 0 <= k < |rand| ==> 0.0 <= rand[k] < 1.0
    ensures |r| == |rand| && forall k :: 0 <= k < |r| ==> -10.0 <= r[k] < 10.0
  {
    seq(|rand|, k requires 0 <= k < |rand| => (rand[k] - 0.5) * 20.0)
  }

  /** `Math.random()`-driven velocities: `(r - 0.5) * 0.02`, inside [-0.01, 0.01). */
  function InitialVelocities(rand: seq<real>): (r: seq<real>)
    requires forall k :: 0 <= k < |rand| ==> 0.0 <= rand[k] < 1.0
    ensures |r| == |rand| && forall k :: 0 <= k < |r| ==> -0.01 <= r[k] < 0.01
  {
    seq(|rand|, k requires 0 <= k < |rand| => (rand[k] - 0.5) * 0.02)
  }

  /** Writes the three slots of particle `i`. */
  method Store3(a: array<real>, i: nat, v: Triple)
    requires 3 * i + 2 < a.Length
    modifies a
    ensures a[..] == Put3(old(a[..]), i, v)
  {
    a[3 * i], a[3 * i + 1], a[3 * i + 2] := v.x, v.y, v.z;
  }

  class ParticleSystem {
    const count: nat
    var positions: array<real>
    var velocities: array<real>
    var colors: array<real>

    predicate Valid()
      reads this
    {
      && count > 0
      && positions.Length == 3 * count && velocities.Length == 3 * count && colors.Length == 3 * count
      && positions != velocities && positions != colors && velocities != colors
    }

    function State(): (b: Buffers)
      reads this, positions, velocities, colors
      requires Valid()
      ensures WellFormed(b, count)
    {
      Buffers(positions[..], velocities[..], colors[..])
    }

    /** The three buffers filled from `Math.random()` samples, one per coordinate. */
    constructor(n: nat, posRand: seq<real>, colRand: seq<real>, velRand: seq<real>)
      requires n > 0 && |posRand| == 3 * n && |colRand| == 3 * n && |velRand| == 3 * n
      requires forall k :: 0 <= k < 3 * n ==> 0.0 <= posRand[k] < 1.0 && 0.0 <= colRand[k] < 1.0 && 0.0 <= velRand[k] < 1.0
      ensures Valid() && count == n && fresh(positions) && fresh(velocities) && fresh(colors)
      ensures positions[..] == InitialPositions(posRand) && velocities[..] == InitialVelocities(velRand)
      ensures colors[..] == colRand
    {
      count := n;
      var ps := InitialPositions(posRand);
      var vs := InitialVelocities(velRand);
      positions := new real[3 * n](k requires 0 <= k < 3 * n => ps[k]);
      velocities := new real[3 * n](k requires 0 <= k < 3 * n => vs[k]);
      colors := new real[3 * n](k requires 0 <= k < 3 * n => colRand[k]);
    }

    /**
     * `findNearbyParticles`: scans the `min(50, particleCount)` particles
     * after `index` (wrapping around) and collects those closer than `radius`.
     */
    method FindNearbyParticles(index: nat, radius: real) returns (neighbors: seq<nat>)
      requires Valid() && index < count
      ensures neighbors == NeighborsUpTo(positions[..], count, index, radius, CheckCount(count))
      ensures |neighbors| <= CheckLimit
      ensures forall m :: 0 <= m < |neighbors| ==> neighbors[m] < count
    {
      ghost var ps := positions[..];
      neighbors := [];
      var x, y, z := positions[index * 3], positions[index * 3 + 1], positions[index * 3 + 2];
      var checkCount := if CheckLimit < count then CheckLimit else count;
      var i := 0;
      while i < checkCount
        invariant 0 <= i <= checkCount == CheckCount(count)
        invariant neighbors == NeighborsUpTo(ps, count, index, radius, i)
      {
        var otherIndex := (index + i + 1) % count;
        var dx := positions[otherIndex * 3] - x;
        var dy := positions[otherIndex * 3 + 1] - y;
        var dz := positions[otherIndex * 3 + 2] - z;
        assert Offset(dx, dy, dz) == OffsetOf(ps, index, otherIndex);
        if radius > 0.0 && Norm2(Offset(dx, dy, dz)) < radius * radius {
          neighbors := neighbors + [otherIndex];
        }
        i := i + 1;
      }
    }

    /** The `neighbors.forEach` accumulation of pair forces on particle `i`. */
    method NeighborForce(i: nat, neighbors: seq<nat>, sqrt: real -> real) returns (force: Force)
      requires Valid() && i < count && forall m :: 0 <= m < |neighbors| ==> neighbors[m] < count
      ensures force == ForceSum(positions[..], count, i, neighbors, sqrt)
    {
      ghost var ps := positions[..];
      var x, y, z := positions[i * 3], positions[i * 3 + 1], positions[i * 3 + 2];
      var forceX, forceY, forceZ := 0.0, 0.0, 0.0;
      var k := 0;
      while k < |neighbors|
        invariant 0 <= k <= |neighbors|
        invariant Force(forceX, forceY, forceZ) == ForceSum(ps, count, i, neighbors[..k], sqrt)
      {
        var ni := neighbors[k];
        var dx, dy, dz := positions[ni * 3] - x, positions[ni * 3 + 1] - y, positions[ni * 3 + 2] - z;
        assert Offset(dx, dy, dz) == OffsetOf(ps, i, ni);
        var pull := PairForce(Offset(dx, dy, dz), sqrt);
        ForceSumStep(ps, count, i, neighbors, k, sqrt);
        forceX, forceY, forceZ := forceX + pull.x, forceY + pull.y, forceZ + pull.z;
        k := k + 1;
      }
      assert neighbors[..|neighbors|] == neighbors;
      force := Force(forceX, forceY, forceZ);
    }

    /**
     * The update of particle `i`: its neighbours' pull, then its motion and
     * colour.
     */
    method UpdateParticle(i: nat, fr: Frame)
      requires Valid() && i < count && FrameFits(fr, count)
      modifies positions, velocities, colors
      ensures State() == Step(old(State()), count, i, fr)
    {
      ghost var b := State();
      var neighbors := FindNearbyParticles(i, NeighborRadius);
      var force := NeighborForce(i, neighbors, fr.sqrt);
      ForceOfNeighbors(b.pos, count, i, CheckCount(count), fr.sqrt);
      MoveParticle(i, force, fr);
    }

    /** The music push, motion, wall bounce and colour of particle `i` under `force`. */
    method MoveParticle(i: nat, force: Force, fr: Frame)
      requires Valid() && i < count && FrameFits(fr, count)
      modifies positions, velocities, colors
      ensures State() == Advance(old(State()), count, i, fr, force)
    {
      var music := MusicForce(fr.features, fr.trig[i]);
      var i3 := i * 3;
      var x := AxisStep(positions[i3], velocities[i3], force.x, music.x, fr.delta);
      var y := AxisStep(positions[i3 + 1], velocities[i3 + 1], force.y, music.y, fr.delta);
      var z := AxisStep(positions[i3 + 2], velocities[i3 + 2], force.z, music.z, fr.delta);
      Store3(positions, i, Triple(x.0, y.0, z.0));
      Store3(velocities, i, Triple(x.1, y.1, z.1));
      Store3(colors, i, FrameColor(fr));
    }

    /**
     * `updateParticleSystem`: every particle in index order. Afterwards every
     * coordinate lies in [-10, 10] and every colour is the frame colour.
     */
    method UpdateParticleSystem(fr: Frame)
      requires Valid() && FrameFits(fr, count)
      modifies positions, velocities, colors
      ensures State() == Steps(old(State()), count, count, fr)
    {
      ghost var start := State();
      var i := 0;
      while i < count
        invariant 0 <= i <= count
        invariant State() == Steps(start, count, i, fr)
      {
        ghost var before := State();
        UpdateParticle(i, fr);
        StepsNext(start, before, State(), count, i, fr);
        i := i + 1;
      }
    }
  }
}
