/**
 * The photon lifeform of the particle engine: a glowing body whose speed,
 * size, brightness, colour, position and energy follow the audio features
 * each frame, which pulls nearby particles towards itself and which, when
 * close to another lifeform, averages colours with it and exchanges energy.
 *
 * Distances: the source compares `Math.sqrt` of a squared distance with a
 * radius; here the squared distance is compared with the squared radius.
 * Where the distance itself is a factor (the particle influence), the caller
 * supplies it together with the fact that it squares to the squared distance.
 * The `Math.sin`/`Math.cos` terms of the movement are supplied as samples.
 */
module PhotonLifeEngine {
  import opened Common
  import opened JsNumber

  /** The lifeform's inherited traits. */
  datatype LifeTraits = LifeTraits(color: Vec3, size: real, speed: real, pattern: string)

  /** `Partial<LifeTraits>`: each field may be absent. */
  datatype PartialTraits = PartialTraits(color: Option<Vec3>, size: Option<real>, speed: Option<real>, pattern: Option<string>)

  datatype LifeConfig = LifeConfig(position: Vec3, color: Vec3, traits: Option<PartialTraits>)

  /**
   * `{ color: [...config.color], size: 1.0, speed: 1.0, pattern: 'wave',
   * ...config.traits }`: the defaults, overridden field by field.
   */
  function InitialTraits(config: LifeConfig): (t: LifeTraits)
    ensures config.traits == None ==> t == LifeTraits(config.color, 1.0, 1.0, "wave")
    ensures config.traits.Some? ==>
              var p := config.traits.value;
              && t.color == p.color.GetOr(config.color)
              && t.size == p.size.GetOr(1.0)
              && t.speed == p.speed.GetOr(1.0)
              && t.pattern == p.pattern.GetOr("wave")
  {
    match config.traits
    case None => LifeTraits(config.color, 1.0, 1.0, "wave")
    case Some(p) => LifeTraits(p.color.GetOr(config.color), p.size.GetOr(1.0), p.speed.GetOr(1.0), p.pattern.GetOr("wave"))
  }

  // ------------------------------------------------------ per-frame factors

  /** `Math.max(0.1, bpm / 120)`. */
  function BpmFactor(bpm: real): (r: real)
    ensures r >= 0.1
    ensures bpm / 120.0 >= 0.1 ==> r == bpm / 120.0
    ensures bpm / 120.0 < 0.1 ==> r == 0.1
  {
    Max(0.1, bpm / 120.0)
  }

  /** `Math.max(0.1, volume / 100)`. */
  function VolumeFactor(volume: real): (r: real)
    ensures r >= 0.1
    ensures volume / 100.0 >= 0.1 ==> r == volume / 100.0
    ensures volume / 100.0 < 0.1 ==> r == 0.1
  {
    Max(0.1, volume / 100.0)
  }

  /** The frame's speed: `traits.speed * bpmFactor`, never below a tenth of the trait. */
  function FrameSpeed(traitSpeed: real, bpm: real): (r: real)
    ensures traitSpeed >= 0.0 ==> r >= 0.1 * traitSpeed
    ensures r * 120.0 == traitSpeed * Max(12.0, bpm)
  {
    var f := BpmFactor(bpm);
    ScaleBelow(traitSpeed, f, 0.1);
    ScaleFactor(traitSpeed, bpm);
    traitSpeed * f
  }

  lemma ScaleFactor(s: real, bpm: real)
    ensures s * BpmFactor(bpm) * 120.0 == s * Max(12.0, bpm)
  {
    var f := BpmFactor(bpm);
    assert f * 120.0 == Max(12.0, bpm);
    Associate(s, f, 120.0);
  }

  lemma Associate(a: real, b: real, c: real)
    ensures a * b * c == a * (b * c)
  {
  }

  /** The frame's size: `traits.size * (0.8 + volumeFactor * 1.2)`, never below 0.92 of the trait. */
  function FrameSize(traitSize: real, volume: real): (r: real)
    ensures traitSize >= 0.0 ==> r >= 0.92 * traitSize
    ensures volume <= 10.0 ==> r == 0.92 * traitSize
  {
    var g := 0.8 + VolumeFactor(volume) * 1.2;
    ScaleBelow(traitSize, g, 0.92);
    traitSize * g
  }

  /** A factor of at least `lo` scales a non-negative value by at least `lo`. */
  lemma ScaleBelow(s: real, f: real, lo: real)
    requires f >= lo
    ensures s >= 0.0 ==> s * f >= lo * s
  {
    if s >= 0.0 {
      assert s * f - lo * s == s * (f - lo);
      ProductNonNegative(s, f - lo);
    }
  }

  lemma ProductNonNegative(a: real, b: real)
    requires a >= 0.0 && b >= 0.0
    ensures a * b >= 0.0
  {
  }

  /** The frame's brightness: `volumeFactor * 0.8`, never below 0.08. */
  function FrameBrightness(volume: real): (r: real)
    ensures r >= 0.08
    ensures volume / 100.0 >= 0.1 ==> r == volume / 125.0
  {
    VolumeFactor(volume) * 0.8
  }

  // ----------------------------------------------------------- pitch colour

  /** `((pitch - 220) / 660 * 360) % 360`, with JavaScript's sign-of-dividend `%`. */
  function Hue(pitch: real): (h: real)
    ensures -360.0 < h < 360.0
    ensures pitch >= 220.0 ==> h >= 0.0
    ensures -440.0 < pitch < 220.0 ==> h == (pitch - 220.0) / 660.0 * 360.0 && h < 0.0
  {
    Rem((pitch - 220.0) / 660.0 * 360.0, 360.0)
  }

  /** `1 - |(hue / 60) % 2 - 1|`, the secondary channel of the HSV conversion. */
  function Secondary(hue: real): (x: real)
    ensures hue >= 0.0 ==> 0.0 <= x <= 1.0
  {
    1.0 - Abs(Rem(hue / 60.0, 2.0) - 1.0)
  }

  /**
   * `updateColorFromPitch`'s colour: the six 60-degree hue sectors with full
   * channel 1, secondary channel `x` and zero channel 0, each lifted by 0.5.
   * A negative hue matches no sector and leaves all three channels at 0.
   */
  function PitchColor(pitch: real): (rgb: Vec3)
  {
    var hue := Hue(pitch);
    var x := Secondary(hue);
    var c := 1.0;
    var channels :=
      if 0.0 <= hue < 60.0 then [c, x, 0.0]
      else if 60.0 <= hue < 120.0 then [x, c, 0.0]
      else if 120.0 <= hue < 180.0 then [0.0, c, x]
      else if 180.0 <= hue < 240.0 then [0.0, x, c]
      else if 240.0 <= hue < 300.0 then [x, 0.0, c]
      else if 300.0 <= hue < 360.0 then [c, 0.0, x]
      else [0.0, 0.0, 0.0];
    [channels[0] + 0.5, channels[1] + 0.5, channels[2] + 0.5]
  }

  /** Every channel of the pitch colour lies in [0.5, 1.5]. */
  lemma PitchColorBounds(pitch: real)
    ensures forall k :: 0 <= k < 3 ==> 0.5 <= PitchColor(pitch)[k] <= 1.5
  {
    var hue := Hue(pitch);
    if hue < 0.0 {
      assert !(0.0 <= hue < 360.0);
    } else {
      assert 0.0 <= Secondary(hue) <= 1.0;
    }
  }

  /** A pitch below 220 Hz (down to -440) gives a negative hue and the grey (0.5, 0.5, 0.5). */
  lemma LowPitchIsGrey(pitch: real)
    requires -440.0 < pitch < 220.0
    ensures PitchColor(pitch) == [0.5, 0.5, 0.5]
  {
    assert Hue(pitch) < 0.0;
  }

  /** From 220 Hz up, one channel is full (1.5) and one is empty (0.5). */
  lemma HighPitchIsSaturated(pitch: real)
    requires pitch >= 220.0
    ensures 1.5 in PitchColor(pitch) && 0.5 in PitchColor(pitch)
  {
    var hue := Hue(pitch);
    assert 0.0 <= hue < 360.0;
    var rgb := PitchColor(pitch);
    if hue < 60.0 {
      assert rgb[0] == 1.5 && rgb[2] == 0.5;
    } else if hue < 120.0 {
      assert rgb[1] == 1.5 && rgb[2] == 0.5;
    } else if hue < 180.0 {
      assert rgb[1] == 1.5 && rgb[0] == 0.5;
    } else if hue < 240.0 {
      assert rgb[2] == 1.5 && rgb[0] == 0.5;
    } else if hue < 300.0 {
      assert rgb[2] == 1.5 && rgb[1] == 0.5;
    } else {
      assert rgb[0] == 1.5 && rgb[1] == 0.5;
    }
  }

  // ----------------------------------------------------------------- energy

  /**
   * `updateEnergy`: add `(volume + bpm / 2) / 100`, spend 0.1, cap at 200,
   * and replace a result that is not positive by 10.
   */
  function NextEnergy(energy: real, f: AudioFeatures): (r: real)
    ensures 0.0 < r <= 200.0
    ensures energy + (f.volume + f.bpm / 2.0) / 100.0 - 0.1 <= 0.0 ==> r == 10.0
    ensures 0.0 < energy + (f.volume + f.bpm / 2.0) / 100.0 - 0.1 <= 200.0 ==> r == energy + (f.volume + f.bpm / 2.0) / 100.0 - 0.1
    ensures energy + (f.volume + f.bpm / 2.0) / 100.0 - 0.1 > 200.0 ==> r == 200.0
  {
    var e := Min(200.0, energy + (f.volume + f.bpm / 2.0) / 100.0 - 0.1);
    if e <= 0.0 then 10.0 else e
  }

  /**
   * The resonance exchange: a tenth of the energy difference moves from the
   * richer lifeform to the poorer one.
   */
  function Exchange(mine: real, theirs: real): (r: (real, real))
    ensures r.0 + r.1 == mine + theirs
    ensures r.0 - r.1 == 0.8 * (mine - theirs)
    ensures Min(mine, theirs) <= r.0 <= Max(mine, theirs)
    ensures Min(mine, theirs) <= r.1 <= Max(mine, theirs)
  {
    var exchange := (mine - theirs) * 0.1;
    (mine - exchange, theirs + exchange)
  }

  /** The colour half-way between two colours. */
  function AverageColor(a: Vec3, b: Vec3): (r: Vec3)
    ensures forall k :: 0 <= k < 3 ==> r[k] * 2.0 == a[k] + b[k]
    ensures forall k :: 0 <= k < 3 ==> Min(a[k], b[k]) <= r[k] <= Max(a[k], b[k])
    ensures a == b ==> r == a
  {
    [(a[0] + b[0]) / 2.0, (a[1] + b[1]) / 2.0, (a[2] + b[2]) / 2.0]
  }

  // --------------------------------------------------------------- movement

  /** The values of the `Math.sin`/`Math.cos` terms of one movement step. */
  datatype TrigSamples = TrigSamples(
    wave1: real, wave2: real, wave3: real,
    spiralCos: real, spiralSin: real,
    attractorX: real, attractorY: real, attractorZ: real)

  /**
   * `updateComplexMovement`'s new position: an offset from the base position
   * per pattern, scaled by amplitude `size * 0.8` and modulated by volume
   * (`volume / 100`) and pitch (`(pitch - 440) / 440`).
   */
  function MovedPosition(pattern: string, base: Vec3, current: Vec3, size: real, f: AudioFeatures, w: TrigSamples): (r: Vec3)
    ensures pattern == "wave" ==> r[2] == current[2]
    ensures f.volume == 0.0 && pattern == "wave" ==> r[1] == base[1]
    ensures f.volume == 0.0 && pattern == "spiral" ==> r[0] == base[0] && r[2] == base[2]
    ensures f.volume == 0.0 && pattern != "wave" && pattern != "spiral" ==> r == base
    ensures f.pitch == 440.0 && pattern == "wave" ==> r[0] == base[0]
  {
    var amplitude := size * 0.8;
    var wave1 := w.wave1 * amplitude;
    var wave2 := w.wave2 * amplitude * 0.5;
    var wave3 := w.wave3 * amplitude * 0.3;
    var volumeModulation := f.volume / 100.0;
    var pitchModulation := (f.pitch - 440.0) / 440.0;
    if pattern == "wave" then
      [base[0] + wave3 * pitchModulation, base[1] + (wave1 + wave2) * volumeModulation, current[2]]
    else if pattern == "spiral" then
      var radius := amplitude * volumeModulation;
      [base[0] + w.spiralCos * radius, base[1] + wave1 * 0.5, base[2] + w.spiralSin * radius]
    else
      var moved := [base[0] + w.attractorX * amplitude * volumeModulation,
                    base[1] + w.attractorY * amplitude * volumeModulation,
                    base[2] + w.attractorZ * amplitude * volumeModulation];
      assert f.volume == 0.0 ==> moved[0] == base[0] && moved[1] == base[1] && moved[2] == base[2];
      moved
  }

  // -------------------------------------------------------------- the class

  const InfluenceRadius: real := 3.0
  const ParticleAttraction: real := 0.001
  /** Lifeforms closer than this resonate. */
  const ResonanceRadius: real := 2.0

  /** `particleAttraction * energy / 100 / (distance + 0.1)`. */
  function InfluenceStrength(energy: real, distance: real): (r: real)
    requires distance >= 0.0
    ensures energy >= 0.0 ==> 0.0 <= r <= energy / 10000.0
  {
    var a := ParticleAttraction * energy / 100.0;
    var r := a / (distance + 0.1);
    assert energy >= 0.0 ==> 0.0 <= r <= 10.0 * a by {
      if energy >= 0.0 {
        QuotientBound(a, distance + 0.1, r);
      }
    }
    r
  }

  /** A non-negative value divided by at least 0.1 is at most ten times the value. */
  lemma QuotientBound(a: real, den: real, q: real)
    requires a >= 0.0 && den >= 0.1 && q == a / den
    ensures 0.0 <= q <= 10.0 * a
  {
    assert q * den == a;
    if q < 0.0 {
      NegativeTimesPositive(q, den);
    } else if q > 10.0 * a {
      Grow(q, 10.0 * a, den);
    }
  }

  lemma NegativeTimesPositive(q: real, d: real)
    requires q < 0.0 && d > 0.0
    ensures q * d < 0.0
  {
  }

  lemma Grow(q: real, b: real, d: real)
    requires q > b >= 0.0 && d >= 0.1
    ensures q * d > b * 0.1
  {
    assert q * d >= q * 0.1;
  }

  /** A closer lifeform pulls harder. */
  lemma InfluenceWeakensWithDistance(energy: real, d1: real, d2: real)
    requires energy >= 0.0 && 0.0 <= d1 <= d2
    ensures InfluenceStrength(energy, d2) <= InfluenceStrength(energy, d1)
  {
    var a := ParticleAttraction * energy / 100.0;
    var q1, q2 := a / (d1 + 0.1), a / (d2 + 0.1);
    assert q1 * (d1 + 0.1) == a && q2 * (d2 + 0.1) == a;
    if q2 > q1 {
      Grow(q2, q1, d1 + 0.1);
      StrictGrow(q2, q1, d1 + 0.1, d2 + 0.1);
    }
  }

  /** A component of the unit offset, scaled by `s`, times the distance is the offset times `s`. */
  lemma UnitScale(x: real, distance: real, s: real, r: real)
    requires distance > 0.0 && r == x / distance * s
    ensures r * distance == x * s
  {
    var u := x / distance;
    assert u * distance == x;
    assert r * distance == (u * distance) * s;
  }

  /** The offset `a - b` divided by `distance` and scaled by `s`. */
  function ScaledDirection(a: Vec3, b: Vec3, distance: real, s: real): (v: Vec3)
    requires distance > 0.0
    ensures forall k :: 0 <= k < 3 ==> v[k] * distance == (a[k] - b[k]) * s
  {
    var v := [(a[0] - b[0]) / distance * s, (a[1] - b[1]) / distance * s, (a[2] - b[2]) / distance * s];
    UnitScale(a[0] - b[0], distance, s, v[0]);
    UnitScale(a[1] - b[1], distance, s, v[1]);
    UnitScale(a[2] - b[2], distance, s, v[2]);
    v
  }

  lemma StrictGrow(q2: real, q1: real, e1: real, e2: real)
    requires q2 > q1 >= 0.0 && 0.1 <= e1 <= e2
    ensures q2 * e2 > q1 * e1
  {
    assert q2 * e2 >= q2 * e1;
    assert q2 * e1 > q1 * e1;
  }

  class PhotonLife {
    var position: array<real>
    var color: array<real>
    var basePosition: array<real>
    var size: real
    var brightness: real
    var speed: real
    var energy: real
    var generation: int
    var traits: LifeTraits
    var time: real

    /** Three-element buffers, none shared with the others. */
    predicate Valid()
      reads this
    {
      && position.Length == 3 && color.Length == 3 && basePosition.Length == 3
      && position != basePosition && position != color && basePosition != color
    }

    function Position(): Vec3
      reads this, position
      requires Valid()
    {
      position[..]
    }

    /** `position` and `basePosition` are separate copies of the configured position. */
    constructor(config: LifeConfig)
      ensures Valid() && fresh(position) && fresh(basePosition) && fresh(color)
      ensures position[..] == config.position && basePosition[..] == config.position
      ensures color[..] == config.color
      ensures traits == InitialTraits(config)
      ensures size == 1.0 && brightness == 0.5 && speed == 1.0 && energy == 100.0
      ensures generation == 1 && time == 0.0
    {
      position := new real[3](k requires 0 <= k < 3 => config.position[k]);
      basePosition := new real[3](k requires 0 <= k < 3 => config.position[k]);
      color := new real[3](k requires 0 <= k < 3 => config.color[k]);
      traits := InitialTraits(config);
      size, brightness, speed, energy := 1.0, 0.5, 1.0, 100.0;
      generation, time := 1, 0.0;
    }

    /** `updateColorFromPitch`: installs a new colour array. */
    method UpdateColorFromPitch(pitch: real)
      requires Valid()
      modifies this
      ensures Valid() && fresh(color) && color[..] == PitchColor(pitch)
      ensures position == old(position) && basePosition == old(basePosition)
      ensures size == old(size) && brightness == old(brightness) && speed == old(speed)
      ensures energy == old(energy) && traits == old(traits) && time == old(time)
      ensures generation == old(generation)
    {
      var rgb := PitchColor(pitch);
      color := new real[3](k requires 0 <= k < 3 => rgb[k]);
    }

    /** `updateComplexMovement`: rewrites the position axes of the lifeform's pattern. */
    method UpdateComplexMovement(f: AudioFeatures, w: TrigSamples)
      requires Valid()
      modifies position
      ensures position[..] == MovedPosition(traits.pattern, basePosition[..], old(position[..]), size, f, w)
    {
      var moved := MovedPosition(traits.pattern, basePosition[..], position[..], size, f, w);
      position[0], position[1], position[2] := moved[0], moved[1], moved[2];
    }

    /** `updateEnergy`. */
    method UpdateEnergy(f: AudioFeatures)
      modifies this
      ensures energy == NextEnergy(old(energy), f)
      ensures 0.0 < energy <= 200.0
      ensures position == old(position) && color == old(color) && basePosition == old(basePosition)
      ensures size == old(size) && brightness == old(brightness) && speed == old(speed)
      ensures traits == old(traits) && time == old(time) && generation == old(generation)
    {
      energy := NextEnergy(energy, f);
    }

    /** `update`: one frame of audio-driven behaviour. */
    method Update(f: AudioFeatures, deltaTime: real, w: TrigSamples)
      requires Valid()
      modifies this, position
      ensures Valid() && fresh(color)
      ensures position == old(position) && basePosition == old(basePosition)
      ensures time == old(time) + deltaTime
      ensures speed == FrameSpeed(traits.speed, f.bpm) && size == FrameSize(traits.size, f.volume)
      ensures brightness == FrameBrightness(f.volume)
      ensures traits.speed >= 0.0 ==> speed >= 0.1 * traits.speed
      ensures traits.size >= 0.0 ==> size >= 0.92 * traits.size
      ensures brightness >= 0.08
      ensures color[..] == PitchColor(f.pitch)
      ensures position[..] == MovedPosition(traits.pattern, basePosition[..], old(position[..]), size, f, w)
      ensures energy == NextEnergy(old(energy), f)
      ensures traits == old(traits) && generation == old(generation)
    {
      time := time + deltaTime;
      speed := FrameSpeed(traits.speed, f.bpm);
      size := FrameSize(traits.size, f.volume);
      brightness := FrameBrightness(f.volume);
      UpdateColorFromPitch(f.pitch);
      UpdateComplexMovement(f, w);
      UpdateEnergy(f);
    }

    /**
     * `getParticleInfluence`: the pull on a particle at `p`, given the
     * distance `distance` between them. Beyond the influence radius the pull
     * is exactly zero; at distance zero the division by the distance gives
     * NaN, modelled as `None`.
     */
    function ParticleInfluence(p: Vec3, distance: real): (r: Option<Vec3>)
      reads this, position
      requires Valid() && distance >= 0.0 && distance * distance == SqDist(Position(), p)
      ensures distance > InfluenceRadius ==> r == Some(Zero3)
      ensures distance == 0.0 ==> r == None
      ensures 0.0 < distance <= InfluenceRadius ==>
                && r.Some?
                && forall k :: 0 <= k < 3 ==>
                     r.value[k] * distance == (Position()[k] - p[k]) * InfluenceStrength(energy, distance)
    {
      if distance > InfluenceRadius then Some(Zero3)
      else if distance == 0.0 then None
      else
        Some(ScaledDirection(Position(), p, distance, InfluenceStrength(energy, distance)))
    }

    /**
     * `resonateWith`: this lifeform's colour becomes the average of the two,
     * the other's colour is left as it was, and a tenth of the energy gap
     * moves between them so the total is kept.
     */
    method ResonateWith(other: PhotonLife)
      requires Valid() && other.Valid()
      modifies this, color, other
      ensures color == old(color) && other.color == old(other.color)
      ensures color[..] == AverageColor(old(color[..]), old(other.color[..]))
      ensures other.color[..] == old(other.color[..])
      ensures energy + other.energy == old(energy) + old(other.energy)
      ensures other != this ==> (energy, other.energy) == Exchange(old(energy), old(other.energy))
      ensures other == this ==> energy == old(energy)
      ensures position == old(position) && basePosition == old(basePosition)
      ensures size == old(size) && brightness == old(brightness) && speed == old(speed)
      ensures traits == old(traits) && time == old(time) && generation == old(generation)
      ensures other.position == old(other.position) && other.basePosition == old(other.basePosition)
      ensures other.size == old(other.size) && other.brightness == old(other.brightness)
      ensures other.speed == old(other.speed) && other.traits == old(other.traits)
      ensures other.time == old(other.time) && other.generation == old(other.generation)
    {
      color[0] := (color[0] + other.color[0]) / 2.0;
      color[1] := (color[1] + other.color[1]) / 2.0;
      color[2] := (color[2] + other.color[2]) / 2.0;
      var energyExchange := (energy - other.energy) * 0.1;
      energy := energy - energyExchange;
      other.energy := other.energy + energyExchange;
    }

    /** `interactWith`: resonate when the other lifeform is closer than 2. */
    method InteractWith(other: PhotonLife)
      requires Valid() && other.Valid()
      modifies this, color, other
      ensures SqDist(old(position[..]), old(other.position[..])) >= ResonanceRadius * ResonanceRadius ==>
                unchanged(this) && unchanged(other) && unchanged(color)
      ensures SqDist(old(position[..]), old(other.position[..])) < ResonanceRadius * ResonanceRadius ==>
                && color[..] == AverageColor(old(color[..]), old(other.color[..]))
                && other.color[..] == old(other.color[..])
                && energy + other.energy == old(energy) + old(other.energy)
                && (other != this ==> (energy, other.energy) == Exchange(old(energy), old(other.energy)))
                && (other == this ==> energy == old(energy))
      ensures SqDist(old(position[..]), old(other.position[..])) < ResonanceRadius * ResonanceRadius ==>
                && position == old(position) && basePosition == old(basePosition)
                && size == old(size) && brightness == old(brightness) && speed == old(speed)
                && traits == old(traits) && time == old(time) && generation == old(generation)
                && other.position == old(other.position) && other.basePosition == old(other.basePosition)
                && other.size == old(other.size) && other.brightness == old(other.brightness)
                && other.speed == old(other.speed) && other.traits == old(other.traits)
                && other.time == old(other.time) && other.generation == old(other.generation)
      ensures color == old(color) && other.color == old(other.color)
    {
      if SqDist(position[..], other.position[..]) < ResonanceRadius * ResonanceRadius {
        ResonateWith(other);
      }
    }
  }
}
