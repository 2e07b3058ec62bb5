/**
 * Value types shared by the frontend components: the optional value that
 * stands for JavaScript's `undefined`/`null`, the audio-feature record every
 * component receives, three-component vectors, and the two shapes of CSS
 * colour text the components build.
 */
module Common {

  datatype Option<+T> = None | Some(value: T) {
    function GetOr(default: T): T {
      match this
      case Some(v) => v
      case None => default
    }
  }

  /** An `[x, y, z]` or `[r, g, b]` tuple. */
  type Vec3 = s: seq<real> | |s| == 3 witness [0.0, 0.0, 0.0]

  const Zero3: Vec3 := [0.0, 0.0, 0.0]

  /** Squared Euclidean distance; the models compare it with squared radii. */
  function SqDist(a: Vec3, b: Vec3): (r: real)
    ensures r >= 0.0
  {
    var dx, dy, dz := a[0] - b[0], a[1] - b[1], a[2] - b[2];
    SquareNonNegative(dx);
    SquareNonNegative(dy);
    SquareNonNegative(dz);
    dx * dx + dy * dy + dz * dz
  }

  lemma SquareNonNegative(x: real)
    ensures x * x >= 0.0
  {
  }

  /** Concatenation is associative. */
  lemma AppendAssoc<T>(a: seq<T>, b: seq<T>, c: seq<T>)
    ensures (a + b) + c == a + (b + c)
  {
  }

  /**
   * The audio features the analyser hands to every component each frame:
   * `bpm`, `pitch` in Hz, `volume` in percent and the scaled leading
   * frequency bins.
   */
  datatype AudioFeatures = AudioFeatures(bpm: real, pitch: real, volume: real, frequency: seq<real>)

  /** CSS colour text: `#rrggbb` literals and `hsl(h, s%, l%)` built from a hue. */
  datatype CssColor = Hex(code: string) | Hsl(hue: real, saturation: nat, lightness: nat)
}
