/**
 * The music player component's navigation and caching logic: the
 * next/previous index arithmetic, the decision taken when a track ends, the
 * preload cache of resolved audio URLs, the 32-bit string hash that picks a
 * demo track, and the `m:ss` time label.
 *
 * The component's `useState` slots become the fields of `Player`; a setter
 * call becomes an assignment to its field. Tracks are objects whose
 * `audioUrl` the code assigns in place, so `Track` is a class. The network
 * request, the audio element, timers and the callbacks to the parent are
 * left out; what a request returns is a parameter.
 */
module MusicPlayer {
  import opened Common
  import opened JsNumber
  import opened JsText

  // ----------------------------------------------------------------- data

  /** A track; `audioUrl` is filled in once its audio has been resolved. */
  class Track {
    const id: string
    const title: string
    const url: string
    const duration: real
    var audioUrl: Option<string>

    constructor (id: string, title: string, url: string, duration: real)
      ensures this.id == id && this.title == title && this.url == url
      ensures this.duration == duration && audioUrl == None
    {
      this.id := id;
      this.title := title;
      this.url := url;
      this.duration := duration;
      audioUrl := None;
    }
  }

  datatype Playlist = Playlist(id: string, name: string, tracks: seq<Track>)

  /** An optional string used as a condition: present and not empty. */
  predicate Truthy(o: Option<string>) {
    o.Some? && o.value != ""
  }

  /** `cache[key]` used as a condition: an entry whose value is not empty. */
  predicate Cached(cache: map<string, string>, key: string) {
    key in cache && cache[key] != ""
  }

  /**
   * The current track index. `(i + 1) % 0` is NaN, so an empty playlist
   * turns the index into NaN, and NaN stays NaN under `+ 1`, `- 1` and `%`.
   */
  datatype Index = At(k: int) | NaN

  predicate InRange(i: Index, n: nat) {
    i.At? && 0 <= i.k < n
  }

  // ----------------------------------------------------------- navigation

  /** `handleNext` without shuffle: `(currentTrackIndex + 1) % tracks.length`. */
  function NextIndex(i: Index, n: nat): (r: Index)
    ensures InRange(i, n) ==> InRange(r, n)
    ensures InRange(i, n) && i.k == n - 1 ==> r == At(0)
    ensures InRange(i, n) && i.k < n - 1 ==> r == At(i.k + 1)
    ensures n == 0 ==> r == NaN
  {
    match i
    case NaN => NaN
    case At(k) =>
      if n == 0 then NaN
      else if 0 <= k < n then
        WrapOnce(k + 1, n);
        At(IntRem(k + 1, n))
      else At(IntRem(k + 1, n))
  }

  lemma WrapOnce(x: int, n: int)
    requires 0 < x <= n
    ensures x % n == if x == n then 0 else x
  {
  }

  /** `handlePrevious` without shuffle: the first track steps back to the last. */
  function PrevIndex(i: Index, n: nat): (r: Index)
    ensures InRange(i, n) ==> InRange(r, n)
    ensures InRange(i, n) && i.k == 0 ==> r == At(n - 1)
    ensures i.NaN? ==> r == NaN
  {
    match i
    case NaN => NaN
    case At(k) => if k == 0 then At(n - 1) else At(k - 1)
  }

  /** Stepping back undoes stepping forward on a non-empty playlist. */
  lemma PrevAfterNext(i: Index, n: nat)
    requires InRange(i, n)
    ensures PrevIndex(NextIndex(i, n), n) == i
  {
  }

  /** Stepping forward undoes stepping back on a non-empty playlist. */
  lemma NextAfterPrev(i: Index, n: nat)
    requires InRange(i, n)
    ensures NextIndex(PrevIndex(i, n), n) == i
  {
  }

  /** Stepping forward `n` times from the start of a playlist of `n` tracks comes back to it. */
  lemma {:induction false} NextCycles(i: Index, n: nat, steps: nat)
    requires InRange(i, n) && i.k + steps <= n
    ensures NextSteps(i, n, steps) == (if i.k + steps == n then At(0) else At(i.k + steps))
  {
    if steps > 0 {
      NextCycles(i, n, steps - 1);
    }
  }

  function NextSteps(i: Index, n: nat, steps: nat): Index {
    if steps == 0 then i else NextIndex(NextSteps(i, n, steps - 1), n)
  }

  /** The shuffled choice `Math.floor(random * tracks.length)`. */
  function ShuffleIndex(random: real, n: nat): (r: Index)
    requires 0.0 <= random < 1.0
    ensures n > 0 ==> InRange(r, n)
    ensures n == 0 ==> r == At(0)
  {
    var x := random * n as real;
    ScaleBelow(random, n as real, x);
    At(Floor(x))
  }

  lemma ScaleBelow(f: real, m: real, x: real)
    requires 0.0 <= f < 1.0 && m >= 0.0 && x == f * m
    ensures 0.0 <= x && (m > 0.0 ==> x < m)
  {
  }

  // ------------------------------------------------------------ track end

  /** What `handleTrackEnd` does, in its order of priority. */
  datatype EndAction =
    | Loop                  // replay the same track
    | Advance(next: Index)  // go on to the next (or a random) track
    | Restart               // the playlist has ended: back to the first track
    | Stop                  // playback stops

  function TrackEnd(looped: bool, hasTrack: bool, hasPlaylist: bool, i: Index, n: nat,
                    autoPlay: bool, shuffled: bool, random: real): EndAction
    requires 0.0 <= random < 1.0
  {
    if looped && hasTrack then Loop
    else if hasPlaylist && i.At? && i.k < n - 1 && autoPlay then
      Advance(if shuffled then ShuffleIndex(random, n) else At(i.k + 1))
    else if hasPlaylist && n > 1 && autoPlay then Restart
    else Stop
  }

  /** The index a track-end action leaves behind. */
  function IndexAfter(a: EndAction, i: Index): Index {
    match a
    case Advance(next) => next
    case Restart => At(0)
    case _ => i
  }

  /**
   * Without loop mode or shuffle, auto-play moves through the playlist
   * exactly as the "next" button does, wrapping from the last track to the
   * first, as long as there is more than one track.
   */
  lemma TrackEndIsNext(hasTrack: bool, i: Index, n: nat, random: real)
    requires 0.0 <= random < 1.0 && InRange(i, n) && n > 1
    ensures IndexAfter(TrackEnd(false, hasTrack, true, i, n, true, false, random), i) == NextIndex(i, n)
    ensures !TrackEnd(false, hasTrack, true, i, n, true, false, random).Stop?
  {
  }

  /**
   * Playback stops exactly when loop mode does not apply and there is no
   * playlist, auto-play is off, or the current track is the last and only
   * one left to play.
   */
  lemma TrackEndStops(looped: bool, hasTrack: bool, hasPlaylist: bool, i: Index, n: nat,
                      autoPlay: bool, shuffled: bool, random: real)
    requires 0.0 <= random < 1.0
    ensures TrackEnd(looped, hasTrack, hasPlaylist, i, n, autoPlay, shuffled, random).Stop?
        <==> !(looped && hasTrack) && (!hasPlaylist || !autoPlay || (!(i.At? && i.k < n - 1) && n <= 1))
  {
  }

  /** Loop mode wins over everything else, and keeps the index. */
  lemma TrackEndLoops(hasPlaylist: bool, i: Index, n: nat, autoPlay: bool, shuffled: bool, random: real)
    requires 0.0 <= random < 1.0
    ensures TrackEnd(true, true, hasPlaylist, i, n, autoPlay, shuffled, random) == Loop
    ensures IndexAfter(Loop, i) == i
  {
  }

  /** Every action keeps a valid index valid. */
  lemma TrackEndInRange(looped: bool, hasTrack: bool, i: Index, n: nat,
                        autoPlay: bool, shuffled: bool, random: real)
    requires 0.0 <= random < 1.0 && InRange(i, n)
    ensures InRange(IndexAfter(TrackEnd(looped, hasTrack, true, i, n, autoPlay, shuffled, random), i), n)
  {
  }

  // ----------------------------------------------------------- audio URLs

  /** The address of the backend's audio proxy; the encoded upstream URL is appended. */
  const ProxyPrefix: string := "http://localhost:3001/api/proxy/audio?url="

  function ProxyUrl(encoded: string): (r: string)
    ensures StartsWith(r, ProxyPrefix) && r[|ProxyPrefix|..] == encoded
  {
    ProxyPrefix + encoded
  }

  /**
   * What the audio-stream request gave back: an HTTP error status, a body
   * whose `audioUrl` may be missing (with `encoded` standing for
   * `encodeURIComponent(audioUrl)`, which is not part of this model), or a
   * failure with a message.
   */
  datatype AudioResponse =
    | HttpError(status: int)
    | Body(audioUrl: Option<string>, encoded: string)
    | Failure(message: string)

  // --------------------------------------------------------------- player

  class Player {
    var playlist: Option<Playlist>
    var currentTrack: Option<Track>
    var trackIndex: Index
    var isPlaying: bool
    var isShuffled: bool
    var isLooped: bool
    var autoPlayEnabled: bool
    var isLoading: bool
    var error: Option<string>
    var cache: map<string, string>
    var isPreloading: bool

    /** The component's initial state: the demo playlist selected, nothing cached. */
    constructor ()
      ensures playlist.Some? && playlist.value.id == "demo" && |playlist.value.tracks| == 3
      ensures fresh(playlist.value.tracks[0]) && fresh(playlist.value.tracks[1]) && fresh(playlist.value.tracks[2])
      ensures playlist.value.tracks[0].id == "1" && playlist.value.tracks[0].duration == 180.0
      ensures playlist.value.tracks[1].id == "2" && playlist.value.tracks[1].duration == 240.0
      ensures playlist.value.tracks[2].id == "3" && playlist.value.tracks[2].duration == 200.0
      ensures trackIndex == At(0) && IndexInRange()
      ensures currentTrack == None && cache == map[] && error == None
      ensures !isPlaying && !isShuffled && !isLooped && !autoPlayEnabled && !isLoading && !isPreloading
    {
      var t1 := new Track("1", "Chill Beat 1", "https://www.youtube.com/watch?v=jfKfPfyJRdk", 180.0);
      var t2 := new Track("2", "Ambient Sound", "https://www.youtube.com/watch?v=5qap5aO4i9A", 240.0);
      var t3 := new Track("3", "Electronic Vibes", "https://www.youtube.com/watch?v=36YnV9STBqc", 200.0);
      playlist := Some(Playlist("demo", "Demo Playlist", [t1, t2, t3]));
      currentTrack := None;
      trackIndex := At(0);
      isPlaying := false;
      isShuffled := false;
      isLooped := false;
      autoPlayEnabled := false;
      isLoading := false;
      error := None;
      cache := map[];
      isPreloading := false;
    }

    /** Number of tracks in the current playlist (0 without one). */
    function Count(): nat
      reads this
    {
      if playlist.Some? then |playlist.value.tracks| else 0
    }

    /** A non-empty playlist's index always names one of its tracks. */
    predicate IndexInRange()
      reads this
    {
      playlist.Some? && Count() > 0 ==> InRange(trackIndex, Count())
    }

    method HandleNext(random: real)
      requires 0.0 <= random < 1.0
      modifies `trackIndex
      ensures playlist.None? ==> trackIndex == old(trackIndex)
      ensures playlist.Some? && isShuffled ==> trackIndex == ShuffleIndex(random, Count())
      ensures playlist.Some? && !isShuffled ==> trackIndex == NextIndex(old(trackIndex), Count())
      ensures old(IndexInRange()) ==> IndexInRange()
    {
      if playlist.None? {
        return;
      }
      if isShuffled {
        trackIndex := ShuffleIndex(random, Count());
      } else {
        trackIndex := NextIndex(trackIndex, Count());
      }
    }

    method HandlePrevious(random: real)
      requires 0.0 <= random < 1.0
      modifies `trackIndex
      ensures playlist.None? ==> trackIndex == old(trackIndex)
      ensures playlist.Some? && isShuffled ==> trackIndex == ShuffleIndex(random, Count())
      ensures playlist.Some? && !isShuffled ==> trackIndex == PrevIndex(old(trackIndex), Count())
      ensures old(IndexInRange()) ==> IndexInRange()
    {
      if playlist.None? {
        return;
      }
      if isShuffled {
        trackIndex := ShuffleIndex(random, Count());
      } else {
        trackIndex := PrevIndex(trackIndex, Count());
      }
    }

    /** What `handleTrackEnd` is about to do in the current state. */
    function PendingEnd(random: real): EndAction
      requires 0.0 <= random < 1.0
      reads this
    {
      TrackEnd(isLooped, currentTrack.Some?, playlist.Some?, trackIndex, Count(), autoPlayEnabled, isShuffled, random)
    }

    /**
     * The track whose `audioUrl` auto-play takes from the cache: the one it
     * moves on to, when that index names a track with a cached URL.
     */
    function Adopted(random: real): set<Track>
      requires 0.0 <= random < 1.0
      reads this
    {
      var a := PendingEnd(random);
      if a.Advance? && InRange(a.next, Count()) && Cached(cache, playlist.value.tracks[a.next.k].id)
      then {playlist.value.tracks[a.next.k]}
      else {}
    }

    /**
     * `handleTrackEnd`: the index moves as `TrackEnd` decides; when auto-play
     * moves on to a track with a cached URL, that URL is copied onto the
     * track (the cache entry stays); when playback stops, `isPlaying` is
     * cleared. Playing, loading and the timers are left out.
     */
    method HandleTrackEnd(random: real)
      requires 0.0 <= random < 1.0
      modifies `trackIndex, `isPlaying, Adopted(random)
      ensures trackIndex == IndexAfter(old(PendingEnd(random)), old(trackIndex))
      ensures isPlaying == (old(isPlaying) && !old(PendingEnd(random)).Stop?)
      ensures forall t :: t in old(Adopted(random)) ==> t.id in cache && t.audioUrl == Some(cache[t.id])
      ensures old(IndexInRange()) ==> IndexInRange()
    {
      var a := PendingEnd(random);
      var adopted := Adopted(random);
      if IndexInRange() && playlist.Some? && Count() > 0 {
        TrackEndInRange(isLooped, currentTrack.Some?, trackIndex, Count(), autoPlayEnabled, isShuffled, random);
      }
      match a
      case Loop =>
      case Advance(next) =>
        if adopted != {} {
          var t := playlist.value.tracks[next.k];
          t.audioUrl := Some(cache[t.id]);
        }
        trackIndex := next;
      case Restart =>
        trackIndex := At(0);
      case Stop =>
        isPlaying := false;
    }

    /**
     * `preloadNextTrack`, run to completion: `fetched` is the encoded URL the
     * request returned, or None when it failed. Nothing happens without a
     * playlist, while another preload runs, past the last track, or when the
     * next track already has audio; otherwise a successful request adds one
     * entry, under the next track's id.
     */
    method PreloadNextTrack(fetched: Option<string>)
      modifies `cache
      ensures var skip := playlist.None? || isPreloading || !NextTrackExists()
                          || Cached(old(cache), NextTrack().id) || Truthy(NextTrack().audioUrl);
              && (skip || fetched.None? ==> cache == old(cache))
              && (!skip && fetched.Some? ==> cache == old(cache)[NextTrack().id := ProxyUrl(fetched.value)])
    {
      if playlist.None? || isPreloading {
        return;
      }
      if !NextTrackExists() {
        return;
      }
      var next := NextTrack();
      if Cached(cache, next.id) || Truthy(next.audioUrl) {
        return;
      }
      if fetched.Some? {
        cache := cache[next.id := ProxyUrl(fetched.value)];
      }
    }

    /**
     * Whether `currentTrackIndex + 1` names a track. Past the end the code
     * returns; before the start (a negative or NaN index) reading the
     * track's id throws and the call ends without effect.
     */
    predicate NextTrackExists()
      reads this
    {
      playlist.Some? && trackIndex.At? && InRange(At(trackIndex.k + 1), Count())
    }

    function NextTrack(): Track
      requires NextTrackExists()
      reads this
    {
      playlist.value.tracks[trackIndex.k + 1]
    }

    /**
     * `loadTrackAudio`, run to completion. A cached URL is taken over and its
     * entry removed; a track that already has a URL is left as it is;
     * otherwise the request's outcome either gives the track its proxy URL
     * or sets the error message.
     */
    method LoadTrackAudio(track: Track, response: AudioResponse)
      modifies `cache, `error, `isLoading, track
      ensures !isLoading
      ensures Cached(old(cache), track.id) ==>
                && track.audioUrl == Some(old(cache)[track.id])
                && cache == old(cache) - {track.id}
                && error == None
      ensures !Cached(old(cache), track.id) ==> cache == old(cache)
      ensures !Cached(old(cache), track.id) && Truthy(old(track.audioUrl)) ==>
                track.audioUrl == old(track.audioUrl) && error == None
      ensures !Cached(old(cache), track.id) && !Truthy(old(track.audioUrl)) ==>
                && (LoadError(response).None? ==> track.audioUrl == Some(ProxyUrl(response.encoded)) && error == None)
                && (LoadError(response).Some? ==> track.audioUrl == old(track.audioUrl)
                                                  && error == Some("Failed to load audio: " + LoadError(response).value))
    {
      isLoading := true;
      error := None;
      if Cached(cache, track.id) {
        track.audioUrl := Some(cache[track.id]);
        cache := cache - {track.id};
      } else if Truthy(track.audioUrl) {
      } else {
        var e := LoadError(response);
        if e.Some? {
          error := Some("Failed to load audio: " + e.value);
        } else {
          track.audioUrl := Some(ProxyUrl(response.encoded));
        }
      }
      isLoading := false;
    }
  }

  /** The message of the error a fresh request ends in, if any. */
  function LoadError(response: AudioResponse): (r: Option<string>)
    ensures r.None? <==> response.Body? && Truthy(response.audioUrl)
  {
    match response
    case HttpError(status) => Some("Failed to get audio: " + IntToString(status))
    case Failure(message) => Some(message)
    case Body(audioUrl, _) => if Truthy(audioUrl) then None else Some("No audio URL received")
  }

  // ----------------------------------------------------------------- hash

  /**
   * The value of the hash over a prefix of code units: every step computes
   * `31 * h + c` and wraps it to a signed 32-bit integer.
   */
  function HashOf(units: seq<int>): (h: int)
    ensures IsInt32(h)
  {
    if units == [] then 0 else ToInt32(31 * HashOf(units[..|units| - 1]) + units[|units| - 1])
  }

  /** Java's `String.hashCode` polynomial, without any wrapping. */
  function Polynomial(units: seq<int>): int {
    if units == [] then 0 else 31 * Polynomial(units[..|units| - 1]) + units[|units| - 1]
  }

  /** Wrapping at every step gives the 32-bit wrap of the whole polynomial. */
  lemma {:induction false} HashIsPolynomial(units: seq<int>)
    ensures HashOf(units) == ToInt32(Polynomial(units))
  {
    if units != [] {
      var init := units[..|units| - 1];
      var c := units[|units| - 1];
      HashIsPolynomial(init);
      ScaledCongruence(Polynomial(init), HashOf(init), c);
      ToInt32Congruent(31 * Polynomial(init) + c, 31 * HashOf(init) + c);
    }
  }

  lemma ScaledCongruence(p: int, h: int, c: int)
    requires h == ToInt32(p)
    ensures ((31 * p + c) - (31 * h + c)) % TwoTo32 == 0
  {
    var q := (p - h) / TwoTo32;
    assert p - h == q * TwoTo32;
    assert (31 * p + c) - (31 * h + c) == (31 * q) * TwoTo32;
    MultipleMod(31 * q);
  }

  lemma MultipleMod(q: int)
    ensures (q * TwoTo32) % TwoTo32 == 0
  {
  }

  /**
   * One step of the loop, `((hash << 5) - hash) + char` followed by
   * `hash & hash`, is `31 * hash + char` wrapped to 32 bits.
   */
  lemma ShiftStep(h: int, c: int, shifted: int)
    requires IsInt32(h) && shifted == ToInt32(h * 32)
    ensures ToInt32(shifted - h + c) == ToInt32(31 * h + c)
  {
    var q := (h * 32 - shifted) / TwoTo32;
    assert h * 32 - shifted == q * TwoTo32;
    assert (shifted - h + c) - (31 * h + c) == (-q) * TwoTo32;
    MultipleMod(-q);
    ToInt32Congruent(shifted - h + c, 31 * h + c);
  }

  /** `String.prototype.hashCode`: the loop over the string's code units. */
  method HashCode(s: string) returns (hash: int)
    ensures hash == HashOf(CodeUnits(s))
    ensures hash == ToInt32(Polynomial(CodeUnits(s)))
  {
    var units := CodeUnits(s);
    hash := 0;
    var i := 0;
    while i < |units|
      invariant 0 <= i <= |units|
      invariant hash == HashOf(units[..i])
    {
      var code := units[i];
      var shifted := ToInt32(hash * 32);
      ShiftStep(hash, code, shifted);
      assert units[..i + 1][..i] == units[..i];
      hash := ToInt32(shifted - hash + code);
      i := i + 1;
    }
    assert units[..i] == units;
    HashIsPolynomial(units);
  }

  /** The three sample files `convertYouTubeUrl` chooses from. */
  const DemoTracks: seq<string> := [
    "https://www.soundjay.com/misc/sounds/bell-ringing-05.wav",
    "https://www.soundjay.com/misc/sounds/bell-ringing-04.wav",
    "https://www.soundjay.com/misc/sounds/bell-ringing-03.wav"
  ]

  /** `convertYouTubeUrl`: `Math.abs(hash) % 3` picks one of the demo files. */
  method ConvertYouTubeUrl(url: string) returns (index: int, r: string)
    ensures 0 <= index < 3 && r == DemoTracks[index]
    ensures index == IntRem(AbsInt(HashOf(CodeUnits(url))), |DemoTracks|)
  {
    var hash := HashCode(url);
    index := IntRem(AbsInt(hash), |DemoTracks|);
    r := DemoTracks[index];
  }

  function AbsInt(x: int): (r: nat)
    ensures r == x || r == -x
  {
    if x < 0 then -x else x
  }

  // ----------------------------------------------------------------- time

  /** `Math.floor(seconds / 60)`. */
  function Minutes(seconds: real): int {
    Floor(seconds / 60.0)
  }

  /** `Math.floor(seconds % 60)`. */
  function SecondsPart(seconds: real): int {
    Floor(Rem(seconds, 60.0))
  }

  /** `formatTime`: minutes, a colon, and the seconds padded to two digits with '0'. */
  function FormatTime(seconds: real): string {
    IntToString(Minutes(seconds)) + ":" + PadStart(IntToString(SecondsPart(seconds)), 2, '0')
  }

  /** For a non-negative time the two parts are whole minutes and the seconds left over. */
  lemma MinutesAndSeconds(seconds: real)
    requires seconds >= 0.0
    ensures Minutes(seconds) >= 0 && 0 <= SecondsPart(seconds) < 60
    ensures 60 * Minutes(seconds) + SecondsPart(seconds) == Floor(seconds)
  {
    var r := Rem(seconds, 60.0);
    var m := Minutes(seconds);
    assert (seconds - r) / 60.0 == m as real;
    assert seconds == 60.0 * (m as real) + r;
    FloorShift(60 * m, r);
  }

  lemma FloorShift(m: int, r: real)
    ensures Floor(m as real + r) == m + Floor(r)
  {
  }

  /** A number below 100 padded to two digits reads back as itself. */
  lemma TwoDigits(x: nat)
    requires x < 100
    ensures |PadStart(NatToString(x), 2, '0')| == 2
    ensures forall k :: 0 <= k < 2 ==> IsDigit(PadStart(NatToString(x), 2, '0')[k])
    ensures ParseNat(PadStart(NatToString(x), 2, '0')) == x
  {
    var d := NatToString(x);
    ParseNatToString(x);
    if x < 10 {
      var p := PadStart(d, 2, '0');
      assert p == ['0'] + d;
      assert p[..1] == ['0'];
      assert ParseNat(['0']) == 0;
    }
  }

  /**
   * Reading a label back: for a non-negative time, `formatTime` gives two
   * colon-separated runs of digits, the second exactly two long and below
   * 60, and minutes times 60 plus seconds is the whole number of seconds.
   */
  lemma FormatTimeReadsBack(seconds: real)
    requires seconds >= 0.0
    ensures |Split(FormatTime(seconds), ':')| == 2
    ensures forall k :: 0 <= k < |Split(FormatTime(seconds), ':')[0]| ==> IsDigit(Split(FormatTime(seconds), ':')[0][k])
    ensures |Split(FormatTime(seconds), ':')[1]| == 2
    ensures forall k :: 0 <= k < 2 ==> IsDigit(Split(FormatTime(seconds), ':')[1][k])
    ensures ParseNat(Split(FormatTime(seconds), ':')[1]) < 60
    ensures 60 * ParseNat(Split(FormatTime(seconds), ':')[0]) + ParseNat(Split(FormatTime(seconds), ':')[1]) == Floor(seconds)
  {
    MinutesAndSeconds(seconds);
    var mins := NatToString(Minutes(seconds));
    var secs := PadStart(NatToString(SecondsPart(seconds)), 2, '0');
    TwoDigits(SecondsPart(seconds));
    ParseNatToString(Minutes(seconds));
    assert ':' !in mins;
    assert ':' !in secs;
    assert FormatTime(seconds) == Join([mins, secs], ':');
    SplitJoin([mins, secs], ':');
  }
}
