/**
 * The backend's YouTube service: finding video and playlist ids in URLs,
 * turning yt-dlp's output into video and playlist records (the JSON
 * listing, and the plain alternating id/title fallback), accepting an
 * audio stream URL, the 15-minute audio URL cache, and the choice of a
 * thumbnail.
 *
 * Running yt-dlp, reading and writing the cache file and the clock are left
 * out: what the tool printed, the cache file's contents and the current time
 * are parameters, and so is `JSON.parse`, as a function from text to the
 * fields the code reads.
 */
module YouTubeService {
  import opened Common
  import opened JsText

  // ---------------------------------------------------------------- records

  datatype VideoInfo = VideoInfo(id: string, title: string, duration: int, thumbnail: string, audioUrl: string)

  datatype PlaylistInfo = PlaylistInfo(id: string, title: string, videos: seq<VideoInfo>)

  /** A value or the message of the `Error` the code throws. */
  datatype Result<T> = Ok(value: T) | Err(message: string)

  /** One run of yt-dlp: what it printed, or the message it failed with. */
  datatype ToolRun = Ran(stdout: string) | Crashed(message: string)

  /** A string used as a condition: present and not empty. */
  predicate Truthy(o: Option<string>) {
    o.Some? && o.value != ""
  }

  const ThumbnailPrefix := "https://img.youtube.com/vi/"
  const ThumbnailSuffix := "/mqdefault.jpg"

  /** The image YouTube serves for a video id. */
  function ThumbnailUrl(id: string): (r: string)
    ensures r == "https://img.youtube.com/vi/" + id + "/mqdefault.jpg"
    ensures StartsWith(r, "https://img.youtube.com/vi/")
  {
    ThumbnailPrefix + id + ThumbnailSuffix
  }

  /** The id reads back from between the url's fixed prefix and suffix. */
  lemma ThumbnailIdRecovered(id: string)
    ensures var r := ThumbnailUrl(id);
            && |r| == |ThumbnailPrefix| + |id| + |ThumbnailSuffix|
            && r[|ThumbnailPrefix|..|r| - |ThumbnailSuffix|] == id
  {
    var r := ThumbnailUrl(id);
    assert r[|ThumbnailPrefix|..|r| - |ThumbnailSuffix|] == id;
  }

  /** Different ids give different thumbnail urls. */
  lemma ThumbnailUrlInjective(a: string, b: string)
    ensures ThumbnailUrl(a) == ThumbnailUrl(b) ==> a == b
  {
    ThumbnailIdRecovered(a);
    ThumbnailIdRecovered(b);
  }

  // ------------------------------------------------------- id extraction

  /** The characters `[^&\n?#]` allows in an id. */
  predicate IdChar(c: char) {
    c != '&' && c != '\n' && c != '?' && c != '#'
  }

  /** The alternatives of `(?:youtube\.com\/watch\?v=|youtu\.be\/)`, in order. */
  const VideoPrefixes: seq<string> := ["youtube.com/watch?v=", "youtu.be/"]

  /** `[?&]list=` written as its two alternatives. */
  const ListPrefixes: seq<string> := ["?list=", "&list="]

  /** Prefix `p` occurs at `i` and at least one id character follows it. */
  predicate PrefixMatches(s: string, i: nat, p: string) {
    OccursAt(s, p, i) && i + |p| < |s| && IdChar(s[i + |p|])
  }

  /**
   * Where the id starts when the pattern matches at position `i`: after the
   * first alternative that matches there (the regex tries them in order).
   */
  function IdStart(s: string, i: nat, prefixes: seq<string>): (r: Option<nat>)
    ensures r.Some? ==> i <= r.value < |s| && IdChar(s[r.value])
  {
    if prefixes == [] then None
    else if PrefixMatches(s, i, prefixes[0]) then Some(i + |prefixes[0]|)
    else IdStart(s, i, prefixes[1..])
  }

  /**
   * The pattern matches at `i` exactly when one of the alternatives does,
   * and the id then starts right after the first one that does.
   */
  lemma {:induction false} IdStartFirst(s: string, i: nat, prefixes: seq<string>)
    ensures IdStart(s, i, prefixes).None? <==> forall k :: 0 <= k < |prefixes| ==> !PrefixMatches(s, i, prefixes[k])
    ensures IdStart(s, i, prefixes).Some? ==>
              exists k :: 0 <= k < |prefixes| && PrefixMatches(s, i, prefixes[k])
                && IdStart(s, i, prefixes).value == i + |prefixes[k]|
                && forall j :: 0 <= j < k ==> !PrefixMatches(s, i, prefixes[j])
  {
    if prefixes != [] && !PrefixMatches(s, i, prefixes[0]) {
      IdStartFirst(s, i, prefixes[1..]);
      assert forall k :: 1 <= k < |prefixes| ==> prefixes[k] == prefixes[1..][k - 1];
      if IdStart(s, i, prefixes).Some? {
        var k :| 0 <= k < |prefixes[1..]| && PrefixMatches(s, i, prefixes[1..][k])
                 && IdStart(s, i, prefixes).value == i + |prefixes[1..][k]|
                 && forall j :: 0 <= j < k ==> !PrefixMatches(s, i, prefixes[1..][j]);
        assert PrefixMatches(s, i, prefixes[k + 1]);
      }
    }
  }

  /** The leftmost position from `i` on where the pattern matches, with its id start. */
  function Scan(s: string, prefixes: seq<string>, i: nat): (r: Option<(nat, nat)>)
    ensures r.Some? ==> i <= r.value.0 < |s| && IdStart(s, r.value.0, prefixes) == Some(r.value.1)
    decreases |s| - i
  {
    if i >= |s| then None
    else match IdStart(s, i, prefixes)
      case Some(e) => Some((i, e))
      case None => Scan(s, prefixes, i + 1)
  }

  /** `Scan` finds the leftmost match, and nothing only when there is none. */
  lemma {:induction false} ScanLeftmost(s: string, prefixes: seq<string>, i: nat)
    ensures Scan(s, prefixes, i).None? ==> forall j :: i <= j < |s| ==> IdStart(s, j, prefixes).None?
    ensures Scan(s, prefixes, i).Some? ==>
              && i <= Scan(s, prefixes, i).value.0 < |s|
              && IdStart(s, Scan(s, prefixes, i).value.0, prefixes) == Some(Scan(s, prefixes, i).value.1)
              && forall j :: i <= j < Scan(s, prefixes, i).value.0 ==> IdStart(s, j, prefixes).None?
    decreases |s| - i
  {
    if i < |s| && IdStart(s, i, prefixes).None? {
      ScanLeftmost(s, prefixes, i + 1);
    }
  }

  /** Length of the run of id characters from `e` on; the `+` is greedy. */
  function RunLength(s: string, e: nat): (n: nat)
    requires e <= |s|
    ensures e + n <= |s|
    ensures forall k :: e <= k < e + n ==> IdChar(s[k])
    ensures e + n == |s| || !IdChar(s[e + n])
    decreases |s| - e
  {
    if e < |s| && IdChar(s[e]) then 1 + RunLength(s, e + 1) else 0
  }

  /** The run of id characters that starts at `e`. */
  function IdAt(s: string, e: nat): string
    requires e <= |s|
  {
    s[e..e + RunLength(s, e)]
  }

  /** `url.match(regex)[1]` for a pattern "one of `prefixes`, then `[^&\n?#]+`". */
  function Extract(s: string, prefixes: seq<string>): Option<string> {
    match Scan(s, prefixes, 0)
    case None => None
    case Some((_, e)) => Some(IdAt(s, e))
  }

  /**
   * The id is the whole run of allowed characters after the leftmost
   * position where the pattern matches, and there is none exactly when
   * the pattern matches nowhere.
   */
  lemma ExtractLeftmost(s: string, prefixes: seq<string>)
    ensures Extract(s, prefixes).None? <==> forall j :: 0 <= j < |s| ==> IdStart(s, j, prefixes).None?
    ensures Extract(s, prefixes).Some? ==>
              exists i :: 0 <= i < |s| && IdStart(s, i, prefixes).Some?
                && (forall j :: 0 <= j < i ==> IdStart(s, j, prefixes).None?)
                && Extract(s, prefixes).value == IdAt(s, IdStart(s, i, prefixes).value)
  {
    ScanLeftmost(s, prefixes, 0);
  }

  /** An extracted id is not empty and holds none of `& \n ? #`. */
  lemma ExtractedIdChars(s: string, prefixes: seq<string>)
    requires Extract(s, prefixes).Some?
    ensures Extract(s, prefixes).value != []
    ensures forall k :: 0 <= k < |Extract(s, prefixes).value| ==> IdChar(Extract(s, prefixes).value[k])
  {
    var e := Scan(s, prefixes, 0).value.1;
    IdChars(s, e);
  }

  lemma IdChars(s: string, e: nat)
    requires e < |s| && IdChar(s[e])
    ensures IdAt(s, e) != []
    ensures forall k :: 0 <= k < |IdAt(s, e)| ==> IdChar(IdAt(s, e)[k])
  {
    forall k | 0 <= k < |IdAt(s, e)|
      ensures IdChar(IdAt(s, e)[k])
    {
      assert IdAt(s, e)[k] == s[e + k];
    }
  }

  /** `extractVideoId`. */
  function ExtractVideoId(url: string): Option<string> {
    Extract(url, VideoPrefixes)
  }

  /** `extractPlaylistId`. */
  function ExtractPlaylistId(url: string): Option<string> {
    Extract(url, ListPrefixes)
  }

  /** A URL with neither prefix anywhere has no video id. */
  lemma NoPrefixNoVideoId(url: string)
    requires forall i :: 0 <= i <= |url| ==> !OccursAt(url, VideoPrefixes[0], i) && !OccursAt(url, VideoPrefixes[1], i)
    ensures ExtractVideoId(url).None?
  {
    forall j | 0 <= j < |url|
      ensures IdStart(url, j, VideoPrefixes).None?
    {
      IdStartFirst(url, j, VideoPrefixes);
    }
    ExtractLeftmost(url, VideoPrefixes);
  }

  /** A `list=` not preceded by `?` or `&` is never taken for a playlist id. */
  lemma ListNeedsSeparator(url: string)
    requires forall i :: 0 <= i <= |url| ==> !OccursAt(url, ListPrefixes[0], i) && !OccursAt(url, ListPrefixes[1], i)
    ensures ExtractPlaylistId(url).None?
  {
    forall j | 0 <= j < |url|
      ensures IdStart(url, j, ListPrefixes).None?
    {
      IdStartFirst(url, j, ListPrefixes);
    }
    ExtractLeftmost(url, ListPrefixes);
  }

  // ---------------------------------------------------------- video info

  /** A `thumbnails` entry: its `width` (missing or not a number: None) and `url`. */
  datatype Thumbnail = Thumbnail(width: Option<real>, url: string)

  /** The fields `getVideoInfo` reads from yt-dlp's JSON; a missing field is None. */
  datatype VideoData = VideoData(
    title: Option<string>,
    fulltitle: Option<string>,
    duration: Option<real>,
    thumbnail: Option<string>,
    thumbnails: Option<seq<Thumbnail>>,
    webpageUrl: Option<string>)

  predicate MidSize(t: Thumbnail) {
    t.width.Some? && 320.0 <= t.width.value <= 640.0
  }

  /** `thumbnails.find(...)`: the first entry whose width is in [320, 640]. */
  function FirstMidSize(ts: seq<Thumbnail>): (r: Option<nat>)
    ensures r.Some? ==> r.value < |ts| && MidSize(ts[r.value]) && forall j :: 0 <= j < r.value ==> !MidSize(ts[j])
    ensures r.None? ==> forall j :: 0 <= j < |ts| ==> !MidSize(ts[j])
  {
    if ts == [] then None
    else if MidSize(ts[0]) then Some(0)
    else
      var rest := FirstMidSize(ts[1..]);
      assert forall j :: 1 <= j < |ts| ==> ts[j] == ts[1..][j - 1];
      if rest.Some? then Some(rest.value + 1) else None
  }

  /** How a `null` id prints inside a template literal. */
  function IdText(id: Option<string>): string {
    if id.Some? then id.value else "null"
  }

  /**
   * `getBestThumbnail`: the `thumbnail` field; else the first listed
   * thumbnail of medium width, else the middle one; else the image for the
   * id in `webpage_url`. (The final `|| thumbnails[0]` is never reached:
   * the middle entry exists and is an object.)
   */
  function BestThumbnail(d: VideoData): (r: string)
    ensures Truthy(d.thumbnail) ==> r == d.thumbnail.value
    ensures !Truthy(d.thumbnail) && d.thumbnails.Some? && |d.thumbnails.value| > 0 ==>
              exists k :: 0 <= k < |d.thumbnails.value| && r == d.thumbnails.value[k].url
                && (MidSize(d.thumbnails.value[k]) || (k == |d.thumbnails.value| / 2
                    && forall j :: 0 <= j < |d.thumbnails.value| ==> !MidSize(d.thumbnails.value[j])))
                && forall j :: 0 <= j < k ==> !MidSize(d.thumbnails.value[j])
    ensures !Truthy(d.thumbnail) && (d.thumbnails.None? || |d.thumbnails.value| == 0) ==>
              r == ThumbnailUrl(IdText(ExtractVideoId(d.webpageUrl.GetOr(""))))
  {
    if Truthy(d.thumbnail) then d.thumbnail.value
    else if d.thumbnails.Some? && |d.thumbnails.value| > 0 then
      var ts := d.thumbnails.value;
      match FirstMidSize(ts)
      case Some(k) => ts[k].url
      case None => ts[|ts| / 2].url
    else ThumbnailUrl(IdText(ExtractVideoId(d.webpageUrl.GetOr(""))))
  }

  /** `getFallbackVideoInfo`: placeholder details, with id 'unknown' when the URL has none. */
  function FallbackVideoInfo(url: string): (r: VideoInfo)
    ensures ExtractVideoId(url).Some? ==> r.id == ExtractVideoId(url).value
    ensures ExtractVideoId(url).None? ==> r.id == "unknown"
    ensures r.title == "YouTube Video " + r.id && r.duration == 180
    ensures r.thumbnail == ThumbnailUrl(r.id) && r.audioUrl == ""
  {
    var id := ExtractVideoId(url);
    ExtractLeftmost(url, VideoPrefixes);
    var videoId := if Truthy(id) then id.value else "unknown";
    VideoInfo(videoId, "YouTube Video " + videoId, 180, ThumbnailUrl(videoId), "")
  }

  /** `Math.floor(duration) || 180`: a missing, NaN or zero duration becomes 180. */
  function DurationOr180(duration: Option<real>): (r: int)
    ensures r != 0
    ensures duration.Some? && duration.value.Floor != 0 ==> r == duration.value.Floor
    ensures duration.None? || duration.value.Floor == 0 ==> r == 180
  {
    if duration.Some? && duration.value.Floor != 0 then duration.value.Floor else 180
  }

  /**
   * `getVideoInfo`: with an id in the URL and non-blank JSON from the tool,
   * the video's details; on any failure, the fallback details.
   */
  function GetVideoInfo(url: string, run: ToolRun, parse: string -> Option<VideoData>): (r: VideoInfo)
    ensures r.audioUrl == "" && r.duration != 0
    ensures ExtractVideoId(url).None? || run.Crashed? ==> r == FallbackVideoInfo(url)
    ensures ExtractVideoId(url).Some? && run.Ran? && Trim(run.stdout) != [] && parse(run.stdout).Some? ==>
              && r.id == ExtractVideoId(url).value
              && r.thumbnail == BestThumbnail(parse(run.stdout).value)
              && r.duration == DurationOr180(parse(run.stdout).value.duration)
              && r.title != ""
              && (Truthy(parse(run.stdout).value.title) ==> r.title == parse(run.stdout).value.title.value)
              && (!Truthy(parse(run.stdout).value.title) && Truthy(parse(run.stdout).value.fulltitle) ==>
                    r.title == parse(run.stdout).value.fulltitle.value)
              && (!Truthy(parse(run.stdout).value.title) && !Truthy(parse(run.stdout).value.fulltitle) ==>
                    r.title == "Video " + r.id)
    ensures run.Ran? && (Trim(run.stdout) == [] || parse(run.stdout).None?) ==> r == FallbackVideoInfo(url)
  {
    var id := ExtractVideoId(url);
    ExtractLeftmost(url, VideoPrefixes);
    if id.None? || run.Crashed? || Trim(run.stdout) == [] || parse(run.stdout).None? then FallbackVideoInfo(url)
    else
      var d := parse(run.stdout).value;
      var title :=
        if Truthy(d.title) then d.title.value
        else if Truthy(d.fulltitle) then d.fulltitle.value
        else "Video " + id.value;
      VideoInfo(id.value, title, DurationOr180(d.duration), BestThumbnail(d), "")
  }

  // --------------------------------------------------------- playlist info

  /** The fields read from one line of yt-dlp's flat playlist JSON; `duration` is `parseInt`'s result. */
  datatype Entry = Entry(
    id: Option<string>,
    title: Option<string>,
    playlistTitle: Option<string>,
    kind: Option<string>,
    duration: Option<int>,
    thumbnail: Option<string>)

  const UnknownPlaylist: string := "Unknown Playlist"

  /** At most this many videos are returned. */
  const MaxVideos: nat := 50

  predicate IsVideoEntry(e: Entry) {
    Truthy(e.id) && Truthy(e.title) && e.kind != Some("playlist")
  }

  function EntryVideo(e: Entry): (v: VideoInfo)
    requires IsVideoEntry(e)
    ensures v.id == e.id.value && v.title == e.title.value && v.audioUrl == ""
    ensures v.duration == e.duration.GetOr(0)
    ensures Truthy(e.thumbnail) ==> v.thumbnail == e.thumbnail.value
    ensures !Truthy(e.thumbnail) ==> v.thumbnail == ThumbnailUrl(v.id)
  {
    VideoInfo(e.id.value, e.title.value,
              if e.duration.Some? then e.duration.value else 0,
              if Truthy(e.thumbnail) then e.thumbnail.value else ThumbnailUrl(e.id.value), "")
  }

  /** The entries of the lines that parse, in order. */
  function Entries(lines: seq<string>, parse: string -> Option<Entry>): seq<Entry> {
    if lines == [] then []
    else
      var last := parse(lines[|lines| - 1]);
      Entries(lines[..|lines| - 1], parse) + (if last.Some? then [last.value] else [])
  }

  /** The videos the loop has pushed after the given entries. */
  function Videos(entries: seq<Entry>): seq<VideoInfo> {
    if entries == [] then []
    else
      var e := entries[|entries| - 1];
      Videos(entries[..|entries| - 1]) + (if IsVideoEntry(e) then [EntryVideo(e)] else [])
  }

  /** The playlist title after the given entries. */
  function TitleAfter(entries: seq<Entry>): string {
    if entries == [] then UnknownPlaylist
    else
      var t := TitleAfter(entries[..|entries| - 1]);
      var e := entries[|entries| - 1];
      if Truthy(e.playlistTitle) && t == UnknownPlaylist then e.playlistTitle.value else t
  }

  /** The first named playlist title different from 'Unknown Playlist', if any. */
  function FirstTitle(entries: seq<Entry>): string {
    if entries == [] then UnknownPlaylist
    else if Truthy(entries[0].playlistTitle) && entries[0].playlistTitle.value != UnknownPlaylist
    then entries[0].playlistTitle.value
    else FirstTitle(entries[1..])
  }

  /** The title the loop ends with is the first real playlist title seen. */
  lemma {:induction false} TitleIsFirst(entries: seq<Entry>)
    ensures TitleAfter(entries) == FirstTitle(entries)
  {
    if entries != [] {
      var init := entries[..|entries| - 1];
      TitleIsFirst(init);
      FirstTitleAppend(init, entries[|entries| - 1]);
      assert init + [entries[|entries| - 1]] == entries;
    }
  }

  lemma {:induction false} FirstTitleAppend(entries: seq<Entry>, e: Entry)
    ensures FirstTitle(entries + [e]) ==
              if FirstTitle(entries) == UnknownPlaylist && Truthy(e.playlistTitle) then e.playlistTitle.value
              else FirstTitle(entries)
  {
    if entries == [] {
      assert [e][1..] == [];
    } else {
      assert (entries + [e])[1..] == entries[1..] + [e];
      FirstTitleAppend(entries[1..], e);
    }
  }

  /** The elements `keep` accepts, in order: `filter(keep)`. */
  function Filter<T>(s: seq<T>, keep: T -> bool): seq<T> {
    if s == [] then [] else Filter(s[..|s| - 1], keep) + (if keep(s[|s| - 1]) then [s[|s| - 1]] else [])
  }

  /** A filter keeps only what it accepts, and keeps everything when it accepts everything. */
  lemma {:induction false} FilterKeeps<T>(s: seq<T>, keep: T -> bool)
    ensures |Filter(s, keep)| <= |s|
    ensures forall k :: 0 <= k < |Filter(s, keep)| ==> keep(Filter(s, keep)[k])
    ensures (forall k :: 0 <= k < |s| ==> keep(s[k])) ==> Filter(s, keep) == s
  {
    if s != [] {
      var init := s[..|s| - 1];
      FilterKeeps(init, keep);
      assert init + [s[|s| - 1]] == s;
      var r := Filter(s, keep);
      var prev := Filter(init, keep);
      forall k | 0 <= k < |r|
        ensures keep(r[k])
      {
        if k < |prev| {
          assert r[k] == prev[k];
        }
      }
    }
  }

  /** Each kept entry becomes one record, in the same order, and no other entry does. */
  lemma {:induction false} VideosAreKeptEntries(entries: seq<Entry>)
    ensures |Videos(entries)| == |Filter(entries, IsVideoEntry)|
    ensures forall k :: 0 <= k < |Videos(entries)| ==>
              IsVideoEntry(Filter(entries, IsVideoEntry)[k]) && Videos(entries)[k] == EntryVideo(Filter(entries, IsVideoEntry)[k])
  {
    FilterKeeps(entries, IsVideoEntry);
    if entries != [] {
      VideosAreKeptEntries(entries[..|entries| - 1]);
    }
  }

  predicate NotBlank(line: string) {
    Trim(line) != []
  }

  /** `stdout.trim().split('\n').filter(line => line.trim())`. */
  function NonBlankLines(stdout: string): seq<string> {
    Filter(Split(Trim(stdout), '\n'), NotBlank)
  }

  /** The listing lines the loop reads are single non-blank lines. */
  lemma ListingLines(stdout: string)
    ensures forall k :: 0 <= k < |NonBlankLines(stdout)| ==>
              Trim(NonBlankLines(stdout)[k]) != [] && '\n' !in NonBlankLines(stdout)[k]
  {
    var pieces := Split(Trim(stdout), '\n');
    FilterKeeps(pieces, NotBlank);
    FilterFrom(pieces, NotBlank);
  }

  /** Everything a filter keeps comes from its input. */
  lemma {:induction false} FilterFrom<T>(s: seq<T>, keep: T -> bool)
    ensures forall k :: 0 <= k < |Filter(s, keep)| ==> Filter(s, keep)[k] in s
  {
    if s != [] {
      var init := s[..|s| - 1];
      FilterFrom(init, keep);
      var r := Filter(s, keep);
      var prev := Filter(init, keep);
      forall k | 0 <= k < |r|
        ensures r[k] in s
      {
        if k < |prev| {
          assert r[k] == prev[k];
          assert prev[k] in init;
        }
      }
    }
  }

  /** The first `n` elements (all of them when there are fewer): `slice(0, n)`. */
  function Take<T>(s: seq<T>, n: nat): (r: seq<T>)
    ensures |r| <= n && |r| <= |s| && r == s[..|r|]
    ensures |s| <= n ==> r == s
  {
    if |s| <= n then s else s[..n]
  }

  /** The loop over the JSON lines: the playlist title and the videos, in order. */
  method ParseListing(lines: seq<string>, parse: string -> Option<Entry>) returns (title: string, videos: seq<VideoInfo>)
    ensures title == TitleAfter(Entries(lines, parse))
    ensures videos == Videos(Entries(lines, parse))
  {
    videos := [];
    title := UnknownPlaylist;
    var i := 0;
    while i < |lines|
      invariant 0 <= i <= |lines|
      invariant title == TitleAfter(Entries(lines[..i], parse))
      invariant videos == Videos(Entries(lines[..i], parse))
    {
      assert lines[..i + 1][..i] == lines[..i];
      var entry := parse(lines[i]);
      if entry.Some? {
        var e := entry.value;
        if Truthy(e.playlistTitle) && title == UnknownPlaylist {
          title := e.playlistTitle.value;
        }
        if IsVideoEntry(e) {
          videos := videos + [EntryVideo(e)];
        }
        EntriesStep(lines, parse, i);
      } else {
        EntriesStep(lines, parse, i);
      }
      i := i + 1;
    }
    assert lines[..i] == lines;
  }

  lemma EntriesStep(lines: seq<string>, parse: string -> Option<Entry>, i: nat)
    requires i < |lines|
    ensures parse(lines[i]).Some? ==> Entries(lines[..i + 1], parse) == Entries(lines[..i], parse) + [parse(lines[i]).value]
    ensures parse(lines[i]).None? ==> Entries(lines[..i + 1], parse) == Entries(lines[..i], parse)
  {
    assert lines[..i + 1][..i] == lines[..i];
  }

  /** The error messages the primary playlist path throws. */
  const InvalidPlaylistUrl: string := "Invalid playlist URL"
  const NoPlaylistData: string := "No data returned from yt-dlp for playlist"

  /**
   * `getPlaylistInfo`. The id comes from the URL; the JSON listing gives the
   * title and at most 50 videos. On any failure the fallback is tried, and
   * if that fails too the first failure's message is reported.
   */
  method GetPlaylistInfo(url: string, run: ToolRun, parse: string -> Option<Entry>, fallbackRun: ToolRun)
    returns (r: Result<PlaylistInfo>)
    ensures ExtractPlaylistId(url).Some? && run.Ran? && Trim(run.stdout) != [] ==>
              var entries := Entries(NonBlankLines(run.stdout), parse);
              r == Ok(PlaylistInfo(ExtractPlaylistId(url).value, FirstTitle(entries), Take(Videos(entries), MaxVideos)))
    ensures r.Ok? ==> |r.value.videos| <= MaxVideos || r == FallbackPlaylistInfo(url, fallbackRun)
    ensures ExtractPlaylistId(url).None? ==> r == Err("Failed to fetch playlist information: " + InvalidPlaylistUrl)
    ensures ExtractPlaylistId(url).Some? && run.Crashed? ==>
              r == if FallbackPlaylistInfo(url, fallbackRun).Ok? then FallbackPlaylistInfo(url, fallbackRun)
                   else Err("Failed to fetch playlist information: " + run.message)
    ensures ExtractPlaylistId(url).Some? && run.Ran? && Trim(run.stdout) == [] ==>
              r == if FallbackPlaylistInfo(url, fallbackRun).Ok? then FallbackPlaylistInfo(url, fallbackRun)
                   else Err("Failed to fetch playlist information: " + NoPlaylistData)
  {
    var id := ExtractPlaylistId(url);
    var failure: string;
    if id.None? {
      failure := InvalidPlaylistUrl;
    } else if run.Crashed? {
      failure := run.message;
    } else if Trim(run.stdout) == [] {
      failure := NoPlaylistData;
    } else {
      var lines := NonBlankLines(run.stdout);
      var title, videos := ParseListing(lines, parse);
      TitleIsFirst(Entries(lines, parse));
      return Ok(PlaylistInfo(id.value, title, Take(videos, MaxVideos)));
    }
    var fallback := FallbackPlaylistInfo(url, fallbackRun);
    if fallback.Ok? {
      r := fallback;
    } else {
      r := Err("Failed to fetch playlist information: " + failure);
    }
  }

  // ---------------------------------------------------- fallback playlist

  /** The video one (id, title) pair of lines gives, if both are present and the id has 11 code units. */
  function PairVideo(lines: seq<string>): (r: seq<VideoInfo>)
    requires lines != []
  {
    var id := Trim(lines[0]);
    var title := if |lines| >= 2 then Trim(lines[1]) else "";
    if id != [] && title != [] && Length(id) == 11
    then [VideoInfo(id, title, 180, ThumbnailUrl(id), "")]
    else []
  }

  /** The lines from position `i` on (none once `i` is past the end). */
  function Drop(lines: seq<string>, i: nat): seq<string> {
    if i <= |lines| then lines[i..] else []
  }

  /** The videos the fallback keeps, taking the lines two at a time from the front. */
  function PairVideos(lines: seq<string>): seq<VideoInfo>
    decreases |lines|
  {
    if lines == [] then [] else PairVideo(lines) + PairVideos(Drop(lines, 2))
  }

  /** What a kept fallback video looks like. */
  predicate FallbackShape(v: VideoInfo) {
    && Length(v.id) == 11 && v.title != []
    && !IsWhite(v.id[0]) && !IsWhite(v.id[|v.id| - 1]) && !IsWhite(v.title[0]) && !IsWhite(v.title[|v.title| - 1])
    && v.duration == 180 && v.thumbnail == ThumbnailUrl(v.id) && v.audioUrl == ""
  }

  predicate AllFallbackShape(vs: seq<VideoInfo>) {
    forall m :: 0 <= m < |vs| ==> FallbackShape(vs[m])
  }

  /** The video of one pair, if any, has the fallback shape. */
  lemma PairVideoShape(lines: seq<string>)
    requires lines != []
    ensures AllFallbackShape(PairVideo(lines)) && |PairVideo(lines)| <= 1
  {
    if PairVideo(lines) != [] {
      assert |lines| >= 2;
      TrimEnds(lines[0]);
      TrimEnds(lines[1]);
      TrimmedPairShape(Trim(lines[0]), Trim(lines[1]));
    }
  }

  /** A kept pair of trimmed, non-empty lines has the fallback shape. */
  lemma TrimmedPairShape(id: string, title: string)
    requires id != [] && title != [] && Length(id) == 11
    requires !IsWhite(id[0]) && !IsWhite(id[|id| - 1]) && !IsWhite(title[0]) && !IsWhite(title[|title| - 1])
    ensures FallbackShape(VideoInfo(id, title, 180, ThumbnailUrl(id), ""))
  {
  }

  lemma AllFallbackShapeConcat(a: seq<VideoInfo>, b: seq<VideoInfo>)
    requires AllFallbackShape(a) && AllFallbackShape(b)
    ensures AllFallbackShape(a + b)
  {
    forall m | 0 <= m < |a + b|
      ensures FallbackShape((a + b)[m])
    {
      if m >= |a| {
        assert (a + b)[m] == b[m - |a|];
      }
    }
  }

  /**
   * Every kept video has an 11-unit trimmed id, a non-empty trimmed title,
   * duration 180 and the id's thumbnail; each pair of lines gives at most one.
   */
  lemma {:induction false} PairVideosShape(lines: seq<string>)
    ensures AllFallbackShape(PairVideos(lines))
    ensures 2 * |PairVideos(lines)| <= |lines| + 1
    decreases |lines|
  {
    if lines != [] {
      PairVideosShape(Drop(lines, 2));
      PairVideoShape(lines);
      AllFallbackShapeConcat(PairVideo(lines), PairVideos(Drop(lines, 2)));
    }
  }

  lemma PairStep(lines: seq<string>, i: nat)
    requires i < |lines|
    ensures PairVideos(Drop(lines, i)) == PairVideo(lines[i..]) + PairVideos(Drop(lines, i + 2))
  {
    assert Drop(lines[i..], 2) == Drop(lines, i + 2);
  }

  /** The id and title the loop reads at `i` are the pair `PairVideo` looks at. */
  lemma PairAt(lines: seq<string>, i: nat, id: string, title: string)
    requires i < |lines| && id == Trim(lines[i])
    requires title == if i + 1 < |lines| then Trim(lines[i + 1]) else ""
    ensures PairVideo(lines[i..]) ==
              if id != [] && title != [] && Length(id) == 11
              then [VideoInfo(id, title, 180, ThumbnailUrl(id), "")] else []
  {
    assert lines[i..][0] == lines[i];
    if i + 1 < |lines| {
      assert lines[i..][1] == lines[i + 1];
    }
  }

  /** The fallback's loop over the lines, stepping two at a time. */
  method FallbackVideos(lines: seq<string>) returns (videos: seq<VideoInfo>)
    ensures videos == PairVideos(lines)
  {
    videos := [];
    var i := 0;
    while i < |lines|
      invariant 0 <= i <= |lines| + 1
      invariant PairVideos(lines) == videos + PairVideos(Drop(lines, i))
      decreases |lines| - i
    {
      var id := Trim(lines[i]);
      var title := if i + 1 < |lines| then Trim(lines[i + 1]) else "";
      var before := videos;
      if id != [] && title != [] && Length(id) == 11 {
        videos := videos + [VideoInfo(id, title, 180, ThumbnailUrl(id), "")];
      }
      PairLoopStep(lines, i, id, title, before, videos);
      i := i + 2;
    }
  }

  /** One turn of the fallback loop keeps its invariant. */
  lemma PairLoopStep(lines: seq<string>, i: nat, id: string, title: string, before: seq<VideoInfo>, after: seq<VideoInfo>)
    requires i < |lines| && id == Trim(lines[i])
    requires title == if i + 1 < |lines| then Trim(lines[i + 1]) else ""
    requires PairVideos(lines) == before + PairVideos(Drop(lines, i))
    requires after == if id != [] && title != [] && Length(id) == 11
                      then before + [VideoInfo(id, title, 180, ThumbnailUrl(id), "")] else before
    ensures PairVideos(lines) == after + PairVideos(Drop(lines, i + 2))
  {
    var rest := PairVideos(Drop(lines, i + 2));
    PairAt(lines, i, id, title);
    assert before + PairVideo(lines[i..]) == after by {
      if PairVideo(lines[i..]) == [] {
        assert before + [] == before;
      }
    }
    calc {
      PairVideos(lines);
      before + PairVideos(Drop(lines, i));
      { PairStep(lines, i); }
      before + (PairVideo(lines[i..]) + rest);
      { AppendAssoc(before, PairVideo(lines[i..]), rest); }
      (before + PairVideo(lines[i..])) + rest;
      after + rest;
    }
  }

  /** `getFallbackPlaylistInfo`: the id pairs printed by the plain yt-dlp listing. */
  function FallbackPlaylistInfo(url: string, run: ToolRun): (r: Result<PlaylistInfo>)
    ensures ExtractPlaylistId(url).None? ==> r == Err(InvalidPlaylistUrl)
    ensures ExtractPlaylistId(url).Some? && run.Crashed? ==> r == Err(run.message)
    ensures r.Ok? ==>
              && r.value.id == ExtractPlaylistId(url).value
              && r.value.title == "Playlist " + r.value.id
              && AllFallbackShape(r.value.videos)
  {
    var id := ExtractPlaylistId(url);
    if id.None? then Err(InvalidPlaylistUrl)
    else if run.Crashed? then Err(run.message)
    else
      var lines := Split(Trim(run.stdout), '\n');
      PairVideosShape(lines);
      Ok(PlaylistInfo(id.value, "Playlist " + id.value, PairVideos(lines)))
  }

  /** `getFallbackPlaylistInfo` step by step, as the code runs it. */
  method GetFallbackPlaylistInfo(url: string, run: ToolRun) returns (r: Result<PlaylistInfo>)
    ensures r == FallbackPlaylistInfo(url, run)
  {
    var id := ExtractPlaylistId(url);
    if id.None? {
      return Err(InvalidPlaylistUrl);
    }
    if run.Crashed? {
      return Err(run.message);
    }
    var videos := FallbackVideos(Split(Trim(run.stdout), '\n'));
    r := Ok(PlaylistInfo(id.value, "Playlist " + id.value, videos));
  }

  // ----------------------------------------------------------- audio URL

  /** Cached audio URLs are reused for 15 minutes (in milliseconds). */
  const CacheLifetime: int := 900000

  /** The contents of a video's `<id>_audio.json` cache file. */
  datatype CacheEntry = CacheEntry(audioUrl: string, timestamp: int)

  predicate Fresh(c: CacheEntry, now: int) {
    now - c.timestamp < CacheLifetime
  }

  /** An audio URL is accepted only if non-empty, free of "ERROR", and starting with "http". */
  predicate Acceptable(u: string) {
    u != [] && !Includes(u, "ERROR") && StartsWith(u, "http")
  }

  /** The first line of the tool's trimmed output. */
  function FirstLine(stdout: string): (r: string)
    ensures '\n' !in r
  {
    Split(Trim(stdout), '\n')[0]
  }

  /** What `getAudioStream` returns, and what it writes to the cache file. */
  datatype AudioOutcome = AudioOutcome(result: Result<string>, saved: Option<CacheEntry>)

  /**
   * `getAudioStream`: a fresh cached URL is returned as it is; otherwise the
   * tool's first output line, if acceptable, is returned and saved with the
   * time `savedAt`. The cache file is the one for the URL's video id.
   */
  function GetAudioStream(url: string, cached: Option<CacheEntry>, now: int, run: ToolRun, savedAt: int): (r: AudioOutcome)
    ensures ExtractVideoId(url).None? ==>
              r == AudioOutcome(Err("Audio stream unavailable: Invalid YouTube URL"), None)
    ensures ExtractVideoId(url).Some? && cached.Some? && Fresh(cached.value, now) ==>
              r == AudioOutcome(Ok(cached.value.audioUrl), None)
    ensures r.saved.Some? <==> r.result.Ok? && !(cached.Some? && Fresh(cached.value, now))
    ensures r.saved.Some? ==>
              && run.Ran? && r.result.value == FirstLine(run.stdout) && Acceptable(r.result.value)
              && '\n' !in r.result.value && r.saved.value == CacheEntry(r.result.value, savedAt)
    ensures ExtractVideoId(url).Some? && !(cached.Some? && Fresh(cached.value, now)) && run.Ran? ==>
              (r.result.Ok? <==> Acceptable(FirstLine(run.stdout)))
  {
    if ExtractVideoId(url).None? then AudioOutcome(Err("Audio stream unavailable: Invalid YouTube URL"), None)
    else if cached.Some? && Fresh(cached.value, now) then AudioOutcome(Ok(cached.value.audioUrl), None)
    else if run.Crashed? then AudioOutcome(Err("Audio stream unavailable: " + run.message), None)
    else
      var audioUrl := FirstLine(run.stdout);
      if !Acceptable(audioUrl) then AudioOutcome(Err("Audio stream unavailable: No valid audio stream found"), None)
      else AudioOutcome(Ok(audioUrl), Some(CacheEntry(audioUrl, savedAt)))
  }

  /** A saved URL is reused by a later request exactly while less than 15 minutes have passed. */
  lemma CacheReuse(url: string, audioUrl: string, savedAt: int, later: int, run: ToolRun, again: int)
    requires ExtractVideoId(url).Some?
    ensures GetAudioStream(url, Some(CacheEntry(audioUrl, savedAt)), later, run, again).result == Ok(audioUrl)
              <== later - savedAt < CacheLifetime
    ensures later - savedAt >= CacheLifetime ==>
              GetAudioStream(url, Some(CacheEntry(audioUrl, savedAt)), later, run, again)
                == GetAudioStream(url, None, later, run, again)
  {
  }
}
