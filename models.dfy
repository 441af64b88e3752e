/** Records of the gateway (visitor contexts, tracks, thumbnails) and the parsers that turn
    upstream search documents into tracks. */
module Models {
  import opened Base
  import opened Text
  import opened JsonDoc

  /** The two upstream catalogues; `Code` is the integer Go gives the constant. */
  datatype SearchType = YouTube | YouTubeMusic {
    function Code(): nat {
      if YouTube? then 0 else 1
    }
  }

  // ---------------------------------------------------------------- visitor contexts

  /** 30 minutes, in nanoseconds (Go's `time.Duration` unit). */
  const VisitorTtl: int := 30 * 60 * 1_000_000_000

  /** A client identity: the INNERTUBE_CONTEXT document, its creation time (ns) and channel. */
  datatype Visitor = Visitor(context: map<string, Json>, createdAt: int, isYouTube: bool)

  /** More than 30 minutes have passed since the visitor was created. */
  predicate IsExpired(v: Visitor, now: int) {
    now - v.createdAt > VisitorTtl
  }

  /** A visitor is fresh for exactly 30 minutes after its creation, and once expired it
      stays expired. */
  lemma VisitorLifetime(v: Visitor, now: int, later: int)
    requires now <= later
    ensures !IsExpired(v, v.createdAt + VisitorTtl) && IsExpired(v, v.createdAt + VisitorTtl + 1)
    ensures IsExpired(v, now) ==> IsExpired(v, later)
  {
  }

  /** `v.Context["client"]` holds an object; otherwise the type assertion in `VisitorID` panics. */
  predicate HasClient(v: Visitor) {
    "client" in v.context && v.context["client"].Obj?
  }

  /** The visitor id sent upstream: `client.visitorData` when it is a string, otherwise "". */
  function VisitorID(v: Visitor): (id: string)
    requires HasClient(v)
    ensures var d := Get(Obj(v.context), ["client", "visitorData"]);
            if d.Some? && d.value.Str? then id == d.value.s else id == ""
  {
    var client := v.context["client"].fields;
    if "visitorData" in client && client["visitorData"].Str? then client["visitorData"].s else ""
  }

  // ---------------------------------------------------------------- tracks

  datatype Thumbnail = Thumbnail(url: string, width: int, height: int)

  datatype Track = Track(
    title: string,
    author: string,
    identifier: string,
    images: seq<Thumbnail>,
    length: int,
    uri: string,
    trackType: string,
    views: string,
    channelId: string,
    isLive: bool)

  const MusicWatchUrl := "https://music.youtube.com/watch?v="
  const VideoWatchUrl := "https://www.youtube.com/watch?v="

  function ThumbnailOf(thumb: Json): Thumbnail {
    Thumbnail(AsString(Get(thumb, ["url"])), AsInt(Get(thumb, ["width"])), AsInt(Get(thumb, ["height"])))
  }

  /** The thumbnail list: one entry per element when the result is an array, else none. */
  function Thumbnails(arr: Option<Json>): seq<Thumbnail> {
    if Exists(arr) && IsArray(arr) then
      var items := arr.value.items;
      seq(|items|, i requires 0 <= i < |items| => ThumbnailOf(items[i]))
    else []
  }

  // ---------------------------------------------------------------- durations

  /** `parseDurationText`: "h:m:s", "m:s" or "s" in milliseconds; any other number of
      colon-separated parts gives 0, and a part that is not a number counts as 0. */
  function ParseDurationText(text: string): (ms: int)
    ensures ms % 1000 == 0
    ensures |Split(text, ':')| > 3 ==> ms == 0
  {
    var parts := Split(text, ':');
    var hours := if |parts| == 3 then AtoiOrZero(parts[0]) else 0;
    var minutes :=
      if |parts| == 3 then AtoiOrZero(parts[1])
      else if |parts| == 2 then AtoiOrZero(parts[0])
      else 0;
    var seconds :=
      if |parts| == 3 then AtoiOrZero(parts[2])
      else if |parts| == 2 then AtoiOrZero(parts[1])
      else if |parts| == 1 then AtoiOrZero(parts[0])
      else 0;
    (hours * 3600 + minutes * 60 + seconds) * 1000
  }

  /** A digit string `d` read as an Atoi component. */
  lemma AtoiDigits(d: string)
    requires |d| > 0 && AllDigits(d)
    ensures AtoiOrZero(d) == DigitsValue(d)
  {
  }

  /** No digit string contains the colon separator. */
  lemma NoColon(d: string)
    requires AllDigits(d)
    ensures ':' !in d
  {
  }

  /** Three parts are read as hours, minutes and seconds. */
  lemma DurationOfThreeParts(text: string, h: string, m: string, s: string)
    requires Split(text, ':') == [h, m, s]
    ensures ParseDurationText(text) == (AtoiOrZero(h) * 3600 + AtoiOrZero(m) * 60 + AtoiOrZero(s)) * 1000
  {
  }

  /** Two parts are read as minutes and seconds. */
  lemma DurationOfTwoParts(text: string, m: string, s: string)
    requires Split(text, ':') == [m, s]
    ensures ParseDurationText(text) == (AtoiOrZero(m) * 60 + AtoiOrZero(s)) * 1000
  {
  }

  /** One part is read as seconds. */
  lemma DurationOfOnePart(text: string, s: string)
    requires Split(text, ':') == [s]
    ensures ParseDurationText(text) == AtoiOrZero(s) * 1000
  {
  }

  /** "h:m:s" with digit components is (h*3600 + m*60 + s) seconds. */
  lemma {:induction false} DurationHms(h: string, m: string, s: string)
    requires |h| > 0 && AllDigits(h) && |m| > 0 && AllDigits(m) && |s| > 0 && AllDigits(s)
    ensures ParseDurationText(h + ":" + m + ":" + s) ==
            (DigitsValue(h) * 3600 + DigitsValue(m) * 60 + DigitsValue(s)) * 1000
  {
    NoColon(h);
    NoColon(m);
    NoColon(s);
    var text := h + ":" + m + ":" + s;
    assert text == h + [':'] + (m + [':'] + s);
    SplitCons(h, ':', m + [':'] + s);
    SplitCons(m, ':', s);
    SplitSingle(s, ':');
    assert Split(text, ':') == [h, m, s];
    AtoiDigits(h);
    AtoiDigits(m);
    AtoiDigits(s);
    DurationOfThreeParts(text, h, m, s);
  }

  /** "m:s" with digit components is (m*60 + s) seconds. */
  lemma {:induction false} DurationMs(m: string, s: string)
    requires |m| > 0 && AllDigits(m) && |s| > 0 && AllDigits(s)
    ensures ParseDurationText(m + ":" + s) == (DigitsValue(m) * 60 + DigitsValue(s)) * 1000
  {
    NoColon(m);
    NoColon(s);
    var text := m + ":" + s;
    assert text == m + [':'] + s;
    SplitCons(m, ':', s);
    SplitSingle(s, ':');
    assert Split(text, ':') == [m, s];
    AtoiDigits(m);
    AtoiDigits(s);
    DurationOfTwoParts(text, m, s);
  }

  /** "s" with a digit string is s seconds. */
  lemma {:induction false} DurationSeconds(s: string)
    requires |s| > 0 && AllDigits(s)
    ensures ParseDurationText(s) == DigitsValue(s) * 1000
  {
    NoColon(s);
    SplitSingle(s, ':');
    AtoiDigits(s);
    DurationOfOnePart(s, s);
  }

  /** Rendering a clock reading as "h:m:s" and parsing it back gives its length. */
  lemma DurationOfClock(h: nat, m: nat, s: nat)
    ensures ParseDurationText(Decimal(h) + ":" + Decimal(m) + ":" + Decimal(s)) == (h * 3600 + m * 60 + s) * 1000
  {
    DecimalValue(h);
    DecimalValue(m);
    DecimalValue(s);
    DurationHms(Decimal(h), Decimal(m), Decimal(s));
  }

  /** A component that is not a number counts as zero: "x:05" is five seconds. */
  lemma DurationNonNumericPart()
    ensures ParseDurationText("x:05") == 5000
  {
    SplitCons("x", ':', "05");
    assert Split("05", ':') == ["05"];
    assert Atoi("x") == None;
    assert DigitsValue("05") == 5 by {
      assert "05"[..1] == "0";
      assert "0"[..0] == "";
    }
  }

  // ---------------------------------------------------------------- music items

  const MusicRendererKey := "musicResponsiveListItemRenderer"
  const MusicThumbnailsPath := ["thumbnail", "musicThumbnailRenderer", "thumbnail", "thumbnails"]
  const MusicTitlePath := ["flexColumns", "0", "musicResponsiveListItemFlexColumnRenderer", "text", "runs", "0", "text"]
  const FlexRunsPath := ["musicResponsiveListItemFlexColumnRenderer", "text", "runs"]
  const FlexFirstTextPath := ["musicResponsiveListItemFlexColumnRenderer", "text", "runs", "0", "text"]
  const MenuItemsPath := ["menu", "menuRenderer", "items"]
  const BrowseIdPath := ["navigationEndpoint", "browseEndpoint", "browseId"]
  const VideoThumbnailMarker := "i.ytimg.com/vi/"

  const ErrNoMusicRenderer := "musicResponsiveListItemRenderer not found"
  const ErrFewFlexColumns := "expected 3 flex columns"
  const ErrNoLengthRun := "author and length runs are empty"
  const ErrBadDuration := "failed to parse duration"

  function RunText(run: Json): string {
    AsString(Get(run, ["text"]))
  }

  /** A run whose trimmed text is the bullet that separates the author from the rest. */
  predicate IsBullet(run: Json) {
    TrimSpace(RunText(run)) == "•"
  }

  /** The author of a music item: the run texts before the first bullet, concatenated. */
  function AuthorOf(runs: seq<Json>): string {
    if runs == [] || IsBullet(runs[0]) then "" else RunText(runs[0]) + AuthorOf(runs[1..])
  }

  /** Position of the first bullet run, or `|runs|` when there is none. */
  function FirstBullet(runs: seq<Json>): (k: nat)
    ensures k <= |runs|
    ensures forall j :: 0 <= j < k ==> !IsBullet(runs[j])
    ensures k < |runs| ==> IsBullet(runs[k])
  {
    if runs == [] || IsBullet(runs[0]) then 0 else 1 + FirstBullet(runs[1..])
  }

  /** The texts of `runs`, concatenated in order. */
  function ConcatTexts(runs: seq<Json>): string {
    if runs == [] then "" else ConcatTexts(runs[..|runs| - 1]) + RunText(runs[|runs| - 1])
  }

  lemma {:induction false} ConcatTextsCons(runs: seq<Json>)
    requires runs != []
    ensures ConcatTexts(runs) == RunText(runs[0]) + ConcatTexts(runs[1..])
  {
    if |runs| > 1 {
      ConcatTextsCons(runs[..|runs| - 1]);
      assert runs[..|runs| - 1][1..] == runs[1..][..|runs[1..]| - 1];
    } else {
      assert runs[..0] == [];
    }
  }

  /** The author is exactly the texts of the runs before the first bullet. */
  lemma {:induction false} AuthorIsTextsBeforeBullet(runs: seq<Json>)
    ensures AuthorOf(runs) == ConcatTexts(runs[..FirstBullet(runs)])
  {
    if runs != [] && !IsBullet(runs[0]) {
      var k := FirstBullet(runs);
      AuthorIsTextsBeforeBullet(runs[1..]);
      ConcatTextsCons(runs[..k]);
      assert runs[..k][1..] == runs[1..][..FirstBullet(runs[1..])];
    } else {
      assert runs[..0] == [];
    }
  }

  /** The author loop: concatenate run texts until the first bullet. */
  method CollectAuthor(runs: seq<Json>) returns (author: string)
    ensures author == AuthorOf(runs)
  {
    author := "";
    var i := 0;
    while i < |runs|
      invariant i <= FirstBullet(runs)
      invariant author == ConcatTexts(runs[..i])
    {
      var text := RunText(runs[i]);
      if IsBullet(runs[i]) {
        break;
      }
      assert runs[..i + 1][..i] == runs[..i];
      assert ConcatTexts(runs[..i + 1]) == ConcatTexts(runs[..i]) + text;
      author := author + text;
      i := i + 1;
    }
    assert i == FirstBullet(runs);
    AuthorIsTextsBeforeBullet(runs);
  }

  /** The navigation item of a menu entry leads to the artist: it has a run reading
      "go to artist" (any case, trimmed) and a non-empty browse id. */
  predicate LeadsToArtist(menuItem: Json) {
    var nav := Get(menuItem, ["menuNavigationItemRenderer"]);
    && Exists(nav)
    && IsArray(Get(nav.value, ["text", "runs"]))
    && HasArtistRun(AsArray(Get(nav.value, ["text", "runs"])))
    && HasBrowseId(nav.value)
  }

  /** Some run reads "go to artist". */
  predicate HasArtistRun(runs: seq<Json>) {
    runs != [] && (IsArtistRun(runs[0]) || HasArtistRun(runs[1..]))
  }

  lemma {:induction false} HasArtistRunSnoc(runs: seq<Json>, run: Json)
    ensures HasArtistRun(runs + [run]) == (HasArtistRun(runs) || IsArtistRun(run))
  {
    if runs != [] {
      assert (runs + [run])[1..] == runs[1..] + [run];
      HasArtistRunSnoc(runs[1..], run);
    } else {
      assert [run][1..] == [];
    }
  }

  lemma {:induction false} HasArtistRunAt(runs: seq<Json>, k: nat)
    requires k < |runs| && IsArtistRun(runs[k])
    ensures HasArtistRun(runs)
  {
    if k > 0 {
      assert runs[1..][k - 1] == runs[k];
      HasArtistRunAt(runs[1..], k - 1);
    }
  }

  predicate IsArtistRun(run: Json) {
    ToLower(TrimSpace(RunText(run))) == "go to artist"
  }

  /** The navigation item names a non-empty browse id. */
  predicate HasBrowseId(nav: Json) {
    Exists(Get(nav, BrowseIdPath)) && AsString(Get(nav, BrowseIdPath)) != ""
  }

  /** The browse id of a menu entry's navigation item. */
  function BrowseIdOf(menuItem: Json): string {
    var nav := Get(menuItem, ["menuNavigationItemRenderer"]);
    if nav.Some? then AsString(Get(nav.value, BrowseIdPath)) else ""
  }

  /** The artist channel id: the browse id of the first menu entry that leads to the
      artist, or "" when none does. */
  function ArtistChannel(menuItems: seq<Json>): (id: string)
    ensures id != "" <==> exists i :: 0 <= i < |menuItems| && LeadsToArtist(menuItems[i])
  {
    if menuItems == [] then ""
    else if LeadsToArtist(menuItems[0]) then BrowseIdOf(menuItems[0])
    else
      var rest := ArtistChannel(menuItems[1..]);
      assert forall i :: 1 <= i < |menuItems| ==> menuItems[i] == menuItems[1..][i - 1];
      rest
  }

  /** The channel id comes from the FIRST entry that leads to the artist. */
  lemma {:induction false} ArtistChannelIsFirst(menuItems: seq<Json>, k: nat)
    requires k < |menuItems| && LeadsToArtist(menuItems[k])
    requires forall j :: 0 <= j < k ==> !LeadsToArtist(menuItems[j])
    ensures ArtistChannel(menuItems) == BrowseIdOf(menuItems[k])
  {
    if k > 0 {
      ArtistChannelIsFirst(menuItems[1..], k - 1);
    }
  }

  /** The inner search of one menu entry: its browse id when one of its runs reads
      "go to artist" and the id is non-empty, else "". */
  method EntryArtistChannel(menuItem: Json) returns (channelId: string)
    ensures channelId != "" <==> LeadsToArtist(menuItem)
    ensures channelId != "" ==> channelId == BrowseIdOf(menuItem)
  {
    channelId := "";
    var nav := Get(menuItem, ["menuNavigationItemRenderer"]);
    if !Exists(nav) {
      return;
    }
    var runs := Get(nav.value, ["text", "runs"]);
    if !IsArray(runs) {
      return;
    }
    var items := AsArray(runs);
    for r := 0 to |items|
      invariant channelId == ""
      invariant HasBrowseId(nav.value) ==> !HasArtistRun(items[..r])
    {
      assert items[..r + 1] == items[..r] + [items[r]];
      HasArtistRunSnoc(items[..r], items[r]);
      if IsArtistRun(items[r]) {
        var cid := Get(nav.value, BrowseIdPath);
        if Exists(cid) && AsString(cid) != "" {
          channelId := AsString(cid);
          HasArtistRunAt(items, r);
          return;
        }
      }
    }
    assert items[..|items|] == items;
  }

  /** The labelled `outer` search of the menu for the artist's channel id: the first
      entry with a channel id ends it. */
  method FindArtistChannel(menuItems: seq<Json>) returns (channelId: string)
    ensures channelId == ArtistChannel(menuItems)
  {
    channelId := "";
    for i := 0 to |menuItems|
      invariant channelId == ""
      invariant forall j :: 0 <= j < i ==> !LeadsToArtist(menuItems[j])
    {
      channelId := EntryArtistChannel(menuItems[i]);
      if channelId != "" {
        ArtistChannelIsFirst(menuItems, i);
        return;
      }
    }
  }

  /** "video" when the first thumbnail is a video still, otherwise "song". */
  function MusicItemType(thumbnails: seq<Thumbnail>): string {
    if |thumbnails| > 0 && Contains(thumbnails[0].url, VideoThumbnailMarker) then "video" else "song"
  }

  function FlexColumns(renderer: Json): seq<Json> {
    AsArray(Get(renderer, ["flexColumns"]))
  }

  /** The runs of the second flex column: author, bullet, ..., length. */
  function AuthorAndLengthRuns(renderer: Json): seq<Json>
    requires |FlexColumns(renderer)| >= 3
  {
    AsArray(Get(FlexColumns(renderer)[1], FlexRunsPath))
  }

  /** The item passes every check of `parseYouTubeMusicTrack` that comes before the
      duration: renderer present, three flex columns, a last run to read the length from. */
  predicate MusicItemShaped(item: Json) {
    var renderer := Get(item, [MusicRendererKey]);
    && renderer.Some?
    && |FlexColumns(renderer.value)| >= 3
    && |AuthorAndLengthRuns(renderer.value)| > 0
  }

  /** The length text of a shaped music item: the text of the last author/length run. */
  function MusicLengthText(item: Json): string
    requires MusicItemShaped(item)
  {
    var runs := AuthorAndLengthRuns(Get(item, [MusicRendererKey]).value);
    RunText(runs[|runs| - 1])
  }

  /** `parseYouTubeMusicTrack`, with an empty author/length column rejected as an error
      (the Go code indexes the last run and panics; see `MusicTrackAsWritten`). */
  function MusicTrack(item: Json): (r: Result<Track>)
    ensures !r.Panic?
    ensures r.Ok? <==> MusicItemShaped(item) && ParseDurationText(MusicLengthText(item)) != 0
    ensures r.Ok? ==> var renderer := Get(item, [MusicRendererKey]).value;
                      && r.value.length == ParseDurationText(MusicLengthText(item)) != 0
                      && r.value.uri == MusicWatchUrl + r.value.identifier
                      && r.value.author == AuthorOf(AuthorAndLengthRuns(renderer))
                      && r.value.channelId == ArtistChannel(AsArray(Get(renderer, MenuItemsPath)))
                      && (r.value.trackType == "video" <==>
                            |r.value.images| > 0 && Contains(r.value.images[0].url, VideoThumbnailMarker))
                      && (r.value.trackType == "video" || r.value.trackType == "song")
  {
    var renderer := Get(item, [MusicRendererKey]);
    if renderer.None? then Err(ErrNoMusicRenderer)
    else
      var ren := renderer.value;
      var thumbnails := Thumbnails(Get(ren, MusicThumbnailsPath));
      var title := AsString(Get(ren, MusicTitlePath));
      var flex := FlexColumns(ren);
      if |flex| < 3 then Err(ErrFewFlexColumns)
      else
        var runs := AuthorAndLengthRuns(ren);
        if |runs| == 0 then Err(ErrNoLengthRun)
        else
          var length := RunText(runs[|runs| - 1]);
          var videoId := AsString(Get(ren, ["playlistItemData", "videoId"]));
          var ms := ParseDurationText(length);
          if ms == 0 then Err(ErrBadDuration)
          else Ok(MusicRecord(ren, runs, ms))
  }

  /** The track of a music renderer that passed the checks, with its author/length runs and
      its length in milliseconds. */
  function MusicRecord(ren: Json, runs: seq<Json>, ms: int): Track
    requires |FlexColumns(ren)| >= 3
  {
    var videoId := AsString(Get(ren, ["playlistItemData", "videoId"]));
    var thumbnails := Thumbnails(Get(ren, MusicThumbnailsPath));
    Track(
      title := AsString(Get(ren, MusicTitlePath)),
      author := AuthorOf(runs),
      identifier := videoId,
      images := thumbnails,
      length := ms,
      uri := MusicWatchUrl + videoId,
      trackType := MusicItemType(thumbnails),
      views := AsString(Get(FlexColumns(ren)[2], FlexFirstTextPath)),
      channelId := ArtistChannel(AsArray(Get(ren, MenuItemsPath))),
      isLive := false)
  }

  /** An item that passes every check before the duration is rejected for a zero duration
      and otherwise parses to the record of its renderer. */
  lemma MusicTrackOfShaped(item: Json)
    requires MusicItemShaped(item)
    ensures var ren := Get(item, [MusicRendererKey]).value;
            var ms := ParseDurationText(MusicLengthText(item));
            MusicTrack(item) == if ms == 0 then Err(ErrBadDuration) else Ok(MusicRecord(ren, AuthorAndLengthRuns(ren), ms))
  {
  }

  /** `parseYouTubeMusicTrack` as written: `authorAndLengthRuns[len(authorAndLengthRuns)-1]`
      panics when the second flex column has no runs. */
  function MusicTrackAsWritten(item: Json): Result<Track> {
    var renderer := Get(item, [MusicRendererKey]);
    if renderer.Some? && |FlexColumns(renderer.value)| >= 3 && |AuthorAndLengthRuns(renderer.value)| == 0 then
      Panic("index out of range [-1]")
    else
      MusicTrack(item)
  }

  /** An item whose renderer has three empty flex columns crashes the Go parser, while the
      corrected parser reports an error and the item is skipped. */
  lemma EmptyFlexColumnPanics()
    ensures var item := Obj(map[MusicRendererKey := Obj(map["flexColumns" := Arr([Null, Null, Null])])]);
            MusicTrackAsWritten(item).Panic? && MusicTrack(item).Err?
  {
    var ren := Obj(map["flexColumns" := Arr([Null, Null, Null])]);
    var item := Obj(map[MusicRendererKey := ren]);
    assert Get(item, [MusicRendererKey]) == Some(ren);
    assert Get(ren, ["flexColumns"]) == Some(Arr([Null, Null, Null]));
    assert FlexColumns(ren) == [Null, Null, Null];
    assert Get(Null, FlexRunsPath) == None;
  }

  /** The imperative `parseYouTubeMusicTrack` (corrected as in `MusicTrack`): the shape
      checks, the author loop, then the remaining fields. */
  method ParseMusicTrack(item: Json) returns (r: Result<Track>)
    ensures r == MusicTrack(item)
  {
    var renderer := Get(item, [MusicRendererKey]);
    if !Exists(renderer) {
      return Err(ErrNoMusicRenderer);
    }
    var ren := renderer.value;
    var flex := FlexColumns(ren);
    if |flex| < 3 {
      return Err(ErrFewFlexColumns);
    }
    var runs := AsArray(Get(flex[1], FlexRunsPath));
    var author := CollectAuthor(runs);
    if |runs| == 0 {
      return Err(ErrNoLengthRun);
    }
    r := FinishMusicTrack(item, ren, runs, author);
  }

  /** The rest of `parseYouTubeMusicTrack` once the checks passed: the length, views, id,
      the channel search, the duration check and the item type. */
  method FinishMusicTrack(item: Json, ren: Json, runs: seq<Json>, author: string) returns (r: Result<Track>)
    requires MusicItemShaped(item) && Get(item, [MusicRendererKey]) == Some(ren)
    requires runs == AuthorAndLengthRuns(ren) && author == AuthorOf(runs)
    ensures r == MusicTrack(item)
  {
    MusicTrackOfShaped(item);
    var thumbnails := Thumbnails(Get(ren, MusicThumbnailsPath));
    var title := AsString(Get(ren, MusicTitlePath));
    var length := RunText(runs[|runs| - 1]);
    assert length == MusicLengthText(item);
    var views := AsString(Get(FlexColumns(ren)[2], FlexFirstTextPath));
    var videoId := AsString(Get(ren, ["playlistItemData", "videoId"]));
    var channelId := FindArtistChannel(AsArray(Get(ren, MenuItemsPath)));
    var ms := ParseDurationText(length);
    if ms == 0 {
      return Err(ErrBadDuration);
    }
    var itemType := "song";
    if |thumbnails| > 0 {
      if Contains(thumbnails[0].url, VideoThumbnailMarker) {
        itemType := "video";
      }
    }
    var track := Track(title, author, videoId, thumbnails, ms, MusicWatchUrl + videoId, itemType, views, channelId, false);
    assert track == MusicRecord(ren, runs, ms) by {
      assert itemType == MusicItemType(thumbnails);
    }
    r := Ok(track);
  }

  // ---------------------------------------------------------------- video items

  const ErrNoVideoRenderer := "videoRenderer not found"

  function VideoLengthText(item: Json): string {
    var renderer := Get(item, ["videoRenderer"]);
    if renderer.Some? then AsString(Get(renderer.value, ["lengthText", "simpleText"])) else ""
  }

  /** `parseYouTubeTrack`: a video-search item is a "video" whose uri is the watch URL of
      its id; it is rejected when the renderer is missing or the duration reads as 0. */
  function VideoTrack(item: Json): (r: Result<Track>)
    ensures !r.Panic?
    ensures r.Ok? <==> Exists(Get(item, ["videoRenderer"])) && ParseDurationText(VideoLengthText(item)) != 0
    ensures r.Ok? ==> && r.value.trackType == "video"
                      && r.value.uri == VideoWatchUrl + r.value.identifier
                      && r.value.length == ParseDurationText(VideoLengthText(item)) != 0
  {
    var renderer := Get(item, ["videoRenderer"]);
    if renderer.None? then Err(ErrNoVideoRenderer)
    else
      var ren := renderer.value;
      var videoId := AsString(Get(ren, ["videoId"]));
      var ms := ParseDurationText(AsString(Get(ren, ["lengthText", "simpleText"])));
      if ms == 0 then Err(ErrBadDuration)
      else
        Ok(Track(
          title := AsString(Get(ren, ["title", "runs", "0", "text"])),
          author := AsString(Get(ren, ["ownerText", "runs", "0", "text"])),
          identifier := videoId,
          images := Thumbnails(Get(ren, ["thumbnail", "thumbnails"])),
          length := ms,
          uri := VideoWatchUrl + videoId,
          trackType := "video",
          views := AsString(Get(ren, ["viewCountText", "simpleText"])),
          channelId := AsString(Get(ren, ["ownerText", "runs", "0", "navigationEndpoint", "browseEndpoint", "browseId"])),
          isLive := false))
  }

  // ---------------------------------------------------------------- result lists

  /** The tracks of the items that parse, in item order; the others are skipped. */
  function KeepParsed<I, T>(items: seq<I>, parse: I -> Result<T>): seq<T> {
    if items == [] then []
    else (if parse(items[0]).Ok? then [parse(items[0]).value] else []) + KeepParsed(items[1..], parse)
  }

  lemma {:induction false} KeepParsedAppend<I, T>(a: seq<I>, b: seq<I>, parse: I -> Result<T>)
    ensures KeepParsed(a + b, parse) == KeepParsed(a, parse) + KeepParsed(b, parse)
  {
    if a == [] {
      assert a + b == b;
    } else {
      var ab := a + b;
      assert ab[0] == a[0];
      assert ab[1..] == a[1..] + b;
      KeepParsedAppend(a[1..], b, parse);
      var head := if parse(a[0]).Ok? then [parse(a[0]).value] else [];
      calc {
        KeepParsed(ab, parse);
        head + KeepParsed(a[1..] + b, parse);
        head + (KeepParsed(a[1..], parse) + KeepParsed(b, parse));
        { assert head + (KeepParsed(a[1..], parse) + KeepParsed(b, parse))
              == (head + KeepParsed(a[1..], parse)) + KeepParsed(b, parse); }
        KeepParsed(a, parse) + KeepParsed(b, parse);
      }
    }
  }

  /** The positions of the items that parse, in increasing order. */
  ghost function OkPositions<I, T>(items: seq<I>, parse: I -> Result<T>): (ps: seq<nat>)
    ensures |ps| == |KeepParsed(items, parse)|
  {
    if items == [] then []
    else
      var rest := OkPositions(items[1..], parse);
      (if parse(items[0]).Ok? then [0] else []) + seq(|rest|, k requires 0 <= k < |rest| => rest[k] + 1)
  }

  /** Kept track `k` is the parse of the item at the `k`-th parsing position. */
  lemma {:induction false} KeepParsedAt<I, T>(items: seq<I>, parse: I -> Result<T>, k: nat)
    requires k < |KeepParsed(items, parse)|
    ensures var p := OkPositions(items, parse)[k];
            p < |items| && parse(items[p]) == Ok(KeepParsed(items, parse)[k])
  {
    var ok0 := parse(items[0]).Ok?;
    var rest := items[1..];
    var posRest := OkPositions(rest, parse);
    var off := if ok0 then 1 else 0;
    assert KeepParsed(items, parse) == (if ok0 then [parse(items[0]).value] else []) + KeepParsed(rest, parse);
    assert OkPositions(items, parse) ==
           (if ok0 then [0] else []) + seq(|posRest|, i requires 0 <= i < |posRest| => posRest[i] + 1);
    if !ok0 || k > 0 {
      var j := k - off;
      KeepParsedAt(rest, parse, j);
      assert KeepParsed(items, parse)[k] == KeepParsed(rest, parse)[j];
      assert OkPositions(items, parse)[k] == posRest[j] + 1;
      assert rest[posRest[j]] == items[posRest[j] + 1];
    }
  }

  /** Every item that parses has its position listed: nothing that parses is dropped. */
  lemma {:induction false} KeepParsedComplete<I, T>(items: seq<I>, parse: I -> Result<T>, i: nat)
    requires i < |items| && parse(items[i]).Ok?
    ensures i in OkPositions(items, parse)
  {
    if i > 0 {
      assert items[1..][i - 1] == items[i];
      KeepParsedComplete(items[1..], parse, i - 1);
      var rest := OkPositions(items[1..], parse);
      var k :| 0 <= k < |rest| && rest[k] == i - 1;
      var off := if parse(items[0]).Ok? then 1 else 0;
      assert OkPositions(items, parse)[k + off] == i;
    }
  }

  /** The positions increase, so the kept tracks are in item order. */
  lemma {:induction false} KeepParsedInOrder<I, T>(items: seq<I>, parse: I -> Result<T>, k: nat, l: nat)
    requires k < l < |KeepParsed(items, parse)|
    ensures OkPositions(items, parse)[k] < OkPositions(items, parse)[l]
  {
    var rest := OkPositions(items[1..], parse);
    var ps := OkPositions(items, parse);
    if !parse(items[0]).Ok? {
      assert ps == seq(|rest|, i requires 0 <= i < |rest| => rest[i] + 1);
      KeepParsedInOrder(items[1..], parse, k, l);
    } else {
      assert ps == [0] + seq(|rest|, i requires 0 <= i < |rest| => rest[i] + 1);
      assert ps[l] == rest[l - 1] + 1;
      if k > 0 {
        KeepParsedInOrder(items[1..], parse, k - 1, l - 1);
      }
    }
  }

  const MusicShelfPath := ["contents", "tabbedSearchResultsRenderer", "tabs", "0", "tabRenderer", "content",
                           "sectionListRenderer", "contents", "0", "musicShelfRenderer", "contents"]
  const VideoSectionPath := ["contents", "twoColumnSearchResultsRenderer", "primaryContents", "sectionListRenderer",
                             "contents", "0", "itemSectionRenderer", "contents"]

  const MusicShelfMissing := "array of musicResponsiveListItemRenderer doesn't found in the data"
  const MusicShelfNotArray := "expected musicShelfRenderer.contents to be an array but got : "
  const VideoSectionMissing := "array of videoRenderer doesn't found in the data"
  const VideoSectionNotArray := "expected itemSectionRenderer.contents to be an array but got : "

  /** What a results parser makes of the node at its path: an error naming a missing or
      non-array node, otherwise the tracks of the items that parse, in order. */
  function ShelfTracks(node: Option<Json>, missing: string, notArray: string, parse: Json -> Result<Track>)
    : (r: Result<seq<Track>>)
    ensures r.Err? <==> !IsArray(node)
    ensures !r.Panic?
  {
    if !Exists(node) then Err(missing)
    else if !IsArray(node) then Err(notArray + TypeName(node.value))
    else Ok(KeepParsed(node.value.items, parse))
  }

  /** Keeping the parsed items of a prefix one item longer appends that item's track, if any. */
  lemma KeepParsedSnoc<I, T>(items: seq<I>, i: nat, parse: I -> Result<T>)
    requires i < |items|
    ensures KeepParsed(items[..i + 1], parse) ==
            KeepParsed(items[..i], parse) + (if parse(items[i]).Ok? then [parse(items[i]).value] else [])
  {
    KeepParsedAppend(items[..i], [items[i]], parse);
    assert items[..i + 1] == items[..i] + [items[i]];
  }

  /** The append loop over the music shelf's items. */
  method CollectMusicTracks(items: seq<Json>) returns (tracks: seq<Track>)
    ensures tracks == KeepParsed(items, MusicTrack)
  {
    tracks := [];
    for i := 0 to |items|
      invariant tracks == KeepParsed(items[..i], MusicTrack)
    {
      var track := ParseMusicTrack(items[i]);
      KeepParsedSnoc(items, i, MusicTrack);
      if track.Ok? {
        tracks := tracks + [track.value];
      }
    }
    assert items[..|items|] == items;
  }

  /** The append loop over the video section's items. */
  method CollectVideoTracks(items: seq<Json>) returns (tracks: seq<Track>)
    ensures tracks == KeepParsed(items, VideoTrack)
  {
    tracks := [];
    for i := 0 to |items|
      invariant tracks == KeepParsed(items[..i], VideoTrack)
    {
      var track := VideoTrack(items[i]);
      KeepParsedSnoc(items, i, VideoTrack);
      if track.Ok? {
        tracks := tracks + [track.value];
      }
    }
    assert items[..|items|] == items;
  }

  /** `parseYouTubeMusicSearchResults`. */
  method ParseMusicSearchResults(data: Json) returns (r: Result<seq<Track>>)
    ensures r == ShelfTracks(Get(data, MusicShelfPath), MusicShelfMissing, MusicShelfNotArray, MusicTrack)
  {
    var result := Get(data, MusicShelfPath);
    if !Exists(result) {
      return Err(MusicShelfMissing);
    }
    if !IsArray(result) {
      return Err(MusicShelfNotArray + TypeName(result.value));
    }
    var tracks := CollectMusicTracks(AsArray(result));
    r := Ok(tracks);
  }

  /** `parseYouTubeSearchResults`. */
  method ParseVideoSearchResults(data: Json) returns (r: Result<seq<Track>>)
    ensures r == ShelfTracks(Get(data, VideoSectionPath), VideoSectionMissing, VideoSectionNotArray, VideoTrack)
  {
    var result := Get(data, VideoSectionPath);
    if !Exists(result) {
      return Err(VideoSectionMissing);
    }
    if !IsArray(result) {
      return Err(VideoSectionNotArray + TypeName(result.value));
    }
    var tracks := CollectVideoTracks(AsArray(result));
    r := Ok(tracks);
  }

  /** Every track of a video search already carries the watch URL of its id, so the
      handler's by-value rewrite of `Uri` would change nothing even if it took effect. */
  lemma {:induction false} VideoTracksHaveWatchUri(items: seq<Json>)
    ensures forall t :: t in KeepParsed(items, VideoTrack) ==> t.uri == VideoWatchUrl + t.identifier
  {
    if items != [] {
      VideoTracksHaveWatchUri(items[1..]);
    }
  }
}
