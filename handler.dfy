/** The search endpoint: how a query is routed, the cache-before-upstream search flow and
    the direct video-metadata path. HTTP plumbing, JSON coding and the upstream service are
    outcomes handed in. */
module Dispatch {
  import opened Base
  import opened Text
  import opened JsonDoc
  import opened Models
  import opened Caching
  import opened Visitors

  // ---------------------------------------------------------------- routing

  predicate IsUpper(c: char) { 'A' <= c <= 'Z' }

  /** The ISO 3901 ISRC shape the handler matches: two letters, three letters or digits,
      seven digits, nothing else. */
  predicate IsIsrcShape(q: string) {
    && |q| == 12
    && (forall i :: 0 <= i < 2 ==> IsUpper(q[i]))
    && (forall i :: 2 <= i < 5 ==> IsUpper(q[i]) || IsDigit(q[i]))
    && (forall i :: 5 <= i < 12 ==> IsDigit(q[i]))
  }

  /** The query starts with "isrc:" in any letter case. */
  predicate HasIsrcPrefix(q: string) {
    HasPrefix(ToLower(q), "isrc:")
  }

  predicate IsVideoIdChar(c: char) {
    'a' <= c <= 'z' || 'A' <= c <= 'Z' || IsDigit(c) || c == '_' || c == '-'
  }

  /** Exactly eleven characters from `[a-zA-Z0-9_-]`. */
  predicate IsVideoId(q: string) {
    |q| == 11 && forall i :: 0 <= i < 11 ==> IsVideoIdChar(q[i])
  }

  /** Where a request goes: rejected with 400, straight to the metadata of one video, or a
      search of one channel for a query. */
  datatype Route = Rejected | Direct(videoId: string) | Search(searchType: SearchType, query: string)

  /** The query after ISRC handling: with the prefix, the rest after its five bytes, trimmed. */
  function StripIsrc(query: string): string {
    if HasIsrcPrefix(query) then
      ToLowerFacts(query);
      TrimSpace(query[5..])
    else query
  }

  /** The channel after ISRC handling: an ISRC-shaped or prefixed query goes to music. */
  function Channel(handlerType: SearchType, query: string): SearchType {
    if IsIsrcShape(query) || HasIsrcPrefix(query) then YouTubeMusic else handlerType
  }

  /** The routing of one request by a handler made for `handlerType`. */
  function Classify(handlerType: SearchType, query: string): Route {
    if TrimSpace(query) == "" then Rejected
    else
      var q := StripIsrc(query);
      if IsVideoId(q) then Direct(q) else Search(Channel(handlerType, query), q)
  }

  /** A query is rejected exactly when it is blank. */
  lemma RejectedIffBlank(handlerType: SearchType, query: string)
    ensures Classify(handlerType, query).Rejected? <==> AllSpace(query)
  {
    TrimSpaceBlank(query);
  }

  /** A searched channel is music exactly when the handler is the music one or the query
      names an ISRC; any other query keeps the handler's own channel. */
  lemma ClassifyChannel(handlerType: SearchType, query: string)
    requires Classify(handlerType, query).Search?
    ensures Classify(handlerType, query).searchType == YouTubeMusic <==>
              handlerType == YouTubeMusic || IsIsrcShape(query) || HasIsrcPrefix(query)
  {
  }

  /** The "isrc:" prefix is removed and the rest trimmed before anything else looks at it. */
  lemma IsrcPrefixStripped(handlerType: SearchType, query: string)
    requires HasIsrcPrefix(query) && !AllSpace(query)
    ensures |query| >= 5
    ensures var r := Classify(handlerType, query);
            r == Direct(TrimSpace(query[5..])) || r == Search(YouTubeMusic, TrimSpace(query[5..]))
  {
    ToLowerFacts(query);
    TrimSpaceBlank(query);
  }

  /** A video id goes to the metadata path unchanged, whatever the handler's channel. */
  lemma VideoIdIsDirect(handlerType: SearchType, query: string)
    requires IsVideoId(query) && !HasIsrcPrefix(query)
    ensures Classify(handlerType, query) == Direct(query)
  {
    assert !IsSpace(query[0]);
    assert !AllSpace(query);
    TrimSpaceBlank(query);
  }

  const BareIsrc := "isrc:"

  lemma BareIsrcPrefixed()
    ensures HasIsrcPrefix(BareIsrc)
  {
    ToLowerFacts(BareIsrc);
    assert ToLower(BareIsrc)[..5] == BareIsrc;
  }

  lemma BareIsrcNotBlank()
    ensures TrimSpace(BareIsrc) != ""
  {
    assert !IsSpace(BareIsrc[0]);
    TrimSpaceBlank(BareIsrc);
  }

  /** The blank check comes before the prefix is stripped, so "isrc:" alone searches music
      for the empty query. */
  lemma BareIsrcPrefix(handlerType: SearchType)
    ensures Classify(handlerType, BareIsrc) == Search(YouTubeMusic, "")
  {
    BareIsrcPrefixed();
    BareIsrcNotBlank();
    assert BareIsrc[5..] == "";
    assert StripIsrc(BareIsrc) == "";
  }

  const IsrcCode := "USUM71703861"

  lemma IsrcCodeShape()
    ensures IsIsrcShape(IsrcCode)
  {
  }

  lemma IsrcCodeUnprefixed()
    ensures !HasIsrcPrefix(IsrcCode)
  {
    ToLowerFacts(IsrcCode);
    assert ToLower(IsrcCode)[..5][0] == 'u';
  }

  lemma IsrcCodeNotBlank()
    ensures TrimSpace(IsrcCode) != ""
  {
    assert !IsSpace(IsrcCode[0]);
    TrimSpaceBlank(IsrcCode);
  }

  /** An ISRC code searches the music channel even from the video handler. */
  lemma IsrcCodeSearchesMusic()
    ensures Classify(YouTube, IsrcCode) == Search(YouTubeMusic, IsrcCode)
    ensures Channel(YouTube, IsrcCode) == YouTubeMusic
  {
    IsrcCodeShape();
    IsrcCodeUnprefixed();
    IsrcCodeNotBlank();
  }

  /** The handler as written: the ISRC switch assigns the channel variable the handler
      closure captured, so it outlives the request. */
  class CapturedHandler {
    var searchType: SearchType

    constructor (searchType: SearchType)
      ensures this.searchType == searchType
    {
      this.searchType := searchType;
    }

    method Route(query: string) returns (r: Route)
      modifies this
      ensures r == Classify(old(searchType), query)
      ensures searchType == (if !AllSpace(query) then Channel(old(searchType), query) else old(searchType))
    {
      TrimSpaceBlank(query);
      if TrimSpace(query) == "" {
        return Rejected;
      }
      var q := query;
      if IsIsrcShape(query) || HasIsrcPrefix(query) {
        if HasIsrcPrefix(query) {
          ToLowerFacts(query);
          q := TrimSpace(query[5..]);
        }
        searchType := YouTubeMusic;
      }
      if IsVideoId(q) {
        return Direct(q);
      }
      return Search(searchType, q);
    }
  }

  const PlainQuery := "lofi beats"

  lemma PlainQueryUnprefixed()
    ensures !HasIsrcPrefix(PlainQuery)
  {
    ToLowerFacts(PlainQuery);
    assert ToLower(PlainQuery)[..5][0] == 'l';
  }

  lemma PlainQueryNotBlank()
    ensures !AllSpace(PlainQuery) && TrimSpace(PlainQuery) != ""
  {
    assert !IsSpace(PlainQuery[0]);
    TrimSpaceBlank(PlainQuery);
  }

  /** A non-blank query without the prefix, too short for an ISRC and not eleven long, is
      searched as it is on the handler's own channel. */
  lemma ShortQueryKeepsChannel(handlerType: SearchType, query: string)
    requires !HasIsrcPrefix(query) && TrimSpace(query) != "" && |query| < 11
    ensures Classify(handlerType, query) == Search(handlerType, query)
    ensures Channel(handlerType, query) == handlerType
  {
  }

  /** "lofi beats" is searched on the handler's own channel. */
  lemma PlainQueryKeepsChannel(handlerType: SearchType)
    ensures Classify(handlerType, PlainQuery) == Search(handlerType, PlainQuery)
    ensures Channel(handlerType, PlainQuery) == handlerType
  {
    PlainQueryUnprefixed();
    PlainQueryNotBlank();
    ShortQueryKeepsChannel(handlerType, PlainQuery);
  }

  /** After one ISRC request, the video handler searches music for a plain query. */
  method StickyAfterIsrc() returns (first: Route, second: Route)
    ensures first == Search(YouTubeMusic, IsrcCode)
    ensures second == Search(YouTubeMusic, PlainQuery)
    ensures second != Classify(YouTube, PlainQuery)
  {
    var handler := new CapturedHandler(YouTube);
    IsrcCodeSearchesMusic();
    IsrcCodeNotBlank();
    TrimSpaceBlank(IsrcCode);
    first := handler.Route(IsrcCode);
    PlainQueryKeepsChannel(YouTubeMusic);
    PlainQueryKeepsChannel(YouTube);
    PlainQueryNotBlank();
    second := handler.Route(PlainQuery);
  }

  // ---------------------------------------------------------------- searching

  const SongFilter := "EgWKAQIIAWoQEAMQBRAEEAkQChAVEBAQEQ%3D%3D"
  const VideoFilter := "EgWKAQIQAWoQEAMQBRAEEAkQChAVEBAQEQ%3D%3D"

  /** The search request body: the visitor's context, the query and the channel's filter. */
  function SearchPayload(v: Visitor, searchType: SearchType, query: string): Json {
    Obj(map["context" := Obj(v.context), "query" := Str(query),
            "params" := Str(if searchType == YouTubeMusic then SongFilter else VideoFilter)])
  }

  /** A response body as read and decoded, or the error that stopped it. */
  datatype Body<T> = Body(doc: T) | BodyError(error: string)

  /** What the upstream call gave: no response, or a status code, its status line and the
      body. A body that is not JSON is given as `Null`, on which every path is missing. */
  datatype Upstream = Unreachable(error: string) | Response(code: int, status: string, body: Body<Json>)

  /** The cached bytes encode and decode the result list; the decoding can fail. */
  datatype Codec = Codec(encode: seq<Track> -> seq<byte>, decode: seq<byte> -> Option<seq<Track>>)

  /** The outcomes of the environment one search meets. */
  datatype SearchEnv = SearchEnv(
    lookupError: Option<string>,
    fetched: Option<Visitor>,
    pick: nat,
    upstream: Upstream,
    storeError: Option<string>,
    now: int)

  /** The channel's results parser applied to a 200 body. */
  function ParsedResults(searchType: SearchType, data: Json): (r: Result<seq<Track>>)
    ensures !r.Panic?
  {
    if searchType == YouTubeMusic then
      ShelfTracks(Get(data, MusicShelfPath), MusicShelfMissing, MusicShelfNotArray, MusicTrack)
    else
      ShelfTracks(Get(data, VideoSectionPath), VideoSectionMissing, VideoSectionNotArray, VideoTrack)
  }

  /** The upstream part of a search: a transport error, a non-200 status and a failed read
      are errors; a 200 body gives what the parser gives. */
  function UpstreamResults(searchType: SearchType, upstream: Upstream): (r: Result<seq<Track>>)
    ensures !r.Panic?
    ensures r.Ok? ==> upstream.Response? && upstream.code == 200 && upstream.body.Body?
  {
    match upstream
    case Unreachable(e) => Err("failed to perform search request: " + e)
    case Response(code, status, body) =>
      if code != 200 then Err("search request failed with status: " + status)
      else if body.BodyError? then Err("failed to read search response body: " + body.error)
      else ParsedResults(searchType, body.doc)
  }

  /** The upstream steps of `searchFromYouTube`: the status check, the body read, and the
      channel's parser. */
  method AskUpstream(channel: SearchType, upstream: Upstream) returns (r: Result<seq<Track>>)
    ensures r == UpstreamResults(channel, upstream)
  {
    match upstream {
      case Unreachable(e) =>
        return Err("failed to perform search request: " + e);
      case Response(code, status, body) =>
        if code != 200 {
          return Err("search request failed with status: " + status);
        }
        if body.BodyError? {
          return Err("failed to read search response body: " + body.error);
        }
        if channel == YouTube {
          r := ParseVideoSearchResults(body.doc);
        } else {
          r := ParseMusicSearchResults(body.doc);
        }
    }
  }

  /** A usable cache hit: caching on, the lookup succeeded, a row exists and decodes. */
  function CacheHit(rows: map<string, Row>, connected: bool, key: string, lookupError: Option<string>,
                    decode: seq<byte> -> Option<seq<Track>>): (r: Option<seq<Track>>)
    ensures r.Some? ==> connected && lookupError.None? && key in rows && decode(rows[key].value) == r
  {
    if connected && lookupError.None? && key in rows then decode(rows[key].value) else None
  }

  /** One search: its result, the request body sent upstream (none when served from the
      cache or before a request is made), the cache rows and the visitor pool after it. */
  datatype SearchRun = SearchRun(result: Result<seq<Track>>, sent: Option<Json>, rows: map<string, Row>, pool: Pool)

  /** Results are stored when parsing succeeded with a non-empty list and caching is on. */
  predicate ShouldStore(results: Result<seq<Track>>, connected: bool) {
    results.Ok? && |results.value| > 0 && connected
  }

  /** `searchFromYouTube` on values, with `key` the query's cache key; the lookup and the
      store use that one key. */
  function SearchOnce(rows: map<string, Row>, connected: bool, pool: Pool, max: int, codec: Codec,
                      key: string, searchType: SearchType, query: string, env: SearchEnv): SearchRun
    requires ValidPick(pool, env.pick)
  {
    var hit := CacheHit(rows, connected, key, env.lookupError, codec.decode);
    if hit.Some? then SearchRun(Ok(hit.value), None, rows, pool)
    else SearchMiss(rows, connected, pool, max, codec, key, searchType, query, env)
  }

  /** The search without a usable hit: draw a visitor, ask upstream, store what is worth it. */
  function SearchMiss(rows: map<string, Row>, connected: bool, pool: Pool, max: int, codec: Codec,
                      key: string, searchType: SearchType, query: string, env: SearchEnv): SearchRun
    requires ValidPick(pool, env.pick)
  {
    var acquired := Acquire(pool, max, env.fetched, env.pick);
    if acquired.result.Panic? then SearchRun(Panic(acquired.result.reason), None, rows, acquired.pool)
    else if !HasClient(acquired.result.value) then
      SearchRun(Panic("interface conversion: client context is not a map"), None, rows, acquired.pool)
    else
      var results := UpstreamResults(searchType, env.upstream);
      var stored :=
        if ShouldStore(results, connected) && env.storeError.None? then
          Stored(rows, key, codec.encode(results.value), env.now)
        else rows;
      SearchRun(results, Some(SearchPayload(acquired.result.value, searchType, query)), stored, acquired.pool)
  }

  /** The miss path in three outcomes: no usable visitor (a panic, nothing sent, nothing
      written); a request whose results are stored under `key`; a request that writes
      nothing. */
  lemma SearchMissOutcomes(rows: map<string, Row>, connected: bool, pool: Pool, max: int, codec: Codec,
                           key: string, searchType: SearchType, query: string, env: SearchEnv)
    requires ValidPick(pool, env.pick)
    ensures var run := SearchMiss(rows, connected, pool, max, codec, key, searchType, query, env);
            var acquired := Acquire(pool, max, env.fetched, env.pick);
            var asked := acquired.result.Ok? && HasClient(acquired.result.value);
            var results := UpstreamResults(searchType, env.upstream);
            && run.pool == acquired.pool
            && (!asked ==> run.result.Panic? && run.sent.None? && run.rows == rows)
            && (asked ==> run.result == results && run.sent.Some?)
            && (asked && ShouldStore(results, connected) && env.storeError.None? ==>
                  run.rows == Stored(rows, key, codec.encode(results.value), env.now))
            && (!(asked && ShouldStore(results, connected) && env.storeError.None?) ==> run.rows == rows)
  {
    var acquired := Acquire(pool, max, env.fetched, env.pick);
    assert !acquired.result.Err?;
  }

  /** A hit is answered from the cache: no visitor is drawn, nothing is sent or written. */
  lemma HitSkipsUpstream(rows: map<string, Row>, connected: bool, pool: Pool, max: int, codec: Codec,
                         key: string, searchType: SearchType, query: string, env: SearchEnv)
    requires ValidPick(pool, env.pick)
    requires CacheHit(rows, connected, key, env.lookupError, codec.decode).Some?
    ensures var run := SearchOnce(rows, connected, pool, max, codec, key, searchType, query, env);
            && run.result.Ok? && run.sent.None? && run.rows == rows && run.pool == pool
            && Some(run.result.value) == codec.decode(rows[key].value)
  {
  }

  /** Whatever the search does, only its own key can be written, and it is written exactly
      when the upstream results are a non-empty list, caching is on and the insert works. */
  lemma SearchWritesOnlyItsKey(rows: map<string, Row>, connected: bool, pool: Pool, max: int, codec: Codec,
                               key: string, searchType: SearchType, query: string, env: SearchEnv)
    requires ValidPick(pool, env.pick)
    ensures var run := SearchOnce(rows, connected, pool, max, codec, key, searchType, query, env);
            && run.rows.Keys <= rows.Keys + {key}
            && (forall k :: k in rows && k != key ==> k in run.rows && run.rows[k] == rows[k])
            && (run.rows != rows ==>
                  && run.sent.Some? && ShouldStore(run.result, connected) && env.storeError.None?
                  && key in run.rows && run.rows[key] == Row(codec.encode(run.result.value), env.now))
  {
    if CacheHit(rows, connected, key, env.lookupError, codec.decode).None? {
      SearchMissOutcomes(rows, connected, pool, max, codec, key, searchType, query, env);
    }
  }

  /** A non-200 answer is an error and caches nothing. */
  lemma FailedStatusCachesNothing(rows: map<string, Row>, connected: bool, pool: Pool, max: int, codec: Codec,
                                  key: string, searchType: SearchType, query: string, env: SearchEnv)
    requires ValidPick(pool, env.pick)
    requires CacheHit(rows, connected, key, env.lookupError, codec.decode).None?
    requires env.upstream.Response? && env.upstream.code != 200
    ensures var run := SearchOnce(rows, connected, pool, max, codec, key, searchType, query, env);
            run.rows == rows && !run.result.Ok?
  {
    SearchMissOutcomes(rows, connected, pool, max, codec, key, searchType, query, env);
    assert UpstreamResults(searchType, env.upstream).Err?;
  }

  /** After a search stored its results, the same search is answered from the cache,
      without drawing a visitor, provided the codec reads back what it wrote. */
  lemma RepeatIsServedFromCache(rows: map<string, Row>, pool: Pool, max: int, codec: Codec,
                                key: string, searchType: SearchType, query: string, again: string,
                                env: SearchEnv, env2: SearchEnv)
    requires ValidPick(pool, env.pick)
    requires env2.lookupError.None?
    requires var run := SearchOnce(rows, true, pool, max, codec, key, searchType, query, env);
             ValidPick(run.pool, env2.pick) && run.rows != rows && run.result.Ok? &&
             codec.decode(codec.encode(run.result.value)) == Some(run.result.value)
    ensures var run := SearchOnce(rows, true, pool, max, codec, key, searchType, query, env);
            var run2 := SearchOnce(run.rows, true, run.pool, max, codec, key, searchType, again, env2);
            run2.result == run.result && run2.sent.None? && run2.pool == run.pool && run2.rows == run.rows
  {
    var run := SearchOnce(rows, true, pool, max, codec, key, searchType, query, env);
    SearchWritesOnlyItsKey(rows, true, pool, max, codec, key, searchType, query, env);
    assert key in run.rows && run.rows[key].value == codec.encode(run.result.value);
    assert CacheHit(run.rows, true, key, env2.lookupError, codec.decode) == Some(run.result.value);
  }

  /** The key a search uses: any two spellings that normalise alike share it, so the
      repeat above covers " Lofi Beats " after "lofi beats". */
  lemma SpellingsShareKey(searchType: SearchType, query: string, again: string)
    requires NormalizeQuery(again) == NormalizeQuery(query)
    ensures CacheKey(searchType, again) == CacheKey(searchType, query)
  {
    CacheKeyNormalizes(searchType, query);
    CacheKeyNormalizes(searchType, again);
  }

  // ---------------------------------------------------------------- video metadata

  /** The decoded player response: playability status and the track of its video details. */
  datatype PlayerDoc = PlayerDoc(playability: string, track: Track)

  /** What the player endpoint gave; a failed read or decode as `Err`. */
  datatype PlayerReply = PlayerUnreachable(error: string) | PlayerResponse(code: int, status: string, body: Body<PlayerDoc>)

  /** The metadata request body: the visitor's context and the video id. */
  function MetadataPayload(v: Visitor, videoId: string): Json {
    Obj(map["context" := Obj(v.context), "videoId" := Str(videoId)])
  }

  /** One metadata load: its result, the body sent, the visitor pool after it. */
  datatype MetadataRun = MetadataRun(result: Result<Track>, sent: Option<Json>, pool: Pool)

  /** `LoadVideoMetadata` on values: the visitor, then the status checks. */
  function MetadataOnce(pool: Pool, max: int, fetched: Option<Visitor>, pick: nat, videoId: string,
                        reply: PlayerReply): MetadataRun
    requires ValidPick(pool, pick)
  {
    var acquired := Acquire(pool, max, fetched, pick);
    if acquired.result.Panic? then MetadataRun(Panic(acquired.result.reason), None, acquired.pool)
    else if !HasClient(acquired.result.value) then
      MetadataRun(Panic("interface conversion: client context is not a map"), None, acquired.pool)
    else MetadataRun(PlayerTrack(reply), Some(MetadataPayload(acquired.result.value, videoId)), acquired.pool)
  }

  /** The status checks of `LoadVideoMetadata`, in order. */
  function PlayerTrack(reply: PlayerReply): (r: Result<Track>)
    ensures !r.Panic?
    ensures r.Ok? <==>
              && reply.PlayerResponse? && reply.code == 200 && reply.body.Body?
              && reply.body.doc.playability == "OK" && reply.body.doc.track.identifier != ""
    ensures r.Ok? ==> r.value == reply.body.doc.track
  {
    match reply
    case PlayerUnreachable(e) => Err("failed to perform video metadata request: " + e)
    case PlayerResponse(code, status, body) =>
      if code != 200 then Err("video metadata request failed with status: " + status)
      else if body.BodyError? then Err(body.error)
      else if body.doc.playability != "OK" then Err("video is not playable, status: " + body.doc.playability)
      else if body.doc.track.identifier == "" then Err("video metadata response missing video details")
      else Ok(body.doc.track)
  }

  // ---------------------------------------------------------------- the handler

  /** The handler's answer: an error status with its message, the JSON list of tracks, or a
      panic that escapes the handler. */
  datatype Reply = Failure(code: int, message: string) | Listing(tracks: seq<Track>) | Crash(reason: string)

  /** The error text `fmt.Sprintf("%v", err)` gives: `<nil>` for no error. */
  function ErrorText(r: Result<Track>): string {
    if r.Err? then r.error else "<nil>"
  }

  /** The answer on the metadata path: the one track, or 500 with the error. */
  function MetadataAnswer(metadata: Result<Track>): Reply {
    if metadata.Panic? then Crash(metadata.reason)
    else if metadata.Err? || metadata.value.identifier == "" then
      Failure(500, "Error loading video metadata: " + ErrorText(metadata))
    else Listing([metadata.value])
  }

  /** The answer on the search path: the list, or 500 with the error. */
  function SearchAnswer(searched: Result<seq<Track>>): Reply {
    if searched.Panic? then Crash(searched.reason)
    else if searched.Err? then Failure(500, "Error searching YouTube: " + searched.error)
    else Listing(searched.value)
  }

  /** A direct request answers a one-track list exactly when the metadata checks pass, and
      500 otherwise unless a panic escapes. */
  lemma DirectAnswer(pool: Pool, max: int, fetched: Option<Visitor>, pick: nat, videoId: string, reply: PlayerReply)
    requires ValidPick(pool, pick)
    ensures var run := MetadataOnce(pool, max, fetched, pick, videoId, reply);
            var a := MetadataAnswer(run.result);
            && (a.Listing? <==> run.sent.Some? && PlayerTrack(reply).Ok?)
            && (a.Listing? ==> a.tracks == [reply.body.doc.track] && |a.tracks| == 1)
            && (a.Failure? ==> a.code == 500 && run.sent.Some?)
  {
  }

  /** A 200 video-search answer lists exactly the parsed tracks, each already carrying its
      watch URL: the handler's by-value `Uri` loop has nothing left to change. */
  lemma VideoListingIsParsed(rows: map<string, Row>, connected: bool, pool: Pool, max: int, codec: Codec,
                             key: string, query: string, env: SearchEnv, status: string, doc: Json)
    requires ValidPick(pool, env.pick)
    requires CacheHit(rows, connected, key, env.lookupError, codec.decode).None?
    requires var acquired := Acquire(pool, max, env.fetched, env.pick);
             acquired.result.Ok? && HasClient(acquired.result.value)
    requires env.upstream == Response(200, status, Body(doc)) && IsArray(Get(doc, VideoSectionPath))
    ensures var a := SearchAnswer(SearchOnce(rows, connected, pool, max, codec, key, YouTube, query, env).result);
            && a == Listing(KeepParsed(Get(doc, VideoSectionPath).value.items, VideoTrack))
            && forall t :: t in a.tracks ==> t.uri == VideoWatchUrl + t.identifier
  {
    VideoTracksHaveWatchUri(Get(doc, VideoSectionPath).value.items);
  }

  /** The search endpoint for one channel, over the response cache and the visitor pool. */
  class SearchHandler {
    const searchType: SearchType
    const cache: ResponseCache
    const pool: VisitorPool
    const codec: Codec

    constructor (searchType: SearchType, cache: ResponseCache, pool: VisitorPool, codec: Codec)
      ensures this.searchType == searchType && this.cache == cache && this.pool == pool && this.codec == codec
    {
      this.searchType := searchType;
      this.cache := cache;
      this.pool := pool;
      this.codec := codec;
    }

    /** `searchFromYouTube`: the key of the query, then the search under it. */
    method SearchFromYouTube(channel: SearchType, query: string, env: SearchEnv)
      returns (r: Result<seq<Track>>, sent: Option<Json>)
      requires ValidPick(pool.State(), env.pick)
      modifies cache, pool
      ensures cache.connected == old(cache.connected)
      ensures var run := SearchOnce(old(cache.rows), cache.connected, old(pool.State()), pool.maxVisitorCount,
                                    codec, CacheKey(channel, query), channel, query, env);
              r == run.result && sent == run.sent && cache.rows == run.rows && pool.State() == run.pool
    {
      var key := CacheKey(channel, query);
      r, sent := SearchUnder(key, channel, query, env);
    }

    /** Look `key` up first; draw a visitor and ask upstream only without a usable hit;
        store non-empty parsed results under the same key. */
    method SearchUnder(key: string, channel: SearchType, query: string, env: SearchEnv)
      returns (r: Result<seq<Track>>, sent: Option<Json>)
      requires ValidPick(pool.State(), env.pick)
      modifies cache, pool
      ensures cache.connected == old(cache.connected)
      ensures var run := SearchOnce(old(cache.rows), cache.connected, old(pool.State()), pool.maxVisitorCount,
                                    codec, key, channel, query, env);
              r == run.result && sent == run.sent && cache.rows == run.rows && pool.State() == run.pool
    {
      var hit := CachedResults(key, env.lookupError);
      if hit.Some? {
        return Ok(hit.value), None;
      }
      r, sent := SearchAfterMiss(key, channel, query, env);
    }

    /** The lookup: a row is used only when caching is on, the query worked and it decodes. */
    method CachedResults(key: string, lookupError: Option<string>) returns (hit: Option<seq<Track>>)
      ensures hit == CacheHit(cache.rows, cache.connected, key, lookupError, codec.decode)
    {
      hit := None;
      if cache.connected {
        var cached := cache.Lookup(key, lookupError);
        if cached.Ok? && cached.value.Some? {
          hit := codec.decode(cached.value.value);
        }
      }
    }

    /** Without a usable hit: draw a visitor, send the request, store non-empty results. */
    method SearchAfterMiss(key: string, channel: SearchType, query: string, env: SearchEnv)
      returns (r: Result<seq<Track>>, sent: Option<Json>)
      requires ValidPick(pool.State(), env.pick)
      modifies cache, pool
      ensures cache.connected == old(cache.connected)
      ensures var run := SearchMiss(old(cache.rows), cache.connected, old(pool.State()), pool.maxVisitorCount,
                                    codec, key, channel, query, env);
              r == run.result && sent == run.sent && cache.rows == run.rows && pool.State() == run.pool
    {
      var visitor := pool.RandomVisitor(env.fetched, env.pick);
      if visitor.Panic? {
        return Panic(visitor.reason), None;
      }
      if !HasClient(visitor.value) {
        return Panic("interface conversion: client context is not a map"), None;
      }
      sent := Some(SearchPayload(visitor.value, channel, query));
      r := AskUpstream(channel, env.upstream);
      if r.Ok? && |r.value| > 0 && cache.connected {
        var err := cache.Store(key, codec.encode(r.value), None, env.now, env.storeError);
      }
    }

    /** `LoadVideoMetadata`: draw a visitor, post the id, run the status checks. */
    method LoadVideoMetadata(videoId: string, fetched: Option<Visitor>, pick: nat, reply: PlayerReply)
      returns (r: Result<Track>, sent: Option<Json>)
      requires ValidPick(pool.State(), pick)
      modifies pool
      ensures var run := MetadataOnce(old(pool.State()), pool.maxVisitorCount, fetched, pick, videoId, reply);
              r == run.result && sent == run.sent && pool.State() == run.pool
    {
      var visitor := pool.RandomVisitor(fetched, pick);
      if visitor.Panic? {
        return Panic(visitor.reason), None;
      }
      if !HasClient(visitor.value) {
        return Panic("interface conversion: client context is not a map"), None;
      }
      sent := Some(MetadataPayload(visitor.value, videoId));
      r := PlayerTrack(reply);
    }

    /** One request: route it, then take the metadata path or the search path. The channel
        is this request's own; the handler's is never reassigned. */
    method Serve(query: string, env: SearchEnv, reply: PlayerReply) returns (answer: Reply, sent: Option<Json>)
      requires ValidPick(pool.State(), env.pick)
      modifies cache, pool
      ensures cache.connected == old(cache.connected)
      ensures match Classify(searchType, query)
              case Rejected =>
                && answer == Failure(400, "query parameter is required") && sent.None?
                && cache.rows == old(cache.rows) && pool.State() == old(pool.State())
              case Direct(id) =>
                var run := MetadataOnce(old(pool.State()), pool.maxVisitorCount, env.fetched, env.pick, id, reply);
                && answer == MetadataAnswer(run.result) && sent == run.sent
                && cache.rows == old(cache.rows) && pool.State() == run.pool
              case Search(channel, q) =>
                var run := SearchOnce(old(cache.rows), cache.connected, old(pool.State()), pool.maxVisitorCount,
                                      codec, CacheKey(channel, q), channel, q, env);
                && answer == SearchAnswer(run.result)
                && sent == run.sent && cache.rows == run.rows && pool.State() == run.pool
    {
      TrimSpaceBlank(query);
      var route := Classify(searchType, query);
      match route {
        case Rejected =>
          return Failure(400, "query parameter is required"), None;
        case Direct(id) =>
          var track;
          track, sent := LoadVideoMetadata(id, env.fetched, env.pick, reply);
          answer := MetadataAnswer(track);
        case Search(channel, q) =>
          var results;
          results, sent := SearchFromYouTube(channel, q, env);
          answer := SearchAnswer(results);
      }
    }
  }
}
