# youtube-search gateway core, modelled in Dafny

This project models the decision logic of the youtube-search gateway (a Go service). The gateway relays search queries to YouTube and YouTube Music. It keeps a pool of client identities ("visitors") and picks a random IPv6 source address per connection. It caches responses in SQLite.

What is modelled, one module per Go file:

- `Caching` (caching.go)
  - The cache key: the trimmed, lower-cased query and the search type, form-encoded with sorted keys.
  - The `caches` table as a map from key to (bytes, timestamp), with a "no database" mode.
  - The table operations: insert-or-replace, lookup where a miss is not an error, one eviction tick that deletes the oldest rows, and clear.
- `Visitors` (server.go)
  - `RandomVisitor` as a state machine over the visitor sequence and the fault counter.
  - One tick of the `RotateVisitors` sweep.
- `Models` (models.go)
  - `IsExpired` and `VisitorID`.
  - `parseDurationText`.
  - The music and video item parsers: author folding, song/video type, the artist channel id.
  - The two result collectors, which skip bad items and keep the rest in order.
  - The parsers work over a small JSON datatype (`JsonDoc`) that stands in for gjson path lookups.
- `Transport` (http_client.go)
  - Random IPv6 source addresses filled into a 16-byte array.
  - The `IsIpv6Supported` scan.
  - The 30-minute per-destination reachability cache of `TransportDialContext`.
  - The header rules of `OnRequest`.
- `Dispatch` (handler.go)
  - Query routing in `MakeSearchHandler`: blank → 400, ISRC → music, an 11-character id → direct metadata, anything else → search.
  - The cache-before-upstream flow of `searchFromYouTube`.
  - The status checks of `LoadVideoMetadata`.
- `Settings` (config.go): the defaults `ReadConfig` applies after decoding.
- `Logging` (logger.go): `reddactSensitiveInfo`.
- Shared helpers:
  - `Base`: Option and Result. `Result` has a `Panic` case for Go runtime panics.
  - `Text`: Go's `strings`/`strconv` behaviour on `seq<char>`.
  - `UrlForm`: `url.Values.Encode` and `url.QueryEscape`.

The environment becomes values handed to each operation. Each of these is an input:

| Go source | Input in the model |
|---|---|
| `fetchInnertubeContext` | a fetch outcome, `Option<Visitor>` |
| `rand.IntN` | the index drawn |
| `crypto/rand` | the random bytes, or their failure |
| `net.ParseCIDR` | the parsed network, or its failure |
| `net.SplitHostPort` | whether the split succeeds |
| DNS | a lookup outcome |
| the upstream HTTP calls | their status and decoded body |
| SQL statements | whether each one fails |
| the clock | `now`; the sweep takes one reading per slot, `clock` |

## Model

| member | source | states |
|---|---|---|
| Caching.CacheKeyNormalizes | caching.go:14-15 | the key depends on the query only through lower(trim(query)) |
| Caching.CacheKeyExample | caching.go:14-15 | " Lofi Beats " and "lofi beats" share a key |
| Caching.SortKeyNames | caching.go:24 | sorting the value names puts "query" before "search_type" |
| Caching.CacheKeyShape | caching.go:14-25 | `CacheKey`, the model of `createCacheKey`, always gives `query=<escaped normalised query>&search_type=<decimal type>` |
| Caching.CacheKeyIgnoresMapOrder | caching.go:16-24 | Go's random map iteration order does not change the key |
| Caching.CacheKeySeparatesTypes | caching.go:16-24 | different search types never share a key, whatever the queries |
| Caching.CacheKeyLast | caching.go:14-25 | every key ends in the decimal digit of its search type, because "search_type" sorts after "query" |
| Caching.NormalizeIdempotent | caching.go:15 | normalising an already normalised query changes nothing |
| Caching.Stored | server.go:103-109 | an inserted or replaced row carries the new value and a fresh timestamp; every other row is unchanged |
| Caching.StoreReplaces | caching.go:79-83 | a second store on a key replaces the first one's value and timestamp |
| Caching.Find | caching.go:98-107 | a lookup finds exactly the keys present, with their stored bytes |
| Caching.OldestKeys | caching.go:56-60 | picks exactly n keys, none newer than a key that stays |
| Caching.ResponseCache.Store | caching.go:73-93 | the marshal error comes first; no database means no change and no error; a failed insert changes nothing; otherwise the table becomes `Stored` |
| Caching.ResponseCache.Lookup | caching.go:95-110 | no database, or no row, is a miss `Ok(None)`; a query error is an error; otherwise the stored bytes |
| Caching.ResponseCache.EnforceLimitTick | caching.go:40-64 | rows are deleted iff the count succeeds, the limit is non-negative and exceeded, and the delete succeeds; then exactly count − limit oldest rows go and count == limit |
| Caching.ResponseCache.Clear | caching.go:111-121 | the table becomes empty unless the statement fails; no database is a no-op |
| Caching.StoreThenLookup | caching.go:73-110 | store then lookup of a key returns exactly the stored bytes, and other keys keep their rows |
| Visitors.Acquire | server.go:27-49 | the counter stays or grows by one; it grows iff a fetch is allowed and fails; the pool changes only by appending the fetched visitor, which is returned; the result is a member of the pool; it panics exactly on an empty pool after no append, or on a fetched context without a client |
| Visitors.AcquireKeepsBounded | server.go:30-41 | an acquire never grows the pool beyond the maximum or the counter beyond twice it |
| Visitors.ReplayMonotone | server.go:40-43 | over any run of acquires the fault counter never decreases, and the pool only grows at its end |
| Visitors.ReplayKeepsBounded | server.go:30-48 | any run of acquires keeps the pool and the counter bounded |
| Visitors.ExhaustedStopsFetching | server.go:30-43 | once the counter reaches 2·max, no acquire fetches again and the pool is fixed |
| Visitors.AttemptsBounded | server.go:30-44 | over any run, fetches number at most the free places plus the failures still allowed |
| Visitors.Rotated | server.go:60-79 | a sweep keeps the pool length; each slot's expiry is judged at its own clock reading |
| Visitors.RotatedFresh | server.go:63-77 | after a sweep, no refetched slot is expired at its own check, and every slot can give an id |
| Visitors.VisitorPool.RandomVisitor | server.go:27-49 | the imperative acquire leaves exactly the state and result of `Acquire` |
| Visitors.VisitorPool.Sweep | server.go:60-79 | each slot is checked at its own clock reading; an expired slot takes its fetched replacement, a failed fetch keeps the old visitor, and other slots are untouched; it panics iff some expired slot, or its replacement, has no client |
| Models.VisitorLifetime | models.go:20-22 | `IsExpired`: a visitor is fresh up to exactly 30 minutes after its creation and expired after that, and once expired it stays expired |
| Models.VisitorID | models.go:24-31 | `client.visitorData` when it is a string, otherwise "" |
| Models.ParseDurationText | models.go:60-76 | always whole seconds, and 0 for four or more parts |
| Models.DurationOfThreeParts | models.go:60-76 | three parts are (h·3600 + m·60 + s)·1000, a non-number counting 0 |
| Models.DurationOfTwoParts | models.go:60-76 | two parts are (m·60 + s)·1000 |
| Models.DurationHms | models.go:60-76 | "h:m:s" with digit parts is (h·3600+m·60+s)·1000 |
| Models.DurationMs | models.go:60-76 | "m:s" with digit parts is (m·60+s)·1000 |
| Models.DurationOfOnePart | models.go:71-75 | one part is read as seconds: s·1000, a non-number counting 0 |
| Models.DurationSeconds | models.go:71-75 | "s" with a digit string is s·1000 |
| Models.DurationOfClock | models.go:60-76 | printing a clock reading as h:m:s and parsing it back gives its length |
| Models.DurationNonNumericPart | models.go:61-75 | "x:05" is 5000: the ignored Atoi error makes "x" count as 0 |
| Models.FirstBullet | models.go:111-119 | the position of the first run whose trimmed text is "•" |
| Models.AuthorIsTextsBeforeBullet | models.go:111-119 | the author is the concatenation of the run texts before the first bullet |
| Models.CollectAuthor | models.go:111-119 | the loop with break computes that author |
| Models.ArtistChannel | models.go:127-145 | non-empty iff some menu entry has a "go to artist" run and a non-empty browseId |
| Models.ArtistChannelIsFirst | models.go:127-145 | the id is the one of the FIRST such entry |
| Models.EntryArtistChannel | models.go:131-143 | the inner run loop finds an id iff its entry leads to the artist |
| Models.FindArtistChannel | models.go:127-145 | the labelled outer search computes `ArtistChannel` |
| Models.MusicTrack | models.go:78-173 | accepted iff the renderer exists, there are ≥ 3 flex columns, the length run exists and the duration is non-zero; then: the author is the folded runs, the channel is the artist channel, the type is "video" iff the first thumbnail is a video still (else "song"), and the uri is the music watch URL |
| Models.EmptyFlexColumnPanics | models.go:120 | an item with empty flex columns panics as written and is an error in the corrected parser |
| Models.ParseMusicTrack | models.go:78-173 | the imperative parser computes `MusicTrack` |
| Models.MusicTrackOfShaped | models.go:120-173 | an item that passes the renderer, flex and runs checks is rejected exactly for a zero duration, and otherwise gives the record of its renderer |
| Models.FinishMusicTrack | models.go:120-173 | the steps after the checks (length, views, id, channel search, duration check, item type) complete `MusicTrack` |
| Models.VideoTrack | models.go:204-249 | accepted iff the renderer exists and the duration is non-zero; the type is always "video" and the uri the watch URL |
| Models.ShelfTracks | models.go:175-202 | an error iff the result node is missing or not an array |
| Models.KeepParsedAt | models.go:175-202 | each kept track is the parse of an item that parses |
| Models.KeepParsedComplete | models.go:175-202 | no item that parses is dropped |
| Models.KeepParsedInOrder | models.go:175-202 | the kept tracks are in item order |
| Models.KeepParsedSnoc | models.go:193-200 | one more item appends its track when it parses and nothing otherwise |
| Models.CollectMusicTracks | models.go:192-201 | the skip-on-error append loop keeps exactly the music items that parse, in order |
| Models.CollectVideoTracks | models.go:267-276 | the skip-on-error append loop keeps exactly the video items that parse, in order |
| Models.ParseMusicSearchResults | models.go:175-202 | the append loop yields `ShelfTracks` with the music parser |
| Models.ParseVideoSearchResults | models.go:251-277 | the append loop yields `ShelfTracks` with the video parser |
| Models.VideoTracksHaveWatchUri | models.go:226 | every parsed video track's uri is the watch URL of its id |
| Transport.To16 | http_client.go:96-101 | a 4- or 16-byte address converts, to 16 bytes; any other length does not |
| Transport.BytesGiveBits | http_client.go:118-122 | copying prefixLen/8 whole bytes keeps the first prefixLen bits (section 2.3 of RFC 4291) |
| Transport.FillAddress | http_client.go:118-137 | the buffer is the block's first p/8 bytes followed by the random bytes in order |
| Transport.Ipv4BlockEscapes | http_client.go:96-101 | as written, 10.0.0.0/16 passes the IPv6 guard and yields an address outside the block |
| Transport.RandomIpV6 | http_client.go:89-140 | an address iff the block parses as IPv6, the prefix is 0..128 and a multiple of 16, and randomness is available; the address is in the block, and its host bytes are the random bytes |
| Transport.RandomIpV6Covers | http_client.go:126-137 | every address of the block can be drawn |
| Transport.GenerateRandomIpV6 | http_client.go:89-140 | the method computes `RandomIpV6` |
| Transport.IsIpv6Supported | http_client.go:61-87 | true iff host:port splits, the lookup succeeds and some address has no IPv4 form |
| Transport.DecoratedHeaders | http_client.go:26-52 | every request gets Connection, Cookie and User-Agent; API URLs get the JSON Content-Type and, with a non-empty id, X-Goog-Visitor-Id = the full id; music URLs get X-Origin, others Origin |
| Transport.DecoratedLeavesOthers | http_client.go:26-52 | headers the rules do not name are left unchanged |
| Transport.VisitorIdOnlyWhenGiven | http_client.go:27-37 | without an API URL and a non-empty id, the visitor id header is not set |
| Transport.HttpClient.OnRequest | http_client.go:26-52 | the request's header becomes `Decorated` |
| Transport.HttpClient.Dial | http_client.go:142-188 | a missing or >30 min old entry is re-checked and stored for that address only; a fresh one leaves the cache unchanged; a source address is used iff the destination is supported, a block is configured and synthesis succeeds |
| Transport.StaleFacts | http_client.go:153-154 | `Stale`: an address never checked is stale; a stale entry stays stale as time passes; recording another address does not change it |
| Transport.RecordedStaysFresh | http_client.go:152-165 | a recorded check is reused while at most 30 minutes old (strict `>` for stale) |
| Dispatch.RejectedIffBlank | handler.go:50-54 | a query is rejected with 400 iff it is blank or white space only |
| Dispatch.ClassifyChannel | handler.go:56-61 | a search goes to music iff the handler is the music one or the query is ISRC-shaped or "isrc:"-prefixed |
| Dispatch.IsrcPrefixStripped | handler.go:56-59 | with the "isrc:" prefix (any case), the five bytes are stripped and the rest trimmed |
| Dispatch.VideoIdIsDirect | handler.go:63-67 | an 11-character id goes unchanged to the metadata path, whatever the handler's channel |
| Dispatch.BareIsrcPrefix | handler.go:50-59 | "isrc:" alone passes the blank check and searches music for "" |
| Dispatch.IsrcCodeSearchesMusic | handler.go:56-61 | "USUM71703861" searches music even from the video handler |
| Dispatch.PlainQueryKeepsChannel | handler.go:56-61 | "lofi beats" is searched on the handler's own channel |
| Dispatch.ShortQueryKeepsChannel | handler.go:50-67 | a non-blank query without the prefix and shorter than 11 characters is searched unchanged on the handler's channel |
| Dispatch.CapturedHandler.Route | handler.go:48-92 | as written: routes like `Classify` and leaves the captured channel switched to music after an ISRC query |
| Dispatch.StickyAfterIsrc | handler.go:48-61 | after one ISRC query, the video handler searches music for "lofi beats" |
| Dispatch.UpstreamResults | handler.go:286-309 | only a 200 response with a readable body gives results |
| Dispatch.AskUpstream | handler.go:286-309 | the method computes `UpstreamResults` |
| Dispatch.CacheHit | handler.go:237-251 | a hit needs caching on, a successful lookup, a row and a successful decode |
| Dispatch.HitSkipsUpstream | handler.go:237-251 | a hit returns the decoded rows without drawing a visitor, sending or writing |
| Dispatch.SearchMissOutcomes | handler.go:252-318 | without a usable visitor the search panics, sends nothing and writes nothing; otherwise its result is the upstream result, and the key is written with it iff it is a non-empty list, caching is on and the insert works |
| Dispatch.SearchWritesOnlyItsKey | handler.go:311-318 | only the lookup key can be written; it is written iff the results are a non-empty list, caching is on and the insert works |
| Dispatch.FailedStatusCachesNothing | handler.go:292-294 | a non-200 response is an error and writes nothing |
| Dispatch.RepeatIsServedFromCache | handler.go:237-318 | after a search stored its results, repeating it returns the same results from the cache with no upstream call |
| Dispatch.SpellingsShareKey | handler.go:238 | queries that normalise alike are looked up under the same key |
| Dispatch.PlayerTrack | handler.go:194-229 | the metadata succeeds iff status 200, a readable body, playability "OK" and a non-empty identifier; the track is the one in the response |
| Dispatch.DirectAnswer | handler.go:63-88 | the direct path answers a one-track list iff the metadata checks pass; otherwise 500 unless a panic escapes |
| Dispatch.VideoListingIsParsed | handler.go:319-324 | a 200 video search lists exactly the parsed tracks, which already carry their watch URLs (the by-value Uri loop changes nothing) |
| Dispatch.SearchHandler.SearchFromYouTube | handler.go:232-325 | the search's result, request and new cache and pool state are those of `SearchOnce` under the query's key |
| Dispatch.SearchHandler.SearchUnder | handler.go:237-318 | lookup, visitor, upstream and store steps give `SearchOnce` |
| Dispatch.SearchHandler.CachedResults | handler.go:237-251 | the lookup gives `CacheHit`: a row is used only with caching on, a successful query and a successful decode |
| Dispatch.SearchHandler.SearchAfterMiss | handler.go:252-318 | the visitor draw, the upstream call and the conditional store give `SearchMiss` |
| Dispatch.SearchHandler.LoadVideoMetadata | handler.go:165-230 | the visitor draw and the status checks give `MetadataOnce` |
| Dispatch.SearchHandler.Serve | handler.go:48-113 | blank → 400 with nothing changed; a video id → the metadata answer; otherwise the search answer on the query's own channel |
| Settings.ReadConfig | config.go:43-80 | a failed open or decode is returned as is; otherwise the result is usable, untouched fields are kept, and the result is `WithDefaults` |
| Settings.DefaultsAreUsable | config.go:55-77 | after defaulting, MaxVisitorCount > 0, RequestTimeout > 0, the address and the format are non-empty, and with caching on the directory is non-empty and the limit is non-zero |
| Settings.UsableIsFixed | config.go:55-77 | a usable configuration is left as it is |
| Settings.DefaultsIdempotent | config.go:55-79 | defaulting twice is defaulting once |
| Settings.CacheLimitDefaults | config.go:55-61 | with caching on, an empty dir becomes "./cache.db" and limit 0 becomes −1; with caching off the cache settings are kept |
| Settings.ServerDefaults | config.go:63-77 | the defaults 2, 10, ":8080" and "text" |
| Logging.Redact | logger.go:9-14 | the key is kept; "dsn", "access_token" and "password" get "[REDACTED]"; any other attribute is unchanged |
| Logging.RedactHidesSecrets | logger.go:10-12 | the redacted output of a sensitive key does not depend on its value |
| Logging.RedactIgnoresGroups | logger.go:9-14 | the group path has no effect |
| Logging.RedactIdempotent | logger.go:9-14 | redacting twice is redacting once |
| Logging.RedactCaseSensitive | logger.go:10-12 | "Password" is not redacted |

## Left out

- HTTP and JSON plumbing is not modelled:
  - building requests, `io.ReadAll`, `json.Marshal`/`Unmarshal`, and writing responses are left out.
  - Upstream replies are given as a status code, a status line and a decoded body, or a read error.
  - The cache codec is a pair of functions.
  - Response encoding errors in the handler are not modelled.
- `fetchInnertubeContext` (the HTML scrape) is an oracle outcome.
- The visitor record comes from outside the model. `YouTubePlayerResponse` and `ToYouTubeTrack` are not part of this model: the player response is given already decoded as a playability status and a track.
- `Dispatch.PlayerTrack`: a failed read and a failed unmarshal of the player body are one error input. The Go prefixes of the two messages are not reproduced.
- `Dispatch.SearchOnce`: storing assumes `json.Marshal` of a track list succeeds, because a track list always marshals. The encode-error path is still modelled in `Caching.ResponseCache.Store`.
- gjson on a body that is not JSON: such a body is given as `Null`, on which every path is missing.
- `JsonDoc.AsString`: gjson's `String()` gives the raw JSON text of an object or array, and the float text of a non-integer number. The model gives "" for an object or array, and its numbers are integers only. So a title, a run text or a view count that holds an object or array reads as "" instead of its JSON text. A `browseId` that holds an object counts as empty, so the channel search goes on, where Go takes the object's text as the channel id and stops (models.go:137-139).
- Go's runtime is simplified:
  - Mutexes, tickers, goroutines and context cancellation are not modelled. One eviction tick and one rotation tick are each one method call.
  - The `defer Unlock` inside the rotation loop and the DNS check made under the lock are concurrency defects outside a sequential model.
- `strconv.Atoi` (`Text.Atoi`) accepts an optional '+' or '-' followed by at least one digit, as Go does:
  - Anything else is a syntax error and reads as 0.
  - The range check is not modelled: Go clamps an out-of-range number and reports an error, the model keeps the exact value.
  - Go's `int` overflow in the duration arithmetic is not modelled.
- `strings.ToLower` is modelled for ASCII letters only. Non-ASCII case mappings (such as 'İ') are not modelled.
- `Transport.CanonicalKey`: `CanonicalMIMEHeaderKey` is modelled for keys made of letters, digits and '-', which is all the keys the gateway sets. A header holds one value per key, since `Header.Set` replaces the values.
- Addresses are byte sequences. Parsing and printing them as text is not modelled; the empty string Go returns for "no address" is `None`.
- SQLite timestamps have second resolution. Which of several rows with equal timestamps is evicted is left open, as in SQLite.
- Call-site mismatch:
  - handler.go calls `RandomVisitor(ctx, bool)`, but server.go declares `RandomVisitor()` with no arguments.
  - The model follows server.go: one pool, no per-channel selection.
  - With an empty pool and no fetch allowed, `RandomVisitor` panics in `rand.IntN(0)` (server.go:47-48); the model returns `Panic`.
- Wiring is not modelled: main.go, middlewares.go, `SetupLogger`, `Config.String` and YAML decoding. The decoding outcome is an input of `Settings.ReadConfig`.
- Logging calls and the 50-character truncation of visitor ids in log lines are not modelled. The log line's truncation does not affect the header that is sent.

## Findings

| source | as written | input that shows it | evidently intended | confidence | as-written member | corrected member |
|---|---|---|---|---|---|---|
| http_client.go:96-101 | the block address goes through `To16`, which maps an IPv4 address to `::ffff:a.b.c.d` instead of returning nil, so the "not an ipv6 network" guard never rejects an IPv4 block | block "10.0.0.0/16": the guard passes and the address starts with bytes 0,0 of the mapping prefix, so it is not inside 10.0.0.0/16 | only an IPv6 block yields a source address, and every address lies in the block | high, not executed | Transport.RandomIpV6AsWritten, Transport.Ipv4BlockEscapes | Transport.RandomIpV6, Transport.GenerateRandomIpV6 |
| models.go:120 | the length text is read at index `len(runs)-1` without checking that the second flex column has runs | a music item whose flexColumns is `[null, null, null]`: index -1 panics and fails the whole request | the item is rejected and skipped like any other malformed item | high, not executed | Models.MusicTrackAsWritten, Models.EmptyFlexColumnPanics | Models.MusicTrack, Models.ParseMusicTrack |
| handler.go:48-61 | the ISRC branch assigns `searchType`, the handler closure's captured parameter, so it persists across requests | on the video handler, "USUM71703861" and then "lofi beats": the second query searches music | the switch applies to the current request only | high, not executed | Dispatch.CapturedHandler.Route, Dispatch.StickyAfterIsrc | Dispatch.Classify, Dispatch.ClassifyChannel, Dispatch.SearchHandler.Serve |
