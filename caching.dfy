/** The response cache: a key derived from the normalised query and the search type, and
    the `caches` table (key, value, timestamp) with its store, lookup, eviction and clear. */
module Caching {
  import opened Base
  import opened Text
  import opened UrlForm
  import opened Models

  // ---------------------------------------------------------------- cache keys

  /** Lower case of the trimmed query. */
  function NormalizeQuery(query: string): string {
    ToLower(TrimSpace(query))
  }

  /** The values `createCacheKey` sets: the search type as a decimal and the normalised query. */
  function KeyValues(searchType: SearchType, query: string): map<string, string> {
    map["search_type" := Itoa(searchType.Code()), "query" := NormalizeQuery(query)]
  }

  /** `createCacheKey`, enumerating the two values in one of the orders a Go map can give;
      `CacheKeyIgnoresMapOrder` shows the other order yields the same key. */
  function CacheKey(searchType: SearchType, query: string): string {
    var values := KeyValues(searchType, query);
    assert multiset(["search_type", "query"]) == multiset(values.Keys) by {
      assert values.Keys == {"search_type", "query"};
    }
    Encode(values, ["search_type", "query"])
  }

  /** The key is the same whichever order Go's map iteration hands the two values over in. */
  lemma CacheKeyIgnoresMapOrder(searchType: SearchType, query: string)
    ensures var values := KeyValues(searchType, query);
            multiset(["query", "search_type"]) == multiset(values.Keys) &&
            Encode(values, ["query", "search_type"]) == CacheKey(searchType, query)
  {
    var values := KeyValues(searchType, query);
    assert values.Keys == {"search_type", "query"};
    EncodeIgnoresOrder(values, ["query", "search_type"], ["search_type", "query"]);
  }

  /** `slices.Sort` puts "query" before "search_type". */
  lemma SortKeyNames()
    ensures SortStrings(["search_type", "query"]) == ["query", "search_type"]
  {
    assert "search_type"[0] == 's' && "query"[0] == 'q';
    assert !LexLessEq("search_type", "query");
    assert ["search_type", "query"][0] == "search_type" && ["search_type", "query"][1..] == ["query"];
    assert ["query"][0] == "query" && ["query"][1..] == [];
    assert SortStrings(["query"]) == Insert("query", []) == ["query"];
    assert Insert("search_type", ["query"]) == ["query"] + Insert("search_type", []);
  }

  /** The key names are made of unreserved characters. */
  lemma KeyNamesUnescaped()
    ensures QueryEscape("query") == "query"
    ensures QueryEscape("search_type") == "search_type"
  {
    QueryEscapeUnreserved("query");
    QueryEscapeUnreserved("search_type");
  }

  /** A decimal is its own escape. */
  lemma EscapeDecimal(n: nat)
    ensures QueryEscape(Decimal(n)) == Decimal(n)
  {
    var d := Decimal(n);
    assert forall i :: 0 <= i < |d| ==> IsDigit(d[i]);
    QueryEscapeUnreserved(d);
  }

  /** The encoding, pair by pair. */
  lemma CacheKeyPairs(searchType: SearchType, query: string)
    ensures CacheKey(searchType, query) ==
            ("query" + "=" + QueryEscape(NormalizeQuery(query))) + "&" + ("search_type" + "=" + Decimal(searchType.Code()))
  {
    var values := KeyValues(searchType, query);
    SortKeyNames();
    PairsOfTwo(values, "query", "search_type");
    KeyNamesUnescaped();
    EscapeDecimal(searchType.Code());
  }

  lemma JoinLiterals(q: string, d: string)
    ensures ("query" + "=" + q) + "&" + ("search_type" + "=" + d) == "query=" + q + "&search_type=" + d
  {
    assert "query" + "=" == "query=";
    assert "search_type" + "=" == "search_type=";
    assert "&" + "search_type=" == "&search_type=";
    var left := "query=" + q;
    assert ((left + "&") + "search_type=") + d == (left + "&") + ("search_type=" + d);
    assert (left + "&") + "search_type=" == left + ("&" + "search_type=");
  }

  /** The shape of every key: `query=<escaped normalised query>&search_type=<0 or 1>`,
      the keys in sorted order. */
  lemma CacheKeyShape(searchType: SearchType, query: string)
    ensures CacheKey(searchType, query) ==
            "query=" + QueryEscape(NormalizeQuery(query)) + "&search_type=" + Decimal(searchType.Code())
  {
    CacheKeyPairs(searchType, query);
    JoinLiterals(QueryEscape(NormalizeQuery(query)), Decimal(searchType.Code()));
  }

  /** Normalising twice changes nothing more. */
  lemma NormalizeIdempotent(query: string)
    ensures NormalizeQuery(NormalizeQuery(query)) == NormalizeQuery(query)
  {
    var t := TrimSpace(query);
    var u := ToLower(t);
    TrimSpaceFacts(query);
    ToLowerFacts(t);
    if u != [] {
      LowerCharKeepsSpace(t[0]);
      LowerCharKeepsSpace(t[|t| - 1]);
    }
    TrimSpaceOfTrimmed(u);
    ToLowerIdempotent(t);
  }

  /** The key depends on the query only through its normalised form. */
  lemma CacheKeyNormalizes(searchType: SearchType, query: string)
    ensures CacheKey(searchType, query) == CacheKey(searchType, NormalizeQuery(query))
  {
    NormalizeIdempotent(query);
    assert KeyValues(searchType, query) == KeyValues(searchType, NormalizeQuery(query));
  }

  lemma TrimExample()
    ensures TrimSpace(" Lofi Beats ") == "Lofi Beats"
  {
    assert TrimLeft(" Lofi Beats ") == "Lofi Beats ";
    assert TrimRight("Lofi Beats ") == "Lofi Beats";
  }

  lemma LowerExample()
    ensures ToLower("Lofi Beats") == "lofi beats"
  {
    ToLowerFacts("Lofi Beats");
  }

  lemma NormalizeExample()
    ensures NormalizeQuery(" Lofi Beats ") == "lofi beats"
  {
    TrimExample();
    LowerExample();
  }

  /** Queries that differ only in surrounding white space and letter case share a key. */
  lemma CacheKeyExample(searchType: SearchType)
    ensures CacheKey(searchType, " Lofi Beats ") == CacheKey(searchType, "lofi beats")
  {
    CacheKeyNormalizes(searchType, " Lofi Beats ");
    NormalizeExample();
  }

  /** A string of the key's shape ends in the digit of the type. */
  lemma ShapeEndsWithDigit(k: string, escaped: string, code: nat)
    requires code < 10 && k == "query=" + escaped + "&search_type=" + Decimal(code)
    ensures |k| > 0 && k[|k| - 1] == DigitChar(code)
  {
    assert Decimal(code) == [DigitChar(code)];
  }

  /** A key ends in its search type's digit. */
  lemma CacheKeyLast(searchType: SearchType, query: string)
    ensures var k := CacheKey(searchType, query);
            |k| > 0 && k[|k| - 1] == DigitChar(searchType.Code())
  {
    CacheKeyShape(searchType, query);
    ShapeEndsWithDigit(CacheKey(searchType, query), QueryEscape(NormalizeQuery(query)), searchType.Code());
  }

  /** The two search types never share a key: the last character is the type's digit. */
  lemma CacheKeySeparatesTypes(t1: SearchType, q1: string, t2: SearchType, q2: string)
    requires t1 != t2
    ensures CacheKey(t1, q1) != CacheKey(t2, q2)
  {
    CacheKeyLast(t1, q1);
    CacheKeyLast(t2, q2);
    assert DigitChar(t1.Code()) != DigitChar(t2.Code());
  }

  // ---------------------------------------------------------------- the table

  /** A row of `caches`: the encoded track list and the second it was written
      (`DEFAULT CURRENT_TIMESTAMP`). */
  datatype Row = Row(value: seq<byte>, timestamp: int)

  /** Rows after `INSERT OR REPLACE`: the key's row is new, with a fresh timestamp. */
  function Stored(rows: map<string, Row>, key: string, value: seq<byte>, now: int): (r: map<string, Row>)
    ensures r.Keys == rows.Keys + {key}
    ensures r[key] == Row(value, now)
    ensures forall k :: k in rows && k != key ==> r[k] == rows[k]
  {
    rows[key := Row(value, now)]
  }

  /** `SELECT value FROM caches WHERE key = ?`, with no row as `None`. */
  function Find(rows: map<string, Row>, key: string): (r: Option<seq<byte>>)
    ensures r.Some? <==> key in rows
    ensures r.Some? ==> r.value == rows[key].value
  {
    if key in rows then Some(rows[key].value) else None
  }

  /** `victims` are rows with the oldest timestamps: none is newer than a row that stays. */
  ghost predicate OldestFirst(rows: map<string, Row>, victims: set<string>) {
    && victims <= rows.Keys
    && forall v, k :: v in victims && k in rows && k !in victims ==> rows[v].timestamp <= rows[k].timestamp
  }

  /** A non-empty set of rows has one whose timestamp is not above any other. */
  lemma {:induction false} OldestExists(rows: map<string, Row>, candidates: set<string>)
    requires candidates != {} && candidates <= rows.Keys
    ensures exists k :: k in candidates && forall j :: j in candidates ==> rows[k].timestamp <= rows[j].timestamp
    decreases |candidates|
  {
    var x :| x in candidates;
    var others := candidates - {x};
    if others != {} {
      OldestExists(rows, others);
      var m :| m in others && forall j :: j in others ==> rows[m].timestamp <= rows[j].timestamp;
      if rows[x].timestamp < rows[m].timestamp {
        assert forall j :: j in candidates ==> rows[x].timestamp <= rows[j].timestamp;
      } else {
        assert forall j :: j in candidates ==> rows[m].timestamp <= rows[j].timestamp;
      }
    } else {
      assert candidates == {x};
    }
  }

  /** The subquery `SELECT key FROM caches ORDER BY timestamp ASC LIMIT n`: `n` keys, oldest
      first. Among equal timestamps SQLite picks in no specified order; so does this choice. */
  method OldestKeys(rows: map<string, Row>, n: nat) returns (victims: set<string>)
    requires n <= |rows|
    ensures |victims| == n
    ensures OldestFirst(rows, victims)
  {
    victims := {};
    while |victims| < n
      invariant |victims| <= n
      invariant OldestFirst(rows, victims)
      decreases n - |victims|
    {
      var candidates := rows.Keys - victims;
      assert |rows.Keys| == |rows|;
      assert |candidates| == |rows| - |victims|;
      OldestExists(rows, candidates);
      var k :| k in candidates && forall j :: j in candidates ==> rows[k].timestamp <= rows[j].timestamp;
      victims := victims + {k};
    }
  }

  /** The cache store: `connected` is `srv.db != nil`, `rows` the `caches` table. */
  class ResponseCache {
    var connected: bool
    var rows: map<string, Row>

    constructor (connected: bool)
      ensures this.connected == connected && rows == map[]
    {
      this.connected := connected;
      rows := map[];
    }

    /** `StoreCache`: the encoding error comes first; without a database nothing happens;
        otherwise the row is inserted or replaced unless the statement fails. */
    method Store(key: string, encoded: seq<byte>, encodeError: Option<string>, now: int, dbError: Option<string>)
      returns (err: Option<string>)
      modifies this
      ensures connected == old(connected)
      ensures encodeError.Some? ==> err == encodeError && rows == old(rows)
      ensures encodeError.None? && !connected ==> err == None && rows == old(rows)
      ensures encodeError.None? && connected && dbError.Some? ==> err == dbError && rows == old(rows)
      ensures encodeError.None? && connected && dbError.None? ==>
                err == None && rows == Stored(old(rows), key, encoded, now)
    {
      if encodeError.Some? {
        return encodeError;
      }
      if connected {
        if dbError.Some? {
          return dbError;
        }
        rows := rows[key := Row(encoded, now)];
        return None;
      }
      return None;
    }

    /** `LookupCache`: a missing row is a miss, not an error; without a database every
        lookup misses. */
    method Lookup(key: string, dbError: Option<string>) returns (r: Result<Option<seq<byte>>>)
      ensures !connected ==> r == Ok(None)
      ensures connected && dbError.Some? ==> r == Err(dbError.value)
      ensures connected && dbError.None? ==> r == Ok(Find(rows, key))
    {
      if connected {
        if dbError.Some? {
          return Err(dbError.value);
        }
        if key in rows {
          return Ok(Some(rows[key].value));
        }
        return Ok(None);
      }
      return Ok(None);
    }

    /** One tick of `EnforceCacheLimit` (the ticker only runs with a database): count the
        rows; a negative limit or a count within it leaves the table alone; otherwise the
        `count - limit` oldest rows are deleted. A failed count or delete changes nothing. */
    method EnforceLimitTick(limit: int, countError: Option<string>, deleteError: Option<string>)
      returns (deleted: set<string>)
      requires connected
      modifies this
      ensures connected
      ensures rows == old(rows) - deleted
      ensures deleted != {} <==>
                countError.None? && 0 <= limit < |old(rows)| && deleteError.None?
      ensures deleted != {} ==>
                |deleted| == |old(rows)| - limit && |rows| == limit && OldestFirst(old(rows), deleted)
    {
      if countError.Some? {
        return {};
      }
      var count := |rows|;
      if limit < 0 || count <= limit {
        return {};
      }
      var toDelete := count - limit;
      var victims := OldestKeys(rows, toDelete);
      if deleteError.Some? {
        return {};
      }
      rows := rows - victims;
      deleted := victims;
      assert rows.Keys == old(rows).Keys - victims;
      assert |rows.Keys| == |old(rows).Keys| - |victims|;
    }

    /** `clearCache`: every row is deleted unless the statement fails; no-op without a database. */
    method Clear(dbError: Option<string>) returns (err: Option<string>)
      modifies this
      ensures connected == old(connected)
      ensures !connected ==> err == None && rows == old(rows)
      ensures connected && dbError.Some? ==> err == dbError && rows == old(rows)
      ensures connected && dbError.None? ==> err == None && rows == map[]
    {
      if connected {
        if dbError.Some? {
          return dbError;
        }
        rows := map[];
      }
      return None;
    }
  }

  /** Storing and then looking the key up returns exactly the stored bytes. */
  method StoreThenLookup(cache: ResponseCache, key: string, encoded: seq<byte>, now: int)
    returns (r: Result<Option<seq<byte>>>)
    requires cache.connected
    modifies cache
    ensures r == Ok(Some(encoded))
    ensures forall k :: k in old(cache.rows) && k != key ==> k in cache.rows && cache.rows[k] == old(cache.rows)[k]
  {
    var err := cache.Store(key, encoded, None, now, None);
    r := cache.Lookup(key, None);
  }

  /** A second store on the same key replaces the value and refreshes the timestamp. */
  lemma StoreReplaces(rows: map<string, Row>, key: string, v1: seq<byte>, t1: int, v2: seq<byte>, t2: int)
    ensures Stored(Stored(rows, key, v1, t1), key, v2, t2) == Stored(rows, key, v2, t2)
  {
  }
}
