/** The gateway's configuration and the defaults `ReadConfig` fills in after decoding. */
module Settings {
  import opened Base

  datatype LogConfig = LogConfig(level: int, format: string, addSource: bool, noColor: bool)

  datatype CacheConfig = CacheConfig(enabled: bool, cacheDir: string, cacheMaxLimit: int)

  datatype Config = Config(
    ipv6Subnet: string,
    maxVisitorCount: int,
    requestTimeout: int,
    serverAddr: string,
    logging: LogConfig,
    caching: CacheConfig)

  /** What opening and decoding the file gave. */
  datatype Decoded = Decoded(cfg: Config) | DecodeFailed(error: string)

  const DefaultCacheDir := "./cache.db"
  /** The limit that means "no limit". */
  const NoLimit := -1
  const DefaultMaxVisitorCount := 2
  const DefaultServerAddr := ":8080"
  const DefaultRequestTimeout := 10
  const DefaultLogFormat := "text"

  /** Every field a default rule covers holds a usable value. */
  predicate Usable(c: Config) {
    && (c.caching.enabled ==> c.caching.cacheDir != "" && c.caching.cacheMaxLimit != 0)
    && c.maxVisitorCount > 0
    && c.serverAddr != ""
    && c.requestTimeout > 0
    && c.logging.format != ""
  }

  /** The fields no rule touches agree. */
  predicate SameUntouched(c: Config, d: Config) {
    && d.ipv6Subnet == c.ipv6Subnet
    && d.caching.enabled == c.caching.enabled
    && d.logging.level == c.logging.level
    && d.logging.addSource == c.logging.addSource
    && d.logging.noColor == c.logging.noColor
  }

  /** The configuration after the default rules, each applied to its field. */
  function WithDefaults(c: Config): Config {
    var enabled := c.caching.enabled;
    Config(
      c.ipv6Subnet,
      if c.maxVisitorCount <= 0 then DefaultMaxVisitorCount else c.maxVisitorCount,
      if c.requestTimeout <= 0 then DefaultRequestTimeout else c.requestTimeout,
      if c.serverAddr == "" then DefaultServerAddr else c.serverAddr,
      c.logging.(format := if c.logging.format == "" then DefaultLogFormat else c.logging.format),
      CacheConfig(
        enabled,
        if enabled && c.caching.cacheDir == "" then DefaultCacheDir else c.caching.cacheDir,
        if enabled && c.caching.cacheMaxLimit == 0 then NoLimit else c.caching.cacheMaxLimit))
  }

  /** `ReadConfig`: a failed open or decode is returned as the error; otherwise the rules
      are applied one after another to the decoded value. */
  method ReadConfig(decoded: Decoded) returns (r: Result<Config>)
    ensures decoded.DecodeFailed? ==> r == Err(decoded.error)
    ensures decoded.Decoded? ==> r.Ok? && Usable(r.value) && SameUntouched(decoded.cfg, r.value)
    ensures decoded.Decoded? ==> r == Ok(WithDefaults(decoded.cfg))
  {
    if decoded.DecodeFailed? {
      return Err(decoded.error);
    }
    var cfg := decoded.cfg;
    if cfg.caching.enabled && cfg.caching.cacheDir == "" {
      cfg := cfg.(caching := cfg.caching.(cacheDir := DefaultCacheDir));
    }
    if cfg.caching.enabled && cfg.caching.cacheMaxLimit == 0 {
      cfg := cfg.(caching := cfg.caching.(cacheMaxLimit := NoLimit));
    }
    if cfg.maxVisitorCount <= 0 {
      cfg := cfg.(maxVisitorCount := DefaultMaxVisitorCount);
    }
    if cfg.serverAddr == "" {
      cfg := cfg.(serverAddr := DefaultServerAddr);
    }
    if cfg.requestTimeout <= 0 {
      cfg := cfg.(requestTimeout := DefaultRequestTimeout);
    }
    if cfg.logging.format == "" {
      cfg := cfg.(logging := cfg.logging.(format := DefaultLogFormat));
    }
    return Ok(cfg);
  }

  /** The defaults make every covered field usable and leave the others alone. */
  lemma DefaultsAreUsable(c: Config)
    ensures Usable(WithDefaults(c)) && SameUntouched(c, WithDefaults(c))
  {
  }

  /** A value that is already usable is kept as it is, so applying the rules twice is
      applying them once. */
  lemma UsableIsFixed(c: Config)
    requires Usable(c)
    ensures WithDefaults(c) == c
  {
  }

  lemma DefaultsIdempotent(c: Config)
    ensures WithDefaults(WithDefaults(c)) == WithDefaults(c)
  {
    DefaultsAreUsable(c);
    UsableIsFixed(WithDefaults(c));
  }

  /** A zero cache limit means "no limit" only when caching is on; with caching off it is
      kept, and so is a missing cache directory. */
  lemma CacheLimitDefaults(c: Config)
    ensures c.caching.enabled && c.caching.cacheMaxLimit == 0 ==> WithDefaults(c).caching.cacheMaxLimit == NoLimit
    ensures c.caching.enabled && c.caching.cacheDir == "" ==> WithDefaults(c).caching.cacheDir == DefaultCacheDir
    ensures !c.caching.enabled ==> WithDefaults(c).caching == c.caching
  {
  }

  /** The defaults for the always-present fields. */
  lemma ServerDefaults(c: Config)
    ensures c.maxVisitorCount <= 0 ==> WithDefaults(c).maxVisitorCount == 2
    ensures c.requestTimeout <= 0 ==> WithDefaults(c).requestTimeout == 10
    ensures c.serverAddr == "" ==> WithDefaults(c).serverAddr == ":8080"
    ensures c.logging.format == "" ==> WithDefaults(c).logging.format == "text"
  {
  }
}
