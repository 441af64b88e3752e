/** The outbound transport: request header decoration, the IPv6 reachability check and its
    per-destination cache, and the random source address drawn from the configured block.
    `net.ParseCIDR`, `net.SplitHostPort`, DNS and `crypto/rand` are outcomes handed in. */
module Transport {
  import opened Base
  import opened Text

  // ---------------------------------------------------------------- addresses

  /** What `net.ParseCIDR` gives for the block: the masked network address (4 bytes for an
      IPv4 block, 16 for IPv6) and the mask's `Size()`, ones out of bits. */
  datatype IpNet = IpNet(ip: seq<byte>, ones: int, bits: int)

  const V4InV6Prefix: seq<byte> := [0, 0, 0, 0, 0, 0, 0, 0, 0, 0, 0xff, 0xff]

  /** `net.IP.To16`: IPv4 addresses are mapped into `::ffff:0:0/96`; other lengths give nil. */
  function To16(ip: seq<byte>): (r: Option<seq<byte>>)
    ensures r.Some? ==> |r.value| == 16
    ensures r.Some? <==> |ip| == 4 || |ip| == 16
  {
    if |ip| == 4 then Some(V4InV6Prefix + ip)
    else if |ip| == 16 then Some(ip)
    else None
  }

  /** `net.IP.To4`: an IPv4 address, plain or mapped; nil for anything else. */
  function To4(ip: seq<byte>): (r: Option<seq<byte>>)
    ensures r.Some? ==> |r.value| == 4
  {
    if |ip| == 4 then Some(ip)
    else if |ip| == 16 && ip[..12] == V4InV6Prefix then Some(ip[12..])
    else None
  }

  function Pow2(n: nat): (r: nat)
    ensures r >= 1
  {
    if n == 0 then 1 else 2 * Pow2(n - 1)
  }

  /** Bit `k` of an address, most significant bit of the first byte first. */
  function Bit(addr: seq<byte>, k: nat): bool
    requires k < 8 * |addr|
  {
    (addr[k / 8] / Pow2(7 - k % 8)) % 2 == 1
  }

  /** `addr` lies in the block `network/prefixLen`: its first `prefixLen` bits are the
      network's (section 2.3 of RFC 4291). */
  predicate InPrefix(addr: seq<byte>, network: seq<byte>, prefixLen: nat) {
    && |addr| == 16 && |network| == 16 && prefixLen <= 128
    && forall k :: 0 <= k < prefixLen ==> Bit(addr, k) == Bit(network, k)
  }

  /** Agreeing on the first `prefixLen / 8` bytes is agreeing on the first `prefixLen` bits. */
  lemma BytesGiveBits(addr: seq<byte>, network: seq<byte>, prefixLen: nat)
    requires |addr| == 16 && |network| == 16 && prefixLen <= 128 && prefixLen % 8 == 0
    requires addr[..prefixLen / 8] == network[..prefixLen / 8]
    ensures InPrefix(addr, network, prefixLen)
  {
    forall k | 0 <= k < prefixLen
      ensures Bit(addr, k) == Bit(network, k)
    {
      assert k / 8 < prefixLen / 8;
      assert addr[k / 8] == addr[..prefixLen / 8][k / 8];
    }
  }

  // ---------------------------------------------------------------- synthesis

  /** The prefix lengths synthesis accepts: within 0..128 and whole 16-bit groups. */
  predicate AcceptedPrefix(prefixLen: int) {
    0 <= prefixLen <= 128 && prefixLen % 16 == 0
  }

  /** The first `prefixLen / 8` bytes of the network followed by random bytes, in order. */
  function Synthesized(base: seq<byte>, prefixLen: nat, random: seq<byte>): (addr: seq<byte>)
    requires |base| == 16 && AcceptedPrefix(prefixLen) && |random| >= 16 - prefixLen / 8
    ensures |addr| == 16
  {
    base[..prefixLen / 8] + random[..16 - prefixLen / 8]
  }

  /** The 16-byte buffer: copy the network, then overwrite from byte `prefixLen / 8` on with
      the random bytes. */
  method FillAddress(base: seq<byte>, prefixLen: nat, random: seq<byte>) returns (addr: seq<byte>)
    requires |base| == 16 && AcceptedPrefix(prefixLen) && |random| >= 16 - prefixLen / 8
    ensures addr == Synthesized(base, prefixLen, random)
  {
    var ip := new byte[16];
    forall i | 0 <= i < 16 {
      ip[i] := base[i];
    }
    var fixed := prefixLen / 8;
    var n := 16 - fixed;
    for i := 0 to n
      invariant ip[..fixed] == base[..fixed]
      invariant ip[fixed..fixed + i] == random[..i]
    {
      ip[fixed + i] := random[i];
      assert ip[fixed..fixed + i + 1] == ip[fixed..fixed + i] + [random[i]];
      assert random[..i + 1] == random[..i] + [random[i]];
    }
    addr := ip[..];
    assert addr == ip[..fixed] + ip[fixed..16];
  }

  /** `GenerateRandomIpV6` as written: the block goes through `To16`, which maps an IPv4
      network instead of returning nil, so the "not an ipv6 network" guard never fires for
      a parsed block. `None` stands for the empty string. */
  function RandomIpV6AsWritten(parsed: Option<IpNet>, entropy: Option<seq<byte>>): Option<seq<byte>>
    requires entropy.Some? ==> |entropy.value| >= 16
  {
    if parsed.None? then None
    else
      var base := To16(parsed.value.ip);
      var prefixLen := parsed.value.ones;
      if base.None? || !AcceptedPrefix(prefixLen) || entropy.None? then None
      else Some(Synthesized(base.value, prefixLen, entropy.value))
  }

  /** An IPv4 block passes the guard, and the address produced for `10.0.0.0/16` is not in
      that block: its first bytes come from the mapping prefix, not from the network. */
  lemma Ipv4BlockEscapes()
    ensures var parsed := Some(IpNet([10, 0, 0, 0], 16, 32));
            var entropy := Some(seq(16, i => 0xab));
            var r := RandomIpV6AsWritten(parsed, entropy);
            r.Some? && r.value[0] == 0 && r.value[0] != 10
  {
  }

  /** The block is an IPv6 network: 16 bytes out of 128 bits. */
  predicate IsIpv6Net(n: IpNet) {
    |n.ip| == 16 && n.bits == 128
  }

  /** `GenerateRandomIpV6` with the guard doing what its message says: only an IPv6 block
      yields an address. `None` stands for the empty string. */
  function RandomIpV6(parsed: Option<IpNet>, entropy: Option<seq<byte>>): (r: Option<seq<byte>>)
    requires entropy.Some? ==> |entropy.value| >= 16
    ensures r.Some? <==>
              parsed.Some? && IsIpv6Net(parsed.value) && AcceptedPrefix(parsed.value.ones) && entropy.Some?
    ensures r.Some? ==> InPrefix(r.value, parsed.value.ip, parsed.value.ones)
    ensures r.Some? ==>
              r.value[parsed.value.ones / 8..] == entropy.value[..16 - parsed.value.ones / 8]
  {
    if parsed.None? || !IsIpv6Net(parsed.value) || !AcceptedPrefix(parsed.value.ones) || entropy.None? then None
    else
      var p := parsed.value.ones;
      var addr := Synthesized(parsed.value.ip, p, entropy.value);
      assert addr[..p / 8] == parsed.value.ip[..p / 8];
      BytesGiveBits(addr, parsed.value.ip, p);
      Some(addr)
  }

  /** Every address of the block can be drawn: the random bytes that are its host part
      produce it. */
  lemma RandomIpV6Covers(n: IpNet, addr: seq<byte>)
    requires IsIpv6Net(n) && AcceptedPrefix(n.ones) && |addr| == 16
    requires addr[..n.ones / 8] == n.ip[..n.ones / 8]
    ensures RandomIpV6(Some(n), Some(addr[n.ones / 8..] + seq(n.ones / 8, i => 0))) == Some(addr)
  {
    var p := n.ones;
    var entropy := addr[p / 8..] + seq(p / 8, i => 0);
    assert entropy[..16 - p / 8] == addr[p / 8..];
    assert addr == addr[..p / 8] + addr[p / 8..];
  }

  /** The method form: validation, then the buffer fill. */
  method GenerateRandomIpV6(parsed: Option<IpNet>, entropy: Option<seq<byte>>) returns (r: Option<seq<byte>>)
    requires entropy.Some? ==> |entropy.value| >= 16
    ensures r == RandomIpV6(parsed, entropy)
  {
    if parsed.None? {
      return None;
    }
    var network := parsed.value;
    if !IsIpv6Net(network) {
      return None;
    }
    var prefixLen := network.ones;
    if prefixLen < 0 || prefixLen > 128 {
      return None;
    }
    if prefixLen % 16 != 0 {
      return None;
    }
    if entropy.None? {
      return None;
    }
    var addr := FillAddress(network.ip, prefixLen, entropy.value);
    return Some(addr);
  }

  // ---------------------------------------------------------------- reachability

  /** DNS outcome for the destination host. */
  datatype Lookup = LookupFailed | Resolved(ips: seq<seq<byte>>)

  /** The destination supports IPv6: `host:port` splits, the host resolves, and some address
      is not an IPv4 one. */
  predicate Ipv6Reachable(splitOk: bool, lookup: Lookup) {
    splitOk && lookup.Resolved? && exists i :: 0 <= i < |lookup.ips| && To4(lookup.ips[i]).None?
  }

  /** `IsIpv6Supported`: the flag loop over the resolved addresses. */
  method IsIpv6Supported(splitOk: bool, lookup: Lookup) returns (supported: bool)
    ensures supported == Ipv6Reachable(splitOk, lookup)
  {
    supported := false;
    if !splitOk {
      return;
    }
    if lookup.LookupFailed? {
      return;
    }
    var ips := lookup.ips;
    for i := 0 to |ips|
      invariant !supported
      invariant forall j :: 0 <= j < i ==> To4(ips[j]).Some?
    {
      if To4(ips[i]).None? {
        supported := true;
        break;
      }
    }
  }

  /** 30 minutes in nanoseconds. */
  const ReachabilityTtl: int := 30 * 60 * 1_000_000_000

  datatype Reachability = Reachability(lastChecked: int, supported: bool)

  /** The destination must be checked again: no entry, or one older than 30 minutes. */
  predicate Stale(cache: map<string, Reachability>, addr: string, now: int) {
    addr !in cache || now - cache[addr].lastChecked > ReachabilityTtl
  }

  /** A destination never checked is stale; a stale entry stays stale as time passes, and
      recording a check for another destination does not change it. */
  lemma StaleFacts(cache: map<string, Reachability>, addr: string, other: string, entry: Reachability,
                   now: int, later: int)
    requires now <= later && other != addr
    ensures addr !in cache ==> Stale(cache, addr, now)
    ensures Stale(cache, addr, now) ==> Stale(cache, addr, later)
    ensures Stale(cache[other := entry], addr, now) == Stale(cache, addr, now)
  {
  }

  // ---------------------------------------------------------------- headers

  /** `textproto.CanonicalMIMEHeaderKey` for keys of letters, digits and '-': upper case at the
      start and after each '-', lower case elsewhere. */
  function CanonicalKey(key: string): (r: string)
    ensures |r| == |key|
  {
    seq(|key|, i requires 0 <= i < |key| =>
      if i == 0 || key[i - 1] == '-' then UpperChar(key[i]) else LowerChar(key[i]))
  }

  function UpperChar(c: char): char {
    if 'a' <= c <= 'z' then (c as int - 32) as char else c
  }

  /** The names the decoration sets, in canonical form. */
  lemma CanonicalVisitorId()
    ensures CanonicalKey("x-goog-visitor-id") == "X-Goog-Visitor-Id"
  {
  }

  lemma CanonicalXOrigin()
    ensures CanonicalKey("x-origin") == "X-Origin"
  {
  }

  lemma CanonicalOrigin()
    ensures CanonicalKey("origin") == "Origin"
  {
  }

  lemma CanonicalContentType()
    ensures CanonicalKey("Content-Type") == "Content-Type"
  {
  }

  lemma CanonicalConnection()
    ensures CanonicalKey("Connection") == "Connection"
  {
  }

  lemma CanonicalCookie()
    ensures CanonicalKey("Cookie") == "Cookie"
  {
  }

  lemma CanonicalUserAgent()
    ensures CanonicalKey("User-Agent") == "User-Agent"
  {
  }

  lemma CanonicalNames()
    ensures CanonicalKey("x-goog-visitor-id") == "X-Goog-Visitor-Id"
    ensures CanonicalKey("x-origin") == "X-Origin"
    ensures CanonicalKey("origin") == "Origin"
    ensures CanonicalKey("Content-Type") == "Content-Type"
    ensures CanonicalKey("Connection") == "Connection"
    ensures CanonicalKey("Cookie") == "Cookie"
    ensures CanonicalKey("User-Agent") == "User-Agent"
  {
    CanonicalVisitorId();
    CanonicalXOrigin();
    CanonicalOrigin();
    CanonicalContentType();
    CanonicalConnection();
    CanonicalCookie();
    CanonicalUserAgent();
  }

  const UserAgent := "Mozilla/5.0 (Windows NT 10.0; Win64; x64) AppleWebKit/537.36 (KHTML, like Gecko) Chrome/142.0.0.0 Safari/537.36"

  /** The header holds `value` under `key`. */
  predicate Has(h: map<string, string>, key: string, value: string) {
    key in h && h[key] == value
  }

  /** `Header.Set`: one value under the canonical key. */
  function SetHeader(h: map<string, string>, key: string, value: string): map<string, string> {
    h[CanonicalKey(key) := value]
  }

  /** The headers `OnRequest` leaves on a request to `url` whose context carries `visitorId`
      (when it holds a string). */
  function Decorated(h: map<string, string>, url: string, visitorId: Option<string>): map<string, string> {
    var api :=
      if Contains(url, "youtubei/v1/") then
        var typed := SetHeader(h, "Content-Type", "application/json");
        if visitorId.Some? && visitorId.value != "" then SetHeader(typed, "x-goog-visitor-id", visitorId.value)
        else typed
      else h;
    var origin :=
      if Contains(url, "music.youtube.com") then SetHeader(api, "x-origin", "https://music.youtube.com")
      else SetHeader(api, "origin", "https://www.youtube.com");
    SetHeader(SetHeader(SetHeader(origin, "Connection", "close"), "Cookie", "SOCS=CAI;"), "User-Agent", UserAgent)
  }

  /** What every decorated request carries, and what only API and music requests carry. */
  lemma DecoratedHeaders(h: map<string, string>, url: string, visitorId: Option<string>)
    ensures var d := Decorated(h, url, visitorId);
            && Has(d, "Connection", "close") && Has(d, "Cookie", "SOCS=CAI;") && Has(d, "User-Agent", UserAgent)
            && (Contains(url, "youtubei/v1/") ==> Has(d, "Content-Type", "application/json"))
            && (Contains(url, "youtubei/v1/") && visitorId.Some? && visitorId.value != "" ==>
                  Has(d, "X-Goog-Visitor-Id", visitorId.value))
            && (Contains(url, "music.youtube.com") ==> Has(d, "X-Origin", "https://music.youtube.com"))
            && (!Contains(url, "music.youtube.com") ==> Has(d, "Origin", "https://www.youtube.com"))
  {
    CanonicalNames();
  }

  /** A header the decoration does not name is left alone. */
  lemma DecoratedLeavesOthers(h: map<string, string>, url: string, visitorId: Option<string>, key: string)
    requires key in h
    requires key !in {"Content-Type", "X-Goog-Visitor-Id", "X-Origin", "Origin", "Connection", "Cookie", "User-Agent"}
    ensures var d := Decorated(h, url, visitorId);
            key in d && d[key] == h[key]
  {
    CanonicalNames();
  }

  /** The visitor id header is added only to API requests carrying a non-empty id. */
  lemma VisitorIdOnlyWhenGiven(h: map<string, string>, url: string, visitorId: Option<string>)
    requires !Contains(url, "youtubei/v1/") || visitorId.None? || visitorId.value == ""
    ensures var d := Decorated(h, url, visitorId);
            ("X-Goog-Visitor-Id" in d <==> "X-Goog-Visitor-Id" in h)
            && ("X-Goog-Visitor-Id" in h ==> d["X-Goog-Visitor-Id"] == h["X-Goog-Visitor-Id"])
  {
    CanonicalNames();
  }

  /** An outgoing request: its URL text, the visitor id in its context, its header. */
  class Request {
    const url: string
    const visitorId: Option<string>
    var header: map<string, string>

    constructor (url: string, visitorId: Option<string>)
      ensures this.url == url && this.visitorId == visitorId && header == map[]
    {
      this.url := url;
      this.visitorId := visitorId;
      header := map[];
    }
  }

  // ---------------------------------------------------------------- the client

  /** The client state: the configured block and the reachability cache. */
  class HttpClient {
    const ipv6Block: string
    var cache: map<string, Reachability>

    constructor (ipv6Block: string)
      ensures this.ipv6Block == ipv6Block && cache == map[]
    {
      this.ipv6Block := ipv6Block;
      cache := map[];
    }

    /** `OnRequest`: the header rules; the id is truncated to 50 characters for the log only. */
    method OnRequest(req: Request)
      modifies req
      ensures req.header == Decorated(old(req.header), req.url, req.visitorId)
    {
      if Contains(req.url, "youtubei/v1/") {
        req.header := SetHeader(req.header, "Content-Type", "application/json");
        var ivs := req.visitorId;
        if ivs.Some? && ivs.value != "" {
          req.header := SetHeader(req.header, "x-goog-visitor-id", ivs.value);
        }
      }
      if Contains(req.url, "music.youtube.com") {
        req.header := SetHeader(req.header, "x-origin", "https://music.youtube.com");
      } else {
        req.header := SetHeader(req.header, "origin", "https://www.youtube.com");
      }
      req.header := SetHeader(req.header, "Connection", "close");
      req.header := SetHeader(req.header, "Cookie", "SOCS=CAI;");
      req.header := SetHeader(req.header, "User-Agent", UserAgent);
    }

    /** The local-address choice of `TransportDialContext` for `addr` at `now`: a stale or
        missing entry is re-checked and recorded for `addr` alone; a fresh one is used as it
        is. A random source address is used only for a supported destination, a configured
        block and a successful synthesis; `None` leaves the local address to the system. */
    method Dial(addr: string, now: int, splitOk: bool, lookup: Lookup, parsed: Option<IpNet>, entropy: Option<seq<byte>>)
      returns (localAddr: Option<seq<byte>>)
      requires entropy.Some? ==> |entropy.value| >= 16
      modifies this
      ensures Stale(old(cache), addr, now) ==>
                cache == old(cache)[addr := Reachability(now, Ipv6Reachable(splitOk, lookup))]
      ensures !Stale(old(cache), addr, now) ==> cache == old(cache)
      ensures localAddr.Some? <==>
                cache[addr].supported && ipv6Block != "" && RandomIpV6(parsed, entropy).Some?
      ensures localAddr.Some? ==> localAddr == RandomIpV6(parsed, entropy)
    {
      var ipv6Supported := false;
      if addr !in cache || now - cache[addr].lastChecked > ReachabilityTtl {
        var fetched := IsIpv6Supported(splitOk, lookup);
        cache := cache[addr := Reachability(now, fetched)];
        ipv6Supported := fetched;
      } else {
        ipv6Supported := cache[addr].supported;
      }
      localAddr := None;
      if ipv6Supported && ipv6Block != "" {
        var randomIpv6 := GenerateRandomIpV6(parsed, entropy);
        if randomIpv6.Some? {
          localAddr := randomIpv6;
        }
      }
    }
  }

  /** A check recorded at `now` is reused for 30 minutes, and redone after that. */
  lemma RecordedStaysFresh(cache: map<string, Reachability>, addr: string, now: int, supported: bool, later: int)
    ensures var c := cache[addr := Reachability(now, supported)];
            !Stale(c, addr, later) <==> later - now <= ReachabilityTtl
  {
  }
}
