/** The part of Go's `net/url` the cache key is built with: `QueryEscape` and the
    form encoding of `Values.Encode`, which sorts the keys before joining the pairs. */
module UrlForm {
  import opened Base
  import opened Text

  // ---------------------------------------------------------------- UTF-8

  /** The UTF-8 encoding of one Unicode scalar value. */
  function Utf8(c: char): (bytes: seq<byte>)
    ensures 1 <= |bytes| <= 4
    ensures |bytes| == 1 <==> c as int < 0x80
  {
    var n := c as int;
    if n < 0x80 then [n]
    else if n < 0x800 then [0xC0 + n / 64, 0x80 + n % 64]
    else if n < 0x10000 then [0xE0 + n / 4096, 0x80 + (n / 64) % 64, 0x80 + n % 64]
    else [0xF0 + n / 262144, 0x80 + (n / 4096) % 64, 0x80 + (n / 64) % 64, 0x80 + n % 64]
  }

  // ---------------------------------------------------------------- escaping

  /** The characters `QueryEscape` leaves as they are. */
  predicate Unreserved(c: char) {
    'A' <= c <= 'Z' || 'a' <= c <= 'z' || '0' <= c <= '9' || c == '-' || c == '_' || c == '.' || c == '~'
  }

  /** Upper-case hexadecimal digit. */
  function HexDigit(n: nat): char
    requires n < 16
  {
    if n < 10 then ('0' as int + n) as char else ('A' as int + n - 10) as char
  }

  /** `%XY` for every byte, with upper-case hex digits. */
  function PercentBytes(bytes: seq<byte>): string {
    if bytes == [] then ""
    else ['%', HexDigit(bytes[0] / 16), HexDigit(bytes[0] % 16)] + PercentBytes(bytes[1..])
  }

  /** One character: unreserved ones stay, a space becomes '+', anything else is its UTF-8
      bytes percent-encoded. */
  function EscapeChar(c: char): string {
    if Unreserved(c) then [c]
    else if c == ' ' then "+"
    else PercentBytes(Utf8(c))
  }

  /** `url.QueryEscape`. */
  function QueryEscape(s: string): string {
    if s == [] then "" else EscapeChar(s[0]) + QueryEscape(s[1..])
  }

  /** What escaped text is made of: unreserved characters, '+' and '%'-triplets. */
  predicate EscapedChar(c: char) {
    Unreserved(c) || c == '+' || c == '%'
  }

  lemma {:induction false} PercentBytesSafe(bytes: seq<byte>)
    ensures forall i :: 0 <= i < |PercentBytes(bytes)| ==> EscapedChar(PercentBytes(bytes)[i])
  {
    if bytes != [] {
      PercentBytesSafe(bytes[1..]);
    }
  }

  /** Escaped text holds neither '&' nor '=', so a key=value pair splits unambiguously. */
  lemma {:induction false} QueryEscapeSafe(s: string)
    ensures forall i :: 0 <= i < |QueryEscape(s)| ==> EscapedChar(QueryEscape(s)[i])
  {
    if s != [] {
      QueryEscapeSafe(s[1..]);
      if !Unreserved(s[0]) && s[0] != ' ' {
        PercentBytesSafe(Utf8(s[0]));
      }
      var head := EscapeChar(s[0]);
      var tail := QueryEscape(s[1..]);
      assert forall i :: |head| <= i < |head + tail| ==> (head + tail)[i] == tail[i - |head|];
    }
  }

  /** Text made of unreserved characters is its own escape. */
  lemma {:induction false} QueryEscapeUnreserved(s: string)
    requires forall i :: 0 <= i < |s| ==> Unreserved(s[i])
    ensures QueryEscape(s) == s
  {
    if s != [] {
      QueryEscapeUnreserved(s[1..]);
      assert s == [s[0]] + s[1..];
    }
  }

  // ---------------------------------------------------------------- sorting keys

  predicate Sorted(keys: seq<string>) {
    forall i, j :: 0 <= i < j < |keys| ==> LexLessEq(keys[i], keys[j])
  }

  /** Inserts `k` before the first key it does not follow. */
  function Insert(k: string, sorted: seq<string>): (r: seq<string>)
    ensures multiset(r) == multiset(sorted) + multiset{k}
  {
    if sorted == [] then [k]
    else if LexLessEq(k, sorted[0]) then [k] + sorted
    else
      assert sorted == [sorted[0]] + sorted[1..];
      [sorted[0]] + Insert(k, sorted[1..])
  }

  /** The keys in ascending order, as `slices.Sort` leaves them. Go compares strings byte
      by byte, and UTF-8 keeps the order of code points, so comparing characters agrees. */
  function SortStrings(keys: seq<string>): (r: seq<string>)
    ensures multiset(r) == multiset(keys)
  {
    if keys == [] then []
    else
      assert keys == [keys[0]] + keys[1..];
      Insert(keys[0], SortStrings(keys[1..]))
  }

  lemma {:induction false} InsertSorted(k: string, sorted: seq<string>)
    requires Sorted(sorted)
    ensures Sorted(Insert(k, sorted))
  {
    if sorted != [] && !LexLessEq(k, sorted[0]) {
      InsertSorted(k, sorted[1..]);
      LexTotal(k, sorted[0]);
      var r := Insert(k, sorted);
      var tail := Insert(k, sorted[1..]);
      forall j | 0 < j < |r|
        ensures LexLessEq(sorted[0], r[j])
      {
        assert r[j] in multiset(tail);
        assert r[j] == k || r[j] in multiset(sorted[1..]);
        if r[j] != k {
          var m :| 0 <= m < |sorted[1..]| && sorted[1..][m] == r[j];
          assert sorted[m + 1] == r[j];
        }
      }
    } else if sorted != [] {
      var r := Insert(k, sorted);
      forall i, j | 0 <= i < j < |r|
        ensures LexLessEq(r[i], r[j])
      {
        if i == 0 && j > 1 {
          LexTransitive(k, sorted[0], sorted[j - 1]);
        }
      }
    }
  }

  lemma {:induction false} SortStringsSorted(keys: seq<string>)
    ensures Sorted(SortStrings(keys))
  {
    if keys != [] {
      SortStringsSorted(keys[1..]);
      InsertSorted(keys[0], SortStrings(keys[1..]));
    }
  }

  lemma SortedTail(a: seq<string>)
    requires a != [] && Sorted(a)
    ensures Sorted(a[1..])
  {
    forall p, q | 0 <= p < q < |a[1..]|
      ensures LexLessEq(a[1..][p], a[1..][q])
    {
      assert a[1..][p] == a[p + 1] && a[1..][q] == a[q + 1];
    }
  }

  /** The first key of an ascending sequence is not above any of its keys. */
  lemma SortedHead(a: seq<string>, k: string)
    requires Sorted(a) && k in a
    ensures LexLessEq(a[0], k)
  {
    var i :| 0 <= i < |a| && a[i] == k;
    if i == 0 {
      LexReflexive(k);
    }
  }

  /** Dropping the first key drops one occurrence of it. */
  lemma MultisetTail(a: seq<string>)
    requires a != []
    ensures multiset(a[1..]) == multiset(a) - multiset{a[0]}
  {
    assert a == [a[0]] + a[1..];
  }

  /** Two ascending sequences holding the same keys are the same sequence. */
  lemma {:induction false} SortedUnique(a: seq<string>, b: seq<string>)
    requires Sorted(a) && Sorted(b) && multiset(a) == multiset(b)
    ensures a == b
    decreases |a|
  {
    assert |a| == |multiset(a)| == |multiset(b)| == |b|;
    if a != [] {
      assert a[0] in multiset(b) && b[0] in multiset(a);
      SortedHead(a, b[0]);
      SortedHead(b, a[0]);
      LexAntisymmetric(a[0], b[0]);
      MultisetTail(a);
      MultisetTail(b);
      SortedTail(a);
      SortedTail(b);
      SortedUnique(a[1..], b[1..]);
      assert a == [a[0]] + a[1..] && b == [b[0]] + b[1..];
    }
  }

  // ---------------------------------------------------------------- encoding

  /** `key=value` pairs in the given key order, joined by '&'. */
  function Pairs(values: map<string, string>, keys: seq<string>): string
    requires forall i :: 0 <= i < |keys| ==> keys[i] in values
  {
    if keys == [] then ""
    else
      var pair := QueryEscape(keys[0]) + "=" + QueryEscape(values[keys[0]]);
      if |keys| == 1 then pair else pair + "&" + Pairs(values, keys[1..])
  }

  /** Two pairs: `a=<value of a>&b=<value of b>`. */
  lemma PairsOfTwo(values: map<string, string>, a: string, b: string)
    requires a in values && b in values
    ensures Pairs(values, [a, b]) ==
            (QueryEscape(a) + "=" + QueryEscape(values[a])) + "&" + (QueryEscape(b) + "=" + QueryEscape(values[b]))
  {
    assert [a, b][0] == a && [a, b][1..] == [b];
  }

  /** `url.Values.Encode` for values set with `Set`, so one value per key. `order` is the
      order the keys were enumerated in; the encoder sorts them first. */
  function Encode(values: map<string, string>, order: seq<string>): string
    requires multiset(order) == multiset(values.Keys)
  {
    var keys := SortStrings(order);
    assert forall i :: 0 <= i < |keys| ==> keys[i] in multiset(values.Keys);
    Pairs(values, keys)
  }

  /** The encoding does not depend on the order the keys were enumerated in (Go's map
      iteration order is random). */
  lemma EncodeIgnoresOrder(values: map<string, string>, order1: seq<string>, order2: seq<string>)
    requires multiset(order1) == multiset(values.Keys)
    requires multiset(order2) == multiset(values.Keys)
    ensures Encode(values, order1) == Encode(values, order2)
  {
    SortStringsSorted(order1);
    SortStringsSorted(order2);
    SortedUnique(SortStrings(order1), SortStrings(order2));
  }
}
