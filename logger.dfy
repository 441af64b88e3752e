/** The attribute rewrite the log handlers apply: secrets never reach the log output. */
module Logging {

  /** The value of a log attribute, as far as the rewrite cares: a string or anything else
      (rendered text). */
  datatype LogValue = StringValue(s: string) | IntValue(n: int) | BoolValue(b: bool) | AnyValue(text: string)

  datatype Attr = Attr(key: string, value: LogValue)

  const Redacted := "[REDACTED]"

  /** The keys whose values are secrets; the match is exact and case-sensitive. */
  predicate IsSensitive(key: string) {
    key == "dsn" || key == "access_token" || key == "password"
  }

  /** `reddactSensitiveInfo`: the group path is not consulted. */
  function Redact(groups: seq<string>, a: Attr): (r: Attr)
    ensures r.key == a.key
    ensures IsSensitive(a.key) ==> r.value == StringValue(Redacted)
    ensures !IsSensitive(a.key) ==> r == a
  {
    if IsSensitive(a.key) then a.(value := StringValue(Redacted)) else a
  }

  /** No secret survives: whatever the value, a sensitive key is logged as the marker. */
  lemma RedactHidesSecrets(groups: seq<string>, key: string, secret: LogValue, other: LogValue)
    requires IsSensitive(key)
    ensures Redact(groups, Attr(key, secret)) == Redact(groups, Attr(key, other))
  {
  }

  /** The rewrite does not depend on the group the attribute sits in. */
  lemma RedactIgnoresGroups(g1: seq<string>, g2: seq<string>, a: Attr)
    ensures Redact(g1, a) == Redact(g2, a)
  {
  }

  /** Rewriting an already rewritten attribute changes nothing. */
  lemma RedactIdempotent(groups: seq<string>, a: Attr)
    ensures Redact(groups, Redact(groups, a)) == Redact(groups, a)
  {
  }

  /** Case matters: "Password" is not redacted. */
  lemma RedactCaseSensitive(groups: seq<string>, v: LogValue)
    ensures Redact(groups, Attr("Password", v)) == Attr("Password", v)
  {
  }
}
