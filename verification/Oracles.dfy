/** The parts of the surroundings the scripts call but this model does not
    look into: hashing, time-stamp parsing and number formatting.  */
module Oracles {
  import opened Json
  import opened Decimals

  /** `SHA256_HEX_RE`: 64 lowercase hexadecimal digits. */
  predicate IsSha256Hex(s: string) {
    |s| == 64 && forall k :: 0 <= k < |s| ==> '0' <= s[k] <= '9' || 'a' <= s[k] <= 'f'
  }

  /** A `hexdigest()` of SHA-256. */
  type HexDigest = s: string | IsSha256Hex(s) witness seq(64, _ => '0')

  /** `sha256` is the digest of the canonical text of a value, `parseTime` is
      `try_parse_time` as an instant, `floatText` is `Decimal(str(x))`, and
      `show` is how an f-string prints a value.  */
  datatype Env = Env(
    sha256: Json -> HexDigest,
    parseTime: string -> Option<int>,
    floatText: real -> Option<Dec>,
    show: Json -> string)

  /** `digest_descriptor`. */
  function DigestDescriptor(env: Env, value: Json): Json {
    Obj(map["alg" := Str("sha-256"), "value" := Str(env.sha256(value))])
  }

  /** `try_parse_time` on any value. */
  function TimeOf(env: Env, value: Json): Option<int> {
    if value.Str? then env.parseTime(value.s) else None
  }

  /** `PROFILE_HASH_RE`. */
  predicate IsProfileHash(j: Json) {
    j.Str? && |j.s| == 72 && j.s[..8] == "sha-256:" && IsSha256Hex(j.s[8..])
  }
}
