/** Unpadded base64url (RFC 4648, sections 3.2 and 5) as `b64url_encode_bytes`
    and `b64url_decode_text` use it.  */
module Base64Url {
  import opened Json

  newtype Byte = x: int | 0 <= x < 256 witness 0

  newtype Sextet = x: int | 0 <= x < 64 witness 0

  /** The URL-safe alphabet. */
  function CharOf(v: Sextet): (c: char)
    ensures InAlphabet(c) && SextetOf(c) == v
  {
    var n := v as int;
    if n < 26 then ('A' as int + n) as char
    else if n < 52 then ('a' as int + n - 26) as char
    else if n < 62 then ('0' as int + n - 52) as char
    else if n == 62 then '-' else '_'
  }

  predicate InAlphabet(c: char) {
    'A' <= c <= 'Z' || 'a' <= c <= 'z' || '0' <= c <= '9' || c == '-' || c == '_'
  }

  function SextetOf(c: char): (v: Sextet)
    requires InAlphabet(c)
  {
    if 'A' <= c <= 'Z' then (c as int - 'A' as int) as Sextet
    else if 'a' <= c <= 'z' then (c as int - 'a' as int + 26) as Sextet
    else if '0' <= c <= '9' then (c as int - '0' as int + 52) as Sextet
    else if c == '-' then 62 else 63
  }

  lemma CharOfSextet(c: char)
    requires InAlphabet(c)
    ensures CharOf(SextetOf(c)) == c
  {}

  /** The four sextets of three bytes. */
  function Four(x: Byte, y: Byte, z: Byte): (s: seq<Sextet>)
    ensures |s| == 4
  {
    var (a, b, c) := (x as int, y as int, z as int);
    [(a / 4) as Sextet, (a % 4 * 16 + b / 16) as Sextet, (b % 16 * 4 + c / 64) as Sextet, (c % 64) as Sextet]
  }

  /** The three bytes of four sextets. */
  function Three(p: Sextet, q: Sextet, r: Sextet, t: Sextet): (b: seq<Byte>)
    ensures |b| == 3
  {
    var (a, b, c, d) := (p as int, q as int, r as int, t as int);
    [(a * 4 + b / 16) as Byte, (b % 16 * 16 + c / 4) as Byte, (c % 4 * 64 + d) as Byte]
  }

  lemma ThreeOfFour(x: Byte, y: Byte, z: Byte)
    ensures var s := Four(x, y, z); Three(s[0], s[1], s[2], s[3]) == [x, y, z]
  {}

  lemma FourOfThree(p: Sextet, q: Sextet, r: Sextet, t: Sextet)
    ensures var b := Three(p, q, r, t); Four(b[0], b[1], b[2]) == [p, q, r, t]
  {
    var (a, b, c, d) := (p as int, q as int, r as int, t as int);
    var bytes := Three(p, q, r, t);
    var (x, y, z) := (bytes[0] as int, bytes[1] as int, bytes[2] as int);
    assert x / 4 == a && x % 4 == b / 16;
    assert y / 16 == b % 16 && y % 16 == c / 4;
    assert z / 64 == c % 4 && z % 64 == d;
    assert b / 16 * 16 + b % 16 == b && c / 4 * 4 + c % 4 == c;
  }

  /** Three bytes are four sextets; a final one or two bytes are padded with
      zero bits to two or three sextets, and the `=` signs are stripped.  */
  function Sextets(b: seq<Byte>): seq<Sextet> {
    if b == [] then []
    else if |b| == 1 then Four(b[0], 0, 0)[..2]
    else if |b| == 2 then Four(b[0], b[1], 0)[..3]
    else Four(b[0], b[1], b[2]) + Sextets(b[3..])
  }

  /** Decoding drops the bits that do not fill a byte. */
  function Bytes(s: seq<Sextet>): seq<Byte>
    requires |s| % 4 != 1
  {
    if s == [] then []
    else if |s| == 2 then Three(s[0], s[1], 0, 0)[..1]
    else if |s| == 3 then Three(s[0], s[1], s[2], 0)[..2]
    else Three(s[0], s[1], s[2], s[3]) + Bytes(s[4..])
  }

  function Text(s: seq<Sextet>): (t: string)
    ensures |t| == |s| && forall k :: 0 <= k < |t| ==> t[k] == CharOf(s[k])
  {
    if s == [] then "" else [CharOf(s[0])] + Text(s[1..])
  }

  function Values(t: string): (s: seq<Sextet>)
    requires forall k :: 0 <= k < |t| ==> InAlphabet(t[k])
    ensures |t| == |s| && forall k :: 0 <= k < |t| ==> s[k] == SextetOf(t[k])
  {
    if t == "" then [] else [SextetOf(t[0])] + Values(t[1..])
  }

  function Encode(b: seq<Byte>): string {
    Text(Sextets(b))
  }

  /** `b64url_decode_text`: the guards, then the decoder on the padded text. */
  function Decode(t: string): Option<seq<Byte>> {
    if t == "" || |t| % 4 == 1 then None
    else if exists k :: 0 <= k < |t| && !InAlphabet(t[k]) then None
    else Some(Bytes(Values(t)))
  }

  lemma {:induction false} SextetsLength(b: seq<Byte>)
    ensures |Sextets(b)| == (4 * |b| + 2) / 3
    ensures |Sextets(b)| % 4 != 1
  {
    if |b| > 2 { SextetsLength(b[3..]); }
  }

  lemma {:induction false} BytesLength(s: seq<Sextet>)
    requires |s| % 4 != 1
    ensures |Bytes(s)| == 3 * |s| / 4
  {
    if |s| > 3 { BytesLength(s[4..]); }
  }

  lemma {:induction false} BytesOfSextets(b: seq<Byte>)
    ensures |Sextets(b)| % 4 != 1 && Bytes(Sextets(b)) == b
  {
    SextetsLength(b);
    if |b| > 2 {
      BytesOfSextets(b[3..]);
      ThreeOfFour(b[0], b[1], b[2]);
      assert Sextets(b)[4..] == Sextets(b[3..]);
      assert b == [b[0], b[1], b[2]] + b[3..];
    } else if |b| == 2 {
      assert b == [b[0], b[1]];
    } else if |b| == 1 {
      assert b == [b[0]];
    }
  }

  /** Decoding undoes encoding exactly for the non-empty byte strings. */
  lemma DecodeEncodeIff(b: seq<Byte>)
    ensures Decode(Encode(b)) == Some(b) <==> b != []
  {
    SextetsLength(b);
    BytesOfSextets(b);
    var t := Encode(b);
    assert Values(t) == Sextets(b);
  }

  /** The bits of the last character that no byte uses. */
  predicate CleanTail(s: seq<Sextet>) {
    && (|s| % 4 == 2 ==> s[|s| - 1] as int % 16 == 0)
    && (|s| % 4 == 3 ==> s[|s| - 1] as int % 4 == 0)
  }

  lemma PairTail(p: Sextet, q: Sextet)
    ensures Four(Three(p, q, 0, 0)[0], 0, 0)[..2] == [p, q] <==> q as int % 16 == 0
  {
    assert Four(Three(p, q, 0, 0)[0], 0, 0)[..2][1] as int == q as int / 16 * 16;
  }

  lemma TripleTail(p: Sextet, q: Sextet, r: Sextet)
    ensures Four(Three(p, q, r, 0)[0], Three(p, q, r, 0)[1], 0)[..3] == [p, q, r] <==> r as int % 4 == 0
  {
    FourOfThree(p, q, r, 0);
    var b := Three(p, q, r, 0);
    var s := Four(b[0], b[1], 0);
    assert s[0] == p && s[1] == q;
    assert s[2] as int == r as int / 4 * 4;
  }

  lemma WithoutGroup(s: seq<Sextet>)
    requires |s| % 4 != 1 && |s| > 3
    ensures |s[4..]| % 4 != 1 && s == s[..4] + s[4..]
    ensures CleanTail(s) <==> CleanTail(s[4..])
  {
    var rest := s[4..];
    assert |rest| == |s| - 4 && (|s| - 4) % 4 == |s| % 4;
    if rest != [] { assert rest[|rest| - 1] == s[|s| - 1]; }
  }

  lemma SextetsOfThree(head: seq<Byte>, rest: seq<Byte>)
    requires |head| == 3
    ensures Sextets(head + rest) == Four(head[0], head[1], head[2]) + Sextets(rest)
  {
    assert (head + rest)[3..] == rest;
  }

  /** Bytes whose first three come from the first four sextets. */
  lemma Regroup(head: seq<Byte>, rest: seq<Byte>, four: seq<Sextet>)
    requires |head| == 3 && Four(head[0], head[1], head[2]) == four
    ensures Sextets(head + rest) == four + Sextets(rest)
  {
    SextetsOfThree(head, rest);
  }

  lemma FirstGroup(s: seq<Sextet>) returns (head: seq<Byte>)
    requires |s| > 3
    ensures head == Three(s[0], s[1], s[2], s[3]) && |head| == 3 && Four(head[0], head[1], head[2]) == s[..4]
  {
    FourOfThree(s[0], s[1], s[2], s[3]);
    head := Three(s[0], s[1], s[2], s[3]);
    assert s[..4] == [s[0], s[1], s[2], s[3]];
  }

  lemma BytesOfGroup(s: seq<Sextet>)
    requires |s| % 4 != 1 && |s| > 3
    ensures |s[4..]| % 4 != 1 && Bytes(s) == Three(s[0], s[1], s[2], s[3]) + Bytes(s[4..])
  {
    WithoutGroup(s);
  }

  lemma FullGroup(s: seq<Sextet>)
    requires |s| % 4 != 1 && |s| > 3
    ensures (WithoutGroup(s); Sextets(Bytes(s)) == s[..4] + Sextets(Bytes(s[4..])))
  {
    BytesOfGroup(s);
    var head := FirstGroup(s);
    Regroup(head, Bytes(s[4..]), s[..4]);
  }

  lemma SamePrefix(head: seq<Sextet>, x: seq<Sextet>, y: seq<Sextet>)
    ensures head + x == head + y <==> x == y
  {
    assert (head + x)[|head|..] == x && (head + y)[|head|..] == y;
  }

  lemma PairTrip(s: seq<Sextet>)
    requires |s| == 2
    ensures Sextets(Bytes(s)) == Four(Three(s[0], s[1], 0, 0)[0], 0, 0)[..2]
  {
    var b := Three(s[0], s[1], 0, 0)[..1];
    assert Bytes(s) == b && |b| == 1;
  }

  lemma TripleTrip(s: seq<Sextet>)
    requires |s| == 3
    ensures var b := Three(s[0], s[1], s[2], 0); Sextets(Bytes(s)) == Four(b[0], b[1], 0)[..3]
  {
    var b := Three(s[0], s[1], s[2], 0)[..2];
    assert Bytes(s) == b && |b| == 2;
  }

  lemma PairIff(s: seq<Sextet>, t: seq<Sextet>, p: Sextet, q: Sextet)
    requires s == [p, q] && (t == [p, q] <==> q as int % 16 == 0)
    ensures t == s <==> CleanTail(s)
  {}

  lemma TripleIff(s: seq<Sextet>, t: seq<Sextet>, p: Sextet, q: Sextet, r: Sextet)
    requires s == [p, q, r] && (t == [p, q, r] <==> r as int % 4 == 0)
    ensures t == s <==> CleanTail(s)
  {}

  lemma {:induction false} SextetsOfBytesIff(s: seq<Sextet>)
    requires |s| % 4 != 1
    ensures Sextets(Bytes(s)) == s <==> CleanTail(s)
    decreases |s|
  {
    if |s| > 3 {
      WithoutGroup(s);
      FullGroup(s);
      SextetsOfBytesIff(s[4..]);
      SamePrefix(s[..4], Sextets(Bytes(s[4..])), s[4..]);
    } else if |s| == 3 {
      TripleTrip(s);
      TripleTail(s[0], s[1], s[2]);
      TripleIff(s, Sextets(Bytes(s)), s[0], s[1], s[2]);
    } else if |s| == 2 {
      PairTrip(s);
      PairTail(s[0], s[1]);
      PairIff(s, Sextets(Bytes(s)), s[0], s[1]);
    }
  }

  /** An accepted text is the encoding of what it decodes to exactly when its
      unused trailing bits are zero; the decoder does not ask for that.  */
  lemma EncodeDecodeIff(t: string)
    requires Decode(t).Some?
    ensures Encode(Decode(t).value) == t <==> CleanTail(Values(t))
  {
    var s := Values(t);
    SextetsOfBytesIff(s);
    forall k | 0 <= k < |t| ensures Text(s)[k] == t[k] { CharOfSextet(t[k]); }
    assert Text(s) == t;
    if Text(Sextets(Bytes(s))) == t {
      assert |Sextets(Bytes(s))| == |s|;
      forall k | 0 <= k < |s| ensures Sextets(Bytes(s))[k] == s[k] {
        assert SextetOf(Text(Sextets(Bytes(s)))[k]) == Sextets(Bytes(s))[k];
      }
      assert Sextets(Bytes(s)) == s;
    }
  }

  /** Two texts for one byte: the trailing bits are ignored. */
  lemma DecodeNotInjective()
    ensures Decode("AA") == Decode("AB") == Some([0])
  {
    assert Values("AA") == [0, 0] && Values("AB") == [0, 1];
    assert Bytes([0, 0]) == [0] && Bytes([0, 1]) == [0];
  }

  /** How long an accepted text decodes: 43 characters give 32 bytes. */
  lemma DecodedLength(t: string)
    ensures Decode(t).Some? <==> t != "" && |t| % 4 != 1 && forall k :: 0 <= k < |t| ==> InAlphabet(t[k])
    ensures Decode(t).Some? ==> |Decode(t).value| == 3 * |t| / 4
    ensures |t| == 43 && (forall k :: 0 <= k < |t| ==> InAlphabet(t[k])) ==> Decode(t).Some? && |Decode(t).value| == 32
  {
    if Decode(t).Some? { BytesLength(Values(t)); }
  }
}
