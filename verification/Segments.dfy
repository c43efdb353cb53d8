/** JSON Pointer segments (RFC 6901, sections 3 and 4): one escaper and the two
    decoders of the scripts.  */
module Segments {
  import opened Json

  /** `s.replace(c, t)` for a single character c. */
  function ReplaceChar(s: string, c: char, t: string): string {
    if s == "" then "" else (if s[0] == c then t else [s[0]]) + ReplaceChar(s[1..], c, t)
  }

  /** `s.replace(ab, t)` for a two-character string ab: leftmost, non-overlapping. */
  function ReplacePair(s: string, a: char, b: char, t: string): string {
    if s == "" then ""
    else if |s| >= 2 && s[0] == a && s[1] == b then t + ReplacePair(s[2..], a, b, t)
    else [s[0]] + ReplacePair(s[1..], a, b, t)
  }

  /** `key.replace("~", "~0").replace("/", "~1")`. */
  function Escape(key: string): string {
    ReplaceChar(ReplaceChar(key, '~', "~0"), '/', "~1")
  }

  /** `raw_part.replace("~1", "/").replace("~0", "~")`. */
  function Unescape(part: string): string {
    ReplacePair(ReplacePair(part, '~', '1', "/"), '~', '0', "~")
  }

  function Prepend(c: char, rest: Option<string>): Option<string> {
    match rest
    case None => None
    case Some(s) => Some([c] + s)
  }

  /** What the index loop of `decode_json_pointer_segment` computes. */
  function Decode(segment: string): Option<string> {
    if segment == "" then Some("")
    else if segment[0] != '~' then Prepend(segment[0], Decode(segment[1..]))
    else if |segment| < 2 then None
    else if segment[1] == '0' then Prepend('~', Decode(segment[2..]))
    else if segment[1] == '1' then Prepend('/', Decode(segment[2..]))
    else None
  }

  function Joined(decoded: string, rest: Option<string>): Option<string> {
    match rest
    case None => None
    case Some(s) => Some(decoded + s)
  }

  lemma JoinedPrepend(decoded: string, c: char, rest: Option<string>)
    ensures Joined(decoded, Prepend(c, rest)) == Joined(decoded + [c], rest)
  {
    if rest.Some? { assert decoded + ([c] + rest.value) == (decoded + [c]) + rest.value; }
  }

  method DecodeSegment(segment: string) returns (r: Option<string>)
    ensures r == Decode(segment)
  {
    var decoded := "";
    var index := 0;
    assert segment[0..] == segment;
    assert Decode(segment).Some? ==> "" + Decode(segment).value == Decode(segment).value;
    while index < |segment|
      invariant index <= |segment|
      invariant Decode(segment) == Joined(decoded, Decode(segment[index..]))
    {
      var c := segment[index];
      ghost var tail := segment[index..];
      if c != '~' {
        assert tail[1..] == segment[index + 1..];
        JoinedPrepend(decoded, c, Decode(segment[index + 1..]));
        decoded := decoded + [c];
        index := index + 1;
        continue;
      }
      if index + 1 >= |segment| {
        return None;
      }
      assert tail[2..] == segment[index + 2..];
      var escape := segment[index + 1];
      if escape == '0' {
        JoinedPrepend(decoded, '~', Decode(segment[index + 2..]));
        decoded := decoded + "~";
      } else if escape == '1' {
        JoinedPrepend(decoded, '/', Decode(segment[index + 2..]));
        decoded := decoded + "/";
      } else {
        return None;
      }
      index := index + 2;
    }
    assert segment[index..] == "" && decoded + "" == decoded;
    return Some(decoded);
  }

  /** Escaping works character by character. */
  lemma EscapeCons(c: char, rest: string)
    ensures Escape([c] + rest) == (if c == '~' then "~0" else if c == '/' then "~1" else [c]) + Escape(rest)
  {
    var k := [c] + rest;
    assert k[1..] == rest;
    var tail := ReplaceChar(rest, '~', "~0");
    if c == '~' {
      var once := "~0" + tail;
      assert ReplaceChar(k, '~', "~0") == once;
      assert once[1..] == "0" + tail && ("0" + tail)[1..] == tail;
      assert ReplaceChar("0" + tail, '/', "~1") == "0" + ReplaceChar(tail, '/', "~1");
      assert ReplaceChar(once, '/', "~1") == "~" + ReplaceChar("0" + tail, '/', "~1");
    } else {
      assert ([c] + tail)[1..] == tail;
    }
  }

  /** Decoding undoes escaping, for every key. */
  lemma {:induction false} DecodeEscape(key: string)
    ensures Decode(Escape(key)) == Some(key)
  {
    if key != "" {
      DecodeEscape(key[1..]);
      EscapeCons(key[0], key[1..]);
      assert key == [key[0]] + key[1..];
      var e, rest := Escape(key), Escape(key[1..]);
      if key[0] == '~' || key[0] == '/' { assert e[2..] == rest; } else { assert e[1..] == rest; }
    }
  }

  /** On a segment the loop accepts, escaping undoes decoding exactly when the
      segment has no raw slash, so decoding is a bijection from the accepted
      slash-free segments onto the keys.  */
  lemma {:induction false} EscapeDecodeIff(segment: string)
    requires Decode(segment).Some?
    ensures Escape(Decode(segment).value) == segment <==> '/' !in segment
  {
    if segment != "" {
      var n := if segment[0] == '~' then 2 else 1;
      EscapeDecodeIff(segment[n..]);
      var key := Decode(segment).value;
      EscapeCons(key[0], key[1..]);
      assert key == [key[0]] + key[1..] && key[1..] == Decode(segment[n..]).value;
      assert segment == segment[..n] + segment[n..];
      if segment[0] != '/' {
        assert Escape(key) == segment[..n] + Escape(key[1..]);
        assert Escape(key)[n..] == Escape(key[1..]);
      } else {
        assert Escape(key)[0] == '~';
      }
    }
  }

  lemma ReplacePairSkip(c: char, rest: string, a: char, b: char, t: string)
    requires c != a
    ensures ReplacePair([c] + rest, a, b, t) == [c] + ReplacePair(rest, a, b, t)
  {
    assert ([c] + rest)[1..] == rest;
  }

  lemma ReplacePairHit(rest: string, a: char, b: char, t: string)
    ensures ReplacePair([a, b] + rest, a, b, t) == t + ReplacePair(rest, a, b, t)
  {
    assert ([a, b] + rest)[2..] == rest;
  }

  lemma UnescapePlain(c: char, rest: string)
    requires c != '~'
    ensures Unescape([c] + rest) == [c] + Unescape(rest)
  {
    ReplacePairSkip(c, rest, '~', '1', "/");
    ReplacePairSkip(c, ReplacePair(rest, '~', '1', "/"), '~', '0', "~");
  }

  lemma UnescapeSlash(rest: string)
    ensures Unescape(['~', '1'] + rest) == "/" + Unescape(rest)
  {
    ReplacePairHit(rest, '~', '1', "/");
    ReplacePairSkip('/', ReplacePair(rest, '~', '1', "/"), '~', '0', "~");
  }

  lemma UnescapeTilde(rest: string)
    ensures Unescape(['~', '0'] + rest) == "~" + Unescape(rest)
  {
    var segment, once := ['~', '0'] + rest, ReplacePair(rest, '~', '1', "/");
    assert segment[1..] == ['0'] + rest;
    ReplacePairSkip('0', rest, '~', '1', "/");
    assert ['~'] + (['0'] + once) == ['~', '0'] + once;
    ReplacePairHit(once, '~', '0', "~");
  }

  /** The two decoders agree on every segment the loop accepts. */
  lemma {:induction false} DecodersAgree(segment: string)
    requires Decode(segment).Some?
    ensures Unescape(segment) == Decode(segment).value
  {
    if segment != "" {
      var n := if segment[0] == '~' then 2 else 1;
      var rest := segment[n..];
      DecodersAgree(rest);
      if segment[0] != '~' {
        assert segment == [segment[0]] + rest;
        UnescapePlain(segment[0], rest);
      } else if segment[1] == '1' {
        assert segment == ['~', '1'] + rest;
        UnescapeSlash(rest);
      } else {
        assert segment == ['~', '0'] + rest;
        UnescapeTilde(rest);
      }
    }
  }

  /** Beyond those segments they differ: the replacing decoder accepts anything. */
  lemma DecodersDiffer()
    ensures Decode("~2") == None && Unescape("~2") == "~2"
  {
    assert "~2"[1..] == "2" && "2"[1..] == "";
    assert ReplacePair("2", '~', '1', "/") == "2" == ReplacePair("2", '~', '0', "~");
  }

  lemma UnescapeEscape(key: string)
    ensures Unescape(Escape(key)) == key
  {
    DecodeEscape(key);
    DecodersAgree(Escape(key));
  }

  lemma {:induction false} EscapeHasNoSlash(key: string)
    ensures '/' !in Escape(key)
  {
    if key != "" {
      EscapeHasNoSlash(key[1..]);
      EscapeCons(key[0], key[1..]);
      assert key == [key[0]] + key[1..];
    }
  }

  lemma {:induction false} EscapeOfPlain(key: string)
    requires '~' !in key && '/' !in key
    ensures Escape(key) == key
  {
    if key != "" {
      EscapeOfPlain(key[1..]);
      EscapeCons(key[0], key[1..]);
      assert key == [key[0]] + key[1..];
    }
  }
}
