/**
 * The platform primitives `btoa` and `atob`, stood in for by the standard
 * base64 encoding of section 4 of RFC 4648 (alphabet A-Z a-z 0-9 + /, with
 * `=` padding to a multiple of four characters).
 *
 * `btoa` takes a "binary string" (every character code below 256) and
 * `atob` returns one; both throw InvalidCharacterError on bad input.
 */
module Base64 {
  import opened Wrappers

  type Byte = x: int | 0 <= x < 256
  type Sextet = x: int | 0 <= x < 64

  const PAD: char := '='

  /** The character of the base64 alphabet that encodes `n`. */
  function SextetChar(n: Sextet): (c: char)
    ensures c != PAD
  {
    if n < 26 then ('A' as int + n) as char
    else if n < 52 then ('a' as int + (n - 26)) as char
    else if n < 62 then ('0' as int + (n - 52)) as char
    else if n == 62 then '+'
    else '/'
  }

  /** The value of a base64 alphabet character, or None for any other character. */
  function CharSextet(c: char): (r: Option<Sextet>)
    ensures r.Some? ==> SextetChar(r.value) == c
    ensures c == PAD ==> r.None?
  {
    if 'A' <= c <= 'Z' then Some(c as int - 'A' as int)
    else if 'a' <= c <= 'z' then Some(c as int - 'a' as int + 26)
    else if '0' <= c <= '9' then Some(c as int - '0' as int + 52)
    else if c == '+' then Some(62)
    else if c == '/' then Some(63)
    else None
  }

  lemma CharSextetInverse(n: Sextet)
    ensures CharSextet(SextetChar(n)) == Some(n)
  {
  }

  /** Three bytes as four characters, most significant bits first. */
  function EncodeTriple(a: Byte, b: Byte, c: Byte): string {
    [SextetChar(a / 4), SextetChar(a % 4 * 16 + b / 16), SextetChar(b % 16 * 4 + c / 64), SextetChar(c % 64)]
  }

  /** Base64 text of `bytes`: four characters per started group of three bytes. */
  function EncodeBase64(bytes: seq<Byte>): (s: string)
    ensures |s| % 4 == 0
    decreases |bytes|
  {
    if |bytes| == 0 then ""
    else if |bytes| == 1 then
      [SextetChar(bytes[0] / 4), SextetChar(bytes[0] % 4 * 16), PAD, PAD]
    else if |bytes| == 2 then
      [SextetChar(bytes[0] / 4), SextetChar(bytes[0] % 4 * 16 + bytes[1] / 16), SextetChar(bytes[1] % 16 * 4), PAD]
    else
      EncodeTriple(bytes[0], bytes[1], bytes[2]) + EncodeBase64(bytes[3..])
  }

  /** Four characters for every started group of three bytes. */
  lemma {:induction false} EncodedLength(bytes: seq<Byte>)
    ensures |EncodeBase64(bytes)| == 4 * ((|bytes| + 2) / 3)
    decreases |bytes|
  {
    if |bytes| >= 3 {
      EncodedLength(bytes[3..]);
      assert (|bytes| + 2) / 3 == (|bytes[3..]| + 2) / 3 + 1;
    }
  }

  /**
   * One group of four characters. Padding is accepted only in the last
   * group; bits below the last whole byte are discarded, as atob does.
   */
  function DecodeQuad(q: string, last: bool): (r: Option<seq<Byte>>)
    requires |q| == 4
    ensures r.Some? ==> 1 <= |r.value| <= 3
    ensures r.Some? && !last ==> |r.value| == 3
  {
    var s0, s1 := CharSextet(q[0]), CharSextet(q[1]);
    if s0.None? || s1.None? then None
    else
      var a := s0.value * 4 + s1.value / 16;
      if last && q[2] == PAD && q[3] == PAD then Some([a])
      else
        var s2 := CharSextet(q[2]);
        if s2.None? then None
        else
          var b := s1.value % 16 * 16 + s2.value / 4;
          if last && q[3] == PAD then Some([a, b])
          else
            var s3 := CharSextet(q[3]);
            if s3.None? then None
            else Some([a, b, s2.value % 4 * 64 + s3.value])
  }

  function DecodeQuads(s: string): (r: Option<seq<Byte>>)
    requires |s| % 4 == 0
    decreases |s|
  {
    if |s| == 0 then Some([])
    else
      match DecodeQuad(s[..4], |s| == 4)
      case None => None
      case Some(group) =>
        match DecodeQuads(s[4..])
        case None => None
        case Some(rest) => Some(group + rest)
  }

  /** The bytes a base64 text stands for; InvalidCharacterError when it is not base64. */
  function DecodeBase64(s: string): (r: Result<seq<Byte>, JsError>)
    ensures |s| % 4 != 0 ==> r == Err(InvalidCharacterError)
    ensures r.Err? ==> r.error == InvalidCharacterError
  {
    if |s| % 4 != 0 then Err(InvalidCharacterError)
    else
      match DecodeQuads(s)
      case None => Err(InvalidCharacterError)
      case Some(bytes) => Ok(bytes)
  }

  lemma TripleRoundTrip(a: Byte, b: Byte, c: Byte)
    ensures a / 4 * 4 + (a % 4 * 16 + b / 16) / 16 == a
    ensures (a % 4 * 16 + b / 16) % 16 * 16 + (b % 16 * 4 + c / 64) / 4 == b
    ensures (b % 16 * 4 + c / 64) % 4 * 64 + c % 64 == c
  {
  }

  /** Decoding the encoding of any byte sequence gives it back. */
  lemma {:induction false} Base64RoundTrip(bytes: seq<Byte>)
    ensures DecodeBase64(EncodeBase64(bytes)) == Ok(bytes)
  {
    QuadsRoundTrip(bytes);
  }

  lemma TripleDecodes(a: Byte, b: Byte, c: Byte, last: bool)
    ensures DecodeQuad(EncodeTriple(a, b, c), last) == Some([a, b, c])
  {
    TripleRoundTrip(a, b, c);
    CharSextetInverse(a / 4);
    CharSextetInverse(a % 4 * 16 + b / 16);
    CharSextetInverse(b % 16 * 4 + c / 64);
    CharSextetInverse(c % 64);
  }

  lemma OnePadDecodes(a: Byte)
    ensures DecodeQuad([SextetChar(a / 4), SextetChar(a % 4 * 16), PAD, PAD], true) == Some([a])
  {
    TripleRoundTrip(a, 0, 0);
    CharSextetInverse(a / 4);
    CharSextetInverse(a % 4 * 16);
  }

  lemma TwoPadDecodes(a: Byte, b: Byte)
    ensures DecodeQuad([SextetChar(a / 4), SextetChar(a % 4 * 16 + b / 16), SextetChar(b % 16 * 4), PAD], true) == Some([a, b])
  {
    TripleRoundTrip(a, b, 0);
    CharSextetInverse(a / 4);
    CharSextetInverse(a % 4 * 16 + b / 16);
    CharSextetInverse(b % 16 * 4);
  }

  /** A last group decodes by itself as the whole text. */
  lemma LastQuad(q: string, bytes: seq<Byte>)
    requires |q| == 4 && DecodeQuad(q, true) == Some(bytes)
    ensures DecodeQuads(q) == Some(bytes)
  {
    assert q[..4] == q && q[4..] == [];
    assert bytes + [] == bytes;
  }

  /** A group followed by further groups decodes to the concatenation. */
  lemma QuadThenRest(q: string, rest: string, group: seq<Byte>, restBytes: seq<Byte>)
    requires |q| == 4 && |rest| % 4 == 0
    requires DecodeQuad(q, |rest| == 0) == Some(group) && DecodeQuads(rest) == Some(restBytes)
    ensures DecodeQuads(q + rest) == Some(group + restBytes)
  {
    var s := q + rest;
    assert s[..4] == q && s[4..] == rest;
  }

  lemma EncodeUnfold(bytes: seq<Byte>)
    requires |bytes| >= 3
    ensures EncodeBase64(bytes) == EncodeTriple(bytes[0], bytes[1], bytes[2]) + EncodeBase64(bytes[3..])
  {
  }

  lemma OneByteRoundTrip(a: Byte)
    ensures DecodeQuads(EncodeBase64([a])) == Some([a])
  {
    OnePadDecodes(a);
    LastQuad(EncodeBase64([a]), [a]);
  }

  lemma TwoBytesRoundTrip(a: Byte, b: Byte)
    ensures DecodeQuads(EncodeBase64([a, b])) == Some([a, b])
  {
    TwoPadDecodes(a, b);
    LastQuad(EncodeBase64([a, b]), [a, b]);
  }

  lemma {:induction false} QuadsRoundTrip(bytes: seq<Byte>)
    ensures DecodeQuads(EncodeBase64(bytes)) == Some(bytes)
    decreases |bytes|
  {
    if |bytes| == 1 {
      OneByteRoundTrip(bytes[0]);
      assert [bytes[0]] == bytes;
    } else if |bytes| == 2 {
      TwoBytesRoundTrip(bytes[0], bytes[1]);
      assert [bytes[0], bytes[1]] == bytes;
    } else if |bytes| >= 3 {
      var rest := EncodeBase64(bytes[3..]);
      QuadsRoundTrip(bytes[3..]);
      EncodeUnfold(bytes);
      TripleDecodes(bytes[0], bytes[1], bytes[2], |rest| == 0);
      QuadThenRest(EncodeTriple(bytes[0], bytes[1], bytes[2]), rest, [bytes[0], bytes[1], bytes[2]], bytes[3..]);
      assert [bytes[0], bytes[1], bytes[2]] + bytes[3..] == bytes;
    }
  }

  /** A string every character of which fits in one byte. */
  predicate IsBinary(s: string) {
    forall i :: 0 <= i < |s| ==> s[i] as int < 256
  }

  /** The bytes `String.fromCharCode` turns into a binary string. */
  function BinaryString(bytes: seq<Byte>): (s: string)
    ensures |s| == |bytes| && IsBinary(s)
    ensures forall i :: 0 <= i < |s| ==> s[i] as int == bytes[i]
  {
    seq(|bytes|, i requires 0 <= i < |bytes| => bytes[i] as char)
  }

  /** The character codes of a binary string, as `charCodeAt` reads them. */
  function CharCodes(s: string): (bytes: seq<Byte>)
    requires IsBinary(s)
    ensures |bytes| == |s|
    ensures forall i :: 0 <= i < |s| ==> bytes[i] == s[i] as int
  {
    seq(|s|, i requires 0 <= i < |s| => s[i] as int)
  }

  /** `btoa`: base64 of a binary string; InvalidCharacterError when a code is 256 or more. */
  function Btoa(s: string): (r: Result<string, JsError>)
    ensures r.Ok? <==> IsBinary(s)
    ensures r.Ok? ==> Atob(r.value) == Ok(s)
  {
    if IsBinary(s) then
      var bytes := CharCodes(s);
      Base64RoundTrip(bytes);
      assert BinaryString(bytes) == s;
      Ok(EncodeBase64(bytes))
    else Err(InvalidCharacterError)
  }

  /** `atob`: the binary string a base64 text stands for. */
  function Atob(s: string): (r: Result<string, JsError>)
    ensures r.Ok? <==> DecodeBase64(s).Ok?
    ensures r.Ok? ==> IsBinary(r.value) && CharCodes(r.value) == DecodeBase64(s).value
  {
    match DecodeBase64(s)
    case Err(e) => Err(e)
    case Ok(bytes) => Ok(BinaryString(bytes))
  }
}
