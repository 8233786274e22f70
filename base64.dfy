/**
 * The base64 encoding of section 4 of RFC 4648 (standard alphabet, `=`
 * padding), as used by Python's `base64.b64encode` / `base64.b64decode`.
 */
module Base64 {
  import opened Wrappers

  type byte = x: int | 0 <= x < 256
  type sextet = x: int | 0 <= x < 64

  /** The 64 characters of the alphabet of RFC 4648, table 1. */
  predicate IsAlphabet(c: char) {
    ('A' <= c <= 'Z') || ('a' <= c <= 'z') || ('0' <= c <= '9') || c == '+' || c == '/'
  }

  /** The value a character of the alphabet encodes. */
  function Index(c: char): (d: sextet)
    requires IsAlphabet(c)
  {
    if 'A' <= c <= 'Z' then c as int - 'A' as int
    else if 'a' <= c <= 'z' then c as int - 'a' as int + 26
    else if '0' <= c <= '9' then c as int - '0' as int + 52
    else if c == '+' then 62
    else 63
  }

  /** The character of the alphabet that encodes `d`. */
  function Char(d: sextet): (c: char)
    ensures IsAlphabet(c) && Index(c) == d
  {
    if d < 26 then ('A' as int + d) as char
    else if d < 52 then ('a' as int + (d - 26)) as char
    else if d < 62 then ('0' as int + (d - 52)) as char
    else if d == 62 then '+'
    else '/'
  }

  /** Three bytes become four characters, six bits each, most significant first. */
  function EncodeGroup(b0: byte, b1: byte, b2: byte): string {
    [Char(b0 / 4), Char((b0 % 4) * 16 + b1 / 16), Char((b1 % 16) * 4 + b2 / 64), Char(b2 % 64)]
  }

  /** A final single byte: two characters and two `=` (RFC 4648, section 4, case 2). */
  function EncodeOne(b0: byte): string {
    [Char(b0 / 4), Char((b0 % 4) * 16), '=', '=']
  }

  /** Two final bytes: three characters and one `=` (RFC 4648, section 4, case 3). */
  function EncodeTwo(b0: byte, b1: byte): string {
    [Char(b0 / 4), Char((b0 % 4) * 16 + b1 / 16), Char((b1 % 16) * 4), '=']
  }

  /** Every character of an encoding is in the alphabet or is the pad `=`. */
  predicate IsEncodingText(s: string) {
    forall i :: 0 <= i < |s| ==> IsAlphabet(s[i]) || s[i] == '='
  }

  /** `base64.b64encode(b).decode("utf-8")`. */
  function Encode(b: seq<byte>): (s: string)
    ensures |s| == 4 * ((|b| + 2) / 3)
    ensures IsEncodingText(s)
    decreases |b|
  {
    if |b| == 0 then ""
    else if |b| == 1 then EncodeOne(b[0])
    else if |b| == 2 then EncodeTwo(b[0], b[1])
    else EncodeGroup(b[0], b[1], b[2]) + Encode(b[3..])
  }

  /** Four alphabet characters back to three bytes. */
  function DecodeGroup(q: string): (r: Option<seq<byte>>)
    requires |q| == 4
    ensures r.Some? ==> |r.value| == 3
  {
    if IsAlphabet(q[0]) && IsAlphabet(q[1]) && IsAlphabet(q[2]) && IsAlphabet(q[3]) then
      var d0, d1, d2, d3 := Index(q[0]), Index(q[1]), Index(q[2]), Index(q[3]);
      Some([d0 * 4 + d1 / 16, (d1 % 16) * 16 + d2 / 4, (d2 % 4) * 64 + d3])
    else None
  }

  /**
   * The last quantum of an encoding, which may carry padding. As in Python's
   * default (non-validating) decoder, bits below the last whole byte are dropped
   * whatever their value.
   */
  function DecodeLast(q: string): (r: Option<seq<byte>>)
    requires |q| == 4
    ensures r.Some? ==> 1 <= |r.value| <= 3
  {
    if IsAlphabet(q[0]) && IsAlphabet(q[1]) && q[2] == '=' && q[3] == '=' then
      Some([Index(q[0]) * 4 + Index(q[1]) / 16])
    else if IsAlphabet(q[0]) && IsAlphabet(q[1]) && IsAlphabet(q[2]) && q[3] == '=' then
      var d0, d1, d2 := Index(q[0]), Index(q[1]), Index(q[2]);
      Some([d0 * 4 + d1 / 16, (d1 % 16) * 16 + d2 / 4])
    else DecodeGroup(q)
  }

  /**
   * Strict RFC 4648 decoding: the text is whole four-character quanta of
   * alphabet characters, and `=` may only pad the last quantum. Any other
   * text is rejected, where Python's lenient `base64.b64decode` would skip
   * foreign characters, excess padding, or everything after a completing pad.
   */
  function Decode(s: string): (r: Option<seq<byte>>)
    ensures r.Some? ==> |s| == 4 * ((|r.value| + 2) / 3)
    decreases |s|
  {
    if |s| == 0 then Some([])
    else if |s| < 4 then None
    else if |s| == 4 then DecodeLast(s)
    else match DecodeGroup(s[..4])
      case None => None
      case Some(g) =>
        match Decode(s[4..])
        case None => None
        case Some(rest) => Some(g + rest)
  }

  /** Splitting `q * 16 + r` with `0 <= r < 16` recovers `q` and `r`. */
  lemma Split16(q: int, r: int)
    requires 0 <= r < 16
    ensures (q * 16 + r) / 16 == q && (q * 16 + r) % 16 == r
  {
  }

  /** Splitting `q * 4 + r` with `0 <= r < 4` recovers `q` and `r`. */
  lemma Split4(q: int, r: int)
    requires 0 <= r < 4
    ensures (q * 4 + r) / 4 == q && (q * 4 + r) % 4 == r
  {
  }

  /** The bits of each byte survive the regrouping into sextets. */
  lemma RegroupBits(b0: byte, b1: byte, b2: byte)
    ensures (b0 / 4) * 4 + ((b0 % 4) * 16 + b1 / 16) / 16 == b0
    ensures (((b0 % 4) * 16 + b1 / 16) % 16) * 16 + ((b1 % 16) * 4 + b2 / 64) / 4 == b1
    ensures (((b1 % 16) * 4 + b2 / 64) % 4) * 64 + b2 % 64 == b2
  {
    Split16(b0 % 4, b1 / 16);
    Split4(b1 % 16, b2 / 64);
  }

  lemma GroupRoundTrip(b0: byte, b1: byte, b2: byte)
    ensures DecodeGroup(EncodeGroup(b0, b1, b2)) == Some([b0, b1, b2])
  {
    var q := EncodeGroup(b0, b1, b2);
    assert Index(q[0]) == b0 / 4 && Index(q[1]) == (b0 % 4) * 16 + b1 / 16;
    assert Index(q[2]) == (b1 % 16) * 4 + b2 / 64 && Index(q[3]) == b2 % 64;
    RegroupBits(b0, b1, b2);
  }

  lemma OneRoundTrip(b0: byte)
    ensures DecodeLast(EncodeOne(b0)) == Some([b0])
  {
    var q := EncodeOne(b0);
    assert Index(q[0]) == b0 / 4 && Index(q[1]) == (b0 % 4) * 16;
    RegroupBits(b0, 0, 0);
  }

  lemma TwoRoundTrip(b0: byte, b1: byte)
    ensures DecodeLast(EncodeTwo(b0, b1)) == Some([b0, b1])
  {
    var q := EncodeTwo(b0, b1);
    assert Index(q[0]) == b0 / 4 && Index(q[1]) == (b0 % 4) * 16 + b1 / 16;
    assert Index(q[2]) == (b1 % 16) * 4;
    assert !(q[2] == '=');
    RegroupBits(b0, b1, 0);
  }

  lemma EncodeOneByte(b: seq<byte>)
    requires |b| == 1
    ensures Encode(b) == EncodeOne(b[0])
  {
  }

  lemma EncodeTwoBytes(b: seq<byte>)
    requires |b| == 2
    ensures Encode(b) == EncodeTwo(b[0], b[1])
  {
  }

  lemma EncodeLonger(b: seq<byte>)
    requires |b| >= 3
    ensures Encode(b) == EncodeGroup(b[0], b[1], b[2]) + Encode(b[3..])
  {
  }

  /** An unpadded last quantum decodes as a full group. */
  lemma LastIsGroup(b0: byte, b1: byte, b2: byte)
    ensures DecodeLast(EncodeGroup(b0, b1, b2)) == DecodeGroup(EncodeGroup(b0, b1, b2))
  {
    var q := EncodeGroup(b0, b1, b2);
    assert IsAlphabet(q[2]) && IsAlphabet(q[3]);
  }

  /** A text longer than one quantum decodes group by group. */
  lemma DecodeFirstGroup(g: string, rest: string)
    requires |g| == 4 && |rest| > 0
    ensures Decode(g + rest) ==
      match DecodeGroup(g)
      case None => None
      case Some(x) => (match Decode(rest) case None => None case Some(y) => Some(x + y))
  {
    var s := g + rest;
    assert s[..4] == g && s[4..] == rest;
  }

  lemma LastRoundTrip(b: seq<byte>)
    requires 1 <= |b| <= 3
    ensures DecodeLast(Encode(b)) == Some(b)
  {
    if |b| == 1 {
      LastRoundTrip1(b);
    } else if |b| == 2 {
      LastRoundTrip2(b);
    } else {
      LastRoundTrip3(b);
    }
  }

  lemma LastRoundTrip1(b: seq<byte>)
    requires |b| == 1
    ensures DecodeLast(Encode(b)) == Some(b)
  {
    EncodeOneByte(b);
    OneRoundTrip(b[0]);
    assert b == [b[0]];
  }

  lemma LastRoundTrip2(b: seq<byte>)
    requires |b| == 2
    ensures DecodeLast(Encode(b)) == Some(b)
  {
    EncodeTwoBytes(b);
    TwoRoundTrip(b[0], b[1]);
    assert b == [b[0], b[1]];
  }

  lemma LastRoundTrip3(b: seq<byte>)
    requires |b| == 3
    ensures DecodeLast(Encode(b)) == Some(b)
  {
    EncodeLonger(b);
    assert Encode(b[3..]) == "";
    assert Encode(b) == EncodeGroup(b[0], b[1], b[2]);
    GroupRoundTrip(b[0], b[1], b[2]);
    LastIsGroup(b[0], b[1], b[2]);
    assert b == [b[0], b[1], b[2]];
  }

  /** Decoding an encoding gives the bytes back (RFC 4648, section 4). */
  lemma {:induction false} DecodeEncode(b: seq<byte>)
    ensures Decode(Encode(b)) == Some(b)
    decreases |b|
  {
    if |b| == 0 {
    } else if |b| <= 3 {
      LastRoundTrip(b);
    } else {
      DecodeEncode(b[3..]);
      DecodeEncodeGroup(b);
    }
  }

  /** One group more: if the rest round-trips, so does the whole. */
  lemma DecodeEncodeGroup(b: seq<byte>)
    requires |b| > 3 && Decode(Encode(b[3..])) == Some(b[3..])
    ensures Decode(Encode(b)) == Some(b)
  {
    var g, rest := EncodeGroup(b[0], b[1], b[2]), Encode(b[3..]);
    EncodeLonger(b);
    assert Encode(b) == g + rest;
    assert |rest| > 0;
    DecodeFirstGroup(g, rest);
    GroupRoundTrip(b[0], b[1], b[2]);
    assert Decode(g + rest) == Some([b[0], b[1], b[2]] + b[3..]);
    FirstThree(b);
  }

  lemma FirstThree(b: seq<byte>)
    requires |b| >= 3
    ensures [b[0], b[1], b[2]] + b[3..] == b
  {
    assert b[..3] == [b[0], b[1], b[2]];
    assert b[..3] + b[3..] == b;
  }

  /** Distinct byte strings have distinct encodings. */
  lemma EncodeInjective(a: seq<byte>, b: seq<byte>)
    requires Encode(a) == Encode(b)
    ensures a == b
  {
    DecodeEncode(a);
    DecodeEncode(b);
  }
}
