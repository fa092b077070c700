/**
 * Base64 encoding as defined in section 4 of RFC 4648 (the alphabet
 * A-Z a-z 0-9 + /, with '=' padding), which is what .NET's
 * Convert.ToBase64String produces.  The decoder is the specification side:
 * it is the inverse the encoder is proved against.
 */
module Base64 {
  import opened Wrappers

  newtype byte = x: int | 0 <= x < 256

  /** The alphabet characters, i.e. every character Encode may emit apart from '='. */
  predicate IsAlphabetChar(c: char) {
    ('A' <= c <= 'Z') || ('a' <= c <= 'z') || ('0' <= c <= '9') || c == '+' || c == '/'
  }

  /** The 6-bit value an alphabet character stands for (Table 1 of RFC 4648). */
  function ValueOf(c: char): (v: int)
    requires IsAlphabetChar(c)
    ensures 0 <= v < 64
  {
    if 'A' <= c <= 'Z' then c as int - 'A' as int
    else if 'a' <= c <= 'z' then c as int - 'a' as int + 26
    else if '0' <= c <= '9' then c as int - '0' as int + 52
    else if c == '+' then 62
    else 63
  }

  /** The character that encodes the 6-bit value v; ValueOf is its inverse. */
  function CharOf(v: int): (c: char)
    requires 0 <= v < 64
    ensures IsAlphabetChar(c) && ValueOf(c) == v
  {
    if v < 26 then ('A' as int + v) as char
    else if v < 52 then ('a' as int + (v - 26)) as char
    else if v < 62 then ('0' as int + (v - 52)) as char
    else if v == 62 then '+'
    else '/'
  }

  /** Three input bytes become four characters. */
  function EncodeGroup(b0: byte, b1: byte, b2: byte): string {
    [CharOf(b0 as int / 4),
     CharOf((b0 as int % 4) * 16 + b1 as int / 16),
     CharOf((b1 as int % 16) * 4 + b2 as int / 64),
     CharOf(b2 as int % 64)]
  }

  /** A final quantum of one byte: two characters and "==" (RFC 4648, section 4, case 2). */
  function EncodeOne(b0: byte): string {
    [CharOf(b0 as int / 4), CharOf((b0 as int % 4) * 16), '=', '=']
  }

  /** A final quantum of two bytes: three characters and "=" (RFC 4648, section 4, case 3). */
  function EncodeTwo(b0: byte, b1: byte): string {
    [CharOf(b0 as int / 4),
     CharOf((b0 as int % 4) * 16 + b1 as int / 16),
     CharOf((b1 as int % 16) * 4),
     '=']
  }

  /** The number of '=' characters that end the encoding of n bytes. */
  function PadCount(n: nat): nat {
    (3 - n % 3) % 3
  }

  /**
   * Convert.ToBase64String: four characters per started group of three
   * bytes; the last PadCount(|b|) characters are '=' and every other
   * character belongs to the alphabet, so in particular none is ':'.
   */
  function Encode(b: seq<byte>): (r: string)
    ensures |r| == 4 * ((|b| + 2) / 3)
    ensures forall i | 0 <= i < |r| :: (r[i] == '=') == (i >= |r| - PadCount(|b|))
    ensures forall i | 0 <= i < |r| :: r[i] != '=' ==> IsAlphabetChar(r[i])
    decreases |b|
  {
    if |b| == 0 then ""
    else if |b| == 1 then EncodeOne(b[0])
    else if |b| == 2 then EncodeTwo(b[0], b[1])
    else EncodeGroup(b[0], b[1], b[2]) + Encode(b[3..])
  }

  /** Four alphabet characters become three bytes. */
  function DecodeGroup(c0: char, c1: char, c2: char, c3: char): Option<seq<byte>> {
    if IsAlphabetChar(c0) && IsAlphabetChar(c1) && IsAlphabetChar(c2) && IsAlphabetChar(c3) then
      var v0, v1, v2, v3 := ValueOf(c0), ValueOf(c1), ValueOf(c2), ValueOf(c3);
      Some([(v0 * 4 + v1 / 16) as byte, ((v1 % 16) * 16 + v2 / 4) as byte, ((v2 % 4) * 64 + v3) as byte])
    else None
  }

  /** The last group, which may carry one or two '=' characters of padding. */
  function DecodeLast(c0: char, c1: char, c2: char, c3: char): Option<seq<byte>> {
    if c2 == '=' && c3 == '=' then
      if IsAlphabetChar(c0) && IsAlphabetChar(c1) then
        Some([(ValueOf(c0) * 4 + ValueOf(c1) / 16) as byte])
      else None
    else if c3 == '=' then
      if IsAlphabetChar(c0) && IsAlphabetChar(c1) && IsAlphabetChar(c2) then
        var v0, v1, v2 := ValueOf(c0), ValueOf(c1), ValueOf(c2);
        Some([(v0 * 4 + v1 / 16) as byte, ((v1 % 16) * 16 + v2 / 4) as byte])
      else None
    else DecodeGroup(c0, c1, c2, c3)
  }

  /** Base64 decoding; None for a string that is not a well-formed encoding. */
  function Decode(s: string): Option<seq<byte>>
    decreases |s|
  {
    if |s| == 0 then Some([])
    else if |s| < 4 then None
    else if |s| == 4 then DecodeLast(s[0], s[1], s[2], s[3])
    else
      match DecodeGroup(s[0], s[1], s[2], s[3])
      case None => None
      case Some(g) =>
        match Decode(s[4..])
        case None => None
        case Some(rest) => Some(g + rest)
  }

  /** Splitting a value into a quotient and a remainder by 16 and joining it again. */
  lemma Rejoin16(q: int, r: int)
    requires 0 <= r < 16
    ensures (q * 16 + r) / 16 == q && (q * 16 + r) % 16 == r
  {
  }

  /** The same for 4. */
  lemma Rejoin4(q: int, r: int)
    requires 0 <= r < 4
    ensures (q * 4 + r) / 4 == q && (q * 4 + r) % 4 == r
  {
  }

  lemma GroupRoundTrip(b0: byte, b1: byte, b2: byte)
    ensures var e := EncodeGroup(b0, b1, b2); DecodeGroup(e[0], e[1], e[2], e[3]) == Some([b0, b1, b2])
  {
    var x0, x1, x2 := b0 as int, b1 as int, b2 as int;
    var v1 := (x0 % 4) * 16 + x1 / 16;
    var v2 := (x1 % 16) * 4 + x2 / 64;
    Rejoin16(x0 % 4, x1 / 16);
    Rejoin4(x1 % 16, x2 / 64);
    assert (x0 / 4) * 4 + v1 / 16 == x0;
    assert (v1 % 16) * 16 + v2 / 4 == x1;
    assert (v2 % 4) * 64 + x2 % 64 == x2;
  }

  lemma OneRoundTrip(b0: byte)
    ensures var e := EncodeOne(b0); DecodeLast(e[0], e[1], e[2], e[3]) == Some([b0])
  {
    var x0 := b0 as int;
    Rejoin16(x0 % 4, 0);
    assert (x0 / 4) * 4 + ((x0 % 4) * 16) / 16 == x0;
  }

  lemma TwoRoundTrip(b0: byte, b1: byte)
    ensures var e := EncodeTwo(b0, b1); DecodeLast(e[0], e[1], e[2], e[3]) == Some([b0, b1])
  {
    var x0, x1 := b0 as int, b1 as int;
    var v1 := (x0 % 4) * 16 + x1 / 16;
    var v2 := (x1 % 16) * 4;
    Rejoin16(x0 % 4, x1 / 16);
    Rejoin4(x1 % 16, 0);
    assert (x0 / 4) * 4 + v1 / 16 == x0;
    assert (v1 % 16) * 16 + v2 / 4 == x1;
  }

  /** Decoding a full group followed by a well-formed rest. */
  lemma DecodeCons(g: string, rest: string, bytes: seq<byte>, tail: seq<byte>)
    requires |g| == 4 && |rest| >= 4
    requires DecodeGroup(g[0], g[1], g[2], g[3]) == Some(bytes)
    requires Decode(rest) == Some(tail)
    ensures Decode(g + rest) == Some(bytes + tail)
  {
    var e := g + rest;
    assert e[0] == g[0] && e[1] == g[1] && e[2] == g[2] && e[3] == g[3];
    assert e[4..] == rest;
  }

  /** Decoding undoes encoding, so the encoding loses nothing and is injective. */
  lemma {:induction false} DecodeEncode(b: seq<byte>)
    ensures Decode(Encode(b)) == Some(b)
    decreases |b|
  {
    if |b| == 0 {
    } else if |b| == 1 {
      OneRoundTrip(b[0]);
      assert [b[0]] == b;
    } else if |b| == 2 {
      TwoRoundTrip(b[0], b[1]);
      assert [b[0], b[1]] == b;
    } else {
      var g := EncodeGroup(b[0], b[1], b[2]);
      GroupRoundTrip(b[0], b[1], b[2]);
      assert [b[0], b[1], b[2]] + b[3..] == b;
      if |b| == 3 {
        assert b[3..] == [] && [b[0], b[1], b[2]] == b;
        assert Encode(b) == g;
        assert g[3] != '=';
        assert Decode(g) == DecodeGroup(g[0], g[1], g[2], g[3]);
      } else {
        var rest := Encode(b[3..]);
        assert Encode(b) == g + rest;
        assert (|b[3..]| + 2) / 3 >= 1;
        DecodeEncode(b[3..]);
        DecodeCons(g, rest, [b[0], b[1], b[2]], b[3..]);
      }
    }
  }

  /** Equal encodings come from equal byte strings. */
  lemma EncodeInjective(a: seq<byte>, b: seq<byte>)
    requires Encode(a) == Encode(b)
    ensures a == b
  {
    DecodeEncode(a);
    DecodeEncode(b);
  }
}
