/** application/x-www-form-urlencoded at byte level: sections 5.1 and 5.2 of the WHATWG URL Standard. */
module UrlEncoded {

  type Byte = b: int | 0 <= b < 256

  /** The bytes of an ASCII literal. */
  function Ascii(s: string): seq<Byte>
    requires forall i :: 0 <= i < |s| ==> s[i] < '\U{80}'
  {
    seq(|s|, i requires 0 <= i < |s| => s[i] as int)
  }

  const SPACE: Byte := 0x20
  const PERCENT: Byte := 0x25
  const AMPERSAND: Byte := 0x26
  const PLUS: Byte := 0x2b
  const EQUALS: Byte := 0x3d

  // ---------------------------------------------------------------- UTF-8

  function EncodeChar(c: char): seq<Byte> {
    var n := c as int;
    if n < 0x80 then [n]
    else if n < 0x800 then [0xc0 + n / 64, 0x80 + n % 64]
    else if n < 0x1_0000 then [0xe0 + n / 4096, 0x80 + n / 64 % 64, 0x80 + n % 64]
    else [0xf0 + n / 262144, 0x80 + n / 4096 % 64, 0x80 + n / 64 % 64, 0x80 + n % 64]
  }

  function Encode(s: string): seq<Byte> {
    if s == "" then [] else EncodeChar(s[0]) + Encode(s[1..])
  }

  /** The decoder's memory: continuation bytes still needed, their range for the next one, and the bits so far. */
  datatype Decoder = Decoder(needed: nat, lower: Byte, upper: Byte, bits: nat)

  const IDLE := Decoder(0, 0x80, 0xbf, 0)
  const REPLACEMENT: char := '\U{fffd}'

  /** The ranges of the decoder only let scalar values through. */
  function Scalar(n: nat): char {
    if n < 0xd800 || 0xe000 <= n < 0x11_0000 then n as char else REPLACEMENT
  }

  /** The UTF-8 decoder of the WHATWG Encoding Standard, without a byte order mark step. */
  function Decode(bytes: seq<Byte>, d: Decoder): string
    decreases |bytes|, d.needed
  {
    if bytes == [] then if d.needed > 0 then [REPLACEMENT] else ""
    else
      var b, rest := bytes[0], bytes[1..];
      if d.needed == 0 then
        if b < 0x80 then [Scalar(b)] + Decode(rest, IDLE)
        else if 0xc2 <= b <= 0xdf then Decode(rest, Decoder(1, 0x80, 0xbf, b - 0xc0))
        else if 0xe0 <= b <= 0xef then
          Decode(rest, Decoder(2, if b == 0xe0 then 0xa0 else 0x80, if b == 0xed then 0x9f else 0xbf, b - 0xe0))
        else if 0xf0 <= b <= 0xf4 then
          Decode(rest, Decoder(3, if b == 0xf0 then 0x90 else 0x80, if b == 0xf4 then 0x8f else 0xbf, b - 0xf0))
        else [REPLACEMENT] + Decode(rest, IDLE)
      else if !(d.lower <= b <= d.upper) then [REPLACEMENT] + Decode(bytes, IDLE)
      else
        var bits := d.bits * 64 + b % 64;
        if d.needed == 1 then [Scalar(bits)] + Decode(rest, IDLE)
        else Decode(rest, Decoder(d.needed - 1, 0x80, 0xbf, bits))
  }

  lemma Continuation(k: nat, rest: seq<Byte>, d: Decoder)
    requires d.needed > 0 && k < 64 && d.lower <= 0x80 + k <= d.upper
    ensures Decode([0x80 + k] + rest, d) ==
              if d.needed == 1 then [Scalar(d.bits * 64 + k)] + Decode(rest, IDLE)
              else Decode(rest, Decoder(d.needed - 1, 0x80, 0xbf, d.bits * 64 + k))
  {
    var bytes := [0x80 + k] + rest;
    assert bytes[0] == 0x80 + k && bytes[1..] == rest && (0x80 + k) % 64 == k;
  }

  lemma Lead(b: Byte, rest: seq<Byte>)
    requires 0xc2 <= b <= 0xf4
    ensures Decode([b] + rest, IDLE) == Decode(rest, LeadState(b))
  {
    assert ([b] + rest)[1..] == rest;
  }

  function LeadState(b: Byte): Decoder
    requires 0xc2 <= b <= 0xf4
  {
    if b <= 0xdf then Decoder(1, 0x80, 0xbf, b - 0xc0)
    else if b <= 0xef then Decoder(2, if b == 0xe0 then 0xa0 else 0x80, if b == 0xed then 0x9f else 0xbf, b - 0xe0)
    else Decoder(3, if b == 0xf0 then 0x90 else 0x80, if b == 0xf4 then 0x8f else 0xbf, b - 0xf0)
  }

  lemma DecodeTwo(n: nat, rest: seq<Byte>)
    requires 0x80 <= n < 0x800
    ensures Decode([0xc0 + n / 64] + ([0x80 + n % 64] + rest), IDLE) == [Scalar(n)] + Decode(rest, IDLE)
  {
    hide Decode;
    Lead(0xc0 + n / 64, [0x80 + n % 64] + rest);
    Continuation(n % 64, rest, LeadState(0xc0 + n / 64));
  }

  lemma DecodeThree(n: nat, rest: seq<Byte>)
    requires 0x800 <= n < 0x1_0000 && !(0xd800 <= n < 0xe000)
    ensures Decode([0xe0 + n / 4096] + ([0x80 + n / 64 % 64] + ([0x80 + n % 64] + rest)), IDLE)
         == [Scalar(n)] + Decode(rest, IDLE)
  {
    hide Decode, Scalar;
    var h, m, l := n / 4096, n / 64 % 64, n % 64;
    assert n == (h * 64 + m) * 64 + l;
    Lead(0xe0 + h, [0x80 + m] + ([0x80 + l] + rest));
    Continuation(m, [0x80 + l] + rest, LeadState(0xe0 + h));
    Continuation(l, rest, Decoder(1, 0x80, 0xbf, h * 64 + m));
  }

  lemma LeadOfFour(g: nat, h: nat)
    requires 16 <= g * 64 + h < 272 && h < 64
    ensures g <= 4
    ensures var d := LeadState(0xf0 + g); d.needed == 3 && d.bits == g && d.lower <= 0x80 + h <= d.upper
  {
  }

  lemma Sextets(n: nat)
    requires 0x1_0000 <= n < 0x11_0000
    ensures var g, h, m, l := n / 262144, n / 4096 % 64, n / 64 % 64, n % 64;
            n == ((g * 64 + h) * 64 + m) * 64 + l && 16 <= g * 64 + h < 272
  {
  }

  lemma DecodeFour(n: nat, rest: seq<Byte>)
    requires 0x1_0000 <= n < 0x11_0000
    ensures Decode([0xf0 + n / 262144]
        + ([0x80 + n / 4096 % 64] + ([0x80 + n / 64 % 64] + ([0x80 + n % 64] + rest))), IDLE)
         == [Scalar(n)] + Decode(rest, IDLE)
  {
    hide Decode, Scalar, LeadState;
    var g, h, m, l := n / 262144, n / 4096 % 64, n / 64 % 64, n % 64;
    Sextets(n);
    Lead(0xf0 + g, [0x80 + h] + ([0x80 + m] + ([0x80 + l] + rest)));
    LeadOfFour(g, h);
    Continuation(h, [0x80 + m] + ([0x80 + l] + rest), LeadState(0xf0 + g));
    Continuation(m, [0x80 + l] + rest, Decoder(2, 0x80, 0xbf, g * 64 + h));
    Continuation(l, rest, Decoder(1, 0x80, 0xbf, (g * 64 + h) * 64 + m));
  }

  lemma Regroup(a: Byte, b: Byte, c: Byte, d: Byte, rest: seq<Byte>)
    ensures [a, b] + rest == [a] + ([b] + rest)
    ensures [a, b, c] + rest == [a] + ([b] + ([c] + rest))
    ensures [a, b, c, d] + rest == [a] + ([b] + ([c] + ([d] + rest)))
  {
  }

  lemma DecodeAscii(n: nat, rest: seq<Byte>)
    requires n < 0x80
    ensures Decode([n] + rest, IDLE) == [Scalar(n)] + Decode(rest, IDLE)
  {
    assert ([n] + rest)[1..] == rest;
  }

  /** Decoding what one character was encoded to gives that character and leaves the decoder idle. */
  lemma DecodeOne(c: char, rest: seq<Byte>)
    ensures Decode(EncodeChar(c) + rest, IDLE) == [c] + Decode(rest, IDLE)
  {
    hide Decode;
    var n := c as int;
    assert Scalar(n) == c;
    if n < 0x80 {
      DecodeAscii(n, rest);
    } else if n < 0x800 {
      DecodeTwo(n, rest);
      Regroup(0xc0 + n / 64, 0x80 + n % 64, 0, 0, rest);
    } else if n < 0x1_0000 {
      DecodeThree(n, rest);
      Regroup(0xe0 + n / 4096, 0x80 + n / 64 % 64, 0x80 + n % 64, 0, rest);
    } else {
      DecodeFour(n, rest);
      Regroup(0xf0 + n / 262144, 0x80 + n / 4096 % 64, 0x80 + n / 64 % 64, 0x80 + n % 64, rest);
    }
  }

  lemma {:induction false} DecodeEncode(s: string)
    ensures Decode(Encode(s), IDLE) == s
  {
    if s != "" {
      DecodeOne(s[0], Encode(s[1..]));
      DecodeEncode(s[1..]);
    }
  }

  // ---------------------------------------------------------------- the serializer (section 5.2)

  /** The bytes that the serializer leaves as they are: letters, digits and `*-._`. */
  predicate Plain(b: Byte) {
    0x30 <= b <= 0x39 || 0x41 <= b <= 0x5a || 0x61 <= b <= 0x7a || b in {0x2a, 0x2d, 0x2e, 0x5f}
  }

  function HexDigit(n: nat): Byte
    requires n < 16
  {
    if n < 10 then 0x30 + n else 0x41 + n - 10
  }

  function EscapeByte(b: Byte): seq<Byte> {
    if b == SPACE then [PLUS] else if Plain(b) then [b] else [PERCENT, HexDigit(b / 16), HexDigit(b % 16)]
  }

  function Escape(bytes: seq<Byte>): seq<Byte> {
    if bytes == [] then [] else EscapeByte(bytes[0]) + Escape(bytes[1..])
  }

  type Pair = (string, string)

  function SerializePair(p: Pair): seq<Byte> {
    Escape(Encode(p.0)) + [EQUALS] + Escape(Encode(p.1))
  }

  function Serialize(pairs: seq<Pair>): seq<Byte> {
    if pairs == [] then []
    else if |pairs| == 1 then SerializePair(pairs[0])
    else SerializePair(pairs[0]) + [AMPERSAND] + Serialize(pairs[1..])
  }

  // ---------------------------------------------------------------- the parser (section 5.1)

  function HexValue(b: Byte): int {
    if 0x30 <= b <= 0x39 then b - 0x30
    else if 0x41 <= b <= 0x46 then b - 0x41 + 10
    else if 0x61 <= b <= 0x66 then b - 0x61 + 10
    else -1
  }

  function PercentDecode(bytes: seq<Byte>): seq<Byte> {
    if bytes == [] then []
    else if bytes[0] == PERCENT && |bytes| > 2 && HexValue(bytes[1]) >= 0 && HexValue(bytes[2]) >= 0 then
      [16 * HexValue(bytes[1]) + HexValue(bytes[2])] + PercentDecode(bytes[3..])
    else [bytes[0]] + PercentDecode(bytes[1..])
  }

  function PlusToSpace(bytes: seq<Byte>): seq<Byte> {
    seq(|bytes|, i requires 0 <= i < |bytes| => if bytes[i] == PLUS then SPACE else bytes[i])
  }

  function Unescape(bytes: seq<Byte>): string {
    Decode(PercentDecode(PlusToSpace(bytes)), IDLE)
  }

  /** The position of the first `b`, or the length. */
  function Find(bytes: seq<Byte>, b: Byte): (i: nat)
    ensures i <= |bytes| && (i < |bytes| ==> bytes[i] == b) && b !in bytes[..i]
  {
    if bytes == [] || bytes[0] == b then 0
    else
      var i := 1 + Find(bytes[1..], b);
      assert bytes[..i] == [bytes[0]] + bytes[1..][..i - 1];
      i
  }

  function ParsePair(bytes: seq<Byte>): Pair {
    var i := Find(bytes, EQUALS);
    (Unescape(bytes[..i]), if i < |bytes| then Unescape(bytes[i + 1..]) else "")
  }

  function Parse(input: seq<Byte>): seq<Pair> {
    if input == [] then []
    else
      var i := Find(input, AMPERSAND);
      var rest := if i < |input| then Parse(input[i + 1..]) else [];
      if i == 0 then rest else [ParsePair(input[..i])] + rest
  }

  // ---------------------------------------------------------------- round trip

  lemma HexRoundTrip(b: Byte)
    ensures 16 * HexValue(HexDigit(b / 16)) + HexValue(HexDigit(b % 16)) == b
    ensures HexValue(HexDigit(b / 16)) >= 0 && HexValue(HexDigit(b % 16)) >= 0
    ensures HexDigit(b / 16) !in {PLUS, AMPERSAND, EQUALS} && HexDigit(b % 16) !in {PLUS, AMPERSAND, EQUALS}
  {
  }

  lemma EscapeByteIsClean(b: Byte)
    ensures AMPERSAND !in EscapeByte(b) && EQUALS !in EscapeByte(b)
  {
    HexRoundTrip(b);
  }

  lemma {:induction false} EscapeIsClean(bytes: seq<Byte>)
    ensures AMPERSAND !in Escape(bytes) && EQUALS !in Escape(bytes)
  {
    if bytes != [] {
      EscapeByteIsClean(bytes[0]);
      EscapeIsClean(bytes[1..]);
    }
  }

  lemma PlusToSpaceConcat(x: seq<Byte>, y: seq<Byte>)
    ensures PlusToSpace(x + y) == PlusToSpace(x) + PlusToSpace(y)
  {
  }

  lemma UnescapeByte(b: Byte, rest: seq<Byte>)
    ensures PercentDecode(PlusToSpace(EscapeByte(b)) + rest) == [b] + PercentDecode(rest)
  {
    HexRoundTrip(b);
    if b == SPACE || Plain(b) {
      assert PlusToSpace(EscapeByte(b)) == [b];
      assert ([b] + rest)[1..] == rest;
    } else {
      var hi, lo := HexDigit(b / 16), HexDigit(b % 16);
      assert PlusToSpace(EscapeByte(b)) == [PERCENT, hi, lo];
      assert ([PERCENT, hi, lo] + rest)[3..] == rest;
    }
  }

  lemma {:induction false} PercentRoundTrip(bytes: seq<Byte>)
    ensures PercentDecode(PlusToSpace(Escape(bytes))) == bytes
  {
    if bytes != [] {
      PlusToSpaceConcat(EscapeByte(bytes[0]), Escape(bytes[1..]));
      UnescapeByte(bytes[0], PlusToSpace(Escape(bytes[1..])));
      PercentRoundTrip(bytes[1..]);
    }
  }

  lemma UnescapeRoundTrip(s: string)
    ensures Unescape(Escape(Encode(s))) == s
  {
    PercentRoundTrip(Encode(s));
    DecodeEncode(s);
  }

  lemma {:induction false} FindAfter(clean: seq<Byte>, b: Byte, rest: seq<Byte>)
    requires b !in clean
    ensures Find(clean + [b] + rest, b) == |clean| && Find(clean, b) == |clean|
  {
    if clean != [] {
      assert (clean + [b] + rest)[1..] == clean[1..] + [b] + rest;
      FindAfter(clean[1..], b, rest);
    }
  }

  lemma ParsePairRoundTrip(p: Pair)
    ensures ParsePair(SerializePair(p)) == p
    ensures AMPERSAND !in SerializePair(p) && SerializePair(p) != []
  {
    var name, value := Escape(Encode(p.0)), Escape(Encode(p.1));
    EscapeIsClean(Encode(p.0));
    EscapeIsClean(Encode(p.1));
    FindAfter(name, EQUALS, value);
    var bytes := SerializePair(p);
    assert bytes == name + [EQUALS] + value;
    assert bytes[..|name|] == name && bytes[|name| + 1..] == value;
    UnescapeRoundTrip(p.0);
    UnescapeRoundTrip(p.1);
  }

  lemma ParseOne(first: seq<Byte>)
    requires AMPERSAND !in first && first != []
    ensures Parse(first) == [ParsePair(first)]
  {
    hide ParsePair;
    FindAfter(first, AMPERSAND, []);
    assert first[..|first|] == first;
  }

  lemma ParseNext(first: seq<Byte>, rest: seq<Byte>)
    requires AMPERSAND !in first && first != []
    ensures Parse(first + [AMPERSAND] + rest) == [ParsePair(first)] + Parse(rest)
  {
    hide ParsePair;
    var all := first + [AMPERSAND] + rest;
    FindAfter(first, AMPERSAND, rest);
    assert all[..|first|] == first && all[|first| + 1..] == rest;
  }

  /** Parsing what was serialized gives back every pair, in order, for every list of pairs. */
  lemma {:induction false} ParseSerialize(pairs: seq<Pair>)
    ensures Parse(Serialize(pairs)) == pairs
  {
    hide Parse, ParsePair, SerializePair;
    if pairs != [] {
      ParsePairRoundTrip(pairs[0]);
      if |pairs| == 1 {
        ParseOne(SerializePair(pairs[0]));
      } else {
        ParseNext(SerializePair(pairs[0]), Serialize(pairs[1..]));
        ParseSerialize(pairs[1..]);
      }
      assert pairs == [pairs[0]] + pairs[1..];
    } else {
      NothingParses();
    }
  }

  lemma NothingParses()
    ensures Parse([]) == []
  {
  }

  // ---------------------------------------------------------------- what a serialization is made of

  /** A letter, a digit, or one of `*-._`. */
  predicate Unreserved(b: Byte) {
    0x30 <= b <= 0x39 || 0x41 <= b <= 0x5a || 0x61 <= b <= 0x7a || b == 0x2a || b == 0x2d || b == 0x2e || b == 0x5f
  }

  /** The bytes a serialized text may hold: those, the percent sign, and the plus sign for a space. */
  lemma {:induction false} EscapeAlphabet(bytes: seq<Byte>)
    ensures forall b :: b in Escape(bytes) ==> Unreserved(b) || b == 0x25 || b == 0x2b
  {
    if bytes != [] {
      EscapeAlphabet(bytes[1..]);
      forall b | b in EscapeByte(bytes[0]) ensures Unreserved(b) || b == 0x25 || b == 0x2b {
      }
    }
  }

  /** One byte at a time: kept, turned into a plus sign, or written with two upper-case hexadecimal digits. */
  lemma EscapeMeans(b: Byte)
    ensures Unreserved(b) ==> EscapeByte(b) == [b]
    ensures b == 0x20 ==> EscapeByte(b) == [0x2b]
    ensures !Unreserved(b) && b != 0x20 ==>
              && |EscapeByte(b)| == 3 && EscapeByte(b)[0] == 0x25
              && 16 * HexValue(EscapeByte(b)[1]) + HexValue(EscapeByte(b)[2]) == b
              && forall k :: 1 <= k < 3 ==> 0x30 <= EscapeByte(b)[k] <= 0x39 || 0x41 <= EscapeByte(b)[k] <= 0x46
  {
    HexRoundTrip(b);
  }
}
