/** UTF-8 as Go's `unicode/utf8` handles it: encoding of a scalar value, and the lenient
    decoding `encoding/json` applies to string contents, where every byte that does not
    start a well-formed sequence becomes U+FFFD on its own. */
module Utf8 {
  import opened Bytes

  const Replacement: char := '�'

  predicate Continuation(b: byte) {
    0x80 <= b < 0xC0
  }

  /** The UTF-8 bytes of one character. */
  function EncodeChar(c: char): (r: seq<byte>)
    ensures 1 <= |r| <= 4
  {
    var n := c as int;
    if n < 0x80 then [n]
    else if n < 0x800 then [0xC0 + n / 64, 0x80 + n % 64]
    else if n < 0x10000 then [0xE0 + n / 4096, 0x80 + (n / 64) % 64, 0x80 + n % 64]
    else [0xF0 + n / 262144, 0x80 + (n / 4096) % 64, 0x80 + (n / 64) % 64, 0x80 + n % 64]
  }

  function Encode(s: string): seq<byte> {
    if s == "" then [] else EncodeChar(s[0]) + Encode(s[1..])
  }

  /** The range the second byte of a sequence must lie in, by its first byte;
      this is what rules out overlong forms, surrogates and values past U+10FFFF. */
  function SecondLow(b0: byte): byte {
    if b0 == 0xE0 then 0xA0 else if b0 == 0xF0 then 0x90 else 0x80
  }

  function SecondHigh(b0: byte): byte {
    if b0 == 0xED then 0xA0 else if b0 == 0xF4 then 0x90 else 0xC0
  }

  /** The length a first byte announces; 0 when it cannot start a sequence. */
  function SequenceLength(b0: byte): nat {
    if b0 < 0x80 then 1
    else if 0xC2 <= b0 < 0xE0 then 2
    else if 0xE0 <= b0 < 0xF0 then 3
    else if 0xF0 <= b0 < 0xF5 then 4
    else 0
  }

  /** `utf8.DecodeRune`: the first character and how many bytes it took. */
  function DecodeOne(b: seq<byte>): (r: (char, nat))
    requires |b| > 0
    ensures 1 <= r.1 <= |b|
  {
    var b0: int := b[0];
    var sz := SequenceLength(b[0]);
    if sz == 1 then (b0 as char, 1)
    else if sz == 0 || |b| < sz || !(SecondLow(b[0]) <= b[1] < SecondHigh(b[0])) then (Replacement, 1)
    else if sz == 2 then (((b0 - 0xC0) * 64 + (b[1] as int - 0x80)) as char, 2)
    else if !Continuation(b[2]) then (Replacement, 1)
    else if sz == 3 then
      var n := (b0 - 0xE0) * 4096 + (b[1] as int - 0x80) * 64 + (b[2] as int - 0x80);
      assert n < 0xD800 || 0xE000 <= n;
      (n as char, 3)
    else if !Continuation(b[3]) then (Replacement, 1)
    else
      var n := (b0 - 0xF0) * 262144 + (b[1] as int - 0x80) * 4096 + (b[2] as int - 0x80) * 64 + (b[3] as int - 0x80);
      (n as char, 4)
  }

  /** Lenient decoding of a whole byte sequence. */
  function Decode(b: seq<byte>): string
    decreases |b|
  {
    if b == [] then ""
    else
      var (c, len) := DecodeOne(b);
      [c] + Decode(b[len..])
  }

  // ---------------------------------------------------------------------------
  // Properties

  lemma DecodeOneAscii(b: seq<byte>)
    requires |b| > 0 && b[0] < 0x80
    ensures DecodeOne(b) == (b[0] as char, 1)
  {
  }

  lemma DecodeTwo(c: char, rest: seq<byte>)
    requires 0x80 <= c as int < 0x800
    ensures DecodeOne(EncodeChar(c) + rest) == (c, 2)
  {
    var n := c as int;
    var e := EncodeChar(c) + rest;
    assert e[0] == 0xC0 + n / 64 && e[1] == 0x80 + n % 64;
    assert n == (n / 64) * 64 + n % 64;
  }

  lemma DecodeThree(c: char, rest: seq<byte>)
    requires 0x800 <= c as int < 0x10000
    ensures DecodeOne(EncodeChar(c) + rest) == (c, 3)
  {
    var n := c as int;
    var e := EncodeChar(c) + rest;
    var hi, mid, lo := n / 4096, (n / 64) % 64, n % 64;
    assert e[0] == 0xE0 + hi && e[1] == 0x80 + mid && e[2] == 0x80 + lo;
    assert n / 64 == hi * 64 + mid;
    assert n == (n / 64) * 64 + lo;
    assert n == hi * 4096 + mid * 64 + lo;
    assert hi == 0 ==> mid >= 0x20;
    assert hi == 13 ==> mid < 0x20;
  }

  lemma DecodeFour(c: char, rest: seq<byte>)
    requires 0x10000 <= c as int
    ensures DecodeOne(EncodeChar(c) + rest) == (c, 4)
  {
    var n := c as int;
    var e := EncodeChar(c) + rest;
    var top, hi, mid, lo := n / 262144, (n / 4096) % 64, (n / 64) % 64, n % 64;
    assert e[0] == 0xF0 + top && e[1] == 0x80 + hi && e[2] == 0x80 + mid && e[3] == 0x80 + lo;
    assert n / 4096 == top * 64 + hi;
    assert n / 64 == (n / 4096) * 64 + mid;
    assert n == (n / 64) * 64 + lo;
    assert n == top * 262144 + hi * 4096 + mid * 64 + lo;
    assert top == 0 ==> hi >= 0x10;
    assert top == 4 ==> hi < 0x10;
  }

  /** The encoding of a character followed by anything decodes to that character first. */
  lemma DecodeOneEncode(c: char, rest: seq<byte>)
    ensures DecodeOne(EncodeChar(c) + rest) == (c, |EncodeChar(c)|)
  {
    var n := c as int;
    if n < 0x80 {
      DecodeOneAscii(EncodeChar(c) + rest);
    } else if n < 0x800 {
      DecodeTwo(c, rest);
    } else if n < 0x10000 {
      DecodeThree(c, rest);
    } else {
      DecodeFour(c, rest);
    }
  }

  /** Lenient decoding inverts encoding. */
  lemma {:induction false} DecodeEncode(s: string)
    ensures Decode(Encode(s)) == s
  {
    if s != "" {
      var e, rest := EncodeChar(s[0]), Encode(s[1..]);
      assert Encode(s) == e + rest;
      DecodeOneEncode(s[0], rest);
      assert (e + rest)[|e|..] == rest;
      DecodeEncode(s[1..]);
      assert s == [s[0]] + s[1..];
    }
  }

  /** Every decoded string is at most as long as its bytes. */
  lemma {:induction false} DecodeLength(b: seq<byte>)
    ensures |Decode(b)| <= |b|
    decreases |b|
  {
    if b != [] {
      DecodeLength(b[DecodeOne(b).1..]);
    }
  }

  /** ASCII bytes decode one for one. */
  lemma {:induction false} DecodeAscii(b: seq<byte>)
    requires forall i :: 0 <= i < |b| ==> b[i] < 0x80
    ensures |Decode(b)| == |b|
    ensures forall i :: 0 <= i < |b| ==> Decode(b)[i] as int == b[i]
    decreases |b|
  {
    if b != [] {
      DecodeAscii(b[1..]);
    }
  }

  /** Malformed bytes each become one U+FFFD. */
  lemma DecodeMalformed()
    ensures Decode([0xFF]) == [Replacement]
    ensures Decode([0xC0, 0x80]) == [Replacement, Replacement]
    ensures Decode([0xED, 0xA0, 0x80]) == [Replacement, Replacement, Replacement]
    ensures Decode([0xE2, 0x82]) == [Replacement, Replacement]
  {
    assert [0xC0, 0x80][1..] == [0x80];
    assert [0xED, 0xA0, 0x80][1..] == [0xA0, 0x80];
    assert [0xA0, 0x80][1..] == [0x80];
    assert [0xE2, 0x82][1..] == [0x82];
    assert Decode([0x80]) == [Replacement];
    assert Decode([0x82]) == [Replacement];
  }
}
