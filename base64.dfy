/** `encoding/base64.StdEncoding`: the alphabet of section 4 of RFC 4648 with `=` padding.
    Decoding is Go's non-strict mode: carriage returns and line feeds anywhere are skipped,
    padding is required and may only close the last quantum, and unused trailing bits of
    the last quantum are ignored. */
module Base64 {
  import opened Bytes
  import opened Wrappers

  type sextet = x: int | 0 <= x < 64

  /** The character for one 6-bit group. */
  function EncodeSextet(n: sextet): (c: char)
    ensures c != '=' && c != '\r' && c != '\n'
  {
    if n < 26 then ('A' as int + n) as char
    else if n < 52 then ('a' as int + n - 26) as char
    else if n < 62 then ('0' as int + n - 52) as char
    else if n == 62 then '+'
    else '/'
  }

  /** The 6-bit group a character stands for; `None` outside the alphabet. */
  function DecodeSextet(c: char): (r: Option<sextet>)
    ensures r.Some? ==> EncodeSextet(r.value) == c
  {
    if 'A' <= c <= 'Z' then Some(c as int - 'A' as int)
    else if 'a' <= c <= 'z' then Some(c as int - 'a' as int + 26)
    else if '0' <= c <= '9' then Some(c as int - '0' as int + 52)
    else if c == '+' then Some(62)
    else if c == '/' then Some(63)
    else None
  }

  predicate InAlphabet(c: char) {
    DecodeSextet(c).Some?
  }

  lemma SextetRoundTrip(n: sextet)
    ensures DecodeSextet(EncodeSextet(n)) == Some(n)
  {
  }

  /** The four characters of one full group of three bytes. */
  function Quantum3(a: byte, b: byte, c: byte): string {
    [EncodeSextet(a / 4), EncodeSextet((a % 4) * 16 + b / 16),
     EncodeSextet((b % 16) * 4 + c / 64), EncodeSextet(c % 64)]
  }

  /** `EncodeToString`. */
  function Encode(b: seq<byte>): (s: string)
    ensures |s| == (|b| + 2) / 3 * 4
    ensures forall i :: 0 <= i < |s| ==> InAlphabet(s[i]) || s[i] == '='
    decreases |b|
  {
    if |b| == 0 then ""
    else if |b| == 1 then
      [EncodeSextet(b[0] / 4), EncodeSextet((b[0] % 4) * 16), '=', '=']
    else if |b| == 2 then
      [EncodeSextet(b[0] / 4), EncodeSextet((b[0] % 4) * 16 + b[1] / 16),
       EncodeSextet((b[1] % 16) * 4), '=']
    else
      QuantumAlphabet(b[0], b[1], b[2]);
      Quantum3(b[0], b[1], b[2]) + Encode(b[3..])
  }

  lemma QuantumAlphabet(a: byte, b: byte, c: byte)
    ensures forall i :: 0 <= i < 4 ==> InAlphabet(Quantum3(a, b, c)[i])
  {
    SextetRoundTrip(a / 4);
    SextetRoundTrip((a % 4) * 16 + b / 16);
    SextetRoundTrip((b % 16) * 4 + c / 64);
    SextetRoundTrip(c % 64);
  }

  /** Decoding step for one quantum of four characters; the last one may carry padding. */
  function DecodeQuantum(q: string, last: bool): (r: Option<seq<byte>>)
    requires |q| == 4
  {
    var d0, d1, d2, d3 := DecodeSextet(q[0]), DecodeSextet(q[1]), DecodeSextet(q[2]), DecodeSextet(q[3]);
    if d0.None? || d1.None? then None
    else
      var b0: byte := d0.value * 4 + d1.value / 16;
      if last && q[2] == '=' && q[3] == '=' then Some([b0])
      else if d2.None? then None
      else
        var b1: byte := (d1.value % 16) * 16 + d2.value / 4;
        if last && q[3] == '=' then Some([b0, b1])
        else if d3.None? then None
        else Some([b0, b1, (d2.value % 4) * 64 + d3.value])
  }

  /** Decoding once line breaks are gone: whole quanta only. */
  function DecodeClean(s: string): (r: Option<seq<byte>>)
    decreases |s|
  {
    if s == "" then Some([])
    else if |s| < 4 then None
    else
      match DecodeQuantum(s[..4], |s| == 4)
      case None => None
      case Some(head) =>
        match DecodeClean(s[4..])
        case None => None
        case Some(tail) => Some(head + tail)
  }

  function RemoveLineBreaks(s: string): (r: string)
    ensures forall i :: 0 <= i < |r| ==> r[i] != '\r' && r[i] != '\n'
    ensures |r| <= |s|
  {
    if s == "" then ""
    else if s[0] == '\r' || s[0] == '\n' then RemoveLineBreaks(s[1..])
    else [s[0]] + RemoveLineBreaks(s[1..])
  }

  /** `DecodeString`; `None` stands for Go's `CorruptInputError`. */
  function Decode(s: string): Option<seq<byte>> {
    DecodeClean(RemoveLineBreaks(s))
  }

  // ---------------------------------------------------------------------------
  // Properties

  /** The encoding has a length that is a multiple of four and no line breaks. */
  lemma EncodeShape(b: seq<byte>)
    ensures |Encode(b)| % 4 == 0
    ensures forall i :: 0 <= i < |Encode(b)| ==> Encode(b)[i] != '\r' && Encode(b)[i] != '\n'
  {
    var s := Encode(b);
    forall i | 0 <= i < |s| ensures s[i] != '\r' && s[i] != '\n' {
      assert InAlphabet(s[i]) || s[i] == '=';
    }
  }

  lemma {:induction false} RemoveLineBreaksNone(s: string)
    requires forall i :: 0 <= i < |s| ==> s[i] != '\r' && s[i] != '\n'
    ensures RemoveLineBreaks(s) == s
  {
    if s != "" {
      RemoveLineBreaksNone(s[1..]);
      assert s == [s[0]] + s[1..];
    }
  }

  lemma Quantum3RoundTrip(a: byte, b: byte, c: byte, last: bool)
    ensures DecodeQuantum(Quantum3(a, b, c), last) == Some([a, b, c])
  {
    var s0: sextet, s1: sextet, s2: sextet, s3: sextet := a / 4, (a % 4) * 16 + b / 16, (b % 16) * 4 + c / 64, c % 64;
    var q := Quantum3(a, b, c);
    assert q == [EncodeSextet(s0), EncodeSextet(s1), EncodeSextet(s2), EncodeSextet(s3)];
    SextetRoundTrip(s0);
    SextetRoundTrip(s1);
    SextetRoundTrip(s2);
    SextetRoundTrip(s3);
    FirstByte(a, b / 16);
    SecondByte(a % 4, b, c / 64);
    ThirdByte(b % 16, c);
    DecodeQuantumFull(q, last, s0, s1, s2, s3);
  }

  lemma FirstByte(a: byte, hi: int)
    requires 0 <= hi < 16
    ensures (a / 4) * 4 + ((a % 4) * 16 + hi) / 16 == a
  {
    assert ((a % 4) * 16 + hi) / 16 == a % 4;
  }

  lemma SecondByte(lo: int, b: byte, hi: int)
    requires 0 <= lo < 4 && 0 <= hi < 4
    ensures ((lo * 16 + b / 16) % 16) * 16 + ((b % 16) * 4 + hi) / 4 == b
  {
    assert (lo * 16 + b / 16) % 16 == b / 16;
    assert ((b % 16) * 4 + hi) / 4 == b % 16;
  }

  lemma ThirdByte(lo: int, c: byte)
    requires 0 <= lo < 16
    ensures ((lo * 4 + c / 64) % 4) * 64 + c % 64 == c
  {
    assert (lo * 4 + c / 64) % 4 == c / 64;
  }

  /** A quantum of four alphabet characters decodes to three bytes. */
  lemma DecodeQuantumFull(q: string, last: bool, s0: sextet, s1: sextet, s2: sextet, s3: sextet)
    requires |q| == 4
    requires DecodeSextet(q[0]) == Some(s0) && DecodeSextet(q[1]) == Some(s1)
    requires DecodeSextet(q[2]) == Some(s2) && DecodeSextet(q[3]) == Some(s3)
    requires 0 <= s0 * 4 + s1 / 16 < 256 && 0 <= (s1 % 16) * 16 + s2 / 4 < 256
    ensures DecodeQuantum(q, last) == Some([s0 * 4 + s1 / 16, (s1 % 16) * 16 + s2 / 4, (s2 % 4) * 64 + s3])
  {
    assert q[2] != '=' && q[3] != '=';
  }

  lemma DecodeOneByte(a: byte)
    ensures DecodeClean(Encode([a])) == Some([a])
  {
    var s := Encode([a]);
    SextetRoundTrip(a / 4);
    SextetRoundTrip((a % 4) * 16);
    assert (a / 4) * 4 + ((a % 4) * 16) / 16 == a;
    assert s[..4] == s && s[4..] == "";
    assert DecodeQuantum(s, true) == Some([a]);
    assert DecodeClean(s) == Some([a] + []);
    assert [a] + [] == [a];
  }

  lemma DecodeTwoBytes(a: byte, b: byte)
    ensures DecodeClean(Encode([a, b])) == Some([a, b])
  {
    var s := Encode([a, b]);
    SextetRoundTrip(a / 4);
    SextetRoundTrip((a % 4) * 16 + b / 16);
    SextetRoundTrip((b % 16) * 4);
    assert (a / 4) * 4 + ((a % 4) * 16 + b / 16) / 16 == a;
    assert (((a % 4) * 16 + b / 16) % 16) * 16 + ((b % 16) * 4) / 4 == b;
    assert s[..4] == s && s[4..] == "";
    assert DecodeQuantum(s, true) == Some([a, b]);
    assert DecodeClean(s) == Some([a, b] + []);
    assert [a, b] + [] == [a, b];
  }

  /** Decoding a leading quantum and then the rest. */
  lemma DecodeCleanCons(q: string, rest: string, h: seq<byte>, t: seq<byte>)
    requires |q| == 4 && DecodeQuantum(q, rest == "") == Some(h) && DecodeClean(rest) == Some(t)
    ensures DecodeClean(q + rest) == Some(h + t)
  {
    var s := q + rest;
    assert s[..4] == q && s[4..] == rest;
  }

  lemma EncodeCons(b: seq<byte>)
    requires |b| >= 3
    ensures Encode(b) == Quantum3(b[0], b[1], b[2]) + Encode(b[3..])
  {
  }

  lemma QuantumThenRest(a: byte, b: byte, c: byte, rest: string, t: seq<byte>)
    requires DecodeClean(rest) == Some(t)
    ensures DecodeClean(Quantum3(a, b, c) + rest) == Some([a, b, c] + t)
  {
    Quantum3RoundTrip(a, b, c, rest == "");
    DecodeCleanCons(Quantum3(a, b, c), rest, [a, b, c], t);
  }

  lemma DecodeThreeMore(b: seq<byte>)
    requires |b| >= 3 && DecodeClean(Encode(b[3..])) == Some(b[3..])
    ensures DecodeClean(Encode(b)) == Some(b)
  {
    var q, rest := Quantum3(b[0], b[1], b[2]), Encode(b[3..]);
    EncodeCons(b);
    QuantumThenRest(b[0], b[1], b[2], rest, b[3..]);
    SeqCons3(b);
  }

  lemma SeqCons3(b: seq<byte>)
    requires |b| >= 3
    ensures b == [b[0], b[1], b[2]] + b[3..]
  {
  }

  lemma {:induction false} DecodeCleanEncode(b: seq<byte>)
    ensures DecodeClean(Encode(b)) == Some(b)
    decreases |b|
  {
    if |b| == 0 {
      assert Encode(b) == "";
    } else if |b| == 1 {
      assert b == [b[0]];
      DecodeOneByte(b[0]);
    } else if |b| == 2 {
      assert b == [b[0], b[1]];
      DecodeTwoBytes(b[0], b[1]);
    } else {
      DecodeCleanEncode(b[3..]);
      DecodeThreeMore(b);
    }
  }

  /** Decoding inverts encoding. */
  lemma DecodeEncode(b: seq<byte>)
    ensures Decode(Encode(b)) == Some(b)
  {
    EncodeShape(b);
    RemoveLineBreaksNone(Encode(b));
    DecodeCleanEncode(b);
  }

  /** Line breaks anywhere in the input are ignored. */
  lemma DecodeIgnoresLineBreaks(s: string, t: string)
    ensures Decode(s + "\n" + t) == Decode(s + t)
    ensures Decode(s + "\r" + t) == Decode(s + t)
  {
    RemoveLineBreaksSplit(s, "\n", t);
    RemoveLineBreaksSplit(s, "\r", t);
    RemoveLineBreaksSplit(s, "", t);
    assert s + "" + t == s + t;
  }

  lemma {:induction false} RemoveLineBreaksSplit(s: string, m: string, t: string)
    requires m == "" || m == "\n" || m == "\r"
    ensures RemoveLineBreaks(s + m + t) == RemoveLineBreaks(s) + RemoveLineBreaks(t)
    decreases |s|
  {
    if s == "" {
      assert s + m + t == m + t;
      if m == "" {
        assert m + t == t;
      } else {
        assert (m + t)[0] == m[0] && (m + t)[1..] == t;
        assert RemoveLineBreaks(m + t) == RemoveLineBreaks(t);
      }
      assert RemoveLineBreaks(s) == "";
      assert RemoveLineBreaks(s) + RemoveLineBreaks(t) == RemoveLineBreaks(t);
    } else {
      assert (s + m + t)[0] == s[0] && (s + m + t)[1..] == s[1..] + m + t;
      RemoveLineBreaksSplit(s[1..], m, t);
    }
  }

  /** Inputs whose length without line breaks is not a multiple of four are rejected. */
  lemma {:induction false} DecodeCleanLength(s: string)
    ensures |s| % 4 != 0 ==> DecodeClean(s) == None
    decreases |s|
  {
    if |s| >= 4 {
      DecodeCleanLength(s[4..]);
    }
  }

  /** A character outside the alphabet, other than padding, is rejected. */
  lemma {:induction false} DecodeCleanAlphabet(s: string)
    requires DecodeClean(s).Some?
    ensures forall i :: 0 <= i < |s| ==> InAlphabet(s[i]) || s[i] == '='
    decreases |s|
  {
    if s != "" {
      DecodeCleanAlphabet(s[4..]);
      forall i | 0 <= i < |s| ensures InAlphabet(s[i]) || s[i] == '=' {
        if i >= 4 {
          assert s[i] == s[4..][i - 4];
        } else {
          assert s[i] == s[..4][i];
        }
      }
    }
  }

  /** Padding is only accepted at the very end. */
  lemma {:induction false} DecodeCleanPadding(s: string)
    requires DecodeClean(s).Some?
    ensures forall i :: 0 <= i < |s| - 2 ==> s[i] != '='
    decreases |s|
  {
    if s != "" {
      DecodeCleanPadding(s[4..]);
      forall i | 0 <= i < |s| - 2 ensures s[i] != '=' {
        if i >= 4 {
          assert s[i] == s[4..][i - 4];
        } else {
          assert s[i] == s[..4][i];
        }
      }
    }
  }

  /** Examples of malformed inputs: missing padding, padding too early, a foreign character. */
  lemma DecodeRejectsShort()
    ensures Decode("QQ=") == None
  {
    assert RemoveLineBreaks("QQ=") == "QQ=";
  }

  lemma DecodeRejectsEarlyPadding()
    ensures Decode("Q===") == None
  {
    assert RemoveLineBreaks("Q===") == "Q===";
    assert "Q==="[..4] == "Q===";
    assert DecodeSextet('=') == None;
  }

  lemma DecodeRejectsPaddingThenData()
    ensures Decode("QQ=A") == None
  {
    assert RemoveLineBreaks("QQ=A") == "QQ=A";
    assert "QQ=A"[..4] == "QQ=A";
    assert DecodeSextet('=') == None;
  }

  lemma DecodeRejectsInnerPaddingExample()
    ensures Decode("QQ==QUFB") == None
  {
    assert RemoveLineBreaks("QQ==QUFB") == "QQ==QUFB";
    assert "QQ==QUFB"[..4] == "QQ==";
    assert DecodeSextet('=') == None;
    assert DecodeQuantum("QQ==", false) == None;
  }

  lemma DecodeRejectsForeignExample()
    ensures Decode("QU*B") == None
  {
    assert RemoveLineBreaks("QU*B") == "QU*B";
    assert "QU*B"[..4] == "QU*B";
    assert DecodeSextet('*') == None;
  }

  /** Unused low bits of the last quantum are ignored. */
  lemma DecodeLenientBitsExample()
    ensures Decode("QR==") == Some([65])
  {
    assert RemoveLineBreaks("QR==") == "QR==";
    assert "QR=="[..4] == "QR==" && "QR=="[4..] == "";
    assert DecodeSextet('Q') == Some(16) && DecodeSextet('R') == Some(17);
    assert DecodeQuantum("QR==", true) == Some([65]);
    assert DecodeClean("QR==") == Some([65] + []);
    assert [65] + [] == [65];
  }

  /** A character that is not in the alphabet, not padding and not a line break, anywhere
      in the input, makes the input corrupt. */
  lemma DecodeRejectsForeign(s: string, i: nat)
    requires i < |s| && !InAlphabet(s[i]) && s[i] != '=' && s[i] != '\r' && s[i] != '\n'
    ensures Decode(s) == None
  {
    KeptChar(s, i);
    if Decode(s).Some? {
      DecodeCleanAlphabet(RemoveLineBreaks(s));
    }
  }

  lemma {:induction false} KeptChar(s: string, i: nat)
    requires i < |s| && s[i] != '\r' && s[i] != '\n'
    ensures s[i] in RemoveLineBreaks(s)
    decreases |s|
  {
    if i > 0 {
      KeptChar(s[1..], i - 1);
    }
  }

  /** In input without line breaks, padding anywhere but the last two places makes the
      input corrupt. */
  lemma DecodeRejectsInnerPadding(s: string, i: nat)
    requires forall j :: 0 <= j < |s| ==> s[j] != '\r' && s[j] != '\n'
    requires i + 2 < |s| && s[i] == '='
    ensures Decode(s) == None
  {
    RemoveLineBreaksNone(s);
    if Decode(s).Some? {
      DecodeCleanPadding(s);
    }
  }

  /** After any whole quanta, a padded last quantum decodes the same whatever the low bits
      of its last data character that no byte uses: four of them in `xy==`, two in `xyz=`. */
  lemma DecodeLenientBits(p: string, c0: char, c1: char, c2: char, d1: char, d2: char)
    requires |p| % 4 == 0 && forall i :: 0 <= i < |p| ==> p[i] != '\r' && p[i] != '\n'
    requires InAlphabet(c0) && InAlphabet(c1) && InAlphabet(c2) && InAlphabet(d1) && InAlphabet(d2)
    ensures DecodeSextet(c1).value / 16 == DecodeSextet(d1).value / 16 ==>
      Decode(p + [c0, c1, '=', '=']) == Decode(p + [c0, d1, '=', '='])
    ensures DecodeSextet(c2).value / 4 == DecodeSextet(d2).value / 4 ==>
      Decode(p + [c0, c1, c2, '=']) == Decode(p + [c0, c1, d2, '='])
  {
    var a, b := [c0, c1, '=', '='], [c0, d1, '=', '='];
    var x, y := [c0, c1, c2, '='], [c0, c1, d2, '='];
    NoBreaks(p, a);
    NoBreaks(p, b);
    NoBreaks(p, x);
    NoBreaks(p, y);
    if DecodeSextet(c1).value / 16 == DecodeSextet(d1).value / 16 {
      DecodeCleanLast(p, a, b);
    }
    if DecodeSextet(c2).value / 4 == DecodeSextet(d2).value / 4 {
      assert c2 != '=' && d2 != '=';
      DecodeCleanLast(p, x, y);
    }
  }

  lemma NoBreaks(p: string, q: string)
    requires forall i :: 0 <= i < |p| ==> p[i] != '\r' && p[i] != '\n'
    requires |q| == 4 && q[3] == '=' && InAlphabet(q[0]) && InAlphabet(q[1]) && (q[2] == '=' || InAlphabet(q[2]))
    ensures RemoveLineBreaks(p + q) == p + q
  {
    AlphabetNoBreak(q[0]);
    AlphabetNoBreak(q[1]);
    if q[2] != '=' {
      AlphabetNoBreak(q[2]);
    }
    forall j | 0 <= j < |p + q|
      ensures (p + q)[j] != '\r' && (p + q)[j] != '\n'
    {
      if j < |p| {
        assert (p + q)[j] == p[j];
      } else {
        assert (p + q)[j] == q[j - |p|];
      }
    }
    RemoveLineBreaksNone(p + q);
  }

  lemma AlphabetNoBreak(c: char)
    requires InAlphabet(c)
    ensures c != '\r' && c != '\n'
  {
  }

  /** Once the whole quanta before it decode alike, the last quantum decides the rest. */
  lemma {:induction false} DecodeCleanLast(p: string, q: string, r: string)
    requires |p| % 4 == 0 && |q| == 4 && |r| == 4 && DecodeQuantum(q, true) == DecodeQuantum(r, true)
    ensures DecodeClean(p + q) == DecodeClean(p + r)
    decreases |p|
  {
    if p == "" {
      assert p + q == q && p + r == r;
      assert q[..4] == q && q[4..] == "" && r[..4] == r && r[4..] == "";
    } else {
      assert (p + q)[..4] == p[..4] == (p + r)[..4];
      assert (p + q)[4..] == p[4..] + q && (p + r)[4..] == p[4..] + r;
      DecodeCleanLast(p[4..], q, r);
    }
  }

  /** Line breaks inside the input are skipped. */
  lemma DecodeLenientBreaks()
    ensures Decode("QU\nFB") == Some([65, 65, 65])
  {
    assert RemoveLineBreaks("QU\nFB") == "QUFB";
    assert "QUFB"[..4] == "QUFB" && "QUFB"[4..] == "";
    DecodeQuantumFull("QUFB", true, 16, 20, 5, 1);
    assert DecodeClean("QUFB") == Some([65, 65, 65] + []);
    assert [65, 65, 65] + [] == [65, 65, 65];
  }
}
