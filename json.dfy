/** The part of `encoding/json` that a flat record of strings goes through.
    Marshalling writes an object of string members with Go's escaping (which includes the
    HTML-safe escapes of `<`, `>` and `&`, and those of U+2028 and U+2029). Unmarshalling parses
    any JSON text (RFC 8259), keeps the members of a top-level object, and only distinguishes
    strings, `null` and nested objects among the member values. */
module Json {
  import opened Wrappers
  import opened Text

  const Replacement: char := '�'

  // ---------------------------------------------------------------------------
  // Marshalling

  /** One character of a string as `json.Marshal` writes it. */
  function EscapeChar(c: char): (r: string)
    ensures |r| > 0 && r[0] != '"'
  {
    var n := c as int;
    if c == '"' then "\\\""
    else if c == '\\' then "\\\\"
    else if n == 10 then "\\n"
    else if n == 13 then "\\r"
    else if n == 9 then "\\t"
    else if n < 0x20 || c == '<' || c == '>' || c == '&' then "\\u00" + [HexDigit(n / 16), HexDigit(n % 16)]
    else if n == 0x2028 then "\\u2028"
    else if n == 0x2029 then "\\u2029"
    else [c]
  }

  function EscapeAll(s: string): string {
    if s == "" then "" else EscapeChar(s[0]) + EscapeAll(s[1..])
  }

  /** A JSON string literal. */
  function Quote(s: string): string {
    "\"" + EscapeAll(s) + "\""
  }

  function MemberText(m: (string, string)): string {
    Quote(m.0) + ":" + Quote(m.1)
  }

  function MembersText(ms: seq<(string, string)>): string
    decreases |ms|
  {
    if ms == [] then ""
    else if |ms| == 1 then MemberText(ms[0])
    else MemberText(ms[0]) + "," + MembersText(ms[1..])
  }

  /** The text of an object with string members, without any whitespace, as `json.Marshal` writes it. */
  function ObjectText(ms: seq<(string, string)>): string {
    "{" + MembersText(ms) + "}"
  }

  // ---------------------------------------------------------------------------
  // Unmarshalling

  /** What a member value is, as far as a record of strings cares. */
  datatype Value = Str(s: string) | Null | Obj(members: seq<(string, Value)>) | Other

  predicate IsWs(c: char) {
    c == ' ' || c == '\t' || c == '\n' || c == '\r'
  }

  function SkipWs(s: string): (r: string)
    ensures |r| <= |s|
    ensures r != [] ==> !IsWs(r[0])
  {
    if s != [] && IsWs(s[0]) then SkipWs(s[1..]) else s
  }

  function HexVal(c: char): Option<int> {
    if '0' <= c <= '9' then Some(c as int - '0' as int)
    else if 'a' <= c <= 'f' then Some(c as int - 'a' as int + 10)
    else if 'A' <= c <= 'F' then Some(c as int - 'A' as int + 10)
    else None
  }

  /** Four hexadecimal digits at the front of `s`. */
  function Hex4(s: string): (r: Option<int>)
    ensures r.Some? ==> |s| >= 4 && 0 <= r.value < 0x10000
  {
    if |s| < 4 then None
    else
      var d0, d1, d2, d3 := HexVal(s[0]), HexVal(s[1]), HexVal(s[2]), HexVal(s[3]);
      if d0.None? || d1.None? || d2.None? || d3.None? then None
      else if !(0 <= d0.value < 16 && 0 <= d1.value < 16 && 0 <= d2.value < 16 && 0 <= d3.value < 16) then None
      else Some(((d0.value * 16 + d1.value) * 16 + d2.value) * 16 + d3.value)
  }

  /** A `\uXXXX` escape at the front of `s`. */
  function UEscape(s: string): (r: Option<int>)
    ensures r.Some? ==> |s| >= 6 && 0 <= r.value < 0x10000
  {
    if |s| >= 2 && s[0] == '\\' && s[1] == 'u' then Hex4(s[2..]) else None
  }

  /** One character of a string literal, not its closing quote: the character it stands
      for and how many characters of input it takes. An unpaired surrogate escape stands
      for U+FFFD. */
  function ParseChar(s: string): (r: Option<(char, nat)>)
    requires s != [] && s[0] != '"'
    ensures r.Some? ==> 1 <= r.value.1 <= |s|
  {
    var c := s[0];
    if c as int < 0x20 then None
    else if c != '\\' then Some((c, 1))
    else if |s| < 2 then None
    else
      var e := s[1];
      if e == '"' || e == '\\' || e == '/' then Some((e, 2))
      else if e == 'b' then Some((8 as char, 2))
      else if e == 'f' then Some((12 as char, 2))
      else if e == 'n' then Some((10 as char, 2))
      else if e == 'r' then Some((13 as char, 2))
      else if e == 't' then Some((9 as char, 2))
      else if e != 'u' then None
      else
        match UEscape(s)
        case None => None
        case Some(u) =>
          if !(0xD800 <= u < 0xE000) then Some((u as char, 6))
          else
            var lo := UEscape(s[6..]);
            if u < 0xDC00 && lo.Some? && 0xDC00 <= lo.value < 0xE000 then
              Some(((0x10000 + (u - 0xD800) * 1024 + (lo.value - 0xDC00)) as char, 12))
            else Some((Replacement, 6))
  }

  /** The rest of a string literal after its opening quote: its value and what follows the closing quote. */
  function ParseString(s: string): (r: Option<(string, string)>)
    ensures r.Some? ==> |r.value.1| < |s|
    decreases |s|
  {
    if s == [] then None
    else if s[0] == '"' then Some(("", s[1..]))
    else
      match ParseChar(s)
      case None => None
      case Some((c, n)) =>
        match ParseString(s[n..])
        case None => None
        case Some((t, rest)) => Some(([c] + t, rest))
  }

  predicate IsDigit(c: char) {
    '0' <= c <= '9'
  }

  function SkipDigits(s: string): (r: string)
    ensures |r| <= |s|
  {
    if s != [] && IsDigit(s[0]) then SkipDigits(s[1..]) else s
  }

  /** One or more digits. */
  function Digits(s: string): (r: Option<string>)
    ensures r.Some? ==> |r.value| < |s|
  {
    if s != [] && IsDigit(s[0]) then Some(SkipDigits(s[1..])) else None
  }

  /** A number: an optional minus, an integer part without leading zeros, an optional
      fraction and an optional exponent. */
  function ParseNumber(s: string): (r: Option<string>)
    ensures r.Some? ==> |r.value| < |s|
  {
    var t := if s != [] && s[0] == '-' then s[1..] else s;
    var afterInt :=
      if t != [] && t[0] == '0' then Some(t[1..])
      else if t != [] && '1' <= t[0] <= '9' then Some(SkipDigits(t[1..]))
      else None;
    match afterInt
    case None => None
    case Some(u) =>
      var afterFrac := if u != [] && u[0] == '.' then Digits(u[1..]) else Some(u);
      match afterFrac
      case None => None
      case Some(v) =>
        if v != [] && (v[0] == 'e' || v[0] == 'E') then
          var w := if |v| > 1 && (v[1] == '+' || v[1] == '-') then v[2..] else v[1..];
          Digits(w)
        else Some(v)
  }

  predicate StartsWith(s: string, p: string) {
    |p| <= |s| && s[..|p|] == p
  }

  /** A JSON value after optional whitespace, and what follows it. */
  function ParseValue(s: string): (r: Option<(Value, string)>)
    ensures r.Some? ==> |r.value.1| < |s|
    decreases |s|, 1
  {
    var t := SkipWs(s);
    if t == [] then None
    else if t[0] == '"' then
      match ParseString(t[1..])
      case None => None
      case Some((x, rest)) => Some((Str(x), rest))
    else if t[0] == '{' then
      match ParseObjectBody(t[1..])
      case None => None
      case Some((ms, rest)) => Some((Obj(ms), rest))
    else if t[0] == '[' then
      match ParseArrayBody(t[1..])
      case None => None
      case Some(rest) => Some((Other, rest))
    else if StartsWith(t, "null") then Some((Null, t[4..]))
    else if StartsWith(t, "true") then Some((Other, t[4..]))
    else if StartsWith(t, "false") then Some((Other, t[5..]))
    else if t[0] == '-' || IsDigit(t[0]) then
      match ParseNumber(t)
      case None => None
      case Some(rest) => Some((Other, rest))
    else None
  }

  /** An array after its opening bracket; what follows the closing bracket. */
  function ParseArrayBody(s: string): (r: Option<string>)
    ensures r.Some? ==> |r.value| < |s|
    decreases |s|, 3
  {
    var t := SkipWs(s);
    if t != [] && t[0] == ']' then Some(t[1..]) else ParseElements(t)
  }

  function ParseElements(s: string): (r: Option<string>)
    ensures r.Some? ==> |r.value| < |s|
    decreases |s|, 2
  {
    match ParseValue(s)
    case None => None
    case Some((_, r1)) =>
      var r2 := SkipWs(r1);
      if r2 == [] then None
      else if r2[0] == ']' then Some(r2[1..])
      else if r2[0] == ',' then ParseElements(r2[1..])
      else None
  }

  /** An object after its opening brace: its members in order, and what follows the closing brace. */
  function ParseObjectBody(s: string): (r: Option<(seq<(string, Value)>, string)>)
    ensures r.Some? ==> |r.value.1| < |s|
    decreases |s|, 3
  {
    var t := SkipWs(s);
    if t != [] && t[0] == '}' then Some(([], t[1..])) else ParseMembers(t)
  }

  function ParseMembers(s: string): (r: Option<(seq<(string, Value)>, string)>)
    ensures r.Some? ==> |r.value.1| < |s|
    decreases |s|, 2
  {
    var t := SkipWs(s);
    if t == [] || t[0] != '"' then None
    else
      match ParseString(t[1..])
      case None => None
      case Some((k, r1)) =>
        var r2 := SkipWs(r1);
        if r2 == [] || r2[0] != ':' then None
        else
          match ParseValue(r2[1..])
          case None => None
          case Some((v, r3)) =>
            var r4 := SkipWs(r3);
            if r4 == [] then None
            else if r4[0] == '}' then Some(([(k, v)], r4[1..]))
            else if r4[0] == ',' then
              match ParseMembers(r4[1..])
              case None => None
              case Some((ms, rest)) => Some(([(k, v)] + ms, rest))
            else None
  }

  /** A whole JSON text: one value surrounded by optional whitespace. `None` is a syntax error. */
  function Parse(s: string): Option<Value> {
    match ParseValue(s)
    case None => None
    case Some((v, rest)) => if SkipWs(rest) == [] then Some(v) else None
  }

  // ---------------------------------------------------------------------------
  // Matching keys to field names

  const LongS: char := 0x17F as char
  const Kelvin: char := 0x212A as char

  predicate IsAsciiLetter(c: char) {
    'a' <= c <= 'z' || 'A' <= c <= 'Z'
  }

  /** One key character against one field-name character: equal, the same ASCII letter in
      another case, or one of the two non-ASCII letters that fold to `s` and `k`. */
  predicate FoldChar(c: char, n: char) {
    || c == n
    || (IsAsciiLetter(n) && IsAsciiLetter(c) && LowerChar(c) == LowerChar(n))
    || (LowerChar(n) == 's' && c == LongS)
    || (LowerChar(n) == 'k' && c == Kelvin)
  }

  /** A key selects a field when it equals its name up to case folding. */
  predicate FoldEq(key: string, name: string) {
    |key| == |name| && forall i :: 0 <= i < |key| ==> FoldChar(key[i], name[i])
  }

  // ---------------------------------------------------------------------------
  // Properties

  lemma HexDigitVal(n: int)
    requires 0 <= n < 16
    ensures HexVal(HexDigit(n)) == Some(n)
  {
  }

  lemma SkipWsNone(s: string)
    requires s == [] || !IsWs(s[0])
    ensures SkipWs(s) == s
  {
  }

  /** An escape the marshaller writes is read back as the character it stands for. */
  lemma ParseCharEscape(c: char, rest: string)
    ensures EscapeChar(c) + rest != [] && (EscapeChar(c) + rest)[0] != '"'
    ensures ParseChar(EscapeChar(c) + rest) == Some((c, |EscapeChar(c)|))
  {
    var e := EscapeChar(c);
    var s := e + rest;
    var n := c as int;
    assert s[..|e|] == e;
    if c == '"' || c == '\\' || n == 10 || n == 13 || n == 9 {
    } else if n < 0x20 || c == '<' || c == '>' || c == '&' {
      HexDigitVal(n / 16);
      HexDigitVal(n % 16);
      assert s[2..][..4] == ['0', '0', HexDigit(n / 16), HexDigit(n % 16)];
      assert Hex4(s[2..]) == Some(n);
    } else if n == 0x2028 || n == 0x2029 {
      assert s[2..][..4] == e[2..];
      assert Hex4(s[2..]) == Some(n);
    }
  }

  lemma {:induction false} ParseStringEscaped(x: string, rest: string)
    ensures ParseString(EscapeAll(x) + "\"" + rest) == Some((x, rest))
    decreases |x|
  {
    var s := EscapeAll(x) + "\"" + rest;
    if x == "" {
      assert s == "\"" + rest;
      assert s[1..] == rest;
    } else {
      var e, tail := EscapeChar(x[0]), EscapeAll(x[1..]) + "\"" + rest;
      assert EscapeAll(x) == e + EscapeAll(x[1..]);
      assert s == e + tail;
      ParseCharEscape(x[0], tail);
      assert s[|e|..] == tail;
      ParseStringEscaped(x[1..], rest);
      ParseStringStep(s, x[0], |e|, x[1..], rest);
      assert x == [x[0]] + x[1..];
    }
  }

  /** `ParseString` reads one character and then the rest. */
  lemma ParseStringStep(s: string, c: char, n: nat, t: string, rest: string)
    requires s != [] && s[0] != '"' && ParseChar(s) == Some((c, n))
    requires ParseString(s[n..]) == Some((t, rest))
    ensures ParseString(s) == Some(([c] + t, rest))
  {
  }

  /** A marshalled string is read back, whatever follows it. */
  lemma ParseValueQuoted(x: string, rest: string)
    ensures ParseValue(Quote(x) + rest) == Some((Str(x), rest))
  {
    var s := Quote(x) + rest;
    SkipWsNone(s);
    assert s[1..] == EscapeAll(x) + "\"" + rest;
    ParseStringEscaped(x, rest);
  }

  function Strs(ms: seq<(string, string)>): (r: seq<(string, Value)>)
    ensures |r| == |ms|
    ensures forall i :: 0 <= i < |ms| ==> r[i] == (ms[i].0, Str(ms[i].1))
  {
    if ms == [] then [] else [(ms[0].0, Str(ms[0].1))] + Strs(ms[1..])
  }

  /** One marshalled member followed by a separator or the closing brace: its key is read
      up to the colon. */
  lemma MemberKey(m: (string, string), sep: char, rest: string)
    ensures var s := MemberText(m) + [sep] + rest;
      && s != [] && s[0] == '"'
      && ParseString(s[1..]) == Some((m.0, ":" + Quote(m.1) + [sep] + rest))
  {
    var s := MemberText(m) + [sep] + rest;
    var after := ":" + Quote(m.1) + [sep] + rest;
    assert s[1..] == EscapeAll(m.0) + "\"" + after;
    ParseStringEscaped(m.0, after);
  }

  /** ... and its value after the colon. */
  lemma MemberValue(m: (string, string), sep: char, rest: string)
    ensures var after := ":" + Quote(m.1) + [sep] + rest;
      && after != [] && after[0] == ':'
      && ParseValue(after[1..]) == Some((Str(m.1), [sep] + rest))
  {
    var after := ":" + Quote(m.1) + [sep] + rest;
    assert after[1..] == Quote(m.1) + ([sep] + rest);
    ParseValueQuoted(m.1, [sep] + rest);
  }

  /** How `ParseMembers` reads one member that starts at once and is followed at once by
      a closing brace or a comma. */
  lemma MembersHead(s: string, k: string, r1: string, v: Value, r3: string)
    requires s != [] && s[0] == '"' && ParseString(s[1..]) == Some((k, r1))
    requires r1 != [] && r1[0] == ':' && ParseValue(r1[1..]) == Some((v, r3))
    requires r3 != [] && (r3[0] == '}' || r3[0] == ',')
    ensures r3[0] == '}' ==> ParseMembers(s) == Some(([(k, v)], r3[1..]))
    ensures r3[0] == ',' ==> (ParseMembers(s) ==
      match ParseMembers(r3[1..])
      case None => None
      case Some((ms, rest)) => Some(([(k, v)] + ms, rest)))
  {
    SkipWsNone(s);
    SkipWsNone(r1);
    SkipWsNone(r3);
  }

  lemma {:induction false} ParseMembersText(ms: seq<(string, string)>, rest: string)
    requires |ms| > 0
    ensures ParseMembers(MembersText(ms) + "}" + rest) == Some((Strs(ms), rest))
    decreases |ms|
  {
    var s := MembersText(ms) + "}" + rest;
    var m := ms[0];
    if |ms| == 1 {
      assert s == MemberText(m) + ['}'] + rest;
      MemberKey(m, '}', rest);
      MemberValue(m, '}', rest);
      MembersHead(s, m.0, ":" + Quote(m.1) + ['}'] + rest, Str(m.1), ['}'] + rest);
      assert (['}'] + rest)[1..] == rest;
      assert Strs(ms) == [(m.0, Str(m.1))];
    } else {
      var tail := MembersText(ms[1..]) + "}" + rest;
      assert s == MemberText(m) + [','] + tail;
      MemberKey(m, ',', tail);
      MemberValue(m, ',', tail);
      MembersHead(s, m.0, ":" + Quote(m.1) + [','] + tail, Str(m.1), [','] + tail);
      assert ([','] + tail)[1..] == tail;
      ParseMembersText(ms[1..], rest);
      assert Strs(ms) == [(m.0, Str(m.1))] + Strs(ms[1..]);
    }
  }

  lemma ParseEmptyObject()
    ensures Parse("{}") == Some(Obj([]))
  {
    assert SkipWs("{}") == "{}";
    assert "{}"[1..] == "}";
    assert ParseObjectBody("}") == Some(([], ""));
  }

  /** `ParseValue` on an object that starts at once. */
  lemma ParseValueObject(s: string, ms: seq<(string, Value)>, rest: string)
    requires s != [] && s[0] == '{' && ParseObjectBody(s[1..]) == Some((ms, rest))
    ensures ParseValue(s) == Some((Obj(ms), rest))
  {
    SkipWsNone(s);
  }

  lemma MembersTextHead(ms: seq<(string, string)>)
    requires |ms| > 0
    ensures MembersText(ms) != [] && MembersText(ms)[0] == '"'
  {
    if |ms| > 1 {
      assert MembersText(ms) == MemberText(ms[0]) + "," + MembersText(ms[1..]);
    }
  }

  /** A marshalled object is parsed back into its members, in order. */
  lemma ParseObjectText(ms: seq<(string, string)>)
    ensures Parse(ObjectText(ms)) == Some(Obj(Strs(ms)))
  {
    if ms == [] {
      assert ObjectText(ms) == "{}";
      ParseEmptyObject();
    } else {
      ParseNonEmptyObject(ms);
    }
  }

  lemma ParseNonEmptyObject(ms: seq<(string, string)>)
    requires ms != []
    ensures Parse(ObjectText(ms)) == Some(Obj(Strs(ms)))
  {
    var s := ObjectText(ms);
    var inner := MembersText(ms) + "}";
    assert s == "{" + inner && s[1..] == inner;
    assert inner == MembersText(ms) + "}" + "";
    ParseMembersText(ms, "");
    MembersTextHead(ms);
    ObjectBodyMembers(inner);
    ParseValueObject(s, Strs(ms), "");
    ParseWhole(s, Obj(Strs(ms)));
  }

  lemma ObjectBodyMembers(body: string)
    requires body != [] && body[0] == '"'
    ensures ParseObjectBody(body) == ParseMembers(body)
  {
    SkipWsNone(body);
  }

  lemma ParseWhole(s: string, v: Value)
    requires ParseValue(s) == Some((v, ""))
    ensures Parse(s) == Some(v)
  {
    assert SkipWs("") == "";
  }

  /** `null` alone is a valid text. */
  lemma ParseNull()
    ensures Parse(" null ") == Some(Null)
  {
    assert SkipWs(" null ") == "null ";
    assert StartsWith("null ", "null");
    assert "null "[4..] == " ";
  }

  lemma ParseValueNull(rest: string)
    ensures ParseValue("null" + rest) == Some((Null, rest))
  {
    var s := "null" + rest;
    SkipWsNone(s);
    assert s[..4] == "null" && s[4..] == rest;
  }

  /** Nothing at all is not a valid text. */
  lemma ParseEmpty()
    ensures Parse("") == None
  {
  }

  /** An object may not end with a comma. */
  lemma ParseTrailingCommaExample()
    ensures ParseMembers("\"a\":null,}") == None
  {
    var s := "\"a\":null,}";
    assert s[1..] == EscapeAll("a") + "\"" + ":null,}" by {
      assert EscapeAll("a") == EscapeChar('a') + EscapeAll("");
    }
    ParseStringEscaped("a", ":null,}");
    assert ":null,}"[1..] == "null,}";
    ParseValueNull(",}");
    assert "null" + ",}" == "null,}";
    MembersHead(s, "a", ":null,}", Null, ",}");
    assert ",}"[1..] == "}";
    assert ParseMembers("}") == None;
  }

  /** After a comma a member must follow: a `}` there, after optional white space, is a
      syntax error, and so is every object member list that ends that way, whatever its
      key and its value. */
  lemma ParseTrailingComma(k: string, x: string, v: Value, r3: string, rest: string)
    requires ParseValue(x) == Some((v, r3)) && SkipWs(r3) == "," + rest
    requires SkipWs(rest) != [] && SkipWs(rest)[0] == '}'
    ensures ParseMembers(rest) == None
    ensures ParseMembers(Quote(k) + ":" + x) == None
  {
    var s := Quote(k) + ":" + x;
    SkipWsNone(s);
    assert s[1..] == EscapeAll(k) + "\"" + (":" + x);
    ParseStringEscaped(k, ":" + x);
    SkipWsNone(":" + x);
    assert (":" + x)[1..] == x;
    assert ("," + rest)[1..] == rest;
  }

  /** A number ends after a leading `0`, so a digit that follows it is left over and the
      text is refused. */
  lemma ParseLeadingZero(m: string, d: char, rest: string)
    requires m == "" || m == "-"
    requires IsDigit(d)
    ensures ParseNumber(m + "0" + [d] + rest) == Some([d] + rest)
    ensures Parse(m + "0" + [d] + rest) == None
  {
    var s := m + "0" + [d] + rest;
    var t := if s[0] == '-' then s[1..] else s;
    assert t == "0" + [d] + rest;
    assert t[1..] == [d] + rest;
    SkipWsNone(s);
    SkipWsNone([d] + rest);
    assert !StartsWith(s, "null") && !StartsWith(s, "true") && !StartsWith(s, "false") by {
      assert s[0] == '-' || s[0] == '0';
    }
  }

  /** Leading zeros are refused. */
  lemma ParseLeadingZeroExample()
    ensures Parse("01") == None
  {
    assert ParseNumber("01") == Some("1");
    assert ParseValue("01") == Some((Other, "1"));
  }
}
