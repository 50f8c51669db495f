/** The pieces of Go's `strings`, `strconv` and `fmt` that the plugins rely on. */
module Text {

  /** `unicode.ToLower` on one character, for ASCII letters only. */
  function LowerChar(c: char): char {
    if 'A' <= c <= 'Z' then (c as int + 32) as char else c
  }

  /** `strings.ToLower`, restricted to ASCII case mapping. */
  function Lower(s: string): (r: string)
    ensures |r| == |s|
    ensures forall i :: 0 <= i < |s| ==> r[i] == LowerChar(s[i])
  {
    if s == [] then [] else [LowerChar(s[0])] + Lower(s[1..])
  }

  /** `strings.Join`: the parts with `sep` between consecutive ones. */
  function JoinWith(parts: seq<string>, sep: string): string {
    if |parts| == 0 then ""
    else if |parts| == 1 then parts[0]
    else parts[0] + sep + JoinWith(parts[1..], sep)
  }

  lemma {:induction false} JoinWithAppend(a: seq<string>, b: seq<string>, sep: string)
    requires |a| > 0 && |b| > 0
    ensures JoinWith(a + b, sep) == JoinWith(a, sep) + sep + JoinWith(b, sep)
  {
    if |a| == 1 {
      assert (a + b)[1..] == b;
    } else {
      assert (a + b)[1..] == a[1..] + b;
      JoinWithAppend(a[1..], b, sep);
    }
  }

  /** The last element of `strings.Split(t, ".")`: the text after the last `.`,
      or the whole of `t` when it holds no `.` (the `extract` helper of the plugins). */
  function AfterLastDot(t: string): string
    decreases |t|
  {
    if t == [] then ""
    else if t[|t| - 1] == '.' then ""
    else AfterLastDot(t[..|t| - 1]) + [t[|t| - 1]]
  }

  /** What `AfterLastDot` keeps is a dot-free suffix of `t`, preceded in `t` by a `.` when
      it is not the whole of `t`. */
  lemma {:induction false} AfterLastDotSuffix(t: string)
    ensures var r := AfterLastDot(t);
      && '.' !in r
      && |r| <= |t| && r == t[|t| - |r|..]
      && (|r| < |t| ==> t[|t| - |r| - 1] == '.')
    decreases |t|
  {
    if t != [] && t[|t| - 1] != '.' {
      var init, last := t[..|t| - 1], t[|t| - 1];
      AfterLastDotSuffix(init);
      var r0 := AfterLastDot(init);
      assert t == init + [last];
      assert t[|t| - |r0| - 1..] == init[|init| - |r0|..] + [last];
    }
  }

  /** Lower-case hexadecimal digit, as Go's formatting code writes it. */
  function HexDigit(n: int): char
    requires 0 <= n < 16
  {
    if n < 10 then ('0' as int + n) as char else ('a' as int + n - 10) as char
  }

  /** Characters that `strconv.Quote` copies unchanged. Unicode's printability
      tables are not modelled: every non-ASCII character counts as printable. */
  predicate QuotePrintable(c: char) {
    (0x20 <= c as int < 0x7F || c as int >= 0x80) && c != '"' && c != '\\'
  }

  /** One character as `strconv.Quote` writes it inside the quotes. */
  function GoQuoteChar(c: char): string {
    var n := c as int;
    if c == '"' || c == '\\' then ['\\', c]
    else if QuotePrintable(c) then [c]
    else if n == 7 then "\\a"
    else if n == 8 then "\\b"
    else if n == 12 then "\\f"
    else if n == 10 then "\\n"
    else if n == 13 then "\\r"
    else if n == 9 then "\\t"
    else if n == 11 then "\\v"
    else "\\x" + [HexDigit(n / 16), HexDigit(n % 16)]
  }

  function GoQuoteChars(s: string): string {
    if s == [] then "" else GoQuoteChar(s[0]) + GoQuoteChars(s[1..])
  }

  /** `fmt`'s `%q` verb on a string. */
  function GoQuote(s: string): string {
    "\"" + GoQuoteChars(s) + "\""
  }

  /** A string of characters `%q` copies unchanged (no quote, no backslash, no ASCII
      control character) comes back between double quotes. */
  lemma {:induction false} GoQuotePlain(s: string)
    requires forall i :: 0 <= i < |s| ==> QuotePrintable(s[i])
    ensures GoQuote(s) == "\"" + s + "\""
  {
    PlainQuoteChars(s);
  }

  lemma {:induction false} PlainQuoteChars(s: string)
    requires forall i :: 0 <= i < |s| ==> QuotePrintable(s[i])
    ensures GoQuoteChars(s) == s
  {
    if s != [] {
      PlainQuoteChars(s[1..]);
      assert s == [s[0]] + s[1..];
    }
  }

  function DecimalDigit(n: int): char
    requires 0 <= n < 10
  {
    ('0' as int + n) as char
  }

  /** The number a string of decimal digits stands for, most significant digit first. */
  function DigitsValue(s: string): int
    requires forall i :: 0 <= i < |s| ==> '0' <= s[i] <= '9'
  {
    if s == [] then 0 else DigitsValue(s[..|s| - 1]) * 10 + (s[|s| - 1] as int - '0' as int)
  }

  /** Decimal notation of a natural number, without leading zeros. */
  function NatToString(n: nat): (r: string)
    ensures |r| > 0
    ensures forall i :: 0 <= i < |r| ==> '0' <= r[i] <= '9'
    ensures DigitsValue(r) == n
    ensures n > 0 ==> r[0] != '0'
    decreases n
  {
    if n < 10 then [DecimalDigit(n)]
    else
      var init := NatToString(n / 10);
      var r := init + [DecimalDigit(n % 10)];
      assert r[..|r| - 1] == init;
      r
  }

  /** Decimal notation of an integer, as `fmt` prints Go integers: a minus sign, then the
      digits of the magnitude. */
  function IntToString(n: int): (r: string)
    ensures n < 0 <==> (r != [] && r[0] == '-')
    ensures var m := if n < 0 then 1 else 0;
      && |r| > m && (forall i :: m <= i < |r| ==> '0' <= r[i] <= '9')
      && DigitsValue(r[m..]) == if n < 0 then -n else n
  {
    if n < 0 then "-" + NatToString(-n) else NatToString(n)
  }

  /** Every line followed by a newline. */
  function Unlines(lines: seq<string>): string {
    if lines == [] then "" else lines[0] + "\n" + Unlines(lines[1..])
  }

  /** Go's `<=` on strings: byte-wise on UTF-8, which is code-point order. */
  predicate LexLe(a: string, b: string)
    decreases |a|
  {
    a == [] || (b != [] && (a[0] < b[0] || (a[0] == b[0] && LexLe(a[1..], b[1..]))))
  }

  predicate LexLess(a: string, b: string) {
    LexLe(a, b) && a != b
  }

  lemma {:induction false} LexLeReflexive(a: string)
    ensures LexLe(a, a)
    decreases |a|
  {
    if a != [] { LexLeReflexive(a[1..]); }
  }

  lemma {:induction false} LexLeTransitive(a: string, b: string, c: string)
    requires LexLe(a, b) && LexLe(b, c)
    ensures LexLe(a, c)
    decreases |a|
  {
    if a != [] && a[0] == b[0] && b[0] == c[0] {
      LexLeTransitive(a[1..], b[1..], c[1..]);
    }
  }

  lemma {:induction false} LexLeTotal(a: string, b: string)
    ensures LexLe(a, b) || LexLe(b, a)
    decreases |a|
  {
    if a != [] && b != [] && a[0] == b[0] {
      LexLeTotal(a[1..], b[1..]);
    }
  }

  lemma {:induction false} LexLeAntisymmetric(a: string, b: string)
    requires LexLe(a, b) && LexLe(b, a)
    ensures a == b
    decreases |a|
  {
    if a != [] {
      LexLeAntisymmetric(a[1..], b[1..]);
      assert a == [a[0]] + a[1..] && b == [b[0]] + b[1..];
    }
  }

  lemma LexLeAntisymmetricAll()
    ensures forall a: string, b: string :: LexLe(a, b) && LexLe(b, a) ==> a == b
  {
    forall a: string, b: string | LexLe(a, b) && LexLe(b, a) ensures a == b {
      LexLeAntisymmetric(a, b);
    }
  }

  predicate IsLeast(k: string, ks: set<string>) {
    k in ks && forall o :: o in ks ==> LexLe(k, o)
  }

  lemma {:induction false} LeastExists(ks: set<string>)
    requires ks != {}
    ensures exists k :: IsLeast(k, ks)
    decreases |ks|
  {
    var x :| x in ks;
    if ks != {x} {
      var rest := ks - {x};
      LeastExists(rest);
      var m :| IsLeast(m, rest);
      LexLeTotal(x, m);
      if LexLe(x, m) {
        forall o | o in ks ensures LexLe(x, o) {
          if o != x { LexLeTransitive(x, m, o); } else { LexLeReflexive(x); }
        }
        assert IsLeast(x, ks);
      } else {
        assert IsLeast(m, ks);
      }
    } else {
      LexLeReflexive(x);
      assert IsLeast(x, ks);
    }
  }

  /** The keys of a Go map in the order `text/template` ranges over them: ascending. */
  function SortedKeys(ks: set<string>): (r: seq<string>)
    ensures |r| == |ks|
    ensures forall k :: k in ks <==> k in r
    ensures forall i, j :: 0 <= i < j < |r| ==> LexLess(r[i], r[j])
    decreases |ks|
  {
    if ks == {} then []
    else
      LeastExists(ks);
      LexLeAntisymmetricAll();
      var k :| k in ks && IsLeast(k, ks);
      var rest := SortedKeys(ks - {k});
      SortedCons(k, ks, rest);
      [k] + rest
  }

  /** The least key in front of the sorted others is the sorted whole. */
  lemma SortedCons(k: string, ks: set<string>, rest: seq<string>)
    requires IsLeast(k, ks)
    requires |rest| == |ks - {k}|
    requires forall o :: o in ks - {k} <==> o in rest
    requires forall i, j :: 0 <= i < j < |rest| ==> LexLess(rest[i], rest[j])
    ensures |[k] + rest| == |ks|
    ensures forall o :: o in ks <==> o in [k] + rest
    ensures forall i, j :: 0 <= i < j < |[k] + rest| ==> LexLess(([k] + rest)[i], ([k] + rest)[j])
  {
    var r := [k] + rest;
    forall i, j | 0 <= i < j < |r| ensures LexLess(r[i], r[j]) {
      if i == 0 {
        assert r[j] == rest[j - 1] && rest[j - 1] in rest;
      } else {
        assert r[i] == rest[i - 1] && r[j] == rest[j - 1];
      }
    }
  }
}
