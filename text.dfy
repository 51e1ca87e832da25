/** String arithmetic the handlers rely on: decimal rendering and parsing of
    integers (`toString`, `parseInt`), `padStart`, `split(sep).pop()`,
    `substring(0, n)`, ASCII `toUpperCase`, the 24-hex ObjectId syntax and
    the byte-wise order MongoDB uses to sort strings. */
module Text {
  import opened Wrappers

  predicate IsDigit(c: char) { '0' <= c <= '9' }

  predicate AllDigits(s: string) { forall i :: 0 <= i < |s| ==> IsDigit(s[i]) }

  function DigitChar(d: nat): (c: char)
    requires d < 10
    ensures IsDigit(c)
  {
    ('0' as int + d) as char
  }

  function DigitValue(c: char): (d: nat)
    requires IsDigit(c)
    ensures d < 10
  {
    c as int - '0' as int
  }

  function Pow10(k: nat): (p: nat)
    ensures p >= 1
  {
    if k == 0 then 1 else 10 * Pow10(k - 1)
  }

  /** The value of a string of decimal digits, most significant first. */
  function DigitsValue(s: string): nat
    requires AllDigits(s)
  {
    if s == [] then 0 else DigitValue(s[0]) * Pow10(|s| - 1) + DigitsValue(s[1..])
  }

  /** `String(n)` for a non-negative integer: no leading zeros. */
  function NatToString(n: nat): (s: string)
    ensures |s| >= 1 && AllDigits(s)
    ensures |s| > 1 ==> s[0] != '0'
  {
    if n < 10 then [DigitChar(n)] else NatToString(n / 10) + [DigitChar(n % 10)]
  }

  /** `String(i)` for any integer. */
  function IntToString(i: int): string
  {
    if i < 0 then "-" + NatToString(-i) else NatToString(i)
  }

  function Repeat(c: char, n: nat): (r: string)
    ensures |r| == n && forall i :: 0 <= i < n ==> r[i] == c
  {
    if n == 0 then [] else [c] + Repeat(c, n - 1)
  }

  /** `s.padStart(width, c)`: pads on the left up to `width`, never truncates. */
  function PadStart(s: string, width: nat, c: char): (r: string)
    ensures |r| == if |s| >= width then |s| else width
    ensures r == Repeat(c, |r| - |s|) + s
  {
    if |s| >= width then s else Repeat(c, width - |s|) + s
  }

  /** `padStart(6, "0")`, the sequence padding of every generated identifier. */
  function Pad6(s: string): string
  {
    PadStart(s, 6, '0')
  }

  /** The longest prefix of `s` made of digits. */
  function LeadingDigits(s: string): (r: string)
    ensures AllDigits(r) && |r| <= |s| && r == s[..|r|]
    ensures |r| < |s| ==> !IsDigit(s[|r|])
  {
    if s == [] || !IsDigit(s[0]) then [] else [s[0]] + LeadingDigits(s[1..])
  }

  /** The white space `parseInt` skips: the ECMAScript white-space and
      line-terminator characters. */
  predicate IsJsSpace(c: char)
  {
    c == '\t' || c == '\n' || c == '\U{000B}' || c == '\U{000C}' || c == '\r' || c == ' '
    || c == '\U{00A0}' || c == '\U{1680}' || ('\U{2000}' <= c <= '\U{200A}')
    || c == '\U{2028}' || c == '\U{2029}' || c == '\U{202F}' || c == '\U{205F}'
    || c == '\U{3000}' || c == '\U{FEFF}'
  }

  /** `s` without its leading white space. */
  function TrimStart(s: string): (r: string)
    ensures |r| <= |s| && r == s[|s| - |r|..]
    ensures r != [] ==> !IsJsSpace(r[0])
  {
    if s == [] || !IsJsSpace(s[0]) then s else TrimStart(s[1..])
  }

  /** The value of a hexadecimal digit (0 for any other character). */
  function HexValue(c: char): (d: nat)
    ensures d < 16
  {
    if '0' <= c <= '9' then c as int - '0' as int
    else if 'a' <= c <= 'f' then c as int - 'a' as int + 10
    else if 'A' <= c <= 'F' then c as int - 'A' as int + 10
    else 0
  }

  /** The longest prefix of `s` made of hexadecimal digits. */
  function LeadingHex(s: string): (r: string)
    ensures |r| <= |s| && r == s[..|r|]
    ensures |r| < |s| ==> !IsHexChar(s[|r|])
  {
    if s == [] || !IsHexChar(s[0]) then [] else [s[0]] + LeadingHex(s[1..])
  }

  /** The value of a string of hexadecimal digits, least significant last. */
  function HexDigitsValue(s: string): nat
  {
    if s == [] then 0 else 16 * HexDigitsValue(s[..|s| - 1]) + HexValue(s[|s| - 1])
  }

  /** Whether `s` opens with the `0x` or `0X` prefix. */
  predicate HexPrefixed(s: string)
  {
    |s| >= 2 && s[0] == '0' && (s[1] == 'x' || s[1] == 'X')
  }

  /** The digits `parseInt` reads after the sign, with their value: base 16
      after a `0x` prefix, base 10 otherwise. */
  function Magnitude(body: string): Option<nat>
  {
    if HexPrefixed(body) then
      var h := LeadingHex(body[2..]);
      if h == [] then None else Some(HexDigitsValue(h))
    else
      var digits := LeadingDigits(body);
      if digits == [] then None else Some(DigitsValue(digits))
  }

  /** `parseInt(s)` without a radix: leading white space is skipped, then an
      optional sign, then a `0x`/`0X` prefix selects base 16, and the longest
      run of digits of the base is read; `None` stands for NaN. */
  function ParseInt(s: string): Option<int>
  {
    ParseSigned(TrimStart(s))
  }

  /** `parseInt` after the white space: an optional sign, then the digits. */
  function ParseSigned(t: string): Option<int>
  {
    if t == [] then None
    else if t[0] == '-' then Negated(Magnitude(t[1..]))
    else if t[0] == '+' then Widened(Magnitude(t[1..]))
    else Widened(Magnitude(t))
  }

  function Widened(m: Option<nat>): Option<int>
  {
    if m.Some? then Some(m.value) else None
  }

  function Negated(m: Option<nat>): Option<int>
  {
    if m.Some? then Some(-(m.value as int)) else None
  }

  /** `s.split(sep).pop()`: the text after the last `sep`, or all of `s`. */
  function LastSegment(s: string, sep: char): (r: string)
    ensures sep !in r && |r| <= |s| && r == s[|s| - |r|..]
    ensures |r| < |s| ==> s[|s| - |r| - 1] == sep
  {
    if s == [] || s[|s| - 1] == sep then []
    else LastSegment(s[..|s| - 1], sep) + [s[|s| - 1]]
  }

  /** `s.substring(0, n)`. */
  function Take(s: string, n: nat): (r: string)
    ensures |r| == if |s| < n then |s| else n
    ensures r == s[..|r|]
  {
    if |s| <= n then s else s[..n]
  }

  function UpperChar(c: char): char
  {
    if 'a' <= c <= 'z' then (c as int - 32) as char else c
  }

  /** `toUpperCase()` on the ASCII letters; other characters are kept. */
  function ToUpper(s: string): (r: string)
    ensures |r| == |s| && forall i :: 0 <= i < |s| ==> r[i] == UpperChar(s[i])
  {
    if s == [] then [] else [UpperChar(s[0])] + ToUpper(s[1..])
  }

  predicate StartsWith(s: string, prefix: string)
  {
    |prefix| <= |s| && s[..|prefix|] == prefix
  }

  predicate IsHexChar(c: char) { '0' <= c <= '9' || 'a' <= c <= 'f' || 'A' <= c <= 'F' }

  predicate IsLowerHexChar(c: char) { '0' <= c <= '9' || 'a' <= c <= 'f' }

  /** The `/^[0-9a-fA-F]{24}$/` test the routes apply before `findById`. */
  predicate IsHex24(s: string)
  {
    |s| == 24 && forall i :: 0 <= i < |s| ==> IsHexChar(s[i])
  }

  predicate IsObjectIdText(s: string)
  {
    |s| == 24 && forall i :: 0 <= i < |s| ==> IsLowerHexChar(s[i])
  }

  function LowerChar(c: char): char
  {
    if 'A' <= c <= 'Z' then (c as int + 32) as char else c
  }

  /** The canonical (lower-case) spelling of a hexadecimal string, as an ObjectId
      cast produces it. */
  function LowerHex(s: string): (r: string)
    ensures |r| == |s| && forall i :: 0 <= i < |s| ==> r[i] == LowerChar(s[i])
  {
    if s == [] then [] else [LowerChar(s[0])] + LowerHex(s[1..])
  }

  /** The maximal run of digits at the end of `s`. */
  function TrailingDigits(s: string): (r: string)
    ensures AllDigits(r) && |r| <= |s| && r == s[|s| - |r|..]
    ensures |r| < |s| ==> !IsDigit(s[|s| - |r| - 1])
  {
    if s == [] || !IsDigit(s[|s| - 1]) then [] else TrailingDigits(s[..|s| - 1]) + [s[|s| - 1]]
  }

  /** `s.match(/-(\d+)$/)`: the captured digit group, if any. */
  function DashDigitsSuffix(s: string): (r: Option<string>)
    ensures r.Some? ==> |r.value| > 0 && AllDigits(r.value)
  {
    var t := TrailingDigits(s);
    if |t| > 0 && |t| < |s| && s[|s| - |t| - 1] == '-' then Some(t) else None
  }

  /** The order MongoDB sorts strings by (code point order, which is UTF-8
      byte order). */
  predicate LexLess(a: string, b: string)
  {
    if a == [] then b != []
    else if b == [] then false
    else if a[0] == b[0] then LexLess(a[1..], b[1..])
    else a[0] < b[0]
  }

  // ---------------------------------------------------------------------
  // Lemmas
  // ---------------------------------------------------------------------

  lemma {:induction false} DigitsValueBound(s: string)
    requires AllDigits(s)
    ensures DigitsValue(s) < Pow10(|s|)
  {
    if s != [] {
      DigitsValueBound(s[1..]);
      var d := DigitValue(s[0]);
      var p := Pow10(|s| - 1);
      assert d * p + DigitsValue(s[1..]) < d * p + p;
      assert d * p + p == (d + 1) * p;
      assert (d + 1) * p <= 10 * p by { assert d + 1 <= 10; }
    }
  }

  lemma {:induction false} DigitsValueSnoc(s: string, c: char)
    requires AllDigits(s) && IsDigit(c)
    ensures AllDigits(s + [c])
    ensures DigitsValue(s + [c]) == DigitsValue(s) * 10 + DigitValue(c)
  {
    if s != [] {
      var t := s + [c];
      assert t[0] == s[0] && t[1..] == s[1..] + [c];
      DigitsValueSnoc(s[1..], c);
      var d := DigitValue(s[0]);
      var p := Pow10(|s| - 1);
      assert Pow10(|t| - 1) == 10 * p;
      assert DigitsValue(t) == d * (10 * p) + (DigitsValue(s[1..]) * 10 + DigitValue(c));
      ShiftDigit(d, p, DigitsValue(s[1..]), DigitValue(c));
    }
  }

  lemma ShiftDigit(d: int, p: int, v: int, c: int)
    ensures d * (10 * p) + (v * 10 + c) == (d * p + v) * 10 + c
  {
  }

  /** Reading back the decimal rendering of `n` gives `n`. */
  lemma {:induction false} NatToStringRoundTrip(n: nat)
    ensures DigitsValue(NatToString(n)) == n
  {
    if n >= 10 {
      NatToStringRoundTrip(n / 10);
      DigitsValueSnoc(NatToString(n / 10), DigitChar(n % 10));
    }
  }

  /** Zeros on the left do not change the value of a digit string. */
  lemma {:induction false} LeadingZerosValue(z: nat, s: string)
    requires AllDigits(s)
    ensures AllDigits(Repeat('0', z) + s)
    ensures DigitsValue(Repeat('0', z) + s) == DigitsValue(s)
  {
    if z > 0 {
      var t := Repeat('0', z) + s;
      assert t[0] == '0';
      assert t[1..] == Repeat('0', z - 1) + s;
      LeadingZerosValue(z - 1, s);
      assert AllDigits(t) by {
        forall i | 0 <= i < |t| ensures IsDigit(t[i]) {
          if i > 0 { assert t[i] == t[1..][i - 1]; }
        }
      }
      assert DigitValue(t[0]) == 0;
      assert DigitsValue(t) == 0 * Pow10(|t| - 1) + DigitsValue(t[1..]);
    } else {
      assert Repeat('0', z) + s == s;
    }
  }

  lemma {:induction false} LeadingDigitsOfDigits(s: string)
    requires AllDigits(s)
    ensures LeadingDigits(s) == s
  {
    if s != [] {
      LeadingDigitsOfDigits(s[1..]);
    }
  }

  /** `parseInt` of a non-empty run of decimal digits is their value: no
      white space is skipped and no `0x` prefix is seen. */
  lemma ParseDigitRun(d: string)
    requires AllDigits(d) && d != []
    ensures ParseInt(d) == Some(DigitsValue(d))
  {
    assert !IsJsSpace(d[0]) by { assert IsDigit(d[0]); }
    assert TrimStart(d) == d;
    assert d[0] != '+' && d[0] != '-' by { assert IsDigit(d[0]); }
    assert !HexPrefixed(d) by {
      if |d| >= 2 { assert IsDigit(d[1]); }
    }
    LeadingDigitsOfDigits(d);
    assert Magnitude(d) == Some(DigitsValue(d));
  }

  /** `parseInt` without a radix reads a `0x` prefix as base 16. */
  lemma ParseIntReadsHex()
    ensures ParseInt("0x10") == Some(16)
  {
    var s := "0x10";
    assert !IsJsSpace(s[0]);
    assert TrimStart(s) == s;
    assert HexPrefixed(s) && s[2..] == "10";
    assert LeadingHex("10") == "10";
    assert HexDigitsValue("10") == 16 * HexDigitsValue("1") + 0;
  }

  /** `parseInt` skips leading white space. */
  lemma ParseIntSkipsSpace(d: string)
    requires AllDigits(d) && d != []
    ensures ParseInt(" " + d) == Some(DigitsValue(d))
  {
    assert " " + d == [' '] + d;
    TrimSpaceFirst(' ', d);
    ParseDigitRun(d);
  }

  lemma TrimSpaceFirst(c: char, t: string)
    requires IsJsSpace(c)
    ensures TrimStart([c] + t) == TrimStart(t)
  {
    assert ([c] + t)[1..] == t;
  }

  /** `parseInt` stops at the first character that is no digit. */
  lemma ParseIntStopsAtNonDigit()
    ensures ParseInt("-12ab") == Some(-12)
  {
    var s := "-12ab";
    assert !IsJsSpace(s[0]);
    assert TrimStart(s) == s;
    assert s[1..] == "12ab";
    assert !HexPrefixed("12ab");
    assert LeadingDigits("12ab") == "12";
    assert DigitsValue("12") == 1 * 10 + DigitsValue("2");
  }

  /** `parseInt` gives NaN when no digit comes first. */
  lemma ParseIntWithoutDigits()
    ensures ParseInt("x7") == None
  {
    var s := "x7";
    assert !IsJsSpace(s[0]);
    assert TrimStart(s) == s;
    assert !HexPrefixed(s);
    assert LeadingDigits(s) == [];
  }

  /** `parseInt` reads a zero-padded rendering of `n` back as `n`. */
  lemma ParsePadded(n: nat)
    ensures AllDigits(Pad6(NatToString(n)))
    ensures ParseInt(Pad6(NatToString(n))) == Some(n)
  {
    PaddedValue(n);
    ParseDigitRun(Pad6(NatToString(n)));
  }

  /** The zero-padded rendering of `n` is a digit run worth `n`. */
  lemma PaddedValue(n: nat)
    ensures AllDigits(Pad6(NatToString(n)))
    ensures DigitsValue(Pad6(NatToString(n))) == n
  {
    var s := NatToString(n);
    var p := Pad6(s);
    LeadingZerosValue(|p| - |s|, s);
    NatToStringRoundTrip(n);
  }

  /** The text after the last separator of `a + sep + b` is `b` when `b` has
      no separator. */
  lemma {:induction false} LastSegmentOfJoin(a: string, sep: char, b: string)
    requires sep !in b
    ensures LastSegment(a + [sep] + b, sep) == b
  {
    var s := a + [sep] + b;
    if b == [] {
    } else {
      assert s[..|s| - 1] == a + [sep] + b[..|b| - 1];
      LastSegmentOfJoin(a, sep, b[..|b| - 1]);
      assert b == b[..|b| - 1] + [b[|b| - 1]];
    }
  }

  /** The rendering of `n` has exactly as many digits as `n` needs. */
  lemma NatToStringLength(n: nat)
    ensures n < Pow10(|NatToString(n)|)
    ensures |NatToString(n)| > 1 ==> Pow10(|NatToString(n)| - 1) <= n
  {
    var s := NatToString(n);
    NatToStringRoundTrip(n);
    DigitsValueBound(s);
    if |s| > 1 {
      assert DigitValue(s[0]) >= 1;
      assert DigitsValue(s) >= DigitValue(s[0]) * Pow10(|s| - 1);
    }
  }

  /** `LexLess` ignores a common prefix. */
  lemma {:induction false} LexLessCommonPrefix(p: string, a: string, b: string)
    ensures LexLess(p + a, p + b) == LexLess(a, b)
  {
    if p != [] {
      var x, y := p + a, p + b;
      assert x != [] && y != [] && x[0] == y[0];
      assert LexLess(x, y) == LexLess(x[1..], y[1..]);
      assert x[1..] == p[1..] + a;
      assert y[1..] == p[1..] + b;
      LexLessCommonPrefix(p[1..], a, b);
    } else {
      assert p + a == a && p + b == b;
    }
  }

  /** A smaller leading digit outweighs whatever follows it. */
  lemma HeadDominates(x: nat, y: nat, p: nat, u: nat, v: nat)
    requires x < y && u < p
    ensures x * p + u < y * p + v
  {
    assert (x + 1) * p <= y * p by {
      assert y * p == (x + 1) * p + (y - x - 1) * p;
    }
  }

  /** On digit strings of one length the string order is the numeric order. */
  lemma {:induction false} LexLessDigits(a: string, b: string)
    requires AllDigits(a) && AllDigits(b) && |a| == |b|
    ensures LexLess(a, b) <==> DigitsValue(a) < DigitsValue(b)
  {
    if a != [] {
      var p := Pow10(|a| - 1);
      var u, v := DigitsValue(a[1..]), DigitsValue(b[1..]);
      assert DigitsValue(a) == DigitValue(a[0]) * p + u;
      assert DigitsValue(b) == DigitValue(b[0]) * p + v;
      DigitsValueBound(a[1..]);
      DigitsValueBound(b[1..]);
      if a[0] == b[0] {
        LexLessDigits(a[1..], b[1..]);
      } else if a[0] < b[0] {
        HeadDominates(DigitValue(a[0]), DigitValue(b[0]), p, u, v);
      } else {
        HeadDominates(DigitValue(b[0]), DigitValue(a[0]), p, v, u);
      }
    }
  }

  lemma {:induction false} LexLessIrreflexive(a: string)
    ensures !LexLess(a, a)
  {
    if a != [] {
      LexLessIrreflexive(a[1..]);
    }
  }

  lemma {:induction false} LexLessTotal(a: string, b: string)
    ensures a == b || LexLess(a, b) || LexLess(b, a)
  {
    if a != [] && b != [] && a[0] == b[0] {
      LexLessTotal(a[1..], b[1..]);
      if a[1..] == b[1..] {
        assert a == [a[0]] + a[1..] && b == [b[0]] + b[1..];
      }
    }
  }

  lemma {:induction false} LexLessTransitive(a: string, b: string, c: string)
    requires LexLess(a, b) && LexLess(b, c)
    ensures LexLess(a, c)
  {
    if a != [] && b != [] && c != [] && a[0] == b[0] && b[0] == c[0] {
      LexLessTransitive(a[1..], b[1..], c[1..]);
    }
  }
}
