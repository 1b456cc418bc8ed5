/**
 * Decimal rendering and parsing of integers, as Python's `str(int)` and
 * `int(str)` do it. Chunk file names (`chunk_{n}`), layer ids (`layer_{i}`)
 * and default job names are built with `IntToString`; `ParseInt` is the
 * string case of Python's `int()` used by the configuration validators.
 */
module Strings {
  import opened Wrappers

  predicate IsDigit(c: char) {
    '0' <= c <= '9'
  }

  predicate AllDigits(s: string) {
    forall i | 0 <= i < |s| :: IsDigit(s[i])
  }

  function DigitChar(d: nat): char
    requires d < 10
  {
    ('0' as int + d) as char
  }

  function DigitValue(c: char): nat
    requires IsDigit(c)
  {
    c as int - '0' as int
  }

  predicate StartsWith(s: string, prefix: string) {
    |prefix| <= |s| && s[..|prefix|] == prefix
  }

  /** Decimal digits of `n`, most significant first, with no leading zeros. */
  function NatToString(n: nat): (s: string)
    ensures |s| > 0 && AllDigits(s)
  {
    if n < 10 then [DigitChar(n)] else NatToString(n / 10) + [DigitChar(n % 10)]
  }

  function IntToString(i: int): string {
    if i < 0 then "-" + NatToString(-i) else NatToString(i)
  }

  /** The value of a non-empty run of decimal digits (leading zeros allowed, as in Python). */
  function DigitsValue(s: string): nat
    requires AllDigits(s)
  {
    if s == [] then 0 else DigitsValue(s[..|s| - 1]) * 10 + DigitValue(s[|s| - 1])
  }

  /**
   * The characters below U+0100 that Python's `str.isspace` accepts:
   * tab through carriage return, the four separators U+001C..U+001F,
   * space, U+0085 and the no-break space U+00A0.
   */
  predicate IsSpace(c: char) {
    var n := c as int;
    n == 32 || 9 <= n <= 13 || 28 <= n <= 31 || n == 0x85 || n == 0xA0
  }

  /** `s` without its leading white space. */
  function TrimStart(s: string): (r: string)
    ensures r == [] || !IsSpace(r[0])
  {
    if |s| > 0 && IsSpace(s[0]) then TrimStart(s[1..]) else s
  }

  /** `s` without its trailing white space. */
  function TrimEnd(s: string): (r: string)
    ensures r == [] || !IsSpace(r[|r| - 1])
  {
    if |s| > 0 && IsSpace(s[|s| - 1]) then TrimEnd(s[..|s| - 1]) else s
  }

  /** `s.strip()`, which `int()` and `float()` apply before parsing. */
  function Strip(s: string): string {
    TrimEnd(TrimStart(s))
  }

  /** A string that neither starts nor ends with white space is its own `strip()`. */
  lemma StripNoSpace(s: string)
    requires s != [] && !IsSpace(s[0]) && !IsSpace(s[|s| - 1])
    ensures Strip(s) == s
  {
  }

  /**
   * Python's `digitpart`: digits, where single underscores may separate
   * two digits (`1_000`), but none may lead, trail or double.
   */
  predicate DigitPart(t: string) {
    && |t| > 0 && IsDigit(t[0]) && IsDigit(t[|t| - 1])
    && (forall i | 0 <= i < |t| :: IsDigit(t[i]) || t[i] == '_')
    && (forall i | 0 <= i < |t| - 1 :: t[i] == '_' ==> t[i + 1] != '_')
  }

  /** The digits of `t`, its underscores taken out. */
  function DropUnderscores(t: string): (r: string)
    requires forall i | 0 <= i < |t| :: IsDigit(t[i]) || t[i] == '_'
    ensures AllDigits(r) && |r| <= |t|
    ensures AllDigits(t) ==> r == t
  {
    if t == [] then []
    else (if t[0] == '_' then [] else [t[0]]) + DropUnderscores(t[1..])
  }

  /** A digit string is a digit part. */
  lemma DigitsArePart(t: string)
    requires t != [] && AllDigits(t)
    ensures DigitPart(t)
  {
  }

  /** `t`'s sign and the rest: `t[0]` when it is `+` or `-`. */
  function Unsigned(t: string): string {
    if |t| > 0 && (t[0] == '-' || t[0] == '+') then t[1..] else t
  }

  /**
   * `int(s)` for a string, base 10: after `strip()`, an optional sign and a
   * digit part (leading zeros allowed); its value with the underscores
   * taken out. Anything else raises, which is `None` here.
   */
  function ParseInt(s: string): (r: Option<int>)
    ensures r.Some? <==> DigitPart(Unsigned(Strip(s)))
    ensures r.Some? ==> |s| > 0
  {
    var t := Strip(s);
    var body := Unsigned(t);
    if DigitPart(body) then
      var v: int := DigitsValue(DropUnderscores(body));
      Some(if t[0] == '-' then -v else v)
    else None
  }

  lemma {:induction false} DigitsOfNat(n: nat)
    ensures DigitsValue(NatToString(n)) == n
  {
    if n >= 10 {
      var s := NatToString(n);
      assert s[..|s| - 1] == NatToString(n / 10);
      DigitsOfNat(n / 10);
    }
  }

  /** Rendering then parsing gives the number back. */
  lemma ParseIntToString(i: int)
    ensures ParseInt(IntToString(i)) == Some(i)
  {
    var s := IntToString(i);
    var n := NatToString(if i < 0 then -i else i);
    assert IsDigit(n[0]) && IsDigit(n[|n| - 1]);
    assert s[|s| - 1] == n[|n| - 1];
    StripNoSpace(s);
    if i < 0 {
      assert Unsigned(s) == n;
    } else {
      assert Unsigned(s) == n;
    }
    DigitsArePart(n);
    DigitsOfNat(if i < 0 then -i else i);
  }

  /** Distinct numbers have distinct renderings: distinct chunk indices give distinct file names. */
  lemma IntToStringInjective(a: int, b: int)
    ensures IntToString(a) == IntToString(b) ==> a == b
  {
    ParseIntToString(a);
    ParseIntToString(b);
  }

  /** `prefix + IntToString(n)`, the shape of every generated name. */
  function Numbered(prefix: string, n: int): string {
    prefix + IntToString(n)
  }

  lemma NumberedInjective(prefix: string, a: int, b: int)
    ensures Numbered(prefix, a) == Numbered(prefix, b) ==> a == b
  {
    if Numbered(prefix, a) == Numbered(prefix, b) {
      assert Numbered(prefix, a)[|prefix|..] == IntToString(a);
      assert Numbered(prefix, b)[|prefix|..] == IntToString(b);
      IntToStringInjective(a, b);
    }
  }

  lemma NumberedStartsWith(prefix: string, n: int)
    ensures StartsWith(Numbered(prefix, n), prefix)
  {
    assert Numbered(prefix, n)[..|prefix|] == prefix;
  }

  /** ASCII upper-case letters lowered, as the case-insensitive `inf`/`nan` match does. */
  function AsciiLower(s: string): (r: string)
    ensures |r| == |s|
  {
    seq(|s|, i requires 0 <= i < |s| => if 'A' <= s[i] <= 'Z' then (s[i] as int + 32) as char else s[i])
  }

  /** A digit part, or nothing. */
  predicate OptDigitPart(t: string) {
    t == [] || DigitPart(t)
  }

  /** Python's mantissa: `digitpart`, `digitpart.`, `digitpart.digitpart` or `.digitpart`. */
  predicate Mantissa(m: string) {
    || DigitPart(m)
    || exists k | 0 <= k < |m| ::
         m[k] == '.' && OptDigitPart(m[..k]) && OptDigitPart(m[k + 1..]) && (m[..k] != [] || m[k + 1..] != [])
  }

  /** Python's exponent: `e` or `E`, an optional sign, a digit part; or no exponent at all. */
  predicate Exponent(x: string) {
    x == [] || (|x| > 1 && (x[0] == 'e' || x[0] == 'E') && DigitPart(Unsigned(x[1..])))
  }

  /**
   * A string that Python's `float()` accepts: after `strip()`, an optional
   * sign and then `inf`, `infinity` or `nan` in any case, or a mantissa
   * followed by an optional exponent.
   */
  predicate IsFloatLiteral(s: string) {
    var body := Unsigned(Strip(s));
    NonFinite(body) || Numeral(body)
  }

  /** `inf`, `infinity` or `nan`, in any case. */
  predicate NonFinite(body: string) {
    var lower := AsciiLower(body);
    lower == "inf" || lower == "infinity" || lower == "nan"
  }

  /** A mantissa followed by an optional exponent. */
  predicate Numeral(body: string) {
    exists k | 0 <= k <= |body| :: Mantissa(body[..k]) && Exponent(body[k..])
  }

  /** Integer literals Python reads that a plain digit grammar would refuse. */
  lemma IntLiterals()
    ensures ParseInt(" 5\n") == Some(5) && ParseInt("1_0") == Some(10) && ParseInt("-0_7") == Some(-7)
  {
    SpacedFive();
    UnderscoredTen();
    SignedSeven();
  }

  /** `int("1_0")` is 10. */
  lemma UnderscoredTen()
    ensures ParseInt("1_0") == Some(10)
  {
    UnderscoredValue('1', '0');
    StripNoSpace("1_0");
    assert Unsigned("1_0") == "1_0";
  }

  /** `int("-0_7")` is -7. */
  lemma SignedSeven()
    ensures ParseInt("-0_7") == Some(-7)
  {
    UnderscoredValue('0', '7');
    StripNoSpace("-0_7");
    assert Unsigned("-0_7") == "0_7";
  }

  /** `int(" 5\n")` is 5. */
  lemma SpacedFive()
    ensures ParseInt(" 5\n") == Some(5)
  {
    var a := " 5\n";
    assert a[1..] == "5\n" && IsSpace(a[0]) && !IsSpace('5');
    assert TrimStart(a) == "5\n";
    assert "5\n"[..1] == "5" && IsSpace('\n');
    assert TrimEnd("5\n") == "5";
    assert Unsigned("5") == "5";
    assert DigitPart("5");
    assert DropUnderscores("5") == "5";
    assert DigitsValue("5") == 5 by {
      assert "5"[..0] == [];
    }
  }

  /** A two-digit literal with an underscore between its digits. */
  lemma UnderscoredValue(c: char, d: char)
    requires IsDigit(c) && IsDigit(d)
    ensures DigitPart([c, '_', d])
    ensures DigitsValue(DropUnderscores([c, '_', d])) == DigitValue(c) * 10 + DigitValue(d)
  {
    var t := [c, '_', d];
    assert t[1..] == ['_', d] && t[1..][1..] == [d];
    assert DropUnderscores([d]) == [d];
    assert DropUnderscores(t) == [c, d];
    assert [c, d][..1] == [c];
    assert DigitsValue([c]) == DigitValue(c) by {
      assert [c][..0] == [];
    }
  }

  /** Misplaced underscores and a detached sign are refused. */
  lemma IntRefusals()
    ensures ParseInt("1__0").None? && ParseInt("_1").None? && ParseInt("- 1").None?
  {
    var a := "1__0";
    StripNoSpace(a);
    assert Unsigned(a) == a;
    assert a[1] == '_' && a[2] == '_';
    StripNoSpace("_1");
    assert Unsigned("_1") == "_1";
    StripNoSpace("- 1");
    assert Unsigned("- 1") == " 1";
  }

  /** A float literal with an exponent. */
  lemma ExponentLiteral()
    ensures IsFloatLiteral("1e3")
  {
    var a := "1e3";
    StripNoSpace(a);
    assert a[..1] == "1" && a[1..] == "e3" && "e3"[1..] == "3";
    assert DigitPart("1") && DigitPart("3");
    assert Mantissa(a[..1]) && Exponent(a[1..]);
    assert Numeral(a);
  }

  /** A float literal with surrounding space and a fraction. */
  lemma SpacedLiteral()
    ensures IsFloatLiteral(" 2.5")
  {
    var b := " 2.5";
    assert b[1..] == "2.5" && IsSpace(b[0]);
    assert TrimStart(b) == "2.5";
    StripNoSpace("2.5");
    var m := "2.5";
    assert m[..1] == "2" && m[2..] == "5" && m[1] == '.';
    assert DigitPart("2") && DigitPart("5");
    assert Mantissa(m);
    assert m[..3] == m && m[3..] == [];
    assert Numeral(m);
  }

  /** A signed infinity, in mixed case. */
  lemma InfinityLiteral()
    ensures IsFloatLiteral("-Inf")
  {
    StripNoSpace("-Inf");
    assert Unsigned("-Inf") == "Inf";
    assert AsciiLower("Inf") == "inf";
  }

  /** A float literal with no integer part. */
  lemma FractionLiteral()
    ensures IsFloatLiteral(".5")
  {
    var c := ".5";
    StripNoSpace(c);
    assert c[..0] == [] && c[1..] == "5" && c[0] == '.';
    assert DigitPart("5");
    assert Mantissa(c);
    assert c[..2] == c && c[2..] == [];
    assert Numeral(c);
  }

  /** An exponent needs digits, and a point alone is no number. */
  lemma FloatRefusals()
    ensures !IsFloatLiteral("1e") && !IsFloatLiteral(".")
  {
    assert AsciiLower("1e") == "1e";
    forall k | 0 <= k <= 2 ensures !(Mantissa("1e"[..k]) && Exponent("1e"[k..])) {
      if k == 0 {
        assert "1e"[..k] == [];
      } else if k == 1 {
        assert "1e"[k..] == "e";
      } else {
        assert "1e"[..k] == "1e";
      }
    }
    assert AsciiLower(".") == ".";
    forall k | 0 <= k <= 1 ensures !(Mantissa("."[..k]) && Exponent("."[k..])) {
      if k == 1 {
        assert "."[..k] == ".";
        assert "."[..0] == [] && "."[1..] == [];
      } else {
        assert "."[..k] == [];
      }
    }
  }
}
