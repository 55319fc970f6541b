/**
 * The JavaScript string built-ins the portfolio and the market table call:
 * `String.prototype.trim`, `toLowerCase`, `includes` and the global `parseFloat`.
 * Strings are sequences of characters; case mapping covers the ASCII letters only.
 */
module JsText {
  import opened Wrappers

  // ---------------------------------------------------------------------------
  // White space, as ECMAScript's WhiteSpace and LineTerminator productions list it
  // (trim and parseFloat both strip exactly this set).
  // ---------------------------------------------------------------------------

  predicate IsJsWhitespace(c: char)
  {
    || c == '\t' || c == '\n' || c == '\U{B}' || c == '\U{C}' || c == '\r' || c == ' '
    || c == '\U{A0}' || c == '\U{1680}' || ('\U{2000}' <= c <= '\U{200A}')
    || c == '\U{2028}' || c == '\U{2029}' || c == '\U{202F}' || c == '\U{205F}'
    || c == '\U{3000}' || c == '\U{FEFF}'
  }

  /** The text with its leading white space removed. */
  function TrimStart(s: string): (r: string)
    ensures |r| <= |s| && r == s[|s| - |r|..]
    ensures forall i :: 0 <= i < |s| - |r| ==> IsJsWhitespace(s[i])
    ensures r == [] || !IsJsWhitespace(r[0])
  {
    if |s| > 0 && IsJsWhitespace(s[0]) then TrimStart(s[1..]) else s
  }

  /** The text with its trailing white space removed. */
  function TrimEnd(s: string): (r: string)
    ensures |r| <= |s| && r == s[..|r|]
    ensures forall i :: |r| <= i < |s| ==> IsJsWhitespace(s[i])
    ensures r == [] || !IsJsWhitespace(r[|r| - 1])
  {
    if |s| > 0 && IsJsWhitespace(s[|s| - 1]) then TrimEnd(s[..|s| - 1]) else s
  }

  /** `s.trim()`. */
  function Trim(s: string): string
  {
    TrimEnd(TrimStart(s))
  }

  /** `s.trim() === ''` holds exactly when every code unit of `s` is white space. */
  lemma TrimEmptyIff(s: string)
    ensures Trim(s) == [] <==> forall i :: 0 <= i < |s| ==> IsJsWhitespace(s[i])
  {
    var t := TrimStart(s);
    assert t == s[|s| - |t|..];
    assert |t| > 0 ==> t[0] == s[|s| - |t|];
  }

  // ---------------------------------------------------------------------------
  // toLowerCase
  // ---------------------------------------------------------------------------

  function LowerChar(c: char): (r: char)
    ensures 'A' <= c <= 'Z' ==> r as int == c as int + 32
    ensures !('A' <= c <= 'Z') ==> r == c
    ensures !('A' <= r <= 'Z')
  {
    if 'A' <= c <= 'Z' then (c as int + 32) as char else c
  }

  /** `s.toLowerCase()`, restricted to the ASCII letters. */
  function ToLower(s: string): (r: string)
    ensures |r| == |s|
    ensures forall i :: 0 <= i < |s| ==> r[i] == LowerChar(s[i])
  {
    if s == [] then [] else [LowerChar(s[0])] + ToLower(s[1..])
  }

  /** Lower-casing twice is lower-casing once. */
  lemma ToLowerIdempotent(s: string)
    ensures ToLower(ToLower(s)) == ToLower(s)
  {
    var once := ToLower(s);
    assert forall i :: 0 <= i < |once| ==> ToLower(once)[i] == once[i];
  }

  // ---------------------------------------------------------------------------
  // includes
  // ---------------------------------------------------------------------------

  /** `needle` occurs in `hay` starting at index `i`. */
  ghost predicate OccursAt(hay: string, needle: string, i: int)
  {
    0 <= i && i + |needle| <= |hay| && hay[i..i + |needle|] == needle
  }

  /** `hay.includes(needle)`: a scan over the start positions of `hay`. */
  function Includes(hay: string, needle: string): bool
    decreases |hay|
  {
    if |needle| > |hay| then false
    else if hay[..|needle|] == needle then true
    else Includes(hay[1..], needle)
  }

  /** The scan finds `needle` exactly when it occurs somewhere in `hay`. */
  lemma {:induction false} IncludesIff(hay: string, needle: string)
    ensures Includes(hay, needle) <==> exists i :: OccursAt(hay, needle, i)
    decreases |hay|
  {
    if |needle| > |hay| {
    } else if hay[..|needle|] == needle {
      assert OccursAt(hay, needle, 0);
    } else {
      IncludesIff(hay[1..], needle);
      forall i | OccursAt(hay, needle, i) ensures OccursAt(hay[1..], needle, i - 1) {
        assert i != 0;
        assert hay[1..][i - 1..i - 1 + |needle|] == hay[i..i + |needle|];
      }
      forall j | OccursAt(hay[1..], needle, j) ensures OccursAt(hay, needle, j + 1) {
        assert hay[1..][j..j + |needle|] == hay[j + 1..j + 1 + |needle|];
      }
    }
  }

  /** A needle that starts with white space is never found in a text without any. */
  lemma PaddedNeedleNotIncluded(hay: string, needle: string)
    requires |needle| > 0 && IsJsWhitespace(needle[0])
    requires forall i :: 0 <= i < |hay| ==> !IsJsWhitespace(hay[i])
    ensures !Includes(ToLower(hay), ToLower(needle))
  {
    var h, n := ToLower(hay), ToLower(needle);
    IncludesIff(h, n);
    forall i | 0 <= i ensures !OccursAt(h, n, i) {
      if i + |n| <= |h| {
        assert h[i..i + |n|][0] == h[i];
        assert n[0] == needle[0];
      }
    }
  }

  // ---------------------------------------------------------------------------
  // parseFloat
  // ---------------------------------------------------------------------------

  predicate IsDigit(c: char)
  {
    '0' <= c <= '9'
  }

  function DigitValue(c: char): nat
    requires IsDigit(c)
  {
    c as int - '0' as int
  }

  function DigitChar(d: nat): (c: char)
    requires d < 10
    ensures IsDigit(c) && DigitValue(c) == d
  {
    ('0' as int + d) as char
  }

  /** The longest prefix of `s` made of decimal digits. */
  function LeadingDigits(s: string): (r: string)
    ensures |r| <= |s| && r == s[..|r|]
    ensures forall i :: 0 <= i < |r| ==> IsDigit(r[i])
    ensures |r| == |s| || !IsDigit(s[|r|])
  {
    if |s| > 0 && IsDigit(s[0]) then [s[0]] + LeadingDigits(s[1..]) else []
  }

  /** The number a string of decimal digits denotes. */
  function DigitsValue(ds: string): nat
    requires forall i :: 0 <= i < |ds| ==> IsDigit(ds[i])
  {
    if ds == [] then 0 else 10 * DigitsValue(ds[..|ds| - 1]) + DigitValue(ds[|ds| - 1])
  }

  function Pow10(n: nat): (r: nat)
    ensures r >= 1
  {
    if n == 0 then 1 else 10 * Pow10(n - 1)
  }

  function Scale10(e: int): (r: real)
    ensures r > 0.0
  {
    if e >= 0 then Pow10(e) as real else 1.0 / (Pow10(-e) as real)
  }

  /**
   * The exponent of an optional `e`/`E` suffix; 0 when the text after the
   * mantissa does not start with a complete exponent (`"1e"` and `"1e+"` parse as 1).
   */
  function ExponentPart(s: string): int
  {
    if |s| == 0 || (s[0] != 'e' && s[0] != 'E') then 0
    else
      var signed := |s| > 1 && (s[1] == '+' || s[1] == '-');
      var body := if signed then s[2..] else s[1..];
      var ds := LeadingDigits(body);
      if ds == [] then 0
      else if signed && s[1] == '-' then -(DigitsValue(ds) as int) else DigitsValue(ds)
  }

  /** The pieces of a decimal literal: integer digits, fraction digits, and the text after them. */
  datatype Literal = Literal(intDigits: string, fracDigits: string, after: string)

  /** Splits `u` into its leading digits, the digits after an optional dot, and the rest. */
  function SplitLiteral(u: string): (l: Literal)
    ensures forall i :: 0 <= i < |l.intDigits| ==> IsDigit(l.intDigits[i])
    ensures forall i :: 0 <= i < |l.fracDigits| ==> IsDigit(l.fracDigits[i])
  {
    var intDigits := LeadingDigits(u);
    var rest := u[|intDigits|..];
    if |rest| > 0 && rest[0] == '.' then
      var fracDigits := LeadingDigits(rest[1..]);
      Literal(intDigits, fracDigits, rest[1 + |fracDigits|..])
    else
      Literal(intDigits, [], rest)
  }

  /**
   * An unsigned decimal literal at the start of `u`:  digits [. digits] [(e|E) [+-] digits]
   * with at least one mantissa digit; what follows it is ignored. `None` when no digit starts it.
   */
  function ParseUnsigned(u: string): Option<real>
  {
    var l := SplitLiteral(u);
    if l.intDigits == [] && l.fracDigits == [] then None else Some(LiteralValue(l))
  }

  /** The number a split literal denotes: its mantissa scaled by its exponent. */
  function LiteralValue(l: Literal): real
    requires forall i :: 0 <= i < |l.intDigits| ==> IsDigit(l.intDigits[i])
    requires forall i :: 0 <= i < |l.fracDigits| ==> IsDigit(l.fracDigits[i])
  {
    Mantissa(l.intDigits, l.fracDigits) * Scale10(ExponentPart(l.after))
  }

  /** The value of the digits `intDigits.fracDigits`. */
  function Mantissa(intDigits: string, fracDigits: string): real
    requires forall i :: 0 <= i < |intDigits| ==> IsDigit(intDigits[i])
    requires forall i :: 0 <= i < |fracDigits| ==> IsDigit(fracDigits[i])
  {
    DigitsValue(intDigits) as real + DigitsValue(fracDigits) as real / (Pow10(|fracDigits|) as real)
  }

  /**
   * `parseFloat(s)`: leading white space is skipped, an optional sign is read, then
   * the unsigned literal; `None` stands for NaN.
   */
  function ParseFloat(s: string): Option<real>
  {
    var t := TrimStart(s);
    if |t| > 0 && t[0] == '-' then Negate(ParseUnsigned(t[1..]))
    else if |t| > 0 && t[0] == '+' then ParseUnsigned(t[1..])
    else ParseUnsigned(t)
  }

  /** The number with its sign flipped; NaN stays NaN. */
  function Negate(r: Option<real>): Option<real>
  {
    match r
    case None => None
    case Some(v) => Some(-v)
  }

  /** The decimal text of a natural number, as `String(n)` writes it. */
  function DecimalText(n: nat): (r: string)
    ensures |r| > 0 && forall i :: 0 <= i < |r| ==> IsDigit(r[i])
  {
    if n < 10 then [DigitChar(n)] else DecimalText(n / 10) + [DigitChar(n % 10)]
  }

  lemma {:induction false} DecimalTextValue(n: nat)
    ensures DigitsValue(DecimalText(n)) == n
  {
    if n >= 10 {
      var r := DecimalText(n);
      assert r[..|r| - 1] == DecimalText(n / 10);
      DecimalTextValue(n / 10);
    }
  }

  /** The digit run of `ds + after` is `ds` when `after` does not start with a digit. */
  lemma {:induction false} LeadingDigitsConcat(ds: string, after: string)
    requires forall i :: 0 <= i < |ds| ==> IsDigit(ds[i])
    requires after == [] || !IsDigit(after[0])
    ensures LeadingDigits(ds + after) == ds
  {
    if ds != [] {
      assert (ds + after)[1..] == ds[1..] + after;
      LeadingDigitsConcat(ds[1..], after);
      assert ds == [ds[0]] + ds[1..];
    } else {
      assert ds + after == after;
    }
  }

  /**
   * Digits followed by a text that starts with neither a digit nor a dot nor a
   * complete exponent: the whole number the digits denote.
   */
  lemma ParseUnsignedInteger(ds: string, after: string)
    requires |ds| > 0 && forall i :: 0 <= i < |ds| ==> IsDigit(ds[i])
    requires after == [] || (!IsDigit(after[0]) && after[0] != '.')
    requires ExponentPart(after) == 0
    ensures ParseUnsigned(ds + after) == Some(DigitsValue(ds) as real)
  {
    SplitIntegerLiteral(ds, after);
    IntegerLiteralValue(ds, after);
  }

  /** Without fraction digits or an exponent, a literal is worth its integer digits. */
  lemma IntegerLiteralValue(ds: string, after: string)
    requires forall i :: 0 <= i < |ds| ==> IsDigit(ds[i])
    requires ExponentPart(after) == 0
    ensures LiteralValue(Literal(ds, [], after)) == DigitsValue(ds) as real
  {
    MantissaWhole(ds);
    assert Scale10(0) == 1.0;
  }

  /** Digits followed by neither a digit nor a dot: no fraction, and the rest is what follows. */
  lemma SplitIntegerLiteral(ds: string, after: string)
    requires |ds| > 0 && forall i :: 0 <= i < |ds| ==> IsDigit(ds[i])
    requires after == [] || (!IsDigit(after[0]) && after[0] != '.')
    ensures SplitLiteral(ds + after) == Literal(ds, [], after)
  {
    var u := ds + after;
    LeadingDigitsConcat(ds, after);
    assert u[|ds|..] == after;
  }

  /** A text made only of digits is read whole, as the number it denotes. */
  lemma ParseUnsignedDigits(d: string)
    requires |d| > 0 && forall i :: 0 <= i < |d| ==> IsDigit(d[i])
    ensures ParseUnsigned(d) == Some(DigitsValue(d) as real)
  {
    assert ExponentPart([]) == 0;
    ParseUnsignedInteger(d, []);
    assert d + [] == d;
  }

  lemma MantissaWhole(d: string)
    requires forall i :: 0 <= i < |d| ==> IsDigit(d[i])
    ensures Mantissa(d, []) == DigitsValue(d) as real
  {
    assert DigitsValue([]) == 0 && Pow10(0) == 1;
  }

  /** parseFloat reads back the decimal text of every natural number. */
  lemma ParseFloatDecimalText(n: nat)
    ensures ParseFloat(DecimalText(n)) == Some(n as real)
  {
    var d := DecimalText(n);
    ParseFloatStartsWithDigit(d);
    ParseUnsignedDigits(d);
    DecimalTextValue(n);
  }

  /** A leading minus sign negates the literal after it. */
  lemma ParseFloatNegative(s: string)
    requires |s| > 0 && s[0] == '-'
    ensures ParseFloat(s) == Negate(ParseUnsigned(s[1..]))
  {
    assert !IsJsWhitespace(s[0]);
    assert TrimStart(s) == s;
  }

  /** A text that starts with a digit has no white space or sign to skip. */
  lemma ParseFloatStartsWithDigit(s: string)
    requires |s| > 0 && IsDigit(s[0])
    ensures ParseFloat(s) == ParseUnsigned(s)
  {
    assert !IsJsWhitespace(s[0]);
    assert TrimStart(s) == s;
  }

  lemma ParseUnsignedNoDigit(u: string)
    requires forall i :: 0 <= i < |u| ==> !IsDigit(u[i])
    ensures ParseUnsigned(u) == None
  {
    assert |u| > 0 ==> !IsDigit(u[0]);
    assert LeadingDigits(u) == [];
    assert |u| > 1 ==> !IsDigit(u[1]);
    assert |u| > 1 ==> LeadingDigits(u[1..]) == [];
  }

  /** parseFloat reads no number from a text with no digit in it. */
  lemma ParseFloatNoDigit(s: string)
    requires forall i :: 0 <= i < |s| ==> !IsDigit(s[i])
    ensures ParseFloat(s) == None
  {
    var t := TrimStart(s);
    assert t == s[|s| - |t|..];
    assert forall i :: 0 <= i < |t| ==> t[i] == s[|s| - |t| + i];
    ParseUnsignedNoDigit(t);
    if |t| > 0 {
      ParseUnsignedNoDigit(t[1..]);
    }
  }

  lemma ParseUnsignedIncompleteExponent()
    ensures ParseUnsigned("1e") == Some(1.0)
  {
    assert "1e" == "1" + "e";
    assert ExponentPart("e") == 0;
    ParseUnsignedInteger("1", "e");
    assert DigitsValue("1") == 1 by { assert "1"[..0] == []; }
  }

  /** An incomplete exponent is ignored: `parseFloat("1e")` is 1. */
  lemma ParseFloatIncompleteExponent()
    ensures ParseFloat("1e") == Some(1.0)
  {
    ParseFloatStartsWithDigit("1e");
    ParseUnsignedIncompleteExponent();
  }

  lemma ExponentOfE2()
    ensures ExponentPart("e2 x") == 2
  {
    assert "e2 x"[1..] == "2 x";
    assert LeadingDigits("2 x") == "2" by { assert LeadingDigits(" x") == []; }
    assert DigitsValue("2") == 2 by { assert "2"[..0] == []; }
  }

  lemma ParseUnsignedWithExponent()
    ensures ParseUnsigned("1.5e2 x") == Some(150.0)
  {
    assert LeadingDigits("1.5e2 x") == "1" by { assert LeadingDigits(".5e2 x") == []; }
    assert "1.5e2 x"[1..] == ".5e2 x";
    assert ".5e2 x"[1..] == "5e2 x";
    assert LeadingDigits("5e2 x") == "5" by { assert LeadingDigits("e2 x") == []; }
    assert ".5e2 x"[2..] == "e2 x";
    assert SplitLiteral("1.5e2 x") == Literal("1", "5", "e2 x");
    LiteralValueOneAndAHalfE2();
  }

  lemma LiteralValueOneAndAHalfE2()
    ensures LiteralValue(Literal("1", "5", "e2 x")) == 150.0
  {
    ExponentOfE2();
    assert DigitsValue("1") == 1 by { assert "1"[..0] == []; }
    assert DigitsValue("5") == 5 by { assert "5"[..0] == []; }
    assert Pow10(1) == 10 by { assert Pow10(0) == 1; }
    assert Mantissa("1", "5") == 1.5;
    assert Scale10(2) == 100.0 by { assert Pow10(2) == 10 * Pow10(1); }
  }

  /** The text after the number is ignored and the exponent is applied: `parseFloat("-1.5e2 x")` is -150. */
  lemma ParseFloatSignedExponent()
    ensures ParseFloat("-1.5e2 x") == Some(-150.0)
  {
    ParseFloatNegative("-1.5e2 x");
    assert "-1.5e2 x"[1..] == "1.5e2 x";
    ParseUnsignedWithExponent();
  }
}
