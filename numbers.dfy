/**
  European-format numbers (extractors/base_extractor.py `normalizza_numero`) and
  the two `re.findall` scans the vendor grammars use to pick amounts out of a
  line: `\d+,\d+` (IP, Q8) and `[\d,]+` (Esso).
 */
module Numbers {
  import opened Wrappers
  import opened Text

  /** The number written `a.b` in plain decimal notation (`a`, `b` digit strings). */
  function Amount(a: string, b: string): real {
    Val(a) as real + (Val(b) as real) / (Pow10(|b|) as real)
  }

  /**
    Python's `float()` on a string whose mantissa is written `digits[.digits]`:
    at least one digit, no exponent.
   */
  function Magnitude(body: string): Option<real> {
    var p := RunEnd(body, 0, Digit);
    if p == |body| then
      (if p > 0 then Some(Val(body) as real) else None)
    else if body[p] == '.' && AllDigits(body[p + 1..]) && (p > 0 || p + 1 < |body|) then
      Some(Amount(body[..p], body[p + 1..]))
    else
      None
  }

  /** Python's `float(u)`: surrounding whitespace ignored, an optional sign, then the magnitude. */
  function ParseFloat(u: string): Option<real> {
    var w := Strip(u);
    if w != [] && (w[0] == '+' || w[0] == '-') then
      match Magnitude(w[1..])
      case Some(m) => Some(if w[0] == '-' then -m else m)
      case None => None
    else
      Magnitude(w)
  }

  /**
    `normalizza_numero`: trim, delete every '.', turn every ',' into '.', parse;
    the empty string and anything that does not parse give 0.0. Never fails.
   */
  function Normalize(s: string): (r: real)
    ensures s == "" ==> r == 0.0
    ensures r != 0.0 ==> ParseFloat(ReplaceChar(DeleteChar(Strip(s), '.'), ',', '.')).Some?
  {
    if s == "" then 0.0
    else
      var u := ReplaceChar(DeleteChar(Strip(s), '.'), ',', '.');
      ParseFloat(u).GetOr(0.0)
  }

  /** A header total: the normalised capture, or 0.0 when the label is absent. */
  function NormalizeHit(hit: Option<string>): real {
    match hit
    case Some(s) => Normalize(s)
    case None => 0.0
  }

  /** `importo / quantita if quantita > 0 else 0.0`, over the reals. */
  function UnitPrice(importo: real, quantita: real): (p: real)
    ensures quantita > 0.0 ==> p * quantita == importo
    ensures quantita <= 0.0 ==> p == 0.0
  {
    if quantita > 0.0 then importo / quantita else 0.0
  }

  /** A character of a European number as the header and line patterns capture it. */
  predicate IsEuroChar(c: char) { IsDigit(c) || c == '.' || c == ',' }

  predicate EuroString(t: string) {
    forall i :: 0 <= i < |t| ==> IsEuroChar(t[i])
  }

  predicate DigitsOrDots(t: string) {
    forall i :: 0 <= i < |t| ==> IsDigit(t[i]) || t[i] == '.'
  }

  // ---------------------------------------------------------------- the parse

  /** `float()` reads a digit string as its integer value. */
  lemma MagnitudeWhole(a: string)
    requires a != [] && AllDigits(a)
    ensures Magnitude(a) == Some(Val(a) as real)
  {
    assert RunEnd(a, 0, Digit) == |a|;
  }

  /** `float()` reads `A.B` as `A + B / 10^|B|`. */
  lemma MagnitudeFraction(a: string, b: string)
    requires AllDigits(a) && AllDigits(b) && |a| + |b| > 0
    ensures Magnitude(a + "." + b) == Some(Amount(a, b))
  {
    var body := a + "." + b;
    RunEndStopsAt(a, "." + b);
    assert body == a + ("." + b);
    assert body[|a|] == '.';
    assert body[..|a|] == a;
    assert body[|a| + 1..] == b;
  }

  /** A second point makes the mantissa unreadable. */
  lemma MagnitudeTwoPoints(a: string, b: string, c: string)
    requires AllDigits(a) && AllDigits(b)
    ensures Magnitude(a + "." + b + "." + c) == None
  {
    var body := a + "." + b + "." + c;
    RunEndStopsAt(a, "." + b + "." + c);
    assert body == a + ("." + b + "." + c);
    assert body[|a|] == '.';
    assert body[|a| + 1..] == b + "." + c;
    assert (b + "." + c)[|b|] == '.';
  }

  lemma {:induction false} RunEndStopsAt(a: string, rest: string)
    requires AllDigits(a) && rest != [] && !IsDigit(rest[0])
    ensures RunEnd(a + rest, 0, Digit) == |a|
  {
    var s := a + rest;
    assert s[|a|] == rest[0];
    assert forall m :: 0 <= m < |a| ==> s[m] == a[m];
  }

  /** A trimmed string without a sign is read by its magnitude alone. */
  lemma ParseUnsigned(u: string)
    requires u != [] && (IsDigit(u[0]) || u[0] == '.')
    requires IsDigit(u[|u| - 1]) || u[|u| - 1] == '.'
    ensures ParseFloat(u) == Magnitude(u)
  {
    StripNonBlank(u);
  }

  lemma AllDigitsEuro(a: string)
    requires AllDigits(a)
    ensures ',' !in a && '.' !in a
  {
    forall i | 0 <= i < |a| ensures a[i] != ',' && a[i] != '.' {
      assert InClass(a[i], Digit);
    }
  }

  lemma DigitEnds(a: string)
    requires a != [] && AllDigits(a)
    ensures IsDigit(a[0]) && IsDigit(a[|a| - 1])
  {
    assert InClass(a[0], Digit) && InClass(a[|a| - 1], Digit);
  }

  /** Deleting the dots of a digits-and-dots string leaves digits only. */
  lemma {:induction false} DeleteDotsDigits(t: string)
    requires DigitsOrDots(t)
    ensures AllDigits(DeleteChar(t, '.'))
  {
    if t != [] {
      DeleteDotsDigits(t[1..]);
      var r := DeleteChar(t[1..], '.');
      var h := if t[0] == '.' then [] else [t[0]];
      assert DeleteChar(t, '.') == h + r;
      forall i | 0 <= i < |h + r| ensures InClass((h + r)[i], Digit) {
        if i < |h| { assert (h + r)[i] == t[0]; } else { assert (h + r)[i] == r[i - |h|]; }
      }
    }
  }

  /** Deleting the dots splits around a comma. */
  lemma DeleteDotsSplit(a: string, b: string)
    ensures DeleteChar(a + "," + b, '.') == DeleteChar(a, '.') + "," + DeleteChar(b, '.')
  {
    var comma := ",";
    DeleteCharOther(',', '.');
    DeleteCharAppend(comma, b, '.');
    DeleteCharAppend(a, comma + b, '.');
    calc {
      DeleteChar(a + comma + b, '.');
      { assert a + comma + b == a + (comma + b); }
      DeleteChar(a, '.') + DeleteChar(comma + b, '.');
      DeleteChar(a, '.') + (comma + DeleteChar(b, '.'));
      { SeqAssoc(DeleteChar(a, '.'), comma, DeleteChar(b, '.')); }
      DeleteChar(a, '.') + comma + DeleteChar(b, '.');
    }
  }

  lemma SeqAssoc(x: string, y: string, z: string)
    ensures x + (y + z) == x + y + z
  {
  }

  lemma ReplaceAppend(x: string, y: string, a: char, b: char)
    ensures ReplaceChar(x + y, a, b) == ReplaceChar(x, a, b) + ReplaceChar(y, a, b)
  {
    var l, r := ReplaceChar(x + y, a, b), ReplaceChar(x, a, b) + ReplaceChar(y, a, b);
    forall i | 0 <= i < |l| ensures l[i] == r[i] {
      if i < |x| { assert (x + y)[i] == x[i]; } else { assert (x + y)[i] == y[i - |x|]; }
    }
  }

  lemma ReplaceAbsent(s: string, a: char, b: char)
    requires a !in s
    ensures ReplaceChar(s, a, b) == s
  {
  }

  /** With no comma on either side, the one comma becomes the decimal point. */
  lemma CommaToPoint(x: string, y: string)
    requires ',' !in x && ',' !in y
    ensures ReplaceChar(x + "," + y, ',', '.') == x + "." + y
  {
    ReplaceAppend(x + ",", y, ',', '.');
    ReplaceAppend(x, ",", ',', '.');
    ReplaceAbsent(x, ',', '.');
    ReplaceAbsent(y, ',', '.');
    assert ReplaceChar(",", ',', '.') == ".";
  }

  lemma StripNonBlank(s: string)
    requires s != [] && !IsSpace(s[0]) && !IsSpace(s[|s| - 1])
    ensures Strip(s) == s
  {
    StripSpec(s);
  }

  /** `normalizza_numero` on a string without surrounding whitespace. */
  lemma NormalizeTrimmed(t: string)
    requires t != [] && !IsSpace(t[0]) && !IsSpace(t[|t| - 1])
    ensures Normalize(t) == ParseFloat(ReplaceChar(DeleteChar(t, '.'), ',', '.')).GetOr(0.0)
  {
    StripNonBlank(t);
  }

  // ---------------------------------------------------------------- normalizza_numero

  /** The leading `strip()`: surrounding whitespace never changes the reading. */
  lemma NormalizeStrip(s: string)
    ensures Normalize(s) == Normalize(Strip(s))
  {
    StripSpec(s);
    var w := Strip(s);
    if w == [] {
      assert DeleteChar(w, '.') == [] && ReplaceChar([], ',', '.') == [];
      StripSpec([]);
      assert Magnitude([]) == None by {
        assert RunEnd([], 0, Digit) == 0;
      }
    } else {
      StripSpec(w);
    }
  }

  /** `normalizza_numero("")` is 0.0. */
  lemma NormalizeEmpty()
    ensures Normalize("") == 0.0
  {
  }

  /**
    A number without a decimal comma: the dots are dropped whatever their
    placement, so "12.34" reads as 1234.
   */
  lemma NormalizeWhole(t: string)
    requires DigitsOrDots(t) && DeleteChar(t, '.') != []
    ensures Normalize(t) == Val(DeleteChar(t, '.')) as real
  {
    var a := DeleteChar(t, '.');
    assert t != [];
    assert !IsSpace(t[0]) && !IsSpace(t[|t| - 1]);
    NormalizeTrimmed(t);
    DeleteDotsDigits(t);
    AllDigitsEuro(a);
    ReplaceAbsent(a, ',', '.');
    DigitEnds(a);
    ParseUnsigned(a);
    MagnitudeWhole(a);
  }

  /**
    A number with one decimal comma: the dots on either side are dropped and the
    comma becomes the decimal point, so "1.234,56" reads as 1234.56.
   */
  lemma NormalizeDecimal(a: string, b: string)
    requires DigitsOrDots(a) && DigitsOrDots(b)
    requires |DeleteChar(a, '.')| + |DeleteChar(b, '.')| > 0
    ensures Normalize(a + "," + b) == Amount(DeleteChar(a, '.'), DeleteChar(b, '.'))
  {
    var t := a + "," + b;
    var A, B := DeleteChar(a, '.'), DeleteChar(b, '.');
    DecimalRewrite(a, b);
    PointNumberParses(A, B);
    DecimalEnds(a, b);
    NormalizeTrimmed(t);
  }

  /** Dropping the dots of `a,b` and turning its comma into a point gives `A.B`. */
  lemma DecimalRewrite(a: string, b: string)
    requires DigitsOrDots(a) && DigitsOrDots(b)
    ensures AllDigits(DeleteChar(a, '.')) && AllDigits(DeleteChar(b, '.'))
    ensures ReplaceChar(DeleteChar(a + "," + b, '.'), ',', '.') == DeleteChar(a, '.') + "." + DeleteChar(b, '.')
  {
    var A, B := DeleteChar(a, '.'), DeleteChar(b, '.');
    DeleteDotsDigits(a);
    DeleteDotsDigits(b);
    DeleteDotsSplit(a, b);
    AllDigitsEuro(A);
    AllDigitsEuro(B);
    CommaToPoint(A, B);
  }

  /** `a,b` over digits and dots neither starts nor ends with whitespace. */
  lemma DecimalEnds(a: string, b: string)
    requires DigitsOrDots(a) && DigitsOrDots(b)
    ensures var t := a + "," + b; t != [] && !IsSpace(t[0]) && !IsSpace(t[|t| - 1])
  {
    var t := a + "," + b;
    assert t[0] == (if a == [] then ',' else a[0]);
    assert t[|t| - 1] == (if b == [] then ',' else b[|b| - 1]);
  }

  /** `float()` on `A.B` with digit strings `A`, `B`, not both empty. */
  lemma PointNumberParses(A: string, B: string)
    requires AllDigits(A) && AllDigits(B) && |A| + |B| > 0
    ensures ParseFloat(A + "." + B) == Some(Amount(A, B))
  {
    var u := A + "." + B;
    assert u[0] == (if A == [] then '.' else A[0]);
    assert u[|u| - 1] == (if B == [] then '.' else B[|B| - 1]);
    if A != [] { DigitEnds(A); }
    if B != [] { DigitEnds(B); }
    ParseUnsigned(u);
    MagnitudeFraction(A, B);
  }

  /** `float()` refuses `A.B.C`, whatever digits and further points `C` holds. */
  lemma TwoPointsRefused(A: string, B: string, C: string)
    requires AllDigits(A) && AllDigits(B) && DigitsOrDots(C)
    ensures ParseFloat(A + "." + B + "." + C) == None
  {
    var u := A + "." + B + "." + C;
    assert u[0] == (if A == [] then '.' else A[0]);
    assert u[|u| - 1] == (if C == [] then '.' else C[|C| - 1]);
    if A != [] { DigitEnds(A); }
    ParseUnsigned(u);
    MagnitudeTwoPoints(A, B, C);
  }

  /** Deleting the dots of a European number string leaves digits and commas. */
  lemma {:induction false} DeleteDotsEuro(t: string)
    requires EuroString(t)
    ensures forall i :: 0 <= i < |DeleteChar(t, '.')| ==> IsDigitOrComma(DeleteChar(t, '.')[i])
  {
    if t != [] {
      DeleteDotsEuro(t[1..]);
      var r := DeleteChar(t[1..], '.');
      var h := if t[0] == '.' then [] else [t[0]];
      assert DeleteChar(t, '.') == h + r;
      forall i | 0 <= i < |h + r| ensures IsDigitOrComma((h + r)[i]) {
        if i < |h| { assert (h + r)[i] == t[0]; } else { assert (h + r)[i] == r[i - |h|]; }
      }
    }
  }

  /** The rewrite of a European number string holds only digits and points. */
  lemma RewriteDigitsOrDots(t: string)
    requires EuroString(t)
    ensures DigitsOrDots(ReplaceChar(DeleteChar(t, '.'), ',', '.'))
  {
    DeleteDotsEuro(t);
  }

  /**
    Two or more commas leave two or more points after the rewrite, which
    `float()` refuses: 0.0. `c` is any digits, dots and further commas.
   */
  lemma NormalizeTwoCommas(a: string, b: string, c: string)
    requires DigitsOrDots(a) && DigitsOrDots(b) && EuroString(c)
    ensures Normalize(a + "," + b + "," + c) == 0.0
  {
    var t := a + "," + b + "," + c;
    var A, B, C := DeleteChar(a, '.'), DeleteChar(b, '.'), ReplaceChar(DeleteChar(c, '.'), ',', '.');
    assert ReplaceChar(DeleteChar(t, '.'), ',', '.') == A + "." + B + "." + C by {
      TwoCommasRewritten(a, b, c);
    }
    assert ParseFloat(A + "." + B + "." + C) == None by {
      DeleteDotsDigits(a);
      DeleteDotsDigits(b);
      RewriteDigitsOrDots(c);
      TwoPointsRefused(A, B, C);
    }
    assert c != [] ==> IsEuroChar(c[|c| - 1]);
    assert t[0] == (if a == [] then ',' else a[0]);
    assert t[|t| - 1] == (if c == [] then ',' else c[|c| - 1]);
    NormalizeTrimmed(t);
  }

  lemma TwoCommasRewritten(a: string, b: string, c: string)
    requires DigitsOrDots(a) && DigitsOrDots(b)
    ensures ReplaceChar(DeleteChar(a + "," + b + "," + c, '.'), ',', '.')
         == DeleteChar(a, '.') + "." + DeleteChar(b, '.') + "." + ReplaceChar(DeleteChar(c, '.'), ',', '.')
  {
    var X, C := DeleteChar(a + "," + b, '.'), DeleteChar(c, '.');
    DeleteDotsSplit(a + "," + b, c);
    DecimalRewrite(a, b);
    CommaTail(X, C);
  }

  /** Rewriting the commas of `X,C` rewrites `X`, the joining comma and `C` apart. */
  lemma CommaTail(X: string, C: string)
    ensures ReplaceChar(X + "," + C, ',', '.') == ReplaceChar(X, ',', '.') + "." + ReplaceChar(C, ',', '.')
  {
    assert X + "," + C == X + ("," + C);
    ReplaceAppend(X, "," + C, ',', '.');
    ReplaceAppend(",", C, ',', '.');
    assert ReplaceChar(",", ',', '.') == ".";
  }


  lemma {:induction false} DeleteAllDots(t: string)
    requires forall i :: 0 <= i < |t| ==> t[i] == '.'
    ensures DeleteChar(t, '.') == []
  {
    if t != [] {
      DeleteAllDots(t[1..]);
    }
  }

  /** Dots alone, as in "..", are no number: 0.0. */
  lemma NormalizeOnlyDots(t: string)
    requires t != [] && forall i :: 0 <= i < |t| ==> t[i] == '.'
    ensures Normalize(t) == 0.0
  {
    NormalizeTrimmed(t);
    DeleteAllDots(t);
    assert ReplaceChar([], ',', '.') == [];
  }

  lemma ValExamples()
    ensures Val("1234") == 1234 && Val("56") == 56 && Val("58") == 58 && Val("26") == 26
  {
    assert "1234"[..3] == "123" && "123"[..2] == "12" && "12"[..1] == "1" && "1"[..0] == "";
    assert "56"[..1] == "5" && "58"[..1] == "5" && "26"[..1] == "2" && "5"[..0] == "" && "2"[..0] == "";
  }

  lemma AmountExamples()
    ensures Amount("1234", "56") == 1234.56 && Amount("26", "58") == 26.58
  {
    ValExamples();
    assert Pow10(2) == 100;
  }

  /*
    The examples take the text as a parameter equal to the literal, so that the
    verifier does not unfold `Normalize` on a constant string.
   */

  /** "1.234,56" reads as 1234.56. */
  lemma NormalizeThousands(s: string)
    requires s == "1.234,56"
    ensures Normalize(s) == 1234.56
  {
    assert DeleteChar("1.234", '.') == "1234" && DeleteChar("56", '.') == "56";
    assert s == "1.234" + "," + "56";
    NormalizeDecimal("1.234", "56");
    AmountExamples();
  }

  /** "12.34" (a point used as decimal separator) reads as 1234. */
  lemma NormalizePointIsThousands(s: string)
    requires s == "12.34"
    ensures Normalize(s) == 1234.0
  {
    assert DeleteChar("12.34", '.') == "1234";
    NormalizeWhole(s);
    ValExamples();
  }

  /** "26,58" reads as 26.58. */
  lemma NormalizeComma(s: string)
    requires s == "26,58"
    ensures Normalize(s) == 26.58
  {
    NormalizeDigitsComma(s, "26", "58");
    AmountExamples();
  }

  /** The "0,00" default of the positional picks reads as 0.0. */
  lemma NormalizeZero(s: string)
    requires s == "0,00"
    ensures Normalize(s) == 0.0
  {
    NormalizeDigitsComma(s, "0", "00");
    ZeroAmount();
  }

  lemma ZeroAmount()
    ensures Amount("0", "00") == 0.0
  {
    assert "00"[..1] == "0" && "0"[..0] == "";
    assert Val("0") == 0 && Val("00") == 0;
  }

  /** Digits, a comma, digits: the dots to drop are none, and the value is the amount written. */
  lemma NormalizeDigitsComma(s: string, a: string, b: string)
    requires AllDigits(a) && AllDigits(b) && |a| + |b| > 0
    requires s == a + "," + b
    ensures Normalize(s) == Amount(a, b)
  {
    AllDigitsEuro(a);
    AllDigitsEuro(b);
    DeleteCharAbsent(a, '.');
    DeleteCharAbsent(b, '.');
    assert DigitsOrDots(a) by {
      forall i | 0 <= i < |a| ensures IsDigit(a[i]) { assert InClass(a[i], Digit); }
    }
    assert DigitsOrDots(b) by {
      forall i | 0 <= i < |b| ensures IsDigit(b[i]) { assert InClass(b[i], Digit); }
    }
    NormalizeDecimal(a, b);
  }

  /** "1,2,3" is refused by `float()`, hence 0.0. */
  lemma NormalizeManyCommas(s: string)
    requires s == "1,2,3"
    ensures Normalize(s) == 0.0
  {
    assert s == "1" + "," + "2" + "," + "3";
    NormalizeTwoCommas("1", "2", "3");
  }

  // ---------------------------------------------------------------- re.findall

  /** A match of `\d+,\d+`: digits, one comma, digits. */
  predicate DecimalShape(x: string) {
    var k := RunEnd(x, 0, Digit);
    0 < k && k + 1 < |x| && x[k] == ',' && AllDigits(x[k + 1..])
  }

  /**
    `re.findall(r"\d+,\d+", s[p..])`: at each position the greedy digit run must
    stop at a comma followed by a digit; otherwise the scan moves on one character.
   */
  function DecimalsFrom(s: string, p: nat): (r: seq<string>)
    requires p <= |s|
    ensures forall k :: 0 <= k < |r| ==> DecimalShape(r[k])
    decreases |s| - p
  {
    if p == |s| then []
    else
      var q := RunEnd(s, p, Digit);
      if q > p && q + 1 < |s| && s[q] == ',' && IsDigit(s[q + 1]) then
        var e := RunEnd(s, q + 1, Digit);
        var x := s[p..e];
        assert RunEnd(x, 0, Digit) == q - p by { RunEndShift(s, p, e, q); }
        assert x[q - p + 1..] == s[q + 1..e];
        [x] + DecimalsFrom(s, e)
      else
        DecimalsFrom(s, p + 1)
  }

  function Decimals(s: string): seq<string> {
    DecimalsFrom(s, 0)
  }

  /** A digit run inside a slice ends where it ends in the whole string. */
  lemma {:induction false} RunEndShift(s: string, p: nat, e: nat, q: nat)
    requires p <= q < e <= |s|
    requires q == RunEnd(s, p, Digit)
    ensures RunEnd(s[p..e], 0, Digit) == q - p
  {
    var x := s[p..e];
    assert x[q - p] == s[q];
    assert forall m :: 0 <= m < q - p ==> x[m] == s[p + m];
  }

  /**
    `re.findall(r"[\d,]+", s[p..])`: the maximal runs of digits and commas.
   */
  function NumericRunsFrom(s: string, p: nat): (r: seq<string>)
    requires p <= |s|
    ensures forall k :: 0 <= k < |r| ==> r[k] != [] && AllIn(r[k], DigitOrComma)
    decreases |s| - p
  {
    if p == |s| then []
    else
      var q := RunEnd(s, p, DigitOrComma);
      if q > p then [s[p..q]] + NumericRunsFrom(s, q) else NumericRunsFrom(s, p + 1)
  }

  function NumericRuns(s: string): seq<string> {
    NumericRunsFrom(s, 0)
  }

  /** The last `[\d,]+` run of a line that ends with a space and such a run is that run. */
  lemma LastNumericRun(pre: string, w: string)
    requires w != [] && AllIn(w, DigitOrComma)
    ensures var r := NumericRuns(pre + " " + w); |r| > 0 && r[|r| - 1] == w
  {
    LastNumericRunFrom(pre, w, 0);
  }

  lemma {:induction false} LastNumericRunFrom(pre: string, w: string, p: nat)
    requires w != [] && AllIn(w, DigitOrComma)
    requires p <= |pre| + 1
    ensures var r := NumericRunsFrom(pre + " " + w, p); |r| > 0 && r[|r| - 1] == w
    decreases |pre| + 1 - p
  {
    var s := pre + " " + w;
    assert s[|pre|] == ' ';
    assert forall m :: |pre| + 1 <= m < |s| ==> s[m] == w[m - |pre| - 1];
    if p == |pre| + 1 {
      RunEndIs(s, p, |s|, DigitOrComma);
      assert s[p..|s|] == w;
    } else {
      var q := RunEnd(s, p, DigitOrComma);
      assert !InClass(s[|pre|], DigitOrComma);
      assert q <= |pre|;
      if q > p {
        LastNumericRunFrom(pre, w, q);
      } else {
        LastNumericRunFrom(pre, w, p + 1);
      }
    }
  }

  /** The last `\d+,\d+` match of a line that ends with a space and `a,b` is `a,b`. */
  lemma LastDecimal(pre: string, a: string, b: string)
    requires Number(a) && Number(b)
    ensures var r := Decimals(pre + " " + a + "," + b); |r| > 0 && r[|r| - 1] == a + "," + b
  {
    var s := pre + " " + a + "," + b;
    var o := |pre| + 1;
    assert s[o..o + |a|] == a && s[o + |a|] == ',' && s[o + |a| + 1..] == b;
    assert s[o..] == a + "," + b;
    DecimalAtEnd(s, o, a, b);
    assert s[|pre|] == ' ';
    DecimalsReach(s, o, 0);
    var r := DecimalsFrom(s, 0);
    assert r[|r| - 1] == r[|r| - 1..][0];
  }

  /** `r` ends with `t`. */
  predicate EndsWith(r: seq<string>, t: seq<string>) {
    |t| <= |r| && r[|r| - |t|..] == t
  }

  lemma EndsWithCons(x: string, r: seq<string>, t: seq<string>)
    requires EndsWith(r, t)
    ensures EndsWith([x] + r, t)
  {
    assert ([x] + r)[|[x] + r| - |t|..] == r[|r| - |t|..];
  }

  /** Scanning from before a space, the matches end with those found after it. */
  lemma {:induction false} DecimalsReach(s: string, o: nat, p: nat)
    requires 0 < o <= |s| && s[o - 1] == ' ' && p <= o
    ensures EndsWith(DecimalsFrom(s, p), DecimalsFrom(s, o))
    decreases o - p
  {
    if p == o {
      assert DecimalsFrom(s, p)[|DecimalsFrom(s, p)| - |DecimalsFrom(s, o)|..] == DecimalsFrom(s, p);
    } else {
      var q := RunEnd(s, p, Digit);
      if q > p && q + 1 < |s| && s[q] == ',' && IsDigit(s[q + 1]) {
        var e := RunEnd(s, q + 1, Digit);
        DecimalsReach(s, o, e);
        EndsWithCons(s[p..e], DecimalsFrom(s, e), DecimalsFrom(s, o));
      } else {
        DecimalsReach(s, o, p + 1);
      }
    }
  }

  /** A string that ends with `a,b` from `o` on yields that match when the scan reaches `o`. */
  lemma DecimalAtEnd(s: string, o: nat, a: string, b: string)
    requires Number(a) && Number(b)
    requires o + |a| + 1 + |b| == |s|
    requires s[o..o + |a|] == a && s[o + |a|] == ',' && s[o + |a| + 1..] == b
    ensures DecimalsFrom(s, o) == [s[o..]]
  {
    var c := o + |a|;
    RunOver(s, o, a, Digit);
    RunOver(s, c + 1, b, Digit);
    assert IsDigit(s[c + 1]) by { assert s[c + 1] == b[0]; }
    assert s[o..|s|] == s[o..];
  }

  /** Scanning from `p` over text without a comma up to a space at `o - 1` finds nothing before `o`. */
  lemma {:induction false} DecimalsSkip(s: string, p: nat, o: nat)
    requires p <= o <= |s| && 0 < o && !IsDigit(s[o - 1])
    requires forall m :: p <= m < o ==> s[m] != ','
    ensures DecimalsFrom(s, p) == DecimalsFrom(s, o)
    decreases o - p
  {
    if p < o {
      DecimalsSkip(s, p + 1, o);
    }
  }

  /** A `\d+,\d+` written at `o` and not followed by a digit is the next match. */
  lemma DecimalAt(s: string, o: nat, x: string, e: nat)
    requires DecimalShape(x) && e == o + |x| && e <= |s| && s[o..e] == x
    requires e < |s| ==> !IsDigit(s[e])
    ensures DecimalsFrom(s, o) == [x] + DecimalsFrom(s, e)
  {
    var q := DecimalRuns(s, o, x);
    DecimalsHit(s, o, q, e, x);
  }

  /** The digit runs of a `\d+,\d+` written at `o`: the comma sits at `q`. */
  lemma DecimalRuns(s: string, o: nat, x: string) returns (q: nat)
    requires DecimalShape(x) && o + |x| <= |s| && s[o..o + |x|] == x
    requires o + |x| < |s| ==> !IsDigit(s[o + |x|])
    ensures o < q && q + 1 < |s| && q == RunEnd(s, o, Digit) && s[q] == ',' && IsDigit(s[q + 1])
    ensures o + |x| == RunEnd(s, q + 1, Digit)
  {
    var k := RunEnd(x, 0, Digit);
    var a, b := x[..k], x[k + 1..];
    assert AllIn(a, Digit) by {
      forall m | 0 <= m < |a| ensures InClass(a[m], Digit) { assert a[m] == x[m]; }
    }
    assert s[o..o + k] == a && s[o + k] == x[k];
    RunOver(s, o, a, Digit);
    assert s[o + k + 1..o + |x|] == b;
    assert IsDigit(s[o + k + 1]) by { assert s[o + k + 1] == b[0]; }
    RunOver(s, o + k + 1, b, Digit);
    q := o + k;
  }

  /** One step of the scan that finds the match `x` from `p` to `e`. */
  lemma DecimalsHit(s: string, p: nat, q: nat, e: nat, x: string)
    requires p < |s| && q == RunEnd(s, p, Digit)
    requires q > p && q + 1 < |s| && s[q] == ',' && IsDigit(s[q + 1])
    requires e == RunEnd(s, q + 1, Digit) && x == s[p..e]
    ensures DecimalsFrom(s, p) == [x] + DecimalsFrom(s, e)
  {
  }

  /** An amount at `o` followed by a space is the next match, and the scan resumes at `e`, after the space at `d`. */
  lemma DecimalThenSpace(s: string, o: nat, x: string, d: nat, e: nat)
    requires DecimalShape(x) && d == o + |x| && e == d + 1 && e <= |s| && s[o..d] == x && s[d] == ' '
    ensures DecimalsFrom(s, o) == [x] + DecimalsFrom(s, e)
  {
    DecimalAt(s, o, x, d);
    DecimalsSkip(s, d, e);
  }

  /** A match of `\d+,\d+` is a word. */
  lemma DecimalWord(x: string)
    requires DecimalShape(x)
    ensures IsWord(x)
  {
    var k := RunEnd(x, 0, Digit);
    forall m | 0 <= m < |x| ensures !IsSpace(x[m]) {
      if k < m {
        assert x[m] == x[k + 1..][m - k - 1];
      }
    }
  }

  /**
    The first three `\d+,\d+` matches of a line whose comma-free head is
    followed by three space-separated amounts are those amounts.
   */
  lemma LeadingDecimals(s: string, pre: string, x1: string, x2: string, x3: string, post: string)
    requires ',' !in pre
    requires DecimalShape(x1) && DecimalShape(x2) && DecimalShape(x3)
    requires post == [] || post[0] == ' '
    requires s == pre + " " + x1 + " " + x2 + " " + x3 + post
    ensures |Decimals(s)| >= 3 && Decimals(s)[0] == x1 && Decimals(s)[1] == x2 && Decimals(s)[2] == x3
  {
    var o1 := |pre| + 1;
    var o2 := o1 + |x1| + 1;
    var o3 := o2 + |x2| + 1;
    var o4 := o3 + |x3|;
    LeadingLayout(s, pre, x1, x2, x3, post, o1, o2, o3, o4);
    DecimalsSkip(s, 0, o1);
    AmountsFrom(s, o1, o2, o3, o4, x1, x2, x3);
    Leading3(Decimals(s), DecimalsFrom(s, o4), x1, x2, x3);
  }

  /** Where the head, the three amounts and the spaces between them sit in `s`. */
  lemma LeadingLayout(s: string, pre: string, x1: string, x2: string, x3: string, post: string,
                      o1: nat, o2: nat, o3: nat, o4: nat)
    requires ',' !in pre
    requires post == [] || post[0] == ' '
    requires s == pre + " " + x1 + " " + x2 + " " + x3 + post
    requires o1 == |pre| + 1 && o2 == o1 + |x1| + 1 && o3 == o2 + |x2| + 1 && o4 == o3 + |x3|
    ensures 0 < o1 <= |s| && s[o1 - 1] == ' ' && forall m :: 0 <= m < o1 ==> s[m] != ','
    ensures AmountsLayout(s, o1, o2, o3, o4, x1, x2, x3)
  {
    assert forall m :: 0 <= m < |pre| ==> s[m] == pre[m];
    assert s[o1..o2 - 1] == x1 && s[o2 - 1] == ' ';
    assert s[o2..o3 - 1] == x2 && s[o3 - 1] == ' ';
    assert s[o3..o4] == x3;
    if o4 < |s| {
      assert s[o4] == post[0];
    }
  }

  /**
    Three amounts from `o1`, `o2` and `o3` on, the first two followed by a
    space, the third by a space or the end of `s` at `o4`.
   */
  predicate AmountsLayout(s: string, o1: nat, o2: nat, o3: nat, o4: nat, x1: string, x2: string, x3: string) {
    o2 == o1 + |x1| + 1 && o3 == o2 + |x2| + 1 && o4 == o3 + |x3| && o4 <= |s|
    && s[o1..o2 - 1] == x1 && s[o2 - 1] == ' '
    && s[o2..o3 - 1] == x2 && s[o3 - 1] == ' '
    && s[o3..o4] == x3 && (o4 < |s| ==> s[o4] == ' ')
  }

  lemma Leading3(d: seq<string>, t: seq<string>, x1: string, x2: string, x3: string)
    requires d == [x1, x2, x3] + t
    ensures |d| >= 3 && d[0] == x1 && d[1] == x2 && d[2] == x3
  {
  }

  /** Three space-separated amounts from `o1` on are the next three matches. */
  lemma AmountsFrom(s: string, o1: nat, o2: nat, o3: nat, o4: nat, x1: string, x2: string, x3: string)
    requires DecimalShape(x1) && DecimalShape(x2) && DecimalShape(x3)
    requires AmountsLayout(s, o1, o2, o3, o4, x1, x2, x3)
    ensures DecimalsFrom(s, o1) == [x1, x2, x3] + DecimalsFrom(s, o4)
  {
    DecimalThenSpace(s, o1, x1, o2 - 1, o2);
    DecimalThenSpace(s, o2, x2, o3 - 1, o3);
    DecimalAt(s, o3, x3, o4);
    Chain3(DecimalsFrom(s, o1), DecimalsFrom(s, o2), DecimalsFrom(s, o3), DecimalsFrom(s, o4), x1, x2, x3);
  }

  lemma Chain3(d0: seq<string>, d1: seq<string>, d2: seq<string>, d3: seq<string>, x1: string, x2: string, x3: string)
    requires d0 == [x1] + d1 && d1 == [x2] + d2 && d2 == [x3] + d3
    ensures d0 == [x1, x2, x3] + d3
  {
  }
}
