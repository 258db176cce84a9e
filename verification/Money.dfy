/**
 Decimal text to fixed-point integers and back (internal/pricing/money.go).
 Cents have scale 100; quantity micros and rate ppm have scale 1_000_000.
 */
module Money {
  import opened Int64
  import opened Text
  import opened Wrappers

  datatype AmountError = Empty | Negative | Malformed | OutOfRange

  datatype Parsed = Ok(amount: int) | Err(error: AmountError)

  /** A non-negative big.Rat; not necessarily in lowest terms. */
  datatype Rat = Rat(num: nat, den: nat)

  const CENTS: nat := 100
  const MICROS: nat := 1_000_000

  // ---- big.Rat.SetString on decimal text --------------------------------

  /** Length of the longest digit prefix. */
  function DigitSpan(s: string): (n: nat)
    ensures n <= |s| && AllDigits(s[..n])
    ensures n < |s| ==> !IsDigit(s[n])
  {
    if s == "" || !IsDigit(s[0]) then 0
    else
      var n := 1 + DigitSpan(s[1..]);
      assert s[..n] == [s[0]] + s[1..][..n - 1];
      n
  }

  /** The optional exponent that must end the text. */
  function ScanExponent(s: string): (e: Option<int>) {
    if s == "" then Some(0)
    else if s[0] != 'e' && s[0] != 'E' then None
    else
      var signed := |s| > 1 && (s[1] == '+' || s[1] == '-');
      var digits := if signed then s[2..] else s[1..];
      if digits == "" || DigitSpan(digits) != |digits| then None
      else
        assert digits == digits[..|digits|];
        var n := Value(digits);
        var e := if signed && s[1] == '-' then 0 - n else n;
        if Fits(e) then Some(e) else None
  }

  function ScaledRat(mantissa: nat, exponent: int): (r: Option<Rat>)
    ensures r.Some? ==> r.value.den >= 1
  {
    if mantissa == 0 then Some(Rat(0, 1))
    else if exponent > 1_000_000 || exponent < -1_000_000 then None
    else if exponent >= 0 then Some(Rat(mantissa * Pow10(exponent), 1))
    else Some(Rat(mantissa, Pow10(-exponent)))
  }

  /** A mantissa's digits before and after its point, and what follows them. */
  datatype Mantissa = Mantissa(whole: string, frac: string, tail: string)

  function ScanMantissa(t: string): (m: Mantissa)
    ensures AllDigits(m.whole) && AllDigits(m.frac)
  {
    var i := DigitSpan(t);
    if i < |t| && t[i] == '.' then
      var j := i + 1 + DigitSpan(t[i + 1..]);
      assert t[i + 1..j] == t[i + 1..][..j - i - 1];
      Mantissa(t[..i], t[i + 1..j], t[j..])
    else Mantissa(t[..i], "", t[i..])
  }

  function MantissaRat(m: Mantissa): (r: Option<Rat>)
    requires AllDigits(m.whole) && AllDigits(m.frac)
    ensures r.Some? ==> r.value.den >= 1
  {
    var e := ScanExponent(m.tail);
    if m.whole + m.frac == "" || e.None? then None
    else ScaledRat(Value(m.whole + m.frac), e.value - |m.frac|)
  }

  /** An optional '+', a mantissa with at most one point, an optional exponent. */
  function ParseRat(s: string): (r: Option<Rat>)
    ensures r.Some? ==> r.value.den >= 1
  {
    MantissaRat(ScanMantissa(if s != "" && s[0] == '+' then s[1..] else s))
  }

  // ---- what the accepted texts are, and what they mean -------------------

  /** s is the exponent e: nothing, or 'e' or 'E', an optional sign and digits. */
  predicate ExponentText(s: string, e: int) {
    if s == "" then e == 0
    else
      && s[0] in {'e', 'E'} && |s| > 1
      && if s[1] in {'+', '-'} then
           |s| > 2 && AllDigits(s[2..]) && e == if s[1] == '-' then 0 - Value(s[2..]) else Value(s[2..])
         else AllDigits(s[1..]) && e == Value(s[1..])
  }

  lemma {:induction false} DigitSpanIff(s: string)
    ensures DigitSpan(s) == |s| <==> AllDigits(s)
  {
    if AllDigits(s) {
      assert s + "" == s;
      DigitSpanAll(s, "");
    } else {
      assert s[..|s|] == s;
    }
  }

  lemma ScanExponentIff(s: string, e: int)
    ensures ScanExponent(s) == Some(e) <==> ExponentText(s, e) && Fits(e)
  {
    hide Value;
    if |s| > 1 {
      DigitSpanIff(s[1..]);
      DigitSpanIff(s[2..]);
      if s[1] == '+' || s[1] == '-' {
        assert s[2..] != "" || |s| == 2;
      }
    }
  }

  /** s is digits with at most one point among them, and then tail. */
  predicate Splits(s: string, whole: string, frac: string, tail: string) {
    && AllDigits(whole) && AllDigits(frac)
    && (s == whole + "." + frac + tail || (frac == "" && s == whole + tail))
  }

  /** s is an optional '+', digits with at most one point among them, and the exponent e. */
  ghost predicate DecimalText(s: string, whole: string, frac: string, e: int) {
    && whole + frac != "" && Fits(e)
    && exists tail :: ExponentText(tail, e)
                      && (Splits(s, whole, frac, tail)
                          || (s != "" && s[0] == '+' && Splits(s[1..], whole, frac, tail)))
  }

  /** r is m * 10^k. */
  predicate IsPower(r: Rat, m: nat, k: int) {
    r.den >= 1 && if k >= 0 then r.num == m * Pow10(k) * r.den else r.num * Pow10(-k) == m * r.den
  }

  lemma ScaledRatMeans(m: nat, k: int)
    ensures ScaledRat(m, k).Some? ==> IsPower(ScaledRat(m, k).value, m, k)
    ensures ScaledRat(m, k).None? <==> m != 0 && !(-1_000_000 <= k <= 1_000_000)
  {
    hide Pow10;
  }

  lemma {:induction false} ScannedMantissa(s: string, whole: string, frac: string, tail: string)
    requires Splits(s, whole, frac, tail) && (tail != "" ==> tail[0] in {'e', 'E'})
    ensures ScanMantissa(s) == Mantissa(whole, frac, tail)
  {
    hide DigitSpan, AllDigits;
    if s == whole + "." + frac + tail {
      var rest := "." + (frac + tail);
      assert s == whole + rest;
      DigitSpanAll(whole, rest);
      assert s[|whole| + 1..] == frac + tail;
      DigitSpanAll(frac, tail);
      var j := |whole| + 1 + |frac|;
      assert s[..|whole|] == whole && s[|whole| + 1..j] == frac && s[j..] == tail;
    } else {
      DigitSpanAll(whole, tail);
      assert s[..|whole|] == whole && s[|whole|..] == tail;
    }
  }

  /** Splitting a text into its mantissa and what follows loses nothing. */
  lemma MantissaSplits(s: string)
    ensures Splits(s, ScanMantissa(s).whole, ScanMantissa(s).frac, ScanMantissa(s).tail)
  {
    hide DigitSpan, AllDigits;
    var i := DigitSpan(s);
    if i < |s| && s[i] == '.' {
      var j := i + 1 + DigitSpan(s[i + 1..]);
      assert s == s[..i] + "." + s[i + 1..j] + s[j..];
    } else {
      assert s == s[..i] + s[i..];
    }
  }

  lemma StartsPlain(s: string, whole: string, frac: string, tail: string)
    requires Splits(s, whole, frac, tail) && whole + frac != ""
    ensures s != "" && s[0] != '+'
  {
    assert s[0] == if whole != "" then whole[0] else '.';
  }

  /** What a text without a sign is read as. */
  lemma {:induction false} PlainIsRead(s: string, whole: string, frac: string, tail: string, e: int)
    requires Splits(s, whole, frac, tail) && ExponentText(tail, e) && whole + frac != "" && Fits(e)
    ensures AllDigits(whole + frac)
    ensures MantissaRat(ScanMantissa(s)) == ScaledRat(Value(whole + frac), e - |frac|)
  {
    hide ScanExponent, ScaledRat, Value, ScanMantissa;
    ScannedMantissa(s, whole, frac, tail);
    ScanExponentIff(tail, e);
  }

  /** Any decimal text is read as its digits times the power of ten of its exponent and point. */
  lemma {:induction false} DecimalIsRead(s: string, whole: string, frac: string, e: int)
    requires DecimalText(s, whole, frac, e)
    ensures AllDigits(whole + frac) && ParseRat(s) == ScaledRat(Value(whole + frac), e - |frac|)
  {
    hide ScanMantissa, MantissaRat, ScaledRat, Value, Splits, AllDigits;
    var tail :| ExponentText(tail, e) && (Splits(s, whole, frac, tail)
                                          || (s != "" && s[0] == '+' && Splits(s[1..], whole, frac, tail)));
    if Splits(s, whole, frac, tail) {
      StartsPlain(s, whole, frac, tail);
      PlainIsRead(s, whole, frac, tail, e);
    } else {
      PlainIsRead(s[1..], whole, frac, tail, e);
    }
  }

  /** Only decimal texts are read. */
  lemma {:induction false} OnlyDecimalsAreRead(s: string) returns (whole: string, frac: string, e: int)
    requires ParseRat(s).Some?
    ensures DecimalText(s, whole, frac, e)
  {
    hide ScanMantissa, ScanExponent, ScaledRat, Value, Splits, ExponentText, AllDigits;
    var t := if s != "" && s[0] == '+' then s[1..] else s;
    var m := ScanMantissa(t);
    MantissaSplits(t);
    whole, frac, e := m.whole, m.frac, ScanExponent(m.tail).value;
    ScanExponentIff(m.tail, e);
  }

  // ---- parse ------------------------------------------------------------

  /** floor(r * scale + 1/2), as the parsers compute it. */
  function HalfUp(r: Rat, scale: nat): (v: int)
    requires r.den >= 1
  {
    Quo(2 * scale * r.num + r.den, 2 * r.den)
  }

  function ParseScaled(s: string, scale: nat): (p: Parsed)
    ensures p.Ok? ==> 0 <= p.amount <= MAX
  {
    var t := TrimSpace(s);
    if t == "" then Err(Empty)
    else if t[0] == '-' then Err(Negative)
    else
      match ParseRat(t)
      case None => Err(Malformed)
      case Some(r) =>
        var v := HalfUp(r, scale);
        HalfUpIsNearest(r, scale, v);
        if Fits(v) then Ok(v) else Err(OutOfRange)
  }

  /** How each parser answers a text between spaces: the three refusals, and the range. */
  lemma {:induction false} ParseAnswers(pre: string, core: string, post: string, scale: nat)
    requires AllSpace(pre) && AllSpace(post) && Bare(core)
    ensures var p := ParseScaled(pre + core + post, scale);
            && (p == Err(Empty) <==> core == "")
            && (p == Err(Negative) <==> core != "" && core[0] == '-')
            && (p == Err(Malformed) <==> core != "" && core[0] != '-' && ParseRat(core).None?)
            && (p == Err(OutOfRange) <==>
                  core != "" && core[0] != '-' && ParseRat(core).Some? && HalfUp(ParseRat(core).value, scale) > MAX)
  {
    hide ParseRat, HalfUp;
    TrimSpaceIs(pre, core, post);
    if core != "" && core[0] != '-' && ParseRat(core).Some? {
      HalfUpIsNearest(ParseRat(core).value, scale, HalfUp(ParseRat(core).value, scale));
    }
  }

  function ParseMajorToCents(s: string): (p: Parsed) {
    ParseScaled(s, CENTS)
  }

  function ParseQuantityToMicros(s: string): (p: Parsed) {
    ParseScaled(s, MICROS)
  }

  function ParseRateToPpm(s: string): (p: Parsed) {
    ParseScaled(s, MICROS)
  }

  /** The exact number a price, quantity or rate text stands for, if it stands for one. */
  ghost function Meaning(s: string): (r: Option<Rat>)
    ensures r.Some? ==> r.value.den >= 1
  {
    var t := TrimSpace(s);
    if t == "" || t[0] == '-' then None else ParseRat(t)
  }

  /** v is r * scale rounded to the nearest integer, ties upward. */
  ghost predicate Nearest(r: Rat, scale: nat, v: int) {
    (2 * v - 1) * r.den <= 2 * scale * r.num < (2 * v + 1) * r.den
  }

  lemma {:induction false} MulLess(a: int, b: int, d: nat)
    requires a < b && d >= 1
    ensures a * d + d <= b * d
  {
    assert (b - a - 1) * d >= 0;
  }

  lemma {:induction false} QuoNearest(x: nat, d: nat, q: int, v: int)
    requires d >= 1 && 2 * d * q <= x + d < 2 * d * (q + 1)
    ensures q == v <==> (2 * v - 1) * d <= x < (2 * v + 1) * d
  {
    assert 2 * d * q == 2 * (q * d) && 2 * d * (q + 1) == 2 * (q * d) + 2 * d;
    assert (2 * v - 1) * d == 2 * (v * d) - d && (2 * v + 1) * d == 2 * (v * d) + d;
    if v < q {
      MulLess(v, q, d);
    } else if v > q {
      MulLess(q, v, d);
    }
  }

  lemma {:induction false} HalfUpIsNearest(r: Rat, scale: nat, v: int)
    requires r.den >= 1
    ensures HalfUp(r, scale) == v <==> Nearest(r, scale, v)
    ensures HalfUp(r, scale) >= 0
  {
    var x: nat := 2 * scale * r.num;
    QuoNearest(x, r.den, HalfUp(r, scale), v);
  }

  /** A parse succeeds with v exactly when v is the HALF-UP rounding of the text's meaning and fits an int64. */
  lemma {:induction false} ParseIsHalfUp(s: string, scale: nat, v: int)
    ensures ParseScaled(s, scale) == Ok(v) <==>
            Meaning(s).Some? && Nearest(Meaning(s).value, scale, v) && v <= MAX
    ensures ParseScaled(s, scale) == Ok(v) ==> 0 <= v
  {
    if Meaning(s).Some? {
      HalfUpIsNearest(Meaning(s).value, scale, v);
    }
  }

  // ---- format -----------------------------------------------------------

  /** "%d.%0wd". */
  function FormatFixed(whole: nat, frac: nat, w: nat): (s: string) {
    Digits(whole) + "." + PadLeft(Digits(frac), w)
  }

  function FormatCents(cents: int): (s: string)
    decreases cents < 0
  {
    if cents < 0 then "-" + FormatCents(-cents)
    else FormatFixed(cents / 100, cents % 100, 2)
  }

  function FormatMicros(micros: int): (s: string)
    decreases micros < 0
  {
    if micros < 0 then "-" + FormatMicros(-micros)
    else if micros % 1_000_000 == 0 then Digits(micros / 1_000_000)
    else
      var s := FormatFixed(micros / 1_000_000, micros % 1_000_000, 6);
      TrimRightChar(TrimRightChar(s, '0'), '.')
  }

  function FormatRatePpm(ppm: int): (s: string)
    decreases ppm < 0
  {
    if ppm < 0 then "-" + FormatRatePpm(-ppm)
    else FormatFixed(ppm / 1_000_000, ppm % 1_000_000, 6)
  }

  // ---- round trips ------------------------------------------------------

  lemma {:induction false} DigitSpanAll(s: string, tail: string)
    requires AllDigits(s) && (tail == "" || !IsDigit(tail[0]))
    ensures DigitSpan(s + tail) == |s|
  {
    if s == "" {
      assert s + tail == tail;
    } else {
      assert (s + tail)[1..] == s[1..] + tail;
      DigitSpanAll(s[1..], tail);
    }
  }

  lemma {:induction false} ScanPlain(whole: string, frac: string, s: string)
    requires AllDigits(whole) && AllDigits(frac)
    requires s == if frac == "" then whole else whole + "." + frac
    ensures ScanMantissa(s) == Mantissa(whole, frac, "")
  {
    hide DigitSpan;
    if frac != "" {
      ScanPointed(whole, frac);
    } else {
      assert whole + "" == whole;
      DigitSpanAll(whole, "");
    }
  }

  lemma {:induction false} ScanPointed(whole: string, frac: string)
    requires AllDigits(whole) && AllDigits(frac)
    ensures ScanMantissa(whole + "." + frac) == Mantissa(whole, frac, "")
  {
    hide DigitSpan, AllDigits;
    var s := whole + "." + frac;
    assert s == whole + ("." + frac);
    DigitSpanAll(whole, "." + frac);
    assert s[..|whole|] == whole;
    assert s[|whole| + 1..] == frac == frac + "";
    DigitSpanAll(frac, "");
    assert s[|whole| + 1..|s|] == frac;
  }

  /** What the rational parser makes of plain digits, with or without a point. */
  lemma {:induction false} ParseRatPlain(whole: string, frac: string, s: string)
    requires AllDigits(whole) && AllDigits(frac) && whole != ""
    requires s == if frac == "" then whole else whole + "." + frac
    ensures AllDigits(whole + frac)
    ensures ParseRat(s) == ScaledRat(Value(whole + frac), -|frac|)
  {
    hide ScanMantissa, ScaledRat, Value;
    ScanPlain(whole, frac, s);
    assert s[0] == whole[0];
  }

  /** Text meaning exactly v / scale parses to v. */
  lemma {:induction false} ParseExact(s: string, scale: nat, v: nat, r: Rat)
    requires s != "" && !IsSpace(s[0]) && !IsSpace(s[|s| - 1]) && s[0] != '-'
    requires ParseRat(s) == Some(r)
    requires scale * r.num == v * r.den
    requires v <= MAX
    ensures ParseScaled(s, scale) == Ok(v)
  {
    TrimSpaceNoop(s);
    NearestExact(r, scale, v);
    ParseIsHalfUp(s, scale, v);
  }

  lemma NearestExact(r: Rat, scale: nat, v: int)
    requires r.den >= 1 && scale * r.num == v * r.den
    ensures Nearest(r, scale, v)
  {
    assert (2 * v - 1) * r.den == 2 * (v * r.den) - r.den;
    assert (2 * v + 1) * r.den == 2 * (v * r.den) + r.den;
    assert 2 * scale * r.num == 2 * (scale * r.num);
  }

  /** Digits around an optional point, with k decimals, parse at scale 10^(k+z) to their value times 10^z. */
  lemma {:induction false} ParsePlain(whole: string, frac: string, scale: nat, m: nat, v: nat, s: string)
    requires AllDigits(whole) && AllDigits(frac) && whole != "" && |frac| <= 1_000_000
    requires s == if frac == "" then whole else whole + "." + frac
    requires AllDigits(whole + frac) && Value(whole + frac) == m
    requires scale * m == v * Pow10(|frac|) && v <= MAX
    ensures ParseScaled(s, scale) == Ok(v)
  {
    ParseRatPlain(whole, frac, s);
    assert IsDigit(s[0]) && IsDigit(s[|s| - 1]);
    ScaledRatExact(m, |frac|, scale, v);
    ParseExact(s, scale, v, ScaledRat(m, 0 - |frac|).value);
  }

  lemma ScaledRatExact(m: nat, k: nat, scale: nat, v: nat)
    requires k <= 1_000_000 && scale * m == v * Pow10(k)
    ensures var r := ScaledRat(m, 0 - k);
            r.Some? && scale * r.value.num == v * r.value.den
  {
    if m == 0 {
      ProductZero(v, Pow10(k));
    } else {
      ScaledRatPlain(m, k);
    }
  }

  lemma ProductZero(v: nat, p: nat)
    requires p >= 1 && v * p == 0
    ensures v == 0
  {
  }

  lemma ScaledRatPlain(m: nat, k: nat)
    requires m > 0 && k <= 1_000_000
    ensures ScaledRat(m, 0 - k).Some?
    ensures ScaledRat(m, 0 - k).value.num == m && ScaledRat(m, 0 - k).value.den == Pow10(k)
  {
    assert Pow10(0) == 1;
  }

  /** The two halves of a fixed-point number, printed and rejoined, are the number. */
  lemma FixedValue(whole: nat, frac: nat, w: nat)
    requires w >= 1 && frac < Pow10(w)
    ensures var f := PadLeft(Digits(frac), w);
            && |f| == w && AllDigits(Digits(whole) + f)
            && Value(Digits(whole) + f) == whole * Pow10(w) + frac
  {
    DigitsLength(frac, w);
    ValueConcat(Digits(whole), PadLeft(Digits(frac), w));
  }

  lemma {:induction false} FormatFixedRoundTrip(whole: nat, frac: nat, w: nat, n: nat)
    requires 1 <= w <= 1_000_000 && frac < Pow10(w)
    requires n == whole * Pow10(w) + frac && n <= MAX
    ensures ParseScaled(FormatFixed(whole, frac, w), Pow10(w)) == Ok(n)
  {
    FixedValue(whole, frac, w);
    ParsePlain(Digits(whole), PadLeft(Digits(frac), w), Pow10(w), n, n, FormatFixed(whole, frac, w));
  }

  lemma ScalePowers()
    ensures Pow10(2) == CENTS && Pow10(4) == 10_000 && Pow10(6) == MICROS
  {
    assert Pow10(1) == 10;
    assert Pow10(3) == 1000;
    assert Pow10(4) == 10_000;
    assert Pow10(5) == 100_000;
  }

  lemma NegativeIsRejected(s: string, scale: nat)
    requires s != "" && !IsSpace(s[|s| - 1])
    ensures ParseScaled("-" + s, scale) == Err(Negative)
  {
    TrimSpaceNoop("-" + s);
  }

  /** Printing then parsing cents is the identity exactly on the non-negative amounts. */
  lemma {:induction false} CentsRoundTrip(n: int)
    requires MIN < n <= MAX
    ensures ParseMajorToCents(FormatCents(n)) == if n >= 0 then Ok(n) else Err(Negative)
  {
    ScalePowers();
    if n >= 0 {
      FormatFixedRoundTrip(n / 100, n % 100, 2, n);
    } else {
      NegativeIsRejected(FormatCents(-n), CENTS);
    }
  }

  lemma {:induction false} RateRoundTrip(n: int)
    requires MIN < n <= MAX
    ensures ParseRateToPpm(FormatRatePpm(n)) == if n >= 0 then Ok(n) else Err(Negative)
  {
    ScalePowers();
    if n >= 0 {
      FormatFixedRoundTrip(n / 1_000_000, n % 1_000_000, 6, n);
    } else {
      NegativeIsRejected(FormatRatePpm(-n), MICROS);
    }
  }

  lemma KeptValue(frac: string, k: nat)
    requires AllDigits(frac) && k <= |frac| && forall i :: k <= i < |frac| ==> frac[i] == '0'
    ensures Value(frac) == Value(frac[..k]) * Pow10(|frac| - k)
  {
    var kept, zeros := frac[..k], frac[k..];
    assert frac == kept + zeros;
    ValueZeros(zeros);
    ValueConcat(kept, zeros);
  }

  lemma TrimPoint(s: string)
    requires s != "" && s[|s| - 1] != '.'
    ensures TrimRightChar(s, '.') == s
  {
  }

  /** Trimming stops inside b when b is not all c. */
  lemma {:induction false} TrimAppend(a: string, b: string, c: char)
    requires TrimRightChar(b, c) != ""
    ensures TrimRightChar(a + b, c) == a + TrimRightChar(b, c)
  {
    if b[|b| - 1] == c {
      var init := b[..|b| - 1];
      TrimAppend(a, init, c);
      assert (a + b)[..|a + b| - 1] == a + init;
    }
  }

  /** Trimming the zeros of "whole.frac" keeps the point and cuts frac only, when frac is not zero. */
  lemma {:induction false} TrimmedFraction(whole: string, frac: string) returns (kept: string)
    requires AllDigits(whole) && AllDigits(frac) && Value(frac) != 0
    ensures kept != "" && |kept| <= |frac| && kept == frac[..|kept|] && kept[|kept| - 1] != '0'
    ensures TrimRightChar(TrimRightChar(whole + "." + frac, '0'), '.') == whole + "." + kept
    ensures Value(frac) == Value(kept) * Pow10(|frac| - |kept|)
  {
    hide TrimRightChar, Value, Pow10;
    kept := TrimRightChar(frac, '0');
    if kept == "" {
      ValueZeros(frac);
      assert false;
    }
    assert whole + "." + frac == (whole + ".") + frac;
    TrimAppend(whole + ".", frac, '0');
    TrimPoint(whole + "." + kept);
    KeptValue(frac, |kept|);
  }

  lemma {:induction false} MicrosRoundTrip(n: int)
    requires MIN < n <= MAX
    ensures ParseQuantityToMicros(FormatMicros(n)) == if n >= 0 then Ok(n) else Err(Negative)
  {
    hide ParseScaled, TrimRightChar, FormatFixed;
    if n < 0 {
      FormatMicrosEnds(-n);
      NegativeIsRejected(FormatMicros(-n), MICROS);
    } else if n % MICROS == 0 {
      WholeRoundTrip(n / MICROS);
    } else {
      TrimmedRoundTrip(n / MICROS, n % MICROS, n);
    }
  }

  lemma {:induction false} WholeRoundTrip(units: nat)
    requires units * MICROS <= MAX
    ensures ParseScaled(Digits(units), MICROS) == Ok(units * MICROS)
  {
    assert Digits(units) + "" == Digits(units);
    ParsePlain(Digits(units), "", MICROS, units, units * MICROS, Digits(units));
  }

  lemma {:induction false} TrimmedRoundTrip(whole: nat, frac: nat, n: nat)
    requires 0 < frac < MICROS && n == whole * MICROS + frac && n <= MAX
    ensures ParseScaled(TrimRightChar(TrimRightChar(FormatFixed(whole, frac, 6), '0'), '.'), MICROS) == Ok(n)
  {
    hide TrimRightChar, Value, Pow10, ParseScaled, Digits, PadLeft;
    ScalePowers();
    FixedValue(whole, frac, 6);
    var w, f := Digits(whole), PadLeft(Digits(frac), 6);
    var kept := TrimmedFraction(w, f);
    ValueConcat(w, kept);
    Pow10Add(|kept|, 6 - |kept|);
    Rescale(whole, Value(kept), Pow10(|kept|), Pow10(6 - |kept|), n);
    ParsePlain(w, kept, MICROS, Value(w + kept), n, w + "." + kept);
  }

  lemma Rescale(whole: nat, kept: nat, k: nat, z: nat, n: nat)
    requires k * z == MICROS && n == whole * MICROS + kept * z
    ensures MICROS * (whole * k + kept) == n * k
  {
    assert n * k == whole * MICROS * k + kept * (k * z);
  }

  lemma FormatMicrosEnds(n: nat)
    ensures FormatMicros(n) != "" && IsDigit(FormatMicros(n)[|FormatMicros(n)| - 1])
  {
    if n % MICROS != 0 {
      ScalePowers();
      FixedValue(n / MICROS, n % MICROS, 6);
      var kept := TrimmedFraction(Digits(n / MICROS), PadLeft(Digits(n % MICROS), 6));
      assert FormatMicros(n) == Digits(n / MICROS) + "." + kept;
    }
  }

  // ---- what printed amounts look like -----------------------------------

  lemma {:induction false} NoLeadingZero(n: nat)
    ensures |Digits(n)| > 1 ==> Digits(n)[0] != '0'
  {
    if n >= 10 {
      NoLeadingZero(n / 10);
      assert Digits(n)[0] == Digits(n / 10)[0];
      if n / 10 < 10 {
        assert Digits(n / 10) == [DigitChar(n / 10)];
      }
    }
  }

  /** A whole part without a superfluous zero, a point, and exactly w digits. */
  predicate HasPlaces(s: string, w: nat) {
    && |s| > w + 1 && s[|s| - w - 1] == '.'
    && AllDigits(s[..|s| - w - 1]) && AllDigits(s[|s| - w..])
    && (|s| > w + 2 ==> s[0] != '0')
  }

  lemma {:induction false} FixedShape(whole: nat, frac: nat, w: nat)
    requires w >= 1 && frac < Pow10(w)
    ensures HasPlaces(FormatFixed(whole, frac, w), w)
  {
    hide Digits, PadLeft;
    NoLeadingZero(whole);
    DigitsLength(frac, w);
    var a, b := Digits(whole), PadLeft(Digits(frac), w);
    var s := a + "." + b;
    assert s[..|s| - w - 1] == a && s[|s| - w..] == b;
  }

  /** Cents are printed with two decimal places and rates with six. */
  lemma PrintedPlaces(n: nat)
    ensures HasPlaces(FormatCents(n), 2) && HasPlaces(FormatRatePpm(n), 6)
  {
    ScalePowers();
    FixedShape(n / 100, n % 100, 2);
    FixedShape(n / MICROS, n % MICROS, 6);
  }

  /** Quantities are printed whole, or with up to six decimal places of which the last is no zero. */
  lemma {:induction false} PrintedMicros(n: nat)
    ensures var s := FormatMicros(n);
            || (s != "" && AllDigits(s) && (|s| > 1 ==> s[0] != '0'))
            || (s != "" && s[|s| - 1] != '0' && exists w :: 1 <= w <= 6 && HasPlaces(s, w))
  {
    hide Digits, PadLeft, TrimRightChar, Value;
    if n % MICROS == 0 {
      NoLeadingZero(n / MICROS);
    } else {
      ScalePowers();
      FixedValue(n / MICROS, n % MICROS, 6);
      var a, b := Digits(n / MICROS), PadLeft(Digits(n % MICROS), 6);
      var kept := TrimmedFraction(a, b);
      NoLeadingZero(n / MICROS);
      var s := a + "." + kept;
      assert s[..|s| - |kept| - 1] == a && s[|s| - |kept|..] == kept;
      assert HasPlaces(s, |kept|);
    }
  }

  // ---- multiplication ---------------------------------------------------

  const SATURATED: int := 0x4000_0000_0000_0000

  /** cents * factor / 1_000_000, HALF-UP, saturating (multiplyCentsByMicros and multiplyCentsByPpm). */
  function MultiplyCents(cents: int, factor: int): (r: int)
    ensures Fits(r)
    ensures cents >= 0 && factor >= 0 ==> r >= 0
  {
    var q := Quo(cents * factor + 500_000, 1_000_000);
    if Fits(q) then q else SATURATED
  }

  /** The product is representable, so it is not replaced by the saturation value. */
  predicate Unsaturated(cents: int, factor: int) {
    Fits(Quo(cents * factor + 500_000, 1_000_000))
  }

  /**
   The product is within half a unit of exact, ties up, exactly when it is below saturation and the
   truncating division does not round a negative sum up; so for non-negative operands below saturation.
   */
  lemma MultiplyIsNearest(cents: int, factor: int)
    ensures var sum := cents * factor + 500_000;
            -500_000 < MultiplyCents(cents, factor) * 1_000_000 - cents * factor <= 500_000 <==>
            Unsaturated(cents, factor) && (sum >= 0 || sum % 1_000_000 == 0)
    ensures cents >= 0 && factor >= 0 ==> cents * factor >= 0
  {
    QuotientIsNearest(cents * factor);
  }

  lemma QuotientIsNearest(n: int)
    ensures var q := Quo(n + 500_000, 1_000_000);
            && (-500_000 < q * 1_000_000 - n <= 500_000 <==> n + 500_000 >= 0 || (n + 500_000) % 1_000_000 == 0)
            && (!Fits(q) ==> !(-500_000 < SATURATED * 1_000_000 - n <= 500_000))
  {
    var x := n + 500_000;
    var q := Quo(x, 1_000_000);
    assert x < 0 && x % 1_000_000 == 0 ==> q * 1_000_000 == x;
  }

  function PercentOff(cents: int, percent: string): (p: Parsed) {
    match ParseRateToPpm(percent)
    case Err(e) => Err(e)
    case Ok(ppm) => Ok(MultiplyCents(cents, ppm))
  }
}
