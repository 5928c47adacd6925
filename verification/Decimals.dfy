/** Decimal strings and token base units: parsing (`decimalToUnits`), printing
    (`formatUnits`) and the amount comparison of the order guard. */
module Decimals {
  import opened Outcomes

  datatype DecimalError = TooManyFractionDigits

  function Pow10(n: nat): (p: nat)
    ensures p >= 1
  {
    if n == 0 then 1 else 10 * Pow10(n - 1)
  }

  function Quotient(n: nat, scale: nat): nat
    requires scale > 0
  {
    n / scale
  }

  function Remainder(n: nat, scale: nat): nat
    requires scale > 0
  {
    n % scale
  }

  predicate IsDigit(c: char) {
    '0' <= c <= '9'
  }

  predicate AllDigits(s: string) {
    forall i :: 0 <= i < |s| ==> IsDigit(s[i])
  }

  function Digit(c: char): (d: nat)
    requires IsDigit(c)
    ensures d < 10
  {
    c as nat - '0' as nat
  }

  function DigitChar(d: nat): (c: char)
    requires d < 10
    ensures IsDigit(c) && Digit(c) == d
  {
    (d + '0' as nat) as char
  }

  /** The integer a string of digits denotes; the empty string denotes zero. */
  function DigitsValue(s: string): (n: nat)
    requires AllDigits(s)
  {
    if s == "" then 0 else 10 * DigitsValue(s[..|s| - 1]) + Digit(s[|s| - 1])
  }

  function ToDigits(n: nat): (s: string)
    ensures AllDigits(s)
  {
    if n < 10 then [DigitChar(n)] else ToDigits(n / 10) + [DigitChar(n % 10)]
  }

  function Zeros(n: nat): (s: string)
    ensures |s| == n && forall i :: 0 <= i < n ==> s[i] == '0'
  {
    seq(n, i => '0')
  }

  function PadEnd(s: string, length: nat): string {
    if |s| >= length then s else s + Zeros(length - |s|)
  }

  function PadStart(s: string, length: nat): string {
    if |s| >= length then s else Zeros(length - |s|) + s
  }

  function StripTrailingZeros(s: string): string {
    if s != "" && s[|s| - 1] == '0' then StripTrailingZeros(s[..|s| - 1]) else s
  }

  /** The position of the first decimal point, or the length when there is none. */
  function Point(s: string): (i: nat)
    ensures i <= |s|
    ensures forall j :: 0 <= j < i ==> s[j] != '.'
    ensures i < |s| ==> s[i] == '.'
  {
    if s == "" || s[0] == '.' then 0 else 1 + Point(s[1..])
  }

  predicate IsWhole(w: string) {
    w != "" && AllDigits(w) && (w[0] == '0' ==> |w| == 1)
  }

  function Whole(s: string): string { s[..Point(s)] }

  function Fraction(s: string): string { if Point(s) == |s| then "" else s[Point(s) + 1..] }

  /** Unsigned decimals: no redundant leading zero, and digits after a decimal point if there is one. */
  predicate IsDecimal(s: string) {
    && IsWhole(Whole(s))
    && AllDigits(Fraction(s))
    && (Point(s) < |s| ==> Fraction(s) != "")
  }

  function DecimalToUnits(value: string, decimals: nat): Result<nat, DecimalError>
    requires IsDecimal(value)
  {
    var whole, fraction := Whole(value), Fraction(value);
    if |fraction| > decimals then Err(TooManyFractionDigits)
    else
      Ok(ScaledDigits(whole, fraction, decimals))
  }

  function ScaledDigits(whole: string, fraction: string, decimals: nat): nat
    requires AllDigits(whole) && AllDigits(fraction)
  {
    PadEndDigits(fraction, decimals);
    DigitsValue(whole) * Pow10(decimals) + DigitsValue(PadEnd(fraction, decimals))
  }

  function FormatUnits(value: nat, decimals: nat): string {
    var scale := Pow10(decimals);
    var whole := ToDigits(Quotient(value, scale));
    var fraction := StripTrailingZeros(PadStart(ToDigits(Remainder(value, scale)), decimals));
    if fraction != "" then whole + "." + fraction else whole
  }

  /** Comparison of two amounts; either side may exceed the configured precision. */
  function EqualAmounts(left: string, right: string, decimals: nat): Result<bool, DecimalError>
    requires IsDecimal(left) && IsDecimal(right)
  {
    match (DecimalToUnits(left, decimals), DecimalToUnits(right, decimals))
    case (Ok(l), Ok(r)) => Ok(l == r)
    case (_, _) => Err(TooManyFractionDigits)
  }

  /** The number a decimal string denotes, independently of any scale. */
  ghost function Denotes(s: string): real
    requires IsDecimal(s)
  {
    Mixed(DigitsValue(Whole(s)), DigitsValue(Fraction(s)), Pow10(|Fraction(s)|))
  }

  /** A whole part and a fraction `n / p`. */
  ghost function Mixed(whole: nat, n: nat, p: nat): real
    requires p > 0
  {
    whole as real + n as real / p as real
  }

  ghost function Scaled(x: real, scale: nat): real {
    x * scale as real
  }

  /** The shortest decimal with the same digits: trailing fraction zeros dropped. */
  function Canonical(s: string): string {
    var fraction := StripTrailingZeros(Fraction(s));
    if fraction != "" then Whole(s) + "." + fraction else Whole(s)
  }

  // ---- digits ----

  lemma PadEndDigits(s: string, length: nat)
    requires AllDigits(s)
    ensures AllDigits(PadEnd(s, length))
  {
  }

  lemma MulAssocNat(x: nat, y: nat, z: nat)
    ensures x * (y * z) == (x * y) * z
  {
  }

  lemma MulShift(x: nat, y: nat)
    ensures x * (10 * y) == 10 * (x * y)
  {
  }

  lemma {:induction false} PowAdd(a: nat, b: nat)
    ensures Pow10(a + b) == Pow10(a) * Pow10(b)
  {
    if a > 0 {
      PowAdd(a - 1, b);
      MulAssocNat(10, Pow10(a - 1), Pow10(b));
    }
  }

  lemma {:induction false} DigitsValueBound(s: string)
    requires AllDigits(s)
    ensures DigitsValue(s) < Pow10(|s|)
  {
    if s != "" {
      DigitsValueBound(s[..|s| - 1]);
    }
  }

  lemma {:induction false} DigitsValueAppend(a: string, b: string)
    requires AllDigits(a) && AllDigits(b)
    ensures DigitsValue(a + b) == DigitsValue(a) * Pow10(|b|) + DigitsValue(b)
  {
    if b == "" {
      assert a + b == a;
    } else {
      var front := b[..|b| - 1];
      assert (a + b)[..|a + b| - 1] == a + front;
      DigitsValueAppend(a, front);
      MulShift(DigitsValue(a), Pow10(|front|));
    }
  }

  lemma {:induction false} ZerosValue(n: nat)
    ensures DigitsValue(Zeros(n)) == 0
  {
    if n > 0 {
      assert Zeros(n)[..n - 1] == Zeros(n - 1);
      ZerosValue(n - 1);
    }
  }

  lemma PadEndValue(s: string, length: nat)
    requires AllDigits(s) && |s| <= length
    ensures AllDigits(PadEnd(s, length)) && |PadEnd(s, length)| == length
    ensures DigitsValue(PadEnd(s, length)) == DigitsValue(s) * Pow10(length - |s|)
  {
    var z := Zeros(length - |s|);
    ZerosValue(length - |s|);
    DigitsValueAppend(s, z);
    assert PadEnd(s, length) == s + z;
  }

  lemma PadStartValue(s: string, length: nat)
    requires AllDigits(s)
    ensures AllDigits(PadStart(s, length))
    ensures DigitsValue(PadStart(s, length)) == DigitsValue(s)
  {
    if |s| < length {
      ZerosValue(length - |s|);
      DigitsValueAppend(Zeros(length - |s|), s);
    }
  }

  lemma {:induction false} ToDigitsValue(n: nat)
    ensures DigitsValue(ToDigits(n)) == n && IsWhole(ToDigits(n))
    ensures n > 0 ==> ToDigits(n)[0] != '0'
  {
    if n >= 10 {
      ToDigitsValue(n / 10);
      assert ToDigits(n)[..|ToDigits(n)| - 1] == ToDigits(n / 10);
    }
  }

  lemma {:induction false} ToDigitsLength(n: nat, d: nat)
    requires n < Pow10(d) && d > 0
    ensures |ToDigits(n)| <= d
  {
    if n >= 10 {
      assert Pow10(d) == 10 * Pow10(d - 1) && Pow10(0) == 1;
      ToDigitsLength(n / 10, d - 1);
    }
  }

  /** Digit strings of one length are determined by their value. */
  lemma {:induction false} DigitsInjective(a: string, b: string)
    requires AllDigits(a) && AllDigits(b) && |a| == |b|
    requires DigitsValue(a) == DigitsValue(b)
    ensures a == b
  {
    if a != "" {
      var i := |a| - 1;
      assert Digit(a[i]) == DigitsValue(a) % 10 == Digit(b[i]);
      assert DigitsValue(a[..i]) == DigitsValue(a) / 10 == DigitsValue(b[..i]);
      DigitsInjective(a[..i], b[..i]);
      assert a == a[..i] + [a[i]] && b == b[..i] + [b[i]];
    }
  }

  lemma {:induction false} WholeLowerBound(w: string)
    requires IsWhole(w) && w[0] != '0'
    ensures DigitsValue(w) >= Pow10(|w| - 1)
  {
    if |w| == 1 {
      assert w[..0] == "";
    } else {
      WholeLowerBound(w[..|w| - 1]);
    }
  }

  /** Printing the value of an integer without leading zeros gives it back. */
  lemma {:induction false} ToDigitsOfValue(w: string)
    requires IsWhole(w)
    ensures ToDigits(DigitsValue(w)) == w
  {
    var i := |w| - 1;
    if i == 0 {
      assert w[..0] == "" && DigitsValue(w) == Digit(w[0]);
      assert w == [w[0]];
    } else {
      ToDigitsOfValue(w[..i]);
      WholeLowerBound(w[..i]);
      assert DigitsValue(w) / 10 == DigitsValue(w[..i]) && DigitsValue(w) % 10 == Digit(w[i]);
      assert w == w[..i] + [w[i]];
    }
  }

  // ---- trailing zeros ----

  lemma {:induction false} StripDecomposition(s: string)
    requires AllDigits(s)
    ensures AllDigits(StripTrailingZeros(s)) && |StripTrailingZeros(s)| <= |s|
    ensures PadEnd(StripTrailingZeros(s), |s|) == s
  {
    if s != "" && s[|s| - 1] == '0' {
      var front := s[..|s| - 1];
      StripDecomposition(front);
      var t := StripTrailingZeros(front);
      assert s == front + "0";
      assert Zeros(|s| - |t|) == Zeros(|front| - |t|) + "0";
      assert t + Zeros(|front| - |t|) == front;
      assert t + Zeros(|s| - |t|) == s;
    }
  }

  lemma {:induction false} StripPadded(s: string, n: nat)
    ensures StripTrailingZeros(s + Zeros(n)) == StripTrailingZeros(s)
  {
    if n == 0 {
      assert s + Zeros(0) == s;
    } else {
      assert (s + Zeros(n))[..|s| + n - 1] == s + Zeros(n - 1);
      StripPadded(s, n - 1);
    }
  }

  // ---- the scaled value of a decimal ----

  lemma ScaledUnits(w: nat, n: nat, p: nat, q: nat, scale: nat)
    requires p > 0 && scale == p * q
    ensures Scaled(Mixed(w, n, p), scale) == (w * scale + n * q) as real
  {
  }

  lemma ReduceMixed(w: nat, n: nat, p: nat, q: nat, nq: nat, pq: nat)
    requires p > 0 && q > 0 && pq > 0 && nq == n * q && pq == p * q
    ensures Mixed(w, nq, pq) == Mixed(w, n, p)
  {
  }

  lemma CancelScale(x: real, y: real, scale: nat)
    requires scale > 0
    ensures Scaled(x, scale) == Scaled(y, scale) <==> x == y
  {
  }

  lemma ScaledDigitsDenote(w: string, f: string, d: nat)
    requires AllDigits(w) && AllDigits(f) && |f| <= d
    ensures ScaledDigits(w, f, d) as real == Scaled(Mixed(DigitsValue(w), DigitsValue(f), Pow10(|f|)), Pow10(d))
  {
    PadEndValue(f, d);
    PowAdd(|f|, d - |f|);
    ScaledUnits(DigitsValue(w), DigitsValue(f), Pow10(|f|), Pow10(d - |f|), Pow10(d));
  }

  /** Parsing succeeds exactly when the precision suffices, and scales the denoted number exactly. */
  lemma UnitsScaleDenotation(s: string, d: nat)
    requires IsDecimal(s)
    ensures DecimalToUnits(s, d).Ok? <==> |Fraction(s)| <= d
    ensures DecimalToUnits(s, d).Ok? ==> DecimalToUnits(s, d).value as real == Scaled(Denotes(s), Pow10(d))
  {
    if |Fraction(s)| <= d {
      ScaledDigitsDenote(Whole(s), Fraction(s), d);
    }
  }

  /** Two amounts within the configured precision compare equal exactly when they denote one number. */
  lemma EqualAmountsIffSameNumber(left: string, right: string, d: nat)
    requires IsDecimal(left) && IsDecimal(right)
    ensures EqualAmounts(left, right, d).Ok? <==> |Fraction(left)| <= d && |Fraction(right)| <= d
    ensures EqualAmounts(left, right, d).Ok? ==>
              (EqualAmounts(left, right, d).value <==> Denotes(left) == Denotes(right))
  {
    UnitsScaleDenotation(left, d);
    UnitsScaleDenotation(right, d);
    if EqualAmounts(left, right, d).Ok? {
      CancelScale(Denotes(left), Denotes(right), Pow10(d));
    }
  }

  // ---- printing ----

  /** Cutting a printed decimal at its point recovers the two digit strings. */
  lemma {:induction false} PointOfJoin(w: string, f: string)
    requires AllDigits(w)
    ensures Point(w) == |w| && Whole(w) == w && Fraction(w) == ""
    ensures Point(w + "." + f) == |w| && Whole(w + "." + f) == w && Fraction(w + "." + f) == f
  {
    var s := w + "." + f;
    var i := Point(w);
    assert i == |w|;
    var j := Point(s);
    assert s[|w|] == '.';
    assert j == |w|;
  }

  lemma QuotientUnique(n: int, scale: int, q: int, r: int)
    requires 0 <= r < scale && n == q * scale + r
    ensures n / scale == q && n % scale == r
  {
    var k := n / scale - q;
    assert n == n / scale * scale + n % scale;
    assert k * scale == r - n % scale by { assert k * scale == n / scale * scale - q * scale; }
    if k > 0 {
      LeMul(1, k, scale);
    } else if k < 0 {
      LeMul(k, -1, scale);
    }
  }

  lemma LeMul(a: int, b: int, c: int)
    requires a <= b && c >= 0
    ensures a * c <= b * c
  {
  }

  lemma QuotientRemainder(n: nat, scale: nat)
    requires scale > 0
    ensures n == Quotient(n, scale) * scale + Remainder(n, scale) && Remainder(n, scale) < scale
  {
  }

  /** The fraction digits printed for a remainder, before zeros are dropped. */
  lemma FractionDigits(rest: nat, d: nat)
    requires rest < Pow10(d)
    ensures AllDigits(PadStart(ToDigits(rest), d)) && DigitsValue(PadStart(ToDigits(rest), d)) == rest
    ensures d > 0 ==> |PadStart(ToDigits(rest), d)| == d
    ensures d == 0 ==> PadStart(ToDigits(rest), d) == "0"
  {
    ToDigitsValue(rest);
    PadStartValue(ToDigits(rest), d);
    if d > 0 {
      ToDigitsLength(rest, d);
    }
  }

  /** Parsing a printed amount gives it back, for every amount and every precision. */
  lemma ParseOfFormat(n: nat, d: nat)
    ensures IsDecimal(FormatUnits(n, d))
    ensures DecimalToUnits(FormatUnits(n, d), d) == Ok(n)
  {
    var scale := Pow10(d);
    var q, r := Quotient(n, scale), Remainder(n, scale);
    QuotientRemainder(n, scale);
    var whole := ToDigits(q);
    var padded := PadStart(ToDigits(r), d);
    var fraction := StripTrailingZeros(padded);
    ToDigitsValue(q);
    FractionDigits(r, d);
    StripDecomposition(padded);
    PointOfJoin(whole, fraction);
    if d == 0 {
      assert padded[..0] == "" && StripTrailingZeros(padded) == "";
      assert DigitsValue(PadEnd("", 0)) == 0;
    } else {
      assert PadEnd(fraction, d) == padded;
    }
  }

  /** The remainder of a parsed decimal prints as its own fraction digits. */
  lemma FractionOfParse(f: string, d: nat)
    requires AllDigits(f) && |f| <= d
    ensures AllDigits(PadEnd(f, d)) && DigitsValue(PadEnd(f, d)) < Pow10(d)
    ensures StripTrailingZeros(PadStart(ToDigits(DigitsValue(PadEnd(f, d))), d)) == StripTrailingZeros(f)
  {
    PadEndValue(f, d);
    DigitsValueBound(PadEnd(f, d));
    var part := DigitsValue(PadEnd(f, d));
    FractionDigits(part, d);
    if d == 0 {
      assert "0"[..0] == "";
    } else {
      DigitsInjective(PadStart(ToDigits(part), d), PadEnd(f, d));
      assert PadEnd(f, d) == f + Zeros(d - |f|);
      StripPadded(f, d - |f|);
    }
  }

  /** Printing a parsed decimal drops exactly its trailing fraction zeros. */
  lemma FormatOfParse(s: string, d: nat)
    requires IsDecimal(s) && |Fraction(s)| <= d
    ensures FormatUnits(DecimalToUnits(s, d).value, d) == Canonical(s)
  {
    var w, f := DigitsValue(Whole(s)), Fraction(s);
    FractionOfParse(f, d);
    SplitUnits(w, DigitsValue(PadEnd(f, d)), Pow10(d));
    ToDigitsOfValue(Whole(s));
  }

  lemma SplitUnits(whole: nat, part: nat, scale: nat)
    requires part < scale
    ensures Quotient(whole * scale + part, scale) == whole && Remainder(whole * scale + part, scale) == part
  {
    QuotientUnique(whole * scale + part, scale, whole, part);
  }

  /** The canonical form is a decimal that denotes the same number. */
  lemma CanonicalDenotes(s: string)
    requires IsDecimal(s)
    ensures IsDecimal(Canonical(s)) && Denotes(Canonical(s)) == Denotes(s)
  {
    var w, f := Whole(s), Fraction(s);
    var t := StripTrailingZeros(f);
    StripDecomposition(f);
    PointOfJoin(w, t);
    assert Whole(Canonical(s)) == w && Fraction(Canonical(s)) == t;
    PadEndValue(t, |f|);
    PowAdd(|t|, |f| - |t|);
    ReduceMixed(DigitsValue(w), DigitsValue(t), Pow10(|t|), Pow10(|f| - |t|), DigitsValue(f), Pow10(|f|));
  }

  // ---- the texts of decimals ----

  /** Some digits. */
  ghost predicate Digits(s: string) {
    s != "" && forall i :: 0 <= i < |s| ==> s[i] in "0123456789"
  }

  /** A number without redundant leading zeros. */
  ghost predicate WholeText(w: string) {
    Digits(w) && (w[0] == '0' ==> w == "0")
  }

  ghost predicate Joins(s: string, w: string, f: string) {
    WholeText(w) && Digits(f) && s == w + "." + f
  }

  /** A number, alone or followed by a point and digits. */
  ghost predicate DecimalText(s: string) {
    WholeText(s) || exists w, f :: Joins(s, w, f)
  }

  lemma DigitExact(c: char)
    ensures IsDigit(c) <==> c in "0123456789"
  {
    if IsDigit(c) { assert "0123456789"[c as int - 48] == c; }
  }

  lemma DigitsExact(s: string)
    ensures Digits(s) <==> s != "" && AllDigits(s)
  {
    forall c ensures IsDigit(c) <==> c in "0123456789" {
      DigitExact(c);
    }
  }

  lemma WholeExact(w: string)
    ensures IsWhole(w) <==> WholeText(w)
  {
    DigitsExact(w);
    assert |w| == 1 && w[0] == '0' ==> w == "0";
  }

  lemma DecimalIsText(s: string)
    requires IsDecimal(s)
    ensures DecimalText(s)
  {
    WholeExact(Whole(s));
    DigitsExact(Fraction(s));
    if Point(s) == |s| {
      assert s == Whole(s);
    } else {
      PointIsDot(s);
      assert Joins(s, Whole(s), Fraction(s));
    }
  }

  lemma {:induction false} PointIsDot(s: string)
    requires Point(s) < |s|
    ensures s[Point(s)] == '.'
  {
    if s[0] != '.' { PointIsDot(s[1..]); }
  }

  lemma JoinIsDecimal(s: string, w: string, f: string)
    requires Joins(s, w, f)
    ensures IsDecimal(s)
  {
    WholeExact(w);
    DigitsExact(w);
    DigitsExact(f);
    PointOfJoin(w, f);
  }

  /** The unsigned decimals are exactly these texts. */
  lemma DecimalExact(s: string)
    ensures IsDecimal(s) <==> DecimalText(s)
  {
    if IsDecimal(s) { DecimalIsText(s); }
    if WholeText(s) {
      WholeExact(s);
      PointOfJoin(s, "");
    }
    if w, f :| Joins(s, w, f) { JoinIsDecimal(s, w, f); }
  }
}
