/** Finite decimals, their fixed-point text, and reading it back. */
module DecimalText {
  import opened Wrappers

  /** (-1)^negative * coefficient * 10^exponent. Different decimals may have one value. */
  datatype Decimal = Decimal(negative: bool, coefficient: nat, exponent: int)

  function Pow10(k: nat): (p: nat)
    ensures p > 0
  {
    if k == 0 then 1 else 10 * Pow10(k - 1)
  }

  function Value(d: Decimal): real {
    var magnitude :=
      if d.exponent >= 0 then (d.coefficient * Pow10(d.exponent)) as real
      else d.coefficient as real / Pow10(-d.exponent) as real;
    if d.negative then -magnitude else magnitude
  }

  // -------------------------------------------------------------------- digit strings

  predicate IsDigit(c: char) { '0' <= c <= '9' }

  predicate AllDigits(s: string) { forall i :: 0 <= i < |s| ==> IsDigit(s[i]) }

  function DigitOf(n: nat): (c: char)
    requires n < 10
    ensures IsDigit(c) && c as int - '0' as int == n
  {
    ('0' as int + n) as char
  }

  function Digits(n: nat): (s: string)
    ensures AllDigits(s) && s != ""
  {
    if n < 10 then [DigitOf(n)] else Digits(n / 10) + [DigitOf(n % 10)]
  }

  function Number(s: string): nat
    requires AllDigits(s)
  {
    if s == "" then 0
    else 10 * Number(s[..|s| - 1]) + (s[|s| - 1] as int - '0' as int)
  }

  function Zeros(n: nat): (s: string)
    ensures |s| == n && AllDigits(s)
  {
    if n == 0 then "" else Zeros(n - 1) + "0"
  }

  lemma {:induction false} DigitsReadBack(n: nat)
    ensures Number(Digits(n)) == n
  {
    if n >= 10 {
      DigitsReadBack(n / 10);
      var s := Digits(n);
      assert s[..|s| - 1] == Digits(n / 10);
    } else {
      assert Digits(n)[..0] == "";
    }
  }

  lemma {:induction false} LeadingZeros(n: nat, s: string)
    requires AllDigits(s)
    ensures AllDigits(Zeros(n) + s) && Number(Zeros(n) + s) == Number(s)
  {
    var t := Zeros(n) + s;
    if s == "" {
      assert t == Zeros(n);
      if n > 0 {
        LeadingZeros(n - 1, "");
        assert t[..|t| - 1] == Zeros(n - 1) + "";
      }
    } else {
      LeadingZeros(n, s[..|s| - 1]);
      assert t[..|t| - 1] == Zeros(n) + s[..|s| - 1];
    }
  }

  lemma {:induction false} TrailingZeros(s: string, n: nat)
    requires AllDigits(s)
    ensures AllDigits(s + Zeros(n)) && Number(s + Zeros(n)) == Number(s) * Pow10(n)
  {
    var t := s + Zeros(n);
    if n == 0 {
      assert t == s;
    } else {
      TrailingZeros(s, n - 1);
      assert t[..|t| - 1] == s + Zeros(n - 1);
      assert t[|t| - 1] == '0';
    }
  }

  // --------------------------------------------------------------- fixed-point notation

  /** No exponent is ever printed: positive ones become zeros, negative ones places. */
  function Print(d: Decimal): string {
    (if d.negative then "-" else "") + Magnitude(d)
  }

  function Magnitude(d: Decimal): string {
    var digits := Digits(d.coefficient);
    if d.exponent >= 0 then
      if d.coefficient == 0 then "0" else digits + Zeros(d.exponent)
    else
      var padded := Padded(digits, -d.exponent);
      padded[..|padded| + d.exponent] + "." + padded[|padded| + d.exponent..]
  }

  /** At least one digit in front of `places` others. */
  function Padded(digits: string, places: nat): (s: string)
    ensures |s| > places
  {
    if |digits| > places then digits else Zeros(places + 1 - |digits|) + digits
  }

  /** The place of the first point, or the length. */
  function PointIn(s: string): (i: nat)
    ensures i <= |s|
    ensures forall j :: 0 <= j < i ==> s[j] != '.'
    ensures i < |s| ==> s[i] == '.'
  {
    if s == "" || s[0] == '.' then 0 else 1 + PointIn(s[1..])
  }

  /** Reads digits, and perhaps a point and more digits. */
  function ParseMagnitude(negative: bool, s: string): Option<Decimal> {
    var point := PointIn(s);
    if point == |s| then
      if s != "" && AllDigits(s) then Some(Decimal(negative, Number(s), 0)) else None
    else
      var whole, places := s[..point], s[point + 1..];
      if AllDigits(whole + places) && whole + places != ""
      then Some(Decimal(negative, Number(whole + places), -(|places| as int))) else None
  }

  function Parse(s: string): Option<Decimal> {
    if s != "" && s[0] == '-' then ParseMagnitude(true, s[1..]) else ParseMagnitude(false, s)
  }

  /** The decimal a text printed in fixed-point notation stands for. */
  function Fixed(d: Decimal): Decimal {
    if d.exponent <= 0 then d else Decimal(d.negative, d.coefficient * Pow10(d.exponent), 0)
  }

  lemma NoPointInDigits(s: string)
    requires AllDigits(s)
    ensures PointIn(s) == |s|
  {
    if PointIn(s) < |s| {
      assert !IsDigit(s[PointIn(s)]);
    }
  }

  lemma PointAfterDigits(whole: string, places: string)
    requires AllDigits(whole)
    ensures PointIn(whole + "." + places) == |whole|
  {
    var s := whole + "." + places;
    forall j | 0 <= j < |whole| ensures s[j] != '.' {
      assert IsDigit(whole[j]);
    }
    assert s[|whole|] == '.';
  }

  lemma PaddedDigits(digits: string, places: nat)
    requires AllDigits(digits)
    ensures AllDigits(Padded(digits, places)) && Number(Padded(digits, places)) == Number(digits)
  {
    if |digits| <= places {
      LeadingZeros(places + 1 - |digits|, digits);
    }
  }

  lemma WholeReadsBack(negative: bool, s: string)
    requires AllDigits(s) && s != ""
    ensures ParseMagnitude(negative, s) == Some(Decimal(negative, Number(s), 0))
  {
    hide Number;
    NoPointInDigits(s);
  }

  lemma PlacesReadBack(negative: bool, whole: string, places: string)
    requires AllDigits(whole) && AllDigits(places) && places != ""
    ensures AllDigits(whole + places)
    ensures ParseMagnitude(negative, whole + "." + places)
         == Some(Decimal(negative, Number(whole + places), -(|places| as int)))
  {
    hide Number, PointIn;
    PointAfterDigits(whole, places);
    var s := whole + "." + places;
    assert s[..|whole|] == whole && s[|whole| + 1..] == places;
    DigitsJoined(whole, places);
    hide AllDigits;
  }

  lemma DigitsJoined(whole: string, places: string)
    requires AllDigits(whole) && AllDigits(places)
    ensures AllDigits(whole + places)
  {
  }

  lemma ZeroReadsBack()
    ensures Number("0") == 0 && Digits(0) == "0"
  {
    DigitsReadBack(0);
  }

  lemma MagnitudeReadsBack(d: Decimal)
    ensures ParseMagnitude(d.negative, Magnitude(d)) == Some(Fixed(d))
    ensures Magnitude(d) != "" && IsDigit(Magnitude(d)[0])
  {
    hide Digits, Number, ParseMagnitude, Padded;
    var digits := Digits(d.coefficient);
    DigitsReadBack(d.coefficient);
    ZeroReadsBack();
    if d.exponent < 0 {
      PaddedDigits(digits, -d.exponent);
      var padded := Padded(digits, -d.exponent);
      var whole, places := padded[..|padded| + d.exponent], padded[|padded| + d.exponent..];
      PlacesReadBack(d.negative, whole, places);
      assert whole + places == padded;
    } else if d.coefficient == 0 {
      WholeReadsBack(d.negative, "0");
      assert 0 * Pow10(d.exponent) == 0;
    } else {
      TrailingZeros(digits, d.exponent);
      WholeReadsBack(d.negative, digits + Zeros(d.exponent));
    }
  }

  /** What is printed reads back as the same number, to the same decimal unless a positive
      exponent has been written out. */
  lemma PrintReadsBack(d: Decimal)
    ensures Parse(Print(d)) == Some(Fixed(d))
  {
    hide Magnitude, ParseMagnitude, Fixed;
    MagnitudeReadsBack(d);
    var m := Magnitude(d);
    assert ("-" + m)[1..] == m;
    assert "" + m == m;
  }

  lemma OneZeroMore(n: nat)
    requires n > 0
    ensures Digits(10 * n) == Digits(n) + "0"
  {
    assert 10 * n / 10 == n && 10 * n % 10 == 0;
  }

  lemma ScaledByTen(c: nat, e: nat)
    requires e > 0
    ensures c * Pow10(e) == 10 * (c * Pow10(e - 1))
    ensures c > 0 ==> c * Pow10(e - 1) > 0
  {
    var p := Pow10(e - 1);
    assert c * (10 * p) == 10 * (c * p);
  }

  lemma {:induction false} DigitsScaled(c: nat, e: nat)
    requires c > 0
    ensures Digits(c * Pow10(e)) == Digits(c) + Zeros(e)
  {
    if e == 0 {
      assert c * Pow10(0) == c;
      assert Digits(c) + "" == Digits(c);
    } else {
      hide Digits, Pow10;
      DigitsScaled(c, e - 1);
      ScaledByTen(c, e);
      OneZeroMore(c * Pow10(e - 1));
      assert Digits(c) + Zeros(e - 1) + "0" == Digits(c) + Zeros(e);
    }
  }

  /** The same number, and the same text: printing again changes nothing. */
  lemma FixedIsSame(d: Decimal)
    ensures Value(Fixed(d)) == Value(d) && Print(Fixed(d)) == Print(d)
    ensures Fixed(d) == d <==> d.exponent <= 0
  {
    hide Digits, Zeros, Padded;
    if d.exponent > 0 {
      if d.coefficient > 0 {
        DigitsScaled(d.coefficient, d.exponent);
      }
      FixedPlain(d);
    }
  }

  lemma FixedPlain(d: Decimal)
    requires d.exponent > 0
    ensures var c := d.coefficient * Pow10(d.exponent);
      c * Pow10(0) == c && (d.coefficient == 0 ==> c == 0) && (d.coefficient > 0 ==> c > 0)
    ensures forall s: string :: s + Zeros(0) == s
  {
  }
}
