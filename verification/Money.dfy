/** Amounts: exact decimals, rounding to cents, and the text a cent amount is written as. */
module Money {
  import opened Results
  import opened Text

  /** The nearest integer, halves away from zero. */
  function RoundHalfUp(x: real): int {
    if x >= 0.0 then (x + 0.5).Floor else -((0.5 - x).Floor)
  }

  /** Cents nearest to an amount. */
  function HalfUp(amount: real): int { RoundHalfUp(amount * 100.0) }

  predicate IsCents(amount: real, cents: int) { amount * 100.0 == cents as real }

  predicate CentPrecise(amount: real) { IsCents(amount, (amount * 100.0).Floor) }

  lemma HalfUpIsExact(amount: real, cents: int)
    requires IsCents(amount, cents)
    ensures HalfUp(amount) == cents
  {
    var x := cents as real;
    assert (x + 0.5).Floor == cents;
    assert (0.5 - x).Floor == -cents;
  }

  /** Rounding to cents is to the nearest, and half a cent goes away from zero. */
  lemma HalfUpIsNearest(amount: real)
    ensures var x, n := amount * 100.0, HalfUp(amount) as real;
            && -0.5 <= n - x <= 0.5 && (n - x == 0.5 ==> x > 0.0) && (n - x == -0.5 ==> x < 0.0)
  {
  }

  /** Two decimals, always. */
  function CentsText(cents: int): string {
    var magnitude := if cents < 0 then -cents else cents;
    (if cents < 0 then "-" else "") + NatText(magnitude / 100) + "." + ZeroFill(NatText(magnitude % 100), 2)
  }

  function PointFrom(text: string, i: nat): nat
    requires i <= |text|
    decreases |text| - i
  {
    if i == |text| || text[i] == '.' then i else PointFrom(text, i + 1)
  }

  /** The digits before and after the decimal point, read to the nearest cent, halves away from zero. */
  function MagnitudeOf(text: string): Option<nat> {
    var at := PointFrom(text, 0);
    if at > |text| then None
    else
      var whole := text[..at];
      var fraction := if at < |text| then text[at + 1..] else "";
      if !AllDigits(whole) || !AllDigits(fraction) || whole + fraction == "" then None
      else
        var padded := fraction + Zeros(2);
        var carry := if |fraction| > 2 && fraction[2] >= '5' then 1 else 0;
        Some(NatValue(whole) * 100 + (padded[0] as int - 48) * 10 + (padded[1] as int - 48) + carry)
  }

  /** A cell's amount in cents; an empty cell is zero, a text that is no number is an error. */
  function ParseMoney(cell: string): Option<int> {
    var text := Strip(cell);
    if text == "" then Some(0)
    else if text[0] == '-' then Signed(-1, MagnitudeOf(text[1..]))
    else if text[0] == '+' then Signed(1, MagnitudeOf(text[1..]))
    else Signed(1, MagnitudeOf(text))
  }

  function Signed(sign: int, magnitude: Option<nat>): Option<int> {
    if magnitude.None? then None else Some(sign * magnitude.value)
  }

  lemma {:induction false} PointIsFound(before: string, after: string, i: nat)
    requires AllDigits(before) && i <= |before|
    ensures PointFrom(before + "." + after, i) == |before|
    decreases |before| - i
  {
    if i < |before| { PointIsFound(before, after, i + 1); }
  }

  lemma TwoDigits(n: nat)
    requires n < 100
    ensures var t := ZeroFill(NatText(n), 2);
            |t| == 2 && AllDigits(t) && (t[0] as int - 48) * 10 + (t[1] as int - 48) == n
  {
    if n >= 10 {
      assert NatText(n / 10) == [DigitChar(n / 10)];
    } else {
      assert Zeros(1) == ['0'];
    }
  }

  lemma MagnitudeRoundTrip(n: nat)
    ensures MagnitudeOf(NatText(n / 100) + "." + ZeroFill(NatText(n % 100), 2)) == Some(n)
  {
    var whole, fraction := NatText(n / 100), ZeroFill(NatText(n % 100), 2);
    var text := whole + "." + fraction;
    NatTextParses(n / 100);
    TwoDigits(n % 100);
    PointIsFound(whole, fraction, 0);
    assert text[..|whole|] == whole && text[|whole| + 1..] == fraction;
  }

  /** Writing cents and reading the cell back loses nothing. */
  lemma MoneyRoundTrip(cents: int)
    ensures Trimmed(CentsText(cents)) && CentsText(cents) != ""
    ensures ParseMoney(CentsText(cents)) == Some(cents)
  {
    hide MagnitudeOf, Strip, ZeroFill, NatText;
    var n := if cents < 0 then -cents else cents;
    var text := CentsText(cents);
    NatTextParses(n / 100);
    TwoDigits(n % 100);
    MagnitudeRoundTrip(n);
    var magnitude := NatText(n / 100) + "." + ZeroFill(NatText(n % 100), 2);
    assert text == (if cents < 0 then "-" else "") + magnitude;
    assert text[|text| - 1] == magnitude[|magnitude| - 1] == ZeroFill(NatText(n % 100), 2)[1];
    assert magnitude[0] == NatText(n / 100)[0];
    StripFixes(text);
    if cents < 0 { assert text[1..] == magnitude; } else { assert text == magnitude; }
  }

  // ---------------------------------------------------------------- any decimal text

  /** A run of digits is half its scale or more if and only if its first digit is five or more. */
  lemma {:induction false} HalfByFirstDigit(s: string)
    requires s != "" && AllDigits(s)
    ensures 2 * NatValue(s) >= PowerOfTen(|s|) <==> s[0] >= '5'
    decreases |s|
  {
    if |s| == 1 {
      assert s[..0] == "";
    } else {
      HalfByFirstDigit(s[..|s| - 1]);
      HalfIsEven(|s| - 1);
    }
  }

  lemma HalfIsEven(n: nat)
    requires n >= 1
    ensures PowerOfTen(n) == 2 * (5 * PowerOfTen(n - 1))
  {
  }

  /** The first `k` characters are the digits before the point, if there is one, and all others digits after it; the
      decimal, to the nearest cent and halves up, is `n`. */
  predicate Decimal(text: string, k: nat, n: nat)
    requires k <= |text|
  {
    && AllDigits(text[..k]) && text != "" && text != "."
    && if k == |text| then n == NatValue(text[..k]) * 100
       else
         && text[k] == '.' && AllDigits(text[k + 1..])
         && var fraction := text[k + 1..];
            n == NatValue(text[..k]) * 100
                 + if |fraction| <= 2 then NatValue(fraction) * PowerOfTen(2 - |fraction|)
                   else NatValue(fraction[..2]) + if 2 * NatValue(fraction[2..]) >= PowerOfTen(|fraction| - 2) then 1 else 0
  }

  predicate IsDecimal(text: string, n: nat) { exists k: nat :: k <= |text| && Decimal(text, k, n) }

  lemma {:induction false} PointIsFirst(text: string, i: nat)
    requires i <= |text|
    ensures var at := PointFrom(text, i);
            i <= at <= |text| && (at < |text| ==> text[at] == '.') && forall j :: i <= j < at ==> text[j] != '.'
    decreases |text| - i
  {
    if i < |text| && text[i] != '.' { PointIsFirst(text, i + 1); }
  }

  lemma FirstTwo(fraction: string)
    requires AllDigits(fraction)
    ensures var padded := fraction + Zeros(2);
            (padded[0] as int - 48) * 10 + (padded[1] as int - 48)
            == if |fraction| <= 2 then NatValue(fraction) * PowerOfTen(2 - |fraction|) else NatValue(fraction[..2])
  {
    assert PowerOfTen(1) == 10 && PowerOfTen(2) == 100;
    var two := if |fraction| <= 2 then fraction else fraction[..2];
    if |two| >= 1 {
      assert two[..1][..0] == "";
      assert NatValue(two[..1]) == two[0] as int - 48;
      if |two| == 1 { assert two[..1] == two; } else { assert two[..|two| - 1] == two[..1]; }
    }
  }

  /** The digits are read, exactly, of a decimal text: to the nearest cent. */
  lemma MagnitudeExactly(text: string, n: nat)
    ensures MagnitudeOf(text) == Some(n) <==> IsDecimal(text, n)
  {
    hide NatValue, PowerOfTen;
    var at := PointFrom(text, 0);
    PointIsFirst(text, 0);
    var whole, fraction := text[..at], if at < |text| then text[at + 1..] else "";
    assert whole + fraction == "" <==> text == "" || text == ".";
    forall k: nat | k <= |text| && Decimal(text, k, n) ensures k == at {
      assert forall j :: 0 <= j < k ==> IsDigit(text[..k][j]) && text[..k][j] == text[j];
    }
    if AllDigits(whole) && AllDigits(fraction) {
      FirstTwo(fraction);
      NoFraction();
      if |fraction| > 2 { HalfByFirstDigit(fraction[2..]); }
      assert MagnitudeOf(text) == Some(n) <==> Decimal(text, at, n);
    }
  }

  lemma NoFraction()
    ensures NatValue("") == 0
  {
  }

  /** A cell's amount, exactly: an empty cell is nothing, and a signed or unsigned decimal its cents. */
  lemma MoneyExactly(cell: string, cents: int)
    ensures ParseMoney(cell) == Some(cents)
       <==> var text := Strip(cell);
            if text == "" then cents == 0
            else if text[0] == '-' then cents <= 0 && IsDecimal(text[1..], -cents)
            else cents >= 0 && IsDecimal(if text[0] == '+' then text[1..] else text, cents)
  {
    hide Strip, MagnitudeOf, IsDecimal;
    var text := Strip(cell);
    var digits := if text != "" && text[0] in {'-', '+'} then text[1..] else text;
    forall n: nat ensures MagnitudeOf(digits) == Some(n) <==> IsDecimal(digits, n) { MagnitudeExactly(digits, n); }
  }
}
