/** The tax calculator and the summaries of the public demo page, in whole cents. */
module DemoTax {
  import opened Results
  import opened Text
  import opened Money

  const RATES: set<nat> := {0, 1, 3, 6, 9, 13}

  datatype Mode = FromGross | FromNet

  datatype Breakdown = Breakdown(net: nat, tax: int, gross: int)

  /** Nine digits before the point. */
  const WHOLE_LIMIT: nat := 1_000_000_000
  const CENTS_LIMIT: nat := 100_000_000_000

  function Rounded(numerator: nat, denominator: nat): nat
    requires denominator > 0
  {
    (numerator + denominator / 2) / denominator
  }

  predicate IsWhole(text: string) { AllDigits(text) && (text == "0" || (1 <= |text| <= 9 && text[0] != '0')) }

  /** Up to nine digits without a leading zero, and one or two decimals if there is a point. */
  function AmountCents(text: string): Option<nat> {
    var at := PointFrom(text, 0);
    if at > |text| || !IsWhole(text[..at]) then None
    else if at == |text| then Some(NatValue(text) * 100)
    else
      var fraction := text[at + 1..];
      if !AllDigits(fraction) || !(1 <= |fraction| <= 2) then None
      else Some(NatValue(text[..at]) * 100 + NatValue(fraction) * (if |fraction| == 1 then 10 else 1))
  }

  /** The split of an amount of cents. */
  function Split(cents: nat, rate: nat, mode: Mode): Breakdown {
    var net := if mode == FromGross then Rounded(cents * 100, 100 + rate) else cents;
    var tax := if mode == FromGross then cents - net else Rounded(net * rate, 100);
    Breakdown(net, tax, net + tax)
  }

  function TaxBreakdown(text: string, rate: nat, mode: Mode): Option<Breakdown> {
    if rate !in RATES then None
    else match AmountCents(text) case None => None case Some(cents) => Some(Split(cents, rate, mode))
  }

  lemma RoundedIsNearest(numerator: nat, denominator: nat)
    requires denominator > 0
    ensures -(denominator as int) <= 2 * (Rounded(numerator, denominator) * denominator - numerator) <= denominator
  {
    var shifted := numerator + denominator / 2;
    assert shifted == Rounded(numerator, denominator) * denominator + shifted % denominator;
  }

  lemma SmallMultiple(k: int, d: nat)
    requires d > 0 && k * d < d
    ensures k <= 0
  {
    assert k * d - d == (k - 1) * d;
  }

  /** A quotient within less than half of a whole number rounds to it. */
  lemma RoundedIsUnique(numerator: nat, denominator: nat, q: nat)
    requires denominator > 0 && -(denominator as int) < 2 * (q * denominator - numerator) < denominator
    ensures Rounded(numerator, denominator) == q
  {
    hide Rounded;
    var r := Rounded(numerator, denominator);
    RoundedIsNearest(numerator, denominator);
    assert (r - q) * denominator == r * denominator - q * denominator;
    assert (q - r) * denominator == q * denominator - r * denominator;
    SmallMultiple(r - q, denominator);
    SmallMultiple(q - r, denominator);
  }

  /** Net and tax add up to the gross amount, the rounded part is within half a cent of the exact quotient,
      and every figure is non-negative. */
  lemma SplitIsExact(cents: nat, rate: nat, mode: Mode)
    requires rate in RATES
    ensures var b := Split(cents, rate, mode);
            && b.net + b.tax == b.gross && b.tax >= 0
            && (if mode == FromGross
                then b.gross == cents && -(100 + rate) <= 2 * (b.net * (100 + rate) - cents * 100) <= 100 + rate
                else b.net == cents && -100 <= 2 * (b.tax * 100 - cents * rate) <= 100)
  {
    RoundedIsNearest(cents * 100, 100 + rate);
    RoundedIsNearest(cents * rate, 100);
    if mode == FromGross {
      var net, d := Rounded(cents * 100, 100 + rate), 100 + rate;
      assert (net - cents) * d == net * d - cents * 100 - cents * rate;
      SmallMultiple(net - cents, d);
    }
  }

  /** From net to gross and back: the same net and the same tax, for every amount. */
  lemma NetIsRecovered(net: nat, rate: nat)
    requires rate in RATES
    ensures var there := Split(net, rate, FromNet);
            there.gross >= 0 && Split(there.gross, rate, FromGross) == there
  {
    var there := Split(net, rate, FromNet);
    RoundedIsNearest(net * rate, 100);
    assert there.gross * 100 == net * 100 + there.tax * 100;
    assert net * (100 + rate) == net * 100 + net * rate;
    if rate == 0 {
      assert there.tax == 0;
    }
    RoundedIsUnique(there.gross * 100, 100 + rate, net);
  }

  /** What is left over when the gross amount is divided by one plus the rate. */
  function Remainder(gross: nat, rate: nat): nat { 100 * gross % (100 + rate) }

  /** A value that misses a whole hundred by less than half rounds to it, and by half or more does not. */
  lemma HundredthsRound(value: nat, t: int)
    ensures Rounded(value, 100) == t <==> -50 <= value - 100 * t < 50
  {
  }

  /** The rounded net amount is the quotient or one more. */
  lemma NetIsNearQuotient(gross: nat, rate: nat)
    requires rate in RATES
    ensures var d, q, rho := 100 + rate, 100 * gross / (100 + rate), Remainder(gross, rate);
            && 100 * gross == q * d + rho && rho < d
            && Rounded(gross * 100, d) == if rho + d / 2 < d then q else q + 1
  {
    var d, q, rho := 100 + rate, 100 * gross / (100 + rate), Remainder(gross, rate);
    var net := if rho + d / 2 < d then q else q + 1;
    assert (q + 1) * d == q * d + d;
    var shifted := gross * 100 + d / 2;
    assert shifted - net * d < d && shifted - net * d >= 0;
    QuotientIs(shifted, d, net);
  }

  /** The exact tax on the rounded net, in hundredths, misses what is left of the gross by the remainder, or
      by what the remainder falls short. */
  lemma TaxOfNearNet(gross: nat, rate: nat)
    requires rate in RATES
    ensures var d, rho := 100 + rate, Remainder(gross, rate);
            var net := Rounded(gross * 100, d);
            && rho < d && (if rho + d / 2 < d then net * rate == 100 * (gross - net) - rho
                           else net * rate == 100 * (gross - net) + d - rho)
  {
    hide Rounded, Remainder;
    var d, q, rho := 100 + rate, 100 * gross / (100 + rate), Remainder(gross, rate);
    NetIsNearQuotient(gross, rate);
    var product := q * rate;
    assert q * d == 100 * q + product && (q + 1) * rate == product + rate;
    assert 100 * gross == 100 * q + product + rho;
  }

  lemma QuotientIs(n: nat, d: nat, q: nat)
    requires d > 0 && 0 <= n - q * d < d
    ensures n / d == q
  {
    assert n == n / d * d + n % d;
    assert (n / d - q) * d == n / d * d - q * d;
    assert (q - n / d) * d == q * d - n / d * d;
    SmallMultiple(n / d - q, d);
    SmallMultiple(q - n / d, d);
  }

  /** From gross to net and back: the same breakdown if and only if the remainder of the division is at most
      fifty, or at least fifty-one plus the rate. */
  lemma GrossIsRecoveredExactly(gross: nat, rate: nat)
    requires rate in RATES
    ensures Split(Split(gross, rate, FromGross).net, rate, FromNet) == Split(gross, rate, FromGross)
       <==> Remainder(gross, rate) <= 50 || Remainder(gross, rate) >= 51 + rate
  {
    hide Rounded, Remainder;
    var d, rho := 100 + rate, Remainder(gross, rate);
    var net := Rounded(gross * 100, d);
    TaxOfNearNet(gross, rate);
    HundredthsRound(net * rate, gross - net);
  }

  /** Four cents gross at thirteen per cent leave sixty-one: they come back as five. */
  lemma GrossIsNotAlwaysRecovered()
    ensures Remainder(4, 13) == 61
    ensures Split(Split(4, 13, FromGross).net, 13, FromNet) == Breakdown(4, 1, 5) != Split(4, 13, FromGross) == Breakdown(4, 0, 4)
  {
    GrossIsRecoveredExactly(4, 13);
  }

  // ---------------------------------------------------------------- amounts as text

  lemma {:induction false} NatTextSize(n: nat, digits: nat)
    requires digits >= 1
    ensures |NatText(n)| <= digits <==> n < PowerOfTen(digits)
    ensures NatText(n) == "0" || NatText(n)[0] != '0'
    decreases digits, n
  {
    if n >= 10 {
      if digits > 1 { NatTextSize(n / 10, digits - 1); } else { NatTextSize(n / 10, 1); }
    } else {
      assert PowerOfTen(1) == 10;
      PowersGrow(1, digits);
    }
  }

  lemma {:induction false} PowersGrow(a: nat, b: nat)
    requires a <= b
    ensures PowerOfTen(a) <= PowerOfTen(b)
    decreases b
  {
    if a < b { PowersGrow(a, b - 1); }
  }

  lemma NinePlaces()
    ensures PowerOfTen(9) == WHOLE_LIMIT && PowerOfTen(2) == 100 && PowerOfTen(1) == 10
  {
    assert PowerOfTen(3) == 1000;
    assert PowerOfTen(6) == 1000 * PowerOfTen(3);
    assert PowerOfTen(9) == 1000 * PowerOfTen(6);
  }

  /** Every accepted text is less than a thousand million, so every figure of its breakdown is far below 2^53. */
  lemma FiguresAreSafe(text: string, rate: nat, mode: Mode)
    requires TaxBreakdown(text, rate, mode).Some?
    ensures AmountCents(text).value < CENTS_LIMIT
    ensures var b := TaxBreakdown(text, rate, mode).value;
            0 <= b.net < 0x20_0000_0000_0000 && 0 <= b.tax < 0x20_0000_0000_0000 && 0 <= b.gross < 0x20_0000_0000_0000
  {
    hide AmountCents, Split;
    AmountIsBounded(text);
    SplitIsExact(AmountCents(text).value, rate, mode);
    SplitIsSmall(AmountCents(text).value, rate, mode);
  }

  lemma SplitIsSmall(cents: nat, rate: nat, mode: Mode)
    requires rate in RATES && cents < CENTS_LIMIT
    ensures Split(cents, rate, mode).gross <= 2 * CENTS_LIMIT
  {
    hide Rounded;
    RoundedIsNearest(cents * rate, 100);
    assert cents * rate <= cents * 13;
  }

  lemma AmountIsBounded(text: string)
    requires AmountCents(text).Some?
    ensures AmountCents(text).value < CENTS_LIMIT
  {
    var at := PointFrom(text, 0);
    NinePlaces();
    NatValueIsBounded(text[..at]);
    PowersGrow(|text[..at]|, 9);
    if at < |text| {
      NatValueIsBounded(text[at + 1..]);
    } else {
      assert text[..at] == text;
    }
  }

  /** What the amount field takes, exactly: "0" or up to nine digits not starting with one, alone or before a point and
      one or two decimals; and it is worth so many cents. */
  lemma AmountExactly(text: string, cents: nat)
    ensures AmountCents(text) == Some(cents)
       <==> exists k: nat :: k <= |text| && Written(text, k, cents)
  {
    hide NatValue;
    var at := PointFrom(text, 0);
    PointIsFirst(text, 0);
    if AmountCents(text) == Some(cents) {
      assert at == |text| ==> text[..at] == text;
      DecimalsAre(text, at);
      assert Written(text, at, cents);
    }
    forall k: nat | k <= |text| && Written(text, k, cents) ensures AmountCents(text) == Some(cents) {
      assert forall i :: 0 <= i < k ==> text[i] == text[..k][i];
      PointIs(text, 0, k);
      DecimalsAre(text, k);
      assert k == |text| ==> text[..k] == text;
    }
  }

  /** The whole part has `k` digits, and the text stands for so many cents. */
  predicate Written(text: string, k: nat, cents: nat)
    requires k <= |text|
  {
    && AllDigits(text[..k]) && 1 <= k <= 9 && (text[0] == '0' ==> k == 1)
    && var whole := NatValue(text[..k]) * 100;
       if |text| == k then cents == whole
       else if text[k] != '.' then false
       else if |text| == k + 2 then IsDigit(text[k + 1]) && cents == whole + (text[k + 1] as int - 48) * 10
       else |text| == k + 3 && IsDigit(text[k + 1]) && IsDigit(text[k + 2])
            && cents == whole + (text[k + 1] as int - 48) * 10 + (text[k + 2] as int - 48)
  }

  lemma PointIs(text: string, i: nat, k: nat)
    requires i <= k <= |text| && (k < |text| ==> text[k] == '.') && forall j :: i <= j < k ==> IsDigit(text[j])
    ensures PointFrom(text, i) == k
  {
    PointIsFirst(text, i);
  }

  /** The value of one or two decimals. */
  lemma DecimalsAre(text: string, k: nat)
    requires k < |text| ==> text[k] == '.'
    ensures k < |text| && |text| == k + 2 && IsDigit(text[k + 1]) ==>
              AllDigits(text[k + 1..]) && NatValue(text[k + 1..]) == text[k + 1] as int - 48
    ensures k < |text| && |text| == k + 3 && IsDigit(text[k + 1]) && IsDigit(text[k + 2]) ==>
              AllDigits(text[k + 1..]) && NatValue(text[k + 1..]) == (text[k + 1] as int - 48) * 10 + (text[k + 2] as int - 48)
    ensures k < |text| && AllDigits(text[k + 1..]) ==> forall j :: k < j < |text| ==> IsDigit(text[j])
  {
    if k < |text| {
      var fraction := text[k + 1..];
      assert forall j :: k < j < |text| ==> text[j] == fraction[j - k - 1];
      if |fraction| >= 1 { assert fraction[..1][..0] == "" && fraction[..1] == [text[k + 1]]; }
      if |fraction| == 1 { assert fraction == fraction[..1]; }
      if |fraction| == 2 && IsDigit(text[k + 1]) {
        assert NatValue(fraction[..1]) == text[k + 1] as int - 48;
        assert fraction[..|fraction| - 1] == fraction[..1];
      }
    }
  }

  /** A breakdown is given, exactly, for such an amount at one of six rates. */
  lemma BreakdownExactly(text: string, rate: nat, mode: Mode)
    ensures TaxBreakdown(text, rate, mode).Some? <==> rate in {0, 1, 3, 6, 9, 13} && AmountCents(text).Some?
    ensures TaxBreakdown(text, rate, mode).Some? ==>
              TaxBreakdown(text, rate, mode).value == Split(AmountCents(text).value, rate, mode)
  {
    hide AmountCents, Split;
  }

  /** Writing an amount of cents and reading it back: refused exactly beyond nine digits. */
  lemma AmountRoundTrip(cents: nat)
    ensures AmountCents(CentsText(cents)) == if cents < CENTS_LIMIT then Some(cents) else None
  {
    hide AmountCents, NatValue, ZeroFill;
    var whole, fraction := NatText(cents / 100), ZeroFill(NatText(cents % 100), 2);
    NatTextParses(cents / 100);
    NatTextParses(cents % 100);
    ZeroFillKeepsValue(NatText(cents % 100), 2);
    TwoDigits(cents % 100);
    NatTextSize(cents / 100, 9);
    NinePlaces();
    TwoDecimals(whole, fraction);
    assert CentsText(cents) == whole + "." + fraction;
    assert IsWhole(whole) <==> cents < CENTS_LIMIT;
  }

  /** Digits, a point and two digits. */
  lemma TwoDecimals(whole: string, fraction: string)
    requires AllDigits(whole) && AllDigits(fraction) && |fraction| == 2
    ensures AmountCents(whole + "." + fraction)
         == if IsWhole(whole) then Some(NatValue(whole) * 100 + NatValue(fraction)) else None
  {
    hide PointFrom, NatValue;
    var text := whole + "." + fraction;
    PointIsFound(whole, fraction, 0);
    assert text[..|whole|] == whole && text[|whole| + 1..] == fraction;
  }

  /** Through the page's own text fields: feeding the computed gross amount back gives the same breakdown
      if and only if that amount still fits the field. */
  lemma NetIsRecoveredThroughText(text: string, rate: nat)
    requires TaxBreakdown(text, rate, FromNet).Some?
    ensures var there := TaxBreakdown(text, rate, FromNet).value;
            && (TaxBreakdown(CentsText(there.gross), rate, FromGross) == Some(there) <==> there.gross < CENTS_LIMIT)
            && (there.gross >= CENTS_LIMIT ==> TaxBreakdown(CentsText(there.gross), rate, FromGross) == None)
  {
    hide AmountCents, Split;
    var cents := AmountCents(text).value;
    var there := TaxBreakdown(text, rate, FromNet).value;
    NetIsRecovered(cents, rate);
    AmountRoundTrip(there.gross);
  }

  // ---------------------------------------------------------------- summaries

  datatype Detail = Detail(family: string, key: Key, quantity: int, net: int)

  /** The boundaries within which line items are added up. */
  datatype Key = Key(project: string, rate: int, spec: string, unit: string)

  datatype Group = Group(quantity: int, net: int)

  datatype Summary = Summary(keys: seq<Key>, groups: map<Key, Group>, missing: nat)

  predicate Selected(d: Detail, families: set<string>) { d.family in families }

  /** The sums over the selected line items with one key, or with any key. */
  function SumFor(source: seq<Detail>, families: set<string>, key: Option<Key>): Group {
    if source == [] then Group(0, 0)
    else
      var d, rest := source[|source| - 1], SumFor(source[..|source| - 1], families, key);
      if Selected(d, families) && (key == None || key == Some(d.key)) then Group(rest.quantity + d.quantity, rest.net + d.net) else rest
  }

  predicate HasKey(source: seq<Detail>, families: set<string>, key: Key) {
    exists i :: 0 <= i < |source| && Selected(source[i], families) && source[i].key == key
  }

  function SumOver(keys: seq<Key>, source: seq<Detail>, families: set<string>): Group {
    if keys == [] then Group(0, 0)
    else
      var g, rest := SumFor(source, families, Some(keys[|keys| - 1])), SumOver(keys[..|keys| - 1], source, families);
      Group(rest.quantity + g.quantity, rest.net + g.net)
  }

  predicate DistinctKeys(keys: seq<Key>) { forall i, j :: 0 <= i < j < |keys| ==> keys[i] != keys[j] }

  predicate Unlisted(source: seq<Detail>, family: string) { forall i :: 0 <= i < |source| ==> source[i].family != family }

  method SummarizeDetails(families: set<string>, source: seq<Detail>) returns (summary: Summary)
    ensures DistinctKeys(summary.keys) && summary.groups.Keys == set k | k in summary.keys
    ensures forall key :: key in summary.keys <==> HasKey(source, families, key)
    ensures forall key :: key in summary.groups ==> summary.groups[key] == SumFor(source, families, Some(key))
    ensures SumOver(summary.keys, source, families) == SumFor(source, families, None)
    ensures summary.missing == |set family | family in families && Unlisted(source, family)|
  {
    hide HasKey, Selected;
    NoDetails(families);
    var keys: seq<Key>, groups: map<Key, Group> := [], map[];
    for i := 0 to |source|
      invariant DistinctKeys(keys) && groups.Keys == set k | k in keys
      invariant forall key :: key in keys <==> HasKey(source[..i], families, key)
      invariant forall key :: key in groups ==> groups[key] == SumFor(source[..i], families, Some(key))
    {
      var d := source[i];
      DetailAppended(source, families, i);
      if Selected(d, families) {
        var group := if d.key in groups then groups[d.key] else Group(0, 0);
        if d.key !in groups {
          NoDetailNoSum(source[..i], families, d.key);
          keys := keys + [d.key];
        }
        groups := groups[d.key := Group(group.quantity + d.quantity, group.net + d.net)];
      }
    }
    assert source[..|source|] == source;
    TotalsAreConserved(keys, source, families);
    var missing := set family | family in families && Unlisted(source, family);
    summary := Summary(keys, groups, |missing|);
  }

  lemma NoDetails(families: set<string>)
    ensures forall key :: !HasKey([], families, key)
  {
  }

  lemma DetailAppended(source: seq<Detail>, families: set<string>, i: nat)
    requires i < |source|
    ensures source[..i + 1][..i] == source[..i]
    ensures forall key :: HasKey(source[..i + 1], families, key)
                     <==> HasKey(source[..i], families, key) || (Selected(source[i], families) && source[i].key == key)
  {
    var next := source[..i + 1];
    forall key ensures HasKey(next, families, key)
                  <==> HasKey(source[..i], families, key) || (Selected(source[i], families) && source[i].key == key) {
      if HasKey(source[..i], families, key) {
        var j :| 0 <= j < i && Selected(source[..i][j], families) && source[..i][j].key == key;
        assert next[j] == source[..i][j];
      }
      assert next[i] == source[i];
      if HasKey(next, families, key) {
        var j :| 0 <= j < i + 1 && Selected(next[j], families) && next[j].key == key;
        assert j < i ==> source[..i][j] == next[j];
      }
    }
  }

  /** A line item counts, with its quantity and its net amount, in the sum of its key and in the sum of all, if its
      family is selected, and in no other. */
  lemma DetailCounts(source: seq<Detail>, d: Detail, families: set<string>, key: Option<Key>)
    ensures var before, after := SumFor(source, families, key), SumFor(source + [d], families, key);
            if d.family in families && (key == None || key == Some(d.key))
            then after.quantity == before.quantity + d.quantity && after.net == before.net + d.net else after == before
  {
    assert (source + [d])[..|source|] == source;
  }

  lemma {:induction false} NoDetailNoSum(source: seq<Detail>, families: set<string>, key: Key)
    requires !HasKey(source, families, key)
    ensures SumFor(source, families, Some(key)) == Group(0, 0)
  {
    if source != [] {
      var n := |source| - 1;
      DetailAppended(source, families, n);
      assert source[..n + 1] == source;
      NoDetailNoSum(source[..n], families, key);
    }
  }

  lemma {:induction false} NothingToSum(keys: seq<Key>, families: set<string>)
    ensures SumOver(keys, [], families) == Group(0, 0)
  {
    if keys != [] { NothingToSum(keys[..|keys| - 1], families); }
  }

  /** One more line item adds to the sum of exactly the group with its key. */
  lemma {:induction false} OneMoreDetail(keys: seq<Key>, source: seq<Detail>, families: set<string>)
    requires source != [] && DistinctKeys(keys)
    ensures var d, before := source[|source| - 1], SumOver(keys, source[..|source| - 1], families);
            (SumOver(keys, source, families)
             == if Selected(d, families) && d.key in keys then Group(before.quantity + d.quantity, before.net + d.net) else before)
  {
    if keys != [] {
      var n := |keys| - 1;
      assert forall i :: 0 <= i < n ==> keys[..n][i] == keys[i] != keys[n];
      OneMoreDetail(keys[..n], source, families);
    }
  }

  /** Grouping conserves the totals. */
  lemma {:induction false} TotalsAreConserved(keys: seq<Key>, source: seq<Detail>, families: set<string>)
    requires DistinctKeys(keys) && forall key :: HasKey(source, families, key) ==> key in keys
    ensures SumOver(keys, source, families) == SumFor(source, families, None)
    decreases |source|
  {
    if source == [] {
      NothingToSum(keys, families);
    } else {
      var n := |source| - 1;
      DetailAppended(source, families, n);
      assert source[..n + 1] == source;
      OneMoreDetail(keys, source, families);
      TotalsAreConserved(keys, source[..n], families);
    }
  }
}
