/** Python text operations on unnormalised strings, as used across the bookkeeping modules. */
module Text {
  /** str.isspace for one character; `\s` in a regular expression matches the same characters. */
  predicate IsSpace(c: char) {
    || '\U{09}' <= c <= '\U{0D}' || '\U{1C}' <= c <= '\U{20}' || c == '\U{85}' || c == '\U{A0}'
    || c == '\U{1680}' || '\U{2000}' <= c <= '\U{200A}' || c == '\U{2028}' || c == '\U{2029}'
    || c == '\U{202F}' || c == '\U{205F}' || c == '\U{3000}'
  }

  function StripLeft(s: string): string {
    if s != [] && IsSpace(s[0]) then StripLeft(s[1..]) else s
  }

  function StripRight(s: string): string {
    if s != [] && IsSpace(s[|s| - 1]) then StripRight(s[..|s| - 1]) else s
  }

  function Strip(s: string): string { StripRight(StripLeft(s)) }

  /** No white space at either end. */
  predicate Trimmed(s: string) {
    s == [] || (!IsSpace(s[0]) && !IsSpace(s[|s| - 1]))
  }

  lemma {:induction false} StripLeftStarts(s: string)
    ensures StripLeft(s) == [] || !IsSpace(StripLeft(s)[0])
  {
    if s != [] && IsSpace(s[0]) { StripLeftStarts(s[1..]); }
  }

  lemma {:induction false} StripRightEnds(s: string)
    ensures StripRight(s) == [] || !IsSpace(StripRight(s)[|StripRight(s)| - 1])
    ensures StripRight(s) <= s
  {
    if s != [] && IsSpace(s[|s| - 1]) { StripRightEnds(s[..|s| - 1]); }
  }

  lemma StripIsTrimmed(s: string)
    ensures Trimmed(Strip(s))
  {
    StripLeftStarts(s);
    StripRightEnds(StripLeft(s));
  }

  /** Stripping changes exactly the texts that are not trimmed. */
  lemma StripFixes(s: string)
    ensures Strip(s) == s <==> Trimmed(s)
  {
    StripIsTrimmed(s);
  }

  /** Stripping takes white space off both ends, as much as there is, and nothing else. */
  lemma StripIsExact(s: string) returns (a: nat, b: nat)
    ensures a <= b <= |s| && Strip(s) == s[a..b] && Trimmed(Strip(s))
    ensures forall i :: 0 <= i < a || b <= i < |s| ==> IsSpace(s[i])
  {
    StripIsTrimmed(s);
    a := LeftIsSpace(s);
    var n := RightIsSpace(s[a..]);
    b := a + n;
    assert forall i :: b <= i < |s| ==> s[i] == s[a..][i - a];
  }

  lemma {:induction false} LeftIsSpace(s: string) returns (a: nat)
    ensures a <= |s| && StripLeft(s) == s[a..] && forall i :: 0 <= i < a ==> IsSpace(s[i])
  {
    a := 0;
    if s != [] && IsSpace(s[0]) {
      a := LeftIsSpace(s[1..]);
      assert forall i :: 0 <= i < a ==> s[i + 1] == s[1..][i];
      a := a + 1;
    }
  }

  lemma {:induction false} RightIsSpace(s: string) returns (n: nat)
    ensures n <= |s| && StripRight(s) == s[..n] && forall i :: n <= i < |s| ==> IsSpace(s[i])
  {
    n := |s|;
    if s != [] && IsSpace(s[|s| - 1]) {
      var front := s[..|s| - 1];
      n := RightIsSpace(front);
      assert front[..n] == s[..n];
      assert forall i :: n <= i < |front| ==> s[i] == front[i];
    }
  }

  // ---------------------------------------------------------------- decimal digits

  predicate IsDigit(c: char) { '0' <= c <= '9' }

  predicate AllDigits(s: string) { forall i :: 0 <= i < |s| ==> IsDigit(s[i]) }

  function DigitChar(d: nat): char
    requires d < 10
  {
    (d + 48) as char
  }

  function NatText(n: nat): string {
    if n < 10 then [DigitChar(n)] else NatText(n / 10) + [DigitChar(n % 10)]
  }

  function NatValue(s: string): nat
    requires AllDigits(s)
  {
    if s == [] then 0 else NatValue(s[..|s| - 1]) * 10 + (s[|s| - 1] as int - 48)
  }

  lemma {:induction false} NatTextParses(n: nat)
    ensures NatText(n) != [] && AllDigits(NatText(n)) && NatValue(NatText(n)) == n
    decreases n
  {
    var text := NatText(n);
    if n >= 10 {
      NatTextParses(n / 10);
      assert text[..|text| - 1] == NatText(n / 10);
    } else {
      assert text[..0] == "";
    }
  }

  function PowerOfTen(n: nat): nat { if n == 0 then 1 else 10 * PowerOfTen(n - 1) }

  lemma {:induction false} NatValueIsBounded(text: string)
    requires AllDigits(text)
    ensures NatValue(text) < PowerOfTen(|text|)
    decreases |text|
  {
    if text != [] { NatValueIsBounded(text[..|text| - 1]); }
  }

  /** str(int). */
  function IntText(n: int): string { if n < 0 then "-" + NatText(-n) else NatText(n) }

  lemma IntTextIsInjective(a: int, b: int)
    requires IntText(a) == IntText(b)
    ensures a == b
  {
    NatTextParses(if a < 0 then -a else a);
    NatTextParses(if b < 0 then -b else b);
    assert a < 0 ==> IntText(a)[0] == '-';
    assert b < 0 ==> IntText(b)[0] == '-';
    assert a >= 0 ==> IsDigit(IntText(a)[0]);
    assert b >= 0 ==> IsDigit(IntText(b)[0]);
    if a < 0 && b < 0 {
      assert IntText(a)[1..] == NatText(-a) && IntText(b)[1..] == NatText(-b);
    }
  }

  function Zeros(n: nat): string { seq(n, i => '0') }

  /** str.zfill for a text without a sign. */
  function ZeroFill(s: string, width: nat): string { if |s| < width then Zeros(width - |s|) + s else s }

  lemma {:induction false} LeadingZeros(n: nat, s: string)
    requires AllDigits(s)
    ensures AllDigits(Zeros(n) + s) && NatValue(Zeros(n) + s) == NatValue(s)
    decreases |s|, n
  {
    var padded := Zeros(n) + s;
    if s != [] {
      LeadingZeros(n, s[..|s| - 1]);
      assert padded[..|padded| - 1] == Zeros(n) + s[..|s| - 1];
    } else if n > 0 {
      LeadingZeros(n - 1, s);
      assert padded[..|padded| - 1] == Zeros(n - 1) + s;
    }
  }

  lemma ZeroFillKeepsValue(s: string, width: nat)
    requires AllDigits(s)
    ensures AllDigits(ZeroFill(s, width)) && NatValue(ZeroFill(s, width)) == NatValue(s)
  {
    if |s| < width { LeadingZeros(width - |s|, s); }
  }

  lemma DigitsAreTrimmed(s: string)
    requires AllDigits(s)
    ensures Trimmed(s)
  {
  }
}
