/** Decimal text of 64-bit integers: how block positions are encoded in the progress table. */
module Decimal {
  import opened Base

  function Digit(d: nat): char
    requires d < 10
  {
    '0' + d as char
  }

  predicate IsDigit(c: char) {
    '0' <= c <= '9'
  }

  function DigitValue(c: char): (d: nat)
    requires IsDigit(c)
    ensures d < 10
  {
    (c - '0') as nat
  }

  /** `u64::to_string`. */
  function Render(n: nat): (s: string)
    ensures s != [] && forall c | c in s :: IsDigit(c)
  {
    (if n < 10 then [] else Render(n / 10)) + [Digit(n % 10)]
  }

  /** The same for a signed integer (`i64::to_string`, and SQL's cast to text). */
  function RenderInt(i: int): string {
    if i < 0 then "-" + Render(-i) else Render(i)
  }

  /** Digits, most significant first, with the accumulator checked at every step. */
  function ParseDigits(s: string): Option<nat> {
    if s == [] then Some(0) else
      match ParseDigits(s[..|s| - 1])
      case None => None
      case Some(high) =>
        var c := s[|s| - 1];
        if !IsDigit(c) || 10 * high + DigitValue(c) > U64_MAX then None else Some(10 * high + DigitValue(c))
  }

  /** `str::parse::<u64>`: an optional plus sign, then at least one digit, no overflow. */
  function Parse(s: string): Option<nat> {
    var digits := if s != [] && s[0] == '+' then s[1..] else s;
    if digits == [] then None else ParseDigits(digits)
  }

  /** The integer written by the digits of `s`. */
  function ValueOf(s: string): nat
    requires forall c | c in s :: IsDigit(c)
  {
    if s == [] then 0 else 10 * ValueOf(s[..|s| - 1]) + DigitValue(s[|s| - 1])
  }

  lemma {:induction false} RenderValue(n: nat)
    ensures ValueOf(Render(n)) == n
  {
    var s := Render(n);
    if n >= 10 {
      RenderValue(n / 10);
    }
    assert s[..|s| - 1] == if n < 10 then [] else Render(n / 10);
    assert DigitValue(Digit(n % 10)) == n % 10;
  }

  /** Parsing accepts exactly the digit strings whose integer fits, whatever order overflow is detected in. */
  lemma {:induction false} ParseDigitsExact(s: string)
    ensures ParseDigits(s) == if (forall c | c in s :: IsDigit(c))
        && ValueOf(s) <= U64_MAX then Some(ValueOf(s)) else None
  {
    if s != [] {
      var front, c := s[..|s| - 1], s[|s| - 1];
      ParseDigitsExact(front);
      assert s == front + [c];
      assert (forall x | x in s :: IsDigit(x)) <==> (forall x | x in front :: IsDigit(x)) && IsDigit(c);
    }
  }

  /** A position below 2^64 survives its text; anything larger is refused rather than wrapped. */
  lemma RenderParses(n: nat)
    ensures Parse(Render(n)) == if n <= 18_446_744_073_709_551_615 then Some(n) else None
  {
    assert Render(n)[0] in Render(n);
    RenderValue(n);
    ParseDigitsExact(Render(n));
  }

  /** Nothing else without a leading zero or sign parses to `n`: the text is canonical. */
  lemma {:induction false} CanonicalText(s: string)
    requires s != [] && (forall c | c in s :: IsDigit(c)) && (|s| > 1 ==> s[0] != '0')
    ensures s == Render(ValueOf(s))
    ensures |s| > 1 ==> ValueOf(s) >= 10
  {
    hide Render;
    var front, c := s[..|s| - 1], s[|s| - 1];
    assert s == front + [c];
    OneDigit(c);
    if |s| > 1 {
      CanonicalText(front);
      if |front| == 1 {
        assert front == [s[0]];
        OneDigit(s[0]);
      }
      LastDigit(ValueOf(front), DigitValue(c));
    } else {
      assert s == [c];
    }
  }

  lemma OneDigit(c: char)
    requires IsDigit(c)
    ensures ValueOf([c]) == DigitValue(c) && Render(DigitValue(c)) == [c] && Digit(DigitValue(c)) == c
    ensures c != '0' ==> DigitValue(c) > 0
  {
    assert [c][..0] == [];
  }

  lemma LastDigit(high: nat, d: nat)
    requires high > 0 && d < 10
    ensures Render(10 * high + d) == Render(high) + [Digit(d)]
  {
    assert (10 * high + d) / 10 == high && (10 * high + d) % 10 == d;
  }

  /** A negative column, which no writer produces, is refused rather than resumed from. */
  lemma NegativeRefused(i: int)
    requires i < 0
    ensures Parse(RenderInt(i)) == None
  {
    var s := RenderInt(i);
    assert s[0] == '-' && s[0] in s;
    ParseDigitsExact(s);
  }

  /** `s` is digits, at least one, with or without a plus sign in front. */
  ghost predicate Spells(s: string, digits: string) {
    digits != [] && (forall c | c in digits :: IsDigit(c)) && (s == digits || s == "+" + digits)
  }

  /** Exactly what parses: an optional plus sign, at least one digit and nothing else, with a value that fits. */
  lemma ParsesExactly(s: string, n: nat)
    ensures Parse(s) == Some(n)
        <==> exists digits :: Spells(s, digits) && ValueOf(digits) == n && n <= 18_446_744_073_709_551_615
  {
    var rest := if s != [] && s[0] == '+' then s[1..] else s;
    ParseDigitsExact(rest);
    if Parse(s) == Some(n) {
      assert s[0] == '+' ==> s == "+" + rest;
      assert Spells(s, rest);
    }
    if digits :| Spells(s, digits) && ValueOf(digits) == n && n <= 18_446_744_073_709_551_615 {
      assert digits[0] in digits;
      assert s == "+" + digits ==> s[1..] == digits;
      assert rest == digits;
    }
  }
}
