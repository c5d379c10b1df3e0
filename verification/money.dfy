/** Amounts of money as integer cents (45.99 is 4599), their two-decimal
    rendering, and the summation the source performs with `reduce`. */
module Money {
  import opened Wrappers
  import opened Text

  type Cents = int

  /** Two-decimal rendering of a non-negative amount: whole units, a dot,
      then exactly two digits of cents. */
  function UnsignedFixed2(c: nat): string {
    NatToString(c / 100) + "." + [DigitChar(c % 100 / 10), DigitChar(c % 10)]
  }

  /** `(c / 100).toFixed(2)`: the amount with exactly two decimals and a
      leading '-' when negative. */
  function ToFixed2(c: Cents): (s: string)
    ensures |s| >= 4 && s[|s| - 3] == '.'
    ensures IsDigit(s[|s| - 2]) && IsDigit(s[|s| - 1])
    ensures c < 0 <==> s[0] == '-'
  {
    if c < 0 then "-" + UnsignedFixed2(-c) else UnsignedFixed2(c)
  }

  /** Reads `<digits>.<digit><digit>` as a number of cents. */
  function ParseUnsignedCents(s: string): Option<nat> {
    if |s| >= 4 && s[|s| - 3] == '.' && IsDigit(s[|s| - 2]) && IsDigit(s[|s| - 1]) then
      match ParseNat(s[..|s| - 3])
      case Some(w) => Some(w * 100 + DigitValue(s[|s| - 2]) * 10 + DigitValue(s[|s| - 1]))
      case None => None
    else
      None
  }

  /** Reads back a two-decimal amount, optionally signed, as cents; a
      negative zero ("-0.00") is refused. */
  function ParseCents(s: string): Option<Cents> {
    if |s| > 0 && s[0] == '-' then
      match ParseUnsignedCents(s[1..])
      case Some(n) => if n == 0 then None else Some(-(n as int))
      case None => None
    else
      match ParseUnsignedCents(s)
      case Some(n) => Some(n)
      case None => None
  }

  lemma UnsignedFixed2RoundTrip(c: nat)
    ensures ParseUnsignedCents(UnsignedFixed2(c)) == Some(c)
  {
    var s := UnsignedFixed2(c);
    assert s[..|s| - 3] == NatToString(c / 100);
    NatRoundTrip(c / 100);
  }

  /** The two-decimal rendering loses nothing: reading it back gives the
      amount. */
  lemma ToFixed2RoundTrip(c: Cents)
    ensures ParseCents(ToFixed2(c)) == Some(c)
  {
    if c < 0 {
      assert ToFixed2(c)[1..] == UnsignedFixed2(-c);
      UnsignedFixed2RoundTrip(-c);
    } else {
      assert ToFixed2(c)[0] == NatToString(c / 100)[0];
      UnsignedFixed2RoundTrip(c);
    }
  }

  /** Whatever `ParseUnsignedCents` reads as `c` is exactly how `c` is
      printed. */
  lemma UnsignedCentsCanonical(s: string, c: nat)
    requires ParseUnsignedCents(s) == Some(c)
    ensures s == UnsignedFixed2(c)
  {
    var whole := s[..|s| - 3];
    var w := DigitsValue(whole);
    assert ParseNat(whole) == Some(w);
    NatCanonical(whole, w);
    var tens, units := s[|s| - 2], s[|s| - 1];
    DigitCharOfValue(tens);
    DigitCharOfValue(units);
    CentsDigits(w, DigitValue(tens), DigitValue(units));
    assert UnsignedFixed2(c) == whole + "." + [tens, units];
    assert s == whole + "." + [tens, units];
  }

  /** An amount assembled from whole units and two cent digits splits back
      into the same three parts. */
  lemma CentsDigits(w: nat, d1: nat, d0: nat)
    requires d1 < 10 && d0 < 10
    ensures var c := w * 100 + d1 * 10 + d0;
      c / 100 == w && c % 100 / 10 == d1 && c % 10 == d0
  {
    DivModHundreds(w, d1 * 10 + d0);
    assert (w * 100 + d1 * 10 + d0) % 10 == d0 by {
      assert w * 100 + d1 * 10 + d0 == (w * 10 + d1) * 10 + d0;
    }
  }

  /** Splitting an amount in cents into whole units and the remainder. */
  lemma DivModHundreds(w: nat, r: nat)
    requires r < 100
    ensures (w * 100 + r) / 100 == w && (w * 100 + r) % 100 == r
  {
  }

  /** Whatever `ParseCents` reads as `c` is exactly `c.toFixed(2)` in
      cents: together with `ToFixed2RoundTrip`, the two are inverse. */
  lemma CentsCanonical(s: string, c: Cents)
    requires ParseCents(s) == Some(c)
    ensures s == ToFixed2(c)
  {
    if |s| > 0 && s[0] == '-' {
      UnsignedCentsCanonical(s[1..], -c);
      assert s == "-" + s[1..];
    } else {
      UnsignedCentsCanonical(s, c);
    }
  }

  /** Reference total of a list of amounts. */
  function Sum(xs: seq<Cents>): Cents {
    if |xs| == 0 then 0 else xs[0] + Sum(xs[1..])
  }

  /** `xs.reduce((sum, x) => sum + x, acc)`: a left-to-right running total. */
  function Reduce(acc: Cents, xs: seq<Cents>): Cents
    decreases |xs|
  {
    if |xs| == 0 then acc else Reduce(acc + xs[0], xs[1..])
  }

  /** The left-to-right reduction agrees with the reference total. */
  lemma {:induction false} ReduceIsSum(acc: Cents, xs: seq<Cents>)
    ensures Reduce(acc, xs) == acc + Sum(xs)
    decreases |xs|
  {
    if |xs| > 0 {
      ReduceIsSum(acc + xs[0], xs[1..]);
    }
  }
}
