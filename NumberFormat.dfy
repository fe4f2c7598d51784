/**
 * number_format(total, 2, '.', ''): a line total written with exactly two
 * fractional digits, '.' as the decimal separator and no thousands separator.
 * Amounts are integer cents, so no rounding happens here.
 */
module NumberFormat {
  import opened Wrappers
  import opened Decimal

  function Abs(x: int): nat {
    if x < 0 then -x else x
  }

  function FormatCents(cents: int): (s: string)
    ensures |s| >= 4
    ensures s[0] == '-' <==> cents < 0
  {
    var m := Abs(cents);
    (if cents < 0 then "-" else "") + Show(m / 100) + "." + [Digit(m % 100 / 10), Digit(m % 10)]
  }

  /** The digits of a magnitude: one or more digits, '.', exactly two digits. */
  function ParseMagnitude(body: string): Option<nat> {
    if |body| >= 4 && body[|body| - 3] == '.'
       && AllDigits(body[..|body| - 3]) && AllDigits(body[|body| - 2..])
    then Some(Value(body[..|body| - 3]) * 100 + Value(body[|body| - 2..]))
    else None
  }

  /** Reads back a string of the shape FormatCents writes, with an optional leading '-'. */
  function ParseCents(s: string): Option<int> {
    if |s| > 0 && s[0] == '-' then
      var m :- ParseMagnitude(s[1..]);
      var negated := -(m as int);
      Some(negated)
    else
      var m :- ParseMagnitude(s);
      Some(m)
  }

  /**
   * Exactly one '.', three places from the end; every other character a digit,
   * except a leading '-' for negatives; and no leading zero before the '.'
   * unless the whole part is 0.
   */
  lemma FormatCentsShape(cents: int)
    ensures var s := FormatCents(cents);
      && (forall i | 0 <= i < |s| :: s[i] == '.' <==> i == |s| - 3)
      && (forall i | 0 <= i < |s| && i != |s| - 3 && !(i == 0 && cents < 0) :: IsDigit(s[i]))
      && IsDigit(s[|s| - 2]) && IsDigit(s[|s| - 1])
      && var k := if cents < 0 then 1 else 0;
         s[k] == '0' ==> |s| == k + 4
  {
    var m := Abs(cents);
    var w := Show(m / 100);
    var s := FormatCents(cents);
    var sign := if cents < 0 then "-" else "";
    ShowDigits(m / 100);
    assert s == sign + w + "." + [Digit(m % 100 / 10), Digit(m % 10)];
    forall i | 0 <= i < |s| && i != |s| - 3 && !(i == 0 && cents < 0)
      ensures IsDigit(s[i])
    {
      if i < |sign| + |w| {
        assert s[i] == w[i - |sign|];
      }
    }
  }

  lemma TwoDigits(a: nat, b: nat)
    requires a < 10 && b < 10
    ensures Value([Digit(a), Digit(b)]) == a * 10 + b
  {
    var f := [Digit(a), Digit(b)];
    assert [Digit(a)][..0] == [];
    assert Value([Digit(a)]) == a;
    assert f[..1] == [Digit(a)];
  }

  lemma SplitCents(m: nat)
    ensures m == (m / 100) * 100 + (m % 100 / 10) * 10 + m % 10
  {
  }

  lemma ParseMagnitudeOfShow(whole: nat, tens: nat, units: nat)
    requires tens < 10 && units < 10
    ensures ParseMagnitude(Show(whole) + "." + [Digit(tens), Digit(units)]) == Some(whole * 100 + tens * 10 + units)
  {
    var w := Show(whole);
    var f := [Digit(tens), Digit(units)];
    var body := w + "." + f;
    assert body[..|body| - 3] == w;
    assert body[|body| - 2..] == f;
    ShowDigits(whole);
    ValueOfShow(whole);
    TwoDigits(tens, units);
  }

  lemma ParseFormatCents(cents: int)
    ensures ParseCents(FormatCents(cents)) == Some(cents)
  {
    var m := Abs(cents);
    var body := Show(m / 100) + "." + [Digit(m % 100 / 10), Digit(m % 10)];
    ParseMagnitudeOfShow(m / 100, m % 100 / 10, m % 10);
    SplitCents(m);
    if cents < 0 {
      assert FormatCents(cents) == "-" + body;
      assert ("-" + body)[1..] == body;
    } else {
      assert FormatCents(cents) == body;
    }
  }
}
