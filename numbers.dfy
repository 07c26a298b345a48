/** The numeric reading of a value group `\d+\.?\d*`. `parseFloat` (index.js)
    and `float()` (coparse.py) read it as a decimal number, modelled here
    exactly as a `real`; `parseInt` (index.js) keeps the digits before the
    point, and Python's `int()` refuses a string with a point. */
module Numbers {
  import opened Cleaning
  import opened Lexer

  /** What a call that may raise `ValueError` gives back. */
  datatype Raising<T> = Returns(value: T) | ValueError

  /** The value of one decimal digit. */
  function DigitValue(c: char): (r: nat)
    ensures r <= 9
    ensures IsDigit(c) ==> r as int == c as int - '0' as int
  {
    if IsDigit(c) then c as int - '0' as int else 0
  }

  /** The number a string of decimal digits denotes, most significant first. */
  function Numeral(ds: string): nat {
    if ds == [] then 0 else Numeral(ds[..|ds| - 1]) * 10 + DigitValue(ds[|ds| - 1])
  }

  function Pow10(n: nat): (r: nat)
    ensures r >= 1
  {
    if n == 0 then 1 else 10 * Pow10(n - 1)
  }

  /** A numeral of `n` digits is below `10^n`. */
  lemma {:induction false} NumeralBound(ds: string)
    ensures Numeral(ds) < Pow10(|ds|)
  {
    if ds != [] {
      NumeralBound(ds[..|ds| - 1]);
    }
  }

  lemma FractionBelowOne(n: nat, p: nat)
    requires n < p
    ensures 0.0 <= n as real / p as real < 1.0
  {
  }

  /** `parseFloat` of the value group (index.js) and `float()` of it
      (coparse.py): the integer digits plus the fraction digits scaled by
      their number of places. The reading is never negative and its integer
      part is the numeral of the integer digits. */
  function Value(t: Token): (v: real)
    ensures Numeral(t.whole) as real <= v < Numeral(t.whole) as real + 1.0
    ensures !t.point && t.frac == [] ==> v == Numeral(t.whole) as real
  {
    NumeralBound(t.frac);
    FractionBelowOne(Numeral(t.frac), Pow10(|t.frac|));
    Numeral(t.whole) as real + Numeral(t.frac) as real / Pow10(|t.frac|) as real
  }

  /** `parseInt` of the value group: it stops at the point, so it reads the
      `parseFloat` value rounded down to a whole number. */
  function Whole(t: Token): (r: nat)
    ensures r as real <= Value(t) < r as real + 1.0
    ensures r == Value(t).Floor
    ensures !t.point && t.frac == [] ==> r as real == Value(t)
  {
    Numeral(t.whole)
  }

  /** Python's `int()` of the value group: the integer it spells, or
      `ValueError` when the group holds a point. */
  function PyInt(t: Token): (r: Raising<nat>)
    ensures r.ValueError? <==> t.point
    ensures r.Returns? ==> r.value == Whole(t)
  {
    if t.point then ValueError else Returns(Numeral(t.whole))
  }
}
