/**
  The part of Python's `decimal.Decimal` the store relies on: exact
  addition, multiplication by an integer, `sum(..., Decimal('0'))` and
  `quantize(Decimal('0.01'))` under the default ROUND_HALF_EVEN context.

  A value is a coefficient and a count of fractional digits (the negated
  exponent), so `Decimal('0')` and `Decimal('0.00')` are different
  representations of the same number, as they are in Python.
 */
module Decimals {

  datatype Decimal = Decimal(coef: int, places: nat)

  function Pow10(n: nat): (r: nat)
    ensures r >= 1
  {
    if n == 0 then 1 else 10 * Pow10(n - 1)
  }

  function Max(a: nat, b: nat): nat {
    if a < b then b else a
  }

  function Abs(x: int): nat {
    if x < 0 then -x else x
  }

  /** `a` and `b` denote the same number. */
  predicate SameValue(a: Decimal, b: Decimal) {
    a.coef * Pow10(b.places) == b.coef * Pow10(a.places)
  }

  /** The value in hundredths, for a value with at most two fractional digits. */
  function ToCents(d: Decimal): int
    requires d.places <= 2
  {
    d.coef * Pow10(2 - d.places)
  }

  /** A value with exactly two fractional digits. */
  function Money(cents: int): Decimal {
    Decimal(cents, 2)
  }

  /**
    Exact addition: the result keeps the larger number of fractional
    digits, and its value, coef / 10^places, is exactly a's plus b's.
   */
  function Add(a: Decimal, b: Decimal): (r: Decimal)
    ensures r.places == Max(a.places, b.places)
    ensures r.coef * Pow10(a.places) * Pow10(b.places)
            == (a.coef * Pow10(b.places) + b.coef * Pow10(a.places)) * Pow10(r.places)
  {
    var p := Max(a.places, b.places);
    var ca := Pow10(p - a.places);
    var cb := Pow10(p - b.places);
    Pow10Add(p - a.places, a.places);
    Pow10Add(p - b.places, b.places);
    AlignedSum(a.coef, b.coef, ca, cb, Pow10(a.places), Pow10(b.places), Pow10(p));
    Decimal(a.coef * ca + b.coef * cb, p)
  }

  /** Scaling both terms to a common denominator `d` keeps the sum's value. */
  lemma AlignedSum(x: int, y: int, ca: int, cb: int, pa: int, pb: int, d: int)
    requires ca * pa == d && cb * pb == d
    ensures (x * ca + y * cb) * pa * pb == (x * pb + y * pa) * d
  {
  }

  /** 10^(m + n) = 10^m * 10^n. */
  lemma {:induction false} Pow10Add(m: nat, n: nat)
    ensures Pow10(m + n) == Pow10(m) * Pow10(n)
    decreases m
  {
    if m > 0 {
      Pow10Add(m - 1, n);
    }
  }

  /** `n * d` for a Python `int` n: the integer has exponent 0, so `d`'s exponent is kept. */
  function Scale(n: int, d: Decimal): (r: Decimal)
    ensures r.places == d.places
    ensures d.places <= 2 ==> ToCents(r) == n * ToCents(d)
  {
    var r := Decimal(n * d.coef, d.places);
    assert d.places <= 2 ==> ToCents(r) == n * ToCents(d) by {
      if d.places <= 2 {
        MulAssoc(n, d.coef, Pow10(2 - d.places));
      }
    }
    r
  }

  lemma MulAssoc(a: int, b: int, c: int)
    ensures (a * b) * c == a * (b * c)
  {
  }

  /** `sum(ds, Decimal('0'))`: a left fold of `Add` from an integer zero. */
  function Sum(ds: seq<Decimal>): Decimal {
    SumFrom(Decimal(0, 0), ds)
  }

  function SumFrom(acc: Decimal, ds: seq<Decimal>): Decimal
    decreases |ds|
  {
    if |ds| == 0 then acc else SumFrom(Add(acc, ds[0]), ds[1..])
  }

  predicate AtMostCents(ds: seq<Decimal>) {
    forall i :: 0 <= i < |ds| ==> ds[i].places <= 2
  }

  /** The exact sum of the values of `ds`, in hundredths. */
  function TotalCents(ds: seq<Decimal>): int
    requires AtMostCents(ds)
    decreases |ds|
  {
    if |ds| == 0 then 0 else ToCents(ds[0]) + TotalCents(ds[1..])
  }

  /** Rounds `n / m` to the nearest integer, ties to the even neighbour. */
  function RoundHalfEven(n: int, m: int): (q: int)
    requires m > 0
    ensures 2 * Abs(n - q * m) <= m
    ensures 2 * Abs(n - q * m) == m ==> q % 2 == 0
  {
    var f := n / m;
    var rem := n % m;
    assert n == f * m + rem;
    assert (f + 1) * m == f * m + m;
    if 2 * rem < m then f
    else if 2 * rem > m then f + 1
    else if f % 2 == 0 then f
    else f + 1
  }

  /**
    `d.quantize(Decimal('0.01'))`: the result always has two fractional
    digits; a value that already fits is kept exactly, any other is rounded
    to the nearest hundredth with ties to even.
   */
  function Quantize2(d: Decimal): (r: Decimal)
    ensures r.places == 2
    ensures d.places <= 2 ==> SameValue(r, d)
    ensures d.places > 2 ==> 2 * Abs(d.coef - r.coef * Pow10(d.places - 2)) <= Pow10(d.places - 2)
    ensures d.places > 2 && 2 * Abs(d.coef - r.coef * Pow10(d.places - 2)) == Pow10(d.places - 2) ==>
              r.coef % 2 == 0
  {
    if d.places <= 2 then
      assert Pow10(1) == 10 && Pow10(2) == 100;
      Decimal(d.coef * Pow10(2 - d.places), 2)
    else
      Decimal(RoundHalfEven(d.coef, Pow10(d.places - 2)), 2)
  }

  /** Adding two values of at most two fractional digits adds their cents. */
  lemma AddCents(a: Decimal, b: Decimal)
    requires a.places <= 2 && b.places <= 2
    ensures Add(a, b).places <= 2
    ensures ToCents(Add(a, b)) == ToCents(a) + ToCents(b)
  {
    assert Pow10(0) == 1 && Pow10(1) == 10 && Pow10(2) == 100;
  }

  /** A left fold of additions over cent-valued terms totals their cents. */
  lemma {:induction false} SumFromCents(acc: Decimal, ds: seq<Decimal>)
    requires acc.places <= 2 && AtMostCents(ds)
    ensures SumFrom(acc, ds).places <= 2
    ensures ToCents(SumFrom(acc, ds)) == ToCents(acc) + TotalCents(ds)
    decreases |ds|
  {
    if |ds| > 0 {
      AddCents(acc, ds[0]);
      SumFromCents(Add(acc, ds[0]), ds[1..]);
    }
  }

  /** Quantizing a value that already has two fractional digits changes nothing. */
  lemma QuantizeKeepsMoney(c: int)
    ensures Quantize2(Money(c)) == Money(c)
  {
  }

  /** Quantizing is idempotent. */
  lemma QuantizeIdempotent(d: Decimal)
    ensures Quantize2(Quantize2(d)) == Quantize2(d)
  {
  }

  /**
    The quantized sum of cent-valued terms is their exact total with two
    fractional digits; in particular the empty sum, the integer 0, becomes 0.00.
   */
  lemma QuantizedSum(ds: seq<Decimal>)
    requires AtMostCents(ds)
    ensures Quantize2(Sum(ds)) == Money(TotalCents(ds))
  {
    SumFromCents(Decimal(0, 0), ds);
    var s := Sum(ds);
    assert Pow10(0) == 1 && Pow10(1) == 10 && Pow10(2) == 100;
    assert Quantize2(s).coef == ToCents(s);
  }
}
