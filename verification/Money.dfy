/**
 Money arithmetic on whole cents. Amounts, prices and quantities are integers in
 hundredths, percentages in hundredths of a percent, and every product is
 rounded half up, as Math.round does (ties go towards plus infinity).
 */
module Money {
  import opened Sums

  /** n / d rounded half up to a whole number. */
  function RoundDiv(n: int, d: int): (r: int)
    requires d > 0
    ensures -d <= 2 * n - 2 * d * r < d
  {
    (2 * n + d) / (2 * d)
  }

  /** Half-up rounding is the only integer within the half-open half unit. */
  lemma RoundDivUnique(n: int, d: int, r: int)
    requires d > 0
    ensures r == RoundDiv(n, d) <==> -d <= 2 * n - 2 * d * r < d
  {
    var q := RoundDiv(n, d);
    if -d <= 2 * n - 2 * d * r < d && r != q {
      assert -2 * d < 2 * d * (r - q) < 2 * d;
      if r > q {
        MulMonotone(2 * d, 1, r - q);
      } else {
        MulMonotone(2 * d, r - q, -1);
      }
      assert false;
    }
  }

  lemma MulMonotone(d: int, x: int, y: int)
    requires d >= 0 && x <= y
    ensures d * x <= d * y
  {
  }

  /** Rounding commutes with adding whole units, so running totals of rounded products drift by nothing. */
  lemma RoundDivShift(k: int, n: int, d: int)
    requires d > 0
    ensures RoundDiv(k * d + n, d) == k + RoundDiv(n, d)
  {
    RoundDivUnique(k * d + n, d, k + RoundDiv(n, d));
    assert 2 * (k * d + n) - 2 * d * (k + RoundDiv(n, d)) == 2 * n - 2 * d * RoundDiv(n, d);
  }

  lemma RoundDivBounds(n: int, d: int, top: int)
    requires d > 0 && 0 <= n <= d * top
    ensures 0 <= RoundDiv(n, d) <= top
  {
    var r := RoundDiv(n, d);
    if r < 0 {
      MulMonotone(2 * d, r, -1);
    }
    if r > top {
      MulMonotone(2 * d, top + 1, r);
    }
  }

  /** A document line after its inputs went through toAmount. */
  datatype LineInput = LineInput(qty: nat, price: nat, taxRate: nat, discountPct: nat, lineDiscount: nat)

  datatype LineAmounts = LineAmounts(amount: int, total: int, tax: int)

  /** A quantity string has up to three decimals; toAmount keeps two. */
  function ToAmount(thousandths: nat): nat {
    RoundDivBounds(thousandths, 10, thousandths);
    RoundDiv(thousandths, 10)
  }

  function ComputeLine(l: LineInput): LineAmounts {
    var amount := LineAmount(l.qty, l.price);
    var total := LineTotal(amount, l.discountPct, l.lineDiscount);
    LineAmounts(amount, total, TaxAmount(total, l.taxRate))
  }

  /** r is n / d rounded half up. */
  predicate HalfUp(n: int, d: int, r: int) {
    -d <= 2 * n - 2 * d * r < d
  }

  /**
   Quantity times price is rounded to the cent, then the percentage off that, then
   the flat discount comes off; the tax is rounded from what is left.
   */
  predicate Priced(l: LineInput, amount: int, net: int, tax: int) {
    && HalfUp(l.qty * l.price, 100, amount)
    && HalfUp(amount * (10000 - l.discountPct), 10000, net + l.lineDiscount)
    && HalfUp(net * l.taxRate, 10000, tax)
  }

  lemma LineIsPriced(l: LineInput)
    ensures Priced(l, ComputeLine(l).amount, ComputeLine(l).total, ComputeLine(l).tax)
  {
  }

  function LineAmount(qty: nat, price: nat): int {
    RoundDiv(qty * price, 100)
  }

  /** The percentage discount is rounded before the flat one is taken off; the result may be negative. */
  function LineTotal(amount: int, discountPct: nat, lineDiscount: nat): int {
    RoundDiv(amount * (10000 - discountPct), 10000) - lineDiscount
  }

  function TaxAmount(total: int, taxRate: nat): int {
    RoundDiv(total * taxRate, 10000)
  }

  function AmountOf(): LineInput -> int {
    (l: LineInput) => ComputeLine(l).amount
  }

  function TotalOf(): LineInput -> int {
    (l: LineInput) => ComputeLine(l).total
  }

  function TaxOf(): LineInput -> int {
    (l: LineInput) => ComputeLine(l).tax
  }

  datatype Totals = Totals(subtotal: int, discountTotal: int, taxTotal: int, total: int)

  function ComputeTotals(lines: seq<LineInput>): Totals {
    var subtotal := Sum(lines, AmountOf());
    var taxTotal := Sum(lines, TaxOf());
    var net := Sum(lines, TotalOf());
    Totals(subtotal, subtotal - net, taxTotal, net + taxTotal)
  }

  /* ----------------------------- rounding error ----------------------------- */

  /** The line's gross value in cents with no rounding at all. */
  function ExactLine(l: LineInput): real {
    ExactGross(ExactNet(ExactAmount(l.qty, l.price), l.discountPct, l.lineDiscount), l.taxRate)
  }

  function ExactAmount(qty: nat, price: nat): real {
    qty as real * price as real / 100.0
  }

  function ExactNet(amount: real, discountPct: nat, lineDiscount: nat): real {
    amount * ((10000 - discountPct) as real / 10000.0) - lineDiscount as real
  }

  function ExactGross(net: real, taxRate: nat): real {
    net + net * (taxRate as real / 10000.0)
  }

  function ExactTotal(lines: seq<LineInput>): real {
    if lines == [] then 0.0 else ExactTotal(lines[..|lines| - 1]) + ExactLine(lines[|lines| - 1])
  }

  predicate Near(x: real, y: real, e: real) {
    -e <= x - y <= e
  }

  lemma RoundDivNear(n: int)
    ensures Near(RoundDiv(n, 100) as real, n as real / 100.0, 0.5)
    ensures Near(RoundDiv(n, 10000) as real, n as real / 10000.0, 0.5)
  {
  }

  lemma RealProduct(a: int, b: int)
    ensures (a * b) as real == a as real * b as real
  {
  }

  /** Scaling by k scales the error by k. */
  lemma NearTimes(x: real, y: real, e: real, k: real, m: real)
    requires Near(x, y, e) && 0.0 <= k <= m && e >= 0.0
    ensures Near(x * k, y * k, e * m)
  {
    assert x * k - y * k == (x - y) * k;
    assert (e - (x - y)) * k >= 0.0 && (e + (x - y)) * k >= 0.0;
    assert e * (m - k) >= 0.0;
  }

  lemma PercentRounding(base: int, exact: real, e: real, pct: int)
    requires Near(base as real, exact, e) && e >= 0.0 && 0 <= pct <= 10000
    ensures Near(RoundDiv(base * pct, 10000) as real, exact * (pct as real / 10000.0), e + 0.5)
  {
    var k := pct as real / 10000.0;
    NearTimes(base as real, exact, e, k, 1.0);
    RealProduct(base, pct);
    PercentScale(base as real, pct as real);
    RoundDivNear(base * pct);
  }

  lemma PercentScale(x: real, p: real)
    ensures x * p / 10000.0 == x * (p / 10000.0)
  {
  }

  lemma AmountRounding(qty: nat, price: nat)
    ensures Near(LineAmount(qty, price) as real, ExactAmount(qty, price), 0.5)
  {
    RealProduct(qty, price);
    RoundDivNear(qty * price);
  }

  lemma DiscountRounding(amount: int, exact: real, discountPct: nat, lineDiscount: nat)
    requires Near(amount as real, exact, 0.5) && discountPct <= 10000
    ensures Near(LineTotal(amount, discountPct, lineDiscount) as real, ExactNet(exact, discountPct, lineDiscount), 1.0)
  {
    PercentRounding(amount, exact, 0.5, 10000 - discountPct);
  }

  lemma TaxRounding(total: int, exact: real, taxRate: nat)
    requires Near(total as real, exact, 1.0) && taxRate <= 10000
    ensures Near((total + TaxAmount(total, taxRate)) as real, ExactGross(exact, taxRate), 2.5)
  {
    PercentRounding(total, exact, 1.0, taxRate);
  }

  /**
   The stored totals tie out exactly in cents, and no document of n lines is
   further than 2.5 n cents from its unrounded value.
   */
  lemma {:induction false} TotalsTieOut(lines: seq<LineInput>)
    requires forall i :: 0 <= i < |lines| ==> lines[i].taxRate <= 10000 && lines[i].discountPct <= 10000
    ensures var t := ComputeTotals(lines);
      && t.total == t.subtotal - t.discountTotal + t.taxTotal
      && Near(t.total as real, ExactTotal(lines), 2.5 * |lines| as real)
  {
    if lines != [] {
      var n := |lines| - 1;
      TotalsTieOut(lines[..n]);
      var l := lines[n];
      AmountRounding(l.qty, l.price);
      var amount, exact := LineAmount(l.qty, l.price), ExactAmount(l.qty, l.price);
      DiscountRounding(amount, exact, l.discountPct, l.lineDiscount);
      TaxRounding(LineTotal(amount, l.discountPct, l.lineDiscount), ExactNet(exact, l.discountPct, l.lineDiscount), l.taxRate);
    }
  }
}
