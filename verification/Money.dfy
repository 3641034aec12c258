/**
 Amounts are whole francs (XOF has no subunit) and VAT rates are basis points. VAT goes forwards
 on sale and purchase lines, and backwards out of a tax-inclusive platform invoice. Both round
 with `Math.round`, which sends a half towards plus infinity (section 21.3.2.28 of ECMA-262).
 */
module Money {
  import opened Sums

  const BASIS_POINTS := 10_000
  const PLATFORM_VAT_RATE := 1_800

  /** `Math.round(n / d)` on the exact quotient. */
  function RoundDiv(n: int, d: int): int
    requires d > 0
  {
    (2 * n + d) / (2 * d)
  }

  datatype LineTotals = LineTotals(excludingTax: int, vat: int, includingTax: int)

  function ComputeLineTotals(quantity: int, unitPrice: int, rate: nat): LineTotals {
    var excludingTax := quantity * unitPrice;
    var vat := RoundDiv(excludingTax * rate, BASIS_POINTS);
    LineTotals(excludingTax, vat, excludingTax + vat)
  }

  /** A tax-inclusive amount split into its net part and its VAT. */
  datatype Split = Split(excludingTax: int, vat: int)

  function SplitInclusive(amount: int, rate: nat): Split {
    var excludingTax := RoundDiv(amount * BASIS_POINTS, BASIS_POINTS + rate);
    Split(excludingTax, amount - excludingTax)
  }

  // ---- Rounding ----

  /** The rounded quotient is the only integer within half a unit, an exact half going up. */
  lemma RoundDivIsNearest(n: int, d: int, q: int)
    requires d > 0
    ensures q == RoundDiv(n, d) <==> 2 * n - d < 2 * d * q <= 2 * n + d
  {
    var r := RoundDiv(n, d);
    assert 2 * n + d == 2 * d * r + (2 * n + d) % (2 * d);
    if q < r {
      MulAtLeast(2 * d, r - q);
      assert 2 * d * (r - q) == 2 * d * r - 2 * d * q;
    } else if q > r {
      MulAtLeast(2 * d, q - r);
      assert 2 * d * (q - r) == 2 * d * q - 2 * d * r;
    }
  }

  lemma MulAtLeast(a: int, b: int)
    requires a > 0 && b > 0
    ensures a * b >= a
  {
  }

  // ---- Round trips ----

  /** Adding VAT to a net amount with a line and splitting it back returns that net amount. */
  lemma SplitUndoesLine(net: int, rate: nat)
    ensures SplitInclusive(ComputeLineTotals(1, net, rate).includingTax, rate)
         == Split(net, ComputeLineTotals(1, net, rate).vat)
  {
    var t := ComputeLineTotals(1, net, rate);
    var tax := net * rate;
    RoundDivIsNearest(tax, BASIS_POINTS, t.vat);
    assert 2 * (BASIS_POINTS + rate) * net == 2 * BASIS_POINTS * net + 2 * tax;
    if rate == 0 {
      assert tax == 0;
    }
    RoundDivIsNearest(t.includingTax * BASIS_POINTS, BASIS_POINTS + rate, net);
  }

  /** Splitting a gross amount and adding the VAT back is off by one franc at most. */
  lemma SplitThenLineDrift(gross: int, rate: nat)
    requires rate <= BASIS_POINTS
    ensures -1 <= ComputeLineTotals(1, SplitInclusive(gross, rate).excludingTax, rate).includingTax - gross <= 1
  {
    var net := SplitInclusive(gross, rate).excludingTax;
    var t := ComputeLineTotals(1, net, rate);
    var tax := net * rate;
    RoundDivIsNearest(gross * BASIS_POINTS, BASIS_POINTS + rate, net);
    RoundDivIsNearest(tax, BASIS_POINTS, t.vat);
    assert 2 * (BASIS_POINTS + rate) * net == 2 * BASIS_POINTS * net + 2 * tax;
  }

  /** What is left of the gross amount, in basis points, once it is divided by one plus the rate. */
  function Remainder(gross: int, rate: nat): nat {
    (gross * BASIS_POINTS) % (BASIS_POINTS + rate)
  }

  lemma DivModUnique(n: int, d: int, q: int, m: int)
    requires 0 <= m < d && n == d * q + m
    ensures n / d == q && n % d == m
  {
    var q', m' := n / d, n % d;
    assert n == d * q' + m';
    assert d * (q' - q) == m - m';
    assert d * (q - q') == m' - m;
    if q' > q {
      MulAtLeast(d, q' - q);
    } else if q' < q {
      MulAtLeast(d, q - q');
    }
  }

  /** A rounded quotient is the whole one, or one more when the remainder is at least half. */
  lemma RoundDivByRemainder(n: int, d: int)
    requires d > 0
    ensures d * RoundDiv(n, d) == n - n % d + if 2 * (n % d) < d then 0 else d
  {
    var m, q := n % d, n / d;
    var rounded := if 2 * m < d then q else q + 1;
    assert n == d * q + m;
    assert d * (q + 1) == d * q + d;
    assert 2 * d * rounded == 2 * (d * rounded);
    RoundDivIsNearest(n, d, rounded);
  }

  /**
   Splitting and adding back is exact exactly when that remainder is small enough, or close enough to the
   next multiple: within half of what one franc weighs at the rate zero.
   */
  lemma SplitThenLineExactWhen(gross: int, rate: nat)
    ensures ComputeLineTotals(1, SplitInclusive(gross, rate).excludingTax, rate).includingTax == gross
       <==> 2 * Remainder(gross, rate) <= BASIS_POINTS || 2 * Remainder(gross, rate) > BASIS_POINTS + 2 * rate
  {
    var d, net := BASIS_POINTS + rate, SplitInclusive(gross, rate).excludingTax;
    RoundDivByRemainder(gross * BASIS_POINTS, d);
    assert d * net == BASIS_POINTS * net + net * rate;
    if rate == 0 {
      DivModUnique(gross * BASIS_POINTS, BASIS_POINTS, gross, 0);
    }
    ExactByRemainder(gross, rate, Remainder(gross, rate), net, net * rate);
  }

  lemma ExactByRemainder(gross: int, rate: nat, m: nat, net: int, tax: int)
    requires m < BASIS_POINTS + rate && (rate == 0 ==> m == 0)
    requires BASIS_POINTS * net + tax == gross * BASIS_POINTS - m + if 2 * m < BASIS_POINTS + rate then 0 else BASIS_POINTS + rate
    ensures net + RoundDiv(tax, BASIS_POINTS) == gross <==> 2 * m <= BASIS_POINTS || 2 * m > BASIS_POINTS + 2 * rate
  {
    RoundDivIsNearest(tax, BASIS_POINTS, gross - net);
  }

  /** At the platform's 18% the condition is on the gross amount modulo 59. */
  lemma SplitThenLineExactAtPlatformRate(gross: int)
    ensures ComputeLineTotals(1, SplitInclusive(gross, PLATFORM_VAT_RATE).excludingTax, PLATFORM_VAT_RATE).includingTax == gross
       <==> (50 * gross) % 59 <= 25 || (50 * gross) % 59 >= 35
  {
    SplitThenLineExactWhen(gross, PLATFORM_VAT_RATE);
    var q, m := (50 * gross) / 59, (50 * gross) % 59;
    assert 50 * gross == 59 * q + m;
    DivModUnique(gross * BASIS_POINTS, BASIS_POINTS + PLATFORM_VAT_RATE, q, 200 * m);
  }

  /** Three francs is the least amount that is not exact: it splits into 3 and 0, and adds back to 4. */
  lemma SplitThenLineMayDrift(gross: nat)
    requires gross <= 3
    ensures ComputeLineTotals(1, SplitInclusive(gross, PLATFORM_VAT_RATE).excludingTax, PLATFORM_VAT_RATE).includingTax
         == if gross == 3 then 4 else gross
  {
    SplitThenLineExactAtPlatformRate(gross);
  }

  // ---- Documents ----

  datatype PricedLine = PricedLine(quantity: int, unitPrice: int, rate: nat)

  function NetOf(line: PricedLine): int {
    line.quantity * line.unitPrice
  }

  /** The VAT of a line before rounding, in hundredths of a percent of a franc. */
  function ExactVat(line: PricedLine): int {
    NetOf(line) * line.rate
  }

  /** The totals a sale, purchase or invoice view shows: a reduction over the rounded lines. */
  function DocumentTotals(lines: seq<PricedLine>): LineTotals {
    if lines == [] then LineTotals(0, 0, 0)
    else
      var acc := DocumentTotals(lines[..|lines| - 1]);
      var last := lines[|lines| - 1];
      var t := ComputeLineTotals(last.quantity, last.unitPrice, last.rate);
      LineTotals(acc.excludingTax + t.excludingTax, acc.vat + t.vat, acc.includingTax + t.includingTax)
  }

  /**
   Rounding each line drifts from the exact VAT of the document by at most half a franc per line,
   and the three totals stay consistent.
   */
  lemma {:induction false} DocumentVatDrift(lines: seq<PricedLine>)
    ensures var t := DocumentTotals(lines);
      && t.excludingTax == Sum(lines, NetOf)
      && t.includingTax == t.excludingTax + t.vat
      && -|lines| * BASIS_POINTS <= 2 * (BASIS_POINTS * t.vat - Sum(lines, ExactVat)) <= |lines| * BASIS_POINTS
  {
    if lines == [] {
    } else {
      var init, last := lines[..|lines| - 1], lines[|lines| - 1];
      DocumentVatDrift(init);
      RoundDivIsNearest(ExactVat(last), BASIS_POINTS, RoundDiv(ExactVat(last), BASIS_POINTS));
    }
  }

  /** With one rate on every line, the exact VAT is that rate applied to the document's net total. */
  lemma {:induction false} OneRateVatDrift(lines: seq<PricedLine>, rate: nat)
    requires forall line | line in lines :: line.rate == rate
    ensures var t := DocumentTotals(lines);
      -|lines| * BASIS_POINTS <= 2 * (BASIS_POINTS * t.vat - rate * t.excludingTax) <= |lines| * BASIS_POINTS
  {
    DocumentVatDrift(lines);
    OneRateExactVat(lines, rate);
  }

  lemma {:induction false} OneRateExactVat(lines: seq<PricedLine>, rate: nat)
    requires forall line | line in lines :: line.rate == rate
    ensures Sum(lines, ExactVat) == rate * Sum(lines, NetOf)
  {
    if lines == [] {
    } else {
      var init, last := lines[..|lines| - 1], lines[|lines| - 1];
      assert last in lines;
      assert forall line | line in init :: line in lines;
      OneRateExactVat(init, rate);
      assert rate * (Sum(init, NetOf) + NetOf(last)) == rate * Sum(init, NetOf) + NetOf(last) * rate;
    }
  }
}
