/** The eTIMS tax engine (packages/etims/src/tax.ts): half-up integer VAT on minor units, priced either way. */
module Tax {
  import opened Prelude
  import opened Sums
  import opened Text

  /** Half-up integer division. */
  function DivRound(n: int, d: int): int
    requires d > 0
  {
    var a := if n < 0 then -n else n;
    var q := (a * 2 + d) / (2 * d);
    if n < 0 then -q else q
  }

  lemma FloorBounds(m: int, k: int)
    requires k > 0
    ensures k * (m / k) <= m < k * (m / k) + k
  {
  }

  /** The quotient is within half a divisor, a half counting upwards. */
  lemma DivRoundBounds(n: int, d: int)
    requires n >= 0 && d > 0
    ensures DivRound(n, d) >= 0
    ensures 2 * n - d < 2 * (d * DivRound(n, d)) <= 2 * n + d
  {
    var q := DivRound(n, d);
    FloorBounds(n * 2 + d, 2 * d);
    assert (2 * d) * q == 2 * (d * q);
    assert d * -q == -(d * q);
    if q < 0 {
      MulAtLeast(d, -q);
    }
  }

  /** There is only one such quotient. */
  lemma DivRoundUnique(n: int, d: int, q: int)
    requires n >= 0 && d > 0 && 2 * n - d < 2 * (d * q) <= 2 * n + d
    ensures DivRound(n, d) == q
  {
    var p := DivRound(n, d);
    DivRoundBounds(n, d);
    assert d * (p - q) == d * p - d * q && d * (q - p) == d * q - d * p;
    if p > q {
      MulAtLeast(d, p - q);
    } else if p < q {
      MulAtLeast(d, q - p);
    }
  }

  lemma MulAtLeast(d: int, k: int)
    requires d > 0 && k >= 1
    ensures d * k >= d
  {
  }

  /** Tax on a net amount priced without tax. */
  function TaxOn(net: int, rate: int): int {
    if rate == 0 then 0 else DivRound(net * rate, 100)
  }

  /** Tax contained in an amount priced with tax. */
  function TaxIn(total: int, rate: int): int
    requires rate > -100
  {
    if rate == 0 then 0 else DivRound(total * rate, 100 + rate)
  }

  /** Pricing a net amount without tax and extracting the tax again from the total gives back the same tax, and so the same net, at every rate. */
  lemma ExclusiveRoundTrip(net: int, rate: int)
    requires net >= 0 && rate >= 0
    ensures TaxIn(net + TaxOn(net, rate), rate) == TaxOn(net, rate)
  {
    var t := TaxOn(net, rate);
    if rate > 0 {
      NonNegativeProduct(net, rate);
      DivRoundBounds(net * rate, 100);
      NonNegativeProduct(t, rate);
      assert (net + t) * rate == net * rate + t * rate;
      assert (100 + rate) * t == 100 * t + t * rate;
      DivRoundUnique((net + t) * rate, 100 + rate, t);
    }
  }

  lemma NonNegativeProduct(a: int, b: int)
    requires a >= 0 && b >= 0
    ensures a * b >= 0
  {
  }

  /** How far the extracted tax is from the exact tax, in hundred-and-rate-ths. */
  function Excess(total: int, rate: int): int
    requires rate > -100
  {
    total * rate - (100 + rate) * TaxIn(total, rate)
  }

  lemma ExtractedNet(total: int, rate: int)
    requires total >= 0 && rate > 0
    ensures 0 <= TaxIn(total, rate) <= total
    ensures -(100 + rate) <= 2 * Excess(total, rate) < 100 + rate
    ensures (total - TaxIn(total, rate)) * rate == 100 * TaxIn(total, rate) + Excess(total, rate) >= 0
  {
    var t := TaxIn(total, rate);
    NonNegativeProduct(total, rate);
    DivRoundBounds(total * rate, 100 + rate);
    TaxWithin(total, rate);
    assert (total - t) * rate == total * rate - t * rate;
    assert (100 + rate) * t == 100 * t + t * rate;
    NonNegativeProduct(total - t, rate);
  }

  /** Rounding never takes the tax above the total. */
  lemma TaxWithin(total: int, rate: int)
    requires total >= 0 && rate > 0
    ensures 0 <= TaxIn(total, rate) <= total
  {
    var t := TaxIn(total, rate);
    NonNegativeProduct(total, rate);
    DivRoundBounds(total * rate, 100 + rate);
    assert (100 + rate) * (t - total) == (100 + rate) * t - (100 * total + total * rate);
    if t > total {
      MulAtLeast(100 + rate, t - total);
    }
  }

  /** What the rounding leaves over, read off the remainder of the division. */
  lemma ExcessIs(total: int, rate: int)
    requires total >= 0 && rate > 0
    ensures var r := total * rate % (100 + rate);
      Excess(total, rate) == if 2 * r < 100 + rate then r else r - (100 + rate)
  {
    var n, d := total * rate, 100 + rate;
    var q, r := n / d, n % d;
    NonNegativeProduct(total, rate);
    assert n == d * q + r;
    assert d * (q + 1) == d * q + d;
    DivRoundUnique(n, d, if 2 * r < d then q else q + 1);
  }

  /** The opposite direction returns the same tax exactly when the extraction was within half a net unit. */
  lemma RoundTripIffWithinHalf(total: int, rate: int)
    requires total >= 0 && rate > 0
    ensures TaxOn(total - TaxIn(total, rate), rate) == TaxIn(total, rate) <==> -50 <= Excess(total, rate) < 50
  {
    var t := TaxIn(total, rate);
    ExtractedNet(total, rate);
    DivRoundBounds((total - t) * rate, 100);
    if -50 <= Excess(total, rate) < 50 {
      DivRoundUnique((total - t) * rate, 100, t);
    }
  }

  /** When the opposite direction returns the same tax, decided by the total and the rate alone. */
  lemma InclusiveRoundTripIff(total: int, rate: int)
    requires total >= 0 && rate >= 0
    ensures var r := total * rate % (100 + rate);
      TaxOn(total - TaxIn(total, rate), rate) == TaxIn(total, rate) <==> r < 50 || r >= 50 + rate
  {
    if rate > 0 {
      RoundTripIffWithinHalf(total, rate);
      ExcessIs(total, rate);
    }
  }

  lemma RemainderIs(n: int, d: int, q: int, r: int)
    requires 0 <= r < d && n == d * q + r
    ensures n % d == r
  {
    var p := n / d;
    assert d * (q - p) == d * q - d * p && d * (p - q) == d * p - d * q;
    if q > p {
      MulAtLeast(d, q - p);
    } else if p > q {
      MulAtLeast(d, p - q);
    }
  }

  lemma SixteenTimes(total: int)
    ensures total * 16 % 116 < 50 || total * 16 % 116 >= 66 <==> total % 29 !in {4, 11, 18, 25}
  {
    var q, m := total / 29, total % 29;
    var k := if m * 16 < 116 then 0 else if m * 16 < 232 then 1 else if m * 16 < 348 then 2 else 3;
    RemainderIs(total * 16, 116, 4 * q + k, m * 16 - 116 * k);
  }

  lemma EightTimes(total: int)
    ensures total * 8 % 108 < 50 || total * 8 % 108 >= 58 <==> total % 27 !in {7, 20}
  {
    var q, m := total / 27, total % 27;
    var k := if m * 8 < 108 then 0 else 1;
    RemainderIs(total * 8, 108, 2 * q + k, m * 8 - 108 * k);
  }

  /** At 16% the totals that do not come back are those 4, 11, 18 or 25 above a multiple of 29 minor units. */
  lemma StandardRateRoundTrip(total: int)
    requires total >= 0
    ensures TaxOn(total - TaxIn(total, 16), 16) == TaxIn(total, 16) <==> total % 29 !in {4, 11, 18, 25}
  {
    InclusiveRoundTripIff(total, 16);
    SixteenTimes(total);
  }

  /** At 8% they are those 7 or 20 above a multiple of 27. */
  lemma ReducedRateRoundTrip(total: int)
    requires total >= 0
    ensures TaxOn(total - TaxIn(total, 8), 8) == TaxIn(total, 8) <==> total % 27 !in {7, 20}
  {
    InclusiveRoundTripIff(total, 8);
    EightTimes(total);
  }

  /** At any rate up to 200% it is off by at most one minor unit. */
  lemma InclusiveRoundTripWithinOne(total: int, rate: int)
    requires total >= 0 && 0 <= rate <= 200
    ensures -1 <= TaxOn(total - TaxIn(total, rate), rate) - TaxIn(total, rate) <= 1
  {
    if rate > 0 {
      ExtractedNet(total, rate);
      DivRoundBounds((total - TaxIn(total, rate)) * rate, 100);
    }
  }

  /** The smallest totals that do not come back: four minor units at 16%, seven at 8%. */
  lemma InclusiveRoundTripFails()
    ensures TaxIn(4, 16) == 1 && TaxOn(4 - TaxIn(4, 16), 16) == 0
    ensures TaxIn(7, 8) == 1 && TaxOn(7 - TaxIn(7, 8), 8) == 0
  {
  }

  // --------------------------------------------------------------------- documents

  const TAX_TYPES := ["A", "B", "C", "D", "E"]

  function RateOf(taxType: string): Option<int> {
    if taxType in {"A", "C", "D"} then Some(0)
    else if taxType == "B" then Some(16)
    else if taxType == "E" then Some(8)
    else None
  }

  datatype LineInput = LineInput(description: string, qtyMilli: int, unitPrice: int, discount: int, taxType: string)

  datatype Line = Line(taxType: string, rate: int, supply: int, tax: int, total: int, net: int)

  datatype Bucket = Bucket(taxable: int, tax: int)

  datatype Document = Document(lines: seq<Line>, buckets: map<string, Bucket>, subtotal: int, tax: int, total: int)

  /** One line, or the reason it is refused. */
  function LineOf(l: LineInput, inclusive: bool): (r: Result<Line>) {
    if Blank(l.description) then Err("description is required")
    else if l.qtyMilli <= 0 then Err("quantity must be positive")
    else if l.unitPrice < 0 then Err("price cannot be negative")
    else if RateOf(l.taxType).None? then Err("unknown tax type")
    else
      var supply := DivRound(l.unitPrice * l.qtyMilli, 1000);
      if l.discount < 0 || l.discount > supply then Err("invalid discount")
      else
        var net, rate := supply - l.discount, RateOf(l.taxType).value;
        var tax := if inclusive then TaxIn(net, rate) else TaxOn(net, rate);
        var total := if inclusive then net else net + tax;
        Ok(Line(l.taxType, rate, supply, tax, total, total - tax))
  }

  function NetOf(ls: seq<Line>): nat -> int { (i: nat) => if i < |ls| then ls[i].net else 0 }

  function TaxOf(ls: seq<Line>): nat -> int { (i: nat) => if i < |ls| then ls[i].tax else 0 }

  function TotalOf(ls: seq<Line>): nat -> int { (i: nat) => if i < |ls| then ls[i].total else 0 }

  function TaxableOfType(ls: seq<Line>, t: string): nat -> int {
    (i: nat) => if i < |ls| && ls[i].taxType == t then ls[i].total else 0
  }

  function TaxOfType(ls: seq<Line>, t: string): nat -> int {
    (i: nat) => if i < |ls| && ls[i].taxType == t then ls[i].tax else 0
  }

  function OfType(ls: seq<Line>, t: string): nat -> int {
    (i: nat) => if i < |ls| && ls[i].taxType == t then 1 else 0
  }

  /** The document of some lines: totals and buckets are sums over the lines. */
  function DocumentOf(ls: seq<Line>): Document {
    Document(ls,
             map t | t in TAX_TYPES :: Bucket(Sum(|ls|, TaxableOfType(ls, t)), Sum(|ls|, TaxOfType(ls, t))),
             Sum(|ls|, NetOf(ls)), Sum(|ls|, TaxOf(ls)), Sum(|ls|, TotalOf(ls)))
  }

  /** All lines, or the error of the first refused one. */
  function AllLines(inputs: seq<LineInput>, inclusive: bool): (r: Result<seq<Line>>)
    ensures r.Ok? ==> |r.value| == |inputs| && forall i | 0 <= i < |inputs| :: LineOf(inputs[i], inclusive) == Ok(r.value[i])
    ensures r.Err? ==> exists i :: 0 <= i < |inputs| && LineOf(inputs[i], inclusive) == Err(r.code)
  {
    if |inputs| == 0 then Ok([])
    else
      var before :- AllLines(inputs[..|inputs| - 1], inclusive);
      var l :- LineOf(inputs[|inputs| - 1], inclusive);
      Ok(before + [l])
  }

  function Compute(inputs: seq<LineInput>, inclusive: bool): (r: Result<Document>) {
    if |inputs| == 0 then Err("A document needs at least one line")
    else if |inputs| > 200 then Err("A document may have at most 200 lines")
    else
      var ls :- AllLines(inputs, inclusive);
      if DocumentOf(ls).total <= 0 then Err("Document total must be greater than zero") else Ok(DocumentOf(ls))
  }

  lemma {:induction false} FirstErrorWins(inputs: seq<LineInput>, inclusive: bool, n: nat)
    requires n <= |inputs| && AllLines(inputs[..n], inclusive).Err?
    ensures AllLines(inputs, inclusive) == AllLines(inputs[..n], inclusive)
    decreases |inputs|
  {
    if n < |inputs| {
      assert inputs[..|inputs| - 1][..n] == inputs[..n];
      FirstErrorWins(inputs[..|inputs| - 1], inclusive, n);
    } else {
      assert inputs[..n] == inputs;
    }
  }

  /** One more input: its line is appended, or its error becomes the error of the document. */
  lemma NextLine(inputs: seq<LineInput>, inclusive: bool, i: nat)
    requires i < |inputs| && AllLines(inputs[..i], inclusive).Ok?
    ensures match LineOf(inputs[i], inclusive)
            case Ok(l) => l.taxType in TAX_TYPES && AllLines(inputs[..i + 1], inclusive) == Ok(AllLines(inputs[..i], inclusive).value + [l])
            case Err(c) => AllLines(inputs, inclusive) == Err(c)
  {
    assert inputs[..i + 1][..i] == inputs[..i];
    if LineOf(inputs[i], inclusive).Err? {
      FirstErrorWins(inputs, inclusive, i + 1);
    }
  }

  lemma SumsExtend(ls: seq<Line>, l: Line)
    ensures Sum(|ls| + 1, NetOf(ls + [l])) == Sum(|ls|, NetOf(ls)) + l.net
    ensures Sum(|ls| + 1, TaxOf(ls + [l])) == Sum(|ls|, TaxOf(ls)) + l.tax
    ensures Sum(|ls| + 1, TotalOf(ls + [l])) == Sum(|ls|, TotalOf(ls)) + l.total
  {
    SumAgree(|ls|, NetOf(ls + [l]), NetOf(ls));
    SumAgree(|ls|, TaxOf(ls + [l]), TaxOf(ls));
    SumAgree(|ls|, TotalOf(ls + [l]), TotalOf(ls));
  }

  lemma BucketsExtend(ls: seq<Line>, l: Line, t: string)
    ensures Sum(|ls| + 1, TaxableOfType(ls + [l], t)) == Sum(|ls|, TaxableOfType(ls, t)) + if l.taxType == t then l.total else 0
    ensures Sum(|ls| + 1, TaxOfType(ls + [l], t)) == Sum(|ls|, TaxOfType(ls, t)) + if l.taxType == t then l.tax else 0
  {
    SumAgree(|ls|, TaxableOfType(ls + [l], t), TaxableOfType(ls, t));
    SumAgree(|ls|, TaxOfType(ls + [l], t), TaxOfType(ls, t));
  }

  /** The accumulators after one more line. */
  function AddLine(d: Document, l: Line): Document
    requires l.taxType in d.buckets
  {
    var b := d.buckets[l.taxType];
    Document(d.lines + [l], d.buckets[l.taxType := Bucket(b.taxable + l.total, b.tax + l.tax)],
             d.subtotal + l.net, d.tax + l.tax, d.total + l.total)
  }

  lemma AddLineSums(ls: seq<Line>, l: Line)
    requires l.taxType in TAX_TYPES
    ensures AddLine(DocumentOf(ls), l) == DocumentOf(ls + [l])
  {
    SumsExtend(ls, l);
    forall t | t in TAX_TYPES
      ensures AddLine(DocumentOf(ls), l).buckets[t] == DocumentOf(ls + [l]).buckets[t]
    {
      BucketsExtend(ls, l, t);
    }
  }

  /** Accumulates the totals and buckets line by line; the result is the sum over all lines or the first error. */
  method AccumulateLines(inputs: seq<LineInput>, inclusive: bool) returns (r: Result<Document>)
    ensures match AllLines(inputs, inclusive)
            case Ok(ls) => r == Ok(DocumentOf(ls))
            case Err(c) => r == Err(c)
  {
    var d := Document([], map t | t in TAX_TYPES :: Bucket(0, 0), 0, 0, 0);
    assert d == DocumentOf([]);
    for i := 0 to |inputs|
      invariant AllLines(inputs[..i], inclusive) == Ok(d.lines)
      invariant d == DocumentOf(d.lines)
    {
      NextLine(inputs, inclusive, i);
      var line := LineOf(inputs[i], inclusive);
      if line.Err? {
        return Err(line.code);
      }
      AddLineSums(d.lines, line.value);
      d := AddLine(d, line.value);
    }
    assert inputs[..|inputs|] == inputs;
    return Ok(d);
  }

  // ---------------------------------------------------------------------- theorems

  /** What an accepted line owes: tax between nothing and the total, within half a unit of rate/(100 + rate) of the total. */
  ghost predicate FairLine(l: Line) {
    && RateOf(l.taxType) == Some(l.rate)
    && l.total == l.net + l.tax
    && 0 <= l.tax <= l.total
    && Close(l.rate, 1, l.tax, l.total)
  }

  lemma LineIsFair(input: LineInput, inclusive: bool)
    requires LineOf(input, inclusive).Ok?
    ensures FairLine(LineOf(input, inclusive).value)
  {
    var l := LineOf(input, inclusive).value;
    var net := l.supply - input.discount;
    if l.rate > 0 {
      if inclusive {
        TaxWithin(net, l.rate);
        DivRoundBounds(net * l.rate, 100 + l.rate);
      } else {
        DivRoundBounds(net * l.rate, 100);
      }
    }
  }

  /** Summed over lines: total = subtotal + tax, and the buckets add up to the document. */
  lemma {:induction false} PrefixTotals(ls: seq<Line>, n: nat)
    requires n <= |ls| && forall i | 0 <= i < |ls| :: FairLine(ls[i])
    ensures Sum(n, TotalOf(ls)) == Sum(n, NetOf(ls)) + Sum(n, TaxOf(ls))
    ensures Sum(n, TotalOf(ls)) == Sum(n, TaxableOfType(ls, "A")) + Sum(n, TaxableOfType(ls, "B"))
                                 + Sum(n, TaxableOfType(ls, "C")) + Sum(n, TaxableOfType(ls, "D")) + Sum(n, TaxableOfType(ls, "E"))
    ensures Sum(n, TaxOf(ls)) == Sum(n, TaxOfType(ls, "A")) + Sum(n, TaxOfType(ls, "B"))
                               + Sum(n, TaxOfType(ls, "C")) + Sum(n, TaxOfType(ls, "D")) + Sum(n, TaxOfType(ls, "E"))
  {
    if n > 0 {
      PrefixTotals(ls, n - 1);
      assert FairLine(ls[n - 1]);
    }
  }

  /** Tax within k half-units of the exact share of the taxable amount. */
  predicate Close(rate: int, k: int, tax: int, taxable: int) {
    -(k * (100 + rate)) <= 2 * ((100 + rate) * tax - rate * taxable) <= k * (100 + rate)
  }

  lemma CloseAdds(rate: int, k: int, tax: int, taxable: int, tax': int, taxable': int)
    requires Close(rate, k, tax, taxable) && Close(rate, 1, tax', taxable')
    ensures Close(rate, k + 1, tax + tax', taxable + taxable')
  {
    assert (k + 1) * (100 + rate) == k * (100 + rate) + 100 + rate;
    assert (100 + rate) * (tax + tax') == (100 + rate) * tax + (100 + rate) * tax';
    assert rate * (taxable + taxable') == rate * taxable + rate * taxable';
  }

  lemma {:induction false} PrefixBucket(ls: seq<Line>, t: string, rate: int, n: nat)
    requires n <= |ls| && RateOf(t) == Some(rate) && forall i | 0 <= i < |ls| :: FairLine(ls[i])
    ensures Close(rate, Sum(n, OfType(ls, t)), Sum(n, TaxOfType(ls, t)), Sum(n, TaxableOfType(ls, t)))
  {
    if n > 0 {
      PrefixBucket(ls, t, rate, n - 1);
      assert FairLine(ls[n - 1]);
      if ls[n - 1].taxType == t {
        CloseAdds(rate, Sum(n - 1, OfType(ls, t)), Sum(n - 1, TaxOfType(ls, t)), Sum(n - 1, TaxableOfType(ls, t)),
                  ls[n - 1].tax, ls[n - 1].total);
      }
    }
  }

  /** Totals, buckets and rounding of a document agree. */
  ghost predicate Balanced(d: Document)
    requires d.buckets.Keys == set t | t in TAX_TYPES
  {
    && d.total == d.subtotal + d.tax
    && d.total == d.buckets["A"].taxable + d.buckets["B"].taxable + d.buckets["C"].taxable + d.buckets["D"].taxable + d.buckets["E"].taxable
    && d.tax == d.buckets["A"].tax + d.buckets["B"].tax + d.buckets["C"].tax + d.buckets["D"].tax + d.buckets["E"].tax
    && (forall i | 0 <= i < |d.lines| :: 0 <= d.lines[i].tax <= d.lines[i].total)
    && (forall t | t in TAX_TYPES ::
          Close(RateOf(t).value, Sum(|d.lines|, OfType(d.lines, t)), d.buckets[t].tax, d.buckets[t].taxable))
  }

  lemma FairDocument(ls: seq<Line>)
    requires forall i | 0 <= i < |ls| :: FairLine(ls[i])
    ensures Balanced(DocumentOf(ls))
  {
    PrefixTotals(ls, |ls|);
    var d := DocumentOf(ls);
    forall t | t in TAX_TYPES
      ensures Close(RateOf(t).value, Sum(|ls|, OfType(ls, t)), d.buckets[t].tax, d.buckets[t].taxable)
    {
      PrefixBucket(ls, t, RateOf(t).value, |ls|);
    }
    forall i | 0 <= i < |ls| ensures 0 <= ls[i].tax <= ls[i].total {
      assert FairLine(ls[i]);
    }
  }

  /** Every accepted document balances: by lines, by buckets, and each bucket of k lines is within k/2 units of its exact tax. */
  lemma DocumentBalances(inputs: seq<LineInput>, inclusive: bool)
    requires Compute(inputs, inclusive).Ok?
    ensures var d := Compute(inputs, inclusive).value; Balanced(d) && d.total > 0
  {
    var ls := AllLines(inputs, inclusive).value;
    forall i | 0 <= i < |ls| ensures FairLine(ls[i]) {
      LineIsFair(inputs[i], inclusive);
    }
    FairDocument(ls);
  }

  // ------------------------------------------------------------------- what is charged

  /** g is price times quantity in whole minor units, halves counting upwards. */
  predicate Rounds(l: LineInput, g: int) {
    2 * (l.unitPrice * l.qtyMilli) - 1000 < 2000 * g <= 2 * (l.unitPrice * l.qtyMilli) + 1000
  }

  /** The tax is the rate's share of base/divisor, halves counting upwards. */
  predicate Shares(tax: int, base: int, rate: int, divisor: int) {
    2 * (base * rate) - divisor < 2 * (divisor * tax) <= 2 * (base * rate) + divisor
  }

  /** An accepted line: the supply is g, the discount comes off the side that is priced, and the tax is the type's share of what is left. */
  ghost predicate Charged(input: LineInput, inclusive: bool, g: int, l: Line) {
    && l.taxType == input.taxType && l.supply == g && l.net + l.tax == l.total
    && l.rate == (if input.taxType == "B" then 16 else if input.taxType == "E" then 8 else 0)
    && (if inclusive then l.total == g - input.discount && Shares(l.tax, g - input.discount, l.rate, 100 + l.rate)
        else l.net == g - input.discount && Shares(l.tax, g - input.discount, l.rate, 100))
  }

  lemma SupplyIs(l: LineInput, g: int)
    requires l.unitPrice >= 0 && l.qtyMilli > 0 && Rounds(l, g)
    ensures DivRound(l.unitPrice * l.qtyMilli, 1000) == g
  {
    NonNegativeProduct(l.unitPrice, l.qtyMilli);
    DivRoundUnique(l.unitPrice * l.qtyMilli, 1000, g);
  }

  lemma NoTaxShares(base: int, divisor: int)
    requires divisor > 0
    ensures Shares(0, base, 0, divisor)
  {
    assert base * 0 == 0 && divisor * 0 == 0;
  }

  /** When a line is accepted, and what it is then charged. */
  lemma LineCharged(input: LineInput, inclusive: bool, g: int)
    requires input.unitPrice >= 0 && input.qtyMilli > 0 ==> Rounds(input, g)
    ensures LineOf(input, inclusive).Ok? <==>
      && (exists i :: 0 <= i < |input.description| && !IsSpace(input.description[i]))
      && input.qtyMilli > 0 && input.unitPrice >= 0
      && input.taxType in {"A", "B", "C", "D", "E"}
      && 0 <= input.discount <= g
    ensures LineOf(input, inclusive).Ok? ==> Charged(input, inclusive, g, LineOf(input, inclusive).value)
  {
    if input.unitPrice >= 0 && input.qtyMilli > 0 {
      SupplyIs(input, g);
      var r := LineOf(input, inclusive);
      if r.Ok? {
        TaxShares(g - input.discount, r.value.rate, inclusive);
      }
    }
  }

  lemma TaxShares(base: int, rate: int, inclusive: bool)
    requires base >= 0 && rate >= 0
    ensures if inclusive then Shares(TaxIn(base, rate), base, rate, 100 + rate) else Shares(TaxOn(base, rate), base, rate, 100)
  {
    var divisor := if inclusive then 100 + rate else 100;
    if rate == 0 {
      NoTaxShares(base, divisor);
    } else {
      NonNegativeProduct(base, rate);
      DivRoundBounds(base * rate, divisor);
    }
  }

  /** What the buyer is asked for on line i before or after tax: the rounded supply less the discount. */
  function Priced(inputs: seq<LineInput>, gs: seq<int>): nat -> int {
    (i: nat) => if i < |inputs| && i < |gs| then gs[i] - inputs[i].discount else 0
  }

  /** The same for the lines of one tax type. */
  function PricedOfType(inputs: seq<LineInput>, gs: seq<int>, t: string): nat -> int {
    (i: nat) => if i < |inputs| && i < |gs| && inputs[i].taxType == t then gs[i] - inputs[i].discount else 0
  }

  predicate AllRound(inputs: seq<LineInput>, gs: seq<int>) {
    |gs| == |inputs| && forall i | 0 <= i < |inputs| :: Rounds(inputs[i], gs[i])
  }

  /** The document charges each input, and its priced side is the sum of what the inputs ask for, as a whole and per tax type. */
  ghost predicate Charges(inputs: seq<LineInput>, inclusive: bool, gs: seq<int>, d: Document) {
    && |gs| == |inputs| == |d.lines|
    && (forall i | 0 <= i < |inputs| :: Charged(inputs[i], inclusive, gs[i], d.lines[i]))
    && (if inclusive then d.total else d.subtotal) == Sum(|inputs|, Priced(inputs, gs))
    && forall t | t in {"A", "B", "C", "D", "E"} :: t in d.buckets &&
         (if inclusive then d.buckets[t].taxable else d.buckets[t].taxable - d.buckets[t].tax) == Sum(|inputs|, PricedOfType(inputs, gs, t))
  }

  lemma {:induction false} TypeIsPriced(inputs: seq<LineInput>, inclusive: bool, gs: seq<int>, ls: seq<Line>, t: string, n: nat)
    requires |gs| == |inputs| == |ls| && n <= |ls|
    requires forall i | 0 <= i < |inputs| :: Charged(inputs[i], inclusive, gs[i], ls[i])
    ensures var tax := if inclusive then 0 else Sum(n, TaxOfType(ls, t));
      Sum(n, TaxableOfType(ls, t)) - tax == Sum(n, PricedOfType(inputs, gs, t))
  {
    if n > 0 {
      TypeIsPriced(inputs, inclusive, gs, ls, t, n - 1);
      assert Charged(inputs[n - 1], inclusive, gs[n - 1], ls[n - 1]);
    }
  }

  lemma LinesCharged(inputs: seq<LineInput>, inclusive: bool, gs: seq<int>, ls: seq<Line>)
    requires AllRound(inputs, gs) && AllLines(inputs, inclusive) == Ok(ls)
    ensures |ls| == |inputs| && forall i | 0 <= i < |inputs| :: Charged(inputs[i], inclusive, gs[i], ls[i])
  {
    forall i | 0 <= i < |inputs| ensures Charged(inputs[i], inclusive, gs[i], ls[i]) {
      LineCharged(inputs[i], inclusive, gs[i]);
    }
  }

  lemma TotalIsPriced(inputs: seq<LineInput>, inclusive: bool, gs: seq<int>, ls: seq<Line>)
    requires |gs| == |inputs| == |ls| && forall i | 0 <= i < |inputs| :: Charged(inputs[i], inclusive, gs[i], ls[i])
    ensures Sum(|ls|, if inclusive then TotalOf(ls) else NetOf(ls)) == Sum(|inputs|, Priced(inputs, gs))
  {
    SumAgree(|inputs|, if inclusive then TotalOf(ls) else NetOf(ls), Priced(inputs, gs));
  }

  /** Every accepted document charges its inputs. */
  lemma DocumentCharges(inputs: seq<LineInput>, inclusive: bool, gs: seq<int>)
    requires AllRound(inputs, gs) && Compute(inputs, inclusive).Ok?
    ensures Charges(inputs, inclusive, gs, Compute(inputs, inclusive).value)
  {
    var ls := AllLines(inputs, inclusive).value;
    LinesCharged(inputs, inclusive, gs, ls);
    TotalIsPriced(inputs, inclusive, gs, ls);
    forall t: string {
      TypeIsPriced(inputs, inclusive, gs, ls, t, |ls|);
    }
  }

  /** A line asks for a positive total exactly when the discount leaves something. */
  lemma TotalPositiveIff(input: LineInput, inclusive: bool, g: int, l: Line)
    requires Charged(input, inclusive, g, l) && input.discount <= g
    ensures l.total >= 0 && (l.total > 0 <==> g > input.discount)
  {
    if !inclusive {
      NonNegativeProduct(g - input.discount, l.rate);
      if l.tax < 0 {
        MulAtLeast(100, -l.tax);
      }
      if g == input.discount {
        assert Shares(l.tax, 0, l.rate, 100);
      }
    }
  }

  /** A document is accepted when it has 1 to 200 lines, each acceptable on its own, and some discount leaves something to pay. */
  lemma DocumentAcceptedIff(inputs: seq<LineInput>, inclusive: bool, gs: seq<int>)
    requires AllRound(inputs, gs)
    ensures Compute(inputs, inclusive).Ok? <==>
      && 1 <= |inputs| <= 200
      && (forall i | 0 <= i < |inputs| :: LineOf(inputs[i], inclusive).Ok?)
      && exists i :: 0 <= i < |inputs| && gs[i] > inputs[i].discount
  {
    if 1 <= |inputs| <= 200 && AllLines(inputs, inclusive).Ok? {
      var ls := AllLines(inputs, inclusive).value;
      forall i | 0 <= i < |inputs| ensures TotalOf(ls)(i) >= 0 && (TotalOf(ls)(i) > 0 <==> gs[i] > inputs[i].discount) {
        LineCharged(inputs[i], inclusive, gs[i]);
        TotalPositiveIff(inputs[i], inclusive, gs[i], ls[i]);
      }
      SumPositiveIff(|inputs|, TotalOf(ls));
    }
  }

  /** All of it for whatever the loop computed. */
  lemma ComputedDocument(inputs: seq<LineInput>, inclusive: bool)
    requires Compute(inputs, inclusive).Ok?
    ensures var d := Compute(inputs, inclusive).value;
      && 1 <= |inputs| <= 200 && d.total == d.subtotal + d.tax > 0
      && forall gs | AllRound(inputs, gs) :: Charges(inputs, inclusive, gs, d)
  {
    DocumentBalances(inputs, inclusive);
    forall gs | AllRound(inputs, gs) ensures Charges(inputs, inclusive, gs, Compute(inputs, inclusive).value) {
      DocumentCharges(inputs, inclusive, gs);
    }
  }

  method ComputeDocument(inputs: seq<LineInput>, inclusive: bool) returns (r: Result<Document>)
    ensures r == Compute(inputs, inclusive)
    ensures r.Ok? ==> 1 <= |inputs| <= 200 && r.value.total == r.value.subtotal + r.value.tax > 0
    ensures forall gs | AllRound(inputs, gs) && r.Ok? :: Charges(inputs, inclusive, gs, r.value)
  {
    if |inputs| == 0 {
      return Err("A document needs at least one line");
    }
    if |inputs| > 200 {
      return Err("A document may have at most 200 lines");
    }
    var d :- AccumulateLines(inputs, inclusive);
    if d.total <= 0 {
      return Err("Document total must be greater than zero");
    }
    ComputedDocument(inputs, inclusive);
    return Ok(d);
  }

  /** One whole unit is supplied at its price. */
  lemma WholeUnit(price: int)
    requires price >= 0
    ensures DivRound(price * 1000, 1000) == price
  {
    DivRoundUnique(price * 1000, 1000, price);
  }

  /** A line priced without tax, re-entered as one unit at its tax-inclusive total, comes out with the same tax, net and total. */
  lemma LineRoundTrip(input: LineInput)
    requires LineOf(input, false).Ok?
    ensures var l := LineOf(input, false).value;
      LineOf(LineInput(input.description, 1000, l.total, 0, input.taxType), true) == Ok(l.(supply := l.total))
  {
    var l := LineOf(input, false).value;
    LineIsFair(input, false);
    WholeUnit(l.total);
    ExclusiveRoundTrip(l.supply - input.discount, l.rate);
  }
}
