/**
 The base checkout calculations: shipping price, subtotal, grand total and
 line total of a checkout, before any tax plugin adjusts them.

 The objects the calculations read from are replaced by their relevant
 values: the shipping method by the optional total it charges, the
 "is shipping required" question by a boolean, a checkout line by its
 quantity and the variant's unit price.
 */
module BaseCalculations {
  import opened Prices

  datatype Option<T> = None | Some(value: T)

  /** Every taxed amount in `ms` is expressed in currency `c`. */
  predicate AllInCurrency(ms: seq<TaxedMoney>, c: Currency) {
    forall i :: 0 <= i < |ms| ==> ms[i].InCurrency(c)
  }

  /** Every taxed amount in `ms` has equal net and gross values. */
  predicate AllUntaxed(ms: seq<TaxedMoney>) {
    forall i :: 0 <= i < |ms| ==> ms[i].Untaxed()
  }

  // ---------------------------------------------------------------------
  // Shipping price
  // ---------------------------------------------------------------------

  /**
   The shipping price of a checkout in currency `currency`.
   `methodTotal` is the total charged by the checkout's shipping method,
   `None` when no method is chosen.
   */
  function ShippingPrice(currency: Currency, methodTotal: Option<Money>, shippingRequired: bool): (r: TaxedMoney)
    ensures methodTotal.None? || !shippingRequired ==>
              r.InCurrency(currency) && r.net.amount == 0 && r.gross.amount == 0
    ensures methodTotal.Some? && shippingRequired ==>
              r.InCurrency(methodTotal.value.currency) && r.net.amount == methodTotal.value.amount
    ensures r.Untaxed()
  {
    if methodTotal.None? || !shippingRequired then
      Zero(currency)
    else
      var price := Quantize(methodTotal.value);
      TaxedMoney(price, price)
  }

  // ---------------------------------------------------------------------
  // Subtotal
  // ---------------------------------------------------------------------

  /** Reference definition: the sum of the net amounts of `ms`. */
  function NetSum(ms: seq<TaxedMoney>): int {
    if |ms| == 0 then 0 else ms[0].net.amount + NetSum(ms[1..])
  }

  /** Reference definition: the sum of the gross amounts of `ms`. */
  function GrossSum(ms: seq<TaxedMoney>): int {
    if |ms| == 0 then 0 else ms[0].gross.amount + GrossSum(ms[1..])
  }

  /**
   Adds `ms` to `acc` from left to right, one element at a time, the way a
   running sum over a list starting at `acc` does.
   */
  function SumFrom(acc: TaxedMoney, ms: seq<TaxedMoney>, c: Currency): (r: TaxedMoney)
    requires acc.InCurrency(c) && AllInCurrency(ms, c)
    ensures r.InCurrency(c)
    decreases |ms|
  {
    if |ms| == 0 then acc else SumFrom(Add(acc, ms[0]), ms[1..], c)
  }

  /** The running sum equals the start value plus the component-wise sums. */
  lemma {:induction false} SumFromIsComponentSum(acc: TaxedMoney, ms: seq<TaxedMoney>, c: Currency)
    requires acc.InCurrency(c) && AllInCurrency(ms, c)
    ensures SumFrom(acc, ms, c).net.amount == acc.net.amount + NetSum(ms)
    ensures SumFrom(acc, ms, c).gross.amount == acc.gross.amount + GrossSum(ms)
    decreases |ms|
  {
    if |ms| > 0 {
      SumFromIsComponentSum(Add(acc, ms[0]), ms[1..], c);
    }
  }

  /** The subtotal of a checkout: the sum of its line totals, starting from zero in `currency`. */
  function Subtotal(lineTotals: seq<TaxedMoney>, currency: Currency): (r: TaxedMoney)
    requires AllInCurrency(lineTotals, currency)
    ensures r.InCurrency(currency)
    ensures r.net.amount == NetSum(lineTotals) && r.gross.amount == GrossSum(lineTotals)
    ensures |lineTotals| == 0 ==> r.net.amount == 0 && r.gross.amount == 0
  {
    SumFromIsComponentSum(Zero(currency), lineTotals, currency);
    SumFrom(Zero(currency), lineTotals, currency)
  }

  /** The component sums split over a concatenation. */
  lemma {:induction false} ComponentSumsOfConcat(a: seq<TaxedMoney>, b: seq<TaxedMoney>)
    ensures NetSum(a + b) == NetSum(a) + NetSum(b)
    ensures GrossSum(a + b) == GrossSum(a) + GrossSum(b)
    decreases |a|
  {
    if |a| == 0 {
      assert a + b == b;
    } else {
      assert (a + b)[1..] == a[1..] + b;
      ComponentSumsOfConcat(a[1..], b);
    }
  }

  /** Adding one more line adds exactly its net and gross amounts to the subtotal. */
  lemma SubtotalAppend(lineTotals: seq<TaxedMoney>, line: TaxedMoney, currency: Currency)
    requires AllInCurrency(lineTotals, currency) && line.InCurrency(currency)
    ensures AllInCurrency(lineTotals + [line], currency)
    ensures Subtotal(lineTotals + [line], currency) == Add(Subtotal(lineTotals, currency), line)
  {
    ComponentSumsOfConcat(lineTotals, [line]);
    assert [line][1..] == [];
  }

  /** The subtotal of two groups of lines is the sum of their subtotals. */
  lemma SubtotalConcat(a: seq<TaxedMoney>, b: seq<TaxedMoney>, currency: Currency)
    requires AllInCurrency(a, currency) && AllInCurrency(b, currency)
    ensures AllInCurrency(a + b, currency)
    ensures Subtotal(a + b, currency) == Add(Subtotal(a, currency), Subtotal(b, currency))
  {
    ComponentSumsOfConcat(a, b);
  }

  /** Summing lines that carry no tax yields a subtotal that carries no tax. */
  lemma {:induction false} SubtotalUntaxed(lineTotals: seq<TaxedMoney>, currency: Currency)
    requires AllInCurrency(lineTotals, currency) && AllUntaxed(lineTotals)
    ensures Subtotal(lineTotals, currency).Untaxed()
  {
    UntaxedSums(lineTotals);
  }

  /** Untaxed amounts have equal net and gross sums. */
  lemma {:induction false} UntaxedSums(ms: seq<TaxedMoney>)
    requires AllUntaxed(ms)
    ensures NetSum(ms) == GrossSum(ms)
    decreases |ms|
  {
    if |ms| > 0 {
      assert ms[0].Untaxed();
      UntaxedSums(ms[1..]);
    }
  }

  // ---------------------------------------------------------------------
  // Grand total
  // ---------------------------------------------------------------------

  /**
   The amount due for a checkout: subtotal plus shipping minus discount,
   and never less than zero in `currency`.
   */
  function Total(subtotal: TaxedMoney, shippingPrice: TaxedMoney, discount: TaxedMoney, currency: Currency): (r: TaxedMoney)
    requires subtotal.InCurrency(currency) && shippingPrice.InCurrency(currency)
    requires discount.InCurrency(currency)
    ensures r.InCurrency(currency)
    ensures r.gross.amount >= 0
    ensures var grossDue := subtotal.gross.amount + shippingPrice.gross.amount - discount.gross.amount;
            && (grossDue > 0 ==>
                  && r.gross.amount == grossDue
                  && r.net.amount == subtotal.net.amount + shippingPrice.net.amount - discount.net.amount)
            && (grossDue <= 0 ==> r.net.amount == 0 && r.gross.amount == 0)
  {
    var total := Sub(Add(subtotal, shippingPrice), discount);
    Max(total, Zero(currency))
  }

  /** When every input carries no tax, neither does the total, and its net value is not negative either. */
  lemma TotalUntaxed(subtotal: TaxedMoney, shippingPrice: TaxedMoney, discount: TaxedMoney, currency: Currency)
    requires subtotal.InCurrency(currency) && shippingPrice.InCurrency(currency)
    requires discount.InCurrency(currency)
    requires subtotal.Untaxed() && shippingPrice.Untaxed() && discount.Untaxed()
    ensures Total(subtotal, shippingPrice, discount, currency).Untaxed()
    ensures Total(subtotal, shippingPrice, discount, currency).net.amount >= 0
  {
  }

  /** A larger discount never raises the total. */
  lemma TotalAntitoneInDiscount(subtotal: TaxedMoney, shippingPrice: TaxedMoney, d1: TaxedMoney, d2: TaxedMoney, currency: Currency)
    requires subtotal.InCurrency(currency) && shippingPrice.InCurrency(currency)
    requires d1.InCurrency(currency) && d2.InCurrency(currency)
    requires d1.gross.amount <= d2.gross.amount
    ensures Total(subtotal, shippingPrice, d2, currency).gross.amount
            <= Total(subtotal, shippingPrice, d1, currency).gross.amount
  {
  }

  /**
   Witnesses that `Total` cannot promise a non-negative net value. The clamp
   compares gross values, so a taxed subtotal less an untaxed discount keeps
   a negative net value while the gross value left is positive; once the
   gross value left reaches zero, the clamp returns zero.
   */
  lemma TotalCanHaveNegativeNet()
    ensures var c := "USD";
            var subtotal := TaxedMoney(Money(8, c), Money(10, c));
            var r1 := Total(subtotal, Zero(c), TaxedMoney(Money(9, c), Money(9, c)), c);
            var r2 := Total(subtotal, Zero(c), TaxedMoney(Money(10, c), Money(10, c)), c);
            && r1.gross.amount == 1 && r1.net.amount == -1
            && r2.gross.amount == 0 && r2.net.amount == 0
  {
  }

  // ---------------------------------------------------------------------
  // Line total
  // ---------------------------------------------------------------------

  /** The total of a checkout line: `quantity` units at `unitPrice` each, with no tax applied. */
  function LineTotal(quantity: nat, unitPrice: Money): (r: TaxedMoney)
    ensures r.Untaxed()
    ensures r.InCurrency(unitPrice.currency)
    ensures r.gross.amount == quantity * unitPrice.amount
  {
    var price := Quantize(Scale(quantity, unitPrice));
    TaxedMoney(price, price)
  }

  /** A line of zero units costs nothing. */
  lemma LineTotalOfNoUnits(unitPrice: Money)
    ensures LineTotal(0, unitPrice) == Zero(unitPrice.currency)
  {
  }

  /** With a non-negative unit price, more units never cost less. */
  lemma LineTotalMonotone(q1: nat, q2: nat, unitPrice: Money)
    requires q1 <= q2 && unitPrice.amount >= 0
    ensures LineTotal(q1, unitPrice).gross.amount <= LineTotal(q2, unitPrice).gross.amount
  {
    assert q2 * unitPrice.amount == q1 * unitPrice.amount + (q2 - q1) * unitPrice.amount;
  }

  /** Splitting a line in two keeps the amount: the parts' totals add up to the whole's. */
  lemma LineTotalSplit(q1: nat, q2: nat, unitPrice: Money)
    ensures LineTotal(q1 + q2, unitPrice) == Add(LineTotal(q1, unitPrice), LineTotal(q2, unitPrice))
  {
    assert (q1 + q2) * unitPrice.amount == q1 * unitPrice.amount + q2 * unitPrice.amount;
  }

  // ---------------------------------------------------------------------
  // A checkout priced end to end
  // ---------------------------------------------------------------------

  /** A checkout line reduced to what its total depends on. */
  datatype Line = Line(quantity: nat, unitPrice: Money)

  /** The line totals of `lines`, in order: one untaxed amount per line, in that line's currency. */
  function LineTotals(lines: seq<Line>): (r: seq<TaxedMoney>)
    ensures |r| == |lines|
    ensures AllUntaxed(r)
    ensures forall i :: 0 <= i < |lines| ==>
              && r[i].InCurrency(lines[i].unitPrice.currency)
              && r[i].gross.amount == lines[i].quantity * lines[i].unitPrice.amount
  {
    seq(|lines|, i requires 0 <= i < |lines| => LineTotal(lines[i].quantity, lines[i].unitPrice))
  }

  /**
   Priced with the base calculations, a checkout whose lines and shipping
   method are in its currency gets a total that carries no tax and is not
   negative, provided its discount carries no tax.
   */
  lemma CheckoutTotalUntaxed(lines: seq<Line>, methodTotal: Option<Money>, shippingRequired: bool,
                             discount: TaxedMoney, currency: Currency)
    requires forall i :: 0 <= i < |lines| ==> lines[i].unitPrice.currency == currency
    requires methodTotal.Some? ==> methodTotal.value.currency == currency
    requires discount.InCurrency(currency) && discount.Untaxed()
    ensures AllInCurrency(LineTotals(lines), currency)
    ensures var r := Total(Subtotal(LineTotals(lines), currency),
                           ShippingPrice(currency, methodTotal, shippingRequired),
                           discount, currency);
            r.Untaxed() && r.net.amount >= 0
  {
    var totals := LineTotals(lines);
    SubtotalUntaxed(totals, currency);
    TotalUntaxed(Subtotal(totals, currency), ShippingPrice(currency, methodTotal, shippingRequired), discount, currency);
  }
}
