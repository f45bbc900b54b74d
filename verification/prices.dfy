/**
 Money values as the checkout calculations use them: an amount of one
 currency, and a taxed amount that pairs a net and a gross value.

 Amounts are integers counted in the currency's minor units (cents), so
 quantizing an amount to the currency's precision leaves it unchanged.
 The money library the calculations build on rejects mixed currencies at run
 time; here that becomes a precondition of each operation that combines two
 values: `AddMoney` and `SubMoney` require one currency, `Add` and `Sub`
 require matching net and matching gross currencies, and `Below` and `Max`
 require matching gross currencies. `Scale` combines an amount with a plain
 integer and requires nothing.
 */
module Prices {

  /** An ISO 4217 currency code such as "USD". */
  type Currency = string

  /** An amount in minor units of `currency`. */
  datatype Money = Money(amount: int, currency: Currency)

  /**
   A price before (`net`) and after (`gross`) tax. The money library refuses
   to build one whose halves differ in currency; `InCurrency` states that
   invariant, and every calculation requires it of its inputs.
   */
  datatype TaxedMoney = TaxedMoney(net: Money, gross: Money) {

    /** Both halves are expressed in currency `c`. */
    predicate InCurrency(c: Currency) {
      net.currency == c && gross.currency == c
    }

    /** No tax is applied: the net and the gross value coincide. */
    predicate Untaxed() {
      net == gross
    }
  }

  /** Taxed money whose both halves are zero in currency `c`. */
  function Zero(c: Currency): (r: TaxedMoney)
    ensures r.InCurrency(c) && r.Untaxed()
    ensures r.net.amount == 0 && r.gross.amount == 0
  {
    TaxedMoney(Money(0, c), Money(0, c))
  }

  /** Sum of two amounts of one currency. */
  function AddMoney(a: Money, b: Money): (r: Money)
    requires a.currency == b.currency
    ensures r.currency == a.currency
  {
    Money(a.amount + b.amount, a.currency)
  }

  /** Difference of two amounts of one currency. */
  function SubMoney(a: Money, b: Money): (r: Money)
    requires a.currency == b.currency
    ensures r.currency == a.currency
  {
    Money(a.amount - b.amount, a.currency)
  }

  /** An integer multiple of an amount (`quantity * price`). */
  function Scale(k: int, m: Money): (r: Money)
    ensures r.currency == m.currency
    ensures k == 0 ==> r.amount == 0
    ensures k == 1 ==> r == m
  {
    Money(k * m.amount, m.currency)
  }

  /** Component-wise sum of two taxed amounts. */
  function Add(a: TaxedMoney, b: TaxedMoney): (r: TaxedMoney)
    requires a.net.currency == b.net.currency && a.gross.currency == b.gross.currency
    ensures r.net.currency == a.net.currency && r.gross.currency == a.gross.currency
  {
    TaxedMoney(AddMoney(a.net, b.net), AddMoney(a.gross, b.gross))
  }

  /** Component-wise difference of two taxed amounts. */
  function Sub(a: TaxedMoney, b: TaxedMoney): (r: TaxedMoney)
    requires a.net.currency == b.net.currency && a.gross.currency == b.gross.currency
    ensures r.net.currency == a.net.currency && r.gross.currency == a.gross.currency
  {
    TaxedMoney(SubMoney(a.net, b.net), SubMoney(a.gross, b.gross))
  }

  /**
   The ordering of taxed amounts: `a` is below `b` when its gross value is.
   This is a modelling choice: the money library's own ordering is not part
   of this model.
   */
  predicate Below(a: TaxedMoney, b: TaxedMoney)
    requires a.gross.currency == b.gross.currency
  {
    a.gross.amount < b.gross.amount
  }

  /**
   Strictly greater, derived from `Below` and equality the way a total
   ordering defined by "less than" alone derives it: `a` is above `b` when it
   is not below `b` and differs from it. Two amounts with equal gross values
   but different net values are therefore each above the other.
   */
  predicate Above(a: TaxedMoney, b: TaxedMoney)
    requires a.gross.currency == b.gross.currency
  {
    !Below(a, b) && a != b
  }

  /**
   The two-argument maximum: the first argument, replaced by the second when
   the second is `Above` it, as a maximum that scans its arguments left to
   right does.
   */
  function Max(a: TaxedMoney, b: TaxedMoney): (r: TaxedMoney)
    requires a.gross.currency == b.gross.currency
    ensures r == a || r == b
    ensures !Below(r, a) && !Below(r, b)
    ensures Above(b, a) ==> r == b
    ensures !Above(b, a) ==> r == a
  {
    if Above(b, a) then b else a
  }

  /**
   Rounds an amount to its currency's precision. Amounts are already whole
   minor units, so rounding keeps the amount and the currency.
   */
  function Quantize(m: Money): (r: Money)
    ensures r.currency == m.currency
  {
    m
  }
}
