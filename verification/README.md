# Base checkout calculations

A Dafny model of Saleor's base checkout pricing (`saleor/checkout/base_calculations.py`):
the four functions that price a checkout before any tax plugin adjusts the result.

- **Shipping price** — zero in the checkout's currency when the checkout has no shipping
  method or does not need shipping; otherwise the method's total, quantized, as both the
  net and the gross value.
- **Subtotal** — the line totals summed left to right, starting from zero in the
  checkout's currency.
- **Total** — subtotal plus shipping minus discount, clamped from below by zero with
  `max`.
- **Line total** — quantity times the variant's unit price, quantized, as both the net
  and the gross value.

Files:

- `prices.dfy` (module `Prices`) — `Money` (an integer amount in minor units plus a
  currency code), `TaxedMoney` (a net/gross pair), their sum, difference, integer
  multiple, zero, quantization and the two-argument maximum used for the clamp.
- `base_calculations.dfy` (module `BaseCalculations`) — the four calculations, reference
  definitions for the subtotal (`NetSum`, `GrossSum`), and the lemmas relating them. It
  also defines `Line` (a checkout line reduced to its quantity and unit price) and
  `LineTotals`, which prices a list of lines one by one, the way a caller builds the list
  the subtotal sums; `CheckoutTotalUntaxed` uses them to chain the four calculations.

Modelling decisions:

- Amounts are integers in the currency's minor units. Quantizing to the currency's
  precision therefore leaves an amount unchanged, and `Prices.Quantize` is the identity.
- The shipping method is represented by the total it charges, `Option<Money>`, `None`
  when the checkout has none; whether shipping is required is a boolean input.
- A checkout line is represented by its quantity (a `nat`, as the quantity column holds
  no negative values) and the unit price the variant reports.
- The `max` of the clamp compares taxed amounts by their gross values (`Prices.Below`).
  This ordering is a stated modelling assumption; the money library that defines it is
  not part of this model. Strictly greater (`Prices.Above`) is derived from it the way a
  total ordering built from "less than" and equality derives it: not below and not equal,
  where equality compares both net and gross. Python's `max(total, zero)` returns its first
  argument unless the second is strictly greater, which `Prices.Max` follows. So the total
  is zero whenever subtotal + shipping − discount has a gross value of zero or less, even
  when its net value is not zero. A consequence, exhibited by `TotalCanHaveNegativeNet`, is
  that a total whose gross value is positive is kept even when its net value is negative,
  for example a taxed subtotal less an untaxed discount. With every input untaxed it
  cannot happen (`TotalUntaxed`, `CheckoutTotalUntaxed`).
- Operands are required to share one currency. The money library rejects mixed
  currencies with a run-time error; that error path is not modelled.

## Model

| member | source | states |
|---|---|---|
| BaseCalculations.ShippingPrice | saleor/checkout/base_calculations.py:21-31 | With no shipping method, or when shipping is not required, the price is zero (net and gross) in the checkout's currency; otherwise net and gross both equal the method's total in that total's currency. The result never carries tax. |
| BaseCalculations.SumFrom | saleor/checkout/base_calculations.py:36 | A left-to-right running sum of taxed amounts of one currency stays in that currency. |
| BaseCalculations.SumFromIsComponentSum | saleor/checkout/base_calculations.py:36 | The running sum equals the start value plus the sum of the net amounts and of the gross amounts of the list, component by component. |
| BaseCalculations.Subtotal | saleor/checkout/base_calculations.py:34-36 | The subtotal is in the given currency, its net and gross values are the sums of the lines' net and gross values, and it is zero for no lines. |
| BaseCalculations.ComponentSumsOfConcat | saleor/checkout/base_calculations.py:36 | Net and gross sums split over the concatenation of two lists of lines. |
| BaseCalculations.SubtotalAppend | saleor/checkout/base_calculations.py:36 | Appending one line adds exactly its net and gross values to the subtotal. |
| BaseCalculations.SubtotalConcat | saleor/checkout/base_calculations.py:34-36 | The subtotal of two groups of lines is the sum of the groups' subtotals. |
| BaseCalculations.SubtotalUntaxed | saleor/checkout/base_calculations.py:34-36 | Lines whose net equals their gross give a subtotal whose net equals its gross. |
| BaseCalculations.UntaxedSums | saleor/checkout/base_calculations.py:36 | For lines whose net equals their gross, the net and gross sums coincide. |
| Prices.Max | saleor/checkout/base_calculations.py:47 | The maximum is one of its arguments, is not below either by gross value, and is the first argument unless the second is strictly above it (not below it and not equal to it). |
| BaseCalculations.Total | saleor/checkout/base_calculations.py:39-47 | The total is in the given currency and its gross value is never negative; when subtotal + shipping − discount has a positive gross value the total is exactly that sum (net and gross), otherwise it is zero (net and gross). |
| BaseCalculations.TotalUntaxed | saleor/checkout/base_calculations.py:46-47 | When subtotal, shipping and discount carry no tax, the total carries no tax and its net value is not negative. |
| BaseCalculations.TotalAntitoneInDiscount | saleor/checkout/base_calculations.py:46-47 | A discount with a larger gross value never gives a larger total. |
| BaseCalculations.TotalCanHaveNegativeNet | saleor/checkout/base_calculations.py:46-47 | Witness that the total cannot promise a non-negative net value: a subtotal of net 8 and gross 10 less an untaxed discount of 9 gives net −1 and gross 1, while less an untaxed discount of 10 the clamp gives zero. |
| BaseCalculations.LineTotal | saleor/checkout/base_calculations.py:50-61 | The line total carries no tax, is in the unit price's currency, and its amount is quantity times the unit price. |
| BaseCalculations.LineTotalOfNoUnits | saleor/checkout/base_calculations.py:59-61 | A line of zero units costs zero in the unit price's currency. |
| BaseCalculations.LineTotalMonotone | saleor/checkout/base_calculations.py:59-60 | With a non-negative unit price, a larger quantity never gives a smaller line total. |
| BaseCalculations.LineTotalSplit | saleor/checkout/base_calculations.py:59-61 | The total of q1 + q2 units is the sum of the totals of q1 units and of q2 units. |
| BaseCalculations.CheckoutTotalUntaxed | saleor/checkout/base_calculations.py:21-61 | A checkout priced line by line, summed, with shipping added and an untaxed discount taken off, gets a total that carries no tax and is not negative. |

## Left out

- The variant's price lookup with its collections and discounts (line 58): a unit price is an input.
- The shipping method's total and the "is shipping required" check (lines 25 and 28): inputs.
- Decimal rounding by `quantize_price` and the construction of zero amounts (line 11): these live in `saleor/core/taxes`, which is not part of this model; amounts are whole minor units, so quantization is the identity.
- Currency-mismatch errors of the money library's `+`, `-` and comparisons: every operation requires one shared currency instead.
- The ordering of taxed amounts in the money library: the model compares gross values and derives strictly greater from it, as stated above.
- The plugin-aware calculations the module docstring points to (lines 3-4), the Django models and persistence.
