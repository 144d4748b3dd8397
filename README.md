# Capital-gains tax calculator — Dafny model

This project models the `Taxes` calculator of the `nu_investment_taxes`
repository (`app/src/Helpers/Taxes.php`). The calculator holds a list of stock
orders (`buy` or `sell`, a `unit-cost` and a `quantity`). `calculate` walks that
list once, in order, keeping three running fields:

- `position`: the quantity held;
- `avgPrice`: the weighted average cost of what is held;
- `loss`: the carried-forward loss, never above zero.

For every order it produces one `["tax" => …]` entry. A buy owes nothing and
re-averages the cost. A sale realises `(unit-cost - avgPrice) * quantity`, nets it
against the carried loss, stores the smaller of that net and zero as the new
loss, and owes 20% of the net, rounded to cents, when the sale is worth more than
20000 and the net is a gain. An order with any other operation is reported as an
error, owes nothing and changes nothing.

Files and modules:

- `rules.dfy`, module `TaxRules`: the order and state datatypes, the constants,
  the pure formulas (`AveragePrice`, `SaleResult`, `ClampLoss`, `Round2`), what one
  order does (`Step`) and the whole pass as a fold (`Process`).
- `taxes.dfy`, module `Helpers`: the class `Taxes` with the source's six fields,
  its getters and setters, and `Calculate`. `Calculate` is a loop that calls
  `CalculateOrder` (the closure inside `calculate`) once per order. It is proved
  to leave exactly the state, entries and errors that `Process` gives. The getters
  `GetPosition`, `GetAvgPrice`, `GetLoss`, `GetTaxes`, `GetOrders` and `GetErrors`
  are plain field reads, written as functions; `GetTransactionResult` is the
  getter that evaluates `SaleResult` on the stored average price.
- `properties.dfy`, module `TaxProperties`: lemmas about `Process`.
- `scenarios.dfy`, module `TaxScenarios`: the runs of `app/tests/TaxesTest.php`,
  from the state of a fresh object, plus one `calculate` run and one `calcAvgPrice` example driven through the class.

Modelling decisions:

- Amounts (`unit-cost`, `avgPrice`, `loss`, `tax`) are exact `real`s; quantities
  and the position are `int`s.
- `round($x, 2)` is rounding to the nearest hundredth with halves away from zero.
- The source divides by `position + quantity` in `calcAvgPrice` without a guard.
  A buy that brings the position to exactly zero would divide by zero. `Calculate`
  therefore requires `Computable`: no such buy happens along the run. The lemma
  `HoldingsNeverNegative` shows that this holds, and that the position stays
  non-negative, whenever every quantity is positive and no sale exceeds what is
  held. Nothing in the source stops a sale from taking the position below zero,
  and the model allows it too.
- `calculate` starts from whatever the fields hold, so a second call continues
  from the first call's state. `Calculate` does the same, and `ProcessAppend`
  states what the two calls together compute. Errors accumulate across calls;
  `taxes` is replaced.

Behaviour of `Taxes.php` worth noting:

- The code processes one flat list of orders; there are no groups with a fresh
  state each.
- A sale leaves `avgPrice` unchanged; it is not re-averaged.
- The average price has no division-by-zero guard (see above).
- The gate tests the net of the sale's result and the carried loss, not the
  sale's own result. The tax is 20% of that net. The carried loss becomes the
  smaller of the net and zero, so a gain uses up carried loss even when the sale
  is under the threshold and owes nothing.
- The source's second gate condition is `$result + $this->getLoss() > 0` after
  the loss has been stored. `Step`'s contract shows that this is the same as
  `net > 0`.

## Model

| member | source | states |
|---|---|---|
| TaxRules.OperationOf | app/src/Helpers/Taxes.php:47-49 | exactly the text "buy" is a buy and exactly "sell" is a sale; any other text is kept, unchanged, as an unrecognised operation |
| TaxRules.AveragePrice | app/src/Helpers/Taxes.php:255-263 | the new average times the new position equals the cost held plus the cost bought; from an empty position it is the unit cost; from a positive position with a positive quantity it lies between the old average and the unit cost |
| TaxRules.BlendBounds | app/src/Helpers/Taxes.php:257-259 | a blend of two prices with positive weights lies between the two prices |
| TaxRules.SaleResult | app/src/Helpers/Taxes.php:270-273 | the result plus the cost basis of the units sold equals the proceeds; for a positive quantity it is a gain exactly when the unit cost is above the average and a loss exactly when it is below |
| TaxRules.ClampLoss | app/src/Helpers/Taxes.php:240-248 | the stored loss is at most zero and at most the result, and it is either zero or the result (the minimum of the two) |
| TaxRules.Round2 | app/src/Helpers/Taxes.php:102 | the result is a whole number of hundredths, within half a hundredth of the input, with halves rounded away from zero, and it has the input's sign |
| TaxRules.HundredthsOf | app/src/Helpers/Taxes.php:102 | the half-up count of hundredths of a non-negative number is within half a hundredth of it and stays whole when negated |
| TaxRules.InvalidOperationMessage | app/src/Helpers/Taxes.php:74-76 | the error text contains the operation's name at a fixed place, so it is never empty |
| TaxRules.Step | app/src/Helpers/Taxes.php:69-110 | one order: tax is never negative; the loss stays at or below zero; an unrecognised order leaves the state, owes 0 and reports one error; a buy owes 0, adds its quantity and re-averages; a sale subtracts its quantity, keeps the average, stores min(net, 0) as loss, and owes round(0.2 * net, 2) exactly when its value exceeds 20000 and the net is positive, otherwise 0 |
| TaxRules.Process | app/src/Helpers/Taxes.php:69-112 | the pass yields exactly one entry per order |
| Helpers.Taxes.constructor | app/src/Helpers/Taxes.php:33-62 | a new object holds the given orders, no entries, no errors, position 0, average 0 and loss 0; the source's default of an empty order list is written out as `new Taxes([])` |
| Helpers.Taxes.Calculate | app/src/Helpers/Taxes.php:67-115 | the fields end as `Process` of the starting fields and the orders gives: final position, average and loss, the entries stored in `taxes`, and the run's errors appended to the earlier ones; the loss stays at or below zero |
| Helpers.Taxes.CalculateOrder | app/src/Helpers/Taxes.php:69-110 | applying one order through the getters and setters changes the fields exactly as `Step` says, returns its tax entry and appends its errors |
| Helpers.Taxes.SetPosition | app/src/Helpers/Taxes.php:143-147 | stores the position and nothing else |
| Helpers.Taxes.SetTaxes | app/src/Helpers/Taxes.php:161-165 | stores the entries and nothing else |
| Helpers.Taxes.SetOrders | app/src/Helpers/Taxes.php:179-187 | stores an already decoded order list and nothing else |
| Helpers.Taxes.SetError | app/src/Helpers/Taxes.php:201-208 | appends a message to the errors unless PHP's `empty()` holds for it, that is unless it is "" or "0", which are dropped |
| Helpers.Taxes.SetAvgPrice | app/src/Helpers/Taxes.php:214-218 | stores the average price and nothing else |
| Helpers.Taxes.SetLoss | app/src/Helpers/Taxes.php:240-248 | stores min(result, 0) as the loss, which is never positive |
| Helpers.Taxes.CalcAvgPrice | app/src/Helpers/Taxes.php:255-264 | stores and returns the weighted average of the held and bought units |
| TaxProperties.ComputableAppend | app/src/Helpers/Taxes.php:84 | a concatenation avoids the division by zero exactly when its first part does and its second part does from the state the first part leaves |
| TaxProperties.ProcessAppend | app/src/Helpers/Taxes.php:67-115 | running two lists one after the other, carrying the state across, gives the state, entries and errors of running their concatenation |
| TaxProperties.ProcessAt | app/src/Helpers/Taxes.php:69-112 | entry j is the tax of order j applied to the state the orders before it leave |
| TaxProperties.TaxesNonNegative | app/src/Helpers/Taxes.php:91-103 | no entry of any run is negative |
| TaxProperties.LossStaysNonPositive | app/src/Helpers/Taxes.php:94-96 | from a non-positive loss, the loss after any run is still non-positive |
| TaxProperties.ErrorsAreInvalidOrders | app/src/Helpers/Taxes.php:71-78 | the errors of a run are the messages of its unrecognised orders, in order and whatever the state, one per such order |
| TaxProperties.NoSaleNoTax | app/src/Helpers/Taxes.php:82-88 | a list without sales, a list of buys in particular, yields only zero entries |
| TaxProperties.InvalidOrderFirst | app/src/Helpers/Taxes.php:71-78 | an unrecognised order in front of a list adds only its zero entry and its one error |
| TaxProperties.InvalidOrderChangesNothing | app/src/Helpers/Taxes.php:71-78 | inserting an unrecognised order anywhere leaves the final state and all other entries as they were and adds a zero entry at its place |
| TaxProperties.HoldingsNeverNegative | app/src/Helpers/Taxes.php:80-106 | if every quantity is positive and no sale exceeds what is held, no division by zero happens and the final position is the quantity bought minus the quantity sold, never negative |
| TaxProperties.AveragePriceInRange | app/src/Helpers/Taxes.php:255-263 | on such input, if the average and all unit costs lie in a range, the final average lies in it too |
| TaxProperties.Round2Nearest | app/src/Helpers/Taxes.php:102 | the rounded value is a nearest whole number of hundredths |
| TaxScenarios.AveragePriceExamples | app/tests/TaxesTest.php:73-94 | average 10 over 1000 units becomes 15 after 1000 at 20, and 7.5 after 1000 at 5 |
| TaxScenarios.TransactionResultExamples | app/tests/TaxesTest.php:101-121 | against average 10, a sale of 1000 at 10 realises 0 and 1000 at 15 realises 5000 |
| TaxScenarios.GainAboveThreshold | app/tests/TaxesTest.php:131-132 | buy 10000 at 10, sell 5000 at 20: taxes 0, 10000 |
| TaxScenarios.LossIsUntaxed | app/tests/TaxesTest.php:135-136 | buy 10000 at 20, sell 5000 at 10: taxes 0, 0 |
| TaxScenarios.SmallSalesAreUntaxed | app/tests/TaxesTest.php:139-148 | buy 100 at 10, two sales of 50 at 15: taxes 0, 0, 0 |
| TaxScenarios.GainThenLoss | app/tests/TaxesTest.php:151-154 | a taxed gain then a loss: taxes 0, 10000, 0 |
| TaxScenarios.LossOffsetsLaterGain | app/tests/TaxesTest.php:157-160 | a loss of 25000 reduces a later gain of 30000: taxes 0, 0, 1000 |
| TaxScenarios.SaleAtAveragePrice | app/tests/TaxesTest.php:163-166 | two buys average 15; selling at 15 owes 0 |
| TaxScenarios.SaleAtAverageThenGain | app/tests/TaxesTest.php:169-173 | then selling the rest at 25 owes 10000 |
| TaxScenarios.LossCarriedAcrossSales | app/tests/TaxesTest.php:176-181 | a loss of 40000 is used up by two gains; taxes 0, 0, 0, 0, 3000, ending with nothing held, average 10 and no loss |
| TaxScenarios.SecondRunAfterLossRun | app/tests/TaxesTest.php:189-193 | from that state, buy 10000 at 20 and three sales: taxes 0, 0, 3700, 0 |
| TaxScenarios.SecondRound | app/tests/TaxesTest.php:184-193 | the nine-order run: taxes 0, 0, 0, 0, 3000, 0, 0, 3700, 0, ending with nothing held, average 20 and no loss |
| TaxScenarios.SmallGainConsumesLoss | app/src/Helpers/Taxes.php:94-103 | a gain of 13000 on a sale worth 19500 owes 0 yet shrinks a carried loss of 25000 to 12000 |
| TaxScenarios.InvalidOperationMessageExample | app/src/Helpers/Taxes.php:74-76 | the message for operation "hold" reads "Invalid operation (hold) - Transaction: " |
| TaxScenarios.InvalidOperationSkipped | app/src/Helpers/Taxes.php:71-78 | an order with operation "hold" between a buy and a sale yields 0, one error, and leaves the sale's tax of 10000 unchanged |

The getters are field reads and carry no contract of their own.
`TaxScenarios.ObjectAveragePrice` and `TaxScenarios.ObjectCalculate` drive the
class the way `app/tests/TaxesTest.php:25-64` does and check the results with
assertions. `Entries`, `EntriesAppend`, `SecondRoundEntries`, `Preceded` and
`PrecededTwice` are helpers for building and joining result lists.

## Left out

- JSON decoding of a string order list in `setOrders` (`Taxes.php:179-187`): the model takes an already decoded list of orders; `json_decode` is a foreign library.
- `toJson` (`Taxes.php:122-129`): JSON encoding and PHP's float formatting are a foreign library.
- TaxRules.InvalidOperationMessage: the `json_encode` dump of the offending order that the source appends to the message is not modelled; the message ends after "Transaction: ".
- IEEE-754 behaviour of PHP floats: all amounts are exact reals.
- TaxRules.Round2: does not model PHP's float pre-rounding inside `round`; on exact reals it is plain rounding to hundredths.
- PHP integer overflow of `position` into a float: quantities and positions are unbounded integers.
- PHP's loose comparison in `in_array` for non-string operation values: an operation is either of the two exact strings or another string.
- Helpers.Taxes.Calculate: the division by zero in `calcAvgPrice` (a PHP error that aborts the call) is excluded by a precondition rather than modelled as an outcome.
- The console commands (`app/src/Command/StockTransactionsTaxesCommand.php`, `app/src/Command/CapitalGainsCommand.php`): argument parsing, prompting, printing and exit codes are I/O.
- Helpers.Taxes.constructor: the default argument of `__construct($orders = [])` has no Dafny counterpart; a caller passes `[]` explicitly.
- Fluent `return $this` of the setters and of `calculate`: the Dafny methods return nothing.
