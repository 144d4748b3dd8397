/** The per-order rules of the capital-gains calculator: the running state that
    `Taxes::calculate` threads through the orders, what one order does to it, and
    the whole pass as a fold over the order list. */
module TaxRules {

  /** The operation of an order as `calculate` tells it apart: the two it
      recognises, and any other text, kept by name for the error message. */
  datatype Operation = Buy | Sell | Other(name: string)

  /** One decoded order: `operation`, `unit-cost` and `quantity`. */
  datatype Order = Order(operation: Operation, unitCost: real, quantity: int)

  /** One entry of the result list, `["tax" => …]`. */
  datatype TaxEntry = TaxEntry(tax: real)

  /** The three fields the pass reads and rewrites. */
  datatype State = State(position: int, avgPrice: real, loss: real)

  /** What one order yields: the next state, its tax, and the errors it reports. */
  datatype Outcome = Outcome(state: State, tax: real, errors: seq<string>)

  /** What a whole pass yields: the final state, one entry per order, and the errors. */
  datatype Calculation = Calculation(state: State, taxes: seq<TaxEntry>, errors: seq<string>)

  const BuyOperation: string := "buy"
  const SellOperation: string := "sell"
  const TaxPercentage: real := 0.2
  const MinTransactionValueToPayTaxes: real := 20000.0

  /** The state of a freshly constructed calculator. */
  const Initial: State := State(0, 0.0, 0.0)

  /** Reads an operation field: exactly "buy" and "sell" are recognised. */
  function OperationOf(s: string): (op: Operation)
    ensures op == Buy <==> s == BuyOperation
    ensures op == Sell <==> s == SellOperation
    ensures op.Other? ==> op.name == s
  {
    if s == BuyOperation then Buy
    else if s == SellOperation then Sell
    else Other(s)
  }

  function Min(a: real, b: real): real { if a <= b then a else b }
  function Max(a: real, b: real): real { if a <= b then b else a }

  /** The weighted average cost after buying `o` on top of `position` units held
      at `avgPrice`. The source divides without a guard, hence the requires. */
  function AveragePrice(position: int, avgPrice: real, o: Order): (r: real)
    requires position + o.quantity != 0
    ensures r * (position + o.quantity) as real
            == position as real * avgPrice + o.quantity as real * o.unitCost
    ensures position == 0 ==> r == o.unitCost
    ensures position > 0 && o.quantity > 0 ==>
              Min(avgPrice, o.unitCost) <= r <= Max(avgPrice, o.unitCost)
  {
    var total := position as real * avgPrice + o.quantity as real * o.unitCost;
    var held := (position + o.quantity) as real;
    var r := total / held;
    assert r * held == total;
    if position > 0 && o.quantity > 0 then
      BlendBounds(position as real, avgPrice, o.quantity as real, o.unitCost, r);
      r
    else r
  }

  /** A blend of two prices with positive weights lies between them. */
  lemma BlendBounds(p: real, a: real, q: real, u: real, r: real)
    requires p > 0.0 && q > 0.0
    requires r * (p + q) == p * a + q * u
    ensures Min(a, u) <= r <= Max(a, u)
  {
    var m, n := Min(a, u), Max(a, u);
    assert p * a + q * u >= p * m + q * m by {
      assert p * a >= p * m;
      assert q * u >= q * m;
    }
    assert p * a + q * u <= p * n + q * n by {
      assert p * a <= p * n;
      assert q * u <= q * n;
    }
    assert (r - m) * (p + q) >= 0.0;
    assert (n - r) * (p + q) >= 0.0;
  }

  /** The realised result of selling `o` against the average cost `avgPrice`:
      positive for a gain, negative for a loss. */
  function SaleResult(avgPrice: real, o: Order): (r: real)
    ensures r + avgPrice * o.quantity as real == o.unitCost * o.quantity as real
    ensures o.quantity > 0 ==> (r > 0.0 <==> o.unitCost > avgPrice)
    ensures o.quantity > 0 ==> (r < 0.0 <==> o.unitCost < avgPrice)
  {
    var r := (o.unitCost - avgPrice) * o.quantity as real;
    r
  }

  /** The carried-forward loss that `setLoss` stores for a net result: the
      smaller of the result and zero. */
  function ClampLoss(result: real): (r: real)
    ensures r <= 0.0 && r <= result
    ensures r == 0.0 || r == result
  {
    if result > 0.0 then 0.0 else result
  }

  /** `round(x, 2)`: the nearest multiple of 0.01, halves away from zero. */
  function Round2(x: real): (r: real)
    ensures (r * 100.0).Floor as real == r * 100.0
    ensures x >= 0.0 ==> 0.0 <= r && x - 0.005 < r <= x + 0.005
    ensures x < 0.0 ==> r <= 0.0 && x - 0.005 <= r < x + 0.005
  {
    var y := if x >= 0.0 then x else -x;
    var n := (y * 100.0 + 0.5).Floor;
    var m := n as real / 100.0;
    HundredthsOf(y, n, m);
    if x >= 0.0 then m else -m
  }

  /** `n` hundredths, with `n` the half-up rounding of `100 * y`, is a whole
      number of hundredths either way round and within half a hundredth of `y`. */
  lemma HundredthsOf(y: real, n: int, m: real)
    requires y >= 0.0 && n == (y * 100.0 + 0.5).Floor && m == n as real / 100.0
    ensures (m * 100.0).Floor as real == m * 100.0
    ensures ((-m) * 100.0).Floor as real == (-m) * 100.0
    ensures 0.0 <= m && y - 0.005 < m <= y + 0.005
  {
    assert n as real <= y * 100.0 + 0.5 < n as real + 1.0;
    assert m * 100.0 == n as real;
    assert (n as real).Floor == n;
    assert (-m) * 100.0 == (-n) as real;
    assert ((-n) as real).Floor == -n;
  }

  /** The text `calculate` reports for an unrecognised operation; the JSON dump
      of the order that the source appends is not modelled. */
  function InvalidOperationMessage(name: string): (m: string)
    ensures |m| == |name| + 36
    ensures m[19..19 + |name|] == name
  {
    var m := "Invalid operation (" + name + ") - Transaction: ";
    assert |m| == 19 + |name| + 17;
    assert m[19..19 + |name|] == name;
    m
  }

  /** An order can be applied to `s` unless it is a buy that brings the
      position to exactly zero (the average price would divide by zero). */
  predicate StepDefined(s: State, o: Order)
  {
    o.operation.Buy? ==> s.position + o.quantity != 0
  }

  /** The gross value of an order, `quantity * unit-cost`, which the tax threshold is
      compared with. */
  function SaleValue(o: Order): real
  {
    o.quantity as real * o.unitCost
  }

  /** What one order does to the state: the body of the closure in `calculate`. */
  function Step(s: State, o: Order): (r: Outcome)
    requires StepDefined(s, o)
    ensures r.tax >= 0.0
    ensures s.loss <= 0.0 ==> r.state.loss <= 0.0
    ensures o.operation.Other? ==>
              r.state == s && r.tax == 0.0 && r.errors == [InvalidOperationMessage(o.operation.name)]
    ensures !o.operation.Other? ==> r.errors == []
    ensures o.operation.Buy? ==>
              r.tax == 0.0 && r.state.loss == s.loss &&
              r.state.position == s.position + o.quantity &&
              r.state.avgPrice == AveragePrice(s.position, s.avgPrice, o)
    ensures o.operation.Sell? ==>
              var net := SaleResult(s.avgPrice, o) + s.loss;
              r.state.position == s.position - o.quantity &&
              r.state.avgPrice == s.avgPrice &&
              r.state.loss == (if net > 0.0 then 0.0 else net) &&
              r.tax == (if SaleValue(o) > MinTransactionValueToPayTaxes && net > 0.0
                        then Round2(net * TaxPercentage) else 0.0)
  {
    match o.operation
    case Other(name) =>
      Outcome(s, 0.0, [InvalidOperationMessage(name)])
    case Buy =>
      Outcome(State(s.position + o.quantity, AveragePrice(s.position, s.avgPrice, o), s.loss), 0.0, [])
    case Sell =>
      var result := SaleResult(s.avgPrice, o) + s.loss;
      var loss := ClampLoss(result);
      // the second conjunct of the source's gate holds exactly when the net result is a gain
      assert result + loss > 0.0 <==> result > 0.0;
      var tax := if SaleValue(o) > MinTransactionValueToPayTaxes && result + loss > 0.0
                 then Round2(result * TaxPercentage) else 0.0;
      Outcome(State(s.position - o.quantity, s.avgPrice, loss), tax, [])
  }

  /** Every order of the list, applied in turn from `s`, avoids the division by zero. */
  predicate Computable(s: State, orders: seq<Order>)
    decreases |orders|
  {
    orders == [] ||
    (StepDefined(s, orders[0]) && Computable(Step(s, orders[0]).state, orders[1..]))
  }

  /** The whole pass of `calculate` from state `s`: one entry per order, in order. */
  function Process(s: State, orders: seq<Order>): (c: Calculation)
    requires Computable(s, orders)
    ensures |c.taxes| == |orders|
    decreases |orders|
  {
    if orders == [] then Calculation(s, [], [])
    else
      var first := Step(s, orders[0]);
      Preceded([TaxEntry(first.tax)], first.errors, Process(first.state, orders[1..]))
  }

  /** A calculation preceded by entries and errors that were produced before it. */
  function Preceded(taxes: seq<TaxEntry>, errors: seq<string>, c: Calculation): Calculation
  {
    Calculation(c.state, taxes + c.taxes, errors + c.errors)
  }

  lemma PrecededTwice(t1: seq<TaxEntry>, e1: seq<string>, t2: seq<TaxEntry>, e2: seq<string>,
                      c: Calculation)
    ensures Preceded(t1, e1, Preceded(t2, e2, c)) == Preceded(t1 + t2, e1 + e2, c)
  {
    assert t1 + (t2 + c.taxes) == (t1 + t2) + c.taxes;
    assert e1 + (e2 + c.errors) == (e1 + e2) + c.errors;
  }

  /** `Process` on a non-empty list: the first order, then the rest from its state. */
  lemma ProcessFirst(s: State, orders: seq<Order>)
    requires orders != [] && Computable(s, orders)
    ensures StepDefined(s, orders[0]) && Computable(Step(s, orders[0]).state, orders[1..])
    ensures var first := Step(s, orders[0]);
            Process(s, orders) == Preceded([TaxEntry(first.tax)], first.errors, Process(first.state, orders[1..]))
  {
  }
}
