/** What the pass of `calculate` guarantees over a whole order list. */
module TaxProperties {
  import opened TaxRules

  /** A concatenation avoids the division by zero exactly when its first part does
      and its second part does from the state the first part leaves. */
  lemma {:induction false} ComputableAppend(s: State, a: seq<Order>, b: seq<Order>)
    ensures Computable(s, a + b) <==> Computable(s, a) && Computable(Process(s, a).state, b)
    decreases |a|
  {
    if a == [] {
      assert a + b == b;
    } else {
      assert (a + b)[0] == a[0] && (a + b)[1..] == a[1..] + b;
      if StepDefined(s, a[0]) {
        var next := Step(s, a[0]).state;
        ComputableAppend(next, a[1..], b);
        assert Computable(s, a) ==> Process(s, a).state == Process(next, a[1..]).state;
      }
    }
  }

  /** Running `a` and then `b`, carrying the state across, is running `a + b`; this
      is also what a second `calculate` on the same object does. */
  lemma {:induction false} ProcessAppend(s: State, a: seq<Order>, b: seq<Order>)
    requires Computable(s, a) && Computable(Process(s, a).state, b)
    ensures Computable(s, a + b)
    ensures var first := Process(s, a);
            Process(s, a + b) == Preceded(first.taxes, first.errors, Process(first.state, b))
    decreases |a|
  {
    ComputableAppend(s, a, b);
    if a == [] {
      assert a + b == b;
    } else {
      assert (a + b)[0] == a[0] && (a + b)[1..] == a[1..] + b;
      var first := Step(s, a[0]);
      var restA := Process(first.state, a[1..]);
      ProcessAppend(first.state, a[1..], b);
      PrecededTwice([TaxEntry(first.tax)], first.errors, restA.taxes, restA.errors,
                    Process(restA.state, b));
    }
  }

  /** The state in which order `j` is met: the result of running the orders before it. */
  function StateBefore(s: State, orders: seq<Order>, j: nat): State
    requires j <= |orders| && Computable(s, orders[..j])
  {
    Process(s, orders[..j]).state
  }

  /** Entry `j` is the tax of order `j`, applied to the state the earlier orders left. */
  lemma ProcessAt(s: State, orders: seq<Order>, j: nat)
    requires Computable(s, orders) && j < |orders|
    ensures Computable(s, orders[..j])
    ensures StepDefined(StateBefore(s, orders, j), orders[j])
    ensures Process(s, orders).taxes[j] == TaxEntry(Step(StateBefore(s, orders, j), orders[j]).tax)
  {
    var a, b := orders[..j], orders[j..];
    assert a + b == orders;
    ComputableAppend(s, a, b);
    ProcessAppend(s, a, b);
    assert b[0] == orders[j];
  }

  /** No entry is ever negative. */
  lemma {:induction false} TaxesNonNegative(s: State, orders: seq<Order>)
    requires Computable(s, orders)
    ensures forall j :: 0 <= j < |Process(s, orders).taxes| ==> Process(s, orders).taxes[j].tax >= 0.0
    decreases |orders|
  {
    if orders != [] {
      TaxesNonNegative(Step(s, orders[0]).state, orders[1..]);
    }
  }

  /** The carried-forward loss stays at or below zero. */
  lemma {:induction false} LossStaysNonPositive(s: State, orders: seq<Order>)
    requires Computable(s, orders) && s.loss <= 0.0
    ensures Process(s, orders).state.loss <= 0.0
    decreases |orders|
  {
    if orders != [] {
      LossStaysNonPositive(Step(s, orders[0]).state, orders[1..]);
    }
  }

  /** The error messages of the unrecognised orders, in order, whatever the state. */
  function InvalidMessages(orders: seq<Order>): seq<string>
  {
    if orders == [] then []
    else
      (if orders[0].operation.Other? then [InvalidOperationMessage(orders[0].operation.name)] else [])
      + InvalidMessages(orders[1..])
  }

  /** The number of unrecognised orders. */
  function InvalidCount(orders: seq<Order>): nat
  {
    if orders == [] then 0
    else (if orders[0].operation.Other? then 1 else 0) + InvalidCount(orders[1..])
  }

  /** Exactly one error per unrecognised order, and no other error. */
  lemma {:induction false} ErrorsAreInvalidOrders(s: State, orders: seq<Order>)
    requires Computable(s, orders)
    ensures Process(s, orders).errors == InvalidMessages(orders)
    ensures |Process(s, orders).errors| == InvalidCount(orders)
    decreases |orders|
  {
    if orders != [] {
      ErrorsAreInvalidOrders(Step(s, orders[0]).state, orders[1..]);
    }
  }

  /** Without a sale every entry is zero; in particular a list of buys owes nothing. */
  lemma {:induction false} NoSaleNoTax(s: State, orders: seq<Order>)
    requires Computable(s, orders)
    requires forall j :: 0 <= j < |orders| ==> !orders[j].operation.Sell?
    ensures forall j :: 0 <= j < |Process(s, orders).taxes| ==> Process(s, orders).taxes[j].tax == 0.0
    decreases |orders|
  {
    if orders != [] {
      assert forall j :: 0 <= j < |orders[1..]| ==> orders[1..][j] == orders[j + 1];
      NoSaleNoTax(Step(s, orders[0]).state, orders[1..]);
    }
  }

  /** An unrecognised order in front of a list only adds its zero entry and its error. */
  lemma InvalidOrderFirst(s: State, bad: Order, b: seq<Order>)
    requires bad.operation.Other? && Computable(s, b)
    ensures Computable(s, [bad] + b)
    ensures Process(s, [bad] + b)
            == Preceded([TaxEntry(0.0)], [InvalidOperationMessage(bad.operation.name)], Process(s, b))
  {
    assert ([bad] + b)[0] == bad && ([bad] + b)[1..] == b;
  }

  /** An unrecognised order anywhere in the list changes neither the final state nor
      the other entries; it only contributes a zero entry at its own place. */
  lemma InvalidOrderChangesNothing(s: State, a: seq<Order>, bad: Order, b: seq<Order>)
    requires bad.operation.Other?
    requires Computable(s, a + b)
    ensures Computable(s, a + [bad] + b)
    ensures Process(s, a + [bad] + b).state == Process(s, a + b).state
    ensures Process(s, a + [bad] + b).taxes
            == Process(s, a + b).taxes[..|a|] + [TaxEntry(0.0)] + Process(s, a + b).taxes[|a|..]
  {
    ComputableAppend(s, a, b);
    ProcessAppend(s, a, b);
    var first := Process(s, a);
    var second := Process(first.state, b);
    InvalidOrderFirst(first.state, bad, b);
    ProcessAppend(s, a, [bad] + b);
    assert a + [bad] + b == a + ([bad] + b);
    var whole := Process(s, a + b).taxes;
    assert whole == first.taxes + second.taxes;
    assert whole[..|a|] == first.taxes && whole[|a|..] == second.taxes;
  }

  /** The quantity held after each recognised order: up on a buy, down on a sale. */
  function NextHolding(held: int, o: Order): int
  {
    match o.operation
    case Buy => held + o.quantity
    case Sell => held - o.quantity
    case Other(_) => held
  }

  /** The quantity held after the whole list. */
  function Holdings(held: int, orders: seq<Order>): int
    decreases |orders|
  {
    if orders == [] then held else Holdings(NextHolding(held, orders[0]), orders[1..])
  }

  /** Every recognised order has a positive quantity, and no sale exceeds what is held. */
  predicate NeverOversold(held: int, orders: seq<Order>)
    decreases |orders|
  {
    orders == [] ||
    ((!orders[0].operation.Other? ==> orders[0].quantity > 0) &&
     (orders[0].operation.Sell? ==> orders[0].quantity <= held) &&
     NeverOversold(NextHolding(held, orders[0]), orders[1..]))
  }

  /** On well-formed input the division by zero cannot happen and the position never
      goes negative: it is the quantity bought minus the quantity sold. */
  lemma {:induction false} HoldingsNeverNegative(s: State, orders: seq<Order>)
    requires s.position >= 0 && NeverOversold(s.position, orders)
    ensures Computable(s, orders)
    ensures Process(s, orders).state.position == Holdings(s.position, orders) >= 0
    decreases |orders|
  {
    if orders != [] {
      var next := Step(s, orders[0]).state;
      assert next.position == NextHolding(s.position, orders[0]);
      HoldingsNeverNegative(next, orders[1..]);
    }
  }

  /** On well-formed input whose unit costs lie in `[lo, hi]`, so does the average price. */
  lemma {:induction false} AveragePriceInRange(s: State, orders: seq<Order>, lo: real, hi: real)
    requires s.position >= 0 && NeverOversold(s.position, orders)
    requires lo <= s.avgPrice <= hi
    requires forall j :: 0 <= j < |orders| ==> lo <= orders[j].unitCost <= hi
    ensures Computable(s, orders)
    ensures lo <= Process(s, orders).state.avgPrice <= hi
    decreases |orders|
  {
    HoldingsNeverNegative(s, orders);
    if orders != [] {
      var next := Step(s, orders[0]).state;
      assert lo <= next.avgPrice <= hi;
      assert next.position == NextHolding(s.position, orders[0]);
      assert forall j :: 0 <= j < |orders[1..]| ==> orders[1..][j] == orders[j + 1];
      AveragePriceInRange(next, orders[1..], lo, hi);
    }
  }

  function Abs(x: real): real { if x < 0.0 then -x else x }

  /** `Round2(x)` is a nearest whole number of hundredths to `x`. */
  lemma Round2Nearest(x: real, k: int)
    ensures Abs(Round2(x) * 100.0 - x * 100.0) <= Abs(k as real - x * 100.0)
  {
    var r := Round2(x);
    var n := (r * 100.0).Floor;
    assert n as real == r * 100.0;
    assert Abs(n as real - x * 100.0) <= 0.5;
    if k != n {
      assert k >= n + 1 || k <= n - 1;
    }
  }
}
