/** The calculator object of `App\Helpers\Taxes`: its fields, its accessors, and
    `calculate`, which walks the orders once and rewrites the fields as it goes. */
module Helpers {
  import opened TaxRules

  class Taxes {
    /** The entries computed by the last `calculate`. */
    var taxes: seq<TaxEntry>
    /** The orders to calculate taxes for. */
    var orders: seq<Order>
    /** The errors reported so far; they accumulate across calls. */
    var errors: seq<string>
    /** The carried-forward loss. */
    var loss: real
    /** The quantity currently held. */
    var position: int
    /** The average cost per unit of the current position. */
    var avgPrice: real

    /** The object invariant: the carried-forward loss is never positive. */
    ghost predicate Valid()
      reads this
    {
      loss <= 0.0
    }

    /** The running fields as a value of the rules' state type. */
    function Current(): State
      reads this
    {
      State(position, avgPrice, loss)
    }

    constructor (orders: seq<Order>)
      ensures Valid()
      ensures Current() == Initial
      ensures this.orders == orders && taxes == [] && errors == []
    {
      taxes := [];
      this.orders := orders;
      errors := [];
      loss := 0.0;
      position := 0;
      avgPrice := 0.0;
    }

    /** Runs every order in turn from the current fields and stores one entry per
        order; the division by zero in `CalcAvgPrice` must not be reached. */
    method Calculate()
      requires Valid()
      requires Computable(Current(), orders)
      modifies this`taxes, this`errors, this`loss, this`position, this`avgPrice
      ensures Valid()
      ensures Current() == Process(old(Current()), orders).state
      ensures taxes == Process(old(Current()), orders).taxes
      ensures errors == old(errors) + Process(old(Current()), orders).errors
    {
      ghost var whole := Process(Current(), orders);
      var computed: seq<TaxEntry> := [];
      ghost var reported: seq<string> := [];
      var i := 0;
      while i < |orders|
        invariant 0 <= i <= |orders|
        invariant Valid() && errors == old(errors) + reported
        invariant Computable(Current(), orders[i..])
        invariant whole == Preceded(computed, reported, Process(Current(), orders[i..]))
      {
        ghost var rest := Process(Current(), orders[i..]);
        ProcessFirst(Current(), orders[i..]);
        assert orders[i..][0] == orders[i] && orders[i..][1..] == orders[i + 1..];
        ghost var step := Step(Current(), orders[i]);
        var entry := CalculateOrder(orders[i]);
        ghost var next := Process(Current(), orders[i + 1..]);
        assert rest == Preceded([entry], step.errors, next);
        PrecededTwice(computed, reported, [entry], step.errors, next);
        computed, reported := computed + [entry], reported + step.errors;
        i := i + 1;
      }
      SetTaxes(computed);
    }

    /** One order, as the closure inside `calculate` handles it. */
    method CalculateOrder(order: Order) returns (entry: TaxEntry)
      requires Valid()
      requires StepDefined(Current(), order)
      modifies this`errors, this`loss, this`position, this`avgPrice
      ensures Valid()
      ensures Current() == Step(old(Current()), order).state
      ensures entry == TaxEntry(Step(old(Current()), order).tax)
      ensures errors == old(errors) + Step(old(Current()), order).errors
    {
      if order.operation.Other? {
        SetError(InvalidOperationMessage(order.operation.name));
        return TaxEntry(0.0);
      }

      var position := GetPosition();

      if order.operation == Buy {
        var _ := CalcAvgPrice(position, order);
        position := position + order.quantity;
        SetPosition(position);
        return TaxEntry(0.0);
      }

      var tax := 0.0;
      var result := GetTransactionResult(order);

      var loss := GetLoss();
      result := result + loss;
      SetLoss(result);

      if SaleValue(order) > MinTransactionValueToPayTaxes && result + GetLoss() > 0.0 {
        tax := Round2(result * TaxPercentage);
      }

      position := position - order.quantity;
      SetPosition(position);

      return TaxEntry(tax);
    }

    function GetPosition(): int
      reads this
    {
      position
    }

    method SetPosition(position: int)
      modifies this`position
      ensures this.position == position
    {
      this.position := position;
    }

    function GetTaxes(): seq<TaxEntry>
      reads this
    {
      taxes
    }

    method SetTaxes(taxes: seq<TaxEntry>)
      modifies this`taxes
      ensures this.taxes == taxes
    {
      this.taxes := taxes;
    }

    function GetOrders(): seq<Order>
      reads this
    {
      orders
    }

    /** Takes an already decoded order list; the JSON decoding of a string argument
        is not modelled. */
    method SetOrders(orders: seq<Order>)
      modifies this`orders
      ensures this.orders == orders
    {
      this.orders := orders;
    }

    function GetErrors(): seq<string>
      reads this
    {
      errors
    }

    /** Records an error message unless PHP's `empty()` holds for it: the empty
        string and "0" are dropped. */
    method SetError(error: string)
      modifies this`errors
      ensures errors == if error != "" && error != "0" then old(errors) + [error] else old(errors)
    {
      if error != "" && error != "0" {
        errors := errors + [error];
      }
    }

    method SetAvgPrice(avgPrice: real)
      modifies this`avgPrice
      ensures this.avgPrice == avgPrice
    {
      this.avgPrice := avgPrice;
    }

    function GetAvgPrice(): real
      reads this
    {
      avgPrice
    }

    function GetLoss(): real
      reads this
    {
      loss
    }

    /** Stores a net result as the carried-forward loss, with gains stored as zero. */
    method SetLoss(result: real)
      modifies this`loss
      ensures loss <= 0.0
      ensures loss == ClampLoss(result)
    {
      var stored := result;
      if stored > 0.0 {
        stored := 0.0;
      }
      loss := stored;
    }

    /** Recomputes the average price for buying `order` on top of `position`
        units, stores it and returns it. */
    method CalcAvgPrice(position: int, order: Order) returns (avg: real)
      requires position + order.quantity != 0
      modifies this`avgPrice
      ensures avg == avgPrice == AveragePrice(position, old(avgPrice), order)
    {
      avg := (position as real * GetAvgPrice() + order.quantity as real * order.unitCost)
             / (position + order.quantity) as real;
      SetAvgPrice(avg);
    }

    /** The result of selling `order` at the current average price. */
    function GetTransactionResult(order: Order): real
      reads this
    {
      SaleResult(avgPrice, order)
    }
  }
}
