/** The runs of the calculator's test suite, each from a freshly constructed object. */
module TaxScenarios {
  import opened TaxRules
  import TaxProperties
  import Helpers

  function B(unitCost: real, quantity: int): Order { Order(Buy, unitCost, quantity) }
  function S(unitCost: real, quantity: int): Order { Order(Sell, unitCost, quantity) }

  /** Entries with the given taxes. */
  function Entries(taxes: seq<real>): (r: seq<TaxEntry>)
    ensures |r| == |taxes|
    ensures forall i :: 0 <= i < |taxes| ==> r[i].tax == taxes[i]
  {
    if taxes == [] then [] else [TaxEntry(taxes[0])] + Entries(taxes[1..])
  }

  /** `calcAvgPrice` with average 10 over 1000 units. */
  lemma AveragePriceExamples()
    ensures AveragePrice(1000, 10.0, B(20.0, 1000)) == 15.0
    ensures AveragePrice(1000, 10.0, B(5.0, 1000)) == 7.5
  {
  }

  /** `getTransactionResult` with average 10. */
  lemma TransactionResultExamples()
    ensures SaleResult(10.0, S(10.0, 1000)) == 0.0
    ensures SaleResult(10.0, S(15.0, 1000)) == 5000.0
  {
  }

  lemma GainAboveThreshold()
    ensures Computable(Initial, [B(10.0, 10000), S(20.0, 5000)])
    ensures Process(Initial, [B(10.0, 10000), S(20.0, 5000)]).taxes == Entries([0.0, 10000.0])
  {
    assert Step(Initial, B(10.0, 10000)) == Outcome(State(10000, 10.0, 0.0), 0.0, []);
    assert Step(State(10000, 10.0, 0.0), S(20.0, 5000)) == Outcome(State(5000, 10.0, 0.0), 10000.0, []);
  }

  lemma LossIsUntaxed()
    ensures Computable(Initial, [B(20.0, 10000), S(10.0, 5000)])
    ensures Process(Initial, [B(20.0, 10000), S(10.0, 5000)]).taxes == Entries([0.0, 0.0])
  {
    assert Step(Initial, B(20.0, 10000)) == Outcome(State(10000, 20.0, 0.0), 0.0, []);
    assert Step(State(10000, 20.0, 0.0), S(10.0, 5000)) == Outcome(State(5000, 20.0, -50000.0), 0.0, []);
  }

  lemma SmallSalesAreUntaxed()
    ensures Computable(Initial, [B(10.0, 100), S(15.0, 50), S(15.0, 50)])
    ensures Process(Initial, [B(10.0, 100), S(15.0, 50), S(15.0, 50)]).taxes == Entries([0.0, 0.0, 0.0])
  {
    assert Step(Initial, B(10.0, 100)) == Outcome(State(100, 10.0, 0.0), 0.0, []);
    assert Step(State(100, 10.0, 0.0), S(15.0, 50)) == Outcome(State(50, 10.0, 0.0), 0.0, []);
    assert Step(State(50, 10.0, 0.0), S(15.0, 50)) == Outcome(State(0, 10.0, 0.0), 0.0, []);
  }

  lemma GainThenLoss()
    ensures Computable(Initial, [B(10.0, 10000), S(20.0, 5000), S(5.0, 5000)])
    ensures Process(Initial, [B(10.0, 10000), S(20.0, 5000), S(5.0, 5000)]).taxes
            == Entries([0.0, 10000.0, 0.0])
  {
    assert Step(Initial, B(10.0, 10000)) == Outcome(State(10000, 10.0, 0.0), 0.0, []);
    assert Step(State(10000, 10.0, 0.0), S(20.0, 5000)) == Outcome(State(5000, 10.0, 0.0), 10000.0, []);
    assert Step(State(5000, 10.0, 0.0), S(5.0, 5000)) == Outcome(State(0, 10.0, -25000.0), 0.0, []);
  }

  lemma LossOffsetsLaterGain()
    ensures Computable(Initial, [B(10.0, 10000), S(5.0, 5000), S(20.0, 3000)])
    ensures Process(Initial, [B(10.0, 10000), S(5.0, 5000), S(20.0, 3000)]).taxes
            == Entries([0.0, 0.0, 1000.0])
  {
    assert Step(Initial, B(10.0, 10000)) == Outcome(State(10000, 10.0, 0.0), 0.0, []);
    assert Step(State(10000, 10.0, 0.0), S(5.0, 5000)) == Outcome(State(5000, 10.0, -25000.0), 0.0, []);
    assert Step(State(5000, 10.0, -25000.0), S(20.0, 3000)) == Outcome(State(2000, 10.0, 0.0), 1000.0, []);
  }

  lemma SaleAtAveragePrice()
    ensures Computable(Initial, [B(10.0, 10000), B(25.0, 5000), S(15.0, 10000)])
    ensures Process(Initial, [B(10.0, 10000), B(25.0, 5000), S(15.0, 10000)]).taxes
            == Entries([0.0, 0.0, 0.0])
  {
    assert Step(Initial, B(10.0, 10000)) == Outcome(State(10000, 10.0, 0.0), 0.0, []);
    assert Step(State(10000, 10.0, 0.0), B(25.0, 5000)) == Outcome(State(15000, 15.0, 0.0), 0.0, []);
    assert Step(State(15000, 15.0, 0.0), S(15.0, 10000)) == Outcome(State(5000, 15.0, 0.0), 0.0, []);
  }

  lemma SaleAtAverageThenGain()
    ensures Computable(Initial, [B(10.0, 10000), B(25.0, 5000), S(15.0, 10000), S(25.0, 5000)])
    ensures Process(Initial, [B(10.0, 10000), B(25.0, 5000), S(15.0, 10000), S(25.0, 5000)]).taxes
            == Entries([0.0, 0.0, 0.0, 10000.0])
  {
    assert Step(Initial, B(10.0, 10000)) == Outcome(State(10000, 10.0, 0.0), 0.0, []);
    assert Step(State(10000, 10.0, 0.0), B(25.0, 5000)) == Outcome(State(15000, 15.0, 0.0), 0.0, []);
    assert Step(State(15000, 15.0, 0.0), S(15.0, 10000)) == Outcome(State(5000, 15.0, 0.0), 0.0, []);
    assert Step(State(5000, 15.0, 0.0), S(25.0, 5000)) == Outcome(State(0, 15.0, 0.0), 10000.0, []);
  }

  /** The first sale books a loss of 40000; the next two use it up; only the last is taxed. */
  lemma LossCarriedAcrossSales()
    ensures Computable(Initial, LossRun())
    ensures Process(Initial, LossRun()).taxes == Entries([0.0, 0.0, 0.0, 0.0, 3000.0])
    ensures Process(Initial, LossRun()).state == State(0, 10.0, 0.0)
  {
    var s1, s2, s3, s4 := State(10000, 10.0, 0.0), State(5000, 10.0, -40000.0),
                          State(3000, 10.0, -20000.0), State(1000, 10.0, 0.0);
    assert Step(Initial, B(10.0, 10000)) == Outcome(s1, 0.0, []);
    assert Step(s1, S(2.0, 5000)) == Outcome(s2, 0.0, []);
    assert Step(s2, S(20.0, 2000)) == Outcome(s3, 0.0, []);
    assert Step(s3, S(20.0, 2000)) == Outcome(s4, 0.0, []);
    assert Step(s4, S(25.0, 1000)) == Outcome(State(0, 10.0, 0.0), 3000.0, []);
  }

  function LossRun(): seq<Order>
  {
    [B(10.0, 10000), S(2.0, 5000), S(20.0, 2000), S(20.0, 2000), S(25.0, 1000)]
  }

  /** The loss run followed by a second round: a new buy at 20, a loss of 25000, a
      taxed gain of 18500 net, and a last gain of 6500 that stays under the threshold. */
  lemma SecondRound()
    ensures Computable(Initial, LossRun() + SecondRun())
    ensures Process(Initial, LossRun() + SecondRun()).taxes
            == Entries([0.0, 0.0, 0.0, 0.0, 3000.0, 0.0, 0.0, 3700.0, 0.0])
    ensures Process(Initial, LossRun() + SecondRun()).state == State(0, 20.0, 0.0)
  {
    LossCarriedAcrossSales();
    SecondRunAfterLossRun();
    TaxProperties.ProcessAppend(Initial, LossRun(), SecondRun());
    SecondRoundEntries();
  }

  lemma SecondRoundEntries()
    ensures Entries([0.0, 0.0, 0.0, 0.0, 3000.0]) + Entries([0.0, 0.0, 3700.0, 0.0])
            == Entries([0.0, 0.0, 0.0, 0.0, 3000.0, 0.0, 0.0, 3700.0, 0.0])
  {
    EntriesAppend([0.0, 0.0, 0.0, 0.0, 3000.0], [0.0, 0.0, 3700.0, 0.0]);
    assert [0.0, 0.0, 0.0, 0.0, 3000.0] + [0.0, 0.0, 3700.0, 0.0]
           == [0.0, 0.0, 0.0, 0.0, 3000.0, 0.0, 0.0, 3700.0, 0.0];
  }

  /** The second round on its own, from the state the loss run leaves. */
  lemma SecondRunAfterLossRun()
    ensures Computable(State(0, 10.0, 0.0), SecondRun())
    ensures Process(State(0, 10.0, 0.0), SecondRun()).taxes == Entries([0.0, 0.0, 3700.0, 0.0])
    ensures Process(State(0, 10.0, 0.0), SecondRun()).state == State(0, 20.0, 0.0)
  {
    assert Step(State(0, 10.0, 0.0), B(20.0, 10000)) == Outcome(State(10000, 20.0, 0.0), 0.0, []);
    assert Step(State(10000, 20.0, 0.0), S(15.0, 5000)) == Outcome(State(5000, 20.0, -25000.0), 0.0, []);
    assert Step(State(5000, 20.0, -25000.0), S(30.0, 4350)) == Outcome(State(650, 20.0, 0.0), 3700.0, []);
    assert Step(State(650, 20.0, 0.0), S(30.0, 650)) == Outcome(State(0, 20.0, 0.0), 0.0, []);
  }

  lemma {:induction false} EntriesAppend(a: seq<real>, b: seq<real>)
    ensures Entries(a + b) == Entries(a) + Entries(b)
  {
    if a != [] {
      assert (a + b)[1..] == a[1..] + b;
      EntriesAppend(a[1..], b);
    } else {
      assert a + b == b;
    }
  }

  function SecondRun(): seq<Order>
  {
    [B(20.0, 10000), S(15.0, 5000), S(30.0, 4350), S(30.0, 650)]
  }

  /** A profitable sale under the threshold owes nothing but still uses up carried
      loss: 650 units at 30 is 19500, and its gain of 13000 shrinks the loss of
      25000 booked by the sale before it to 12000. */
  lemma SmallGainConsumesLoss()
    ensures Computable(Initial, [B(10.0, 10000), S(5.0, 5000), S(30.0, 650)])
    ensures Process(Initial, [B(10.0, 10000), S(5.0, 5000), S(30.0, 650)]).taxes
            == Entries([0.0, 0.0, 0.0])
    ensures Process(Initial, [B(10.0, 10000), S(5.0, 5000), S(30.0, 650)]).state
            == State(4350, 10.0, -12000.0)
  {
    assert Step(Initial, B(10.0, 10000)) == Outcome(State(10000, 10.0, 0.0), 0.0, []);
    assert Step(State(10000, 10.0, 0.0), S(5.0, 5000)) == Outcome(State(5000, 10.0, -25000.0), 0.0, []);
    assert Step(State(5000, 10.0, -25000.0), S(30.0, 650)) == Outcome(State(4350, 10.0, -12000.0), 0.0, []);
  }

  /** The message for operation "hold". */
  lemma InvalidOperationMessageExample()
    ensures InvalidOperationMessage("hold") == "Invalid operation (hold) - Transaction: "
  {
  }

  /** An unrecognised operation between a buy and a sale is reported and skipped. */
  lemma InvalidOperationSkipped()
    ensures Computable(Initial, [B(10.0, 10000), Order(OperationOf("hold"), 99.0, 7), S(20.0, 5000)])
    ensures Process(Initial, [B(10.0, 10000), Order(OperationOf("hold"), 99.0, 7), S(20.0, 5000)]).taxes
            == Entries([0.0, 0.0, 10000.0])
    ensures Process(Initial, [B(10.0, 10000), Order(OperationOf("hold"), 99.0, 7), S(20.0, 5000)]).errors
            == [InvalidOperationMessage("hold")]
  {
    assert OperationOf("hold") == Other("hold");
    assert Step(Initial, B(10.0, 10000)) == Outcome(State(10000, 10.0, 0.0), 0.0, []);
    assert Step(State(10000, 10.0, 0.0), S(20.0, 5000)) == Outcome(State(5000, 10.0, 0.0), 10000.0, []);
  }

  /** `calcAvgPrice` driven through the calculator object, as the test suite does. */
  method ObjectAveragePrice()
  {
    var t := new Helpers.Taxes([]);
    t.SetAvgPrice(10.0);
    var avg := t.CalcAvgPrice(1000, B(20.0, 1000));
    assert avg == t.GetAvgPrice() == 15.0;
  }

  /** `calculate` driven through a fresh calculator object, as the test suite does. */
  method ObjectCalculate()
  {
    var t := new Helpers.Taxes([B(10.0, 10000), S(20.0, 5000)]);
    GainAboveThreshold();
    t.Calculate();
    assert t.GetTaxes() == Entries([0.0, 10000.0]) && t.GetErrors() == [];
  }
}
