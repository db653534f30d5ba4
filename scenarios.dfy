/** Client scenarios that drive the service classes the way the application's screens do, with
    the outcomes the model guarantees. */
module Scenarios {
  import opened Wrappers
  import opened Text
  import opened Dates
  import opened Transactions
  import opened Ledger
  import opened Queries
  import opened Statistics
  import opened FinanceApp

  /** The ids of the first three records. */
  lemma FirstIds()
    ensures IdFor(1) == "T000001" && IdFor(2) == "T000002" && IdFor(3) == "T000003"
  {
    assert Zeros(5) == "00000";
    assert NatText(1) == "1" && NatText(2) == "2" && NatText(3) == "3";
  }

  /** A fresh service (no data file) after three create_transaction calls. */
  method ThreeRecords() returns (service: TransactionService)
    ensures fresh(service) && |service.transactions| == 3
    ensures service.transactions[0].id == IdFor(1)
    ensures service.transactions[1].id == IdFor(2)
    ensures service.transactions[2].id == IdFor(3)
  {
    service := new TransactionService(None);
    var ok := service.CreateTransaction(100, Expense, "餐饮", "2024-01-01", "");
    ok := service.CreateTransaction(200, Expense, "餐饮", "2024-01-02", "");
    ok := service.CreateTransaction(300, Expense, "餐饮", "2024-01-03", "");
  }

  /** Create three records, delete the second, create a fourth: the new record is given the id
      "T000003", which the third record already has. */
  method IdCollision() returns (ids: seq<string>)
    ensures ids == ["T000001", "T000003", "T000003"]
  {
    FirstIds();
    var service := ThreeRecords();
    var t1, t2, t3 := service.transactions[0], service.transactions[1], service.transactions[2];
    assert service.transactions == [t1, t2, t3];
    var ok := service.DeleteTransaction("T000002");
    DeleteSecond(t1, t2, t3);
    ok := service.CreateTransaction(400, Expense, "餐饮", "2024-01-04", "");
    ids := [service.transactions[0].id, service.transactions[1].id, service.transactions[2].id];
  }

  /** Deleting the second of three records with distinct ids keeps the other two in order. */
  lemma DeleteSecond(t1: Transaction, t2: Transaction, t3: Transaction)
    requires t1.id == "T000001" && t2.id == "T000002" && t3.id == "T000003"
    ensures DeletedFirst([t1, t2, t3], "T000002") == [t1, t3]
  {
    assert IndexOfId([t1, t2, t3], "T000002") == Some(1) by {
      assert [t1, t2, t3][1..] == [t2, t3];
    }
  }

  /** The three January records of the walk-through, amounts in cents. */
  predicate JanuaryRecords(ts: seq<Transaction>) {
    |ts| == 3 &&
    ts[0].amount == 500000 && ts[0].kind == Income && ts[0].date == "2024-01-05" &&
    ts[1].amount == 30000 && ts[1].kind == Expense && ts[1].date == "2024-01-10" &&
    ts[2].amount == 100000 && ts[2].kind == Income && ts[2].date == "2024-01-20"
  }

  /** A fresh service after the three create_transaction calls of the walk-through. */
  method JanuaryService() returns (service: TransactionService)
    ensures fresh(service) && JanuaryRecords(service.transactions)
  {
    service := new TransactionService(None);
    var ok := service.CreateTransaction(500000, Income, "工资", "2024-01-05", "");
    ok := service.CreateTransaction(30000, Expense, "餐饮", "2024-01-10", "");
    ok := service.CreateTransaction(100000, Income, "奖金", "2024-01-20", "");
  }

  /** The bounds of the walk-through's range, read with the "%Y-%m-%d" format. */
  lemma JanuaryBounds()
    ensures Parse("2024-01-01") == Some(Date(2024, 1, 1))
    ensures Parse("2024-01-31") == Some(Date(2024, 1, 31))
  {
  }

  /** The dates of the walk-through's records. */
  lemma JanuaryDates(ts: seq<Transaction>)
    requires JanuaryRecords(ts)
    ensures Parse(ts[0].date) == Some(Date(2024, 1, 5))
    ensures Parse(ts[1].date) == Some(Date(2024, 1, 10))
    ensures Parse(ts[2].date) == Some(Date(2024, 1, 20))
  {
  }

  /** Filtering three records, written out. */
  lemma FilterThree(ts: seq<Transaction>, c: Criterion)
    requires |ts| == 3
    ensures Filter(ts, c) ==
              (if Holds(c, ts[0]) then [ts[0]] else []) +
              (if Holds(c, ts[1]) then [ts[1]] else []) +
              (if Holds(c, ts[2]) then [ts[2]] else [])
  {
    var x, y, z := ts[0], ts[1], ts[2];
    assert ts == [x, y, z];
    assert [x, y, z][..2] == [x, y] && [x, y][..1] == [x] && [x][..0] == [];
    FilterLast([x], c);
    FilterLast([x, y], c);
    FilterLast([x, y, z], c);
  }

  /** A record dated on a day of January 2024 passes the month's date test. */
  lemma InJanuary(t: Transaction, day: int)
    requires 1 <= day <= 31 && Parse(t.date) == Some(Date(2024, 1, day))
    ensures Parse(t.date).Some? && Holds(DateWithin(Date(2024, 1, 1), Date(2024, 1, 31)), t)
  {
    assert Le(Date(2024, 1, 1), Date(2024, 1, day)) && Le(Date(2024, 1, day), Date(2024, 1, 31));
  }

  /** A test that the three records pass holds at every index. */
  lemma HoldsForThree(ts: seq<Transaction>, c: Criterion)
    requires |ts| == 3 && Holds(c, ts[0]) && Holds(c, ts[1]) && Holds(c, ts[2])
    ensures forall i :: 0 <= i < |ts| ==> Holds(c, ts[i])
  {
  }

  /** Every January record lies within the month. */
  lemma JanuaryInRange(ts: seq<Transaction>, startDate: string, endDate: string)
    requires Parse(startDate) == Some(Date(2024, 1, 1)) && Parse(endDate) == Some(Date(2024, 1, 31))
    requires |ts| == 3
    requires Parse(ts[0].date) == Some(Date(2024, 1, 5))
    requires Parse(ts[1].date) == Some(Date(2024, 1, 10))
    requires Parse(ts[2].date) == Some(Date(2024, 1, 20))
    ensures ByDateRange(ts, startDate, endDate) == ts
  {
    var c := DateWithin(Date(2024, 1, 1), Date(2024, 1, 31));
    InJanuary(ts[0], 5);
    InJanuary(ts[1], 10);
    InJanuary(ts[2], 20);
    HoldsForThree(ts, c);
    FilterKeepsAll(ts, c);
    DatedWithinParse(ts, c);
  }

  /** Records that pass a date test all have dates that parse. */
  lemma DatedWithinParse(ts: seq<Transaction>, c: Criterion)
    requires c.DateWithin? && forall i :: 0 <= i < |ts| ==> Holds(c, ts[i])
    ensures AllDatesParse(ts)
  {
    forall t | t in ts
      ensures Parse(t.date).Some?
    {
      var i :| 0 <= i < |ts| && ts[i] == t;
      assert Holds(c, ts[i]);
    }
  }

  /** The income total of the January records. */
  lemma JanuaryIncome(ts: seq<Transaction>)
    requires JanuaryRecords(ts)
    ensures TotalOfKind(ts, Income) == 600000
  {
    FilterThree(ts, KindIs(Income));
    assert Filter(ts, KindIs(Income)) == [ts[0], ts[2]];
    assert [ts[0], ts[2]][..1] == [ts[0]];
    assert SumAmounts([ts[0]]) == 500000 by { assert [ts[0]][..0] == []; }
  }

  /** The expense total of the January records. */
  lemma JanuaryExpense(ts: seq<Transaction>)
    requires JanuaryRecords(ts)
    ensures TotalOfKind(ts, Expense) == 30000
  {
    assert Income != Expense by { assert Income[0] != Expense[0]; }
    FilterThree(ts, KindIs(Expense));
    assert Filter(ts, KindIs(Expense)) == [ts[1]];
    assert SumAmounts([ts[1]]) == 30000 by { assert [ts[1]][..0] == []; }
  }

  /** The walk-through: 6000.00 income, 300.00 expense and 5700.00 net for January. */
  method JanuaryTotals() returns (income: int, expense: int, net: int)
    ensures income == 600000 && expense == 30000 && net == 570000
  {
    var service := JanuaryService();
    var stats := new StatisticsService(service);
    JanuaryBounds();
    JanuaryDates(service.transactions);
    JanuaryInRange(service.transactions, "2024-01-01", "2024-01-31");
    JanuaryIncome(service.transactions);
    JanuaryExpense(service.transactions);
    income := stats.CalculateTotalIncome("2024-01-01", "2024-01-31");
    expense := stats.CalculateTotalExpense("2024-01-01", "2024-01-31");
    net := stats.CalculateNetBalance("2024-01-01", "2024-01-31");
  }
}
