/** The service classes of the ledger: CategoryService, TransactionService and StatisticsService.
    Their state is updated in place, as in the source; what they compute is stated with the
    functions of Transactions, Ledger, Queries and Statistics. Saving to disk is a side effect with
    no bearing on the in-memory state and is not modelled; loading takes the stored data as a
    constructor argument. */
module FinanceApp {
  import opened Wrappers
  import opened Transactions
  import opened Ledger
  import opened Queries
  import opened Statistics
  import opened Subsequences

  const DefaultIncomeCategories: seq<string> := ["工资", "奖金", "投资", "其他收入"]
  const DefaultExpenseCategories: seq<string> :=
    ["餐饮", "交通", "购物", "娱乐", "住房", "医疗", "教育", "其他支出"]

  /** `default_categories.get(kind, [])`. */
  function DefaultCategories(kind: string): seq<string> {
    if kind == Income then DefaultIncomeCategories
    else if kind == Expense then DefaultExpenseCategories
    else []
  }

  predicate NoDuplicates(s: seq<string>) {
    forall i, j :: 0 <= i < j < |s| ==> s[i] != s[j]
  }

  /** The outcome of a call that either returns a value or lets a KeyError escape. */
  datatype Raising<T> = Returns(value: T) | RaisesKeyError

  class CategoryService {
    /** `user_categories`: the user's additions, one list per transaction type. */
    var userCategories: map<string, seq<string>>

    ghost predicate Valid()
      reads this
    {
      userCategories.Keys == {Income, Expense}
    }

    /** `stored` holds the lists read from the categories file (an empty map when there is none). */
    constructor (stored: map<string, seq<string>>)
      ensures Valid()
      ensures userCategories[Income] == (if Income in stored then stored[Income] else [])
      ensures userCategories[Expense] == (if Expense in stored then stored[Expense] else [])
    {
      userCategories := map[Income := if Income in stored then stored[Income] else [],
                            Expense := if Expense in stored then stored[Expense] else []];
    }

    function UserCategories(kind: string): seq<string>
      reads this
    {
      if kind in userCategories then userCategories[kind] else []
    }

    /** get_categories_by_type: the defaults of the type first, then the user's additions in the
        order they were added; an unknown type has neither. */
    function GetCategoriesByType(kind: string): (r: seq<string>)
      reads this
      ensures |r| == |DefaultCategories(kind)| + |UserCategories(kind)|
      ensures r[..|DefaultCategories(kind)|] == DefaultCategories(kind)
      ensures r[|DefaultCategories(kind)|..] == UserCategories(kind)
    {
      DefaultCategories(kind) + UserCategories(kind)
    }

    /** add_user_category: appends a non-empty category that the type's user list does not hold
        yet and returns true; otherwise returns false and changes nothing. The empty category is
        refused before the list is looked up, so only a non-empty category for a type without a
        user list raises KeyError. */
    method AddUserCategory(kind: string, category: string) returns (r: Raising<bool>)
      requires Valid()
      modifies this
      ensures category == "" ==> r == Returns(false)
      ensures category != "" && kind !in old(userCategories) ==> r == RaisesKeyError
      ensures kind in old(userCategories) ==>
                r == Returns(category != "" && category !in old(userCategories[kind]))
      ensures kind == Income || kind == Expense ==> r.Returns?
      ensures userCategories ==
                if r == Returns(true) then old(userCategories)[kind := old(userCategories[kind]) + [category]]
                else old(userCategories)
      ensures Valid()
      ensures GetCategoriesByType(kind) ==
                old(GetCategoriesByType(kind)) + (if r == Returns(true) then [category] else [])
      ensures kind in userCategories && NoDuplicates(old(userCategories[kind])) ==>
                NoDuplicates(userCategories[kind])
    {
      if category == "" {
        return Returns(false);
      }
      if kind !in userCategories {
        return RaisesKeyError;
      }
      if category !in userCategories[kind] {
        var before := userCategories[kind];
        userCategories := userCategories[kind := before + [category]];
        assert UserCategories(kind) == before + [category];
        assert forall i :: 0 <= i < |before| ==> UserCategories(kind)[i] == before[i];
        return Returns(true);
      }
      return Returns(false);
    }
  }

  class TransactionService {
    /** `self.transactions`, in insertion order. */
    var transactions: seq<Transaction>

    /** `stored` is what the data file held (None when it is missing or unreadable); a record
        that from_dict rejects leaves the list empty. */
    constructor (stored: Option<seq<Record>>)
      ensures transactions == Restore(stored)
    {
      transactions := Restore(stored);
    }

    /** What save_transactions writes; loading it back gives the same list. */
    function Snapshot(): (rs: seq<Record>)
      reads this
      ensures |rs| == |transactions|
      ensures LoadAll(rs) == Some(transactions)
    {
      LoadSaveRoundTrip(transactions);
      SaveAll(transactions)
    }

    /** create_transaction: appends one record whose id comes from the current length, with the
        given fields unchecked, and returns true. Earlier records are untouched. */
    method CreateTransaction(amount: int, kind: string, category: string, date: string, note: string)
      returns (ok: bool)
      modifies this
      ensures ok
      ensures transactions ==
                old(transactions) + [Transaction(IdFor(|old(transactions)| + 1), amount, kind, category, date, note)]
    {
      var id := IdFor(|transactions| + 1);
      transactions := transactions + [Transaction(id, amount, kind, category, date, note)];
      ok := true;
    }

    /** update_transaction: scans for the first record with the id and overwrites its five other
        fields in place; returns whether it found one. */
    method UpdateTransaction(id: string, amount: int, kind: string, category: string, date: string, note: string)
      returns (ok: bool)
      modifies this
      ensures ok == HasId(old(transactions), id)
      ensures transactions == UpdatedFirst(old(transactions), id, amount, kind, category, date, note)
    {
      var i := 0;
      while i < |transactions|
        invariant 0 <= i <= |transactions|
        invariant transactions == old(transactions)
        invariant forall k :: 0 <= k < i ==> transactions[k].id != id
      {
        if transactions[i].id == id {
          transactions := transactions[i := transactions[i].(amount := amount, kind := kind, category := category,
                                                             date := date, note := note)];
          return true;
        }
        i := i + 1;
      }
      return false;
    }

    /** delete_transaction: scans for the first record with the id and removes it; returns
        whether it found one. */
    method DeleteTransaction(id: string) returns (ok: bool)
      modifies this
      ensures ok == HasId(old(transactions), id)
      ensures transactions == DeletedFirst(old(transactions), id)
    {
      var i := 0;
      while i < |transactions|
        invariant 0 <= i <= |transactions|
        invariant transactions == old(transactions)
        invariant forall k :: 0 <= k < i ==> transactions[k].id != id
      {
        if transactions[i].id == id {
          transactions := transactions[..i] + transactions[i + 1..];
          return true;
        }
        i := i + 1;
      }
      return false;
    }

    /** get_transaction_by_id: the first record with the id, or None. */
    method GetTransactionById(id: string) returns (r: Option<Transaction>)
      ensures r == FindById(transactions, id)
    {
      var i := 0;
      while i < |transactions|
        invariant 0 <= i <= |transactions|
        invariant forall k :: 0 <= k < i ==> transactions[k].id != id
      {
        if transactions[i].id == id {
          return Some(transactions[i]);
        }
        i := i + 1;
      }
      return None;
    }

    /** get_transactions_by_date_range: parses both bounds, then walks the list appending every
        record dated between them; any date that fails to parse ends the call with []. */
    method GetTransactionsByDateRange(startDate: string, endDate: string) returns (r: seq<Transaction>)
      ensures r == ByDateRange(transactions, startDate, endDate)
    {
      var start := Dates.Parse(startDate);
      var end := Dates.Parse(endDate);
      if start.None? || end.None? {
        return [];
      }
      var filtered := [];
      var i := 0;
      while i < |transactions|
        invariant 0 <= i <= |transactions|
        invariant AllDatesParse(transactions[..i])
        invariant filtered == Filter(transactions[..i], DateWithin(start.value, end.value))
      {
        var d := Dates.Parse(transactions[i].date);
        if d.None? {
          return [];
        }
        if Dates.Le(start.value, d.value) && Dates.Le(d.value, end.value) {
          filtered := filtered + [transactions[i]];
        }
        assert transactions[..i + 1][..i] == transactions[..i];
        i := i + 1;
      }
      assert transactions[..i] == transactions;
      return filtered;
    }

    /** search_transactions: the records, in list order, that pass every filter the arguments
        switch on, each kept as often as it occurs (see Queries.Search). */
    function SearchTransactions(keyword: string, kind: string, category: string, startDate: string, endDate: string,
                                minAmount: Option<int>, maxAmount: Option<int>): (r: seq<Transaction>)
      reads this
      ensures r == Search(transactions, Query(keyword, kind, category, startDate, endDate, minAmount, maxAmount))
      ensures SubseqOf(r, transactions)
      ensures forall t :: multiset(r)[t] ==
                if Matches(transactions, Query(keyword, kind, category, startDate, endDate, minAmount, maxAmount), t)
                then multiset(transactions)[t] else 0
    {
      Search(transactions, Query(keyword, kind, category, startDate, endDate, minAmount, maxAmount))
    }
  }

  /** The "总计" key of get_transaction_count_by_type. */
  const TotalKey: string := "总计"

  class StatisticsService {
    const transactionService: TransactionService

    constructor (transactionService: TransactionService)
      ensures this.transactionService == transactionService
    {
      this.transactionService := transactionService;
    }

    /** The records every statistic starts from: get_transactions_by_date_range over the
        service's list, so a sub-list of it. */
    function InRange(startDate: string, endDate: string): (r: seq<Transaction>)
      reads transactionService
      ensures SubseqOf(r, transactionService.transactions)
      ensures r == ByDateRange(transactionService.transactions, startDate, endDate)
    {
      ByDateRange(transactionService.transactions, startDate, endDate)
    }

    /** calculate_total_income: the sum of the income amounts in the range; 0 when the range has
        no income record. */
    function CalculateTotalIncome(startDate: string, endDate: string): (r: int)
      reads transactionService
      ensures r == SumAmounts(Filter(InRange(startDate, endDate), KindIs(Income)))
      ensures (forall t :: t in InRange(startDate, endDate) ==> t.kind != Income) ==> r == 0
      ensures (forall t :: t in InRange(startDate, endDate) && t.kind == Income ==> t.amount >= 0) ==> r >= 0
    {
      TotalOfKind(InRange(startDate, endDate), Income)
    }

    /** calculate_total_expense: the sum of the expense amounts in the range; 0 when the range
        has no expense record. */
    function CalculateTotalExpense(startDate: string, endDate: string): (r: int)
      reads transactionService
      ensures r == SumAmounts(Filter(InRange(startDate, endDate), KindIs(Expense)))
      ensures (forall t :: t in InRange(startDate, endDate) ==> t.kind != Expense) ==> r == 0
      ensures (forall t :: t in InRange(startDate, endDate) && t.kind == Expense ==> t.amount >= 0) ==> r >= 0
    {
      TotalOfKind(InRange(startDate, endDate), Expense)
    }

    /** calculate_net_balance: income minus expense, which is the sum over the range of every
        income amount taken positively and every expense amount taken negatively. */
    function CalculateNetBalance(startDate: string, endDate: string): (r: int)
      reads transactionService
      ensures r == SignedSum(InRange(startDate, endDate))
    {
      NetIsSignedSum(InRange(startDate, endDate));
      CalculateTotalIncome(startDate, endDate) - CalculateTotalExpense(startDate, endDate)
    }

    /** The loop shared by the two category-stats methods: the records of one kind in the range,
        summed per category into a fresh dictionary. */
    method CategoryStats(startDate: string, endDate: string, kind: string) returns (stats: map<string, int>)
      ensures stats == CategoryTotals(Filter(InRange(startDate, endDate), KindIs(kind)))
      ensures forall c :: c in stats <==> exists t :: t in InRange(startDate, endDate) && t.kind == kind && t.category == c
      ensures MapSum(stats) == TotalOfKind(InRange(startDate, endDate), kind)
    {
      var ts := transactionService.GetTransactionsByDateRange(startDate, endDate);
      var ofKind := Filter(ts, KindIs(kind));
      stats := SumByCategory(ofKind);
      CategoryTotalsOfKindKeys(ts, kind);
      CategoryTotalsSum(ofKind);
    }

    /** The dictionary loop: a category seen before gets the amount added, a new one starts at it. */
    static method SumByCategory(ts: seq<Transaction>) returns (stats: map<string, int>)
      ensures stats == CategoryTotals(ts)
    {
      stats := map[];
      var i := 0;
      while i < |ts|
        invariant 0 <= i <= |ts|
        invariant stats == CategoryTotals(ts[..i])
      {
        var t := ts[i];
        assert ts[..i + 1][..i] == ts[..i];
        if t.category in stats {
          stats := stats[t.category := stats[t.category] + t.amount];
        } else {
          stats := stats[t.category := t.amount];
        }
        i := i + 1;
      }
      assert ts[..i] == ts;
    }

    /** get_income_category_stats: its values add up to calculate_total_income over the same range. */
    method GetIncomeCategoryStats(startDate: string, endDate: string) returns (stats: map<string, int>)
      ensures stats == CategoryTotals(Filter(InRange(startDate, endDate), KindIs(Income)))
      ensures MapSum(stats) == CalculateTotalIncome(startDate, endDate)
    {
      stats := CategoryStats(startDate, endDate, Income);
    }

    /** get_expense_category_stats: its values add up to calculate_total_expense over the same range. */
    method GetExpenseCategoryStats(startDate: string, endDate: string) returns (stats: map<string, int>)
      ensures stats == CategoryTotals(Filter(InRange(startDate, endDate), KindIs(Expense)))
      ensures MapSum(stats) == CalculateTotalExpense(startDate, endDate)
    {
      stats := CategoryStats(startDate, endDate, Expense);
    }

    /** get_transaction_count_by_type: the number of income and of expense records in the range
        and the number of all of them; the first two never exceed the "总计" total, and add up to
        it when every record in the range is one of the two types. */
    function GetTransactionCountByType(startDate: string, endDate: string): (r: map<string, int>)
      reads transactionService
      ensures r.Keys == {Income, Expense, TotalKey}
      ensures r[Income] == |Filter(InRange(startDate, endDate), KindIs(Income))|
      ensures r[Expense] == |Filter(InRange(startDate, endDate), KindIs(Expense))|
      ensures r[TotalKey] == |InRange(startDate, endDate)|
      ensures r[Income] + r[Expense] <= r[TotalKey]
      ensures (forall t :: t in InRange(startDate, endDate) ==> t.kind == Income || t.kind == Expense) ==>
                r[Income] + r[Expense] == r[TotalKey]
    {
      var ts := InRange(startDate, endDate);
      KindCounts(ts);
      map[Income := |Filter(ts, KindIs(Income))|, Expense := |Filter(ts, KindIs(Expense))|, TotalKey := |ts|]
    }
  }
}
