/** The sums and counts StatisticsService computes over a list of transactions, and how they
    relate: net balance against totals, per-category sums against the kind total, counts by kind
    against the list length. */
module Statistics {
  import opened Transactions
  import opened Queries
  import opened Subsequences

  /** `sum(t.amount for t in ts)`, exact in cents: never negative when no amount is, and 0 for a
      list without records. */
  function SumAmounts(ts: seq<Transaction>): (r: int)
    ensures ts == [] ==> r == 0
    ensures (forall t :: t in ts ==> t.amount >= 0) ==> r >= 0
  {
    if ts == [] then 0
    else
      var p := ts[..|ts| - 1];
      assert forall t :: t in p ==> t in ts;
      SumAmounts(p) + ts[|ts| - 1].amount
  }

  /** The total of one kind: `sum(t.amount for t in ts if t.type == kind)`; 0 when no record has
      the kind, never negative when no record of the kind has a negative amount. */
  function TotalOfKind(ts: seq<Transaction>, kind: string): (r: int)
    ensures r == SumAmounts(Filter(ts, KindIs(kind)))
    ensures (forall t :: t in ts ==> t.kind != kind) ==> r == 0
    ensures (forall t :: t in ts && t.kind == kind ==> t.amount >= 0) ==> r >= 0
  {
    var f := Filter(ts, KindIs(kind));
    assert f != [] ==> f[0] in f;
    SumAmounts(f)
  }

  /** The amount a record adds to the balance: plus for income, minus for expense, nothing for a
      record of any other type. */
  function SignedAmount(t: Transaction): int {
    if t.kind == Income then t.amount else if t.kind == Expense then -t.amount else 0
  }

  function SignedSum(ts: seq<Transaction>): int {
    if ts == [] then 0 else SignedSum(ts[..|ts| - 1]) + SignedAmount(ts[|ts| - 1])
  }

  lemma SumAppend(ts: seq<Transaction>, t: Transaction)
    ensures SumAmounts(ts + [t]) == SumAmounts(ts) + t.amount
  {
    assert (ts + [t])[..|ts|] == ts;
  }

  /** One record more adds its amount to the total of its own kind and nothing to any other. */
  lemma TotalOfKindStep(ts: seq<Transaction>, kind: string)
    requires ts != []
    ensures TotalOfKind(ts, kind) ==
            TotalOfKind(ts[..|ts| - 1], kind) + (if ts[|ts| - 1].kind == kind then ts[|ts| - 1].amount else 0)
  {
    var p, last := ts[..|ts| - 1], ts[|ts| - 1];
    FilterLast(ts, KindIs(kind));
    if last.kind == kind {
      SumAppend(Filter(p, KindIs(kind)), last);
    } else {
      assert Filter(ts, KindIs(kind)) == Filter(p, KindIs(kind));
    }
  }

  /** Net balance (income total minus expense total) is the sum of the signed amounts. */
  lemma {:induction false} NetIsSignedSum(ts: seq<Transaction>)
    ensures TotalOfKind(ts, Income) - TotalOfKind(ts, Expense) == SignedSum(ts)
    decreases |ts|
  {
    if ts != [] {
      NetIsSignedSum(ts[..|ts| - 1]);
      TotalOfKindStep(ts, Income);
      TotalOfKindStep(ts, Expense);
    }
  }

  /** The dictionary the category-stats loop builds: for each record in order, add its amount to
      its category's entry, creating the entry with that amount the first time. Every category of
      the list gets an entry. */
  function CategoryTotals(ts: seq<Transaction>): (r: map<string, int>)
    ensures forall i :: 0 <= i < |ts| ==> ts[i].category in r
  {
    if ts == [] then map[]
    else
      var p := ts[..|ts| - 1];
      var m := CategoryTotals(p);
      var t := ts[|ts| - 1];
      assert forall i :: 0 <= i < |p| ==> p[i] == ts[i];
      if t.category in m then m[t.category := m[t.category] + t.amount] else m[t.category := t.amount]
  }

  /** The keys are exactly the categories that occur in the list. */
  lemma {:induction false} CategoryTotalsKeys(ts: seq<Transaction>)
    ensures forall c :: c in CategoryTotals(ts) <==> exists t :: t in ts && t.category == c
    decreases |ts|
  {
    if ts != [] {
      var p, last := ts[..|ts| - 1], ts[|ts| - 1];
      CategoryTotalsKeys(p);
      FrontLast(ts);
    }
  }

  /** The categories of the per-kind dictionary are those of the records of that kind. */
  lemma CategoryTotalsOfKindKeys(ts: seq<Transaction>, kind: string)
    ensures forall c :: c in CategoryTotals(Filter(ts, KindIs(kind))) <==>
              exists t :: t in ts && t.kind == kind && t.category == c
  {
    CategoryTotalsKeys(Filter(ts, KindIs(kind)));
  }

  /** Each value is the sum of the amounts of that category's records. */
  lemma {:induction false} CategoryTotalsValue(ts: seq<Transaction>, c: string)
    requires c in CategoryTotals(ts)
    ensures CategoryTotals(ts)[c] == SumAmounts(Filter(ts, CategoryIs(c)))
    decreases |ts|
  {
    var p, last := ts[..|ts| - 1], ts[|ts| - 1];
    var m := CategoryTotals(p);
    FilterLast(ts, CategoryIs(c));
    if c == last.category {
      SumAppend(Filter(p, CategoryIs(c)), last);
      if c in m {
        CategoryTotalsValue(p, c);
      } else {
        NoCategoryNoRecords(p, c);
      }
    } else {
      assert Filter(ts, CategoryIs(c)) == Filter(p, CategoryIs(c));
      CategoryTotalsValue(p, c);
    }
  }

  /** A category absent from the totals has no records. */
  lemma NoCategoryNoRecords(ts: seq<Transaction>, c: string)
    ensures c !in CategoryTotals(ts) ==> Filter(ts, CategoryIs(c)) == []
  {
    var f := Filter(ts, CategoryIs(c));
    if f != [] {
      assert f[0] in f;
      assert f[0] in ts && Holds(CategoryIs(c), f[0]);
      var i :| 0 <= i < |ts| && ts[i] == f[0];
      assert ts[i].category == c;
    }
  }

  /** The sum of all values of a dictionary (in whatever order its keys are taken). */
  ghost function MapSum(m: map<string, int>): int
    decreases |m|
  {
    if m == map[] then 0
    else
      var k :| k in m;
      assert |(m - {k}).Keys| < |m.Keys| by {
        assert (m - {k}).Keys == m.Keys - {k};
      }
      m[k] + MapSum(m - {k})
  }

  /** Any key may be taken first. */
  lemma {:induction false} MapSumRemove(m: map<string, int>, k: string)
    requires k in m
    ensures MapSum(m) == m[k] + MapSum(m - {k})
    decreases |m|
  {
    var j :| j in m && MapSum(m) == m[j] + MapSum(m - {j});
    if j != k {
      assert |(m - {j}).Keys| < |m.Keys| by {
        assert (m - {j}).Keys == m.Keys - {j};
      }
      assert |(m - {k}).Keys| < |m.Keys| by {
        assert (m - {k}).Keys == m.Keys - {k};
      }
      MapSumRemove(m - {j}, k);
      MapSumRemove(m - {k}, j);
      assert m - {j} - {k} == m - {k} - {j};
    }
  }

  /** Adding an amount to one entry (or creating it) adds that amount to the sum. */
  lemma MapSumAdd(m: map<string, int>, k: string, a: int)
    ensures MapSum(m[k := (if k in m then m[k] else 0) + a]) == MapSum(m) + a
  {
    var m' := m[k := (if k in m then m[k] else 0) + a];
    MapSumRemove(m', k);
    if k in m {
      MapSumRemove(m, k);
      assert m' - {k} == m - {k};
    } else {
      assert m' - {k} == m;
    }
  }

  /** The per-category values add up to the total of the list. */
  lemma {:induction false} CategoryTotalsSum(ts: seq<Transaction>)
    ensures MapSum(CategoryTotals(ts)) == SumAmounts(ts)
    decreases |ts|
  {
    if ts != [] {
      var p, last := ts[..|ts| - 1], ts[|ts| - 1];
      CategoryTotalsSum(p);
      var m := CategoryTotals(p);
      MapSumAdd(m, last.category, last.amount);
      assert CategoryTotals(ts) == m[last.category := (if last.category in m then m[last.category] else 0) + last.amount];
    }
  }

  /** Income and expense records are disjoint parts of the list, so their counts add up to at most
      its length, and to exactly its length when every record is one of the two. */
  lemma {:induction false} KindCounts(ts: seq<Transaction>)
    ensures |Filter(ts, KindIs(Income))| + |Filter(ts, KindIs(Expense))| <= |ts|
    ensures (forall t :: t in ts ==> t.kind == Income || t.kind == Expense) ==>
              |Filter(ts, KindIs(Income))| + |Filter(ts, KindIs(Expense))| == |ts|
    decreases |ts|
  {
    if ts != [] {
      var p := ts[..|ts| - 1];
      KindCounts(p);
      assert forall t :: t in p ==> t in ts;
    }
  }
}
