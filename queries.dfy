/** The read side of TransactionService: the inclusive date-range query and the multi-filter search,
    both order-preserving filters of the transaction list. */
module Queries {
  import opened Wrappers
  import opened Text
  import opened Dates
  import opened Transactions
  import opened Subsequences

  /** One test a list comprehension of the source applies to each record. */
  datatype Criterion =
    | KeywordIn(keyword: string)
    | KindIs(kind: string)
    | CategoryIs(category: string)
    | DateWithin(start: Date, end: Date)
    | AmountAtLeast(min: int)
    | AmountAtMost(max: int)

  /** `keyword.lower() in t.note.lower() or keyword.lower() in t.category.lower() or keyword in str(t.amount)`. */
  predicate KeywordMatches(keyword: string, t: Transaction) {
    Contains(Lower(t.note), Lower(keyword)) || Contains(Lower(t.category), Lower(keyword)) ||
    Contains(AmountText(t.amount), keyword)
  }

  /** The keyword test ignores the keyword's case: the note and category tests lower it anyway,
      and the decimal text of an amount has no letter for either spelling to match. */
  lemma KeywordCaseInsensitive(keyword: string, t: Transaction)
    ensures KeywordMatches(Lower(keyword), t) <==> KeywordMatches(keyword, t)
  {
    LowerIdempotent(keyword);
    if Lower(keyword) != keyword {
      var j := LowerChanges(keyword);
      var amount := AmountText(t.amount);
      AmountValueNumeric(amount);
      AbsentCharNoMatch(amount, keyword, j);
      AbsentCharNoMatch(amount, Lower(keyword), j);
    }
  }

  /** `start <= strptime(t.date) <= end`; a date that does not parse never qualifies (the callers
      apply this only to lists whose dates all parse). */
  predicate InDateRange(start: Date, end: Date, t: Transaction) {
    match Parse(t.date)
    case None => false
    case Some(d) => Le(start, d) && Le(d, end)
  }

  predicate Holds(c: Criterion, t: Transaction) {
    match c
    case KeywordIn(k) => KeywordMatches(k, t)
    case KindIs(k) => t.kind == k
    case CategoryIs(cat) => t.category == cat
    case DateWithin(s, e) => InDateRange(s, e, t)
    case AmountAtLeast(m) => t.amount >= m
    case AmountAtMost(m) => t.amount <= m
  }

  /** `[t for t in ts if c(t)]`: the records that pass c, in their original order. */
  function Filter(ts: seq<Transaction>, c: Criterion): (r: seq<Transaction>)
    ensures |r| <= |ts|
    ensures forall t :: t in r <==> t in ts && Holds(c, t)
    ensures SubseqOf(r, ts)
  {
    if ts == [] then []
    else
      var p := ts[..|ts| - 1];
      var last := ts[|ts| - 1];
      FrontLast(ts);
      var f := Filter(p, c);
      var r := f + (if Holds(c, last) then [last] else []);
      assert Holds(c, last) ==> r[..|r| - 1] == f && r[|r| - 1] == last;
      assert !Holds(c, last) ==> r == f;
      r
  }

  /** Filter keeps every copy of a record that passes and no copy of one that fails. */
  lemma {:induction false} FilterCounts(ts: seq<Transaction>, c: Criterion)
    ensures forall t :: multiset(Filter(ts, c))[t] == if Holds(c, t) then multiset(ts)[t] else 0
    decreases |ts|
  {
    if ts != [] {
      var p, last := ts[..|ts| - 1], ts[|ts| - 1];
      FrontLast(ts);
      FilterCounts(p, c);
    }
  }

  /** Filter, one record at a time from the end (the shape of the source's loops). */
  lemma FilterLast(ts: seq<Transaction>, c: Criterion)
    requires ts != []
    ensures Filter(ts, c) == Filter(ts[..|ts| - 1], c) + (if Holds(c, ts[|ts| - 1]) then [ts[|ts| - 1]] else [])
  {
  }

  /** A filter every record passes keeps the whole list. */
  lemma {:induction false} FilterKeepsAll(ts: seq<Transaction>, c: Criterion)
    requires forall i :: 0 <= i < |ts| ==> Holds(c, ts[i])
    ensures Filter(ts, c) == ts
    decreases |ts|
  {
    if ts != [] {
      var p, last := ts[..|ts| - 1], ts[|ts| - 1];
      forall i | 0 <= i < |p|
        ensures Holds(c, p[i])
      {
        assert p[i] == ts[i];
      }
      FilterKeepsAll(p, c);
      FilterLast(ts, c);
      assert Holds(c, last);
      FrontLast(ts);
    }
  }

  /** Every stored date goes through strptime without raising. */
  predicate AllDatesParse(ts: seq<Transaction>) {
    forall t :: t in ts ==> Parse(t.date).Some?
  }

  /** get_transactions_by_date_range: the records whose date lies between the two bounds, both
      inclusive, in list order. A bound that does not parse, or any stored date that does not
      parse, makes the whole query return the empty list, since one try block wraps the loop. */
  function ByDateRange(ts: seq<Transaction>, startDate: string, endDate: string): (r: seq<Transaction>)
    ensures SubseqOf(r, ts)
    ensures Parse(startDate).None? || Parse(endDate).None? || !AllDatesParse(ts) ==> r == []
    ensures Parse(startDate).Some? && Parse(endDate).Some? && AllDatesParse(ts) ==>
              forall t :: multiset(r)[t] ==
                if InDateRange(Parse(startDate).value, Parse(endDate).value, t) then multiset(ts)[t] else 0
  {
    match (Parse(startDate), Parse(endDate))
    case (Some(s), Some(e)) =>
      if AllDatesParse(ts) then
        FilterCounts(ts, DateWithin(s, e));
        Filter(ts, DateWithin(s, e))
      else
        SubseqRefl<Transaction>([]);
        []
    case _ =>
      SubseqRefl<Transaction>([]);
      []
  }

  /** The arguments of search_transactions; "" and None mean "no filter". Amounts are in cents. */
  datatype Query = Query(keyword: string, kind: string, category: string, startDate: string, endDate: string,
                         minAmount: Option<int>, maxAmount: Option<int>)

  /** The keyword, type and category stages, each applied only when its argument is non-empty. */
  function Prefiltered(ts: seq<Transaction>, q: Query): (r: seq<Transaction>)
    ensures SubseqOf(r, ts)
    ensures forall t :: multiset(r)[t] ==
              if (q.keyword != "" ==> KeywordMatches(q.keyword, t)) &&
                 (q.kind != "" ==> t.kind == q.kind) && (q.category != "" ==> t.category == q.category)
              then multiset(ts)[t] else 0
  {
    var byKeyword := if q.keyword != "" then Filter(ts, KeywordIn(q.keyword)) else ts;
    var byKind := if q.kind != "" then Filter(byKeyword, KindIs(q.kind)) else byKeyword;
    var r := if q.category != "" then Filter(byKind, CategoryIs(q.category)) else byKind;
    FilterCounts(ts, KeywordIn(q.keyword));
    FilterCounts(byKeyword, KindIs(q.kind));
    FilterCounts(byKind, CategoryIs(q.category));
    SubseqRefl(ts);
    SubseqRefl(byKeyword);
    SubseqRefl(byKind);
    SubseqTrans(byKind, byKeyword, ts);
    SubseqTrans(r, byKind, ts);
    r
  }

  /** The date bounds when both are given and both parse. */
  function DateBounds(q: Query): Option<(Date, Date)> {
    if q.startDate != "" && q.endDate != "" then
      match (Parse(q.startDate), Parse(q.endDate))
      case (Some(s), Some(e)) => Some((s, e))
      case _ => None
    else None
  }

  /** The date stage takes effect only when both bounds parse and so does every date still in the
      list; otherwise its ValueError is swallowed and the list is passed on unchanged. */
  predicate DateStageApplies(pre: seq<Transaction>, q: Query) {
    DateBounds(q).Some? && AllDatesParse(pre)
  }

  function DateStage(pre: seq<Transaction>, q: Query): (r: seq<Transaction>)
    ensures SubseqOf(r, pre)
    ensures forall t :: multiset(r)[t] ==
              if DateStageApplies(pre, q) ==> InDateRange(DateBounds(q).value.0, DateBounds(q).value.1, t)
              then multiset(pre)[t] else 0
  {
    if DateStageApplies(pre, q) then
      FilterCounts(pre, DateWithin(DateBounds(q).value.0, DateBounds(q).value.1));
      Filter(pre, DateWithin(DateBounds(q).value.0, DateBounds(q).value.1))
    else
      SubseqRefl(pre);
      pre
  }

  /** `[t for t in results if t.amount >= min_amount]`, applied only when a minimum is given. */
  function MinStage(xs: seq<Transaction>, min: Option<int>): (r: seq<Transaction>)
    ensures SubseqOf(r, xs)
    ensures forall t :: multiset(r)[t] == if min.Some? ==> t.amount >= min.value then multiset(xs)[t] else 0
  {
    if min.Some? then
      FilterCounts(xs, AmountAtLeast(min.value));
      Filter(xs, AmountAtLeast(min.value))
    else
      SubseqRefl(xs);
      xs
  }

  /** `[t for t in results if t.amount <= max_amount]`, applied only when a maximum is given. */
  function MaxStage(xs: seq<Transaction>, max: Option<int>): (r: seq<Transaction>)
    ensures SubseqOf(r, xs)
    ensures forall t :: multiset(r)[t] == if max.Some? ==> t.amount <= max.value then multiset(xs)[t] else 0
  {
    if max.Some? then
      FilterCounts(xs, AmountAtMost(max.value));
      Filter(xs, AmountAtMost(max.value))
    else
      SubseqRefl(xs);
      xs
  }

  /** The two amount stages, each applied only when its bound is given. */
  function AmountStage(xs: seq<Transaction>, q: Query): (r: seq<Transaction>)
    ensures SubseqOf(r, xs)
    ensures forall t :: multiset(r)[t] ==
              if (q.minAmount.Some? ==> t.amount >= q.minAmount.value) &&
                 (q.maxAmount.Some? ==> t.amount <= q.maxAmount.value)
              then multiset(xs)[t] else 0
  {
    var byMin := MinStage(xs, q.minAmount);
    var r := MaxStage(byMin, q.maxAmount);
    SubseqTrans(r, byMin, xs);
    r
  }

  /** A record passes every filter the query switches on. */
  predicate Matches(ts: seq<Transaction>, q: Query, t: Transaction) {
    && (q.keyword != "" ==> KeywordMatches(q.keyword, t))
    && (q.kind != "" ==> t.kind == q.kind)
    && (q.category != "" ==> t.category == q.category)
    && (DateStageApplies(Prefiltered(ts, q), q) ==> InDateRange(DateBounds(q).value.0, DateBounds(q).value.1, t))
    && (q.minAmount.Some? ==> t.amount >= q.minAmount.value)
    && (q.maxAmount.Some? ==> t.amount <= q.maxAmount.value)
  }

  /** search_transactions: the chain of list comprehensions, in the source's order. It returns, in
      list order, every copy of exactly the records that pass every active filter: the filters are
      combined with AND. */
  function Search(ts: seq<Transaction>, q: Query): (r: seq<Transaction>)
    ensures SubseqOf(r, ts)
    ensures forall t :: multiset(r)[t] == if Matches(ts, q, t) then multiset(ts)[t] else 0
  {
    var pre := Prefiltered(ts, q);
    var dated := DateStage(pre, q);
    var r := AmountStage(dated, q);
    SubseqTrans(dated, pre, ts);
    SubseqTrans(r, dated, ts);
    r
  }

  /** The same search with only one of its filters kept. */
  function KeywordOnly(q: Query): Query { Query(q.keyword, "", "", "", "", None, None) }
  function KindOnly(q: Query): Query { Query("", q.kind, "", "", "", None, None) }
  function CategoryOnly(q: Query): Query { Query("", "", q.category, "", "", None, None) }
  function DatesOnly(q: Query): Query { Query("", "", "", q.startDate, q.endDate, None, None) }
  function MinOnly(q: Query): Query { Query("", "", "", "", "", q.minAmount, None) }
  function MaxOnly(q: Query): Query { Query("", "", "", "", "", None, q.maxAmount) }

  /** Each single-filter search keeps exactly the records that pass its one filter. */
  lemma KeywordOnlySearch(ts: seq<Transaction>, q: Query)
    ensures forall t :: t in Search(ts, KeywordOnly(q)) <==> t in ts && (q.keyword != "" ==> KeywordMatches(q.keyword, t))
  {
  }

  lemma KindOnlySearch(ts: seq<Transaction>, q: Query)
    ensures forall t :: t in Search(ts, KindOnly(q)) <==> t in ts && (q.kind != "" ==> t.kind == q.kind)
  {
  }

  lemma CategoryOnlySearch(ts: seq<Transaction>, q: Query)
    ensures forall t :: t in Search(ts, CategoryOnly(q)) <==> t in ts && (q.category != "" ==> t.category == q.category)
  {
  }

  lemma DatesOnlySearch(ts: seq<Transaction>, q: Query)
    requires AllDatesParse(ts)
    ensures forall t :: t in Search(ts, DatesOnly(q)) <==>
              t in ts && (DateBounds(q).Some? ==> InDateRange(DateBounds(q).value.0, DateBounds(q).value.1, t))
  {
    assert Prefiltered(ts, DatesOnly(q)) == ts;
    assert DateBounds(DatesOnly(q)) == DateBounds(q);
  }

  lemma MinOnlySearch(ts: seq<Transaction>, q: Query)
    ensures forall t :: t in Search(ts, MinOnly(q)) <==> t in ts && (q.minAmount.Some? ==> t.amount >= q.minAmount.value)
  {
  }

  lemma MaxOnlySearch(ts: seq<Transaction>, q: Query)
    ensures forall t :: t in Search(ts, MaxOnly(q)) <==> t in ts && (q.maxAmount.Some? ==> t.amount <= q.maxAmount.value)
  {
  }

  /** When every stored date parses, a combined search returns the records found by each of its
      single-filter searches. (Otherwise the date filter of a single-filter search can be skipped
      where the combined one applies, because the skip depends on the dates still in the list.) */
  lemma SearchIsIntersection(ts: seq<Transaction>, q: Query)
    requires AllDatesParse(ts)
    ensures forall t :: t in Search(ts, q) <==>
              t in Search(ts, KeywordOnly(q)) && t in Search(ts, KindOnly(q)) && t in Search(ts, CategoryOnly(q)) &&
              t in Search(ts, DatesOnly(q)) && t in Search(ts, MinOnly(q)) && t in Search(ts, MaxOnly(q))
  {
    assert AllDatesParse(Prefiltered(ts, q));
    forall t ensures t in Search(ts, q) <==> t in ts && Matches(ts, q, t) {
      assert t in Search(ts, q) <==> multiset(Search(ts, q))[t] > 0;
    }
    KeywordOnlySearch(ts, q);
    KindOnlySearch(ts, q);
    CategoryOnlySearch(ts, q);
    DatesOnlySearch(ts, q);
    MinOnlySearch(ts, q);
    MaxOnlySearch(ts, q);
  }
}
