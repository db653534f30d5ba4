/** The list operations behind TransactionService's create, update, delete and get-by-id, as
    functions of the transaction list, with what they promise about ids. */
module Ledger {
  import opened Wrappers
  import opened Text
  import opened Transactions
  import opened Subsequences

  /** `f"T{n:06d}"`: the id create_transaction gives when the list holds n - 1 records. */
  function IdFor(n: nat): (id: string)
    ensures |id| >= 7 && id[0] == 'T'
  {
    "T" + ZeroPad(NatText(n), 6)
  }

  /** The digits after the "T" read back as n. */
  lemma IdForValue(n: nat)
    ensures AllDigits(IdFor(n)[1..]) && DigitsValue(IdFor(n)[1..]) == n
  {
    assert IdFor(n)[1..] == ZeroPad(NatText(n), 6);
  }

  /** Different list lengths give different ids. */
  lemma IdForInjective(a: nat, b: nat)
    requires a != b
    ensures IdFor(a) != IdFor(b)
  {
    IdForValue(a);
    IdForValue(b);
  }

  predicate HasId(ts: seq<Transaction>, id: string) {
    exists k :: 0 <= k < |ts| && ts[k].id == id
  }

  /** The position the linear scans stop at: the first record with this id. */
  function IndexOfId(ts: seq<Transaction>, id: string): (r: Option<nat>)
    ensures r.None? <==> !HasId(ts, id)
    ensures r.Some? ==> r.value < |ts| && ts[r.value].id == id
    ensures r.Some? ==> forall k :: 0 <= k < r.value ==> ts[k].id != id
  {
    if ts == [] then None
    else if ts[0].id == id then Some(0)
    else
      match IndexOfId(ts[1..], id)
      case None => None
      case Some(k) => Some(k + 1)
  }

  /** Two lists whose ids agree position by position have their first match at the same place. */
  lemma SameIdsSameIndex(ts: seq<Transaction>, us: seq<Transaction>, id: string)
    requires |ts| == |us| && forall k :: 0 <= k < |ts| ==> ts[k].id == us[k].id
    ensures IndexOfId(ts, id) == IndexOfId(us, id)
  {
  }

  /** get_transaction_by_id: the first record carrying the id, or None. */
  function FindById(ts: seq<Transaction>, id: string): (r: Option<Transaction>)
    ensures r.None? <==> !HasId(ts, id)
    ensures r.Some? ==> r.value.id == id && r.value in ts
    ensures r.Some? ==> exists i :: 0 <= i < |ts| && ts[i] == r.value && forall k :: 0 <= k < i ==> ts[k].id != id
  {
    match IndexOfId(ts, id)
    case None => None
    case Some(i) => Some(ts[i])
  }

  /** The list after update_transaction: the first record with the id gets the five new fields and
      keeps its id; every other record, the length and the order stay as they were. */
  function UpdatedFirst(ts: seq<Transaction>, id: string, amount: int, kind: string, category: string,
                        date: string, note: string): (r: seq<Transaction>)
    ensures |r| == |ts|
    ensures forall k :: 0 <= k < |ts| ==> r[k].id == ts[k].id
    ensures !HasId(ts, id) ==> r == ts
    ensures forall k :: 0 <= k < |ts| && IndexOfId(ts, id) != Some(k) ==> r[k] == ts[k]
    ensures HasId(ts, id) ==> FindById(r, id) == Some(Transaction(id, amount, kind, category, date, note))
  {
    match IndexOfId(ts, id)
    case None => ts
    case Some(i) =>
      var r := ts[i := ts[i].(amount := amount, kind := kind, category := category, date := date, note := note)];
      SameIdsSameIndex(ts, r, id);
      r
  }

  /** The list after delete_transaction: the first record with the id removed, the rest in order. */
  function DeletedFirst(ts: seq<Transaction>, id: string): (r: seq<Transaction>)
    ensures !HasId(ts, id) ==> r == ts
    ensures HasId(ts, id) ==> |r| == |ts| - 1
    ensures HasId(ts, id) ==> multiset(r) + multiset{FindById(ts, id).value} == multiset(ts)
    ensures HasId(ts, id) ==> r == ts[..IndexOfId(ts, id).value] + ts[IndexOfId(ts, id).value + 1..]
    ensures SubseqOf(r, ts)
  {
    match IndexOfId(ts, id)
    case None =>
      SubseqRefl(ts);
      ts
    case Some(i) =>
      RemoveAtIsSubseq(ts, i);
      assert ts == ts[..i] + [ts[i]] + ts[i + 1..];
      ts[..i] + ts[i + 1..]
  }

  /** No two records share an id. The source does not keep this invariant (see DeleteThenCreateCollides). */
  predicate UniqueIds(ts: seq<Transaction>) {
    forall j, k :: 0 <= j < k < |ts| ==> ts[j].id != ts[k].id
  }

  /** With unique ids, a second delete of the same id finds nothing and so returns false. */
  lemma DeleteTwiceFindsNothing(ts: seq<Transaction>, id: string)
    requires UniqueIds(ts)
    ensures !HasId(DeletedFirst(ts, id), id)
  {
    if HasId(ts, id) {
      var i := IndexOfId(ts, id).value;
      var r := DeletedFirst(ts, id);
      assert r == ts[..i] + ts[i + 1..];
      forall k | 0 <= k < |r|
        ensures r[k].id != id
      {
        if k < i {
          assert r[k] == ts[k];
        } else {
          assert r[k] == ts[k + 1];
        }
      }
    }
  }

  /** The ids a list has when it was built by create_transaction alone: T000001, T000002, ... */
  predicate SequentialIds(ts: seq<Transaction>) {
    forall k :: 0 <= k < |ts| ==> ts[k].id == IdFor(k + 1)
  }

  /** Without deletions the next id is fresh and the ids stay sequential. */
  lemma CreateKeepsSequentialIds(ts: seq<Transaction>, t: Transaction)
    requires SequentialIds(ts) && t.id == IdFor(|ts| + 1)
    ensures !HasId(ts, t.id)
    ensures SequentialIds(ts + [t])
  {
    forall k | 0 <= k < |ts|
      ensures ts[k].id != t.id
    {
      IdForInjective(k + 1, |ts| + 1);
    }
    forall k | 0 <= k < |ts + [t]|
      ensures (ts + [t])[k].id == IdFor(k + 1)
    {
      if k < |ts| {
        assert (ts + [t])[k] == ts[k];
      }
    }
  }

  /** Ids that follow the creation order are unique. */
  lemma SequentialIdsUnique(ts: seq<Transaction>)
    requires SequentialIds(ts)
    ensures UniqueIds(ts)
  {
    forall j, k | 0 <= j < k < |ts|
      ensures ts[j].id != ts[k].id
    {
      IdForInjective(j + 1, k + 1);
    }
  }

  /** Create then get: the new record is found by its id, provided the id was not already taken. */
  lemma CreateThenFind(ts: seq<Transaction>, t: Transaction)
    requires !HasId(ts, t.id)
    ensures FindById(ts + [t], t.id) == Some(t)
  {
    var r := ts + [t];
    assert r[|ts|].id == t.id;
    assert forall k :: 0 <= k < |ts| ==> r[k] == ts[k];
  }

  /** The id collision: after deleting any record but the last from a list built by creates alone,
      the next create computes the id IdFor(|ts|) from the shorter length, but the last record
      already holds it, so get_transaction_by_id on that id keeps returning the older record t' and
      never the new record t. */
  lemma DeleteThenCreateCollides(ts: seq<Transaction>, n: nat, t: Transaction)
    requires SequentialIds(ts) && 1 <= n < |ts|
    ensures |DeletedFirst(ts, IdFor(n))| + 1 == |ts|
    ensures HasId(DeletedFirst(ts, IdFor(n)), IdFor(|ts|))
    ensures FindById(DeletedFirst(ts, IdFor(n)) + [t], IdFor(|ts|)) == Some(ts[|ts| - 1])
  {
    SequentialDelete(ts, n);
    CollidingRest(ts, n);
    FindLastMatch(ts[..n - 1] + ts[n..], t, IdFor(|ts|));
  }

  /** After removing the n-th record, n < |ts|, the last record keeps IdFor(|ts|) and no other
      record has it. */
  lemma CollidingRest(ts: seq<Transaction>, n: nat)
    requires SequentialIds(ts) && 1 <= n < |ts|
    ensures var rest := ts[..n - 1] + ts[n..];
            rest != [] && rest[|rest| - 1].id == IdFor(|ts|) &&
            forall k :: 0 <= k < |rest| - 1 ==> rest[k].id != IdFor(|ts|)
  {
    var rest := ts[..n - 1] + ts[n..];
    assert rest[|rest| - 1] == ts[|ts| - 1];
    EarlierIdsDiffer(ts, n);
  }

  /** The records before the last one, the n-th left out, do not carry IdFor(|ts|). */
  lemma EarlierIdsDiffer(ts: seq<Transaction>, n: nat)
    requires SequentialIds(ts) && 1 <= n < |ts|
    ensures var rest := ts[..n - 1] + ts[n..];
            forall k :: 0 <= k < |rest| - 1 ==> rest[k].id != IdFor(|ts|)
  {
    var rest := ts[..n - 1] + ts[n..];
    var last := ts[|ts| - 1];
    assert last.id == IdFor(|ts|);
    SequentialIdsUnique(ts);
    forall k | 0 <= k < |rest| - 1
      ensures rest[k].id != last.id
    {
      var p := if k < n - 1 then k else k + 1;
      assert rest[k] == ts[p];
    }
  }

  /** When only the last record of a list has the id, appending does not change what is found. */
  lemma FindLastMatch(ts: seq<Transaction>, t: Transaction, id: string)
    requires ts != [] && ts[|ts| - 1].id == id
    requires forall k :: 0 <= k < |ts| - 1 ==> ts[k].id != id
    ensures FindById(ts + [t], id) == Some(ts[|ts| - 1])
  {
    var r := ts + [t];
    assert forall k :: 0 <= k < |ts| ==> r[k] == ts[k];
  }

  /** In a list built by creates alone, the first record with id IdFor(n) is the n-th one. */
  lemma SequentialIndex(ts: seq<Transaction>, n: nat)
    requires SequentialIds(ts) && 1 <= n <= |ts|
    ensures IndexOfId(ts, IdFor(n)) == Some(n - 1)
  {
    assert ts[n - 1].id == IdFor(n);
    var i := IndexOfId(ts, IdFor(n)).value;
    assert ts[i].id == IdFor(i + 1);
    if i + 1 != n {
      IdForInjective(i + 1, n);
    }
  }

  /** In a list built by creates alone, deleting IdFor(n) removes exactly the n-th record. */
  lemma SequentialDelete(ts: seq<Transaction>, n: nat)
    requires SequentialIds(ts) && 1 <= n <= |ts|
    ensures DeletedFirst(ts, IdFor(n)) == ts[..n - 1] + ts[n..]
  {
    SequentialIndex(ts, n);
  }
}
