/** The Transaction record and its dictionary form (the shape written to and read from the data file). */
module Transactions {
  import opened Wrappers

  /** The two literals of TransactionType. */
  const Income: string := "收入"
  const Expense: string := "支出"

  /** One ledger entry. The amount is held in cents; kind is the `type` string, which nothing checks
      to be Income or Expense. */
  datatype Transaction = Transaction(id: string, amount: int, kind: string, category: string, date: string, note: string)

  /** A JSON value as it appears in a record: text or a number (in cents). */
  datatype Value = Str(text: string) | Num(number: int)

  type Record = map<string, Value>

  const RecordKeys: set<string> := {"transaction_id", "amount", "type", "category", "date", "note"}

  /** Transaction.to_dict. */
  function ToDict(t: Transaction): (r: Record)
    ensures r.Keys == RecordKeys
    ensures FromDict(r) == Some(t)
  {
    map["transaction_id" := Str(t.id), "amount" := Num(t.amount), "type" := Str(t.kind),
        "category" := Str(t.category), "date" := Str(t.date), "note" := Str(t.note)]
  }

  predicate HasText(r: Record, key: string) {
    key in r && r[key].Str?
  }

  /** Transaction.from_dict: None where it raises KeyError because one of the five required keys is
      missing; a missing "note" becomes the empty note. */
  function FromDict(r: Record): (t: Option<Transaction>)
    ensures t.Some? <==>
              HasText(r, "transaction_id") && "amount" in r && r["amount"].Num? && HasText(r, "type") &&
              HasText(r, "category") && HasText(r, "date") && ("note" in r ==> r["note"].Str?)
    ensures t.Some? ==> t.value.id == r["transaction_id"].text && t.value.amount == r["amount"].number &&
                        t.value.kind == r["type"].text && t.value.category == r["category"].text &&
                        t.value.date == r["date"].text &&
                        t.value.note == (if "note" in r then r["note"].text else "")
  {
    if HasText(r, "transaction_id") && "amount" in r && r["amount"].Num? && HasText(r, "type") &&
       HasText(r, "category") && HasText(r, "date") && ("note" in r ==> r["note"].Str?)
    then
      Some(Transaction(r["transaction_id"].text, r["amount"].number, r["type"].text, r["category"].text,
                       r["date"].text, if "note" in r then r["note"].text else ""))
    else
      None
  }

  /** A record holding exactly the six keys comes back unchanged through from_dict and to_dict. */
  lemma DictRoundTrip(r: Record)
    requires r.Keys == RecordKeys && FromDict(r).Some?
    ensures ToDict(FromDict(r).value) == r
  {
  }

  /** What save_transactions writes: `[t.to_dict() for t in self.transactions]`. */
  function SaveAll(ts: seq<Transaction>): (rs: seq<Record>)
    ensures |rs| == |ts|
    ensures forall i :: 0 <= i < |ts| ==> rs[i] == ToDict(ts[i])
  {
    seq(|ts|, i requires 0 <= i < |ts| => ToDict(ts[i]))
  }

  /** What load_transactions keeps: `[Transaction.from_dict(item) for item in data]`, where the first
      record from_dict rejects aborts the whole list (None). */
  function LoadAll(rs: seq<Record>): (r: Option<seq<Transaction>>)
    ensures r.Some? <==> forall i :: 0 <= i < |rs| ==> FromDict(rs[i]).Some?
    ensures r.Some? ==> |r.value| == |rs| && forall i :: 0 <= i < |rs| ==> FromDict(rs[i]) == Some(r.value[i])
  {
    if rs == [] then Some([])
    else
      var p := rs[..|rs| - 1];
      assert forall i :: 0 <= i < |p| ==> p[i] == rs[i];
      match (LoadAll(p), FromDict(rs[|rs| - 1]))
      case (Some(ts), Some(t)) => Some(ts + [t])
      case _ => None
  }

  /** Saving N transactions and loading them again yields the same N transactions in the same order. */
  lemma {:induction false} LoadSaveRoundTrip(ts: seq<Transaction>)
    ensures LoadAll(SaveAll(ts)) == Some(ts)
    decreases |ts|
  {
    if ts != [] {
      var p := ts[..|ts| - 1];
      LoadSaveRoundTrip(p);
      assert SaveAll(ts)[..|ts| - 1] == SaveAll(p);
      assert p + [ts[|ts| - 1]] == ts;
    }
  }

  /** The transaction list a TransactionService starts with: `stored` is the content of the data
      file (None when there is no file or it cannot be read as a list); any failure leaves it empty. */
  function Restore(stored: Option<seq<Record>>): (ts: seq<Transaction>)
    ensures stored.None? ==> ts == []
    ensures stored.Some? && (exists i :: 0 <= i < |stored.value| && FromDict(stored.value[i]).None?) ==> ts == []
    ensures stored.Some? && (forall i :: 0 <= i < |stored.value| ==> FromDict(stored.value[i]).Some?) ==>
              |ts| == |stored.value| && forall i :: 0 <= i < |ts| ==> FromDict(stored.value[i]) == Some(ts[i])
  {
    match stored
    case None => []
    case Some(rs) =>
      match LoadAll(rs)
      case None => []
      case Some(ts) => ts
  }

  /** A service started on the file its predecessor saved holds the same transactions. */
  lemma RestoreSaved(ts: seq<Transaction>)
    ensures Restore(Some(SaveAll(ts))) == ts
  {
    LoadSaveRoundTrip(ts);
  }
}
