/**
  The version-guarded store (rt-app/core-go/nosql/memory.go). A transaction applies all of its
  writes or none; a write either creates a row that must not exist or replaces (or deletes) a row
  that must have exactly the expected version.
*/
module Store {
  import opened Prelude

  datatype Row<D> = Row(version: int, data: D)

  datatype Write<K, D> = Write(key: K, row: Row<D>, expected: Option<int>, delete: bool)

  datatype Answer = Committed | DuplicateKey | Conflict

  /** The usual guarded write: a create when the row was missing, else its next version. */
  function Put<K, D>(prior: Option<Row<D>>, key: K, data: D): (w: Write<K, D>) {
    match prior
    case None => Write(key, Row(1, data), None, false)
    case Some(row) => Write(key, Row(row.version + 1, data), Some(row.version), false)
  }

  function Keys<K, D>(writes: seq<Write<K, D>>): (keys: seq<K>)
    ensures |keys| == |writes| && forall i :: 0 <= i < |writes| ==> keys[i] == writes[i].key
  {
    seq(|writes|, i requires 0 <= i < |writes| => writes[i].key)
  }

  predicate GuardHolds<K, D>(rows: map<K, Row<D>>, w: Write<K, D>) {
    match w.expected
    case None => w.key !in rows
    case Some(version) => w.key in rows && rows[w.key].version == version
  }

  predicate GuardsHold<K, D>(rows: map<K, Row<D>>, writes: seq<Write<K, D>>) {
    forall i :: 0 <= i < |writes| ==> GuardHolds(rows, writes[i])
  }

  function ApplyOne<K, D>(rows: map<K, Row<D>>, w: Write<K, D>): map<K, Row<D>> {
    if w.delete then rows - {w.key} else rows[w.key := w.row]
  }

  function ApplyAll<K, D>(rows: map<K, Row<D>>, writes: seq<Write<K, D>>): map<K, Row<D>> {
    if writes == [] then rows
    else ApplyOne(ApplyAll(rows, writes[..|writes| - 1]), writes[|writes| - 1])
  }

  function Answered<K, D>(rows: map<K, Row<D>>, writes: seq<Write<K, D>>): Answer {
    if !Distinct(Keys(writes)) then DuplicateKey
    else if !GuardsHold(rows, writes) then Conflict
    else Committed
  }

  function After<K, D>(rows: map<K, Row<D>>, writes: seq<Write<K, D>>): map<K, Row<D>> {
    if Answered(rows, writes) == Committed then ApplyAll(rows, writes) else rows
  }

  /** Keys that no write names keep their row. */
  lemma {:induction false} UnwrittenKeysKeepTheirRow<K, D>(rows: map<K, Row<D>>, writes: seq<Write<K, D>>, k: K)
    requires k !in Keys(writes)
    ensures Lookup(ApplyAll(rows, writes), k) == Lookup(rows, k)
  {
    if writes != [] {
      var front := writes[..|writes| - 1];
      assert writes[|writes| - 1].key == Keys(writes)[|writes| - 1];
      assert k !in Keys(front) by {
        assert forall i :: 0 <= i < |front| ==> Keys(front)[i] == Keys(writes)[i];
      }
      UnwrittenKeysKeepTheirRow(rows, front, k);
    }
  }

  /** With distinct keys every write takes effect, whatever its place in the transaction. */
  lemma {:induction false} EveryWriteTakesEffect<K, D>(rows: map<K, Row<D>>, writes: seq<Write<K, D>>, i: nat)
    requires i < |writes| && Distinct(Keys(writes))
    ensures Lookup(ApplyAll(rows, writes), writes[i].key) ==
            if writes[i].delete then None else Some(writes[i].row)
  {
    var n := |writes| - 1;
    var front := writes[..n];
    assert forall j :: 0 <= j < n ==> Keys(front)[j] == Keys(writes)[j];
    if i < n {
      EveryWriteTakesEffect(rows, front, i);
      assert writes[i].key == Keys(writes)[i] != Keys(writes)[n] == writes[n].key;
    }
  }

  /** The process-memory store: one map changed in place under a lock. */
  class MemoryStore<K(==), D> {
    var rows: map<K, Row<D>>

    constructor ()
      ensures rows == map[]
    {
      rows := map[];
    }

    method Get(key: K) returns (row: Option<Row<D>>)
      ensures row == Lookup(rows, key)
    {
      if key in rows {
        row := Some(rows[key]);
      } else {
        row := None;
      }
    }

    /** Checks the keys, then the guards, then applies; a refused transaction changes nothing. */
    method Transact(writes: seq<Write<K, D>>) returns (answer: Answer)
      modifies this
      ensures answer == Answered(old(rows), writes)
      ensures rows == After(old(rows), writes)
    {
      var distinct := CheckKeys(writes);
      if !distinct {
        return DuplicateKey;
      }
      for i := 0 to |writes|
        invariant rows == old(rows)
        invariant forall j :: 0 <= j < i ==> GuardHolds(rows, writes[j])
      {
        var w := writes[i];
        var present := w.key in rows;
        if (w.expected == None && present) ||
           (w.expected != None && (!present || rows[w.key].version != w.expected.value)) {
          assert !GuardHolds(rows, writes[i]);
          return Conflict;
        }
      }
      for i := 0 to |writes|
        invariant rows == ApplyAll(old(rows), writes[..i])
      {
        assert writes[..i + 1][..i] == writes[..i];
        var w := writes[i];
        if w.delete {
          rows := rows - {w.key};
        } else {
          rows := rows[w.key := w.row];
        }
      }
      assert writes[..|writes|] == writes;
      answer := Committed;
    }
  }

  /** Whether no two writes of a transaction name the same row. */
  method CheckKeys<K(==), D>(writes: seq<Write<K, D>>) returns (distinct: bool)
    ensures distinct <==> Distinct(Keys(writes))
  {
    var seen: set<K> := {};
    for i := 0 to |writes|
      invariant forall k :: k in seen <==> k in Keys(writes)[..i]
      invariant forall a, b :: 0 <= a < b < i ==> Keys(writes)[a] != Keys(writes)[b]
    {
      if writes[i].key in seen {
        assert Keys(writes)[i] in Keys(writes)[..i];
        return false;
      }
      assert Keys(writes)[..i + 1] == Keys(writes)[..i] + [writes[i].key];
      seen := seen + {writes[i].key};
    }
    distinct := true;
  }
}
