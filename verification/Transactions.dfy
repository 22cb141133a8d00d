/**
  What one committed attempt does to the rows of the store: from the rows a client read to the
  writes it sends, and from those writes to the books they record.
*/
module Transactions {
  import opened Prelude
  import opened Store
  import opened Accounts
  import opened Operations
  import opened Books

  type Rows = map<Key, Row<Data>>

  /** The rows an attempt read, each as it was when it was read. */
  datatype Seen = Seen(first: Option<Row<Data>>, account: Option<Row<Data>>, receipts: seq<Option<Row<Data>>>)

  function DataOf(row: Option<Row<Data>>): Option<Data> {
    match row
    case None => None
    case Some(r) => Some(r.data)
  }

  function AccountIn(row: Option<Row<Data>>): Option<Account> {
    if row.Some? && row.value.data.AccountData? then Some(row.value.data.account) else None
  }

  function DataOfAll(rows: seq<Option<Row<Data>>>): (r: seq<Option<Data>>)
    ensures |r| == |rows| && forall i :: 0 <= i < |r| ==> r[i] == DataOf(rows[i])
  {
    seq(|rows|, i requires 0 <= i < |rows| => DataOf(rows[i]))
  }

  /** The key of the row an operation reads besides the account (the account itself when none). */
  function FirstKey(user: string, op: Operation): Key {
    match FirstRow(op)
    case None => AccountKey(user)
    case Some(row) => OperationKey(user, row)
  }

  function ReceiptKey(user: string, h: Hold): Key {
    OperationKey(user, ReservationRow(h.key))
  }

  // ---- the writes of a commit ----

  /** The row that was read for a key among the expired holds. */
  function PriorOf(holds: seq<Hold>, receipts: seq<Option<Row<Data>>>, key: string): Option<Row<Data>>
    requires |receipts| == |holds|
  {
    if holds == [] then None
    else if holds[0].key == key then receipts[0]
    else PriorOf(holds[1..], receipts[1..], key)
  }

  function ReceiptWrites(user: string, expired: seq<(string, Receipt)>, holds: seq<Hold>, receipts: seq<Option<Row<Data>>>): (w: seq<Write<Key, Data>>)
    requires |receipts| == |holds|
    ensures |w| == |expired|
    ensures forall i :: 0 <= i < |w| ==>
              w[i] == Put(PriorOf(holds, receipts, expired[i].0), OperationKey(user, ReservationRow(expired[i].0)), ReceiptData(expired[i].1))
  {
    seq(|expired|, i requires 0 <= i < |expired| =>
      Put(PriorOf(holds, receipts, expired[i].0), OperationKey(user, ReservationRow(expired[i].0)), ReceiptData(expired[i].1)))
  }

  function LedgerKeyOf(user: string, p: Posted): Key {
    LedgerKey(user, p.entry.at, p.sequence, p.seed)
  }

  function LedgerWrites(user: string, posted: seq<Posted>): (w: seq<Write<Key, Data>>)
    ensures |w| == |posted|
    ensures forall i :: 0 <= i < |w| ==> w[i] == Put(None, LedgerKeyOf(user, posted[i]), EntryData(posted[i].entry))
  {
    seq(|posted|, i requires 0 <= i < |posted| => Put(None, LedgerKeyOf(user, posted[i]), EntryData(posted[i].entry)))
  }

  function TargetWrites(user: string, op: Operation, first: Option<Row<Data>>, target: Option<Data>): seq<Write<Key, Data>> {
    if target.Some? && FirstRow(op).Some? then [Put(first, OperationKey(user, FirstRow(op).value), target.value)] else []
  }

  function DecideOnReads(s: Settings, op: Operation, seen: Seen, now: int): Decision
    requires |seen.receipts| == |ToSweep(op, AccountIn(seen.account), now)|
  {
    Decide(s, op, if FirstRow(op).Some? then DataOf(seen.first) else None, AccountIn(seen.account), DataOfAll(seen.receipts), now)
  }

  function WritesOf(user: string, op: Operation, seen: Seen, c: Decision, now: int): seq<Write<Key, Data>>
    requires c.Commit? && |seen.receipts| == |ToSweep(op, AccountIn(seen.account), now)|
  {
    [Put(seen.account, AccountKey(user), AccountData(c.draft.account))] + TargetWrites(user, op, seen.first, c.target) +
    ReceiptWrites(user, c.expired, ToSweep(op, AccountIn(seen.account), now), seen.receipts) + LedgerWrites(user, c.draft.posted)
  }

  // ---- what the rows of a user record ----

  function EntryAt(statement: seq<Posted>, at: int, n: nat, seed: Seed): Option<Data> {
    if 1 <= n <= |statement| && statement[n - 1].entry.at == at && statement[n - 1].seed == seed
    then Some(EntryData(statement[n - 1].entry)) else None
  }

  /** The rows of a user are its books: account, operations and statement, and nothing more. */
  ghost predicate Records(rows: Rows, user: string, book: Book) {
    && DataOf(Lookup(rows, AccountKey(user))) == (if book.account.Some? then Some(AccountData(book.account.value)) else None)
    && (forall row: RowName :: DataOf(Lookup(rows, OperationKey(user, row))) == Lookup(book.rows, row))
    && (forall at: int, n: nat, seed: Seed :: DataOf(Lookup(rows, LedgerKey(user, at, n, seed))) == EntryAt(book.statement, at, n, seed))
  }

  /** What a read promises later: the row is still there, and unchanged if it has the same version. */
  predicate Older(rows: Rows, key: Key, read: Option<Row<Data>>) {
    read.Some? ==> key in rows && (rows[key] == read.value || rows[key].version > read.value.version)
  }

  predicate Current(rows: Rows, key: Key, read: Option<Row<Data>>) {
    Lookup(rows, key) == read
  }

  /** The reason every guarded read is a lock: a guard holds only when the row is still as read. */
  lemma GuardMeansCurrent(rows: Rows, key: Key, read: Option<Row<Data>>, data: Data)
    requires Older(rows, key, read)
    ensures GuardHolds(rows, Put(read, key, data)) <==> Current(rows, key, read)
  {}

  /** Nobody deletes, and every write raises the version: reads stay valid or become outdated. */
  predicate Grows(before: Rows, after: Rows) {
    forall key :: key in before ==> key in after && (after[key] == before[key] || after[key].version > before[key].version)
  }

  lemma OlderStays(before: Rows, after: Rows, key: Key, read: Option<Row<Data>>)
    requires Grows(before, after) && Older(before, key, read)
    ensures Older(after, key, read)
  {}

  /** A write as `write` makes it: the next version of the row that was read, or version 1. */
  predicate IsPut(w: Write<Key, Data>) {
    !w.delete && w == Put(if w.expected.None? then None else Some(Row(w.expected.value, w.row.data)), w.key, w.row.data)
  }

  predicate Puts(writes: seq<Write<Key, Data>>) {
    forall i :: 0 <= i < |writes| ==> IsPut(writes[i])
  }

  /** A row after a transaction: written once, with a higher version, or untouched. */
  lemma WrittenRow(rows: Rows, writes: seq<Write<Key, Data>>, key: Key)
    requires Puts(writes) && Answered(rows, writes) == Committed
    ensures key in Keys(writes) ==> key in After(rows, writes)
    ensures key in Keys(writes) && key in rows ==> After(rows, writes)[key].version == rows[key].version + 1
    ensures key !in Keys(writes) ==> Lookup(After(rows, writes), key) == Lookup(rows, key)
  {
    if key in Keys(writes) {
      var i :| 0 <= i < |writes| && Keys(writes)[i] == key;
      EveryWriteTakesEffect(rows, writes, i);
      assert IsPut(writes[i]) && GuardHolds(rows, writes[i]);
    } else {
      UnwrittenKeysKeepTheirRow(rows, writes, key);
    }
  }

  lemma TransactionGrows(rows: Rows, writes: seq<Write<Key, Data>>)
    requires Puts(writes)
    ensures Grows(rows, After(rows, writes))
  {
    hide Keys, Answered, After;
    forall key | key in rows
      ensures key in After(rows, writes) && (After(rows, writes)[key] == rows[key] || After(rows, writes)[key].version > rows[key].version)
    {
      if Answered(rows, writes) == Committed {
        WrittenRow(rows, writes, key);
        assert key !in Keys(writes) ==> Lookup(After(rows, writes), key) == Some(rows[key]);
      } else {
        NothingWritten(rows, writes);
      }
    }
  }

  lemma NothingWritten(rows: Rows, writes: seq<Write<Key, Data>>)
    requires Answered(rows, writes) != Committed
    ensures After(rows, writes) == rows
  {}

  // ---- a commit records one operation ----

  lemma {:induction false} ApplyInTurn(rows: Rows, a: seq<Write<Key, Data>>, b: seq<Write<Key, Data>>)
    ensures ApplyAll(rows, a + b) == ApplyAll(ApplyAll(rows, a), b)
  {
    if b == [] {
      assert a + b == a;
    } else {
      assert (a + b)[..|a + b| - 1] == a + b[..|b| - 1];
      ApplyInTurn(rows, a, b[..|b| - 1]);
    }
  }

  lemma ApplySingle(rows: Rows, w: Write<Key, Data>)
    ensures ApplyAll(rows, [w]) == ApplyOne(rows, w)
  {
    assert [w][..0] == [];
    assert ApplyAll(rows, [w][..0]) == rows;
  }

  lemma {:induction false} ReceiptWritesRecord(rows: Rows, user: string, base: map<RowName, Data>, expired: seq<(string, Receipt)>,
                                               holds: seq<Hold>, receipts: seq<Option<Row<Data>>>, row: RowName)
    requires |receipts| == |holds|
    requires DataOf(Lookup(rows, OperationKey(user, row))) == Lookup(base, row)
    ensures DataOf(Lookup(ApplyAll(rows, ReceiptWrites(user, expired, holds, receipts)), OperationKey(user, row))) == Lookup(WithExpired(base, expired), row)
  {
    hide PriorOf;
    if expired != [] {
      var n := |expired| - 1;
      ReceiptWritesRecord(rows, user, base, expired[..n], holds, receipts, row);
      var all := ReceiptWrites(user, expired, holds, receipts);
      assert all[..n] == ReceiptWrites(user, expired[..n], holds, receipts);
    }
  }

  lemma {:induction false} LedgerWritesRecord(rows: Rows, user: string, posted: seq<Posted>, m: nat, at: int, n: nat, seed: Seed)
    requires forall j :: 0 <= j < |posted| ==> posted[j].sequence == m + j + 1
    ensures DataOf(Lookup(ApplyAll(rows, LedgerWrites(user, posted)), LedgerKey(user, at, n, seed))) ==
            if m < n <= m + |posted| && posted[n - m - 1].entry.at == at && posted[n - m - 1].seed == seed
            then Some(EntryData(posted[n - m - 1].entry)) else DataOf(Lookup(rows, LedgerKey(user, at, n, seed)))
  {
    if posted != [] {
      var k := |posted| - 1;
      LedgerWritesRecord(rows, user, posted[..k], m, at, n, seed);
      var all := LedgerWrites(user, posted);
      assert all[..k] == LedgerWrites(user, posted[..k]);
    }
  }

  lemma OtherKeysKeepTheirRow(rows: Rows, writes: seq<Write<Key, Data>>, key: Key)
    requires forall i :: 0 <= i < |writes| ==> writes[i].key != key
    ensures Lookup(ApplyAll(rows, writes), key) == Lookup(rows, key)
  {
    UnwrittenKeysKeepTheirRow(rows, writes, key);
  }

  /** The whole transaction, stage by stage. */
  lemma CommitStages(rows: Rows, user: string, op: Operation, seen: Seen, c: Decision, now: int)
    returns (a: Rows, t: Rows, r: Rows)
    requires c.Commit? && |seen.receipts| == |ToSweep(op, AccountIn(seen.account), now)|
    ensures a == rows[AccountKey(user) := Put(seen.account, AccountKey(user), AccountData(c.draft.account)).row]
    ensures t == ApplyAll(a, TargetWrites(user, op, seen.first, c.target))
    ensures r == ApplyAll(t, ReceiptWrites(user, c.expired, ToSweep(op, AccountIn(seen.account), now), seen.receipts))
    ensures ApplyAll(rows, WritesOf(user, op, seen, c, now)) == ApplyAll(r, LedgerWrites(user, c.draft.posted))
  {
    hide ToSweep, PriorOf, TargetWrites;
    var w := Put(seen.account, AccountKey(user), AccountData(c.draft.account));
    var ts := TargetWrites(user, op, seen.first, c.target);
    var rs := ReceiptWrites(user, c.expired, ToSweep(op, AccountIn(seen.account), now), seen.receipts);
    var ls := LedgerWrites(user, c.draft.posted);
    ApplySingle(rows, w);
    a := ApplyAll(rows, [w]);
    t := ApplyAll(a, ts);
    r := ApplyAll(t, rs);
    ApplyInTurn(rows, [w], ts);
    ApplyInTurn(rows, [w] + ts, rs);
    ApplyInTurn(rows, [w] + ts + rs, ls);
  }

  /** A committed decision on the books of a user turns rows that record them into rows that record what Apply gives. */
  lemma CommitRecords(rows: Rows, user: string, book: Book, op: Operation, seen: Seen, c: Decision, now: int)
    requires c.Commit? && |seen.receipts| == |ToSweep(op, AccountIn(seen.account), now)|
    requires Records(rows, user, book)
    requires forall j :: 0 <= j < |c.draft.posted| ==> c.draft.posted[j].sequence == |book.statement| + j + 1
    ensures Records(ApplyAll(rows, WritesOf(user, op, seen, c, now)), user,
                    Book(Some(c.draft.account), WithExpired(WithTarget(book.rows, FirstRow(op), c.target), c.expired), book.statement + c.draft.posted))
  {
    hide ToSweep, PriorOf, WithExpired, ApplyAll, FirstRow;
    var holds := ToSweep(op, AccountIn(seen.account), now);
    var a, t, r := CommitStages(rows, user, op, seen, c, now);
    var ts, rs, ls := TargetWrites(user, op, seen.first, c.target), ReceiptWrites(user, c.expired, holds, seen.receipts), LedgerWrites(user, c.draft.posted);
    var final := ApplyAll(r, ls);
    var based := WithTarget(book.rows, FirstRow(op), c.target);
    OtherKeysKeepTheirRow(a, ts, AccountKey(user));
    OtherKeysKeepTheirRow(t, rs, AccountKey(user));
    OtherKeysKeepTheirRow(r, ls, AccountKey(user));
    forall row: RowName
      ensures DataOf(Lookup(final, OperationKey(user, row))) == Lookup(WithExpired(based, c.expired), row)
    {
      TargetRecords(a, user, op, seen.first, c.target, book.rows, row);
      ReceiptWritesRecord(t, user, based, c.expired, holds, seen.receipts, row);
      OtherKeysKeepTheirRow(r, ls, OperationKey(user, row));
    }
    forall at: int, n: nat, seed: Seed
      ensures DataOf(Lookup(final, LedgerKey(user, at, n, seed))) == EntryAt(book.statement + c.draft.posted, at, n, seed)
    {
      OtherKeysKeepTheirRow(a, ts, LedgerKey(user, at, n, seed));
      OtherKeysKeepTheirRow(t, rs, LedgerKey(user, at, n, seed));
      LedgerWritesRecord(r, user, c.draft.posted, |book.statement|, at, n, seed);
    }
  }

  lemma TargetRecords(rows: Rows, user: string, op: Operation, first: Option<Row<Data>>, target: Option<Data>, base: map<RowName, Data>, row: RowName)
    requires DataOf(Lookup(rows, OperationKey(user, row))) == Lookup(base, row)
    ensures DataOf(Lookup(ApplyAll(rows, TargetWrites(user, op, first, target)), OperationKey(user, row))) ==
            Lookup(WithTarget(base, FirstRow(op), target), row)
  {
    if target.Some? && FirstRow(op).Some? {
      ApplySingle(rows, Put(first, OperationKey(user, FirstRow(op).value), target.value));
    }
  }

  /** The rows of other users are untouched. */
  lemma OthersKeepTheirBooks(rows: Rows, user: string, op: Operation, seen: Seen, c: Decision, now: int, other: string, book: Book)
    requires c.Commit? && |seen.receipts| == |ToSweep(op, AccountIn(seen.account), now)|
    requires Records(rows, other, book) && other != user
    ensures Records(ApplyAll(rows, WritesOf(user, op, seen, c, now)), other, book)
  {
    hide ToSweep, PriorOf, ApplyAll, FirstRow;
    var writes := WritesOf(user, op, seen, c, now);
    forall key: Key | key == AccountKey(other) || (key.OperationKey? && key.user == other) || (key.LedgerKey? && key.user == other)
      ensures Lookup(ApplyAll(rows, writes), key) == Lookup(rows, key)
    {
      OtherKeysKeepTheirRow(rows, writes, key);
    }
  }

  lemma CommitWritesArePuts(user: string, op: Operation, seen: Seen, c: Decision, now: int)
    requires c.Commit? && |seen.receipts| == |ToSweep(op, AccountIn(seen.account), now)|
    ensures Puts(WritesOf(user, op, seen, c, now))
  {
    hide ToSweep, PriorOf, FirstRow;
  }
}
