/**
  The books of one user, one operation at a time: the account, the receipts and the statement, and
  what an operation that nobody interrupts does to them.
*/
module Books {
  import opened Prelude
  import opened Accounts
  import opened Operations

  datatype Book = Book(account: Option<Account>, rows: map<RowName, Data>, statement: seq<Posted>)

  const EMPTY_BOOK := Book(None, map[], [])

  function AccountOf(book: Book): Account {
    book.account.GetOr(NO_ACCOUNT)
  }

  function RowOf(book: Book, row: Option<RowName>): Option<Data> {
    if row.Some? then Lookup(book.rows, row.value) else None
  }

  /** The receipts of some holds, as the rows hold them. */
  function ReceiptsOf(rows: map<RowName, Data>, holds: seq<Hold>): (r: seq<Option<Data>>)
    ensures |r| == |holds| && forall i :: 0 <= i < |r| ==> r[i] == Lookup(rows, ReservationRow(holds[i].key))
  {
    seq(|holds|, i requires 0 <= i < |holds| => Lookup(rows, ReservationRow(holds[i].key)))
  }

  function DecideOn(s: Settings, book: Book, op: Operation, now: int): Decision {
    Decide(s, op, RowOf(book, FirstRow(op)), book.account, ReceiptsOf(book.rows, ToSweep(op, book.account, now)), now)
  }

  function WithExpired(rows: map<RowName, Data>, expired: seq<(string, Receipt)>): map<RowName, Data> {
    if expired == [] then rows
    else
      var n := |expired| - 1;
      WithExpired(rows, expired[..n])[ReservationRow(expired[n].0) := ReceiptData(expired[n].1)]
  }

  function WithTarget(rows: map<RowName, Data>, row: Option<RowName>, target: Option<Data>): map<RowName, Data> {
    if row.Some? && target.Some? then rows[row.value := target.value] else rows
  }

  /** An operation run alone: it commits everything it decided, or changes nothing. */
  function Apply(s: Settings, book: Book, op: Operation, now: int): Book {
    match DecideOn(s, book, op, now)
    case Commit(draft, target, expired) =>
      Book(Some(draft.account), WithExpired(WithTarget(book.rows, FirstRow(op), target), expired), book.statement + draft.posted)
    case Refused(_) => book
    case Replayed => book
  }

  /** One operation of a history, with the clock it read. */
  datatype Call = Call(op: Operation, now: int)

  function Run(s: Settings, calls: seq<Call>): Book {
    if calls == [] then EMPTY_BOOK
    else Apply(s, Run(s, calls[..|calls| - 1]), calls[|calls| - 1].op, calls[|calls| - 1].now)
  }
}
