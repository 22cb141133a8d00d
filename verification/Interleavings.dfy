/**
  Any number of clients on one store, their steps interleaved in any way. An operation reads its
  own row and the account, then the clock, then the receipts of expired holds, each by itself, and
  then sends one guarded transaction; on a conflict it starts over, eight attempts at most. Whatever
  the interleaving, the store is what the committed operations alone, in the order of their commits,
  would have left.
*/
module Interleavings {
  import opened Prelude
  import opened Store
  import opened Accounts
  import opened Operations
  import opened Books
  import opened Statement
  import opened Lifecycle
  import opened Histories
  import opened Charges
  import opened Transactions

  const MAX_ATTEMPTS := 8

  type Read = Option<Row<Data>>

  /** What a client has in hand; None is a read it has not made yet. */
  datatype Client =
    | Idle
    | Working(user: string, op: Operation, attempt: nat,
              first: Option<Read>, account: Option<Read>, clock: Option<int>, receipts: seq<Read>)

  datatype Logged = Logged(user: string, call: Call)

  datatype World = World(rows: Rows, clients: seq<Client>, time: int, log: seq<Logged>)

  datatype Step =
    | Begin(client: nat, user: string, op: Operation)
    | ReadFirst(client: nat)
    | ReadAccount(client: nat)
    | ReadClock(client: nat)
    | ReadReceipt(client: nat)
    | Finish(client: nat)
    | Abandon(client: nat)
    | Tick(ms: nat)

  function Starting(user: string, op: Operation, attempt: nat): Client {
    Working(user, op, attempt, None, None, None, [])
  }

  /** The expired holds whose receipts the client still has to read or has read. */
  function Sweeping(c: Client): seq<Hold>
    requires c.Working? && c.account.Some? && c.clock.Some?
  {
    ToSweep(c.op, AccountIn(c.account.value), c.clock.value)
  }

  predicate Ready(c: Client) {
    && c.Working? && c.account.Some? && c.clock.Some?
    && (FirstRow(c.op).Some? ==> c.first.Some?)
    && |c.receipts| == |Sweeping(c)|
  }

  function SeenBy(c: Client): Seen
    requires Ready(c)
  {
    Seen(c.first.GetOr(None), c.account.value, c.receipts)
  }

  function DecisionOf(s: Settings, c: Client): Decision
    requires Ready(c)
  {
    DecideOnReads(s, c.op, SeenBy(c), c.clock.value)
  }

  function Sent(s: Settings, c: Client): seq<Write<Key, Data>>
    requires Ready(c) && DecisionOf(s, c).Commit?
  {
    WritesOf(c.user, c.op, SeenBy(c), DecisionOf(s, c), c.clock.value)
  }

  function WithClient(sys: World, i: nat, c: Client): World
    requires i < |sys.clients|
  {
    sys.(clients := sys.clients[i := c])
  }

  /** The end of an attempt: an answer without writing, a commit, another attempt, or giving up. */
  function Finished(s: Settings, sys: World, i: nat): World
    requires i < |sys.clients| && Ready(sys.clients[i])
  {
    var c := sys.clients[i];
    if !DecisionOf(s, c).Commit? then WithClient(sys, i, Idle)
    else
      match Answered(sys.rows, Sent(s, c))
      case Committed =>
        WithClient(sys, i, Idle).(rows := After(sys.rows, Sent(s, c)), log := sys.log + [Logged(c.user, Call(c.op, c.clock.value))])
      case Conflict => WithClient(sys, i, if c.attempt < MAX_ATTEMPTS then Starting(c.user, c.op, c.attempt + 1) else Idle)
      case DuplicateKey => WithClient(sys, i, Idle)
  }

  /** One step; a step that is not possible changes nothing. */
  function Next(s: Settings, sys: World, step: Step): World {
    match step
    case Tick(ms) => sys.(time := sys.time + ms)
    case Begin(i, user, op) =>
      if i < |sys.clients| && sys.clients[i].Idle? then WithClient(sys, i, Starting(user, op, 1)) else sys
    case ReadFirst(i) =>
      if i < |sys.clients| && sys.clients[i].Working? && sys.clients[i].first.None? then
        var c := sys.clients[i];
        WithClient(sys, i, c.(first := Some(Lookup(sys.rows, FirstKey(c.user, c.op)))))
      else sys
    case ReadAccount(i) =>
      if i < |sys.clients| && sys.clients[i].Working? && sys.clients[i].account.None? then
        var c := sys.clients[i];
        WithClient(sys, i, c.(account := Some(Lookup(sys.rows, AccountKey(c.user)))))
      else sys
    case ReadClock(i) =>
      if i < |sys.clients| && sys.clients[i].Working? && sys.clients[i].account.Some? && sys.clients[i].clock.None? then
        WithClient(sys, i, sys.clients[i].(clock := Some(sys.time)))
      else sys
    case ReadReceipt(i) =>
      if i < |sys.clients| && sys.clients[i].Working? && sys.clients[i].account.Some? && sys.clients[i].clock.Some?
         && |sys.clients[i].receipts| < |Sweeping(sys.clients[i])| then
        var c := sys.clients[i];
        WithClient(sys, i, c.(receipts := c.receipts + [Lookup(sys.rows, ReceiptKey(c.user, Sweeping(c)[|c.receipts|]))]))
      else sys
    case Finish(i) => if i < |sys.clients| && Ready(sys.clients[i]) then Finished(s, sys, i) else sys
    case Abandon(i) => if i < |sys.clients| then WithClient(sys, i, Idle) else sys
  }

  function Initial(clients: nat): World {
    World(map[], seq(clients, i => Idle), 0, [])
  }

  function Reached(s: Settings, clients: nat, steps: seq<Step>): World {
    if steps == [] then Initial(clients) else Next(s, Reached(s, clients, steps[..|steps| - 1]), steps[|steps| - 1])
  }

  // ---- what was committed ----

  function CallsOf(log: seq<Logged>, user: string): seq<Call> {
    if log == [] then []
    else CallsOf(log[..|log| - 1], user) + if log[|log| - 1].user == user then [log[|log| - 1].call] else []
  }

  /** The books of a user, had the committed operations run alone, in the order of their commits. */
  function BookOf(s: Settings, log: seq<Logged>, user: string): Book {
    Run(s, CallsOf(log, user))
  }

  predicate NoLaterThan(calls: seq<Call>, time: int) {
    calls != [] ==> calls[|calls| - 1].now <= time
  }

  predicate InTime(calls: seq<Call>) {
    forall i, j :: 0 <= i < j < |calls| ==> calls[i].now <= calls[j].now
  }

  // ---- the invariant ----

  /** Reads are outdated or still current; and while the account is, so is what was read after it. */
  ghost predicate Honest(sys: World, c: Client) {
    c.Working? ==>
      && (c.first.Some? ==> Older(sys.rows, FirstKey(c.user, c.op), c.first.value))
      && (c.account.Some? ==> Older(sys.rows, AccountKey(c.user), c.account.value))
      && (c.clock.Some? ==>
            && c.account.Some? && c.clock.value <= sys.time
            && (Current(sys.rows, AccountKey(c.user), c.account.value) ==> NoLaterThan(CallsOf(sys.log, c.user), c.clock.value)))
      && (c.receipts != [] ==> c.account.Some? && c.clock.Some? && |c.receipts| <= |Sweeping(c)|)
      && forall i :: 0 <= i < |c.receipts| ==>
           && Older(sys.rows, ReceiptKey(c.user, Sweeping(c)[i]), c.receipts[i])
           && (Current(sys.rows, AccountKey(c.user), c.account.value) ==> Current(sys.rows, ReceiptKey(c.user, Sweeping(c)[i]), c.receipts[i]))
  }

  ghost predicate AllRecorded(s: Settings, rows: Rows, log: seq<Logged>) {
    forall user: string :: Records(rows, user, BookOf(s, log, user))
  }

  ghost predicate AllInTime(sys: World) {
    forall user: string :: InTime(CallsOf(sys.log, user)) && NoLaterThan(CallsOf(sys.log, user), sys.time)
  }

  ghost predicate AllHonest(sys: World) {
    forall i :: 0 <= i < |sys.clients| ==> Honest(sys, sys.clients[i])
  }

  ghost predicate Serial(s: Settings, sys: World) {
    AllRecorded(s, sys.rows, sys.log) && AllInTime(sys) && AllHonest(sys)
  }

  // ---- steps that only read ----

  lemma OneClientChanges(sys: World, i: nat, c: Client)
    requires AllHonest(sys) && i < |sys.clients| && Honest(sys, c)
    ensures AllHonest(WithClient(sys, i, c))
  {
    hide Older, Current;
    var after := WithClient(sys, i, c);
    forall j | 0 <= j < |after.clients|
      ensures Honest(after, after.clients[j])
    {
      SameStoreSameHonesty(sys, after, after.clients[j]);
    }
  }

  lemma SameStoreSameHonesty(before: World, after: World, c: Client)
    requires before.rows == after.rows && before.log == after.log && before.time <= after.time && Honest(before, c)
    ensures Honest(after, c)
  {}

  lemma ReadingKeepsHonesty(s: Settings, sys: World, step: Step)
    requires AllHonest(sys) && AllInTime(sys) && !step.Finish? && !step.Tick?
    ensures AllHonest(Next(s, sys, step))
  {
    hide AllHonest, CallsOf, ToSweep;
    if step.client < |sys.clients| {
      var i := step.client;
      var c := sys.clients[i];
      HonestClient(sys, i);
      var after := Next(s, sys, step);
      if after != sys {
        var d := after.clients[i];
        assert step.ReadClock? ==> NoLaterThan(CallsOf(sys.log, c.user), sys.time);
        assert Honest(sys, d);
        OneClientChanges(sys, i, d);
      }
    }
  }

  lemma HonestClient(sys: World, i: nat)
    requires AllHonest(sys) && i < |sys.clients|
    ensures Honest(sys, sys.clients[i])
  {}

  // ---- a commit ----

  /** An operation with a row of its own writes it whenever it commits, so that read is guarded too. */
  lemma TargetIsWritten(s: Settings, op: Operation, first: Option<Data>, account: Option<Account>, receipts: seq<Option<Data>>, now: int)
    requires |receipts| == |ToSweep(op, account, now)|
    requires Decide(s, op, first, account, receipts, now).Commit?
    ensures FirstRow(op).Some? ==> Decide(s, op, first, account, receipts, now).target.Some?
  {
    hide Decide, ToSweep;
    var house := PostedShape(s, op, first, account, receipts, now);
  }

  /** A committed transaction was computed from what the store still held. */
  lemma CommittedReadsAreCurrent(s: Settings, sys: World, c: Client)
    requires Honest(sys, c) && Ready(c) && DecisionOf(s, c).Commit? && GuardsHold(sys.rows, Sent(s, c))
    ensures Current(sys.rows, AccountKey(c.user), c.account.value)
    ensures FirstRow(c.op).Some? ==> Current(sys.rows, FirstKey(c.user, c.op), c.first.value)
    ensures forall i :: 0 <= i < |c.receipts| ==> Current(sys.rows, ReceiptKey(c.user, Sweeping(c)[i]), c.receipts[i])
  {
    hide Decide, ToSweep, PriorOf, Older, Current;
    var d := DecisionOf(s, c);
    var writes := Sent(s, c);
    TargetIsWritten(s, c.op, if FirstRow(c.op).Some? then DataOf(c.first.value) else None, AccountIn(c.account.value), DataOfAll(c.receipts), c.clock.value);
    assert writes[0] == Put(c.account.value, AccountKey(c.user), AccountData(d.draft.account));
    GuardMeansCurrent(sys.rows, AccountKey(c.user), c.account.value, AccountData(d.draft.account));
    if FirstRow(c.op).Some? {
      assert writes[1] == Put(c.first.value, FirstKey(c.user, c.op), d.target.value);
      GuardMeansCurrent(sys.rows, FirstKey(c.user, c.op), c.first.value, d.target.value);
    }
  }

  lemma CurrentAccount(rows: Rows, user: string, book: Book, read: Read)
    requires Records(rows, user, book) && Current(rows, AccountKey(user), read)
    ensures AccountIn(read) == book.account
  {}

  lemma CurrentRow(rows: Rows, user: string, book: Book, row: RowName, read: Read)
    requires Records(rows, user, book) && Current(rows, OperationKey(user, row), read)
    ensures DataOf(read) == Lookup(book.rows, row)
  {}

  /** Reads that are current decide as the operation alone would. */
  lemma CurrentReadsDecideAlone(s: Settings, rows: Rows, c: Client, book: Book)
    requires Ready(c) && Records(rows, c.user, book)
    requires Current(rows, AccountKey(c.user), c.account.value)
    requires FirstRow(c.op).Some? ==> Current(rows, FirstKey(c.user, c.op), c.first.value)
    requires forall i :: 0 <= i < |c.receipts| ==> Current(rows, ReceiptKey(c.user, Sweeping(c)[i]), c.receipts[i])
    ensures DecisionOf(s, c) == DecideOn(s, book, c.op, c.clock.value)
  {
    hide Decide, ToSweep, Records, Current, FirstRow;
    CurrentAccount(rows, c.user, book, c.account.value);
    if FirstRow(c.op).Some? {
      CurrentRow(rows, c.user, book, FirstRow(c.op).value, c.first.value);
    }
    var holds := ToSweep(c.op, book.account, c.clock.value);
    forall i | 0 <= i < |holds|
      ensures DataOfAll(c.receipts)[i] == ReceiptsOf(book.rows, holds)[i]
    {
      CurrentRow(rows, c.user, book, ReservationRow(holds[i].key), c.receipts[i]);
    }
    assert DataOfAll(c.receipts) == ReceiptsOf(book.rows, holds);
  }

  lemma CallsAfter(log: seq<Logged>, user: string, call: Call, other: string)
    ensures CallsOf(log + [Logged(user, call)], other) == CallsOf(log, other) + if other == user then [call] else []
  {
    assert (log + [Logged(user, call)])[..|log|] == log;
  }

  lemma BookAfter(s: Settings, log: seq<Logged>, user: string, call: Call, other: string)
    ensures BookOf(s, log + [Logged(user, call)], other) ==
            if other == user then Apply(s, BookOf(s, log, user), call.op, call.now) else BookOf(s, log, other)
  {
    hide Apply;
    CallsAfter(log, user, call, other);
    var calls := CallsOf(log, other);
    assert (calls + [call])[..|calls|] == calls;
    assert calls + [] == calls;
  }

  /** New entries are numbered on from the statement. */
  lemma EntriesAreNumberedOn(s: Settings, book: Book, op: Operation, now: int)
    requires Determined(book) && InLifecycle(book) && DecideOn(s, book, op, now).Commit?
    ensures var posted := DecideOn(s, book, op, now).draft.posted;
            forall j :: 0 <= j < |posted| ==> posted[j].sequence == |book.statement| + j + 1
  {
    hide Decide, Alive, FoldTotals, Total;
    DecisionAgrees(s, book, op, now);
    var posted := DecideOn(s, book, op, now).draft.posted;
    var all := book.statement + posted;
    forall j | 0 <= j < |posted|
      ensures posted[j].sequence == |book.statement| + j + 1
    {
      assert all[|book.statement| + j] == posted[j];
    }
  }

  /** A commit leaves rows that record the operation after all that were committed before it. */
  lemma CommitIsRecorded(s: Settings, sys: World, i: nat)
    requires Serial(s, sys) && i < |sys.clients| && Ready(sys.clients[i]) && DecisionOf(s, sys.clients[i]).Commit?
    requires Answered(sys.rows, Sent(s, sys.clients[i])) == Committed
    ensures AllRecorded(s, Finished(s, sys, i).rows, Finished(s, sys, i).log)
  {
    hide Decide, ToSweep, Records, Current, FirstRow, BookOf, WritesOf, Determined, InLifecycle;
    var c := sys.clients[i];
    var book := BookOf(s, sys.log, c.user);
    var d := DecisionOf(s, c);
    var after := Finished(s, sys, i);
    HonestClient(sys, i);
    CommittedReadsAreCurrent(s, sys, c);
    CurrentReadsDecideAlone(s, sys.rows, c, book);
    BookIsSound(s, sys.log, c.user);
    EntriesAreNumberedOn(s, book, c.op, c.clock.value);
    CommitRecords(sys.rows, c.user, book, c.op, SeenBy(c), d, c.clock.value);
    forall other: string
      ensures Records(after.rows, other, BookOf(s, after.log, other))
    {
      BookAfter(s, sys.log, c.user, Call(c.op, c.clock.value), other);
      if other != c.user {
        OthersKeepTheirBooks(sys.rows, c.user, c.op, SeenBy(c), d, c.clock.value, other, BookOf(s, sys.log, other));
      }
    }
  }

  lemma BookIsSound(s: Settings, log: seq<Logged>, user: string)
    ensures Determined(BookOf(s, log, user)) && InLifecycle(BookOf(s, log, user))
  {
    StatementDeterminesTheAccount(s, CallsOf(log, user));
  }

  /** After a commit for a user, nobody holds that user's present account any more. */
  lemma CommitOutdates(s: Settings, sys: World, c: Client, d: Client)
    requires Ready(c) && DecisionOf(s, c).Commit? && Answered(sys.rows, Sent(s, c)) == Committed
    requires d.Working? && d.user == c.user && d.account.Some? && Older(sys.rows, AccountKey(d.user), d.account.value)
    ensures !Current(After(sys.rows, Sent(s, c)), AccountKey(d.user), d.account.value)
  {
    hide Decide, ToSweep, FirstRow, Answered, After;
    var writes := Sent(s, c);
    assert Keys(writes)[0] == AccountKey(c.user);
    CommitWritesArePuts(c.user, c.op, SeenBy(c), DecisionOf(s, c), c.clock.value);
    WrittenRow(sys.rows, writes, AccountKey(c.user));
  }

  /** A commit does not touch the rows of other users. */
  lemma CommitTouchesOneUser(s: Settings, sys: World, c: Client, key: Key)
    requires Ready(c) && DecisionOf(s, c).Commit?
    requires (key.AccountKey? || key.OperationKey? || key.LedgerKey?) && key.user != c.user
    ensures Lookup(After(sys.rows, Sent(s, c)), key) == Lookup(sys.rows, key)
  {
    hide Decide, ToSweep, FirstRow, PriorOf, GuardsHold;
    var writes := Sent(s, c);
    assert key !in Keys(writes);
    UnwrittenKeysKeepTheirRow(sys.rows, writes, key);
  }

  lemma OthersStayHonest(s: Settings, sys: World, i: nat, d: Client)
    requires i < |sys.clients| && Ready(sys.clients[i]) && DecisionOf(s, sys.clients[i]).Commit?
    requires Answered(sys.rows, Sent(s, sys.clients[i])) == Committed && Honest(sys, d)
    ensures Honest(Finished(s, sys, i), d)
  {
    hide Decide, ToSweep, FirstRow, Older, Current, Answered, After, WritesOf, CallsOf;
    var c := sys.clients[i];
    var after := Finished(s, sys, i);
    CommitWritesArePuts(c.user, c.op, SeenBy(c), DecisionOf(s, c), c.clock.value);
    TransactionGrows(sys.rows, Sent(s, c));
    if d.Working? {
      if d.first.Some? {
        OlderStays(sys.rows, after.rows, FirstKey(d.user, d.op), d.first.value);
      }
      if d.account.Some? {
        OlderStays(sys.rows, after.rows, AccountKey(d.user), d.account.value);
      }
      forall k | 0 <= k < |d.receipts|
        ensures Older(after.rows, ReceiptKey(d.user, Sweeping(d)[k]), d.receipts[k])
      {
        OlderStays(sys.rows, after.rows, ReceiptKey(d.user, Sweeping(d)[k]), d.receipts[k]);
      }
      CallsAfter(sys.log, c.user, Call(c.op, c.clock.value), d.user);
      if d.user == c.user {
        if d.account.Some? {
          CommitOutdates(s, sys, c, d);
        }
      } else {
        assert CallsOf(sys.log, d.user) + [] == CallsOf(sys.log, d.user);
        OthersStayCurrent(s, sys, i, d);
      }
    }
  }

  lemma OthersStayCurrent(s: Settings, sys: World, i: nat, d: Client)
    requires i < |sys.clients| && Ready(sys.clients[i]) && DecisionOf(s, sys.clients[i]).Commit?
    requires d.Working? && d.user != sys.clients[i].user
    ensures var after := After(sys.rows, Sent(s, sys.clients[i]));
            && (d.account.Some? ==> Current(after, AccountKey(d.user), d.account.value) == Current(sys.rows, AccountKey(d.user), d.account.value))
            && (d.account.Some? && d.clock.Some? && |d.receipts| <= |Sweeping(d)| ==>
                  forall k :: 0 <= k < |d.receipts| ==>
                    Current(after, ReceiptKey(d.user, Sweeping(d)[k]), d.receipts[k]) == Current(sys.rows, ReceiptKey(d.user, Sweeping(d)[k]), d.receipts[k]))
  {
    hide Decide, ToSweep, FirstRow, After, WritesOf;
    var c := sys.clients[i];
    CommitTouchesOneUser(s, sys, c, AccountKey(d.user));
    if d.account.Some? && d.clock.Some? && |d.receipts| <= |Sweeping(d)| {
      forall k | 0 <= k < |d.receipts|
        ensures Current(After(sys.rows, Sent(s, c)), ReceiptKey(d.user, Sweeping(d)[k]), d.receipts[k]) ==
                Current(sys.rows, ReceiptKey(d.user, Sweeping(d)[k]), d.receipts[k])
      {
        CommitTouchesOneUser(s, sys, c, ReceiptKey(d.user, Sweeping(d)[k]));
      }
    }
  }

  lemma CommitIsInTime(s: Settings, sys: World, i: nat)
    requires Serial(s, sys) && i < |sys.clients| && Ready(sys.clients[i]) && DecisionOf(s, sys.clients[i]).Commit?
    requires Answered(sys.rows, Sent(s, sys.clients[i])) == Committed
    ensures AllInTime(Finished(s, sys, i))
  {
    hide Decide, ToSweep, FirstRow, Older, Current, After, WritesOf, AllRecorded, CallsOf;
    var c := sys.clients[i];
    HonestClient(sys, i);
    CommittedReadsAreCurrent(s, sys, c);
    var after := Finished(s, sys, i);
    forall user: string
      ensures InTime(CallsOf(after.log, user)) && NoLaterThan(CallsOf(after.log, user), after.time)
    {
      CallsAfter(sys.log, c.user, Call(c.op, c.clock.value), user);
      assert InTime(CallsOf(sys.log, user)) && NoLaterThan(CallsOf(sys.log, user), sys.time);
    }
  }

  lemma FinishingStaysSerial(s: Settings, sys: World, i: nat)
    requires Serial(s, sys) && i < |sys.clients| && Ready(sys.clients[i])
    ensures Serial(s, Finished(s, sys, i))
  {
    hide AllRecorded, AllInTime, Honest, DecisionOf, Sent, Answered, After;
    var c := sys.clients[i];
    var after := Finished(s, sys, i);
    if DecisionOf(s, c).Commit? && Answered(sys.rows, Sent(s, c)) == Committed {
      CommitIsRecorded(s, sys, i);
      CommitIsInTime(s, sys, i);
      forall j | 0 <= j < |after.clients|
        ensures Honest(after, after.clients[j])
      {
        if j == i {
          IdleIsHonest(after);
        } else {
          OthersStayHonest(s, sys, i, sys.clients[j]);
        }
      }
    } else {
      IdleIsHonest(sys);
      StartingIsHonest(sys, c.user, c.op, c.attempt + 1);
      OneClientChanges(sys, i, after.clients[i]);
      SameHistory(s, sys, after);
    }
  }

  lemma IdleIsHonest(sys: World)
    ensures Honest(sys, Idle)
  {}

  lemma StartingIsHonest(sys: World, user: string, op: Operation, attempt: nat)
    ensures Honest(sys, Starting(user, op, attempt))
  {}

  lemma SameHistory(s: Settings, before: World, after: World)
    requires before.rows == after.rows && before.log == after.log && before.time <= after.time
    requires AllRecorded(s, before.rows, before.log) && AllInTime(before)
    ensures AllRecorded(s, after.rows, after.log) && AllInTime(after)
  {
    hide AllRecorded, InTime;
    forall user: string
      ensures InTime(CallsOf(after.log, user)) && NoLaterThan(CallsOf(after.log, user), after.time)
    {
      assert InTime(CallsOf(before.log, user)) && NoLaterThan(CallsOf(before.log, user), before.time);
    }
  }

  lemma StepStaysSerial(s: Settings, sys: World, step: Step)
    requires Serial(s, sys)
    ensures Serial(s, Next(s, sys, step))
  {
    hide AllRecorded, AllInTime, Honest, Finished, Ready, ToSweep;
    match step
    case Finish(i) =>
      if i < |sys.clients| && Ready(sys.clients[i]) {
        FinishingStaysSerial(s, sys, i);
      }
    case Tick(_) =>
      var after := Next(s, sys, step);
      SameHistory(s, sys, after);
      forall j | 0 <= j < |after.clients|
        ensures Honest(after, after.clients[j])
      {
        SameStoreSameHonesty(sys, after, sys.clients[j]);
      }
    case _ =>
      ReadingKeepsHonesty(s, sys, step);
      SameHistory(s, sys, Next(s, sys, step));
  }

  lemma InitialIsSerial(s: Settings, clients: nat)
    ensures Serial(s, Initial(clients))
  {}

  /**
    Serializability: in every state that any interleaving reaches, the rows of every user are the
    books that the committed operations leave when they run alone in the order of their commits, and
    their clocks do not go back. No update is lost, none is applied twice, none is seen half done.
  */
  lemma {:induction false} EveryInterleavingIsSerial(s: Settings, clients: nat, steps: seq<Step>)
    ensures var sys := Reached(s, clients, steps);
            && Serial(s, sys)
            && forall user: string :: Records(sys.rows, user, BookOf(s, sys.log, user)) && InTime(CallsOf(sys.log, user))
  {
    hide Next, Honest, Records, InTime;
    if steps == [] {
      InitialIsSerial(s, clients);
    } else {
      EveryInterleavingIsSerial(s, clients, steps[..|steps| - 1]);
      StepStaysSerial(s, Reached(s, clients, steps[..|steps| - 1]), steps[|steps| - 1]);
    }
    SerialRecords(s, Reached(s, clients, steps));
  }

  lemma SerialRecords(s: Settings, sys: World)
    requires Serial(s, sys)
    ensures forall user: string :: Records(sys.rows, user, BookOf(s, sys.log, user)) && InTime(CallsOf(sys.log, user))
  {
    hide Records, InTime, BookOf;
    forall user: string
      ensures Records(sys.rows, user, BookOf(s, sys.log, user)) && InTime(CallsOf(sys.log, user))
    {
      assert InTime(CallsOf(sys.log, user)) && NoLaterThan(CallsOf(sys.log, user), sys.time);
    }
  }
}
