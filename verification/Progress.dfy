/**
  Retries are never wasted: an attempt that nobody interrupts commits. So a conflict always means
  that another operation of the same user was committed in between, and an operation gives up only
  after eight of them.
*/
module Progress {
  import opened Prelude
  import opened Store
  import opened Accounts
  import opened Operations
  import opened Books
  import opened Statement
  import opened Lifecycle
  import opened Histories
  import opened Charges
  import opened Solvency
  import opened Coverage
  import opened Transactions
  import opened Interleavings

  function ReceiptKeys(expired: seq<(string, Receipt)>): (r: seq<string>)
    ensures |r| == |expired| && forall i :: 0 <= i < |r| ==> r[i] == expired[i].0
  {
    seq(|expired|, i requires 0 <= i < |expired| => expired[i].0)
  }

  /** The sweep writes each expired receipt once, and never the caller's own. */
  lemma {:induction false} SweptKeysAreDistinct(holds: seq<Hold>, receipts: seq<Option<Data>>, skip: Option<string>)
    requires DistinctHolds(holds) && |receipts| == |holds|
    ensures Distinct(ReceiptKeys(ExpiredReceipts(holds, receipts, skip)))
    ensures forall k :: k in ReceiptKeys(ExpiredReceipts(holds, receipts, skip)) ==> Some(k) != skip && exists h :: h in holds && h.key == k
  {
    if holds != [] {
      var n := |holds| - 1;
      SweptKeysAreDistinct(holds[..n], receipts[..n], skip);
      var before := ReceiptKeys(ExpiredReceipts(holds[..n], receipts[..n], skip));
      var after := ReceiptKeys(ExpiredReceipts(holds, receipts, skip));
      assert after == before || after == before + [holds[n].key];
      forall k | k in before
        ensures k != holds[n].key
      {
        var h :| h in holds[..n] && h.key == k;
      }
      forall k | k in after
        ensures Some(k) != skip && exists h :: h in holds && h.key == k
      {
        if k in before {
          var h :| h in holds[..n] && h.key == k;
          assert h in holds;
        } else {
          assert holds[n] in holds;
        }
      }
    }
  }

  lemma {:induction false} PriorIsCurrent(rows: Rows, user: string, holds: seq<Hold>, receipts: seq<Read>, key: string)
    requires |receipts| == |holds| && exists h :: h in holds && h.key == key
    requires forall i :: 0 <= i < |holds| ==> Current(rows, ReceiptKey(user, holds[i]), receipts[i])
    ensures Current(rows, OperationKey(user, ReservationRow(key)), PriorOf(holds, receipts, key))
  {
    if holds[0].key == key {
      assert Current(rows, ReceiptKey(user, holds[0]), receipts[0]);
    } else {
      var h :| h in holds && h.key == key;
      assert h in holds[1..];
      forall i | 0 <= i < |holds| - 1
        ensures Current(rows, ReceiptKey(user, holds[1..][i]), receipts[1..][i])
      {
        assert Current(rows, ReceiptKey(user, holds[i + 1]), receipts[i + 1]);
      }
      PriorIsCurrent(rows, user, holds[1..], receipts[1..], key);
    }
  }

  lemma CurrentMeansGuard(rows: Rows, key: Key, read: Read, data: Data)
    requires Current(rows, key, read)
    ensures GuardHolds(rows, Put(read, key, data))
  {}

  /** The sweep's receipts, as the decision lists them. */
  lemma SweptOf(s: Settings, c: Client) returns (skip: Option<string>)
    requires Ready(c) && DecisionOf(s, c).Commit?
    ensures DecisionOf(s, c).expired == ExpiredReceipts(Sweeping(c), DataOfAll(c.receipts), skip)
    ensures FirstRow(c.op).Some? && FirstRow(c.op).value.ReservationRow? ==> DataOf(c.first.value).None? || skip == Some(FirstRow(c.op).value.key)
  {
    hide Decide, ToSweep;
    skip := CommitExpires(s, c.op, if FirstRow(c.op).Some? then DataOf(c.first.value) else None, AccountIn(c.account.value), DataOfAll(c.receipts), c.clock.value);
  }

  /** While the account is as it was read, the holds a client sweeps are holds of the books. */
  lemma SweptHoldsAreKept(rows: Rows, book: Book, c: Client)
    requires Ready(c) && Records(rows, c.user, book) && Current(rows, AccountKey(c.user), c.account.value) && InLifecycle(book)
    ensures DistinctHolds(Sweeping(c))
    ensures forall h :: h in Sweeping(c) ==> ReceiptRowOf(book.rows, h.key).Some?
  {
    hide Records, Current;
    CurrentAccount(rows, c.user, book, c.account.value);
    var holds := AccountOf(book).holds;
    SweepKeepsDistinct(holds, c.clock.value);
    forall h | h in Sweeping(c)
      ensures ReceiptRowOf(book.rows, h.key).Some?
    {
      assert h in holds;
      FoundHold(holds, h.key);
      assert HoldTerms(holds, h.key) == ActiveTerms(ReceiptRowOf(book.rows, h.key));
    }
  }

  lemma LedgerIsNew(rows: Rows, user: string, book: Book, p: Posted)
    requires Records(rows, user, book) && p.sequence > |book.statement|
    ensures Current(rows, LedgerKeyOf(user, p), None)
  {
    assert DataOf(Lookup(rows, LedgerKey(user, p.entry.at, p.sequence, p.seed))).None?;
  }

  /** A client that read the books of its user, as the rows still record them. */
  ghost predicate Undisturbed(rows: Rows, book: Book, c: Client) {
    && Ready(c)
    && Records(rows, c.user, book) && Determined(book) && InLifecycle(book)
    && Current(rows, AccountKey(c.user), c.account.value)
    && (FirstRow(c.op).Some? ==> Current(rows, FirstKey(c.user, c.op), c.first.value))
    && forall i :: 0 <= i < |c.receipts| ==> Current(rows, ReceiptKey(c.user, Sweeping(c)[i]), c.receipts[i])
  }

  lemma NumberedOn(s: Settings, rows: Rows, book: Book, c: Client)
    requires Undisturbed(rows, book, c) && DecisionOf(s, c).Commit?
    ensures var posted, n := DecisionOf(s, c).draft.posted, |book.statement|;
            forall j :: 0 <= j < |posted| ==> posted[j].sequence == n + j + 1
  {
    hide Decide, ToSweep, Records, Current, Determined, InLifecycle;
    CurrentReadsDecideAlone(s, rows, c, book);
    EntriesAreNumberedOn(s, book, c.op, c.clock.value);
  }

  /** The first row of a key that no hold has cannot be among the swept ones. */
  lemma TargetIsNotSwept(s: Settings, rows: Rows, book: Book, c: Client, skip: Option<string>)
    requires Undisturbed(rows, book, c) && DecisionOf(s, c).Commit?
    requires FirstRow(c.op).Some? && FirstRow(c.op).value.ReservationRow? ==> DataOf(c.first.value).None? || skip == Some(FirstRow(c.op).value.key)
    ensures var keys := ReceiptKeys(ExpiredReceipts(Sweeping(c), DataOfAll(c.receipts), skip));
            && Distinct(keys)
            && (forall k :: k in keys ==> exists h :: h in Sweeping(c) && h.key == k)
            && forall k :: k in keys ==> FirstRow(c.op) != Some(ReservationRow(k))
  {
    hide Decide, ToSweep, Records, FirstRow, Determined, InLifecycle;
    SweptHoldsAreKept(rows, book, c);
    SweptKeysAreDistinct(Sweeping(c), DataOfAll(c.receipts), skip);
    var keys := ReceiptKeys(ExpiredReceipts(Sweeping(c), DataOfAll(c.receipts), skip));
    forall k | k in keys
      ensures FirstRow(c.op) != Some(ReservationRow(k))
    {
      var h :| h in Sweeping(c) && h.key == k;
      if FirstRow(c.op) == Some(ReservationRow(k)) {
        CurrentRow(rows, c.user, book, ReservationRow(k), c.first.value);
      }
    }
  }

  /** The four groups of writes of a commit, by place. */
  lemma WriteAt(s: Settings, c: Client, i: nat)
    requires Ready(c) && DecisionOf(s, c).Commit? && i < |Sent(s, c)|
    ensures var d, ts := DecisionOf(s, c), TargetWrites(c.user, c.op, SeenBy(c).first, DecisionOf(s, c).target);
            var n, m := 1 + |ts|, 1 + |ts| + |d.expired|;
            && |ts| <= 1 && |Sent(s, c)| == m + |d.draft.posted|
            && (i == 0 ==> Sent(s, c)[i] == Put(c.account.value, AccountKey(c.user), AccountData(d.draft.account)))
            && (1 <= i < n ==> FirstRow(c.op).Some? && d.target.Some? && Sent(s, c)[i] == Put(c.first.value, OperationKey(c.user, FirstRow(c.op).value), d.target.value))
            && (n <= i < m ==> Sent(s, c)[i] == Put(PriorOf(Sweeping(c), c.receipts, d.expired[i - n].0), OperationKey(c.user, ReservationRow(d.expired[i - n].0)), ReceiptData(d.expired[i - n].1)))
            && (m <= i ==> Sent(s, c)[i] == Put(None, LedgerKeyOf(c.user, d.draft.posted[i - m]), EntryData(d.draft.posted[i - m].entry)))
  {
    hide Decide, ToSweep, PriorOf, FirstRow;
  }

  lemma UndisturbedGuards(s: Settings, rows: Rows, book: Book, c: Client)
    requires Undisturbed(rows, book, c) && DecisionOf(s, c).Commit?
    ensures GuardsHold(rows, Sent(s, c))
  {
    hide DecisionOf, ToSweep, PriorOf, Records, Determined, InLifecycle, Sent, GuardHolds, Current, FirstRow;
    var d := DecisionOf(s, c);
    var skip := SweptOf(s, c);
    TargetIsNotSwept(s, rows, book, c, skip);
    NumberedOn(s, rows, book, c);
    forall i | 0 <= i < |Sent(s, c)|
      ensures GuardHolds(rows, Sent(s, c)[i])
    {
      WriteAt(s, c, i);
      var ts := TargetWrites(c.user, c.op, SeenBy(c).first, d.target);
      var n, m := 1 + |ts|, 1 + |ts| + |d.expired|;
      if i == 0 {
        CurrentMeansGuard(rows, AccountKey(c.user), c.account.value, AccountData(d.draft.account));
      } else if i < n {
        CurrentMeansGuard(rows, OperationKey(c.user, FirstRow(c.op).value), c.first.value, d.target.value);
      } else if i < m {
        var key := d.expired[i - n].0;
        assert key == ReceiptKeys(d.expired)[i - n];
        assert key in ReceiptKeys(d.expired);
        PriorIsCurrent(rows, c.user, Sweeping(c), c.receipts, key);
        CurrentMeansGuard(rows, OperationKey(c.user, ReservationRow(key)), PriorOf(Sweeping(c), c.receipts, key), ReceiptData(d.expired[i - n].1));
      } else {
        var p := d.draft.posted[i - m];
        LedgerIsNew(rows, c.user, book, p);
        CurrentMeansGuard(rows, LedgerKeyOf(c.user, p), None, EntryData(p.entry));
      }
    }
  }

  lemma UndisturbedKeys(s: Settings, rows: Rows, book: Book, c: Client)
    requires Undisturbed(rows, book, c) && DecisionOf(s, c).Commit?
    ensures Distinct(Keys(Sent(s, c)))
  {
    hide DecisionOf, ToSweep, PriorOf, Records, Determined, InLifecycle, Sent, Current, FirstRow, TargetWrites, Undisturbed;
    ReadyWhenUndisturbed(rows, book, c);
    var d := DecisionOf(s, c);
    var skip := SweptOf(s, c);
    TargetIsNotSwept(s, rows, book, c, skip);
    NumberedOn(s, rows, book, c);
    var ks := ReceiptKeys(d.expired);
    forall i, j | 0 <= i < j < |Sent(s, c)|
      ensures Keys(Sent(s, c))[i] != Keys(Sent(s, c))[j]
    {
      WriteAt(s, c, i);
      WriteAt(s, c, j);
      var ts := TargetWrites(c.user, c.op, SeenBy(c).first, d.target);
      var n, m := 1 + |ts|, 1 + |ts| + |d.expired|;
      if n <= j < m {
        assert ks[j - n] in ks;
        if n <= i {
          assert ks[i - n] != ks[j - n];
        }
      }
    }
  }

  lemma ReadyWhenUndisturbed(rows: Rows, book: Book, c: Client)
    requires Undisturbed(rows, book, c)
    ensures Ready(c)
  {}

  /** A decision made on rows as they still are is committed, and recorded. */
  lemma UndisturbedIsRecorded(s: Settings, rows: Rows, book: Book, c: Client)
    requires Undisturbed(rows, book, c) && DecisionOf(s, c).Commit?
    ensures DecisionOf(s, c) == DecideOn(s, book, c.op, c.clock.value)
    ensures Answered(rows, Sent(s, c)) == Committed
    ensures Records(After(rows, Sent(s, c)), c.user, Apply(s, book, c.op, c.clock.value))
  {
    hide Decide, ToSweep, Records, Current, FirstRow, WritesOf, Determined, InLifecycle;
    UndisturbedGuards(s, rows, book, c);
    UndisturbedKeys(s, rows, book, c);
    CurrentReadsDecideAlone(s, rows, c, book);
    NumberedOn(s, rows, book, c);
    CommitRecords(rows, c.user, book, c.op, SeenBy(c), DecisionOf(s, c), c.clock.value);
  }

  /** In every reachable state, an attempt that was not disturbed since its reads is committed. */
  lemma UndisturbedAttemptsCommit(s: Settings, sys: World, i: nat)
    requires Serial(s, sys) && i < |sys.clients| && Ready(sys.clients[i]) && DecisionOf(s, sys.clients[i]).Commit?
    requires var c := sys.clients[i];
             && Current(sys.rows, AccountKey(c.user), c.account.value)
             && (FirstRow(c.op).Some? ==> Current(sys.rows, FirstKey(c.user, c.op), c.first.value))
    ensures Answered(sys.rows, Sent(s, sys.clients[i])) == Committed
    ensures Finished(s, sys, i).log == sys.log + [Logged(sys.clients[i].user, Call(sys.clients[i].op, sys.clients[i].clock.value))]
  {
    hide DecisionOf, ToSweep, BookOf, Records, Sent, FirstRow, Current, Older, AllInTime;
    var c := sys.clients[i];
    HonestClient(sys, i);
    var book := BookOf(s, sys.log, c.user);
    assert Records(sys.rows, c.user, book);
    BookIsSound(s, sys.log, c.user);
    UndisturbedGuards(s, sys.rows, book, c);
    UndisturbedKeys(s, sys.rows, book, c);
  }

  /**
    The store of every interleaving is in order: the rows of every user record books whose statement
    determines the account, whose holds and active receipts are the same, in which every key was
    charged at most once, and whose balances are not negative.
  */
  lemma EveryStoreIsInOrder(s: Settings, clients: nat, steps: seq<Step>, user: string)
    ensures var sys := Reached(s, clients, steps);
            var book := BookOf(s, sys.log, user);
            && Records(sys.rows, user, book)
            && Determined(book) && InLifecycle(book) && Accounted(book) && Solvent(AccountOf(book))
  {
    hide Reached, Records, Determined, InLifecycle, Accounted, Solvent, InTime;
    var sys := Reached(s, clients, steps);
    EveryInterleavingIsSerial(s, clients, steps);
    StatementDeterminesTheAccount(s, CallsOf(sys.log, user));
    HistoryIsAccounted(s, CallsOf(sys.log, user));
    HistoryIsSolvent(s, CallsOf(sys.log, user));
  }

  // ---- one client alone ----

  /** The receipts of the holds to sweep, read one after the other. */
  function ReadReceipts(s: Settings, sys: World, i: nat, n: nat): World
    decreases n
  {
    if n == 0 then sys else ReadReceipts(s, Next(s, sys, ReadReceipt(i)), i, n - 1)
  }

  /** A whole call by an idle client, with nobody in between. */
  function CallAlone(s: Settings, sys: World, i: nat, user: string, op: Operation): World {
    var begun := Next(s, Next(s, Next(s, Next(s, sys, Begin(i, user, op)), ReadFirst(i)), ReadAccount(i)), ReadClock(i));
    var held := ToSweep(op, AccountIn(Lookup(sys.rows, AccountKey(user))), sys.time);
    Next(s, ReadReceipts(s, begun, i, |held|), Finish(i))
  }

  /** A client that has read the first of its receipts as they are. */
  ghost predicate HasRead(sys: World, i: nat) {
    i < |sys.clients| &&
    var c := sys.clients[i];
    && c.Working? && c.account.Some? && c.clock.Some? && |c.receipts| <= |Sweeping(c)|
    && forall j :: 0 <= j < |c.receipts| ==> c.receipts[j] == Lookup(sys.rows, ReceiptKey(c.user, Sweeping(c)[j]))
  }

  lemma {:induction false} ReceiptsAreRead(s: Settings, sys: World, i: nat, n: nat)
    requires HasRead(sys, i) && |sys.clients[i].receipts| + n == |Sweeping(sys.clients[i])|
    ensures var after := ReadReceipts(s, sys, i, n);
            && HasRead(after, i) && after == sys.(clients := sys.clients[i := after.clients[i]])
            && after.clients[i] == sys.clients[i].(receipts := after.clients[i].receipts)
            && |after.clients[i].receipts| == |Sweeping(after.clients[i])|
    decreases n
  {
    hide ToSweep;
    if n > 0 {
      ReceiptsAreRead(s, Next(s, sys, ReadReceipt(i)), i, n - 1);
    } else {
      assert sys.clients[i := sys.clients[i]] == sys.clients;
    }
  }

  lemma BeginsByReading(s: Settings, sys: World, i: nat, user: string, op: Operation)
    requires i < |sys.clients| && sys.clients[i].Idle?
    ensures var begun := Next(s, Next(s, Next(s, Next(s, sys, Begin(i, user, op)), ReadFirst(i)), ReadAccount(i)), ReadClock(i));
            begun == sys.(clients := sys.clients[i :=
              Working(user, op, 1, Some(Lookup(sys.rows, FirstKey(user, op))), Some(Lookup(sys.rows, AccountKey(user))), Some(sys.time), [])])
  {
    hide ToSweep, FirstRow;
  }

  /**
    In every reachable state a client can have its call: undisturbed, it decides as the operation
    alone on the books of its user, and either commits what that says or leaves the store as it was.
  */
  lemma CallAloneIsApplied(s: Settings, sys: World, i: nat, user: string, op: Operation)
    requires Serial(s, sys) && i < |sys.clients| && sys.clients[i].Idle?
    ensures var after, book := CallAlone(s, sys, i, user, op), BookOf(s, sys.log, user);
            && after.clients == sys.clients && after.time == sys.time
            && (if DecideOn(s, book, op, sys.time).Commit?
                then after.log == sys.log + [Logged(user, Call(op, sys.time))] && Records(after.rows, user, Apply(s, book, op, sys.time))
                else after.rows == sys.rows && after.log == sys.log)
  {
    hide Decide, DecisionOf, ToSweep, BookOf, Records, Sent, FirstRow, Determined, InLifecycle, Apply;
    var book := BookOf(s, sys.log, user);
    assert Records(sys.rows, user, book);
    BookIsSound(s, sys.log, user);
    BeginsByReading(s, sys, i, user, op);
    var begun := Next(s, Next(s, Next(s, Next(s, sys, Begin(i, user, op)), ReadFirst(i)), ReadAccount(i)), ReadClock(i));
    var n := |ToSweep(op, AccountIn(Lookup(sys.rows, AccountKey(user))), sys.time)|;
    ReceiptsAreRead(s, begun, i, n);
    var ready := ReadReceipts(s, begun, i, n);
    var c := ready.clients[i];
    assert Undisturbed(sys.rows, book, c);
    CurrentReadsDecideAlone(s, sys.rows, c, book);
    if DecisionOf(s, c).Commit? {
      UndisturbedIsRecorded(s, sys.rows, book, c);
    }
    assert sys.clients[i := c][i := Idle] == sys.clients;
  }

  // ---- retries ----

  /** A conflict changes nothing and begins the call anew, with nothing read; the eighth one ends it. */
  lemma ConflictsAreRetried(s: Settings, sys: World, i: nat)
    requires i < |sys.clients| && Ready(sys.clients[i]) && DecisionOf(s, sys.clients[i]).Commit?
    requires Answered(sys.rows, Sent(s, sys.clients[i])) == Conflict
    ensures var c, after := sys.clients[i], Next(s, sys, Finish(i));
            && after.rows == sys.rows && after.log == sys.log && after.time == sys.time
            && after.clients == sys.clients[i := if c.attempt < 8 then Working(c.user, c.op, c.attempt + 1, None, None, None, []) else Idle]
  {
    hide DecisionOf, Sent, ToSweep;
  }

  predicate Limited(c: Client) {
    c.Working? ==> 1 <= c.attempt <= 8
  }

  lemma StepStaysLimited(s: Settings, sys: World, step: Step)
    requires forall i :: 0 <= i < |sys.clients| ==> Limited(sys.clients[i])
    ensures forall i :: 0 <= i < |Next(s, sys, step).clients| ==> Limited(Next(s, sys, step).clients[i])
  {
    hide DecisionOf, Sent, ToSweep, Answered, After;
  }

  /** No call makes more than eight attempts, in any interleaving. */
  lemma {:induction false} EightAttemptsAtMost(s: Settings, clients: nat, steps: seq<Step>)
    ensures forall i :: 0 <= i < |Reached(s, clients, steps).clients| ==> Limited(Reached(s, clients, steps).clients[i])
  {
    hide Next;
    if steps != [] {
      EightAttemptsAtMost(s, clients, steps[..|steps| - 1]);
      StepStaysLimited(s, Reached(s, clients, steps[..|steps| - 1]), steps[|steps| - 1]);
    }
  }
}
