/**
  The in-memory queue (rt-app/core-go/queue/memory.go): messages are leased in publish order, and
  settled by the delivery that holds the lease. Receipts and tokens, random in the source, are fresh
  numbers; whether a published message is valid is an input.
*/
module MemoryQueue {
  import opened Prelude

  const MAX_DELAY := 43_200_000

  type Message = string

  datatype Failed = Failed(token: nat, message: Message)

  /** One reference to an entry, shared by the queue and the deliveries made of it. */
  class QueuedMessage {
    const message: Message
    ghost const turn: nat
    var attempts: nat
    var available: int
    var receipt: Option<nat>

    constructor (message: Message, ghost turn: nat, available: int)
      ensures this.message == message && this.turn == turn && this.available == available
      ensures attempts == 0 && receipt == None
    {
      this.message, this.turn, this.available := message, turn, available;
      attempts, receipt := 0, None;
    }
  }

  datatype Delivery = Delivery(entry: QueuedMessage, receipt: nat, message: Message, attempts: nat)

  datatype Refusal = CapacityExceeded | InvalidMessage | ReceiveLimit | Stale | InvalidDelay | DeadLetterCapacity | NotAvailable

  /** What an entry holds at one moment. */
  datatype Pending = Pending(message: Message, attempts: nat, available: int, receipt: Option<nat>)

  function Messages(entries: seq<QueuedMessage>): (r: seq<Message>)
    ensures |r| == |entries| && forall i :: 0 <= i < |r| ==> r[i] == entries[i].message
  {
    seq(|entries|, i requires 0 <= i < |entries| => entries[i].message)
  }

  function FailedMessages(failed: seq<Failed>): (r: seq<Message>)
    ensures |r| == |failed| && forall i :: 0 <= i < |r| ==> r[i] == failed[i].message
  {
    seq(|failed|, i requires 0 <= i < |failed| => failed[i].message)
  }

  function Without<T>(s: seq<T>, i: nat): seq<T>
    requires i < |s|
  {
    s[..i] + s[i + 1..]
  }

  lemma LetterIsTaken(failed: seq<Failed>, index: nat)
    requires index < |failed| && forall i, j :: 0 <= i < j < |failed| ==> failed[i].token != failed[j].token
    ensures var rest := Without(failed, index);
            && |rest| == |failed| - 1
            && (forall i, j :: 0 <= i < j < |rest| ==> rest[i].token != rest[j].token)
            && (forall j :: 0 <= j < |rest| ==> rest[j] in failed && rest[j].token != failed[index].token)
            && multiset(FailedMessages(failed)) == multiset(FailedMessages(rest)) + multiset{failed[index].message}
  {
    var messages := FailedMessages(failed);
    assert messages == messages[..index] + [failed[index].message] + messages[index + 1..];
    assert FailedMessages(Without(failed, index)) == messages[..index] + messages[index + 1..];
  }

  /** Leasing: the first `limit` visible entries, each with one attempt more and a receipt of its own. */
  function Leased(before: seq<Pending>, limit: nat, now: int, lease: int, receipt: nat): (r: (seq<Pending>, seq<nat>))
    ensures |r.0| == |before| && |r.1| <= limit
    ensures forall j :: 0 <= j < |r.1| ==> r.1[j] < |before|
    ensures forall j, k :: 0 <= j < k < |r.1| ==> r.1[j] < r.1[k]
  {
    if before == [] then ([], [])
    else
      var n := |before| - 1;
      var (front, taken) := Leased(before[..n], limit, now, lease, receipt);
      var e := before[n];
      if |taken| < limit && e.available <= now then
        (front + [e.(attempts := e.attempts + 1, available := now + lease, receipt := Some(receipt + |taken|))], taken + [n])
      else (front + [e], taken)
  }

  lemma NothingLeased(limit: nat, now: int, lease: int, receipt: nat)
    ensures Leased([], limit, now, lease, receipt) == ([], [])
  {}

  lemma LeasedStep(before: seq<Pending>, i: nat, limit: nat, now: int, lease: int, receipt: nat)
    requires i < |before|
    ensures var (front, taken) := Leased(before[..i], limit, now, lease, receipt);
            var e := before[i];
            Leased(before[..i + 1], limit, now, lease, receipt) ==
            if |taken| < limit && e.available <= now then
              (front + [e.(attempts := e.attempts + 1, available := now + lease, receipt := Some(receipt + |taken|))], taken + [i])
            else (front + [e], taken)
  {
    assert before[..i + 1][..i] == before[..i];
  }

  lemma {:induction false} LeasedAt(before: seq<Pending>, limit: nat, now: int, lease: int, receipt: nat, i: nat)
    requires i < |before|
    ensures var (after, taken) := Leased(before, limit, now, lease, receipt);
            && (i !in taken ==> after[i] == before[i])
            && (i in taken ==> before[i].available <= now)
            && (forall j :: 0 <= j < |taken| && taken[j] == i ==>
                  after[i] == Pending(before[i].message, before[i].attempts + 1, now + lease, Some(receipt + j)))
            && (i !in taken && before[i].available <= now ==> |taken| == limit && forall j :: 0 <= j < |taken| ==> taken[j] < i)
  {
    var n := |before| - 1;
    var (front, taken) := Leased(before[..n], limit, now, lease, receipt);
    var (after, all) := Leased(before, limit, now, lease, receipt);
    if n > 0 {
      LeasedAt(before[..n], limit, now, lease, receipt, if i < n then i else 0);
    }
    if i == n {
      assert i !in taken;
    } else {
      assert before[..n][i] == before[i];
    }
  }

  /** What a receive has leased so far, on a snapshot of the entries. */
  ghost predicate Delivered(entries: seq<QueuedMessage>, deliveries: seq<Delivery>, taken: seq<nat>, first: nat, now: int, snapshot: seq<Pending>) {
    && |deliveries| == |taken| && |snapshot| == |entries|
    && forall j :: 0 <= j < |taken| ==>
         && taken[j] < |entries|
         && var p := snapshot[taken[j]];
            deliveries[j] == Delivery(entries[taken[j]], first + j, p.message, p.attempts) && p.receipt == Some(first + j) && p.available > now
  }

  lemma NothingDelivered(entries: seq<QueuedMessage>, first: nat, now: int, snapshot: seq<Pending>)
    requires |snapshot| == |entries|
    ensures Delivered(entries, [], [], first, now, snapshot)
  {}

  lemma DeliveredGrows(entries: seq<QueuedMessage>, deliveries: seq<Delivery>, taken: seq<nat>, first: nat, now: int, snapshot: seq<Pending>, i: nat, p: Pending)
    requires Delivered(entries, deliveries, taken, first, now, snapshot) && i < |entries|
    requires forall j :: 0 <= j < |taken| ==> taken[j] < i
    requires p.receipt == Some(first + |taken|) && p.available > now
    ensures Delivered(entries, deliveries + [Delivery(entries[i], first + |taken|, p.message, p.attempts)], taken + [i], first, now, snapshot[i := p])
  {}

  /** The entries visited so far are leased as Leased says, the others untouched. */
  ghost predicate Progress(before: seq<Pending>, present: seq<Pending>, i: nat, limit: nat, now: int, lease: int, first: nat, next: nat, deliveries: nat)
    requires i <= |before|
  {
    var (after, taken) := Leased(before[..i], limit, now, lease, first);
    && |present| == |before| && next == first + |taken| && deliveries == |taken|
    && (forall k :: 0 <= k < i ==> present[k] == after[k])
    && (forall k :: i <= k < |before| ==> present[k] == before[k])
  }

  lemma ProgressGrows(before: seq<Pending>, present: seq<Pending>, i: nat, limit: nat, now: int, lease: int, first: nat, next: nat, deliveries: nat)
    requires i < |before| && Progress(before, present, i, limit, now, lease, first, next, deliveries)
    ensures present[i] == before[i]
    ensures var e := present[i];
            var p := e.(attempts := e.attempts + 1, available := now + lease, receipt := Some(next));
            if deliveries < limit && e.available <= now then
              && Progress(before, present[i := p], i + 1, limit, now, lease, first, next + 1, deliveries + 1)
              && Leased(before[..i + 1], limit, now, lease, first).1 == Leased(before[..i], limit, now, lease, first).1 + [i]
            else
              && Progress(before, present, i + 1, limit, now, lease, first, next, deliveries)
              && Leased(before[..i + 1], limit, now, lease, first).1 == Leased(before[..i], limit, now, lease, first).1
  {
    hide Leased;
    LeasedStep(before, i, limit, now, lease, first);
  }

  class MemoryQueue {
    const capacity: nat
    const lease: int
    var entries: seq<QueuedMessage>
    var failed: seq<Failed>
    var issued: nat
    ghost var turns: nat
    ghost var accepted: multiset<Message>
    ghost var acknowledged: multiset<Message>
    ghost var settled: set<nat>

    /** Pending messages stand in the order they were queued in, within the capacity. */
    ghost predicate InTurn()
      reads this, entries
    {
      && 1 <= capacity && 1000 <= lease && |entries| <= capacity && |failed| <= capacity
      && (forall i, j :: 0 <= i < j < |entries| ==> entries[i].turn < entries[j].turn)
      && (forall i :: 0 <= i < |entries| ==> entries[i].turn < turns)
    }

    /** Receipts and tokens belong to one entry each, and no receipt is used after it was settled. */
    ghost predicate Exclusive()
      reads this, entries
    {
      && (forall i :: 0 <= i < |entries| ==> entries[i].receipt.Some? ==> entries[i].receipt.value < issued && entries[i].receipt.value !in settled)
      && (forall i, j :: 0 <= i < j < |entries| && entries[i].receipt.Some? ==> entries[i].receipt != entries[j].receipt)
      && (forall i, j :: 0 <= i < j < |failed| ==> failed[i].token != failed[j].token)
      && (forall i :: 0 <= i < |failed| ==> failed[i].token < issued)
      && (forall r :: r in settled ==> r < issued)
    }

    /** Every accepted message is pending, dead-lettered or acknowledged, once. */
    ghost predicate Conserved()
      reads this, entries
    {
      accepted == multiset(Messages(entries)) + multiset(FailedMessages(failed)) + acknowledged
    }

    ghost predicate Valid()
      reads this, entries
    {
      InTurn() && Exclusive() && Conserved()
    }

    function Snapshot(): (r: seq<Pending>)
      reads this, entries
      ensures |r| == |entries|
      ensures forall i :: 0 <= i < |r| ==> r[i] == Pending(entries[i].message, entries[i].attempts, entries[i].available, entries[i].receipt)
    {
      seq(|entries|, i requires 0 <= i < |entries| reads this, entries =>
        Pending(entries[i].message, entries[i].attempts, entries[i].available, entries[i].receipt))
    }

    constructor (capacity: nat, lease: int)
      requires 1 <= capacity && 1000 <= lease && lease % 1000 == 0
      ensures Valid() && Snapshot() == [] && failed == [] && accepted == multiset{}
    {
      this.capacity, this.lease := capacity, lease;
      entries, failed, issued := [], [], 0;
      turns, accepted, acknowledged, settled := 0, multiset{}, multiset{}, {};
    }

    method Enqueue(message: Message, now: int, ghost arriving: multiset<Message>)
      requires InTurn() && Exclusive() && |entries| < capacity
      modifies this`entries, this`turns, this`accepted
      ensures InTurn() && Exclusive() && accepted == old(accepted) + arriving
      ensures Snapshot() == old(Snapshot()) + [Pending(message, 0, now, None)]
      ensures entries[..|old(entries)|] == old(entries)
      ensures multiset(Messages(entries)) == multiset(Messages(old(entries))) + multiset{message}
    {
      var e := new QueuedMessage(message, turns, now);
      assert Messages(entries + [e]) == Messages(entries) + [message];
      entries := entries + [e];
      turns, accepted := turns + 1, accepted + arriving;
    }

    /** `valid` is what Message.Validate makes of the message; the capacity is checked first. */
    method Publish(valid: Option<Message>, now: int) returns (refusal: Option<Refusal>)
      requires Valid()
      modifies this
      ensures Valid()
      ensures refusal == if |old(entries)| >= capacity then Some(CapacityExceeded) else if valid.None? then Some(InvalidMessage) else None
      ensures refusal.None? ==> Snapshot() == old(Snapshot()) + [Pending(valid.value, 0, now, None)] && accepted == old(accepted) + multiset{valid.value}
      ensures refusal.Some? ==> Snapshot() == old(Snapshot()) && accepted == old(accepted)
      ensures failed == old(failed) && settled == old(settled)
    {
      if |entries| >= capacity {
        return Some(CapacityExceeded);
      }
      if valid.None? {
        return Some(InvalidMessage);
      }
      hide InTurn, Exclusive, Snapshot, Messages, FailedMessages;
      Enqueue(valid.value, now, multiset{valid.value});
      refusal := None;
    }

    /** The lease of a delivery holds: its receipt is current, its entry pending, its time not over. */
    predicate Holds(d: Delivery, now: int)
      reads this, d.entry
    {
      d.entry in entries && d.entry.receipt == Some(d.receipt) && d.entry.available > now
    }

    /** Two deliveries that hold a lease at once are of different entries, with different receipts. */
    lemma LeasesAreExclusive(d: Delivery, e: Delivery, now: int)
      requires Valid() && Holds(d, now) && Holds(e, now)
      ensures d.entry == e.entry <==> d.receipt == e.receipt
      ensures d.receipt !in settled
    {
      var i :| 0 <= i < |entries| && entries[i] == d.entry;
      var j :| 0 <= j < |entries| && entries[j] == e.entry;
    }

    method LeaseOne(i: nat, now: int) returns (d: Delivery)
      requires InTurn() && Exclusive() && i < |entries|
      modifies this`issued, entries[i]
      ensures InTurn() && Exclusive() && issued == old(issued) + 1
      ensures var p := old(Snapshot())[i].(attempts := old(Snapshot())[i].attempts + 1, available := now + lease, receipt := Some(old(issued)));
              Snapshot() == old(Snapshot())[i := p] && d == Delivery(entries[i], old(issued), p.message, p.attempts)
    {
      var e := entries[i];
      e.receipt := Some(issued);
      issued := issued + 1;
      e.attempts := e.attempts + 1;
      e.available := now + lease;
      d := Delivery(e, issued - 1, e.message, e.attempts);
    }

    /** Leases up to `limit` visible messages, in publish order; entries still leased are left alone. */
    method Receive(limit: int, now: int) returns (refusal: Option<Refusal>, deliveries: seq<Delivery>)
      requires Valid()
      modifies this`issued, entries
      ensures Valid()
      ensures refusal == if 1 <= limit <= 10 then None else Some(ReceiveLimit)
      ensures refusal.Some? ==> Snapshot() == old(Snapshot()) && deliveries == []
      ensures refusal.None? ==>
                var (after, taken) := Leased(old(Snapshot()), limit, now, lease, old(issued));
                Snapshot() == after && issued == old(issued) + |taken| && Delivered(entries, deliveries, taken, old(issued), now, after)
    {
      hide InTurn, Exclusive, Delivered, Leased;
      deliveries := [];
      if limit < 1 || limit > 10 {
        return Some(ReceiveLimit), [];
      }
      NothingDelivered(entries, issued, now, Snapshot());
      NothingLeased(limit, now, lease, issued);
      ghost var before := Snapshot();
      for i := 0 to |entries|
        invariant InTurn() && Exclusive()
        invariant Progress(before, Snapshot(), i, limit, now, lease, old(issued), issued, |deliveries|)
        invariant Delivered(entries, deliveries, Leased(before[..i], limit, now, lease, old(issued)).1, old(issued), now, Snapshot())
      {
        deliveries := Visit(i, limit, now, deliveries, before, old(issued));
      }
      assert before[..|entries|] == before;
      refusal := None;
    }

    /** One turn of the loop: the entry is leased when it is visible and there is room. */
    method Visit(i: nat, limit: nat, now: int, deliveries: seq<Delivery>, ghost before: seq<Pending>, ghost first: nat) returns (more: seq<Delivery>)
      requires InTurn() && Exclusive() && i < |entries| && |before| == |entries|
      requires Progress(before, Snapshot(), i, limit, now, lease, first, issued, |deliveries|)
      requires Delivered(entries, deliveries, Leased(before[..i], limit, now, lease, first).1, first, now, Snapshot())
      modifies this`issued, entries
      ensures InTurn() && Exclusive()
      ensures Progress(before, Snapshot(), i + 1, limit, now, lease, first, issued, |more|)
      ensures Delivered(entries, more, Leased(before[..i + 1], limit, now, lease, first).1, first, now, Snapshot())
    {
      assert lease >= 1000;
      ghost var taken := Leased(before[..i], limit, now, lease, first).1;
      ghost var start := Snapshot();
      ProgressGrows(before, start, i, limit, now, lease, first, issued, |deliveries|);
      assert |taken| == |deliveries| && issued == first + |taken|;
      hide InTurn, Exclusive, Delivered, Leased, Progress;
      more := deliveries;
      if |deliveries| < limit && entries[i].available <= now {
        var d := LeaseOne(i, now);
        DeliveredGrows(entries, deliveries, taken, first, now, start, i, Snapshot()[i]);
        more := deliveries + [d];
      }
    }

    // ---- settling ----

    method Remove(e: QueuedMessage) returns (ghost at: nat)
      requires InTurn() && e in entries
      modifies this`entries
      ensures at < |old(entries)| && old(entries)[at] == e && entries == Without(old(entries), at)
    {
      var kept: seq<QueuedMessage> := [];
      ghost var place :| 0 <= place < |entries| && entries[place] == e;
      for i := 0 to |entries|
        invariant kept == if i <= place then entries[..i] else entries[..place] + entries[place + 1..i]
      {
        if entries[i] != e {
          kept := kept + [entries[i]];
        }
      }
      at := place;
      entries := kept;
    }

    lemma RemovedMessages(before: seq<QueuedMessage>, at: nat)
      requires at < |before|
      ensures multiset(Messages(before)) == multiset(Messages(Without(before, at))) + multiset{before[at].message}
    {
      var messages := Messages(before);
      assert messages == messages[..at] + [messages[at]] + messages[at + 1..];
      assert Messages(Without(before, at)) == messages[..at] + messages[at + 1..];
    }

    /** The holder of a lease takes its entry off the queue, and its receipt out of use. */
    method TakeOff(d: Delivery, now: int)
      requires InTurn() && Exclusive() && Holds(d, now)
      modifies this`entries, this`settled
      ensures InTurn() && Exclusive()
      ensures d.receipt !in old(settled) && settled == old(settled) + {d.receipt} && d.entry !in entries
      ensures exists i :: 0 <= i < |old(entries)| && old(entries)[i] == d.entry && entries == Without(old(entries), i)
      ensures multiset(Messages(old(entries))) == multiset(Messages(entries)) + multiset{d.entry.message}
    {
      ghost var at := Remove(d.entry);
      RemovedMessages(old(entries), at);
      settled := settled + {d.receipt};
    }

    /** A dead letter, under a token of its own. */
    method SetAside(message: Message)
      requires InTurn() && Exclusive() && |failed| < capacity
      modifies this`failed, this`issued
      ensures InTurn() && Exclusive() && failed == old(failed) + [Failed(old(issued), message)]
      ensures multiset(FailedMessages(failed)) == multiset(FailedMessages(old(failed))) + multiset{message}
    {
      assert FailedMessages(failed + [Failed(issued, message)]) == FailedMessages(failed) + [message];
      failed := failed + [Failed(issued, message)];
      issued := issued + 1;
    }

    method TakeLetter(index: nat)
      requires InTurn() && Exclusive() && index < |failed|
      modifies this`failed
      ensures InTurn() && Exclusive() && failed == Without(old(failed), index)
      ensures forall j :: 0 <= j < |failed| ==> failed[j].token != old(failed)[index].token
      ensures multiset(FailedMessages(old(failed))) == multiset(FailedMessages(failed)) + multiset{old(failed)[index].message}
    {
      hide Without, FailedMessages;
      LetterIsTaken(failed, index);
      failed := Without(failed, index);
    }

    /** Acknowledges: the message leaves the queue for good. */
    method Ack(d: Delivery, now: int) returns (refusal: Option<Refusal>)
      requires Valid()
      modifies this
      ensures Valid() && failed == old(failed) && accepted == old(accepted)
      ensures refusal == if old(Holds(d, now)) then None else Some(Stale)
      ensures refusal.None? ==>
                && d.receipt !in old(settled) && settled == old(settled) + {d.receipt} && d.entry !in entries
                && (exists i :: 0 <= i < |old(entries)| && old(entries)[i] == d.entry && entries == Without(old(entries), i))
                && acknowledged == old(acknowledged) + multiset{d.entry.message}
      ensures refusal.Some? ==> entries == old(entries) && settled == old(settled) && acknowledged == old(acknowledged)
    {
      if !Holds(d, now) {
        return Some(Stale);
      }
      TakeOff(d, now);
      acknowledged := acknowledged + multiset{d.entry.message};
      refusal := None;
    }

    /** Gives the message back: visible after the delay, its receipt void. */
    method Retry(d: Delivery, delay: int, now: int) returns (refusal: Option<Refusal>)
      requires Valid()
      modifies this`settled, d.entry
      ensures Valid()
      ensures refusal == if !old(Holds(d, now)) then Some(Stale) else if !(0 <= delay <= MAX_DELAY && delay % 1000 == 0) then Some(InvalidDelay) else None
      ensures refusal.None? ==>
                && d.receipt !in old(settled) && settled == old(settled) + {d.receipt}
                && d.entry.receipt == None && d.entry.available == now + delay && d.entry.attempts == old(d.entry.attempts)
      ensures refusal.Some? ==> settled == old(settled) && d.entry.receipt == old(d.entry.receipt) && d.entry.available == old(d.entry.available)
    {
      if !Holds(d, now) {
        return Some(Stale);
      }
      if !(0 <= delay <= MAX_DELAY && delay % 1000 == 0) {
        return Some(InvalidDelay);
      }
      d.entry.receipt := None;
      d.entry.available := now + delay;
      settled := settled + {d.receipt};
      refusal := None;
    }

    /** Renews a lease: the receipt stays good, until the new time. */
    method Extend(d: Delivery, delay: int, now: int) returns (refusal: Option<Refusal>)
      requires Valid()
      modifies d.entry
      ensures Valid()
      ensures refusal == if !old(Holds(d, now)) then Some(Stale) else if !(0 <= delay <= MAX_DELAY && delay % 1000 == 0) then Some(InvalidDelay) else None
      ensures d.entry.receipt == old(d.entry.receipt) && d.entry.attempts == old(d.entry.attempts)
      ensures d.entry.available == if refusal.None? then now + delay else old(d.entry.available)
    {
      if !Holds(d, now) {
        return Some(Stale);
      }
      if !(0 <= delay <= MAX_DELAY && delay % 1000 == 0) {
        return Some(InvalidDelay);
      }
      d.entry.available := now + delay;
      refusal := None;
    }

    /** Sets the message aside for inspection. */
    method DeadLetter(d: Delivery, now: int) returns (refusal: Option<Refusal>)
      requires Valid()
      modifies this
      ensures Valid() && accepted == old(accepted) && acknowledged == old(acknowledged)
      ensures refusal == if !old(Holds(d, now)) then Some(Stale) else if |old(failed)| >= capacity then Some(DeadLetterCapacity) else None
      ensures refusal.None? ==>
                && d.receipt !in old(settled) && settled == old(settled) + {d.receipt} && d.entry !in entries
                && (exists i :: 0 <= i < |old(entries)| && old(entries)[i] == d.entry && entries == Without(old(entries), i))
                && failed == old(failed) + [Failed(old(issued), d.entry.message)]
      ensures refusal.Some? ==> entries == old(entries) && failed == old(failed) && settled == old(settled)
    {
      if !Holds(d, now) {
        return Some(Stale);
      }
      if |failed| >= capacity {
        return Some(DeadLetterCapacity);
      }
      hide InTurn, Exclusive;
      SetAside(d.entry.message);
      TakeOff(d, now);
      refusal := None;
    }

    /** Moves a dead letter back to the end of the queue, once, when there is room. */
    method RetryFailure(token: nat, now: int) returns (refusal: Option<Refusal>)
      requires Valid()
      modifies this
      ensures Valid() && acknowledged == old(acknowledged) && accepted == old(accepted) && settled == old(settled)
      ensures refusal == if !exists i :: 0 <= i < |old(failed)| && old(failed)[i].token == token then Some(NotAvailable)
                         else if |old(entries)| >= capacity then Some(CapacityExceeded) else None
      ensures refusal.None? ==>
                exists i :: 0 <= i < |old(failed)| && old(failed)[i].token == token && failed == Without(old(failed), i)
                  && Snapshot() == old(Snapshot()) + [Pending(old(failed)[i].message, 0, now, None)]
                  && forall j :: 0 <= j < |failed| ==> failed[j].token != token
      ensures refusal.Some? ==> Snapshot() == old(Snapshot()) && failed == old(failed)
    {
      hide InTurn, Exclusive, Conserved;
      var index := FindLetter(token);
      if index == |failed| {
        return Some(NotAvailable);
      }
      if |entries| >= capacity {
        return Some(CapacityExceeded);
      }
      Requeue(index, now);
      refusal := None;
    }

    method FindLetter(token: nat) returns (index: nat)
      ensures index <= |failed| && (forall j :: 0 <= j < index ==> failed[j].token != token)
      ensures index < |failed| ==> failed[index].token == token
    {
      index := 0;
      while index < |failed| && failed[index].token != token
        invariant 0 <= index <= |failed| && forall j :: 0 <= j < index ==> failed[j].token != token
      {
        index := index + 1;
      }
    }

    method Requeue(index: nat, now: int)
      requires Valid() && index < |failed| && |entries| < capacity
      modifies this`entries, this`turns, this`failed, this`accepted
      ensures Valid() && accepted == old(accepted)
      ensures failed == Without(old(failed), index) && forall j :: 0 <= j < |failed| ==> failed[j].token != old(failed)[index].token
      ensures Snapshot() == old(Snapshot()) + [Pending(old(failed)[index].message, 0, now, None)]
    {
      hide InTurn, Exclusive;
      Enqueue(failed[index].message, now, multiset{});
      TakeLetter(index);
      assert Conserved();
    }
  }

  // ---- retry delays ----

  function PowerOfTwo(n: nat): (r: nat)
    ensures r >= 1
  {
    if n == 0 then 1 else 2 * PowerOfTwo(n - 1)
  }

  /** `backoff`, in seconds: `random` in [0, 1) of the capped exponential delay, both ends included. */
  function Backoff(delayed: bool, attempts: nat, base: nat, maximum: nat, random: real): int
    requires attempts >= 1 && 0.0 <= random < 1.0
  {
    if !delayed then 0
    else (random * (Min(maximum, base * PowerOfTwo(Min(attempts - 1, 20))) + 1) as real).Floor
  }

  lemma ProductOf(a: real, b: real)
    requires a >= 0.0 && b > 0.0
    ensures a * b >= 0.0 && (a > 0.0 ==> a * b > 0.0)
  {}

  lemma FractionOf(random: real, n: nat)
    requires 0.0 <= random < 1.0
    ensures 0 <= (random * (n + 1) as real).Floor <= n
  {
    var x := (n + 1) as real;
    ProductOf(random, x);
    ProductOf(1.0 - random, x);
    assert (1.0 - random) * x == x - random * x;
    var y := random * x;
    assert 0.0 <= y < x;
    assert y.Floor as real <= y;
    assert y.Floor as real < (n + 1) as real;
  }

  lemma PowersScale(base: nat, n: nat)
    ensures base * PowerOfTwo(n) >= base
  {}

  /** A worker always asks for a legal delay, never above its maximum nor above the exponential. */
  lemma BackoffIsLegal(attempts: nat, base: nat, maximum: nat, random: real)
    requires attempts >= 1 && 0.0 <= random < 1.0 && base <= maximum && maximum * 1000 <= MAX_DELAY
    ensures var delay := Backoff(true, attempts, base, maximum, random);
            && 0 <= delay <= maximum && 0 <= delay * 1000 <= MAX_DELAY && delay * 1000 % 1000 == 0
            && delay <= base * PowerOfTwo(Min(attempts - 1, 20))
  {
    PowersScale(base, Min(attempts - 1, 20));
    FractionOf(random, Min(maximum, base * PowerOfTwo(Min(attempts - 1, 20))));
  }

  lemma {:induction false} PowersDouble(m: nat, n: nat)
    ensures PowerOfTwo(m + n) == PowerOfTwo(m) * PowerOfTwo(n) && PowerOfTwo(1) == 2
  {
    if m > 0 {
      PowersDouble(m - 1, n);
      assert PowerOfTwo(m + n) == 2 * PowerOfTwo(m - 1 + n);
    }
  }

  /** The most that a delay may be: twice as much with every attempt, up to the maximum, and no more after the 21st. */
  function Ceiling(attempts: nat, base: nat, maximum: nat): nat
    requires attempts >= 1
  {
    Min(maximum, base * PowerOfTwo(Min(attempts - 1, 20)))
  }

  /** A delay is drawn evenly: every whole number of seconds up to the ceiling has an equal share of the random numbers. */
  lemma DelaysAreDrawnEvenly(attempts: nat, base: nat, maximum: nat, random: real, delay: nat)
    requires attempts >= 1 && 0.0 <= random < 1.0 && delay <= Ceiling(attempts, base, maximum)
    ensures var choices := (Ceiling(attempts, base, maximum) + 1) as real;
            Backoff(true, attempts, base, maximum, random) == delay <==> delay as real / choices <= random < (delay + 1) as real / choices
    ensures Backoff(false, attempts, base, maximum, random) == 0
  {
    hide PowerOfTwo;
    var choices := (Ceiling(attempts, base, maximum) + 1) as real;
    ShareOf(random, choices, delay as real);
    ShareOf(random, choices, (delay + 1) as real);
    assert Backoff(true, attempts, base, maximum, random) == (random * choices).Floor;
  }

  lemma ShareOf(random: real, choices: real, x: real)
    requires choices >= 1.0
    ensures x / choices <= random <==> x <= random * choices
  {
    var y := x / choices;
    assert y * choices == x;
    if y <= random {
      ScaledUp(y, random, choices);
    } else {
      ScaledUp(random, y, choices);
    }
  }

  lemma ScaledUp(a: real, b: real, k: real)
    requires k >= 1.0
    ensures a <= b ==> a * k <= b * k
    ensures a < b ==> a * k < b * k
  {
    var d := b - a;
    assert d >= 0.0 ==> d * k >= 0.0;
    assert d > 0.0 ==> d * k > 0.0;
    assert b * k - a * k == d * k;
  }
}
