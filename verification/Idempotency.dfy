/**
  At-most-once work (rt-app/core-go/idempotency/idempotency.go): executors claim a key, run the work
  and record its result, each in steps of its own, on a store that may fail before or after a write.
  Fingerprints stand for the inputs they hash, and owners, random in the source, are fresh numbers.
*/
module Idempotency {
  import opened Prelude
  import opened Store

  type Input = string
  type Result = string

  datatype Address = Address(scope: string, key: string)

  datatype State = Pending | Uncertain | Completed(result: Result)

  datatype Claim = Claim(input: Input, owner: nat, state: State)

  datatype Request = Request(address: Address, input: Input)

  datatype Failure = Conflicting | StillPending | IsUncertain | StoreFailed

  datatype Outcome = Success(result: Result) | Failed(why: Failure)

  type Rows = map<Address, Row<Claim>>

  datatype Executor =
    | Idle
    | Claiming(request: Request, owner: nat)
    | Looking(request: Request)
    | Running(request: Request, owner: nat)
    | Completing(request: Request, owner: nat, result: Result)
    | Storing(request: Request, owner: nat, result: Result, seen: Row<Claim>)
    | Marking(request: Request, owner: nat)
    | MarkingRow(request: Request, owner: nat, seen: Row<Claim>)

  /** The work that was run, and what callers were told, in the order it happened. */
  datatype Event = Worked(address: Address, owner: nat) | Told(request: Request, outcome: Outcome)

  datatype World = World(rows: Rows, executors: seq<Executor>, owners: nat, events: seq<Event>)

  /** A store call may fail before it writes, or after: written, but the reply is lost. */
  datatype Fault = NoFault | Before | LostReply

  datatype Action =
    | Execute(i: nat, request: Request)
    | SendClaim(i: nat, fault: Fault)
    | Look(i: nat)
    | Work(i: nat, result: Option<Result>)
    | ReadToComplete(i: nat)
    | SendComplete(i: nat, fault: Fault)
    | ReadToMark(i: nat)
    | SendMark(i: nat, fault: Fault)
    | Crash(i: nat)

  function Transacted(rows: Rows, w: Write<Address, Claim>): Rows {
    After(rows, [w])
  }

  function With(w: World, i: nat, e: Executor): World
    requires i < |w.executors|
  {
    w.(executors := w.executors[i := e])
  }

  function Tell(w: World, i: nat, request: Request, outcome: Outcome): World
    requires i < |w.executors|
  {
    With(w, i, Idle).(events := w.events + [Told(request, outcome)])
  }

  /** What an existing claim answers to a request. */
  function AnswerOf(c: Claim, input: Input): Outcome {
    if c.input != input then Failed(Conflicting)
    else
      match c.state
      case Completed(result) => Success(result)
      case Uncertain => Failed(IsUncertain)
      case Pending => Failed(StillPending)
  }

  /** A row a transition may change: the executor's own. */
  predicate Owns(row: Option<Row<Claim>>, request: Request, owner: nat) {
    row.Some? && row.value.data.owner == owner && row.value.data.input == request.input
  }

  function Next(w: World, a: Action): World {
    if a.i >= |w.executors| then w
    else
      var i, e := a.i, w.executors[a.i];
      match a
      case Execute(_, request) =>
        if e.Idle? then With(w, i, Claiming(request, w.owners)).(owners := w.owners + 1) else w
      case SendClaim(_, fault) =>
        if !e.Claiming? then w
        else
          var create := Put(None, e.request.address, Claim(e.request.input, e.owner, Pending));
          if fault.Before? then Tell(w, i, e.request, Failed(StoreFailed))
          else if !GuardHolds(w.rows, create) then With(w, i, Looking(e.request))
          else if fault.LostReply? then Tell(w, i, e.request, Failed(StoreFailed)).(rows := Transacted(w.rows, create))
          else With(w, i, Running(e.request, e.owner)).(rows := Transacted(w.rows, create))
      case Look(_) =>
        if !e.Looking? then w
        else
          var row := Lookup(w.rows, e.request.address);
          Tell(w, i, e.request, if row.Some? then AnswerOf(row.value.data, e.request.input) else Failed(StoreFailed))
      case Work(_, result) =>
        if !e.Running? then w
        else With(w, i, if result.Some? then Completing(e.request, e.owner, result.value) else Marking(e.request, e.owner))
               .(events := w.events + [Worked(e.request.address, e.owner)])
      case ReadToComplete(_) =>
        if !e.Completing? then w
        else
          var row := Lookup(w.rows, e.request.address);
          if !Owns(row, e.request, e.owner) then With(w, i, Marking(e.request, e.owner))
          else if row.value.data.state.Completed? then Tell(w, i, e.request, Success(e.result))
          else With(w, i, Storing(e.request, e.owner, e.result, row.value))
      case SendComplete(_, fault) =>
        if !e.Storing? then w
        else
          var write := Put(Some(e.seen), e.request.address, e.seen.data.(state := Completed(e.result)));
          if fault.Before? || !GuardHolds(w.rows, write) then With(w, i, Marking(e.request, e.owner))
          else if fault.LostReply? then With(w, i, Marking(e.request, e.owner)).(rows := Transacted(w.rows, write))
          else Tell(w, i, e.request, Success(e.result)).(rows := Transacted(w.rows, write))
      case ReadToMark(_) =>
        if !e.Marking? then w
        else
          var row := Lookup(w.rows, e.request.address);
          if !Owns(row, e.request, e.owner) || row.value.data.state.Completed? then Tell(w, i, e.request, Failed(IsUncertain))
          else With(w, i, MarkingRow(e.request, e.owner, row.value))
      case SendMark(_, fault) =>
        if !e.MarkingRow? then w
        else
          var write := Put(Some(e.seen), e.request.address, e.seen.data.(state := Uncertain));
          if fault.Before? || !GuardHolds(w.rows, write) then Tell(w, i, e.request, Failed(IsUncertain))
          else Tell(w, i, e.request, Failed(IsUncertain)).(rows := Transacted(w.rows, write))
      case Crash(_) => With(w, i, Idle)
  }

  function Initial(executors: nat): World {
    World(map[], seq(executors, i => Idle), 0, [])
  }

  function Reached(executors: nat, actions: seq<Action>): World {
    if actions == [] then Initial(executors) else Next(Reached(executors, actions[..|actions| - 1]), actions[|actions| - 1])
  }

  // ---- what holds at every step ----

  function RunsOf(address: Address): Event -> int {
    (e: Event) => if e.Worked? && e.address == address then 1 else 0
  }

  /** An executor in possession of a claim: it has an owner that the row names. */
  predicate Possesses(e: Executor) {
    e.Running? || e.Completing? || e.Storing? || e.Marking? || e.MarkingRow?
  }

  predicate HasOwner(e: Executor) {
    Possesses(e) || e.Claiming?
  }

  ghost predicate OwnersDiffer(w: World) {
    && (forall i :: 0 <= i < |w.executors| && HasOwner(w.executors[i]) ==> w.executors[i].owner < w.owners)
    && (forall i, j :: 0 <= i < j < |w.executors| && HasOwner(w.executors[i]) && HasOwner(w.executors[j]) ==> w.executors[i].owner != w.executors[j].owner)
  }

  /** The row of a claim in possession is the executor's own, as it last saw it. */
  ghost predicate Holding(rows: Rows, e: Executor) {
    Possesses(e) ==>
      && Owns(Lookup(rows, e.request.address), e.request, e.owner)
      && (e.Running? || e.Completing? || e.Storing? ==> rows[e.request.address].data.state == Pending)
      && (e.Storing? || e.MarkingRow? ==> e.seen == rows[e.request.address] && !e.seen.data.state.Completed?)
  }

  ghost predicate AllHolding(w: World) {
    forall i :: 0 <= i < |w.executors| ==> Holding(w.rows, w.executors[i])
  }

  /** Work was run at most once for a key, never before the claim, and not yet by one still to run it. */
  ghost predicate RanOnce(w: World) {
    && (forall a: Address :: 0 <= Total(w.events, RunsOf(a)) <= if a in w.rows then 1 else 0)
    && (forall i :: 0 <= i < |w.executors| && w.executors[i].Running? ==> Total(w.events, RunsOf(w.executors[i].request.address)) == 0)
  }

  /** Every success that was told is what the completed row of its key says. */
  ghost predicate Truthful(w: World) {
    forall k :: 0 <= k < |w.events| && w.events[k].Told? && w.events[k].outcome.Success? ==>
      var request := w.events[k].request;
      && request.address in w.rows
      && w.rows[request.address].data.input == request.input
      && w.rows[request.address].data.state == Completed(w.events[k].outcome.result)
  }

  ghost predicate Sound(w: World) {
    OwnersDiffer(w) && AllHolding(w) && RanOnce(w) && Truthful(w)
  }

  lemma OneWrite(rows: Rows, w: Write<Address, Claim>)
    requires GuardHolds(rows, w) && !w.delete
    ensures Transacted(rows, w) == rows[w.key := w.row]
  {
    assert Keys([w]) == [w.key];
    assert [w][..0] == [];
    assert ApplyAll(rows, [w][..0]) == rows;
  }

  // ---- one step ----

  lemma OwnersStayDifferent(w: World, a: Action)
    requires OwnersDiffer(w)
    ensures OwnersDiffer(Next(w, a))
  {
    hide GuardHolds, Transacted, AnswerOf, Owns;
  }

  /** What a step does to the rows: nothing, a new claim, or a new state of the executor's own row. */
  ghost predicate Progresses(before: Rows, after: Rows, e: Executor) {
    || after == before
    || (e.Claiming? && e.request.address !in before && after == before[e.request.address := Row(1, Claim(e.request.input, e.owner, Pending))])
    || (&& (e.Storing? || e.MarkingRow?) && e.request.address in before && e.seen == before[e.request.address]
        && after == before[e.request.address := Row(e.seen.version + 1, e.seen.data.(state := if e.Storing? then Completed(e.result) else Uncertain))])
  }

  lemma StepProgresses(w: World, a: Action)
    requires a.i < |w.executors| && Holding(w.rows, w.executors[a.i])
    ensures Progresses(w.rows, Next(w, a).rows, w.executors[a.i])
  {
    hide AnswerOf, Transacted;
    var e := w.executors[a.i];
    if a.SendClaim? && e.Claiming? {
      var create := Put(None, e.request.address, Claim(e.request.input, e.owner, Pending));
      if GuardHolds(w.rows, create) {
        OneWrite(w.rows, create);
      }
    } else if a.SendComplete? && e.Storing? {
      var write := Put(Some(e.seen), e.request.address, e.seen.data.(state := Completed(e.result)));
      if GuardHolds(w.rows, write) {
        OneWrite(w.rows, write);
      }
    } else if a.SendMark? && e.MarkingRow? {
      var write := Put(Some(e.seen), e.request.address, e.seen.data.(state := Uncertain));
      if GuardHolds(w.rows, write) {
        OneWrite(w.rows, write);
      }
    }
  }

  /** The rows of other owners stay as they are, and completed ones as well. */
  lemma OthersKeepHolding(before: Rows, after: Rows, e: Executor, other: Executor)
    requires Progresses(before, after, e) && Holding(before, e) && Holding(before, other)
    requires HasOwner(e) && Possesses(other) ==> e.owner != other.owner
    ensures Holding(after, other)
  {}

  lemma StepKeepsHolding(w: World, a: Action)
    requires OwnersDiffer(w) && AllHolding(w)
    ensures AllHolding(Next(w, a))
  {
    hide AnswerOf;
    if a.i < |w.executors| {
      var e := w.executors[a.i];
      var after := Next(w, a);
      StepProgresses(w, a);
      OwnStepHolds(w, a);
      forall j | 0 <= j < |after.executors|
        ensures Holding(after.rows, after.executors[j])
      {
        if j != a.i {
          assert after.executors[j] == w.executors[j];
          OthersKeepHolding(w.rows, after.rows, e, w.executors[j]);
        }
      }
    }
  }

  lemma OwnStepHolds(w: World, a: Action)
    requires a.i < |w.executors| && Holding(w.rows, w.executors[a.i])
    ensures Holding(Next(w, a).rows, Next(w, a).executors[a.i])
  {
    hide AnswerOf, Transacted;
    var e := w.executors[a.i];
    if a.SendClaim? && e.Claiming? {
      var create := Put(None, e.request.address, Claim(e.request.input, e.owner, Pending));
      if GuardHolds(w.rows, create) {
        OneWrite(w.rows, create);
      }
    } else if a.SendComplete? && e.Storing? {
      var write := Put(Some(e.seen), e.request.address, e.seen.data.(state := Completed(e.result)));
      if GuardHolds(w.rows, write) {
        OneWrite(w.rows, write);
      }
    }
  }

  lemma EventsAfter(w: World, a: Action)
    ensures a.i >= |w.executors| ==> Next(w, a) == w
    ensures a.i < |w.executors| ==>
              var events, e := Next(w, a).events, w.executors[a.i];
              || events == w.events
              || (a.Work? && e.Running? && events == w.events + [Worked(e.request.address, e.owner)])
              || (&& |events| == |w.events| + 1 && events[..|w.events|] == w.events
                  && events[|w.events|].Told? && events[|w.events|].request == e.request
                  && (events[|w.events|].outcome.Success? ==> Confirms(w, a, e.request, events[|w.events|].outcome.result)))
  {
    hide GuardHolds, Transacted;
  }

  /** When a success is told: the row said so, or the write that says so was just made. */
  predicate Confirms(w: World, a: Action, r: Request, result: Result) {
    a.i < |w.executors| &&
    var e := w.executors[a.i];
    || (e.Looking? && r == e.request && r.address in w.rows && AnswerOf(w.rows[r.address].data, r.input) == Success(result))
    || (e.Completing? && r == e.request && Owns(Lookup(w.rows, r.address), r, e.owner) && w.rows[r.address].data.state.Completed?)
    || (a.SendComplete? && e.Storing? && r == e.request && result == e.result && a.fault.NoFault?
        && GuardHolds(w.rows, Put(Some(e.seen), r.address, e.seen.data.(state := Completed(result)))))
  }

  lemma RunsAfter(events: seq<Event>, e: Event, address: Address)
    ensures Total(events + [e], RunsOf(address)) == Total(events, RunsOf(address)) + RunsOf(address)(e)
  {
    TotalOfOne(e, RunsOf(address));
    TotalOfConcatenation(events, [e], RunsOf(address));
  }

  lemma RunsStayCounted(w: World, a: Action, address: Address)
    ensures var e, runs := if a.i < |w.executors| then w.executors[a.i] else Idle, Total(Next(w, a).events, RunsOf(address));
            runs == Total(w.events, RunsOf(address)) + if a.Work? && e.Running? && e.request.address == address then 1 else 0
  {
    hide Next;
    EventsAfter(w, a);
    if a.i < |w.executors| {
      var events := Next(w, a).events;
      if |events| == |w.events| + 1 {
        assert events == w.events + [events[|w.events|]];
        RunsAfter(w.events, events[|w.events|], address);
      }
      WorkIsLogged(w, a);
    }
  }

  lemma WorkIsLogged(w: World, a: Action)
    requires a.i < |w.executors|
    ensures a.Work? && w.executors[a.i].Running? ==> Next(w, a).events == w.events + [Worked(w.executors[a.i].request.address, w.executors[a.i].owner)]
  {}

  lemma RunningBegins(w: World, a: Action)
    requires a.i < |w.executors| && Next(w, a).executors[a.i].Running?
    ensures Next(w, a).executors[a.i] == w.executors[a.i] ||
            (w.executors[a.i].Claiming? && w.executors[a.i].request == Next(w, a).executors[a.i].request && w.executors[a.i].request.address !in w.rows)
    ensures !(a.Work? && w.executors[a.i].Running?)
  {
    hide Transacted, AnswerOf, Owns;
  }

  lemma StepRunsOnce(w: World, a: Action)
    requires OwnersDiffer(w) && AllHolding(w) && RanOnce(w)
    ensures RanOnce(Next(w, a))
  {
    hide Next, OwnersDiffer, Total;
    if a.i < |w.executors| {
      var e, after := w.executors[a.i], Next(w, a);
      StepProgresses(w, a);
      assert Holding(w.rows, e);
      forall address: Address
        ensures 0 <= Total(after.events, RunsOf(address)) <= if address in after.rows then 1 else 0
      {
        RunsStayCounted(w, a, address);
        assert 0 <= Total(w.events, RunsOf(address)) <= if address in w.rows then 1 else 0;
      }
      OthersUntouched(w, a);
      forall j | 0 <= j < |after.executors| && after.executors[j].Running?
        ensures Total(after.events, RunsOf(after.executors[j].request.address)) == 0
      {
        RunsStayCounted(w, a, after.executors[j].request.address);
        if j == a.i {
          RunningBegins(w, a);
          assert Total(w.events, RunsOf(after.executors[j].request.address)) <= if after.executors[j].request.address in w.rows then 1 else 0;
        } else {
          assert after.executors[j] == w.executors[j];
          assert Holding(w.rows, w.executors[j]);
          if HasOwner(e) {
            OwnersTellApart(w, a.i, j);
          }
        }
      }
    } else {
      EventsAfter(w, a);
    }
  }

  lemma OthersUntouched(w: World, a: Action)
    requires a.i < |w.executors|
    ensures |Next(w, a).executors| == |w.executors|
    ensures forall j :: 0 <= j < |w.executors| && j != a.i ==> Next(w, a).executors[j] == w.executors[j]
  {
    hide GuardHolds, Transacted, AnswerOf, Owns;
  }

  lemma OwnersTellApart(w: World, i: nat, j: nat)
    requires OwnersDiffer(w) && i < |w.executors| && j < |w.executors| && i != j
    requires HasOwner(w.executors[i]) && HasOwner(w.executors[j])
    ensures w.executors[i].owner != w.executors[j].owner
  {}

  lemma StepStaysTruthful(w: World, a: Action)
    requires AllHolding(w) && Truthful(w)
    ensures Truthful(Next(w, a))
  {
    hide Next, Owns, AnswerOf;
    EventsAfter(w, a);
    if a.i < |w.executors| {
      var e, after := w.executors[a.i], Next(w, a);
      assert Holding(w.rows, e);
      StepProgresses(w, a);
      forall k | 0 <= k < |after.events| && after.events[k].Told? && after.events[k].outcome.Success?
        ensures var request := after.events[k].request;
                && request.address in after.rows && after.rows[request.address].data.input == request.input
                && after.rows[request.address].data.state == Completed(after.events[k].outcome.result)
      {
        if k < |w.events| {
          assert after.events[k] == w.events[k];
          CompletedStays(w, a, after.events[k].request.address);
        } else {
          ConfirmedIsWritten(w, a, after.events[k].outcome.result);
        }
      }
    }
  }

  /** Completed is final. */
  lemma CompletedStays(w: World, a: Action, address: Address)
    requires AllHolding(w) && address in w.rows && w.rows[address].data.state.Completed?
    ensures address in Next(w, a).rows && Next(w, a).rows[address] == w.rows[address]
  {
    hide Next;
    if a.i < |w.executors| {
      StepProgresses(w, a);
      assert Holding(w.rows, w.executors[a.i]);
    } else {
      EventsAfter(w, a);
    }
  }

  lemma ConfirmedIsWritten(w: World, a: Action, result: Result)
    requires a.i < |w.executors| && Holding(w.rows, w.executors[a.i])
    requires HasRequest(w.executors[a.i]) && Confirms(w, a, w.executors[a.i].request, result)
    ensures var request, after := w.executors[a.i].request, Next(w, a);
            && request.address in after.rows && after.rows[request.address].data.input == request.input
            && after.rows[request.address].data.state == Completed(result)
  {
    var e := w.executors[a.i];
    if a.SendComplete? && e.Storing? {
      var write := Put(Some(e.seen), e.request.address, e.seen.data.(state := Completed(e.result)));
      OneWrite(w.rows, write);
    }
  }

  predicate HasRequest(e: Executor) {
    !e.Idle?
  }

  lemma InitialIsSound(executors: nat)
    ensures Sound(Initial(executors))
  {}

  lemma {:induction false} EveryInterleavingIsSound(executors: nat, actions: seq<Action>)
    ensures Sound(Reached(executors, actions))
  {
    hide Next, OwnersDiffer, AllHolding, RanOnce, Truthful;
    if actions == [] {
      InitialIsSound(executors);
    } else {
      var n := |actions| - 1;
      var w := Reached(executors, actions[..n]);
      EveryInterleavingIsSound(executors, actions[..n]);
      OwnersStayDifferent(w, actions[n]);
      StepKeepsHolding(w, actions[n]);
      StepRunsOnce(w, actions[n]);
      StepStaysTruthful(w, actions[n]);
    }
  }

  /**
    At most once: over any interleaving of any number of executors, with failing work, lost replies
    and crashes, the work of a key runs at most once; and all callers who are told of success asked
    for the same input and get the same result.
  */
  lemma WorkRunsAtMostOnce(executors: nat, actions: seq<Action>, address: Address, i: nat, j: nat)
    ensures var w := Reached(executors, actions);
            && 0 <= Total(w.events, RunsOf(address)) <= 1
            && (i < |w.events| && j < |w.events|
                && w.events[i].Told? && w.events[i].outcome.Success? && w.events[i].request.address == address
                && w.events[j].Told? && w.events[j].outcome.Success? && w.events[j].request.address == address
                ==> w.events[i].request.input == w.events[j].request.input && w.events[i].outcome == w.events[j].outcome)
  {
    hide Next, Reached, OwnersDiffer, AllHolding, Total;
    EveryInterleavingIsSound(executors, actions);
  }

  // ---- one executor, undisturbed ----

  // ---- one caller, undisturbed ----

  /** What an executor does when nobody comes in between and nothing goes wrong but the work. */
  function ExecutedAlone(w: World, i: nat, request: Request, work: Option<Result>): World {
    var claimed := Next(Next(w, Execute(i, request)), SendClaim(i, NoFault));
    if request.address in w.rows then Next(claimed, Look(i))
    else
      var worked := Next(claimed, Work(i, work));
      if work.Some? then Next(Next(worked, ReadToComplete(i)), SendComplete(i, NoFault))
      else Next(Next(worked, ReadToMark(i)), SendMark(i, NoFault))
  }

  /**
    An undisturbed call of a new key runs the work once, keeps its result and tells it, or marks the
    claim uncertain when the work fails; of a known key it tells what the claim says, and nothing else.
  */
  lemma AloneRunsOnce(w: World, i: nat, request: Request, work: Option<Result>)
    requires i < |w.executors| && w.executors[i].Idle?
    ensures var after := ExecutedAlone(w, i, request, work);
            if request.address !in w.rows then
              var outcome := if work.Some? then Success(work.value) else Failed(IsUncertain);
              && after.rows == w.rows[request.address := Row(2, Claim(request.input, w.owners, if work.Some? then Completed(work.value) else Uncertain))]
              && after.events == w.events + [Worked(request.address, w.owners), Told(request, outcome)]
            else
              var claim := w.rows[request.address].data;
              var outcome := if claim.input != request.input then Failed(Conflicting)
                             else if claim.state.Completed? then Success(claim.state.result)
                             else if claim.state.Uncertain? then Failed(IsUncertain)
                             else Failed(StillPending);
              after.rows == w.rows && after.events == w.events + [Told(request, outcome)]
    ensures var after := ExecutedAlone(w, i, request, work);
            after.executors == w.executors && after.owners == w.owners + 1
  {
    hide Transacted;
    if request.address !in w.rows {
      var claim := Claim(request.input, w.owners, Pending);
      OneWrite(w.rows, Put(None, request.address, claim));
      var rows := w.rows[request.address := Row(1, claim)];
      OneWrite(rows, Put(Some(Row(1, claim)), request.address, claim.(state := if work.Some? then Completed(work.value) else Uncertain)));
    }
  }

  datatype Decision = Acquired | Known(outcome: Outcome)

  class Claims {
    const store: MemoryStore<Address, Claim>

    constructor (store: MemoryStore<Address, Claim>)
      ensures this.store == store
    {
      this.store := store;
    }

    /** Creates the pending row, or reports the state of the existing one. */
    method Acquire(request: Request, owner: nat) returns (d: Decision)
      modifies store
      ensures request.address !in old(store.rows) ==>
                d == Acquired && store.rows == old(store.rows)[request.address := Row(1, Claim(request.input, owner, Pending))]
      ensures request.address in old(store.rows) ==>
                && store.rows == old(store.rows)
                && var row := old(store.rows)[request.address].data;
                   && (row.input != request.input ==> d == Known(Failed(Conflicting)))
                   && (row.input == request.input ==> match row.state
                         case Completed(result) => d == Known(Success(result))
                         case Uncertain => d == Known(Failed(IsUncertain))
                         case Pending => d == Known(Failed(StillPending)))
    {
      var create := Put(None, request.address, Claim(request.input, owner, Pending));
      SingleWrite(store.rows, create);
      var answer := store.Transact([create]);
      if answer == Committed {
        return Acquired;
      }
      var row := store.Get(request.address);
      d := Known(if row.Some? then AnswerOf(row.value.data, request.input) else Failed(StoreFailed));
    }

    /** `transition`: the owner's row takes the new state, unless it is completed already. */
    method Transition(request: Request, owner: nat, state: State) returns (ok: bool)
      modifies store
      ensures ok == Owns(old(Lookup(store.rows, request.address)), request, owner)
      ensures store.rows ==
              if ok && !old(store.rows)[request.address].data.state.Completed? then
                var row := old(store.rows)[request.address];
                old(store.rows)[request.address := Row(row.version + 1, row.data.(state := state))]
              else old(store.rows)
    {
      var row := store.Get(request.address);
      if row.None? || row.value.data.owner != owner || row.value.data.input != request.input {
        return false;
      }
      if row.value.data.state.Completed? {
        return true;
      }
      var write := Put(row, request.address, row.value.data.(state := state));
      SingleWrite(store.rows, write);
      var answer := store.Transact([write]);
      ok := answer == Committed;
    }

    /** Runs the work, whose result is `work` (None when it fails), only on a new key. */
    method Execute(request: Request, owner: nat, work: Option<Result>) returns (outcome: Outcome, ran: bool)
      modifies store
      ensures ran == (request.address !in old(store.rows))
      ensures !ran ==> store.rows == old(store.rows)
      ensures !ran ==> var row := old(store.rows)[request.address].data;
                       && (row.input != request.input ==> outcome == Failed(Conflicting))
                       && (row.input == request.input ==> match row.state
                             case Completed(result) => outcome == Success(result)
                             case Uncertain => outcome == Failed(IsUncertain)
                             case Pending => outcome == Failed(StillPending))
      ensures ran ==> outcome == (if work.Some? then Success(work.value) else Failed(IsUncertain))
      ensures ran ==> store.rows == old(store.rows)[request.address := Row(2, Claim(request.input, owner, if work.Some? then Completed(work.value) else Uncertain))]
    {
      var d := Acquire(request, owner);
      if d.Known? {
        return d.outcome, false;
      }
      ran := true;
      if work.Some? {
        var ok := Transition(request, owner, Completed(work.value));
        return Success(work.value), true;
      }
      var ok := Transition(request, owner, Uncertain);
      outcome := Failed(IsUncertain);
    }
  }

  lemma SingleWrite(rows: Rows, w: Write<Address, Claim>)
    requires !w.delete
    ensures Answered(rows, [w]) == if GuardHolds(rows, w) then Committed else Conflict
    ensures After(rows, [w]) == if GuardHolds(rows, w) then rows[w.key := w.row] else rows
  {
    assert Keys([w]) == [w.key];
    if GuardHolds(rows, w) {
      OneWrite(rows, w);
    } else {
      assert [w][0] == w;
    }
  }
}
