/**
  Migrations under a lease (rt-app/core-go/migrations/migrations.go). Runners take a lock row that
  expires, renew it before every step and guard every record with its version. The migrations of the
  plan are numbered in declaration order. Any number of runners, stalling, crashing, taking over and
  releasing, keep the applied migrations a prefix of the plan - as long as a released lock row is not
  created anew while a runner from before still believes it holds it.
*/
module Migrations {
  import opened Prelude

  const LEASE := 60_000

  datatype Lock = Lock(version: nat, owner: nat, expiresAt: int)

  datatype Target = All | Step(n: int) | To(id: nat)

  datatype Job = Up(target: Target) | Down(target: Target)

  datatype Phase = Renewing | Working | Committing(present: bool)

  datatype Runner =
    | Idle
    | Acquiring(job: Job, seen: Option<Lock>)
    | Reading(job: Job, version: nat)
    | Running(job: Job, version: nat, targets: seq<nat>, phase: Phase)
    | Leaving(version: nat)
    | Deleting(version: nat)

  datatype World = World(size: nat, reversible: set<nat>, lock: Option<Lock>, applied: set<nat>, runners: seq<Runner>, time: int)

  // ---- which migrations a job is about ----

  /** The end of slice(0, n) on a list of some length. */
  function SliceEnd(n: int, size: nat): (r: nat)
    ensures r <= size
  {
    if n < 0 then Max(size + n, 0) else Min(n, size)
  }

  /** The migrations from some place on that are not applied, in plan order. */
  function Pending(from: nat, size: nat, applied: set<nat>): seq<nat>
    requires from <= size
    decreases size - from
  {
    if from == size then [] else (if from in applied then [] else [from]) + Pending(from + 1, size, applied)
  }

  /** The applied migrations below some place, latest first. */
  function Latest(below: nat, applied: set<nat>): seq<nat> {
    if below == 0 then [] else (if below - 1 in applied then [below - 1] else []) + Latest(below - 1, applied)
  }

  function IndexOf(ids: seq<nat>, id: nat): Option<nat> {
    if ids == [] then None
    else if ids[0] == id then Some(0)
    else match IndexOf(ids[1..], id) case None => None case Some(i) => Some(i + 1)
  }

  lemma {:induction false} IndexFits(ids: seq<nat>, id: nat)
    ensures IndexOf(ids, id).Some? ==> IndexOf(ids, id).value < |ids| && ids[IndexOf(ids, id).value] == id
    ensures IndexOf(ids, id).None? <==> id !in ids
  {
    if ids != [] {
      IndexFits(ids[1..], id);
      assert ids == [ids[0]] + ids[1..];
    }
  }

  function Selected(ids: seq<nat>, target: Target, standard: nat): Option<seq<nat>> {
    match target
    case To(id) =>
      IndexFits(ids, id);
      if IndexOf(ids, id).Some? then Some(ids[..IndexOf(ids, id).value + 1]) else None
    case Step(n) => Some(ids[..SliceEnd(n, |ids|)])
    case All => Some(ids[..SliceEnd(standard, |ids|)])
  }

  /** What a job works through, or None when it refuses: Down takes one step by default. */
  function TargetsOf(w: World, job: Job): Option<seq<nat>> {
    match job
    case Up(target) => Selected(Pending(0, w.size, w.applied), target, |Pending(0, w.size, w.applied)|)
    case Down(target) =>
      var chosen := Selected(Latest(w.size, w.applied), target, 1);
      if chosen.Some? && forall i :: 0 <= i < |chosen.value| ==> chosen.value[i] in w.reversible then chosen else None
  }

  // ---- steps ----

  datatype Action =
    | Start(runner: nat, job: Job)
    | TakeLock(runner: nat)
    | ReadHistory(runner: nat, verified: bool)
    | Renew(runner: nat)
    | Work(runner: nat, succeeds: bool)
    | Commit(runner: nat)
    | Leave(runner: nat)
    | Delete(runner: nat)
    | Crash(runner: nat)
    | Tick(ms: nat)

  function With(w: World, i: nat, r: Runner): World
    requires i < |w.runners|
  {
    w.(runners := w.runners[i := r])
  }

  /** The guard of every write of a lease holder: the lock row has the version it knows. */
  predicate Guarded(w: World, version: nat) {
    w.lock.Some? && w.lock.value.version == version
  }

  function Renewed(w: World, i: nat, version: nat): Option<Lock> {
    Some(Lock(version + 1, i, w.time + LEASE))
  }

  function Next(w: World, a: Action): World {
    if a.Tick? then w.(time := w.time + a.ms)
    else if a.runner >= |w.runners| then w
    else
      var i, r := a.runner, w.runners[a.runner];
      match a
      case Start(_, job) =>
        if !r.Idle? || (w.lock.Some? && w.lock.value.expiresAt > w.time) then w else With(w, i, Acquiring(job, w.lock))
      case TakeLock(_) =>
        if !r.Acquiring? then w
        else if (r.seen.None? && w.lock.None?) || (r.seen.Some? && Guarded(w, r.seen.value.version)) then
          var version := if r.seen.Some? then r.seen.value.version + 1 else 1;
          With(w, i, Reading(r.job, version)).(lock := Some(Lock(version, i, w.time + LEASE)))
        else With(w, i, Idle)
      case ReadHistory(_, verified) =>
        if !r.Reading? then w
        else if verified && TargetsOf(w, r.job).Some? then With(w, i, Running(r.job, r.version, TargetsOf(w, r.job).value, Renewing))
        else With(w, i, Leaving(r.version))
      case Renew(_) =>
        if !r.Running? || !r.phase.Renewing? then w
        else if r.targets == [] || !Guarded(w, r.version) then With(w, i, Leaving(r.version))
        else With(w, i, r.(version := r.version + 1, phase := Working)).(lock := Renewed(w, i, r.version))
      case Work(_, succeeds) =>
        if !r.Running? || !r.phase.Working? || r.targets == [] then w
        else if succeeds then With(w, i, r.(phase := Committing(r.targets[0] in w.applied)))
        else With(w, i, Leaving(r.version))
      case Commit(_) =>
        if !r.Running? || !r.phase.Committing? || r.targets == [] then w
        else if Guarded(w, r.version) && (r.job.Up? ==> r.targets[0] !in w.applied) && (r.job.Down? && r.phase.present ==> r.targets[0] in w.applied) then
          With(w, i, r.(version := r.version + 1, targets := r.targets[1..], phase := Renewing))
            .(lock := Renewed(w, i, r.version),
              applied := if r.job.Up? then w.applied + {r.targets[0]} else if r.phase.present then w.applied - {r.targets[0]} else w.applied)
        else With(w, i, Leaving(r.version))
      case Leave(_) =>
        if !r.Leaving? then w
        else if Guarded(w, r.version) && w.lock.value.owner == i then With(w, i, Deleting(r.version))
        else With(w, i, Idle)
      case Delete(_) =>
        if !r.Deleting? then w
        else if Guarded(w, r.version) then With(w, i, Idle).(lock := None)
        else With(w, i, Idle)
      case Crash(_) => With(w, i, Idle)
  }

  function Initial(size: nat, reversible: set<nat>, runners: nat): World {
    World(size, reversible, None, {}, seq(runners, i => Idle), 0)
  }

  function Reached(w: World, actions: seq<Action>): World {
    if actions == [] then w else Next(Reached(w, actions[..|actions| - 1]), actions[|actions| - 1])
  }

  // ---- tenure ----

  /** A runner that took the lock and has not left it. */
  predicate Tenured(r: Runner) {
    r.Reading? || r.Running? || r.Leaving? || r.Deleting?
  }

  /** A step that creates the lock row finds nobody who took an earlier one and has not left it. */
  predicate NobodyStalled(w: World, a: Action) {
    a.TakeLock? && a.runner < |w.runners| && w.runners[a.runner].Acquiring? && w.runners[a.runner].seen.None? && w.lock.None? ==>
      forall j :: 0 <= j < |w.runners| ==> !Tenured(w.runners[j])
  }

  predicate NeverAfreshUnderOthers(w: World, actions: seq<Action>) {
    actions == [] ||
    (NeverAfreshUnderOthers(w, actions[..|actions| - 1]) && NobodyStalled(Reached(w, actions[..|actions| - 1]), actions[|actions| - 1]))
  }

  /** Versions tell tenures apart: while there is a lock row, only the last one to take it knows its version. */
  ghost predicate Exclusive(w: World) {
    forall i :: 0 <= i < |w.runners| && Tenured(w.runners[i]) && w.lock.Some? ==>
      && w.runners[i].version <= w.lock.value.version
      && (w.runners[i].version == w.lock.value.version ==> w.lock.value.owner == i)
  }

  lemma StepStaysExclusive(w: World, a: Action)
    requires Exclusive(w) && NobodyStalled(w, a)
    ensures Exclusive(Next(w, a))
  {
    hide TargetsOf;
  }

  // ---- the applied migrations ----

  function FirstOf(k: nat): (r: set<nat>)
    ensures forall m: nat :: m in r <==> m < k
  {
    if k == 0 then {} else FirstOf(k - 1) + {k - 1}
  }

  /** What the holder of the lock still has to do goes on where the applied migrations end. */
  predicate GoesOn(r: Runner, k: nat, size: nat) {
    r.Running? ==>
      && (r.phase.Committing? ==> r.phase.present == r.job.Down?)
      && if r.job.Up? then k + |r.targets| <= size && forall j :: 0 <= j < |r.targets| ==> r.targets[j] == k + j
      else |r.targets| <= k && forall j :: 0 <= j < |r.targets| ==> r.targets[j] == k - 1 - j
  }

  ghost predicate InPlan(w: World, k: nat) {
    && k <= w.size && w.applied == FirstOf(k)
    && forall i :: 0 <= i < |w.runners| && Tenured(w.runners[i]) && Guarded(w, w.runners[i].version) ==> GoesOn(w.runners[i], k, w.size)
  }

  lemma {:induction false} PendingOfPrefix(from: nat, size: nat, k: nat)
    requires from <= size && k <= size
    ensures var p := Pending(from, size, FirstOf(k));
            && |p| == size - Max(from, k)
            && forall j :: 0 <= j < |p| ==> p[j] == Max(from, k) + j
    decreases size - from
  {
    if from < size {
      PendingOfPrefix(from + 1, size, k);
    }
  }

  lemma {:induction false} LatestOfPrefix(below: nat, k: nat)
    ensures var p := Latest(below, FirstOf(k));
            && |p| == Min(below, k)
            && forall j :: 0 <= j < |p| ==> p[j] == Min(below, k) - 1 - j
  {
    if below > 0 {
      LatestOfPrefix(below - 1, k);
    }
  }

  /** A job that reads a prefix works through what follows it, or backwards from its end. */
  lemma TargetsGoOn(w: World, job: Job, version: nat, k: nat)
    requires k <= w.size && w.applied == FirstOf(k) && TargetsOf(w, job).Some?
    ensures GoesOn(Running(job, version, TargetsOf(w, job).value, Renewing), k, w.size)
  {
    hide Pending, Latest, IndexOf, FirstOf;
    PendingOfPrefix(0, w.size, k);
    LatestOfPrefix(w.size, k);
    var ids := if job.Up? then Pending(0, w.size, w.applied) else Latest(w.size, w.applied);
    if job.target.To? {
      IndexFits(ids, job.target.id);
    }
  }

  /** How many migrations an Up applies when k of them are applied; none when its target is not pending. */
  function UpCount(target: Target, k: nat, size: nat): Option<int>
    requires k <= size
  {
    match target
    case All => Some(size - k)
    case Step(n) => Some(if n >= 0 then Min(n, size - k) else Max(size - k + n, 0))
    case To(m) => if k <= m < size then Some(m + 1 - k) else None
  }

  /** How many a Down reverts, one by default; none when its target is not applied. */
  function DownCount(target: Target, k: nat): Option<int> {
    match target
    case All => Some(Min(1, k))
    case Step(n) => Some(if n >= 0 then Min(n, k) else Max(k + n, 0))
    case To(m) => if m < k then Some(k - m) else None
  }

  function Count(chosen: Option<seq<nat>>): Option<int> {
    match chosen case None => None case Some(ids) => Some(|ids|)
  }

  lemma UpInNumbers(target: Target, k: nat, size: nat)
    requires k <= size
    ensures var pending := Pending(0, size, FirstOf(k));
            Count(Selected(pending, target, |pending|)) == UpCount(target, k, size)
  {
    hide Pending, IndexOf, FirstOf;
    PendingOfPrefix(0, size, k);
    var pending := Pending(0, size, FirstOf(k));
    if target.To? {
      IndexFits(pending, target.id);
      assert k <= target.id < size ==> pending[target.id - k] == target.id;
    }
  }

  lemma DownInNumbers(target: Target, k: nat, size: nat)
    requires k <= size
    ensures Count(Selected(Latest(size, FirstOf(k)), target, 1)) == DownCount(target, k)
  {
    hide Latest, IndexOf, FirstOf;
    LatestOfPrefix(size, k);
    var applied := Latest(size, FirstOf(k));
    if target.To? {
      IndexFits(applied, target.id);
      assert target.id < k ==> applied[k - 1 - target.id] == target.id;
    }
  }

  /**
    What a job that reads the first k as applied works through, in numbers. An Up without a target
    takes all that follow; a step counts from the near end, a negative one leaves as many at the far
    end; a named target is included. A Down refuses when one of its targets cannot be reverted.
  */
  lemma TargetsInNumbers(w: World, job: Job, k: nat)
    requires k <= w.size && w.applied == FirstOf(k)
    ensures job.Up? ==> Count(TargetsOf(w, job)) == UpCount(job.target, k, w.size)
    ensures job.Down? ==>
              var n := DownCount(job.target, k);
              Count(TargetsOf(w, job)) == if n.Some? && forall m: nat :: k - n.value <= m < k ==> m in w.reversible then n else None
  {
    hide Pending, Latest, IndexOf, FirstOf, Selected;
    UpInNumbers(job.target, k, w.size);
    DownInNumbers(job.target, k, w.size);
    if job.Down? && DownCount(job.target, k).Some? {
      LatestOfPrefix(w.size, k);
      var chosen := Selected(Latest(w.size, w.applied), job.target, 1).value;
      SelectedIsPrefix(Latest(w.size, w.applied), job.target, 1);
      LatestAreReversible(chosen, k, w.reversible);
    }
  }

  lemma LatestAreReversible(ids: seq<nat>, k: nat, reversible: set<nat>)
    requires |ids| <= k && forall j :: 0 <= j < |ids| ==> ids[j] == k - 1 - j
    ensures (forall j :: 0 <= j < |ids| ==> ids[j] in reversible) <==> forall m: nat :: k - |ids| <= m < k ==> m in reversible
  {
    if forall j :: 0 <= j < |ids| ==> ids[j] in reversible {
      forall m: nat | k - |ids| <= m < k
        ensures m in reversible
      {
        assert ids[k - 1 - m] == m;
      }
    }
  }

  lemma SelectedIsPrefix(ids: seq<nat>, target: Target, standard: nat)
    ensures var chosen := Selected(ids, target, standard);
            chosen.Some? ==> |chosen.value| <= |ids| && forall i :: 0 <= i < |chosen.value| ==> chosen.value[i] == ids[i]
  {
    if target.To? {
      IndexFits(ids, target.id);
    }
  }

  lemma FirstOfSteps(k: nat)
    ensures FirstOf(k + 1) == FirstOf(k) + {k} && FirstOf(k + 1) - {k} == FirstOf(k) && k !in FirstOf(k)
  {}

  lemma StepStaysInPlan(w: World, a: Action, k: nat) returns (k': nat)
    requires Exclusive(w) && NobodyStalled(w, a) && InPlan(w, k)
    ensures InPlan(Next(w, a), k')
  {
    hide TargetsOf, FirstOf;
    k' := k;
    if !a.Tick? && a.runner < |w.runners| {
      var r := w.runners[a.runner];
      if a.ReadHistory? && r.Reading? && TargetsOf(w, r.job).Some? {
        TargetsGoOn(w, r.job, r.version, k);
      }
      if a.Commit? && r.Running? && r.phase.Committing? && r.targets != [] && Guarded(w, r.version) {
        assert GoesOn(r, k, w.size);
        if r.job.Up? {
          FirstOfSteps(k);
          k' := k + 1;
        } else {
          FirstOfSteps(k - 1);
          if r.phase.present {
            k' := k - 1;
          }
        }
      }
    }
  }

  lemma InitialIsInPlan(size: nat, reversible: set<nat>, runners: nat)
    ensures Exclusive(Initial(size, reversible, runners)) && InPlan(Initial(size, reversible, runners), 0)
  {}

  /**
    Whatever Ups and Downs run, stall, fail, crash, take over and release, the applied migrations are
    a prefix of the plan, provided that the lock row is never created anew in another one's tenure.
  */
  lemma {:induction false} HistoryStaysAPrefix(size: nat, reversible: set<nat>, runners: nat, actions: seq<Action>) returns (k: nat)
    requires NeverAfreshUnderOthers(Initial(size, reversible, runners), actions)
    ensures var w := Reached(Initial(size, reversible, runners), actions);
            Exclusive(w) && InPlan(w, k) && k <= size && forall m: nat :: m in w.applied <==> m < k
  {
    hide Next, InPlan, Exclusive, FirstOf, NobodyStalled;
    var start := Initial(size, reversible, runners);
    if actions == [] {
      InitialIsInPlan(size, reversible, runners);
      k := 0;
    } else {
      var n := |actions| - 1;
      var before := HistoryStaysAPrefix(size, reversible, runners, actions[..n]);
      StepStaysExclusive(Reached(start, actions[..n]), actions[n]);
      k := StepStaysInPlan(Reached(start, actions[..n]), actions[n], before);
    }
    PlanOf(Reached(start, actions), k);
    SizeStays(start, actions);
  }

  lemma PlanOf(w: World, k: nat)
    requires InPlan(w, k)
    ensures k <= w.size && w.applied == FirstOf(k)
  {}

  lemma {:induction false} SizeStays(w: World, actions: seq<Action>)
    ensures Reached(w, actions).size == w.size
  {
    hide TargetsOf;
    if actions != [] {
      SizeStays(w, actions[..|actions| - 1]);
    }
  }

  // ---- a runner that was taken over ----

  /** A tenure that another runner ended: it has taken the lock row since, or released it already. */
  predicate TakenOver(w: World, i: nat) {
    i < |w.runners| && Tenured(w.runners[i]) && (w.lock.None? || w.lock.value.owner != i)
  }

  /** A runner whose lease was taken over records nothing, whether or not its successor is still there. */
  lemma TakenOverRecordsNothing(w: World, i: nat, a: Action)
    requires Exclusive(w) && NobodyStalled(w, a) && TakenOver(w, i)
    ensures !a.Tick? && a.runner == i ==> Next(w, a).applied == w.applied && Next(w, a).lock == w.lock
    ensures TakenOver(Next(w, a), i) || !Tenured(Next(w, a).runners[i])
  {
    hide TargetsOf;
  }

  /** What a runner did to the applied migrations in a run: whether any of its steps changed them. */
  predicate Records(w: World, i: nat, actions: seq<Action>) {
    actions != [] &&
    var before, a := Reached(w, actions[..|actions| - 1]), actions[|actions| - 1];
    (Records(w, i, actions[..|actions| - 1]) || (!a.Tick? && a.runner == i && Next(before, a).applied != before.applied))
  }

  /** And it goes on recording nothing, however long it is before it notices. */
  lemma {:induction false} TakenOverStaysSilent(w: World, i: nat, actions: seq<Action>)
    requires Exclusive(w) && TakenOver(w, i) && NeverAfreshUnderOthers(w, actions)
    requires forall a :: a in actions ==> !(a.Start? && a.runner == i)
    ensures !Records(w, i, actions)
    ensures var after := Reached(w, actions);
            Exclusive(after) && i < |after.runners| && (TakenOver(after, i) || after.runners[i].Idle?)
  {
    hide Next, Exclusive, NobodyStalled;
    if actions != [] {
      var n := |actions| - 1;
      TakenOverStaysSilent(w, i, actions[..n]);
      var before := Reached(w, actions[..n]);
      StepStaysExclusive(before, actions[n]);
      assert actions[n] in actions;
      if TakenOver(before, i) {
        TakenOverRecordsNothing(before, i, actions[n]);
        LeavingEnds(before, i, actions[n]);
      } else {
        IdleStays(before, i, actions[n]);
      }
    }
  }

  /** A tenure ends in idleness. */
  lemma LeavingEnds(w: World, i: nat, a: Action)
    requires i < |w.runners| && Tenured(w.runners[i])
    ensures |Next(w, a).runners| == |w.runners| && (Tenured(Next(w, a).runners[i]) || Next(w, a).runners[i].Idle?)
  {
    hide TargetsOf;
  }

  lemma IdleStays(w: World, i: nat, a: Action)
    requires i < |w.runners| && w.runners[i].Idle? && !(a.Start? && a.runner == i)
    ensures |Next(w, a).runners| == |w.runners| && Next(w, a).runners[i].Idle?
    ensures !a.Tick? && a.runner == i ==> Next(w, a).applied == w.applied
  {
    hide TargetsOf;
  }

  // ---- leases ----

  /** A runner that found a lock row found it expired. */
  ghost predicate Patient(w: World) {
    forall i :: 0 <= i < |w.runners| && w.runners[i].Acquiring? && w.runners[i].seen.Some? ==> w.runners[i].seen.value.expiresAt <= w.time
  }

  /** A lease lasts a minute from the step that takes or renews it, and nobody begins while one runs. */
  lemma LeasesAreAwaited(w: World, a: Action)
    ensures var after := Next(w, a).lock;
            after != w.lock && after.Some? ==> !a.Tick? && after.value.owner == a.runner && after.value.expiresAt == w.time + 60_000
    ensures a.Start? && w.lock.Some? && w.time < w.lock.value.expiresAt ==> Next(w, a) == w
    ensures Patient(w) ==> Patient(Next(w, a))
  {
    hide TargetsOf;
  }

  /** In every run, a lock row that is still as its taker found it has expired when it is taken. */
  lemma {:induction false} TakenLeasesHaveRunOut(size: nat, reversible: set<nat>, runners: nat, actions: seq<Action>, i: nat)
    ensures var w := Reached(Initial(size, reversible, runners), actions);
            && Patient(w)
            && (i < |w.runners| && w.runners[i].Acquiring? && w.lock.Some? && w.lock == w.runners[i].seen && Next(w, TakeLock(i)).lock != w.lock ==>
                  w.lock.value.expiresAt <= w.time)
  {
    hide Next;
    if actions != [] {
      var n := |actions| - 1;
      TakenLeasesHaveRunOut(size, reversible, runners, actions[..n], i);
      LeasesAreAwaited(Reached(Initial(size, reversible, runners), actions[..n]), actions[n]);
    }
  }

  // ---- why the condition is needed ----

  function Three(w: World, a: Action, b: Action, c: Action): World {
    Next(Next(Next(w, a), b), c)
  }

  lemma OneMore(w: World, before: seq<Action>, a: Action)
    ensures Reached(w, before + [a]) == Next(Reached(w, before), a)
  {
    hide Next;
    assert (before + [a])[..|before|] == before;
  }

  lemma Stride(w: World, before: seq<Action>, a: Action, b: Action, c: Action)
    ensures Reached(w, before + [a, b, c]) == Three(Reached(w, before), a, b, c)
  {
    hide Next;
    OneMore(w, before, a);
    OneMore(w, before + [a], b);
    OneMore(w, before + [a] + [b], c);
    assert before + [a, b, c] == before + [a] + [b] + [c];
  }

  const FOUR: set<nat> := {0, 1, 2, 3}

  /** Two runners and four migrations. */
  function Scene(lock: Option<Lock>, applied: set<nat>, first: Runner, second: Runner, time: int): World {
    World(4, FOUR, lock, applied, [first, second], time)
  }

  /** The first runner applies migration 0, takes the lock again, and stalls just before it reverts the migration. */
  const STALLING: seq<Action> :=
    [Start(0, Up(Step(1))), TakeLock(0), ReadHistory(0, true)] + [Renew(0), Work(0, true), Commit(0)] + [Renew(0), Leave(0), Delete(0)]
    + [Start(0, Down(All)), TakeLock(0), ReadHistory(0, true)] + [Renew(0), Work(0, true), Tick(LEASE)]

  const STUCK := Running(Down(All), 2, [0], Committing(true))

  lemma FirstApplies()
    ensures Three(Initial(4, FOUR, 2), Start(0, Up(Step(1))), TakeLock(0), ReadHistory(0, true)) ==
            Scene(Some(Lock(1, 0, LEASE)), {}, Running(Up(Step(1)), 1, [0], Renewing), Idle, 0)
    ensures Three(Scene(Some(Lock(1, 0, LEASE)), {}, Running(Up(Step(1)), 1, [0], Renewing), Idle, 0), Renew(0), Work(0, true), Commit(0)) ==
            Scene(Some(Lock(3, 0, LEASE)), {0}, Running(Up(Step(1)), 3, [], Renewing), Idle, 0)
    ensures Three(Scene(Some(Lock(3, 0, LEASE)), {0}, Running(Up(Step(1)), 3, [], Renewing), Idle, 0), Renew(0), Leave(0), Delete(0)) ==
            Scene(None, {0}, Idle, Idle, 0)
  {
    FirstPending(0);
    DropOne(0);
  }

  lemma FirstStalls()
    ensures Three(Scene(None, {0}, Idle, Idle, 0), Start(0, Down(All)), TakeLock(0), ReadHistory(0, true)) ==
            Scene(Some(Lock(1, 0, LEASE)), {0}, Running(Down(All), 1, [0], Renewing), Idle, 0)
    ensures Three(Scene(Some(Lock(1, 0, LEASE)), {0}, Running(Down(All), 1, [0], Renewing), Idle, 0), Renew(0), Work(0, true), Tick(LEASE)) ==
            Scene(Some(Lock(2, 0, LEASE)), {0}, STUCK, Idle, LEASE)
  {
    LatestOfOne();
  }

  lemma SecondApplies()
    ensures Three(Scene(Some(Lock(2, 0, LEASE)), {0}, STUCK, Idle, LEASE), Start(1, Up(Step(1))), TakeLock(1), ReadHistory(1, true)) ==
            Scene(Some(Lock(3, 1, 2 * LEASE)), {0}, STUCK, Running(Up(Step(1)), 3, [1], Renewing), LEASE)
    ensures Three(Scene(Some(Lock(3, 1, 2 * LEASE)), {0}, STUCK, Running(Up(Step(1)), 3, [1], Renewing), LEASE), Renew(1), Work(1, true), Commit(1)) ==
            Scene(Some(Lock(5, 1, 2 * LEASE)), {0, 1}, STUCK, Running(Up(Step(1)), 5, [], Renewing), LEASE)
    ensures Three(Scene(Some(Lock(5, 1, 2 * LEASE)), {0, 1}, STUCK, Running(Up(Step(1)), 5, [], Renewing), LEASE), Renew(1), Leave(1), Delete(1)) ==
            Scene(None, {0, 1}, STUCK, Idle, LEASE)
  {
    FirstPending(1);
    DropOne(1);
  }

  lemma SecondBeginsAnew()
    ensures Three(Scene(None, {0, 1}, STUCK, Idle, LEASE), Start(1, Up(Step(1))), TakeLock(1), ReadHistory(1, true)) ==
            Scene(Some(Lock(1, 1, 2 * LEASE)), {0, 1}, STUCK, Running(Up(Step(1)), 1, [2], Renewing), LEASE)
    ensures Three(Scene(Some(Lock(1, 1, 2 * LEASE)), {0, 1}, STUCK, Running(Up(Step(1)), 1, [2], Renewing), LEASE), Renew(1), Work(1, true), Commit(0)).applied == {1}
  {
    FirstPending(2);
  }

  /** What is pending after a prefix of the four, and the step of one of it. */
  lemma FirstPending(k: nat)
    requires k < 3
    ensures Selected(Pending(0, 4, FirstSome(k)), Step(1), 4 - k) == Some([k])
    ensures |Pending(0, 4, FirstSome(k))| == 4 - k
  {
    PendingOfPrefix(0, 4, k);
    assert FirstSome(k) == FirstOf(k);
    assert Pending(0, 4, FirstSome(k))[..1] == [k];
  }

  function FirstSome(k: nat): set<nat>
    requires k < 3
  {
    if k == 0 then {} else if k == 1 then {0} else {0, 1}
  }

  lemma LatestOfOne()
    ensures Selected(Latest(4, {0}), All, 1) == Some([0])
  {
    LatestOfPrefix(4, 1);
    assert {0} == FirstOf(1);
    assert Latest(4, {0})[..1] == [0];
  }

  lemma DropOne(k: nat)
    ensures [k][1..] == []
  {}

  /**
    A stalled Down whose lock was taken over, released and created anew meets its own version again:
    it reverts the first migration from under the others, and the history is no prefix any more.
  */
  lemma ReleasedLockRepeatsVersions() returns (run: seq<Action>)
    ensures Reached(Initial(4, FOUR, 2), run).applied == {1}
    ensures !NeverAfreshUnderOthers(Initial(4, FOUR, 2), run)
    ensures forall k: nat :: FirstOf(k) != {1}
  {
    hide Next, Three;
    var w := Initial(4, FOUR, 2);
    FirstApplies();
    FirstStalls();
    SecondApplies();
    SecondBeginsAnew();
    var a: seq<Action> := [Start(0, Up(Step(1))), TakeLock(0), ReadHistory(0, true)];
    Stride(w, [], Start(0, Up(Step(1))), TakeLock(0), ReadHistory(0, true));
    assert [] + a == a;
    var b := a + [Renew(0), Work(0, true), Commit(0)];
    Stride(w, a, Renew(0), Work(0, true), Commit(0));
    var c := b + [Renew(0), Leave(0), Delete(0)];
    Stride(w, b, Renew(0), Leave(0), Delete(0));
    var d := c + [Start(0, Down(All)), TakeLock(0), ReadHistory(0, true)];
    Stride(w, c, Start(0, Down(All)), TakeLock(0), ReadHistory(0, true));
    Stride(w, d, Renew(0), Work(0, true), Tick(LEASE));
    var f := STALLING + [Start(1, Up(Step(1))), TakeLock(1), ReadHistory(1, true)];
    Stride(w, STALLING, Start(1, Up(Step(1))), TakeLock(1), ReadHistory(1, true));
    var g := f + [Renew(1), Work(1, true), Commit(1)];
    Stride(w, f, Renew(1), Work(1, true), Commit(1));
    var h := g + [Renew(1), Leave(1), Delete(1)];
    Stride(w, g, Renew(1), Leave(1), Delete(1));
    var i := h + [Start(1, Up(Step(1))), TakeLock(1), ReadHistory(1, true)];
    Stride(w, h, Start(1, Up(Step(1))), TakeLock(1), ReadHistory(1, true));
    run := i + [Renew(1), Work(1, true), Commit(0)];
    Stride(w, i, Renew(1), Work(1, true), Commit(0));
    forall k: nat
      ensures FirstOf(k) != {1}
    {
      assert 0 in FirstOf(k) || 1 !in FirstOf(k);
    }
    if NeverAfreshUnderOthers(w, run) {
      var k := HistoryStaysAPrefix(4, FOUR, 2, run);
      assert false;
    }
  }

  // ---- one runner, undisturbed ----

  datatype Outcome = Finished | Locked | NoSuchTarget | Irreversible | Failed(id: nat)

  /** The rows of the engine, changed in place by the runner that holds the lease. */
  class Engine {
    const size: nat
    const reversible: set<nat>
    var lock: Option<Lock>
    var applied: set<nat>

    constructor (size: nat, reversible: set<nat>)
      ensures this.size == size && this.reversible == reversible && lock == None && applied == {}
    {
      this.size, this.reversible := size, reversible;
      lock, applied := None, {};
    }

    /** The first k migrations are applied. */
    ghost predicate At(k: nat)
      reads this
    {
      k <= size && applied == FirstOf(k)
    }

    /** A lease that has not run out. */
    predicate Leased(now: int)
      reads this
    {
      lock.Some? && lock.value.expiresAt > now
    }
  }

  class Session {
    const engine: Engine
    const owner: nat
    var version: nat

    constructor (engine: Engine, owner: nat)
      ensures this.engine == engine && this.owner == owner
    {
      this.engine, this.owner, version := engine, owner, 0;
    }

    ghost predicate Holds()
      reads this, engine
    {
      engine.lock.Some? && engine.lock.value.version == version && engine.lock.value.owner == owner
    }

    method Acquire(now: int) returns (ok: bool)
      modifies this, engine`lock
      ensures ok == (old(engine.lock).None? || old(engine.lock).value.expiresAt <= now)
      ensures ok ==> Holds() && engine.lock.value.expiresAt == now + 60_000
      ensures !ok ==> engine.lock == old(engine.lock)
    {
      if engine.lock.Some? && engine.lock.value.expiresAt > now {
        return false;
      }
      version := if engine.lock.Some? then engine.lock.value.version + 1 else 1;
      engine.lock := Some(Lock(version, owner, now + LEASE));
      ok := true;
    }

    /** Renews the lease and applies the writes, if the lock row is as this session left it. */
    method CommitWith(applied: set<nat>, now: int) returns (ok: bool)
      modifies this, engine
      ensures ok == (old(engine.lock).Some? && old(engine.lock).value.version == old(version))
      ensures ok ==> Holds() && engine.lock.value.expiresAt == now + 60_000 && engine.applied == applied
      ensures !ok ==> engine.lock == old(engine.lock) && engine.applied == old(engine.applied)
    {
      if engine.lock.None? || engine.lock.value.version != version {
        return false;
      }
      version := version + 1;
      engine.lock := Some(Lock(version, owner, now + LEASE));
      engine.applied := applied;
      ok := true;
    }

    method Release()
      modifies engine`lock
      ensures old(Holds()) ==> engine.lock == None
      ensures !old(Holds()) ==> engine.lock == old(engine.lock)
    {
      if engine.lock.Some? && engine.lock.value.version == version && engine.lock.value.owner == owner {
        engine.lock := None;
      }
    }

    /** Applies pending migrations in plan order; `failing` are those whose step fails. */
    method Up(target: Target, failing: set<nat>, now: int, ghost k: nat) returns (done: seq<nat>, outcome: Outcome)
      requires engine.At(k)
      modifies this, engine
      ensures |done| <= engine.size - k && (forall j :: 0 <= j < |done| ==> done[j] == k + j && done[j] !in failing)
      ensures engine.At(k + |done|)
      ensures outcome.Finished? ==> UpCount(target, k, engine.size) == Some(|done|)
      ensures outcome.NoSuchTarget? <==> !old(engine.Leased(now)) && UpCount(target, k, engine.size).None?
      ensures outcome.NoSuchTarget? ==> done == []
      ensures outcome.Failed? ==> outcome.id == k + |done| && outcome.id in failing
      ensures !outcome.Irreversible?
      ensures outcome.Locked? <==> old(engine.Leased(now))
      ensures if outcome.Locked? then done == [] && engine.lock == old(engine.lock) else engine.lock == None
    {
      hide Pending, Latest, IndexOf, FirstOf, Selected;
      var ok := Acquire(now);
      if !ok {
        return [], Locked;
      }
      var pending := Pending(0, engine.size, engine.applied);
      PendingOfPrefix(0, engine.size, k);
      UpInNumbers(target, k, engine.size);
      var chosen := Selected(pending, target, |pending|);
      done := [];
      if chosen.None? {
        Release();
        return [], NoSuchTarget;
      }
      SelectedIsPrefix(pending, target, |pending|);
      var targets := chosen.value;
      done, outcome := Apply(targets, failing, now, k);
      assert targets[..|targets|] == targets;
      Release();
    }

    method Apply(targets: seq<nat>, failing: set<nat>, now: int, ghost k: nat) returns (done: seq<nat>, outcome: Outcome)
      requires Holds() && engine.applied == FirstOf(k) && k + |targets| <= engine.size
      requires forall j :: 0 <= j < |targets| ==> targets[j] == k + j
      modifies this, engine
      ensures Holds() && |done| <= |targets| && done == targets[..|done|] && engine.applied == FirstOf(k + |done|)
      ensures forall j :: 0 <= j < |done| ==> done[j] !in failing
      ensures outcome == if |done| == |targets| then Finished else Failed(targets[|done|])
      ensures outcome.Failed? ==> outcome.id in failing
    {
      done := [];
      var ok := false;
      for i := 0 to |targets|
        invariant Holds() && done == targets[..i] && engine.applied == FirstOf(k + i)
        invariant forall j :: 0 <= j < i ==> targets[j] !in failing
      {
        ok := CommitWith(engine.applied, now);
        if targets[i] in failing {
          return done, Failed(targets[i]);
        }
        FirstOfSteps(k + i);
        ok := CommitWith(engine.applied + {targets[i]}, now);
        done := done + [targets[i]];
      }
      outcome := Finished;
    }

    /** Reverts the latest applied migrations, one by default. */
    method Down(target: Target, failing: set<nat>, now: int, ghost k: nat) returns (done: seq<nat>, outcome: Outcome)
      requires engine.At(k)
      modifies this, engine
      ensures |done| <= k && (forall j :: 0 <= j < |done| ==> done[j] == k - 1 - j && done[j] !in failing)
      ensures engine.At(k - |done|)
      ensures var n := DownCount(target, k);
              && (outcome.Finished? ==> n == Some(|done|))
              && (outcome.NoSuchTarget? <==> !old(engine.Leased(now)) && n.None?)
              && (outcome.Irreversible? <==> !old(engine.Leased(now)) && n.Some? && exists m: nat :: k - n.value <= m < k && m !in engine.reversible)
      ensures outcome.NoSuchTarget? || outcome.Irreversible? ==> done == []
      ensures outcome.Failed? ==> outcome.id == k - 1 - |done| && outcome.id in failing
      ensures outcome.Locked? <==> old(engine.Leased(now))
      ensures if outcome.Locked? then done == [] && engine.lock == old(engine.lock) else engine.lock == None
    {
      hide Pending, Latest, IndexOf, FirstOf, Selected;
      var ok := Acquire(now);
      if !ok {
        return [], Locked;
      }
      var latest := Latest(engine.size, engine.applied);
      LatestOfPrefix(engine.size, k);
      DownInNumbers(target, k, engine.size);
      var chosen := Selected(latest, target, 1);
      done := [];
      if chosen.None? {
        Release();
        return [], NoSuchTarget;
      }
      SelectedIsPrefix(latest, target, 1);
      var targets := chosen.value;
      LatestAreReversible(targets, k, engine.reversible);
      var able := AllReversible(targets);
      if !able {
        Release();
        return [], Irreversible;
      }
      done, outcome := Revert(targets, failing, now, k);
      assert targets[..|targets|] == targets;
      Release();
    }

    method AllReversible(targets: seq<nat>) returns (able: bool)
      ensures able <==> forall j :: 0 <= j < |targets| ==> targets[j] in engine.reversible
    {
      for i := 0 to |targets|
        invariant forall j :: 0 <= j < i ==> targets[j] in engine.reversible
      {
        if targets[i] !in engine.reversible {
          return false;
        }
      }
      able := true;
    }

    method Revert(targets: seq<nat>, failing: set<nat>, now: int, ghost k: nat) returns (done: seq<nat>, outcome: Outcome)
      requires Holds() && engine.applied == FirstOf(k) && |targets| <= k
      requires forall j :: 0 <= j < |targets| ==> targets[j] == k - 1 - j
      modifies this, engine
      ensures Holds() && |done| <= |targets| && done == targets[..|done|] && engine.applied == FirstOf(k - |done|)
      ensures forall j :: 0 <= j < |done| ==> done[j] !in failing
      ensures outcome == if |done| == |targets| then Finished else Failed(targets[|done|])
      ensures outcome.Failed? ==> outcome.id in failing
    {
      done := [];
      var ok := false;
      for i := 0 to |targets|
        invariant Holds() && done == targets[..i] && i <= k && engine.applied == FirstOf(k - i)
        invariant forall j :: 0 <= j < i ==> targets[j] !in failing
      {
        ok := CommitWith(engine.applied, now);
        if targets[i] in failing {
          return done, Failed(targets[i]);
        }
        FirstOfSteps(k - i - 1);
        ok := CommitWith(engine.applied - {targets[i]}, now);
        done := done + [targets[i]];
      }
      outcome := Finished;
    }
  }
}
