/**
  What holds of histories holds of every interleaving: the rows of a user record the books that the
  committed calls leave in the order of their commits, so limits, balance, cover and caps are those
  of that history.
*/
module Concurrency {
  import opened Prelude
  import opened Accounts
  import opened Operations
  import opened Books
  import opened Coverage
  import opened CoveredRuns
  import opened Solvency
  import opened BalanceLaw
  import opened BalancedHistories
  import opened ModelCaps
  import opened Transactions
  import opened Interleavings

  /** Commits are only ever added to the log. */
  lemma {:induction false} LogGrows(s: Settings, clients: nat, steps: seq<Step>, more: seq<Step>)
    ensures Reached(s, clients, steps).log <= Reached(s, clients, steps + more).log
  {
    hide Next;
    if more == [] {
      assert steps + more == steps;
    } else {
      var n := |more| - 1;
      LogGrows(s, clients, steps, more[..n]);
      assert (steps + more)[..|steps + more| - 1] == steps + more[..n];
      StepAddsToLog(s, Reached(s, clients, steps + more[..n]), more[n]);
    }
  }

  lemma StepAddsToLog(s: Settings, sys: World, step: Step)
    ensures sys.log <= Next(s, sys, step).log
  {
    hide DecisionOf, Sent, Sweeping;
  }

  lemma {:induction false} CallsGrow(log: seq<Logged>, longer: seq<Logged>, user: string)
    requires log <= longer
    ensures CallsOf(log, user) <= CallsOf(longer, user)
    decreases |longer|
  {
    if |log| < |longer| {
      CallsGrow(log, longer[..|longer| - 1], user);
    } else {
      assert log == longer;
    }
  }

  lemma {:induction false} RunsOn(s: Settings, calls: seq<Call>, more: seq<Call>)
    ensures RunFrom(s, Run(s, calls), more) == Run(s, calls + more)
    decreases |more|
  {
    hide Apply;
    if more == [] {
      assert calls + more == calls;
    } else {
      var one := calls + [more[0]];
      assert one[..|one| - 1] == calls;
      RunsOn(s, one, more[1..]);
      assert one + more[1..] == calls + more;
    }
  }

  /** The calls a user committed between two states of an interleaving. */
  function Between(s: Settings, clients: nat, steps: seq<Step>, more: seq<Step>, user: string): seq<Call> {
    LogGrows(s, clients, steps, more);
    CallsGrow(Reached(s, clients, steps).log, Reached(s, clients, steps + more).log, user);
    CallsOf(Reached(s, clients, steps + more).log, user)[|CallsOf(Reached(s, clients, steps).log, user)|..]
  }

  lemma BooksGoOn(s: Settings, clients: nat, steps: seq<Step>, more: seq<Step>, user: string)
    ensures BookOf(s, Reached(s, clients, steps + more).log, user) ==
            RunFrom(s, BookOf(s, Reached(s, clients, steps).log, user), Between(s, clients, steps, more, user))
    ensures Records(Reached(s, clients, steps + more).rows, user, BookOf(s, Reached(s, clients, steps + more).log, user))
  {
    hide Reached, Run, RunFrom, CallsOf, Between, Records, Serial, InTime;
    BetweenIsTheRest(s, clients, steps, more, user);
    RunsOn(s, CallsOf(Reached(s, clients, steps).log, user), Between(s, clients, steps, more, user));
    EveryInterleavingIsSerial(s, clients, steps + more);
  }

  lemma BetweenIsTheRest(s: Settings, clients: nat, steps: seq<Step>, more: seq<Step>, user: string)
    ensures CallsOf(Reached(s, clients, steps).log, user) + Between(s, clients, steps, more, user) == CallsOf(Reached(s, clients, steps + more).log, user)
  {
    hide Reached, CallsOf;
    LogGrows(s, clients, steps, more);
    CallsGrow(Reached(s, clients, steps).log, Reached(s, clients, steps + more).log, user);
  }

  /**
    In every state of every interleaving, for every user and product: the rows record books for which
    the exact balance law holds; the documented one held after every commit if and only if none
    disturbed it; and the limits were kept if and only if every change of a running plan found room.
  */
  lemma EveryStoreKeepsItsLaws(s: Settings, clients: nat, steps: seq<Step>, user: string, id: string)
    requires ValidSettings(s)
    ensures var sys := Reached(s, clients, steps);
            var calls, book := CallsOf(sys.log, user), BookOf(s, sys.log, user);
            && Records(sys.rows, user, book) && InTime(calls)
            && Total(book.statement, CreditsOf(id)) + Total(book.statement, IdleOf(id)) ==
               OpenRest(AccountOf(book), id) + Balance(AccountOf(book), id) + RunDrift(s, calls, id)
            && (AlwaysBalanced(s, calls, id) <==> !Disturbed(s, calls, id))
            && (AlwaysInLimits(s, calls) <==> CarryOversFit(s, calls))
  {
    hide Reached, Run, Records, OpenRest, Balance, AlwaysBalanced, Disturbed, AlwaysInLimits, CarryOversFit, Serial, InTime, ValidSettings;
    EveryInterleavingIsSerial(s, clients, steps);
    var calls := CallsOf(Reached(s, clients, steps).log, user);
    StatementBalances(s, calls, id);
    BalancedHistory(s, calls, id);
    CountersStayWithinLimits(s, calls);
  }

  /**
    Among any number of clients: as long as the calls that a user commits run on one entitlement, the
    holds stay covered in every state that the store goes through.
  */
  lemma HoldsStayCoveredAmongClients(s: Settings, clients: nat, steps: seq<Step>, more: seq<Step>, user: string, since: int, later: int)
    requires InOrder(BookOf(s, Reached(s, clients, steps).log, user), since)
    requires SteadyRun(s, BookOf(s, Reached(s, clients, steps).log, user), since, Between(s, clients, steps, more, user))
    requires Steady(AccountOf(BookOf(s, Reached(s, clients, steps + more).log, user)), LastClock(since, Between(s, clients, steps, more, user)), later)
    ensures var after := Reached(s, clients, steps + more);
            Records(after.rows, user, BookOf(s, after.log, user)) && InOrder(BookOf(s, after.log, user), later)
  {
    hide Reached, Between, BookOf, RunFrom, Records, InOrder, SteadyRun, Steady;
    BooksGoOn(s, clients, steps, more, user);
    HoldsStayCovered(s, BookOf(s, Reached(s, clients, steps).log, user), since, Between(s, clients, steps, more, user), later);
  }

  /** And the caps are kept, as long as settlements stay within their holds. */
  lemma CapsStayKeptAmongClients(s: Settings, clients: nat, steps: seq<Step>, more: seq<Step>, user: string, since: int, later: int)
    requires Capped(s, BookOf(s, Reached(s, clients, steps).log, user), since)
    requires SteadyRun(s, BookOf(s, Reached(s, clients, steps).log, user), since, Between(s, clients, steps, more, user))
    requires WithinHolds(s, BookOf(s, Reached(s, clients, steps).log, user), Between(s, clients, steps, more, user))
    requires Steady(AccountOf(BookOf(s, Reached(s, clients, steps + more).log, user)), LastClock(since, Between(s, clients, steps, more, user)), later)
    ensures var after := Reached(s, clients, steps + more);
            Records(after.rows, user, BookOf(s, after.log, user)) && Capped(s, BookOf(s, after.log, user), later)
  {
    hide Reached, Between, BookOf, RunFrom, Records, Capped, SteadyRun, Steady, WithinHolds;
    BooksGoOn(s, clients, steps, more, user);
    CapsStayKeptOverRuns(s, BookOf(s, Reached(s, clients, steps).log, user), since, Between(s, clients, steps, more, user), later);
  }
}
