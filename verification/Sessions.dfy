/**
  Refresh-token rotation (rt-app/core-go/auth/sessions.go) for one session: any number of refreshes
  and revocations read the row, read the clock and send one guarded write, in any interleaving.
  Secrets are fresh numbers, and a hash stands for the secret it is made of.
*/
module Sessions {
  import opened Prelude
  import opened Store

  const ATTEMPTS := 4

  datatype Session = Session(current: nat, previous: Option<nat>, rotatedAt: int, expiresAt: int, revokedAt: Option<int>)

  /** The user of the session: gone or changed since, banned, or as before. */
  datatype User = Unfit | Banned | Fit

  datatype Client =
    | Idle
    | Refreshing(presented: nat, attempt: nat, row: Option<Row<Session>>, now: Option<int>)
    | Revoking(attempt: nat, row: Option<Row<Session>>, now: Option<int>)

  datatype Event =
    | Granted(presented: nat, next: nat, at: int, rotated: bool)
    | Reused(presented: nat, at: int)
    | Revoked(at: int)

  datatype World = World(row: Row<Session>, grace: nat, secrets: nat, clients: seq<Client>, time: int, log: seq<Event>)

  datatype Action =
    | Refresh(i: nat, presented: nat)
    | Revoke(i: nat)
    | ReadRow(i: nat)
    | ReadClock(i: nat)
    | Write(i: nat, user: User)
    | Tick(ms: nat)

  predicate Live(s: Session, now: int) {
    s.revokedAt.None? && now < s.expiresAt
  }

  /** What a refresh does with a live session of a fit user. */
  datatype Choice = Rotate | Grace | Reuse

  function ChoiceFor(s: Session, presented: nat, now: int, grace: nat): Choice {
    if s.current == presented then Rotate
    else if s.previous == Some(presented) && now - s.rotatedAt <= grace then Grace
    else Reuse
  }

  function Changed(s: Session, presented: nat, next: nat, now: int, grace: nat): Session {
    match ChoiceFor(s, presented, now, grace)
    case Rotate => s.(previous := Some(s.current), rotatedAt := now, current := next)
    case Grace => s.(current := next)
    case Reuse => s.(revokedAt := Some(now))
  }

  function EventFor(s: Session, presented: nat, next: nat, now: int, grace: nat): Event {
    match ChoiceFor(s, presented, now, grace)
    case Rotate => Granted(presented, next, now, true)
    case Grace => Granted(presented, next, now, false)
    case Reuse => Reused(presented, now)
  }

  function With(w: World, i: nat, c: Client): World
    requires i < |w.clients|
  {
    w.(clients := w.clients[i := c])
  }

  /** A guarded write of the session: committed when the row still has the version that was read. */
  function Stored(w: World, i: nat, read: Row<Session>, s: Session, event: Event, again: Client): World
    requires i < |w.clients|
  {
    if w.row.version == read.version then With(w, i, Idle).(row := Row(read.version + 1, s), log := w.log + [event])
    else With(w, i, again)
  }

  function Next(w: World, a: Action): World {
    if a.Tick? then w.(time := w.time + a.ms)
    else if a.i >= |w.clients| then w
    else
      var i, c := a.i, w.clients[a.i];
      match a
      case Refresh(_, presented) => if c.Idle? then With(w, i, Refreshing(presented, 1, None, None)) else w
      case Revoke(_) => if c.Idle? then With(w, i, Revoking(1, None, None)) else w
      case ReadRow(_) => if c.Idle? || c.row.Some? then w else With(w, i, c.(row := Some(w.row)))
      case ReadClock(_) => if c.Idle? || c.row.None? || c.now.Some? then w else With(w, i, c.(now := Some(w.time)))
      case Write(_, user) =>
        if c.Idle? || c.row.None? || c.now.None? then w
        else
          var s, now := c.row.value.data, c.now.value;
          if c.Revoking? then
            if !Live(s, now) then With(w, i, Idle)
            else Stored(w, i, c.row.value, s.(revokedAt := Some(now)), Revoked(now), if c.attempt < ATTEMPTS then Revoking(c.attempt + 1, None, None) else Idle)
          else if !user.Fit? || !Live(s, now) then With(w, i, Idle)
          else
            Stored(w.(secrets := w.secrets + 1), i, c.row.value, Changed(s, c.presented, w.secrets, now, w.grace),
                   EventFor(s, c.presented, w.secrets, now, w.grace),
                   if c.attempt < ATTEMPTS then Refreshing(c.presented, c.attempt + 1, None, None) else Idle)
  }

  /** A session as createSession makes it, under secret 0. */
  function Initial(clients: nat, grace: nat, ttl: nat): World {
    World(Row(1, Session(0, None, 0, ttl, None)), grace, 1, seq(clients, i => Idle), 0, [])
  }

  function Reached(w: World, actions: seq<Action>): World {
    if actions == [] then w else Next(Reached(w, actions[..|actions| - 1]), actions[|actions| - 1])
  }

  // ---- what holds at every step ----

  predicate Revocation(e: Event) {
    e.Reused? || e.Revoked?
  }

  /** A read is outdated, or still what the row says. */
  predicate Honest(w: World, c: Client) {
    !c.Idle? ==>
      && (c.row.Some? ==> c.row.value.version <= w.row.version && (c.row.value.version == w.row.version ==> c.row.value == w.row))
      && (c.now.Some? ==> c.row.Some? && c.now.value <= w.time && (c.row.value.version == w.row.version ==> w.row.data.rotatedAt <= c.now.value))
  }

  /** A rotated secret: it is the stored previous one, since it was rotated, or it is gone for good. */
  predicate Spent(w: World, p: nat, at: int) {
    p != w.row.data.current && (w.row.data.previous == Some(p) ==> w.row.data.rotatedAt == at) && p < w.secrets
  }

  ghost predicate Sound(w: World) {
    && w.row.data.current < w.secrets && w.row.data.rotatedAt <= w.time
    && (w.row.data.previous.Some? ==> w.row.data.previous.value < w.secrets && w.row.data.previous.value != w.row.data.current)
    && (forall i :: 0 <= i < |w.clients| ==> Honest(w, w.clients[i]))
    && (forall k :: 0 <= k < |w.log| && w.log[k].Granted? && w.log[k].rotated ==> Spent(w, w.log[k].presented, w.log[k].at))
    && (w.row.data.revokedAt.Some? <==> exists k :: 0 <= k < |w.log| && Revocation(w.log[k]))
  }

  /** What the log may say: a secret is rotated once, repeated only within the grace, and nothing follows a revocation. */
  predicate Orderly(w: World) {
    && (forall i, j :: 0 <= i < j < |w.log| && w.log[i].Granted? && w.log[i].rotated && w.log[j].Granted? && w.log[j].presented == w.log[i].presented ==>
          !w.log[j].rotated && w.log[j].at - w.log[i].at <= w.grace)
    && (forall i :: 0 <= i < |w.log| - 1 ==> !Revocation(w.log[i]))
    && (forall j :: 0 <= j < |w.log| ==> w.log[j].at < w.row.data.expiresAt)
  }

  // ---- a committed write ----

  /** What a commit did: it was decided on the row as it still was. */
  predicate Committed(w: World, a: Action, after: World) {
    && !a.Tick? && a.i < |w.clients| && !w.clients[a.i].Idle? && w.clients[a.i].now.Some?
    && w.clients[a.i].now.value <= w.time && w.row.data.rotatedAt <= w.clients[a.i].now.value
    && Live(w.row.data, w.clients[a.i].now.value)
    && var c := w.clients[a.i];
       if c.Revoking? then
         && after.row == Row(w.row.version + 1, w.row.data.(revokedAt := c.now)) && after.secrets == w.secrets
         && after.log == w.log + [Revoked(c.now.value)]
       else
         && after.row == Row(w.row.version + 1, Changed(w.row.data, c.presented, w.secrets, c.now.value, w.grace)) && after.secrets == w.secrets + 1
         && after.log == w.log + [EventFor(w.row.data, c.presented, w.secrets, c.now.value, w.grace)]
  }

  /** Every step leaves the row and the log alone, or commits on the row as it was. */
  lemma StepCommitsOrNot(w: World, a: Action)
    requires !a.Tick? && a.i < |w.clients| ==> Honest(w, w.clients[a.i])
    ensures var after := Next(w, a);
            || (after.row == w.row && after.log == w.log && w.secrets <= after.secrets)
            || (a.Write? && Committed(w, a, after) && after.clients[a.i] == Idle)
    ensures Next(w, a).grace == w.grace && |Next(w, a).clients| == |w.clients| && Next(w, a).time >= w.time
    ensures !a.Tick? ==> Next(w, a).time == w.time
  {
    hide ChoiceFor, Changed, EventFor;
  }

  lemma StepKeepsHonesty(w: World, a: Action)
    requires Sound(w)
    ensures forall j :: 0 <= j < |Next(w, a).clients| ==> Honest(Next(w, a), Next(w, a).clients[j])
  {
    hide ChoiceFor, EventFor;
    var after := Next(w, a);
    assert !a.Tick? && a.i < |w.clients| ==> Honest(w, w.clients[a.i]);
    StepCommitsOrNot(w, a);
    forall j | 0 <= j < |after.clients|
      ensures Honest(after, after.clients[j])
    {
      assert Honest(w, w.clients[j]);
    }
  }

  lemma StepStaysSound(w: World, a: Action)
    requires Sound(w)
    ensures Sound(Next(w, a))
  {
    hide Next, Honest;
    var after := Next(w, a);
    assert !a.Tick? && a.i < |w.clients| ==> Honest(w, w.clients[a.i]);
    StepCommitsOrNot(w, a);
    StepKeepsHonesty(w, a);
    forall k | 0 <= k < |after.log| && after.log[k].Granted? && after.log[k].rotated
      ensures Spent(after, after.log[k].presented, after.log[k].at)
    {
      if k < |w.log| {
        assert after.log[k] == w.log[k];
        assert Spent(w, w.log[k].presented, w.log[k].at);
      }
    }
    if after.log != w.log {
      var n := |w.log|;
      assert after.log[..n] == w.log;
      if exists k :: 0 <= k < n && Revocation(w.log[k]) {
      } else {
        assert after.row.data.revokedAt.Some? ==> Revocation(after.log[n]);
        assert forall k :: 0 <= k < |after.log| && Revocation(after.log[k]) ==> k == n;
      }
    }
  }

  lemma StepStaysOrderly(w: World, a: Action)
    requires Sound(w) && Orderly(w)
    ensures Orderly(Next(w, a)) && Next(w, a).row.data.expiresAt == w.row.data.expiresAt
  {
    hide Next, Honest;
    var after := Next(w, a);
    assert !a.Tick? && a.i < |w.clients| ==> Honest(w, w.clients[a.i]);
    StepCommitsOrNot(w, a);
    if after.log != w.log {
      var n := |w.log|;
      assert after.log[..n] == w.log;
      forall i, j | 0 <= i < j < |after.log| && after.log[i].Granted? && after.log[i].rotated && after.log[j].Granted? && after.log[j].presented == after.log[i].presented
        ensures !after.log[j].rotated && after.log[j].at - after.log[i].at <= after.grace
      {
        assert after.log[i] == w.log[i];
        assert Spent(w, w.log[i].presented, w.log[i].at);
        if j < n {
          assert after.log[j] == w.log[j];
        }
      }
    }
  }

  lemma InitialIsSound(clients: nat, grace: nat, ttl: nat)
    ensures Sound(Initial(clients, grace, ttl)) && Orderly(Initial(clients, grace, ttl))
  {}

  /**
    Rotation over every interleaving: a rotated secret is never rotated again, and is honoured only
    within the grace window after its rotation; a revocation is the last thing that happens; and
    nothing happens at or after the expiry set at sign-in.
  */
  lemma {:induction false} RotationIsOrderly(clients: nat, grace: nat, ttl: nat, actions: seq<Action>)
    ensures var w := Reached(Initial(clients, grace, ttl), actions);
            Sound(w) && Orderly(w) && w.row.data.expiresAt == ttl && w.grace == grace
  {
    hide Next, Sound, Orderly;
    var start := Initial(clients, grace, ttl);
    if actions == [] {
      InitialIsSound(clients, grace, ttl);
    } else {
      var n := |actions| - 1;
      var w := Reached(start, actions[..n]);
      RotationIsOrderly(clients, grace, ttl, actions[..n]);
      StepStaysSound(w, actions[n]);
      StepStaysOrderly(w, actions[n]);
      GraceStays(w, actions[n]);
    }
  }

  lemma GraceStays(w: World, a: Action)
    ensures Next(w, a).grace == w.grace
  {}

  /**
    Which secrets are honoured: in every reachable state a refresh that commits was presented the
    last committed secret, or the stored previous one within the grace window, of a live session;
    any other secret revokes the session.
  */
  lemma OnlyTheLastSecretsAreHonoured(clients: nat, grace: nat, ttl: nat, actions: seq<Action>, a: Action)
    ensures var w := Reached(Initial(clients, grace, ttl), actions);
            var after := Next(w, a);
            after.log != w.log ==>
              && a.Write? && |after.log| == |w.log| + 1 && Live(w.row.data, after.log[|w.log|].at)
              && match after.log[|w.log|]
                 case Granted(p, next, at, rotated) =>
                   && (p == w.row.data.current || (w.row.data.previous == Some(p) && at - w.row.data.rotatedAt <= grace))
                   && (rotated <==> p == w.row.data.current)
                   && after.row.data.current == next && next == w.secrets && after.row.data.previous == (if rotated then Some(p) else w.row.data.previous)
                 case Reused(p, at) =>
                   && p != w.row.data.current && !(w.row.data.previous == Some(p) && at - w.row.data.rotatedAt <= grace)
                   && after.row.data == w.row.data.(revokedAt := Some(at))
                 case Revoked(at) => after.row.data == w.row.data.(revokedAt := Some(at))
  {
    hide Next, Reached, Sound, Orderly, Honest;
    var w := Reached(Initial(clients, grace, ttl), actions);
    RotationIsOrderly(clients, grace, ttl, actions);
    SoundIsHonest(w);
    StepCommitsOrNot(w, a);
  }

  lemma SoundIsHonest(w: World)
    requires Sound(w)
    ensures forall i :: 0 <= i < |w.clients| ==> Honest(w, w.clients[i])
  {}

  /** A whole refresh by an idle client, with nobody in between. */
  function RefreshAlone(w: World, i: nat, presented: nat): World {
    Next(Next(Next(Next(w, Refresh(i, presented)), ReadRow(i)), ReadClock(i)), Action.Write(i, Fit))
  }

  /**
    Who keeps to the rules is never locked out: in every reachable state of a live session the holder
    of the last secret gets a new one and revokes nothing; and a client whose answer was lost may
    present the same secret again within the grace window, and still gets the session's last secret.
  */
  lemma LastSecretIsHonoured(clients: nat, grace: nat, ttl: nat, actions: seq<Action>, i: nat)
    requires var w := Reached(Initial(clients, grace, ttl), actions);
             i < |w.clients| && w.clients[i].Idle? && Live(w.row.data, w.time)
    ensures var w := Reached(Initial(clients, grace, ttl), actions);
            var once := RefreshAlone(w, i, w.row.data.current);
            var twice := RefreshAlone(once, i, w.row.data.current);
            && once.log == w.log + [Granted(w.row.data.current, w.secrets, w.time, true)]
            && once.row.data.current == w.secrets && once.row.data.previous == Some(w.row.data.current) && Live(once.row.data, once.time)
            && twice.log == once.log + [Granted(w.row.data.current, once.secrets, w.time, false)]
            && twice.row.data.current == once.secrets && Live(twice.row.data, twice.time)
  {
    hide Reached;
    RotationIsOrderly(clients, grace, ttl, actions);
    var w := Reached(Initial(clients, grace, ttl), actions);
    AloneDecides(w, i, w.row.data.current);
    AloneDecides(RefreshAlone(w, i, w.row.data.current), i, w.row.data.current);
  }

  lemma AloneDecides(w: World, i: nat, presented: nat)
    requires i < |w.clients| && w.clients[i].Idle? && Live(w.row.data, w.time)
    ensures var after := RefreshAlone(w, i, presented);
            && after.row.data == Changed(w.row.data, presented, w.secrets, w.time, w.grace)
            && after.log == w.log + [EventFor(w.row.data, presented, w.secrets, w.time, w.grace)]
            && after.secrets == w.secrets + 1 && after.time == w.time && after.grace == w.grace
            && |after.clients| == |w.clients| && after.clients[i].Idle?
  {}

  /** A user who is banned or no longer fits the session gets nothing, and a dead session stays as it is. */
  lemma UnfitUsersGetNothing(w: World, i: nat, user: User)
    requires i < |w.clients| && w.clients[i].Refreshing? && w.clients[i].row.Some? && w.clients[i].now.Some?
    requires !user.Fit? || w.clients[i].row.value.data.revokedAt.Some? || w.clients[i].row.value.data.expiresAt <= w.clients[i].now.value
    ensures var after := Next(w, Action.Write(i, user)); after == w.(clients := w.clients[i := Idle])
  {}

  /** A revocation that nobody disturbs ends a live session at once, and leaves a dead one alone. */
  lemma RevocationEndsTheSession(w: World, i: nat, user: User)
    requires i < |w.clients| && w.clients[i].Idle?
    ensures var after := Next(Next(Next(Next(w, Revoke(i)), ReadRow(i)), ReadClock(i)), Action.Write(i, user));
            && after.clients == w.clients
            && if w.row.data.revokedAt.None? && w.time < w.row.data.expiresAt
               then after.row.data == w.row.data.(revokedAt := Some(w.time)) && after.log == w.log + [Revoked(w.time)]
               else after.row == w.row && after.log == w.log
  {
    assert w.clients[i := Idle] == w.clients;
  }

  // ---- retries ----

  /** A write that finds the row changed does nothing, and begins again with nothing read; the fourth time it gives up. */
  lemma LostRacesAreRetried(w: World, i: nat, user: User)
    requires i < |w.clients| && !w.clients[i].Idle? && w.clients[i].row.Some? && w.clients[i].now.Some?
    requires w.clients[i].row.value.version != w.row.version
    requires Live(w.clients[i].row.value.data, w.clients[i].now.value) && (w.clients[i].Refreshing? ==> user.Fit?)
    ensures var c, after := w.clients[i], Next(w, Action.Write(i, user));
            && after.row == w.row && after.log == w.log
            && after.clients == w.clients[i := if c.attempt >= 4 then Idle
                                               else if c.Refreshing? then Refreshing(c.presented, c.attempt + 1, None, None)
                                               else Revoking(c.attempt + 1, None, None)]
  {}

  ghost predicate Limited(w: World) {
    forall i :: 0 <= i < |w.clients| && !w.clients[i].Idle? ==> 1 <= w.clients[i].attempt <= 4
  }

  lemma StepStaysLimited(w: World, a: Action)
    requires Limited(w)
    ensures Limited(Next(w, a))
  {}

  /** No call makes more than four attempts. */
  lemma {:induction false} FourAttemptsAtMost(clients: nat, grace: nat, ttl: nat, actions: seq<Action>)
    ensures Limited(Reached(Initial(clients, grace, ttl), actions))
  {
    hide Next;
    if actions != [] {
      FourAttemptsAtMost(clients, grace, ttl, actions[..|actions| - 1]);
      StepStaysLimited(Reached(Initial(clients, grace, ttl), actions[..|actions| - 1]), actions[|actions| - 1]);
    }
  }

  // ---- one caller, undisturbed ----

  class Auth {
    const grace: nat
    var row: Option<Row<Session>>
    var secrets: nat

    /** A new session under a secret of its own. */
    constructor (grace: nat, now: int, ttl: int)
      ensures this.grace == grace && secrets == 1
      ensures row == Some(Row(1, Session(0, None, now, now + ttl, None)))
    {
      this.grace := grace;
      row := Some(Row(1, Session(0, None, now, now + ttl, None)));
      secrets := 1;
    }

    /** `writeSession`: the next version of the row that was read, if it is still there. */
    method WriteSession(read: Row<Session>, s: Session) returns (ok: bool)
      modifies this`row
      ensures ok == (old(row).Some? && old(row).value.version == read.version)
      ensures row == if ok then Some(Row(read.version + 1, s)) else old(row)
    {
      if row.None? || row.value.version != read.version {
        return false;
      }
      row := Some(Row(read.version + 1, s));
      ok := true;
    }

    /** One attempt: the new secret, or nothing when the session is dead, unfit or was just revoked for reuse. */
    method RefreshToken(presented: nat, user: User, now: int) returns (token: Option<nat>)
      modifies this
      ensures !(old(row).Some? && Live(old(row).value.data, now) && user.Fit?) ==> token.None? && row == old(row)
      ensures old(row).Some? && Live(old(row).value.data, now) && user.Fit? ==>
                && row == Some(Row(old(row).value.version + 1, Changed(old(row).value.data, presented, old(secrets), now, grace)))
                && token == if ChoiceFor(old(row).value.data, presented, now, grace).Reuse? then None else Some(old(secrets))
    {
      var read := row;
      if read.None? || !user.Fit? || read.value.data.revokedAt.Some? || now >= read.value.data.expiresAt {
        return None;
      }
      var s := read.value.data;
      var ok: bool;
      if s.current == presented {
        var next := secrets;
        secrets := secrets + 1;
        ok := WriteSession(read.value, s.(previous := Some(s.current), rotatedAt := now, current := next));
        token := Some(next);
      } else if s.previous == Some(presented) && now - s.rotatedAt <= grace {
        var next := secrets;
        secrets := secrets + 1;
        ok := WriteSession(read.value, s.(current := next));
        token := Some(next);
      } else {
        ok := WriteSession(read.value, s.(revokedAt := Some(now)));
        token := None;
      }
    }

    method RevokeSession(now: int) returns (revoked: bool)
      modifies this`row
      ensures revoked == (old(row).Some? && Live(old(row).value.data, now))
      ensures row == if revoked then Some(Row(old(row).value.version + 1, old(row).value.data.(revokedAt := Some(now)))) else old(row)
    {
      if row.None? || !Live(row.value.data, now) {
        return false;
      }
      revoked := WriteSession(row.value, row.value.data.(revokedAt := Some(now)));
    }
  }
}
