/**
 * The shared computer of a team: execution leases, idle sleep, explicit stop and provisioning.
 *
 * Every database call and every external call is one step. A run of the system is an arbitrary
 * sequence of such steps, by any number of tasks; a step that does not apply changes nothing. The
 * database calls themselves are the functions on Db below; class ComputerStore performs them in
 * place.
 */
module ComputerLease {
  import opened Basics

  type BotId = nat
  type RunId = nat
  type TaskId = nat
  type Time = nat
  type Ref = nat

  const EXECUTION_LEASE_MS: Time := 5 * 60_000
  const TAKEOVER_HOLD_MS: Time := 24 * 60 * 60_000

  datatype Power = Stopped | Booting | Running | Suspending | Suspended | Error

  datatype Row = Row(
    state: Power,
    providerRef: Option<Ref>,
    updatedAt: Time,
    homeRevision: nat,
    executionRunId: Option<RunId>)

  datatype Lease = Lease(runId: RunId, fence: nat, expiresAt: Time)

  /** What a caller of acquire keeps, and presents to renew, hold and release. */
  datatype Token = Token(bot: BotId, runId: RunId, fence: nat)

  datatype Db = Db(row: Row, leases: map<BotId, Lease>)

  // ---------- database calls ----------

  predicate Passes(db: Db, token: Token) {
    && token.bot in db.leases
    && db.leases[token.bot].runId == token.runId
    && db.leases[token.bot].fence == token.fence
  }

  predicate Reclaimable(db: Db, bot: BotId, run: RunId, resume: bool, now: Time) {
    && bot in db.leases
    && (db.leases[bot].expiresAt < now || (resume && db.leases[bot].runId == run))
  }

  function Reclaimed(db: Db, bot: BotId, run: RunId, now: Time): Db
    requires bot in db.leases
  {
    db.(leases := db.leases[bot := Lease(run, db.leases[bot].fence + 1, now + EXECUTION_LEASE_MS)])
  }

  function Created(db: Db, bot: BotId, run: RunId, now: Time): Db {
    db.(leases := db.leases[bot := Lease(run, 1, now + EXECUTION_LEASE_MS)])
  }

  function Extended(db: Db, token: Token, until: Time): Db {
    if Passes(db, token)
    then db.(leases := db.leases[token.bot := db.leases[token.bot].(expiresAt := until)])
    else db
  }

  function Released(db: Db, token: Token): Db {
    if Passes(db, token) then Dropped(db, token.bot) else db
  }

  function Dropped(db: Db, bot: BotId): Db {
    db.(leases := db.leases - {bot})
  }

  predicate NoLeaseAfter(db: Db, at: Time, except: Option<BotId>) {
    forall bot :: bot in db.leases && Some(bot) != except ==> db.leases[bot].expiresAt <= at
  }

  /** The where-clause of the idle sleeper's suspension. */
  predicate Idle(db: Db, ref: Ref, seenUpdatedAt: Time, at: Time) {
    && db.row.state == Running
    && db.row.providerRef == Some(ref)
    && db.row.updatedAt == seenUpdatedAt
    && db.row.executionRunId.None?
    && NoLeaseAfter(db, at, None)
  }

  /** The where-clause of the stop request's suspension. */
  predicate Stoppable(db: Db, bot: BotId, at: Time) {
    db.row.state != Suspending && NoLeaseAfter(db, at, Some(bot))
  }

  function Moved(db: Db, to: Power, stamp: Time): Db {
    db.(row := db.row.(state := to, updatedAt := stamp))
  }

  function PutToSleep(db: Db, revision: nat, at: Time): Db {
    db.(row := db.row.(state := Suspending, homeRevision := revision, updatedAt := at))
  }

  function MovedFrom(db: Db, from: set<Power>, to: Power, stamp: Time): Db {
    if db.row.state in from then Moved(db, to, stamp) else db
  }

  /** The rows, changed in place. Each method is one call; the number of rows it changed is its result. */
  class ComputerStore {
    var row: Row
    var leases: map<BotId, Lease>

    function View(): Db
      reads this
    {
      Db(row, leases)
    }

    constructor (row: Row)
      ensures View() == Db(row, map[])
    {
      this.row := row;
      leases := map[];
    }

    method ReclaimLease(bot: BotId, run: RunId, resume: bool, now: Time) returns (fence: Option<nat>)
      modifies this`leases
      ensures fence.Some? <==> old(Reclaimable(View(), bot, run, resume, now))
      ensures fence.Some? <==>
        bot in old(leases) && (old(leases)[bot].expiresAt < now || (resume && old(leases)[bot].runId == run))
      ensures fence.Some? ==> View() == old(Reclaimed(View(), bot, run, now))
      ensures fence.Some? ==>
        && bot in old(leases) && fence.value == old(leases)[bot].fence + 1
        && leases == old(leases)[bot := Lease(run, fence.value, now + EXECUTION_LEASE_MS)]
      ensures fence.Some? ==> Passes(View(), Token(bot, run, fence.value))
      ensures fence.None? ==> View() == old(View())
    {
      if bot in leases && (leases[bot].expiresAt < now || (resume && leases[bot].runId == run)) {
        var next := leases[bot].fence + 1;
        leases := leases[bot := Lease(run, next, now + EXECUTION_LEASE_MS)];
        return Some(next);
      }
      return None;
    }

    /** Fails on the unique (computer, bot) constraint. */
    method CreateLease(bot: BotId, run: RunId, now: Time) returns (created: bool)
      modifies this`leases
      ensures created <==> bot !in old(leases)
      ensures View() == if created then old(Created(View(), bot, run, now)) else old(View())
      ensures created ==> leases == old(leases)[bot := Lease(run, 1, now + EXECUTION_LEASE_MS)]
    {
      created := bot !in leases;
      if created { leases := leases[bot := Lease(run, 1, now + EXECUTION_LEASE_MS)]; }
    }

    method ExtendLease(token: Token, until: Time) returns (count: nat)
      modifies this`leases
      ensures count == if old(Passes(View(), token)) then 1 else 0
      ensures View() == old(Extended(View(), token, until))
      ensures count == 1 <==>
        token.bot in old(leases) && old(leases)[token.bot].runId == token.runId && old(leases)[token.bot].fence == token.fence
      ensures leases == if count == 1 then old(leases)[token.bot := Lease(token.runId, token.fence, until)] else old(leases)
    {
      count := 0;
      if token.bot in leases {
        var lease := leases[token.bot];
        if lease.runId == token.runId && lease.fence == token.fence {
          leases := leases[token.bot := Lease(lease.runId, lease.fence, until)];
          count := 1;
        }
      }
    }

    method ReleaseLease(token: Token)
      modifies this`leases
      ensures View() == old(Released(View(), token))
      ensures leases ==
        if token.bot in old(leases) && old(leases)[token.bot].runId == token.runId && old(leases)[token.bot].fence == token.fence
        then old(leases) - {token.bot} else old(leases)
    {
      if token.bot in leases {
        var lease := leases[token.bot];
        if lease.runId == token.runId && lease.fence == token.fence {
          leases := leases - {token.bot};
        }
      }
    }

    method SuspendIfIdle(ref: Ref, seenUpdatedAt: Time, revision: nat, at: Time) returns (count: nat)
      modifies this`row
      ensures count == if old(Idle(View(), ref, seenUpdatedAt, at)) then 1 else 0
      ensures View() == if count == 1 then old(PutToSleep(View(), revision, at)) else old(View())
      ensures count == 1 <==>
        && old(row).state == Running && old(row).providerRef == Some(ref) && old(row).updatedAt == seenUpdatedAt
        && old(row).executionRunId.None? && forall bot :: bot in leases ==> leases[bot].expiresAt <= at
      ensures row == if count == 1 then old(row).(state := Suspending, homeRevision := revision, updatedAt := at) else old(row)
    {
      var quiet := LeasesEndedBy(at, None);
      count := 0;
      if row.state == Running && row.providerRef == Some(ref) && row.updatedAt == seenUpdatedAt
         && row.executionRunId.None? && quiet {
        row := row.(state := Suspending, homeRevision := revision, updatedAt := at);
        count := 1;
      }
    }

    method SuspendForStop(bot: BotId, at: Time, stamp: Time) returns (count: nat)
      modifies this`row
      ensures count == if old(Stoppable(View(), bot, at)) then 1 else 0
      ensures View() == if count == 1 then old(Moved(View(), Suspending, stamp)) else old(View())
      ensures count == 1 <==>
        old(row).state != Suspending && forall other :: other in leases && other != bot ==> leases[other].expiresAt <= at
      ensures row == if count == 1 then old(row).(state := Suspending, updatedAt := stamp) else old(row)
    {
      var quiet := LeasesEndedBy(at, Some(bot));
      count := 0;
      if row.state != Suspending && quiet {
        row := row.(state := Suspending, updatedAt := stamp);
        count := 1;
      }
    }

    method LeasesEndedBy(at: Time, except: Option<BotId>) returns (quiet: bool)
      ensures quiet <==> NoLeaseAfter(View(), at, except)
    {
      var rest := leases.Keys;
      quiet := true;
      while rest != {}
        invariant rest <= leases.Keys
        invariant quiet <==> forall bot ::
          bot in leases && bot !in rest && Some(bot) != except ==> leases[bot].expiresAt <= at
        decreases rest
      {
        var bot :| bot in rest;
        if Some(bot) != except && leases[bot].expiresAt > at { quiet := false; }
        rest := rest - {bot};
      }
    }

    method MoveFrom(from: set<Power>, to: Power, stamp: Time) returns (count: nat)
      modifies this`row
      ensures count == if old(row).state in from then 1 else 0
      ensures View() == old(MovedFrom(View(), from, to, stamp))
      ensures row == if count == 1 then old(row).(state := to, updatedAt := stamp) else old(row)
    {
      count := 0;
      if row.state in from {
        row := row.(state := to, updatedAt := stamp);
        count := 1;
      }
    }
  }
}
