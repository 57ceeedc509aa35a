/**
 * Acquire, renew, hold, release, sleep, stop and provision, interleaved step by step on one team
 * computer. A run is any sequence of actions; an action whose task is at another point does
 * nothing, so no run is excluded. The last fields of System are history: they record what
 * happened and no step reads them.
 */
module SuspensionProtocol {
  import opened Basics
  import opened ComputerLease

  /** What a task remembers of its own suspension; the leases and trails are history. */
  datatype Claim = Claim(at: Time, seen: map<BotId, Lease>, trail: map<BotId, Trail>)

  datatype Nap = Nap(ref: Ref, loadedAt: Time, revision: nat, touchesAtLoad: nat)

  datatype Origin =
    | BySleep(nap: Nap)
    | ByStop(bot: BotId, before: Power, hasMachine: bool)

  /** From the conditional update to the end of the handler. */
  datatype Stage =
    | Claimed        // about to look for active runs (and, asleep, at the row again)
    | Admitted       // stop only: about to delete the bot's own lease
    | Ready          // sleep: about to stop the machine; stop: about to checkpoint
    | Saved          // stop only: checkpoint recorded
    | Stopping       // sandbox.stop has been called and has not returned
    | Halted         // sandbox.stop returned; about to record it
    | Undoing(to: Power)

  datatype Task =
    | AcquireBegun(bot: BotId, run: RunId, resume: bool)
    | AcquireAdmitted(bot: BotId, run: RunId, resume: bool)
    | AcquireStamped(bot: BotId, run: RunId, resume: bool, now: Time)
    | AcquireMissed(bot: BotId, run: RunId, now: Time)
    | AcquireWritten(acq: nat)
    | AcquireRefused(acq: nat)
    | SleepBegun
    | SleepLoaded(ref: Ref, loadedAt: Time, touchesAtLoad: nat)
    | SleepSaved(nap: Nap)
    | SleepStamped(nap: Nap, at: Time)
    | StopBegun(bot: BotId)
    | StopLoaded(bot: BotId, before: Power, hasMachine: bool)
    | StopStamped(bot: BotId, before: Power, hasMachine: bool, at: Time)
    | Suspender(origin: Origin, stage: Stage, claim: Claim)
    | ProvisionBegun
    | ProvisionClaimed

  /** One write of a lease row by acquire. A lifetime is named by the write that created the row. */
  datatype Grant = Grant(token: Token, life: nat)

  /** The row's newest write by acquire, and when and for how long it was last written or prolonged. */
  datatype Trail = Trail(acq: nat, life: nat, renewals: nat, since: Time, term: Time)

  /** How the row comes to be left in suspending with nobody to take it out. */
  datatype Cause =
    | Found            // it was there from the start
    | Crashed          // the worker that had suspended it is gone
    | WriteFailed      // its last write, of suspended or of what it goes back to, failed
    | PutBack          // a stop request that had read suspending goes back to it

  /** History of the lease rows: every write by acquire, and which write each row stems from. */
  datatype Book = Book(
    issued: seq<Grant>,
    trail: map<BotId, Trail>,
    reusedRuns: nat)            // acquisitions by a run that held an earlier row of the same bot

  datatype System = System(
    db: Db,
    clock: Time,
    tasks: map<TaskId, Task>,
    book: Book,                 // history
    handed: set<nat>,           // history: writes whose token acquire returned to its caller
    touchLog: seq<Time>,        // history: stamps of the heartbeats, file and input touches that landed
    abandoned: set<Cause>,      // history: how suspending was left to itself
    lateRenewals: nat,          // history: renew or hold calls that hit an expired lease
    backdated: nat,             // history: row writes stamped before the row's own stamp
    tiedTouches: nat)           // history: touches stamped with the row's own stamp

  function Init(row: Row, clock: Time): System {
    System(Db(row, map[]), clock, map[], Book([], map[], 0), {}, [],
           if row.state == Suspending then {Found} else {}, 0, 0, 0)
  }

  datatype Action =
    | Tick(to: Time)
    | Begin(p: TaskId, task: Task)
    | Crash(p: TaskId)
    | Advance(p: TaskId)
    | Branch(p: TaskId, yes: bool, stamp: Time)
    | Touch(stamp: Time)
    | OtherWrite(stamp: Time)
    | Renew(token: Token, now: Time)
    | Hold(token: Token, now: Time)
    | Release(token: Token)
    | ForgetLease(bot: BotId)

  function Step(s: System, a: Action): System {
    match a
    case Tick(to) => if s.clock <= to then s.(clock := to) else s
    case Begin(p, task) =>
      if p !in s.tasks && IsEntry(task) then At(s, p, task) else s
    case Crash(p) =>
      if p in s.tasks && s.tasks[p].Suspender? then Abandon(End(s, p), Crashed) else End(s, p)
    case Advance(p) => if p in s.tasks then AdvanceTask(s, p, s.tasks[p]) else s
    case Branch(p, yes, stamp) =>
      if p in s.tasks && stamp <= s.clock then BranchTask(s, p, s.tasks[p], yes, stamp) else s
    case Touch(stamp) =>
      if s.db.row.state == Running && stamp <= s.clock
      then NoteTouch(Write(s, s.db.(row := s.db.row.(updatedAt := stamp)), stamp), s, stamp)
      else s
    case OtherWrite(stamp) =>
      if stamp <= s.clock then Write(s, s.db.(row := s.db.row.(updatedAt := stamp)), stamp) else s
    case Renew(token, now) => if now <= s.clock then Prolong(s, token, now, EXECUTION_LEASE_MS) else s
    case Hold(token, now) => if now <= s.clock then Prolong(s, token, now, TAKEOVER_HOLD_MS) else s
    case Release(token) => Free(s, token)
    case ForgetLease(bot) => Forget(s, bot)
  }

  function Run(s: System, actions: seq<Action>): System {
    if actions == [] then s else Step(Run(s, actions[..|actions| - 1]), actions[|actions| - 1])
  }

  predicate IsEntry(task: Task) {
    task.AcquireBegun? || task.SleepBegun? || task.StopBegun? || task.ProvisionBegun?
  }

  // ---------- bookkeeping ----------

  function At(s: System, p: TaskId, task: Task): System {
    s.(tasks := s.tasks[p := task])
  }

  function End(s: System, p: TaskId): System {
    s.(tasks := s.tasks - {p})
  }

  function Abandon(s: System, cause: Cause): System {
    s.(abandoned := s.abandoned + {cause})
  }

  /** Replaces the database after a write of the computer row. */
  function Write(s: System, db: Db, stamp: Time): System {
    s.(db := db, backdated := s.backdated + if stamp < s.db.row.updatedAt then 1 else 0)
  }

  function NoteTouch(s: System, before: System, stamp: Time): System {
    s.(touchLog := s.touchLog + [stamp],
       tiedTouches := s.tiedTouches + if stamp == before.db.row.updatedAt then 1 else 0)
  }

  function Prolong(s: System, token: Token, now: Time, term: Time): System {
    if Passes(s.db, token)
    then s.(db := Extended(s.db, token, now + term),
            book := Renewed(s.book, token.bot, now, term),
            lateRenewals := s.lateRenewals + if s.db.leases[token.bot].expiresAt <= s.clock then 1 else 0)
    else s
  }

  function Renewed(book: Book, bot: BotId, now: Time, term: Time): Book {
    if bot in book.trail
    then book.(trail := book.trail[bot :=
      book.trail[bot].(renewals := book.trail[bot].renewals + 1, since := now, term := term)])
    else book
  }

  function Free(s: System, token: Token): System {
    if Passes(s.db, token) then Forget(s, token.bot) else s
  }

  function Forget(s: System, bot: BotId): System {
    s.(db := Dropped(s.db, bot), book := s.book.(trail := s.book.trail - {bot}))
  }

  /** The run already appears in another lifetime of this bot's row. */
  predicate Reused(issued: seq<Grant>, bot: BotId, run: RunId, life: nat) {
    exists a :: 0 <= a < |issued| && issued[a].life != life
             && issued[a].token.bot == bot && issued[a].token.runId == run
  }

  /** Records one lease row write. */
  function Noted(book: Book, token: Token, life: nat, now: Time): Book {
    Book(book.issued + [Grant(token, life)],
         book.trail[token.bot := Trail(|book.issued|, life, 0, now, EXECUTION_LEASE_MS)],
         book.reusedRuns + if Reused(book.issued, token.bot, token.runId, life) then 1 else 0)
  }

  function Issue(s: System, p: TaskId, db: Db, token: Token, life: nat, now: Time): System {
    At(s.(db := db, book := Noted(s.book, token, life, now)), p, AcquireWritten(|s.book.issued|))
  }

  // ---------- the handlers, step by step ----------

  /** Steps whose outcome the database alone decides. */
  function AdvanceTask(s: System, p: TaskId, task: Task): System {
    match task
    case AcquireBegun(bot, run, resume) =>
      if s.db.row.state == Suspending then End(s, p) else At(s, p, AcquireAdmitted(bot, run, resume))
    case AcquireAdmitted(bot, run, resume) => At(s, p, AcquireStamped(bot, run, resume, s.clock))
    case AcquireStamped(bot, run, resume, now) =>
      if Reclaimable(s.db, bot, run, resume, now) && bot in s.book.trail then
        Issue(s, p, Reclaimed(s.db, bot, run, now), Token(bot, run, s.db.leases[bot].fence + 1), s.book.trail[bot].life, now)
      else At(s, p, AcquireMissed(bot, run, now))
    case AcquireMissed(bot, run, now) =>
      if bot in s.db.leases then End(s, p)
      else Issue(s, p, Created(s.db, bot, run, now), Token(bot, run, 1), |s.book.issued|, now)
    case AcquireWritten(acq) =>
      if s.db.row.state == Suspending then At(s, p, AcquireRefused(acq))
      else End(s.(handed := s.handed + {acq}), p)
    case AcquireRefused(acq) =>
      if acq < |s.book.issued| then End(Free(s, s.book.issued[acq].token), p) else End(s, p)
    case SleepBegun =>
      if s.db.row.state == Running && s.db.row.providerRef.Some?
      then At(s, p, SleepLoaded(s.db.row.providerRef.value, s.db.row.updatedAt, |s.touchLog|))
      else End(s, p)
    case SleepSaved(nap) => At(s, p, SleepStamped(nap, s.clock))
    case SleepStamped(nap, at) =>
      if Idle(s.db, nap.ref, nap.loadedAt, at)
      then At(Write(s, PutToSleep(s.db, nap.revision, at), at), p,
              Suspender(BySleep(nap), Claimed, Claim(at, s.db.leases, s.book.trail)))
      else End(s, p)
    case StopBegun(bot) => At(s, p, StopLoaded(bot, s.db.row.state, s.db.row.providerRef.Some?))
    case StopLoaded(bot, before, hasMachine) => At(s, p, StopStamped(bot, before, hasMachine, s.clock))
    case Suspender(origin, Admitted, claim) =>
      if origin.ByStop? then At(Forget(s, origin.bot), p, Suspender(origin, Ready, claim)) else s
    case Suspender(origin, Ready, claim) =>
      if origin.BySleep? then At(s, p, Suspender(origin, Stopping, claim))
      else if !origin.hasMachine then At(s, p, Suspender(origin, Halted, claim))
      else s
    case Suspender(origin, Saved, claim) => At(s, p, Suspender(origin, Stopping, claim))
    case _ => s
  }

  /** Steps that write the row, or whose outcome an active run or an external call decides. */
  function BranchTask(s: System, p: TaskId, task: Task, yes: bool, stamp: Time): System {
    match task
    case SleepLoaded(ref, loadedAt, touchesAtLoad) =>
      // an active run or a failed checkpoint ends the attempt
      if yes then At(s, p, SleepSaved(Nap(ref, loadedAt, |s.touchLog|, touchesAtLoad))) else End(s, p)
    case StopStamped(bot, before, hasMachine, at) =>
      if Stoppable(s.db, bot, at)
      then At(Write(s, Moved(s.db, Suspending, stamp), stamp), p,
              Suspender(ByStop(bot, before, hasMachine), Claimed, Claim(at, s.db.leases, s.book.trail)))
      else End(s, p)
    case Suspender(origin, Claimed, claim) =>
      // yes: no active run was found
      if origin.ByStop? then At(s, p, Suspender(origin, if yes then Admitted else Undoing(origin.before), claim))
      else if yes && StillOurs(s.db.row, origin.nap, claim.at) then At(s, p, Suspender(origin, Ready, claim))
      else At(s, p, Suspender(origin, Undoing(Running), claim))
    case Suspender(origin, Ready, claim) =>
      if origin.ByStop? && origin.hasMachine then
        if yes
        then At(Write(s, s.db.(row := s.db.row.(homeRevision := |s.touchLog|, updatedAt := stamp)), stamp), p,
                Suspender(origin, Saved, claim))
        else At(s, p, Suspender(origin, Undoing(Error), claim))
      else s
    case Suspender(origin, Stopping, claim) =>
      // sandbox.stop returned (yes) or threw
      At(s, p, Suspender(origin, if yes then Halted else Undoing(if origin.BySleep? then Running else Error), claim))
    case Suspender(origin, Halted, claim) =>
      // yes: the final write went through
      if !yes then (if origin.BySleep? then Abandon(End(s, p), WriteFailed) else At(s, p, Suspender(origin, Undoing(Error), claim)))
      else End(Write(s, Moved(s.db, if origin.BySleep? then Suspended else Stopped, stamp), stamp), p)
    case Suspender(origin, Undoing(to), claim) =>
      // yes: the write went through
      if !yes then Abandon(End(s, p), WriteFailed)
      else if to == Suspending then Abandon(End(WriteFrom(s, {Suspending}, to, stamp), p), PutBack)
      else End(WriteFrom(s, {Suspending}, to, stamp), p)
    case ProvisionBegun =>
      if s.db.row.state in {Stopped, Suspended, Error}
      then At(WriteFrom(s, {Stopped, Suspended, Error}, Booting, stamp), p, ProvisionClaimed)
      else End(s, p)
    case ProvisionClaimed =>
      // yes: the machine came up, and the row is activated if it is still booting
      End(WriteFrom(s, {Booting}, if yes then Running else Error, stamp), p)
    case _ => s
  }

  function WriteFrom(s: System, from: set<Power>, to: Power, stamp: Time): System {
    if s.db.row.state in from then Write(s, Moved(s.db, to, stamp), stamp) else s
  }

  predicate StillOurs(row: Row, nap: Nap, at: Time) {
    row.state == Suspending && row.providerRef == Some(nap.ref) && row.updatedAt == at
  }

  // ---------- leases and fences ----------

  /** Every lease row stems from the newest write of its lifetime. */
  ghost predicate Ledger(leases: map<BotId, Lease>, book: Book) {
    && book.trail.Keys == leases.Keys
    && (forall a :: 0 <= a < |book.issued| ==> book.issued[a].life <= a)
    && (forall bot :: bot in leases ==> Newest(bot, leases[bot], book.trail[bot], book.issued))
    && (book.reusedRuns == 0 ==>
         forall bot :: bot in leases ==> !Reused(book.issued, bot, leases[bot].runId, book.trail[bot].life))
  }

  ghost predicate Newest(bot: BotId, lease: Lease, t: Trail, issued: seq<Grant>) {
    && t.acq < |issued|
    && issued[t.acq] == Grant(Token(bot, lease.runId, lease.fence), t.life)
    && (forall a :: 0 <= a < |issued| && issued[a].life == t.life ==>
         && issued[a].token.bot == bot
         && issued[a].token.fence <= lease.fence
         && (issued[a].token.fence == lease.fence ==> a == t.acq))
  }

  lemma NewestNoted(bot: BotId, lease: Lease, t: Trail, issued: seq<Grant>, grant: Grant)
    requires Newest(bot, lease, t, issued) && grant.life != t.life
    ensures Newest(bot, lease, t, issued + [grant])
  {
  }

  lemma NewestNow(bot: BotId, lease: Lease, issued: seq<Grant>, life: nat, now: Time, term: Time)
    requires forall a :: 0 <= a < |issued| && issued[a].life == life ==>
               issued[a].token.bot == bot && issued[a].token.fence < lease.fence
    ensures Newest(bot, lease, Trail(|issued|, life, 0, now, term), issued + [Grant(Token(bot, lease.runId, lease.fence), life)])
  {
  }

  lemma LedgerNoted(leases: map<BotId, Lease>, book: Book, bot: BotId, lease: Lease, life: nat, now: Time)
    requires Ledger(leases, book)
    requires if bot in leases
             then life == book.trail[bot].life && lease.fence == leases[bot].fence + 1
             else life == |book.issued|
    ensures Ledger(leases[bot := lease], Noted(book, Token(bot, lease.runId, lease.fence), life, now))
  {
    hide Reused, Newest;
    var grant := Grant(Token(bot, lease.runId, lease.fence), life);
    var next := Noted(book, grant.token, life, now);
    OlderGrants(leases, book, bot, lease, life);
    forall b | b in leases[bot := lease]
      ensures Newest(b, leases[bot := lease][b], next.trail[b], next.issued)
      ensures next.reusedRuns == 0 ==> !Reused(next.issued, b, leases[bot := lease][b].runId, next.trail[b].life)
    {
      ReusedNoted(book.issued, grant, b, leases[bot := lease][b].runId, next.trail[b].life);
      if b == bot {
        NewestNow(bot, lease, book.issued, life, now, EXECUTION_LEASE_MS);
      } else {
        LivesDiffer(leases, book, b, bot, life);
        NewestNoted(b, leases[b], book.trail[b], book.issued, grant);
      }
    }
  }

  lemma OlderGrants(leases: map<BotId, Lease>, book: Book, bot: BotId, lease: Lease, life: nat)
    requires Ledger(leases, book)
    requires if bot in leases
             then life == book.trail[bot].life && lease.fence == leases[bot].fence + 1
             else life == |book.issued|
    ensures life <= |book.issued|
    ensures forall a :: 0 <= a < |book.issued| && book.issued[a].life == life ==>
              book.issued[a].token.bot == bot && book.issued[a].token.fence < lease.fence
  {
    assert bot in leases ==> Newest(bot, leases[bot], book.trail[bot], book.issued);
  }

  /** Two bots' rows never share a lifetime, and a created row starts a new one. */
  lemma LivesDiffer(leases: map<BotId, Lease>, book: Book, b: BotId, bot: BotId, life: nat)
    requires Ledger(leases, book) && b in leases && b != bot
    requires life == |book.issued| || (bot in leases && life == book.trail[bot].life)
    ensures book.trail[b].life != life
  {
    assert Newest(b, leases[b], book.trail[b], book.issued);
    if bot in leases { assert Newest(bot, leases[bot], book.trail[bot], book.issued); }
  }

  lemma ReusedNoted(issued: seq<Grant>, grant: Grant, bot: BotId, run: RunId, life: nat)
    requires grant.token.bot == bot ==> grant.life == life
    ensures Reused(issued + [grant], bot, run, life) == Reused(issued, bot, run, life)
  {
    if Reused(issued, bot, run, life) {
      var a :| 0 <= a < |issued| && issued[a].life != life
               && issued[a].token.bot == bot && issued[a].token.runId == run;
      assert (issued + [grant])[a] == issued[a];
    }
  }

  lemma LedgerRenewed(leases: map<BotId, Lease>, book: Book, bot: BotId, now: Time, term: Time)
    requires Ledger(leases, book) && bot in leases
    ensures Ledger(leases[bot := leases[bot].(expiresAt := now + term)], Renewed(book, bot, now, term))
  {
    assert Newest(bot, leases[bot], book.trail[bot], book.issued);
  }

  lemma LedgerDropped(leases: map<BotId, Lease>, book: Book, bot: BotId)
    requires Ledger(leases, book)
    ensures Ledger(leases - {bot}, book.(trail := book.trail - {bot}))
  {
  }

  /** Only acquire, renew, hold, release, stop and lease clean-up write lease rows. */
  lemma BranchKeepsLeases(s: System, p: TaskId, task: Task, yes: bool, stamp: Time)
    ensures var t := BranchTask(s, p, task, yes, stamp); t.db.leases == s.db.leases && t.book == s.book
  {
  }

  lemma OthersStayOnAdvance(s: System, p: TaskId)
    requires p in s.tasks
    ensures var t := AdvanceTask(s, p, s.tasks[p]);
      forall q :: q != p ==> (q in t.tasks <==> q in s.tasks) && (q in s.tasks ==> t.tasks[q] == s.tasks[q])
  {
    hide Idle, Reclaimable, Noted, Passes;
  }

  lemma OthersStayOnBranch(s: System, p: TaskId, yes: bool, stamp: Time)
    requires p in s.tasks
    ensures var t := BranchTask(s, p, s.tasks[p], yes, stamp);
      && (forall q :: q != p ==> (q in t.tasks <==> q in s.tasks) && (q in s.tasks ==> t.tasks[q] == s.tasks[q]))
      && t.clock == s.clock && t.handed == s.handed && t.lateRenewals == s.lateRenewals && t.touchLog == s.touchLog
  {
    hide Stoppable, StillOurs;
  }

  lemma LedgerStep(s: System, a: Action)
    requires Ledger(s.db.leases, s.book)
    ensures Ledger(Step(s, a).db.leases, Step(s, a).book)
  {
    hide AdvanceTask, BranchTask, Ledger;
    match a
    case Renew(token, now) =>
      if Passes(s.db, token) { LedgerRenewed(s.db.leases, s.book, token.bot, now, EXECUTION_LEASE_MS); }
    case Hold(token, now) =>
      if Passes(s.db, token) { LedgerRenewed(s.db.leases, s.book, token.bot, now, TAKEOVER_HOLD_MS); }
    case Release(token) => LedgerDropped(s.db.leases, s.book, token.bot);
    case ForgetLease(bot) => LedgerDropped(s.db.leases, s.book, bot);
    case Advance(p) => if p in s.tasks { LedgerAdvance(s, p); }
    case Branch(p, yes, stamp) => if p in s.tasks { BranchKeepsLeases(s, p, s.tasks[p], yes, stamp); }
    case _ => assert Step(s, a).db.leases == s.db.leases && Step(s, a).book == s.book;
  }

  lemma LedgerAdvance(s: System, p: TaskId)
    requires Ledger(s.db.leases, s.book) && p in s.tasks
    ensures var t := AdvanceTask(s, p, s.tasks[p]); Ledger(t.db.leases, t.book)
  {
    hide Newest, Reused;
    match s.tasks[p]
    case AcquireStamped(bot, run, resume, now) =>
      if Reclaimable(s.db, bot, run, resume, now) {
        LedgerNoted(s.db.leases, s.book, bot, Reclaimed(s.db, bot, run, now).leases[bot], s.book.trail[bot].life, now);
      }
    case AcquireMissed(bot, run, now) =>
      if bot !in s.db.leases {
        LedgerNoted(s.db.leases, s.book, bot, Lease(run, 1, now + EXECUTION_LEASE_MS), |s.book.issued|, now);
      }
    case AcquireRefused(acq) =>
      if acq < |s.book.issued| { LedgerDropped(s.db.leases, s.book, s.book.issued[acq].token.bot); }
    case Suspender(origin, Admitted, claim) =>
      if origin.ByStop? { LedgerDropped(s.db.leases, s.book, origin.bot); }
    case _ =>
  }

  /** A lease runs for its term from when it was last written or prolonged. */
  ghost predicate Timed(s: System) {
    forall bot :: bot in s.db.leases && bot in s.book.trail ==>
      s.db.leases[bot].expiresAt == s.book.trail[bot].since + s.book.trail[bot].term
  }

  lemma TimedStep(s: System, a: Action)
    requires Timed(s) && s.book.trail.Keys == s.db.leases.Keys
    ensures Timed(Step(s, a))
  {
    hide AdvanceTask, BranchTask;
    match a
    case Advance(p) => if p in s.tasks { TimedAdvance(s, p); }
    case Branch(p, yes, stamp) => if p in s.tasks { BranchKeepsLeases(s, p, s.tasks[p], yes, stamp); }
    case _ =>
  }

  lemma TimedAdvance(s: System, p: TaskId)
    requires Timed(s) && p in s.tasks && s.book.trail.Keys == s.db.leases.Keys
    ensures Timed(AdvanceTask(s, p, s.tasks[p]))
  {
    hide Idle, Reused, Reclaimable;
    match s.tasks[p]
    case AcquireRefused(acq) =>
    case _ => hide Passes;
  }

  /** A row's write is the latest of all writes for its bot. */
  ghost predicate Latest(book: Book) {
    forall bot, a :: bot in book.trail && 0 <= a < |book.issued| && book.issued[a].token.bot == bot ==>
      a <= book.trail[bot].acq
  }

  lemma LatestNoted(book: Book, token: Token, life: nat, now: Time)
    requires Latest(book)
    ensures Latest(Noted(book, token, life, now))
  {
    hide Reused;
  }

  lemma LatestStep(s: System, a: Action)
    requires Latest(s.book)
    ensures Latest(Step(s, a).book)
  {
    hide AdvanceTask, BranchTask;
    match a
    case Advance(p) => if p in s.tasks { LatestAdvance(s, p); }
    case Branch(p, yes, stamp) => if p in s.tasks { BranchKeepsLeases(s, p, s.tasks[p], yes, stamp); }
    case _ =>
  }

  lemma LatestAdvance(s: System, p: TaskId)
    requires Latest(s.book) && p in s.tasks
    ensures Latest(AdvanceTask(s, p, s.tasks[p]).book)
  {
    hide Noted, Latest;
    match s.tasks[p]
    case AcquireStamped(bot, run, resume, now) =>
      if Reclaimable(s.db, bot, run, resume, now) && bot in s.book.trail {
        LatestNoted(s.book, Token(bot, run, s.db.leases[bot].fence + 1), s.book.trail[bot].life, now);
      }
    case AcquireMissed(bot, run, now) => LatestNoted(s.book, Token(bot, run, 1), |s.book.issued|, now);
    case AcquireRefused(acq) =>
      if acq < |s.book.issued| { LatestDropped(s.book, s.book.issued[acq].token.bot); }
    case Suspender(origin, Admitted, claim) => if origin.ByStop? { LatestDropped(s.book, origin.bot); }
    case _ =>
  }

  lemma LatestDropped(book: Book, bot: BotId)
    requires Latest(book)
    ensures Latest(book.(trail := book.trail - {bot}))
  {
  }

  // ---------- suspension ----------

  /** Whoever moved the row to suspending still owns it, alone. */
  ghost predicate Owned(s: System) {
    && (forall p, q :: p in s.tasks && q in s.tasks && s.tasks[p].Suspender? && s.tasks[q].Suspender? ==> p == q)
    && (forall p :: p in s.tasks && s.tasks[p].Suspender? ==> s.db.row.state == Suspending)
  }

  /** A task enters a suspension only by the conditional update, and leaves the state only at its end. */
  lemma OwnedAdvance(s: System, p: TaskId)
    requires Owned(s) && p in s.tasks
    ensures Owned(AdvanceTask(s, p, s.tasks[p]))
  {
    OthersStayOnAdvance(s, p);
    SuspenderAdvances(s, p);
    hide AdvanceTask;
  }

  lemma SuspenderAdvances(s: System, p: TaskId)
    requires p in s.tasks
    ensures var t := AdvanceTask(s, p, s.tasks[p]);
      && (t.db.row.state == s.db.row.state || (s.tasks[p].SleepStamped? && t.db.row.state == Suspending))
      && (p in t.tasks && t.tasks[p].Suspender? ==>
           s.tasks[p].Suspender? || (s.db.row.state == Running && t.db.row.state == Suspending))
  {
    hide Reclaimable, Noted, NoLeaseAfter;
  }

  lemma OwnedBranch(s: System, p: TaskId, yes: bool, stamp: Time)
    requires Owned(s) && p in s.tasks
    ensures Owned(BranchTask(s, p, s.tasks[p], yes, stamp))
  {
    OthersStayOnBranch(s, p, yes, stamp);
    SuspenderBranches(s, p, yes, stamp);
    hide BranchTask;
  }

  lemma SuspenderBranches(s: System, p: TaskId, yes: bool, stamp: Time)
    requires p in s.tasks
    ensures var t := BranchTask(s, p, s.tasks[p], yes, stamp);
      && (s.db.row.state == Suspending && !s.tasks[p].Suspender? ==> t.db.row.state == Suspending)
      && (p in t.tasks && t.tasks[p].Suspender? ==>
           if s.tasks[p].Suspender? then t.db.row.state == s.db.row.state
           else s.db.row.state != Suspending && t.db.row.state == Suspending)
  {
    hide NoLeaseAfter, StillOurs;
  }

  lemma OwnedStep(s: System, a: Action)
    requires Owned(s)
    ensures Owned(Step(s, a))
  {
    hide AdvanceTask, BranchTask;
    match a
    case Advance(p) => if p in s.tasks { OwnedAdvance(s, p); }
    case Branch(p, yes, stamp) => if p in s.tasks { OwnedBranch(s, p, yes, stamp); }
    case _ =>
  }

  /**
   * The row is suspending exactly while a suspender is at work on it or it has been left to itself,
   * never both; a suspender that goes back goes back to running, to the state read before, or to
   * error, and a stop request checkpoints and stops a machine only if there is one.
   */
  ghost predicate Watchman(s: System) {
    && (s.db.row.state == Suspending <==> s.abandoned != {} || exists p :: p in s.tasks && s.tasks[p].Suspender?)
    && (s.abandoned != {} ==> forall p :: p in s.tasks ==> !s.tasks[p].Suspender?)
    && (forall p :: p in s.tasks && s.tasks[p].Suspender? ==> GoesBackTo(s.tasks[p]))
  }

  ghost predicate GoesBackTo(task: Task)
    requires task.Suspender?
  {
    match task.stage
    case Undoing(to) => if task.origin.BySleep? then to == Running else to == task.origin.before || to == Error
    case Saved => task.origin.ByStop? && task.origin.hasMachine
    case Stopping => task.origin.ByStop? ==> task.origin.hasMachine
    case _ => true
  }

  lemma LedgerKnows(s: System)
    requires Ledger(s.db.leases, s.book)
    ensures s.book.trail.Keys == s.db.leases.Keys
  {
  }

  lemma WatchmanStep(s: System, a: Action)
    requires Watchman(s) && Owned(s)
    ensures Watchman(Step(s, a))
  {
    hide AdvanceTask, BranchTask;
    match a
    case Advance(p) => if p in s.tasks { WatchmanAdvance(s, p); }
    case Branch(p, yes, stamp) => if p in s.tasks && stamp <= s.clock { WatchmanBranch(s, p, yes, stamp); }
    case _ => WatchmanQuiet(s, a);
  }

  lemma WatchmanQuiet(s: System, a: Action)
    requires Watchman(s) && Owned(s) && !a.Advance? && !a.Branch?
    ensures Watchman(Step(s, a))
  {
    var t := Step(s, a);
    if p :| p in s.tasks && s.tasks[p].Suspender? && !(a.Crash? && a.p == p) { assert t.tasks[p] == s.tasks[p]; }
  }

  /** How one advance of a task goes on, as far as its own suspension is concerned. */
  lemma StageAdvances(s: System, p: TaskId)
    requires p in s.tasks && (s.tasks[p].Suspender? ==> GoesBackTo(s.tasks[p]))
    ensures var t := AdvanceTask(s, p, s.tasks[p]);
      && t.abandoned == s.abandoned
      && (s.tasks[p].Suspender? ==> p in t.tasks && t.tasks[p].Suspender? && t.db.row == s.db.row)
      && (p in t.tasks && t.tasks[p].Suspender? ==> GoesBackTo(t.tasks[p]))
      && (!s.tasks[p].Suspender? && p in t.tasks && t.tasks[p].Suspender? <==>
           s.db.row.state != Suspending && t.db.row.state == Suspending)
      && (s.db.row.state == Suspending ==> t.db.row.state == Suspending)
  {
    hide Reclaimable, Noted, NoLeaseAfter;
  }

  lemma WatchmanAdvance(s: System, p: TaskId)
    requires Watchman(s) && Owned(s) && p in s.tasks
    ensures Watchman(AdvanceTask(s, p, s.tasks[p]))
  {
    OthersStayOnAdvance(s, p);
    StageAdvances(s, p);
    hide AdvanceTask, GoesBackTo;
    var t := AdvanceTask(s, p, s.tasks[p]);
    if q :| q in s.tasks && s.tasks[q].Suspender? { assert q in t.tasks && t.tasks[q].Suspender?; }
  }

  lemma StageBranches(s: System, p: TaskId, yes: bool, stamp: Time)
    requires p in s.tasks && (s.tasks[p].Suspender? ==> GoesBackTo(s.tasks[p]) && s.db.row.state == Suspending)
    ensures var t := BranchTask(s, p, s.tasks[p], yes, stamp);
      && (p in t.tasks && t.tasks[p].Suspender? ==> GoesBackTo(t.tasks[p]) && t.abandoned == s.abandoned)
      && (s.tasks[p].Suspender? && p in t.tasks ==> t.tasks[p].Suspender? && t.db.row.state == Suspending)
      && (s.tasks[p].Suspender? && p !in t.tasks ==>
           s.abandoned == {} ==> (t.db.row.state == Suspending <==> t.abandoned != {}))
      && (!s.tasks[p].Suspender? ==>
           && t.abandoned == s.abandoned
           && (s.db.row.state == Suspending ==> t.db.row.state == Suspending && (p in t.tasks ==> !t.tasks[p].Suspender?))
           && (s.db.row.state != Suspending ==>
                (t.db.row.state == Suspending <==> p in t.tasks && t.tasks[p].Suspender?)))
  {
    hide NoLeaseAfter, StillOurs;
  }

  lemma WatchmanBranch(s: System, p: TaskId, yes: bool, stamp: Time)
    requires Watchman(s) && Owned(s) && p in s.tasks
    ensures Watchman(BranchTask(s, p, s.tasks[p], yes, stamp))
  {
    OthersStayOnBranch(s, p, yes, stamp);
    StageBranches(s, p, yes, stamp);
    hide BranchTask, GoesBackTo;
    var t := BranchTask(s, p, s.tasks[p], yes, stamp);
    if q :| q in s.tasks && s.tasks[q].Suspender? && q != p { assert q in t.tasks && t.tasks[q].Suspender?; }
  }

  /** Only writes that happened were handed out or wait to be, and no timestamp lies ahead. */
  ghost predicate Grounded(s: System) {
    && (forall a :: a in s.handed ==> a < |s.book.issued|)
    && (forall p :: p in s.tasks && s.tasks[p].AcquireWritten? ==> s.tasks[p].acq < |s.book.issued|)
    && (forall p :: p in s.tasks && (s.tasks[p].SleepStamped? || s.tasks[p].StopStamped?) ==> s.tasks[p].at <= s.clock)
  }

  lemma GroundedAdvance(s: System, p: TaskId)
    requires Grounded(s) && p in s.tasks
    ensures Grounded(AdvanceTask(s, p, s.tasks[p]))
  {
    OthersStayOnAdvance(s, p);
    OwnTaskAdvances(s, p);
    hide AdvanceTask;
  }

  /** How the books and the task itself go on in one advance. */
  lemma OwnTaskAdvances(s: System, p: TaskId)
    requires p in s.tasks
    ensures var t := AdvanceTask(s, p, s.tasks[p]);
      && |s.book.issued| <= |t.book.issued| && t.clock == s.clock
      && (t.handed == s.handed || (s.tasks[p].AcquireWritten? && t.handed == s.handed + {s.tasks[p].acq}))
      && (p in t.tasks && t.tasks[p].AcquireWritten? ==> t.tasks[p].acq < |t.book.issued|)
      && (p in t.tasks && t.tasks[p] != s.tasks[p] && (t.tasks[p].SleepStamped? || t.tasks[p].StopStamped?) ==>
           t.tasks[p].at == s.clock)
  {
    hide Idle, Reclaimable, Reused;
  }

  lemma GroundedBranch(s: System, p: TaskId, yes: bool, stamp: Time)
    requires Grounded(s) && p in s.tasks
    ensures Grounded(BranchTask(s, p, s.tasks[p], yes, stamp))
  {
  }

  lemma GroundedStep(s: System, a: Action)
    requires Grounded(s)
    ensures Grounded(Step(s, a))
  {
    hide AdvanceTask, BranchTask;
    match a
    case Advance(p) => if p in s.tasks { GroundedAdvance(s, p); }
    case Branch(p, yes, stamp) => if p in s.tasks { GroundedBranch(s, p, yes, stamp); }
    case _ =>
  }

  ghost predicate HandedOut(s: System, bot: BotId) {
    bot in s.db.leases && bot in s.book.trail && s.book.trail[bot].acq in s.handed
  }

  /** The stop request has deleted its own bot's lease. */
  ghost predicate OwnLeaseGone(stage: Stage) {
    stage.Ready? || stage.Saved? || stage.Stopping? || stage.Halted?
  }

  /** What is known of a handed-out lease while a suspension lasts. */
  ghost predicate Survivor(s: System, origin: Origin, stage: Stage, claim: Claim, bot: BotId)
    requires HandedOut(s, bot)
  {
    if origin.ByStop? && origin.bot == bot then !OwnLeaseGone(stage)
    else
      && bot in claim.seen && bot in claim.trail
      && claim.seen[bot].expiresAt <= claim.at
      && claim.trail[bot].acq == s.book.trail[bot].acq
      && claim.trail[bot].renewals <= s.book.trail[bot].renewals
      && (claim.trail[bot].renewals == s.book.trail[bot].renewals ==> s.db.leases[bot] == claim.seen[bot])
      && (s.lateRenewals == 0 ==> claim.trail[bot].renewals == s.book.trail[bot].renewals)
  }

  ghost predicate Claims(s: System) {
    forall p :: p in s.tasks && s.tasks[p].Suspender? ==>
      s.tasks[p].claim.at <= s.clock && Honest(s, s.tasks[p].origin, s.tasks[p].stage, s.tasks[p].claim)
  }

  ghost predicate Honest(s: System, origin: Origin, stage: Stage, claim: Claim) {
    forall bot :: HandedOut(s, bot) ==> Survivor(s, origin, stage, claim, bot)
  }

  lemma HonestProlong(s: System, token: Token, now: Time, term: Time, origin: Origin, stage: Stage, claim: Claim)
    requires Honest(s, origin, stage, claim) && claim.at <= s.clock
    ensures Honest(Prolong(s, token, now, term), origin, stage, claim)
  {
    var t := Prolong(s, token, now, term);
    forall bot | HandedOut(t, bot) ensures Survivor(t, origin, stage, claim, bot) {
      assert HandedOut(s, bot) && Survivor(s, origin, stage, claim, bot);
    }
  }

  lemma HonestForget(s: System, gone: BotId, origin: Origin, stage: Stage, claim: Claim)
    requires Honest(s, origin, stage, claim)
    ensures Honest(Forget(s, gone), origin, stage, claim)
    ensures origin.ByStop? && origin.bot == gone ==> forall next :: Honest(Forget(s, gone), origin, next, claim)
  {
    var t := Forget(s, gone);
    forall bot, next | HandedOut(t, bot) && (next == stage || (origin.ByStop? && origin.bot == gone))
      ensures Survivor(t, origin, next, claim, bot)
    {
      assert HandedOut(s, bot) && Survivor(s, origin, stage, claim, bot);
    }
  }

  lemma HonestIssue(s: System, p: TaskId, db: Db, token: Token, life: nat, now: Time, lease: Lease,
                    origin: Origin, stage: Stage, claim: Claim)
    requires Honest(s, origin, stage, claim) && Grounded(s)
    requires db.leases == s.db.leases[token.bot := lease]
    ensures Honest(Issue(s, p, db, token, life, now), origin, stage, claim)
  {
    var t := Issue(s, p, db, token, life, now);
    forall bot | HandedOut(t, bot) ensures Survivor(t, origin, stage, claim, bot) {
      assert bot != token.bot;
      assert HandedOut(s, bot) && Survivor(s, origin, stage, claim, bot);
    }
  }

  /** What an owner's claim rests on, when neither leases nor tokens changed. */
  lemma HonestSame(s: System, t: System, origin: Origin, stage: Stage, next: Stage, claim: Claim)
    requires Honest(s, origin, stage, claim)
    requires t.db.leases == s.db.leases && t.book == s.book && t.handed == s.handed
    requires t.lateRenewals == s.lateRenewals
    requires OwnLeaseGone(next) && origin.ByStop? ==> OwnLeaseGone(stage)
    ensures Honest(t, origin, next, claim)
  {
    forall bot | HandedOut(t, bot) ensures Survivor(t, origin, next, claim, bot) {
      assert HandedOut(s, bot) && Survivor(s, origin, stage, claim, bot);
    }
  }

  /** The suspension itself: no lease the where-clause covers is live. */
  lemma HonestStart(s: System, t: System, origin: Origin, at: Time)
    requires t.db.leases == s.db.leases && t.book == s.book
    requires NoLeaseAfter(s.db, at, if origin.ByStop? then Some(origin.bot) else None)
    ensures Honest(t, origin, Claimed, Claim(at, s.db.leases, s.book.trail))
  {
  }

  lemma ClaimsStep(s: System, a: Action)
    requires Claims(s) && Owned(s) && Grounded(s)
    ensures Claims(Step(s, a))
  {
    hide AdvanceTask, BranchTask, Honest, Prolong, Forget;
    var t := Step(s, a);
    match a
    case Advance(p) => if p in s.tasks { ClaimsAdvance(s, p); }
    case Branch(p, yes, stamp) => if p in s.tasks && stamp <= s.clock { ClaimsBranch(s, p, yes, stamp); }
    case Renew(token, now) => if now <= s.clock { ClaimsProlong(s, token, now, EXECUTION_LEASE_MS); }
    case Hold(token, now) => if now <= s.clock { ClaimsProlong(s, token, now, TAKEOVER_HOLD_MS); }
    case Release(token) => if Passes(s.db, token) { ClaimsForget(s, token.bot); }
    case ForgetLease(bot) => ClaimsForget(s, bot);
    case _ =>
      forall q | q in t.tasks && t.tasks[q].Suspender?
        ensures t.tasks[q].claim.at <= t.clock && Honest(t, t.tasks[q].origin, t.tasks[q].stage, t.tasks[q].claim)
      {
        HonestSame(s, t, s.tasks[q].origin, s.tasks[q].stage, s.tasks[q].stage, s.tasks[q].claim);
      }
  }

  lemma ClaimsProlong(s: System, token: Token, now: Time, term: Time)
    requires Claims(s)
    ensures Claims(Prolong(s, token, now, term))
  {
    hide Honest;
    forall q | q in s.tasks && s.tasks[q].Suspender?
      ensures Honest(Prolong(s, token, now, term), s.tasks[q].origin, s.tasks[q].stage, s.tasks[q].claim)
    {
      HonestProlong(s, token, now, term, s.tasks[q].origin, s.tasks[q].stage, s.tasks[q].claim);
    }
  }

  lemma ClaimsForget(s: System, bot: BotId)
    requires Claims(s)
    ensures Claims(Forget(s, bot))
  {
    hide Honest;
    forall q | q in s.tasks && s.tasks[q].Suspender?
      ensures Honest(Forget(s, bot), s.tasks[q].origin, s.tasks[q].stage, s.tasks[q].claim)
    {
      HonestForget(s, bot, s.tasks[q].origin, s.tasks[q].stage, s.tasks[q].claim);
    }
  }

  lemma ClaimsAdvance(s: System, p: TaskId)
    requires Claims(s) && Owned(s) && Grounded(s) && p in s.tasks
    ensures Claims(AdvanceTask(s, p, s.tasks[p]))
  {
    hide Honest;
    var t := AdvanceTask(s, p, s.tasks[p]);
    forall q | q in t.tasks && t.tasks[q].Suspender?
      ensures t.tasks[q].claim.at <= t.clock && Honest(t, t.tasks[q].origin, t.tasks[q].stage, t.tasks[q].claim)
    {
      ClaimAfterAdvance(s, p, q);
    }
  }

  lemma ClaimAfterAdvance(s: System, p: TaskId, q: TaskId)
    requires Claims(s) && Owned(s) && Grounded(s) && p in s.tasks
    requires var t := AdvanceTask(s, p, s.tasks[p]); q in t.tasks && t.tasks[q].Suspender?
    ensures var t := AdvanceTask(s, p, s.tasks[p]);
      t.tasks[q].claim.at <= t.clock && Honest(t, t.tasks[q].origin, t.tasks[q].stage, t.tasks[q].claim)
  {
    hide Honest, NoLeaseAfter, Noted;
    var t := AdvanceTask(s, p, s.tasks[p]);
    var Suspender(origin, next, claim) := t.tasks[q];
    match s.tasks[p]
    case AcquireStamped(bot, run, resume, now) =>
      if Reclaimable(s.db, bot, run, resume, now) && bot in s.book.trail {
        var db := Reclaimed(s.db, bot, run, now);
        HonestIssue(s, p, db, Token(bot, run, s.db.leases[bot].fence + 1), s.book.trail[bot].life, now, db.leases[bot],
                    origin, next, claim);
      } else {
        HonestSame(s, t, origin, next, next, claim);
      }
    case AcquireMissed(bot, run, now) =>
      if bot in s.db.leases {
        HonestSame(s, t, origin, next, next, claim);
      } else {
        var db := Created(s.db, bot, run, now);
        HonestIssue(s, p, db, Token(bot, run, 1), |s.book.issued|, now, db.leases[bot], origin, next, claim);
      }
    case AcquireRefused(acq) =>
      if acq < |s.book.issued| && Passes(s.db, s.book.issued[acq].token) {
        var freed := Forget(s, s.book.issued[acq].token.bot);
        HonestForget(s, s.book.issued[acq].token.bot, origin, next, claim);
        HonestSame(freed, t, origin, next, next, claim);
      } else {
        HonestSame(s, t, origin, next, next, claim);
      }
    case SleepStamped(nap, at) =>
      if q == p { HonestStart(s, t, origin, at); } else { HonestSame(s, t, origin, next, next, claim); }
    case Suspender(origin0, stage, claim0) =>
      if stage.Admitted? && origin.ByStop? {
        var freed := Forget(s, origin.bot);
        HonestForget(s, origin.bot, origin, stage, claim);
        HonestSame(freed, t, origin, next, next, claim);
      } else {
        HonestSame(s, t, origin, stage, next, claim);
      }
    case AcquireWritten(acq) =>
      HonestSame(s, t, origin, next, next, claim);
    case _ =>
      HonestSame(s, t, origin, next, next, claim);
  }

  lemma ClaimsBranch(s: System, p: TaskId, yes: bool, stamp: Time)
    requires Claims(s) && Owned(s) && Grounded(s) && p in s.tasks && stamp <= s.clock
    ensures Claims(BranchTask(s, p, s.tasks[p], yes, stamp))
  {
    hide Honest, BranchTask;
    var t := BranchTask(s, p, s.tasks[p], yes, stamp);
    forall q | q in t.tasks && t.tasks[q].Suspender?
      ensures t.tasks[q].claim.at <= t.clock && Honest(t, t.tasks[q].origin, t.tasks[q].stage, t.tasks[q].claim)
    {
      ClaimAfterBranch(s, p, yes, stamp, q);
    }
  }

  lemma ClaimAfterBranch(s: System, p: TaskId, yes: bool, stamp: Time, q: TaskId)
    requires Claims(s) && p in s.tasks && stamp <= s.clock && Grounded(s)
    requires var t := BranchTask(s, p, s.tasks[p], yes, stamp); q in t.tasks && t.tasks[q].Suspender?
    ensures var t := BranchTask(s, p, s.tasks[p], yes, stamp);
      t.tasks[q].claim.at <= t.clock && Honest(t, t.tasks[q].origin, t.tasks[q].stage, t.tasks[q].claim)
  {
    hide Honest;
    var t := BranchTask(s, p, s.tasks[p], yes, stamp);
    OthersStayOnBranch(s, p, yes, stamp);
    BranchKeepsLeases(s, p, s.tasks[p], yes, stamp);
    if q != p {
      hide BranchTask;
      HonestSame(s, t, t.tasks[q].origin, t.tasks[q].stage, t.tasks[q].stage, t.tasks[q].claim);
    } else {
      ClaimOwnBranch(s, p, yes, stamp);
    }
  }

  lemma ClaimOwnBranch(s: System, p: TaskId, yes: bool, stamp: Time)
    requires Claims(s) && p in s.tasks && stamp <= s.clock && Grounded(s)
    requires var t := BranchTask(s, p, s.tasks[p], yes, stamp); p in t.tasks && t.tasks[p].Suspender?
    ensures var t := BranchTask(s, p, s.tasks[p], yes, stamp);
      t.tasks[p].claim.at <= t.clock && Honest(t, t.tasks[p].origin, t.tasks[p].stage, t.tasks[p].claim)
  {
    hide Honest, NoLeaseAfter, StillOurs;
    var t := BranchTask(s, p, s.tasks[p], yes, stamp);
    var Suspender(origin, next, claim) := t.tasks[p];
    if s.tasks[p].StopStamped? {
      HonestStart(s, t, origin, s.tasks[p].at);
    } else {
      HonestSame(s, t, origin, s.tasks[p].stage, next, claim);
    }
  }

  // ---------- the recorded revision ----------

  /** What the row records while a suspender that has checkpointed is at work. */
  ghost predicate Recorded(row: Row, touches: nat, task: Task) {
    match task
    case Suspender(BySleep(nap), _, _) => row.homeRevision == nap.revision
    case Suspender(ByStop(_, _, hasMachine), stage, _) =>
      hasMachine && (stage.Saved? || stage.Stopping? || stage.Halted?) ==> row.homeRevision == touches
    case _ => true
  }

  ghost predicate AllRecorded(s: System) {
    forall p :: p in s.tasks ==> Recorded(s.db.row, |s.touchLog|, s.tasks[p])
  }

  lemma RecordedAdvance(s: System, p: TaskId)
    requires AllRecorded(s) && Owned(s) && p in s.tasks
    ensures AllRecorded(AdvanceTask(s, p, s.tasks[p]))
  {
  }

  lemma RecordedBranch(s: System, p: TaskId, yes: bool, stamp: Time)
    requires AllRecorded(s) && Owned(s) && p in s.tasks
    ensures AllRecorded(BranchTask(s, p, s.tasks[p], yes, stamp))
  {
    hide BranchTask, Recorded, Owned;
    var t := BranchTask(s, p, s.tasks[p], yes, stamp);
    forall q | q in t.tasks ensures Recorded(t.db.row, |t.touchLog|, t.tasks[q]) {
      RecordedAfterBranch(s, p, yes, stamp, q);
    }
  }

  lemma RecordedAfterBranch(s: System, p: TaskId, yes: bool, stamp: Time, q: TaskId)
    requires AllRecorded(s) && Owned(s) && p in s.tasks
    requires q in BranchTask(s, p, s.tasks[p], yes, stamp).tasks
    ensures var t := BranchTask(s, p, s.tasks[p], yes, stamp); Recorded(t.db.row, |t.touchLog|, t.tasks[q])
  {
    hide Stoppable, StillOurs;
    var t := BranchTask(s, p, s.tasks[p], yes, stamp);
    OthersStayOnBranch(s, p, yes, stamp);
    assert q in s.tasks ==> Recorded(s.db.row, |s.touchLog|, s.tasks[q]);
  }

  lemma RecordedStep(s: System, a: Action)
    requires AllRecorded(s) && Owned(s)
    ensures AllRecorded(Step(s, a))
  {
    hide AdvanceTask, BranchTask;
    match a
    case Advance(p) => if p in s.tasks { RecordedAdvance(s, p); }
    case Branch(p, yes, stamp) => if p in s.tasks { RecordedBranch(s, p, yes, stamp); }
    case _ =>
  }

  // ---------- freshness of the recorded checkpoint ----------

  /** Touches that landed since a load are visible in the row's stamp, or share the loaded stamp. */
  ghost predicate Watched(s: System, loadedAt: Time, since: nat) {
    && since <= |s.touchLog|
    && loadedAt <= s.db.row.updatedAt
    && (s.tiedTouches == 0 ==> forall i :: since <= i < |s.touchLog| ==> s.touchLog[i] > loadedAt)
    && (s.db.row.updatedAt == loadedAt ==> forall i :: since <= i < |s.touchLog| ==> s.touchLog[i] == loadedAt)
  }

  ghost predicate Settled(s: System, nap: Nap) {
    && nap.touchesAtLoad <= nap.revision <= |s.touchLog|
    && (forall i :: nap.touchesAtLoad <= i < |s.touchLog| ==> s.touchLog[i] == nap.loadedAt)
    && (s.tiedTouches == 0 ==> |s.touchLog| == nap.touchesAtLoad)
  }

  ghost predicate Fresh(s: System, task: Task) {
    s.backdated == 0 ==>
      match task
      case SleepLoaded(_, loadedAt, since) => Watched(s, loadedAt, since)
      case SleepSaved(nap) =>
        Watched(s, nap.loadedAt, nap.touchesAtLoad) && nap.touchesAtLoad <= nap.revision <= |s.touchLog|
      case SleepStamped(nap, _) =>
        Watched(s, nap.loadedAt, nap.touchesAtLoad) && nap.touchesAtLoad <= nap.revision <= |s.touchLog|
      case Suspender(BySleep(nap), _, _) => Settled(s, nap)
      case _ => true
  }

  ghost predicate AllFresh(s: System) {
    forall p :: p in s.tasks ==> Fresh(s, s.tasks[p])
  }

  /** No touch landed, and the row's stamp did not go back unnoticed. */
  ghost predicate Later(s: System, t: System) {
    && t.touchLog == s.touchLog && t.tiedTouches == s.tiedTouches && s.backdated <= t.backdated
    && (t.backdated == 0 ==> s.db.row.updatedAt <= t.db.row.updatedAt)
  }

  lemma FreshLater(s: System, t: System, task: Task)
    requires Fresh(s, task) && Later(s, t)
    ensures Fresh(t, task)
  {
  }

  lemma FreshTouch(s: System, stamp: Time, task: Task)
    requires Fresh(s, task) && s.db.row.state == Running && stamp <= s.clock && !task.Suspender?
    ensures Fresh(Step(s, Touch(stamp)), task)
  {
  }

  lemma LaterAdvance(s: System, p: TaskId, task: Task)
    ensures Later(s, AdvanceTask(s, p, task))
  {
  }

  lemma LaterBranch(s: System, p: TaskId, task: Task, yes: bool, stamp: Time)
    ensures Later(s, BranchTask(s, p, task, yes, stamp))
  {
  }

  lemma FreshAdvance(s: System, p: TaskId)
    requires AllFresh(s) && p in s.tasks
    ensures AllFresh(AdvanceTask(s, p, s.tasks[p]))
  {
    hide Later, Watched;
    var t := AdvanceTask(s, p, s.tasks[p]);
    LaterAdvance(s, p, s.tasks[p]);
    forall q | q in t.tasks ensures Fresh(t, t.tasks[q]) {
      if q != p { assert t.tasks[q] == s.tasks[q]; FreshLater(s, t, s.tasks[q]); } else { FreshOwn(s, p); }
    }
  }

  lemma FreshOwn(s: System, p: TaskId)
    requires p in s.tasks && Fresh(s, s.tasks[p])
    ensures var t := AdvanceTask(s, p, s.tasks[p]); p in t.tasks ==> Fresh(t, t.tasks[p])
  {
    var t := AdvanceTask(s, p, s.tasks[p]);
    LaterAdvance(s, p, s.tasks[p]);
    FreshLater(s, t, s.tasks[p]);
    if s.backdated == 0 && s.tasks[p].SleepStamped? && s.db.row.updatedAt == s.tasks[p].nap.loadedAt {
      var first := s.tasks[p].nap.touchesAtLoad;
      assert first < |s.touchLog| ==> s.touchLog[first] == s.tasks[p].nap.loadedAt;
    }
  }

  lemma FreshBranch(s: System, p: TaskId, yes: bool, stamp: Time)
    requires AllFresh(s) && p in s.tasks
    ensures AllFresh(BranchTask(s, p, s.tasks[p], yes, stamp))
  {
    hide Later, Watched, Settled;
    var t := BranchTask(s, p, s.tasks[p], yes, stamp);
    LaterBranch(s, p, s.tasks[p], yes, stamp);
    forall q | q in t.tasks ensures Fresh(t, t.tasks[q]) {
      if q != p { assert t.tasks[q] == s.tasks[q]; FreshLater(s, t, s.tasks[q]); } else { FreshOwnBranch(s, p, yes, stamp); }
    }
  }

  lemma FreshOwnBranch(s: System, p: TaskId, yes: bool, stamp: Time)
    requires p in s.tasks && Fresh(s, s.tasks[p])
    ensures var t := BranchTask(s, p, s.tasks[p], yes, stamp); p in t.tasks ==> Fresh(t, t.tasks[p])
  {
    var t := BranchTask(s, p, s.tasks[p], yes, stamp);
    LaterBranch(s, p, s.tasks[p], yes, stamp);
    FreshLater(s, t, s.tasks[p]);
  }

  lemma FreshStep(s: System, a: Action)
    requires AllFresh(s) && Owned(s)
    ensures AllFresh(Step(s, a))
  {
    hide AdvanceTask, BranchTask, Fresh;
    var t := Step(s, a);
    match a
    case Advance(p) => if p in s.tasks { FreshAdvance(s, p); }
    case Branch(p, yes, stamp) => if p in s.tasks && stamp <= s.clock { FreshBranch(s, p, yes, stamp); }
    case Touch(stamp) =>
      forall p | p in t.tasks ensures Fresh(t, t.tasks[p]) {
        if s.db.row.state == Running && stamp <= s.clock { FreshTouch(s, stamp, s.tasks[p]); }
      }
    case Begin(p, task) =>
      forall q | q in t.tasks ensures Fresh(t, t.tasks[q]) {
        if q in s.tasks { FreshLater(s, t, s.tasks[q]); } else { EntryFresh(t, task); }
      }
    case _ =>
      forall p | p in t.tasks ensures Fresh(t, t.tasks[p]) { FreshLater(s, t, s.tasks[p]); }
  }

  lemma EntryFresh(s: System, task: Task)
    requires IsEntry(task)
    ensures Fresh(s, task)
  {
  }

  // ---------- runs ----------

  ghost predicate Invariant(s: System) {
    && Ledger(s.db.leases, s.book) && Latest(s.book) && Timed(s) && Watchman(s)
    && Owned(s) && Grounded(s) && Claims(s) && AllRecorded(s) && AllFresh(s)
  }

  lemma {:induction false} InvariantHolds(row: Row, clock: Time, actions: seq<Action>)
    ensures Invariant(Run(Init(row, clock), actions))
  {
    hide Ledger, Latest, Timed, Watchman, Owned, Grounded, Claims, AllRecorded, AllFresh, Step;
    if actions == [] {
      InitInvariant(row, clock);
    } else {
      var before := Run(Init(row, clock), actions[..|actions| - 1]);
      var a := actions[|actions| - 1];
      InvariantHolds(row, clock, actions[..|actions| - 1]);
      LedgerStep(before, a);
      LatestStep(before, a);
      LedgerKnows(before);
      TimedStep(before, a);
      OwnedStep(before, a);
      WatchmanStep(before, a);
      GroundedStep(before, a);
      ClaimsStep(before, a);
      RecordedStep(before, a);
      FreshStep(before, a);
    }
  }

  lemma InitInvariant(row: Row, clock: Time)
    ensures Invariant(Init(row, clock))
  {
  }

  // ---------- results ----------

  /** The handed-out tokens whose lease is live. */
  ghost function LiveHanded(s: System): set<BotId> {
    set bot | bot in s.db.leases && HandedOut(s, bot) && s.db.leases[bot].expiresAt > s.clock
  }

  /** Handed-out leases that had expired at the suspension, were renewed since, and have not run out. */
  ghost function RevivedSince(s: System, claim: Claim): set<BotId> {
    set bot | bot in s.db.leases && HandedOut(s, bot)
           && bot in claim.seen && bot in claim.trail
           && claim.trail[bot].acq == s.book.trail[bot].acq
           && claim.seen[bot].expiresAt <= claim.at
           && claim.trail[bot].renewals < s.book.trail[bot].renewals
           && s.db.leases[bot].expiresAt > s.clock
  }

  /**
   * While sandbox.stop runs, on behalf of sleep or of a stop request, the live leases that acquire
   * had handed out are exactly the expired ones that were renewed after the suspension. There are
   * none if every renew and hold of the run hit a lease that had not expired.
   */
  lemma NoLiveLeaseAtStop(row: Row, clock: Time, actions: seq<Action>, p: TaskId)
    requires var s := Run(Init(row, clock), actions);
      p in s.tasks && s.tasks[p].Suspender? && s.tasks[p].stage.Stopping?
    ensures var s := Run(Init(row, clock), actions);
      && s.db.row.state == Suspending
      && LiveHanded(s) == RevivedSince(s, s.tasks[p].claim)
      && (s.tasks[p].origin.ByStop? ==> s.tasks[p].origin.bot !in LiveHanded(s))
      && (s.lateRenewals == 0 ==> LiveHanded(s) == {})
  {
    hide Step, Ledger, AllFresh;
    InvariantHolds(row, clock, actions);
    var s := Run(Init(row, clock), actions);
    var Suspender(origin, stage, claim) := s.tasks[p];
    forall bot | bot in LiveHanded(s) ensures bot in RevivedSince(s, claim) && s.lateRenewals > 0 {
      assert HandedOut(s, bot);
      assert Survivor(s, origin, stage, claim, bot);
    }
  }

  /** The token matches a row that has not expired: its renew, hold and release would take effect. */
  predicate LiveToken(s: System, token: Token) {
    Passes(s.db, token) && s.db.leases[token.bot].expiresAt > s.clock
  }

  /**
   * The same for the tokens that acquire has handed out, which is what renew, hold and release go by:
   * while sandbox.stop runs, a handed-out token is live if and only if its own lease is among the
   * revived ones, or a later lifetime of the row has given its run the same token. There is none if no
   * renew or hold hit an expired lease and no run came back.
   */
  lemma NoLiveTokenAtStop(row: Row, clock: Time, actions: seq<Action>, p: TaskId, a: nat)
    requires var s := Run(Init(row, clock), actions);
      p in s.tasks && s.tasks[p].Suspender? && s.tasks[p].stage.Stopping? && a in s.handed
    ensures a < |Run(Init(row, clock), actions).book.issued|
    ensures var s := Run(Init(row, clock), actions);
      var token := s.book.issued[a].token;
      && (LiveToken(s, token) <==>
           || (token.bot in RevivedSince(s, s.tasks[p].claim) && s.book.trail[token.bot].acq == a)
           || (Revived(s.book, a) && token.bot in s.db.leases && s.db.leases[token.bot].expiresAt > s.clock))
      && (s.lateRenewals == 0 && s.book.reusedRuns == 0 ==> !LiveToken(s, token))
  {
    hide Step, Ledger, AllFresh, Owned, Claims, AllRecorded, Latest;
    InvariantHolds(row, clock, actions);
    LedgerKeys(row, clock, actions);
    var s := Run(Init(row, clock), actions);
    NoLiveLeaseAtStop(row, clock, actions, p);
    OnlyNewestTokenPasses(row, clock, actions, a);
    assert s.lateRenewals == 0 ==> RevivedSince(s, s.tasks[p].claim) == {};
  }

  /** From the suspension to the end of the handler nobody else can own or leave the state. */
  lemma SuspensionIsOwned(row: Row, clock: Time, actions: seq<Action>, p: TaskId, q: TaskId)
    requires var s := Run(Init(row, clock), actions);
      && p in s.tasks && s.tasks[p].Suspender?
      && q in s.tasks && q != p
    ensures var s := Run(Init(row, clock), actions);
      && s.db.row.state == Suspending
      && !s.tasks[q].Suspender?
      // an acquirer that looks again now is refused
      && (s.tasks[q].AcquireWritten? ==>
           Step(s, Advance(q)).tasks[q] == AcquireRefused(s.tasks[q].acq) && Step(s, Advance(q)).handed == s.handed)
  {
    InvariantHolds(row, clock, actions);
  }

  /**
   * A token that acquire issued passes exactly when the row's own write carries the same token: that
   * is, when it is the row's write itself, or the same run got the same fence in another lifetime.
   */
  lemma OnlyNewestTokenPasses(row: Row, clock: Time, actions: seq<Action>, a: nat)
    requires a < |Run(Init(row, clock), actions).book.issued|
    ensures var s := Run(Init(row, clock), actions);
      var bot := s.book.issued[a].token.bot;
      var passes := Passes(s.db, s.book.issued[a].token);
      && (bot in s.book.trail ==> a <= s.book.trail[bot].acq < |s.book.issued|)
      && (passes <==> bot in s.book.trail && s.book.issued[s.book.trail[bot].acq].token == s.book.issued[a].token)
      && (passes && s.book.issued[a].life == s.book.issued[s.book.trail[bot].acq].life ==> a == s.book.trail[bot].acq)
      && (passes && s.book.reusedRuns == 0 ==> a == s.book.trail[bot].acq)
  {
    hide Step;
    InvariantHolds(row, clock, actions);
    var s := Run(Init(row, clock), actions);
    var bot := s.book.issued[a].token.bot;
    if bot in s.book.trail {
      assert Newest(bot, s.db.leases[bot], s.book.trail[bot], s.book.issued);
      assert s.book.reusedRuns == 0 ==> !Reused(s.book.issued, bot, s.db.leases[bot].runId, s.book.trail[bot].life);
    }
  }

  /** What every step keeps of the history: old writes, and no old write becomes current again. */
  lemma HistoryStep(s: System, a: Action)
    requires s.book.trail.Keys == s.db.leases.Keys
    ensures var t := Step(s, a);
      && s.book.issued <= t.book.issued && s.book.reusedRuns <= t.book.reusedRuns
      && forall bot :: bot in t.book.trail && t.book.trail[bot].acq < |s.book.issued| ==>
           bot in s.book.trail && s.book.trail[bot].acq == t.book.trail[bot].acq
  {
    hide BranchTask;
    if a.Branch? && a.p in s.tasks { BranchKeepsLeases(s, a.p, s.tasks[a.p], a.yes, a.stamp); }
  }

  /** A later acquisition, in another lifetime of the row, that got the very same token. */
  ghost predicate Revived(book: Book, a: nat)
    requires a < |book.issued|
  {
    var token := book.issued[a].token;
    && token.bot in book.trail
    && var b := book.trail[token.bot].acq;
      a < b < |book.issued| && book.issued[b].token == token && book.issued[b].life != book.issued[a].life
  }

  /**
   * Once a token is superseded or its row is gone, it is never the current one again. At any later
   * time it passes if and only if a later lifetime of the row gave its run the same fence; otherwise,
   * and always while its own lifetime lasts, renewing, holding or releasing with it changes no row.
   */
  lemma {:induction false} SupersededForever(row: Row, clock: Time, actions: seq<Action>, more: seq<Action>, a: nat)
    requires var s := Run(Init(row, clock), actions);
      && a < |s.book.issued|
      && (forall bot :: bot in s.book.trail ==> s.book.trail[bot].acq != a)
    ensures var s := Run(Init(row, clock), actions);
      var t := Run(Init(row, clock), actions + more);
      var token := s.book.issued[a].token;
      && s.book.issued <= t.book.issued
      && (forall bot :: bot in t.book.trail ==> t.book.trail[bot].acq != a)
      && (Passes(t.db, token) <==> Revived(t.book, a))
      && (t.book.reusedRuns == 0 ==> !Revived(t.book, a))
      && (!Revived(t.book, a) ==> Inert(t, token))
    decreases |more|
  {
    hide Step, Ledger, Latest, Owned, Grounded, Claims, AllRecorded, AllFresh, Inert;
    var s := Run(Init(row, clock), actions);
    var t := Run(Init(row, clock), actions + more);
    if more == [] {
      assert actions + more == actions;
    } else {
      var rest, last := more[..|more| - 1], more[|more| - 1];
      assert actions + more == (actions + rest) + [last];
      RunSnoc(Init(row, clock), actions + rest, last);
      SupersededForever(row, clock, actions, rest, a);
      LedgerKeys(row, clock, actions + rest);
      HistoryStep(Run(Init(row, clock), actions + rest), last);
    }
    OnlyNewestTokenPasses(row, clock, actions + more, a);
    if !Passes(t.db, t.book.issued[a].token) { StaleTokenIsInert(t, t.book.issued[a].token); }
  }

  /** The token's renew, hold and release change no row. */
  ghost predicate Inert(s: System, token: Token) {
    && (forall now :: Step(s, Renew(token, now)).db == s.db && Step(s, Hold(token, now)).db == s.db)
    && Step(s, Release(token)).db == s.db
  }

  lemma LedgerKeys(row: Row, clock: Time, actions: seq<Action>)
    ensures var s := Run(Init(row, clock), actions); s.book.trail.Keys == s.db.leases.Keys
  {
    hide Step;
    InvariantHolds(row, clock, actions);
  }

  lemma StaleTokenIsInert(s: System, token: Token)
    requires !Passes(s.db, token)
    ensures Inert(s, token)
  {
  }

  lemma RunSnoc(s: System, actions: seq<Action>, a: Action)
    ensures Run(s, actions + [a]) == Step(Run(s, actions), a)
  {
    hide Step;
    assert (actions + [a])[..|actions|] == actions;
  }

  /**
   * When sleep stops the machine, the row records the sleeper's checkpoint, and every touch that
   * landed since the load carries the very stamp of the loaded row; with distinct stamps there is
   * none, so the recorded revision covers all touches. (Stamps of successive row writes do not go
   * back.)
   */
  lemma CheckpointCoversTouches(row: Row, clock: Time, actions: seq<Action>, p: TaskId)
    requires var s := Run(Init(row, clock), actions);
      && p in s.tasks && s.tasks[p].Suspender? && s.tasks[p].origin.BySleep? && s.tasks[p].stage.Stopping?
      && s.backdated == 0
    ensures var s := Run(Init(row, clock), actions);
      var nap := s.tasks[p].origin.nap;
      && nap.touchesAtLoad <= s.db.row.homeRevision <= |s.touchLog|
      && (forall i :: nap.touchesAtLoad <= i < |s.touchLog| ==> s.touchLog[i] == nap.loadedAt)
      && (s.tiedTouches == 0 ==> s.db.row.homeRevision == |s.touchLog|)
  {
    hide Step;
    InvariantHolds(row, clock, actions);
    var s := Run(Init(row, clock), actions);
    assert Fresh(s, s.tasks[p]) && Recorded(s.db.row, |s.touchLog|, s.tasks[p]);
  }

  /** When a stop request stops the machine, there is one, and the row's revision covers every touch, tied or not. */
  lemma StopCoversTouches(row: Row, clock: Time, actions: seq<Action>, p: TaskId)
    requires var s := Run(Init(row, clock), actions);
      && p in s.tasks && s.tasks[p].Suspender? && s.tasks[p].origin.ByStop? && s.tasks[p].stage.Stopping?
    ensures var s := Run(Init(row, clock), actions);
      s.tasks[p].origin.hasMachine && s.db.row.homeRevision == |s.touchLog|
  {
    hide Step;
    InvariantHolds(row, clock, actions);
    var s := Run(Init(row, clock), actions);
    assert Recorded(s.db.row, |s.touchLog|, s.tasks[p]) && GoesBackTo(s.tasks[p]);
  }

  // ---------- the exceptions are real ----------

  const AWAKE := Row(Running, Some(9), 0, 0, None)

  /** One more action of a run from an awake machine at time 0. */
  lemma Then(actions: seq<Action>, a: Action) returns (next: seq<Action>)
    ensures next == actions + [a]
    ensures Run(Init(AWAKE, 0), next) == Step(Run(Init(AWAKE, 0), actions), a)
  {
    next := actions + [a];
    RunSnoc(Init(AWAKE, 0), actions, a);
  }

  /** Task p begins to acquire the lease of bot 0 for run 7, up to its timestamp. */
  lemma AcquireStamps(before: seq<Action>, p: TaskId) returns (after: seq<Action>)
    requires var s := Run(Init(AWAKE, 0), before); p !in s.tasks && s.db.row.state == Running
    ensures var s := Run(Init(AWAKE, 0), before);
      Run(Init(AWAKE, 0), after) == s.(tasks := s.tasks[p := AcquireStamped(0, 7, false, s.clock)])
  {
    after := Then(before, Begin(p, AcquireBegun(0, 7, false)));
    after := Then(after, Advance(p));
    after := Then(after, Advance(p));
  }

  /** It finds no lease to take over, and creates one. */
  lemma AcquireWrites(before: seq<Action>, p: TaskId, now: Time) returns (after: seq<Action>)
    requires var s := Run(Init(AWAKE, 0), before);
      p in s.tasks && s.tasks[p] == AcquireStamped(0, 7, false, now) && s.db.leases == map[] && s.book.trail == map[]
    ensures var s := Run(Init(AWAKE, 0), before);
      var acq := |s.book.issued|;
      var t := Run(Init(AWAKE, 0), after);
      t == s.(
        db := Db(s.db.row, map[0 := Lease(7, 1, now + EXECUTION_LEASE_MS)]),
        book := Book(s.book.issued + [Grant(Token(0, 7, 1), acq)], map[0 := Trail(acq, acq, 0, now, EXECUTION_LEASE_MS)], t.book.reusedRuns),
        tasks := s.tasks[p := AcquireWritten(acq)])
  {
    after := Then(before, Advance(p));
    after := Then(after, Advance(p));
  }

  /** Task p acquires the free lease of bot 0 for run 7 and hands its token out. */
  lemma AcquireRuns(before: seq<Action>, p: TaskId) returns (after: seq<Action>)
    requires var s := Run(Init(AWAKE, 0), before);
      p !in s.tasks && s.db.row.state == Running && s.db.leases == map[] && s.book.trail == map[]
    ensures var s := Run(Init(AWAKE, 0), before);
      var acq := |s.book.issued|;
      var t := Run(Init(AWAKE, 0), after);
      t == s.(
        db := Db(s.db.row, map[0 := Lease(7, 1, s.clock + EXECUTION_LEASE_MS)]),
        book := Book(s.book.issued + [Grant(Token(0, 7, 1), acq)], map[0 := Trail(acq, acq, 0, s.clock, EXECUTION_LEASE_MS)], t.book.reusedRuns),
        handed := s.handed + {acq})
  {
    hide Run, Reclaimed, Created, Noted;
    after := AcquireStamps(before, p);
    after := AcquireWrites(after, p, Run(Init(AWAKE, 0), before).clock);
    after := Then(after, Advance(p));
    assert Run(Init(AWAKE, 0), after).tasks == Run(Init(AWAKE, 0), before).tasks;
  }

  /** Task 1 loads the awake machine's row and checkpoints. */
  lemma SleepSaves(before: seq<Action>) returns (after: seq<Action>)
    requires var s := Run(Init(AWAKE, 0), before); 1 !in s.tasks && s.db.row == AWAKE
    ensures var s := Run(Init(AWAKE, 0), before);
      Run(Init(AWAKE, 0), after) == s.(tasks := s.tasks[1 := SleepSaved(Nap(9, 0, |s.touchLog|, |s.touchLog|))])
  {
    hide Run, Idle, Reclaimable, Stoppable, Reused;
    after := Then(before, Begin(1, SleepBegun));
    after := Then(after, Advance(1));
    after := Then(after, Branch(1, true, 0));
  }

  lemma SleepSuspends(before: seq<Action>, nap: Nap) returns (after: seq<Action>)
    requires var s := Run(Init(AWAKE, 0), before);
      && 1 in s.tasks && s.tasks[1] == SleepSaved(nap) && nap.ref == 9 && nap.loadedAt == 0
      && s.db.row == AWAKE && NoLeaseAfter(s.db, s.clock, None)
    ensures var s := Run(Init(AWAKE, 0), before);
      Run(Init(AWAKE, 0), after) == s.(
        tasks := s.tasks[1 := Suspender(BySleep(nap), Claimed, Claim(s.clock, s.db.leases, s.book.trail))],
        db := PutToSleep(s.db, nap.revision, s.clock))
  {
    after := Then(before, Advance(1));
    after := Then(after, Advance(1));
  }

  lemma SleepStops(before: seq<Action>) returns (after: seq<Action>)
    requires var s := Run(Init(AWAKE, 0), before);
      && 1 in s.tasks && s.tasks[1].Suspender? && s.tasks[1].origin.BySleep? && s.tasks[1].stage.Claimed?
      && StillOurs(s.db.row, s.tasks[1].origin.nap, s.tasks[1].claim.at)
    ensures var s := Run(Init(AWAKE, 0), before);
      Run(Init(AWAKE, 0), after) == s.(tasks := s.tasks[1 := s.tasks[1].(stage := Stopping)])
  {
    after := Then(before, Branch(1, true, 0));
    after := Then(after, Advance(1));
    var s, t := Run(Init(AWAKE, 0), before), Run(Init(AWAKE, 0), after);
    assert t.tasks == s.tasks[1 := s.tasks[1].(stage := Stopping)];
  }

  /** A lease that expired before the suspension, renewed after it, is live while sandbox.stop runs. */
  lemma LateRenewalIsLiveAtStop() returns (actions: seq<Action>)
    ensures var s := Run(Init(AWAKE, 0), actions);
      && 1 in s.tasks && s.tasks[1].Suspender? && s.tasks[1].stage.Stopping?
      && 0 in LiveHanded(s) && s.lateRenewals == 1
  {
    actions := AcquireRuns([], 0);
    actions := Then(actions, Tick(EXECUTION_LEASE_MS));
    actions := SleepSaves(actions);
    actions := SleepSuspends(actions, Nap(9, 0, 0, 0));
    actions := Then(actions, Renew(Token(0, 7, 1), EXECUTION_LEASE_MS));
    actions := SleepStops(actions);
  }

  /** A run that acquires again after its row was deleted gets its old token's fence back. */
  lemma ReusedRunRevivesOldToken() returns (actions: seq<Action>)
    ensures var s := Run(Init(AWAKE, 0), actions);
      && |s.book.issued| == 2 && s.book.issued[0].token == s.book.issued[1].token
      && Passes(s.db, s.book.issued[0].token) && s.book.trail.Keys == {0} && s.book.trail[0].acq == 1 && s.book.trail[0].life == 1
  {
    actions := AcquireRuns([], 0);
    actions := Then(actions, Release(Token(0, 7, 1)));
    actions := AcquireRuns(actions, 0);
  }

  /**
   * With no late renewal: a run that has released its lease begins to acquire again before the
   * suspension and writes its row after it. Until it looks again and is refused, the token that was
   * handed out first passes and is live while sandbox.stop runs.
   */
  lemma RevivedTokenIsLiveAtStop() returns (actions: seq<Action>)
    ensures var s := Run(Init(AWAKE, 0), actions);
      && 1 in s.tasks && s.tasks[1].Suspender? && s.tasks[1].stage.Stopping?
      && s.lateRenewals == 0 && s.handed == {0} && |s.book.issued| == 2
      && LiveToken(s, s.book.issued[0].token) && Revived(s.book, 0)
  {
    hide Run, Step;
    NothingYet();
    actions := AcquireRuns([], 0);
    actions := ReleaseFirst(actions);
    actions := AcquireStamps(actions, 0);
    actions := SleepSaves(actions);
    actions := SleepSuspends(actions, Nap(9, 0, 0, 0));
    actions := AcquireWrites(actions, 0, 0);
    actions := SleepStops(actions);
  }

  lemma NothingYet()
    ensures Run(Init(AWAKE, 0), []) == Init(AWAKE, 0)
  {
  }

  lemma ReleaseFirst(before: seq<Action>) returns (after: seq<Action>)
    requires var s := Run(Init(AWAKE, 0), before);
      s.db.leases.Keys == {0} && s.book.trail.Keys == {0} && s.db.leases[0].runId == 7 && s.db.leases[0].fence == 1
    ensures var s := Run(Init(AWAKE, 0), before);
      Run(Init(AWAKE, 0), after) == s.(db := Db(s.db.row, map[]), book := s.book.(trail := map[]))
  {
    hide Run;
    after := Then(before, Release(Token(0, 7, 1)));
    var s := Run(Init(AWAKE, 0), before);
    assert s.db.leases - {0} == map[] && s.book.trail - {0} == map[];
  }

  /** A touch in the millisecond of the row's own stamp goes unnoticed by the sleeper. */
  lemma TiedTouchGoesUnnoticed() returns (actions: seq<Action>)
    ensures var s := Run(Init(AWAKE, 0), actions);
      && 1 in s.tasks && s.tasks[1].Suspender? && s.tasks[1].origin.BySleep? && s.tasks[1].stage.Stopping?
      && s.backdated == 0 && s.db.row.homeRevision < |s.touchLog|
  {
    actions := SleepSaves([]);
    actions := Then(actions, Touch(0));
    actions := SleepSuspends(actions, Nap(9, 0, 0, 0));
    actions := SleepStops(actions);
  }
}
