/**
 * User control of a computer's screen: takeover, release and expiry, interleaved step by step.
 *
 * Revoking is in two phases: the row keeps the lease id while the provider is told to drop the
 * user's control, and only then is the id cleared; every write is conditional on the lease id.
 */
module ComputerControl {
  import opened Basics

  type BotId = nat
  type RunId = nat
  type TaskId = nat
  type Time = nat
  type LeaseId = nat

  const TAKEOVER_LEASE_MS: Time := 15 * 60 * 1000

  datatype Holder = NoOne | User | Bot

  datatype Row = Row(
    holder: Holder,
    leaseId: Option<LeaseId>,
    expiresAt: Option<Time>,
    botId: Option<BotId>,
    runId: Option<RunId>)

  predicate Active(row: Row, now: Time) {
    row.holder == User && row.leaseId.Some? && row.expiresAt.Some? && row.expiresAt.value > now
  }

  // ---------- database calls ----------

  function Empty(holder: Holder): Row {
    Row(holder, None, None, None, None)
  }

  function Denied(row: Row, lease: LeaseId): Row {
    if row.leaseId == Some(lease) then row.(holder := NoOne) else row
  }

  function Cleared(row: Row, lease: LeaseId): Row {
    if row.leaseId == Some(lease) then Empty(NoOne) else row
  }

  predicate Finalizable(row: Row, lease: LeaseId, bot: BotId, run: Option<RunId>) {
    row.leaseId == Some(lease) && row.botId == Some(bot) && row.runId == run
  }

  function Finalized(row: Row, lease: LeaseId, bot: BotId, run: Option<RunId>, holder: Holder): Row {
    if Finalizable(row, lease, bot, run) then Empty(holder) else row
  }

  predicate Grantable(row: Row) {
    row.holder != User && row.leaseId.None?
  }

  function Granted(lease: LeaseId, expiresAt: Time, bot: BotId, run: Option<RunId>): Row {
    Row(User, Some(lease), Some(expiresAt), Some(bot), run)
  }

  /** The control columns of one computer row, changed in place; each method is one call. */
  class ControlStore {
    var row: Row

    constructor ()
      ensures row == Empty(NoOne)
    {
      row := Empty(NoOne);
    }

    method Deny(lease: LeaseId) returns (count: nat)
      modifies this
      ensures row == Denied(old(row), lease)
      ensures count == if old(row).leaseId == Some(lease) then 1 else 0
      ensures row == if count == 1 then old(row).(holder := NoOne) else old(row)
    {
      count := 0;
      if row.leaseId == Some(lease) {
        row := row.(holder := NoOne);
        count := 1;
      }
    }

    method Clear(lease: LeaseId)
      modifies this
      ensures row == Cleared(old(row), lease)
      ensures row == if old(row).leaseId == Some(lease) then Row(NoOne, None, None, None, None) else old(row)
    {
      if row.leaseId == Some(lease) {
        row := row.(holder := NoOne, leaseId := None, expiresAt := None, botId := None, runId := None);
      }
    }

    method Finalize(lease: LeaseId, bot: BotId, run: Option<RunId>, holder: Holder) returns (released: bool)
      modifies this
      ensures row == Finalized(old(row), lease, bot, run, holder)
      ensures released <==> Finalizable(old(row), lease, bot, run)
      ensures released <==> old(row).leaseId == Some(lease) && old(row).botId == Some(bot) && old(row).runId == run
      ensures row == if released then Row(holder, None, None, None, None) else old(row)
    {
      released := row.leaseId == Some(lease) && row.botId == Some(bot) && row.runId == run;
      if released {
        row := row.(holder := holder, leaseId := None, expiresAt := None, botId := None, runId := None);
      }
    }

    method Grant(lease: LeaseId, expiresAt: Time, bot: BotId, run: Option<RunId>) returns (count: nat)
      modifies this
      ensures row == if Grantable(old(row)) then Granted(lease, expiresAt, bot, run) else old(row)
      ensures count == if Grantable(old(row)) then 1 else 0
      ensures count == if old(row).holder != User && old(row).leaseId.None? then 1 else 0
      ensures row == if count == 1 then Row(User, Some(lease), Some(expiresAt), Some(bot), run) else old(row)
    {
      count := 0;
      if row.holder != User && row.leaseId.None? {
        row := Row(User, Some(lease), Some(expiresAt), Some(bot), run);
        count := 1;
      }
    }
  }

  // ---------- the handlers ----------

  datatype Task =
    | TakeoverBegun(bot: BotId)
    | Preempting(bot: BotId, lease: LeaseId)                       // the provider is being told
    | Preempted(bot: BotId, lease: LeaseId)                        // about to clear the other bot's lease
    | TakeoverLook(bot: BotId)
    | TakeoverChecked(bot: BotId)                                  // about to grant
    | TakeoverGranted(lease: LeaseId)                              // about to schedule the expiry
    | TakeoverUnscheduled(lease: LeaseId)                          // scheduling failed; about to clear
    | ReleaseBegun(bot: BotId)
    | Releasing(lease: LeaseId, bot: BotId, run: Option<RunId>)    // the provider is being told
    | ReleaseRevoked(lease: LeaseId, bot: BotId, run: Option<RunId>)
    | ExpireBegun(lease: LeaseId, next: Option<BotId>)             // on its own, or on behalf of a takeover
    | ExpireStamped(lease: LeaseId, now: Time, next: Option<BotId>)
    | ExpireDenying(lease: LeaseId, bot: BotId, run: Option<RunId>, next: Option<BotId>)
    | Expiring(lease: LeaseId, bot: BotId, run: Option<RunId>, next: Option<BotId>)
    | ExpireRevoked(lease: LeaseId, bot: BotId, run: Option<RunId>, next: Option<BotId>)

  datatype System = System(
    row: Row,
    hasMachine: bool,             // the computer has a provider reference; constant here
    clock: Time,
    tasks: map<TaskId, Task>,
    granted: nat,                 // history: leases 0, 1, ... were granted in this order
    revoked: set<LeaseId>,        // history: the provider's revocation call for the lease has returned
    unscheduled: set<LeaseId>,    // history: cleared because their expiry could not be scheduled
    wiped: set<LeaseId>)          // history: cleared outright by stop, sleep, provision or a run's own takeover

  function Init(hasMachine: bool, clock: Time): System {
    System(Empty(NoOne), hasMachine, clock, map[], 0, {}, {}, {})
  }

  datatype Action =
    | Tick(to: Time)
    | Begin(p: TaskId, task: Task)
    | Crash(p: TaskId)
    | Advance(p: TaskId)
    | Branch(p: TaskId, ok: bool, run: Option<RunId>)
    | Wipe(holder: Holder)        // the control columns are reset whatever they hold

  function Step(s: System, a: Action): System {
    match a
    case Tick(to) => if s.clock <= to then s.(clock := to) else s
    case Begin(p, task) => if p !in s.tasks && IsEntry(task) then At(s, p, task) else s
    case Crash(p) => End(s, p)
    case Advance(p) => if p in s.tasks then AdvanceTask(s, p, s.tasks[p]) else s
    case Branch(p, ok, run) => if p in s.tasks then BranchTask(s, p, s.tasks[p], ok, run) else s
    case Wipe(holder) =>
      s.(row := Empty(holder), wiped := s.wiped + if s.row.leaseId.Some? then {s.row.leaseId.value} else {})
  }

  function Run(s: System, actions: seq<Action>): System {
    if actions == [] then s else Step(Run(s, actions[..|actions| - 1]), actions[|actions| - 1])
  }

  predicate IsEntry(task: Task) {
    task.TakeoverBegun? || task.ReleaseBegun? || (task.ExpireBegun? && task.next.None?)
  }

  function At(s: System, p: TaskId, task: Task): System {
    s.(tasks := s.tasks[p := task])
  }

  function End(s: System, p: TaskId): System {
    s.(tasks := s.tasks - {p})
  }

  /** Where expireComputerControl returns to. */
  function Resume(s: System, p: TaskId, next: Option<BotId>): System {
    if next.Some? then At(s, p, TakeoverChecked(next.value)) else End(s, p)
  }

  /** Steps whose outcome the row alone decides. */
  function AdvanceTask(s: System, p: TaskId, task: Task): System {
    match task
    case TakeoverBegun(bot) =>
      if !s.hasMachine then End(s, p)
      else if Active(s.row, s.clock) && s.row.botId == Some(bot) then End(s, p)
      else if Active(s.row, s.clock) then At(s, p, Preempting(bot, s.row.leaseId.value))
      else Look(s, p, bot)
    case Preempted(bot, lease) => At(s.(row := Cleared(s.row, lease)), p, TakeoverLook(bot))
    case TakeoverLook(bot) => Look(s, p, bot)
    case TakeoverUnscheduled(lease) =>
      End(s.(row := Cleared(s.row, lease), unscheduled := s.unscheduled + {lease}), p)
    case ReleaseBegun(bot) =>
      if Active(s.row, s.clock) && s.row.botId == Some(bot)
      then At(s, p, if s.hasMachine then Releasing(s.row.leaseId.value, bot, s.row.runId)
                    else ReleaseRevoked(s.row.leaseId.value, bot, s.row.runId))
      else End(s, p)
    case ReleaseRevoked(lease, bot, run) => End(s.(row := Finalized(s.row, lease, bot, run, Bot)), p)
    case ExpireBegun(lease, next) => At(s, p, ExpireStamped(lease, s.clock, next))
    case ExpireStamped(lease, now, next) =>
      if s.row.leaseId != Some(lease) || s.row.botId.None? then Resume(s, p, next)
      else if s.row.expiresAt.Some? && s.row.expiresAt.value > now then Resume(s, p, next)
      else At(s, p, ExpireDenying(lease, s.row.botId.value, s.row.runId, next))
    case ExpireDenying(lease, bot, run, next) =>
      if s.row.leaseId != Some(lease) then Resume(s, p, next)
      else At(s.(row := Denied(s.row, lease)), p,
              if s.hasMachine then Expiring(lease, bot, run, next) else ExpireRevoked(lease, bot, run, next))
    case ExpireRevoked(lease, bot, run, next) =>
      Resume(s.(row := Finalized(s.row, lease, bot, run, NoOne)), p, next)
    case _ => s
  }

  function Look(s: System, p: TaskId, bot: BotId): System {
    if s.row.leaseId.Some? then At(s, p, ExpireBegun(s.row.leaseId.value, Some(bot)))
    else At(s, p, TakeoverChecked(bot))
  }

  /** Steps that an external call or the bot's execution decides. */
  function BranchTask(s: System, p: TaskId, task: Task, ok: bool, run: Option<RunId>): System {
    match task
    case Preempting(bot, lease) => Told(s, p, lease, ok, Preempted(bot, lease))
    case Releasing(lease, bot, held) => Told(s, p, lease, ok, ReleaseRevoked(lease, bot, held))
    case Expiring(lease, bot, held, next) => Told(s, p, lease, ok, ExpireRevoked(lease, bot, held, next))
    case TakeoverChecked(bot) =>
      // a running bot refuses the takeover; run is the run that waits for it, if any
      if ok && Grantable(s.row)
      then At(s.(row := Granted(s.granted, s.clock + TAKEOVER_LEASE_MS, bot, run), granted := s.granted + 1),
              p, TakeoverGranted(s.granted))
      else End(s, p)
    case TakeoverGranted(lease) => if ok then End(s, p) else At(s, p, TakeoverUnscheduled(lease))
    case _ => s
  }

  /** The provider's revocation call returns, or throws and ends the handler. */
  function Told(s: System, p: TaskId, lease: LeaseId, ok: bool, next: Task): System {
    if ok then At(s.(revoked := s.revoked + {lease}), p, next) else End(s, p)
  }

  // ---------- invariant ----------

  /** The lease a task works for. */
  function LeaseOf(task: Task): Option<LeaseId> {
    match task
    case Preempting(_, lease) => Some(lease)
    case Preempted(_, lease) => Some(lease)
    case TakeoverGranted(lease) => Some(lease)
    case TakeoverUnscheduled(lease) => Some(lease)
    case Releasing(lease, _, _) => Some(lease)
    case ReleaseRevoked(lease, _, _) => Some(lease)
    case ExpireBegun(lease, _) => Some(lease)
    case ExpireStamped(lease, _, _) => Some(lease)
    case ExpireDenying(lease, _, _, _) => Some(lease)
    case Expiring(lease, _, _, _) => Some(lease)
    case ExpireRevoked(lease, _, _, _) => Some(lease)
    case _ => None
  }

  /** The task belongs to a takeover, which starts only on a computer with a machine. */
  predicate ForTakeover(task: Task) {
    match task
    case TakeoverChecked(_) => true
    case TakeoverLook(_) => true
    case Preempting(_, _) => true
    case Preempted(_, _) => true
    case TakeoverGranted(_) => true
    case TakeoverUnscheduled(_) => true
    case ExpireBegun(_, next) => next.Some?
    case ExpireStamped(_, _, next) => next.Some?
    case ExpireDenying(_, _, _, next) => next.Some?
    case Expiring(_, _, _, next) => next.Some?
    case ExpireRevoked(_, _, _, next) => next.Some?
    case _ => false
  }

  /** The task clears its lease next, having told the provider. */
  predicate AboutToClear(task: Task) {
    task.Preempted? || task.ReleaseRevoked? || task.ExpireRevoked?
  }

  ghost predicate TaskOk(s: System, task: Task) {
    && (ForTakeover(task) ==> s.hasMachine)
    && (AboutToClear(task) ==> task.lease in s.revoked || !s.hasMachine)
    && (task.ExpireStamped? ==> task.now <= s.clock)
    && (task.TakeoverGranted? || task.TakeoverUnscheduled? || task.Preempting? || task.Preempted? ==>
         task.lease < s.granted)
    && (KnowsHolder(task) ==>
         && task.lease < s.granted
         && (s.row.leaseId == Some(task.lease) ==> Finalizable(s.row, task.lease, task.bot, task.run)))
    && (task.ExpireDenying? || TellingExpiry(task) ==>
         task.lease < s.granted && (s.row.leaseId == Some(task.lease) ==> RunOut(s)))
    && (TellingExpiry(task) && s.row.leaseId == Some(task.lease) ==> s.row.holder != User)
  }

  /** The task remembers the bot and the run that the lease was granted for. */
  predicate KnowsHolder(task: Task) {
    task.Releasing? || task.ReleaseRevoked? || task.ExpireDenying? || TellingExpiry(task)
  }

  /** An expiry past its first phase: the provider is being told, or has been. */
  predicate TellingExpiry(task: Task) {
    task.Expiring? || task.ExpireRevoked?
  }

  /** The lease in the row has no time left. */
  ghost predicate RunOut(s: System) {
    s.row.expiresAt.Some? ==> s.row.expiresAt.value <= s.clock
  }

  /** A lease that is no longer in the row was revoked, never got an expiry job, or was wiped. */
  ghost predicate Accounted(s: System) {
    && (!s.hasMachine ==> s.granted == 0)
    && (s.row.leaseId.Some? ==> s.row.leaseId.value < s.granted)
    && (forall lease :: 0 <= lease < s.granted ==>
         s.row.leaseId == Some(lease) || lease in s.revoked || lease in s.unscheduled || lease in s.wiped)
    && (forall lease :: lease in s.unscheduled || lease in s.wiped ==> lease < s.granted)
  }

  ghost predicate Invariant(s: System) {
    Accounted(s) && forall p :: p in s.tasks ==> TaskOk(s, s.tasks[p])
  }

  /** How one step can change what the tasks rely on. */
  ghost predicate Onward(s: System, t: System) {
    && t.hasMachine == s.hasMachine && s.clock <= t.clock && s.granted <= t.granted && s.revoked <= t.revoked
    && (t.row.leaseId.Some? ==>
         || (&& t.row.leaseId == s.row.leaseId && t.row.expiresAt == s.row.expiresAt
             && t.row.botId == s.row.botId && t.row.runId == s.row.runId
             && (t.row.holder == s.row.holder || t.row.holder != User))
         || t.row.leaseId.value >= s.granted)
  }

  lemma TaskOnward(s: System, t: System, task: Task)
    requires TaskOk(s, task) && Onward(s, t)
    ensures TaskOk(t, task)
  {
  }

  lemma AccountedAdvance(s: System, p: TaskId)
    requires Accounted(s) && p in s.tasks && TaskOk(s, s.tasks[p])
    ensures var t := AdvanceTask(s, p, s.tasks[p]); Onward(s, t) && Accounted(t)
  {
    hide Active, RunOut;
  }

  lemma NextTaskOk(s: System, p: TaskId)
    requires Accounted(s) && p in s.tasks && TaskOk(s, s.tasks[p])
    ensures var t := AdvanceTask(s, p, s.tasks[p]); p in t.tasks ==> TaskOk(t, t.tasks[p])
  {
  }

  lemma OwnTaskAdvance(s: System, p: TaskId)
    requires Accounted(s) && p in s.tasks && TaskOk(s, s.tasks[p])
    ensures var t := AdvanceTask(s, p, s.tasks[p]);
      && Onward(s, t) && Accounted(t)
      && (p in t.tasks ==> TaskOk(t, t.tasks[p]))
  {
    AccountedAdvance(s, p);
    NextTaskOk(s, p);
    hide *;
  }

  lemma OwnTaskBranch(s: System, p: TaskId, ok: bool, run: Option<RunId>)
    requires Accounted(s) && p in s.tasks && TaskOk(s, s.tasks[p])
    ensures var t := BranchTask(s, p, s.tasks[p], ok, run);
      && Onward(s, t) && Accounted(t)
      && (p in t.tasks ==> TaskOk(t, t.tasks[p]))
  {
  }

  lemma OtherTasksStay(s: System, p: TaskId, ok: bool, run: Option<RunId>)
    requires p in s.tasks
    ensures forall t :: t in [AdvanceTask(s, p, s.tasks[p]), BranchTask(s, p, s.tasks[p], ok, run)] ==>
      forall q :: q in t.tasks && q != p ==> q in s.tasks && t.tasks[q] == s.tasks[q]
  {
    hide Active, Cleared, Finalized, Denied, Grantable;
  }

  lemma InvariantStep(s: System, a: Action)
    requires Invariant(s)
    ensures Invariant(Step(s, a))
  {
    hide AdvanceTask, BranchTask, TaskOk, Accounted, Onward;
    var t := Step(s, a);
    match a
    case Advance(p) =>
      if p in s.tasks {
        OwnTaskAdvance(s, p);
        OtherTasksStay(s, p, true, None);
        forall q | q in t.tasks && q != p ensures TaskOk(t, t.tasks[q]) { TaskOnward(s, t, s.tasks[q]); }
      }
    case Branch(p, ok, run) =>
      if p in s.tasks {
        OwnTaskBranch(s, p, ok, run);
        OtherTasksStay(s, p, ok, run);
        forall q | q in t.tasks && q != p ensures TaskOk(t, t.tasks[q]) { TaskOnward(s, t, s.tasks[q]); }
      }
    case _ => QuietStep(s, a);
  }

  lemma QuietStep(s: System, a: Action)
    requires Invariant(s) && !a.Advance? && !a.Branch?
    ensures Invariant(Step(s, a))
  {
  }

  lemma OnwardStep(s: System, a: Action)
    requires Invariant(s)
    ensures Onward(s, Step(s, a))
  {
    hide AdvanceTask, BranchTask, TaskOk;
    match a
    case Advance(p) => if p in s.tasks { AccountedAdvance(s, p); }
    case Branch(p, ok, run) => if p in s.tasks { OwnTaskBranch(s, p, ok, run); }
    case _ =>
  }

  lemma {:induction false} InvariantHolds(hasMachine: bool, clock: Time, actions: seq<Action>)
    ensures Invariant(Run(Init(hasMachine, clock), actions))
  {
    if actions != [] {
      hide Step, Invariant;
      var rest := actions[..|actions| - 1];
      InvariantHolds(hasMachine, clock, rest);
      InvariantStep(Run(Init(hasMachine, clock), rest), actions[|actions| - 1]);
    }
  }

  // ---------- results ----------

  /**
   * When a lease is granted, the provider's revocation call has returned for every earlier lease
   * exactly when it has for those whose expiry could not be scheduled, which no user was given, and
   * for those that were wiped from the row; it has for all others in any case.
   */
  lemma GrantFollowsRevocation(hasMachine: bool, clock: Time, actions: seq<Action>, a: Action)
    requires var s := Run(Init(hasMachine, clock), actions); Step(s, a).granted != s.granted
    ensures var s := Run(Init(hasMachine, clock), actions);
      && Step(s, a).granted == s.granted + 1
      && Step(s, a).row.leaseId == Some(s.granted)
      && (forall earlier :: 0 <= earlier < s.granted ==> earlier in s.revoked || earlier in s.unscheduled || earlier in s.wiped)
      && ((forall earlier :: 0 <= earlier < s.granted ==> earlier in s.revoked) <==> s.unscheduled + s.wiped <= s.revoked)
  {
    InvariantHolds(hasMachine, clock, actions);
    var s := Run(Init(hasMachine, clock), actions);
    GrantsAreChecked(s, a);
    assert Accounted(s);
  }

  lemma GrantsAreChecked(s: System, a: Action)
    requires Step(s, a).granted != s.granted
    ensures s.row.leaseId.None? && Step(s, a).granted == s.granted + 1 && Step(s, a).row.leaseId == Some(s.granted)
  {
  }

  /** A step that works for one lease never changes a row that holds another, or none, however many are at it. */
  lemma StepsAreFenced(s: System, a: Action)
    requires a.Advance? || a.Branch?
    requires a.p in s.tasks && LeaseOf(s.tasks[a.p]) != s.row.leaseId
    ensures Step(s, a).row == s.row
  {
  }

  /**
   * The first phase of an expiry: if the row still holds the lease, the lease has run out, and the
   * user's input is denied with the lease id kept, before anything else is done; otherwise nothing is.
   */
  lemma DenyOnlyAfterExpiry(hasMachine: bool, clock: Time, actions: seq<Action>, p: TaskId)
    requires var s := Run(Init(hasMachine, clock), actions); p in s.tasks && s.tasks[p].ExpireDenying?
    ensures var s := Run(Init(hasMachine, clock), actions);
      var t := Step(s, Advance(p));
      if s.row.leaseId == Some(s.tasks[p].lease) then
        && !Active(s.row, s.clock)
        && t.row == s.row.(holder := NoOne)
        && p in t.tasks && TellingExpiry(t.tasks[p]) && t.tasks[p].lease == s.tasks[p].lease
      else t.row == s.row && (p in t.tasks ==> t.tasks[p].TakeoverChecked?)
  {
    InvariantHolds(hasMachine, clock, actions);
    var s := Run(Init(hasMachine, clock), actions);
    assert TaskOk(s, s.tasks[p]);
  }

  /** While the provider is being told of an expiry, and until the lease is cleared, input is denied. */
  lemma DeniedWhileTold(hasMachine: bool, clock: Time, actions: seq<Action>, p: TaskId)
    requires var s := Run(Init(hasMachine, clock), actions);
      p in s.tasks && TellingExpiry(s.tasks[p]) && s.row.leaseId == Some(s.tasks[p].lease)
    ensures var s := Run(Init(hasMachine, clock), actions); s.row.holder != User && !Active(s.row, s.clock)
  {
    InvariantHolds(hasMachine, clock, actions);
    var s := Run(Init(hasMachine, clock), actions);
    assert TaskOk(s, s.tasks[p]);
  }

  // ---------- the exception is real ----------

  lemma Then(actions: seq<Action>, a: Action) returns (next: seq<Action>)
    ensures next == actions + [a]
    ensures Run(Init(true, 0), next) == Step(Run(Init(true, 0), actions), a)
  {
    next := actions + [a];
    assert next[..|actions|] == actions;
  }

  lemma NothingYet()
    ensures Run(Init(true, 0), []) == Init(true, 0)
  {
  }

  /** Takeover of an idle row, up to its grant. */
  lemma TakeoverGrants(before: seq<Action>, bot: BotId) returns (after: seq<Action>)
    requires var s := Run(Init(true, 0), before); s.tasks == map[] && s.hasMachine && s.row == Empty(NoOne)
    ensures var s := Run(Init(true, 0), before);
      Run(Init(true, 0), after) == s.(
        row := Granted(s.granted, s.clock + TAKEOVER_LEASE_MS, bot, None),
        granted := s.granted + 1,
        tasks := map[0 := TakeoverGranted(s.granted)])
  {
    after := Then(before, Begin(0, TakeoverBegun(bot)));
    after := Then(after, Advance(0));
    after := Then(after, Branch(0, true, None));
  }

  /** After a failed scheduling the next lease is granted although the first was never revoked. */
  lemma UnscheduledLeaseIsNotRevoked() returns (actions: seq<Action>)
    ensures var s := Run(Init(true, 0), actions);
      s.granted == 2 && s.row.leaseId == Some(1) && 0 !in s.revoked
  {
    hide Run;
    NothingYet();
    actions := TakeoverGrants([], 5);
    actions := Then(actions, Branch(0, false, None));
    actions := Then(actions, Advance(0));
    actions := TakeoverGrants(actions, 6);
  }
}
