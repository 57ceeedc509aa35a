/**
 * What the handlers of the shared computer achieve: a bot that works under its lease keeps the
 * machine, every suspension comes to an end or is left to itself for good, and what each handler
 * does from its first step to its last when nobody disturbs it.
 */
module ComputerHandlers {
  import opened Basics
  import opened ComputerLease
  import opened SuspensionProtocol

  // ---------- a lease keeps the machine ----------

  /** The action is the claim of a stop request by the bot itself. */
  predicate OwnStop(s: System, a: Action, bot: BotId) {
    a.Branch? && a.p in s.tasks && s.tasks[a.p].StopStamped? && s.tasks[a.p].bot == bot
  }

  /** The lease has time left since it was last written or prolonged. */
  ghost predicate HasTime(s: System, bot: BotId) {
    && bot in s.db.leases && bot in s.book.trail
    && s.clock < s.book.trail[bot].since + s.book.trail[bot].term
  }

  /**
   * While a lease has time left, the where-clauses of sleep and of the other bots' stop requests are
   * false for any timestamp taken so far, and no step of anyone moves the row to suspending, except
   * the bot's own stop request.
   */
  lemma NobodySuspends(row: Row, clock: Time, actions: seq<Action>, bot: BotId, a: Action)
    requires HasTime(Run(Init(row, clock), actions), bot)
    ensures var s := Run(Init(row, clock), actions);
      && s.db.leases[bot].expiresAt > s.clock
      && (forall ref: Ref, seen: Time, at: Time :: at <= s.clock ==> !Idle(s.db, ref, seen, at))
      && (forall other: BotId, at: Time :: other != bot && at <= s.clock ==> !Stoppable(s.db, other, at))
      && (s.db.row.state != Suspending && Step(s, a).db.row.state == Suspending ==> OwnStop(s, a, bot))
  {
    hide Step, Ledger, Latest, Owned, Claims, AllRecorded, AllFresh, Watchman;
    InvariantHolds(row, clock, actions);
    var s := Run(Init(row, clock), actions);
    SuspendingStep(s, a, bot);
  }

  lemma SuspendingStep(s: System, a: Action, bot: BotId)
    requires Grounded(s) && bot in s.db.leases && s.db.leases[bot].expiresAt > s.clock
    ensures s.db.row.state != Suspending && Step(s, a).db.row.state == Suspending ==> OwnStop(s, a, bot)
  {
    hide AdvanceTask, BranchTask;
    if s.db.row.state != Suspending && Step(s, a).db.row.state == Suspending {
      match a
      case Advance(p) => AdvanceSuspends(s, p);
      case Branch(p, yes, stamp) => BranchSuspends(s, p, yes, stamp);
      case _ =>
    }
  }

  lemma AdvanceSuspends(s: System, p: TaskId)
    requires p in s.tasks && s.db.row.state != Suspending && AdvanceTask(s, p, s.tasks[p]).db.row.state == Suspending
    ensures s.tasks[p].SleepStamped? && Idle(s.db, s.tasks[p].nap.ref, s.tasks[p].nap.loadedAt, s.tasks[p].at)
  {
    hide Reclaimable, Noted, NoLeaseAfter;
  }

  lemma BranchSuspends(s: System, p: TaskId, yes: bool, stamp: Time)
    requires p in s.tasks && s.db.row.state != Suspending && BranchTask(s, p, s.tasks[p], yes, stamp).db.row.state == Suspending
    ensures s.tasks[p].StopStamped? && Stoppable(s.db, s.tasks[p].bot, s.tasks[p].at)
  {
    hide NoLeaseAfter, StillOurs;
  }

  /** The write is still the row's own, its lease has time left, and its bot is not about to stop the machine. */
  ghost predicate Working(s: System, acq: nat) {
    && acq < |s.book.issued|
    && var bot := s.book.issued[acq].token.bot;
      && HasTime(s, bot) && s.book.trail[bot].acq == acq
      && forall p :: p in s.tasks && s.tasks[p].StopStamped? ==> s.tasks[p].bot != bot
  }

  /**
   * From the step that hands a token out, and for as long as its write is the row's own, its lease
   * has time left and its bot does not stop the machine itself: the row is never suspending, nobody
   * is suspending it, and the token passes, whatever all others do.
   */
  lemma {:induction false} WorkingBotKeepsMachine(
    row: Row, clock: Time, actions: seq<Action>, a: Action, more: seq<Action>, acq: nat)
    requires acq !in Run(Init(row, clock), actions).handed && acq in Run(Init(row, clock), actions + [a]).handed
    requires forall k :: 0 <= k <= |more| ==> Working(Run(Init(row, clock), actions + [a] + more[..k]), acq)
    ensures var t := Run(Init(row, clock), actions + [a] + more);
      && t.db.row.state != Suspending && (forall p :: p in t.tasks ==> !t.tasks[p].Suspender?)
      && acq < |t.book.issued| && LiveToken(t, t.book.issued[acq].token)
    decreases |more|
  {
    hide Step, Ledger, Latest, AllRecorded, AllFresh, Claims, Working;
    var init := Init(row, clock);
    var begun := actions + [a];
    assert more[..|more|] == more;
    var t := Run(init, begun + more);
    assert Working(t, acq);
    if more == [] {
      assert begun + more == begun;
      RunSnoc(init, actions, a);
      HandedWhileAwake(Run(init, actions), a, acq);
    } else {
      var rest, last := more[..|more| - 1], more[|more| - 1];
      assert begun + more == (begun + rest) + [last];
      assert forall k :: 0 <= k <= |rest| ==> rest[..k] == more[..k];
      WorkingBotKeepsMachine(row, clock, actions, a, rest, acq);
      RunSnoc(init, begun + rest, last);
      assert more[..|rest|] == rest;
      WorkingStep(row, clock, begun + rest, last, acq);
    }
    LiveWhileWorking(row, clock, begun + more, acq);
  }

  lemma HandedWhileAwake(s: System, a: Action, acq: nat)
    requires acq !in s.handed && acq in Step(s, a).handed
    ensures Step(s, a).db.row.state != Suspending
  {
    if a.Branch? && a.p in s.tasks { OthersStayOnBranch(s, a.p, a.yes, a.stamp); }
    hide BranchTask, Idle, Reclaimable, Reused;
  }

  lemma WorkingStep(row: Row, clock: Time, actions: seq<Action>, a: Action, acq: nat)
    requires var s := Run(Init(row, clock), actions); Working(s, acq) && s.db.row.state != Suspending
    ensures Step(Run(Init(row, clock), actions), a).db.row.state != Suspending
  {
    hide Step, Run;
    var s := Run(Init(row, clock), actions);
    NobodySuspends(row, clock, actions, s.book.issued[acq].token.bot, a);
  }

  lemma LiveWhileWorking(row: Row, clock: Time, actions: seq<Action>, acq: nat)
    requires var s := Run(Init(row, clock), actions); Working(s, acq) && s.db.row.state != Suspending
    ensures var s := Run(Init(row, clock), actions);
      acq < |s.book.issued| && LiveToken(s, s.book.issued[acq].token) && forall p :: p in s.tasks ==> !s.tasks[p].Suspender?
  {
    hide Step, Run;
    var s := Run(Init(row, clock), actions);
    InvariantHolds(row, clock, actions);
    OnlyNewestTokenPasses(row, clock, actions, acq);
    NobodySuspends(row, clock, actions, s.book.issued[acq].token.bot, Tick(0));
  }

  // ---------- every suspension ends, or is left for good ----------

  /**
   * The row is suspending with nobody at work on it exactly if it was so from the start, or a worker
   * that had suspended it crashed, or its last write failed, or a stop request that had read
   * `suspending` went back to it.
   */
  lemma LeftSuspendingExactlyWhen(row: Row, clock: Time, actions: seq<Action>)
    ensures var s := Run(Init(row, clock), actions);
      s.abandoned != {} <==> s.db.row.state == Suspending && forall p :: p in s.tasks ==> !s.tasks[p].Suspender?
    ensures Init(row, clock).abandoned == if row.state == Suspending then {Found} else {}
  {
    hide Step, Ledger, Latest, Timed, Owned, Grounded, Claims, AllRecorded, AllFresh, GoesBackTo;
    InvariantHolds(row, clock, actions);
  }

  /**
   * Once it is left so, it is for good: in no continuation does the row leave `suspending`, is the
   * machine stopped or is a lease handed out.
   */
  lemma {:induction false} LeftForGood(row: Row, clock: Time, actions: seq<Action>, more: seq<Action>)
    requires Run(Init(row, clock), actions).abandoned != {}
    ensures var s, t := Run(Init(row, clock), actions), Run(Init(row, clock), actions + more);
      && t.abandoned != {} && t.db.row.state == Suspending && t.handed == s.handed
      && forall p :: p in t.tasks ==> !t.tasks[p].Suspender?
    decreases |more|
  {
    hide Step;
    LeftSuspendingExactlyWhen(row, clock, actions + more);
    if more == [] {
      assert actions + more == actions;
    } else {
      var rest, last := more[..|more| - 1], more[|more| - 1];
      assert actions + more == (actions + rest) + [last];
      RunSnoc(Init(row, clock), actions + rest, last);
      LeftForGood(row, clock, actions, rest);
      LeftStep(Run(Init(row, clock), actions + rest), last);
    }
  }

  lemma LeftStep(s: System, a: Action)
    requires s.abandoned != {} && s.db.row.state == Suspending && forall p :: p in s.tasks ==> !s.tasks[p].Suspender?
    ensures Step(s, a).abandoned != {} && Step(s, a).handed == s.handed
  {
    hide AdvanceTask, BranchTask;
    match a
    case Advance(p) => if p in s.tasks { LeftAdvance(s, p); }
    case Branch(p, yes, stamp) => if p in s.tasks { LeftBranch(s, p, yes, stamp); }
    case _ =>
  }

  lemma LeftAdvance(s: System, p: TaskId)
    requires p in s.tasks && s.db.row.state == Suspending && !s.tasks[p].Suspender?
    ensures var t := AdvanceTask(s, p, s.tasks[p]); t.abandoned == s.abandoned && t.handed == s.handed
  {
    hide Idle, Reclaimable, Noted;
  }

  lemma LeftBranch(s: System, p: TaskId, yes: bool, stamp: Time)
    requires p in s.tasks && s.db.row.state == Suspending && !s.tasks[p].Suspender?
    ensures var t := BranchTask(s, p, s.tasks[p], yes, stamp); t.abandoned == s.abandoned && t.handed == s.handed
  {
    OthersStayOnBranch(s, p, yes, stamp);
    hide Stoppable, StillOurs;
  }

  /**
   * The step with which a suspender ends: it leaves `suspending` unless it crashes, its last write
   * fails, or it is a stop request that had read `suspending` and goes back to it. A sleep leaves the
   * row suspended if sandbox.stop has returned and running otherwise; a stop leaves it stopped if it
   * has, or there was no machine, and otherwise as it was read or in error.
   */
  lemma SuspensionEnds(row: Row, clock: Time, actions: seq<Action>, p: TaskId, a: Action)
    requires var s := Run(Init(row, clock), actions);
      p in s.tasks && s.tasks[p].Suspender? && p !in Step(s, a).tasks
    ensures var s := Run(Init(row, clock), actions);
      var Suspender(origin, stage, _) := s.tasks[p];
      var state := Step(s, a).db.row.state;
      && (a == Crash(p) || (a.Branch? && a.p == p && (stage.Halted? || stage.Undoing?)))
      && (state == Suspending <==> a.Crash? || !a.yes || (stage == Undoing(Suspending)))
      && (state != Suspending ==>
           if stage.Halted? then state == if origin.BySleep? then Suspended else Stopped
           else if origin.BySleep? then state == Running
           else state == origin.before || state == Error)
      && Step(s, a).abandoned == s.abandoned + (
           if a.Crash? then {Crashed} else if !a.yes then {WriteFailed} else if stage == Undoing(Suspending) then {PutBack} else {})
  {
    hide Step, Run, Ledger, Latest, Timed, Grounded, Claims, AllRecorded, AllFresh;
    InvariantHolds(row, clock, actions);
    EndStep(Run(Init(row, clock), actions), p, a);
  }

  lemma EndStep(s: System, p: TaskId, a: Action)
    requires Owned(s) && Watchman(s) && p in s.tasks && s.tasks[p].Suspender? && p !in Step(s, a).tasks
    ensures var Suspender(origin, stage, _) := s.tasks[p];
      var state := Step(s, a).db.row.state;
      && (a == Crash(p) || (a.Branch? && a.p == p && (stage.Halted? || stage.Undoing?)))
      && (state == Suspending <==> a.Crash? || !a.yes || (stage == Undoing(Suspending)))
      && (state != Suspending ==>
           if stage.Halted? then state == if origin.BySleep? then Suspended else Stopped
           else if origin.BySleep? then state == Running
           else state == origin.before || state == Error)
      && Step(s, a).abandoned == s.abandoned + (
           if a.Crash? then {Crashed} else if !a.yes then {WriteFailed} else if stage == Undoing(Suspending) then {PutBack} else {})
  {
    assert GoesBackTo(s.tasks[p]);
    assert s.db.row.state == Suspending;
    match a
    case Advance(q) =>
      if q in s.tasks {
        OthersStayOnAdvance(s, q);
        StageAdvances(s, q);
        hide AdvanceTask;
        assert false;
      }
    case Branch(q, yes, stamp) =>
      if q in s.tasks {
        OthersStayOnBranch(s, q, yes, stamp);
        hide StillOurs, NoLeaseAfter, AdvanceTask;
        assert q == p;
      }
    case _ => hide AdvanceTask, BranchTask;
  }

  // ---------- a handler on its own ----------

  /** A number of advances of one task; one that is at its end, or waits for an answer, stays as it is. */
  function Advanced(s: System, p: TaskId, count: nat): System {
    if count == 0 then s else Step(Advanced(s, p, count - 1), Advance(p))
  }

  function Answered(s: System, p: TaskId, yes: bool, stamp: Time): System {
    Step(s, Branch(p, yes, stamp))
  }

  lemma OneMore(s: System, p: TaskId, count: nat)
    ensures Advanced(s, p, 0) == s && Advanced(s, p, count + 1) == Step(Advanced(s, p, count), Advance(p))
  {
  }

  lemma AcquireStamp(s: System, p: TaskId, bot: BotId, run: RunId, resume: bool)
    requires p !in s.tasks
    ensures Advanced(Step(s, Begin(p, AcquireBegun(bot, run, resume))), p, 2)
         == if s.db.row.state == Suspending then s
            else s.(tasks := s.tasks[p := AcquireStamped(bot, run, resume, s.clock)])
  {
    hide Advanced;
    var begun := Step(s, Begin(p, AcquireBegun(bot, run, resume)));
    OneMore(begun, p, 0);
    OneMore(begun, p, 1);
    assert s.tasks[p := AcquireBegun(bot, run, resume)] - {p} == s.tasks;
  }

  /** The write of acquire's row, and the token handed out after it. */
  ghost predicate GotLease(s: System, t: System, p: TaskId, bot: BotId, run: RunId, fence: nat) {
    var acq := |s.book.issued|;
    && t.db == s.db.(leases := s.db.leases[bot := Lease(run, fence, s.clock + 300_000)])
    && t.clock == s.clock && t.tasks == s.tasks - {p} && t.handed == s.handed + {acq}
    && |t.book.issued| == acq + 1 && t.book.issued[acq].token == Token(bot, run, fence)
    && HasTime(t, bot)
  }

  lemma HandOut(s: System, issued: System, p: TaskId, db: Db, token: Token, life: nat)
    requires issued == Issue(s, p, db, token, life, s.clock) && s.db.row.state != Suspending
    requires db == s.db.(leases := s.db.leases[token.bot := Lease(token.runId, token.fence, s.clock + 300_000)])
    ensures GotLease(s, Step(issued, Advance(p)), p, token.bot, token.runId, token.fence)
    ensures p !in Step(issued, Advance(p)).tasks
  {
    hide Reused;
  }

  lemma DoneIsDone(s: System, p: TaskId)
    requires p !in s.tasks
    ensures Step(s, Advance(p)) == s
  {
  }

  lemma ReclaimIssues(s: System, p: TaskId, bot: BotId, run: RunId, resume: bool)
    requires p in s.tasks && s.tasks[p] == AcquireStamped(bot, run, resume, s.clock)
    requires bot in s.book.trail && bot in s.db.leases
    requires s.db.leases[bot].expiresAt < s.clock || (resume && s.db.leases[bot].runId == run)
    ensures var fence := s.db.leases[bot].fence + 1;
      && Reclaimed(s.db, bot, run, s.clock) == s.db.(leases := s.db.leases[bot := Lease(run, fence, s.clock + 300_000)])
      && Step(s, Advance(p))
         == Issue(s, p, Reclaimed(s.db, bot, run, s.clock), Token(bot, run, fence), s.book.trail[bot].life, s.clock)
  {
    hide Issue;
  }

  lemma AcquireReclaims(s: System, p: TaskId, bot: BotId, run: RunId, resume: bool)
    requires p in s.tasks && s.tasks[p] == AcquireStamped(bot, run, resume, s.clock)
    requires bot in s.book.trail && s.db.row.state != Suspending && bot in s.db.leases
    requires s.db.leases[bot].expiresAt < s.clock || (resume && s.db.leases[bot].runId == run)
    ensures GotLease(s, Advanced(s, p, 3), p, bot, run, s.db.leases[bot].fence + 1)
  {
    hide Advanced, HasTime, Noted, Issue, Step, Reclaimed;
    OneMore(s, p, 0);
    OneMore(s, p, 1);
    OneMore(s, p, 2);
    ReclaimIssues(s, p, bot, run, resume);
    HandOut(s, Advanced(s, p, 1), p, Reclaimed(s.db, bot, run, s.clock),
            Token(bot, run, s.db.leases[bot].fence + 1), s.book.trail[bot].life);
    DoneIsDone(Advanced(s, p, 2), p);
  }

  lemma AcquireMisses(s: System, p: TaskId, bot: BotId, run: RunId, resume: bool)
    requires p in s.tasks && s.tasks[p] == AcquireStamped(bot, run, resume, s.clock) && s.db.row.state != Suspending
    requires bot in s.db.leases ==> s.db.leases[bot].expiresAt >= s.clock && !(resume && s.db.leases[bot].runId == run)
    ensures if bot in s.db.leases then Advanced(s, p, 3) == s.(tasks := s.tasks - {p})
            else GotLease(s, Advanced(s, p, 3), p, bot, run, 1)
  {
    hide Advanced, HasTime, Noted;
    OneMore(s, p, 0);
    OneMore(s, p, 1);
    OneMore(s, p, 2);
    var missed := s.(tasks := s.tasks[p := AcquireMissed(bot, run, s.clock)]);
    assert Advanced(s, p, 1) == missed;
    assert missed.tasks - {p} == s.tasks - {p};
    if bot !in s.db.leases {
      HandOut(missed, Advanced(s, p, 2), p, Created(s.db, bot, run, s.clock), Token(bot, run, 1), |s.book.issued|);
    }
  }

  lemma AcquireWrite(s: System, p: TaskId, bot: BotId, run: RunId, resume: bool)
    requires p in s.tasks && s.tasks[p] == AcquireStamped(bot, run, resume, s.clock)
    requires s.book.trail.Keys == s.db.leases.Keys && s.db.row.state != Suspending
    ensures var free := bot !in s.db.leases;
      var ours := !free && (s.db.leases[bot].expiresAt < s.clock || (resume && s.db.leases[bot].runId == run));
      if free || ours then GotLease(s, Advanced(s, p, 3), p, bot, run, if ours then s.db.leases[bot].fence + 1 else 1)
      else Advanced(s, p, 3) == s.(tasks := s.tasks - {p})
  {
    hide *;
    if bot in s.db.leases && (s.db.leases[bot].expiresAt < s.clock || (resume && s.db.leases[bot].runId == run)) {
      assert bot in s.book.trail.Keys;
      AcquireReclaims(s, p, bot, run, resume);
    } else {
      AcquireMisses(s, p, bot, run, resume);
    }
  }

  /**
   * An acquire that nobody disturbs. It gets a lease of five minutes and hands its token out exactly
   * if the computer is not being suspended and the bot has no lease, or one that has run out, or,
   * resuming, one of the very run; the fence starts at 1 and grows by 1. Otherwise it changes nothing.
   */
  lemma AcquireAlone(row: Row, clock: Time, actions: seq<Action>, p: TaskId, bot: BotId, run: RunId, resume: bool)
    requires p !in Run(Init(row, clock), actions).tasks
    ensures var s := Run(Init(row, clock), actions);
      var t := Advanced(Advanced(Step(s, Begin(p, AcquireBegun(bot, run, resume))), p, 2), p, 3);
      var acq := |s.book.issued|;
      var free := bot !in s.db.leases;
      var ours := !free && (s.db.leases[bot].expiresAt < s.clock || (resume && s.db.leases[bot].runId == run));
      var fence := if ours then s.db.leases[bot].fence + 1 else 1;
      if s.db.row.state != Suspending && (free || ours) then
        && t.db == s.db.(leases := s.db.leases[bot := Lease(run, fence, s.clock + 300_000)])
        && t.tasks == s.tasks && t.handed == s.handed + {acq} && acq !in s.handed
        && |t.book.issued| == acq + 1 && t.book.issued[acq].token == Token(bot, run, fence)
        && LiveToken(t, Token(bot, run, fence)) && HasTime(t, bot)
      else t == s
  {
    hide Run, Ledger, Latest, Timed, Watchman, Owned, Claims, AllRecorded, AllFresh, Step;
    InvariantHolds(row, clock, actions);
    var s := Run(Init(row, clock), actions);
    LedgerKnows(s);
    AcquireStamp(s, p, bot, run, resume);
    if s.db.row.state == Suspending {
      NoTask(s, p);
    } else {
      AcquireWrite(s.(tasks := s.tasks[p := AcquireStamped(bot, run, resume, s.clock)]), p, bot, run, resume);
      assert s.tasks[p := AcquireStamped(bot, run, resume, s.clock)] - {p} == s.tasks;
    }
  }

  lemma NoTask(s: System, p: TaskId)
    requires p !in s.tasks
    ensures Advanced(s, p, 3) == s
  {
    hide Advanced;
    OneMore(s, p, 0);
    OneMore(s, p, 1);
    OneMore(s, p, 2);
  }

  /** An acquire that has written its row and finds the computer being suspended takes its own row back. */
  lemma AcquireOvertaken(row: Row, clock: Time, actions: seq<Action>, p: TaskId)
    requires var s := Run(Init(row, clock), actions);
      p in s.tasks && s.tasks[p].AcquireWritten? && s.db.row.state == Suspending
    ensures var s := Run(Init(row, clock), actions);
      var t := Advanced(s, p, 2);
      && s.tasks[p].acq < |s.book.issued|
      && var token := s.book.issued[s.tasks[p].acq].token;
      && t.handed == s.handed && t.tasks == s.tasks - {p} && t.db.row == s.db.row
      && !Passes(t.db, token)
      && t.db.leases == if Passes(s.db, token) then s.db.leases - {token.bot} else s.db.leases
  {
    hide Run, Ledger, Latest, Timed, Watchman, Owned, Claims, AllRecorded, AllFresh, Step;
    InvariantHolds(row, clock, actions);
    TakenBack(Run(Init(row, clock), actions), p);
  }

  lemma TakenBack(s: System, p: TaskId)
    requires p in s.tasks && s.tasks[p].AcquireWritten? && s.db.row.state == Suspending && s.tasks[p].acq < |s.book.issued|
    ensures var t := Advanced(s, p, 2);
      var token := s.book.issued[s.tasks[p].acq].token;
      && t.handed == s.handed && t.tasks == s.tasks - {p} && t.db.row == s.db.row
      && !Passes(t.db, token)
      && t.db.leases == if Passes(s.db, token) then s.db.leases - {token.bot} else s.db.leases
  {
    hide Advanced, Step;
    OneMore(s, p, 0);
    OneMore(s, p, 1);
    LooksAgain(s, p);
    GivesBack(Step(s, Advance(p)), p);
  }

  lemma LooksAgain(s: System, p: TaskId)
    requires p in s.tasks && s.tasks[p].AcquireWritten? && s.db.row.state == Suspending
    ensures Step(s, Advance(p)) == s.(tasks := s.tasks[p := AcquireRefused(s.tasks[p].acq)])
  {
  }

  lemma GivesBack(s: System, p: TaskId)
    requires p in s.tasks && s.tasks[p].AcquireRefused? && s.tasks[p].acq < |s.book.issued|
    ensures var t := Step(s, Advance(p));
      var token := s.book.issued[s.tasks[p].acq].token;
      && t.handed == s.handed && t.tasks == s.tasks - {p} && t.db.row == s.db.row
      && !Passes(t.db, token)
      && t.db.leases == if Passes(s.db, token) then s.db.leases - {token.bot} else s.db.leases
  {
    hide Idle, Reclaimable, Noted;
  }

  /**
   * What a token can do: renewed or held it has five minutes or a day from the stamp, released it is
   * gone, and a token that does not match changes nothing; no other lease is touched.
   */
  lemma TokenWorks(s: System, token: Token, now: Time)
    requires now <= s.clock
    ensures var passes := Passes(s.db, token);
      && Step(s, Renew(token, now)).db
         == (if passes then s.db.(leases := s.db.leases[token.bot := Lease(token.runId, token.fence, now + 300_000)]) else s.db)
      && Step(s, Hold(token, now)).db
         == (if passes then s.db.(leases := s.db.leases[token.bot := Lease(token.runId, token.fence, now + 86_400_000)]) else s.db)
      && Step(s, Renew(token, now)).lateRenewals == Step(s, Hold(token, now)).lateRenewals
         == s.lateRenewals + (if passes && s.db.leases[token.bot].expiresAt <= s.clock then 1 else 0)
      && Step(s, Release(token)).db == (if passes then s.db.(leases := s.db.leases - {token.bot}) else s.db)
  {
  }

  /**
   * What comes from outside the handlers: a touch is noted on a running machine only, and like any
   * other write of the row leaves its stamp; time runs forward only; forgetting a bot's lease deletes
   * it; a crash ends its handler, and leaves a suspension it was at to itself.
   */
  lemma FromOutside(s: System, to: Time, stamp: Time, bot: BotId, p: TaskId)
    requires stamp <= s.clock
    ensures Step(s, Tick(to)) == s.(clock := if s.clock <= to then to else s.clock)
    ensures var touched := Step(s, Touch(stamp));
      if s.db.row.state == Running
      then touched.db == s.db.(row := s.db.row.(updatedAt := stamp)) && touched.touchLog == s.touchLog + [stamp]
      else touched == s
    ensures Step(s, Touch(stamp)).tiedTouches
         == s.tiedTouches + if s.db.row.state == Running && s.db.row.updatedAt == stamp then 1 else 0
    ensures Step(s, OtherWrite(stamp)).db == s.db.(row := s.db.row.(updatedAt := stamp))
    ensures Step(s, ForgetLease(bot)).db == s.db.(leases := s.db.leases - {bot})
    ensures var crashed := Step(s, Crash(p));
      && crashed.tasks == s.tasks - {p} && crashed.db == s.db
      && crashed.abandoned == if p in s.tasks && s.tasks[p].Suspender? then s.abandoned + {Crashed} else s.abandoned
  {
  }

  /** Sleep up to the question whether a run is active. */
  function SleepTries(s: System, p: TaskId, saved: bool, stamp: Time): System {
    Advanced(Answered(Advanced(Step(s, Begin(p, SleepBegun)), p, 1), p, saved, stamp), p, 2)
  }

  /** The rest, if none is; sandbox.stop may fail. */
  function SleepGoesOn(s: System, p: TaskId, stopped: bool, stamp: Time): System {
    Answered(Answered(Advanced(Answered(s, p, true, stamp), p, 1), p, stopped, stamp), p, true, stamp)
  }

  /** The rest, if one is. */
  function SleepGoesBack(s: System, p: TaskId, stamp: Time): System {
    Answered(Answered(s, p, false, stamp), p, true, stamp)
  }

  /** A running machine that no run and no live lease needs. */
  predicate Unused(db: Db, now: Time) {
    && db.row.state == Running && db.row.providerRef.Some? && db.row.executionRunId.None?
    && forall bot :: bot in db.leases ==> db.leases[bot].expiresAt <= now
  }

  lemma SleepLoads(s: System, p: TaskId, saved: bool, stamp: Time)
    requires p !in s.tasks && stamp <= s.clock
    ensures var loaded := Answered(Advanced(Step(s, Begin(p, SleepBegun)), p, 1), p, saved, stamp);
      loaded == if s.db.row.state == Running && s.db.row.providerRef.Some? && saved
                then s.(tasks := s.tasks[p := SleepSaved(Nap(s.db.row.providerRef.value, s.db.row.updatedAt, |s.touchLog|, |s.touchLog|))])
                else s
  {
    hide Advanced;
    var begun := Step(s, Begin(p, SleepBegun));
    OneMore(begun, p, 0);
    assert s.tasks[p := SleepBegun] - {p} == s.tasks;
    if s.db.row.state == Running && s.db.row.providerRef.Some? {
      assert Advanced(begun, p, 1).tasks - {p} == s.tasks;
    }
  }

  lemma SleepClaims(s: System, p: TaskId, nap: Nap)
    requires p in s.tasks && s.tasks[p] == SleepSaved(nap)
    requires s.db.row.state == Running && s.db.row.providerRef == Some(nap.ref) && s.db.row.updatedAt == nap.loadedAt
    ensures Advanced(s, p, 2)
         == if Unused(s.db, s.clock)
            then Write(s, s.db.(row := s.db.row.(state := Suspending, homeRevision := nap.revision, updatedAt := s.clock)), s.clock)
                 .(tasks := s.tasks[p := Suspender(BySleep(nap), Claimed, Claim(s.clock, s.db.leases, s.book.trail))])
            else s.(tasks := s.tasks - {p})
  {
    hide Advanced;
    OneMore(s, p, 0);
    OneMore(s, p, 1);
  }

  /**
   * A sleep that nobody disturbs suspends the machine, with a checkpoint of every touch, exactly if
   * no run or live lease needs it, the checkpoint is made, no run is active then, and sandbox.stop
   * succeeds; the row goes back to running if one of the last two is not so, and is as it was before
   * if one of the first is not.
   */
  lemma SleepAlone(s: System, p: TaskId, saved: bool, stopped: bool, stamp: Time)
    requires p !in s.tasks && stamp <= s.clock
    ensures var tried := SleepTries(s, p, saved, stamp);
      var slept := SleepGoesOn(tried, p, stopped, stamp);
      var back := SleepGoesBack(tried, p, stamp);
      if Unused(s.db, s.clock) && saved then
        && slept.db == s.db.(row := s.db.row.(
             state := if stopped then Suspended else Running, homeRevision := |s.touchLog|, updatedAt := stamp))
        && back.db == s.db.(row := s.db.row.(state := Running, homeRevision := |s.touchLog|, updatedAt := stamp))
        && slept.tasks == s.tasks && back.tasks == s.tasks
      else tried == s && slept == s && back == s
  {
    hide Advanced, Step, Answered, Write;
    SleepLoads(s, p, saved, stamp);
    if s.db.row.state == Running && s.db.row.providerRef.Some? && saved {
      var nap := Nap(s.db.row.providerRef.value, s.db.row.updatedAt, |s.touchLog|, |s.touchLog|);
      var loaded := s.(tasks := s.tasks[p := SleepSaved(nap)]);
      SleepClaims(loaded, p, nap);
      var tried := SleepTries(s, p, saved, stamp);
      if Unused(s.db, s.clock) {
        WriteIs(loaded, PutToSleep(s.db, nap.revision, s.clock), s.clock);
        hide SleepTries, Unused;
        SleepEnds(tried, p, nap, stopped, stamp);
        assert tried.tasks - {p} == s.tasks;
      } else {
        assert loaded.tasks - {p} == s.tasks;
        SleepNothing(s, p, stopped, stamp);
      }
    } else {
      OneMore(s, p, 0);
      OneMore(s, p, 1);
      DoneIsDone(s, p);
      SleepNothing(s, p, stopped, stamp);
    }
  }

  lemma WriteIs(s: System, db: Db, stamp: Time)
    ensures var t := Write(s, db, stamp); t.db == db && t.tasks == s.tasks && t.clock == s.clock
  {
  }

  lemma SleepNothing(s: System, p: TaskId, stopped: bool, stamp: Time)
    requires p !in s.tasks
    ensures SleepGoesOn(s, p, stopped, stamp) == s && SleepGoesBack(s, p, stamp) == s
  {
    OneMore(s, p, 0);
  }

  lemma SleepEnds(s: System, p: TaskId, nap: Nap, stopped: bool, stamp: Time)
    requires p in s.tasks && s.tasks[p].Suspender? && s.tasks[p].origin == BySleep(nap) && s.tasks[p].stage.Claimed?
    requires StillOurs(s.db.row, nap, s.tasks[p].claim.at) && stamp <= s.clock
    ensures var slept, back := SleepGoesOn(s, p, stopped, stamp), SleepGoesBack(s, p, stamp);
      && slept.db == s.db.(row := s.db.row.(state := if stopped then Suspended else Running, updatedAt := stamp))
      && back.db == s.db.(row := s.db.row.(state := Running, updatedAt := stamp))
      && slept.tasks == s.tasks - {p} && back.tasks == s.tasks - {p}
  {
    assert s.db.row.state == Suspending;
    hide Advanced, Answered, StillOurs;
    SleepGetsToStop(s, p, nap, stamp);
    var going := Advanced(Answered(s, p, true, stamp), p, 1);
    SleepStopReturns(going, p, stopped, stamp);
    SleepTurns(s, p, stamp);
    assert going.tasks - {p} == s.tasks - {p};
  }

  lemma SleepGetsToStop(s: System, p: TaskId, nap: Nap, stamp: Time)
    requires p in s.tasks && s.tasks[p].Suspender? && s.tasks[p].origin == BySleep(nap) && s.tasks[p].stage.Claimed?
    requires StillOurs(s.db.row, nap, s.tasks[p].claim.at) && stamp <= s.clock
    ensures Advanced(Answered(s, p, true, stamp), p, 1) == s.(tasks := s.tasks[p := s.tasks[p].(stage := Stopping)])
  {
    hide Advanced, Idle;
    var claimed := Answered(s, p, true, stamp);
    OneMore(claimed, p, 0);
    assert claimed.tasks == s.tasks[p := s.tasks[p].(stage := Ready)];
    assert claimed.tasks[p := s.tasks[p].(stage := Stopping)] == s.tasks[p := s.tasks[p].(stage := Stopping)];
  }

  lemma SleepStopReturns(s: System, p: TaskId, stopped: bool, stamp: Time)
    requires p in s.tasks && s.tasks[p].Suspender? && s.tasks[p].origin.BySleep? && s.tasks[p].stage.Stopping?
    requires s.db.row.state == Suspending && stamp <= s.clock
    ensures var t := Answered(Answered(s, p, stopped, stamp), p, true, stamp);
      && t.db == s.db.(row := s.db.row.(state := if stopped then Suspended else Running, updatedAt := stamp))
      && t.tasks == s.tasks - {p}
  {
    hide StillOurs, Stoppable;
    assert Answered(s, p, stopped, stamp).tasks - {p} == s.tasks - {p};
  }

  lemma SleepTurns(s: System, p: TaskId, stamp: Time)
    requires p in s.tasks && s.tasks[p].Suspender? && s.tasks[p].origin.BySleep? && s.tasks[p].stage.Claimed?
    requires s.db.row.state == Suspending && stamp <= s.clock
    ensures var back := SleepGoesBack(s, p, stamp);
      back.db == s.db.(row := s.db.row.(state := Running, updatedAt := stamp)) && back.tasks == s.tasks - {p}
  {
    hide StillOurs, Stoppable;
    assert Answered(s, p, false, stamp).tasks - {p} == s.tasks - {p};
  }

  /** A sleeper that finds the row written since it suspended it, or on another machine, goes back to running. */
  lemma SleepGivesWay(s: System, p: TaskId, stamp: Time)
    requires p in s.tasks && s.tasks[p].Suspender? && s.tasks[p].origin.BySleep? && s.tasks[p].stage.Claimed?
    requires s.db.row.state == Suspending && stamp <= s.clock
    requires s.db.row.updatedAt != s.tasks[p].claim.at || s.db.row.providerRef != Some(s.tasks[p].origin.nap.ref)
    ensures var t := Answered(Answered(s, p, true, stamp), p, true, stamp);
      t.db == s.db.(row := s.db.row.(state := Running, updatedAt := stamp)) && t.tasks == s.tasks - {p}
  {
    assert Answered(s, p, true, stamp).tasks - {p} == s.tasks - {p};
  }

  /** A stop request whose last write fails leaves the row in error. */
  lemma StopIsNotRecorded(s: System, p: TaskId, stamp: Time)
    requires p in s.tasks && s.tasks[p].Suspender? && s.tasks[p].origin.ByStop? && s.tasks[p].stage.Halted?
    requires s.db.row.state == Suspending && stamp <= s.clock
    ensures var t := Answered(Answered(s, p, false, stamp), p, true, stamp);
      t.db == s.db.(row := s.db.row.(state := Error, updatedAt := stamp)) && t.tasks == s.tasks - {p}
  {
    assert Answered(s, p, false, stamp).tasks - {p} == s.tasks - {p};
  }

  // ---------- runs that come back ----------

  /** Every run has its leases of a bot in one lifetime of the row. */
  ghost predicate OneLifePerRun(issued: seq<Grant>) {
    forall a, b ::
      0 <= a < b < |issued| && issued[a].token.bot == issued[b].token.bot && issued[a].token.runId == issued[b].token.runId ==>
        issued[a].life == issued[b].life
  }

  lemma OneMoreGrant(book: Book, token: Token, life: nat, now: Time)
    requires book.reusedRuns == 0 <==> OneLifePerRun(book.issued)
    ensures Noted(book, token, life, now).reusedRuns == 0 <==> OneLifePerRun(Noted(book, token, life, now).issued)
  {
    var next := book.issued + [Grant(token, life)];
    assert Noted(book, token, life, now).issued == next;
    if Reused(book.issued, token.bot, token.runId, life) {
      var a :| 0 <= a < |book.issued| && book.issued[a].life != life
               && book.issued[a].token.bot == token.bot && book.issued[a].token.runId == token.runId;
      assert next[a] == book.issued[a] && next[|book.issued|] == Grant(token, life);
      assert !OneLifePerRun(next);
    }
    if OneLifePerRun(next) {
      assert forall a :: 0 <= a < |book.issued| ==> next[a] == book.issued[a];
    }
  }

  lemma ReusedStep(s: System, a: Action)
    requires s.book.reusedRuns == 0 <==> OneLifePerRun(s.book.issued)
    ensures Step(s, a).book.reusedRuns == 0 <==> OneLifePerRun(Step(s, a).book.issued)
  {
    hide OneLifePerRun, AdvanceTask, BranchTask;
    match a
    case Advance(p) => if p in s.tasks { ReusedAdvance(s, p); }
    case Branch(p, yes, stamp) => if p in s.tasks { BranchKeepsLeases(s, p, s.tasks[p], yes, stamp); }
    case _ =>
  }

  lemma ReusedAdvance(s: System, p: TaskId)
    requires p in s.tasks
    requires s.book.reusedRuns == 0 <==> OneLifePerRun(s.book.issued)
    ensures var t := AdvanceTask(s, p, s.tasks[p]); t.book.reusedRuns == 0 <==> OneLifePerRun(t.book.issued)
  {
    hide OneLifePerRun, Noted, Idle;
    match s.tasks[p]
    case AcquireStamped(bot, run, resume, now) =>
      if Reclaimable(s.db, bot, run, resume, now) && bot in s.book.trail {
        OneMoreGrant(s.book, Token(bot, run, s.db.leases[bot].fence + 1), s.book.trail[bot].life, now);
      }
    case AcquireMissed(bot, run, now) => OneMoreGrant(s.book, Token(bot, run, 1), |s.book.issued|, now);
    case _ =>
  }

  /** No run came back if and only if every run has had its leases in one lifetime of the row. */
  lemma {:induction false} RunsComeBackExactlyWhen(row: Row, clock: Time, actions: seq<Action>)
    ensures var s := Run(Init(row, clock), actions); s.book.reusedRuns == 0 <==> OneLifePerRun(s.book.issued)
  {
    hide Step;
    if actions != [] {
      RunsComeBackExactlyWhen(row, clock, actions[..|actions| - 1]);
      ReusedStep(Run(Init(row, clock), actions[..|actions| - 1]), actions[|actions| - 1]);
    }
  }

  /** How far a stop request gets on a computer with a machine. */
  datatype Course = NotSaved | NotStopped | Through

  /** A stop request up to the question whether another bot's run is active. */
  function StopTries(s: System, p: TaskId, bot: BotId, stamp: Time): System {
    Answered(Advanced(Step(s, Begin(p, StopBegun(bot))), p, 2), p, true, stamp)
  }

  /** The rest, if none is. */
  function StopGoesOn(s: System, p: TaskId, hasMachine: bool, course: Course, stamp: Time): System {
    var ready := Advanced(Answered(s, p, true, stamp), p, 1);
    var halted :=
      if !hasMachine then Advanced(ready, p, 1)
      else if course == NotSaved then Answered(ready, p, false, stamp)
      else Answered(Advanced(Answered(ready, p, true, stamp), p, 1), p, course == Through, stamp);
    Answered(halted, p, true, stamp)
  }

  /** The rest, if one is. */
  function StopGoesBack(s: System, p: TaskId, stamp: Time): System {
    Answered(Answered(s, p, false, stamp), p, true, stamp)
  }

  lemma StopStamps(s: System, p: TaskId, bot: BotId)
    requires p !in s.tasks
    ensures Advanced(Step(s, Begin(p, StopBegun(bot))), p, 2)
         == s.(tasks := s.tasks[p := StopStamped(bot, s.db.row.state, s.db.row.providerRef.Some?, s.clock)])
  {
    hide Advanced;
    var begun := Step(s, Begin(p, StopBegun(bot)));
    OneMore(begun, p, 0);
    OneMore(begun, p, 1);
  }

  lemma StopClaims(s: System, p: TaskId, bot: BotId, stamp: Time)
    requires p !in s.tasks && stamp <= s.clock
    ensures var origin := ByStop(bot, s.db.row.state, s.db.row.providerRef.Some?);
      StopTries(s, p, bot, stamp)
        == if Stoppable(s.db, bot, s.clock)
           then Write(s, s.db.(row := s.db.row.(state := Suspending, updatedAt := stamp)), stamp)
                .(tasks := s.tasks[p := Suspender(origin, Claimed, Claim(s.clock, s.db.leases, s.book.trail))])
           else s
  {
    hide Advanced, NoLeaseAfter;
    StopStamps(s, p, bot);
    var stamped := s.(tasks := s.tasks[p := StopStamped(bot, s.db.row.state, s.db.row.providerRef.Some?, s.clock)]);
    assert stamped.tasks - {p} == s.tasks;
  }

  lemma StopForgets(s: System, p: TaskId, stamp: Time)
    requires p in s.tasks && s.tasks[p].Suspender? && s.tasks[p].origin.ByStop? && s.tasks[p].stage.Claimed?
    requires stamp <= s.clock
    ensures var ready := Advanced(Answered(s, p, true, stamp), p, 1);
      && ready.db == s.db.(leases := s.db.leases - {s.tasks[p].origin.bot})
      && ready.tasks == s.tasks[p := s.tasks[p].(stage := Ready)]
      && ready.clock == s.clock && ready.touchLog == s.touchLog
  {
    hide Advanced;
    OneMore(Answered(s, p, true, stamp), p, 0);
    assert s.tasks[p := s.tasks[p].(stage := Admitted)][p := s.tasks[p].(stage := Ready)]
        == s.tasks[p := s.tasks[p].(stage := Ready)];
  }

  /** From the checkpoint to the last write. */
  lemma StopHalts(s: System, p: TaskId, course: Course, stamp: Time)
    requires p in s.tasks && s.tasks[p].Suspender? && s.tasks[p].origin.ByStop? && s.tasks[p].stage.Ready?
    requires stamp <= s.clock && s.db.row.state == Suspending
    ensures var hasMachine := s.tasks[p].origin.hasMachine;
      var halted :=
        if !hasMachine then Advanced(s, p, 1)
        else if course == NotSaved then Answered(s, p, false, stamp)
        else Answered(Advanced(Answered(s, p, true, stamp), p, 1), p, course == Through, stamp);
      && halted.clock == s.clock && halted.db.leases == s.db.leases
      && halted.tasks == s.tasks[p := s.tasks[p].(stage := if hasMachine && course != Through then Undoing(Error) else Halted)]
      && halted.db.row == if hasMachine && course != NotSaved
                          then s.db.row.(homeRevision := |s.touchLog|, updatedAt := stamp) else s.db.row
  {
    hide Advanced, Step;
    if !s.tasks[p].origin.hasMachine {
      OneMore(s, p, 0);
      StopWithoutMachine(s, p);
    } else {
      StopSaves(s, p, course != NotSaved, stamp);
      if course != NotSaved { StopReturns(Advanced(Answered(s, p, true, stamp), p, 1), p, course == Through, stamp); }
    }
  }

  lemma StopWithoutMachine(s: System, p: TaskId)
    requires p in s.tasks && s.tasks[p].Suspender? && s.tasks[p].origin.ByStop? && s.tasks[p].stage.Ready?
    requires !s.tasks[p].origin.hasMachine
    ensures Step(s, Advance(p)) == s.(tasks := s.tasks[p := s.tasks[p].(stage := Halted)])
  {
  }

  lemma StopSaves(s: System, p: TaskId, saves: bool, stamp: Time)
    requires p in s.tasks && s.tasks[p].Suspender? && s.tasks[p].origin.ByStop? && s.tasks[p].stage.Ready?
    requires s.tasks[p].origin.hasMachine && stamp <= s.clock
    ensures var t := if saves then Advanced(Answered(s, p, true, stamp), p, 1) else Answered(s, p, false, stamp);
      && t.clock == s.clock && t.db.leases == s.db.leases
      && t.tasks == s.tasks[p := s.tasks[p].(stage := if saves then Stopping else Undoing(Error))]
      && t.db.row == if saves then s.db.row.(homeRevision := |s.touchLog|, updatedAt := stamp) else s.db.row
  {
    hide Advanced, Stoppable, StillOurs;
    if saves {
      var saved := Answered(s, p, true, stamp);
      assert saved.tasks == s.tasks[p := s.tasks[p].(stage := Saved)];
      OneMore(saved, p, 0);
      assert saved.tasks[p := s.tasks[p].(stage := Stopping)] == s.tasks[p := s.tasks[p].(stage := Stopping)];
    }
  }

  lemma StopReturns(s: System, p: TaskId, stopped: bool, stamp: Time)
    requires p in s.tasks && s.tasks[p].Suspender? && s.tasks[p].origin.ByStop? && s.tasks[p].stage.Stopping?
    requires stamp <= s.clock
    ensures Answered(s, p, stopped, stamp)
         == s.(tasks := s.tasks[p := s.tasks[p].(stage := if stopped then Halted else Undoing(Error))])
  {
    hide Stoppable, StillOurs;
  }

  /** The last write goes through. */
  lemma StopRecords(s: System, p: TaskId, stamp: Time)
    requires p in s.tasks && s.tasks[p].Suspender? && s.tasks[p].origin.ByStop? && stamp <= s.clock
    requires s.tasks[p].stage.Halted? || s.tasks[p].stage.Undoing?
    requires s.db.row.state == Suspending
    ensures var t := Answered(s, p, true, stamp);
      && t.tasks == s.tasks - {p}
      && t.db == s.db.(row := s.db.row.(
           state := if s.tasks[p].stage.Halted? then Stopped else s.tasks[p].stage.to, updatedAt := stamp))
  {
  }

  /**
   * A stop request that nobody disturbs stops the machine, with a checkpoint of every touch, and ends
   * its own bot's lease, exactly if nobody is suspending it, no other bot has a live lease and no other
   * bot's run is active. If the checkpoint or sandbox.stop fails the row is in error, with the lease
   * ended all the same; if another bot's run is active the row is as before but for its stamp; and if
   * the claim fails nothing changes.
   */
  lemma StopAlone(s: System, p: TaskId, bot: BotId, course: Course, stamp: Time)
    requires p !in s.tasks && stamp <= s.clock
    ensures var tried := StopTries(s, p, bot, stamp);
      var hasMachine := s.db.row.providerRef.Some?;
      var done, back := StopGoesOn(tried, p, hasMachine, course, stamp), StopGoesBack(tried, p, stamp);
      if s.db.row.state != Suspending && forall b :: b in s.db.leases && b != bot ==> s.db.leases[b].expiresAt <= s.clock
      then
        && done.db.leases == s.db.leases - {bot} && done.tasks == s.tasks
        && done.db.row == s.db.row.(
             state := if hasMachine && course != Through then Error else Stopped, updatedAt := stamp,
             homeRevision := if hasMachine && course != NotSaved then |s.touchLog| else s.db.row.homeRevision)
        && back.db == s.db.(row := s.db.row.(updatedAt := stamp)) && back.tasks == s.tasks
      else tried == s
  {
    hide Advanced, Step;
    StopClaims(s, p, bot, stamp);
    var tried := StopTries(s, p, bot, stamp);
    if Stoppable(s.db, bot, s.clock) {
      hide StopTries, Answered;
      StopForgets(tried, p, stamp);
      var ready := Advanced(Answered(tried, p, true, stamp), p, 1);
      StopHalts(ready, p, course, stamp);
      StopTurns(tried, p, stamp);
      assert tried.tasks - {p} == s.tasks;
      var hasMachine := s.db.row.providerRef.Some?;
      var halted :=
        if !hasMachine then Advanced(ready, p, 1)
        else if course == NotSaved then Answered(ready, p, false, stamp)
        else Answered(Advanced(Answered(ready, p, true, stamp), p, 1), p, course == Through, stamp);
      StopRecords(halted, p, stamp);
      assert halted.tasks - {p} == s.tasks;
    }
  }

  lemma StopTurns(s: System, p: TaskId, stamp: Time)
    requires p in s.tasks && s.tasks[p].Suspender? && s.tasks[p].origin.ByStop? && s.tasks[p].stage.Claimed?
    requires s.db.row.state == Suspending && stamp <= s.clock
    ensures var back := StopGoesBack(s, p, stamp);
      && back.db == s.db.(row := s.db.row.(state := s.tasks[p].origin.before, updatedAt := stamp))
      && back.tasks == s.tasks - {p}
  {
    var turned := Answered(s, p, false, stamp);
    assert turned.tasks - {p} == s.tasks - {p};
  }

  /** A provision that nobody disturbs starts a computer that is stopped, suspended or in error, and no other. */
  lemma ProvisionAlone(s: System, p: TaskId, up: bool, stamp: Time)
    requires p !in s.tasks && stamp <= s.clock
    ensures var booting := Answered(Step(s, Begin(p, ProvisionBegun)), p, true, stamp);
      var t := Answered(booting, p, up, stamp);
      if s.db.row.state in {Stopped, Suspended, Error} then
        && booting.db == s.db.(row := s.db.row.(state := Booting, updatedAt := stamp))
        && t.db == s.db.(row := s.db.row.(state := if up then Running else Error, updatedAt := stamp))
        && t.tasks == s.tasks
      else booting == s && t == s
  {
    assert s.tasks[p := ProvisionBegun] - {p} == s.tasks;
    var booting := Answered(Step(s, Begin(p, ProvisionBegun)), p, true, stamp);
    if s.db.row.state in {Stopped, Suspended, Error} { assert booting.tasks - {p} == s.tasks; }
  }

  // ---------- the exception is real ----------

  /** A sleeper suspends the machine, and a stop request reads the row. */
  lemma StopReadsSuspending() returns (actions: seq<Action>)
    ensures var nap := Nap(9, 0, 0, 0);
      Run(Init(AWAKE, 0), actions) == Init(AWAKE, 0).(
        db := Db(AWAKE.(state := Suspending), map[]),
        tasks := map[1 := Suspender(BySleep(nap), Claimed, Claim(0, map[], map[])), 2 := StopLoaded(5, Suspending, true)])
  {
    hide Run, Step;
    NothingYet();
    actions := SleepSaves([]);
    actions := SleepSuspends(actions, Nap(9, 0, 0, 0));
    StopReads(Run(Init(AWAKE, 0), actions));
    actions := Then(actions, Begin(2, StopBegun(5)));
    actions := Then(actions, Advance(2));
  }

  lemma StopReads(s: System)
    requires 2 !in s.tasks
    ensures Step(Step(s, Begin(2, StopBegun(5))), Advance(2))
         == s.(tasks := s.tasks[2 := StopLoaded(5, s.db.row.state, s.db.row.providerRef.Some?)])
  {
  }

  /** The sleeper goes back to running. */
  lemma SleeperGoesBack() returns (actions: seq<Action>)
    ensures Run(Init(AWAKE, 0), actions)
         == Init(AWAKE, 0).(tasks := map[2 := StopLoaded(5, Suspending, true)])
  {
    hide Run;
    actions := StopReadsSuspending();
    actions := Then(actions, Branch(1, false, 0));
    actions := Then(actions, Branch(1, true, 0));
    assert Run(Init(AWAKE, 0), actions).tasks == map[2 := StopLoaded(5, Suspending, true)];
  }

  /**
   * With no crash and no failed write: a stop request reads `suspending`, the sleeper goes back to
   * running, the stop request claims the row, finds another bot's run active and goes back to what it
   * had read. The row stays in suspending for good, with nobody at work on it.
   */
  lemma StopPutsSuspendingBack() returns (actions: seq<Action>)
    ensures var s := Run(Init(AWAKE, 0), actions);
      s.abandoned == {PutBack} && s.db.row.state == Suspending && s.tasks == map[]
  {
    hide Run;
    actions := SleeperGoesBack();
    StopGoesBackTo(Run(Init(AWAKE, 0), actions), 2);
    hide Step;
    actions := Then(actions, Advance(2));
    actions := Then(actions, Branch(2, true, 0));
    actions := Then(actions, Branch(2, false, 0));
    actions := Then(actions, Branch(2, true, 0));
    assert map[2 := StopLoaded(5, Suspending, true)] - {2} == map[];
  }

  /** A stop request that had read `suspending` claims the row, finds a run active and goes back. */
  lemma StopGoesBackTo(s: System, p: TaskId)
    requires p in s.tasks && s.tasks[p] == StopLoaded(5, Suspending, true) && s.db.row.state == Running && s.db.leases == map[]
    ensures var stamped := Step(s, Advance(p));
      var t := Step(Step(Step(stamped, Branch(p, true, 0)), Branch(p, false, 0)), Branch(p, true, 0));
      t.abandoned == s.abandoned + {PutBack} && t.db.row.state == Suspending && t.tasks == s.tasks - {p}
  {
    ClaimsFreeRow(s, p);
    hide StillOurs, Stoppable, AdvanceTask;
    var claimed := Step(Step(s, Advance(p)), Branch(p, true, 0));
    var turned := Step(claimed, Branch(p, false, 0));
    assert turned.tasks == s.tasks[p := Suspender(ByStop(5, Suspending, true), Undoing(Suspending), claimed.tasks[p].claim)];
    assert turned.tasks - {p} == s.tasks - {p};
  }

  lemma ClaimsFreeRow(s: System, p: TaskId)
    requires p in s.tasks && s.tasks[p] == StopLoaded(5, Suspending, true) && s.db.row.state == Running && s.db.leases == map[]
    ensures var t := Step(Step(s, Advance(p)), Branch(p, true, 0));
      && t.db.row.state == Suspending && t.abandoned == s.abandoned && t.clock == s.clock
      && p in t.tasks && t.tasks[p].Suspender?
      && t.tasks == s.tasks[p := Suspender(ByStop(5, Suspending, true), Claimed, t.tasks[p].claim)]
  {
    hide StillOurs;
  }
}
