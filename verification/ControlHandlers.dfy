/**
 * What the handlers of computer control achieve: a lease that is cleared is cleared for good, and
 * what takeover, release and expiry do from their first step to their last.
 */
module ControlHandlers {
  import opened Basics
  import opened ComputerControl

  // ---------- in every run ----------

  /** Once a granted lease has left the row, it is never in it again. */
  lemma {:induction false} ClearedForGood(hasMachine: bool, clock: Time, actions: seq<Action>, more: seq<Action>, lease: LeaseId)
    requires var s := Run(Init(hasMachine, clock), actions); lease < s.granted && s.row.leaseId != Some(lease)
    ensures var t := Run(Init(hasMachine, clock), actions + more);
      lease < t.granted && t.row.leaseId != Some(lease)
    decreases |more|
  {
    hide Step, Invariant;
    if more == [] {
      assert actions + more == actions;
    } else {
      var rest, last := more[..|more| - 1], more[|more| - 1];
      assert actions + more == (actions + rest) + [last];
      assert (actions + more)[..|actions| + |rest|] == actions + rest;
      ClearedForGood(hasMachine, clock, actions, rest, lease);
      InvariantHolds(hasMachine, clock, actions + rest);
      OnwardStep(Run(Init(hasMachine, clock), actions + rest), last);
    }
  }

  /**
   * The last step of a takeover from another bot, of a release and of an expiry, whatever has come in
   * between: afterwards the row does not hold the lease, the provider has been told, and if the row
   * still held it, control is the bot's after a release and nobody's otherwise.
   */
  lemma LastStepClears(hasMachine: bool, clock: Time, actions: seq<Action>, p: TaskId)
    requires var s := Run(Init(hasMachine, clock), actions); p in s.tasks && AboutToClear(s.tasks[p])
    ensures var s := Run(Init(hasMachine, clock), actions);
      var t := Step(s, Advance(p));
      var lease := s.tasks[p].lease;
      && t.row.leaseId != Some(lease) && lease < t.granted && (s.hasMachine ==> lease in t.revoked)
      && t.row == if s.row.leaseId != Some(lease) then s.row
                  else Row(if s.tasks[p].ReleaseRevoked? then Bot else NoOne, None, None, None, None)
  {
    hide Run;
    InvariantHolds(hasMachine, clock, actions);
    var s := Run(Init(hasMachine, clock), actions);
    assert TaskOk(s, s.tasks[p]);
  }

  /**
   * What comes from outside the handlers: a wipe leaves no lease, whoever holds control after it, and
   * keeps account of the one it took; time runs forward only; a crash ends its handler and nothing else.
   */
  lemma FromOutside(s: System, to: Time, p: TaskId, holder: Holder)
    ensures var wiped := Step(s, Wipe(holder));
      && wiped.row == Row(holder, None, None, None, None) && wiped.tasks == s.tasks
      && wiped.wiped == (if s.row.leaseId.Some? then s.wiped + {s.row.leaseId.value} else s.wiped)
    ensures Step(s, Tick(to)) == s.(clock := if s.clock <= to then to else s.clock)
    ensures Step(s, Crash(p)) == s.(tasks := s.tasks - {p})
  {
  }

  // ---------- a handler on its own ----------

  function Advanced(s: System, p: TaskId, count: nat): System {
    if count == 0 then s else Step(Advanced(s, p, count - 1), Advance(p))
  }

  function Answered(s: System, p: TaskId, ok: bool, run: Option<RunId>): System {
    Step(s, Branch(p, ok, run))
  }

  lemma OneMore(s: System, p: TaskId, count: nat)
    ensures Advanced(s, p, 0) == s && Advanced(s, p, count + 1) == Step(Advanced(s, p, count), Advance(p))
  {
  }

  /** A user has control of the row until a time still to come. */
  predicate InControl(row: Row, now: Time) {
    row.holder == User && row.leaseId.Some? && row.expiresAt.Some? && now < row.expiresAt.value
  }

  /** A release: the provider is told, and the row is cleared; `told` says whether the provider's call succeeds. */
  function Released(s: System, p: TaskId, bot: BotId, told: bool): System {
    Advanced(Answered(Advanced(Step(s, Begin(p, ReleaseBegun(bot))), p, 1), p, told, None), p, 1)
  }

  /**
   * A release that nobody disturbs: exactly if the bot has the running lease and the provider, if
   * there is a machine, was told, control is handed to the bot, the lease is gone and counts as
   * revoked; otherwise nothing changes.
   */
  lemma ReleaseAlone(s: System, p: TaskId, bot: BotId, told: bool)
    requires p !in s.tasks
    ensures var t := Released(s, p, bot, told);
      if InControl(s.row, s.clock) && s.row.botId == Some(bot) && (told || !s.hasMachine)
      then t == s.(
        row := Row(Bot, None, None, None, None),
        revoked := if s.hasMachine then s.revoked + {s.row.leaseId.value} else s.revoked)
      else t == s
  {
    hide Advanced;
    var begun := Step(s, Begin(p, ReleaseBegun(bot)));
    assert begun.tasks - {p} == s.tasks;
    OneMore(begun, p, 0);
    var telling := Advanced(begun, p, 1);
    assert telling.tasks - {p} == s.tasks;
    var answered := Answered(telling, p, told, None);
    assert answered.tasks - {p} == s.tasks;
    OneMore(answered, p, 0);
  }

  /** The row holds a lease that is not running out later. */
  predicate RanOut(row: Row, now: Time) {
    row.leaseId.Some? && row.botId.Some? && (row.expiresAt.Some? ==> row.expiresAt.value <= now)
  }

  /** An expiry, as the scheduled job runs it; `told` says whether the provider's call succeeds. */
  function Expired(s: System, p: TaskId, lease: LeaseId, told: bool): System {
    Advanced(Answered(Advanced(Step(s, Begin(p, ExpireBegun(lease, None))), p, 3), p, told, None), p, 1)
  }

  lemma ExpiryLooks(s: System, p: TaskId, lease: LeaseId, next: Option<BotId>)
    requires p in s.tasks && s.tasks[p] == ExpireStamped(lease, s.clock, next)
    requires s.row.leaseId == Some(lease) && RanOut(s.row, s.clock)
    ensures Step(s, Advance(p))
         == s.(tasks := s.tasks[p := ExpireDenying(lease, s.row.botId.value, s.row.runId, next)])
  {
  }

  lemma ExpiryMarks(s: System, p: TaskId, lease: LeaseId, bot: BotId, run: Option<RunId>, next: Option<BotId>)
    requires p in s.tasks && s.tasks[p] == ExpireDenying(lease, bot, run, next) && s.row.leaseId == Some(lease)
    ensures Step(s, Advance(p))
         == s.(row := s.row.(holder := NoOne),
               tasks := s.tasks[p := if s.hasMachine then Expiring(lease, bot, run, next) else ExpireRevoked(lease, bot, run, next)])
  {
  }

  /** From the first look to the moment before the provider is told. */
  lemma ExpiryDenies(s: System, p: TaskId, lease: LeaseId, next: Option<BotId>)
    requires p in s.tasks && s.tasks[p] == ExpireBegun(lease, next)
    requires s.row.leaseId == Some(lease) && RanOut(s.row, s.clock)
    ensures Advanced(s, p, 3)
         == s.(row := s.row.(holder := NoOne),
               tasks := s.tasks[p := if s.hasMachine then Expiring(lease, s.row.botId.value, s.row.runId, next)
                                     else ExpireRevoked(lease, s.row.botId.value, s.row.runId, next)])
  {
    hide Advanced, AdvanceTask;
    OneMore(s, p, 0);
    OneMore(s, p, 1);
    OneMore(s, p, 2);
    ExpiryStamps(s, p, lease, next);
    ExpiryLooks(Advanced(s, p, 1), p, lease, next);
    ExpiryMarks(Advanced(s, p, 2), p, lease, s.row.botId.value, s.row.runId, next);
  }

  lemma ExpiryStamps(s: System, p: TaskId, lease: LeaseId, next: Option<BotId>)
    requires p in s.tasks && s.tasks[p] == ExpireBegun(lease, next)
    ensures Step(s, Advance(p)) == s.(tasks := s.tasks[p := ExpireStamped(lease, s.clock, next)])
  {
  }

  /** There is nothing to expire. */
  lemma ExpirySkips(s: System, p: TaskId, lease: LeaseId, next: Option<BotId>)
    requires p in s.tasks && s.tasks[p] == ExpireBegun(lease, next)
    requires s.row.leaseId != Some(lease) || !RanOut(s.row, s.clock)
    ensures Advanced(s, p, 2) == Resume(s, p, next)
  {
    hide Advanced, Active, Cleared, Finalized;
    OneMore(s, p, 0);
    OneMore(s, p, 1);
    var stamped := s.(tasks := s.tasks[p := ExpireStamped(lease, s.clock, next)]);
    assert Advanced(s, p, 1) == stamped;
    assert stamped.tasks - {p} == s.tasks - {p};
  }

  lemma ExpiryClears(s: System, p: TaskId, lease: LeaseId, bot: BotId, run: Option<RunId>, next: Option<BotId>, told: bool)
    requires p in s.tasks && Finalizable(s.row, lease, bot, run)
    requires s.tasks[p] == if s.hasMachine then Expiring(lease, bot, run, next) else ExpireRevoked(lease, bot, run, next)
    ensures var t := Advanced(Answered(s, p, told, None), p, 1);
      if told || !s.hasMachine
      then t == Resume(s.(row := Row(NoOne, None, None, None, None),
                          revoked := if s.hasMachine then s.revoked + {lease} else s.revoked), p, next)
      else t == s.(tasks := s.tasks - {p})
  {
    hide Advanced;
    var answered := Answered(s, p, told, None);
    OneMore(answered, p, 0);
    assert answered.tasks - {p} == s.tasks - {p};
    assert next.Some? ==> answered.tasks[p := TakeoverChecked(next.value)] == s.tasks[p := TakeoverChecked(next.value)];
  }

  lemma NothingLeft(s: System, p: TaskId)
    requires p !in s.tasks
    ensures Advanced(s, p, 1) == s && Advanced(s, p, 2) == s && Answered(s, p, true, None) == s && Answered(s, p, false, None) == s
  {
    OneMore(s, p, 0);
    OneMore(s, p, 1);
  }

  /**
   * An expiry that nobody disturbs: exactly if the row holds this lease and it has run out, the user's
   * input is denied, and then, if the provider could be told, control is nobody's and the lease is
   * gone and counts as revoked; if it could not, the lease id stays. Otherwise nothing changes.
   */
  lemma ExpireAlone(s: System, p: TaskId, lease: LeaseId, told: bool)
    requires p !in s.tasks
    ensures var t := Expired(s, p, lease, told);
      if s.row.leaseId != Some(lease) || !RanOut(s.row, s.clock) then t == s
      else if told || !s.hasMachine
      then t == s.(row := Row(NoOne, None, None, None, None),
                   revoked := if s.hasMachine then s.revoked + {lease} else s.revoked)
      else t == s.(row := s.row.(holder := NoOne))
  {
    hide Advanced;
    var begun := Step(s, Begin(p, ExpireBegun(lease, None)));
    assert begun.tasks - {p} == s.tasks;
    if s.row.leaseId == Some(lease) && RanOut(s.row, s.clock) {
      ExpiryDenies(begun, p, lease, None);
      var denied := Advanced(begun, p, 3);
      assert denied.tasks - {p} == s.tasks;
      ExpiryClears(denied, p, lease, s.row.botId.value, s.row.runId, None, told);
    } else {
      ExpirySkips(begun, p, lease, None);
      OneMore(begun, p, 2);
      NothingLeft(s, p);
      assert Step(s, Advance(p)) == s;
    }
  }

  /** Rounds of one advance and one good answer: every external call succeeds, and the bot is not running. */
  function Driven(s: System, p: TaskId, run: Option<RunId>, rounds: nat): System {
    if rounds == 0 then s else Answered(Advanced(Driven(s, p, run, rounds - 1), p, 1), p, true, run)
  }

  lemma OneRound(s: System, p: TaskId, run: Option<RunId>, rounds: nat)
    ensures Driven(s, p, run, 0) == s
    ensures Driven(s, p, run, rounds + 1) == Answered(Step(Driven(s, p, run, rounds), Advance(p)), p, true, run)
  {
    OneMore(Driven(s, p, run, rounds), p, 0);
  }

  lemma DrivenOn(s: System, p: TaskId, run: Option<RunId>, first: nat, more: nat)
    ensures Driven(Driven(s, p, run, first), p, run, more) == Driven(s, p, run, first + more)
  {
  }

  /** The rounds after the end change nothing. */
  lemma DrivenNothing(s: System, p: TaskId, run: Option<RunId>, rounds: nat)
    requires p !in s.tasks
    ensures Driven(s, p, run, rounds) == s
  {
    if rounds > 0 {
      DrivenNothing(s, p, run, rounds - 1);
      NothingLeft(s, p);
    }
  }

  /** The row with a user's lease of 15 minutes. */
  function GrantedTo(s: System, bot: BotId, run: Option<RunId>): System {
    s.(row := Row(User, Some(s.granted), Some(s.clock + 900_000), Some(bot), run), granted := s.granted + 1)
  }

  /** From the check that the bot is free to the end: at most two rounds. */
  lemma TakeoverGets(s: System, p: TaskId, bot: BotId, run: Option<RunId>, rounds: nat)
    requires p in s.tasks && s.tasks[p] == TakeoverChecked(bot) && rounds >= 2
    ensures Driven(s, p, run, rounds)
         == if s.row.holder != User && s.row.leaseId.None?
            then GrantedTo(s, bot, run).(tasks := s.tasks - {p}) else s.(tasks := s.tasks - {p})
  {
    hide Driven;
    OneRound(s, p, run, 0);
    OneRound(s, p, run, 1);
    assert Grantable(s.row) ==> Driven(s, p, run, 1).tasks - {p} == s.tasks - {p};
    DrivenOn(s, p, run, 2, rounds - 2);
    DrivenNothing(Driven(s, p, run, 2), p, run, rounds - 2);
  }

  lemma TakeoverPreempts(s: System, p: TaskId, bot: BotId, run: Option<RunId>)
    requires p in s.tasks && s.tasks[p] == TakeoverBegun(bot)
    requires s.hasMachine && Active(s.row, s.clock) && s.row.botId != Some(bot)
    ensures Driven(s, p, run, 2)
         == s.(row := Row(NoOne, None, None, None, None), revoked := s.revoked + {s.row.leaseId.value},
               tasks := s.tasks[p := TakeoverLook(bot)])
  {
    hide Driven;
    OneRound(s, p, run, 0);
    OneRound(s, p, run, 1);
    var lease := s.row.leaseId.value;
    assert Driven(s, p, run, 1) == s.(revoked := s.revoked + {lease}, tasks := s.tasks[p := Preempted(bot, lease)]) by {
      assert s.tasks[p := Preempting(bot, lease)][p := Preempted(bot, lease)] == s.tasks[p := Preempted(bot, lease)];
    }
  }

  /** The first look, if nobody is in control now. */
  lemma TakeoverLooks(s: System, p: TaskId, bot: BotId)
    requires p in s.tasks && s.hasMachine && !Active(s.row, s.clock)
    requires s.tasks[p] == TakeoverBegun(bot) || s.tasks[p] == TakeoverLook(bot)
    ensures Step(s, Advance(p)) == s.(tasks := s.tasks[p :=
      if s.row.leaseId.Some? then ExpireBegun(s.row.leaseId.value, Some(bot)) else TakeoverChecked(bot)])
  {
  }

  /** An advance that leads to where only an answer helps belongs to the round of that answer. */
  lemma DrivenFrom(s: System, t: System, p: TaskId, run: Option<RunId>, rounds: nat)
    requires t == Step(s, Advance(p)) && Step(t, Advance(p)) == t && rounds > 0
    ensures Driven(s, p, run, rounds) == Driven(t, p, run, rounds)
  {
    hide Step, Driven;
    OneRound(s, p, run, 0);
    OneRound(t, p, run, 0);
    DrivenOn(s, p, run, 1, rounds - 1);
    DrivenOn(t, p, run, 1, rounds - 1);
  }

  lemma StillToGrant(s: System, p: TaskId, bot: BotId)
    requires p in s.tasks && s.tasks[p] == TakeoverChecked(bot)
    ensures Step(s, Advance(p)) == s
  {
  }

  /** From a look at a row that is free, to the end. */
  lemma TakeoverOfFree(s: System, p: TaskId, bot: BotId, run: Option<RunId>, rounds: nat)
    requires p in s.tasks && s.hasMachine && s.row.leaseId.None? && rounds >= 2
    requires s.tasks[p] == TakeoverBegun(bot) || s.tasks[p] == TakeoverLook(bot)
    ensures Driven(s, p, run, rounds)
         == if s.row.holder != User then GrantedTo(s, bot, run).(tasks := s.tasks - {p}) else s.(tasks := s.tasks - {p})
  {
    hide Driven, Step;
    TakeoverLooks(s, p, bot);
    var looked := Step(s, Advance(p));
    StillToGrant(looked, p, bot);
    DrivenFrom(s, looked, p, run, rounds);
    TakeoverGets(looked, p, bot, run, rounds);
    assert looked.tasks - {p} == s.tasks - {p};
  }

  /** Where the expiry does not need an answer, answers change nothing. */
  lemma AnswersWait(s: System, p: TaskId, run: Option<RunId>, lease: LeaseId, bot: BotId)
    requires p in s.tasks && s.tasks[p] == ExpireBegun(lease, Some(bot))
    ensures Driven(s, p, run, 1) == Advanced(s, p, 1)
    ensures s.row.leaseId == Some(lease) && RanOut(s.row, s.clock) ==> Driven(s, p, run, 2) == Advanced(s, p, 2)
  {
    hide Driven, Advanced;
    OneRound(s, p, run, 0);
    OneRound(s, p, run, 1);
    OneMore(s, p, 0);
    OneMore(s, p, 1);
  }

  /** The lease in the row has run out: it is expired first, and then the row is free. */
  lemma TakeoverExpires(s: System, p: TaskId, bot: BotId, run: Option<RunId>, lease: LeaseId)
    requires p in s.tasks && s.tasks[p] == ExpireBegun(lease, Some(bot)) && s.hasMachine
    requires s.row.leaseId == Some(lease) && RanOut(s.row, s.clock)
    ensures Driven(s, p, run, 5)
         == GrantedTo(s, bot, run).(tasks := s.tasks - {p}, revoked := s.revoked + {lease})
  {
    hide Driven, Advanced, Step;
    AnswersWait(s, p, run, lease, bot);
    OneRound(s, p, run, 2);
    OneMore(s, p, 2);
    ExpiryDenies(s, p, lease, Some(bot));
    var denied := Advanced(s, p, 3);
    var told := Answered(denied, p, true, None);
    SameAnswer(denied, p, run);
    assert Driven(s, p, run, 3) == told;
    ExpiryClears(denied, p, lease, s.row.botId.value, s.row.runId, Some(bot), true);
    OneMore(told, p, 0);
    var checked := Step(told, Advance(p));
    StillToGrant(checked, p, bot);
    DrivenOn(s, p, run, 3, 2);
    DrivenFrom(told, checked, p, run, 2);
    TakeoverGets(checked, p, bot, run, 2);
    assert checked.tasks - {p} == s.tasks - {p};
  }

  lemma SameAnswer(s: System, p: TaskId, run: Option<RunId>)
    requires p in s.tasks && s.tasks[p].Expiring?
    ensures Answered(s, p, true, run) == Answered(s, p, true, None)
  {
  }

  /** The lease in the row has not run out, but gives nobody control: the takeover ends without one. */
  lemma TakeoverFails(s: System, p: TaskId, bot: BotId, run: Option<RunId>, lease: LeaseId)
    requires p in s.tasks && s.tasks[p] == ExpireBegun(lease, Some(bot))
    requires s.row.leaseId == Some(lease) && !RanOut(s.row, s.clock)
    ensures Driven(s, p, run, 5) == s.(tasks := s.tasks - {p})
  {
    hide Driven, Advanced, Step;
    AnswersWait(s, p, run, lease, bot);
    OneMore(s, p, 1);
    ExpirySkips(s, p, lease, Some(bot));
    var checked := Advanced(s, p, 2);
    StillToGrant(checked, p, bot);
    DrivenOn(s, p, run, 1, 4);
    DrivenFrom(Driven(s, p, run, 1), checked, p, run, 4);
    TakeoverGets(checked, p, bot, run, 4);
    assert checked.tasks - {p} == s.tasks - {p};
  }

  /** The takeover up to where its way parts. */
  lemma TakeoverStarts(s: System, p: TaskId, bot: BotId, run: Option<RunId>)
    requires p !in s.tasks
    ensures var begun := Step(s, Begin(p, TakeoverBegun(bot)));
      && begun == s.(tasks := s.tasks[p := TakeoverBegun(bot)])
      && (!s.hasMachine || (Active(s.row, s.clock) && s.row.botId == Some(bot)) ==> Driven(begun, p, run, 1) == s)
      && (s.hasMachine && !Active(s.row, s.clock) && s.row.leaseId.Some? ==>
           Driven(begun, p, run, 1) == s.(tasks := s.tasks[p := ExpireBegun(s.row.leaseId.value, Some(bot))]))
  {
    hide Driven;
    var begun := Step(s, Begin(p, TakeoverBegun(bot)));
    OneRound(begun, p, run, 0);
    assert begun.tasks - {p} == s.tasks;
  }

  /**
   * A takeover that nobody disturbs, when every external call succeeds and the bot is not running: a
   * lease of 15 minutes is granted exactly if there is a machine and the row has neither a user nor a
   * lease, or another bot's running lease, which is revoked first, or one that has run out, which is
   * revoked too. Otherwise, as when the bot has the running lease already, nothing changes.
   */
  lemma TakeoverAlone(s: System, p: TaskId, bot: BotId, run: Option<RunId>)
    requires p !in s.tasks
    ensures var t := Driven(Step(s, Begin(p, TakeoverBegun(bot))), p, run, 6);
      var active := InControl(s.row, s.clock);
      if !s.hasMachine || (active && s.row.botId == Some(bot)) then t == s
      else if s.row.leaseId.None? then t == if s.row.holder != User then GrantedTo(s, bot, run) else s
      else if active || RanOut(s.row, s.clock)
      then t == GrantedTo(s, bot, run).(revoked := s.revoked + {s.row.leaseId.value})
      else t == s
  {
    hide Driven, Step;
    TakeoverStarts(s, p, bot, run);
    var begun := Step(s, Begin(p, TakeoverBegun(bot)));
    assert begun.tasks - {p} == s.tasks;
    DrivenOn(begun, p, run, 1, 5);
    DrivenOn(begun, p, run, 2, 4);
    if !s.hasMachine || (Active(s.row, s.clock) && s.row.botId == Some(bot)) {
      DrivenNothing(s, p, run, 5);
    } else if s.row.leaseId.None? {
      TakeoverOfFree(begun, p, bot, run, 6);
    } else if Active(s.row, s.clock) {
      TakeoverPreempts(begun, p, bot, run);
      var looking := Driven(begun, p, run, 2);
      assert looking.tasks - {p} == s.tasks;
      TakeoverOfFree(looking, p, bot, run, 4);
    } else {
      var expiring := Driven(begun, p, run, 1);
      assert expiring.tasks - {p} == s.tasks;
      if RanOut(s.row, s.clock) {
        TakeoverExpires(expiring, p, bot, run, s.row.leaseId.value);
      } else {
        TakeoverFails(expiring, p, bot, run, s.row.leaseId.value);
      }
    }
  }

  /** A takeover of a free row that is refused, because the bot is running, changes nothing. */
  lemma TakeoverRefused(s: System, p: TaskId, bot: BotId)
    requires p !in s.tasks && s.hasMachine && s.row.leaseId.None?
    ensures Answered(Advanced(Step(s, Begin(p, TakeoverBegun(bot))), p, 1), p, false, None) == s
  {
    hide Advanced;
    var begun := Step(s, Begin(p, TakeoverBegun(bot)));
    OneMore(begun, p, 0);
    assert Advanced(begun, p, 1).tasks - {p} == s.tasks;
  }

  /** If the expiry of a new lease cannot be scheduled, the lease is cleared again, and control is nobody's. */
  lemma TakeoverUndone(s: System, p: TaskId, bot: BotId, run: Option<RunId>)
    requires p in s.tasks && s.tasks[p] == TakeoverChecked(bot) && s.row.holder != User && s.row.leaseId.None?
    ensures var granted := Answered(s, p, true, run);
      && granted.row == GrantedTo(s, bot, run).row
      && Advanced(Answered(granted, p, false, None), p, 1)
         == s.(row := Row(NoOne, None, None, None, None), granted := s.granted + 1,
               unscheduled := s.unscheduled + {s.granted}, tasks := s.tasks - {p})
  {
    hide Advanced;
    var granted := Answered(s, p, true, run);
    var failed := Answered(granted, p, false, None);
    OneMore(failed, p, 0);
    assert failed.tasks - {p} == s.tasks - {p};
  }
}
