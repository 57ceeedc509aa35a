/**
 * Preparing a box once and forgetting it again (packages/adapters/src/box-sandbox.ts). A
 * preparation is an asynchronous run of four steps; between any two of them other calls, and a
 * teardown that forgets the box, may come in.
 */
module BoxPreparation {
  import opened Basics

  /** What the provider remembers: prepared boxes, and the running preparation of each box. */
  datatype Memory = Memory(prepared: set<string>, preparations: map<string, nat>)

  predicate Holds(m: Memory, id: string, preparation: nat) {
    id in m.preparations && m.preparations[id] == preparation
  }

  predicate NeedsPreparation(m: Memory, id: string) {
    id !in m.prepared && id !in m.preparations
  }

  function Registered(m: Memory, id: string, preparation: nat): Memory {
    if NeedsPreparation(m, id) then m.(preparations := m.preparations[id := preparation]) else m
  }

  function Completed(m: Memory, id: string, preparation: nat): Memory {
    if Holds(m, id, preparation) then m.(prepared := m.prepared + {id}) else m
  }

  function Settled(m: Memory, id: string, preparation: nat): Memory {
    if Holds(m, id, preparation) then m.(preparations := m.preparations - {id}) else m
  }

  function Forgotten(m: Memory, id: string): Memory {
    Memory(m.prepared - {id}, m.preparations - {id})
  }

  /** The provider's two collections, changed by each stretch of code between two awaits. */
  class BoxProvider {
    var prepared: set<string>
    var preparations: map<string, nat>
    var nextPreparation: nat

    function View(): Memory
      reads this
    {
      Memory(prepared, preparations)
    }

    constructor ()
      ensures View() == Memory({}, map[])
    {
      prepared, preparations, nextPreparation := {}, map[], 0;
    }

    /** The call up to its first await: done already, joined to a running preparation, or started. */
    method Prepare(id: string) returns (preparation: Option<nat>, started: bool)
      modifies this
      ensures started == old(NeedsPreparation(View(), id))
      ensures View() == Registered(old(View()), id, old(nextPreparation))
      ensures nextPreparation == old(nextPreparation) + if started then 1 else 0
      ensures preparation.None? <==> id in old(prepared)
      ensures preparation.Some? ==> Holds(View(), id, preparation.value)
    {
      if id in prepared { return None, false; }
      if id in preparations { return Some(preparations[id]), false; }
      preparation, started := Some(nextPreparation), true;
      preparations := preparations[id := nextPreparation];
      nextPreparation := nextPreparation + 1;
    }

    /** The stretch after the last step: an invalidated preparation fails instead. */
    method Complete(id: string, preparation: nat) returns (ok: bool)
      modifies this
      ensures View() == Completed(old(View()), id, preparation) && nextPreparation == old(nextPreparation)
      ensures ok == Holds(old(View()), id, preparation)
    {
      if id !in preparations || preparations[id] != preparation { return false; }
      prepared := prepared + {id};
      ok := true;
    }

    /** The `finally` of a preparation, whichever way it ended. */
    method Settle(id: string, preparation: nat)
      modifies this
      ensures View() == Settled(old(View()), id, preparation) && nextPreparation == old(nextPreparation)
    {
      if id in preparations && preparations[id] == preparation {
        preparations := preparations - {id};
      }
    }

    method Forget(id: string)
      modifies this
      ensures View() == Forgotten(old(View()), id) && nextPreparation == old(nextPreparation)
    {
      prepared := prepared - {id};
      preparations := preparations - {id};
    }
  }

  // ---------- all interleavings ----------

  /** Make it run, stop its browsers, configure the workspace, open a browser. */
  const STEPS := 4

  datatype Outcome = Pending | Succeeded | Failed

  /** A preparation: the steps it has finished, and how many boxes had been forgotten at its start. */
  datatype Preparation =
    Preparation(id: string, stepsDone: nat, outcome: Outcome, settled: bool, startedAt: nat)

  /** `forgotten` logs the ids in the order in which they were forgotten. */
  datatype System = System(memory: Memory, runs: seq<Preparation>, forgotten: seq<string>)

  datatype Action =
    | Call(id: string)
    | Advance(run: nat, ok: bool)
    | Finish(run: nat)
    | Cleanup(run: nat)
    | Teardown(id: string)

  const INITIAL := System(Memory({}, map[]), [], [])

  function SetRun(s: System, i: nat, run: Preparation): System
    requires i < |s.runs|
  {
    s.(runs := s.runs[i := run])
  }

  /** An action whose moment has not come, or has passed, does nothing. */
  function Step(s: System, a: Action): System {
    match a
    case Call(id) =>
      if !NeedsPreparation(s.memory, id) then s
      else System(Registered(s.memory, id, |s.runs|),
                  s.runs + [Preparation(id, 0, Pending, false, |s.forgotten|)], s.forgotten)
    case Advance(i, ok) =>
      if i >= |s.runs| || s.runs[i].outcome != Pending || s.runs[i].stepsDone >= STEPS then s
      else if ok then SetRun(s, i, s.runs[i].(stepsDone := s.runs[i].stepsDone + 1))
      else SetRun(s, i, s.runs[i].(outcome := Failed))
    case Finish(i) =>
      if i >= |s.runs| || s.runs[i].outcome != Pending || s.runs[i].stepsDone != STEPS then s
      else
        var holds := Holds(s.memory, s.runs[i].id, i);
        SetRun(s.(memory := Completed(s.memory, s.runs[i].id, i)), i,
               s.runs[i].(outcome := if holds then Succeeded else Failed))
    case Cleanup(i) =>
      if i >= |s.runs| || s.runs[i].outcome == Pending || s.runs[i].settled then s
      else SetRun(s.(memory := Settled(s.memory, s.runs[i].id, i)), i, s.runs[i].(settled := true))
    case Teardown(id) =>
      s.(memory := Forgotten(s.memory, id), forgotten := s.forgotten + [id])
  }

  function Run(actions: seq<Action>): System {
    if actions == [] then INITIAL else Step(Run(actions[..|actions| - 1]), actions[|actions| - 1])
  }

  /** The box was not forgotten since the preparation began. */
  predicate Current(s: System, run: Preparation) {
    run.startedAt <= |s.forgotten| && run.id !in s.forgotten[run.startedAt..]
  }

  predicate Good(s: System, i: nat) {
    && i < |s.runs| && Current(s, s.runs[i])
    && s.runs[i].outcome == Succeeded && s.runs[i].stepsDone == STEPS
  }

  /** A box is prepared exactly when a preparation of it succeeded since it was last forgotten. */
  predicate PreparedIsEarned(s: System) {
    && (forall id :: id in s.memory.prepared ==> exists i :: 0 <= i < |s.runs| && s.runs[i].id == id && Good(s, i))
    && (forall i :: 0 <= i < |s.runs| && Good(s, i) ==> s.runs[i].id in s.memory.prepared)
  }

  /** A run is registered for its box exactly while it is unsettled and its box was not forgotten. */
  predicate Accounted(s: System, i: nat)
    requires i < |s.runs|
  {
    && s.runs[i].startedAt <= |s.forgotten|
    && (s.runs[i].outcome == Pending ==> !s.runs[i].settled)
    && s.runs[i].stepsDone <= STEPS && (s.runs[i].outcome == Succeeded ==> s.runs[i].stepsDone == STEPS)
    && (Holds(s.memory, s.runs[i].id, i) <==> !s.runs[i].settled && Current(s, s.runs[i]))
  }

  predicate Belongs(s: System, id: string)
    requires id in s.memory.preparations
  {
    s.memory.preparations[id] < |s.runs| && s.runs[s.memory.preparations[id]].id == id
  }

  predicate RegisteredIsCurrent(s: System) {
    && (forall i :: 0 <= i < |s.runs| ==> Accounted(s, i))
    && (forall id :: id in s.memory.preparations ==> Belongs(s, id))
  }

  predicate Inv(s: System) {
    PreparedIsEarned(s) && RegisteredIsCurrent(s)
  }

  lemma CurrentAfter(s: System, id: string, run: Preparation)
    requires run.startedAt <= |s.forgotten|
    ensures Current(Step(s, Teardown(id)), run) <==> Current(s, run) && run.id != id
  {
    assert (s.forgotten + [id])[run.startedAt..] == s.forgotten[run.startedAt..] + [id];
  }

  lemma AccountedStep(s: System, a: Action, i: nat)
    requires RegisteredIsCurrent(s) && i < |s.runs|
    ensures |s.runs| <= |Step(s, a).runs| && Accounted(Step(s, a), i)
  {
    assert Accounted(s, i);
    match a
    case Call(id) =>
    case Advance(j, ok) =>
    case Finish(j) =>
    case Cleanup(j) =>
      if j < |s.runs| { assert Accounted(s, j); }
    case Teardown(id) =>
      CurrentAfter(s, id, s.runs[i]);
  }

  lemma NewRunIsAccounted(s: System, id: string)
    requires RegisteredIsCurrent(s) && NeedsPreparation(s.memory, id)
    ensures Accounted(Step(s, Call(id)), |s.runs|)
  {
  }

  lemma BelongsStep(s: System, a: Action, id: string)
    requires RegisteredIsCurrent(s) && id in Step(s, a).memory.preparations
    ensures Belongs(Step(s, a), id)
  {
    if id in s.memory.preparations { assert Belongs(s, id); }
  }

  lemma RegisteredStep(s: System, a: Action)
    requires RegisteredIsCurrent(s)
    ensures RegisteredIsCurrent(Step(s, a))
  {
    var t := Step(s, a);
    forall i | 0 <= i < |t.runs| ensures Accounted(t, i) {
      if i < |s.runs| { AccountedStep(s, a, i); } else { NewRunIsAccounted(s, a.id); }
    }
    forall id | id in t.memory.preparations ensures Belongs(t, id) { BelongsStep(s, a, id); }
  }

  lemma GoodStep(s: System, a: Action, i: nat)
    requires Good(s, i) && (a.Teardown? ==> a.id != s.runs[i].id)
    ensures Good(Step(s, a), i) && Step(s, a).runs[i].id == s.runs[i].id
  {
    if a.Teardown? { CurrentAfter(s, a.id, s.runs[i]); }
  }

  lemma NewlyPrepared(s: System, a: Action, id: string)
    requires RegisteredIsCurrent(s) && id in Step(s, a).memory.prepared && id !in s.memory.prepared
    ensures a.Finish? && a.run < |s.runs| && Good(Step(s, a), a.run) && Step(s, a).runs[a.run].id == id
  {
    if a.Finish? && a.run < |s.runs| { assert Accounted(s, a.run); }
  }

  lemma EarnedStep(s: System, a: Action)
    requires Inv(s)
    ensures PreparedIsEarned(Step(s, a))
  {
    hide Good, RegisteredIsCurrent;
    var t := Step(s, a);
    forall id | id in t.memory.prepared
      ensures exists i :: 0 <= i < |t.runs| && t.runs[i].id == id && Good(t, i)
    {
      if id in s.memory.prepared {
        var i :| 0 <= i < |s.runs| && s.runs[i].id == id && Good(s, i);
        GoodStep(s, a, i);
      } else {
        NewlyPrepared(s, a, id);
      }
    }
    forall i | 0 <= i < |t.runs| && Good(t, i) ensures t.runs[i].id in t.memory.prepared { GoodIsPrepared(s, a, i); }
  }

  lemma GoodIsPrepared(s: System, a: Action, i: nat)
    requires Inv(s) && i < |Step(s, a).runs| && Good(Step(s, a), i)
    ensures Step(s, a).runs[i].id in Step(s, a).memory.prepared
  {
    if i < |s.runs| {
      assert Accounted(s, i);
      if a.Teardown? { CurrentAfter(s, a.id, s.runs[i]); }
      assert s.runs[i].outcome == Succeeded && Current(s, s.runs[i]) ==> Good(s, i);
    }
  }

  lemma {:induction false} InvariantHolds(actions: seq<Action>)
    ensures Inv(Run(actions))
  {
    if actions != [] {
      var before := actions[..|actions| - 1];
      InvariantHolds(before);
      hide Inv, Step;
      InvStep(Run(before), actions[|actions| - 1]);
    }
  }

  lemma InvStep(s: System, a: Action)
    requires Inv(s)
    ensures Inv(Step(s, a))
  {
    RegisteredStep(s, a);
    EarnedStep(s, a);
  }

  // ---------- results ----------

  /**
   * A box counts as prepared if and only if a preparation that began after its last teardown has
   * finished all its four steps and has succeeded.
   */
  lemma PreparedSinceTeardown(actions: seq<Action>, id: string)
    ensures var s := Run(actions);
      id in s.memory.prepared <==>
        exists i :: 0 <= i < |s.runs| && s.runs[i].id == id
          && s.runs[i].outcome == Succeeded && s.runs[i].stepsDone == 4
          && s.runs[i].startedAt <= |s.forgotten| && id !in s.forgotten[s.runs[i].startedAt..]
  {
    hide Run;
    InvariantHolds(actions);
    var s := Run(actions);
    if id in s.memory.prepared {
      var i :| 0 <= i < |s.runs| && s.runs[i].id == id && Good(s, i);
    }
    forall i | 0 <= i < |s.runs| && s.runs[i].id == id
          && s.runs[i].outcome == Succeeded && s.runs[i].stepsDone == 4
          && s.runs[i].startedAt <= |s.forgotten| && id !in s.forgotten[s.runs[i].startedAt..]
      ensures id in s.memory.prepared
    {
      assert Good(s, i);
    }
  }

  lemma RunSnoc(actions: seq<Action>, a: Action)
    ensures Run(actions + [a]) == Step(Run(actions), a)
  {
    hide Step;
    assert (actions + [a])[..|actions|] == actions;
  }

  /** What one action does to the mark of a box, and to preparations that have ended. */
  lemma MarkStep(s: System, a: Action, id: string)
    ensures var t := Step(s, a);
      && (a == Teardown(id) ==> NeedsPreparation(t.memory, id))
      && (a != Teardown(id) && id in s.memory.prepared ==> id in t.memory.prepared)
      && (a.Teardown? && a.id != id ==> (id in t.memory.prepared <==> id in s.memory.prepared)
                                        && (NeedsPreparation(t.memory, id) <==> NeedsPreparation(s.memory, id)))
      && |s.runs| <= |t.runs|
      && (forall i :: 0 <= i < |s.runs| ==> t.runs[i].id == s.runs[i].id)
      && (forall i :: 0 <= i < |s.runs| && s.runs[i].outcome != Pending ==>
           t.runs[i].outcome == s.runs[i].outcome && t.runs[i].stepsDone == s.runs[i].stepsDone)
  {
  }

  /** A prepared box stays prepared, and an ended preparation stays as it ended, until the box's next teardown. */
  lemma {:induction false} PreparedUntilTeardown(actions: seq<Action>, more: seq<Action>, id: string)
    ensures var s, t := Run(actions), Run(actions + more);
      && (id in s.memory.prepared && Teardown(id) !in more ==> id in t.memory.prepared)
      && (more != [] && more[|more| - 1] == Teardown(id) ==> NeedsPreparation(t.memory, id))
      && |s.runs| <= |t.runs|
      && forall i :: 0 <= i < |s.runs| && s.runs[i].outcome != Pending ==> t.runs[i].outcome == s.runs[i].outcome
    decreases |more|
  {
    hide Step, Run;
    if more == [] {
      assert actions + more == actions;
    } else {
      var rest, last := more[..|more| - 1], more[|more| - 1];
      assert actions + more == (actions + rest) + [last];
      PreparedUntilTeardown(actions, rest, id);
      RunSnoc(actions + rest, last);
      MarkStep(Run(actions + rest), last, id);
    }
  }

  /** A number of steps of one preparation that succeed. */
  function Worked(s: System, i: nat, count: nat): System {
    if count == 0 then s else Step(Worked(s, i, count - 1), Advance(i, true))
  }

  lemma {:induction false} WorkedIs(s: System, i: nat, count: nat)
    requires i < |s.runs| && s.runs[i].outcome == Pending && s.runs[i].stepsDone == 0 && count <= 4
    ensures Worked(s, i, count) == s.(runs := s.runs[i := s.runs[i].(stepsDone := count)])
  {
    if count > 0 { WorkedIs(s, i, count - 1); } else { assert s.runs[i := s.runs[i]] == s.runs; }
  }

  /**
   * A preparation that nobody disturbs: until it is settled no second one starts. If all its four
   * steps succeed, the box is prepared; if one fails, it is not, and can be prepared again.
   */
  lemma PrepareAlone(actions: seq<Action>, id: string, worked: nat)
    requires NeedsPreparation(Run(actions).memory, id) && worked <= 4
    ensures var s := Run(actions);
      var i := |s.runs|;
      var working := Worked(Step(s, Call(id)), i, worked);
      var ended := if worked == 4 then Step(working, Finish(i)) else Step(working, Advance(i, false));
      var t := Step(ended, Cleanup(i));
      && Step(working, Call(id)) == working && Step(ended, Call(id)) == ended
      && (worked < 4 ==> Step(working, Finish(i)) == working)
      && Step(working, Cleanup(i)) == working
      && t.memory == Memory(if worked == 4 then s.memory.prepared + {id} else s.memory.prepared, s.memory.preparations)
      && (id in t.memory.prepared <==> worked == 4) && (NeedsPreparation(t.memory, id) <==> worked < 4)
  {
    hide Run;
    var s := Run(actions);
    var i := |s.runs|;
    var called := Step(s, Call(id));
    WorkedIs(called, i, worked);
    hide Worked;
    assert called.memory.preparations - {id} == s.memory.preparations;
  }

  /**
   * A preparation that began before a teardown of its box marks nothing and removes nothing any
   * more, even while a newer preparation of the same box is running.
   */
  lemma OvertakenIsHarmless(actions: seq<Action>, i: nat)
    requires var s := Run(actions); i < |s.runs| && !Current(s, s.runs[i])
    ensures var s := Run(actions);
      Step(s, Finish(i)).memory == s.memory && Step(s, Cleanup(i)).memory == s.memory
  {
    hide Run;
    InvariantHolds(actions);
    assert Accounted(Run(actions), i);
  }

  /** Between two teardowns of a box at most one of its preparations is under way. */
  lemma OneAtATime(actions: seq<Action>, i: nat, j: nat)
    requires var s := Run(actions);
      && i < |s.runs| && j < |s.runs| && s.runs[i].id == s.runs[j].id
      && !s.runs[i].settled && !s.runs[j].settled
      && Current(s, s.runs[i]) && Current(s, s.runs[j])
    ensures i == j
  {
    hide Run;
    InvariantHolds(actions);
    var s := Run(actions);
    assert Accounted(s, i) && Accounted(s, j);
  }

  /** A preparation whose steps all succeeded marks its box exactly when nothing tore the box down. */
  lemma SucceedsUnlessOvertaken(actions: seq<Action>, i: nat)
    requires var s := Run(actions); i < |s.runs| && s.runs[i].outcome == Pending && s.runs[i].stepsDone == STEPS
    ensures var s := Run(actions);
      Step(s, Finish(i)).runs[i].outcome == (if Current(s, s.runs[i]) then Succeeded else Failed)
      && (Current(s, s.runs[i]) ==> s.runs[i].id in Step(s, Finish(i)).memory.prepared)
  {
    hide Run;
    InvariantHolds(actions);
    assert Accounted(Run(actions), i);
  }
}
