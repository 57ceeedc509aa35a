/**
 * External effects that must not happen twice: the claim, completion and settlement of one effect
 * row, raced by any number of workers and by the user's decision. The user decides in a transaction
 * that holds the thread and needs the run to wait for input; workers write the effect row without
 * looking at the run, so one that has lost its run's lease may still be among them.
 */
module Effects {
  import opened Basics

  type WorkerId = nat
  type Result = nat

  datatype Status = Intended | Approved | Denied | Executing | Completed | Uncertain

  datatype Row = Row(status: Status, result: Option<Reply>)

  /** A stored or returned tool result. */
  datatype Reply =
    | Of(value: Result)
    | Duplicate            // { duplicate: true }, for a completed effect that stored nothing
    | UserDenied
    | Unknown(tool: string)

  datatype Gate = Execute | Return(reply: Reply) | Paused | Unclear(tool: string)

  /** resolveDuplicateEffectGate */
  function Resolve(row: Row, tool: string): Gate {
    match row.status
    case Completed => Return(if row.result.Some? then row.result.value else Duplicate)
    case Denied => Return(UserDenied)
    case Executing => Unclear(tool)
    case Uncertain => Return(if row.result.Some? then row.result.value else Unknown(tool))
    case Approved => Execute
    case Intended => Paused
  }

  // ---------- the conditional updates ----------

  function Claimed(row: Row, from: Status): Row {
    if row.status == from then row.(status := Executing) else row
  }

  function Finished(row: Row, expected: Status, result: Option<Reply>): Row {
    if row.status == expected then Row(Completed, result) else row
  }

  function SettledRow(row: Row, tool: string): Row {
    if row.status == Executing then Row(Uncertain, Some(Unknown(tool))) else row
  }

  /** The result that a completed row gives its readers. */
  function Told(result: Option<Reply>): Reply {
    match result case Some(reply) => reply case None => Duplicate
  }

  /** One effect row, in place; each method is one database call. */
  class EffectStore {
    var row: Row

    constructor ()
      ensures row == Row(Intended, None)
    {
      row := Row(Intended, None);
    }

    /** claimApprovedEffect and claimIntendedEffect */
    method Claim(from: Status) returns (claimed: bool)
      modifies this
      ensures claimed <==> old(row).status == from
      ensures row == Claimed(old(row), from)
      ensures row == if claimed then Row(Executing, old(row).result) else old(row)
    {
      claimed := row.status == from;
      if claimed { row := row.(status := Executing); }
    }

    /** completeExternalEffect */
    method Complete(expected: Status, result: Option<Reply>) returns (completed: bool)
      modifies this
      ensures completed <==> old(row).status == expected
      ensures row == Finished(old(row), expected, result)
      ensures row == if completed then Row(Completed, result) else old(row)
    {
      completed := row.status == expected;
      if completed { row := Row(Completed, result); }
    }

    /** The update of settleUncertainEffect. */
    method Settle(tool: string) returns (settled: bool)
      modifies this
      ensures settled <==> old(row).status == Executing
      ensures row == SettledRow(old(row), tool)
      ensures row == if settled then Row(Uncertain, Some(Unknown(tool))) else old(row)
    {
      settled := row.status == Executing;
      if settled { row := Row(Uncertain, Some(Unknown(tool))); }
    }
  }

  // ---------- interleavings ----------

  datatype RunState = Working | WaitingInput | Queued | Ended

  /** What a worker or a user is about to do, between two database calls. */
  datatype Task =
    | Claiming(from: Status)                 // Approved or Intended
    | Checking                               // lost the claim; about to read the row again
    | Performing                             // has claimed; the effect itself is under way
    | Reporting(result: Option<Reply>)       // has performed; about to complete from executing
    | Doing                                  // recorded the effect and goes on without a claim
    | Direct(result: Option<Reply>)          // has performed unclaimed; about to complete from intended
    | Settling(tool: string)                 // saw executing
    | Rereading(tool: string)                // lost the settlement
    | Deciding(approve: bool)                // read waiting and intended; about to write the decision

  /** What has happened so far; no step reads it. */
  datatype Past = Past(
    claims: nat,                       // claims that succeeded
    claimedRuns: nat,                  // performances of the effect by workers that had claimed it
    unclaimedRuns: nat,                // performances by the worker that recorded it
    unasked: bool,                     // some worker has gone on without asking for approval
    approvals: nat,                    // approvals by the user that were written
    denials: nat,                      // denials by the user that were written
    staleDecisions: nat,               // decisions written over a row no longer intended
    staleApprovals: nat,               // of those, the approvals of an effect that had been claimed
    slipped: bool,                     // a worker moved the row since the last decision was opened
    slips: nat,                        // how often that happened while the run was waiting
    winners: nat,                      // completions from executing and settlements that won
    won: Option<Reply>,                // the result of the write that ended the effect
    answers: seq<Reply>,               // what readers, settlers and claimed completers that lost were told
    turnedAway: seq<Reply>)            // what an unclaimed completer that lost was told

  datatype System = System(
    row: Row,
    run: RunState,
    tasks: map<WorkerId, Task>,
    tool: string,                      // the effect's tool; part of its key
    recorder: bool,                    // the worker that recorded the effect has not gone on
    past: Past)

  function Init(tool: string): System {
    System(Row(Intended, None), Working, map[], tool, true, Past(0, 0, 0, false, 0, 0, 0, 0, false, 0, 0, None, [], []))
  }

  /** What a worker's rules say about an effect that it has just recorded. */
  datatype Way = Ask | Bypass | GoOn     // ask the user first; claim it; perform it without a claim

  datatype Action =
    | Record(w: WorkerId, way: Way)
    | Crash(w: WorkerId)
    | Advance(w: WorkerId)
    | Perform(w: WorkerId, result: Option<Reply>)
    | Open(w: WorkerId, approve: bool)     // the user's answer: the run waits and the effect is intended
    | Notice(w: WorkerId, asks: bool)      // a worker finds the effect recorded; its rules say whether to ask
    | Lease                                // a worker takes the run
    | Pause                                // the run asks for input
    | EndRun

  /** The decision's transaction holds the thread, so only one is open and no run is paused meanwhile. */
  predicate DecisionOpen(s: System) {
    exists w :: w in s.tasks && s.tasks[w].Deciding?
  }

  function Step(s: System, a: Action): System {
    match a
    case Record(w, way) =>
      if w in s.tasks || !s.recorder then s
      else (match way
        case Ask => s.(recorder := false)
        case Bypass => At(Unasked(s.(recorder := false)), w, Claiming(Intended))
        case GoOn => At(Unasked(s.(recorder := false)), w, Doing))
    case Crash(w) => End(s, w)
    case Open(w, approve) =>
      if w !in s.tasks && s.run == WaitingInput && s.row.status == Intended && !DecisionOpen(s)
      then At(s.(past := s.past.(slipped := false)), w, Deciding(approve))
      else s
    case Notice(w, asks) => if w in s.tasks then s else Look(s, w, asks)
    case Perform(w, result) =>
      if w in s.tasks && s.tasks[w].Performing?
      then At(s.(past := s.past.(claimedRuns := s.past.claimedRuns + 1)), w, Reporting(result))
      else if w in s.tasks && s.tasks[w].Doing?
      then At(s.(past := s.past.(unclaimedRuns := s.past.unclaimedRuns + 1)), w, Direct(result))
      else s
    case Advance(w) => if w in s.tasks then AdvanceTask(s, w, s.tasks[w]) else s
    case Lease => if s.run in {Queued, WaitingInput} then s.(run := Working) else s
    case Pause => if s.run == Working && !DecisionOpen(s) then s.(run := WaitingInput) else s
    case EndRun => s.(run := Ended)
  }

  function At(s: System, w: WorkerId, task: Task): System {
    s.(tasks := s.tasks[w := task])
  }

  function End(s: System, w: WorkerId): System {
    s.(tasks := s.tasks - {w})
  }

  function Unasked(s: System): System {
    s.(past := s.past.(unasked := true))
  }

  /** A worker's write moves the row; from intended, it overtakes a decision that is open. */
  function Write(s: System, row: Row): System {
    if s.row.status == Intended && row.status != Intended && DecisionOpen(s) && s.run == WaitingInput
    then s.(row := row, past := s.past.(slipped := true, slips := s.past.slips + 1))
    else s.(row := row)
  }

  /** Somebody is told a result. */
  function Tell(s: System, reply: Reply): System {
    s.(past := s.past.(answers := s.past.answers + [reply]))
  }

  /** A write from executing or intended ends the effect. */
  function Win(s: System, result: Reply, counts: nat): System {
    s.(past := s.past.(won := Some(result), winners := s.past.winners + counts))
  }

  /** What the gate tells a worker that finds the effect recorded; one that has to ask pauses the run. */
  function Look(s: System, w: WorkerId, asks: bool): System {
    match Resolve(s.row, s.tool)
    case Execute => At(s, w, Claiming(Approved))
    case Return(reply) => Tell(s, reply)
    case Paused => if asks then s else At(Unasked(s), w, Claiming(Intended))
    case Unclear(tool) => At(s, w, Settling(tool))
  }

  /** What the gate tells a worker that lost its claim: a result, to settle, or nothing to go by. */
  function Read(s: System, w: WorkerId): System {
    match Resolve(s.row, s.tool)
    case Return(reply) => End(Tell(s, reply), w)
    case Unclear(tool) => At(s, w, Settling(tool))
    case _ => End(s, w)
  }

  function AdvanceTask(s: System, w: WorkerId, task: Task): System {
    match task
    case Claiming(from) => if s.row.status == from then Claim(s, w, from) else At(s, w, Checking)
    case Checking => Read(s, w)
    case Performing => s
    case Doing => s
    case Reporting(result) =>
      if s.row.status == Executing
      then End(Win(Write(s, Finished(s.row, Executing, result)), Told(result), 1), w)
      else End(Tell(s, Unknown(s.tool)), w)
    case Direct(result) =>
      if s.row.status == Intended
      then End(Win(Write(s, Finished(s.row, Intended, result)), Told(result), 0), w)
      else End(s.(past := s.past.(turnedAway := s.past.turnedAway + [Unknown(s.tool)])), w)
    case Settling(tool) =>
      if s.row.status == Executing
      then End(Tell(Win(Write(s, SettledRow(s.row, tool)), Unknown(tool), 1), Unknown(tool)), w)
      else At(s, w, Rereading(tool))
    case Rereading(tool) =>
      var gate := Resolve(s.row, tool);
      End(Tell(s, if gate.Return? then gate.reply else Unknown(tool)), w)
    case Deciding(approve) => Decide(s, w, approve)
  }

  function Claim(s: System, w: WorkerId, from: Status): System {
    var t := Write(s, Claimed(s.row, from));
    At(t.(past := t.past.(claims := t.past.claims + 1)), w, Performing)
  }

  /** The transaction's writes: the run's only if it still waits, and then the row's by its id alone. */
  function Decide(s: System, w: WorkerId, approve: bool): System {
    if s.run != WaitingInput then End(s, w)
    else
      var stale := s.row.status != Intended;
      End(s.(row := s.row.(status := if approve then Approved else Denied), run := Queued,
             past := s.past.(
               approvals := s.past.approvals + if approve then 1 else 0,
               denials := s.past.denials + if approve then 0 else 1,
               staleDecisions := s.past.staleDecisions + if stale then 1 else 0,
               staleApprovals := s.past.staleApprovals + if stale && approve && s.past.claims > 0 then 1 else 0)), w)
  }

  function Run(s: System, actions: seq<Action>): System {
    if actions == [] then s else Step(Run(s, actions[..|actions| - 1]), actions[|actions| - 1])
  }

  // ---------- one advance ----------

  function Placed(tasks: map<WorkerId, Task>, w: WorkerId, next: Option<Task>): map<WorkerId, Task> {
    if next.None? then tasks - {w} else tasks[w := next.value]
  }

  /** What an advance leaves alone, and how the worker goes on. */
  lemma AdvanceShape(s: System, w: WorkerId) returns (next: Option<Task>)
    requires w in s.tasks
    ensures var t := AdvanceTask(s, w, s.tasks[w]);
      && t.tasks == Placed(s.tasks, w, next) && t.tool == s.tool && t.recorder == s.recorder
      && t.past.claimedRuns == s.past.claimedRuns && t.past.unclaimedRuns == s.past.unclaimedRuns
      && (t.past.turnedAway == s.past.turnedAway || t.past.turnedAway == s.past.turnedAway + [Unknown(s.tool)])
      && t.past.claims == s.past.claims + if next == Some(Performing) && s.tasks[w].Claiming? then 1 else 0
    ensures next.Some? && next != Some(s.tasks[w]) ==>
      match next.value
      case Performing => s.tasks[w].Claiming? && s.tasks[w].from == s.row.status
      case Checking => s.tasks[w].Claiming?
      case Settling(tool) => s.tasks[w].Checking? && tool == s.tool && s.row.status == Executing
      case Rereading(tool) => s.tasks[w] == Settling(tool) && s.row.status != Executing
      case _ => false
  {
    hide DecisionOpen, Told, Claimed, Finished, SettledRow;
    match s.tasks[w]
    case Claiming(from) => next := Some(if s.row.status == from then Performing else Checking);
    case Checking => next := if s.row.status == Executing then Some(Settling(s.tool)) else None;
    case Performing => next := Some(Performing); SameTasks(s.tasks, w);
    case Doing => next := Some(Doing); SameTasks(s.tasks, w);
    case Settling(tool) => next := if s.row.status == Executing then None else Some(Rereading(tool));
    case _ => next := None;
  }

  lemma SameTasks(tasks: map<WorkerId, Task>, w: WorkerId)
    requires w in tasks
    ensures tasks[w := tasks[w]] == tasks
  {
  }

  // ---------- decisions ----------

  /** One decision is open at a time, and while the run waits it is stale exactly when it was overtaken. */
  ghost predicate Guarded(s: System) {
    && (forall v, w :: v in s.tasks && w in s.tasks && s.tasks[v].Deciding? && s.tasks[w].Deciding? ==> v == w)
    && (DecisionOpen(s) && s.run == WaitingInput ==> (s.past.slipped <==> s.row.status != Intended))
    && s.past.staleDecisions <= s.past.slips <= 1
    && (s.past.slips > 0 ==> s.row.status != Intended)
    && (DecisionOpen(s) && s.run == WaitingInput && s.past.slipped ==> s.past.slips == 1 && s.past.staleDecisions == 0)
  }

  lemma GuardedStep(s: System, a: Action)
    requires Guarded(s)
    ensures Guarded(Step(s, a))
  {
    if a.Advance? && a.w in s.tasks {
      hide *;
      GuardedAdvance(s, a.w);
    } else {
      GuardedQuiet(s, a);
    }
  }

  lemma GuardedQuiet(s: System, a: Action)
    requires Guarded(s) && !(a.Advance? && a.w in s.tasks)
    ensures Guarded(Step(s, a))
  {
    hide AdvanceTask, Resolve, Look;
    if a.Notice? {
      if a.w !in s.tasks { GuardedLook(s, a.w, a.asks); }
    } else if !a.Open? {
      var t := Step(s, a);
      assert forall w :: w in t.tasks && t.tasks[w].Deciding? ==> w in s.tasks && s.tasks[w].Deciding?;
      assert DecisionOpen(t) ==> DecisionOpen(s);
      assert t.past.slipped == s.past.slipped && t.row == s.row;
    }
  }

  lemma GuardedLook(s: System, w: WorkerId, asks: bool)
    requires Guarded(s) && w !in s.tasks
    ensures Guarded(Look(s, w, asks))
  {
    hide Resolve;
    var t := Look(s, w, asks);
    assert forall v :: v in t.tasks && t.tasks[v].Deciding? ==> v in s.tasks && s.tasks[v].Deciding?;
    assert DecisionOpen(t) ==> DecisionOpen(s);
  }

  lemma GuardedAdvance(s: System, w: WorkerId)
    requires Guarded(s) && w in s.tasks
    ensures Guarded(AdvanceTask(s, w, s.tasks[w]))
  {
    if s.tasks[w].Deciding? {
      hide Resolve;
      GuardedDecide(s, w, s.tasks[w].approve);
    } else {
      SameDecisions(s, w);
      GuardedRow(s, w);
      hide DecisionOpen, AdvanceTask;
    }
  }

  /** Whatever moves the row from intended overtakes a decision that is open for a waiting run. */
  lemma GuardedRow(s: System, w: WorkerId)
    requires w in s.tasks && !s.tasks[w].Deciding?
    ensures var t := AdvanceTask(s, w, s.tasks[w]);
      var slips := s.row.status == Intended && t.row.status != Intended && DecisionOpen(s) && s.run == WaitingInput;
      && t.run == s.run && t.past.staleDecisions == s.past.staleDecisions
      && (s.row.status != Intended ==> t.row.status != Intended)
      && t.past.slipped == (slips || s.past.slipped)
      && t.past.slips == s.past.slips + if slips then 1 else 0
  {
    hide DecisionOpen, Resolve, Told, Decide;
  }

  lemma SameDecisions(s: System, w: WorkerId)
    requires w in s.tasks && !s.tasks[w].Deciding?
    ensures var t := AdvanceTask(s, w, s.tasks[w]);
      && (forall v :: v in t.tasks && t.tasks[v].Deciding? ==> v in s.tasks && s.tasks[v].Deciding?)
      && (DecisionOpen(t) <==> DecisionOpen(s))
  {
    hide AdvanceTask;
    var next := AdvanceShape(s, w);
    var t := AdvanceTask(s, w, s.tasks[w]);
    if DecisionOpen(s) {
      var v :| v in s.tasks && s.tasks[v].Deciding?;
      assert v in t.tasks && t.tasks[v].Deciding?;
    }
  }

  lemma GuardedDecide(s: System, w: WorkerId, approve: bool)
    requires Guarded(s) && w in s.tasks && s.tasks[w] == Deciding(approve)
    ensures Guarded(Decide(s, w, approve))
  {
    assert DecisionOpen(s);
    assert !DecisionOpen(Decide(s, w, approve));
  }

  // ---------- claims ----------

  ghost predicate ClaimsFromOpenStates(s: System) {
    forall w :: w in s.tasks && s.tasks[w].Claiming? ==> s.tasks[w].from in {Intended, Approved}
  }

  /** No more claims than approvals beyond the first chance allow. */
  ghost predicate Bounded(s: System) {
    && ClaimsFromOpenStates(s)
    && s.past.staleApprovals <= s.past.staleDecisions
    && s.past.claims + (if s.row.status == Intended || s.row.status == Approved then 1 else 0) <= 1 + s.past.staleApprovals
  }

  lemma BoundedStep(s: System, a: Action)
    requires Bounded(s)
    ensures Bounded(Step(s, a)) && s.past.staleDecisions <= Step(s, a).past.staleDecisions
  {
    hide DecisionOpen, Resolve, AdvanceTask, Bounded;
    if a.Advance? && a.w in s.tasks {
      BoundedAdvance(s, a.w);
    } else {
      BoundedQuiet(s, a);
    }
  }

  lemma BoundedQuiet(s: System, a: Action)
    requires Bounded(s) && !(a.Advance? && a.w in s.tasks)
    ensures Bounded(Step(s, a)) && s.past.staleDecisions <= Step(s, a).past.staleDecisions
  {
    hide DecisionOpen, AdvanceTask;
  }

  lemma BoundedAdvance(s: System, w: WorkerId)
    requires Bounded(s) && w in s.tasks
    ensures var t := AdvanceTask(s, w, s.tasks[w]); Bounded(t) && s.past.staleDecisions <= t.past.staleDecisions
  {
    BoundedCounts(s, w);
    hide AdvanceTask;
    var next := AdvanceShape(s, w);
  }

  lemma BoundedCounts(s: System, w: WorkerId)
    requires Bounded(s) && w in s.tasks
    ensures var t := AdvanceTask(s, w, s.tasks[w]);
      && s.past.staleDecisions <= t.past.staleDecisions && t.past.staleApprovals <= t.past.staleDecisions
      && t.past.claims + (if t.row.status == Intended || t.row.status == Approved then 1 else 0)
         <= 1 + t.past.staleApprovals
  {
    hide DecisionOpen, Told, Resolve;
    match s.tasks[w]
    case Deciding(approve) =>
    case Claiming(from) => hide Decide, Read;
    case _ => hide Decide, Claim;
  }

  // ---------- performances ----------

  ghost function Claimers(tasks: map<WorkerId, Task>): set<WorkerId> {
    set w | w in tasks && tasks[w].Performing?
  }

  ghost function Doers(tasks: map<WorkerId, Task>): set<WorkerId> {
    set w | w in tasks && tasks[w].Doing?
  }

  /** A claim is performed once at most, and so is the effect by the worker that recorded it. */
  ghost predicate Counted(s: System) {
    && |Claimers(s.tasks)| + s.past.claimedRuns <= s.past.claims
    && |Doers(s.tasks)| + s.past.unclaimedRuns + (if s.recorder then 1 else 0) <= 1
    && (forall i :: 0 <= i < |s.past.turnedAway| ==> s.past.turnedAway[i] == Unknown(s.tool))
  }

  lemma TaskSet(tasks: map<WorkerId, Task>, w: WorkerId, task: Task)
    ensures Claimers(tasks[w := task]) == if task.Performing? then Claimers(tasks) + {w} else Claimers(tasks) - {w}
    ensures Doers(tasks[w := task]) == if task.Doing? then Doers(tasks) + {w} else Doers(tasks) - {w}
    ensures Claimers(tasks - {w}) == Claimers(tasks) - {w} && Doers(tasks - {w}) == Doers(tasks) - {w}
  {
  }

  lemma CountedStep(s: System, a: Action)
    requires Counted(s)
    ensures Counted(Step(s, a)) && Step(s, a).tool == s.tool
  {
    hide DecisionOpen, Resolve, Claimers, Doers, AdvanceTask, Counted, Read, Look;
    match a
    case Record(w, way) => CountedRecord(s, w, way);
    case Crash(w) => CountedPlaced(s, w, None);
    case Perform(w, result) => CountedPerform(s, w, result);
    case Open(w, approve) =>
      var t := s.(past := s.past.(slipped := false));
      CountedSame(s, t);
      CountedPlaced(t, w, Some(Deciding(approve)));
    case Notice(w, asks) => if w !in s.tasks { CountedLook(s, w, asks); }
    case Advance(w) => if w in s.tasks { CountedAdvance(s, w); }
    case _ => CountedSame(s, Step(s, a));
  }

  lemma CountedSame(s: System, t: System)
    requires Counted(s) && t.tasks == s.tasks && t.tool == s.tool && t.recorder == s.recorder
    requires t.past.claims == s.past.claims && t.past.claimedRuns == s.past.claimedRuns
    requires t.past.unclaimedRuns == s.past.unclaimedRuns && t.past.turnedAway == s.past.turnedAway
    ensures Counted(t)
  {
  }

  /** Taking a worker's task away, or giving it one that performs nothing. */
  lemma CountedPlaced(s: System, w: WorkerId, next: Option<Task>)
    requires Counted(s) && (next.Some? ==> !next.value.Performing? && !next.value.Doing?)
    ensures Counted(s.(tasks := Placed(s.tasks, w, next)))
  {
    hide Claimers, Doers;
    TaskSet(s.tasks, w, if next.Some? then next.value else Checking);
  }

  lemma CountedRecord(s: System, w: WorkerId, way: Way)
    requires Counted(s)
    ensures Counted(Step(s, Record(w, way)))
  {
    hide Claimers, Doers;
    TaskSet(s.tasks, w, if way.GoOn? then Doing else Claiming(Intended));
  }

  lemma CountedLook(s: System, w: WorkerId, asks: bool)
    requires Counted(s)
    ensures Counted(Look(s, w, asks)) && Look(s, w, asks).tool == s.tool
  {
    hide Claimers, Doers, Resolve;
    var gate := Resolve(s.row, s.tool);
    TaskSet(s.tasks, w, if gate.Unclear? then Settling(gate.tool) else if gate.Execute? then Claiming(Approved) else Claiming(Intended));
  }

  lemma CountedPerform(s: System, w: WorkerId, result: Option<Reply>)
    requires Counted(s)
    ensures Counted(Step(s, Perform(w, result)))
  {
    hide Claimers, Doers;
    TaskSet(s.tasks, w, Reporting(result));
    TaskSet(s.tasks, w, Direct(result));
    if w in s.tasks { KindOf(s.tasks, w); }
  }

  lemma KindOf(tasks: map<WorkerId, Task>, w: WorkerId)
    requires w in tasks
    ensures (w in Claimers(tasks) <==> tasks[w].Performing?) && (w in Doers(tasks) <==> tasks[w].Doing?)
  {
  }

  lemma CountedRead(s: System, w: WorkerId)
    requires Counted(s)
    ensures Counted(Read(s, w)) && Read(s, w).tool == s.tool
  {
    hide Claimers, Doers, Resolve;
    var gate := Resolve(s.row, s.tool);
    TaskSet(s.tasks, w, if gate.Unclear? then Settling(gate.tool) else Checking);
  }

  lemma CountedAdvance(s: System, w: WorkerId)
    requires Counted(s) && w in s.tasks
    ensures Counted(AdvanceTask(s, w, s.tasks[w])) && AdvanceTask(s, w, s.tasks[w]).tool == s.tool
  {
    hide Claimers, Doers, AdvanceTask;
    var next := AdvanceShape(s, w);
    TaskSet(s.tasks, w, if next.Some? then next.value else Checking);
    KindOf(s.tasks, w);
  }

  // ---------- results ----------

  predicate Ends(status: Status) {
    status == Completed || status == Uncertain
  }

  predicate OutOfReach(status: Status) {
    status == Executing || Ends(status)
  }

  /** With no stale decision the row moves forward only, and the result of the write that ended it is for good. */
  ghost predicate Final(s: System) {
    && s.past.winners == (if s.past.claims == 1 && Ends(s.row.status) then 1 else 0)
    && s.past.claims <= 1 && s.past.approvals + s.past.denials <= 1
    && (s.row.status == Intended ==> s.past.approvals == 0)
    && (s.row.status == Approved ==> s.past.approvals == 1)
    && (s.row.status == Denied <==> s.past.denials == 1)
    && (Ends(s.row.status) && s.past.claims == 0 ==> s.past.approvals == 0)
    && (!OutOfReach(s.row.status) ==> s.past.claims == 0)
    && (s.row.status == Executing ==> s.past.claims == 1)
    && (s.row.status == Uncertain ==> s.past.won == Some(Unknown(s.tool)) && s.past.claims == 1)
    && (s.past.won.Some? <==> Ends(s.row.status))
    && (s.past.won.Some? ==> Resolve(s.row, s.tool) == Return(s.past.won.value))
    && (forall i :: 0 <= i < |s.past.answers| ==> Resolve(s.row, s.tool) == Return(s.past.answers[i]))
  }

  predicate Performer(task: Task) {
    task.Performing? || task.Reporting?
  }

  /** What a task relies on: a performer has the effect to itself, a settler saw it taken. */
  predicate Ready(s: System, task: Task) {
    && (task.Claiming? ==> task.from in {Intended, Approved})
    && (Performer(task) ==> s.past.claims == 1 && (s.row.status == Executing || s.row.status == Uncertain))
    && (task.Settling? || task.Rereading? ==> task.tool == s.tool)
    && (task.Settling? ==> OutOfReach(s.row.status))
    && (task.Rereading? ==> Ends(s.row.status))
  }

  ghost predicate Poised(s: System) {
    && (forall v, w :: v in s.tasks && w in s.tasks && Performer(s.tasks[v]) && Performer(s.tasks[w]) ==> v == w)
    && (forall w :: w in s.tasks ==> Ready(s, s.tasks[w]))
  }

  /** What one step without a stale decision keeps of the past. */
  ghost predicate Onward(s: System, t: System) {
    && t.tool == s.tool
    && (s.past.won.Some? ==> t.past.won == s.past.won)
    && s.past.denials <= t.past.denials
    && (Resolve(s.row, s.tool).Return? ==> Resolve(t.row, s.tool) == Resolve(s.row, s.tool))
    && s.past.answers <= t.past.answers
  }

  lemma FinalAdvance(s: System, w: WorkerId)
    requires Final(s) && Poised(s) && w in s.tasks
    requires AdvanceTask(s, w, s.tasks[w]).past.staleDecisions == s.past.staleDecisions
    ensures var t := AdvanceTask(s, w, s.tasks[w]); Final(t) && Onward(s, t)
  {
    hide Final, Onward, DecisionOpen;
    assert Ready(s, s.tasks[w]);
    hide Poised;
    match s.tasks[w]
    case Deciding(approve) => FinalDecide(s, w, approve);
    case Claiming(from) => if s.row.status == from { FinalClaim(s, w, from); } else { FinalRest(s, w); }
    case Checking => FinalRead(s, w);
    case Reporting(result) => hide Decide, Claim, Read; FinalReport(s, w, result);
    case _ => hide Decide, Claim, Read; FinalRest(s, w);
  }

  lemma FinalRest(s: System, w: WorkerId)
    requires Final(s) && w in s.tasks && Ready(s, s.tasks[w])
    requires var task := s.tasks[w];
      || (task.Claiming? && task.from != s.row.status)
      || task.Direct? || task.Settling? || task.Rereading? || task.Performing? || task.Doing?
    ensures var t := AdvanceTask(s, w, s.tasks[w]); Final(t) && Onward(s, t)
  {
    hide DecisionOpen, Decide, Claim, Read;
  }

  lemma FinalClaim(s: System, w: WorkerId, from: Status)
    requires Final(s) && s.row.status == from && from in {Intended, Approved}
    ensures Final(Claim(s, w, from)) && Onward(s, Claim(s, w, from))
  {
    hide DecisionOpen;
  }

  lemma FinalRead(s: System, w: WorkerId)
    requires Final(s)
    ensures Final(Read(s, w)) && Onward(s, Read(s, w))
  {
  }

  lemma FinalLook(s: System, w: WorkerId, asks: bool)
    requires Final(s)
    ensures Final(Look(s, w, asks)) && Onward(s, Look(s, w, asks))
  {
  }

  lemma FinalReport(s: System, w: WorkerId, result: Option<Reply>)
    requires Final(s) && w in s.tasks && s.tasks[w] == Reporting(result)
    requires s.past.claims == 1 && (s.row.status == Executing || s.row.status == Uncertain)
    ensures var t := AdvanceTask(s, w, s.tasks[w]); Final(t) && Onward(s, t)
  {
    hide DecisionOpen;
  }

  lemma FinalDecide(s: System, w: WorkerId, approve: bool)
    requires Final(s) && Decide(s, w, approve).past.staleDecisions == s.past.staleDecisions
    ensures Final(Decide(s, w, approve)) && Onward(s, Decide(s, w, approve))
  {
    hide DecisionOpen, Told;
    assert s.run == WaitingInput ==> s.row.status == Intended;
  }

  lemma OthersReady(s: System, w: WorkerId, other: Task)
    requires Final(s) && w in s.tasks && Ready(s, s.tasks[w]) && Ready(s, other)
    requires !(Performer(other) && Performer(s.tasks[w]))
    requires AdvanceTask(s, w, s.tasks[w]).past.staleDecisions == s.past.staleDecisions
    ensures Ready(AdvanceTask(s, w, s.tasks[w]), other)
  {
    hide DecisionOpen, Resolve, Told;
    match s.tasks[w]
    case Deciding(approve) => hide Read, Claim;
    case Claiming(from) => hide Decide, Read;
    case Checking => hide Decide, Claim;
    case _ => hide Final; OthersReadyAfterWrite(s, w, other);
  }

  lemma OthersReadyAfterWrite(s: System, w: WorkerId, other: Task)
    requires w in s.tasks && Ready(s, s.tasks[w]) && Ready(s, other)
    requires !(Performer(other) && Performer(s.tasks[w]))
    requires !s.tasks[w].Deciding? && !s.tasks[w].Claiming? && !s.tasks[w].Checking?
    ensures Ready(AdvanceTask(s, w, s.tasks[w]), other)
  {
    hide DecisionOpen, Resolve, Told, Decide, Claim, Read;
  }

  lemma OwnReady(s: System, w: WorkerId)
    requires Final(s) && w in s.tasks && Ready(s, s.tasks[w])
    requires AdvanceTask(s, w, s.tasks[w]).past.staleDecisions == s.past.staleDecisions
    ensures var t := AdvanceTask(s, w, s.tasks[w]); w in t.tasks ==>
      Ready(t, t.tasks[w]) && (Performer(t.tasks[w]) ==> Performer(s.tasks[w]) || s.past.claims == 0)
  {
    hide DecisionOpen, Told;
  }

  lemma OtherTasksStay(s: System, w: WorkerId)
    requires w in s.tasks
    ensures var t := AdvanceTask(s, w, s.tasks[w]);
      forall v :: v != w ==> (v in t.tasks <==> v in s.tasks) && (v in s.tasks ==> t.tasks[v] == s.tasks[v])
  {
    hide AdvanceTask;
    var next := AdvanceShape(s, w);
  }

  lemma PoisedAdvance(s: System, w: WorkerId)
    requires Final(s) && Poised(s) && w in s.tasks
    requires AdvanceTask(s, w, s.tasks[w]).past.staleDecisions == s.past.staleDecisions
    ensures Poised(AdvanceTask(s, w, s.tasks[w]))
  {
    OtherTasksStay(s, w);
    OwnReady(s, w);
    hide AdvanceTask, Final;
    var t := AdvanceTask(s, w, s.tasks[w]);
    forall v | v in t.tasks ensures Ready(t, t.tasks[v]) {
      if v != w { OthersReady(s, w, s.tasks[v]); }
    }
  }

  lemma FinalStep(s: System, a: Action)
    requires Final(s) && Poised(s) && Step(s, a).past.staleDecisions == s.past.staleDecisions
    ensures Final(Step(s, a)) && Poised(Step(s, a)) && Onward(s, Step(s, a))
  {
    if a.Advance? {
      hide Final, Poised, Onward, AdvanceTask, DecisionOpen;
      if a.w in s.tasks {
        FinalAdvance(s, a.w);
        PoisedAdvance(s, a.w);
      } else {
        NothingHappens(s);
      }
    } else {
      FinalQuiet(s, a);
    }
  }

  lemma FinalQuiet(s: System, a: Action)
    requires Final(s) && Poised(s) && !a.Advance?
    ensures Final(Step(s, a)) && Poised(Step(s, a)) && Onward(s, Step(s, a))
  {
    hide Final, Poised, Onward, DecisionOpen, AdvanceTask, Look;
    if a.Notice? && a.w !in s.tasks {
      FinalLook(s, a.w, a.asks);
      PoisedLook(s, a.w, a.asks);
    } else {
      FinalSame(s, Step(s, a));
      PoisedQuiet(s, a);
    }
  }

  lemma FinalSame(s: System, t: System)
    requires Final(s) && t.row == s.row && t.tool == s.tool
    requires t.past.claims == s.past.claims && t.past.winners == s.past.winners
    requires t.past.won == s.past.won && t.past.answers == s.past.answers
    requires t.past.approvals == s.past.approvals && t.past.denials == s.past.denials
    ensures Final(t) && Onward(s, t)
  {
    hide Resolve;
  }

  lemma PoisedQuiet(s: System, a: Action)
    requires Poised(s) && !a.Advance? && !(a.Notice? && a.w !in s.tasks)
    ensures Poised(Step(s, a))
  {
    hide DecisionOpen, AdvanceTask, Resolve, Look;
  }

  lemma PoisedLook(s: System, w: WorkerId, asks: bool)
    requires Final(s) && Poised(s)
    ensures Poised(Look(s, w, asks))
  {
  }

  lemma NothingHappens(s: System)
    ensures Onward(s, s)
  {
  }

  // ---------- runs ----------

  lemma {:induction false} BoundedHolds(tool: string, actions: seq<Action>)
    ensures Bounded(Run(Init(tool), actions)) && Guarded(Run(Init(tool), actions)) && Counted(Run(Init(tool), actions))
    ensures Run(Init(tool), actions).tool == tool
  {
    if actions != [] {
      hide Step, Bounded, Guarded, Counted;
      BoundedHolds(tool, actions[..|actions| - 1]);
      BoundedStep(Run(Init(tool), actions[..|actions| - 1]), actions[|actions| - 1]);
      GuardedStep(Run(Init(tool), actions[..|actions| - 1]), actions[|actions| - 1]);
      CountedStep(Run(Init(tool), actions[..|actions| - 1]), actions[|actions| - 1]);
    }
  }

  lemma {:induction false} FinalHolds(tool: string, actions: seq<Action>)
    requires Run(Init(tool), actions).past.staleDecisions == 0
    ensures var s := Run(Init(tool), actions); Final(s) && Poised(s) && s.tool == tool
  {
    if actions != [] {
      hide Step, Final, Poised;
      var before, a := Run(Init(tool), actions[..|actions| - 1]), actions[|actions| - 1];
      BoundedHolds(tool, actions[..|actions| - 1]);
      BoundedStep(before, a);
      FinalHolds(tool, actions[..|actions| - 1]);
      FinalStep(before, a);
    } else {
      InitFinal(tool);
    }
  }

  lemma InitFinal(tool: string)
    ensures Final(Init(tool)) && Poised(Init(tool))
  {
  }

  // ---------- what every run keeps ----------

  /**
   * A decision is written exactly if the run still waits: the row is then approved if the user
   * approved and denied if the user did not, with its result kept, and the run is queued. It is stale
   * if and only if a worker moved the row between the decision's read and its write.
   */
  lemma StaleExactlyWhenOvertaken(tool: string, actions: seq<Action>, w: WorkerId)
    requires var s := Run(Init(tool), actions); w in s.tasks && s.tasks[w].Deciding?
    ensures var s := Run(Init(tool), actions);
      var t := Step(s, Advance(w));
      && (s.run != WaitingInput ==> t.row == s.row && t.past.staleDecisions == s.past.staleDecisions && t.run == s.run)
      && (s.run == WaitingInput ==>
           && (if s.tasks[w].approve then t.row.status == Approved else t.row.status == Denied)
           && t.row.result == s.row.result && t.run == Queued && w !in t.tasks)
      && (s.run == WaitingInput ==> (t.past.staleDecisions > s.past.staleDecisions <==> s.past.slipped))
      && (s.run == WaitingInput && !s.past.slipped ==> s.row.status == Intended)
  {
    hide Run;
    BoundedHolds(tool, actions);
    assert DecisionOpen(Run(Init(tool), actions));
  }

  lemma DeniedStep(s: System, a: Action)
    ensures s.past.staleDecisions <= Step(s, a).past.staleDecisions
    ensures ClaimsFromOpenStates(s) && s.row.status == Denied && Step(s, a).past.staleDecisions == s.past.staleDecisions ==>
      Step(s, a).row == s.row && Step(s, a).past.claims == s.past.claims
  {
    hide DecisionOpen;
    if a.Advance? && a.w in s.tasks {
      match s.tasks[a.w]
      case Claiming(from) => hide Decide, Read;
      case Deciding(approve) =>
      case _ => hide Decide, Claim;
    } else {
      hide AdvanceTask;
    }
  }

  /**
   * Once the row is denied, and unless a stale decision follows, it stays denied whatever workers do:
   * the gate returns the denial ever after and nobody claims the effect any more. Without any stale
   * decision it has never been claimed, so that no worker that had to claim it has performed it.
   */
  lemma {:induction false} DeniedForGood(tool: string, actions: seq<Action>, more: seq<Action>)
    requires Run(Init(tool), actions).row.status == Denied
    requires Run(Init(tool), actions + more).past.staleDecisions == Run(Init(tool), actions).past.staleDecisions
    ensures var s, t := Run(Init(tool), actions), Run(Init(tool), actions + more);
      && t.row == s.row && Resolve(t.row, tool) == Return(UserDenied) && t.past.claims == s.past.claims
      && (t.past.staleDecisions == 0 ==> t.past.claims == 0 && t.past.claimedRuns == 0)
    decreases |more|
  {
    hide Step, Run;
    if more == [] {
      assert actions + more == actions;
    } else {
      var rest, last := more[..|more| - 1], more[|more| - 1];
      LastAction(tool, actions, more);
      BoundedHolds(tool, actions + rest);
      FromOpenStates(Run(Init(tool), actions + rest));
      DeniedStep(Run(Init(tool), actions + rest), last);
      StaleDecisionsGrow(tool, actions, rest);
      DeniedForGood(tool, actions, rest);
    }
    if Run(Init(tool), actions + more).past.staleDecisions == 0 {
      FinalHolds(tool, actions + more);
      BoundedHolds(tool, actions + more);
    }
  }

  lemma {:induction false} StaleDecisionsGrow(tool: string, actions: seq<Action>, more: seq<Action>)
    ensures Run(Init(tool), actions).past.staleDecisions <= Run(Init(tool), actions + more).past.staleDecisions
    decreases |more|
  {
    hide Step, Run;
    if more == [] {
      assert actions + more == actions;
    } else {
      LastAction(tool, actions, more);
      StaleDecisionsGrow(tool, actions, more[..|more| - 1]);
      DeniedStep(Run(Init(tool), actions + more[..|more| - 1]), more[|more| - 1]);
    }
  }

  // ---------- asking ----------

  /** As long as nobody goes on without asking, every claim uses up one approval. */
  ghost predicate Permitted(s: System) {
    !s.past.unasked ==>
      && s.past.unclaimedRuns == 0
      && (forall w :: w in s.tasks ==> !s.tasks[w].Doing? && s.tasks[w] != Claiming(Intended))
      && s.past.claims + (if s.row.status == Approved then 1 else 0) <= s.past.approvals
  }

  lemma PermittedStep(s: System, a: Action)
    requires Permitted(s) && ClaimsFromOpenStates(s)
    ensures Permitted(Step(s, a))
  {
    hide DecisionOpen, AdvanceTask, Permitted;
    if a.Advance? && a.w in s.tasks {
      PermittedAdvance(s, a.w);
    } else {
      PermittedQuiet(s, a);
    }
  }

  lemma PermittedQuiet(s: System, a: Action)
    requires Permitted(s) && !(a.Advance? && a.w in s.tasks)
    ensures Permitted(Step(s, a))
  {
    hide DecisionOpen, AdvanceTask;
  }

  lemma PermittedAdvance(s: System, w: WorkerId)
    requires Permitted(s) && ClaimsFromOpenStates(s) && w in s.tasks
    ensures Permitted(AdvanceTask(s, w, s.tasks[w]))
  {
    PermittedCounts(s, w);
    hide AdvanceTask;
    var next := AdvanceShape(s, w);
  }

  lemma PermittedCounts(s: System, w: WorkerId)
    requires Permitted(s) && ClaimsFromOpenStates(s) && w in s.tasks
    ensures var t := AdvanceTask(s, w, s.tasks[w]);
      && t.past.unasked == s.past.unasked
      && (!s.past.unasked ==> t.past.claims + (if t.row.status == Approved then 1 else 0) <= t.past.approvals)
  {
    hide DecisionOpen, Told, Resolve;
    match s.tasks[w]
    case Deciding(approve) =>
    case Claiming(from) => hide Decide, Read;
    case _ => hide Decide, Claim;
  }

  /** Everybody's rules say to ask. */
  predicate AllAsk(actions: seq<Action>) {
    forall i :: 0 <= i < |actions| ==> (actions[i].Record? ==> actions[i].way.Ask?) && (actions[i].Notice? ==> actions[i].asks)
  }

  /**
   * If every worker's rules say to ask, the effect is performed at most once for each time the user
   * has approved it: never at all without an approval, however many workers, crashes and denials.
   */
  lemma {:induction false} NothingWithoutApproval(tool: string, actions: seq<Action>)
    requires AllAsk(actions)
    ensures var s := Run(Init(tool), actions);
      && s.past.claimedRuns + s.past.unclaimedRuns <= s.past.claims <= s.past.approvals
      && !s.past.unasked && Permitted(s)
  {
    hide Counted, Guarded;
    BoundedHolds(tool, actions);
    if actions != [] {
      hide Step, Permitted, Bounded;
      var rest, last := actions[..|actions| - 1], actions[|actions| - 1];
      NothingWithoutApproval(tool, rest);
      BoundedHolds(tool, rest);
      FromOpenStates(Run(Init(tool), rest));
      PermittedStep(Run(Init(tool), rest), last);
      StillAsked(Run(Init(tool), rest), last);
    }
    ClaimedRunsBounded(Run(Init(tool), actions));
    PermittedMeans(Run(Init(tool), actions));
  }

  lemma FromOpenStates(s: System)
    requires Bounded(s)
    ensures ClaimsFromOpenStates(s)
  {
  }

  lemma PermittedMeans(s: System)
    requires Permitted(s) && !s.past.unasked
    ensures s.past.unclaimedRuns == 0 && s.past.claims <= s.past.approvals
  {
  }

  lemma ClaimedRunsBounded(s: System)
    requires Counted(s)
    ensures s.past.claimedRuns <= s.past.claims
  {
    hide Claimers, Doers;
  }

  lemma StillAsked(s: System, a: Action)
    requires !s.past.unasked && (a.Record? ==> a.way.Ask?) && (a.Notice? ==> a.asks)
    ensures !Step(s, a).past.unasked
  {
    hide DecisionOpen, Told;
    if a.Advance? && a.w in s.tasks {
      match s.tasks[a.w]
      case Claiming(from) => hide Decide, Read;
      case Deciding(approve) =>
      case _ => hide Decide, Claim;
    } else {
      hide AdvanceTask;
    }
  }

  /**
   * What the gate tells, as long as no decision was stale: to execute exactly what the user has
   * approved and nobody has claimed; to ask exactly while nobody has decided, claimed or ended it; to
   * settle exactly while a claim has not ended; the denial exactly after a denial; and otherwise the
   * result of the write that ended the effect.
   */
  lemma GateTells(tool: string, actions: seq<Action>)
    requires Run(Init(tool), actions).past.staleDecisions == 0
    ensures var s := Run(Init(tool), actions);
      var gate := Resolve(s.row, tool);
      && (gate == Execute <==> s.past.approvals == 1 && s.past.claims == 0)
      && (gate == Paused <==> s.past.approvals == 0 && s.past.denials == 0 && s.past.claims == 0 && s.past.won.None?)
      && (gate == Unclear(tool) <==> s.past.claims == 1 && s.past.won.None?)
      && (s.past.denials == 1 ==> gate == Return(UserDenied) && s.past.won.None?)
      && (s.past.won.Some? ==> gate == Return(s.past.won.value))
      && (gate.Return? <==> s.past.denials == 1 || s.past.won.Some?)
  {
    hide Run;
    FinalHolds(tool, actions);
  }

  /**
   * Claims number at most one plus the approvals written over a claimed effect. There is at most one
   * of these, and none, so at most one claim, if no worker moves the row of a waiting run while a
   * decision is open.
   */
  lemma AtMostOneClaim(tool: string, actions: seq<Action>)
    ensures var s := Run(Init(tool), actions);
      && s.past.claims <= 1 + s.past.staleApprovals
      && s.past.staleApprovals <= s.past.staleDecisions <= s.past.slips <= 1
      && (s.past.staleDecisions == 0 ==> s.past.claims <= 1 && s.past.winners <= s.past.claims)
      && (s.row.status == Approved || s.row.status == Intended ==> s.past.claims <= s.past.staleApprovals)
  {
    hide Run;
    BoundedHolds(tool, actions);
    if Run(Init(tool), actions).past.staleDecisions == 0 { FinalHolds(tool, actions); }
  }

  /**
   * How often the effect itself is performed: once at most for each claim, and once at most by the
   * worker that recorded it, when that goes on without a claim. Without a stale decision it is twice
   * if and only if both have happened, so at most once if nobody claims or nobody goes on unclaimed.
   */
  lemma PerformancesCounted(tool: string, actions: seq<Action>)
    ensures var s := Run(Init(tool), actions);
      var performances := s.past.claimedRuns + s.past.unclaimedRuns;
      && s.past.claimedRuns <= s.past.claims && s.past.unclaimedRuns <= 1
      && performances <= 2 + s.past.staleApprovals
      && (s.past.staleDecisions == 0 ==> (performances > 1 <==> s.past.claimedRuns == 1 && s.past.unclaimedRuns == 1))
      && (s.past.staleDecisions == 0 && (s.recorder || s.past.claims == 0) ==> performances <= 1)
  {
    hide Run, Claimers, Doers;
    BoundedHolds(tool, actions);
    if Run(Init(tool), actions).past.staleDecisions == 0 { FinalHolds(tool, actions); }
  }

  /**
   * Without a stale decision, the write that ended the effect is the last one and the gate returns
   * its result ever after; every reader, every settler, winning or losing, and every claimed completer
   * that lost was told that same result, or before any end the user's denial.
   */
  lemma {:induction false} OneResultForAll(tool: string, actions: seq<Action>, more: seq<Action>)
    requires Run(Init(tool), actions + more).past.staleDecisions == 0
    ensures var s := Run(Init(tool), actions);
      var t := Run(Init(tool), actions + more);
      && s.past.staleDecisions == 0
      && (s.past.won.Some? <==> Ends(s.row.status))
      && (s.past.won.Some? ==> t.past.won == s.past.won && Resolve(t.row, tool) == Return(s.past.won.value))
      && (Resolve(s.row, tool).Return? ==> Resolve(t.row, tool) == Resolve(s.row, tool))
      && (forall i :: 0 <= i < |s.past.answers| ==>
           && Resolve(t.row, tool) == Return(s.past.answers[i])
           && (s.past.won == Some(s.past.answers[i]) || s.row.status == Denied))
    decreases |more|
  {
    hide Step, Poised, Run;
    if more == [] {
      assert actions + more == actions;
      FinalHolds(tool, actions);
    } else {
      hide Resolve;
      var rest, last := more[..|more| - 1], more[|more| - 1];
      LastAction(tool, actions, more);
      var before := Run(Init(tool), actions + rest);
      BoundedHolds(tool, actions + rest);
      BoundedStep(before, last);
      OneResultForAll(tool, actions, rest);
      FinalHolds(tool, actions + rest);
      FinalStep(before, last);
      FinalHolds(tool, actions + more);
    }
  }

  /**
   * A worker that has performed the effect and comes to store its result: if the row is still what
   * its write expects, its result is the one everybody is told ever after; if not, nothing is written
   * and it is told that the outcome is unknown.
   */
  lemma CompletionCounts(tool: string, actions: seq<Action>, w: WorkerId, more: seq<Action>)
    requires var s := Run(Init(tool), actions); w in s.tasks && (s.tasks[w].Reporting? || s.tasks[w].Direct?)
    requires Run(Init(tool), actions + [Advance(w)] + more).past.staleDecisions == 0
    ensures var s := Run(Init(tool), actions);
      var done, t := Run(Init(tool), actions + [Advance(w)]), Run(Init(tool), actions + [Advance(w)] + more);
      var result := s.tasks[w].result;
      && (s.row.status == (if s.tasks[w].Direct? then Intended else Executing) ==>
           t.past.won == Some(Told(result)) && Resolve(t.row, tool) == Return(Told(result)))
      && (s.row.status != (if s.tasks[w].Direct? then Intended else Executing) ==>
           && done.row == s.row && done.past.won == s.past.won
           && done.past.answers + done.past.turnedAway == (if s.tasks[w].Direct? then s.past.answers + s.past.turnedAway + [Unknown(tool)]
                                                 else s.past.answers + [Unknown(tool)] + s.past.turnedAway))
  {
    hide Run, Resolve, DecisionOpen;
    LastAction(tool, actions, [Advance(w)]);
    assert actions + [Advance(w)][..0] == actions;
    BoundedHolds(tool, actions);
    OneResultForAll(tool, actions + [Advance(w)], more);
  }

  /**
   * What an unclaimed completer that lost is told is always that the outcome is unknown; that is the
   * winner's result if and only if the effect ends with the outcome unknown, as a settlement ends it.
   */
  lemma TurnedAwayExactlyWhen(tool: string, actions: seq<Action>, i: nat)
    requires var s := Run(Init(tool), actions); s.past.staleDecisions == 0 && i < |s.past.turnedAway| && s.past.won.Some?
    ensures var s := Run(Init(tool), actions);
      && s.past.turnedAway[i] == Unknown(tool)
      && (s.past.turnedAway[i] == s.past.won.value <==> Resolve(s.row, tool) == Return(Unknown(tool)))
      && (s.row.status == Uncertain ==> s.past.turnedAway[i] == s.past.won.value)
  {
    hide Run, Resolve;
    BoundedHolds(tool, actions);
    FinalHolds(tool, actions);
  }

  lemma LastAction(tool: string, actions: seq<Action>, more: seq<Action>)
    requires more != []
    ensures var n := |more| - 1;
      Run(Init(tool), actions + more) == Step(Run(Init(tool), actions + more[..n]), more[n])
  {
    hide Step;
    var n := |more| - 1;
    assert (actions + more)[..|actions| + n] == actions + more[..n];
    assert (actions + more)[|actions| + n] == more[n];
  }

  // ---------- a worker on its own ----------

  /** A worker finds the effect recorded, and goes as far as it gets when nobody disturbs it. */
  function Arrived(s: System, w: WorkerId, asks: bool, result: Option<Reply>): System {
    Step(Step(Step(Step(s, Notice(w, asks)), Advance(w)), Perform(w, result)), Advance(w))
  }

  /** It claims from the row's status, performs the effect and stores its result. */
  ghost predicate PerformedBy(s: System, t: System, result: Option<Reply>) {
    && t.row == Row(Completed, result) && t.tasks == s.tasks && t.past.answers == s.past.answers
    && t.past.claims == s.past.claims + 1 && t.past.claimedRuns == s.past.claimedRuns + 1
    && t.past.won == Some(Told(result))
  }

  /** It only looks, and may be told something. */
  ghost predicate OnlyTold(s: System, t: System, told: seq<Reply>) {
    t == s.(past := s.past.(answers := s.past.answers + told))
  }

  /**
   * A worker that finds the effect recorded, and that nobody disturbs: it performs it if the user has
   * approved it, or if nobody has decided and it need not ask; if it has to ask, nothing happens to
   * the effect. An effect under way is settled as uncertain, and of one that has ended the worker is
   * told the stored result, or what stands for it, or the denial.
   */
  lemma ArrivalAlone(s: System, w: WorkerId, asks: bool, result: Option<Reply>)
    requires w !in s.tasks
    ensures var t := Arrived(s, w, asks, result);
      match s.row.status
      case Approved => PerformedBy(s, t, result)
      case Intended => if asks then t == s else PerformedBy(s, t, result)
      case Executing =>
        && t.row == Row(Uncertain, Some(Unknown(s.tool))) && t.tasks == s.tasks
        && t.past.answers == s.past.answers + [Unknown(s.tool)] && t.past.claimedRuns == s.past.claimedRuns
      case Denied => OnlyTold(s, t, [UserDenied])
      case Completed => OnlyTold(s, t, [if s.row.result.Some? then s.row.result.value else Duplicate])
      case Uncertain => OnlyTold(s, t, [if s.row.result.Some? then s.row.result.value else Unknown(s.tool)])
  {
    hide Step;
    match s.row.status
    case Approved => ArrivalClaims(s, w, asks, result);
    case Intended => if asks { ArrivalIsTold(s, w, asks, result); } else { ArrivalClaims(s, w, asks, result); }
    case Executing => ArrivalSettles(s, w, asks, result);
    case _ => ArrivalIsTold(s, w, asks, result);
  }

  /** From a claim that comes in time to the stored result. */
  lemma ClaimIsCarriedOut(s: System, w: WorkerId, result: Option<Reply>)
    requires w in s.tasks && s.tasks[w] == Claiming(s.row.status) && (s.row.status == Intended || s.row.status == Approved)
    ensures var t := Step(Step(Step(s, Advance(w)), Perform(w, result)), Advance(w));
      PerformedBy(s.(tasks := s.tasks - {w}), t, result)
  {
    hide Step, PerformedBy;
    ClaimComesInTime(s, w);
    PerformanceIsStored(Step(s, Advance(w)), w, result);
    PerformedAfterClaim(s, Step(s, Advance(w)), w, Step(Step(Step(s, Advance(w)), Perform(w, result)), Advance(w)), result);
  }

  lemma ClaimComesInTime(s: System, w: WorkerId)
    requires w in s.tasks && s.tasks[w] == Claiming(s.row.status)
    ensures var t := Step(s, Advance(w));
      && t.tasks == s.tasks[w := Performing] && t.row == Row(Executing, s.row.result)
      && t.past.claims == s.past.claims + 1 && t.past.claimedRuns == s.past.claimedRuns && t.past.answers == s.past.answers
  {
    hide DecisionOpen, Decide, Read;
  }

  lemma PerformanceIsStored(s: System, w: WorkerId, result: Option<Reply>)
    requires w in s.tasks && s.tasks[w] == Performing && s.row.status == Executing
    ensures var t := Step(Step(s, Perform(w, result)), Advance(w));
      && t.row == Row(Completed, result) && t.tasks == s.tasks - {w} && t.past.answers == s.past.answers
      && t.past.claims == s.past.claims && t.past.claimedRuns == s.past.claimedRuns + 1 && t.past.won == Some(Told(result))
  {
    hide DecisionOpen, Decide, Read, Claim;
    assert Step(s, Perform(w, result)).tasks - {w} == s.tasks - {w};
  }

  lemma PerformedAfterClaim(s: System, claimed: System, w: WorkerId, t: System, result: Option<Reply>)
    requires claimed.tasks == s.tasks[w := Performing]
    requires claimed.past.claims == s.past.claims + 1 && claimed.past.claimedRuns == s.past.claimedRuns
    requires claimed.past.answers == s.past.answers
    requires t.row == Row(Completed, result) && t.tasks == claimed.tasks - {w} && t.past.answers == claimed.past.answers
    requires t.past.claims == claimed.past.claims && t.past.claimedRuns == claimed.past.claimedRuns + 1
    requires t.past.won == Some(Told(result))
    ensures PerformedBy(s.(tasks := s.tasks - {w}), t, result)
  {
    hide Told;
  }

  lemma ArrivalClaims(s: System, w: WorkerId, asks: bool, result: Option<Reply>)
    requires w !in s.tasks && (s.row.status == Approved || (s.row.status == Intended && !asks))
    ensures PerformedBy(s, Arrived(s, w, asks, result), result)
  {
    hide DecisionOpen;
    var noticed := Step(s, Notice(w, asks));
    assert noticed.tasks == s.tasks[w := Claiming(s.row.status)] && noticed.row == s.row;
    hide Look, Step;
    ClaimIsCarriedOut(noticed, w, result);
    assert noticed.tasks - {w} == s.tasks;
  }

  lemma ArrivalSettles(s: System, w: WorkerId, asks: bool, result: Option<Reply>)
    requires w !in s.tasks && s.row.status == Executing
    ensures var t := Arrived(s, w, asks, result);
      && t.row == Row(Uncertain, Some(Unknown(s.tool))) && t.tasks == s.tasks
      && t.past.answers == s.past.answers + [Unknown(s.tool)] && t.past.claimedRuns == s.past.claimedRuns
  {
    hide DecisionOpen;
    var noticed := Step(s, Notice(w, asks));
    assert noticed == s.(tasks := s.tasks[w := Settling(s.tool)]);
    var settled := Step(noticed, Advance(w));
    assert settled.tasks == s.tasks;
  }

  lemma ArrivalIsTold(s: System, w: WorkerId, asks: bool, result: Option<Reply>)
    requires w !in s.tasks && s.row.status != Approved && s.row.status != Executing
    requires s.row.status == Intended ==> asks
    ensures Arrived(s, w, asks, result)
         == match Resolve(s.row, s.tool) case Return(reply) => Tell(s, reply) case _ => s
  {
    hide DecisionOpen;
    var noticed := Step(s, Notice(w, asks));
    assert noticed.tasks == s.tasks;
    hide Look;
    assert Step(noticed, Advance(w)) == noticed;
  }

  /** What a worker is told of an effect that has ended, or that it finds neither ended nor under way. */
  function Stored(row: Row, tool: string): Option<Reply> {
    match row.status
    case Completed => Some(if row.result.Some? then row.result.value else Duplicate)
    case Uncertain => Some(if row.result.Some? then row.result.value else Unknown(tool))
    case Denied => Some(UserDenied)
    case _ => None
  }

  /**
   * A worker that comes too late for its claim looks again: it settles an effect under way as
   * uncertain, is told the result of one that has ended, and otherwise fails without being told anything.
   */
  lemma LateClaimAlone(s: System, w: WorkerId)
    requires w in s.tasks && s.tasks[w].Claiming? && s.tasks[w].from != s.row.status
    ensures var t := Step(Step(Step(s, Advance(w)), Advance(w)), Advance(w));
      && t.tasks == s.tasks - {w} && t.past.claims == s.past.claims
      && (if s.row.status == Executing
          then t.row == Row(Uncertain, Some(Unknown(s.tool))) && t.past.answers == s.past.answers + [Unknown(s.tool)]
          else t.row == s.row && t.past.answers ==
                 s.past.answers + match Stored(s.row, s.tool) case Some(reply) => [reply] case None => [])
  {
    hide DecisionOpen;
    LateClaimLooks(s, w);
    var checking := Step(s, Advance(w));
    hide Read, Claim, Decide;
    var read := Step(checking, Advance(w));
    if s.row.status == Executing {
      SettlesAlone(read, w);
    } else {
      assert w !in read.tasks;
    }
    assert checking.tasks - {w} == s.tasks - {w};
  }

  lemma LateClaimLooks(s: System, w: WorkerId)
    requires w in s.tasks && s.tasks[w].Claiming? && s.tasks[w].from != s.row.status
    ensures var checking := Step(s, Advance(w));
      && checking == s.(tasks := s.tasks[w := Checking])
      && Step(checking, Advance(w)) ==
           if s.row.status == Executing then s.(tasks := s.tasks[w := Settling(s.tool)])
           else s.(tasks := s.tasks - {w}, past := s.past.(answers :=
             s.past.answers + match Stored(s.row, s.tool) case Some(reply) => [reply] case None => []))
  {
    hide DecisionOpen, Claim, Decide;
    var checking := s.(tasks := s.tasks[w := Checking]);
    assert checking.tasks - {w} == s.tasks - {w};
    assert checking.tasks[w := Settling(s.tool)] == s.tasks[w := Settling(s.tool)];
    assert s.past.answers + [] == s.past.answers;
  }

  lemma SettlesAlone(s: System, w: WorkerId)
    requires w in s.tasks && s.tasks[w] == Settling(s.tool) && s.row.status == Executing
    ensures var t := Step(s, Advance(w));
      && t.row == Row(Uncertain, Some(Unknown(s.tool))) && t.tasks == s.tasks - {w}
      && t.past.answers == s.past.answers + [Unknown(s.tool)] && t.past.claims == s.past.claims
  {
    hide DecisionOpen, Claim, Decide, Read;
  }

  /** A settler that comes too late is told the stored result, or if there is none that the outcome is unknown. */
  lemma LateSettlerAlone(s: System, w: WorkerId)
    requires w in s.tasks && s.tasks[w] == Settling(s.tool) && s.row.status != Executing
    ensures var t := Step(Step(s, Advance(w)), Advance(w));
      && t.row == s.row && t.tasks == s.tasks - {w}
      && t.past.answers == s.past.answers
           + [match Stored(s.row, s.tool) case Some(reply) => reply case None => Unknown(s.tool)]
  {
    hide DecisionOpen, Claim, Decide, Read;
    var rereading := Step(s, Advance(w));
    assert rereading == s.(tasks := s.tasks[w := Rereading(s.tool)]);
    assert rereading.tasks - {w} == s.tasks - {w};
  }

  /**
   * The worker that records the effect, when nobody disturbs it: if it has to ask, nothing happens to
   * the effect yet; otherwise it performs it, with a claim or without one, and stores its result.
   */
  lemma RecorderAlone(s: System, w: WorkerId, way: Way, result: Option<Reply>)
    requires w !in s.tasks && s.recorder && s.row.status == Intended
    ensures var t := Step(Step(Step(Step(s, Record(w, way)), Advance(w)), Perform(w, result)), Advance(w));
      match way
      case Ask => t == s.(recorder := false)
      case Bypass => PerformedBy(s, t, result)
      case GoOn =>
        && t.row == Row(Completed, result) && t.tasks == s.tasks && t.past.won == Some(Told(result))
        && t.past.claims == s.past.claims && t.past.unclaimedRuns == s.past.unclaimedRuns + 1
  {
    hide DecisionOpen;
    var recorded := Step(s, Record(w, way));
    match way
    case Ask =>
    case Bypass =>
      assert recorded.tasks == s.tasks[w := Claiming(Intended)] && recorded.row == s.row;
      hide Step;
      ClaimIsCarriedOut(recorded, w, result);
      assert recorded.tasks - {w} == s.tasks;
    case GoOn =>
      assert recorded.tasks == s.tasks[w := Doing] && recorded.row == s.row;
      hide Step;
      UnclaimedIsStored(recorded, w, result);
      assert recorded.tasks - {w} == s.tasks;
  }

  lemma UnclaimedIsStored(s: System, w: WorkerId, result: Option<Reply>)
    requires w in s.tasks && s.tasks[w] == Doing && s.row.status == Intended
    ensures Step(s, Advance(w)) == s
    ensures var t := Step(Step(s, Perform(w, result)), Advance(w));
      && t.row == Row(Completed, result) && t.tasks == s.tasks - {w} && t.past.won == Some(Told(result))
      && t.past.claims == s.past.claims && t.past.unclaimedRuns == s.past.unclaimedRuns + 1
  {
    hide DecisionOpen, Decide, Read, Claim;
    assert s.tasks[w := s.tasks[w]] == s.tasks;
    assert Step(s, Perform(w, result)).tasks - {w} == s.tasks - {w};
  }

  /**
   * The run around the effect: it pauses while it works and no decision is open, a worker takes it
   * when it waits or is queued, a decision is opened exactly on a waiting run whose effect nobody has
   * moved, one at a time, and a crash ends its worker's part and nothing else.
   */
  lemma FromOutside(s: System, w: WorkerId, approve: bool)
    ensures Step(s, Pause) == s.(run := if s.run == Working && !DecisionOpen(s) then WaitingInput else s.run)
    ensures Step(s, Lease) == s.(run := if s.run == Queued || s.run == WaitingInput then Working else s.run)
    ensures Step(s, EndRun) == s.(run := Ended)
    ensures Step(s, Open(w, approve)).tasks ==
      if w !in s.tasks && s.run == WaitingInput && s.row.status == Intended && !DecisionOpen(s)
      then s.tasks[w := Deciding(approve)] else s.tasks
    ensures Step(s, Open(w, approve)).row == s.row && Step(s, Open(w, approve)).run == s.run
    ensures Step(s, Crash(w)) == s.(tasks := s.tasks - {w})
    ensures Init(s.tool).run == Working && Init(s.tool).row == Row(Intended, None)
  {
  }

  /**
   * A run that asks and a user that answers, when nobody disturbs them: the effect is approved or
   * denied as the user says, and the run waits for a worker, which may then take it.
   */
  lemma AnswerAlone(s: System, user: WorkerId, approve: bool)
    requires user !in s.tasks && s.run == Working && s.row.status == Intended && !DecisionOpen(s)
    ensures var t := Step(Step(Step(s, Pause), Open(user, approve)), Advance(user));
      && t.row == s.row.(status := if approve then Approved else Denied) && t.run == Queued && t.tasks == s.tasks
      && t.past.staleDecisions == s.past.staleDecisions
      && Step(t, Lease) == t.(run := Working)
  {
    var waiting := Step(s, Pause);
    assert !DecisionOpen(waiting);
    var open := Step(waiting, Open(user, approve));
    assert open.tasks == s.tasks[user := Deciding(approve)];
  }

  // ---------- the exception is real ----------

  lemma NothingYet()
    ensures Run(Init("t"), []) == Init("t")
  {
  }

  lemma Then(actions: seq<Action>, a: Action) returns (next: seq<Action>)
    ensures next == actions + [a]
    ensures Run(Init("t"), next) == Step(Run(Init("t"), actions), a)
  {
    next := actions + [a];
    assert next[..|actions|] == actions;
  }

  /** Worker 1 is about to claim; another worker has paused the run, and the user's answer is open. */
  lemma AnswerIsOpen() returns (actions: seq<Action>)
    ensures Run(Init("t"), actions)
         == Init("t").(run := WaitingInput, recorder := false, tasks := map[1 := Claiming(Intended), 0 := Deciding(true)],
                       past := Init("t").past.(unasked := true))
  {
    hide Run, Resolve, AdvanceTask;
    NothingYet();
    actions := Then([], Record(1, Bypass));
    actions := Then(actions, Pause);
    actions := Then(actions, Open(0, true));
  }

  /** The claim comes first, and the answer is written over it. */
  lemma AnswerIsOvertaken() returns (actions: seq<Action>)
    ensures Run(Init("t"), actions)
         == Init("t").(row := Row(Approved, None), run := Queued, recorder := false, tasks := map[1 := Performing],
                       past := Past(1, 0, 0, true, 1, 0, 1, 1, true, 1, 0, None, [], []))
  {
    hide Run, Resolve;
    actions := AnswerIsOpen();
    var s := Run(Init("t"), actions);
    assert s.tasks[0].Deciding?;
    actions := Then(actions, Advance(1));
    actions := Then(actions, Advance(0));
    assert Run(Init("t"), actions).tasks == map[1 := Performing];
  }

  /**
   * Worker 1 is about to claim without asking when it loses its run to another worker, which pauses
   * the run for the user's approval. The user's answer finds the run waiting and the effect intended;
   * the claim comes before the answer is written, and the written approval lets worker 2 claim.
   */
  lemma StaleApprovalAllowsSecondClaim() returns (actions: seq<Action>)
    ensures var s := Run(Init("t"), actions);
      s.past.claims == 2 && s.past.staleApprovals == 1 && s.past.slips == 1
  {
    hide Run;
    actions := AnswerIsOvertaken();
    actions := Then(actions, Lease);
    actions := Then(actions, Notice(2, true));
    actions := Then(actions, Advance(2));
  }

  /** Worker 1 has performed the effect without a claim; worker 2 has claimed it meanwhile. */
  lemma UnclaimedThenClaimed() returns (actions: seq<Action>)
    ensures Run(Init("t"), actions)
         == Init("t").(row := Row(Executing, None), recorder := false,
                       tasks := map[1 := Direct(Some(Of(4))), 2 := Performing],
                       past := Past(1, 0, 1, true, 0, 0, 0, 0, false, 0, 0, None, [], []))
  {
    hide Run;
    NothingYet();
    actions := Then([], Record(1, GoOn));
    actions := Then(actions, Perform(1, Some(Of(4))));
    actions := Then(actions, Notice(2, false));
    assert !DecisionOpen(Run(Init("t"), actions));
    actions := Then(actions, Advance(2));
  }

  /** Worker 2 performs the effect again and stores its result. */
  lemma ClaimedCompletes() returns (actions: seq<Action>)
    ensures Run(Init("t"), actions)
         == Init("t").(row := Row(Completed, Some(Of(5))), recorder := false,
                       tasks := map[1 := Direct(Some(Of(4)))],
                       past := Past(1, 1, 1, true, 0, 0, 0, 0, false, 0, 1, Some(Of(5)), [], []))
  {
    hide Run, Resolve, DecisionOpen;
    actions := UnclaimedThenClaimed();
    actions := Then(actions, Perform(2, Some(Of(5))));
    actions := Then(actions, Advance(2));
    assert Run(Init("t"), actions).tasks == map[1 := Direct(Some(Of(4)))];
  }

  /**
   * Worker 1 records the effect and performs it without a claim; worker 2 finds it recorded, claims
   * it and performs it again, and stores its result first. Worker 1 is told that the outcome is
   * unknown, although the effect ended with worker 2's result.
   */
  lemma UnclaimedAndClaimedBothPerform() returns (actions: seq<Action>)
    ensures var s := Run(Init("t"), actions);
      && s.past.staleDecisions == 0 && s.past.claims == 1 && s.past.claimedRuns == 1 && s.past.unclaimedRuns == 1
      && s.past.won == Some(Of(5)) && s.past.turnedAway == [Unknown("t")] && s.past.answers == []
  {
    hide Run, Resolve, DecisionOpen;
    actions := ClaimedCompletes();
    actions := Then(actions, Advance(1));
  }
}
