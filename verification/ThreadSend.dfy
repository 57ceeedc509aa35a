/**
 * Sending a message: one transaction creates the message and a queued run for each target bot and
 * cancels the queued runs it supersedes; a repeated client nonce replays the first send.
 */
module ThreadSend {
  import opened Basics

  type ThreadId = nat
  type BotId = nat
  type Nonce = nat
  type CallerId = nat

  datatype Status = Queued | Started | Finished | Cancelled

  /** Rows are named by their position. */
  datatype Message = Message(thread: ThreadId, number: nat, nonce: Option<Nonce>)

  datatype RunRow = RunRow(thread: ThreadId, bot: BotId, source: nat, status: Status)

  datatype Db = Db(messages: seq<Message>, runs: seq<RunRow>, nextNumber: map<ThreadId, nat>)

  /** What a caller gets back; the order of the runs is not promised. */
  datatype Receipt = Receipt(number: nat, runs: set<nat>)

  // ---------- the transaction ----------

  function NumberFor(db: Db, thread: ThreadId): nat {
    if thread in db.nextNumber then db.nextNumber[thread] else 0
  }

  predicate Taken(db: Db, thread: ThreadId, nonce: Option<Nonce>) {
    nonce.Some? && exists m :: 0 <= m < |db.messages| && db.messages[m].thread == thread && db.messages[m].nonce == nonce
  }

  function NewRuns(thread: ThreadId, bots: seq<BotId>, source: nat): (runs: seq<RunRow>)
    ensures |runs| == |bots|
    ensures forall i :: 0 <= i < |bots| ==> runs[i] == RunRow(thread, bots[i], source, Queued)
  {
    seq(|bots|, i requires 0 <= i < |bots| => RunRow(thread, bots[i], source, Queued))
  }

  predicate Superseded(run: RunRow, thread: ThreadId, bots: seq<BotId>) {
    run.thread == thread && run.bot in bots && run.status == Queued
  }

  /** cancelSupersededQueuedRuns, for the runs that were there before. */
  function CancelSuperseded(runs: seq<RunRow>, thread: ThreadId, bots: seq<BotId>): (next: seq<RunRow>)
    ensures |next| == |runs|
    ensures forall r :: 0 <= r < |runs| ==>
              next[r] == if Superseded(runs[r], thread, bots) then runs[r].(status := Cancelled) else runs[r]
  {
    seq(|runs|, r requires 0 <= r < |runs| =>
      if Superseded(runs[r], thread, bots) then runs[r].(status := Cancelled) else runs[r])
  }

  function Committed(db: Db, thread: ThreadId, nonce: Option<Nonce>, bots: seq<BotId>): Db {
    Db(db.messages + [Message(thread, NumberFor(db, thread), nonce)],
       CancelSuperseded(db.runs, thread, bots) + NewRuns(thread, bots, |db.messages|),
       db.nextNumber[thread := NumberFor(db, thread) + 1])
  }

  function RunsOf(db: Db, m: nat): set<nat> {
    set r | 0 <= r < |db.runs| && db.runs[r].source == m
  }

  /** The positions from lo on, count of them. */
  function Positions(lo: nat, count: nat): (r: set<nat>)
    ensures forall p :: p in r <==> lo <= p < lo + count
  {
    if count == 0 then {} else Positions(lo, count - 1) + {lo + count - 1}
  }

  class ThreadStore {
    var messages: seq<Message>
    var runs: seq<RunRow>
    var nextNumber: map<ThreadId, nat>

    function View(): Db
      reads this
    {
      Db(messages, runs, nextNumber)
    }

    constructor ()
      ensures View() == Db([], [], map[])
    {
      messages, runs, nextNumber := [], [], map[];
    }

    /** One send; nothing is written when the nonce is taken or no bot is targeted. */
    method Send(thread: ThreadId, nonce: Option<Nonce>, bots: seq<BotId>) returns (receipt: Option<Receipt>)
      modifies this
      ensures receipt.Some? <==> !old(Taken(View(), thread, nonce)) && bots != []
      ensures View() == if receipt.Some? then old(Committed(View(), thread, nonce, bots)) else old(View())
      ensures receipt.Some? ==>
        receipt.value == Receipt(old(NumberFor(View(), thread)), Positions(|old(runs)|, |bots|))
    {
      if bots == [] { return None; }
      var taken := HasNonce(thread, nonce);
      if taken { return None; }
      var message, number := |messages|, if thread in nextNumber then nextNumber[thread] else 0;
      var before := |runs|;
      messages := messages + [Message(thread, number, nonce)];
      nextNumber := nextNumber[thread := number + 1];
      for i := 0 to |bots|
        invariant runs == old(runs) + NewRuns(thread, bots, message)[..i]
        invariant messages == old(messages) + [Message(thread, number, nonce)]
        invariant nextNumber == old(nextNumber)[thread := number + 1]
      {
        runs := runs + [RunRow(thread, bots[i], message, Queued)];
      }
      CancelQueuedBefore(before, thread, bots);
      return Some(Receipt(number, Positions(before, |bots|)));
    }

    method HasNonce(thread: ThreadId, nonce: Option<Nonce>) returns (taken: bool)
      ensures taken <==> Taken(View(), thread, nonce)
    {
      taken := false;
      for m := 0 to |messages|
        invariant taken <==> nonce.Some? && exists k :: 0 <= k < m && messages[k].thread == thread && messages[k].nonce == nonce
      {
        if nonce.Some? && messages[m].thread == thread && messages[m].nonce == nonce { taken := true; }
      }
    }

    /** Cancels the queued runs among the first `keepFrom`; the newer ones are kept. */
    method CancelQueuedBefore(keepFrom: nat, thread: ThreadId, bots: seq<BotId>)
      requires keepFrom <= |runs|
      modifies this`runs
      ensures runs == CancelSuperseded(old(runs)[..keepFrom], thread, bots) + old(runs)[keepFrom..]
    {
      for r := 0 to keepFrom
        invariant |runs| == |old(runs)|
        invariant runs[..r] == CancelSuperseded(old(runs)[..r], thread, bots)
        invariant runs[r..] == old(runs)[r..]
      {
        assert runs[r] == old(runs)[r] && old(runs)[..r + 1] == old(runs)[..r] + [old(runs)[r]];
        ghost var was := runs;
        if runs[r].thread == thread && runs[r].bot in bots && runs[r].status == Queued {
          runs := runs[r := runs[r].(status := Cancelled)];
        }
        assert runs[..r] == was[..r] && runs[r + 1..] == was[r + 1..] == old(runs)[r + 1..];
      }
    }
  }

  /** After a send, the queued runs of the thread for its target bots are exactly the new ones. */
  lemma OnlyNewRunsQueued(db: Db, thread: ThreadId, nonce: Option<Nonce>, bots: seq<BotId>, r: nat)
    requires r < |Committed(db, thread, nonce, bots).runs|
    ensures var after := Committed(db, thread, nonce, bots);
      && (after.runs[r].thread == thread && after.runs[r].bot in bots && after.runs[r].status == Queued <==> r >= |db.runs|)
      && (r < |db.runs| ==>
           var run := db.runs[r];
           after.runs[r] == if run.thread == thread && run.bot in bots && run.status == Queued
                            then run.(status := Cancelled) else run)
      && (r >= |db.runs| ==> after.runs[r] == RunRow(thread, bots[r - |db.runs|], |db.messages|, Queued))
  {
  }

  // ---------- interleavings ----------

  datatype Call = Call(thread: ThreadId, nonce: Nonce, bots: seq<BotId>)

  datatype Task =
    | Looking(call: Call)      // about to look for an earlier send
    | Sending(call: Call)      // about to run the transaction
    | Replaying(call: Call)    // the transaction failed; about to look for the winner

  datatype Answer = Answer(thread: ThreadId, nonce: Nonce, receipt: Receipt)

  datatype System = System(
    db: Db,
    tasks: map<CallerId, Task>,
    answers: seq<Answer>,        // history: what successful callers were told
    targets: seq<seq<BotId>>)    // history: the target bots of each message's send

  const INIT := System(Db([], [], map[]), map[], [], [])

  datatype Action =
    | Begin(c: CallerId, call: Call)
    | Crash(c: CallerId)
    | Look(c: CallerId)
    | Transact(c: CallerId, conflict: bool)        // conflict: retries were exhausted
    | SendWithoutNonce(thread: ThreadId, bots: seq<BotId>)
    | Say(thread: ThreadId)                        // a bot's own message, which starts no run
    | RunMoves(r: nat, to: Status)

  predicate Distinct(bots: seq<BotId>) {
    forall i, j :: 0 <= i < j < |bots| ==> bots[i] != bots[j]
  }

  /** The message that holds the nonce, if any: the first of the thread. */
  function Holder(messages: seq<Message>, thread: ThreadId, nonce: Nonce): Option<nat> {
    if messages == [] then None
    else
      var n := |messages| - 1;
      var earlier := Holder(messages[..n], thread, nonce);
      if earlier.Some? then earlier
      else if messages[n].thread == thread && messages[n].nonce == Some(nonce) then Some(n)
      else None
  }

  function Step(s: System, a: Action): System {
    match a
    case Begin(c, call) =>
      if c !in s.tasks && Distinct(call.bots) then s.(tasks := s.tasks[c := Looking(call)]) else s
    case Crash(c) => s.(tasks := s.tasks - {c})
    case Look(c) => if c in s.tasks && !s.tasks[c].Sending? then LookUp(s, c, s.tasks[c]) else s
    case Transact(c, conflict) => if c in s.tasks && s.tasks[c].Sending? then Send(s, c, s.tasks[c].call, conflict) else s
    case SendWithoutNonce(thread, bots) =>
      if Distinct(bots) && bots != [] then Commit(s, thread, None, bots) else s
    case Say(thread) => Commit(s, thread, None, [])
    case RunMoves(r, to) =>
      if r < |s.db.runs| then s.(db := s.db.(runs := s.db.runs[r := s.db.runs[r].(status := to)])) else s
  }

  /** replayExistingSend, before the transaction or after its failure. */
  function LookUp(s: System, c: CallerId, task: Task): System {
    var call := task.call;
    var holder := Holder(s.db.messages, call.thread, call.nonce);
    if holder.Some? && RunsOf(s.db, holder.value) != {} then
      HolderSpec(s.db.messages, call.thread, call.nonce);
      Tell(s, c, call, Receipt(s.db.messages[holder.value].number, RunsOf(s.db, holder.value)))
    else if task.Looking? then s.(tasks := s.tasks[c := Sending(call)])
    else s.(tasks := s.tasks - {c})      // the failure is reported
  }

  function Send(s: System, c: CallerId, call: Call, conflict: bool): System {
    if conflict || call.bots == [] || Holder(s.db.messages, call.thread, call.nonce).Some?
    then s.(tasks := s.tasks[c := Replaying(call)])
    else
      Tell(Commit(s, call.thread, Some(call.nonce), call.bots), c, call,
           Receipt(NumberFor(s.db, call.thread), Positions(|s.db.runs|, |call.bots|)))
  }

  function Commit(s: System, thread: ThreadId, nonce: Option<Nonce>, bots: seq<BotId>): System {
    s.(db := Committed(s.db, thread, nonce, bots), targets := s.targets + [bots])
  }

  function Tell(s: System, c: CallerId, call: Call, receipt: Receipt): System {
    s.(tasks := s.tasks - {c}, answers := s.answers + [Answer(call.thread, call.nonce, receipt)])
  }

  function Run(actions: seq<Action>): System {
    if actions == [] then INIT else Step(Run(actions[..|actions| - 1]), actions[|actions| - 1])
  }

  lemma {:induction false} HolderSpec(messages: seq<Message>, thread: ThreadId, nonce: Nonce)
    ensures var h := Holder(messages, thread, nonce);
      && (h.Some? ==> h.value < |messages| && messages[h.value].thread == thread && messages[h.value].nonce == Some(nonce))
      && (h.None? ==> forall m :: 0 <= m < |messages| ==> !(messages[m].thread == thread && messages[m].nonce == Some(nonce)))
  {
    if messages != [] { HolderSpec(messages[..|messages| - 1], thread, nonce); }
  }

  lemma TakenIsHeld(db: Db, thread: ThreadId, nonce: Nonce)
    ensures Taken(db, thread, Some(nonce)) <==> Holder(db.messages, thread, nonce).Some?
  {
    HolderSpec(db.messages, thread, nonce);
  }

  // ---------- invariant ----------

  /** Each run is of a message, one per bot and on its own thread, and a message with a nonce has one. */
  ghost predicate Linked(db: Db) {
    && (forall r :: 0 <= r < |db.runs| ==>
         db.runs[r].source < |db.messages| && db.messages[db.runs[r].source].thread == db.runs[r].thread)
    && (forall q, r :: 0 <= q < r < |db.runs| && db.runs[q].source == db.runs[r].source ==> db.runs[q].bot != db.runs[r].bot)
    && (forall m :: 0 <= m < |db.messages| && db.messages[m].nonce.Some? ==> RunsOf(db, m) != {})
  }

  /** How many of the messages are in the thread. */
  function InThread(messages: seq<Message>, thread: ThreadId): nat {
    if messages == [] then 0
    else
      InThread(messages[..|messages| - 1], thread) + if messages[|messages| - 1].thread == thread then 1 else 0
  }

  /** Messages are numbered from 0 on in their thread, and the next number is known. */
  ghost predicate Numbered(db: Db) {
    && (forall m :: 0 <= m < |db.messages| ==>
         db.messages[m].number == InThread(db.messages[..m], db.messages[m].thread))
    && (forall thread :: NumberFor(db, thread) == InThread(db.messages, thread))
  }

  ghost predicate UniqueNonces(db: Db) {
    forall m, n :: 0 <= m < n < |db.messages| && db.messages[m].thread == db.messages[n].thread ==>
      db.messages[m].nonce.None? || db.messages[m].nonce != db.messages[n].nonce
  }

  /** What a caller was told is what a replay would say now. */
  ghost predicate Stands(db: Db, a: Answer) {
    var h := Holder(db.messages, a.thread, a.nonce);
    h.Some? && h.value < |db.messages| && a.receipt == Receipt(db.messages[h.value].number, RunsOf(db, h.value))
  }

  /** The message's runs are for exactly these bots. */
  ghost predicate Serves(db: Db, m: nat, bots: seq<BotId>) {
    && (forall r :: r in RunsOf(db, m) ==> db.runs[r].bot in bots)
    && (forall bot :: bot in bots ==> exists r :: r in RunsOf(db, m) && db.runs[r].bot == bot)
  }

  ghost predicate AllServed(db: Db, targets: seq<seq<BotId>>) {
    |targets| == |db.messages| && forall m :: 0 <= m < |targets| ==> Serves(db, m, targets[m])
  }

  ghost predicate Invariant(s: System) {
    && Linked(s.db) && UniqueNonces(s.db) && AllServed(s.db, s.targets) && Numbered(s.db)
    && (forall i :: 0 <= i < |s.answers| ==> Stands(s.db, s.answers[i]))
    && (forall c :: c in s.tasks ==> Distinct(s.tasks[c].call.bots))
  }

  lemma HolderStays(messages: seq<Message>, last: Message, thread: ThreadId, nonce: Nonce)
    ensures Holder(messages, thread, nonce).Some? ==>
              Holder(messages + [last], thread, nonce) == Holder(messages, thread, nonce)
    ensures Holder(messages, thread, nonce).None? && last.thread == thread && last.nonce == Some(nonce) ==>
              Holder(messages + [last], thread, nonce) == Some(|messages|)
  {
    assert (messages + [last])[..|messages|] == messages;
  }

  lemma CommittedSources(db: Db, thread: ThreadId, nonce: Option<Nonce>, bots: seq<BotId>)
    ensures var after := Committed(db, thread, nonce, bots);
      var n := |db.runs|;
      && |after.runs| == n + |bots|
      && (forall r :: 0 <= r < n ==> after.runs[r].source == db.runs[r].source)
      && (forall r :: n <= r < n + |bots| ==> after.runs[r].source == |db.messages|)
      && (forall r :: 0 <= r < n ==> after.runs[r].bot == db.runs[r].bot)
      && (forall k :: 0 <= k < |bots| ==> after.runs[n + k].bot == bots[k])
  {
    hide Superseded;
  }

  lemma RunsOfCommitted(db: Db, thread: ThreadId, nonce: Option<Nonce>, bots: seq<BotId>)
    requires Linked(db)
    ensures var after := Committed(db, thread, nonce, bots);
      && (forall m :: 0 <= m < |db.messages| ==> RunsOf(after, m) == RunsOf(db, m))
      && RunsOf(after, |db.messages|) == Positions(|db.runs|, |bots|)
  {
    CommittedSources(db, thread, nonce, bots);
    hide Committed;
    var after := Committed(db, thread, nonce, bots);
    var n := |db.runs|;
    forall m | 0 <= m < |db.messages| ensures RunsOf(after, m) == RunsOf(db, m) {
      forall r ensures r in RunsOf(after, m) <==> r in RunsOf(db, m) { }
    }
    forall r ensures r in RunsOf(after, |db.messages|) <==> r in Positions(n, |bots|) { }
  }

  lemma CommitKeepsLinks(db: Db, thread: ThreadId, nonce: Option<Nonce>, bots: seq<BotId>)
    requires Linked(db) && Distinct(bots) && (nonce.Some? ==> bots != [])
    ensures Linked(Committed(db, thread, nonce, bots))
  {
    RunsOfCommitted(db, thread, nonce, bots);
    assert bots != [] ==> |db.runs| in Positions(|db.runs|, |bots|);
  }

  lemma CommitKeepsNumbers(db: Db, thread: ThreadId, nonce: Option<Nonce>, bots: seq<BotId>)
    requires Numbered(db)
    ensures Numbered(Committed(db, thread, nonce, bots))
  {
    hide CancelSuperseded, NewRuns;
    var after := Committed(db, thread, nonce, bots);
    var n := |db.messages|;
    assert after.messages[..n] == db.messages;
    forall m | 0 <= m < |after.messages|
      ensures after.messages[m].number == InThread(after.messages[..m], after.messages[m].thread)
    {
      if m < n { assert after.messages[..m] == db.messages[..m]; }
    }
    forall t ensures NumberFor(after, t) == InThread(after.messages, t) {
      assert InThread(after.messages, t) == InThread(db.messages, t) + if t == thread then 1 else 0;
    }
  }

  lemma CommitServes(db: Db, thread: ThreadId, nonce: Option<Nonce>, bots: seq<BotId>, targets: seq<seq<BotId>>)
    requires Linked(db) && AllServed(db, targets)
    ensures AllServed(Committed(db, thread, nonce, bots), targets + [bots])
  {
    RunsOfCommitted(db, thread, nonce, bots);
    CommittedSources(db, thread, nonce, bots);
    var after := Committed(db, thread, nonce, bots);
    assert |after.messages| == |db.messages| + 1;
    hide *;
    OneMoreServed(db, after, bots, targets);
  }

  lemma OneMoreServed(db: Db, after: Db, bots: seq<BotId>, targets: seq<seq<BotId>>)
    requires AllServed(db, targets)
    requires |after.messages| == |db.messages| + 1 && |after.runs| == |db.runs| + |bots|
    requires forall m :: 0 <= m < |db.messages| ==> RunsOf(after, m) == RunsOf(db, m)
    requires RunsOf(after, |db.messages|) == Positions(|db.runs|, |bots|)
    requires forall r :: 0 <= r < |db.runs| ==> after.runs[r].bot == db.runs[r].bot
    requires forall k :: 0 <= k < |bots| ==> after.runs[|db.runs| + k].bot == bots[k]
    ensures AllServed(after, targets + [bots])
  {
    hide RunsOf, Serves;
    forall m | 0 <= m < |targets| ensures Serves(after, m, targets[m]) {
      ServesStill(db, after, m, targets[m]);
    }
    NewServed(after, |db.messages|, |db.runs|, bots);
  }

  lemma NewServed(db: Db, m: nat, from: nat, bots: seq<BotId>)
    requires |db.runs| == from + |bots| && RunsOf(db, m) == Positions(from, |bots|)
    requires forall k :: 0 <= k < |bots| ==> db.runs[from + k].bot == bots[k]
    ensures Serves(db, m, bots)
  {
    hide RunsOf;
    forall r | r in RunsOf(db, m) ensures db.runs[r].bot in bots {
      assert db.runs[from + (r - from)].bot == bots[r - from];
    }
    forall bot | bot in bots ensures exists r :: r in RunsOf(db, m) && db.runs[r].bot == bot {
      var k :| 0 <= k < |bots| && bots[k] == bot;
      assert from + k in RunsOf(db, m);
    }
  }

  lemma ServesStill(db: Db, after: Db, m: nat, bots: seq<BotId>)
    requires Serves(db, m, bots) && RunsOf(after, m) == RunsOf(db, m)
    requires |db.runs| <= |after.runs| && forall r :: 0 <= r < |db.runs| ==> after.runs[r].bot == db.runs[r].bot
    ensures Serves(after, m, bots)
  {
    forall bot | bot in bots ensures exists r :: r in RunsOf(after, m) && after.runs[r].bot == bot {
      var r :| r in RunsOf(db, m) && db.runs[r].bot == bot;
      assert r in RunsOf(after, m);
    }
  }

  lemma CommitKeepsNonces(db: Db, thread: ThreadId, nonce: Option<Nonce>, bots: seq<BotId>)
    requires UniqueNonces(db) && !Taken(db, thread, nonce)
    ensures UniqueNonces(Committed(db, thread, nonce, bots))
  {
  }

  lemma CommitKeepsAnswer(db: Db, thread: ThreadId, nonce: Option<Nonce>, bots: seq<BotId>, a: Answer)
    requires Linked(db) && Stands(db, a)
    ensures Stands(Committed(db, thread, nonce, bots), a)
  {
    RunsOfCommitted(db, thread, nonce, bots);
    HolderStays(db.messages, Message(thread, NumberFor(db, thread), nonce), a.thread, a.nonce);
  }

  lemma InvariantSend(s: System, c: CallerId, call: Call, conflict: bool)
    requires Invariant(s) && Distinct(call.bots)
    ensures Invariant(Send(s, c, call, conflict))
  {
    hide Linked, UniqueNonces, Stands, AllServed, Numbered;
    var db := Committed(s.db, call.thread, Some(call.nonce), call.bots);
    if !(conflict || call.bots == [] || Holder(s.db.messages, call.thread, call.nonce).Some?) {
      TakenIsHeld(s.db, call.thread, call.nonce);
      CommitKeepsLinks(s.db, call.thread, Some(call.nonce), call.bots);
      CommitKeepsNonces(s.db, call.thread, Some(call.nonce), call.bots);
      CommitKeepsNumbers(s.db, call.thread, Some(call.nonce), call.bots);
      CommitServes(s.db, call.thread, Some(call.nonce), call.bots, s.targets);
      forall i | 0 <= i < |s.answers| ensures Stands(db, s.answers[i]) {
        CommitKeepsAnswer(s.db, call.thread, Some(call.nonce), call.bots, s.answers[i]);
      }
      OwnAnswerStands(s.db, call);
    }
  }

  lemma OwnAnswerStands(db: Db, call: Call)
    requires Linked(db) && Holder(db.messages, call.thread, call.nonce).None?
    ensures Stands(Committed(db, call.thread, Some(call.nonce), call.bots),
                   Answer(call.thread, call.nonce,
                          Receipt(NumberFor(db, call.thread), Positions(|db.runs|, |call.bots|))))
  {
    RunsOfCommitted(db, call.thread, Some(call.nonce), call.bots);
    HolderStays(db.messages, Message(call.thread, NumberFor(db, call.thread), Some(call.nonce)), call.thread, call.nonce);
  }

  lemma InvariantStep(s: System, a: Action)
    requires Invariant(s)
    ensures Invariant(Step(s, a))
  {
    hide Linked, UniqueNonces, Stands, AllServed, Numbered;
    match a
    case Transact(c, conflict) => if c in s.tasks && s.tasks[c].Sending? { InvariantSend(s, c, s.tasks[c].call, conflict); }
    case Look(c) => if c in s.tasks && !s.tasks[c].Sending? { InvariantLook(s, c); }
    case SendWithoutNonce(thread, bots) =>
      if Distinct(bots) && bots != [] { InvariantCommit(s, thread, bots); }
    case Say(thread) => InvariantCommit(s, thread, []);
    case RunMoves(r, to) => if r < |s.db.runs| { InvariantRunMoves(s, r, to); }
    case _ =>
  }

  lemma InvariantCommit(s: System, thread: ThreadId, bots: seq<BotId>)
    requires Invariant(s) && Distinct(bots)
    ensures Invariant(Commit(s, thread, None, bots))
  {
    hide Linked, UniqueNonces, Stands, AllServed, Numbered;
    CommitKeepsLinks(s.db, thread, None, bots);
    CommitKeepsNonces(s.db, thread, None, bots);
    CommitKeepsNumbers(s.db, thread, None, bots);
    CommitServes(s.db, thread, None, bots, s.targets);
    forall i | 0 <= i < |s.answers| ensures Stands(Committed(s.db, thread, None, bots), s.answers[i]) {
      CommitKeepsAnswer(s.db, thread, None, bots, s.answers[i]);
    }
  }

  lemma InvariantLook(s: System, c: CallerId)
    requires Invariant(s) && c in s.tasks && !s.tasks[c].Sending?
    ensures Invariant(LookUp(s, c, s.tasks[c]))
  {
    hide Linked, UniqueNonces, AllServed, Numbered;
    HolderSpec(s.db.messages, s.tasks[c].call.thread, s.tasks[c].call.nonce);
  }

  lemma RunMovesKeepsRuns(s: System, r: nat, to: Status)
    requires r < |s.db.runs|
    ensures var t := Step(s, RunMoves(r, to));
      && |t.db.runs| == |s.db.runs| && t.db.runs[r].status == to
      && (forall q :: 0 <= q < |s.db.runs| ==> t.db.runs[q] == s.db.runs[q].(status := t.db.runs[q].status))
      && (forall m :: 0 <= m < |s.db.messages| ==> RunsOf(t.db, m) == RunsOf(s.db, m))
  {
    var t := Step(s, RunMoves(r, to));
    forall m ensures RunsOf(t.db, m) == RunsOf(s.db, m) { }
  }

  lemma InvariantRunMoves(s: System, r: nat, to: Status)
    requires Invariant(s) && r < |s.db.runs|
    ensures Invariant(Step(s, RunMoves(r, to)))
  {
    hide RunsOf, Serves;
    var t := Step(s, RunMoves(r, to));
    RunMovesKeepsRuns(s, r, to);
    assert Numbered(t.db) by { hide InThread; assert forall thread :: NumberFor(t.db, thread) == NumberFor(s.db, thread); }
    forall m | 0 <= m < |s.targets| ensures Serves(t.db, m, s.targets[m]) {
      ServesStill(s.db, t.db, m, s.targets[m]);
    }
    forall i | 0 <= i < |s.answers| ensures Stands(t.db, s.answers[i]) {
      assert Stands(s.db, s.answers[i]);
    }
  }

  lemma {:induction false} InvariantHolds(actions: seq<Action>)
    ensures Invariant(Run(actions))
  {
    if actions != [] {
      hide Step, Invariant;
      InvariantHolds(actions[..|actions| - 1]);
      InvariantStep(Run(actions[..|actions| - 1]), actions[|actions| - 1]);
    }
  }

  // ---------- results ----------

  /**
   * Concurrent or repeated sends with one nonce leave one message with exactly one run for each
   * target bot of the send that won, and every caller that succeeds is told the same number and
   * the same runs.
   */
  lemma OneSendPerNonce(actions: seq<Action>, i: nat, j: nat)
    requires var s := Run(actions);
      && i < |s.answers| && j < |s.answers|
      && s.answers[i].thread == s.answers[j].thread && s.answers[i].nonce == s.answers[j].nonce
    ensures var s := Run(actions);
      var a := s.answers[i];
      && a.receipt == s.answers[j].receipt
      && (exists m :: 0 <= m < |s.db.messages| && HoldsAlone(s.db, m, a.thread, a.nonce)
                   && a.receipt == Receipt(s.db.messages[m].number, RunsOf(s.db, m))
                   && m < |s.targets| && Serves(s.db, m, s.targets[m]))
      && a.receipt.runs != {}
      && (forall q, r :: q in a.receipt.runs && r in a.receipt.runs && q != r ==> s.db.runs[q].bot != s.db.runs[r].bot)
  {
    InvariantHolds(actions);
    var s := Run(actions);
    var a := s.answers[i];
    assert Stands(s.db, a) && Stands(s.db, s.answers[j]);
    var m := Holder(s.db.messages, a.thread, a.nonce).value;
    HolderSpec(s.db.messages, a.thread, a.nonce);
    assert HoldsAlone(s.db, m, a.thread, a.nonce);
  }

  /** The one message of the thread with this nonce. */
  ghost predicate HoldsAlone(db: Db, m: nat, thread: ThreadId, nonce: Nonce) {
    && m < |db.messages| && db.messages[m].thread == thread && db.messages[m].nonce == Some(nonce)
    && forall n :: 0 <= n < |db.messages| && db.messages[n].thread == thread && db.messages[n].nonce == Some(nonce) ==> n == m
  }

  /**
   * The messages of a thread, bots' own ones among them, are numbered 0, 1, 2 and so on in the order
   * in which they were committed, with no number left out or given twice, and the thread's counter is
   * the next one.
   */
  lemma NumbersAreGapless(actions: seq<Action>, thread: ThreadId, k: nat)
    ensures var db := Run(actions).db;
      && (forall m, n :: 0 <= m < n < |db.messages| && db.messages[m].thread == thread && db.messages[n].thread == thread ==>
           db.messages[m].number < db.messages[n].number)
      && (k < NumberFor(db, thread) <==>
           exists m :: 0 <= m < |db.messages| && db.messages[m].thread == thread && db.messages[m].number == k)
  {
    hide Run;
    InvariantHolds(actions);
    var db := Run(actions).db;
    forall m, n | 0 <= m < n < |db.messages| && db.messages[m].thread == thread && db.messages[n].thread == thread
      ensures db.messages[m].number < db.messages[n].number
    {
      assert db.messages[..m + 1][..m] == db.messages[..m];
      InThreadGrows(db.messages, m + 1, n, thread);
    }
    if k < NumberFor(db, thread) {
      var m := WithCount(db.messages, thread, k);
      assert db.messages[m].number == k;
    } else {
      forall m | 0 <= m < |db.messages| && db.messages[m].thread == thread ensures db.messages[m].number < k {
        assert db.messages[..m + 1][..m] == db.messages[..m];
        InThreadGrows(db.messages, m + 1, |db.messages|, thread);
        assert db.messages[..|db.messages|] == db.messages;
      }
    }
  }

  lemma {:induction false} InThreadGrows(messages: seq<Message>, m: nat, n: nat, thread: ThreadId)
    requires m <= n <= |messages|
    ensures InThread(messages[..m], thread) <= InThread(messages[..n], thread)
    decreases n
  {
    if m < n {
      assert messages[..n][..n - 1] == messages[..n - 1];
      InThreadGrows(messages, m, n - 1, thread);
    }
  }

  /** The message that has k others of its thread before it. */
  lemma {:induction false} WithCount(messages: seq<Message>, thread: ThreadId, k: nat) returns (m: nat)
    requires k < InThread(messages, thread)
    ensures m < |messages| && messages[m].thread == thread && InThread(messages[..m], thread) == k
  {
    var n := |messages| - 1;
    if k < InThread(messages[..n], thread) {
      m := WithCount(messages[..n], thread, k);
      assert messages[..n][..m] == messages[..m];
    } else {
      m := n;
    }
  }

  /**
   * A message without a nonce is committed at once: a bot's own, with the next number and no run, and
   * a user's, with the next number and one run for each target; no caller is told anything.
   */
  lemma MessageWithoutNonce(s: System, thread: ThreadId, bots: seq<BotId>)
    requires Distinct(bots)
    ensures var t := Step(s, if bots == [] then Say(thread) else SendWithoutNonce(thread, bots));
      && t.db.messages == s.db.messages + [Message(thread, NumberFor(s.db, thread), None)]
      && NumberFor(t.db, thread) == NumberFor(s.db, thread) + 1
      && |t.db.runs| == |s.db.runs| + |bots|
      && (forall i :: 0 <= i < |bots| ==> t.db.runs[|s.db.runs| + i] == RunRow(thread, bots[i], |s.db.messages|, Queued))
      && (bots == [] ==> t.db.runs == s.db.runs)
      && t.tasks == s.tasks && t.answers == s.answers
      && Step(s, SendWithoutNonce(thread, [])) == s
  {
    hide LookUp, Send, Holder, RunsOf, Taken;
    var t := Step(s, if bots == [] then Say(thread) else SendWithoutNonce(thread, bots));
    assert t == Commit(s, thread, None, bots);
    hide Step;
    CommitAddsMessage(s.db, thread, bots);
  }

  lemma CommitAddsMessage(db: Db, thread: ThreadId, bots: seq<BotId>)
    ensures var after := Committed(db, thread, None, bots);
      && after.messages == db.messages + [Message(thread, NumberFor(db, thread), None)]
      && NumberFor(after, thread) == NumberFor(db, thread) + 1
      && |after.runs| == |db.runs| + |bots|
      && (forall i :: 0 <= i < |bots| ==> after.runs[|db.runs| + i] == RunRow(thread, bots[i], |db.messages|, Queued))
      && (bots == [] ==> after.runs == db.runs)
  {
  }

  /** A crash ends the caller's send wherever it is, and nothing else. */
  lemma CrashEndsOne(actions: seq<Action>, c: CallerId)
    ensures var s, t := Run(actions), Run(actions + [Crash(c)]);
      t.db == s.db && t.answers == s.answers && c !in t.tasks
      && forall d :: d != c ==> (d in t.tasks <==> d in s.tasks) && (d in s.tasks ==> t.tasks[d] == s.tasks[d])
  {
    assert (actions + [Crash(c)])[..|actions|] == actions;
  }

  /** A send from its first look to its last, when nobody disturbs it. */
  function SendAlone(s: System, c: CallerId, call: Call, conflict: bool): System {
    Step(Step(Step(Step(s, Begin(c, call)), Look(c)), Transact(c, conflict)), Look(c))
  }

  /** If a message of the thread holds the nonce, the caller is told its number and runs, and nothing else changes. */
  lemma RepeatedSendIsReplayed(actions: seq<Action>, c: CallerId, call: Call, conflict: bool, m: nat)
    requires c !in Run(actions).tasks && Distinct(call.bots)
    requires var db := Run(actions).db;
      m < |db.messages| && db.messages[m].thread == call.thread && db.messages[m].nonce == Some(call.nonce)
    ensures var s := Run(actions);
      SendAlone(s, c, call, conflict) == s.(
        answers := s.answers + [Answer(call.thread, call.nonce, Receipt(s.db.messages[m].number, RunsOf(s.db, m)))])
  {
    hide Run, RunsOf, AllServed, Numbered, Stands;
    InvariantHolds(actions);
    var s := Run(actions);
    HolderSpec(s.db.messages, call.thread, call.nonce);
    assert Holder(s.db.messages, call.thread, call.nonce) == Some(m);
    assert s.tasks[c := Looking(call)] - {c} == s.tasks;
  }

  lemma LookMisses(s: System, c: CallerId, call: Call)
    requires c !in s.tasks && Distinct(call.bots) && Holder(s.db.messages, call.thread, call.nonce).None?
    ensures Step(Step(s, Begin(c, call)), Look(c)) == s.(tasks := s.tasks[c := Sending(call)])
  {
  }

  lemma TransactEnds(s: System, c: CallerId, call: Call, conflict: bool)
    requires c in s.tasks && s.tasks[c] == Sending(call) && Holder(s.db.messages, call.thread, call.nonce).None?
    ensures var t := Step(Step(s, Transact(c, conflict)), Look(c));
      if conflict || call.bots == [] then t == s.(tasks := s.tasks - {c})
      else t == Tell(Commit(s, call.thread, Some(call.nonce), call.bots), c, call,
                     Receipt(NumberFor(s.db, call.thread), Positions(|s.db.runs|, |call.bots|)))
  {
    hide Committed, Holder, RunsOf, Positions;
  }

  /**
   * If none does: when the transaction fails, or no bot is targeted, nothing changes at all; otherwise
   * the message is committed, and the caller is told its number and all of its runs.
   */
  lemma NewSendCommits(actions: seq<Action>, c: CallerId, call: Call, conflict: bool)
    requires c !in Run(actions).tasks && Distinct(call.bots)
    requires !Taken(Run(actions).db, call.thread, Some(call.nonce))
    ensures var s := Run(actions);
      var t := SendAlone(s, c, call, conflict);
      var n := |s.db.messages|;
      if conflict || call.bots == [] then t == s
      else
        && t.db == Committed(s.db, call.thread, Some(call.nonce), call.bots) && t.tasks == s.tasks
        && t.answers == s.answers + [Answer(call.thread, call.nonce, Receipt(t.db.messages[n].number, RunsOf(t.db, n)))]
  {
    hide Run, Taken;
    InvariantHolds(actions);
    var s := Run(actions);
    TakenIsHeld(s.db, call.thread, call.nonce);
    RunsOfCommitted(s.db, call.thread, Some(call.nonce), call.bots);
    hide RunsOf, CancelSuperseded, NewRuns, Invariant, Holder, Step;
    LookMisses(s, c, call);
    TransactEnds(s.(tasks := s.tasks[c := Sending(call)]), c, call, conflict);
    assert s.tasks[c := Sending(call)] - {c} == s.tasks;
  }
}
