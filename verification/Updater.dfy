/**
 * The server updater: pin the image tag, run a plan, and compensate when a command fails.
 *
 * Whether each command succeeds, and what a merge yields, is decided outside and passed in as a
 * Fate. A failed command changes nothing, except that a failed recreate leaves the services mixed.
 */
module Updater {
  import opened Basics
  import EnvFile
  import Text

  const IMAGE_TAG_ENV := "RAKAZO_IMAGE_TAG"
  const PREVIOUS_IMAGE_TAG_ENV := "RAKAZO_IMAGE_TAG_PREVIOUS"
  const DEFAULT_IMAGE_TAG := "local"

  // ---------- tags and commits ----------

  predicate IsHex(c: char) { '0' <= c <= '9' || 'a' <= c <= 'f' }

  predicate IsCommit(s: string) {
    40 <= |s| <= 64 && forall i :: 0 <= i < |s| ==> IsHex(s[i])
  }

  type Commit = s: string | IsCommit(s) witness seq(40, _ => '0')

  predicate IsTag(s: string) {
    && 1 <= |s| <= 128
    && (EnvFile.IsAlnum(s[0]) || s[0] == '_')
    && forall i :: 0 <= i < |s| ==> EnvFile.IsAlnum(s[i]) || s[i] == '_' || s[i] == '.' || s[i] == '-'
  }

  type Tag = s: string | IsTag(s) witness "local"

  function ForkImageTag(commit: Commit): Tag {
    assert forall i :: 0 <= i < |commit| ==> IsHex(commit[i]);
    "local-" + commit
  }

  function CommitImageTag(commit: Commit): Tag {
    assert forall i :: 0 <= i < |commit| ==> IsHex(commit[i]);
    "sha-" + commit
  }

  /** A tag names its commit, and says whether it is a release's or built here. */
  lemma TagsNameCommits(a: Commit, b: Commit)
    ensures ForkImageTag(a) == ForkImageTag(b) <==> a == b
    ensures CommitImageTag(a) == CommitImageTag(b) <==> a == b
    ensures ForkImageTag(a) != CommitImageTag(b)
    ensures ForkImageTag(a) != DEFAULT_IMAGE_TAG && CommitImageTag(a) != DEFAULT_IMAGE_TAG
  {
    assert ForkImageTag(a)[6..] == a && ForkImageTag(b)[6..] == b;
    assert CommitImageTag(a)[4..] == a && CommitImageTag(b)[4..] == b;
    assert ForkImageTag(a)[0] == 'l' && CommitImageTag(b)[0] == 's' && CommitImageTag(a)[0] == 's';
  }

  datatype TagState = TagState(currentTag: Tag, previousTag: Option<Tag>)

  function ValidTag(value: Option<string>): Option<Tag> {
    if value.Some? && IsTag(value.value) then Some(value.value) else None
  }

  function Assigned(contents: string, key: string): Option<string> {
    EnvFile.LastValue(EnvFile.Marks(EnvFile.Lines(contents), key))
  }

  function ReadTagState(contents: string): TagState {
    TagState(OrElse(ValidTag(Assigned(contents, IMAGE_TAG_ENV)), DEFAULT_IMAGE_TAG),
             ValidTag(Assigned(contents, PREVIOUS_IMAGE_TAG_ENV)))
  }

  function OrElse(tag: Option<Tag>, default: Tag): Tag {
    if tag.Some? then tag.value else default
  }

  // ---------- the pin ----------

  function Assignments(current: Tag, previous: Tag): seq<EnvFile.Assignment> {
    [EnvFile.Assignment(IMAGE_TAG_ENV, current), EnvFile.Assignment(PREVIOUS_IMAGE_TAG_ENV, previous)]
  }

  lemma AssignmentsAreManaged(current: Tag, previous: Tag)
    ensures EnvFile.Managed(Assignments(current, previous))
  {
    hide IsTag, EnvFile.IsValue, EnvFile.IsKey;
    CurrentIsKey();
    PreviousIsKey();
    TagIsValue(current);
    TagIsValue(previous);
    assert |IMAGE_TAG_ENV| != |PREVIOUS_IMAGE_TAG_ENV|;
  }

  lemma CurrentIsKey()
    ensures EnvFile.IsKey(IMAGE_TAG_ENV)
  {
  }

  lemma PreviousIsKey()
    ensures EnvFile.IsKey(PREVIOUS_IMAGE_TAG_ENV)
  {
  }

  lemma TagIsValue(tag: Tag)
    ensures EnvFile.IsValue(tag)
  {
    var text := tag;
    assert IsTag(text);
  }

  function Pinned(contents: string, current: Tag, previous: Tag): string {
    AssignmentsAreManaged(current, previous);
    EnvFile.ReadAfterUpsert(contents, Assignments(current, previous), IMAGE_TAG_ENV);
    EnvFile.Upsert(contents, Assignments(current, previous)).value
  }

  /** Some line of the file outlasts every rewrite of the key. */
  predicate Shadowed(contents: string, key: string) {
    EnvFile.Shadowing(contents, key).Some?
  }

  /** What the file says after a pin, for every file. */
  lemma PinReads(contents: string, current: Tag, previous: Tag)
    ensures var before, after := ReadTagState(contents), ReadTagState(Pinned(contents, current, previous));
      && after.currentTag == (if Shadowed(contents, IMAGE_TAG_ENV) then before.currentTag else current)
      && after.previousTag == (if Shadowed(contents, PREVIOUS_IMAGE_TAG_ENV) then before.previousTag else Some(previous))
    ensures Shadowed(Pinned(contents, current, previous), IMAGE_TAG_ENV) == Shadowed(contents, IMAGE_TAG_ENV)
    ensures Shadowed(Pinned(contents, current, previous), PREVIOUS_IMAGE_TAG_ENV)
         == Shadowed(contents, PREVIOUS_IMAGE_TAG_ENV)
  {
    hide EnvFile.Upsert, EnvFile.Marks, EnvFile.Lines, IsTag;
    AssignmentsAreManaged(current, previous);
    var assignments := Assignments(current, previous);
    EnvFile.ReadAfterUpsert(contents, assignments, IMAGE_TAG_ENV);
    EnvFile.ReadAfterUpsert(contents, assignments, PREVIOUS_IMAGE_TAG_ENV);
    assert EnvFile.ValueFor(assignments, IMAGE_TAG_ENV) == Some(current);
    assert IMAGE_TAG_ENV != PREVIOUS_IMAGE_TAG_ENV;
    assert assignments[1..] == [EnvFile.Assignment(PREVIOUS_IMAGE_TAG_ENV, previous)];
    assert EnvFile.ValueFor(assignments, PREVIOUS_IMAGE_TAG_ENV) == Some(previous);
    ShadowIsRead(contents, IMAGE_TAG_ENV);
    ShadowIsRead(contents, PREVIOUS_IMAGE_TAG_ENV);
  }

  lemma ShadowIsRead(contents: string, key: string)
    ensures Shadowed(contents, key) ==> EnvFile.Shadowing(contents, key) == Assigned(contents, key)
  {
  }

  // ---------- commands ----------

  datatype Command =
    | SetRemote(url: string)
    | Fetch(branch: string)
    | Checkout(branch: string)
    | Merge(branch: string)
    | Pull
    | Recreate
    | Recover                                            // compensations from here on
    | RestoreCheckout(onBranch: Option<string>, commit: Commit)
    | RestoreRemote(url: string)

  predicate IsGit(c: Command) {
    c.SetRemote? || c.Fetch? || c.Checkout? || c.Merge?
  }

  datatype Outcome = Outcome(command: Command, ok: bool)

  /** What the outside world decides during one run. */
  datatype Fate = Fate(
    succeeds: nat -> bool,     // the n-th command of the run
    merged: Commit,            // where a merge leaves the checked-out branch
    headReadable: bool,        // rev-parse after the git steps
    pinWritten: bool,
    revertWritten: bool)

  /** Tags and branches as git and Compose see them. */
  datatype Image = Running(tag: Tag) | Mixed

  datatype Worktree = Worktree(head: Commit, branch: Option<string>, tips: map<string, Commit>, remote: Option<string>)

  function Effect(tree: Worktree, c: Command, merged: Commit): Worktree {
    match c
    case SetRemote(url) => tree.(remote := Some(url))
    case Checkout(branch) =>
      tree.(branch := Some(branch), head := if branch in tree.tips then tree.tips[branch] else merged,
            tips := tree.tips[branch := if branch in tree.tips then tree.tips[branch] else merged])
    case Merge(_) =>
      tree.(head := merged,
            tips := if tree.branch.Some? then tree.tips[tree.branch.value := merged] else tree.tips)
    case RestoreCheckout(onBranch, commit) =>
      if onBranch.Some?
      then tree.(head := commit, branch := onBranch, tips := tree.tips[onBranch.value := commit])
      else tree.(head := commit, branch := None)
    case RestoreRemote(url) => tree.(remote := Some(url))
    case _ => tree
  }

  /** The checked-out branch, if there is one, stands where the head is. */
  predicate HeadOnBranch(tree: Worktree) {
    tree.branch.Some? ==> tree.branch.value in tree.tips && tree.tips[tree.branch.value] == tree.head
  }

  /** Every command keeps the head on its branch; a checkout goes to the branch where it stands. */
  lemma HeadStaysOnBranch(tree: Worktree, c: Command, merged: Commit)
    requires HeadOnBranch(tree)
    ensures HeadOnBranch(Effect(tree, c, merged))
    ensures c.Checkout? ==>
      && Effect(tree, c, merged).branch == Some(c.branch)
      && (c.branch in tree.tips ==> Effect(tree, c, merged).tips == tree.tips)
  {
    if c.Checkout? && c.branch in tree.tips { assert tree.tips[c.branch := tree.tips[c.branch]] == tree.tips; }
  }

  /** So wherever a run of commands ends, however many of them failed, the branch and the head agree. */
  lemma {:induction false} HeadOnBranchAfter(tree: Worktree, steps: seq<Outcome>, merged: Commit)
    requires HeadOnBranch(tree)
    ensures HeadOnBranch(After(tree, steps, merged))
  {
    hide HeadOnBranch, Effect;
    if steps != [] {
      var n := |steps| - 1;
      HeadOnBranchAfter(tree, steps[..n], merged);
      HeadStaysOnBranch(After(tree, steps[..n], merged), steps[n].command, merged);
    }
  }

  /** The ordered work of one update; composeUpdatePlan. */
  function BuildPlan(url: string, branch: string, repoint: bool): seq<Command> {
    (if repoint then [SetRemote(url)] else []) + [Fetch(branch), Checkout(branch), Merge(branch), Recreate]
  }

  const PULL_PLAN := [Pull, Recreate]

  /** Reusing the cached image: the pull plan without its pull. */
  const ROLLBACK_PLAN := [Recreate]

  /** What a plan must be for the compensation to be enough. */
  predicate Plannable(steps: seq<Command>, branch: string) {
    && (forall i :: 0 <= i < |steps| ==>
         && !steps[i].Recover? && !steps[i].RestoreCheckout? && !steps[i].RestoreRemote?
         && (steps[i].Checkout? ==> steps[i].branch == branch))
    && |steps| > 0 && steps[|steps| - 1] == Recreate
    && (forall i :: 0 <= i < |steps| - 1 ==> !steps[i].Recreate?)
  }

  lemma PlansArePlannable(url: string, branch: string, repoint: bool)
    ensures Plannable(BuildPlan(url, branch, repoint), branch)
    ensures Plannable(PULL_PLAN, branch) && Plannable(ROLLBACK_PLAN, branch)
  {
  }

  /** normalizeUpdateBranch accepts the (already trimmed) name. */
  predicate UsableBranch(b: string) {
    && 0 < |b| <= 200
    && (forall i :: 0 <= i < |b| ==>
         b[i] > ' ' && b[i] != '\U{7F}' && !Text.IsSpace(b[i]) && b[i] !in "~^:?*[\\")
    && b[0] != '-' && b[0] != '/' && b[|b| - 1] != '/' && b[|b| - 1] != '.' && b != "@"
    && Text.Absent(b, "..") && Text.Absent(b, "@{") && Text.Absent(b, "//")
    && (forall i :: 0 <= i < |b| && b[i] == '.' ==> i > 0 && b[i - 1] != '/')
    && (forall i: nat :: i < |b| && Text.At(b, ".lock", i) ==> i + 5 < |b| && b[i + 5] != '/')
  }

  /** restoreCheckoutArgv; the name read from git is "HEAD" when the checkout is detached. */
  function RestoreTarget(fromBranch: Option<string>): Option<string> {
    if fromBranch.Some? && fromBranch.value != "HEAD" && UsableBranch(fromBranch.value) then fromBranch else None
  }

  datatype Restart = NotRequired | Recreated | Manual

  datatype Failure = StepFailed(command: Command) | HeadUnreadable | NoTarget | PinFailed

  datatype Record = Record(
    ok: bool,
    steps: seq<Outcome>,
    toCommit: Option<Commit>,
    toTag: Option<Tag>,
    restart: Restart,
    error: Option<Failure>)

  /** The services were recreated by a success alone, and need a hand exactly if their recovery failed. */
  predicate RestartTells(record: Record) {
    && (record.restart == Recreated <==> record.ok)
    && (record.restart == Manual <==> Outcome(Recover, false) in record.steps)
  }

  /** The command is the first of the run that failed. */
  predicate FirstToFail(steps: seq<Outcome>, c: Command) {
    exists i :: 0 <= i < |steps| && steps[i] == Outcome(c, false) && AllOk(steps[..i])
  }

  /** Why a run failed. */
  predicate ErrorTells(input: Input, fate: Fate, record: Record) {
    var gitDone := AllOk(GitTried(input, fate));
    var headKnown := input.build ==> fate.headReadable;
    && (record.ok <==> record.error.None?)
    && (record.error == Some(HeadUnreadable) <==> gitDone && !headKnown)
    && (record.error == Some(NoTarget) <==> gitDone && headKnown && !input.build && input.toTag.None?)
    && (record.error == Some(PinFailed) <==>
         gitDone && headKnown && (input.build || input.toTag.Some?) && !fate.pinWritten)
    && (record.error.Some? && record.error.value.StepFailed? ==> FirstToFail(record.steps, record.error.value.command))
  }

  datatype Input = Input(
    build: bool,
    branch: string,
    fromTag: Tag,
    originalPrevious: Option<Tag>,
    toTag: Option<Tag>,
    fromCommit: Option<Commit>,
    fromBranch: Option<string>,
    toCommit: Option<Commit>,
    restoreRemote: Option<string>,
    steps: seq<Command>)

  function RevertPrevious(input: Input): Tag {
    OrElse(input.originalPrevious, input.fromTag)
  }

  predicate IsCompensation(c: Command) {
    c.Recover? || c.RestoreCheckout? || c.RestoreRemote?
  }

  /** Every compensating command of the run succeeded. */
  predicate Compensated(steps: seq<Outcome>) {
    forall i :: 0 <= i < |steps| && IsCompensation(steps[i].command) ==> steps[i].ok
  }

  predicate AllOk(steps: seq<Outcome>) {
    forall i :: 0 <= i < |steps| ==> steps[i].ok
  }

  predicate Touches(c: Command) {
    c.Checkout? || c.Merge?
  }

  function GitSteps(steps: seq<Command>): seq<Command> {
    if steps == [] then [] else (if IsGit(steps[0]) then [steps[0]] else []) + GitSteps(steps[1..])
  }

  function ComposeSteps(steps: seq<Command>): seq<Command> {
    if steps == [] then [] else (if IsGit(steps[0]) then [] else [steps[0]]) + ComposeSteps(steps[1..])
  }

  lemma {:induction false} StepsOf(steps: seq<Command>)
    ensures forall c :: c in GitSteps(steps) <==> c in steps && IsGit(c)
    ensures forall c :: c in ComposeSteps(steps) <==> c in steps && !IsGit(c)
  {
    if steps != [] {
      StepsOf(steps[1..]);
      assert steps == [steps[0]] + steps[1..];
    }
  }

  /** The compose part of a plan ends with its only recreate. */
  lemma {:induction false} ComposeEndsWithRecreate(steps: seq<Command>, branch: string)
    requires Plannable(steps, branch)
    ensures var compose := ComposeSteps(steps);
      && |compose| > 0 && compose[|compose| - 1] == Recreate
      && forall i :: 0 <= i < |compose| - 1 ==> compose[i] != Recreate
  {
    if |steps| > 1 {
      ComposeEndsWithRecreate(steps[1..], branch);
    } else {
      assert ComposeSteps(steps) == [Recreate] + ComposeSteps(steps[1..]);
    }
  }

  // ---------- what a run does, step by step ----------

  /** Commands in order, the first of them the from-th of the run, up to and including the first that fails. */
  function Tried(commands: seq<Command>, fate: Fate, from: nat): seq<Outcome> {
    if commands == [] then []
    else
      [Outcome(commands[0], fate.succeeds(from))]
      + if fate.succeeds(from) then Tried(commands[1..], fate, from + 1) else []
  }

  function Commands(steps: seq<Outcome>): (commands: seq<Command>)
    ensures |commands| == |steps|
    ensures forall i :: 0 <= i < |steps| ==> commands[i] == steps[i].command
  {
    if steps == [] then [] else [steps[0].command] + Commands(steps[1..])
  }

  /** The worktree after the steps that succeeded. */
  function After(tree: Worktree, steps: seq<Outcome>, merged: Commit): Worktree {
    if steps == [] then tree
    else
      var n := |steps| - 1;
      var before := After(tree, steps[..n], merged);
      if steps[n].ok then Effect(before, steps[n].command, merged) else before
  }

  function GitTried(input: Input, fate: Fate): seq<Outcome> {
    Tried(GitSteps(input.steps), fate, 0)
  }

  /** The run gets as far as pinning its target tag. */
  predicate Pins(input: Input, fate: Fate) {
    && AllOk(GitTried(input, fate))
    && (input.build ==> fate.headReadable)
    && (input.build || input.toTag.Some?)
    && fate.pinWritten
  }

  function ComposeTried(input: Input, fate: Fate): seq<Outcome> {
    Tried(ComposeSteps(input.steps), fate, |GitTried(input, fate)|)
  }

  predicate Succeeds(input: Input, fate: Fate) {
    Pins(input, fate) && AllOk(ComposeTried(input, fate))
  }

  /** A failed recreate is answered by recreating the services on the old tag. */
  function Recovery(steps: seq<Outcome>, fate: Fate): seq<Outcome> {
    if steps != [] && steps[|steps| - 1].command.Recreate? && !steps[|steps| - 1].ok
    then [Outcome(Recover, fate.succeeds(|steps|))]
    else []
  }

  function Recovered(steps: seq<Outcome>, fate: Fate): seq<Outcome> {
    steps + Recovery(steps, fate)
  }

  /** The steps of a run up to its finally block. */
  function AttemptSteps(input: Input, fate: Fate): seq<Outcome> {
    if Pins(input, fate) then Recovered(GitTried(input, fate) + ComposeTried(input, fate), fate)
    else GitTried(input, fate)
  }

  function CheckoutBack(steps: seq<Outcome>, touched: bool, input: Input, fate: Fate): seq<Outcome> {
    if touched && input.fromCommit.Some?
    then steps + [Outcome(RestoreCheckout(RestoreTarget(input.fromBranch), input.fromCommit.value), fate.succeeds(|steps|))]
    else steps
  }

  function RemoteBackStep(steps: seq<Outcome>, input: Input, fate: Fate): seq<Outcome> {
    if input.restoreRemote.Some?
    then steps + [Outcome(RestoreRemote(input.restoreRemote.value), fate.succeeds(|steps|))]
    else steps
  }

  /** All steps of a run, in order, each with its outcome. */
  ghost function Transcript(input: Input, fate: Fate): seq<Outcome> {
    var steps := AttemptSteps(input, fate);
    if Succeeds(input, fate) then steps
    else RemoteBackStep(CheckoutBack(steps, Touched(steps), input, fate), input, fate)
  }

  predicate AllSucceed(fate: Fate, from: nat, to: nat) {
    forall n :: from <= n < to ==> fate.succeeds(n)
  }

  /** All of the commands are tried, and succeed, exactly when none of their steps fails. */
  lemma {:induction false} TriedAll(commands: seq<Command>, fate: Fate, from: nat)
    ensures AllOk(Tried(commands, fate, from)) <==> AllSucceed(fate, from, from + |commands|)
    ensures AllOk(Tried(commands, fate, from)) ==> Commands(Tried(commands, fate, from)) == commands
    decreases |commands|
  {
    if commands != [] {
      var rest := commands[1..];
      TriedAll(rest, fate, from + 1);
      var all := Tried(commands, fate, from);
      assert all[0].ok == fate.succeeds(from);
      if fate.succeeds(from) {
        var more := Tried(rest, fate, from + 1);
        assert all[1..] == more;
        FirstAndRest(all);
        assert AllSucceed(fate, from, from + |commands|) <==> AllSucceed(fate, from + 1, from + |commands|);
      }
    }
  }

  lemma FirstAndRest(steps: seq<Outcome>)
    requires steps != []
    ensures AllOk(steps) <==> steps[0].ok && AllOk(steps[1..])
  {
    if steps[0].ok && AllOk(steps[1..]) {
      forall i | 0 <= i < |steps| ensures steps[i].ok { assert i > 0 ==> steps[i] == steps[1..][i - 1]; }
    }
  }

  /** One more command of a list whose earlier ones succeeded. */
  lemma {:induction false} TriedNext(commands: seq<Command>, fate: Fate, from: nat, k: nat)
    requires k < |commands| && AllOk(Tried(commands[..k], fate, from))
    ensures Tried(commands[..k + 1], fate, from)
         == Tried(commands[..k], fate, from) + [Outcome(commands[k], fate.succeeds(from + k))]
    ensures !fate.succeeds(from + k) ==> Tried(commands, fate, from) == Tried(commands[..k + 1], fate, from)
    decreases k
  {
    if k > 0 {
      var rest := commands[1..];
      assert commands[..k][1..] == rest[..k - 1] && commands[..k + 1][1..] == rest[..k];
      FirstAndRest(Tried(commands[..k], fate, from));
      assert Tried(commands[..k], fate, from)[1..] == Tried(rest[..k - 1], fate, from + 1);
      TriedNext(rest, fate, from + 1, k - 1);
    }
  }

  lemma AfterNext(tree: Worktree, steps: seq<Outcome>, last: Outcome, merged: Commit)
    ensures After(tree, steps + [last], merged)
         == (if last.ok then Effect(After(tree, steps, merged), last.command, merged) else After(tree, steps, merged))
  {
    assert (steps + [last])[..|steps|] == steps;
  }

  /** What the git steps can have done to the worktree: only the checked-out target branch moves. */
  ghost predicate Drifted(was: Worktree, now: Worktree, branch: string, touched: bool) {
    && (!touched ==> now == was.(remote := now.remote))
    && (touched ==> now.branch == Some(branch))
    && SameOtherTips(was.tips, now.tips, {branch})
  }

  ghost predicate SameOtherTips(was: map<string, Commit>, now: map<string, Commit>, moved: set<string>) {
    forall b :: b !in moved ==> (b in now <==> b in was) && (b in was ==> now[b] == was[b])
  }

  ghost predicate Touched(steps: seq<Outcome>) {
    exists i :: 0 <= i < |steps| && steps[i].ok && Touches(steps[i].command)
  }

  // ---------- the promises ----------

  datatype Deployment = Deployment(env: string, tree: Worktree, image: Image)

  /** A run that reports success: the whole plan was carried out, and its tag is pinned and running. */
  ghost predicate Deployed(was: Deployment, now: Deployment, input: Input, record: Record, merged: Commit) {
    && AllOk(record.steps) && Commands(record.steps) == GitSteps(input.steps) + ComposeSteps(input.steps)
    && now.tree == After(was.tree, record.steps, merged)
    && record.toTag.Some?
    && now.env == Pinned(was.env, record.toTag.value, input.fromTag)
    && now.image == Running(record.toTag.value)
    && (!input.build ==> record.toTag == input.toTag && record.toCommit == input.toCommit)
    && (input.build ==> record.toCommit == Some(now.tree.head) && record.toTag == Some(ForkImageTag(now.tree.head)))
  }

  /** The pin of a failed run: never written, or written and taken back. */
  ghost predicate Unpinned(was: string, now: string, input: Input) {
    || now == was
    || exists tag: Tag :: now == Pinned(Pinned(was, tag, input.fromTag), input.fromTag, RevertPrevious(input))
  }

  /** The checkout of a failed run; a commit that could not be read beforehand cannot be restored. */
  ghost predicate CheckedOut(was: Worktree, now: Worktree, input: Input, touched: bool) {
    if !touched then now.head == was.head && now.branch == was.branch && now.tips == was.tips
    else if input.fromCommit.None? then SameOtherTips(was.tips, now.tips, {input.branch})
    else
      var onto := RestoreTarget(input.fromBranch);
      && now.head == input.fromCommit.value && now.branch == onto
      && (onto.Some? ==> onto.value in now.tips && now.tips[onto.value] == now.head)
      && SameOtherTips(was.tips, now.tips, {input.branch} + if onto.Some? then {onto.value} else {})
  }

  ghost predicate RemoteBack(was: Worktree, now: Worktree, input: Input) {
    if input.restoreRemote.Some? then now.remote == input.restoreRemote
    else (forall c :: c in input.steps ==> !c.SetRemote?) ==> now.remote == was.remote
  }

  /** The failure came after the pin was written, and the file still holds it unless it was written back. */
  predicate FailedPinned(record: Record) {
    record.error.Some? && record.error.value.StepFailed? && !IsGit(record.error.value.command)
  }

  /** Every compensation of a failed run went through: its commands, and the pin if it had been written. */
  predicate Compensating(record: Record, fate: Fate) {
    !record.ok && Compensated(record.steps) && (FailedPinned(record) ==> fate.revertWritten)
  }

  /** A run that reports failure, when its compensations went through. */
  ghost predicate Reverted(was: Deployment, now: Deployment, input: Input, touched: bool) {
    && Unpinned(was.env, now.env, input)
    && (now.image == was.image || now.image == Running(input.fromTag))
    && CheckedOut(was.tree, now.tree, input, touched)
    && RemoteBack(was.tree, now.tree, input)
  }

  // ---------- requests ----------

  datatype Request = Request(repoUrl: string, branch: string, official: bool)

  /** What the updater can read before it acts. */
  datatype Survey = Survey(
    present: bool,              // there is a git checkout
    commitReadable: bool,
    branchReadable: bool,
    remoteReadable: bool,
    dirty: bool,
    release: Option<Commit>,    // the newest published release, if it could be listed
    remoteHead: Option<Commit>, // the branch head on the remote, if it could be listed
    sameRepository: bool)       // the checkout's remote already is the requested repository

  datatype Answer = Refused | UpToDate | Ran(record: Record)

  /** rev-parse --abbrev-ref */
  function GitBranchName(tree: Worktree): Option<string> {
    if tree.branch.Some? then tree.branch else Some("HEAD")
  }

  /** No line of the file outlasts a rewrite of the two managed keys. */
  predicate Rewritable(env: string) {
    !Shadowed(env, IMAGE_TAG_ENV) && !Shadowed(env, PREVIOUS_IMAGE_TAG_ENV)
  }

  /** The tag state after a pin of a file: a shadowed key keeps its old reading. */
  function Repinned(env: string, tag: Tag): TagState {
    var from := ReadTagState(env);
    TagState(if Shadowed(env, IMAGE_TAG_ENV) then from.currentTag else tag,
             if Shadowed(env, PREVIOUS_IMAGE_TAG_ENV) then from.previousTag else Some(from.currentTag))
  }

  predicate SameShadows(was: string, now: string) {
    && Shadowed(now, IMAGE_TAG_ENV) == Shadowed(was, IMAGE_TAG_ENV)
    && Shadowed(now, PREVIOUS_IMAGE_TAG_ENV) == Shadowed(was, PREVIOUS_IMAGE_TAG_ENV)
  }

  /** A successful run, as the next reader of the file and the running services show it. */
  ghost predicate Updated(was: Deployment, now: Deployment, record: Record) {
    && record.toTag.Some? && now.image == Running(record.toTag.value)
    && ReadTagState(now.env) == Repinned(was.env, record.toTag.value)
    && SameShadows(was.env, now.env)
  }

  /** A failed run whose compensations went through leaves everything as it was. */
  ghost predicate Undone(was: Deployment, now: Deployment, request: Request, survey: Survey, touched: bool) {
    var from, to := ReadTagState(was.env), ReadTagState(now.env);
    && to.currentTag == from.currentTag
    && (to.previousTag == from.previousTag || (from.previousTag.None? && to.previousTag == Some(from.currentTag)))
    && (now.image == was.image || now.image == Running(from.currentTag))
    && now.tree.remote == was.tree.remote
    && (request.official ==> now.tree == was.tree)
    && (survey.commitReadable ==> now.tree.head == was.tree.head)
    && (survey.commitReadable && survey.branchReadable && was.tree.branch.Some?
          && was.tree.branch != Some("HEAD") && UsableBranch(was.tree.branch.value) ==>
         && now.tree.branch == was.tree.branch
         && (touched ==> was.tree.branch.value in now.tree.tips && now.tree.tips[was.tree.branch.value] == was.tree.head))
    && SameOtherTips(was.tree.tips, now.tree.tips,
         {request.branch} + if was.tree.branch.Some? then {was.tree.branch.value} else {})
  }

  function PlanOf(request: Request, survey: Survey): seq<Command> {
    if request.official then PULL_PLAN else BuildPlan(request.repoUrl, request.branch, !survey.sameRepository)
  }

  /** What the request cannot do without: a release, or a clean checkout with a remote that has the branch. */
  predicate Unavailable(request: Request, survey: Survey, remote: Option<string>) {
    if request.official then survey.release.None?
    else !survey.present || !survey.remoteReadable || remote.None? || survey.dirty || survey.remoteHead.None?
  }

  /** The target is what runs already; a fork must also have its checkout on the remote head. */
  predicate Current(request: Request, survey: Survey, env: string, tree: Worktree) {
    var tag := ReadTagState(env).currentTag;
    if request.official then survey.release.Some? && tag == CommitImageTag(survey.release.value)
    else survey.commitReadable && Some(tree.head) == survey.remoteHead && tag == ForkImageTag(tree.head)
  }

  /** What a successful update deploys. */
  function TargetTag(request: Request, survey: Survey, merged: Commit): Option<Tag> {
    if !request.official then Some(ForkImageTag(merged))
    else if survey.release.Some? then Some(CommitImageTag(survey.release.value))
    else None
  }

  function TargetTree(request: Request, survey: Survey, tree: Worktree, merged: Commit): Worktree {
    if request.official then tree else Landed(tree, request.repoUrl, request.branch, !survey.sameRepository, merged)
  }

  /** A successful run of the request's plan reaches its target. */
  lemma TargetReached(was: Deployment, now: Deployment, input: Input, record: Record, request: Request, survey: Survey,
                      merged: Commit)
    requires Deployed(was, now, input, record, merged) && input.steps == PlanOf(request, survey)
    requires input.build == !request.official
    requires request.official ==> survey.release.Some? && input.toTag == Some(CommitImageTag(survey.release.value))
    ensures Commands(record.steps) == PlanOf(request, survey)
    ensures record.toTag == TargetTag(request, survey, merged)
    ensures now.tree == TargetTree(request, survey, was.tree, merged)
  {
    hide After, Commands, GitSteps, ComposeSteps, Pinned, CommitImageTag, ForkImageTag;
    PlansAreOrdered(request.repoUrl, request.branch, !survey.sameRepository);
    if request.official {
      ImagesLeaveTree(was.tree, record.steps, merged);
    } else {
      BuildLands(was.tree, record.steps, request.repoUrl, request.branch, !survey.sameRepository, merged);
    }
  }

  lemma NoGitInPulls()
    ensures GitSteps(PULL_PLAN) == [] && GitSteps(ROLLBACK_PLAN) == [] && MergesFollowCheckout([])
    ensures forall c :: c in PULL_PLAN || c in ROLLBACK_PLAN ==> !c.SetRemote?
  {
    assert PULL_PLAN[1..] == ROLLBACK_PLAN && ROLLBACK_PLAN[1..] == [];
  }

  lemma MergeComesAfterCheckout(url: string, branch: string, repoint: bool)
    ensures MergesFollowCheckout(GitSteps(BuildPlan(url, branch, repoint)))
    ensures !repoint ==> forall c :: c in BuildPlan(url, branch, repoint) ==> !c.SetRemote?
  {
    var git := [Fetch(branch), Checkout(branch), Merge(branch)];
    var plan := git + [Recreate];
    BuildGitSteps(branch);
    if repoint {
      assert ([SetRemote(url)] + plan)[1..] == plan;
      assert BuildPlan(url, branch, repoint) == [SetRemote(url)] + plan;
      assert GitSteps(BuildPlan(url, branch, repoint)) == [SetRemote(url)] + git;
      assert ([SetRemote(url)] + git)[2].Checkout?;
    } else {
      assert BuildPlan(url, branch, repoint) == plan;
      assert git[1].Checkout?;
    }
  }

  lemma BuildGitSteps(branch: string)
    ensures GitSteps([Fetch(branch), Checkout(branch), Merge(branch)] + [Recreate])
         == [Fetch(branch), Checkout(branch), Merge(branch)]
  {
    var plan := [Fetch(branch), Checkout(branch), Merge(branch)] + [Recreate];
    var a := plan[1..];
    var b := a[1..];
    var c := b[1..];
    assert c == [Recreate] && c[1..] == [];
    assert GitSteps(c) == [];
    assert GitSteps(b) == [Merge(branch)];
    assert GitSteps(a) == [Checkout(branch)] + [Merge(branch)];
  }

  /** How the file reads after a run, whatever lines it holds. */
  lemma RunReads(was: Deployment, now: Deployment, input: Input, record: Record, merged: Commit)
    requires ReadTagState(was.env) == TagState(input.fromTag, input.originalPrevious)
    ensures record.ok && Deployed(was, now, input, record, merged) ==> Updated(was, now, record)
    ensures Unpinned(was.env, now.env, input) ==>
      && ReadTagState(now.env).currentTag == input.fromTag
      && (ReadTagState(now.env).previousTag == input.originalPrevious
          || ReadTagState(now.env).previousTag == Some(RevertPrevious(input)))
  {
    hide ReadTagState, Pinned, Shadowed, IsTag, AllOk, After, Commands, GitSteps, ComposeSteps;
    if Deployed(was, now, input, record, merged) {
      PinReads(was.env, record.toTag.value, input.fromTag);
    }
    if Unpinned(was.env, now.env, input) && now.env != was.env {
      var tag: Tag :| now.env == Pinned(Pinned(was.env, tag, input.fromTag), input.fromTag, RevertPrevious(input));
      PinReads(was.env, tag, input.fromTag);
      PinReads(Pinned(was.env, tag, input.fromTag), input.fromTag, RevertPrevious(input));
    }
  }

  /** What execute is told about the deployment as it stands. */
  function RunInput(build: bool, branch: string, tags: TagState, toTag: Option<Tag>, survey: Survey, tree: Worktree,
                    toCommit: Option<Commit>, restoreRemote: Option<string>, steps: seq<Command>): Input
  {
    Input(build, branch, tags.currentTag, tags.previousTag, toTag,
          if survey.present && survey.commitReadable then Some(tree.head) else None,
          if survey.present && survey.branchReadable then GitBranchName(tree) else None,
          toCommit, restoreRemote, steps)
  }

  /** The input belongs to the request and to the deployment as it was. */
  ghost predicate Suited(was: Deployment, input: Input, request: Request, survey: Survey) {
    && Plannable(input.steps, input.branch)
    && MergesFollowCheckout(GitSteps(input.steps))
    && ReadTagState(was.env) == TagState(input.fromTag, input.originalPrevious)
    && input == RunInput(input.build, request.branch, ReadTagState(was.env), input.toTag, survey, was.tree,
                         input.toCommit, input.restoreRemote, input.steps)
    && (GitSteps(input.steps) == [] || (survey.present && !request.official))
    && (input.restoreRemote.Some? ==> input.restoreRemote == was.tree.remote)
    && (input.restoreRemote.None? ==> forall c :: c in input.steps ==> !c.SetRemote?)
  }

  lemma UndoneRun(was: Deployment, now: Deployment, input: Input, request: Request, survey: Survey, touched: bool)
    requires Reverted(was, now, input, touched)
    requires ReadTagState(was.env) == TagState(input.fromTag, input.originalPrevious)
    requires input == RunInput(input.build, request.branch, ReadTagState(was.env), input.toTag, survey, was.tree,
                               input.toCommit, input.restoreRemote, input.steps)
    requires touched ==> survey.present && !request.official
    requires input.restoreRemote.Some? ==> input.restoreRemote == was.tree.remote
    requires input.restoreRemote.None? ==> forall c :: c in input.steps ==> !c.SetRemote?
    ensures Undone(was, now, request, survey, touched)
  {
    hide ReadTagState, UsableBranch, Unpinned;
    RunReads(was, now, input, Record(false, [], None, None, NotRequired, None), was.tree.head);
  }

  function Restored(tree: Worktree, input: Input, touched: bool): Worktree {
    var checkedOut :=
      if touched && input.fromCommit.Some?
      then Effect(tree, RestoreCheckout(RestoreTarget(input.fromBranch), input.fromCommit.value), input.fromCommit.value)
      else tree;
    if input.restoreRemote.Some? then checkedOut.(remote := input.restoreRemote) else checkedOut
  }

  lemma RestoredIsBack(was: Worktree, now: Worktree, input: Input, touched: bool)
    requires Drifted(was, now, input.branch, touched)
    requires (forall c :: c in input.steps ==> !c.SetRemote?) ==> now.remote == was.remote
    ensures CheckedOut(was, Restored(now, input, touched), input, touched)
    ensures RemoteBack(was, Restored(now, input, touched), input)
  {
  }

  /**
   * Where the restore leads: to the original commit, on the original branch, which then stands there,
   * if that was a branch with a usable name; detached, with every branch left alone, if it was not.
   */
  lemma RestoreLands(tree: Worktree, fromBranch: Option<string>, commit: Commit, merged: Commit)
    ensures var t := Effect(tree, RestoreCheckout(RestoreTarget(fromBranch), commit), merged);
      && t.head == commit && t.remote == tree.remote
      && if fromBranch.Some? && fromBranch.value != "HEAD" && UsableBranch(fromBranch.value)
         then t.branch == fromBranch && t.tips == tree.tips[fromBranch.value := commit]
         else t.branch == None && t.tips == tree.tips
  {
    hide UsableBranch;
  }

  /** A merge moves only the branch that an earlier step of the plan checked out. */
  ghost predicate MergesFollowCheckout(git: seq<Command>) {
    forall i :: 0 <= i < |git| && git[i].Merge? ==> exists j :: 0 <= j < i && git[j].Checkout?
  }

  ghost predicate NoCompensation(steps: seq<Outcome>) {
    forall i :: 0 <= i < |steps| ==> !IsCompensation(steps[i].command)
  }

  lemma OneMoreStep(steps: seq<Outcome>, last: Outcome)
    ensures NoCompensation(steps + [last]) <==> NoCompensation(steps) && !IsCompensation(last.command)
  {
    assert (steps + [last])[|steps|] == last;
    assert forall i :: 0 <= i < |steps| ==> (steps + [last])[i] == steps[i];
  }

  lemma TouchedAppend(steps: seq<Outcome>, last: Outcome)
    ensures Touched(steps + [last]) <==> Touched(steps) || (last.ok && Touches(last.command))
  {
    var next := steps + [last];
    if Touched(steps) {
      var i :| 0 <= i < |steps| && steps[i].ok && Touches(steps[i].command);
      assert next[i] == steps[i];
    }
    assert next[|steps|] == last;
  }

  lemma CompensatedAppend(steps: seq<Outcome>, last: Outcome)
    ensures Compensated(steps + [last]) <==> Compensated(steps) && (IsCompensation(last.command) ==> last.ok)
  {
    var next := steps + [last];
    assert next[|steps|] == last;
    if Compensated(next) {
      forall i | 0 <= i < |steps| && IsCompensation(steps[i].command) ensures steps[i].ok { assert next[i] == steps[i]; }
    }
  }

  lemma CheckoutHappened(git: seq<Command>, steps: seq<Outcome>, k: nat)
    requires MergesFollowCheckout(git) && k < |git| && git[k].Merge? && |steps| == k && AllOk(steps)
    requires forall i :: 0 <= i < k ==> steps[i].command == git[i]
    ensures Touched(steps)
  {
    var j :| 0 <= j < k && git[j].Checkout?;
    assert steps[j].ok && Touches(steps[j].command);
  }

  // ---------- where a successful run lands ----------

  /** The compose steps of every plan come last, so the plan is carried out in its own order. */
  lemma PlansAreOrdered(url: string, branch: string, repoint: bool)
    ensures var plan := BuildPlan(url, branch, repoint); GitSteps(plan) + ComposeSteps(plan) == plan
    ensures GitSteps(PULL_PLAN) + ComposeSteps(PULL_PLAN) == PULL_PLAN
    ensures GitSteps(ROLLBACK_PLAN) + ComposeSteps(ROLLBACK_PLAN) == ROLLBACK_PLAN
  {
    hide GitSteps, ComposeSteps;
    InOrder([], [Recreate]);
    InOrder([], [Pull, Recreate]);
    assert [] + [Recreate] == ROLLBACK_PLAN && [] + [Pull, Recreate] == PULL_PLAN;
    var git := [Fetch(branch), Checkout(branch), Merge(branch)];
    if repoint {
      InOrder([SetRemote(url)] + git, [Recreate]);
      assert BuildPlan(url, branch, repoint) == [SetRemote(url)] + git + [Recreate];
    } else {
      InOrder(git, [Recreate]);
      assert BuildPlan(url, branch, repoint) == git + [Recreate];
    }
  }

  lemma {:induction false} InOrder(git: seq<Command>, compose: seq<Command>)
    requires (forall c :: c in git ==> IsGit(c)) && (forall c :: c in compose ==> !IsGit(c))
    ensures GitSteps(git + compose) == git && ComposeSteps(git + compose) == compose
    decreases |git| + |compose|
  {
    if git != [] {
      assert (git + compose)[1..] == git[1..] + compose;
      InOrder(git[1..], compose);
    } else if compose != [] {
      assert git + compose == compose;
      InOrder([], compose[1..]);
      assert [] + compose[1..] == compose[1..];
    }
  }

  lemma SucceedsExactlyWhen(input: Input, fate: Fate)
    requires GitSteps(input.steps) + ComposeSteps(input.steps) == input.steps
    ensures Succeeds(input, fate) <==>
      && AllSucceed(fate, 0, |input.steps|) && fate.pinWritten
      && (if input.build then fate.headReadable else input.toTag.Some?)
  {
    hide Tried, Commands, GitSteps, ComposeSteps;
    var git := GitTried(input, fate);
    TriedAll(GitSteps(input.steps), fate, 0);
    TriedAll(ComposeSteps(input.steps), fate, |git|);
    if AllOk(git) {
      assert |git| == |Commands(git)| == |GitSteps(input.steps)|;
      assert |input.steps| == |git| + |ComposeSteps(input.steps)|;
      Stretches(fate, |git|, |input.steps|);
    }
  }

  lemma Stretches(fate: Fate, middle: nat, to: nat)
    requires middle <= to
    ensures AllSucceed(fate, 0, to) <==> AllSucceed(fate, 0, middle) && AllSucceed(fate, middle, to)
  {
  }

  lemma {:induction false} CommandsAppend(a: seq<Outcome>, b: seq<Outcome>)
    ensures Commands(a + b) == Commands(a) + Commands(b)
  {
    if a == [] {
      assert a + b == b;
    } else {
      assert (a + b)[1..] == a[1..] + b;
      CommandsAppend(a[1..], b);
    }
  }

  lemma CommandsNext(steps: seq<Outcome>, last: Outcome)
    ensures Commands(steps + [last]) == Commands(steps) + [last.command]
  {
    hide Commands;
    CommandsAppend(steps, [last]);
    OneCommand(last);
  }

  lemma OneCommand(step: Outcome)
    ensures Commands([step]) == [step.command]
  {
    assert [step][1..] == [];
  }

  /** The effect of commands that all succeed, last command first. */
  lemma AfterLast(tree: Worktree, steps: seq<Outcome>, commands: seq<Command>, last: Command, merged: Commit)
    requires AllOk(steps) && Commands(steps) == commands + [last]
    ensures var n := |steps| - 1;
      && steps != [] && AllOk(steps[..n]) && Commands(steps[..n]) == commands
      && After(tree, steps, merged) == Effect(After(tree, steps[..n], merged), last, merged)
  {
    hide Commands, Effect;
    assert |steps| == |commands| + 1;
    var n := |steps| - 1;
    CommandsNext(steps[..n], steps[n]);
    assert steps[..n] + [steps[n]] == steps;
    assert (commands + [last])[n] == last && Commands(steps)[n] == steps[n].command;
    assert Commands(steps)[..n] == commands;
  }

  /** A build lands on the merged commit of its branch, with the chosen remote, and moves nothing else. */
  function Landed(tree: Worktree, url: string, branch: string, repoint: bool, merged: Commit): Worktree {
    Worktree(merged, Some(branch), tree.tips[branch := merged], if repoint then Some(url) else tree.remote)
  }

  lemma BuildLands(tree: Worktree, steps: seq<Outcome>, url: string, branch: string, repoint: bool, merged: Commit)
    requires AllOk(steps) && Commands(steps) == BuildPlan(url, branch, repoint)
    ensures After(tree, steps, merged) == Landed(tree, url, branch, repoint, merged)
  {
    var start := if repoint then [SetRemote(url)] else [];
    hide After, Commands;
    assert BuildPlan(url, branch, repoint) == start + [Fetch(branch)] + [Checkout(branch)] + [Merge(branch)] + [Recreate];
    AfterLast(tree, steps, start + [Fetch(branch)] + [Checkout(branch)] + [Merge(branch)], Recreate, merged);
    GitLands(tree, steps[..|steps| - 1], url, branch, repoint, merged);
  }

  lemma GitLands(tree: Worktree, steps: seq<Outcome>, url: string, branch: string, repoint: bool, merged: Commit)
    requires AllOk(steps)
    requires Commands(steps) == (if repoint then [SetRemote(url)] else []) + [Fetch(branch)] + [Checkout(branch)] + [Merge(branch)]
    ensures After(tree, steps, merged) == Landed(tree, url, branch, repoint, merged)
  {
    var start := if repoint then [SetRemote(url)] else [];
    hide After, Commands;
    AfterLast(tree, steps, start + [Fetch(branch)] + [Checkout(branch)], Merge(branch), merged);
    var a := steps[..|steps| - 1];
    AfterLast(tree, a, start + [Fetch(branch)], Checkout(branch), merged);
    var b := a[..|a| - 1];
    AfterLast(tree, b, start, Fetch(branch), merged);
    var c := b[..|b| - 1];
    StartLands(tree, c, url, repoint, merged);
    var tip := if branch in tree.tips then tree.tips[branch] else merged;
    assert tree.tips[branch := tip][branch := merged] == tree.tips[branch := merged];
  }

  lemma StartLands(tree: Worktree, steps: seq<Outcome>, url: string, repoint: bool, merged: Commit)
    requires AllOk(steps) && Commands(steps) == if repoint then [SetRemote(url)] else []
    ensures After(tree, steps, merged) == if repoint then tree.(remote := Some(url)) else tree
  {
    if repoint {
      AfterLast(tree, steps, [], SetRemote(url), merged);
      assert steps[..|steps| - 1] == [];
    } else {
      assert steps == [];
    }
  }

  lemma {:induction false} ImagesLeaveTree(tree: Worktree, steps: seq<Outcome>, merged: Commit)
    requires forall c :: c in Commands(steps) ==> c.Pull? || c.Recreate?
    ensures After(tree, steps, merged) == tree
  {
    if steps != [] {
      CommandsNext(steps[..|steps| - 1], steps[|steps| - 1]);
      assert steps[..|steps| - 1] + [steps[|steps| - 1]] == steps;
      ImagesLeaveTree(tree, steps[..|steps| - 1], merged);
      assert Commands(steps)[|steps| - 1] == steps[|steps| - 1].command;
      assert steps[|steps| - 1].command in Commands(steps);
    }
  }

  // ---------- where a failed build leaves the branches ----------

  lemma Regrouped<T>(a: seq<T>, b: seq<T>, c: seq<T>)
    ensures a + (b + c) == a + b + c
  {
  }

  lemma TriedFirst(commands: seq<Command>, fate: Fate, from: nat)
    requires commands != []
    ensures var rest := if fate.succeeds(from) then Tried(commands[1..], fate, from + 1) else [];
      Tried(commands, fate, from) == [Outcome(commands[0], fate.succeeds(from))] + rest
  {
  }

  lemma AllOkFirst(first: Outcome, steps: seq<Outcome>)
    ensures AllOk([first] + steps) <==> first.ok && AllOk(steps)
  {
    assert ([first] + steps)[1..] == steps;
    FirstAndRest([first] + steps);
  }

  /** The commands of a list are tried before those of the next, which are tried only if all go through. */
  lemma {:induction false} TriedAppend(a: seq<Command>, b: seq<Command>, fate: Fate, from: nat)
    ensures var first := Tried(a, fate, from);
      Tried(a + b, fate, from) == if AllOk(first) then first + Tried(b, fate, from + |a|) else first
    decreases |a|
  {
    if a == [] {
      assert a + b == b && [] + Tried(b, fate, from) == Tried(b, fate, from);
      assert AllOk(Tried(a, fate, from));
    } else {
      hide Tried, AllOk;
      var rest, head := a[1..], Outcome(a[0], fate.succeeds(from));
      assert (a + b)[1..] == rest + b;
      TriedFirst(a, fate, from);
      TriedFirst(a + b, fate, from);
      var more, last := Tried(rest, fate, from + 1), Tried(b, fate, from + |a|);
      if fate.succeeds(from) {
        TriedAppend(rest, b, fate, from + 1);
        AllOkFirst(head, more);
        Regrouped([head], more, last);
      } else {
        AllOkFirst(head, []);
      }
    }
  }

  /** Steps that move no branch, when they come last. */
  lemma {:induction false} QuietTail(tree: Worktree, a: seq<Outcome>, b: seq<Outcome>, merged: Commit)
    requires forall i :: 0 <= i < |b| ==> b[i].ok ==> !Touches(b[i].command) && !b[i].command.RestoreCheckout?
    ensures After(tree, a + b, merged).tips == After(tree, a, merged).tips
    ensures Touched(a + b) <==> Touched(a)
    decreases |b|
  {
    if b == [] {
      assert a + b == a;
    } else {
      var n := |b| - 1;
      QuietTail(tree, a, b[..n], merged);
      assert a + b == (a + b[..n]) + [b[n]];
      AfterNext(tree, a + b[..n], b[n], merged);
      TouchedAppend(a + b[..n], b[n]);
      hide After, Touched;
    }
  }

  /** The branch tips after the git steps of a build, whichever of them fails. */
  function GitTips(tips: map<string, Commit>, branch: string, fate: Fate, checkout: nat): map<string, Commit> {
    if !ChecksOut(fate, checkout) then tips
    else tips[branch := if fate.succeeds(checkout + 1) || branch !in tips then fate.merged else tips[branch]]
  }

  predicate ChecksOut(fate: Fate, checkout: nat) {
    AllSucceed(fate, 0, checkout + 1)
  }

  function GitStart(url: string, repoint: bool): seq<Command> {
    if repoint then [SetRemote(url)] else []
  }

  /** The number of the checkout among the commands of a build. */
  function CheckoutAt(repoint: bool): nat {
    if repoint then 2 else 1
  }

  /** The git steps of a build: those before the checkout, then the checkout, then the merge. */
  lemma GitParts(url: string, branch: string, repoint: bool, fate: Fate)
    ensures var start := Tried(GitStart(url, repoint) + [Fetch(branch)], fate, 0);
      var at := CheckoutAt(repoint);
      var checkout, merge := Outcome(Checkout(branch), fate.succeeds(at)), Outcome(Merge(branch), fate.succeeds(at + 1));
      Tried(GitStart(url, repoint) + [Fetch(branch)] + [Checkout(branch)] + [Merge(branch)], fate, 0)
        == if !AllOk(start) then start
           else if !checkout.ok then start + [checkout] else start + [checkout] + [merge]
    ensures var start := Tried(GitStart(url, repoint) + [Fetch(branch)], fate, 0);
      && (AllOk(start) <==> AllSucceed(fate, 0, CheckoutAt(repoint)))
      && (AllOk(start) ==> Commands(start) == GitStart(url, repoint) + [Fetch(branch)])
  {
    var first := GitStart(url, repoint) + [Fetch(branch)];
    var at := CheckoutAt(repoint);
    assert |first| == at;
    TriedAll(first, fate, 0);
    TriedAppend(first, [Checkout(branch)], fate, 0);
    TriedAppend(first + [Checkout(branch)], [Merge(branch)], fate, 0);
    TriedOne(Checkout(branch), fate, at);
    TriedOne(Merge(branch), fate, at + 1);
    hide Tried, Commands, GitStart;
    AllOkNext(Tried(first, fate, 0), Outcome(Checkout(branch), fate.succeeds(at)));
  }

  lemma GitBranches(tree: Worktree, url: string, branch: string, repoint: bool, fate: Fate)
    ensures var git := Tried(GitStart(url, repoint) + [Fetch(branch)] + [Checkout(branch)] + [Merge(branch)], fate, 0);
      && After(tree, git, fate.merged).tips == GitTips(tree.tips, branch, fate, CheckoutAt(repoint))
      && (Touched(git) <==> ChecksOut(fate, CheckoutAt(repoint)))
  {
    hide Tried, Touched, After, Commands, GitStart;
    var at := CheckoutAt(repoint);
    var start := Tried(GitStart(url, repoint) + [Fetch(branch)], fate, 0);
    GitParts(url, branch, repoint, fate);
    StartIsQuiet(url, branch, repoint, fate);
    QuietTail(tree, [], start, fate.merged);
    NothingYet(tree, fate.merged);
    assert [] + start == start;
    Stretches(fate, at, at + 1);
    if AllOk(start) {
      var checkout, merge := Outcome(Checkout(branch), fate.succeeds(at)), Outcome(Merge(branch), fate.succeeds(at + 1));
      StartTree(tree, start, url, branch, repoint, fate.merged);
      CheckoutBranches(tree, start, checkout, merge, branch, fate.merged);
    }
  }

  lemma NothingYet(tree: Worktree, merged: Commit)
    ensures After(tree, [], merged) == tree && !Touched([])
  {
  }

  lemma TriedOne(c: Command, fate: Fate, from: nat)
    ensures Tried([c], fate, from) == [Outcome(c, fate.succeeds(from))]
  {
    assert [Outcome(c, fate.succeeds(from))] + [] == [Outcome(c, fate.succeeds(from))];
  }

  lemma AllOkNext(steps: seq<Outcome>, last: Outcome)
    ensures AllOk(steps + [last]) <==> AllOk(steps) && last.ok
  {
    var next := steps + [last];
    assert next[|steps|] == last;
    if AllOk(next) { forall i | 0 <= i < |steps| ensures steps[i].ok { assert next[i] == steps[i]; } }
  }

  lemma StartIsQuiet(url: string, branch: string, repoint: bool, fate: Fate)
    ensures var start := Tried(GitStart(url, repoint) + [Fetch(branch)], fate, 0);
      forall i :: 0 <= i < |start| ==> start[i].command.SetRemote? || start[i].command.Fetch?
  {
    TriedWithin(GitStart(url, repoint) + [Fetch(branch)], fate, 0);
  }

  lemma {:induction false} TriedWithin(commands: seq<Command>, fate: Fate, from: nat)
    ensures forall i :: 0 <= i < |Tried(commands, fate, from)| ==> Tried(commands, fate, from)[i].command in commands
    decreases |commands|
  {
    if commands != [] { TriedWithin(commands[1..], fate, from + 1); }
  }

  /** Before the checkout only the remote can have changed. */
  lemma StartTree(tree: Worktree, start: seq<Outcome>, url: string, branch: string, repoint: bool, merged: Commit)
    requires AllOk(start) && Commands(start) == GitStart(url, repoint) + [Fetch(branch)]
    ensures After(tree, start, merged) == if repoint then tree.(remote := Some(url)) else tree
  {
    hide After, Commands;
    AfterLast(tree, start, GitStart(url, repoint), Fetch(branch), merged);
    StartLands(tree, start[..|start| - 1], url, repoint, merged);
  }

  lemma CheckoutBranches(tree: Worktree, start: seq<Outcome>, checkout: Outcome, merge: Outcome, branch: string, merged: Commit)
    requires checkout.command == Checkout(branch) && merge.command == Merge(branch)
    requires After(tree, start, merged) == tree.(remote := After(tree, start, merged).remote) && !Touched(start)
    ensures !checkout.ok ==> After(tree, start + [checkout], merged).tips == tree.tips && !Touched(start + [checkout])
    ensures checkout.ok ==>
      && After(tree, start + [checkout] + [merge], merged).tips
         == tree.tips[branch := if merge.ok || branch !in tree.tips then merged else tree.tips[branch]]
      && Touched(start + [checkout] + [merge])
  {
    AfterNext(tree, start, checkout, merged);
    AfterNext(tree, start + [checkout], merge, merged);
    TouchedAppend(start, checkout);
    TouchedAppend(start + [checkout], merge);
    hide After, Touched;
    var tip := if branch in tree.tips then tree.tips[branch] else merged;
    assert tree.tips[branch := tip][branch := merged] == tree.tips[branch := merged];
  }

  /** What a failed build leaves of the branches, its compensations having gone through. */
  function FailedTips(tips: map<string, Commit>, input: Input, fate: Fate, checkout: nat): map<string, Commit>
    requires input.fromCommit.Some?
  {
    var moved := GitTips(tips, input.branch, fate, checkout);
    var onto := RestoreTarget(input.fromBranch);
    if ChecksOut(fate, checkout) && onto.Some? then moved[onto.value := input.fromCommit.value] else moved
  }

  /**
   * The branches after any failed build, wherever it failed, whose compensating commands went through:
   * untouched without a checkout; otherwise the target is where the merge, or else the checkout, put
   * it, and the branch gone back to is on the commit gone back to.
   */
  lemma FailedBuildTips(tree: Worktree, input: Input, fate: Fate, url: string, repoint: bool)
    requires input.build && input.fromCommit.Some? && input.steps == BuildPlan(url, input.branch, repoint)
    requires !Succeeds(input, fate) && Compensated(Transcript(input, fate))
    ensures After(tree, Transcript(input, fate), fate.merged).tips
         == FailedTips(tree.tips, input, fate, CheckoutAt(repoint))
  {
    var git, steps := GitTried(input, fate), AttemptSteps(input, fate);
    BuildParts(input, fate, url, repoint);
    GitBranches(tree, url, input.branch, repoint, fate);
    var tail := steps[|git|..];
    assert steps == git + tail;
    QuietTail(tree, git, tail, fate.merged);
    var touched := Touched(steps);
    hide AttemptSteps, GitTried, Tried, Touched, After, Succeeds, RestoreTarget, GitTips;
    TipsBack(tree, steps, touched, input, fate);
  }

  lemma BuildParts(input: Input, fate: Fate, url: string, repoint: bool)
    requires input.steps == BuildPlan(url, input.branch, repoint)
    ensures GitTried(input, fate)
         == Tried(GitStart(url, repoint) + [Fetch(input.branch)] + [Checkout(input.branch)] + [Merge(input.branch)], fate, 0)
    ensures var git, steps := GitTried(input, fate), AttemptSteps(input, fate);
      && |git| <= |steps| && steps[..|git|] == git
      && forall i :: |git| <= i < |steps| ==> steps[i].command.Recreate? || steps[i].command.Recover?
  {
    var commands := GitStart(url, repoint) + [Fetch(input.branch)] + [Checkout(input.branch)] + [Merge(input.branch)];
    assert input.steps == commands + [Recreate];
    InOrder(commands, [Recreate]);
    TriedWithin([Recreate], fate, |GitTried(input, fate)|);
    hide Tried, GitSteps, ComposeSteps, GitTried;
  }

  /** The finally of a failed run, as far as the branches are concerned. */
  lemma TipsBack(tree: Worktree, steps: seq<Outcome>, touched: bool, input: Input, fate: Fate)
    requires input.fromCommit.Some?
    requires Compensated(RemoteBackStep(CheckoutBack(steps, touched, input, fate), input, fate))
    ensures var onto, tips := RestoreTarget(input.fromBranch), After(tree, steps, fate.merged).tips;
      After(tree, RemoteBackStep(CheckoutBack(steps, touched, input, fate), input, fate), fate.merged).tips
        == if touched && onto.Some? then tips[onto.value := input.fromCommit.value] else tips
  {
    hide RestoreTarget, After, Compensated;
    var back := CheckoutBack(steps, touched, input, fate);
    if input.restoreRemote.Some? {
      var last := Outcome(RestoreRemote(input.restoreRemote.value), fate.succeeds(|back|));
      AfterNext(tree, back, last, fate.merged);
      CompensatedAppend(back, last);
    }
    if touched {
      var last := Outcome(RestoreCheckout(RestoreTarget(input.fromBranch), input.fromCommit.value), fate.succeeds(|steps|));
      AfterNext(tree, steps, last, fate.merged);
      CompensatedAppend(steps, last);
    }
  }

  /**
   * A failed and compensated build leaves all branches as they were if and only if it did not get to
   * check the target out, or the target is the branch gone back to, or it was there and the merge, if
   * it went through, had nothing to add. (The branch gone back to stands on the commit gone back to.)
   */
  lemma FailedBuildLeavesTarget(tree: Worktree, input: Input, fate: Fate, url: string, repoint: bool)
    requires input.build && input.fromCommit.Some? && input.steps == BuildPlan(url, input.branch, repoint)
    requires !Succeeds(input, fate) && Compensated(Transcript(input, fate))
    requires var onto := RestoreTarget(input.fromBranch);
      onto.Some? ==> onto.value in tree.tips && tree.tips[onto.value] == input.fromCommit.value
    ensures var checkout := CheckoutAt(repoint);
      var same := After(tree, Transcript(input, fate), fate.merged).tips == tree.tips;
      same <==>
        || !ChecksOut(fate, checkout)
        || RestoreTarget(input.fromBranch) == Some(input.branch)
        || (input.branch in tree.tips && (fate.succeeds(checkout + 1) ==> tree.tips[input.branch] == fate.merged))
  {
    FailedBuildTips(tree, input, fate, url, repoint);
    hide After, Transcript, Succeeds, Compensated, RestoreTarget;
    var onto, tips := RestoreTarget(input.fromBranch), tree.tips;
    var failed := FailedTips(tips, input, fate, CheckoutAt(repoint));
    if ChecksOut(fate, CheckoutAt(repoint)) {
      var tip: Commit := if fate.succeeds(CheckoutAt(repoint) + 1) || input.branch !in tips then fate.merged else tips[input.branch];
      if onto == Some(input.branch) {
        assert failed == tips[input.branch := tip][input.branch := input.fromCommit.value] == tips;
      } else {
        assert input.branch in failed && failed[input.branch] == tip;
        if input.branch in tips && tip == tips[input.branch] {
          assert tips[input.branch := tip] == tips;
          assert onto.Some? ==> tips[onto.value := input.fromCommit.value] == tips;
        }
      }
    }
  }

  lemma NothingTried(commands: seq<Command>, input: Input, fate: Fate, tree: Worktree)
    ensures Tried(commands[..0], fate, 0) == [] && After(tree, [], fate.merged) == tree
    ensures Drifted(tree, tree, input.branch, false)
  {
  }

  lemma NothingTriedFrom(commands: seq<Command>, fate: Fate, from: nat)
    ensures Tried(commands[..0], fate, from) == []
  {
  }

  /** One git command that went through keeps the drift within the target branch. */
  lemma DriftsOn(was: Worktree, now: Worktree, c: Command, merged: Commit, branch: string, touched: bool)
    requires Drifted(was, now, branch, touched) && IsGit(c)
    requires (c.Checkout? ==> c.branch == branch) && (c.Merge? ==> touched)
    ensures Drifted(was, Effect(now, c, merged), branch, touched || Touches(c))
    ensures !c.SetRemote? ==> Effect(now, c, merged).remote == now.remote
  {
  }

  /** A run that succeeds carried out its whole plan and recovered nothing. */
  lemma WholePlan(input: Input, fate: Fate)
    requires Succeeds(input, fate)
    ensures var steps := AttemptSteps(input, fate);
      AllOk(steps) && Commands(steps) == GitSteps(input.steps) + ComposeSteps(input.steps)
  {
    var git, compose := GitTried(input, fate), ComposeTried(input, fate);
    TriedAll(GitSteps(input.steps), fate, 0);
    TriedAll(ComposeSteps(input.steps), fate, |git|);
    hide GitTried, ComposeTried, Commands, Tried, GitSteps, ComposeSteps;
    JoinedOk(git, compose);
    assert git + compose + [] == git + compose;
  }

  lemma JoinedOk(a: seq<Outcome>, b: seq<Outcome>)
    requires AllOk(a) && AllOk(b)
    ensures AllOk(a + b) && Commands(a + b) == Commands(a) + Commands(b)
  {
    hide Commands;
    assert forall i :: 0 <= i < |a| + |b| ==> (a + b)[i] == if i < |a| then a[i] else b[i - |a|];
  }

  lemma RefusalIs(request: Request, survey: Survey, env: string, tree: Worktree)
    ensures Unavailable(request, survey, tree.remote) <==>
      if request.official then survey.release.None?
      else !survey.present || !survey.remoteReadable || tree.remote.None? || survey.dirty || survey.remoteHead.None?
    ensures Current(request, survey, env, tree) <==> var running := ReadTagState(env).currentTag;
      if request.official then Some(running) == (if survey.release.Some? then Some(CommitImageTag(survey.release.value)) else None)
      else survey.commitReadable && survey.remoteHead == Some(tree.head) && running == ForkImageTag(tree.head)
  {
    hide ReadTagState, CommitImageTag, ForkImageTag;
  }

  lemma PlanIs(request: Request, survey: Survey)
    ensures request.official ==> PlanOf(request, survey) == [Pull, Recreate]
    ensures !request.official ==>
      var repoint := if survey.sameRepository then [] else [SetRemote(request.repoUrl)];
      PlanOf(request, survey) == repoint + [Fetch(request.branch), Checkout(request.branch), Merge(request.branch), Recreate]
  {
  }

  lemma ImageStepKeepsTree(tree: Worktree, c: Command, merged: Commit)
    requires c.Pull? || c.Recreate?
    ensures Effect(tree, c, merged) == tree
  {
  }

  lemma FailsFirst(before: seq<Outcome>, c: Command)
    requires AllOk(before) && !c.Recover?
    ensures FirstToFail(before + [Outcome(c, false)], c)
    ensures Outcome(Recover, false) !in before + [Outcome(c, false)]
  {
    var steps := before + [Outcome(c, false)];
    assert steps[..|before|] == before && steps[|before|] == Outcome(c, false);
  }

  lemma NothingRecovered(steps: seq<Outcome>, fate: Fate)
    requires NoCompensation(steps) && steps != [] && steps[|steps| - 1].ok
    ensures Outcome(Recover, false) !in steps && Recovered(steps, fate) == steps
    ensures forall i :: 0 <= i < |steps| ==> !IsCompensation(steps[i].command)
  {
  }

  lemma StillFirst(steps: seq<Outcome>, last: Outcome, c: Command)
    requires FirstToFail(steps, c)
    ensures FirstToFail(steps + [last], c)
    ensures Outcome(Recover, false) in steps + [last] <==> Outcome(Recover, false) in steps || last == Outcome(Recover, false)
  {
    var i :| 0 <= i < |steps| && steps[i] == Outcome(c, false) && AllOk(steps[..i]);
    assert (steps + [last])[..i] == steps[..i];
  }

  lemma FirstStays(steps: seq<Outcome>, last: Outcome)
    ensures forall c :: FirstToFail(steps, c) ==> FirstToFail(steps + [last], c)
  {
    forall c | FirstToFail(steps, c) ensures FirstToFail(steps + [last], c) { StillFirst(steps, last, c); }
  }

  // ---------- the machine the updater works on ----------

  class Host {
    var env: string
    var tree: Worktree
    var image: Image

    ghost function View(): Deployment
      reads this
    {
      Deployment(env, tree, image)
    }

    constructor (env: string, tree: Worktree, image: Image)
      ensures View() == Deployment(env, tree, image)
    {
      this.env, this.tree, this.image := env, tree, image;
    }

    /** Runs one command; the services it recreates use the given tag. */
    method RunStep(steps: seq<Outcome>, c: Command, fate: Fate, tag: Tag) returns (next: seq<Outcome>, ok: bool)
      modifies this`tree, this`image
      ensures ok == fate.succeeds(|steps|)
      ensures next == steps + [Outcome(c, ok)]
      ensures tree == if ok then Effect(old(tree), c, fate.merged) else old(tree)
      ensures image == if !c.Recreate? && !c.Recover? then old(image) else if ok then Running(tag) else Mixed
    {
      ok := fate.succeeds(|steps|);
      next := steps + [Outcome(c, ok)];
      if ok { tree := Effect(tree, c, fate.merged); }
      if c.Recreate? || c.Recover? { image := if ok then Running(tag) else Mixed; }
    }

    /** The git steps, until one fails; touched says that one of them moved the checkout. */
    method RunGitSteps(git: seq<Command>, input: Input, fate: Fate)
      returns (steps: seq<Outcome>, touched: bool, failed: Option<Command>)
      requires MergesFollowCheckout(git)
      requires forall c :: c in git ==> IsGit(c) && (c.Checkout? ==> c.branch == input.branch)
      modifies this`tree, this`image
      ensures image == old(image)
      ensures touched == Touched(steps) && NoCompensation(steps)
      ensures Drifted(old(tree), tree, input.branch, touched)
      ensures (forall c :: c in git ==> !c.SetRemote?) ==> tree.remote == old(tree).remote
      ensures steps == Tried(git, fate, 0) && tree == After(old(tree), steps, fate.merged)
      ensures failed.None? <==> AllOk(steps)
      ensures failed.Some? ==> failed.value in git && FirstToFail(steps, failed.value)
      ensures git == [] ==> !touched
    {
      hide After, Effect, Tried, Drifted;
      steps, touched, failed := [], false, None;
      NothingTried(git, input, fate, tree);
      for k := 0 to |git|
        invariant AllOk(steps) && |steps| == k
        invariant steps == Tried(git[..k], fate, 0) && tree == After(old(tree), steps, fate.merged)
        invariant forall i :: 0 <= i < k ==> steps[i].command == git[i]
        invariant touched == Touched(steps) && NoCompensation(steps)
        invariant Drifted(old(tree), tree, input.branch, touched)
        invariant (forall c :: c in git ==> !c.SetRemote?) ==> tree.remote == old(tree).remote
        invariant image == old(image)
      {
        ghost var before, start := steps, tree;
        assert git[k] in git;
        if git[k].Merge? { CheckoutHappened(git, steps, k); }
        var ok;
        steps, ok := RunStep(steps, git[k], fate, input.fromTag);
        TouchedAppend(before, Outcome(git[k], ok));
        TriedNext(git, fate, 0, k);
        AfterNext(old(tree), before, Outcome(git[k], ok), fate.merged);
        if !ok {
          assert !steps[k].ok && steps[..k] == before;
          failed := Some(git[k]);
          return;
        }
        DriftsOn(old(tree), start, git[k], fate.merged, input.branch, touched);
        touched := touched || Touches(git[k]);
      }
      assert git[..|git|] == git;
    }

    /** An image step has failed: the old pin is written, and a failed recreate is answered by one on the old tag. */
    method AnswerFailure(tried: seq<Outcome>, c: Command, input: Input, fate: Fate, ghost start: Worktree)
      returns (steps: seq<Outcome>, restart: Restart)
      requires FirstToFail(tried, c) && tried[|tried| - 1] == Outcome(c, false) && (c.Pull? || c.Recreate?)
      requires NoCompensation(tried) && tree == After(start, tried, fate.merged)
      modifies this`tree, this`image, this`env
      ensures steps == Recovered(tried, fate) && FirstToFail(steps, c)
      ensures steps == if c.Recreate? then tried + [Outcome(Recover, fate.succeeds(|tried|))] else tried
      ensures tree == old(tree) == After(start, steps, fate.merged) && Touched(steps) == Touched(tried)
      ensures restart == if c.Recreate? && !steps[|steps| - 1].ok then Manual else NotRequired
      ensures restart == Manual <==> Outcome(Recover, false) in steps
      ensures restart == Manual <==> !Compensated(steps)
      ensures env == if fate.revertWritten then Pinned(old(env), input.fromTag, RevertPrevious(input)) else old(env)
      ensures image == if c.Pull? then old(image) else if restart == Manual then Mixed else Running(input.fromTag)
      ensures forall i :: 0 <= i < |steps| && IsCompensation(steps[i].command) ==> steps[i].command.Recover?
    {
      hide After, Pinned, FirstToFail;
      steps, restart := tried, NotRequired;
      if fate.revertWritten { env := Pinned(env, input.fromTag, RevertPrevious(input)); }
      if c.Recreate? {
        var recovered;
        steps, recovered := RunStep(steps, Recover, fate, input.fromTag);
        TouchedAppend(tried, Outcome(Recover, recovered));
        CompensatedAppend(tried, Outcome(Recover, recovered));
        AfterNext(start, tried, Outcome(Recover, recovered), fate.merged);
        StillFirst(tried, Outcome(Recover, recovered), c);
        restart := if recovered then NotRequired else Manual;
      }
    }

    /** The image steps, until one fails. */
    method RunComposeSteps(done: seq<Outcome>, compose: seq<Command>, input: Input, toTag: Tag, fate: Fate,
                           ghost start: Worktree)
      returns (steps: seq<Outcome>, failed: Option<Command>, restart: Restart)
      requires forall c :: c in compose ==> c.Pull? || c.Recreate?
      requires |compose| > 0 && compose[|compose| - 1] == Recreate
      requires forall i :: 0 <= i < |compose| - 1 ==> compose[i] != Recreate
      requires NoCompensation(done) && AllOk(done) && tree == After(start, done, fate.merged)
      modifies this`tree, this`image, this`env
      ensures tree == old(tree) == After(start, steps, fate.merged)
      ensures steps == Recovered(done + Tried(compose, fate, |done|), fate)
      ensures failed.None? <==> AllOk(Tried(compose, fate, |done|))
      ensures failed.Some? ==> failed.value in compose && FirstToFail(steps, failed.value)
      ensures Touched(steps) == Touched(done)
      ensures forall i :: 0 <= i < |steps| && IsCompensation(steps[i].command) ==> steps[i].command.Recover?
      ensures failed.None? ==> image == Running(toTag) && env == old(env)
      ensures failed.Some? && fate.revertWritten ==> env == Pinned(old(env), input.fromTag, RevertPrevious(input))
      ensures failed.Some? && Compensated(steps) ==> image == old(image) || image == Running(input.fromTag)
      ensures restart == Recreated <==> failed.None?
      ensures restart == Manual <==> Outcome(Recover, false) in steps
      ensures restart == Manual ==> image == Mixed
      ensures restart == NotRequired ==> image == old(image) || image == Running(input.fromTag)
    {
      hide After, Tried, Pinned, FirstToFail, Recovered, Recovery, Touched, Compensated, NoCompensation, Effect;
      steps := done;
      NothingTried(compose, input, fate, tree);
      assert done + [] == done;
      NothingTriedFrom(compose, fate, |done|);
      for k := 0 to |compose|
        invariant |steps| == |done| + k && steps == done + Tried(compose[..k], fate, |done|)
        invariant AllOk(Tried(compose[..k], fate, |done|))
        invariant tree == After(start, steps, fate.merged)
        invariant NoCompensation(steps) && Touched(steps) == Touched(done)
        invariant k > 0 ==> steps[|steps| - 1] == Outcome(compose[k - 1], true)
        invariant tree == old(tree) && env == old(env)
        invariant image == if k == |compose| then Running(toTag) else old(image)
      {
        ghost var before := steps;
        assert compose[k] in compose;
        var ok;
        steps, ok := RunStep(steps, compose[k], fate, toTag);
        ImageStepKeepsTree(old(tree), compose[k], fate.merged);
        TouchedAppend(before, Outcome(compose[k], ok));
        OneMoreStep(before, Outcome(compose[k], ok));
        TriedNext(compose, fate, |done|, k);
        AfterNext(start, before, Outcome(compose[k], ok), fate.merged);
        assert before + [Outcome(compose[k], ok)] == done + Tried(compose[..k + 1], fate, |done|);
        if !ok {
          assert !Tried(compose, fate, |done|)[k].ok;
          JoinedOk(done, Tried(compose[..k], fate, |done|));
          FailsFirst(before, compose[k]);
          steps, restart := AnswerFailure(steps, compose[k], input, fate, start);
          return steps, Some(compose[k]), restart;
        }
      }
      assert compose[..|compose|] == compose;
      NothingRecovered(steps, fate);
      return steps, None, Recreated;
    }

    /** The body of execute, up to its finally block. */
    method Attempt(input: Input, fate: Fate) returns (record: Record, touched: bool)
      requires Plannable(input.steps, input.branch)
      requires MergesFollowCheckout(GitSteps(input.steps))
      modifies this
      ensures record.steps == AttemptSteps(input, fate) && (record.ok <==> Succeeds(input, fate))
      ensures tree == After(old(tree), record.steps, fate.merged)
      ensures touched == Touched(record.steps)
      ensures Drifted(old(tree), tree, input.branch, touched)
      ensures (forall c :: c in input.steps ==> !c.SetRemote?) ==> tree.remote == old(tree).remote
      ensures record.ok ==> Deployed(old(View()), View(), input, record, fate.merged)
      ensures !record.ok && (FailedPinned(record) ==> fate.revertWritten) ==> Unpinned(old(env), env, input)
      ensures !record.ok && Compensated(record.steps) ==> image == old(image) || image == Running(input.fromTag)
      ensures forall i :: 0 <= i < |record.steps| && IsCompensation(record.steps[i].command) ==> record.steps[i].command.Recover?
      ensures ErrorTells(input, fate, record) && RestartTells(record)
      ensures record.restart == Manual ==> image == Mixed
      ensures record.restart == NotRequired ==> image == old(image) || image == Running(input.fromTag)
      ensures GitSteps(input.steps) == [] ==> !touched
    {
      hide After, Tried, Pinned, Drifted, GitSteps, ComposeSteps, Recovered, Commands, Touched, Compensated, MergesFollowCheckout;
      StepsOf(input.steps);
      ComposeEndsWithRecreate(input.steps, input.branch);
      var steps, failed;
      steps, touched, failed := RunGitSteps(GitSteps(input.steps), input, fate);
      if failed.Some? {
        return Record(false, steps, input.toCommit, input.toTag, NotRequired, Some(StepFailed(failed.value))), touched;
      }
      var toTag, toCommit := input.toTag, input.toCommit;
      if input.build {
        if !fate.headReadable {
          return Record(false, steps, toCommit, toTag, NotRequired, Some(HeadUnreadable)), touched;
        }
        toCommit := Some(tree.head);
        toTag := Some(ForkImageTag(tree.head));
      }
      if toTag.None? {
        return Record(false, steps, toCommit, toTag, NotRequired, Some(NoTarget)), touched;
      }
      if !fate.pinWritten {
        return Record(false, steps, toCommit, toTag, NotRequired, Some(PinFailed)), touched;
      }
      env := Pinned(env, toTag.value, input.fromTag);
      var restart;
      steps, failed, restart := RunComposeSteps(steps, ComposeSteps(input.steps), input, toTag.value, fate, old(tree));
      if failed.None? { WholePlan(input, fate); }
      record := Record(failed.None?, steps, toCommit, toTag, restart,
                       if failed.None? then None else Some(StepFailed(failed.value)));
    }

    /** The finally block of a failed run: the checkout back, then the remote back. */
    method Compensate(done: seq<Outcome>, touched: bool, input: Input, fate: Fate, ghost start: Worktree)
      returns (steps: seq<Outcome>)
      requires tree == After(start, done, fate.merged)
      modifies this`tree, this`image
      ensures image == old(image)
      ensures steps == RemoteBackStep(CheckoutBack(done, touched, input, fate), input, fate)
      ensures
        var onto := RestoreTarget(input.fromBranch);
        var checkout := if touched && input.fromCommit.Some?
                        then done + [Outcome(RestoreCheckout(onto, input.fromCommit.value), fate.succeeds(|done|))] else done;
        steps == if input.restoreRemote.Some?
                 then checkout + [Outcome(RestoreRemote(input.restoreRemote.value), fate.succeeds(|checkout|))] else checkout
      ensures tree == After(start, steps, fate.merged)
      ensures Touched(steps) == Touched(done)
      ensures Outcome(Recover, false) in steps <==> Outcome(Recover, false) in done
      ensures forall c :: FirstToFail(done, c) ==> FirstToFail(steps, c)
      ensures Compensated(steps) ==>
        && Compensated(done)
        && tree == Restored(old(tree), input, touched)
    {
      hide After, FirstToFail;
      steps := done;
      if touched && input.fromCommit.Some? {
        var restore := RestoreCheckout(RestoreTarget(input.fromBranch), input.fromCommit.value);
        var ok;
        steps, ok := RunStep(done, restore, fate, input.fromTag);
        CompensatedAppend(done, Outcome(restore, ok));
        FirstStays(done, Outcome(restore, ok));
        TouchedAppend(done, Outcome(restore, ok));
        AfterNext(start, done, Outcome(restore, ok), fate.merged);
      }
      if input.restoreRemote.Some? {
        var restore := RestoreRemote(input.restoreRemote.value);
        ghost var before := steps;
        var ok;
        steps, ok := RunStep(steps, restore, fate, input.fromTag);
        CompensatedAppend(before, Outcome(restore, ok));
        FirstStays(before, Outcome(restore, ok));
        TouchedAppend(before, Outcome(restore, ok));
        AfterNext(start, before, Outcome(restore, ok), fate.merged);
      }
    }

    method Execute(input: Input, fate: Fate) returns (record: Record)
      requires Plannable(input.steps, input.branch)
      requires MergesFollowCheckout(GitSteps(input.steps))
      modifies this
      ensures record.steps == Transcript(input, fate) && (record.ok <==> Succeeds(input, fate))
      ensures tree == After(old(tree), record.steps, fate.merged)
      ensures record.ok ==> Deployed(old(View()), View(), input, record, fate.merged)
      ensures record.ok ==> SameOtherTips(old(tree).tips, tree.tips, {input.branch})
      ensures Compensating(record, fate) ==> Reverted(old(View()), View(), input, Touched(record.steps))
      ensures GitSteps(input.steps) == [] ==> !Touched(record.steps)
      ensures ErrorTells(input, fate, record) && RestartTells(record)
      ensures record.restart == Manual ==> image == Mixed
      ensures record.restart == NotRequired ==> image == old(image) || image == Running(input.fromTag)
    {
      hide After, Tried, Pinned, Restored, AttemptSteps, Succeeds, FirstToFail;
      var touched;
      record, touched := Attempt(input, fate);
      if !record.ok {
        ghost var attempted := tree;
        var steps := Compensate(record.steps, touched, input, fate, old(tree));
        if Compensated(steps) { RestoredIsBack(old(tree), attempted, input, touched); }
        record := record.(steps := steps);
      }
    }

    /** A run from its input, in the terms of the request. */
    method Start(input: Input, request: Request, survey: Survey, fate: Fate) returns (answer: Answer)
      requires Suited(View(), input, request, survey)
      modifies this
      ensures answer.Ran?
      ensures answer.record.steps == Transcript(input, fate) && (answer.record.ok <==> Succeeds(input, fate))
      ensures RestartTells(answer.record) && (answer.record.restart == Manual ==> image == Mixed)
      ensures answer.record.restart == NotRequired ==> image == old(image) || image == Running(input.fromTag)
      ensures answer.record.ok ==>
        && Deployed(old(View()), View(), input, answer.record, fate.merged)
        && Updated(old(View()), View(), answer.record)
      ensures Compensating(answer.record, fate) ==>
                Undone(old(View()), View(), request, survey, Touched(answer.record.steps))
    {
      hide Deployed, Reverted, Updated, Undone, Plannable, ReadTagState, Compensating, MergesFollowCheckout, RunInput,
           Succeeds, Transcript, After, RestartTells, ErrorTells;
      var record := Execute(input, fate);
      RunReads(old(View()), View(), input, record, fate.merged);
      if Reverted(old(View()), View(), input, Touched(record.steps)) {
        UndoneRun(old(View()), View(), input, request, survey, Touched(record.steps));
      }
      return Ran(record);
    }

    /** One update, from the request to the end of its run. */
    method Apply(request: Request, survey: Survey, fate: Fate) returns (answer: Answer)
      modifies this
      ensures answer.Refused? <==> Unavailable(request, survey, old(tree).remote)
      ensures answer.Refused? <==>
        if request.official then survey.release.None?
        else !survey.present || !survey.remoteReadable || old(tree).remote.None? || survey.dirty || survey.remoteHead.None?
      ensures answer.UpToDate? <==> !answer.Refused? && var running := old(ReadTagState(env)).currentTag;
        if request.official then Some(running) == (if survey.release.Some? then Some(CommitImageTag(survey.release.value)) else None)
        else survey.commitReadable && survey.remoteHead == Some(old(tree).head) && running == ForkImageTag(old(tree).head)
      ensures answer.UpToDate? <==>
        !Unavailable(request, survey, old(tree).remote) && Current(request, survey, old(env), old(tree))
      ensures !answer.Ran? ==> View() == old(View())
      ensures answer.Ran? ==>
        (answer.record.ok <==> && AllSucceed(fate, 0, |PlanOf(request, survey)|) && fate.pinWritten
                               && (request.official || fate.headReadable))
      ensures answer.Ran? ==> RestartTells(answer.record) && (answer.record.restart == Manual ==> image == Mixed)
      ensures answer.Ran? && answer.record.restart == NotRequired ==>
        image == old(image) || image == Running(old(ReadTagState(env)).currentTag)
      // an official release is pulled, a fork fetched, checked out and merged, before anything is recreated
      ensures answer.Ran? && answer.record.ok && request.official ==> Commands(answer.record.steps) == [Pull, Recreate]
      ensures answer.Ran? && answer.record.ok && !request.official ==>
        var repoint := if survey.sameRepository then [] else [SetRemote(request.repoUrl)];
        Commands(answer.record.steps)
          == repoint + [Fetch(request.branch), Checkout(request.branch), Merge(request.branch), Recreate]
      ensures answer.Ran? && answer.record.ok ==>
        && AllOk(answer.record.steps) && Commands(answer.record.steps) == PlanOf(request, survey)
        && answer.record.toTag == TargetTag(request, survey, fate.merged)
        && tree == TargetTree(request, survey, old(tree), fate.merged)
        && Updated(old(View()), View(), answer.record)
      ensures answer.Ran? && Compensating(answer.record, fate) ==>
                Undone(old(View()), View(), request, survey, Touched(answer.record.steps))
    {
      hide Suited, Updated, Undone, ReadTagState, Compensating, Touched, Succeeds, Transcript, Unavailable, Current,
           Commands, TargetTree, After, BuildPlan, RestartTells;
      PlanIs(request, survey);
      RefusalIs(request, survey, env, tree);
      ghost var was := View();
      var refused, input := Choose(request, survey);
      if input.None? { return if refused then Refused else UpToDate; }
      SucceedsExactlyWhen(input.value, fate);
      answer := Start(input.value, request, survey, fate);
      if answer.record.ok {
        TargetReached(was, View(), input.value, answer.record, request, survey, fate.merged);
      }
    }

    /** What apply does before it executes: a refusal, or no need, or the input of the run. */
    method Choose(request: Request, survey: Survey) returns (refused: bool, input: Option<Input>)
      ensures input.Some? <==> !Unavailable(request, survey, tree.remote) && !Current(request, survey, env, tree)
      ensures refused <==> Unavailable(request, survey, tree.remote)
      // what the compensation goes back to is what could be read of the checkout, and a remote that is about to change
      ensures input.Some? ==>
        && input.value.fromCommit == (if survey.present && survey.commitReadable then Some(tree.head) else None)
        && input.value.fromBranch == (if !survey.present || !survey.branchReadable then None
                                      else if tree.branch.Some? then tree.branch else Some("HEAD"))
        && input.value.restoreRemote == (if request.official || survey.sameRepository then None else tree.remote)
      ensures input.Some? ==>
        && Suited(View(), input.value, request, survey)
        && input.value.steps == PlanOf(request, survey)
        && GitSteps(input.value.steps) + ComposeSteps(input.value.steps) == input.value.steps
        && input.value.build == !request.official && input.value.fromTag == ReadTagState(env).currentTag
        && (request.official ==> survey.release.Some? && input.value.toTag == Some(CommitImageTag(survey.release.value)))
    {
      hide Plannable, ReadTagState, MergesFollowCheckout, BuildPlan, GitSteps, ComposeSteps, CommitImageTag, ForkImageTag;
      var tags := ReadTagState(env);
      var remote := if survey.present && survey.remoteReadable then tree.remote else None;
      PlansArePlannable(request.repoUrl, request.branch, !survey.sameRepository);
      PlansAreOrdered(request.repoUrl, request.branch, !survey.sameRepository);
      refused, input := true, None;
      if request.official {
        if survey.release.None? { return; }
        var toTag := CommitImageTag(survey.release.value);
        refused := false;
        if toTag == tags.currentTag { return; }
        NoGitInPulls();
        input := Some(RunInput(false, request.branch, tags, Some(toTag), survey, tree, survey.release, None, PULL_PLAN));
      } else {
        if !survey.present || remote.None? || survey.dirty || survey.remoteHead.None? { return; }
        refused := false;
        if survey.commitReadable && Some(tree.head) == survey.remoteHead && tags.currentTag == ForkImageTag(tree.head) {
          return;
        }
        MergeComesAfterCheckout(request.repoUrl, request.branch, !survey.sameRepository);
        var plan := BuildPlan(request.repoUrl, request.branch, !survey.sameRepository);
        input := Some(RunInput(true, request.branch, tags, None, survey, tree, None,
                               if survey.sameRepository then None else remote, plan));
      }
    }

    /** Deploys the previous tag from the images cached on the host. */
    method Rollback(survey: Survey, fate: Fate) returns (answer: Answer)
      modifies this
      ensures answer.Refused? <==> var tags := old(ReadTagState(env));
        tags.previousTag.None? || tags.previousTag == Some(tags.currentTag)
      ensures !answer.UpToDate? && (answer.Refused? ==> View() == old(View()))
      ensures answer.Ran? ==> (answer.record.ok <==> fate.succeeds(0) && fate.pinWritten)
      ensures answer.Ran? ==> RestartTells(answer.record) && (answer.record.restart == Manual ==> image == Mixed)
      ensures answer.Ran? && answer.record.restart == NotRequired ==>
        image == old(image) || image == Running(old(ReadTagState(env)).currentTag)
      ensures answer.Ran? && answer.record.ok ==>
        && AllOk(answer.record.steps) && Commands(answer.record.steps) == [Recreate]
        && tree == old(tree)
        && Updated(old(View()), View(), answer.record)
        && answer.record.toTag == old(ReadTagState(env)).previousTag
      ensures answer.Ran? && Compensating(answer.record, fate) ==>
                Undone(old(View()), View(), Request("", "", true), survey, Touched(answer.record.steps))
    {
      hide Updated, Undone, Plannable, ReadTagState, Compensating, Succeeds, Transcript, Commands, After, RestartTells;
      var tags := ReadTagState(env);
      if tags.previousTag.None? || tags.previousTag == Some(tags.currentTag) { return Refused; }
      PlansArePlannable("", "", false);
      PlansAreOrdered("", "", false);
      NoGitInPulls();
      var input := RunInput(false, "", tags, tags.previousTag, survey, tree, None, None, ROLLBACK_PLAN);
      SucceedsExactlyWhen(input, fate);
      answer := Start(input, Request("", "", true), survey, fate);
      if answer.record.ok { ImagesLeaveTree(old(tree), answer.record.steps, fate.merged); }
    }

    /**
     * An update that succeeded, followed by a rollback: for every file, which tag the rollback
     * deploys, when it is refused, and how the file reads afterwards. Without shadowing lines it is
     * the tag that ran before the update, and the update's tag becomes the previous one.
     */
    method ApplyThenRollback(request: Request, survey: Survey, fate: Fate, later: Survey, back: Fate)
      returns (first: Answer, second: Answer)
      modifies this
      ensures first.Ran? && first.record.ok ==>
        var tags := old(ReadTagState(env));
        var to := TargetTag(request, survey, fate.merged);
        && to.Some? && first.record.toTag == to &&
        var target := if old(Shadowed(env, PREVIOUS_IMAGE_TAG_ENV)) then tags.previousTag else Some(tags.currentTag);
        var running := if old(Shadowed(env, IMAGE_TAG_ENV)) then tags.currentTag else to.value;
        && (second.Refused? <==> target.None? || target == Some(running))
        && (second.Ran? && second.record.ok ==>
             && second.record.toTag == target && image == Running(target.value)
             && ReadTagState(env) == TagState(
                  if old(Shadowed(env, IMAGE_TAG_ENV)) then running else target.value,
                  if old(Shadowed(env, PREVIOUS_IMAGE_TAG_ENV)) then target else Some(running)))
      ensures first.Ran? && first.record.ok && old(Rewritable(env)) ==>
        var fromTag := old(ReadTagState(env)).currentTag;
        && (second.Refused? <==> !request.official && fromTag == ForkImageTag(fate.merged))
        && (second.Ran? && second.record.ok ==>
             ReadTagState(env) == TagState(fromTag, first.record.toTag) && image == Running(fromTag))
    {
      hide ReadTagState, Shadowed, Commands, After, Transcript, Undone, Compensating, CommitImageTag, ForkImageTag,
           TargetTree, AllSucceed, RestartTells;
      first := Apply(request, survey, fate);
      if first.Ran? && first.record.ok {
        second := Rollback(later, back);
      } else {
        second := Refused;
      }
    }
  }

  // ---------- an update onto the running tag ----------

  /** A file written from nothing reads as it was written. */
  lemma FreshFile(current: Tag, previous: Tag)
    ensures Rewritable(Pinned("", current, previous))
    ensures ReadTagState(Pinned("", current, previous)) == TagState(current, Some(previous))
  {
    EnvFile.EmptyHasNoMarks(IMAGE_TAG_ENV);
    EnvFile.EmptyHasNoMarks(PREVIOUS_IMAGE_TAG_ENV);
    PinReads("", current, previous);
  }

  /**
   * A checkout that is not on the remote head of a commit that already runs: the update succeeds
   * and deploys the running tag again, and the rollback after it is refused.
   */
  method RedeployCannotBeRolledBack(behind: Commit, merged: Commit) returns (host: Host, first: Answer, second: Answer)
    requires behind != merged
    ensures first.Ran? && first.record.ok && first.record.toTag == Some(ForkImageTag(merged)) && second.Refused?
  {
    hide Commands, After, ReadTagState, Shadowed, Pinned, ForkImageTag, Undone, TargetTree;
    var running := ForkImageTag(merged);
    FreshFile(running, running);
    host := new Host(Pinned("", running, running),
                     Worktree(behind, Some("main"), map["main" := behind], Some("origin")), Running(running));
    var survey := Survey(true, true, true, true, false, None, Some(merged), true);
    var fate := Fate(n => true, merged, true, true, true);
    first := host.Apply(Request("origin", "main", false), survey, fate);
    second := host.Rollback(survey, fate);
  }
}
