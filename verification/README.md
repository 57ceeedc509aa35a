# Rakazo: protocol and data-path proofs

A Dafny model of the parts of Rakazo that keep a promise across interleavings, failures or arbitrary
input splits, with proofs of those promises.

Protocols are state machines. Each database call, each external call and each stretch of code
between two awaits is one step; a run is an arbitrary sequence of steps by any number of workers, and
a step whose moment has not come changes nothing, so no interleaving is excluded. Database calls and
in-process state are also modelled in place, as classes whose methods are proved against the
functions that the state machines use; schedules drive the desktop controller's class itself. History
fields record what happened; no step reads them.
For each protocol there are results over all runs, and results on each handler from its first step to
its last when nobody disturbs it. Loops over data are methods proved against a specification of the whole input.

| file | what it models |
|---|---|
| ComputerLease, SuspensionProtocol, ComputerHandlers | execution leases, idle sleep, explicit stop and provisioning of a shared team computer |
| ComputerControl, ControlHandlers | user takeover, release and expiry of computer control |
| EnvFile, Updater | the deployment's .env file and the server updater as a compensating transaction |
| AutoUpdate | the desktop update controller and its reducer |
| Effects | external effects that must not happen twice |
| ThreadSend | idempotent message sends |
| ShellQuote | nested shell quoting, under POSIX.1-2017, Shell Command Language, sections 2.2 and 2.3 |
| EventStream | event framing in the mobile client |
| Handshake | the screen proxy's handshake search and header filter (messages as in section 2.1 of RFC 9112) |
| WorkspacePath | bot workspace paths |
| WorkspaceImport, BoxPreparation | batched imports and preparation in the Box provider |
| Paging | thread paging |
| ToolNames | tool listing and routing across connectors |
| Text, Basics | searching, splitting, joining and trimming as JavaScript does |

## Where the code falls short of the simple promise

The model follows the code. Each item names the results that say when it happens.

- A `.env` line that the reader accepts and the writer does not recognise (indented, or with a space
  before the equals sign), standing last, keeps its value through every rewrite: `EnvFile.ReadAfterUpsert`,
  `EnvFile.IndentedCopyWins`. If it assigns the previous tag, a rollback deploys that older tag instead
  of the one just replaced; if the current tag, a rollback is refused: `Updater.Host.ApplyThenRollback`.
- A lease that expired before a suspension and is renewed afterwards is live while the machine is
  stopped, and so is the old token of a run that is just acquiring again:
  `SuspensionProtocol.NoLiveTokenAtStop`, `SuspensionProtocol.LateRenewalIsLiveAtStop`,
  `SuspensionProtocol.RevivedTokenIsLiveAtStop`.
- A run that acquires again after its row was deleted revives its first token:
  `SuspensionProtocol.SupersededForever`, `SuspensionProtocol.ReusedRunRevivesOldToken`.
- A stop request that read `suspending`, claims the row after the sleeper has gone back to running and
  then finds another bot's run active writes `suspending` back, with nobody at work on the row; as after
  a crash or a failed last write, no handler modelled here ever takes it out again:
  `ComputerHandlers.StopPutsSuspendingBack`, `ComputerHandlers.LeftSuspendingExactlyWhen`,
  `ComputerHandlers.LeftForGood`.
- A touch in the millisecond of the loaded timestamp is not seen by the sleeper:
  `SuspensionProtocol.CheckpointCoversTouches`, `SuspensionProtocol.TiedTouchGoesUnnoticed`.
- A lease whose expiry could not be scheduled is cleared without telling the provider, and so is one
  that stop, sleep, provision or a run's own takeover request clears outright:
  `ComputerControl.GrantFollowsRevocation`, `ComputerControl.UnscheduledLeaseIsNotRevoked`.
- The write of a user's decision names the effect by id only. A worker that has lost its run can claim
  between the decision's read and its write, and an approval then allows a second claim:
  `Effects.StaleExactlyWhenOvertaken`, `Effects.AtMostOneClaim`, `Effects.StaleApprovalAllowsSecondClaim`.
- An effect that its recording worker performs without a claim can be performed a second time by a
  worker that finds it recorded and claims it: `Effects.PerformancesCounted`. An unclaimed completer
  that lost is told that the outcome is unknown, whatever the winner stored:
  `Effects.TurnedAwayExactlyWhen`, `Effects.UnclaimedAndClaimedBothPerform`.
- A failed build update that has checked its target branch out can leave it moved, or created:
  `Updater.FailedBuildLeavesTarget`, and exactly how in `Updater.FailedBuildTips`. It cannot restore a
  commit that could not be read beforehand, and restores a branch whose name is not usable detached: the
  specification of `Updater.Host.Execute`.
- A rollback is refused when the update had deployed the tag that was already running:
  `Updater.Host.ApplyThenRollback`, `Updater.RedeployCannotBeRolledBack`.
- A command whose program name holds an equals sign is taken by `env` for a variable when the request
  has an environment, and a variable whose name holds one is cut there: `ShellQuote.EnvironmentReachesProgram`.
- A stored path whose first segment below the bot's directory is `shared` or `bots` is shown in a form
  that leads elsewhere: `WorkspacePath.ResolveAfterDisplay`.

## Model

| member | source | states |
|---|---|---|
| SuspensionProtocol.NoLiveLeaseAtStop | packages/adapters/src/computer-idle.ts:34-157 | In every run of acquire, renew, hold, release, sleep, stop, provision, crash and touch steps: while `sandbox.stop` is under way the state is `suspending`, and the live rows whose own write was handed out by acquire are exactly those that had expired at the suspend timestamp and were renewed afterwards; none if no renewal hit an expired lease, and never the stopping bot's own |
| SuspensionProtocol.NoLiveTokenAtStop | packages/adapters/src/computer-lifecycle.ts:248-366 | While `sandbox.stop` is under way, a token that acquire has handed out is live, so that renew, hold and release take effect, if and only if its own lease expired before the suspension and was renewed since, or a later lifetime of the row gave its run the same token; never if no renewal hit an expired lease and no run came back |
| SuspensionProtocol.SuspensionIsOwned | packages/adapters/src/computer-lifecycle.ts:248-317 | Whoever moved the row to `suspending` keeps it there alone until its handler ends, and any acquire that re-reads the state meanwhile is refused and hands out nothing |
| SuspensionProtocol.OnlyNewestTokenPasses | packages/adapters/src/computer-lifecycle.ts:262-299 | A token passes exactly when the row's own write carries the same token; within one lifetime of the row that is the newest write alone, and across deletions too if no run id comes back |
| SuspensionProtocol.SupersededForever | packages/adapters/src/computer-lifecycle.ts:319-366 | In any continuation of a run, a superseded or deleted token passes if and only if a later lifetime of the row gave its run the same fence; otherwise, and always while its own lifetime lasts, its renew, hold and release change nothing |
| SuspensionProtocol.CheckpointCoversTouches | packages/adapters/src/computer-idle.ts:43-121 | When sleep stops the machine, every heartbeat, file or input touch since its load carries the loaded timestamp itself; with distinct timestamps there is none, and the row's `homeRevision` counts every touch |
| SuspensionProtocol.StopCoversTouches | apps/api/src/router.ts:1042-1048 | When a stop request stops a machine, there is one, and the row's `homeRevision` counts every touch, whatever their timestamps |
| SuspensionProtocol.InvariantHolds | packages/adapters/src/computer-lifecycle.ts:248-366 | The fence ledger, the leases' terms, ownership of the suspension, what a suspender goes back to, honesty of each suspender's claim and freshness of each checkpoint hold after every run, with no restriction on the interleaving |
| SuspensionProtocol.LateRenewalIsLiveAtStop | packages/adapters/src/computer-lifecycle.ts:324-331 | Concrete run: a lease that expired before the suspension and is renewed after it is live while `sandbox.stop` runs, since renew ignores expiry |
| SuspensionProtocol.ReusedRunRevivesOldToken | packages/adapters/src/computer-lifecycle.ts:284-299 | Concrete run: after a release, the same run id gets fence 1 again and its first token passes again |
| SuspensionProtocol.RevivedTokenIsLiveAtStop | packages/adapters/src/computer-lifecycle.ts:284-317 | Concrete run without any late renewal: a run that acquires again across the suspension makes its first, released token live while `sandbox.stop` runs, until it re-reads the state and is refused |
| SuspensionProtocol.TiedTouchGoesUnnoticed | packages/adapters/src/computer-idle.ts:93-119 | Concrete run: a touch in the very millisecond of the loaded timestamp is missing from the `homeRevision` that the row records when the machine is stopped |
| ComputerLease.ComputerStore.ReclaimLease | packages/adapters/src/computer-lifecycle.ts:262-283 | The conditional takeover of an expired or own row: when it applies, that it writes the next fence and an expiry five minutes after its stamp, and that the returned fence passes after it; otherwise nothing changes |
| ComputerLease.ComputerStore.CreateLease | packages/adapters/src/computer-lifecycle.ts:284-299 | A new row exactly when the bot had none, with fence 1 and five minutes |
| ComputerLease.ComputerStore.ExtendLease | packages/adapters/src/computer-lifecycle.ts:319-351 | Renew and hold: exactly one row, only for a matching run and fence, whatever its expiry |
| ComputerLease.ComputerStore.ReleaseLease | packages/adapters/src/computer-lifecycle.ts:353-366 | Deletes the row of a matching token and nothing else |
| ComputerLease.ComputerStore.LeasesEndedBy | packages/adapters/src/computer-idle.ts:76-91 | The loop decides exactly whether any lease, except the given bot's, outlasts the timestamp |
| ComputerLease.ComputerStore.SuspendIfIdle | packages/adapters/src/computer-idle.ts:76-91 | The idle sleeper's conditional update: exactly when the row is running, unchanged since the load, without a run and without a live lease, it becomes suspending with the checkpointed revision |
| ComputerLease.ComputerStore.SuspendForStop | apps/api/src/router.ts:1006-1021 | The stop request's conditional update: exactly when nobody is suspending and no other bot's lease is live |
| ComputerLease.ComputerStore.MoveFrom | packages/adapters/src/computer-lifecycle.ts:63-147 | State moves guarded by the state they start from, as provision and the rollbacks use them |
| ComputerHandlers.WorkingBotKeepsMachine | packages/adapters/src/computer-lifecycle.ts:248-317 | In every run, from the step that hands a token out and for as long as its write is the row's own, its lease has time left since it was last written or prolonged, and its bot does not stop the machine itself: the row is never `suspending`, nobody is suspending it, and the token passes |
| ComputerHandlers.NobodySuspends | packages/adapters/src/computer-idle.ts:76-91 | In every run, while a lease has time left, sleep's where-clause and every other bot's stop request's are false for any timestamp taken so far, and no step of anyone moves the row to `suspending` except the bot's own stop request |
| ComputerHandlers.AcquireAlone | packages/adapters/src/computer-lifecycle.ts:248-317 | An undisturbed acquire gets a lease of five minutes and hands a token out exactly if the computer is not being suspended and the bot has no lease, a run-out one, or (resuming) one of the very run; the fence starts at 1 and grows by 1; otherwise nothing changes |
| ComputerHandlers.AcquireOvertaken | packages/adapters/src/computer-lifecycle.ts:302-317 | An acquire that finds the computer being suspended after its write takes exactly its own row back and hands out nothing |
| ComputerHandlers.TokenWorks | packages/adapters/src/computer-lifecycle.ts:319-366 | Renew gives five minutes and hold a day from their stamp, release deletes, for a matching token and that bot's lease alone; a late renewal is counted exactly when the lease had expired |
| ComputerHandlers.RunsComeBackExactlyWhen | packages/adapters/src/computer-lifecycle.ts:284-299 | In every run: no run came back, in the sense of the results above, exactly if every run has had its leases of a bot within one lifetime of the row |
| ComputerHandlers.LeftSuspendingExactlyWhen | packages/adapters/src/computer-idle.ts:93-157 | In every run: the row is `suspending` with nobody at work on it exactly if it started so, a suspender crashed, a last write failed, or a stop request that had read `suspending` went back to it |
| ComputerHandlers.LeftForGood | packages/adapters/src/computer-lifecycle.ts:255-261 | Once the row is left `suspending` so, then in no continuation does it leave that state, is the machine stopped or a lease handed out |
| ComputerHandlers.SuspensionEnds | packages/adapters/src/computer-idle.ts:93-157 | The step with which any suspender ends leaves `suspending` unless it crashes, its last write fails or it goes back to a `suspending` it had read; the state it leaves, for sleep and for stop requests, with and without a failure |
| ComputerHandlers.StopPutsSuspendingBack | apps/api/src/router.ts:1029-1041 | Concrete run with no crash and no failed write: a stop request that read `suspending` claims the row after the sleeper has gone back, finds another bot's run active, and writes `suspending` back with nobody at work on it |
| ComputerHandlers.SleepAlone | packages/adapters/src/computer-idle.ts:43-157 | An undisturbed sleep suspends the machine with a checkpoint of every touch exactly if no run or live lease needs it, the checkpoint is made, no run is active and sandbox.stop succeeds; the row runs again if one of the last two fails, and is untouched if one of the first does |
| ComputerHandlers.SleepGivesWay | packages/adapters/src/computer-idle.ts:93-121 | A sleeper that finds the row written since its suspension goes back to running |
| ComputerHandlers.StopAlone | apps/api/src/router.ts:1002-1066 | An undisturbed stop request stops the machine, with a checkpoint of every touch, and ends its own bot's lease exactly if nobody suspends it, no other bot has a live lease and no other bot's run is active; what row and leases are after each failure |
| ComputerHandlers.StopIsNotRecorded | apps/api/src/router.ts:1049-1066 | A stop request whose last write fails leaves the row in error |
| ComputerHandlers.ProvisionAlone | packages/adapters/src/computer-lifecycle.ts:63-147 | An undisturbed provision starts exactly a stopped, suspended or failed computer, and leaves it running or in error |
| ComputerControl.GrantFollowsRevocation | packages/adapters/src/computer-control.ts:99-157 | In every run of takeover, release, expiry and outright clears by any number of workers: when a new user lease is granted, the provider's revocation call has returned for every earlier lease if and only if it has for those whose expiry job could not be scheduled and those cleared outright; for all others it always has |
| ComputerControl.StepsAreFenced | apps/api/src/router.ts:1074-1252 | A step working for one lease never changes a row that holds another lease, or none |
| ComputerControl.DenyOnlyAfterExpiry | packages/adapters/src/computer-control.ts:111-131 | The first phase of an expiry: exactly if the row still holds the lease, which has then run out, input is denied with the lease id kept, and only then is the provider told; otherwise nothing changes |
| ComputerControl.DeniedWhileTold | packages/adapters/src/computer-control.ts:122-155 | While the provider is being told of an expiry, and until the lease is cleared, the user's input is denied |
| ComputerControl.InvariantHolds | packages/adapters/src/computer-control.ts:99-157 | Every run keeps: a task about to clear a lease has told the provider, and every lease no longer in the row was revoked, never scheduled, or cleared outright |
| ComputerControl.UnscheduledLeaseIsNotRevoked | apps/api/src/router.ts:1183-1197 | Concrete run: when scheduling the expiry fails the lease is cleared locally, and the next lease is granted although the provider was never told |
| ComputerControl.ControlStore.Deny | packages/adapters/src/computer-control.ts:126-131 | The first phase: denies input for exactly this lease and keeps the lease id |
| ComputerControl.ControlStore.Clear | apps/api/src/router.ts:1186-1195 | Clearing after a failed scheduling touches the row only while it holds this lease |
| ComputerControl.ControlStore.Finalize | packages/db/src/events.ts:603-671 | The last phase: compare-and-clear on the lease id, the bot and the run |
| ComputerControl.ControlStore.Grant | apps/api/src/router.ts:1152-1166 | The grant applies exactly to a row with neither a user nor a lease |
| ControlHandlers.ReleaseAlone | apps/api/src/router.ts:1210-1242 | An undisturbed release hands control to the bot, with the lease gone and revoked at the provider, exactly if the bot has the running lease and the provider could be told; otherwise nothing changes |
| ControlHandlers.TakeoverAlone | apps/api/src/router.ts:1074-1166 | An undisturbed takeover of a bot that is not running grants 15 minutes exactly if there is a machine and the row is free, or holds another bot's running lease or one that has run out, which is revoked first; otherwise, as with the bot's own running lease, nothing changes |
| ControlHandlers.TakeoverRefused | apps/api/src/router.ts:1130-1137 | A takeover refused because the bot is running changes nothing |
| ControlHandlers.TakeoverUndone | apps/api/src/router.ts:1183-1197 | A grant whose expiry cannot be scheduled is cleared again, and control is nobody's |
| ControlHandlers.ExpireAlone | packages/adapters/src/computer-control.ts:99-157 | An undisturbed expiry, exactly if the row holds this lease and it has run out, denies input, and if the provider could be told leaves no lease and control to nobody; if not, the lease id stays for a retry |
| ControlHandlers.LastStepClears | packages/db/src/events.ts:603-671 | In every run, whatever came in between: the last step of a preemption, a release or an expiry leaves a row without the lease, which the provider has been told of, and control to the bot after a release that still held it and to nobody otherwise |
| ControlHandlers.ClearedForGood | packages/db/src/events.ts:603-671 | In every continuation of a run, a lease that has left the row is never in it again |
| EnvFile.ReadEnvAssignment | infra/updater/src/updater-logic.ts:68-79 | The reading loop returns the value of the last line that assigns the key |
| EnvFile.ReadAfterUpsert | packages/core/src/compose-update.ts:537-562 | For every file and every managed key: reading after rewriting gives the written value if and only if no shadowing line exists, in which case the shadowing value keeps winning; other keys read as before, and no rewrite creates or removes a shadow |
| EnvFile.MarksAfterUpsert | packages/core/src/compose-update.ts:537-562 | Everything a reader can see of the rewritten file, line by line, in terms of the old file and the assignment |
| EnvFile.WriterLine | packages/core/src/compose-update.ts:537-562 | A line the writer recognises is read as an assignment of the same key and of no other |
| EnvFile.KeyLine | infra/updater/src/updater-logic.ts:68-79 | A line the writer produces reads back as exactly its key and value |
| EnvFile.ForeignLinesSurvive | packages/core/src/compose-update.ts:530-562 | A rewrite leaves every line that is not an assignment of a written key, comments among them, as it is and in its order (blank lines and carriage returns at line ends apart) |
| EnvFile.IndentedCopyWins | infra/updater/src/updater-logic.ts:68-79 | Concrete file: an indented copy below the managed line survives the rewrite and keeps its old value |
| EnvFile.QuotedLineReads | infra/updater/src/updater-logic.ts:68-79 | However a line is padded, a value in quotation marks of either kind reads without them, with single ones inside double ones taken off too, and a bare one as it stands |
| EnvFile.CommentsAreSkipped | infra/updater/src/updater-logic.ts:72 | A comment assigns nothing, whatever it says |
| EnvFile.RefusedExactlyWhen | packages/core/src/compose-update.ts:52-53 | Exactly which keys and values are refused, character by character |
| EnvFile.LineEndsAreKept | packages/core/src/compose-update.ts:545-562 | The written file ends its last line; where the file had a carriage return before a line feed every line feed has one, and where it had none there is none |
| EnvFile.AddedAtTheEnd | packages/core/src/compose-update.ts:555-560 | Lines that are added stand at the end, after exactly one blank line |
| Updater.PinReads | infra/updater/src/updater-logic.ts:87-94 | What the tag state reads after a pin, for every file, shadowed or not |
| Updater.TagsNameCommits | packages/core/src/compose-update.ts:106-129 | A tag names its commit and says whether it is a release's or built here, and none is the default tag |
| Updater.HeadOnBranchAfter | infra/updater/src/index.ts:574-687 | Wherever a run's commands end, however many of them failed, the checked-out branch stands where the head is |
| Updater.Host.RunStep | infra/updater/src/index.ts:691-711 | One command: its recorded outcome, its effect on the checkout and the running image |
| Updater.Host.RunGitSteps | infra/updater/src/index.ts:574-582 | The git loop tries exactly the git commands in order up to the first failure, the checkout is what those that succeeded make of it, and no branch but the target moves |
| Updater.Host.RunComposeSteps | infra/updater/src/index.ts:612-645 | The image loop tries exactly the image commands in order; on failure the pin is taken back and services are recreated on the old tag; on success the new tag runs; the services are reported recreated exactly on success, and in need of a hand exactly if their recovery failed, when they are mixed |
| Updater.Host.AnswerFailure | infra/updater/src/index.ts:615-644 | A failed image step: the old pin is written, a failed recreate is answered by one on the old tag, and what is said of the services is what became of them |
| Updater.Host.Attempt | infra/updater/src/index.ts:574-648 | The body of a run, before its finally: which steps are recorded, when it succeeds, that success means deployed and failure unpinned when the revert was written or no pin was, and exactly which error is reported |
| Updater.Host.Compensate | infra/updater/src/index.ts:649-688 | The finally of a failed run restores checkout, then remote, and records both |
| Updater.Host.Execute | infra/updater/src/index.ts:539-689 | The exact steps of every run, when it succeeds, and the checkout they leave; ok = true: the whole plan was carried out and its tag is pinned and running; ok = false with compensations that went through: tag, checkout, remote and image are back; exactly which error is reported, and what of the services |
| Updater.Host.Apply | infra/updater/src/index.ts:434-509 | Exactly when a request is refused, when it is up to date, and when its run succeeds; a success has pulled and recreated a release, or fetched, checked out, merged and recreated a fork, deploys the release's tag or the merged commit's, and leaves the checkout on that commit with nothing else moved; a compensated failure reads and runs as before |
| Updater.Host.Choose | infra/updater/src/index.ts:434-508 | Exactly which requests are refused or need nothing, and that the plan of any other belongs to the request and to the deployment as it stands |
| Updater.Host.Rollback | infra/updater/src/index.ts:511-533 | Refused exactly when there is no other previous tag; exactly when it succeeds; success recreates on that tag, leaves the checkout alone and makes the other the previous one; failure undoes itself |
| Updater.Host.ApplyThenRollback | infra/updater/src/index.ts:434-533 | For every file, shadowed or not: which tag a rollback after a successful update deploys, exactly when it is refused, and how the file reads afterwards; without shadowing lines it returns to the original tag with the updated one as previous |
| Updater.TargetReached | infra/updater/src/index.ts:584-599 | A deployed run of a request's plan has its tag and its checkout: the release's and unchanged, or the merged commit's |
| Updater.FailedBuildTips | infra/updater/src/index.ts:579-687 | Every branch tip after any failed and compensated build, wherever it failed and with or without a new remote |
| Updater.BuildLands | packages/core/src/compose-update.ts:468-487 | The build plan's commands leave the checkout on the merged commit of the target branch with the chosen remote, and move no other branch |
| Updater.SucceedsExactlyWhen | infra/updater/src/index.ts:574-648 | A run succeeds if and only if every command of its plan succeeds, its target is known and the pin can be written |
| Updater.PlansAreOrdered | packages/core/src/compose-update.ts:455-505 | Every plan has its git commands first, so carrying out git and image commands in turn carries out the plan in order |
| Updater.FailedBuildLeavesTarget | infra/updater/src/index.ts:649-687 | A failed and compensated build, wherever it failed, leaves all branches as they were if and only if it did not get to check the target out, or the target is the branch gone back to, or it was there and the merge, if it went through, had nothing to add |
| Updater.RedeployCannotBeRolledBack | packages/core/src/compose-update.ts:514-528 | Concrete run: a build update from a stale checkout deploys the running tag again, and the rollback after it is refused |
| Updater.RestoredIsBack | infra/updater/src/index.ts:752-759 | The restore command puts HEAD on the original commit, and on the original branch when its name is usable, whatever the git steps left behind |
| Updater.RestoreLands | infra/updater/src/index.ts:752-759 | The restore leads to the original commit: on the original branch, moved back there, if it had a usable name, and detached with every branch left alone if not |
| Updater.RunReads | infra/updater/src/updater-logic.ts:87-94 | What the tag state reads after a run, successful or unpinned, for every file |
| Updater.UndoneRun | infra/updater/src/index.ts:434-509 | A reverted run, seen from the request: same tags, remote, checkout and image as before |
| Updater.MergeComesAfterCheckout | packages/core/src/compose-update.ts:455-505 | In every plan a merge follows a checkout, and the remote is set only when the repository changes |
| Updater.ComposeEndsWithRecreate | packages/core/src/compose-update.ts:455-505 | Every plan's image part ends with its only recreate |
| AutoUpdate.ReduceKeepsCoherent | apps/desktop/src/auto-update.ts:94-183 | Exactly which event breaks coherence (percent non-null only while downloading or ready, 100 when ready, a version whenever an update is on offer): a download start without an offer, and nothing else |
| AutoUpdate.ReadyIsSticky | apps/desktop/src/auto-update.ts:94-183 | A verified download is given up exactly by a failed install |
| AutoUpdate.Interleave | apps/desktop/src/auto-update.ts:242-409 | Any schedule of calls, resumptions and updater events keeps the state coherent, at most one feed check and one download outstanding, checks apart by the minimum interval unless unfrozen by hand, one completed install at most, and an unsupported environment untouched |
| AutoUpdate.Take | apps/desktop/src/auto-update.ts:242-409 | In any one turn, `ready` is lost only to a failed install, and `quitAndInstall` is called only in `ready` and never after it returned normally |
| AutoUpdate.Controller.Push | apps/desktop/src/auto-update.ts:263-268 | One event is reduced into the state, and a manual request is over when an answer arrives |
| AutoUpdate.Controller.Check | apps/desktop/src/auto-update.ts:326-335 | Joins the check in flight, or starts one that goes on exactly when it is due |
| AutoUpdate.Controller.BeginCheck | apps/desktop/src/auto-update.ts:336-354 | The part before the first await: the manual unfreeze, and whether the check is due |
| AutoUpdate.Controller.ResumeCheck | apps/desktop/src/auto-update.ts:355-361 | The second throttle test after loading: the feed is asked exactly when still due, and the time is taken then |
| AutoUpdate.Controller.FeedAnswered | apps/desktop/src/auto-update.ts:360-367 | A failed feed request shows only while idle or checking |
| AutoUpdate.Controller.Download | apps/desktop/src/auto-update.ts:370-377 | Joins the download in flight or starts one |
| AutoUpdate.Controller.ResumeDownload | apps/desktop/src/auto-update.ts:379-385 | The download is asked for exactly when the updater loaded and an update is on offer |
| AutoUpdate.Controller.DataAnswered | apps/desktop/src/auto-update.ts:384-391 | A failed download shows only while downloading |
| AutoUpdate.Controller.Install | apps/desktop/src/auto-update.ts:394-396 | An install waits for the updater exactly in `ready` with no install started |
| AutoUpdate.Controller.ResumeInstall | apps/desktop/src/auto-update.ts:396-402 | `quitAndInstall` is called exactly in `ready` with no install started, however many installs have been waiting |
| AutoUpdate.Controller.InstallAnswered | apps/desktop/src/auto-update.ts:401-407 | A thrown install is reported and may be tried again; one that returned is final |
| AutoUpdate.Controller.OnAvailable | apps/desktop/src/auto-update.ts:270-324 | An offer starts its download at once unless one is running; an offer without a version is a failure |
| AutoUpdate.PhaseReached | apps/desktop/src/auto-update.ts:94-183 | For every phase, exactly from which states and by which events it is reached or kept |
| AutoUpdate.FieldsReached | apps/desktop/src/auto-update.ts:94-183 | The offer is forgotten exactly when the feed has none or has no releases, and replaced exactly by a new offer or a finished download; the time of the last answer and the progress change exactly with answers and with the download |
| AutoUpdate.MessageReached | apps/desktop/src/auto-update.ts:56-183 | What the user is told after each event: why an attempt failed, that a restart finishes the update, or nothing |
| AutoUpdate.ClampedIsNearest | apps/desktop/src/auto-update.ts:130-137 | Percentages are rounded to the nearest, halves upwards, within 0 and 100 |
| AutoUpdate.CheckIsAnswered | apps/desktop/src/auto-update.ts:94-208 | Every answer to a check ends the checking, and the next automatic check is due exactly when the interval has passed, unless there is an offer, or no releases, after which only the user may check |
| AutoUpdate.NothingOffered | apps/desktop/src/auto-update.ts:117-126 | A feed without an update, heard outside a download, leaves an idle updater without an offer that looks again once the interval has passed |
| AutoUpdate.OfferBecomesReady | apps/desktop/src/auto-update.ts:94-155 | From an offer to ready: whatever progress and further checks say meanwhile, the download goes on with its offer and ends ready with what was downloaded |
| Effects.AtMostOneClaim | packages/adapters/src/approval-effect.ts:103-123 | Over every run of workers, crashes, pauses and decisions: claims number at most one plus the approvals written over a claimed effect, of which there is at most one, and none unless a worker moves the row of a waiting run while a decision is open; completions and settlements that win number no more than claims |
| Effects.StaleExactlyWhenOvertaken | packages/db/src/events.ts:369-432 | A decision is written exactly if the run still waits; the row is then approved if the user approved and denied if not, and the run queued; it is stale if and only if a worker moved the row between its read and its write |
| Effects.OneResultForAll | packages/adapters/src/approval-effect.ts:41-143 | Without a stale decision: the effect has ended exactly if some write won, the gate returns that write's result ever after, and every reader, every settler and every claimed completer that lost was told that same result (or the user's denial) |
| Effects.CompletionCounts | packages/adapters/src/approval-effect.ts:125-143 | Without a stale decision: a worker that comes to store its result, claimed or not, either stores what everybody is told ever after, exactly if the row is as its write expects, or changes nothing and is told that the outcome is unknown |
| Effects.TurnedAwayExactlyWhen | packages/adapters/src/executor.ts:1024-1034 | What an unclaimed completer that lost is told, that the outcome is unknown, is the winner's result if and only if that is how the effect ended |
| Effects.PerformancesCounted | packages/adapters/src/executor.ts:942-1034 | The effect itself is performed at most once for each claim and at most once by the worker that recorded it and went on unclaimed; without a stale decision twice if and only if both happened, so at most once if nobody claims or nobody goes on unclaimed |
| Effects.UnclaimedAndClaimedBothPerform | packages/adapters/src/executor.ts:996-1034 | Concrete run without a stale decision: the recording worker performs the effect unclaimed, another claims and performs it too and stores its result first, and the first is told that the outcome is unknown |
| Effects.StaleApprovalAllowsSecondClaim | packages/db/src/events.ts:369-432 | Concrete run, with the run's status and the thread's lock: a worker that lost its run claims between the read and the write of the user's approval, and the approval lets a second worker claim |
| Effects.EffectStore.Claim | packages/adapters/src/approval-effect.ts:103-123 | Claims exactly from the given status |
| Effects.EffectStore.Complete | packages/adapters/src/approval-effect.ts:125-143 | Stores the result exactly from the expected status, and overwrites nothing otherwise |
| Effects.EffectStore.Settle | packages/adapters/src/approval-effect.ts:75-101 | Settles exactly an executing row |
| Effects.NothingWithoutApproval | packages/adapters/src/executor.ts:942-1020 | In every run in which every worker's rules say to ask: the effect is performed at most once for each approval by the user, so never without one, however many workers, crashes and denials |
| Effects.DeniedForGood | packages/adapters/src/approval-effect.ts:41-66 | In every continuation without a stale decision, a denied effect stays denied, its gate returns the denial, nobody claims it any more, and without any stale decision no claimant has performed it |
| Effects.GateTells | packages/adapters/src/approval-effect.ts:41-66 | Without a stale decision: the gate executes exactly what the user approved and nobody claimed, pauses exactly while nobody decided, claimed or ended it, settles exactly while a claim has not ended, and otherwise returns the denial or the stored result |
| Effects.ArrivalAlone | packages/adapters/src/executor.ts:996-1019 | What an undisturbed worker does that finds the effect recorded, in each state of it: perform, ask, settle, or be told which result |
| Effects.RecorderAlone | packages/adapters/src/executor.ts:1011-1034 | What the undisturbed recorder does: ask first, or perform the effect with a claim or without one, and store its result |
| Effects.AnswerAlone | packages/db/src/events.ts:369-432 | An undisturbed question and answer leave the effect approved or denied as the user says, and the run for a worker to take |
| ThreadSend.OneSendPerNonce | apps/api/src/thread-target.ts:340-515 | Any number of concurrent, failing or repeated sends with one thread and nonce leave one message with exactly one run per target bot of the send that won, and all successful callers are told the same number and the same set of runs |
| ThreadSend.OnlyNewRunsQueued | apps/api/src/thread-target.ts:117-140 | After a committed send, a run of the thread is queued for a target bot exactly if the send created it; each new run is for its own bot and points at the message; every other run is unchanged |
| ThreadSend.InvariantHolds | apps/api/src/thread-target.ts:340-515 | After every run of steps: nonces are unique per thread, messages are numbered in order, every message has its targets' runs and no others, and every answer given still stands |
| ThreadSend.ThreadStore.Send | apps/api/src/thread-target.ts:359-501 | The transaction: nothing when the nonce is taken or no bot is targeted; otherwise the next number, one queued run per bot, superseded runs cancelled |
| ThreadSend.ThreadStore.HasNonce | packages/db/src/messages.ts:20-45 | The unique (thread, nonce) lookup as a loop over the messages |
| ThreadSend.ThreadStore.CancelQueuedBefore | apps/api/src/thread-target.ts:117-140 | The cancelling loop changes exactly the older queued runs of the targeted bots in this thread |
| ThreadSend.NumbersAreGapless | packages/db/src/messages.ts:20-45 | After every run, the messages of a thread are numbered from 0 on in the order of their commits, with no number missing or given twice, and the counter is the next one |
| ThreadSend.RepeatedSendIsReplayed | apps/api/src/thread-target.ts:83-115 | An undisturbed send whose nonce a message holds is told that message's number and runs, and nothing else changes |
| ThreadSend.NewSendCommits | apps/api/src/thread-target.ts:340-515 | An undisturbed send of a new nonce changes nothing if its transaction fails or no bot is targeted, and otherwise commits its message and is told its number and all of its runs |
| ThreadSend.MessageWithoutNonce | packages/db/src/messages.ts:20-45 | Messages without a nonce, a bot's own among them, take the next number, with one run for each target and none else |
| ShellQuote.TokenizeCommandLine | packages/adapters/src/computer-support.ts:140-142 | A POSIX shell reads the space-joined quoted words as exactly the original argv, and as no words at all if and only if one of them holds a NUL |
| ShellQuote.ScanEscaped | packages/adapters/src/computer-support.ts:140-142 | The escaped value, read inside single quotes, is the value, for every value and every continuation of the line |
| ShellQuote.TwoLevelsRoundTrip | packages/adapters/src/box-sandbox.ts:850-868 | The outer line starts `timeout` with the limit and a shell that runs the completion script under the marker's name with a login shell as its arguments, and what that one is told to run reads as the requested argv behind its environment |
| ShellQuote.CommandLineIsInjective | packages/adapters/src/box-sandbox.ts:223-228 | Two NUL-free requests with the same command line are the same request |
| ShellQuote.EnvironmentReachesProgram | packages/adapters/src/box-sandbox.ts:223-228 | With an environment, `env` starts the requested program with exactly the requested variables if and only if no equals sign stands in the program's name or in a variable's; a variable's name is otherwise cut at its first one |
| ShellQuote.PlainRequest | packages/adapters/src/box-sandbox.ts:222-228 | Without an environment the requested words are the program's own, or `true` if there are none |
| EventStream.Subscribe | apps/mobile/lib/api.ts:311-332 | However the stream is cut into pieces, and wherever it is aborted, the delivered events are those of the whole text read so far, split once on blank lines, without the unterminated rest |
| EventStream.AppendPiece | apps/mobile/lib/api.ts:314-317 | The kept remainder and the new piece alone yield what the whole text would |
| EventStream.DeliveredIsFinal | apps/mobile/lib/api.ts:314-332 | Reading on only appends to what was delivered |
| EventStream.SentIsDelivered | apps/mobile/lib/api.ts:317-327 | Frames of data and other lines as a sender writes them, followed by any unfinished frame, are delivered as exactly the events the sender meant, one per frame and in order |
| EventStream.EventOfFrame | apps/mobile/lib/api.ts:318-330 | The event of a written frame is that of its data lines' texts, trimmed and put together; none for an empty or [DONE] payload |
| Handshake.Forwarder.OnData | apps/web/vite.config.ts:85-108 | Each chunk moves the connection as if the whole text received so far had been searched, though only three bytes are kept; the branch for a missing boundary is unreachable |
| Handshake.TailSuffices | apps/web/vite.config.ts:92-96 | Three kept bytes and the new chunk show the end of the head exactly when the whole text does |
| Handshake.FeedFilters | apps/web/vite.config.ts:82-109 | However the response is cut: the browser has received exactly the filtered form of everything that arrived; a response within 64 KiB is never refused, a head that ends beyond always is |
| Handshake.ForwardedExactlyWhen | apps/web/vite.config.ts:87-96 | Forwarding starts if and only if some prefix of the chunks holds the whole head within the limit |
| Handshake.CutsDoNotMatter | apps/web/vite.config.ts:82-109 | Two cuts of one response that are both forwarded give the browser the same bytes |
| Handshake.FirstWriteIsBounded | apps/web/vite.config.ts:88-106 | The handshake that is written to the browser is at most 64 KiB |
| Handshake.StripKeepsTheRest | apps/web/src/screen-proxy.ts:137-151 | The result is a head and a body again: same bytes after the boundary, same status line, exactly the non-sensitive lines in their order and number, and no sensitive name |
| Handshake.SensitiveExactlyWhen | apps/web/src/screen-proxy.ts:141-146 | A header line is dropped if and only if what stands before its first colon is, between any white space and in any capitals, one of the three sensitive names |
| Handshake.StripIsIdempotent | apps/web/src/screen-proxy.ts:137-151 | Stripping twice is stripping once |
| Handshake.StripAppend | apps/web/src/screen-proxy.ts:137-151 | Bytes after the boundary pass through whatever they are |
| Handshake.HeadEndsAtEnd | apps/web/src/screen-proxy.ts:137-151 | Lines without breaks, none empty after the first, form a head that ends where it was ended and not before |
| WorkspacePath.DisplayAfterResolve | packages/adapters/src/computer-support.ts:82-118 | For every bot id and every bot-relative request, what is shown for the resolved path is the request in normal form |
| WorkspacePath.ResolveAfterDisplay | packages/adapters/src/computer-support.ts:82-118 | A path shown for a file in the bot's directory resolves back to the file if and only if its first segment is neither `shared` nor `bots` |
| WorkspacePath.DisplayCutsDirectory | packages/adapters/src/computer-support.ts:105-118 | For any stored path: exactly the part below the bot's directory is shown when the path lies in it segment by segment, and the whole path otherwise |
| WorkspacePath.ResolvedIsClean | packages/adapters/src/computer-support.ts:82-94 | Where every request leads, segment by segment, free of dot and empty segments; an error exactly for a dot segment in the request, or in a bot id that is needed |
| WorkspacePath.NormalizeIsClean | packages/adapters/src/computer-support.ts:64-71 | Normalising fails exactly on a dot segment, keeps the segments, and is idempotent |
| WorkspacePath.PosixJoinIsAppend | packages/adapters/src/computer-support.ts:82-94 | Joining clean paths with Node's path.posix.join puts their segments one after the other |
| WorkspacePath.TeamRootIsFirstSegment | packages/adapters/src/computer-support.ts:125-132 | The prefix tests for team roots amount to a test of the first segment |
| WorkspacePath.RelativeExactlyWhen | packages/adapters/src/computer-support.ts:120-138 | A request is the bot's own exactly if it starts neither with a slash of either kind nor in a team root and holds no dot segment |
| WorkspacePath.ShownAsStored | packages/adapters/src/computer-support.ts:105-118 | A dedicated computer's paths are taken and shown as they are; on a team's, a request that is not the bot's own is shown the stored path |
| WorkspacePath.ResolveDotsLeadsThere | packages/adapters/src/computer-support.ts:82-94 | Node's resolution of dot segments, which joining relies on, leads where the path leads, from any directory, and leaves only leading steps upwards |
| Paging.LoadAll | apps/api/src/thread-message-pages.ts:58-71 | The do-while terminates and returns the thread as of the first query, each message once and in order, although messages are added between the queries; with page size 0 it returns nothing |
| Paging.PageBeforeIs | apps/api/src/thread-message-pages.ts:40-56 | A page is the last rows before its cursor, and has a cursor exactly when older rows remain |
| Paging.HistoryIsEverythingOlder | apps/api/src/thread-message-pages.ts:40-56 | Following the cursors from anywhere yields exactly everything older |
| Paging.AroundHoldsTarget | apps/api/src/thread-message-pages.ts:20-38 | A page around an existing message is a contiguous stretch of at most the page size that holds it; it has a cursor exactly when something older exists, and paging back gives exactly that |
| Paging.AroundMessageShowsIt | apps/api/src/thread-message-pages.ts:11-38 | Asking around a message id shows that message |
| Paging.CursorDecreases | apps/api/src/thread-message-pages.ts:40-56 | Cursors strictly decrease |
| Paging.PageAroundIs | apps/api/src/thread-message-pages.ts:20-38 | A page around any number, whether a message has it or not: exactly which stretch of the thread it is, and when it has a cursor |
| Paging.LoadPageIs | apps/api/src/thread-message-pages.ts:4-56 | Every request: a number asked for, or that of an existing message asked for, gives the page around it whatever `before` says; anything else gives the last rows before `before` |
| ToolNames.DiscoverTools | packages/adapters/src/composio-connector.ts:382-412 | Every offer of every provider that answered is listed once and in order, with its own definition and a way back, under the first free name of the naming scheme |
| ToolNames.Choose | packages/adapters/src/composio-connector.ts:400-405 | The suffix loop terminates on any finite set of used names and picks the first unused candidate |
| ToolNames.AheadShrinks | packages/adapters/src/composio-connector.ts:401-405 | Passing a used number leaves strictly fewer used names ahead, because numbers print differently |
| ToolNames.NamesAreDistinct | packages/adapters/src/composio-connector.ts:397-411 | No two listed tools share a name |
| ToolNames.FirstOfferKeepsName | packages/adapters/src/composio-connector.ts:399-400 | A tool keeps its own name exactly when no earlier one took it |
| ToolNames.CallReachesOrigin | packages/adapters/src/composio-connector.ts:414-423 | A call by a listed name that no built-in hides reaches the provider that offered the tool, under the name it was offered by, or where the tool's own route says; unknown only if that connector is not registered |
| ToolNames.UnlistedCall | packages/adapters/src/composio-connector.ts:414-423 | A call by a name that no listed tool with a route has goes to the preset connector under that very name |
| ToolNames.DecimalReads | packages/adapters/src/composio-connector.ts:400-405 | The suffix is the number in decimal digits, without a leading zero |
| ToolNames.RoutesFind | packages/adapters/src/executor.ts:789-797 | The executor's route map returns each tool's own route |
| BoxPreparation.PreparedSinceTeardown | packages/adapters/src/box-sandbox.ts:182-211 | In every interleaving: a box counts as prepared if and only if a preparation that began after its last teardown finished all its four steps and succeeded |
| BoxPreparation.OvertakenIsHarmless | packages/adapters/src/box-sandbox.ts:202-208 | A preparation from before a teardown neither marks the box nor removes a newer preparation |
| BoxPreparation.OneAtATime | packages/adapters/src/box-sandbox.ts:184-210 | Between two teardowns at most one preparation of a box is under way |
| BoxPreparation.SucceedsUnlessOvertaken | packages/adapters/src/box-sandbox.ts:202-205 | A preparation whose steps all succeeded succeeds and marks its box if nothing tore the box down, and fails otherwise |
| BoxPreparation.InvariantHolds | packages/adapters/src/box-sandbox.ts:182-211 | Registered preparations are exactly the unsettled ones that no teardown overtook, after every run |
| BoxPreparation.BoxProvider.Prepare | packages/adapters/src/box-sandbox.ts:182-187 | The call up to its first await: nothing for a prepared box, the running preparation if there is one, else a new registered one |
| BoxPreparation.BoxProvider.Complete | packages/adapters/src/box-sandbox.ts:202-205 | The last stretch marks the box exactly if this preparation is still the registered one |
| BoxPreparation.BoxProvider.Settle | packages/adapters/src/box-sandbox.ts:206-208 | The finally removes only its own registration |
| BoxPreparation.BoxProvider.Forget | packages/adapters/src/box-sandbox.ts:771-776 | Forgets the mark and the registration of this box alone |
| BoxPreparation.PreparedUntilTeardown | packages/adapters/src/box-sandbox.ts:771-776 | In every continuation, a prepared box stays prepared and an ended preparation as it ended until the box's next teardown, after which it can be prepared again |
| BoxPreparation.PrepareAlone | packages/adapters/src/box-sandbox.ts:182-211 | An undisturbed preparation lets no second one start, and prepares its box if all four steps succeed; if one fails the box can be prepared again |
| WorkspaceImport.Import | packages/adapters/src/box-sandbox.ts:458-486 | Files are written in order, none lost or repeated, in batches of at most 8 files and 8 MiB (one larger file goes alone), each as full as it could be; after an abort or a failed write all batches but the last, unfinished one have been written |

## Left out

- Effects.AtMostOneClaim: does not model how a worker's rules are looked up, nor its run's lease; whether it asks, claims or goes on is a parameter of its arrival, and it may arrive at any time, more often than the source allows.
- ComputerHandlers.LeftForGood: does not model the writers named in the next line, which could take the row out of `suspending` too; they start from a running computer or a run that holds its lease.
- SuspensionProtocol.NoLiveLeaseAtStop: does not model the writers that set `state: "running"` without testing it (the takeover grant, the executor's takeover pause, teaching sessions), nor the executor's own checkpoint writes; with them the state can leave `suspending` under the suspender.
- SuspensionProtocol.CheckpointCoversTouches: assumes that successive row writes carry timestamps that do not go back.
- ComputerControl.GrantFollowsRevocation: does not model teaching grants and extensions of a running control lease, which reuse the same columns, nor provision's activation when it read an active lease, which writes the holder back to the user without the lease columns (packages/adapters/src/computer-lifecycle.ts:100-120).
- Updater.Host.Execute: does not model what a failed command leaves half done; a failed step changes nothing except that a failed recreate leaves the services mixed.
- EventStream.Subscribe: does not model UTF-8 decoding or JSON parsing; pieces are decoded text, and parsing is a parameter.
- WorkspaceImport.Import: does not model the part of a batch that a failed write may have stored.
- Paging.LoadAll: does not model messages deleted or edited while it runs; the queries of one around page see one state of the thread.
- `executionRunId`: it never changes within a run of the lease protocol, whose handlers only read it; the handlers that clear it when a skill, a thread or a child bot's run ends are not part of this model.
- Dedicated computers: acquire returns null there and the protocol does not run.
- Provision: its wait loop, its own machine rollback and reconnecting; only its state moves are modelled.
- Time: one clock shared by all workers of the lease and control protocols.
- Row storage: Prisma rows are values, one computer, one effect, one deployment at a time; transactions are single steps, except where the source splits them.
- `withRunLock`, the HTTP routes and the plan and state endpoints of the updater: a single-flight flag around the modelled runs.
- Git and Docker: a command is its effect on the branch, the head, the remote and the running image; status parsing and remote listing are inputs.
- Image tag and commit syntax beyond what the file format needs; advice texts and output truncation.
- The promise that loads the desktop updater: loading may succeed or fail at any time, more often than the source allows; failure texts are classified by the caller.
- Task rows, attachments, mentions, events and group locks of a message send.
- How `env` treats an operand that starts with a hyphen, what the completion script does, and how a limit is written as a number of seconds, which is positive.
- The screen proxy's address resolution, signatures and ciphers.
- `resolveBotWorkspaceCwd` and writing files: the same path functions again.
- `planLiveConnectionSync`, connector catalogues, OAuth and the providers themselves.
- `SingleScreenClaimTracker` and screen leases.
- Characters: JavaScript strings are UTF-16 code units, the model's are Unicode characters; no operation modelled here splits a surrogate pair.
- User interfaces, network clients, cryptography, scheduling and job delivery.
