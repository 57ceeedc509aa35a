/**
 * The desktop updater: a total reducer under an asynchronous controller.
 *
 * JavaScript runs each stretch of code between two awaits without interruption, so every such
 * stretch is one method of the controller, and an interleaving is any order of calls to them.
 */
module AutoUpdate {
  import opened Basics

  const MIN_CHECK_INTERVAL_MS: int := 60_000

  datatype Phase = Unsupported | Idle | Checking | Available | Downloading | Ready | Error

  datatype Failure = NoReleases | Offline | Signature | Other

  datatype Message =
    | NotSupported | NoReleasesYet | Unreachable | NotVerified | NotCompleted | RestartToFinish

  datatype State = State(
    phase: Phase,
    availableVersion: Option<string>,
    percent: Option<int>,
    message: Option<Message>,
    checkedAt: Option<int>)

  datatype Event =
    | CheckStart
    | UpdateAvailable(version: string)
    | NotAvailable
    | DownloadStart
    | Progress(percent: real)
    | Downloaded(version: string)
    | Failed(failure: Failure, userInitiated: bool, installFailed: bool)

  function Round(x: real): int {
    (x + 0.5).Floor
  }

  function Clamped(x: real): int {
    var r := Round(x);
    if r < 0 then 0 else if r > 100 then 100 else r
  }

  function Reduce(s: State, e: Event, now: int): State {
    if s.phase == Unsupported then s
    else match e
      case CheckStart =>
        if s.phase == Available || s.phase == Downloading || s.phase == Ready then s
        else s.(phase := Checking, percent := None, message := None)
      case UpdateAvailable(version) =>
        if s.phase == Downloading || s.phase == Ready then s
        else State(Available, Some(version), None, None, Some(now))
      case NotAvailable =>
        if s.phase == Downloading || s.phase == Ready then s
        else State(Idle, None, None, None, Some(now))
      case DownloadStart =>
        if s.phase == Ready then s else s.(phase := Downloading, percent := Some(0), message := None)
      case Progress(percent) =>
        if s.phase != Available && s.phase != Downloading then s
        else s.(phase := Downloading, percent := Some(Clamped(percent)))
      case Downloaded(version) =>
        s.(phase := Ready, availableVersion := Some(version), percent := Some(100), message := Some(RestartToFinish))
      case Failed(failure, userInitiated, installFailed) =>
        if s.phase == Ready && !installFailed then s
        else if failure.NoReleases? && s.phase == Checking then
          State(Unsupported, None, None, Some(NoReleasesYet), Some(now))
        else if failure.NoReleases? then
          s.(phase := Error, percent := None, message := Some(NotCompleted), checkedAt := Some(now))
        else if failure.Offline? && !installFailed then
          s.(phase := Idle, percent := None, message := if userInitiated then Some(Unreachable) else None,
             checkedAt := Some(now))
        else
          s.(phase := Error, percent := None, checkedAt := Some(now),
             message := match failure
                        case Signature => Some(NotVerified)
                        case Offline => None
                        case _ => Some(NotCompleted))
  }

  /** What the renderer may rely on in every state. */
  predicate Coherent(s: State) {
    && (s.percent.Some? <==> s.phase == Downloading || s.phase == Ready)
    && (s.percent.Some? ==> 0 <= s.percent.value <= 100)
    && (s.phase == Ready ==> s.percent == Some(100))
    && (s.phase == Available || s.phase == Downloading || s.phase == Ready ==> s.availableVersion.Some?)
  }

  predicate ShouldCheck(s: State, now: int, lastCheck: int, userInitiated: bool, supported: bool) {
    if s.phase == Unsupported then userInitiated && supported
    else (s.phase == Idle || s.phase == Error) && (now - lastCheck >= MIN_CHECK_INTERVAL_MS || lastCheck == 0)
  }

  /** Coherence is kept by every event, save a download started when no update is on offer. */
  lemma ReduceKeepsCoherent(s: State, e: Event, now: int)
    requires Coherent(s)
    ensures Coherent(Reduce(s, e, now)) <==>
              !(e.DownloadStart? && s.availableVersion.None? && s.phase != Unsupported)
  {
  }

  /** A verified download is given up only by a failed install. */
  lemma ReadyIsSticky(s: State, e: Event, now: int)
    requires s.phase == Ready
    ensures Reduce(s, e, now).phase == Ready <==> !(e.Failed? && e.installFailed)
  {
  }

  /** A download under way or done is not disturbed by what the feed says. */
  predicate Busy(s: State) {
    s.phase == Downloading || s.phase == Ready
  }

  /** A failure that is more than a late error of a verified download. */
  predicate Counts(s: State, e: Event) {
    e.Failed? && (s.phase == Ready ==> e.installFailed)
  }

  /** From where each phase is reached, or kept; an unsupported installation stays as it is. */
  lemma PhaseReached(s: State, e: Event, now: int)
    ensures var t := Reduce(s, e, now);
      if s.phase == Unsupported then t == s
      else
        && (t.phase == Checking <==> (e.CheckStart? && s.phase in {Idle, Checking, Error}) || (e.Progress? && s.phase == Checking))
        && (t.phase == Available <==> (e.UpdateAvailable? && !Busy(s)) || (e.CheckStart? && s.phase == Available))
        && (t.phase == Idle <==>
             || (e.NotAvailable? && !Busy(s))
             || (Counts(s, e) && e.failure.Offline? && !e.installFailed)
             || (e.Progress? && s.phase == Idle))
        && (t.phase == Downloading <==>
             || (e.DownloadStart? && s.phase != Ready)
             || (e.Progress? && s.phase in {Available, Downloading})
             || (s.phase == Downloading && (e.CheckStart? || e.UpdateAvailable? || e.NotAvailable?)))
        && (t.phase == Ready <==> e.Downloaded? || (s.phase == Ready && !(e.Failed? && e.installFailed)))
        && (t.phase == Unsupported <==> e.Failed? && e.failure.NoReleases? && s.phase == Checking)
  {
  }

  /**
   * The offer is forgotten exactly when the feed has none or has no releases, and replaced exactly by
   * a new offer or what was downloaded; the time of the last answer is that of offers, of their
   * absence and of failures; the progress is that of the download.
   */
  lemma FieldsReached(s: State, e: Event, now: int)
    requires s.phase != Unsupported && Coherent(s)
    ensures var t := Reduce(s, e, now);
      var forgotten := (e.NotAvailable? && !Busy(s)) || (e.Failed? && e.failure.NoReleases? && s.phase == Checking);
      var offered := (e.UpdateAvailable? && !Busy(s)) || e.Downloaded?;
      && t.availableVersion == (if forgotten then None else if offered then Some(e.version) else s.availableVersion)
      && t.checkedAt == (if (e.UpdateAvailable? && !Busy(s)) || (e.NotAvailable? && !Busy(s)) || Counts(s, e)
                         then Some(now) else s.checkedAt)
      && (t.phase == Downloading && s.phase != Downloading && !e.Progress? ==> t.percent == Some(0))
      && (t.phase == Downloading && e.Progress? ==> t.percent == Some(Clamped(e.percent)))
      && (t.phase == Downloading && s.phase == Downloading && !e.Progress? && !e.DownloadStart? ==> t.percent == s.percent)
      && (t.phase == Ready && s.phase != Ready ==> t.percent == Some(100))
      && (t.percent.None? <==> !Busy(t))
  {
  }

  /** What the user is told: why the last attempt failed, that a restart finishes the update, or nothing. */
  lemma MessageReached(s: State, e: Event, now: int)
    requires s.phase != Unsupported
    ensures var t := Reduce(s, e, now);
      && (e.Downloaded? ==> t.message == Some(RestartToFinish))
      && ((e.UpdateAvailable? || e.NotAvailable?) && !Busy(s) ==> t.message == None)
      && (e.CheckStart? && s.phase in {Idle, Checking, Error} ==> t.message == None)
      && (e.DownloadStart? && s.phase != Ready ==> t.message == None)
      && (Counts(s, e) ==> t.message == Complaint(s, e))
      && (e.Progress? || (Busy(s) && (e.UpdateAvailable? || e.NotAvailable?)) ==> t.message == s.message)
  {
  }

  function Complaint(s: State, e: Event): Option<Message>
    requires e.Failed?
  {
    match e.failure
    case Signature => Some(NotVerified)
    case Other => Some(NotCompleted)
    case NoReleases => Some(if s.phase == Checking then NoReleasesYet else NotCompleted)
    case Offline => if e.userInitiated && !e.installFailed then Some(Unreachable) else None
  }

  /** Percentages are rounded to the nearest, halves upwards, within 0 and 100. */
  lemma ClampedIsNearest(x: real)
    ensures 0 <= Clamped(x) <= 100
    ensures -0.5 <= x < 100.5 ==> -0.5 < Clamped(x) as real - x <= 0.5
    ensures x < -0.5 ==> Clamped(x) == 0
    ensures x >= 100.5 ==> Clamped(x) == 100
  {
  }

  /**
   * Whatever the feed's answer to a check is, the checking ends, at that time; and the next automatic
   * check is due exactly when the interval has passed since the last one, or there was none, unless
   * the answer was an offer, or that there are no releases, after which only the user may check again.
   */
  lemma CheckIsAnswered(
    s: State, e: Event, now: int, later: int, lastCheck: int, userInitiated: bool, supported: bool)
    requires s.phase == Checking && (e.UpdateAvailable? || e.NotAvailable? || e.Failed?)
    ensures var t := Reduce(s, e, now);
      && t.phase != Checking && t.checkedAt == Some(now)
      && (t.availableVersion.Some? && !e.Failed? <==> e.UpdateAvailable?)
      && (ShouldCheck(t, later, lastCheck, userInitiated, supported) <==>
           if e.UpdateAvailable? then false
           else if e.Failed? && e.failure.NoReleases? then userInitiated && supported
           else later - lastCheck >= 60_000 || lastCheck == 0)
  {
  }

  /** Outside a check too, a feed without an offer leaves none, and lets the next check come in time. */
  lemma NothingOffered(s: State, now: int, later: int, lastCheck: int, supported: bool)
    requires s.phase != Unsupported && !Busy(s)
    ensures var t := Reduce(s, NotAvailable, now);
      && t == State(Idle, None, None, None, Some(now))
      && (ShouldCheck(t, later, lastCheck, false, supported) <==> later - lastCheck >= 60_000 || lastCheck == 0)
  {
  }

  function ReduceAll(s: State, events: seq<Event>, now: int): State {
    if events == [] then s else Reduce(ReduceAll(s, events[..|events| - 1], now), events[|events| - 1], now)
  }

  /** The events of a download that reports its progress. */
  predicate Course(events: seq<Event>) {
    forall i :: 0 <= i < |events| ==> events[i].Progress? || events[i].CheckStart? || events[i].NotAvailable? || events[i].UpdateAvailable?
  }

  /**
   * From an offer to an update ready to install: whatever progress is reported and whatever further
   * checks say meanwhile, the download goes on with that offer, and ends ready with what was downloaded.
   */
  lemma {:induction false} OfferBecomesReady(s: State, version: string, events: seq<Event>, now: int)
    requires s.phase != Unsupported && !Busy(s) && Course(events)
    ensures var offered := Reduce(s, UpdateAvailable(version), now);
      var loading := ReduceAll(Reduce(offered, DownloadStart, now), events, now);
      && offered == State(Available, Some(version), None, None, Some(now))
      && loading.phase == Downloading && loading.availableVersion == Some(version) && loading.message == None
      && loading.checkedAt == Some(now)
      && Reduce(loading, Downloaded(version), now)
         == State(Ready, Some(version), Some(100), Some(RestartToFinish), Some(now))
  {
    if events != [] {
      OfferBecomesReady(s, version, events[..|events| - 1], now);
    }
  }

  // ---------- the controller ----------

  /** Where a started check or download stands. */
  datatype CheckStage =
    | CheckAwaitsUpdater(userInitiated: bool, since: int)
    | CheckAwaitsFeed            // checkForUpdates has been called
    | CheckSettled               // its promise is about to clear the slot
  datatype DownloadStage =
    | DownloadAwaitsUpdater
    | DownloadAwaitsData         // downloadUpdate has been called
    | DownloadSettled
  /** One call of checkForUpdates, and whether a manual retry had lifted the freeze since the last. */
  datatype Start = Start(at: int, unfrozen: bool)

  class Controller {
    const supported: bool
    var current: State
    var lastCheck: int
    var loaded: bool                              // the updater module is there and its listeners registered
    var checkWasRequested: bool
    var installStarted: bool
    var checkSlot: Option<nat>                    // checkPromise and downloadPromise, by the id of the task
    var downloadSlot: Option<nat>
    var checks: map<nat, CheckStage>              // every runCheck whose promise chain has not finished
    var downloads: map<nat, DownloadStage>
    var installs: set<nat>                        // install calls that wait for the updater
    var installing: Option<nat>                   // the install whose quitAndInstall has not returned
    var nextId: nat
    ghost var starts: seq<Start>
    ghost var lifted: bool                        // a manual retry lifted the freeze since the last start
    ghost var calls: nat                          // quitAndInstall calls
    ghost var completed: nat                      // of those, the ones that returned normally

    ghost predicate Valid()
      reads this
    {
      && Coherent(current)
      && (!supported ==> current.phase == Unsupported && !loaded && starts == [] && calls == 0)
      && SingleFlight() && Throttled() && InstallsOnce()
    }

    ghost predicate SingleFlight()
      reads this`checks, this`checkSlot, this`downloads, this`downloadSlot, this`installs, this`nextId, this`loaded
    {
      && (forall id :: id in installs ==> id < nextId)
      && (forall id :: id in checks ==> id < nextId && checkSlot == Some(id))
      && (forall id :: id in downloads ==> id < nextId && downloadSlot == Some(id))
      && (forall id :: id in checks && checks[id].CheckAwaitsFeed? ==> loaded)
      && (forall id :: id in downloads && downloads[id].DownloadAwaitsData? ==> loaded)
    }

    ghost predicate Throttled()
      reads this`lifted, this`lastCheck, this`starts, this`checks
    {
      && (lifted ==> lastCheck == 0)
      && (!lifted ==> lastCheck == if starts == [] then 0 else starts[|starts| - 1].at)
      && (forall id :: id in checks && checks[id].CheckAwaitsUpdater? ==> Due(lastCheck, checks[id].since))
      && Spaced(starts)
    }

    ghost predicate InstallsOnce()
      reads this`installing, this`installStarted, this`completed
    {
      && (installing.Some? ==> installStarted && completed == 0)
      && (completed > 0 ==> installStarted)
      && completed <= 1
    }

    static predicate Due(lastCheck: int, now: int) {
      now - lastCheck >= MIN_CHECK_INTERVAL_MS || lastCheck == 0
    }

    /** Every check keeps its distance from the one before, which a manual unfreeze alone waives. */
    static ghost predicate Spaced(starts: seq<Start>) {
      forall i :: 0 < i < |starts| ==>
        starts[i].unfrozen || starts[i].at - starts[i - 1].at >= MIN_CHECK_INTERVAL_MS || starts[i - 1].at == 0
    }

    constructor (supported: bool)
      ensures Valid()
      ensures this.supported == supported && starts == [] && calls == 0
      ensures current == State(if supported then Idle else Unsupported, None, None,
                               if supported then None else Some(NotSupported), None)
    {
      this.supported := supported;
      current := State(if supported then Idle else Unsupported, None, None,
                       if supported then None else Some(NotSupported), None);
      lastCheck, loaded, checkWasRequested, installStarted := 0, false, false, false;
      checkSlot, downloadSlot, checks, downloads, installs, installing, nextId := None, None, map[], map[], {}, None, 0;
      starts, lifted, calls, completed := [], false, 0, 0;
    }

    /** Reduces one event into the state. */
    method Push(e: Event, iso: int)
      modifies this`current, this`checkWasRequested
      ensures current == Reduce(old(current), e, iso)
      ensures checkWasRequested == (old(checkWasRequested) && !(e.NotAvailable? || e.Downloaded? || e.Failed?))
    {
      current := Reduce(current, e, iso);
      if e.NotAvailable? || e.Downloaded? || e.Failed? { checkWasRequested := false; }
    }

    // ---------- checking ----------

    /** check(): joins the check in flight, or starts one and runs it up to its first await. */
    method Check(userInitiated: bool, now: int) returns (id: nat)
      requires Valid()
      modifies this`current, this`lastCheck, this`checkWasRequested, this`checkSlot, this`checks, this`nextId, this`lifted
      ensures !supported ==> current == old(current)
      ensures Valid()
      ensures checkWasRequested == (old(checkWasRequested) || userInitiated)
      ensures checkSlot == Some(id)
      ensures old(checkSlot).Some? ==>
        id == old(checkSlot).value && checks == old(checks) && current == old(current) && lastCheck == old(lastCheck)
      ensures old(checkSlot).None? ==>
        && id in checks && !checks[id].CheckAwaitsFeed?
        && (checks[id].CheckAwaitsUpdater? <==> ShouldCheck(old(current), now, old(lastCheck), checkWasRequested, supported))
        && (if checks[id].CheckAwaitsUpdater? && old(current).phase == Unsupported
            then Unfrozen(old(current)) else current == old(current))
    {
      hide InstallsOnce, Spaced, ShouldCheck, Coherent;
      if userInitiated { checkWasRequested := true; }
      if checkSlot.Some? { return checkSlot.value; }
      id := nextId;
      var stage := BeginCheck(now);
      nextId := nextId + 1;
      checkSlot := Some(id);
      checks := checks[id := stage];
    }

    /** A manual retry lifted the freeze of an empty feed. */
    ghost predicate Unfrozen(was: State)
      reads this
    {
      && supported && checkWasRequested && lifted && was.phase == Unsupported
      && current == State(Idle, None, None, None, was.checkedAt)
    }

    /** The first lines of runCheck(). */
    method BeginCheck(now: int) returns (stage: CheckStage)
      requires Valid() && checks == map[]
      modifies this`current, this`lastCheck, this`lifted
      ensures !supported ==> current == old(current)
      ensures Valid()
      ensures stage == if ShouldCheck(old(current), now, old(lastCheck), checkWasRequested, supported)
                       then CheckAwaitsUpdater(checkWasRequested, now) else CheckSettled
      ensures if stage.CheckAwaitsUpdater? && old(current).phase == Unsupported
              then Unfrozen(old(current)) else current == old(current)
      ensures stage.CheckAwaitsUpdater? ==> Due(lastCheck, now)
    {
      if !ShouldCheck(current, now, lastCheck, checkWasRequested, supported) { return CheckSettled; }
      if current.phase == Unsupported && supported {
        current := current.(phase := Idle, availableVersion := None, percent := None, message := None);
        lastCheck := 0;
        lifted := true;
      }
      stage := CheckAwaitsUpdater(checkWasRequested, now);
    }

    /** After the updater module has loaded (got) or could not be loaded. The clock has not run back. */
    method ResumeCheck(id: nat, got: bool, now: int)
      requires Valid()
      requires id in checks && checks[id].CheckAwaitsUpdater? && checks[id].since <= now
      requires got ==> loaded
      modifies this`lastCheck, this`checks, this`starts, this`lifted
      ensures Valid()
      ensures starts != old(starts) <==>
                got && ShouldCheck(current, now, old(lastCheck), old(checks)[id].userInitiated, supported)
      ensures starts != old(starts) ==>
        starts == old(starts) + [Start(now, old(lifted))] && checks == old(checks)[id := CheckAwaitsFeed] && lastCheck == now
      ensures starts == old(starts) ==> checks == old(checks)[id := CheckSettled] && lastCheck == old(lastCheck)
    {
      if !got || !ShouldCheck(current, now, lastCheck, checks[id].userInitiated, supported) {
        checks := checks[id := CheckSettled];
        return;
      }
      lastCheck := now;
      starts := starts + [Start(now, lifted)];
      lifted := false;
      checks := checks[id := CheckAwaitsFeed];
    }

    /** checkForUpdates returned or threw. */
    method FeedAnswered(id: nat, thrown: Option<Failure>, iso: int)
      requires Valid() && id in checks && checks[id].CheckAwaitsFeed?
      modifies this`current, this`checkWasRequested, this`checks
      ensures supported
      ensures Valid() && checks == old(checks)[id := CheckSettled]
      ensures current == if thrown.Some? && (old(current).phase == Idle || old(current).phase == Checking)
                         then Reduce(old(current), Failed(thrown.value, old(checkWasRequested), false), iso)
                         else old(current)
    {
      if thrown.Some? && (current.phase == Idle || current.phase == Checking) {
        Push(Failed(thrown.value, checkWasRequested, false), iso);
      }
      checks := checks[id := CheckSettled];
    }

    /** The finally of a check: the slot is free again. */
    method CheckDone(id: nat)
      requires Valid() && id in checks && checks[id].CheckSettled?
      modifies this`checkSlot, this`checks
      ensures Valid() && checkSlot.None? && checks == map[]
    {
      if checkSlot == Some(id) { checkSlot := None; }
      checks := checks - {id};
    }

    // ---------- downloading ----------

    method Download() returns (id: nat)
      requires Valid()
      modifies this`downloadSlot, this`downloads, this`nextId
      ensures Valid() && downloadSlot == Some(id)
      ensures old(downloadSlot).Some? ==> id == old(downloadSlot).value && downloads == old(downloads)
      ensures old(downloadSlot).None? ==>
        downloads == map[id := if current.phase == Available then DownloadAwaitsUpdater else DownloadSettled]
    {
      if downloadSlot.Some? { return downloadSlot.value; }
      id := nextId;
      nextId := nextId + 1;
      downloadSlot := Some(id);
      downloads := downloads[id := if current.phase == Available then DownloadAwaitsUpdater else DownloadSettled];
    }

    method ResumeDownload(id: nat, got: bool, iso: int)
      requires Valid() && id in downloads && downloads[id].DownloadAwaitsUpdater?
      requires got ==> loaded
      modifies this`current, this`checkWasRequested, this`downloads
      ensures !supported ==> current == old(current)
      ensures Valid()
      ensures if got && old(current).phase == Available
              then downloads == old(downloads)[id := DownloadAwaitsData]
                && current == old(current).(phase := Downloading, percent := Some(0), message := None)
              else downloads == old(downloads)[id := DownloadSettled] && current == old(current)
    {
      if got && current.phase == Available {
        Push(DownloadStart, iso);
        downloads := downloads[id := DownloadAwaitsData];
      } else {
        downloads := downloads[id := DownloadSettled];
      }
    }

    /** downloadUpdate returned or threw. */
    method DataAnswered(id: nat, thrown: Option<Failure>, iso: int)
      requires Valid() && id in downloads && downloads[id].DownloadAwaitsData?
      modifies this`current, this`checkWasRequested, this`downloads
      ensures supported
      ensures Valid() && downloads == old(downloads)[id := DownloadSettled]
      ensures current == if thrown.Some? && old(current).phase == Downloading
                         then Reduce(old(current), Failed(thrown.value, old(checkWasRequested), false), iso)
                         else old(current)
    {
      if thrown.Some? && current.phase == Downloading {
        Push(Failed(thrown.value, checkWasRequested, false), iso);
      }
      downloads := downloads[id := DownloadSettled];
    }

    method DownloadDone(id: nat)
      requires Valid() && id in downloads && downloads[id].DownloadSettled?
      modifies this`downloadSlot, this`downloads
      ensures Valid() && downloadSlot.None? && downloads == map[]
    {
      if downloadSlot == Some(id) { downloadSlot := None; }
      downloads := downloads - {id};
    }

    // ---------- installing ----------

    /** The first lines of install(): whether it goes on to wait for the updater. */
    method Install() returns (id: Option<nat>)
      requires Valid()
      modifies this`installs, this`nextId
      ensures Valid()
      ensures id.Some? <==> !installStarted && current.phase == Ready
      ensures id.Some? ==> id.value !in old(installs)
      ensures installs == old(installs) + if id.Some? then {id.value} else {}
    {
      if installStarted || current.phase != Ready { return None; }
      id := Some(nextId);
      installs := installs + {nextId};
      nextId := nextId + 1;
    }

    /** The rest of install(), up to and including the call of quitAndInstall. */
    method ResumeInstall(id: nat, got: bool)
      requires Valid() && id in installs && (got ==> loaded)
      modifies this`installs, this`installStarted, this`installing, this`calls
      ensures Valid() && installs == old(installs) - {id}
      ensures calls == old(calls) + if got && !old(installStarted) && current.phase == Ready then 1 else 0
      ensures calls != old(calls) ==> old(completed) == 0 && current.phase == Ready && installing == Some(id)
      ensures calls == old(calls) ==> installing == old(installing) && installStarted == old(installStarted)
    {
      installs := installs - {id};
      if !got || installStarted || current.phase != Ready { return; }
      installStarted := true;
      calls := calls + 1;
      installing := Some(id);
    }

    /** quitAndInstall returned or threw. */
    method InstallAnswered(id: nat, thrown: Option<Failure>, iso: int)
      requires Valid() && installing == Some(id)
      modifies this`current, this`checkWasRequested, this`installStarted, this`installing, this`completed
      ensures !supported ==> current == old(current)
      ensures Valid() && installing.None?
      ensures installStarted == thrown.None?
      ensures old(completed) == 0 && completed == if thrown.None? then 1 else 0
      ensures current == if thrown.None? then old(current) else Reduce(old(current), Failed(thrown.value, true, true), iso)
    {
      installing := None;
      if thrown.Some? {
        installStarted := false;
        Push(Failed(thrown.value, true, true), iso);
      } else {
        completed := 1;
      }
    }

    // ---------- the updater's own events ----------

    /** loadUpdater resolved; its listeners are registered from here on. */
    method UpdaterLoaded()
      requires Valid() && supported
      modifies this`loaded
      ensures Valid() && loaded
    {
      loaded := true;
    }

    /** loadUpdater rejected. */
    method UpdaterUnavailable(failure: Failure, iso: int)
      requires Valid() && supported
      modifies this`current, this`checkWasRequested
      ensures Valid()
      ensures current == Reduce(old(current), Failed(failure, old(checkWasRequested), false), iso)
    {
      Push(Failed(failure, checkWasRequested, false), iso);
    }

    method OnChecking(iso: int)
      requires Valid() && loaded
      modifies this`current, this`checkWasRequested
      ensures supported
      ensures Valid() && current == Reduce(old(current), CheckStart, iso)
    {
      Push(CheckStart, iso);
    }

    /** An offer starts its download at once; an offer without a version is a failure. */
    method OnAvailable(version: Option<string>, iso: int)
      requires Valid() && loaded
      modifies this`current, this`checkWasRequested, this`downloadSlot, this`downloads, this`nextId
      ensures supported
      ensures Valid()
      ensures current == Reduce(old(current),
        if version.Some? then UpdateAvailable(version.value) else Failed(Other, old(checkWasRequested), false), iso)
      ensures version.Some? && current.phase == Available && old(downloadSlot).None? ==>
        downloadSlot.Some? && downloads == map[downloadSlot.value := DownloadAwaitsUpdater]
      ensures version.None? || old(downloadSlot).Some? ==> downloads == old(downloads) && downloadSlot == old(downloadSlot)
    {
      if version.None? {
        Push(Failed(Other, checkWasRequested, false), iso);
        return;
      }
      Push(UpdateAvailable(version.value), iso);
      var _ := Download();
    }

    method OnNotAvailable(iso: int)
      requires Valid() && loaded
      modifies this`current, this`checkWasRequested
      ensures supported
      ensures Valid() && current == Reduce(old(current), NotAvailable, iso)
    {
      Push(NotAvailable, iso);
    }

    method OnProgress(percent: Option<real>, iso: int)
      requires Valid() && loaded
      modifies this`current, this`checkWasRequested
      ensures supported
      ensures Valid()
      ensures current == if percent.Some? then Reduce(old(current), Progress(percent.value), iso) else old(current)
    {
      if percent.Some? { Push(Progress(percent.value), iso); }
    }

    method OnDownloaded(version: Option<string>, iso: int)
      requires Valid() && loaded
      modifies this`current, this`checkWasRequested
      ensures supported
      ensures Valid()
      ensures current == Reduce(old(current),
        if version.Some? then Downloaded(version.value) else Failed(Other, old(checkWasRequested), false), iso)
    {
      if version.Some? { Push(Downloaded(version.value), iso); }
      else { Push(Failed(Other, checkWasRequested, false), iso); }
    }

    method OnError(failure: Failure, iso: int)
      requires Valid() && loaded
      modifies this`current, this`checkWasRequested
      ensures supported
      ensures Valid()
      ensures current == Reduce(old(current), Failed(failure, old(checkWasRequested), false), iso)
    {
      Push(Failed(failure, checkWasRequested, false), iso);
    }
  }

  // ---------- every interleaving ----------

  /** One stretch of code, as the host's event loop may pick it next. */
  datatype Turn =
    | DoCheck(userInitiated: bool, now: int)
    | DoResumeCheck(got: bool, now: int)
    | DoFeedAnswered(thrown: Option<Failure>)
    | DoCheckDone
    | DoDownload
    | DoResumeDownload(got: bool)
    | DoDataAnswered(thrown: Option<Failure>)
    | DoDownloadDone
    | DoInstall
    | DoResumeInstall(id: nat, got: bool)
    | DoInstallAnswered(id: nat, thrown: Option<Failure>)
    | DoLoaded
    | DoUnavailable(failure: Failure)
    | DoOnChecking
    | DoOnAvailable(version: Option<string>)
    | DoOnNotAvailable
    | DoOnProgress(percent: Option<real>)
    | DoOnDownloaded(version: Option<string>)
    | DoOnError(failure: Failure)

  predicate AwaitsFeed(checks: map<nat, CheckStage>, id: nat) {
    id in checks && checks[id].CheckAwaitsFeed?
  }

  predicate AwaitsData(downloads: map<nat, DownloadStage>, id: nat) {
    id in downloads && downloads[id].DownloadAwaitsData?
  }

  /** What holds of a controller after any schedule. */
  ghost predicate Safe(c: Controller)
    reads c
  {
    && Coherent(c.current)
    && (forall a, b :: AwaitsFeed(c.checks, a) && AwaitsFeed(c.checks, b) ==> a == b)
    && (forall a, b :: AwaitsData(c.downloads, a) && AwaitsData(c.downloads, b) ==> a == b)
    && Controller.Spaced(c.starts)
    && c.completed <= 1
    && (!c.supported ==>
         && c.current == State(Unsupported, None, None, Some(NotSupported), None)
         && c.starts == [] && c.calls == 0
         && forall id :: id in c.downloads ==> !c.downloads[id].DownloadAwaitsData?)
  }

  /** Any schedule at all, turn by turn; a turn that has nothing to resume is skipped. */
  method Interleave(supported: bool, schedule: seq<Turn>) returns (c: Controller)
    ensures fresh(c) && c.Valid() && Safe(c) && c.supported == supported
  {
    c := new Controller(supported);
    for k := 0 to |schedule|
      invariant fresh(c) && c.Valid() && c.supported == supported
      invariant !supported ==> c.current == State(Unsupported, None, None, Some(NotSupported), None)
    {
      Take(c, schedule[k], k);
    }
  }

  method Take(c: Controller, turn: Turn, iso: int)
    requires c.Valid()
    modifies c
    ensures c.Valid()
    ensures !c.supported ==> c.current == old(c.current)
    // a verified download is given up only by a failed install
    ensures old(c.current).phase == Ready && !(turn.DoInstallAnswered? && turn.thrown.Some?) ==> c.current.phase == Ready
    // quitAndInstall is called on a verified download only, and never after it has returned normally
    ensures c.calls != old(c.calls) ==> old(c.current).phase == Ready && old(c.completed) == 0
    ensures old(c.completed) <= c.completed
  {
    hide Controller.Valid, Controller.Throttled, Controller.SingleFlight, Controller.InstallsOnce, Controller.Spaced, ShouldCheck, Coherent, Reduce;
    forall s: State, e, now | s.phase == Ready
      ensures Reduce(s, e, now).phase == Ready <==> !(e.Failed? && e.installFailed)
    {
      ReadyIsSticky(s, e, now);
    }
    match turn
    case DoCheck(userInitiated, now) => var _ := c.Check(userInitiated, now);
    case DoResumeCheck(got, now) =>
      if c.checkSlot.Some? && c.checkSlot.value in c.checks {
        var id := c.checkSlot.value;
        if c.checks[id].CheckAwaitsUpdater? && c.checks[id].since <= now { c.ResumeCheck(id, got && c.loaded, now); }
      }
    case DoFeedAnswered(thrown) =>
      if c.checkSlot.Some? && c.checkSlot.value in c.checks && c.checks[c.checkSlot.value].CheckAwaitsFeed? {
        c.FeedAnswered(c.checkSlot.value, thrown, iso);
      }
    case DoCheckDone =>
      if c.checkSlot.Some? && c.checkSlot.value in c.checks && c.checks[c.checkSlot.value].CheckSettled? {
        c.CheckDone(c.checkSlot.value);
      }
    case DoDownload => var _ := c.Download();
    case DoResumeDownload(got) =>
      if c.downloadSlot.Some? && c.downloadSlot.value in c.downloads
         && c.downloads[c.downloadSlot.value].DownloadAwaitsUpdater? {
        c.ResumeDownload(c.downloadSlot.value, got && c.loaded, iso);
      }
    case DoDataAnswered(thrown) =>
      if c.downloadSlot.Some? && c.downloadSlot.value in c.downloads
         && c.downloads[c.downloadSlot.value].DownloadAwaitsData? {
        c.DataAnswered(c.downloadSlot.value, thrown, iso);
      }
    case DoDownloadDone =>
      if c.downloadSlot.Some? && c.downloadSlot.value in c.downloads
         && c.downloads[c.downloadSlot.value].DownloadSettled? {
        c.DownloadDone(c.downloadSlot.value);
      }
    case DoInstall => var _ := c.Install();
    case DoResumeInstall(id, got) => if id in c.installs { c.ResumeInstall(id, got && c.loaded); }
    case DoInstallAnswered(id, thrown) => if c.installing == Some(id) { c.InstallAnswered(id, thrown, iso); }
    case DoLoaded => if c.supported { c.UpdaterLoaded(); }
    case DoUnavailable(failure) => if c.supported { c.UpdaterUnavailable(failure, iso); }
    case DoOnChecking => if c.loaded { c.OnChecking(iso); }
    case DoOnAvailable(version) => if c.loaded { c.OnAvailable(version, iso); }
    case DoOnNotAvailable => if c.loaded { c.OnNotAvailable(iso); }
    case DoOnProgress(percent) => if c.loaded { c.OnProgress(percent, iso); }
    case DoOnDownloaded(version) => if c.loaded { c.OnDownloaded(version, iso); }
    case DoOnError(failure) => if c.loaded { c.OnError(failure, iso); }
  }
}
