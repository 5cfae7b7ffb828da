/** The updater store: checks, installs and restart timers interleave at every
    await; each step below is the code between two awaits. */
module UpdaterStoreModel {
  import opened Sequences

  datatype Update = Update(version: string, date: Option<string>, body: Option<string>)

  datatype Progress = Progress(downloadedBytes: nat, totalBytes: nat)

  const EMPTY_PROGRESS := Progress(0, 0)

  datatype Status = Idle | Checking | UpToDate | Available | Updating | Restarting | AwaitingRestart | Error

  /** The visible fields of the store. */
  datatype Fields = Fields(
    status: Status,
    availableVersion: Option<string>,
    releaseDate: Option<string>,
    releaseNotes: Option<string>,
    error: Option<string>,
    progress: Progress,
    pendingUpdate: Option<Update>)

  const INITIAL := Fields(Idle, None, None, None, None, EMPTY_PROGRESS, None)

  /** The store with what is suspended at an await: checks a caller started,
      checks an install waits for, installs between their check and their
      download, running downloads, and armed restart timers. */
  datatype Store = Store(
    f: Fields,
    checks: nat,
    installChecks: nat,
    resuming: nat,
    installs: nat,
    timers: nat)

  const FRESH := Store(INITIAL, 0, 0, 0, 0, 0)

  datatype CheckResult = NoUpdate | Found(update: Update) | CheckThrew(message: Option<string>)

  datatype Event =
    | StartCheck
    | CheckDone(forInstall: bool, result: CheckResult)
    | StartInstall
    | ResumeInstall
    | DownloadProgress(progress: Progress)
    | InstallDone
    | InstallThrew(message: Option<string>)
    | TimerFires

  predicate Busy(status: Status) {
    status == Checking || status == Updating
  }

  function BeginChecking(f: Fields): Fields {
    f.(status := Checking, error := None, progress := EMPTY_PROGRESS)
  }

  function BeginUpdating(f: Fields): Fields {
    f.(status := Updating, error := None, progress := EMPTY_PROGRESS)
  }

  function CheckFields(f: Fields, r: CheckResult): Fields {
    match r
    case NoUpdate => Fields(UpToDate, None, None, None, None, EMPTY_PROGRESS, None)
    case Found(u) => Fields(Available, Some(u.version), u.date, u.body, None, EMPTY_PROGRESS, Some(u))
    case CheckThrew(message) => Fields(Error, None, None, None, message, EMPTY_PROGRESS, None)
  }

  predicate Enabled(s: Store, e: Event) {
    match e
    case StartCheck => true
    case CheckDone(forInstall, _) => if forInstall then s.installChecks > 0 else s.checks > 0
    case StartInstall => true
    case ResumeInstall => s.resuming > 0
    case DownloadProgress(_) => s.installs > 0
    case InstallDone => s.installs > 0
    case InstallThrew(_) => s.installs > 0
    case TimerFires => s.timers > 0
  }

  /** `installUpdate` with no pending update calls `checkForUpdates`; a busy
      store answers at once from `pendingUpdate`, which is none here. */
  function Step(s: Store, e: Event): Store
    requires Enabled(s, e)
  {
    match e
    case StartCheck => if Busy(s.f.status) then s else s.(f := BeginChecking(s.f), checks := s.checks + 1)
    case CheckDone(forInstall, r) =>
      var t := s.(f := CheckFields(s.f, r));
      if !forInstall then t.(checks := s.checks - 1)
      else if r.Found? then t.(installChecks := s.installChecks - 1, resuming := s.resuming + 1)
      else t.(installChecks := s.installChecks - 1)
    case StartInstall =>
      if s.f.pendingUpdate.Some? then s.(f := BeginUpdating(s.f), installs := s.installs + 1)
      else if Busy(s.f.status) then s
      else s.(f := BeginChecking(s.f), installChecks := s.installChecks + 1)
    case ResumeInstall =>
      if s.f.pendingUpdate.None? then s.(resuming := s.resuming - 1)
      else s.(f := BeginUpdating(s.f), resuming := s.resuming - 1, installs := s.installs + 1)
    case DownloadProgress(progress) => s.(f := s.f.(progress := progress))
    case InstallDone =>
      s.(f := s.f.(status := Restarting, error := None, pendingUpdate := None),
         installs := s.installs - 1, timers := s.timers + 1)
    case InstallThrew(message) =>
      s.(f := s.f.(status := Error, error := message), installs := s.installs - 1)
    case TimerFires =>
      s.(f := if s.f.status == Restarting then s.f.(status := AwaitingRestart) else s.f, timers := s.timers - 1)
  }

  ghost predicate IsRun(events: seq<Event>)
    decreases |events|, 0
  {
    events == []
    || (IsRun(events[..|events| - 1]) && Enabled(After(events[..|events| - 1]), events[|events| - 1]))
  }

  ghost function After(events: seq<Event>): Store
    requires IsRun(events)
    decreases |events|, 1
  {
    if events == [] then FRESH else Step(After(events[..|events| - 1]), events[|events| - 1])
  }

  predicate Inv(s: Store) {
    var f := s.f;
    && (f.status == Available || f.status == Updating ==> f.pendingUpdate.Some?)
    && (f.status == Idle || f.status == UpToDate || f.status == Restarting || f.status == AwaitingRestart
        ==> f.pendingUpdate.None?)
    && (f.pendingUpdate.Some? ==>
          f.availableVersion == Some(f.pendingUpdate.value.version)
          && f.releaseDate == f.pendingUpdate.value.date && f.releaseNotes == f.pendingUpdate.value.body)
    && (f.status == Checking ==> s.checks + s.installChecks > 0)
    && (f.status == Updating ==> s.installs > 0)
    && (f.status != Error ==> f.error.None?)
    && (f.status == Restarting ==> s.timers > 0)
  }

  lemma StepKeepsInv(s: Store, e: Event)
    requires Inv(s) && Enabled(s, e)
    ensures Inv(Step(s, e))
  {
  }

  /** Under every interleaving: available and updating have an update to
      install, the settled statuses have none, the shown version and notes are
      those of the pending update, and the store is never stuck: checking, updating
      and restarting each have something in flight that ends them. */
  lemma {:induction false} EveryInterleaving(events: seq<Event>)
    requires IsRun(events)
    ensures Inv(After(events))
    ensures var s, status := After(events), After(events).f.status;
            && (status == Available || status == Updating ==> s.f.pendingUpdate.Some?)
            && (status == Idle || status == UpToDate || status == Restarting || status == AwaitingRestart
                ==> s.f.pendingUpdate.None?)
            && (status == Checking ==> s.checks + s.installChecks > 0)
            && (status == Updating ==> s.installs > 0)
            && (status == Restarting ==> s.timers > 0)
  {
    if events != [] {
      EveryInterleaving(events[..|events| - 1]);
      StepKeepsInv(After(events[..|events| - 1]), events[|events| - 1]);
    }
  }

  /** At position `k` a timer moved the status from restarting to awaiting restart. */
  ghost predicate EntersAwaitingAt(events: seq<Event>, k: nat) {
    && k < |events| && IsRun(events[..k]) && events[k] == TimerFires
    && After(events[..k]).f.status == Restarting
  }

  /** `awaiting-restart` is entered only by a timer, and only from `restarting`. */
  lemma {:induction false} AwaitingFollowsRestarting(events: seq<Event>) returns (k: nat)
    requires IsRun(events) && After(events).f.status == AwaitingRestart
    ensures EntersAwaitingAt(events, k)
  {
    var front, n := events[..|events| - 1], |events| - 1;
    var s := After(front);
    if s.f.status == AwaitingRestart {
      k := AwaitingFollowsRestarting(front);
      assert events[..k] == front[..k];
    } else {
      assert Step(s, events[n]).f.status == AwaitingRestart;
      k := n;
    }
  }

  // ---- after a successful install ----

  /** Events that leave a finished install and its prompt alone. */
  predicate Harmless(e: Event) {
    e.DownloadProgress? || e.ResumeInstall?
  }

  /** An install finished at position `k` and nothing disturbed it since; `fired`
      tells whether a restart timer went off meanwhile. */
  ghost predicate InstalledAt(events: seq<Event>, k: nat, fired: bool) {
    && k < |events| && events[k] == InstallDone
    && (forall j | k < j < |events| :: Harmless(events[j]) || events[j] == TimerFires)
    && (fired <==> exists j :: k < j < |events| && events[j] == TimerFires)
  }

  ghost predicate Installed(events: seq<Event>, fired: bool) {
    exists k: nat :: InstalledAt(events, k, fired)
  }

  lemma InstalledEarlier(front: seq<Event>, e: Event, k: nat, fired: bool)
    requires k < |front|
    ensures InstalledAt(front + [e], k, fired)
       <==> (Harmless(e) && InstalledAt(front, k, fired))
            || (e.TimerFires? && fired && (InstalledAt(front, k, false) || InstalledAt(front, k, true)))
  {
    var events := front + [e];
    assert events[|front|] == e && forall j | 0 <= j < |front| :: events[j] == front[j];
    if j :| k < j < |front| && front[j] == TimerFires {
      assert events[j] == TimerFires;
    }
    if j :| k < j < |events| && events[j] == TimerFires {
      assert j < |front| ==> front[j] == TimerFires;
    }
  }

  lemma InstalledStep(front: seq<Event>, e: Event, fired: bool)
    ensures Installed(front + [e], fired)
       <==> match e
            case InstallDone => !fired
            case TimerFires => fired && (Installed(front, false) || Installed(front, true))
            case _ => Harmless(e) && Installed(front, fired)
  {
    var events, n := front + [e], |front|;
    forall k: nat, b: bool | k < n
      ensures InstalledAt(events, k, b)
         <==> (Harmless(e) && InstalledAt(front, k, b))
              || (e.TimerFires? && b && (InstalledAt(front, k, false) || InstalledAt(front, k, true)))
    {
      InstalledEarlier(front, e, k, b);
    }
    if e.InstallDone? {
      assert InstalledAt(events, n, false);
    }
    if k: nat :| InstalledAt(front, k, fired) {
      assert InstalledAt(events, k, fired) <==> Harmless(e) || (e.TimerFires? && fired);
    }
    if k: nat :| InstalledAt(front, k, false) {
      assert InstalledAt(events, k, true) <==> e.TimerFires?;
    }
  }

  /** Which runs keep the restart prompt: in every interleaving the store waits
      for the restart exactly when some install was followed only by progress
      reports, resuming installs and timers. It shows `restarting` while no timer
      has gone off since and the prompt from then on; every other event loses it. */
  lemma {:induction false} RestartPromptExact(events: seq<Event>)
    requires IsRun(events)
    ensures After(events).f.status == Restarting <==> Installed(events, false)
    ensures After(events).f.status == AwaitingRestart <==> Installed(events, true)
  {
    if events != [] {
      var front, e := events[..|events| - 1], events[|events| - 1];
      RestartPromptExact(front);
      EveryInterleaving(front);
      assert events == front + [e];
      InstalledStep(front, e, false);
      InstalledStep(front, e, true);
    }
  }

  /** In such a run the timer is still armed until the prompt is there, and the
      next timer brings it up. */
  lemma PromptComes(events: seq<Event>)
    requires IsRun(events) && Installed(events, false)
    ensures IsRun(events + [TimerFires]) && After(events + [TimerFires]).f.status == AwaitingRestart
  {
    RestartPromptExact(events);
    EveryInterleaving(events);
    assert (events + [TimerFires])[..|events|] == events;
  }

  /** The store of the witness runs below: version 2 found, in one status or another. */
  function WithUpdate(status: Status, checks: nat, installs: nat): Store {
    var u := Update("2", None, None);
    Store(Fields(status, Some("2"), None, None, None, EMPTY_PROGRESS, Some(u)), checks, 0, 0, installs, 0)
  }

  /** A check and a download can be in flight together: found, checked again, installing. */
  lemma CheckingWhileInstalling() returns (events: seq<Event>)
    ensures IsRun(events) && After(events) == WithUpdate(Updating, 1, 1)
  {
    assert After([]) == FRESH;
    events := Extend([], StartCheck);
    assert After(events) == Store(INITIAL.(status := Checking), 1, 0, 0, 0, 0);
    events := Extend(events, CheckDone(false, Found(Update("2", None, None))));
    assert After(events) == WithUpdate(Available, 0, 0);
    events := Extend(events, StartCheck);
    assert After(events) == WithUpdate(Checking, 1, 0);
    events := Extend(events, StartInstall);
  }

  /** Then the check, still suspended when the install finishes, loses the prompt:
      the update is on disk, nothing is in flight, no timer is left, and the store
      says up to date. */
  lemma RestartPromptLost() returns (installed: seq<Event>, events: seq<Event>)
    ensures IsRun(installed) && After(installed).f.status == Restarting
    ensures events == installed + [CheckDone(false, NoUpdate), TimerFires] && IsRun(events)
    ensures After(events) == Store(INITIAL.(status := UpToDate), 0, 0, 0, 0, 0)
  {
    var before := CheckingWhileInstalling();
    installed := Extend(before, InstallDone);
    var s := WithUpdate(Restarting, 1, 0).(timers := 1);
    assert After(installed) == s.(f := s.f.(pendingUpdate := None));
    var checked := Extend(installed, CheckDone(false, NoUpdate));
    assert After(checked) == Store(INITIAL.(status := UpToDate), 0, 0, 0, 0, 1);
    events := Extend(checked, TimerFires);
    Flatten(installed, CheckDone(false, NoUpdate), TimerFires);
  }

  lemma Flatten(a: seq<Event>, b: Event, c: Event)
    ensures a + [b] + [c] == a + [b, c]
  {
  }

  lemma Extend(front: seq<Event>, e: Event) returns (events: seq<Event>)
    requires IsRun(front) && Enabled(After(front), e)
    ensures events == front + [e] && IsRun(events) && After(events) == Step(After(front), e)
  {
    events := front + [e];
    assert events[..|front|] == front;
  }

  // ---- the store object ----

  class UpdaterStore {
    var f: Fields
    ghost var checks: nat
    ghost var installChecks: nat
    ghost var resuming: nat
    ghost var installs: nat
    ghost var timers: nat

    ghost function State(): Store
      reads this
    {
      Store(f, checks, installChecks, resuming, installs, timers)
    }

    constructor ()
      ensures State() == FRESH
    {
      f := INITIAL;
      checks, installChecks, resuming, installs, timers := 0, 0, 0, 0, 0;
    }

    /** `checkForUpdates` up to its await. `suspended` tells whether it awaits;
        if not, `hasUpdate` is its answer. */
    method BeginCheck(ghost forInstall: bool) returns (suspended: bool, hasUpdate: bool)
      modifies this
      ensures suspended == !Busy(old(f).status)
      ensures !suspended ==> hasUpdate == old(f).pendingUpdate.Some? && State() == old(State())
      ensures suspended ==>
                State() == (if forInstall then old(State()).(f := BeginChecking(old(f)), installChecks := old(installChecks) + 1)
                            else old(State()).(f := BeginChecking(old(f)), checks := old(checks) + 1))
    {
      if f.status == Checking || f.status == Updating {
        return false, f.pendingUpdate.Some?;
      }
      f := f.(status := Checking, error := None, progress := EMPTY_PROGRESS);
      if forInstall {
        installChecks := installChecks + 1;
      } else {
        checks := checks + 1;
      }
      return true, false;
    }

    method CheckForUpdates()
      modifies this
      ensures State() == Step(old(State()), StartCheck)
    {
      var _, _ := BeginCheck(false);
    }

    method FinishCheck(ghost forInstall: bool, r: CheckResult) returns (hasUpdate: bool)
      requires Enabled(State(), CheckDone(forInstall, r))
      modifies this
      ensures State() == Step(old(State()), CheckDone(forInstall, r)) && hasUpdate == r.Found?
    {
      match r {
        case NoUpdate =>
          f := f.(status := UpToDate, availableVersion := None, releaseDate := None, releaseNotes := None,
                  pendingUpdate := None, error := None, progress := EMPTY_PROGRESS);
        case Found(update) =>
          f := f.(status := Available, availableVersion := Some(update.version), releaseDate := update.date,
                  releaseNotes := update.body, pendingUpdate := Some(update), error := None,
                  progress := EMPTY_PROGRESS);
        case CheckThrew(message) =>
          f := f.(status := Error, availableVersion := None, releaseDate := None, releaseNotes := None,
                  pendingUpdate := None, error := message, progress := EMPTY_PROGRESS);
      }
      hasUpdate := r.Found?;
      if forInstall {
        installChecks := installChecks - 1;
        if hasUpdate {
          resuming := resuming + 1;
        }
      } else {
        checks := checks - 1;
      }
    }

    method InstallUpdate()
      requires Inv(State())
      modifies this
      ensures State() == Step(old(State()), StartInstall)
    {
      if f.pendingUpdate.None? {
        var suspended, hasUpdate := BeginCheck(true);
        return;
      }
      f := f.(status := Updating, error := None, progress := EMPTY_PROGRESS);
      installs := installs + 1;
    }

    method ContinueInstall()
      requires Enabled(State(), ResumeInstall)
      modifies this
      ensures State() == Step(old(State()), ResumeInstall)
    {
      resuming := resuming - 1;
      if f.pendingUpdate.None? {
        return;
      }
      f := f.(status := Updating, error := None, progress := EMPTY_PROGRESS);
      installs := installs + 1;
    }

    method FinishInstall()
      requires Enabled(State(), InstallDone)
      modifies this
      ensures State() == Step(old(State()), InstallDone)
    {
      f := f.(status := Restarting, error := None, pendingUpdate := None);
      installs, timers := installs - 1, timers + 1;
    }

    method FailInstall(message: Option<string>)
      requires Enabled(State(), InstallThrew(message))
      modifies this
      ensures State() == Step(old(State()), InstallThrew(message))
    {
      f := f.(status := Error, error := message);
      installs := installs - 1;
    }

    method OnTimer()
      requires Enabled(State(), TimerFires)
      modifies this
      ensures State() == Step(old(State()), TimerFires)
    {
      if f.status == Restarting {
        f := f.(status := AwaitingRestart);
      }
      timers := timers - 1;
    }
  }

  // ---- the shown fields, read off the events ----

  /** The last check that came back. */
  function LastCheck(events: seq<Event>): Option<CheckResult> {
    if events == [] then None
    else if events[|events| - 1].CheckDone? then Some(events[|events| - 1].result)
    else LastCheck(events[..|events| - 1])
  }

  /** The update to install: that of the last check, unless it was installed since. */
  function LastPending(events: seq<Event>): Option<Update> {
    if events == [] then None
    else
      match events[|events| - 1]
      case CheckDone(_, Found(u)) => Some(u)
      case CheckDone(_, _) => None
      case InstallDone => None
      case _ => LastPending(events[..|events| - 1])
  }

  /** The message of the last failure. */
  function LastFailure(events: seq<Event>): Option<string> {
    if events == [] then None
    else
      match events[|events| - 1]
      case CheckDone(_, CheckThrew(message)) => message
      case InstallThrew(message) => message
      case _ => LastFailure(events[..|events| - 1])
  }

  lemma ShownStep(s: Store, e: Event)
    requires Inv(s) && Enabled(s, e)
    ensures var f, g := s.f, Step(s, e).f;
            && (e.CheckDone? ==>
                  match e.result
                  case Found(u) =>
                    g.availableVersion == Some(u.version) && g.releaseDate == u.date && g.releaseNotes == u.body
                  case _ => g.availableVersion == None && g.releaseDate == None && g.releaseNotes == None)
            && (!e.CheckDone? ==>
                  g.availableVersion == f.availableVersion
                  && g.releaseDate == f.releaseDate && g.releaseNotes == f.releaseNotes)
            && g.pendingUpdate == (match e
                                   case CheckDone(_, Found(u)) => Some(u)
                                   case CheckDone(_, _) => None
                                   case InstallDone => None
                                   case _ => f.pendingUpdate)
            && (match e
                case CheckDone(_, CheckThrew(message)) => g.status == Error && g.error == message
                case InstallThrew(message) => g.status == Error && g.error == message
                case _ => g.status == Error ==> f.status == Error && g.error == f.error)
  {
  }

  /** In every interleaving the store shows the version, date and notes of the last
      check's update, holds that update until it is installed, and shows an error
      exactly as its last failure reported it. */
  lemma {:induction false} ShownExact(events: seq<Event>)
    requires IsRun(events)
    ensures var f, check := After(events).f, LastCheck(events);
            && (if check.Some? && check.value.Found? then
                  f.availableVersion == Some(check.value.update.version)
                  && f.releaseDate == check.value.update.date && f.releaseNotes == check.value.update.body
                else f.availableVersion == None && f.releaseDate == None && f.releaseNotes == None)
            && f.pendingUpdate == LastPending(events)
            && f.error == if f.status == Error then LastFailure(events) else None
  {
    if events != [] {
      var front := events[..|events| - 1];
      ShownExact(front);
      EveryInterleaving(front);
      EveryInterleaving(events);
      ShownStep(After(front), events[|events| - 1]);
    }
  }

  /** What the user's actions and their results lead to, in every run. */
  lemma ActionsShow(events: seq<Event>, e: Event)
    requires IsRun(events) && Enabled(After(events), e)
    ensures var s, t := After(events), Step(After(events), e);
            var busy := s.f.status == Checking || s.f.status == Updating;
            && (e == StartCheck ==> if busy then t == s else t.f.status == Checking && t.checks == s.checks + 1)
            && (e == StartInstall ==>
                  if s.f.pendingUpdate.Some? then t.f.status == Updating && t.installs == s.installs + 1
                  else if busy then t == s
                  else t.f.status == Checking && t.installChecks == s.installChecks + 1)
            && (e == ResumeInstall && s.f.pendingUpdate.Some? ==> t.f.status == Updating && t.installs == s.installs + 1)
            && (e.CheckDone? ==>
                  match e.result
                  case NoUpdate => t.f.status == UpToDate
                  case Found(_) => t.f.status == Available
                  case CheckThrew(_) => t.f.status == Error)
            && (e.CheckDone? && e.forInstall ==> t.resuming == s.resuming + (if e.result.Found? then 1 else 0))
            && (e == InstallDone ==> t.f.status == Restarting)
            && (e.InstallThrew? ==> t.f.status == Error)
  {
  }

  /** The progress shown: the last report, until an operation begins or a check ends. */
  lemma ProgressShown(events: seq<Event>, e: Event)
    requires IsRun(events) && Enabled(After(events), e)
    ensures var f, g := After(events).f, Step(After(events), e).f;
            && (e.DownloadProgress? ==> g == f.(progress := e.progress))
            && (e.CheckDone? || (g.status != f.status && (g.status == Checking || g.status == Updating)) ==>
                  g.progress == Progress(0, 0))
            && (e.InstallDone? || e.InstallThrew? || e.TimerFires? ==> g.progress == f.progress)
  {
  }

  // ---- what is in flight, read off the events ----

  datatype Flight = Flight(checks: int, installChecks: int, resuming: int, installs: int, timers: int)

  /** Everything that was started less everything that came back. */
  ghost function InFlight(events: seq<Event>): Flight
    requires IsRun(events)
  {
    if events == [] then Flight(0, 0, 0, 0, 0)
    else
      var front := events[..|events| - 1];
      var n, status := InFlight(front), After(front).f.status;
      match events[|events| - 1]
      case StartCheck =>
        if status == Checking || status == Updating then n else n.(checks := n.checks + 1)
      case CheckDone(false, _) => n.(checks := n.checks - 1)
      case CheckDone(true, Found(_)) => n.(installChecks := n.installChecks - 1, resuming := n.resuming + 1)
      case CheckDone(true, _) => n.(installChecks := n.installChecks - 1)
      case StartInstall =>
        if LastPending(front).Some? then n.(installs := n.installs + 1)
        else if status == Checking || status == Updating then n
        else n.(installChecks := n.installChecks + 1)
      case ResumeInstall =>
        n.(resuming := n.resuming - 1, installs := n.installs + (if LastPending(front).Some? then 1 else 0))
      case DownloadProgress(_) => n
      case InstallDone => n.(installs := n.installs - 1, timers := n.timers + 1)
      case InstallThrew(_) => n.(installs := n.installs - 1)
      case TimerFires => n.(timers := n.timers - 1)
  }

  lemma {:induction false} FlightExact(events: seq<Event>)
    requires IsRun(events)
    ensures var s := After(events);
            Flight(s.checks, s.installChecks, s.resuming, s.installs, s.timers) == InFlight(events)
  {
    if events != [] {
      FlightExact(events[..|events| - 1]);
      ShownExact(events[..|events| - 1]);
    }
  }

  predicate CanFollow(n: Flight, e: Event) {
    match e
    case CheckDone(false, _) => n.checks > 0
    case CheckDone(true, _) => n.installChecks > 0
    case ResumeInstall => n.resuming > 0
    case DownloadProgress(_) => n.installs > 0
    case InstallDone => n.installs > 0
    case InstallThrew(_) => n.installs > 0
    case TimerFires => n.timers > 0
    case _ => true
  }

  /** After any run the user can act at any time, and exactly what is in flight can
      come back, in any order. */
  lemma WhatCanHappen(events: seq<Event>, e: Event)
    requires IsRun(events)
    ensures IsRun(events + [e]) <==> CanFollow(InFlight(events), e)
  {
    assert (events + [e])[..|events|] == events;
    FlightExact(events);
  }
}
