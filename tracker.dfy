/**
 * The add-on's module-level state as one value, and each operation of the
 * add-on as a function from the state before to the state after. Wall-clock
 * reads (`time.time()`) are the `now` parameters; the idle preference as read
 * from the host is `pref`; the open document's path is `path`.
 */
module Tracker {
  import opened Options
  import opened Dicts
  import opened Activity
  import opened Context

  /** `SAVE_INTERVAL`: seconds between checkpoint saves. */
  const SaveInterval: real := 60.0

  /** What `_save_data` persists and `_load_data` restores. */
  datatype Counters = Counters(total: real, projects: Dict, files: Dict)

  /**
   * The globals `START_TIME`, `LAST_TICK_TS`, `TOTAL_SECONDS`, `PROJECT_SECONDS`,
   * `FILE_SECONDS`, `LAST_SAVE_TS`, `CURRENT_FILE`, `CURRENT_PROJECT`,
   * `INITIALIZED`, `WINDOW_FOCUSED`, `LAST_INPUT_TS` and `_MONITOR_STARTED`; `saved` records every
   * snapshot `_save_data` has written, oldest first.
   */
  datatype State = State(
    startTime: Option<real>,
    lastTick: real,
    total: real,
    projects: Dict,
    files: Dict,
    lastSave: real,
    currentFile: string,
    currentProject: string,
    initialized: bool,
    focused: bool,
    lastInput: real,
    monitorStarted: bool,
    saved: seq<Counters>)

  function CountersOf(s: State): Counters {
    Counters(s.total, s.projects, s.files)
  }

  /** The globals when the add-on module is imported. */
  function Initial(): State {
    State(None, 0.0, 0.0, [], [], 0.0, Unsaved, Unsaved, false, true, 0.0, false, [])
  }

  /**
   * A snapshot as the add-on keeps it: no key twice in either dict, no negative
   * counter, and the total equal to the sum over projects and to the sum over files.
   */
  ghost predicate Sound(c: Counters) {
    && UniqueKeys(c.projects) && UniqueKeys(c.files)
    && c.total >= 0.0 && NonNegative(c.projects) && NonNegative(c.files)
    && Sum(c.projects) == c.total && Sum(c.files) == c.total
  }

  /** The live counters and every snapshot saved so far are sound. */
  ghost predicate Inv(s: State) {
    Sound(CountersOf(s)) && forall i :: 0 <= i < |s.saved| ==> Sound(s.saved[i])
  }

  /**
   * `_load_data`: the stored counters, or all zero when the file is missing or
   * cannot be parsed (`stored == None`).
   */
  function Load(stored: Option<Counters>): (c: Counters)
    ensures stored.None? ==> c == Counters(0.0, [], [])
    ensures stored.Some? ==> c == stored.value
  {
    match stored
    case None => Counters(0.0, [], [])
    case Some(c) => c
  }

  /**
   * The state part of `register()`: load the counters, restart the session and
   * set every timestamp to `now`; the next timer tick initialises again.
   */
  function Register(s: State, stored: Option<Counters>, now: real): (r: State)
    ensures CountersOf(r) == Load(stored)
    ensures r.startTime == Some(now) && r.lastTick == now && r.lastSave == now && r.lastInput == now
    ensures !r.initialized && !r.monitorStarted
    ensures r.focused == s.focused && r.currentFile == s.currentFile
    ensures r.currentProject == s.currentProject && r.saved == s.saved
  {
    var c := Load(stored);
    s.(total := c.total, projects := c.projects, files := c.files,
       startTime := Some(now), lastTick := now, lastSave := now, lastInput := now,
       initialized := false, monitorStarted := false)
  }

  /** `_ensure_keys(file_key, project_key)`: only the two dicts change. */
  function EnsureKeys(s: State, fileKey: string, projectKey: string): (r: State)
    ensures r == s.(files := r.files, projects := r.projects)
  {
    s.(files := EnsureKey(s.files, fileKey), projects := EnsureKey(s.projects, projectKey))
  }

  /**
   * After `_ensure_keys` both keys are present, every key reads as before
   * (a missing one as 0.0), and neither sum changes.
   */
  lemma {:induction false} EnsureKeysFacts(s: State, fileKey: string, projectKey: string)
    ensures var r := EnsureKeys(s, fileKey, projectKey);
      && HasKey(r.files, fileKey) && HasKey(r.projects, projectKey)
      && (forall k :: Get(r.files, k, 0.0) == Get(s.files, k, 0.0))
      && (forall k :: Get(r.projects, k, 0.0) == Get(s.projects, k, 0.0))
      && Sum(r.files) == Sum(s.files) && Sum(r.projects) == Sum(s.projects)
  {
    EnsureKeyFacts(s.files, fileKey);
    EnsureKeyFacts(s.projects, projectKey);
    forall k
      ensures Get(EnsureKey(s.files, fileKey), k, 0.0) == Get(s.files, k, 0.0)
      ensures Get(EnsureKey(s.projects, projectKey), k, 0.0) == Get(s.projects, k, 0.0)
    {
      EnsureKeyGet(s.files, fileKey, k);
      EnsureKeyGet(s.projects, projectKey, k);
    }
  }

  /** `_is_idle(now)` with the timeout read from the preference. */
  predicate IdleAt(s: State, now: real, pref: Option<real>) {
    IsIdle(now, s.lastInput, IdleTimeout(pref))
  }

  /**
   * Lines 160-165 of `_tick_accumulate`: create missing entries at zero, then add
   * `dt` to the total, the current project and the current file.
   */
  function Book(s: State, dt: real): State
  {
    s.(total := s.total + dt,
       projects := AddTo(s.projects, s.currentProject, dt),
       files := AddTo(s.files, s.currentFile, dt))
  }

  /** `Book` creates the missing entries first and then adds `dt` to the present ones. */
  lemma {:induction false} BookSteps(s: State, dt: real)
    ensures var e := EnsureKeys(s, s.currentFile, s.currentProject);
      && HasKey(e.projects, s.currentProject) && HasKey(e.files, s.currentFile)
      && Book(s, dt) == e.(total := s.total + dt,
                           projects := Put(e.projects, s.currentProject, Lookup(e.projects, s.currentProject) + dt),
                           files := Put(e.files, s.currentFile, Lookup(e.files, s.currentFile) + dt))
  {
    AddToSteps(s.projects, s.currentProject, dt);
    AddToSteps(s.files, s.currentFile, dt);
  }

  /**
   * `_tick_accumulate(now)`. The first tick (`LAST_TICK_TS <= 0`) only records
   * `now`. Every later tick records `now` too, and when the window is focused,
   * the user is not idle and time has advanced, books the elapsed time to the
   * total, the current project and the current file.
   */
  function TickAccumulate(s: State, now: real, pref: Option<real>): (r: State)
    ensures r.lastTick == now
    ensures r == s.(lastTick := now, total := r.total, projects := r.projects, files := r.files)
    ensures s.lastTick <= 0.0 || !s.focused || IdleAt(s, now, pref) || now <= s.lastTick ==>
      r.total == s.total && r.projects == s.projects && r.files == s.files
    ensures s.lastTick > 0.0 && s.focused && !IdleAt(s, now, pref) && now > s.lastTick ==>
      && r.total == s.total + (now - s.lastTick)
      && r.projects == AddTo(s.projects, s.currentProject, now - s.lastTick)
      && r.files == AddTo(s.files, s.currentFile, now - s.lastTick)
  {
    if s.lastTick <= 0.0 then s.(lastTick := now)
    else
      var dt := if now - s.lastTick > 0.0 then now - s.lastTick else 0.0;
      var ticked := s.(lastTick := now);
      if !ticked.focused || IdleAt(ticked, now, pref) || dt == 0.0 then ticked
      else Book(ticked, dt)
  }

  /**
   * A later tick that finds the window focused, the user active and time
   * advanced books exactly the time since the previous tick.
   */
  lemma {:induction false} TickBooksElapsed(s: State, now: real, pref: Option<real>)
    requires s.lastTick > 0.0 && s.focused && !IdleAt(s, now, pref) && now > s.lastTick
    ensures TickAccumulate(s, now, pref) == Book(s.(lastTick := now), now - s.lastTick)
  {
  }

  /** Any other tick only records the instant. */
  lemma {:induction false} TickSkips(s: State, now: real, pref: Option<real>)
    requires s.lastTick <= 0.0 || !s.focused || IdleAt(s, now, pref) || now <= s.lastTick
    ensures TickAccumulate(s, now, pref) == s.(lastTick := now)
  {
  }

  /** `_save_data()`: persists the counters; a failed write changes nothing else. */
  function SaveData(s: State): (r: State)
    ensures r.saved == s.saved + [CountersOf(s)]
    ensures r == s.(saved := r.saved)
  {
    s.(saved := s.saved + [CountersOf(s)])
  }

  /** `_save_checkpoint_if_due(now)` */
  function SaveCheckpointIfDue(s: State, now: real): (r: State)
    ensures now - s.lastSave >= SaveInterval ==> r == SaveData(s).(lastSave := now)
    ensures now - s.lastSave < SaveInterval ==> r == s
  {
    if now - s.lastSave >= SaveInterval then SaveData(s).(lastSave := now) else s
  }

  /**
   * `TST_OT_MonitorActivity.modal`: activation sets the focus flag and counts as
   * input, deactivation clears it; pointer motion, button and wheel clicks and any
   * press or release of a non-timer event count as input.
   */
  function HandleEvent(s: State, et: string, ev: string, now: real): (r: State)
    ensures r == s.(focused := r.focused, lastInput := r.lastInput)
    ensures et == WindowActivate ==> r.focused && r.lastInput == now
    ensures et == WindowDeactivate ==> !r.focused
    ensures et != WindowActivate && et != WindowDeactivate ==> r.focused == s.focused
    ensures IsPointerMotion(et) || (IsButtonOrWheel(et) && IsClickValue(ev)) ==> r.lastInput == now
    ensures IsPressOrRelease(ev) && et != Timer ==> r.lastInput == now
    ensures et == WindowDeactivate && !IsPressOrRelease(ev) ==> r.lastInput == s.lastInput
    ensures (&& et != WindowActivate && !IsPointerMotion(et)
             && !(IsButtonOrWheel(et) && IsClickValue(ev))
             && !(IsPressOrRelease(ev) && et != Timer))
            ==> r.lastInput == s.lastInput
    ensures et == Timer ==> r == s
  {
    s.(focused := FocusAfter(et, s.focused),
       lastInput := if BumpsInput(et, ev) then now else s.lastInput)
  }

  /**
   * `_refresh_current_context()`: recompute the current file and project keys
   * from the document path and make sure both have an entry.
   */
  function RefreshContext(s: State, path: string, fns: PathFns): (r: State)
    ensures r.currentFile == FileKey(path, fns) && r.currentProject == ProjectKey(path, fns)
    ensures r == s.(currentFile := r.currentFile, currentProject := r.currentProject,
                    files := r.files, projects := r.projects)
  {
    var fileKey, projectKey := FileKey(path, fns), ProjectKey(path, fns);
    EnsureKeys(s.(currentFile := fileKey, currentProject := projectKey), fileKey, projectKey)
  }

  /**
   * After a refresh both current keys are present, every key reads as before
   * (a missing one as 0.0), and neither sum changes.
   */
  lemma {:induction false} RefreshContextFacts(s: State, path: string, fns: PathFns)
    ensures var r := RefreshContext(s, path, fns);
      && HasKey(r.files, r.currentFile) && HasKey(r.projects, r.currentProject)
      && (forall k :: Get(r.files, k, 0.0) == Get(s.files, k, 0.0))
      && (forall k :: Get(r.projects, k, 0.0) == Get(s.projects, k, 0.0))
      && Sum(r.files) == Sum(s.files) && Sum(r.projects) == Sum(s.projects)
  {
    var fileKey, projectKey := FileKey(path, fns), ProjectKey(path, fns);
    EnsureKeysFacts(s.(currentFile := fileKey, currentProject := projectKey), fileKey, projectKey);
  }

  /**
   * `_lazy_init_if_needed()`: once, refresh the context, start the session and
   * its timestamps if it was never started, and count the start as input if no
   * input was ever seen.
   */
  function LazyInitIfNeeded(s: State, now: real, path: string, fns: PathFns): (r: State)
    ensures s.initialized ==> r == s
    ensures !s.initialized ==>
      && r.initialized
      && r.currentFile == FileKey(path, fns) && r.currentProject == ProjectKey(path, fns)
      && r.files == EnsureKey(s.files, r.currentFile) && r.projects == EnsureKey(s.projects, r.currentProject)
      && (s.startTime.None? ==> r.startTime == Some(now) && r.lastTick == now && r.lastSave == now)
      && (s.startTime.Some? ==> r.startTime == s.startTime && r.lastTick == s.lastTick && r.lastSave == s.lastSave)
      && r.lastInput == (if s.lastInput <= 0.0 then now else s.lastInput)
      && r.total == s.total && r.focused == s.focused && r.saved == s.saved
      && r.monitorStarted == s.monitorStarted
  {
    if s.initialized then s
    else
      var refreshed := RefreshContext(s, path, fns);
      var started := if refreshed.startTime.None?
                     then refreshed.(startTime := Some(now), lastTick := now, lastSave := now)
                     else refreshed;
      var input := if started.lastInput <= 0.0 then started.(lastInput := now) else started;
      input.(initialized := true)
  }

  /**
   * What the host did when the add-on started its activity monitor: `invoke` ran
   * and counted the start as input at the clock reading `at`; `invoke` found no
   * window manager and cancelled; or the operator call raised.
   */
  datatype MonitorStart = Invoked(at: real) | Cancelled | Raised

  /**
   * `_ensure_monitor_running()`: once started nothing happens; otherwise the
   * monitor is started, which counts as input when `invoke` gets that far, and a
   * call that raised leaves it to be tried again.
   */
  function EnsureMonitorRunning(s: State, start: MonitorStart): (r: State)
    ensures r == s.(monitorStarted := r.monitorStarted, lastInput := r.lastInput)
    ensures s.monitorStarted ==> r == s
    ensures !s.monitorStarted ==> (r.monitorStarted <==> !start.Raised?)
    ensures !s.monitorStarted && start.Invoked? ==> r.lastInput == start.at
    ensures s.monitorStarted || !start.Invoked? ==> r.lastInput == s.lastInput
  {
    if s.monitorStarted then s
    else
      match start
      case Invoked(at) => s.(monitorStarted := true, lastInput := at)
      case Cancelled => s.(monitorStarted := true)
      case Raised => s
  }

  /**
   * `timer_tick()`: lazy initialisation (which reads the clock itself, at
   * `initNow`), the monitor start, then accrual and the checkpoint at `now`.
   * (The redraw requests are host plumbing.)
   */
  function TimerTick(s: State, initNow: real, start: MonitorStart, now: real, pref: Option<real>,
                     path: string, fns: PathFns): State {
    SaveCheckpointIfDue(TickAccumulate(EnsureMonitorRunning(LazyInitIfNeeded(s, initNow, path, fns), start), now, pref), now)
  }

  /**
   * `TST_OT_ResetTotal.execute`: zero the counters, empty both dicts, restart the
   * session and every timestamp at `now`, and save at once.
   */
  function ResetAll(s: State, now: real): (r: State)
    ensures r.total == 0.0 && r.projects == [] && r.files == []
    ensures r.startTime == Some(now) && r.lastTick == now && r.lastSave == now && r.lastInput == now
    ensures r.saved == s.saved + [Counters(0.0, [], [])]
    ensures r.focused == s.focused && r.initialized == s.initialized
    ensures r.currentFile == s.currentFile && r.currentProject == s.currentProject
    ensures r.monitorStarted == s.monitorStarted
  {
    var zeroed := s.(total := 0.0, projects := [], files := [],
                     startTime := Some(now), lastTick := now, lastSave := now, lastInput := now);
    SaveData(zeroed)
  }

  /** `on_blend_save_pre`: save before the document is written. */
  function OnSavePre(s: State): State {
    SaveData(s)
  }

  /** `on_blend_save_post`: the document may have a new path. */
  function OnSavePost(s: State, path: string, fns: PathFns): State {
    RefreshContext(s, path, fns)
  }

  /** `on_load_post`: a document was opened. (The redraw requests are host plumbing.) */
  function OnLoadPost(s: State, now: real, path: string, start: MonitorStart, fns: PathFns): State {
    EnsureMonitorRunning(RefreshContext(LazyInitIfNeeded(s, now, path, fns), path, fns), start)
  }

  /** The state part of `unregister()`: a last tick, then a last save. */
  function Unregister(s: State, now: real, pref: Option<real>): (r: State)
    ensures r.saved == s.saved + [CountersOf(TickAccumulate(s, now, pref))]
  {
    SaveData(TickAccumulate(s, now, pref))
  }

  /** `_current_session_seconds()` */
  function SessionSeconds(s: State, now: real): (r: real)
    ensures r >= 0.0
    ensures s.startTime.None? ==> r == 0.0
    ensures s.startTime.Some? && now >= s.startTime.value ==> r == now - s.startTime.value
    ensures s.startTime.Some? && now < s.startTime.value ==> r == 0.0
  {
    match s.startTime
    case None => 0.0
    case Some(start) => if now - start > 0.0 then now - start else 0.0
  }
}
