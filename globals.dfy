/**
 * The add-on's module-level globals as one object whose methods update its
 * fields in place, step for step as the add-on's functions do. Each method is
 * proved to leave the object in the state the matching `Tracker` function
 * computes from the state before, so everything proved about those functions
 * holds of the object.
 */
module Globals {
  import opened Options
  import opened Dicts
  import opened Activity
  import opened Context
  import opened Ranking
  import opened Export
  import opened Tracker

  class TrackerState {
    var startTime: Option<real>
    var lastTick: real
    var total: real
    var projects: Dict
    var files: Dict
    var lastSave: real
    var currentFile: string
    var currentProject: string
    var initialized: bool
    var focused: bool
    var lastInput: real
    var monitorStarted: bool
    /** Every snapshot `_save_data` has written, oldest first. */
    ghost var saved: seq<Counters>

    ghost function View(): State
      reads this
    {
      State(startTime, lastTick, total, projects, files, lastSave, currentFile, currentProject,
            initialized, focused, lastInput, monitorStarted, saved)
    }

    /** The globals as the module import sets them. */
    constructor()
      ensures View() == Initial()
    {
      startTime := None;
      lastTick := 0.0;
      total := 0.0;
      projects := [];
      files := [];
      lastSave := 0.0;
      currentFile := Unsaved;
      currentProject := Unsaved;
      initialized := false;
      focused := true;
      lastInput := 0.0;
      monitorStarted := false;
      saved := [];
    }

    /** Replaces the three counters. */
    method SetCounters(c: Counters)
      modifies this
      ensures View() == old(View()).(total := c.total, projects := c.projects, files := c.files)
    {
      total, projects, files := c.total, c.projects, c.files;
    }

    /** Sets the session start, the last tick, the last save and the last input to `now`. */
    method Restart(now: real)
      modifies this
      ensures View() == old(View()).(startTime := Some(now), lastTick := now, lastSave := now, lastInput := now)
    {
      startTime, lastTick, lastSave, lastInput := Some(now), now, now, now;
    }

    /** Sets the session start, the last tick and the last save to `now`. */
    method StartClock(now: real)
      modifies this
      ensures View() == old(View()).(startTime := Some(now), lastTick := now, lastSave := now)
    {
      startTime, lastTick, lastSave := Some(now), now, now;
    }

    /** The state part of `register()`. */
    method Register(stored: Option<Counters>, now: real)
      modifies this
      ensures View() == Tracker.Register(old(View()), stored, now)
    {
      SetCounters(Load(stored));
      Restart(now);
      initialized, monitorStarted := false, false;
    }

    /** `_ensure_keys(file_key, project_key)` */
    method EnsureKeys(fileKey: string, projectKey: string)
      modifies this
      ensures View() == Tracker.EnsureKeys(old(View()), fileKey, projectKey)
    {
      if !HasKey(files, fileKey) {
        files := Put(files, fileKey, 0.0);
      }
      if !HasKey(projects, projectKey) {
        projects := Put(projects, projectKey, 0.0);
      }
    }

    /** `_is_idle(now)` */
    method IsIdle(now: real, pref: Option<real>) returns (idle: bool)
      ensures idle == IdleAt(View(), now, pref)
    {
      var timeout := IdleTimeout(pref);
      if timeout <= 0.0 {
        return false;
      }
      idle := now - lastInput >= timeout;
    }

    /** Lines 160-165 of `_tick_accumulate`: book `dt` to the current project and file. */
    method Book(dt: real)
      modifies this
      ensures View() == Tracker.Book(old(View()), dt)
    {
      var fileKey, projectKey := currentFile, currentProject;
      EnsureKeys(fileKey, projectKey);
      EnsureKeysFacts(old(View()), fileKey, projectKey);
      var newProjects := Put(projects, projectKey, Lookup(projects, projectKey) + dt);
      var newFiles := Put(files, fileKey, Lookup(files, fileKey) + dt);
      SetCounters(Counters(total + dt, newProjects, newFiles));
      BookSteps(old(View()), dt);
    }

    /** `_tick_accumulate(now)` */
    method TickAccumulate(now: real, pref: Option<real>)
      modifies this
      ensures View() == Tracker.TickAccumulate(old(View()), now, pref)
    {
      if lastTick <= 0.0 {
        TickSkips(View(), now, pref);
        lastTick := now;
        return;
      }
      var dt := if now - lastTick > 0.0 then now - lastTick else 0.0;
      lastTick := now;
      var idle := IsIdle(now, pref);
      if !focused || idle || dt == 0.0 {
        TickSkips(old(View()), now, pref);
        return;
      }
      TickBooksElapsed(old(View()), now, pref);
      Book(dt);
    }

    /** `_save_data()` */
    method SaveData()
      modifies this
      ensures View() == Tracker.SaveData(old(View()))
    {
      saved := saved + [Counters(total, projects, files)];
    }

    /** `_save_checkpoint_if_due(now)` */
    method SaveCheckpointIfDue(now: real)
      modifies this
      ensures View() == Tracker.SaveCheckpointIfDue(old(View()), now)
    {
      if now - lastSave >= SaveInterval {
        SaveData();
        lastSave := now;
      }
    }

    /** `TST_OT_MonitorActivity.modal(context, event)` */
    method HandleEvent(et: string, ev: string, now: real)
      modifies this
      ensures View() == Tracker.HandleEvent(old(View()), et, ev, now)
    {
      if et == WindowActivate {
        focused := true;
        lastInput := now;
      } else if et == WindowDeactivate {
        focused := false;
      }
      if IsPointerMotion(et) {
        lastInput := now;
      }
      if IsButtonOrWheel(et) && IsClickValue(ev) {
        lastInput := now;
      }
      if IsPressOrRelease(ev) && et != Timer {
        lastInput := now;
      }
    }

    /** `_refresh_current_context()` */
    method RefreshContext(path: string, fns: PathFns)
      modifies this
      ensures View() == Tracker.RefreshContext(old(View()), path, fns)
    {
      currentFile := FileKey(path, fns);
      currentProject := ProjectKey(path, fns);
      EnsureKeys(currentFile, currentProject);
    }

    /** `_lazy_init_if_needed()`, with the clock reading it takes as `now`. */
    method LazyInitIfNeeded(now: real, path: string, fns: PathFns)
      modifies this
      ensures View() == Tracker.LazyInitIfNeeded(old(View()), now, path, fns)
    {
      if initialized {
        return;
      }
      RefreshContext(path, fns);
      if startTime.None? {
        StartClock(now);
      }
      if lastInput <= 0.0 {
        lastInput := now;
      }
      initialized := true;
    }

    /** `_ensure_monitor_running()`, with what the host did as `start`. */
    method EnsureMonitorRunning(start: MonitorStart)
      modifies this
      ensures View() == Tracker.EnsureMonitorRunning(old(View()), start)
    {
      if monitorStarted {
        return;
      }
      match start
      case Invoked(at) =>
        lastInput := at;
        monitorStarted := true;
      case Cancelled =>
        monitorStarted := true;
      case Raised =>
    }

    /** `timer_tick()` */
    method TimerTick(initNow: real, start: MonitorStart, now: real, pref: Option<real>, path: string, fns: PathFns)
      modifies this
      ensures View() == Tracker.TimerTick(old(View()), initNow, start, now, pref, path, fns)
    {
      LazyInitIfNeeded(initNow, path, fns);
      EnsureMonitorRunning(start);
      TickAccumulate(now, pref);
      SaveCheckpointIfDue(now);
    }

    /** `TST_OT_ResetTotal.execute(context)` */
    method ResetAll(now: real)
      modifies this
      ensures View() == Tracker.ResetAll(old(View()), now)
    {
      SetCounters(Counters(0.0, [], []));
      Restart(now);
      SaveData();
    }

    /** `on_blend_save_pre` */
    method OnSavePre()
      modifies this
      ensures View() == Tracker.OnSavePre(old(View()))
    {
      SaveData();
    }

    /** `on_blend_save_post` */
    method OnSavePost(path: string, fns: PathFns)
      modifies this
      ensures View() == Tracker.OnSavePost(old(View()), path, fns)
    {
      RefreshContext(path, fns);
    }

    /** `on_load_post` */
    method OnLoadPost(now: real, path: string, start: MonitorStart, fns: PathFns)
      modifies this
      ensures View() == Tracker.OnLoadPost(old(View()), now, path, start, fns)
    {
      LazyInitIfNeeded(now, path, fns);
      RefreshContext(path, fns);
      EnsureMonitorRunning(start);
    }

    /** The state part of `unregister()`. */
    method Unregister(now: real, pref: Option<real>)
      modifies this
      ensures View() == Tracker.Unregister(old(View()), now, pref)
    {
      TickAccumulate(now, pref);
      SaveData();
    }

    /**
     * The rows `TST_OT_ExportCSV.execute` writes: header, summary, then the
     * projects and the files, each sorted by seconds, most first.
     */
    method ExportRows() returns (rows: seq<Row>)
      ensures rows == CsvRows(total, projects, files)
    {
      var head := [Header(), DataRow("Summary", "TOTAL", total), Blank(), SectionMarker("Projects")];
      rows := head;
      var sortedProjects := SortDesc(projects);
      assert ItemRows("Project", sortedProjects[..0]) == [];
      for i := 0 to |sortedProjects|
        invariant rows == head + ItemRows("Project", sortedProjects[..i])
      {
        var row := DataRow("Project", sortedProjects[i].0, sortedProjects[i].1);
        ItemRowsSnoc("Project", sortedProjects, i);
        AppendAssoc(head, ItemRows("Project", sortedProjects[..i]), [row]);
        rows := rows + [row];
      }
      assert sortedProjects[..|sortedProjects|] == sortedProjects;
      rows := rows + [Blank(), SectionMarker("Files")];
      ghost var middle := rows;
      var sortedFiles := SortDesc(files);
      assert ItemRows("File", sortedFiles[..0]) == [];
      for i := 0 to |sortedFiles|
        invariant rows == middle + ItemRows("File", sortedFiles[..i])
      {
        var row := DataRow("File", sortedFiles[i].0, sortedFiles[i].1);
        ItemRowsSnoc("File", sortedFiles, i);
        AppendAssoc(middle, ItemRows("File", sortedFiles[..i]), [row]);
        rows := rows + [row];
      }
      assert sortedFiles[..|sortedFiles|] == sortedFiles;
    }
  }
}
