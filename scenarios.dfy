/**
 * Concrete runs of the add-on, each from a fresh import with nothing stored.
 * The path functions are fixed: paths are already canonical and both documents
 * live in the folder `/p1`.
 */
module Scenarios {
  import opened Options
  import opened Dicts
  import opened Activity
  import opened Context
  import opened Tracker
  import opened Accrual

  const DocA: string := "/p1/a.blend"
  const DocB: string := "/p1/b.blend"
  const Folder: string := "/p1"

  function Fns(): PathFns {
    PathFns(p => p, p => if p == DocA || p == DocB then Folder else "")
  }

  /**
   * One timer tick whose clock readings (lazy init, monitor start, accrual)
   * agree, with the monitor starting normally if it is not running yet.
   */
  function Tick(s: State, now: real, path: string): State {
    TimerTick(s, now, Invoked(now), now, None, path, Fns())
  }

  /** Once initialised and monitoring, a timer tick is `_tick_accumulate` plus perhaps a save. */
  lemma {:induction false} InitializedTick(s: State, now: real, path: string)
    requires s.initialized && s.monitorStarted
    ensures var r := Tick(s, now, path);
      && CountersOf(r) == CountersOf(TickAccumulate(s, now, None))
      && r.initialized && r.monitorStarted && r.lastTick == now
      && r.focused == s.focused && r.lastInput == s.lastInput
      && r.currentFile == s.currentFile && r.currentProject == s.currentProject
  {
  }

  /**
   * Registered at `t0` with nothing stored and ticked at `t1`, however much
   * later: starting the monitor counts as input, so the tick is not idle and the
   * elapsed time goes to the document's file and folder.
   */
  lemma {:induction false} FirstTimerTick(t0: real, t1: real, path: string, other: string)
    requires 0.0 < t0 < t1
    requires path == DocA || path == DocB
    requires other != path
    ensures var r := Tick(Register(Initial(), None, t0), t1, path);
      && r.initialized && r.monitorStarted && r.focused && r.lastTick == t1 && r.lastInput == t1
      && r.currentFile == path && r.currentProject == Folder
      && r.total == t1 - t0
      && Get(r.projects, Folder, 0.0) == t1 - t0
      && Get(r.files, path, 0.0) == t1 - t0 && Get(r.files, other, 0.0) == 0.0
  {
    var s1 := Register(Initial(), None, t0);
    var i0 := LazyInitIfNeeded(s1, t1, path, Fns());
    var i1 := EnsureMonitorRunning(i0, Invoked(t1));
    assert i1.currentFile == path && i1.currentProject == Folder;
    RefreshContextFacts(s1, path, Fns());
    assert Get(i1.files, path, 0.0) == 0.0 && Get(i1.projects, Folder, 0.0) == 0.0;
    assert Get(i1.files, other, 0.0) == 0.0;
    assert i1.lastTick == t0 && i1.lastInput == t1 && i1.focused && i1.total == 0.0;
    TickBooksToCurrent(i1, t1, None, Folder, path);
    TickBooksToCurrent(i1, t1, None, Folder, other);
    var r := Tick(s1, t1, path);
    assert CountersOf(r) == CountersOf(TickAccumulate(i1, t1, None));
  }

  /**
   * Register at 100, tick at 105: 5 seconds to the total, the project and the
   * file. Focus lost, tick at 110: still 5. Focus regained, tick at 112: 7.
   */
  lemma {:induction false} FocusScenario()
    ensures var s1 := Register(Initial(), None, 100.0);
      var s2 := Tick(s1, 105.0, DocA);
      var s3 := HandleEvent(s2, WindowDeactivate, "NOTHING", 106.0);
      var s4 := Tick(s3, 110.0, DocA);
      var s5 := HandleEvent(s4, WindowActivate, "NOTHING", 111.0);
      var s6 := Tick(s5, 112.0, DocA);
      && s2.total == 5.0 && Get(s2.projects, Folder, 0.0) == 5.0 && Get(s2.files, DocA, 0.0) == 5.0
      && s4.total == 5.0
      && s6.total == 7.0 && Get(s6.projects, Folder, 0.0) == 7.0 && Get(s6.files, DocA, 0.0) == 7.0
  {
    var s1 := Register(Initial(), None, 100.0);
    FirstTimerTick(100.0, 105.0, DocA, DocB);
    var s2 := Tick(s1, 105.0, DocA);
    var s3 := HandleEvent(s2, WindowDeactivate, "NOTHING", 106.0);
    InitializedTick(s3, 110.0, DocA);
    var s4 := Tick(s3, 110.0, DocA);
    var s5 := HandleEvent(s4, WindowActivate, "NOTHING", 111.0);
    InitializedTick(s5, 112.0, DocA);
    TickBooksToCurrent(s5, 112.0, None, Folder, DocA);
  }

  /**
   * A clock reading of 0 is the "never ticked" mark: registered at 0, a focused
   * and active tick at 5 only records the instant and books nothing.
   */
  lemma {:induction false} ZeroClockScenario()
    ensures var s1 := Register(Initial(), None, 0.0);
      var s2 := Tick(s1, 5.0, DocA);
      s2.total == 0.0 && s2.lastTick == 5.0
  {
    var s1 := Register(Initial(), None, 0.0);
    var i1 := LazyInitIfNeeded(s1, 5.0, DocA, Fns());
    assert i1.lastTick == 0.0 && i1.total == 0.0;
  }

  /**
   * Ticks at 103 and 106 around the opening of another document at 104: three
   * seconds to each file, both in the same project, six in total.
   */
  lemma {:induction false} DocumentSwitchScenario()
    ensures var s1 := Register(Initial(), None, 100.0);
      var s2 := Tick(s1, 103.0, DocA);
      var s3 := OnLoadPost(s2, 104.0, DocB, Invoked(104.0), Fns());
      var s4 := Tick(s3, 106.0, DocB);
      && Get(s4.files, DocA, 0.0) == 3.0 && Get(s4.files, DocB, 0.0) == 3.0
      && Get(s4.projects, Folder, 0.0) == 6.0 && s4.total == 6.0
  {
    var s1 := Register(Initial(), None, 100.0);
    FirstTimerTick(100.0, 103.0, DocA, DocB);
    var s2 := Tick(s1, 103.0, DocA);
    var s3 := OnLoadPost(s2, 104.0, DocB, Invoked(104.0), Fns());
    assert s3.currentFile == DocB && s3.currentProject == Folder;
    assert Get(s3.files, DocA, 0.0) == 3.0 && Get(s3.files, DocB, 0.0) == 0.0;
    assert Get(s3.projects, Folder, 0.0) == 3.0;
    InitializedTick(s3, 106.0, DocB);
    TickBooksToCurrent(s3, 106.0, None, Folder, DocA);
    TickBooksToCurrent(s3, 106.0, None, Folder, DocB);
  }

  /**
   * With no input since the monitor started at 101 and the default 30-second
   * timeout, the tick at 131 books nothing although the window is focused.
   */
  lemma {:induction false} IdleScenario()
    ensures var s1 := Register(Initial(), None, 100.0);
      var s2 := Tick(s1, 101.0, DocA);
      var s3 := Tick(s2, 131.0, DocA);
      s2.total == 1.0 && s3.total == 1.0
  {
    var s1 := Register(Initial(), None, 100.0);
    FirstTimerTick(100.0, 101.0, DocA, DocB);
    var s2 := Tick(s1, 101.0, DocA);
    InitializedTick(s2, 131.0, DocA);
  }

  /**
   * Registered at 100 with the first tick at 140: when the monitor starts, its
   * start counts as input and the 40 seconds are booked; when starting it raised,
   * the last input is still the registration at 100 and the tick is idle.
   */
  lemma {:induction false} MonitorStartScenario()
    ensures var s1 := Register(Initial(), None, 100.0);
      && TimerTick(s1, 140.0, Invoked(140.0), 140.0, None, DocA, Fns()).total == 40.0
      && TimerTick(s1, 140.0, Raised, 140.0, None, DocA, Fns()).total == 0.0
  {
    FirstTimerTick(100.0, 140.0, DocA, DocB);
    var s1 := Register(Initial(), None, 100.0);
    var i1 := LazyInitIfNeeded(s1, 140.0, DocA, Fns());
    assert i1.lastInput == 100.0 && i1.lastTick == 100.0 && !i1.monitorStarted;
  }
}
