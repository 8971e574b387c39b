/**
 * Properties of the add-on over whole sequences of events: the host calls
 * `register`, the timer, the modal handler, the save and load handlers, the
 * reset button and `unregister` in some order, each with its own clock reading.
 */
module Accrual {
  import opened Options
  import opened Dicts
  import opened Activity
  import opened Context
  import opened Tracker

  /** One entry of the add-on into its own code, with what the host supplies. */
  datatype Op =
    | Startup(stored: Option<Counters>, now: real)
    | TimerFired(initNow: real, start: MonitorStart, now: real, pref: Option<real>, path: string)
    | HostEvent(et: string, ev: string, now: real)
    | SavePre
    | SavePost(path: string)
    | LoadPost(now: real, path: string, start: MonitorStart)
    | ResetPressed(now: real)
    | Shutdown(now: real, pref: Option<real>)

  function Step(s: State, op: Op, fns: PathFns): State {
    match op
    case Startup(stored, now) => Register(s, stored, now)
    case TimerFired(initNow, start, now, pref, path) => TimerTick(s, initNow, start, now, pref, path, fns)
    case HostEvent(et, ev, now) => HandleEvent(s, et, ev, now)
    case SavePre => OnSavePre(s)
    case SavePost(path) => OnSavePost(s, path, fns)
    case LoadPost(now, path, start) => OnLoadPost(s, now, path, start, fns)
    case ResetPressed(now) => ResetAll(s, now)
    case Shutdown(now, pref) => Unregister(s, now, pref)
  }

  function Run(s: State, ops: seq<Op>, fns: PathFns): State
    decreases |ops|
  {
    if ops == [] then s else Run(Step(s, ops[0], fns), ops[1..], fns)
  }

  /** Entries that neither load nor reset the counters. */
  predicate Accumulating(op: Op) {
    !op.Startup? && !op.ResetPressed?
  }

  /** A startup that loads nothing, or a snapshot the add-on could have written. */
  ghost predicate LoadsSound(op: Op) {
    op.Startup? && op.stored.Some? ==> Sound(op.stored.value)
  }

  // ---------------------------------------------------------------- one tick

  /** A tick at an instant already recorded changes nothing. */
  lemma {:induction false} SameInstantTickIsNoop(s: State, now: real, pref: Option<real>)
    ensures TickAccumulate(TickAccumulate(s, now, pref), now, pref) == TickAccumulate(s, now, pref)
  {
    var r := TickAccumulate(s, now, pref);
    assert r.lastTick == now;
  }

  /**
   * A booking tick adds the elapsed time to the current project and the current
   * file and to no other key; every other tick leaves every key as it was.
   */
  lemma {:induction false} TickBooksToCurrent(s: State, now: real, pref: Option<real>, project: string, file: string)
    ensures var r := TickAccumulate(s, now, pref);
      var dt := if s.lastTick > 0.0 && s.focused && !IdleAt(s, now, pref) && now > s.lastTick
                then now - s.lastTick else 0.0;
      && r.total == s.total + dt
      && Get(r.projects, project, 0.0)
         == Get(s.projects, project, 0.0) + (if project == s.currentProject then dt else 0.0)
      && Get(r.files, file, 0.0)
         == Get(s.files, file, 0.0) + (if file == s.currentFile then dt else 0.0)
  {
    if s.lastTick > 0.0 && s.focused && !IdleAt(s, now, pref) && now > s.lastTick {
      AddToGet(s.projects, s.currentProject, now - s.lastTick, project);
      AddToGet(s.files, s.currentFile, now - s.lastTick, file);
    }
  }

  /**
   * A tick never lowers the total, and whatever it adds to the total it adds to
   * the sum over projects and to the sum over files.
   */
  lemma {:induction false} TickBalance(s: State, now: real, pref: Option<real>)
    ensures var r := TickAccumulate(s, now, pref);
      && r.total >= s.total
      && Sum(r.projects) - Sum(s.projects) == r.total - s.total
      && Sum(r.files) - Sum(s.files) == r.total - s.total
  {
    if s.lastTick > 0.0 && s.focused && !IdleAt(s, now, pref) && now > s.lastTick {
      AddToSum(s.projects, s.currentProject, now - s.lastTick);
      AddToSum(s.files, s.currentFile, now - s.lastTick);
    }
  }

  /** A tick keeps the counters sound. */
  lemma {:induction false} TickKeepsSound(s: State, now: real, pref: Option<real>)
    requires Sound(CountersOf(s))
    ensures Sound(CountersOf(TickAccumulate(s, now, pref)))
  {
    if s.lastTick > 0.0 && s.focused && !IdleAt(s, now, pref) && now > s.lastTick {
      var dt := now - s.lastTick;
      AddToSum(s.projects, s.currentProject, dt);
      AddToSum(s.files, s.currentFile, dt);
      AddToKeepsUniqueKeys(s.projects, s.currentProject, dt);
      AddToKeepsUniqueKeys(s.files, s.currentFile, dt);
      AddToKeepsNonNegative(s.projects, s.currentProject, dt);
      AddToKeepsNonNegative(s.files, s.currentFile, dt);
    }
  }

  /** Refreshing the context only creates zero entries, so the counters stay sound. */
  lemma {:induction false} RefreshKeepsSound(s: State, path: string, fns: PathFns)
    requires Sound(CountersOf(s))
    ensures Sound(CountersOf(RefreshContext(s, path, fns)))
  {
    RefreshContextFacts(s, path, fns);
    EnsureKeyKeeps(s.files, FileKey(path, fns));
    EnsureKeyKeeps(s.projects, ProjectKey(path, fns));
  }

  lemma {:induction false} LazyInitKeepsSound(s: State, now: real, path: string, fns: PathFns)
    requires Sound(CountersOf(s))
    ensures Sound(CountersOf(LazyInitIfNeeded(s, now, path, fns)))
  {
    if !s.initialized {
      RefreshKeepsSound(s, path, fns);
    }
  }

  /** Saving a sound state keeps every snapshot sound. */
  lemma {:induction false} SaveKeepsInv(s: State)
    requires Inv(s)
    ensures Inv(SaveData(s))
  {
    var r := SaveData(s);
    forall i | 0 <= i < |r.saved|
      ensures Sound(r.saved[i])
    {
      if i < |s.saved| {
        assert r.saved[i] == s.saved[i];
      }
    }
  }

  // ------------------------------------------------------- one entry, many

  /** Outside startup and reset, every entry keeps the three-way balance. */
  lemma {:induction false} StepBalance(s: State, op: Op, fns: PathFns)
    requires Accumulating(op)
    ensures var r := Step(s, op, fns);
      && r.total >= s.total
      && Sum(r.projects) - Sum(s.projects) == r.total - s.total
      && Sum(r.files) - Sum(s.files) == r.total - s.total
  {
    match op
    case TimerFired(initNow, start, now, pref, path) =>
      LazyInitBooksNothing(s, initNow, path, fns);
      TickBalance(EnsureMonitorRunning(LazyInitIfNeeded(s, initNow, path, fns), start), now, pref);
    case Shutdown(now, pref) =>
      TickBalance(s, now, pref);
    case HostEvent(_, _, _) =>
    case SavePre =>
    case SavePost(path) =>
      RefreshBooksNothing(s, path, fns);
    case LoadPost(now, path, _) =>
      LazyInitBooksNothing(s, now, path, fns);
      RefreshBooksNothing(LazyInitIfNeeded(s, now, path, fns), path, fns);
  }

  /** Refreshing the context leaves the total and both sums as they were. */
  lemma {:induction false} RefreshBooksNothing(s: State, path: string, fns: PathFns)
    ensures var r := RefreshContext(s, path, fns);
      r.total == s.total && Sum(r.projects) == Sum(s.projects) && Sum(r.files) == Sum(s.files)
  {
    RefreshContextFacts(s, path, fns);
  }

  /** The first-call initialisation leaves the total and both sums as they were. */
  lemma {:induction false} LazyInitBooksNothing(s: State, now: real, path: string, fns: PathFns)
    ensures var r := LazyInitIfNeeded(s, now, path, fns);
      r.total == s.total && Sum(r.projects) == Sum(s.projects) && Sum(r.files) == Sum(s.files)
  {
    if !s.initialized {
      EnsureKeyFacts(s.files, FileKey(path, fns));
      EnsureKeyFacts(s.projects, ProjectKey(path, fns));
    }
  }

  /**
   * Three-way additivity: over any run without startup or reset, the total
   * grows, and the sums over projects and over files grow by exactly as much.
   */
  lemma {:induction false} RunBalance(s: State, ops: seq<Op>, fns: PathFns)
    requires forall i :: 0 <= i < |ops| ==> Accumulating(ops[i])
    ensures var r := Run(s, ops, fns);
      && r.total >= s.total
      && Sum(r.projects) - Sum(s.projects) == r.total - s.total
      && Sum(r.files) - Sum(s.files) == r.total - s.total
    decreases |ops|
  {
    if ops != [] {
      StepBalance(s, ops[0], fns);
      RunBalance(Step(s, ops[0], fns), ops[1..], fns);
    }
  }

  /** Every entry keeps the live counters and every saved snapshot sound. */
  lemma {:induction false} StepKeepsInv(s: State, op: Op, fns: PathFns)
    requires Inv(s) && LoadsSound(op)
    ensures Inv(Step(s, op, fns))
  {
    match op
    case Startup(stored, now) =>
    case TimerFired(initNow, start, now, pref, path) =>
      TimerTickKeepsInv(s, initNow, start, now, pref, path, fns);
    case HostEvent(et, ev, now) =>
    case SavePre =>
      SaveKeepsInv(s);
    case SavePost(path) =>
      RefreshKeepsSound(s, path, fns);
    case LoadPost(now, path, _) =>
      var a := LazyInitIfNeeded(s, now, path, fns);
      LazyInitKeepsSound(s, now, path, fns);
      RefreshKeepsSound(a, path, fns);
    case ResetPressed(now) =>
      SaveKeepsInv(s.(total := 0.0, projects := [], files := [],
                      startTime := Some(now), lastTick := now, lastSave := now, lastInput := now));
    case Shutdown(now, pref) =>
      TickKeepsSound(s, now, pref);
      SaveKeepsInv(TickAccumulate(s, now, pref));
  }

  /** A timer tick keeps the counters and every snapshot sound. */
  lemma {:induction false} TimerTickKeepsInv(s: State, initNow: real, start: MonitorStart, now: real,
                                             pref: Option<real>, path: string, fns: PathFns)
    requires Inv(s)
    ensures Inv(TimerTick(s, initNow, start, now, pref, path, fns))
  {
    var a := EnsureMonitorRunning(LazyInitIfNeeded(s, initNow, path, fns), start);
    LazyInitKeepsSound(s, initNow, path, fns);
    var b := TickAccumulate(a, now, pref);
    TickKeepsSound(a, now, pref);
    if now - b.lastSave >= SaveInterval {
      SaveKeepsInv(b);
    }
  }

  /**
   * Starting from a sound state, and loading only snapshots the add-on could
   * have written, the counters stay sound and so does everything saved.
   */
  lemma {:induction false} RunKeepsInv(s: State, ops: seq<Op>, fns: PathFns)
    requires Inv(s)
    requires forall i :: 0 <= i < |ops| ==> LoadsSound(ops[i])
    ensures Inv(Run(s, ops, fns))
    decreases |ops|
  {
    if ops != [] {
      StepKeepsInv(s, ops[0], fns);
      RunKeepsInv(Step(s, ops[0], fns), ops[1..], fns);
    }
  }

  /** The state at import is sound. */
  lemma {:induction false} InitialInv()
    ensures Inv(Initial())
  {
  }

  // ----------------------------------------------------------------- gating

  /** Once initialised and while unfocused, timer ticks book nothing. */
  lemma {:induction false} UnfocusedTicksBookNothing(s: State, ops: seq<Op>, fns: PathFns)
    requires s.initialized && !s.focused
    requires forall i :: 0 <= i < |ops| ==> ops[i].TimerFired?
    ensures CountersOf(Run(s, ops, fns)) == CountersOf(s)
    decreases |ops|
  {
    if ops != [] {
      var next := Step(s, ops[0], fns);
      assert CountersOf(next) == CountersOf(s) && next.initialized && !next.focused;
      UnfocusedTicksBookNothing(next, ops[1..], fns);
    }
  }

  /**
   * Once initialised and with the monitor running, timer ticks that each find
   * the user idle (measured from the last input before them, as no input event
   * arrives in between) book nothing.
   */
  lemma {:induction false} IdleTicksBookNothing(s: State, ops: seq<Op>, fns: PathFns)
    requires s.initialized && s.monitorStarted
    requires forall i :: 0 <= i < |ops| ==>
      ops[i].TimerFired? && IsIdle(ops[i].now, s.lastInput, IdleTimeout(ops[i].pref))
    ensures CountersOf(Run(s, ops, fns)) == CountersOf(s)
    decreases |ops|
  {
    if ops != [] {
      var next := Step(s, ops[0], fns);
      assert CountersOf(next) == CountersOf(s) && next.initialized && next.monitorStarted;
      assert next.lastInput == s.lastInput;
      IdleTicksBookNothing(next, ops[1..], fns);
    }
  }
}
