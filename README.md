# Time Spent Tracker, modelled in Dafny

A model of the Blender add-on `time_spent.py`. The add-on keeps three counters:
the total seconds of use, seconds per project (the folder of the open `.blend`
document) and seconds per file. A one-second timer books the time elapsed since
its previous tick. It books nothing while the window is unfocused or the
user is idle, and nothing on a tick that finds no previous tick recorded. The
counters are saved every 60 seconds and around document saves. The model covers:

- the status and preference panel's formatting (`_format_hms`);
- the ranking of the top projects (`_top_n`);
- the focus and input tracking of the modal operator;
- the reset button;
- the rows of the CSV export.

The model has these modules:

- `Dicts`: Python dicts from keys to float seconds, as insertion-ordered item sequences.
- `Format`: `_format_hms`, `int(...)`, and a parser that reads a formatted duration back.
- `Ranking`: the stable descending sort used by `_top_n` and the export, and `_top_n`.
- `Activity`: the idle timeout, the idle test, and the classification of host events.
- `Context`: the file and project keys derived from the document path.
- `Tracker`: the module globals as one value `State`, and every operation as a function from the state before to the state after.
- `Accrual`: properties over arbitrary sequences of entries into the add-on: timer, events, save and load handlers, reset, register and unregister.
- `Scenarios`: concrete runs.
- `Export`: the rows the CSV export writes.
- `Globals`: the globals as a class `TrackerState` whose methods update its fields in place. Each method is proved to produce exactly the state the matching `Tracker` function computes, so every property proved about the functions holds for the object.

The model takes these as parameters:

- Every clock reading (`time.time()`) is a `now` parameter.
- The idle preference as read from the host is an `Option<real>`. `None` means the add-on's preferences were missing or reading them raised.
- The document path is a `string`. `""` means the document was never saved or its path could not be read.
- `os.path.normpath(os.path.abspath(.))` and `os.path.dirname` are uninterpreted functions in `Context.PathFns`.
- Every write of the JSON file is recorded as a snapshot in the ghost log `saved`.

A last-tick timestamp of `0.0` or less doubles as "never ticked" (line 153).
So with a clock that reads 0 at registration, the ticks at 0 and then at 5 book
nothing: the second tick only records its instant. `Scenarios.ZeroClockScenario`
proves this behaviour.

Starting the activity monitor counts as input: `invoke` sets the last input
time (line 236), and `timer_tick` starts the monitor (line 265) before it books
anything. So when the monitor starts normally, the first tick after
registration measures idleness from that start, moments before the tick, and
not from the registration. `Scenarios.MonitorStartScenario` shows both outcomes.

## Model

| member | source | states |
|---|---|---|
| Dicts.PutFacts | time_spent.py:92-94 | `d[k] = v` maps `k` to `v` and leaves every other key's value alone; an existing key keeps its place, a new key is appended last |
| Dicts.EnsureKeyFacts | time_spent.py:90-94 | after `_ensure_keys` on one dict the key is present; a missing key now maps to 0.0 and comes last; no other value and not the sum of the values changes |
| Dicts.EnsureKeyGet | time_spent.py:90-94 | `d.get(j, 0.0)` reads the same for every key before and after a missing entry is created at zero |
| Dicts.AddToFacts | time_spent.py:162-165 | `_ensure_keys` then `d[k] += dt`: only `k` changes, to its old value (0.0 when missing) plus `dt`; a new key is appended last |
| Dicts.AddToGet | time_spent.py:162-165 | after adding `dt` at `k`, every key other than `k` reads as before and `k` reads `dt` more |
| Dicts.AddToSum | time_spent.py:162-165 | adding `dt` to one entry adds exactly `dt` to the sum of the values |
| Dicts.EnsureKeyKeeps | time_spent.py:90-94 | creating an entry at zero keeps the keys distinct and every value non-negative |
| Dicts.AddToKeepsUniqueKeys | time_spent.py:162-165 | adding to an entry never duplicates a key |
| Dicts.AddToKeepsNonNegative | time_spent.py:162-165 | adding a non-negative amount keeps every value non-negative |
| Dicts.PutSum | time_spent.py:92-94 | writing `v` at `k` changes the sum by `v` minus the old value of `k` |
| Dicts.PutUniqueKeys | time_spent.py:92-94 | writing a key never creates a duplicate key |
| Format.WholeSeconds | time_spent.py:60 | `int(max(0, seconds))` is 0 for non-positive input and otherwise the largest whole number not above the input |
| Format.TruncateToInt | time_spent.py:346 | `int(v)` truncates toward zero, for negative values as well |
| Format.Decimal | time_spent.py:64 | the numeral of `n` has only digits, reads back as `n`, has no leading zero, and has one digit iff `n < 10` and at most two iff `n < 100` |
| Format.Pad2 | time_spent.py:64 | `{n:02d}` has only digits, reads back as `n`, has at least two digits, has exactly two iff `n < 100`, and is the plain numeral from 10 on |
| Format.Split | time_spent.py:61-63 | minutes and seconds are below 60, and hours, minutes and seconds add back up to the whole seconds |
| Format.SplitUnique | time_spent.py:61-63 | a split with minutes and seconds below 60 is determined by its total |
| Format.FormatHms | time_spent.py:59-64 | the text has at least 8 characters and is `00:00:00` for any input below one second |
| Format.FormatHmsRoundTrip | time_spent.py:59-64 | reading back what `_format_hms` printed gives the clamped, truncated seconds split into hours, minutes and seconds |
| Format.ParseFields | time_spent.py:64 | three digit fields joined by colons, with two-digit minutes and seconds below 60, read back as their values |
| Ranking.InsertDescFacts | time_spent.py:173 | inserting into a non-increasing list keeps it non-increasing and adds exactly that item |
| Ranking.InsertDescStable | time_spent.py:173 | an inserted item goes ahead of the list's items with the same seconds; as the sort inserts later items first, ties keep their insertion order |
| Ranking.SortDescFacts | time_spent.py:173 | `sorted(..., key=seconds, reverse=True)` is non-increasing, is a permutation, and keeps items with equal seconds in insertion order |
| Ranking.StableOrderUnique | time_spent.py:173 | two non-increasing lists with the same items of each seconds value, in the same order, are equal |
| Ranking.SortDescIsTheStableSort | time_spent.py:173 | any non-increasing reordering that keeps ties in insertion order is `SortDesc`, so the model is Python's stable sort |
| Ranking.Prefix | time_spent.py:173 | the slice `[:n]` is a prefix of the list, with Python's length for every `n`, negative `n` included |
| Ranking.TopNSize | time_spent.py:172-173 | `_top_n(m, n)` has `n` items, or all of `m` when `m` is shorter, most seconds first |
| Ranking.TopNBest | time_spent.py:172-173 | `_top_n(m, n)` holds items of `m`, and no item left out has more seconds than an item returned |
| Ranking.TopNStable | time_spent.py:172-173 | among items with equal seconds, `_top_n` returns the earliest inserted ones, in insertion order |
| Activity.IdleTimeout | time_spent.py:135-143 | the timeout is never negative; it is the default 30 when the preference cannot be read, the preference itself otherwise, and 0 when the preference is negative |
| Activity.FocusAfter | time_spent.py:201-205 | activation sets the focus flag, deactivation clears it, and any other event leaves it alone |
| Context.NormalizePath | time_spent.py:74-75 | `""` stays `""`; any other path becomes its canonical absolute path |
| Context.FileKey | time_spent.py:77-81 | no document gives `(Unsaved)`; otherwise the canonical path of the document |
| Context.ProjectKey | time_spent.py:83-88 | the key is never empty; no document or no folder gives `(Unsaved)`; otherwise the canonical path of the folder |
| Context.SameLocationSameKeys | time_spent.py:74-88 | two paths with the same canonical form are booked under the same file key, and two whose folders normalise alike under the same project key |
| Tracker.Load | time_spent.py:96-113 | a missing or unreadable file loads as all zero; otherwise the stored counters |
| Tracker.Register | time_spent.py:393-408 | the counters are loaded; session start, last tick, last save and last input are `now`; initialisation runs again and the monitor counts as not started; nothing else changes |
| Tracker.EnsureKeys | time_spent.py:90-94 | `_ensure_keys` changes only the two dicts |
| Tracker.EnsureKeysFacts | time_spent.py:90-94 | after `_ensure_keys` both keys are present, every key reads as before, and neither sum changes |
| Tracker.TickAccumulate | time_spent.py:151-165 | every tick records `now`; the first tick, an unfocused or idle tick and a tick without elapsed time change no counter; any other tick adds the elapsed time to the total, the current project and the current file |
| Tracker.TickBooksElapsed | time_spent.py:156-165 | a focused, active tick after time has passed books exactly the time since the previous tick |
| Tracker.TickSkips | time_spent.py:153-159 | any other tick only records its instant |
| Tracker.SaveData | time_spent.py:115-127 | a save writes the current counters and changes nothing else |
| Tracker.SaveCheckpointIfDue | time_spent.py:129-133 | it saves and moves the last-save mark to `now` iff at least 60 seconds passed since the last save; otherwise nothing changes |
| Tracker.HandleEvent | time_spent.py:197-216 | only focus and last input change; activation focuses and counts as input; deactivation unfocuses; pointer motion, button or wheel clicks and any press or release of a non-timer event count as input; every other event leaves the last input alone; timer events change nothing |
| Tracker.RefreshContext | time_spent.py:361-365 | the current keys are recomputed from the path; only they and the two dicts change |
| Tracker.RefreshContextFacts | time_spent.py:361-365 | after a refresh both current keys are present, every key reads as before, and neither sum changes |
| Tracker.LazyInitIfNeeded | time_spent.py:249-261 | once initialised nothing changes; otherwise the context is refreshed, the session and its timestamps start if never started, the start counts as input if none was seen, and the counters stay |
| Tracker.EnsureMonitorRunning | time_spent.py:227-247 | once started nothing changes; otherwise the monitor counts as started unless the call raised, and a start that reached `invoke`'s end sets the last input to its clock reading; nothing else changes |
| Tracker.ResetAll | time_spent.py:319-331 | the counters become zero and both dicts empty; session start and every timestamp become `now`; the zeroed counters are saved at once; nothing else changes |
| Tracker.Unregister | time_spent.py:414-420 | a last tick, then a save of the counters after that tick |
| Tracker.SessionSeconds | time_spent.py:167-170 | never negative; 0 before the session starts and when the clock reads earlier than the start; otherwise the time since the start |
| Accrual.SameInstantTickIsNoop | time_spent.py:151-157 | a second tick at the instant the first recorded changes nothing |
| Accrual.TickBooksToCurrent | time_spent.py:151-165 | a booking tick adds the same elapsed time to the total, the current project and the current file and to no other key; every other tick leaves every key alone |
| Accrual.TickBalance | time_spent.py:151-165 | a tick never lowers the total and adds to each sum exactly what it adds to the total |
| Accrual.TickKeepsSound | time_spent.py:151-165 | a tick keeps keys distinct, values non-negative and both sums equal to the total |
| Accrual.RefreshKeepsSound | time_spent.py:361-365 | a refresh keeps the counters sound |
| Accrual.LazyInitKeepsSound | time_spent.py:249-261 | lazy initialisation keeps the counters sound |
| Accrual.SaveKeepsInv | time_spent.py:115-127 | saving sound counters keeps every snapshot sound |
| Accrual.RefreshBooksNothing | time_spent.py:361-365 | a refresh leaves the total and both sums alone |
| Accrual.LazyInitBooksNothing | time_spent.py:249-261 | lazy initialisation leaves the total and both sums alone |
| Accrual.StepBalance | time_spent.py:263-274 | every entry other than startup and reset keeps the three-way balance between total, projects and files |
| Accrual.RunBalance | time_spent.py:151-165 | over any run without startup or reset the total never drops, and both sums grow by exactly what the total grows |
| Accrual.TimerTickKeepsInv | time_spent.py:263-274 | a timer tick keeps the counters and every snapshot sound |
| Accrual.StepKeepsInv | time_spent.py:263-274 | every entry into the add-on keeps the counters and every saved snapshot sound, given a sound stored file |
| Accrual.RunKeepsInv | time_spent.py:393-420 | from a sound state, loading only snapshots the add-on could have written, the counters and every snapshot stay sound over any run |
| Accrual.InitialInv | time_spent.py:18-31 | the globals at import are sound |
| Accrual.UnfocusedTicksBookNothing | time_spent.py:158-159 | ticks while the window is unfocused book nothing |
| Accrual.IdleTicksBookNothing | time_spent.py:145-159 | once initialised and with the monitor running, ticks while the user is idle book nothing |
| Scenarios.InitializedTick | time_spent.py:263-274 | once initialised and monitoring, a timer tick is `_tick_accumulate` plus perhaps a save |
| Scenarios.FirstTimerTick | time_spent.py:227-274 | registered and then ticked any time later, with the monitor starting at the tick, the elapsed time goes to the document's file and folder only |
| Scenarios.FocusScenario | time_spent.py:197-205 | time is booked while focused, not between losing and regaining focus, and again afterwards |
| Scenarios.ZeroClockScenario | time_spent.py:153-155 | a first tick at clock 0 leaves the mark at 0, so the next tick books nothing |
| Scenarios.DocumentSwitchScenario | time_spent.py:375-378 | after opening another document in the same folder, time goes to the new file and the shared project |
| Scenarios.IdleScenario | time_spent.py:145-149 | with no input for 30 seconds since the monitor started, a focused tick books nothing |
| Scenarios.MonitorStartScenario | time_spent.py:227-274 | registered at 100 and first ticked at 140: 40 seconds are booked when the monitor starts, none when starting it raised |
| Export.ItemRows | time_spent.py:349-354 | one row per item |
| Export.ItemRowsAt | time_spent.py:349-350 | row `i` is the row of item `i` |
| Export.ItemRowsSnoc | time_spent.py:349-350 | writing one more item appends its row |
| Export.ReportLayout | time_spent.py:345-354 | header, summary, blank, project marker, one row per project, blank, file marker, one row per file |
| Export.CsvLayout | time_spent.py:345-354 | the export's rows in that layout, with projects and files each in stable descending order of seconds |
| Export.ItemRowsOrdered | time_spent.py:349-354 | the Seconds column of the project rows and of the file rows never increases |
| Export.DataRowColumnsAgree | time_spent.py:346-354 | in each data row the HH:MM:SS text reads back as the Seconds number split up; a negative value shows `00:00:00` beside a non-positive number |
| Export.ExportScenario | time_spent.py:345-354 | one project and one file of 125 seconds export as `Summary,TOTAL,125,00:02:05` and matching project and file rows |
| Globals.TrackerState.constructor | time_spent.py:18-31 | the object starts as the globals at import |
| Globals.TrackerState.Register | time_spent.py:393-407 | updates the fields in place to the `Tracker.Register` state |
| Globals.TrackerState.EnsureKeys | time_spent.py:90-94 | creates the missing entries in place, as `Tracker.EnsureKeys` |
| Globals.TrackerState.IsIdle | time_spent.py:145-149 | the idle test on the object's last input |
| Globals.TrackerState.Book | time_spent.py:160-165 | updates the counters in place as `Tracker.Book` |
| Globals.TrackerState.TickAccumulate | time_spent.py:151-165 | updates the fields in place to the `Tracker.TickAccumulate` state |
| Globals.TrackerState.SaveData | time_spent.py:115-127 | records a snapshot of the counters |
| Globals.TrackerState.SaveCheckpointIfDue | time_spent.py:129-133 | updates the fields in place to the `Tracker.SaveCheckpointIfDue` state |
| Globals.TrackerState.HandleEvent | time_spent.py:197-216 | updates focus and last input in place to the `Tracker.HandleEvent` state |
| Globals.TrackerState.RefreshContext | time_spent.py:361-365 | updates the fields in place to the `Tracker.RefreshContext` state |
| Globals.TrackerState.LazyInitIfNeeded | time_spent.py:249-261 | updates the fields in place to the `Tracker.LazyInitIfNeeded` state |
| Globals.TrackerState.EnsureMonitorRunning | time_spent.py:239-247 | updates the monitor flag and the last input in place to the `Tracker.EnsureMonitorRunning` state |
| Globals.TrackerState.TimerTick | time_spent.py:263-274 | lazy initialisation, monitor start, accrual and checkpoint in place, as `Tracker.TimerTick` |
| Globals.TrackerState.ResetAll | time_spent.py:319-331 | updates the fields in place to the `Tracker.ResetAll` state |
| Globals.TrackerState.OnSavePre | time_spent.py:367-369 | saves the counters |
| Globals.TrackerState.OnSavePost | time_spent.py:371-373 | refreshes the context in place |
| Globals.TrackerState.OnLoadPost | time_spent.py:375-379 | lazy initialisation, a refresh and the monitor start, in place |
| Globals.TrackerState.Unregister | time_spent.py:414-420 | a last tick, then a save, in place |
| Globals.TrackerState.ExportRows | time_spent.py:345-354 | the loops write exactly `CsvRows` of the object's counters |

## Left out

- Blender registration and UI are not modelled. This covers class registration, drawing the status bar and the preferences panel, and the operators' `report` messages and return values (`{'FINISHED'}`, `{'PASS_THROUGH'}`). They are host plumbing.
- The host side of the monitor start is not modelled: adding the event timer and the modal handler in `invoke`, and `cancel`. The model takes what happened as a parameter (`Tracker.MonitorStart`): the start reached the input bump, `invoke` cancelled for want of a window manager, or the call raised.
- Redraw requests (`_iter_areas`, `tag_redraw`) and the timer period are not modelled. They have no effect on the state.
- JSON reading and writing is not modelled. `_load_data` becomes `Tracker.Load`, whose argument is the stored counters or `None` for a missing or unreadable file. `_save_data` becomes a snapshot in the ghost log `saved`. A failed write is swallowed by the source and changes no state, so the model treats every write alike.
- Failures of `_load_data` field by field (a bad number in one entry) are not modelled. The whole load is either the stored counters or `None`.
- CSV quoting and file writing, and the export's error path (`CANCELLED` when the file cannot be written), are not modelled. The model gives the rows handed to `writer.writerow`.
- `Tracker.TickAccumulate`: floats are modelled as reals, with no rounding, NaN or infinity. Sums such as the three-way balance are exact in the model; in the source they can drift by rounding.
- `Tracker.TimerTick`: lazy initialisation reads the clock itself, separately from the tick. The model gives each reading its own parameter (`initNow`, `now`) rather than ordering them.
- `Context.FileKey` and `Context.ProjectKey`: `os.path.normpath`, `os.path.abspath` and `os.path.dirname` are uninterpreted parameters. The model does not prove facts about real path normalisation.
- `_safe_filepath` and `_safe_getattr` are not modelled. A path that cannot be read is the path `""`.
- `Activity.IdleTimeout`: the preference is an integer from 0 to 3600 in the host. The model accepts any real and clamps negatives, as `max(0.0, secs)` does.
- `draw_statusbar` and the preferences `draw` only format values with `_format_hms` and `_top_n`, which are modelled. The drawing itself is not.
