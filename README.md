# TimeMe time accounting, modelled in Dafny

TimeMe is a Blender add-on that measures how long a project has been worked on.
While it runs, its modal operator sees every host event. Once more than one
second has passed since the last commit, it commits the elapsed time into a
small table of named categories: "ALL TIME", "WORK TIME" and "RENDER TIME".
An interval counts as work when some event seen in it shows user activity.
Work time is damped to at most ten seconds per commit. Render jobs are
bracketed by the render-init and render-complete/cancel handlers. The table
is printed as a fixed-layout text report.

The model follows `timeme.py`, split by concern:

- `list_ops.dfy` (module `ListOps`): the guarded list updates the add-on uses.
  `if x not in s: s.append(x)` is used for the event buffer and the handler lists.
  `if x in s: s.remove(x)` is used for the handler lists.
- `categories.dfy` (module `Categories`): the `TimeMeCatsItem` record, `getcat`
  as a pure lookup-or-create, and "add seconds to a category".
- `accounting.dfy` (module `Accounting`): the check interval, the work
  predicate, the damping rule, and the effect of one commit on the table.
- `report.dfy` (module `Report`): the `gettext` layout and a line splitter.
  Together they prove the report's line structure.
- `timeme.dfy` (module `TimeMe`): the operator as a class.
  Its fields are `status`, `eventslist`, `time`, `timeRender`, `cats`, the
  host's three render-handler lists, and the duration formatter. Its methods
  mutate these fields as the source does. Each method's `ensures` ties the new
  state to the pure functions above. `Valid()` is the invariant the methods
  keep: names are unique, the event buffer has no duplicates, and each
  tracker handler is registered exactly once while running and never while
  stopped.
- `scenarios.dfy` (module `Scenarios`): client sessions that use only the
  contracts. They cover the double run, buffering, a work interval, an idle
  interval, damping, a render bracket, and stop and reset.

Time is a `real` number of seconds, passed in as `now` on every call.
`getcat` returns a record by reference in the source. Here it returns the
record's index in `cats`, and the caller updates that entry.

Details of `timeme.py` that the model keeps:

- Neither `start` nor `stop` clears the event buffer (timeme.py:71-94).
- The event buffer is an ordered list. An event kind is appended only when it is not already in it (timeme.py:27-28).
- The event delivered in a call is buffered before the commit test in the same call (timeme.py:26-29), so it belongs to the interval that call commits.
- `onrender_complete` and `onrender_cancel` read the render start instant that `onrender_init` stored (timeme.py:120-136). Without it they fail, so the model has `requires timeRender.Some?`.
- `stop` deletes only the host property that exposes the table. The table's contents stay in place (timeme.py:84-94).

## Model

| member | source | states |
|---|---|---|
| `ListOps.AppendIfAbsent` | timeme.py:27-28 | the element is present afterwards; the old list is an unchanged prefix; its count is unchanged if it was present and 1 otherwise; other counts are unchanged; a duplicate-free list stays duplicate-free |
| `ListOps.RemoveIfPresent` | timeme.py:87-92 | an absent element leaves the list unchanged; a present one loses exactly one occurrence (length and count drop by one); other counts are unchanged |
| `ListOps.RemoveIfPresentFirst` | timeme.py:87-92 | removing a present element drops its first occurrence and keeps every other element in its order: the result is the list before that position followed by the list after it |
| `ListOps.RemoveUndoesAppend` | timeme.py:75-92 | registering an absent handler and then unregistering it gives back the original host list |
| `ListOps.AppendIfAbsentIdempotent` | timeme.py:75-80 | a second guarded registration changes nothing |
| `Categories.Find` | timeme.py:97-100 | the result is the first position holding the name; it is None exactly when no record has the name |
| `Categories.GetOrCreate` | timeme.py:97-105 | earlier records are unchanged; one record is appended exactly when the name is absent, with 0 seconds and `fmt(0)`; the returned position is the first record with the name; names stay unique |
| `Categories.GetOrCreateIdempotent` | timeme.py:97-105 | a second `getcat` with the same name returns the same table and position |
| `Categories.AddTime` | timeme.py:31-33 | getcat, then `cattime += delta` with the display text recomputed. It is a specification function with no contract of its own; `AddTimeSpec` and `AddTimeOther` state its properties |
| `Categories.AddTimeSpec` | timeme.py:31-33 | after adding `delta` under a name, the category exists and holds exactly `delta` more than before (0 if it was new); its text is `fmt` of the new total; other records keep position and value; names stay unique |
| `Categories.AddTimeKeepsSlots` | timeme.py:97-105 | adding time moves no record: the table grows by at most one, every old slot keeps its name, and a new record can only be the one named, appended at the end |
| `Categories.AddTimeOther` | timeme.py:124-126 | adding time under one name changes neither the position nor the time of any other category |
| `Accounting.CommitDue` | timeme.py:29 | an interval is committed once strictly more than the 1 s check interval has passed since the last commit. It is a specification predicate; `TimeMe.TimeMe.Modal`'s contract states what it decides |
| `Accounting.IsWorkEvent` | timeme.py:37 | an event shows user activity unless it is 'NONE' or 'WINDOW_DEACTIVATE' or its first five characters are 'TIMER' or 'NDOF_'. It is a specification predicate; `IsWorkAppend`, `IdleIntervalIsNotWork` and `TimeMe.TimeMe.ClassifyBuffer` state its properties |
| `Accounting.IsWork` | timeme.py:35-38 | an interval is work when some buffered event is not 'NONE' or 'WINDOW_DEACTIVATE' and does not start with 'TIMER' or 'NDOF_'. It is a specification predicate; `IsWorkAppend`, `IsWorkOrderIndependent`, `IdleIntervalIsNotWork` and the `ClassifyBuffer` loop state its properties |
| `Accounting.IsWorkAppend` | timeme.py:27-38 | after buffering an event kind, the interval is work exactly when it already was or that event is a work event |
| `Accounting.Commit` | timeme.py:29-45 | the table after one commit: ALL TIME grows by the elapsed time, and WORK TIME by the damped elapsed time when the interval is work. It is a specification function; `CommitAllTime`, `CommitWorkTime`, `CommitOther`, `CommitWorkBounded` and `CommitKeepsNamesUnique` state its properties |
| `Accounting.WorkCredit` | timeme.py:41-44 | work credit is at most the elapsed time and at most the 10 s damping limit, and equals one of them (the minimum) |
| `Accounting.IsWorkOrderIndependent` | timeme.py:35-38 | two buffers with the same events in any order classify the interval alike |
| `Accounting.IdleIntervalIsNotWork` | timeme.py:35-39 | a buffer holding only 'NONE', 'WINDOW_DEACTIVATE', or names starting with 'TIMER' or 'NDOF_' is not work |
| `Accounting.CommitAllTime` | timeme.py:29-33 | a commit adds exactly the elapsed time to ALL TIME, creating it if needed, and shows `fmt` of the new total; where it sits is stated by `CommitKeepsOrder` |
| `Accounting.CommitWorkTime` | timeme.py:34-45 | a work interval adds `WorkCredit(elapsed)` to WORK TIME, creating it if needed, and shows `fmt` of the new total; any other interval neither creates WORK TIME nor changes its record, display text included; where it sits is stated by `CommitKeepsOrder` |
| `Accounting.CommitKeepsOrder` | timeme.py:29-45 | a commit moves no record: the table grows by at most two, every old slot keeps its name, a new ALL TIME is appended right after the old records, and only ALL TIME or WORK TIME can be appended, so the report lists categories in the same order |
| `Accounting.CommitOther` | timeme.py:29-48 | a commit leaves the position and seconds of every other category unchanged, and every record named neither ALL TIME nor WORK TIME is kept whole, display text included, so RENDER TIME is untouched |
| `Accounting.CommitWorkBounded` | timeme.py:39-45 | per commit, WORK TIME grows by no less than 0 and no more than ALL TIME grows |
| `Accounting.CommitKeepsNamesUnique` | timeme.py:29-45 | committing keeps category names unique |
| `Report.Rule` | timeme.py:109 | `'=' * n` has length n and holds only '=' |
| `Report.ReportText` | timeme.py:108-116 | the text `gettext` builds: banner, title, banner, project line, one `name: text` line per category, closing banner. It is a specification function; `TimeMe.TimeMe.GetText` and `ReportLayout` state its properties |
| `Report.SplitUnlines` | timeme.py:113-115 | joining newline-free lines, each followed by a newline, and then a last line, splits back into exactly those lines |
| `Report.ReportLayout` | timeme.py:108-116 | when no name or display text holds a newline, the report splits into (number of categories + 5) lines: banner, title, banner, `PROJECT: name`, one `name: text` line per category in table order, and a closing banner with no newline after it |
| `TimeMe.TimeMe.constructor` | timeme.py:19-23 | the loaded state: stopped, empty buffer, the load instant as commit time, no render running; the table and host lists are taken as given |
| `TimeMe.TimeMe.GetCat` | timeme.py:96-105 | the new table and returned position are exactly lookup-or-create on the old table; nothing else changes |
| `TimeMe.TimeMe.Accumulate` | timeme.py:31-33 | the table becomes `AddTime` of the old one; nothing else changes |
| `TimeMe.TimeMe.Modal` | timeme.py:25-52 | stopped: returns FINISHED and changes nothing. Running: returns PASS_THROUGH and buffers the event kind if absent. Strictly past the check interval, the table becomes `Commit` of the old table over the elapsed time and buffer, `time = now` and the buffer is empty; otherwise table and time are unchanged. `Valid()` is kept |
| `TimeMe.TimeMe.ClassifyBuffer` | timeme.py:35-38 | the flag is true exactly when some buffered event is a work event |
| `TimeMe.TimeMe.CommitInterval` | timeme.py:29-48 | the table becomes `Commit` over `now - time` and the current buffer; `time = now`; the buffer is emptied |
| `TimeMe.TimeMe.Start` | timeme.py:70-82 | already running: nothing changes. Otherwise: `time = now`; ALL TIME is looked up or created; each handler is appended only if absent; status is RUNNING; each handler is then registered exactly once |
| `TimeMe.TimeMe.Execute` | timeme.py:54-60 | a double run returns FINISHED and changes nothing; otherwise the operator starts tracking and returns RUNNING_MODAL |
| `TimeMe.TimeMe.Stop` | timeme.py:84-94 | status is cleared; each handler is removed if present and is absent afterwards; the table, buffer and times are unchanged |
| `TimeMe.TimeMe.Clear` | timeme.py:66-68 | the table is empty; nothing else changes |
| `TimeMe.TimeMe.OnRenderInit` | timeme.py:118-120 | the render start instant is `now`; nothing else changes |
| `TimeMe.TimeMe.EndRender` | timeme.py:123-128 | the body shared by both render-end handlers: the table becomes `AddTime` of the old one under RENDER TIME by `now` minus the render start, the start instant is cleared, nothing else changes, and `Valid()` is kept |
| `TimeMe.TimeMe.OnRenderComplete` | timeme.py:122-128 | RENDER TIME, created if needed, grows by exactly `now` minus the render start; the start instant is cleared |
| `TimeMe.TimeMe.OnRenderCancel` | timeme.py:130-136 | the same effect as completion: RENDER TIME grows by `now` minus the render start, and the start instant is cleared |
| `TimeMe.TimeMe.GetText` | timeme.py:107-116 | the accumulated text equals `ReportText(projectName, cats)`, whose line structure `ReportLayout` states |

## Left out

- Blender registration and operator plumbing are left out: `register`/`unregister`, the `load_pre`/`load_post` handlers, `modal_handler_add` in `execute`, and the `bl_*` metadata. These are host lifecycle and have no logic of their own.
- The `Scene.timeMeVars` pointer property being defined in `start` and deleted in `stop` is left out. It is host persistence; the table is a plain field that keeps its contents across stop and start, as the scene's stored data does.
- In the source, `getcat`, `clear` and `gettext` fail while the tracker is stopped, because the scene property is then undefined. The model lets them act on the retained table.
- The operator's `cancel` callback (timeme.py:62-64) is host plumbing: the host calls it when the modal operator is cancelled, and it only calls `stop`, which is `Stop` here.
- `redraw` only invalidates host UI areas. The model treats it as a no-op.
- The bodies of `TimeMePrint`, `TimeMeToClipboard` and `TimeMeReset` are left out. They create text blocks, switch editor areas, use the clipboard and show a confirm dialog. The reset's only logic is `Clear`.
- `datetimeex.DateTimeEx.deltatimetostrDHMS` is not part of this model. It is the class's `fmt` field, an arbitrary function from seconds to text.
- The project name is a parameter of `GetText`. The source derives it from the blend file's path with `os.path.basename`/`splitext`.
- The wall clock is a `now` argument, one per call. The source reads `datetime.now()` several times within one `modal` tick, and those readings can differ by microseconds.
- Floating-point rounding is not modelled. `cattime` is a single-precision property in the host and time differences are Python floats; the model uses exact reals.
- The unused `activecat` field is left out.
- The host decides when to call the render handlers. `OnRenderInit`, `OnRenderComplete` and `OnRenderCancel` do not require the handler to be registered.
- The source writes the commit time onto the operator instance in `modal` but onto the class in `start`. The model has one `time` field. Each run uses one operator instance, which reads the class value set by `start`, so the two agree.
- Report.ReportLayout: the line structure is stated only for names, display texts and project names without a newline. With a newline in them the text itself is still exactly `ReportText`, but it splits into more lines.
