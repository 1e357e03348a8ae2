# Stay Green: session state machine

Stay Green is a desktop utility that keeps a machine from going idle. While a
session runs on Windows, a helper script is meant to press Caps Lock twice every
300 seconds (on other platforms no helper is launched), and the Electron main process reports the
session's status to its window once a second.
This project models the main process's session state and the status arithmetic in
`electron/main.js`:

- `Status` (`status.dfy`) holds the status snapshot (`AppStatus`), its inactive
  defaults, and the integer arithmetic of the 1 Hz status timer. Each value is a
  function whose contract states its bounds. JavaScript's truncating `%` is written
  out as `CycleRem`. `Math.floor` of the millisecond difference over 1000 is Dafny's
  `/` by a positive divisor.
- `SessionMachine` (`session.dfy`) holds the five module-level variables as one
  value `State`, with the transitions of `startStayGreen`, `stopStayGreen` and the
  timer callback as functions. `Consistent` is the invariant of every reachable
  state. `Run` replays a sequence of calls.
- `StayGreen` (`controller.dfy`) is the imperative form. The class `Controller` has
  the module-level variables as fields. `Start`, `Stop`, `Tick` and `GetStatus`
  reassign or read them, and each method's contract equates the new fields with the
  matching `SessionMachine` transition.

Time is integer milliseconds since the epoch, passed in as a parameter. The helper
process and the status interval are each reduced to a flag saying whether the handle
is held. A throw while writing the scripts, or from a `spawn` that throws
synchronously, is a `scriptFails` input to `Start`. A failure of the `taskkill`
sweep is a `cleanupFails` input to `Stop`, and no contract depends on it.

## Behaviour worth noting

- While the clock does not read earlier than the session's start, the countdown
  `nextToggleIn` lies in 1..300 and reads 300 exactly on a cycle boundary. The
  clock is the wall clock (`new Date()`, electron/main.js:176 and 268), which can be
  set back. When it reads earlier than the start, the countdown lies in 300..599
  and the last toggle can lie after `now` (`ClockBehindStart`).
- A stop does not clear the raw `startTime` variable (electron/main.js:228). Only
  the snapshot's copy is reset. So "present iff active" holds for the snapshot, not
  for the variable.
- A `spawn` that fails asynchronously (for example, `wscript.exe` missing) reports
  its error as an `'error'` event on the child process, which nothing listens to.
  The `catch` at electron/main.js:200-203 never sees it, so the start succeeds:
  the session is active and holds a process handle, but no helper works. In the
  model this is `Start(now, true, false)`.
- The VBScript runner written at electron/main.js:167 does not quote the script
  path correctly: the `"` before the path is single where VBScript needs a doubled
  `""`, so it ends the string literal at `-File ` and the path that follows is a
  syntax error. `wscript.exe` rejects the runner, and the PowerShell loop never starts. `spawn` still succeeds and the start
  returns true with a process handle held, yet no keystrokes are sent. In the model
  this is again `Start(now, true, false)`.
- The process handle names the `wscript.exe` launcher, which `WshShell.Run` without
  its wait argument leaves as soon as it has started PowerShell. `kill()` at
  electron/main.js:213 therefore does not reach the loop; `processHandleHeld`
  records only that a handle is held.
- `get-status` returns the stored snapshot, which may be up to one tick old.
- While the clock does not read earlier than the start, `lastToggle` is the cycle
  boundary shifted by the sub-second part of the elapsed time. It can lie up to
  999 ms after the true boundary (`LastToggleNearBoundary`).

## Model

| member | source | states |
|---|---|---|
| `Status.CycleRem` | electron/main.js:270 | JavaScript's `sessionDuration % 300` equals the mathematical remainder for non-negative durations. For negative ones it equals that remainder minus 300, or 0 on a multiple of 300. The result always lies strictly between -300 and 300. |
| `Status.SessionDuration` | electron/main.js:269 | The session duration is the floor of the elapsed milliseconds over 1000: `d*1000 <= now - start < (d+1)*1000`. It is non-negative once `now >= start`. |
| `Status.NextToggleIn` | electron/main.js:270 | For a non-negative duration the countdown lies in 1..300. It equals 300 exactly when the duration is a multiple of 300, and countdown plus `duration % 300` is 300. For a negative duration it lies in 300..599. |
| `Status.LastToggle` | electron/main.js:276 | When `now >= start`, the last toggle lies between the start and `now`, and less than 300 000 ms before `now`. |
| `Status.ActiveSnapshot` | electron/main.js:269-277 | The snapshot a tick derives is well formed and active, and carries the session's start. Its duration is the floor of the elapsed seconds: `d*1000 <= now - start < (d+1)*1000`. Its countdown is 300 minus the JavaScript remainder of the duration by 300; once `now >= start` the countdown plus `duration % 300` is 300. The instant it was computed at can be recovered from its fields (`ComputedAt`). Once `now >= start`, its duration is non-negative, its countdown is in 1..300 and its last toggle lies in [start, now]. Time since the last toggle plus the countdown is always one cycle. |
| `Status.StartSnapshot` | electron/main.js:177-183 | The snapshot a start stores is the one a tick at the start instant would derive. |
| `Status.Refresh` | electron/main.js:272-277 | The spread keeps `isActive` and `startTime`. For an active snapshot of the same session, the result is the derived snapshot at `now`. |
| `Status.LastToggleNearBoundary` | electron/main.js:276 | The reported last toggle is `start + k*300000` plus the sub-second remainder of the elapsed time, where `k` is the number of completed cycles. |
| `Status.CountdownStep` | electron/main.js:270 | From one whole second to the next, the countdown drops by one and wraps from 1 back to 300. |
| `Status.CountdownExamples` | electron/main.js:270 | The countdown at 0, 149, 150, 300, 301, 450 and 600 seconds is 300, 151, 150, 300, 299, 150 and 300. |
| `Status.ClockBehindStart` | electron/main.js:269-276 | If the clock reads one second before the start, the countdown is 301 and the last toggle lies after `now`. The bounds above need `now >= start`. |
| `SessionMachine.StartStep` | electron/main.js:142-204 | A start succeeds exactly when idle and the script section does not throw. Otherwise the state is unchanged. On success the state is active with the start instant recorded and the timer armed. A process handle is held exactly on Windows. The snapshot has the start instant and a last toggle present, duration 0 and countdown 300. The transition preserves `Consistent`. |
| `SessionMachine.StopStep` | electron/main.js:207-260 | A stop succeeds exactly when active. Otherwise the state is unchanged. On success the snapshot is at the inactive defaults, whatever the session's length or the cleanup's outcome. The timer is disarmed and the process handle dropped. The raw start instant is kept. The transition preserves `Consistent`. |
| `SessionMachine.TickStep` | electron/main.js:266-283 | A tick changes nothing but the snapshot: it keeps `isActive`, the raw start, the timer, the process handle, and the snapshot's `isActive` and `startTime`. While active, the snapshot becomes the one derived at `now`. While idle, nothing changes. The transition preserves `Consistent`. |
| `SessionMachine.RunStaysConsistent` | electron/main.js:142-283 | Any sequence of start, stop and timer calls keeps a consistent state consistent. |
| `SessionMachine.ReachableIsConsistent` | electron/main.js:23-34 | Every state reachable from launch is consistent. In every such state the snapshot's `isActive` equals the variable's, and holds exactly when the snapshot's start time is present. |
| `SessionMachine.FailedStartStaysIdle` | electron/main.js:145-203 | A start whose script section throws returns false and leaves an idle controller idle, with the default snapshot. |
| `SessionMachine.StartTwice` | electron/main.js:142-143 | From idle, two starts in a row return true, then false. The second leaves the first's state unchanged. |
| `SessionMachine.StopTwice` | electron/main.js:207-208 | From a running session, two stops in a row return true, then false. The snapshot ends at the defaults. |
| `StayGreen.Controller.constructor` | electron/main.js:23-34 | The fields start at the launch state: idle, no start time, the default snapshot, no process handle, and no timer (`statusTimer = null` is declared at electron/main.js:263). |
| `StayGreen.Controller.StartStatusTimer` | electron/main.js:265-284 | The status interval is registered. |
| `StayGreen.Controller.StopStatusTimer` | electron/main.js:286-291 | The status interval is cleared, whether or not one was registered. |
| `StayGreen.Controller.Start` | electron/main.js:142-204 | Keeps the invariant. The new fields and the result are those of `StartStep`. |
| `StayGreen.Controller.Stop` | electron/main.js:207-260 | Keeps the invariant. The new fields and the result are those of `StopStep`. |
| `StayGreen.Controller.Tick` | electron/main.js:266-283 | Keeps the invariant. May change only the snapshot, which becomes the one `TickStep` gives. |
| `StayGreen.Controller.GetStatus` | electron/main.js:302-304 | Returns the stored snapshot unchanged. Its `isActive` equals the controller's and holds exactly when its start time is present. When idle it is the default snapshot. |
| `StayGreen.SessionScenario` | electron/main.js:142-304 | From launch, a start whose script section throws is refused. Then a start at 0 ms followed by ticks gives duration 1 and countdown 299 at 1 s, and duration 300, countdown 300 and last toggle 300 000 ms at 300 s. A stop after that gives the default snapshot. |

## Left out

- Window and tray management (`createWindow`, `createTray`, tray icon swaps, the app lifecycle handlers): Electron user-interface plumbing.
- Writing the PowerShell and VBS scripts, `spawn("wscript.exe")`, `kill` and `exec("taskkill")`: file-system and process I/O. They appear only as the `windows` and `scriptFails` inputs to `Start`, the `cleanupFails` input to `Stop`, and the `processHandleHeld` flag.
- Exceptions thrown after the state update: a throw from the tray icon refresh or the renderer notification would make `startStayGreen` or `stopStayGreen` return false after the state had already changed. These are not modelled because those calls belong to the user-interface plumbing. A throw from `kill()` is not modelled either.
- `setInterval`/`clearInterval` scheduling and timer drift: the interval is the `timerArmed` flag, and each firing is an explicit `Tick(now)`.
- The `status-changed` notifications sent to the renderer after each start, stop and tick, and the renderer's listener: IPC transport.
- Concurrency: the IPC handlers are async but run on one event loop, so each operation is modelled as atomic.
- `StartSnapshot`: `startStayGreen` reads the clock twice, once for `startTime` and once for `lastToggle`. The model takes both readings as the same instant.
- `electron/preload.js`, `lib/electron-api.ts`, `components/StatusIndicator.tsx`, `app/page.tsx` and `components/ui/chart.tsx` are not part of this model. They are IPC pass-through, type declarations and rendering, and the progress ring uses floating-point geometry.
