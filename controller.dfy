/**
 * The main process's session state: the module-level variables of
 * electron/main.js as the fields of one controller, and the operations that
 * reassign them: start, stop, the status timer's tick and the status query.
 */
module StayGreen {
  import opened Wrappers
  import opened Status
  import opened SessionMachine

  class Controller {
    /** Whether a handle to the spawned `wscript.exe` is held (`stayGreenProcess`).
        It does not track whether the helper is alive: that launcher exits once it has
        started PowerShell, so the handle outlives it. */
    var processHandleHeld: bool
    var isActive: bool
    /** The raw start instant. A stop does not clear it; only the snapshot's copy is reset. */
    var startTime: Option<int>
    /** The snapshot handed to the renderer (`appStatus`). */
    var status: Snapshot
    /** Whether the 1 Hz status interval is registered (`statusTimer`). */
    var timerArmed: bool

    /** The fields as one value. */
    function Model(): State
      reads this
    {
      State(isActive, startTime, status, timerArmed, processHandleHeld)
    }

    ghost predicate Valid()
      reads this
    {
      Consistent(Model())
    }

    /** The state at launch: idle, no start instant, the default snapshot. */
    constructor ()
      ensures Valid() && Model() == Launch
    {
      processHandleHeld := false;
      isActive := false;
      startTime := None;
      status := Inactive;
      timerArmed := false;
    }

    /** Registers the status interval. */
    method StartStatusTimer()
      modifies this`timerArmed
      ensures timerArmed
    {
      timerArmed := true;
    }

    /** Clears the status interval if one is registered. */
    method StopStatusTimer()
      modifies this`timerArmed
      ensures !timerArmed
    {
      if timerArmed {
        timerArmed := false;
      }
    }

    /** `startStayGreen` at instant `now`. `windows` says whether the platform is
        Windows, where the helper process is spawned; `scriptFails` says whether
        writing the helper scripts, or a `spawn` that throws synchronously, raises an
        exception; a spawn that fails later through an `'error'` event is not caught. */
    method Start(now: int, windows: bool, scriptFails: bool) returns (ok: bool)
      requires Valid()
      modifies this
      ensures Valid()
      ensures (Model(), ok) == StartStep(old(Model()), now, windows, scriptFails)
    {
      if isActive {
        return false;
      }
      if scriptFails {
        // the exception is caught and logged before any state is touched
        return false;
      }
      if windows {
        processHandleHeld := true;
      }
      isActive := true;
      startTime := Some(now);
      status := StartSnapshot(now);
      StartStatusTimer();
      return true;
    }

    /** `stopStayGreen`. `cleanupFails` says whether the `taskkill` sweep for
        leftover helper processes reports an error; that error is only logged. */
    method Stop(cleanupFails: bool) returns (ok: bool)
      requires Valid()
      modifies this
      ensures Valid()
      ensures (Model(), ok) == StopStep(old(Model()), cleanupFails)
    {
      if !isActive {
        return false;
      }
      if processHandleHeld {
        processHandleHeld := false;
      }
      isActive := false;
      status := Inactive;
      StopStatusTimer();
      return true;
    }

    /** One firing of the status interval at instant `now`. It refreshes the
        snapshot only while a session runs, and never touches the session state. */
    method Tick(now: int)
      requires Valid()
      modifies this`status
      ensures Valid()
      ensures Model() == TickStep(old(Model()), now)
    {
      if isActive && startTime.Some? {
        status := Refresh(status, startTime.value, now);
      }
    }

    /** The `get-status` handler: the stored snapshot, as it is. */
    method GetStatus() returns (s: Snapshot)
      requires Valid()
      ensures s == status
      ensures s.isActive == isActive && (s.isActive <==> s.startTime.Some?)
      ensures !s.isActive ==> s == Inactive
      ensures s.isActive ==> s.startTime == startTime
    {
      s := status;
    }
  }

  /** A session from launch: a start whose script section throws is refused; then
      start at 0 ms, query after one second and after a full cycle, let the timer
      fire at 305 s, stop and query again. */
  method SessionScenario() returns (faultyStart: bool, atOne: Snapshot, atCycle: Snapshot, afterStop: Snapshot)
    ensures !faultyStart
    ensures atOne.isActive && atOne.sessionDuration == 1 && atOne.nextToggleIn == 299
    ensures atCycle.sessionDuration == 300 && atCycle.nextToggleIn == 300
    ensures atCycle.lastToggle == Some(300000)
    ensures afterStop == Inactive
  {
    var c := new Controller();
    faultyStart := c.Start(0, true, true);
    var ok := c.Start(0, true, false);
    c.Tick(1000);
    atOne := c.GetStatus();
    c.Tick(300000);
    atCycle := c.GetStatus();
    c.Tick(305000);
    ok := c.Stop(true);
    afterStop := c.GetStatus();
  }
}
