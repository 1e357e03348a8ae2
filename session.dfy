/**
 * The session state of the main process as a value, and the transitions that
 * `startStayGreen`, `stopStayGreen` and the status timer's callback make on it.
 * These functions specify the methods of `StayGreen.Controller`.
 */
module SessionMachine {
  import opened Wrappers
  import opened Status

  /** The module-level variables: `isActive`, `startTime`, `appStatus`, and whether
      the `statusTimer` and `stayGreenProcess` handles are held. */
  datatype State = State(
    isActive: bool,
    startTime: Option<int>,
    status: Snapshot,
    timerArmed: bool,
    processHandleHeld: bool)

  /** The state when the main process loads. */
  const Launch: State := State(false, None, Inactive, false, false)

  /** What every reachable state satisfies: the snapshot mirrors `isActive` and is,
      while active, exactly what the timer derives from the raw start instant;
      the status timer runs exactly while active; a process handle is held only then.
      The raw `startTime` may outlive the session: only the snapshot's copy is cleared. */
  predicate Consistent(s: State) {
    && s.status.isActive == s.isActive
    && WellFormed(s.status)
    && (s.isActive ==> s.startTime.Some? && s.status == ActiveSnapshot(s.startTime.value, ComputedAt(s.status)))
    && s.timerArmed == s.isActive
    && (s.processHandleHeld ==> s.isActive)
  }

  /** `startStayGreen` at instant `now`, returning the new state and the result.
      `windows`: the helper process is spawned (Windows only). `scriptFails`: writing
      the helper scripts, or a `spawn` that throws synchronously, raises an exception,
      which is caught before any state changes. A spawn that fails later, through an
      `'error'` event, is not caught: it is a successful start. */
  function StartStep(s: State, now: int, windows: bool, scriptFails: bool): (r: (State, bool))
    ensures Consistent(s) ==> Consistent(r.0)
    ensures r.1 == (!s.isActive && !scriptFails)
    ensures !r.1 ==> r.0 == s
    ensures r.1 ==> r.0.isActive && r.0.startTime == Some(now) && r.0.timerArmed
    ensures r.1 ==> r.0.processHandleHeld == windows
    ensures r.1 ==> r.0.status.startTime == Some(now) && r.0.status.lastToggle.Some?
    ensures r.1 ==> r.0.status.sessionDuration == 0 && r.0.status.nextToggleIn == CycleSeconds
  {
    if s.isActive then (s, false)
    else if scriptFails then (s, false)
    else (State(true, Some(now), StartSnapshot(now), true, windows), true)
  }

  /** `stopStayGreen`, returning the new state and the result. `cleanupFails`: the
      `taskkill` sweep reports an error, which is only logged. */
  function StopStep(s: State, cleanupFails: bool): (r: (State, bool))
    ensures Consistent(s) ==> Consistent(r.0)
    ensures r.1 == s.isActive
    ensures !r.1 ==> r.0 == s
    ensures r.1 ==> !r.0.isActive && r.0.status == Inactive
    ensures r.1 ==> !r.0.timerArmed && !r.0.processHandleHeld
    ensures r.0.startTime == s.startTime
  {
    if !s.isActive then (s, false)
    else (s.(isActive := false, status := Inactive, timerArmed := false, processHandleHeld := false), true)
  }

  /** One firing of the status interval at instant `now`. */
  function TickStep(s: State, now: int): (r: State)
    ensures Consistent(s) ==> Consistent(r)
    ensures r.isActive == s.isActive && r.startTime == s.startTime
    ensures r.timerArmed == s.timerArmed && r.processHandleHeld == s.processHandleHeld
    ensures r.status.isActive == s.status.isActive && r.status.startTime == s.status.startTime
    ensures Consistent(s) && s.isActive ==> r.status == ActiveSnapshot(s.startTime.value, now)
    ensures !s.isActive ==> r == s
  {
    if s.isActive && s.startTime.Some? then s.(status := Refresh(s.status, s.startTime.value, now))
    else s
  }

  /** The calls that reach the state: the two IPC commands and the timer. */
  datatype Event =
    | StartCall(now: int, windows: bool, scriptFails: bool)
    | StopCall(cleanupFails: bool)
    | TimerFires(now: int)

  function Step(s: State, e: Event): State {
    match e
    case StartCall(now, windows, scriptFails) => StartStep(s, now, windows, scriptFails).0
    case StopCall(cleanupFails) => StopStep(s, cleanupFails).0
    case TimerFires(now) => TickStep(s, now)
  }

  /** The state after the events, in order. */
  function Run(s: State, events: seq<Event>): State
    decreases |events|
  {
    if events == [] then s else Run(Step(s, events[0]), events[1..])
  }

  /** Two events run one after the other. */
  lemma RunPair(s: State, first: Event, second: Event)
    ensures Run(s, [first, second]) == Step(Step(s, first), second)
  {
    var events := [first, second];
    assert events[1..] == [second];
    assert Run(Step(s, first), [second]) == Run(Step(Step(s, first), second), []);
  }

  /** Any sequence of calls keeps a consistent state consistent. */
  lemma {:induction false} RunStaysConsistent(s: State, events: seq<Event>)
    requires Consistent(s)
    ensures Consistent(Run(s, events))
    decreases |events|
  {
    if events != [] {
      RunStaysConsistent(Step(s, events[0]), events[1..]);
    }
  }

  /** Every state reachable from launch is consistent: in particular the snapshot's
      `isActive` equals the controller's, and holds exactly when its start time is present. */
  lemma ReachableIsConsistent(events: seq<Event>)
    ensures Consistent(Run(Launch, events))
    ensures Run(Launch, events).status.isActive == Run(Launch, events).isActive
    ensures Run(Launch, events).status.isActive <==> Run(Launch, events).status.startTime.Some?
  {
    RunStaysConsistent(Launch, events);
  }

  /** A start that throws in its script section leaves an idle controller idle. */
  lemma FailedStartStaysIdle(s: State, now: int, windows: bool)
    requires Consistent(s) && !s.isActive
    ensures !StartStep(s, now, windows, true).1
    ensures !Run(s, [StartCall(now, windows, true)]).isActive
    ensures Run(s, [StartCall(now, windows, true)]).status == Inactive
  {
  }

  /** Two starts in a row from idle: success, then refusal, with the first
      start's state left as it was. */
  lemma StartTwice(s: State, now: int, later: int, windows: bool)
    requires Consistent(s) && !s.isActive
    ensures StartStep(s, now, windows, false).1
    ensures !StartStep(StartStep(s, now, windows, false).0, later, windows, false).1
    ensures Run(s, [StartCall(now, windows, false), StartCall(later, windows, false)])
            == StartStep(s, now, windows, false).0
  {
    RunPair(s, StartCall(now, windows, false), StartCall(later, windows, false));
  }

  /** Two stops in a row from a running session: success, then refusal; the
      snapshot is at its defaults however long the session ran. */
  lemma StopTwice(s: State, cleanupFails: bool, again: bool)
    requires Consistent(s) && s.isActive
    ensures StopStep(s, cleanupFails).1
    ensures !StopStep(StopStep(s, cleanupFails).0, again).1
    ensures Run(s, [StopCall(cleanupFails), StopCall(again)]).status == Inactive
  {
    RunPair(s, StopCall(cleanupFails), StopCall(again));
  }
}
