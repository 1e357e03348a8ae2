/**
 * The status snapshot the main process keeps for the renderer (`AppStatus`)
 * and the integer arithmetic the 1 Hz status timer uses to refresh it.
 * Instants are integer milliseconds since the epoch, durations are seconds.
 */
module Status {
  import opened Wrappers

  /** Length of one keep-alive cycle, in seconds: the helper script is meant to
      press Caps Lock twice and then sleep this long. */
  const CycleSeconds: int := 300
  const MillisPerSecond: int := 1000
  const CycleMillis: int := CycleSeconds * MillisPerSecond

  datatype Snapshot = Snapshot(
    isActive: bool,
    startTime: Option<int>,
    lastToggle: Option<int>,
    sessionDuration: int,
    nextToggleIn: int)

  /** The snapshot of an idle session: the initial value and the one a stop leaves. */
  const Inactive: Snapshot := Snapshot(false, None, None, 0, CycleSeconds)

  /** A snapshot whose fields agree with each other: both instants are
      present exactly while active, and an inactive one carries the defaults. */
  predicate WellFormed(s: Snapshot) {
    && (s.isActive <==> s.startTime.Some?)
    && (s.isActive <==> s.lastToggle.Some?)
    && (!s.isActive ==> s.sessionDuration == 0 && s.nextToggleIn == CycleSeconds)
  }

  /** `sessionDuration % 300` as JavaScript computes it: the remainder of truncating
      division, which takes the sign of the dividend (Dafny's `%` is Euclidean). */
  function CycleRem(d: int): (r: int)
    ensures 0 <= d ==> r == d % CycleSeconds
    ensures d < 0 ==> r == if d % CycleSeconds == 0 then 0 else d % CycleSeconds - CycleSeconds
    ensures -CycleSeconds < r < CycleSeconds
  {
    if d >= 0 then d % CycleSeconds else -((-d) % CycleSeconds)
  }

  /** `Math.floor((now - startTime) / 1000)`: the whole seconds from `start` to `now`. */
  function SessionDuration(start: int, now: int): (d: int)
    ensures d * MillisPerSecond <= now - start < (d + 1) * MillisPerSecond
    ensures start <= now ==> 0 <= d
  {
    (now - start) / MillisPerSecond
  }

  /** `300 - (sessionDuration % 300)`: the countdown to the next nudge.
      On an exact cycle boundary it reads a full cycle, never 0. */
  function NextToggleIn(d: int): (n: int)
    ensures 0 <= d ==> 1 <= n <= CycleSeconds
    ensures 0 <= d ==> (n == CycleSeconds <==> d % CycleSeconds == 0)
    ensures 0 <= d ==> n + d % CycleSeconds == CycleSeconds
    ensures d < 0 ==> CycleSeconds <= n < 2 * CycleSeconds
  {
    CycleSeconds - CycleRem(d)
  }

  /** `now - (sessionDuration % 300) * 1000`: the instant the current cycle began,
      as the timer reckons it. */
  function LastToggle(start: int, now: int): (t: int)
    ensures start <= now ==> start <= t <= now
    ensures start <= now ==> now - t < CycleMillis
  {
    var d := SessionDuration(start, now);
    assert start <= now ==> (d - d % CycleSeconds) * MillisPerSecond >= 0;
    now - CycleRem(d) * MillisPerSecond
  }

  /** The instant an active snapshot was computed at, recovered from its own fields:
      the last toggle plus the seconds that have passed in the current cycle. */
  function ComputedAt(s: Snapshot): int
    requires s.lastToggle.Some?
  {
    s.lastToggle.value + CycleRem(s.sessionDuration) * MillisPerSecond
  }

  /** The snapshot of a session that began at `start`, as computed at `now`. */
  function ActiveSnapshot(start: int, now: int): (s: Snapshot)
    ensures WellFormed(s) && s.isActive && s.startTime == Some(start)
    ensures ComputedAt(s) == now
    ensures s.sessionDuration * MillisPerSecond <= now - start < (s.sessionDuration + 1) * MillisPerSecond
    ensures s.nextToggleIn == CycleSeconds - CycleRem(s.sessionDuration)
    ensures start <= now ==> s.nextToggleIn + s.sessionDuration % CycleSeconds == CycleSeconds
    ensures start <= now ==> 0 <= s.sessionDuration && 1 <= s.nextToggleIn <= CycleSeconds
    ensures start <= now ==> start <= s.lastToggle.value <= now
    ensures now - s.lastToggle.value + s.nextToggleIn * MillisPerSecond == CycleMillis
  {
    var d := SessionDuration(start, now);
    Snapshot(true, Some(start), Some(LastToggle(start, now)), d, NextToggleIn(d))
  }

  /** The snapshot a successful start stores, before any tick. */
  function StartSnapshot(now: int): (s: Snapshot)
    ensures s == ActiveSnapshot(now, now)
  {
    Snapshot(true, Some(now), Some(now), 0, CycleSeconds)
  }

  /** One refresh of the status timer: the stored snapshot spread with the three
      derived fields recomputed from the session's start and `now`. */
  function Refresh(s: Snapshot, start: int, now: int): (r: Snapshot)
    ensures r.isActive == s.isActive && r.startTime == s.startTime
    ensures s.isActive && s.startTime == Some(start) ==> r == ActiveSnapshot(start, now)
  {
    var d := SessionDuration(start, now);
    s.(sessionDuration := d, nextToggleIn := NextToggleIn(d), lastToggle := Some(LastToggle(start, now)))
  }

  /** The instant a tick reports is the start of the current cycle, shifted by the
      sub-second part of the elapsed time: it lies within a second after the
      true cycle boundary `start + k * 300000`. */
  lemma LastToggleNearBoundary(start: int, now: int)
    requires start <= now
    ensures LastToggle(start, now)
            == start + (SessionDuration(start, now) / CycleSeconds) * CycleMillis
               + (now - start) % MillisPerSecond
  {
  }

  /** From one second to the next the countdown drops by one, and wraps from 1
      back to a full cycle. */
  lemma CountdownStep(d: int)
    requires 0 <= d
    ensures NextToggleIn(d + 1)
            == if NextToggleIn(d) == 1 then CycleSeconds else NextToggleIn(d) - 1
  {
  }

  /** The countdown at a few elapsed times around the cycle boundaries. */
  lemma CountdownExamples()
    ensures NextToggleIn(0) == 300 && NextToggleIn(149) == 151 && NextToggleIn(150) == 150
    ensures NextToggleIn(300) == 300 && NextToggleIn(301) == 299
    ensures NextToggleIn(450) == 150 && NextToggleIn(600) == 300
  {
  }

  /** The bounds above need the clock not to run backwards: one second before the
      start the countdown reads 301 and the last toggle lies after `now`. */
  lemma ClockBehindStart()
    ensures SessionDuration(1000, 0) == -1
    ensures NextToggleIn(SessionDuration(1000, 0)) == CycleSeconds + 1
    ensures LastToggle(1000, 0) == 1000
  {
  }
}
