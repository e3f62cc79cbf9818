/** The game-wide timer: a running flag, a pause flag and the current time,
    counting down to a limit or up without one. The frame time the engine
    passes to each update is a parameter; times are exact reals. */
module Timing {
  datatype TimerMode = CountDown | CountUp

  /** The timer's changing fields as a value. */
  datatype Clock = Clock(currentTime: real, isRunning: bool, isPaused: bool)

  /** A paused timer is always a running one. */
  predicate ClockValid(c: Clock) {
    c.isPaused ==> c.isRunning
  }

  // ---------------------------------------------------------------------
  // Each operation on values.

  /** InitializeTimer: time 0, stopped, not paused. */
  const Initial: Clock := Clock(0.0, false, false)

  /** StartTimer: a running timer is left alone; otherwise it runs,
      unpaused, from its current time. */
  function Started(c: Clock): (r: Clock)
    ensures r.isRunning && r.currentTime == c.currentTime
    ensures !c.isRunning ==> !r.isPaused
    ensures c.isRunning ==> r == c
  {
    if c.isRunning then c else c.(isRunning := true, isPaused := false)
  }

  /** StopTimer: a stopped timer is left alone; otherwise it stops,
      unpaused, keeping its time. */
  function Stopped(c: Clock): (r: Clock)
    ensures !r.isRunning && r.currentTime == c.currentTime
    ensures c.isRunning ==> !r.isPaused
    ensures !c.isRunning ==> r == c
  {
    if !c.isRunning then c else c.(isRunning := false, isPaused := false)
  }

  /** TogglePause: only a running timer changes, and then only its pause
      flag. */
  function Toggled(c: Clock): (r: Clock)
    ensures r.isRunning == c.isRunning && r.currentTime == c.currentTime
    ensures c.isRunning ==> r.isPaused != c.isPaused
    ensures !c.isRunning ==> r == c
  {
    if !c.isRunning then c else c.(isPaused := !c.isPaused)
  }

  /** ResetTimer: time back to 0 and unpaused; the running flag stays. */
  function Reset(c: Clock): (r: Clock)
    ensures r.currentTime == 0.0 && !r.isPaused && r.isRunning == c.isRunning
  {
    c.(currentTime := 0.0, isPaused := false)
  }

  /** Update: a stopped or paused timer does not move; a running one
      advances by delta, and in countdown mode, once it reaches the limit,
      it finishes: it stops with its time set to the limit. */
  function Updated(c: Clock, mode: TimerMode, initialTime: real, delta: real): (r: Clock)
    ensures !c.isRunning || c.isPaused ==> r == c
    ensures c.isRunning && !c.isPaused && mode == CountUp ==> r == c.(currentTime := c.currentTime + delta)
    ensures c.isRunning && !c.isPaused && mode == CountDown ==>
              if c.currentTime + delta >= initialTime then r == Clock(initialTime, false, c.isPaused)
              else r == c.(currentTime := c.currentTime + delta)
  {
    if !c.isRunning || c.isPaused then c
    else
      var advanced := c.(currentTime := c.currentTime + delta);
      if mode == CountDown && advanced.currentTime >= initialTime then Finished(advanced, initialTime)
      else advanced
  }

  /** FinishTimer: stopped, with the time at the limit; the pause flag is
      untouched. */
  function Finished(c: Clock, initialTime: real): (r: Clock)
    ensures !r.isRunning && r.currentTime == initialTime && r.isPaused == c.isPaused
  {
    c.(isRunning := false, currentTime := initialTime)
  }

  // ---------------------------------------------------------------------
  // What the operations promise together.

  /** Every operation keeps "paused implies running"; FinishTimer would
      break it on a paused timer, but Update reaches it only when not
      paused. */
  lemma OperationsKeepValid(c: Clock, mode: TimerMode, initialTime: real, delta: real)
    requires ClockValid(c)
    ensures ClockValid(Initial)
    ensures ClockValid(Started(c)) && ClockValid(Stopped(c)) && ClockValid(Toggled(c)) && ClockValid(Reset(c))
    ensures ClockValid(Updated(c, mode, initialTime, delta))
  {
  }

  /** Without the Update gate, finishing a paused timer would leave it
      paused but not running. */
  lemma FinishedPausedInvalid(initialTime: real)
    ensures !ClockValid(Finished(Clock(0.0, true, true), initialTime))
  {
  }

  /** Pausing twice is no pause at all. */
  lemma ToggleTwice(c: Clock)
    ensures Toggled(Toggled(c)) == c
  {
  }

  /** A stopped timer keeps its time through any number of updates, so
      stopping and starting again resumes where it stopped. */
  lemma StopStartResumes(c: Clock, mode: TimerMode, initialTime: real, delta: real)
    ensures Updated(Stopped(c), mode, initialTime, delta) == Stopped(c)
    ensures Started(Stopped(c)) == Clock(c.currentTime, true, false)
  {
  }

  /** A countdown that starts within its limit never passes it, whatever
      the frame time; and once it reaches the limit, it has stopped. */
  lemma CountdownBounded(c: Clock, initialTime: real, delta: real)
    requires c.currentTime <= initialTime
    ensures Updated(c, CountDown, initialTime, delta).currentTime <= initialTime
    ensures c.isRunning && !c.isPaused && Updated(c, CountDown, initialTime, delta).currentTime == initialTime
            ==> !Updated(c, CountDown, initialTime, delta).isRunning
  {
  }

  /** CheckInterval on values: due exactly when at least the interval has
      elapsed since the last check, and on a due check the last check time
      becomes the current time. */
  function IntervalCheck(currentTime: real, interval: real, lastCheckTime: real): (r: (bool, real))
    ensures r.0 <==> currentTime - lastCheckTime >= interval
    ensures r.1 == if r.0 then currentTime else lastCheckTime
  {
    if currentTime - lastCheckTime >= interval then (true, currentTime) else (false, lastCheckTime)
  }

  /** A due check is not due again straight away for a positive interval:
      checks at one instant fire at most once. */
  lemma IntervalFiresOnce(currentTime: real, interval: real, lastCheckTime: real)
    requires interval > 0.0
    requires IntervalCheck(currentTime, interval, lastCheckTime).0
    ensures !IntervalCheck(currentTime, interval, IntervalCheck(currentTime, interval, lastCheckTime).1).0
  {
    var (due, last) := IntervalCheck(currentTime, interval, lastCheckTime);
    assert last == currentTime;
  }

  // ---------------------------------------------------------------------
  // The timer object.

  class TimerManager {
    /** The limit in seconds (300 by default). */
    var initialTime: real
    var timerMode: TimerMode
    var autoStart: bool
    var currentTime: real
    var isRunning: bool
    var isPaused: bool

    function Snapshot(): Clock
      reads this
    {
      Clock(currentTime, isRunning, isPaused)
    }

    predicate Valid()
      reads this
    {
      ClockValid(Snapshot())
    }

    /** The serialized settings, then InitializeTimer. */
    constructor(initialTime: real, timerMode: TimerMode, autoStart: bool)
      ensures this.initialTime == initialTime && this.timerMode == timerMode && this.autoStart == autoStart
      ensures Snapshot() == Initial && Valid()
    {
      this.initialTime := initialTime;
      this.timerMode := timerMode;
      this.autoStart := autoStart;
      currentTime := 0.0;
      isRunning := false;
      isPaused := false;
    }

    method InitializeTimer()
      modifies this
      ensures Snapshot() == Initial && Valid()
      ensures initialTime == old(initialTime) && timerMode == old(timerMode) && autoStart == old(autoStart)
    {
      currentTime := 0.0;
      isRunning := false;
      isPaused := false;
    }

    method StartTimer()
      requires Valid()
      modifies this
      ensures Snapshot() == Started(old(Snapshot())) && Valid()
      ensures initialTime == old(initialTime) && timerMode == old(timerMode) && autoStart == old(autoStart)
    {
      if isRunning {
        return;
      }
      isRunning := true;
      isPaused := false;
    }

    method StopTimer()
      requires Valid()
      modifies this
      ensures Snapshot() == Stopped(old(Snapshot())) && Valid()
      ensures initialTime == old(initialTime) && timerMode == old(timerMode) && autoStart == old(autoStart)
    {
      if !isRunning {
        return;
      }
      isRunning := false;
      isPaused := false;
    }

    method TogglePause()
      requires Valid()
      modifies this
      ensures Snapshot() == Toggled(old(Snapshot())) && Valid()
      ensures initialTime == old(initialTime) && timerMode == old(timerMode) && autoStart == old(autoStart)
    {
      if !isRunning {
        return;
      }
      isPaused := !isPaused;
    }

    method ResetTimer()
      requires Valid()
      modifies this
      ensures Snapshot() == Reset(old(Snapshot())) && Valid()
      ensures initialTime == old(initialTime) && timerMode == old(timerMode) && autoStart == old(autoStart)
    {
      currentTime := 0.0;
      isPaused := false;
    }

    /** The per-frame Update gate, then UpdateTimer with the frame time. */
    method Update(deltaTime: real)
      requires Valid()
      modifies this
      ensures Snapshot() == Updated(old(Snapshot()), timerMode, initialTime, deltaTime) && Valid()
      ensures initialTime == old(initialTime) && timerMode == old(timerMode) && autoStart == old(autoStart)
    {
      if !isRunning || isPaused {
        return;
      }
      UpdateTimer(deltaTime);
    }

    method UpdateTimer(deltaTime: real)
      requires isRunning && !isPaused
      modifies this
      ensures Snapshot() == Updated(old(Snapshot()), timerMode, initialTime, deltaTime) && Valid()
      ensures initialTime == old(initialTime) && timerMode == old(timerMode) && autoStart == old(autoStart)
    {
      currentTime := currentTime + deltaTime;
      if timerMode == CountDown && currentTime >= initialTime {
        FinishTimer();
      }
    }

    method FinishTimer()
      modifies this
      ensures Snapshot() == Finished(old(Snapshot()), initialTime)
      ensures initialTime == old(initialTime) && timerMode == old(timerMode) && autoStart == old(autoStart)
    {
      isRunning := false;
      currentTime := initialTime;
    }

    /** CheckInterval; the ref parameter comes back as newLastCheckTime. */
    method CheckInterval(interval: real, lastCheckTime: real) returns (due: bool, newLastCheckTime: real)
      ensures due <==> currentTime - lastCheckTime >= interval
      ensures newLastCheckTime == if due then currentTime else lastCheckTime
      ensures (due, newLastCheckTime) == IntervalCheck(currentTime, interval, lastCheckTime)
    {
      newLastCheckTime := lastCheckTime;
      due := false;
      if currentTime - lastCheckTime >= interval {
        newLastCheckTime := currentTime;
        due := true;
      }
    }
  }
}
