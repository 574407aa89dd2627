/** The stopwatch of milo/utils/timer.py: a start/stop machine over three
    fields. The wall clock is not read: every operation that reads
    `time.time()` takes the reading as the parameter `now`. */
module Timers {
  import opened Values

  /** The three fields of a timer: `start_time`, `stop_time` and `running`. */
  datatype Clock = Clock(startTime: Option<real>, stopTime: Option<real>, running: bool)

  /** A new timer: not running, neither started nor stopped. */
  const Fresh: Clock := Clock(None, None, false)

  /** `start()` at time `now`: refused while running, otherwise the start
      time is taken and the timer runs. */
  function Started(c: Clock, now: real): (r: Result<Clock>)
    ensures r.Err? <==> c.running
    ensures r.Err? ==> r.error == RuntimeError
    ensures r.Ok? ==> r.value == Clock(Some(now), c.stopTime, true)
  {
    if c.running then Err(RuntimeError) else Ok(c.(startTime := Some(now), running := true))
  }

  /** `stop()` at time `now`: refused unless running, otherwise the stop
      time is taken and the timer halts. */
  function Stopped(c: Clock, now: real): (r: Result<Clock>)
    ensures r.Err? <==> !c.running
    ensures r.Err? ==> r.error == RuntimeError
    ensures r.Ok? ==> r.value == Clock(c.startTime, Some(now), false)
  {
    if !c.running then Err(RuntimeError) else Ok(c.(stopTime := Some(now), running := false))
  }

  /** `running_time()` read at time `now`. */
  function RunningTimeOf(c: Clock, now: real): Result<real>
  {
    if c.startTime.None? then Err(ValueError)
    else if c.running then Ok(now - c.startTime.value)
    else if c.stopTime.None? then Err(ValueError)
    else Ok(c.stopTime.value - c.startTime.value)
  }

  /** `final_time()`. */
  function FinalTimeOf(c: Clock): Option<real>
  {
    if c.startTime.None? || c.running || c.stopTime.None? then None
    else Some(c.stopTime.value - c.startTime.value)
  }

  /** The clocks `start` and `stop` can reach from a fresh timer: a running
      timer has been started, and a halted one that has been started has
      also been stopped. */
  predicate Reachable(c: Clock)
  {
    && (c.running ==> c.startTime.Some?)
    && (!c.running && c.startTime.Some? ==> c.stopTime.Some?)
  }

  /** A fresh timer is reachable, and `start` and `stop` keep a timer
      reachable. */
  lemma ReachableKept(c: Clock, now: real)
    ensures Reachable(Fresh)
    ensures Reachable(c) && Started(c, now).Ok? ==> Reachable(Started(c, now).value)
    ensures Reachable(c) && Stopped(c, now).Ok? ==> Reachable(Stopped(c, now).value)
  {
  }

  /** `final_time` is given exactly when the timer was started, is not
      running and was stopped, and then it is `stop_time - start_time`; it
      agrees with `running_time`, whatever the clock reads. */
  lemma FinalTimeAgrees(c: Clock, now: real)
    ensures FinalTimeOf(c).Some? <==> c.startTime.Some? && !c.running && c.stopTime.Some?
    ensures FinalTimeOf(c).Some? ==> FinalTimeOf(c).value == c.stopTime.value - c.startTime.value
    ensures FinalTimeOf(c).Some? ==> RunningTimeOf(c, now) == Ok(FinalTimeOf(c).value)
    ensures !c.running && RunningTimeOf(c, now).Ok? ==> FinalTimeOf(c) == Some(RunningTimeOf(c, now).value)
  {
  }

  /** `running_time` fails only with `ValueError`: before any start, or on
      a halted timer that was never stopped. While running it is the time
      since the start. */
  lemma RunningTimeCases(c: Clock, now: real)
    ensures RunningTimeOf(c, now).Err? <==> c.startTime.None? || (!c.running && c.stopTime.None?)
    ensures RunningTimeOf(c, now).Err? ==> RunningTimeOf(c, now).error == ValueError
    ensures c.startTime.Some? && c.running ==> RunningTimeOf(c, now) == Ok(now - c.startTime.value)
  {
  }

  /** On a reachable timer the "not been stopped" error cannot occur:
      `running_time` fails exactly when the timer was never started, and
      `final_time` is missing exactly when it was never started or runs. */
  lemma ReachableRunningTime(c: Clock, now: real)
    requires Reachable(c)
    ensures RunningTimeOf(c, now).Err? <==> c.startTime.None?
    ensures FinalTimeOf(c).None? <==> c.startTime.None? || c.running
  {
    RunningTimeCases(c, now);
    FinalTimeAgrees(c, now);
  }

  /** Starting at `t0` and stopping at `t1` a timer that is not running
      succeeds, and afterwards both `final_time` and `running_time` (read
      at any time) give `t1 - t0`; a second `stop` is refused. */
  lemma StartThenStop(c: Clock, t0: real, t1: real, now: real)
    requires !c.running
    ensures Started(c, t0).Ok? && Stopped(Started(c, t0).value, t1).Ok?
    ensures var d := Stopped(Started(c, t0).value, t1).value;
            && FinalTimeOf(d) == Some(t1 - t0)
            && RunningTimeOf(d, now) == Ok(t1 - t0)
            && Stopped(d, now) == Err(RuntimeError)
  {
    var d := Stopped(Started(c, t0).value, t1).value;
    assert d == Clock(Some(t0), Some(t1), false);
  }

  class Timer {
    /** `self.start_time`. */
    var startTime: Option<real>
    /** `self.stop_time`. */
    var stopTime: Option<real>
    /** `self.running`. */
    var running: bool

    /** The three fields as one value. */
    function State(): Clock
      reads this
    {
      Clock(startTime, stopTime, running)
    }

    /** `Timer()`. */
    constructor ()
      ensures State() == Fresh
    {
      startTime := None;
      stopTime := None;
      running := false;
    }

    /** `timer.start()` with the clock reading `now`; `RuntimeError` when
        already running, leaving the timer as it was. */
    method Start(now: real) returns (err: Option<Error>)
      modifies this
      ensures Started(old(State()), now).Err? ==> err == Some(Started(old(State()), now).error) && State() == old(State())
      ensures Started(old(State()), now).Ok? ==> err.None? && State() == Started(old(State()), now).value
    {
      if running {
        return Some(RuntimeError);
      }
      startTime := Some(now);
      running := true;
      return None;
    }

    /** `timer.stop()` with the clock reading `now`; `RuntimeError` when not
        running, leaving the timer as it was. */
    method Stop(now: real) returns (err: Option<Error>)
      modifies this
      ensures Stopped(old(State()), now).Err? ==> err == Some(Stopped(old(State()), now).error) && State() == old(State())
      ensures Stopped(old(State()), now).Ok? ==> err.None? && State() == Stopped(old(State()), now).value
    {
      if !running {
        return Some(RuntimeError);
      }
      stopTime := Some(now);
      running := false;
      return None;
    }

    /** `timer.running_time()` with the clock reading `now`. */
    method RunningTime(now: real) returns (r: Result<real>)
      ensures r == RunningTimeOf(State(), now)
    {
      if startTime.None? {
        return Err(ValueError);
      }
      if running {
        return Ok(now - startTime.value);
      } else if stopTime.None? {
        return Err(ValueError);
      }
      return Ok(stopTime.value - startTime.value);
    }

    /** `timer.final_time()`. */
    method FinalTime() returns (r: Option<real>)
      ensures r == FinalTimeOf(State())
    {
      if startTime.None? || running || stopTime.None? {
        return None;
      }
      return Some(stopTime.value - startTime.value);
    }

    /** `timer.is_running()`. */
    method IsRunning() returns (r: bool)
      ensures r == running
    {
      return running;
    }
  }
}
