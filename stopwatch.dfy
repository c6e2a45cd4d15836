/** The stopwatch (include/StopWatch.hpp, src/StopWatch.cpp): a two-state
    machine, running or stopped, that accumulates elapsed seconds. Every
    reading of the clock becomes a parameter `now`. */
module Timing {

  class StopWatch {
    var name: string
    var startTime: real
    var endTime: real
    var duration: real
    var isRunning: bool

    /** A new, unnamed stopwatch: stopped, nothing accumulated, start and
        end both at the clock reading taken on construction. */
    constructor (now: real)
      ensures name == "" && !isRunning && duration == 0.0
      ensures startTime == now && endTime == now
    {
      name, startTime, endTime, duration, isRunning := "", now, now, 0.0, false;
    }

    /** The named constructor: the same state, with the given name. */
    constructor Named(name: string, now: real)
      ensures this.name == name && !isRunning && duration == 0.0
      ensures startTime == now && endTime == now
    {
      this.name, startTime, endTime, duration, isRunning := name, now, now, 0.0, false;
    }

    /** Starts timing when stopped; a running stopwatch is left as it is. */
    method Start(now: real)
      modifies this`startTime, this`isRunning
      ensures isRunning
      ensures startTime == if old(isRunning) then old(startTime) else now
    {
      if !isRunning {
        startTime := now;
        isRunning := true;
      }
    }

    /** Changes the name and nothing else. */
    method SetName(name: string)
      modifies this`name
      ensures this.name == name
    {
      this.name := name;
    }

    /** Stops a running stopwatch, adding the time since the last start to
        the duration; a stopped one is left as it is. With a clock that does
        not run backwards the duration never decreases. */
    method Stop(now: real)
      modifies this`endTime, this`duration, this`isRunning
      ensures !isRunning
      ensures old(isRunning) ==> endTime == now && duration == old(duration) + (now - startTime)
      ensures !old(isRunning) ==> endTime == old(endTime) && duration == old(duration)
      ensures now >= startTime ==> duration >= old(duration)
    {
      if isRunning {
        endTime := now;
        duration := duration + (endTime - startTime);
        isRunning := false;
      }
    }

    /** Clears the duration and moves start and end to now; whether the
        stopwatch runs is not touched. */
    method Reset(now: real)
      modifies this`startTime, this`endTime, this`duration
      ensures duration == 0.0 && startTime == now && endTime == now
    {
      startTime := now;
      endTime := startTime;
      duration := 0.0;
    }

    /** The time accumulated so far: while running, the live interval since
        the last start counts as well; while stopped, only the duration. */
    function GetTime(now: real): (t: real)
      reads this
      ensures isRunning ==> t - duration == now - startTime
      ensures !isRunning ==> t == duration
    {
      if isRunning then (now - startTime) + duration else duration
    }
  }

}
