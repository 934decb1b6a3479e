/** The start/stop/elapsed state of `AnimatedVector` in src/util.ts. The
    vector's coordinates, velocity, colour and fade rate are plain data that
    no method here touches; `Date.now()` is passed in as `now`, in
    milliseconds. */
module AnimatedVectors {
  import opened JsMath

  /** A JavaScript number as far as `elapsedRuntime` produces one: a whole
      number of milliseconds, or NaN (a subtraction involving `undefined`). */
  datatype Num = Finite(n: int) | NaN

  class AnimatedVector {
    var isActive: bool
    /** `undefined` until `start()` is first called. */
    var startTime: Option<int>

    /** A new vector is inactive and has no start time. */
    constructor ()
      ensures !isActive && startTime == None
    {
      isActive := false;
      startTime := None;
    }

    /** `start()`: records the start time and nothing else; in particular it
        leaves the vector as active or inactive as it was. */
    method Start(now: int)
      modifies this
      ensures startTime == Some(now) && isActive == old(isActive)
    {
      startTime := Some(now);
    }

    /** `stop()`: deactivates the vector and keeps its start time. */
    method Stop()
      modifies this
      ensures !isActive && startTime == old(startTime)
    {
      isActive := false;
    }

    /** `elapsedRuntime()`: -1 while inactive; otherwise the milliseconds
        since the recorded start, or NaN if `start()` was never called. */
    method ElapsedRuntime(now: int) returns (r: Num)
      ensures !isActive ==> r == Finite(-1)
      ensures isActive && startTime.Some? ==> r == Finite(now - startTime.value)
      ensures isActive && startTime.None? ==> r.NaN?
    {
      if !isActive {
        return Finite(-1);
      }
      match startTime
      case None => r := NaN;
      case Some(t) => r := Finite(now - t);
    }
  }

  /** Starting a vector does not make it report elapsed time: a new vector
      that has been started still answers -1. */
  method StartedButInactive(startedAt: int, now: int) returns (r: Num)
    ensures r == Finite(-1)
  {
    var v := new AnimatedVector();
    v.Start(startedAt);
    r := v.ElapsedRuntime(now);
  }

  /** Once something outside the class sets `isActive` (the field is public),
      a started vector reports the time since its start, which is never
      negative when the clock has not gone back; `stop()` returns it to -1. */
  method ActivatedThenStopped(startedAt: int, now: int) returns (running: Num, stopped: Num)
    ensures running == Finite(now - startedAt)
    ensures startedAt <= now ==> running.n >= 0
    ensures stopped == Finite(-1)
  {
    var v := new AnimatedVector();
    v.Start(startedAt);
    v.isActive := true;
    running := v.ElapsedRuntime(now);
    v.Stop();
    stopped := v.ElapsedRuntime(now);
  }
}
