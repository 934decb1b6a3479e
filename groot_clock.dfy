/** The tick scheduler of `GrootClock` in src/groot-clock.ts. A one-second
    interval raises the `tic` flag; the next animation frame that sees it
    compares the wall-clock time with the time it saw last and starts a
    0.3-second tween for each hand whose reading changed, checking seconds,
    then minutes, then hours, and stopping at the first that did not change.
    Angles are whole degrees, clockwise being negative; a target of exactly
    zero is replaced by a tween to just short of a full turn, after which a
    completion action snaps a hand's rotation to zero. The tweens are
    returned as records rather than run, and a finished tween is applied by
    `CompleteTween`. */
module Clock {
  import opened JsMath

  const DegPerSec: int := 6
  const DegPerMin: int := 6
  const DegPerHour: int := 30
  const RadPerDeg: real := Pi / 180.0
  const TwoPi: real := 2.0 * Pi
  /** How far short of a full turn a hand stops before snapping to zero. */
  const ZeroGap: real := 0.0001
  /** The length of every hand tween, in seconds. */
  const TweenDuration: real := 0.3

  type Hour = h: int | 0 <= h < 24
  type Sixty = n: int | 0 <= n < 60

  /** The readings of a `Date` that the clock looks at. */
  datatype Time = Time(hours: Hour, minutes: Sixty, seconds: Sixty)

  datatype Hand = SecondHand | MinuteHand | HourHand

  /** A tween's target `rotation.z`: a whole number of degrees, or the stand-in
      `-(2*PI - 0.0001)` used instead of a target of zero. */
  datatype Target = Degrees(deg: int) | ShortOfTurn

  function Radians(t: Target): real
  {
    match t
    case Degrees(d) => d as real * RadPerDeg
    case ShortOfTurn => -(TwoPi - ZeroGap)
  }

  /** One `TweenMax.to(hand.rotation, duration, {z, onComplete})`:
      `onComplete` names the hand whose rotation the completion action sets
      to zero, if there is one. */
  datatype Tween = Tween(hand: Hand, target: Target, duration: real, onComplete: Option<Hand>)

  /** The tween of `hand` towards `deg` degrees. Its target is never zero
      radians: zero is replaced by just short of a full clockwise turn, with
      `snap` reset to zero on completion; any other angle is kept as it is. */
  function HandTween(hand: Hand, deg: int, snap: Hand): (t: Tween)
    ensures t.hand == hand && t.duration == TweenDuration
    ensures deg == 0 <==> t.onComplete == Some(snap)
    ensures deg != 0 <==> t.onComplete == None
    ensures deg == 0 ==> t.target == ShortOfTurn && Radians(t.target) == -(TwoPi - ZeroGap)
    ensures Radians(t.target) != 0.0
    ensures deg != 0 ==> Radians(t.target) == deg as real * RadPerDeg
    ensures deg <= 0 ==> Radians(t.target) < 0.0
  {
    DegreesSign(deg);
    if deg == 0 then Tween(hand, ShortOfTurn, TweenDuration, Some(snap))
    else Tween(hand, Degrees(deg), TweenDuration, None)
  }

  /** A whole number of degrees has the sign of its radians. */
  lemma DegreesSign(deg: int)
    ensures deg < 0 ==> deg as real * RadPerDeg < 0.0
    ensures deg > 0 ==> deg as real * RadPerDeg > 0.0
  {
    if deg < 0 {
      MulPositive(-deg as real, RadPerDeg);
    } else if deg > 0 {
      MulPositive(deg as real, RadPerDeg);
    }
  }

  /** The clockwise angle, in degrees, of each reading. */
  function SecondDegrees(s: Sixty): (d: int)
    ensures -360 < d <= 0 && (d == 0 <==> s == 0)
  {
    s * -DegPerSec
  }

  function MinuteDegrees(m: Sixty): (d: int)
    ensures -360 < d <= 0 && (d == 0 <==> m == 0)
  {
    m * -DegPerMin
  }

  /** The hour angle goes round twice a day: hours 12 to 23 lie a full turn
      or more clockwise. */
  function HourDegrees(h: Hour): (d: int)
    ensures -720 < d <= 0 && (d == 0 <==> h == 0)
    ensures d <= -360 <==> 12 <= h
  {
    h * -DegPerHour
  }

  /** The tweens one update schedules, in the order it starts them, going from
      the previously seen time `prev` to `time`. As written, the hour hand's
      completion action resets the minute hand. */
  function ScheduledTweens(prev: Time, time: Time): seq<Tween>
  {
    if time.seconds == prev.seconds then []
    else
      [HandTween(SecondHand, SecondDegrees(time.seconds), SecondHand)] +
      if time.minutes == prev.minutes then []
      else
        [HandTween(MinuteHand, MinuteDegrees(time.minutes), MinuteHand)] +
        if time.hours == prev.hours then []
        else [HandTween(HourHand, HourDegrees(time.hours), MinuteHand)]
  }

  /** The guard chain: an update with the same seconds schedules nothing;
      the minute hand moves only when the seconds and the minutes both
      changed, and the hour hand only when all three did. The tweens come in
      second, minute, hour order and all last 0.3 seconds. */
  lemma GuardChain(prev: Time, time: Time)
    ensures var tweens := ScheduledTweens(prev, time);
            (tweens == [] <==> time.seconds == prev.seconds) &&
            (|tweens| >= 2 <==> time.seconds != prev.seconds && time.minutes != prev.minutes) &&
            (|tweens| == 3 <==> time.seconds != prev.seconds && time.minutes != prev.minutes && time.hours != prev.hours) &&
            |tweens| <= 3 &&
            (forall i :: 0 <= i < |tweens| ==> tweens[i].duration == TweenDuration) &&
            (|tweens| >= 1 ==> tweens[0].hand == SecondHand) &&
            (|tweens| >= 2 ==> tweens[1].hand == MinuteHand) &&
            (|tweens| >= 3 ==> tweens[2].hand == HourHand)
  {
    var tweens := ScheduledTweens(prev, time);
    if time.seconds != prev.seconds {
      var second := HandTween(SecondHand, SecondDegrees(time.seconds), SecondHand);
      if time.minutes == prev.minutes {
        assert tweens == [second];
      } else {
        var minute := HandTween(MinuteHand, MinuteDegrees(time.minutes), MinuteHand);
        if time.hours == prev.hours {
          assert tweens == [second, minute];
        } else {
          var hour := HandTween(HourHand, HourDegrees(time.hours), MinuteHand);
          assert tweens == [second, minute, hour];
        }
      }
    }
  }

  /** A change of minute (or hour) that arrives with the same seconds reading
      is dropped, and the next update compares against the new time. */
  lemma MinuteChangeWithSameSecondDropped(prev: Time, time: Time)
    requires time.seconds == prev.seconds && time.minutes != prev.minutes
    ensures ScheduledTweens(prev, time) == []
    ensures ScheduledTweens(time, Time(time.hours, time.minutes, (time.seconds + 1) % 60)) ==
            [HandTween(SecondHand, SecondDegrees((time.seconds + 1) % 60), SecondHand)]
  {
  }

  /** Hours 12 to 23 give hour targets a full turn or more clockwise, and
      only hour 0 is special-cased. */
  lemma AfternoonHourTargets(h: Hour)
    requires 12 <= h
    ensures var t := HandTween(HourHand, HourDegrees(h), MinuteHand);
            t.onComplete == None && Radians(t.target) <= -TwoPi
  {
    var d := HourDegrees(h);
    assert d <= -360;
    assert d as real * RadPerDeg <= -360.0 * RadPerDeg by {
      MulNonNegative(-(d as real + 360.0), RadPerDeg);
    }
  }

  // ---------------------------------------------------------------------
  // The hands' rotations

  /** The `rotation.z` of the second, minute and hour hands. */
  datatype Rotations = Rotations(second: real, minute: real, hour: real)

  function RotationOf(r: Rotations, hand: Hand): real
  {
    match hand
    case SecondHand => r.second
    case MinuteHand => r.minute
    case HourHand => r.hour
  }

  function WithRotation(r: Rotations, hand: Hand, z: real): (r': Rotations)
    ensures RotationOf(r', hand) == z
    ensures forall other :: other != hand ==> RotationOf(r', other) == RotationOf(r, other)
  {
    match hand
    case SecondHand => r.(second := z)
    case MinuteHand => r.(minute := z)
    case HourHand => r.(hour := z)
  }

  /** The rotations once `t` has run to its end and its completion action,
      if any, has run. */
  function AfterTween(r: Rotations, t: Tween): (r': Rotations)
    ensures t.onComplete != Some(t.hand) ==> RotationOf(r', t.hand) == Radians(t.target)
    ensures t.onComplete.Some? ==> RotationOf(r', t.onComplete.value) == 0.0
    ensures forall other :: other != t.hand && Some(other) != t.onComplete ==> RotationOf(r', other) == RotationOf(r, other)
  {
    var moved := WithRotation(r, t.hand, Radians(t.target));
    match t.onComplete
    case None => moved
    case Some(snap) => WithRotation(moved, snap, 0.0)
  }

  /** The rotations once `tweens` have all finished, in the order started
      (they all last as long, so they finish in that order). */
  function AfterTweens(r: Rotations, tweens: seq<Tween>): Rotations
    decreases |tweens|
  {
    if tweens == [] then r else AfterTweens(AfterTween(r, tweens[0]), tweens[1..])
  }

  /** The angle a hand shows for `deg` once its tween is over: zero for zero
      (after the snap), otherwise `deg` degrees. */
  function Shown(deg: int): real
  {
    if deg == 0 then 0.0 else deg as real * RadPerDeg
  }

  /** What the hands show once the tweens of an update have finished. Every
      hand that was moved shows its reading, with zero snapped back to zero,
      except when the hour changes to 0: then the hour hand stays just short
      of a full turn, and the minute hand is reset to zero whatever the
      minutes read. Hands that were not moved keep their rotations. */
  lemma {:induction false} SettledHands(prev: Time, time: Time, r: Rotations)
    ensures var z := AfterTweens(r, ScheduledTweens(prev, time));
            var s, m, h := time.seconds != prev.seconds, time.minutes != prev.minutes, time.hours != prev.hours;
            (!s ==> z == r) &&
            (s ==> z.second == Shown(SecondDegrees(time.seconds))) &&
            (s && !m ==> z.minute == r.minute && z.hour == r.hour) &&
            (s && m && !(h && time.hours == 0) ==> z.minute == Shown(MinuteDegrees(time.minutes))) &&
            (s && m && !h ==> z.hour == r.hour) &&
            (s && m && h && time.hours != 0 ==> z.hour == Shown(HourDegrees(time.hours))) &&
            (s && m && h && time.hours == 0 ==> z.hour == -(TwoPi - ZeroGap) && z.minute == 0.0)
  {
    var tweens := ScheduledTweens(prev, time);
    if time.seconds != prev.seconds {
      var second := HandTween(SecondHand, SecondDegrees(time.seconds), SecondHand);
      var r1 := AfterTween(r, second);
      if time.minutes == prev.minutes {
        assert tweens == [second];
        assert AfterTweens(r, tweens) == AfterTweens(r1, []);
      } else {
        var minute := HandTween(MinuteHand, MinuteDegrees(time.minutes), MinuteHand);
        var r2 := AfterTween(r1, minute);
        if time.hours == prev.hours {
          assert tweens == [second, minute];
          assert tweens[1..] == [minute] && [minute][1..] == [];
          assert AfterTweens(r, tweens) == AfterTweens(r2, []);
        } else {
          var hour := HandTween(HourHand, HourDegrees(time.hours), MinuteHand);
          assert tweens == [second, minute, hour];
          assert tweens[1..] == [minute, hour] && [minute, hour][1..] == [hour] && [hour][1..] == [];
          calc {
            AfterTweens(r, tweens);
            AfterTweens(r1, [minute, hour]);
            AfterTweens(r2, [hour]);
            AfterTweens(AfterTween(r2, hour), []);
          }
        }
      }
    }
  }

  /** After midnight the hour hand rests just short of a full turn, and at
      one o'clock its tween to -30 degrees turns it back anticlockwise by
      more than half a turn. */
  lemma HourHandAfterMidnight(r: Rotations)
    ensures var midnight := AfterTweens(r, ScheduledTweens(Time(23, 59, 59), Time(0, 0, 0)));
            midnight == Rotations(0.0, 0.0, -(TwoPi - ZeroGap)) &&
            var one := ScheduledTweens(Time(0, 59, 59), Time(1, 0, 0));
            |one| == 3 && one[2].hand == HourHand &&
            Radians(one[2].target) - midnight.hour > Pi
  {
    SettledHands(Time(23, 59, 59), Time(0, 0, 0), r);
    GuardChain(Time(0, 59, 59), Time(1, 0, 0));
  }

  // ---------------------------------------------------------------------
  // The clock

  class GrootClock {
    var prevTime: Time
    var tic: bool
    var secondZ: real
    var minuteZ: real
    var hourZ: real

    function Hands(): Rotations
      reads this
    {
      Rotations(secondZ, minuteZ, hourZ)
    }

    /** The previous time starts at 00:00:00 (of today, which the clock never
        looks at), the flag is down and the hands point at twelve. */
    constructor ()
      ensures prevTime == Time(0, 0, 0) && !tic
      ensures Hands() == Rotations(0.0, 0.0, 0.0)
    {
      prevTime := Time(0, 0, 0);
      tic := false;
      secondZ, minuteZ, hourZ := 0.0, 0.0, 0.0;
    }

    /** `updateHandPositions()` at the wall-clock time `time`: starts the
        tweens of `ScheduledTweens` and, on every path (the `finally`),
        remembers `time`. */
    method UpdateHandPositions(time: Time) returns (tweens: seq<Tween>)
      modifies this
      ensures tweens == ScheduledTweens(old(prevTime), time)
      ensures prevTime == time && tic == old(tic) && Hands() == old(Hands())
    {
      tweens := [];
      if time.seconds != prevTime.seconds {
        tweens := tweens + [HandTween(SecondHand, SecondDegrees(time.seconds), SecondHand)];
        if time.minutes != prevTime.minutes {
          tweens := tweens + [HandTween(MinuteHand, MinuteDegrees(time.minutes), MinuteHand)];
          if time.hours != prevTime.hours {
            tweens := tweens + [HandTween(HourHand, HourDegrees(time.hours), MinuteHand)];
          }
        }
      }
      prevTime := time;
    }

    /** `animate()` at time `now`: when the flag is up, updates the hands and
        lowers it; otherwise does nothing. */
    method Animate(now: Time) returns (tweens: seq<Tween>)
      modifies this
      ensures !tic && Hands() == old(Hands())
      ensures old(tic) ==> tweens == ScheduledTweens(old(prevTime), now) && prevTime == now
      ensures !old(tic) ==> tweens == [] && prevTime == old(prevTime)
    {
      tweens := [];
      if tic {
        tweens := UpdateHandPositions(now);
        tic := false;
      }
    }

    /** The `setInterval` callback: raises the flag and nothing else. */
    method IntervalTick()
      modifies this
      ensures tic && prevTime == old(prevTime) && Hands() == old(Hands())
    {
      tic := true;
    }

    /** A tween runs to its end and its completion action runs. */
    method CompleteTween(t: Tween)
      modifies this
      ensures Hands() == AfterTween(old(Hands()), t)
      ensures prevTime == old(prevTime) && tic == old(tic)
    {
      SetRotation(t.hand, Radians(t.target));
      if t.onComplete.Some? {
        SetRotation(t.onComplete.value, 0.0);
      }
    }

    /** `hand.rotation.z = z`. */
    method SetRotation(hand: Hand, z: real)
      modifies this
      ensures Hands() == WithRotation(old(Hands()), hand, z)
      ensures prevTime == old(prevTime) && tic == old(tic)
    {
      match hand
      case SecondHand => secondZ := z;
      case MinuteHand => minuteZ := z;
      case HourHand => hourZ := z;
    }
  }

  /** Interval ticks that arrive between two frames are merged: the first
      frame runs one update, and the next frame, with no tick in between,
      schedules nothing even though the time moved on. */
  method TicksCoalesce(first: Time, later: Time) returns (atFirst: seq<Tween>, atLater: seq<Tween>)
    ensures atFirst == ScheduledTweens(Time(0, 0, 0), first)
    ensures atLater == []
  {
    var clock := new GrootClock();
    clock.IntervalTick();
    clock.IntervalTick();
    atFirst := clock.Animate(first);
    atLater := clock.Animate(later);
  }

  /** The first update after construction compares against 00:00:00, so a
      start at a time whose seconds read 0 schedules no tween at all, and
      the hands stay at twelve until the next second. */
  method FirstUpdateAtZeroSeconds(time: Time) returns (tweens: seq<Tween>, hands: Rotations)
    requires time.seconds == 0
    ensures tweens == [] && hands == Rotations(0.0, 0.0, 0.0)
  {
    var clock := new GrootClock();
    tweens := clock.UpdateHandPositions(time);
    hands := clock.Hands();
  }
}
