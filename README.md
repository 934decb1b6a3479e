# Groot clock: procedural lines and the clock-hand scheduler in Dafny

This project models the two parts of the Groot clock that contain decisions
worth stating: the procedural-geometry helpers of `src/util.ts` and the
tick scheduler of `GrootClock` in `src/groot-clock.ts`.

- **Random helpers** (`random.dfy`, module `Random`): `random`, `flipCoin`,
  `randomColor` and `randomPointInCircle`. Each one is a function of the
  `Math.random()` draws it consumes. A draw is a real number in [0, 1).
- **Colour gradients** (`color_gradient.dfy`, module `ColorGradient`).
  - `createColorGradientBufferAttribute` fills a flat channel buffer slot
    by slot. The running colour is the caller's `startColor`, so the
    function also moves the caller's colour. Each step of 1/segments starts
    from the last step's result instead of from the start colour. When start
    and end are the same object, every step aims at the moving colour itself.
  - `createColorGradientBufferAttribute1` splits the stops into
    sub-gradients and pads the tail with the last stop. With no stops and
    at least one slot, it throws.
  - `Color` is a class whose channels `lerpHSL` overwrites in place. The
    HSL interpolation belongs to three.js and is passed in as a function.
- **Lines and circles** (`shapes.dfy`, module `Shapes`).
  - The anchor loops of `createLine` (`segmentCount + 1` anchors, each
    coordinate perturbed) and of `createCircle` (`segmentCount` anchors,
    ascending or descending after a coin flip).
  - The branch both use to pick either a gradient buffer on the geometry or
    a flat colour on the material.
  - Curve fitting is a function passed in, because it belongs to three.js.
- **AnimatedVector** (`animated_vector.dfy`, module `AnimatedVectors`): the
  `isActive` / `startTime` state with `start`, `stop` and `elapsedRuntime`.
- **Clock** (`groot_clock.dfy`, module `Clock`): the `GrootClock` state
  machine.
  - State: the last observed time and the `tic` flag raised by the
    one-second interval.
  - `animate` consumes the flag. `updateHandPositions` returns the tweens it
    starts, as records of hand, target, duration and completion snap.
  - `CompleteTween` applies a finished tween and its completion action to
    the hands' rotations.
  - Angles are whole degrees (clockwise is negative). Radians are the
    degrees times `PI / 180`.
- **JavaScript numbers** (`jsmath.dfy`, module `JsMath`): `Math.PI`,
  `Math.cos`, `Math.sin` and `Math.sqrt`. The three functions are
  uninterpreted, with only the laws the proofs use: cos² + sin² = 1, and
  sqrt is a non-negative square root.

Where the code and its own documentation disagree, the model follows the
code:

- `flipCoin` is not a fair coin. It returns 0 exactly when the draw is
  below 250/499 (`Random.FlipCoin`).
- Zeroing the previous time in the constructor does not make the first
  update register. If the current seconds also read 0, nothing is
  scheduled (`Clock.FirstUpdateAtZeroSeconds`).
- The hour hand's zero-crossing completion resets the minute hand. The
  hour hand is left just short of a full turn, and at one o'clock it sweeps
  back by more than half a turn (`Clock.HourHandAfterMidnight`).
- The gradient compounds its steps of 1/segments. With one segment the
  single step is the whole way and lands on the end colour. With two or
  more segments and two different colours, a per-channel linear
  interpolation never reaches the end colour at any step
  (`ColorGradient.LinearRampFallsShort`). Whether three.js's HSL
  interpolation behaves the same is not proved here. A buffer for zero
  segments is simply empty.

## Model

| member | source | states |
|---|---|---|
| Random.Rand | src/util.ts:39-41 | `random(min, max)` equals min when the bounds agree, lies in [min, max) when min < max, and lies in (max, min] when the bounds are reversed. |
| Random.RandSymmetricBound | src/util.ts:39-41 | `random(-p, p)` never moves more than \|p\| from zero. This is the bound behind every perturbation. |
| Random.FlipCoin | src/util.ts:34-36 | Returns only 0 or 1, and returns 0 exactly when the draw is below 250/499. |
| Random.RandomColor | src/util.ts:44-46 | Each channel of a random colour is its own draw, so each channel lies in [0, 1). |
| Random.RadialDistance | src/util.ts:51 | The radial distance sqrt(u)·radius lies in [0, radius] for a non-negative radius, and its square is u·radius². |
| Random.RandomPointInCircle | src/util.ts:49-55 | The point is (x, y) moved by sqrt(u)·radius along the drawn angle. With radius 0 it is exactly (x, y). |
| Random.PointInCircleWithinRadius | src/util.ts:49-55 | The point's squared distance from (x, y) is u·radius² and at most radius², so it lies in the disc. |
| ColorGradient.Color.constructor | src/util.ts:289 | `new Color(c)` copies the channels of c. |
| ColorGradient.Color.LerpHsl | src/util.ts:264 | `lerpHSL` replaces this colour by the interpolation of its old value towards the target's old value. This also holds when the target is this colour. |
| ColorGradient.CreateColorGradientBufferAttribute | src/util.ts:256-272 | The buffer has 3·segments channels. Triple k is the start colour after k+1 compounded steps of 1/segments towards the end colour, each step aiming at the moving colour when start and end are one object. The caller's start colour ends as the last triple written. |
| ColorGradient.LerpIncrement | src/util.ts:259 | `lerpInc = 1.0 / segments` (also src/util.ts:279) lies in [0, 1], and segments steps of it add up to exactly 1 whenever there is a segment. |
| ColorGradient.Ramp | src/util.ts:262-269 | The running colour after k steps of the loop: each step interpolates the previous result towards the end colour, or towards itself when start and end are one object. It is also the inner loop of src/util.ts:291-300. |
| ColorGradient.SelfRampIsFlat | src/util.ts:261-264 | When start and end are the same colour object and lerping a colour to itself changes nothing, every triple equals the start colour. |
| ColorGradient.LinearRampStaysOff | src/util.ts:262-264 | With an interpolation that is linear in each channel and a step below 1, the compounded ramp between two different colours is never the end colour, at any step. |
| ColorGradient.LinearRampFallsShort | src/util.ts:259-269 | With a linear interpolation, two or more segments and two different colours, no triple of the buffer is the end colour. |
| ColorGradient.LinearSingleStepArrives | src/util.ts:259-264 | With one segment the step is 1, and a linear interpolation reaches the end colour in that single step. |
| ColorGradient.BreakSlot | src/util.ts:286-310 | The colour slot s of the multi-stop buffer holds: its sub-gradient's compounded ramp from a copy of the sub-gradient's start stop while s is below breaks·perBreak, and the last stop after that. |
| ColorGradient.Breaks | src/util.ts:280 | `colorBreakPts` is fewer than the stops and at most `segments`, and equals one of stops−1 and `segments`. |
| ColorGradient.SlotsPerBreak | src/util.ts:281 | When there is a sub-gradient, `segmentsPerBreak` is the floor of segments/breaks: perBreak·breaks ≤ segments < (perBreak+1)·breaks. |
| ColorGradient.GradientSlots | src/util.ts:280-281 | The sub-gradients, Math.min(stops−1, segments) of them with floor(segments/breaks) slots each, never cover more than `segments` slots. |
| ColorGradient.CreateColorGradientBufferAttribute1 | src/util.ts:275-313 | It throws exactly when there are no stops and at least one slot. Otherwise it writes all 3·segments channels, and slot s holds its sub-gradient's compounded ramp or, past the sub-gradients, the last stop. |
| ColorGradient.FillBreaks | src/util.ts:286-301 | The outer loop writes exactly the first breaks·perBreak slots and leaves the rest of the buffer as it was. Each slot holds stop i after j+1 steps towards stop i+1, where i and j are the slot's sub-gradient and its position in it. |
| ColorGradient.FillRamp | src/util.ts:289-300 | The inner loop writes `count` consecutive triples of the ramp from a copy of the start stop, and keeps every earlier and every later triple. |
| ColorGradient.WriteSlot | src/util.ts:295-297 | Writing one colour's channels sets that triple and leaves every other triple as it was. |
| ColorGradient.GradientTail | src/util.ts:303-310 | Every slot from breaks·perBreak up to `segments` holds the last stop. With a single stop, that is every slot. |
| ColorGradient.TwoStopsIsPairGradient | src/util.ts:275-301 | With two stops, the multi-stop gradient equals the two-colour gradient between distinct colour objects. |
| Shapes.SegmentStep | src/util.ts:163-166 | The offset between neighbouring centre-line points, length/segmentCount along the angle. Its length is stated by SegmentStepLength. |
| Shapes.LineAnchor | src/util.ts:170-172 | Anchor i is the i-th centre-line point moved by one draw in x and then one in y. LineAnchorNearCentreLine bounds the move. |
| Shapes.LineAnchors | src/util.ts:168-173 | `createLine` builds exactly segmentCount+1 anchors. |
| Shapes.SegmentPoints | src/util.ts:162-173 | The loop pushes anchor i as origin + i·(deltaX, deltaY) plus the x draw 2i and the y draw 2i+1, for every i up to segmentCount. |
| Shapes.LineAnchorNearCentreLine | src/util.ts:168-173 | Each anchor lies within \|perturbance\| of its centre-line point in x and in y. |
| Shapes.SegmentStepLength | src/util.ts:163-166 | Neighbouring centre-line points are length/segmentCount apart. |
| Shapes.UnperturbedLineEnds | src/util.ts:163-173 | With perturbance 0, the first anchor is the origin exactly, and the last is the origin moved by length along the angle. |
| Shapes.SegmentRads | src/util.ts:211 | segmentCount steps of the angle step make exactly one full turn, 2π. |
| Shapes.Ascending | src/util.ts:214 | The `if (flipCoin())` test: the anchors go counter-clockwise exactly when the coin gives 1. FlipCoin states when that happens. |
| Shapes.AngleIndex | src/util.ts:214-228 | The k-th anchor pushed uses an angle index below segmentCount. |
| Shapes.CircleAnchors | src/util.ts:214-228 | `createCircle` builds exactly segmentCount anchors. |
| Shapes.CirclePoints | src/util.ts:210-228 | The loops push, in draw order, the anchor at angle index k when `flipCoin()` gave 1, or at segmentCount−1−k otherwise. Each anchor's radius is perturbed by draw k+1. |
| Shapes.CircleAnchor | src/util.ts:216-219 | The anchor at an angle index lies in the origin's plane. With sound trigonometry it lies exactly its perturbed radius, radius + random(−p, p), from the origin. |
| Shapes.EachAngleOnce | src/util.ts:214-228 | In either direction, the angle-index map is its own inverse and one-to-one, so every index is used exactly once. |
| Shapes.DescendingReversesAscending | src/util.ts:214-228 | The descending order visits the ascending order's angle indices in reverse. |
| Shapes.CircleAnchorOnCircle | src/util.ts:214-228 | Every anchor has z = origin.z. Its squared distance from the origin is the perturbed radius squared, and that radius lies in [radius−\|p\|, radius+\|p\|]. When \|p\| ≤ radius, every anchor lies in the ring between those two radii. |
| Shapes.LineMaterial.constructor | src/util.ts:187 | A new basic material has the given width, a fresh white colour, and no vertex colours. |
| Shapes.PlanePositions | src/util.ts:177 | Geometry built from 2D points keeps each point's x and y and puts it at z = 0. |
| Shapes.ColorLine | src/util.ts:179-193 | A colour pair attaches a fresh gradient buffer sized to the vertex count and turns on vertex colours. It leaves the pair's start colour at the ramp's last step, and keeps the material's colour: the one passed in, or a fresh white one. A single colour attaches no buffer, becomes the material's colour object, and leaves vertex colours as the material had them (off on a new one). The material is the one passed in with its width kept, or a new one of the given width. |
| Shapes.CreateLine | src/util.ts:158-201 | The line's geometry is the fit of the anchors (asked for as many divisions as there are anchors). It sits at z = origin.z and is open. It is coloured as in ColorLine over its own vertex count, with every clause of ColorLine restated: the buffer, the start colour's new value, the material's colour, width and vertex-colour flag. |
| Shapes.CreateCircle | src/util.ts:205-254 | The circle's geometry is the closed fit of its anchors at 360 divisions. It is a loop at z = 0, coloured as in ColorLine over its own vertex count, with the same clauses as CreateLine. |
| AnimatedVectors.AnimatedVector.constructor | src/util.ts:9-10 | A new vector is inactive and has no start time. |
| AnimatedVectors.AnimatedVector.Start | src/util.ts:15-17 | `start()` records the time and leaves `isActive` as it was. |
| AnimatedVectors.AnimatedVector.Stop | src/util.ts:19-21 | `stop()` makes the vector inactive and keeps its start time. |
| AnimatedVectors.AnimatedVector.ElapsedRuntime | src/util.ts:27-30 | It returns −1 whenever the vector is inactive. When active it returns now − startTime, or NaN if never started. |
| AnimatedVectors.StartedButInactive | src/util.ts:15-30 | A new vector that has been started still reports −1. |
| AnimatedVectors.ActivatedThenStopped | src/util.ts:9-30 | Once `isActive` is set from outside, the vector reports the time since start, which is non-negative when time does not go back. After `stop()` it reports −1 again. |
| Clock.HandTween | src/groot-clock.ts:181-190 | A hand tween lasts 0.3 s and never targets 0 radians. A zero angle becomes −(2π − 0.0001) with a snap to zero on completion, and only a zero angle gets a snap. Any other angle is kept as degrees·π/180, and a non-positive angle always gives a negative target. |
| Clock.Radians | src/groot-clock.ts:181-184 | A target's `rotation.z`: degrees·π/180, or −(2π − 0.0001) for the stand-in of a zero angle. DegreesSign and HandTween state its sign. |
| Clock.SecondDegrees | src/groot-clock.ts:181 | The second hand's angle lies in (−360, 0] degrees, and is 0 exactly at second 0. |
| Clock.MinuteDegrees | src/groot-clock.ts:195 | The minute hand's angle lies in (−360, 0] degrees, and is 0 exactly at minute 0. |
| Clock.HourDegrees | src/groot-clock.ts:210 | The hour hand's angle lies in (−720, 0] degrees and is 0 exactly at hour 0. It is a full turn or more clockwise exactly for hours 12 to 23. |
| Clock.ScheduledTweens | src/groot-clock.ts:173-219 | The tweens one update starts, in order: second, then minute, then hour, each only when its reading and every earlier one changed. GuardChain states this. |
| Clock.DegreesSign | src/groot-clock.ts:181 | The radian angle has the sign of its degrees, so the code's test for a zero radian angle is a test for zero degrees. |
| Clock.GuardChain | src/groot-clock.ts:173-222 | The update schedules nothing exactly when the seconds are unchanged. It schedules a minute tween exactly when the seconds and minutes both changed, and an hour tween exactly when all three changed. Tweens come in second, minute, hour order, at most three, all lasting 0.3 s. |
| Clock.MinuteChangeWithSameSecondDropped | src/groot-clock.ts:175-194 | A minute change that arrives with an unchanged second schedules nothing. The next second then moves only the second hand. |
| Clock.AfternoonHourTargets | src/groot-clock.ts:208-215 | Hours 12 to 23 give hour targets at or beyond −2π, with no snap. Only hour 0 is special-cased. |
| Clock.WithRotation | src/groot-clock.ts:185 | Setting one hand's rotation changes that hand only. |
| Clock.AfterTween | src/groot-clock.ts:187-219 | A finished tween leaves its hand at the target unless its own completion snaps that hand, as with the hour tween at hour 0, which resets the minute hand instead. A completion snap sets the named hand to 0, and every other hand keeps its rotation. |
| Clock.SettledHands | src/groot-clock.ts:170-223 | Once an update's tweens finish, each moved hand shows its reading, with zero snapped to 0, and unmoved hands keep their rotation. When the hour changes to 0, the hour hand stays at −(2π − 0.0001) and the minute hand reads 0 whatever the minutes are. |
| Clock.HourHandAfterMidnight | src/groot-clock.ts:206-219 | At 00:00:00 the hands settle at (0, 0, −(2π − 0.0001)). The hour tween at 01:00:00 then moves the hour hand back anticlockwise by more than π. |
| Clock.GrootClock.constructor | src/groot-clock.ts:43-46 | The previous time starts at 00:00:00, `tic` is false, and the hands are at 0. |
| Clock.GrootClock.UpdateHandPositions | src/groot-clock.ts:170-223 | It starts exactly the tweens of ScheduledTweens(previous time, now). It always replaces the previous time by now (the `finally`) and touches nothing else. |
| Clock.GrootClock.Animate | src/groot-clock.ts:161-168 | With `tic` up it runs one update and lowers the flag. With `tic` down it schedules nothing and keeps the previous time. The hands are untouched either way. |
| Clock.GrootClock.IntervalTick | src/groot-clock.ts:228 | The interval callback raises `tic` and changes nothing else. |
| Clock.GrootClock.CompleteTween | src/groot-clock.ts:185-219 | Completing a tween sets the hands to AfterTween of their old rotations. |
| Clock.GrootClock.SetRotation | src/groot-clock.ts:185 | `hand.rotation.z = z` sets that hand only. |
| Clock.TicksCoalesce | src/groot-clock.ts:161-228 | Two interval ticks before one frame produce one update. The next frame without a tick schedules nothing. |
| Clock.FirstUpdateAtZeroSeconds | src/groot-clock.ts:43-175 | The first update after construction, at a time whose seconds read 0, schedules nothing and leaves the hands at 0. |

## Left out

- Curve fitting and resampling (`SplineCurve`, `CatmullRomCurve3`, `getPoints`) belong to three.js. They are a function parameter, and the number or closure of the fitted points is not stated.
- `BufferGeometry`, `BufferAttribute` (item size 3), `Line`/`LineLoop` rendering, `addAttribute` and `computeLineDistances` are three.js internals. The model keeps only the positions, the colour buffer, the material and the line's z.
- `Float32Array` stores single-precision floats, but the model stores exact reals. Floating-point rounding of `Math.PI`, of trigonometry and of every sum is not modelled.
- `Color.lerpHSL` is an opaque function argument, and no closeness of colours is claimed. `Color` keeps only its three channels. The lemmas about whether the ramp reaches the end colour use a reference interpolation that is linear in each channel. The conversion to and from HSL around three.js's interpolation is not modelled.
- `Math.random`, `Date.now`/`new Date()` and `setInterval` are replaced by explicit draws, times and calls. Only the hours, minutes and seconds of a `Date` are kept.
- Default arguments (width 1, a random colour, perturbance 0, 1 or 360 segments, start angle 0) are not modelled, because every caller of the model passes all arguments. `randomColor` is modelled on its own.
- Shapes.LineAnchors: requires at least one segment. With `segmentCount` 0 JavaScript computes 0·Infinity = NaN for the single anchor, and reals have no NaN. Shapes.SegmentStep, Shapes.SegmentPoints and Shapes.CreateLine carry the same requirement. Fractional segment counts are not modelled either.
- Shapes.SegmentRads: with zero segments JavaScript gives Infinity, but no anchor reads it, so the model uses 0.
- ColorGradient.LerpIncrement: with zero segments JavaScript gives Infinity, but no step uses it, so the model uses 0. Likewise ColorGradient.SlotsPerBreak uses 0 where JavaScript gives NaN, Infinity or a negative count that no loop reads.
- `console.log` in `createColorGradientBufferAttribute1` is left out, and so is the unused `curveType` constant in `createCircle`.
- GSAP `TweenMax` interpolation is not modelled, only a tween's end. Tweens are assumed to finish in the order they start, since all of them last 0.3 s. Overlapping tweens on one hand are not modelled.
- `super.animate()` (the render loop), `initThree`, `populateScene`, `start` and the `#cover` fade are scene and DOM work. The unused `secAngle`/`minAngle`/`hourAngle` fields and `HOUR_DEG_PER_MIN` are left out too.
- AnimatedVector's coordinates, `velocity`, `colorFadeOutRate` and `color` are plain data that no method reads or writes.
- `createImageData`, `createCircleTexture`, `addClassToBody`, `removeClassFromBody` and the `RGB_COLORS` table are DOM and asset code.
- The demo scenes (src/lines.ts, src/circles.ts, src/animatedcircle.ts, src/animatedline.ts, src/crooked-lines-example.ts, src/tree.ts, src/index.ts) and src/three.component.ts are not part of this model.
- `create2DLine`, `create2DCircle` and `ThreeUtils` are imported by src/groot-clock.ts and the demo scenes. They do not exist in src/util.ts and are not part of this model.
