/** The colour-gradient buffers of src/util.ts. A three.js `Color` is an
    object whose channels `lerpHSL` overwrites in place; the HSL
    interpolation itself belongs to three.js and is passed in as a function
    of the current colour, the target colour and the fraction. */
module ColorGradient {
  import opened JsMath
  import opened Random

  /** `Color.lerpHSL(target, alpha)`, seen as a function of the two colours'
      current values and `alpha`. */
  type HslLerp = (Rgb, Rgb, real) -> Rgb

  class Color {
    var r: real
    var g: real
    var b: real

    constructor (c: Rgb)
      ensures Value() == c
    {
      r, g, b := c.r, c.g, c.b;
    }

    function Value(): Rgb
      reads this
    {
      Rgb(r, g, b)
    }

    /** Moves this colour towards `target` by `alpha`; `target` may be this
        very object, in which case its value before the call is used. */
    method LerpHsl(target: Color, alpha: real, lerp: HslLerp)
      modifies this
      ensures Value() == lerp(old(Value()), old(target.Value()), alpha)
    {
      var c := lerp(Value(), target.Value(), alpha);
      r, g, b := c.r, c.g, c.b;
    }
  }

  /** The step `1.0 / segments`. With no segments the step is never used
      (JavaScript computes Infinity there). */
  function LerpIncrement(segments: nat): (inc: real)
    ensures 0.0 <= inc <= 1.0
    ensures 0 < segments ==> inc * segments as real == 1.0
  {
    if segments == 0 then 0.0 else 1.0 / segments as real
  }

  /** The colour after `k` compounded `lerpHSL` steps from `start`, each one
      taken from the previous result, not from `start`. When the target is
      the moving colour itself (`tracking`), every step aims at the current
      value. */
  function Ramp(lerp: HslLerp, start: Rgb, target: Rgb, tracking: bool, alpha: real, k: nat): Rgb
  {
    if k == 0 then start
    else
      var prev := Ramp(lerp, start, target, tracking, alpha, k - 1);
      lerp(prev, if tracking then prev else target, alpha)
  }

  /** When the start and end colour are the same object, and moving a
      colour towards itself leaves it as it is (as any interpolation does),
      the ramp never leaves the start colour: the buffer is flat. */
  lemma {:induction false} SelfRampIsFlat(lerp: HslLerp, start: Rgb, target: Rgb, alpha: real, k: nat)
    requires forall c: Rgb, a: real :: lerp(c, c, a) == c
    ensures Ramp(lerp, start, target, true, alpha, k) == start
  {
    if k > 0 {
      SelfRampIsFlat(lerp, start, target, alpha, k - 1);
    }
  }

  /** A reference interpolation that is linear in each channel,
      `a + (b - a) * t`. three.js interpolates hue, saturation and lightness
      this way; the colour-space conversion around it is not modelled, so
      facts proved with this function describe the compounding of the steps,
      not three.js's exact colours. */
  function LinearLerp(a: Rgb, b: Rgb, t: real): Rgb
  {
    Rgb(a.r + (b.r - a.r) * t, a.g + (b.g - a.g) * t, a.b + (b.b - a.b) * t)
  }

  /** One channel of a linear step of `t` from `c` towards `target`: if
      `c` was off the target and `t` stops short of the whole way, so is the
      result. */
  lemma LinearStepStaysOff(c: real, target: real, t: real)
    requires c != target && t < 1.0
    ensures c + (target - c) * t != target
  {
    NonZeroProduct(1.0 - t, c - target);
    var next := c + (target - c) * t;
    calc {
      next - target;
      (c - target) - (c - target) * t;
      (1.0 - t) * (c - target);
    }
  }

  /** With a linear interpolation and a step `alpha` below 1, the compounded
      ramp between two different colours never arrives at the end colour. */
  lemma {:induction false} LinearRampStaysOff(start: Rgb, target: Rgb, alpha: real, k: nat)
    requires start != target && alpha < 1.0
    ensures Ramp(LinearLerp, start, target, false, alpha, k) != target
  {
    if k > 0 {
      LinearRampStaysOff(start, target, alpha, k - 1);
      var prev := Ramp(LinearLerp, start, target, false, alpha, k - 1);
      var c := Ramp(LinearLerp, start, target, false, alpha, k);
      assert c == LinearLerp(prev, target, alpha);
      if prev.r != target.r {
        LinearStepStaysOff(prev.r, target.r, alpha);
      } else if prev.g != target.g {
        LinearStepStaysOff(prev.g, target.g, alpha);
      } else {
        LinearStepStaysOff(prev.b, target.b, alpha);
      }
    }
  }

  /** Hence with two or more segments the buffer written by
      `createColorGradientBufferAttribute` between two different colour
      objects holding different colours never holds the end colour. */
  lemma LinearRampFallsShort(start: Rgb, target: Rgb, segments: nat, k: nat)
    requires 2 <= segments && start != target
    ensures Ramp(LinearLerp, start, target, false, LerpIncrement(segments), k) != target
  {
    LinearRampStaysOff(start, target, LerpIncrement(segments), k);
  }

  /** With a single segment the step is the whole way, `1.0`, and a linear
      interpolation lands on the end colour at once. */
  lemma LinearSingleStepArrives(start: Rgb, target: Rgb)
    ensures Ramp(LinearLerp, start, target, false, LerpIncrement(1), 1) == target
  {
  }

  /** Triple `k` of a flat buffer, read back as a colour. */
  function TripleAt(s: seq<real>, k: nat): Rgb
    requires 3 * k + 3 <= |s|
  {
    Rgb(s[3 * k], s[3 * k + 1], s[3 * k + 2])
  }

  /** `createColorGradientBufferAttribute(startColor, endColor, segments)`.
      The running colour is `startColor` itself, so the caller's colour is
      moved along the ramp: triple `k` is the start colour after `k + 1`
      steps of `1 / segments` towards the end colour, and afterwards
      `startColor` holds the last colour written. */
  method CreateColorGradientBufferAttribute(startColor: Color, endColor: Color, segments: nat, lerp: HslLerp)
    returns (colors: array<real>)
    modifies startColor
    ensures fresh(colors) && colors.Length == 3 * segments
    ensures forall t :: 0 <= t < segments ==>
      TripleAt(colors[..], t) == Ramp(lerp, old(startColor.Value()), old(endColor.Value()),
                                      startColor == endColor, LerpIncrement(segments), t + 1)
    ensures startColor.Value() == Ramp(lerp, old(startColor.Value()), old(endColor.Value()),
                                       startColor == endColor, LerpIncrement(segments), segments)
    ensures segments > 0 ==> TripleAt(colors[..], segments - 1) == startColor.Value()
  {
    ghost var start, target, tracking := startColor.Value(), endColor.Value(), startColor == endColor;
    var colorCnt := segments * 3;
    colors := new real[colorCnt];
    var lerpInc := LerpIncrement(segments);

    var lerpColor := startColor;
    var i := 0;
    ghost var k := 0;
    while i < colorCnt
      invariant 0 <= i <= colorCnt && i == 3 * k
      invariant lerpColor == startColor
      invariant !tracking ==> endColor.Value() == target
      invariant lerpColor.Value() == Ramp(lerp, start, target, tracking, lerpInc, k)
      invariant forall t :: 0 <= t < k ==> TripleAt(colors[..], t) == Ramp(lerp, start, target, tracking, lerpInc, t + 1)
    {
      ghost var before := lerpColor.Value();
      assert endColor.Value() == if tracking then before else target;
      lerpColor.LerpHsl(endColor, lerpInc, lerp);
      WriteSlot(colors, i / 3, lerpColor.Value(), Ramp(lerp, start, target, tracking, lerpInc, k + 1));
      i, k := i + 3, k + 1;
    }
  }

  /** The number of sub-gradients of `createColorGradientBufferAttribute1`:
      one per pair of neighbouring stops, but no more than there are slots. */
  function Breaks(stopCount: nat, segments: nat): (breaks: int)
    ensures breaks < stopCount && breaks <= segments
    ensures breaks == stopCount - 1 || breaks == segments
  {
    Min(stopCount - 1, segments)
  }

  /** Slots per sub-gradient, `Math.floor(segments / breaks)`. JavaScript also
      divides when there are no breaks (giving NaN, Infinity or -segments),
      but the value is then never read; 0 stands for it here. */
  function SlotsPerBreak(stopCount: nat, segments: nat): (perBreak: nat)
    ensures var breaks := Breaks(stopCount, segments);
            0 < breaks ==> perBreak * breaks <= segments < (perBreak + 1) * breaks
  {
    var breaks := Breaks(stopCount, segments);
    if breaks > 0 then segments / breaks else 0
  }

  /** The slots the sub-gradients fill, `breaks * perBreak`. */
  function GradientSlots(stopCount: nat, segments: nat): (n: nat)
    ensures n <= segments
  {
    var breaks := Breaks(stopCount, segments);
    if breaks > 0 then FloorProductAtMost(segments, breaks); breaks * SlotsPerBreak(stopCount, segments) else 0
  }

  lemma FloorProductAtMost(n: nat, d: nat)
    requires 0 < d
    ensures 0 <= d * (n / d) <= n
  {
    assert n == d * (n / d) + n % d;
  }

  /** Slot `s` of `createColorGradientBufferAttribute1`: the stops are split
      into sub-gradients of `SlotsPerBreak` slots each, every one compounding
      steps of `1 / segments` from its stop towards the next; the slots after
      them hold the last stop. */
  function BreakSlot(stops: seq<Rgb>, segments: nat, lerp: HslLerp, s: nat): Rgb
    requires s < segments && stops != []
  {
    var perBreak := SlotsPerBreak(|stops|, segments);
    if s < GradientSlots(|stops|, segments) then
      BreakSlotInRange(s, Breaks(|stops|, segments), perBreak);
      Ramp(lerp, stops[s / perBreak], stops[s / perBreak + 1], false, LerpIncrement(segments), s % perBreak + 1)
    else stops[|stops| - 1]
  }

  lemma BreakSlotInRange(s: nat, breaks: int, perBreak: nat)
    requires 0 < breaks && s < breaks * perBreak
    ensures perBreak > 0 && s / perBreak < breaks
  {
  }

  lemma NextBreakWithin(i: nat, breaks: nat, perBreak: nat)
    requires i < breaks
    ensures (i + 1) * perBreak == i * perBreak + perBreak <= breaks * perBreak
  {
  }

  /** Slot `j` of sub-gradient `i` is slot `i * perBreak + j` overall. */
  lemma SlotOfBreak(i: nat, j: nat, perBreak: nat)
    requires j < perBreak
    ensures (i * perBreak + j) / perBreak == i && (i * perBreak + j) % perBreak == j
  {
    var n := i * perBreak + j;
    var q, r := n / perBreak, n % perBreak;
    assert n == perBreak * q + r && 0 <= r < perBreak;
    assert perBreak * (q - i) == j - r;
    MultipleBelowFactorIsZero(perBreak, q - i);
  }

  lemma MultipleBelowFactorIsZero(d: int, x: int)
    requires 0 < d && -d < d * x < d
    ensures x == 0
  {
  }

  lemma BreakPrefixBelow(i: nat, j: nat, breaks: nat, perBreak: nat)
    requires i < breaks && j < perBreak
    ensures i * perBreak + j < breaks * perBreak
  {
    assert (i + 1) * perBreak <= breaks * perBreak;
  }

  /** The slots of sub-gradient `i` start at `from = i * perBreak`; slot `s`
      among them is stop `i` after `s - from + 1` steps towards stop `i + 1`. */
  lemma BreakSlotOfBreak(stops: seq<Rgb>, segments: nat, lerp: HslLerp, i: nat, from: nat, s: nat)
    requires i < Breaks(|stops|, segments) && from == i * SlotsPerBreak(|stops|, segments)
    requires from <= s < from + SlotsPerBreak(|stops|, segments)
    ensures s < GradientSlots(|stops|, segments)
    ensures BreakSlot(stops, segments, lerp, s)
         == Ramp(lerp, stops[i], stops[i + 1], false, LerpIncrement(segments), s - from + 1)
  {
    var perBreak := SlotsPerBreak(|stops|, segments);
    var j := s - from;
    BreakPrefixBelow(i, j, Breaks(|stops|, segments), perBreak);
    SlotOfBreak(i, j, perBreak);
  }

  /** A buffer whose slots from `from = i * perBreak` on hold the ramp of
      sub-gradient `i` holds the gradient's slots there. */
  lemma BreakFilled(stops: seq<Rgb>, segments: nat, lerp: HslLerp, i: nat, from: nat, colors: seq<real>)
    requires i < Breaks(|stops|, segments) && from == i * SlotsPerBreak(|stops|, segments)
    requires 3 * (from + SlotsPerBreak(|stops|, segments)) <= |colors|
    requires from + SlotsPerBreak(|stops|, segments) <= GradientSlots(|stops|, segments)
    requires forall s :: from <= s < from + SlotsPerBreak(|stops|, segments) ==>
      TripleAt(colors, s) == Ramp(lerp, stops[i], stops[i + 1], false, LerpIncrement(segments), s - from + 1)
    ensures forall s :: from <= s < from + SlotsPerBreak(|stops|, segments) ==>
      TripleAt(colors, s) == BreakSlot(stops, segments, lerp, s)
  {
    forall s | from <= s < from + SlotsPerBreak(|stops|, segments)
      ensures TripleAt(colors, s) == BreakSlot(stops, segments, lerp, s)
    {
      BreakSlotOfBreak(stops, segments, lerp, i, from, s);
    }
  }

  /** The slots after the sub-gradients, from `breaks * perBreak` on, hold
      the last stop; with a single stop that is every slot. */
  lemma GradientTail(stops: seq<Rgb>, segments: nat, lerp: HslLerp, s: nat)
    requires stops != [] && GradientSlots(|stops|, segments) <= s < segments
    ensures BreakSlot(stops, segments, lerp, s) == stops[|stops| - 1]
    ensures |stops| == 1 ==> GradientSlots(|stops|, segments) == 0
  {
  }

  /** With two stops the multi-stop gradient is the two-colour gradient of
      `createColorGradientBufferAttribute` between distinct colour objects:
      one sub-gradient spanning every slot. */
  lemma TwoStopsIsPairGradient(start: Rgb, end: Rgb, segments: nat, lerp: HslLerp, s: nat)
    requires s < segments
    ensures BreakSlot([start, end], segments, lerp, s)
         == Ramp(lerp, start, end, false, LerpIncrement(segments), s + 1)
  {
    assert Breaks(2, segments) == 1;
    assert SlotsPerBreak(2, segments) == segments;
    assert GradientSlots(2, segments) == segments;
    SlotOfBreak(0, s, segments);
  }

  /** `createColorGradientBufferAttribute1(gradColors, segments)`. Every slot
      below `segments` is written: the sub-gradients first, then the last
      stop. With no stops and at least one slot the fill reads a colour of
      `undefined` and throws. The stops are only read (each sub-gradient runs
      on a copy of its stop), so they are passed as colour values. */
  method CreateColorGradientBufferAttribute1(gradColors: seq<Rgb>, segments: nat, lerp: HslLerp)
    returns (result: Completion<array<real>>)
    ensures result.TypeError? <==> gradColors == [] && segments > 0
    ensures result.Normal? ==> result.value.Length == 3 * segments
    ensures result.Normal? ==> forall s :: 0 <= s < segments ==>
      TripleAt(result.value[..], s) == BreakSlot(gradColors, segments, lerp, s)
  {
    var colorCnt := segments * 3;
    var colors := new real[colorCnt];
    var idx := FillBreaks(colors, gradColors, segments, lerp);

    // fill the remaining slots with the last stop
    while idx < segments
      invariant GradientSlots(|gradColors|, segments) <= idx <= segments
      invariant gradColors == [] ==> idx == 0
      invariant forall s :: 0 <= s < idx ==> TripleAt(colors[..], s) == BreakSlot(gradColors, segments, lerp, s)
    {
      if gradColors == [] {
        return TypeError;
      }
      var color := gradColors[|gradColors| - 1];
      WriteSlot(colors, idx, color, BreakSlot(gradColors, segments, lerp, idx));
      idx := idx + 1;
    }
    result := Normal(colors);
  }

  /** The outer loop of `createColorGradientBufferAttribute1`: sub-gradient
      `i` runs from stop `i` towards stop `i + 1` over the `perBreak` slots
      from `i * perBreak` on; afterwards the first `breaks * perBreak` slots
      are written. */
  method FillBreaks(colors: array<real>, gradColors: seq<Rgb>, segments: nat, lerp: HslLerp) returns (idx: nat)
    requires colors.Length == 3 * segments
    modifies colors
    ensures idx == GradientSlots(|gradColors|, segments)
    ensures idx > 0 ==> gradColors != []
    ensures forall s :: 0 <= s < idx ==> TripleAt(colors[..], s) == BreakSlot(gradColors, segments, lerp, s)
    ensures forall i :: 3 * idx <= i < colors.Length ==> colors[i] == old(colors[i])
  {
    var lerpInc := LerpIncrement(segments);
    var colorBreakPts := Breaks(|gradColors|, segments);
    var segmentsPerBreak := SlotsPerBreak(|gradColors|, segments);
    idx := 0;

    var i := 0;
    while i < colorBreakPts
      invariant 0 <= i && (colorBreakPts > 0 ==> i <= colorBreakPts)
      invariant idx == i * segmentsPerBreak
      invariant idx <= GradientSlots(|gradColors|, segments) && (idx > 0 ==> gradColors != [])
      invariant forall s :: 0 <= s < idx ==> TripleAt(colors[..], s) == BreakSlot(gradColors, segments, lerp, s)
      invariant forall i :: 3 * idx <= i < colors.Length ==> colors[i] == old(colors[i])
    {
      var startColor := gradColors[i];
      var endColor := gradColors[i + 1];
      NextBreakWithin(i, colorBreakPts, segmentsPerBreak);
      FillRamp(colors, idx, segmentsPerBreak, startColor, endColor, lerpInc, lerp);
      BreakFilled(gradColors, segments, lerp, i, idx, colors[..]);
      idx := idx + segmentsPerBreak;
      i := i + 1;
    }
  }

  /** The inner loop of `createColorGradientBufferAttribute1`: a running copy
      of `start` takes `count` compounded steps towards `target`, and after
      step `j + 1` it is written as triple `from + j`. */
  method FillRamp(colors: array<real>, from: nat, count: nat, start: Rgb, target: Rgb, alpha: real, lerp: HslLerp)
    requires 3 * (from + count) <= colors.Length
    modifies colors
    ensures forall s :: 0 <= s < from ==> TripleAt(colors[..], s) == old(TripleAt(colors[..], s))
    ensures forall s :: from <= s < from + count ==>
      TripleAt(colors[..], s) == Ramp(lerp, start, target, false, alpha, s - from + 1)
    ensures forall i :: 3 * (from + count) <= i < colors.Length ==> colors[i] == old(colors[i])
  {
    var lerpColor := start;
    var j := 0;
    while j < count
      invariant 0 <= j <= count
      invariant lerpColor == Ramp(lerp, start, target, false, alpha, j)
      invariant forall s :: 0 <= s < from ==> TripleAt(colors[..], s) == old(TripleAt(colors[..], s))
      invariant forall s :: from <= s < from + j ==>
        TripleAt(colors[..], s) == Ramp(lerp, start, target, false, alpha, s - from + 1)
      invariant forall i :: 3 * (from + j) <= i < colors.Length ==> colors[i] == old(colors[i])
    {
      lerpColor := lerp(lerpColor, target, alpha);
      WriteSlot(colors, from + j, lerpColor, Ramp(lerp, start, target, false, alpha, j + 1));
      j := j + 1;
    }
  }

  /** Writes colour `c` as triple `k`, channel by channel, keeping every
      earlier triple. */
  method WriteSlot(colors: array<real>, k: nat, c: Rgb, ghost expected: Rgb)
    requires 3 * k + 3 <= colors.Length && c == expected
    modifies colors
    ensures TripleAt(colors[..], k) == expected
    ensures forall s :: 0 <= s < k ==> TripleAt(colors[..], s) == old(TripleAt(colors[..], s))
    ensures forall i :: 3 * (k + 1) <= i < colors.Length ==> colors[i] == old(colors[i])
  {
    colors[k * 3] := c.r;
    colors[k * 3 + 1] := c.g;
    colors[k * 3 + 2] := c.b;
    forall s | 0 <= s < k
      ensures TripleAt(colors[..], s) == old(TripleAt(colors[..], s))
    {
      assert 3 * s + 2 < 3 * k;
    }
  }
}
