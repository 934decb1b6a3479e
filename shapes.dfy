/** `createLine` and `createCircle` of src/util.ts: the anchor points each one
    draws, and how each one colours the line it builds, either with a flat
    colour on the material or with a gradient buffer on the geometry. Curve
    fitting belongs to three.js and is passed in as a function from the
    anchors and the number of divisions to the fitted points. */
module Shapes {
  import opened JsMath
  import opened Random
  import opened ColorGradient

  datatype Vec3 = Vec3(x: real, y: real, z: real)

  // ---------------------------------------------------------------------
  // createLine's anchors

  /** The offset between neighbouring anchors on the centre line:
      `length / segmentCount` along the direction `angle`. */
  function SegmentStep(m: MathFns, angle: real, length: real, segmentCount: nat): (d: Vec2)
    requires 1 <= segmentCount
  {
    var segmentLength := length / segmentCount as real;
    Vec2(segmentLength * m.cos(angle), segmentLength * m.sin(angle))
  }

  /** Anchor `i` of `createLine`: the `i`-th point of the centre line, moved
      by `random(-perturbance, perturbance)` in x (draw `ux`) and then in y
      (draw `uy`). */
  function LineAnchor(origin: Vec3, step: Vec2, perturbance: real, ux: UnitDraw, uy: UnitDraw, i: nat): Vec2
  {
    Vec2(origin.x + i as real * step.x + Rand(ux, -perturbance, perturbance),
         origin.y + i as real * step.y + Rand(uy, -perturbance, perturbance))
  }

  /** All `segmentCount + 1` anchors; anchor `i` uses draws `2i` and `2i + 1`. */
  function LineAnchors(m: MathFns, origin: Vec3, angle: real, length: real, perturbance: real,
                       segmentCount: nat, noise: Noise): (points: seq<Vec2>)
    requires 1 <= segmentCount
    ensures |points| == segmentCount + 1
  {
    var step := SegmentStep(m, angle, length, segmentCount);
    seq(segmentCount + 1, i requires 0 <= i => LineAnchor(origin, step, perturbance, noise(2 * i), noise(2 * i + 1), i))
  }

  /** The loop of `createLine` that pushes the anchors. */
  method SegmentPoints(m: MathFns, origin: Vec3, angle: real, length: real, perturbance: real,
                       segmentCount: nat, noise: Noise) returns (points: seq<Vec2>)
    requires 1 <= segmentCount
    ensures points == LineAnchors(m, origin, angle, length, perturbance, segmentCount, noise)
  {
    var segmentLength := length / segmentCount as real;
    var deltaX := segmentLength * m.cos(angle);
    var deltaY := segmentLength * m.sin(angle);
    ghost var step := SegmentStep(m, angle, length, segmentCount);
    assert step == Vec2(deltaX, deltaY);
    points := [];
    var i := 0;
    while i < segmentCount + 1
      invariant 0 <= i <= segmentCount + 1 && |points| == i
      invariant forall j :: 0 <= j < i ==> points[j] == LineAnchor(origin, step, perturbance, noise(2 * j), noise(2 * j + 1), j)
    {
      var x := origin.x + i as real * deltaX + Rand(noise(2 * i), -perturbance, perturbance);
      var y := origin.y + i as real * deltaY + Rand(noise(2 * i + 1), -perturbance, perturbance);
      assert Vec2(x, y) == LineAnchor(origin, step, perturbance, noise(2 * i), noise(2 * i + 1), i);
      points := points + [Vec2(x, y)];
      i := i + 1;
    }
  }

  /** Every anchor lies within |perturbance| of its point on the centre line,
      in each coordinate. */
  lemma LineAnchorNearCentreLine(m: MathFns, origin: Vec3, angle: real, length: real, perturbance: real,
                                 segmentCount: nat, noise: Noise, i: nat)
    requires 1 <= segmentCount && i <= segmentCount
    ensures var step := SegmentStep(m, angle, length, segmentCount);
            var a := LineAnchors(m, origin, angle, length, perturbance, segmentCount, noise)[i];
            Abs(a.x - (origin.x + i as real * step.x)) <= Abs(perturbance) &&
            Abs(a.y - (origin.y + i as real * step.y)) <= Abs(perturbance)
  {
    var step := SegmentStep(m, angle, length, segmentCount);
    var a := LineAnchors(m, origin, angle, length, perturbance, segmentCount, noise)[i];
    var dx, dy := Rand(noise(2 * i), -perturbance, perturbance), Rand(noise(2 * i + 1), -perturbance, perturbance);
    assert a == LineAnchor(origin, step, perturbance, noise(2 * i), noise(2 * i + 1), i);
    assert a.x - (origin.x + i as real * step.x) == dx && a.y - (origin.y + i as real * step.y) == dy;
    RandSymmetricBound(noise(2 * i), perturbance);
    RandSymmetricBound(noise(2 * i + 1), perturbance);
  }

  /** Neighbouring points of the centre line are `length / segmentCount`
      apart. */
  lemma SegmentStepLength(m: MathFns, angle: real, length: real, segmentCount: nat)
    requires Sound(m) && 1 <= segmentCount
    ensures var d := SegmentStep(m, angle, length, segmentCount);
            d.x * d.x + d.y * d.y == (length / segmentCount as real) * (length / segmentCount as real)
  {
    var l := length / segmentCount as real;
    var c, s := m.cos(angle), m.sin(angle);
    assert c * c + s * s == 1.0;
    calc {
      (l * c) * (l * c) + (l * s) * (l * s);
      (l * l) * (c * c + s * s);
      l * l;
    }
  }

  /** Without perturbance the first anchor is the origin and the last one is
      `length` away from it in the direction `angle`. */
  lemma UnperturbedLineEnds(m: MathFns, origin: Vec3, angle: real, length: real,
                            segmentCount: nat, noise: Noise)
    requires 1 <= segmentCount
    ensures var points := LineAnchors(m, origin, angle, length, 0.0, segmentCount, noise);
            points[0] == Vec2(origin.x, origin.y) &&
            points[segmentCount] == Vec2(origin.x + length * m.cos(angle), origin.y + length * m.sin(angle))
  {
    var points := LineAnchors(m, origin, angle, length, 0.0, segmentCount, noise);
    var step := SegmentStep(m, angle, length, segmentCount);
    assert points[0] == LineAnchor(origin, step, 0.0, noise(0), noise(1), 0);
    assert points[segmentCount] == LineAnchor(origin, step, 0.0, noise(2 * segmentCount), noise(2 * segmentCount + 1), segmentCount);
    assert Rand(noise(0), -0.0, 0.0) == 0.0 && Rand(noise(1), -0.0, 0.0) == 0.0;
    assert Rand(noise(2 * segmentCount), -0.0, 0.0) == 0.0 && Rand(noise(2 * segmentCount + 1), -0.0, 0.0) == 0.0;
    var n := segmentCount as real;
    var l := length / n;
    assert n * l == length;
    var c, s := m.cos(angle), m.sin(angle);
    assert n * (l * c) == length * c by { assert n * (l * c) == (n * l) * c; }
    assert n * (l * s) == length * s by { assert n * (l * s) == (n * l) * s; }
  }

  // ---------------------------------------------------------------------
  // createCircle's anchors

  /** `2 * Math.PI / segmentCount`, the angle between neighbouring anchors.
      With no segments JavaScript gets Infinity, which no anchor then uses;
      0 stands for it here. */
  function SegmentRads(segmentCount: nat): (rads: real)
    ensures 0 < segmentCount ==> rads * segmentCount as real == 2.0 * Pi
  {
    if segmentCount == 0 then 0.0 else 2.0 * Pi / segmentCount as real
  }

  /** The direction `createCircle` walks round the circle: `flipCoin()` gives
      1 (truthy) for counter-clockwise, ascending angles. */
  predicate Ascending(u: UnitDraw)
  {
    FlipCoin(u) == 1
  }

  /** The angle index of the `k`-th anchor pushed: `k` going up, or
      `segmentCount - 1 - k` going down. */
  function AngleIndex(ascending: bool, segmentCount: nat, k: nat): (i: nat)
    requires k < segmentCount
    ensures i < segmentCount
  {
    if ascending then k else segmentCount - 1 - k
  }

  /** The anchor at angle index `i`: the radius moved by
      `random(-perturbance, perturbance)` (draw `u`), at angle
      `i * segmentRads + startAngle`, in the plane of the origin. */
  function CircleAnchor(m: MathFns, origin: Vec3, radius: real, perturbance: real, segmentRads: real,
                        startAngle: real, u: UnitDraw, i: nat): (a: Vec3)
    ensures a.z == origin.z
    ensures var radiusPrime := radius + Rand(u, -perturbance, perturbance);
            Sound(m) ==> PlanarDistanceSquared(a, origin) == radiusPrime * radiusPrime
  {
    var radiusPrime := radius + Rand(u, -perturbance, perturbance);
    var theta := i as real * segmentRads + startAngle;
    ScaledUnitVector(m, theta, radiusPrime);
    Vec3(origin.x + radiusPrime * m.cos(theta), origin.y + radiusPrime * m.sin(theta), origin.z)
  }

  /** The squared distance between two points, measured in the x-y plane. */
  function PlanarDistanceSquared(a: Vec3, b: Vec3): real
  {
    (a.x - b.x) * (a.x - b.x) + (a.y - b.y) * (a.y - b.y)
  }

  /** With sound trigonometry, `(r cos t, r sin t)` is `r` away from the
      origin. */
  lemma ScaledUnitVector(m: MathFns, theta: real, r: real)
    ensures Sound(m) ==>
      (r * m.cos(theta)) * (r * m.cos(theta)) + (r * m.sin(theta)) * (r * m.sin(theta)) == r * r
  {
    if Sound(m) {
      var c, s := m.cos(theta), m.sin(theta);
      assert c * c + s * s == 1.0;
      calc {
        (r * c) * (r * c) + (r * s) * (r * s);
        (r * r) * (c * c + s * s);
        r * r;
      }
    }
  }

  /** All anchors: draw 0 picks the direction, and the `k`-th anchor pushed
      uses draw `k + 1`. */
  function CircleAnchors(m: MathFns, origin: Vec3, radius: real, perturbance: real, segmentCount: nat,
                         startAngle: real, noise: Noise): (points: seq<Vec3>)
    ensures |points| == segmentCount
  {
    var ascending := Ascending(noise(0));
    seq(segmentCount, k requires 0 <= k < segmentCount =>
      CircleAnchor(m, origin, radius, perturbance, SegmentRads(segmentCount), startAngle, noise(k + 1),
                   AngleIndex(ascending, segmentCount, k)))
  }

  /** The two loops of `createCircle` that push the anchors. */
  method CirclePoints(m: MathFns, origin: Vec3, radius: real, perturbance: real, segmentCount: nat,
                      startAngle: real, noise: Noise) returns (points: seq<Vec3>)
    ensures points == CircleAnchors(m, origin, radius, perturbance, segmentCount, startAngle, noise)
  {
    var segmentRads := SegmentRads(segmentCount);
    points := [];
    if FlipCoin(noise(0)) != 0 {
      var i := 0;
      while i < segmentCount
        invariant 0 <= i <= segmentCount && |points| == i
        invariant forall k :: 0 <= k < i ==>
          points[k] == CircleAnchor(m, origin, radius, perturbance, segmentRads, startAngle, noise(k + 1), k)
      {
        points := PushAnchor(points, m, origin, radius, perturbance, segmentRads, startAngle, noise(i + 1), i);
        i := i + 1;
      }
    } else {
      var i: int := segmentCount - 1;
      while i >= 0
        invariant -1 <= i < segmentCount && |points| == segmentCount - 1 - i
        invariant forall k :: 0 <= k < |points| ==>
          points[k] == CircleAnchor(m, origin, radius, perturbance, segmentRads, startAngle, noise(k + 1),
                                    segmentCount - 1 - k)
      {
        points := PushAnchor(points, m, origin, radius, perturbance, segmentRads, startAngle, noise(|points| + 1), i);
        i := i - 1;
      }
    }
  }

  /** The body of both loops: the anchor at angle index `i` is pushed, its
      radius perturbed by the draw `u`. */
  method PushAnchor(points: seq<Vec3>, m: MathFns, origin: Vec3, radius: real, perturbance: real,
                    segmentRads: real, startAngle: real, u: UnitDraw, i: nat) returns (pushed: seq<Vec3>)
    ensures pushed == points + [CircleAnchor(m, origin, radius, perturbance, segmentRads, startAngle, u, i)]
  {
    var radiusPrime := radius + Rand(u, -perturbance, perturbance);
    var x := origin.x + radiusPrime * m.cos(i as real * segmentRads + startAngle);
    var y := origin.y + radiusPrime * m.sin(i as real * segmentRads + startAngle);
    var anchor := Vec3(x, y, origin.z);
    assert anchor == CircleAnchor(m, origin, radius, perturbance, segmentRads, startAngle, u, i);
    pushed := points + [anchor];
  }

  /** Whichever the direction, the anchors visit every angle index below
      `segmentCount` exactly once: the index map is its own inverse, so it is
      one-to-one and onto. */
  lemma EachAngleOnce(ascending: bool, segmentCount: nat)
    ensures forall k :: 0 <= k < segmentCount ==>
      AngleIndex(ascending, segmentCount, AngleIndex(ascending, segmentCount, k)) == k
    ensures forall k, k' :: 0 <= k < segmentCount && 0 <= k' < segmentCount ==>
      (AngleIndex(ascending, segmentCount, k) == AngleIndex(ascending, segmentCount, k') ==> k == k')
  {
  }

  /** The clockwise walk visits the angles of the counter-clockwise walk in
      reverse order. */
  lemma DescendingReversesAscending(segmentCount: nat, k: nat)
    requires k < segmentCount
    ensures AngleIndex(false, segmentCount, k) == AngleIndex(true, segmentCount, segmentCount - 1 - k)
  {
  }

  /** Each anchor lies in the plane of the origin, at its perturbed radius
      from the origin, and that radius is within |perturbance| of `radius`;
      so when |perturbance| is at most `radius` every anchor lies in the ring
      between `radius - |perturbance|` and `radius + |perturbance|`. */
  lemma CircleAnchorOnCircle(m: MathFns, origin: Vec3, radius: real, perturbance: real, segmentCount: nat,
                             startAngle: real, noise: Noise, k: nat)
    requires Sound(m) && k < segmentCount
    ensures var a := CircleAnchors(m, origin, radius, perturbance, segmentCount, startAngle, noise)[k];
            var radiusPrime := radius + Rand(noise(k + 1), -perturbance, perturbance);
            a.z == origin.z &&
            PlanarDistanceSquared(a, origin) == radiusPrime * radiusPrime &&
            radius - Abs(perturbance) <= radiusPrime <= radius + Abs(perturbance)
    ensures var a := CircleAnchors(m, origin, radius, perturbance, segmentCount, startAngle, noise)[k];
            var inner, outer := radius - Abs(perturbance), radius + Abs(perturbance);
            Abs(perturbance) <= radius ==>
              inner * inner <= PlanarDistanceSquared(a, origin) <= outer * outer
  {
    var u := noise(k + 1);
    RandSymmetricBound(u, perturbance);
    var rp := radius + Rand(u, -perturbance, perturbance);
    var inner, outer := radius - Abs(perturbance), radius + Abs(perturbance);
    if Abs(perturbance) <= radius {
      SquareMonotone(inner, rp);
      SquareMonotone(rp, outer);
    }
  }

  // ---------------------------------------------------------------------
  // Lines, materials and colouring

  /** A line material (`LineBasicMaterial` or `LineDashedMaterial`): its
      width, its flat colour, and whether it takes per-vertex colours. */
  class LineMaterial {
    var lineWidth: real
    var color: Color
    var vertexColors: bool

    /** `new LineBasicMaterial({linewidth})`: white and without vertex
        colours, as three.js makes it. */
    constructor (lineWidth: real)
      ensures this.lineWidth == lineWidth && !vertexColors
      ensures fresh(color) && color.Value() == Rgb(1.0, 1.0, 1.0)
    {
      this.lineWidth := lineWidth;
      color := new Color(Rgb(1.0, 1.0, 1.0));
      vertexColors := false;
    }
  }

  /** The `color` argument: one colour, or a `[start, end]` pair for a
      gradient. */
  datatype LineColor = Flat(color: Color) | Pair(start: Color, end: Color)

  /** A buffer geometry: vertex positions and, optionally, a colour buffer. */
  datatype Geometry = Geometry(positions: seq<Vec3>, colors: Option<array<real>>)

  /** A `Line` (open) or `LineLoop` (closed) with its position's z. */
  datatype Line = Line(geometry: Geometry, material: LineMaterial, positionZ: real, closed: bool)

  /** `setFromPoints` on 2D points: each one lies in the plane z = 0. */
  function PlanePositions(points: seq<Vec2>): (positions: seq<Vec3>)
    ensures |positions| == |points|
    ensures forall i :: 0 <= i < |points| ==>
      positions[i].x == points[i].x && positions[i].y == points[i].y && positions[i].z == 0.0
  {
    seq(|points|, i requires 0 <= i < |points| => Vec3(points[i].x, points[i].y, 0.0))
  }

  /** A colour buffer holding the compounded ramp of
      `createColorGradientBufferAttribute` over `n` vertices. */
  ghost predicate GradientBuffer(colors: seq<real>, lerp: HslLerp, start: Rgb, target: Rgb, tracking: bool, n: nat)
  {
    |colors| == 3 * n &&
    forall t :: 0 <= t < n ==> TripleAt(colors, t) == Ramp(lerp, start, target, tracking, LerpIncrement(n), t + 1)
  }

  /** The colouring shared by `createLine` and `createCircle`: with a pair of
      colours the geometry gets a gradient over its `vertCnt` vertices (moving
      the start colour along it) and the material takes vertex colours;
      with one colour the material's colour becomes that very object. The
      material is the one given, or a new basic material of width `width`. */
  method ColorLine(color: LineColor, vertCnt: nat, material: Option<LineMaterial>, width: real, lerp: HslLerp)
    returns (mat: LineMaterial, colors: Option<array<real>>)
    modifies if color.Pair? then {color.start} else {}
    modifies if material.Some? then {material.value} else {}
    ensures material.Some? ==> mat == material.value && mat.lineWidth == old(mat.lineWidth)
    ensures material.None? ==> fresh(mat) && mat.lineWidth == width
    ensures color.Flat? ==> colors.None? && mat.color == color.color
    ensures color.Flat? ==> mat.vertexColors == (material.Some? && old(material.value.vertexColors))
    ensures color.Pair? ==> colors.Some? && fresh(colors.value) && mat.vertexColors
    ensures color.Pair? ==> GradientBuffer(colors.value[..], lerp, old(color.start.Value()), old(color.end.Value()),
                                           color.start == color.end, vertCnt)
    ensures color.Pair? && material.Some? ==> mat.color == old(material.value.color)
    ensures color.Pair? && material.None? ==> fresh(mat.color) && mat.color.Value() == Rgb(1.0, 1.0, 1.0)
    ensures color.Pair? ==> color.start.Value() == Ramp(lerp, old(color.start.Value()), old(color.end.Value()),
                                                        color.start == color.end, LerpIncrement(vertCnt), vertCnt)
  {
    colors := None;
    if color.Pair? {
      var buffer := CreateColorGradientBufferAttribute(color.start, color.end, vertCnt, lerp);
      colors := Some(buffer);
    }
    if material.Some? {
      mat := material.value;
    } else {
      mat := new LineMaterial(width);
    }
    if color.Flat? {
      mat.color := color.color;
    } else {
      mat.vertexColors := true;
    }
  }

  /** `createLine(origin, angle, length, width, color, perturbance,
      segmentCount, material)`. The anchors are fitted by `fit`, which is
      asked for as many divisions as there are anchors; the line is raised to
      the origin's z. */
  method CreateLine(m: MathFns, fit: (seq<Vec2>, nat) -> seq<Vec2>, origin: Vec3, angle: real, length: real,
                    width: real, color: LineColor, perturbance: real, segmentCount: nat,
                    material: Option<LineMaterial>, lerp: HslLerp, noise: Noise) returns (line: Line)
    requires 1 <= segmentCount
    modifies if color.Pair? then {color.start} else {}
    modifies if material.Some? then {material.value} else {}
    ensures var anchors := LineAnchors(m, origin, angle, length, perturbance, segmentCount, noise);
            line.geometry.positions == PlanePositions(fit(anchors, segmentCount + 1))
    ensures line.positionZ == origin.z && !line.closed
    ensures material.Some? ==> line.material == material.value && line.material.lineWidth == old(material.value.lineWidth)
    ensures material.None? ==> fresh(line.material) && line.material.lineWidth == width
    ensures color.Flat? ==> line.geometry.colors.None? && line.material.color == color.color
    ensures color.Flat? ==> line.material.vertexColors == (material.Some? && old(material.value.vertexColors))
    ensures color.Pair? ==> line.geometry.colors.Some? && fresh(line.geometry.colors.value) && line.material.vertexColors
    ensures color.Pair? ==> GradientBuffer(line.geometry.colors.value[..], lerp, old(color.start.Value()),
                                           old(color.end.Value()), color.start == color.end, |line.geometry.positions|)
    ensures color.Pair? ==> color.start.Value() == Ramp(lerp, old(color.start.Value()), old(color.end.Value()),
                                                        color.start == color.end, LerpIncrement(|line.geometry.positions|), |line.geometry.positions|)
    ensures color.Pair? && material.Some? ==> line.material.color == old(material.value.color)
    ensures color.Pair? && material.None? ==> fresh(line.material.color) && line.material.color.Value() == Rgb(1.0, 1.0, 1.0)
  {
    var segmentPoints := SegmentPoints(m, origin, angle, length, perturbance, segmentCount, noise);
    var splinePoints := fit(segmentPoints, |segmentPoints|);
    var positions := PlanePositions(splinePoints);
    var mat, colors := ColorLine(color, |positions|, material, width, lerp);
    line := Line(Geometry(positions, colors), mat, origin.z, false);
  }

  /** `createCircle(origin, radius, lineWidth, color, perturbance,
      segmentCount, startAngle, material)`. The anchors are fitted by a
      closed curve, `fit`, asked for 360 divisions. */
  method CreateCircle(m: MathFns, fit: (seq<Vec3>, nat) -> seq<Vec3>, origin: Vec3, radius: real,
                      lineWidth: real, color: LineColor, perturbance: real, segmentCount: nat,
                      startAngle: real, material: Option<LineMaterial>, lerp: HslLerp, noise: Noise)
    returns (circle: Line)
    modifies if color.Pair? then {color.start} else {}
    modifies if material.Some? then {material.value} else {}
    ensures var anchors := CircleAnchors(m, origin, radius, perturbance, segmentCount, startAngle, noise);
            circle.geometry.positions == fit(anchors, 360)
    ensures circle.positionZ == 0.0 && circle.closed
    ensures material.Some? ==> circle.material == material.value && circle.material.lineWidth == old(material.value.lineWidth)
    ensures material.None? ==> fresh(circle.material) && circle.material.lineWidth == lineWidth
    ensures color.Flat? ==> circle.geometry.colors.None? && circle.material.color == color.color
    ensures color.Flat? ==> circle.material.vertexColors == (material.Some? && old(material.value.vertexColors))
    ensures color.Pair? ==> circle.geometry.colors.Some? && fresh(circle.geometry.colors.value) && circle.material.vertexColors
    ensures color.Pair? ==> GradientBuffer(circle.geometry.colors.value[..], lerp, old(color.start.Value()),
                                           old(color.end.Value()), color.start == color.end, |circle.geometry.positions|)
    ensures color.Pair? ==> color.start.Value() == Ramp(lerp, old(color.start.Value()), old(color.end.Value()),
                                                        color.start == color.end, LerpIncrement(|circle.geometry.positions|), |circle.geometry.positions|)
    ensures color.Pair? && material.Some? ==> circle.material.color == old(material.value.color)
    ensures color.Pair? && material.None? ==> fresh(circle.material.color) && circle.material.color.Value() == Rgb(1.0, 1.0, 1.0)
  {
    var segmentPoints := CirclePoints(m, origin, radius, perturbance, segmentCount, startAngle, noise);
    var splinePoints := fit(segmentPoints, 360);
    var mat, colors := ColorLine(color, |splinePoints|, material, lineWidth, lerp);
    circle := Line(Geometry(splinePoints, colors), mat, 0.0, true);
  }
}
