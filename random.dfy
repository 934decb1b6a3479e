/** The random helpers of src/util.ts: `random`, `flipCoin`, `randomColor`
    and `randomPointInCircle`. Every call to `Math.random()` is replaced by
    an explicit draw, so each helper is a function of its draws. */
module Random {
  import opened JsMath

  datatype Vec2 = Vec2(x: real, y: real)

  /** An RGB colour, each channel a float. */
  datatype Rgb = Rgb(r: real, g: real, b: real)

  /** `random(min, max)` for the draw `u`: the draw scaled onto the span from
      `min` towards `max`. The span is half-open at `max`, whichever way round
      the bounds are given. */
  function Rand(u: UnitDraw, min: real, max: real): (r: real)
    ensures min == max ==> r == min
    ensures min < max ==> min <= r < max
    ensures max < min ==> max < r <= min
  {
    var width := max - min;
    var offset := u * width;
    assert 0.0 < width ==> 0.0 <= offset < width by { ScaledDrawWithin(u, width); }
    assert width < 0.0 ==> width < offset <= 0.0 by { ScaledDrawWithin(u, width); }
    offset + min
  }

  /** A draw scaled by a width lies between 0 and the width, never reaching
      the width itself. */
  lemma ScaledDrawWithin(u: UnitDraw, w: real)
    ensures 0.0 < w ==> 0.0 <= u * w < w
    ensures w < 0.0 ==> w < u * w <= 0.0
  {
    var scaled := u * w;
    var rest := (1.0 - u) * w;
    assert scaled + rest == w;
    if 0.0 < w {
      MulNonNegative(u, w);
      MulPositive(1.0 - u, w);
    } else if w < 0.0 {
      MulNonNegative(u, -w);
      MulPositive(1.0 - u, -w);
      assert u * -w == -scaled && (1.0 - u) * -w == -rest;
    }
  }

  /** A value drawn by `random(-p, p)` stays within |p| of zero. */
  lemma RandSymmetricBound(u: UnitDraw, p: real)
    ensures -Abs(p) <= Rand(u, -p, p) <= Abs(p)
  {
    if p < 0.0 {
      assert p < -p;
    } else if p > 0.0 {
      assert -p < p;
    }
  }

  function Abs(x: real): (r: real)
    ensures 0.0 <= r && (r == x || r == -x)
  {
    if x < 0.0 then -x else x
  }

  /** `flipCoin()`: 0 when `random(0, 499)` falls below 250, else 1. In terms
      of the draw the coin shows 0 exactly when u < 250/499, so it is not
      quite fair: 0 comes up with probability 250/499. */
  function FlipCoin(u: UnitDraw): (r: int)
    ensures r == 0 || r == 1
    ensures r == 0 <==> u < 250.0 / 499.0
  {
    if Rand(u, 0.0, 499.0) < 250.0 then 0 else 1
  }

  /** `randomColor()`: three fresh draws, one per channel. */
  function RandomColor(ur: UnitDraw, ug: UnitDraw, ub: UnitDraw): (c: Rgb)
    ensures 0.0 <= c.r < 1.0 && 0.0 <= c.g < 1.0 && 0.0 <= c.b < 1.0
    ensures c.r == ur && c.g == ug && c.b == ub
  {
    Rgb(ur, ug, ub)
  }

  /** The radial part of `randomPointInCircle`: `sqrt(u) * radius`. */
  function RadialDistance(m: MathFns, u: UnitDraw, radius: real): (d: real)
    requires Sound(m)
    ensures 0.0 <= radius ==> 0.0 <= d <= radius
    ensures d * d == u * radius * radius
  {
    var root := m.sqrt(u);
    assert 0.0 <= root && root * root == u;
    RootOfDrawAtMostOne(root, u);
    assert 0.0 <= radius ==> 0.0 <= root * radius <= radius by {
      if 0.0 <= radius {
        MulNonNegative(1.0 - root, radius);
        MulNonNegative(root, radius);
      }
    }
    calc {
      (root * radius) * (root * radius);
      (root * root) * (radius * radius);
      u * radius * radius;
    }
    root * radius
  }

  /** The square root of a draw is at most one. */
  lemma RootOfDrawAtMostOne(root: real, u: UnitDraw)
    requires 0.0 <= root && root * root == u
    ensures root <= 1.0
  {
    assert (1.0 - root) * (1.0 + root) == 1.0 - u;
    PositiveFactor(1.0 - root, 1.0 + root);
  }

  /** `randomPointInCircle(radius, x, y)`: the first draw picks the angle
      `random(0, 2*PI)`, the second the distance `sqrt(u) * radius`. */
  function RandomPointInCircle(m: MathFns, uAngle: UnitDraw, uDistance: UnitDraw,
                               radius: real, x: real, y: real): (p: Vec2)
    requires Sound(m)
    ensures radius == 0.0 ==> p == Vec2(x, y)
  {
    var angle := Rand(uAngle, 0.0, 2.0 * Pi);
    var distance := RadialDistance(m, uDistance, radius);
    Vec2(x + distance * m.cos(angle), y + distance * m.sin(angle))
  }

  /** Every point drawn lies in the disc of the given radius around (x, y),
      and its squared distance from the centre is the radial draw times the
      squared radius, which is what makes the sampling uniform by area. */
  lemma PointInCircleWithinRadius(m: MathFns, uAngle: UnitDraw, uDistance: UnitDraw,
                                  radius: real, x: real, y: real)
    requires Sound(m)
    requires 0.0 <= radius
    ensures var p := RandomPointInCircle(m, uAngle, uDistance, radius, x, y);
            var dx, dy := p.x - x, p.y - y;
            dx * dx + dy * dy == uDistance * radius * radius &&
            dx * dx + dy * dy <= radius * radius
  {
    var angle := Rand(uAngle, 0.0, 2.0 * Pi);
    var d := RadialDistance(m, uDistance, radius);
    var c, s := m.cos(angle), m.sin(angle);
    assert c * c + s * s == 1.0;
    calc {
      (d * c) * (d * c) + (d * s) * (d * s);
      (d * d) * (c * c + s * s);
      d * d;
    }
    assert d * d <= radius * radius by {
      assert 0.0 <= d <= radius;
      assert d * d <= d * radius <= radius * radius;
    }
  }
}
