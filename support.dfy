/** Vocabulary shared by the animation and page models: random draws,
    directions given by their cosine and sine, an optional value, and the
    squared-distance arithmetic that stands in for `Math.sqrt`. */
module Support {

  /** One result of `Math.random()`: a real in [0, 1). */
  type Unit = r: real | 0.0 <= r < 1.0

  /** A value of `Math.cos` or `Math.sin`: a real in [-1, 1]. */
  type Trig = t: real | -1.0 <= t <= 1.0

  /** A direction `(Math.cos(a), Math.sin(a))` for some angle `a`. */
  type Dir = d: (real, real) | d.0 * d.0 + d.1 * d.1 == 1.0 witness (1.0, 0.0)

  datatype Option<T> = None | Some(value: T)

  function Sq(v: real): real { v * v }

  function Min(a: real, b: real): real { if a <= b then a else b }

  function Max(a: real, b: real): real { if a >= b then a else b }

  /** Scaling a direction by `len` gives a vector of squared length `len * len`. */
  lemma ScaledDirLength(dir: Dir, len: real)
    ensures Sq(dir.0 * len) + Sq(dir.1 * len) == Sq(len)
  {
    calc {
      Sq(dir.0 * len) + Sq(dir.1 * len);
      (dir.0 * dir.0 + dir.1 * dir.1) * (len * len);
      Sq(len);
    }
  }

  /** The point at distance `dist` from (cx, cy) in direction `dir`:
      `(cx + Math.cos(a) * dist, cy + Math.sin(a) * dist)`. */
  function PointAt(cx: real, cy: real, dir: Dir, dist: real): (p: (real, real))
    ensures Sq(p.0 - cx) + Sq(p.1 - cy) == Sq(dist)
  {
    ScaledDirLength(dir, dist);
    (cx + dir.0 * dist, cy + dir.1 * dist)
  }

  lemma SqMonotone(a: real, b: real)
    requires 0.0 <= a <= b
    ensures Sq(a) <= Sq(b)
  {
    calc {
      Sq(a);
      a * a;
    <= a * b;
    <= b * b;
    }
  }

  lemma SqStrictMonotone(a: real, b: real)
    requires 0.0 <= a < b
    ensures Sq(a) < Sq(b)
  {
    calc {
      Sq(a);
      a * a;
    <= a * b;
    <  b * b;
    }
  }

  /** `(-dy / d, dx / d)` is a unit vector when `d` is the length of `(dx, dy)`. */
  lemma UnitRadial(dx: real, dy: real, d: real)
    requires 0.0 < d && Sq(d) == Sq(dx) + Sq(dy)
    ensures Sq(-dy / d) + Sq(dx / d) == 1.0
  {
    var u, v := dx / d, -dy / d;
    assert dx == u * d && -dy == v * d;
    assert Sq(dx) == Sq(u) * Sq(d) && Sq(dy) == Sq(v) * Sq(d);
    var k := Sq(u) + Sq(v);
    assert k * Sq(d) == Sq(u) * Sq(d) + Sq(v) * Sq(d);
    assert Sq(u) * Sq(d) + Sq(v) * Sq(d) == Sq(dx) + Sq(dy);
    SqStrictMonotone(0.0, d);
    assert (k - 1.0) * Sq(d) == 0.0;
  }

  /** The radial direction `(dx/d, dy/d)` projected on `(dx, dy)` gives the
      distance back, so the nudge `(-dy/d, dx/d)` turns counter-clockwise
      (in canvas coordinates) about the centre. */
  lemma RadialProjection(dx: real, dy: real, d: real)
    requires 0.0 < d && Sq(d) == Sq(dx) + Sq(dy)
    ensures dx * (dx / d) + dy * (dy / d) == d
  {
    var u, v := dx / d, dy / d;
    assert dx == u * d && dy == v * d;
    assert Sq(dx) + Sq(dy) == (Sq(u) + Sq(v)) * Sq(d);
    SqStrictMonotone(0.0, d);
    assert Sq(u) + Sq(v) == 1.0;
    assert dx * u + dy * v == (Sq(u) + Sq(v)) * d;
  }

  /** A spawn distance `radius + jitter * spread` lies in `[radius, radius + spread)`. */
  lemma RingBand(radius: real, spread: real, jitter: Unit)
    ensures 0.0 <= radius && 0.0 < spread ==>
              Sq(radius) <= Sq(radius + jitter * spread) < Sq(radius + spread)
  {
    if 0.0 <= radius && 0.0 < spread {
      SqMonotone(radius, radius + jitter * spread);
      SqStrictMonotone(radius + jitter * spread, radius + spread);
    }
  }
}
