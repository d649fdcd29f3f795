/** The mounted canvas animation, HyperRealisticSolarAnimation: a particle
    population that flare, CME and ambient emission append to and that the
    per-frame update moves and culls, plus the solar-activity state that
    schedules the bursts. Painting is not modelled; the formulas the painter
    derives from the state (particle alpha, trails, shockwave rings) are. */
module HyperRealisticSolar {
  import opened Support
  import CmeLatch

  datatype Kind = Plasma | Proton | Electron | Cme | Flare | Corona

  /** A colour `hsl(hue, saturation%, lightness%)`. */
  datatype Hsl = Hsl(hue: real, saturation: real, lightness: real)

  /** One particle. `nan` records that the coordinates and velocity have
      become IEEE NaN (see `Advance`); the four reals are then meaningless. */
  datatype Particle = Particle(
    x: real, y: real, vx: real, vy: real, nan: bool,
    life: nat, maxLife: real, size: real,
    temperature: real, density: real, magneticField: real,
    color: Hsl, kind: Kind, energy: real)

  /** The random draws `createRealisticParticle` makes: the velocity
      direction, then speed, temperature, density, field, lifetime, size and
      the two colour draws. */
  datatype ParticleDraws = ParticleDraws(
    dir: Dir, speed: Unit, temperature: Unit, density: Unit, field: Unit,
    maxLife: Unit, size: Unit, hue: Unit, lightness: Unit)

  /** The draws for one particle of a burst: where on the ring around the sun
      it starts (direction and radial jitter) and its own draws. */
  datatype Seed = Seed(dir: Dir, jitter: Unit, draws: ParticleDraws)

  const CmeBurstSize: nat := 80
  const FlareBurstSize: nat := 15

  /** The CME constants: a drop of 0.008 per call, next trigger 10000 to 25000 ms later. */
  const HyperCme: CmeLatch.Config := CmeLatch.Config(0.008, 10000.0, 15000.0)

  function BaseSpeed(kind: Kind): real {
    if kind == Cme then 12.0 else if kind == Electron then 8.0 else 4.0
  }

  /** `getRealisticColor`: a fixed hue band per named kind; the default
      (plasma) hue follows the temperature, clamped to [0, 60]. */
  function RealisticColor(kind: Kind, temperature: real, hue: Unit, lightness: Unit): (c: Hsl)
    ensures kind == Cme ==> 280.0 <= c.hue < 320.0 && c.saturation == 70.0 && 60.0 <= c.lightness < 90.0
    ensures kind == Flare ==> 45.0 <= c.hue < 75.0 && c.saturation == 90.0 && 80.0 <= c.lightness < 95.0
    ensures kind == Corona ==> 120.0 <= c.hue < 180.0 && c.saturation == 60.0 && 70.0 <= c.lightness < 90.0
    ensures kind == Proton ==> 0.0 <= c.hue < 30.0 && c.saturation == 80.0 && 60.0 <= c.lightness < 85.0
    ensures kind == Electron ==> 200.0 <= c.hue < 260.0 && c.saturation == 80.0 && 60.0 <= c.lightness < 85.0
    ensures kind == Plasma ==> 0.0 <= c.hue <= 60.0 && c.saturation == 75.0 && 65.0 <= c.lightness < 85.0
    ensures kind == Plasma && temperature <= 50000.0 ==> c.hue == 0.0
    ensures kind == Plasma && temperature >= 70000.0 ==> c.hue == 60.0
  {
    match kind
    case Cme => Hsl(280.0 + hue * 40.0, 70.0, 60.0 + lightness * 30.0)
    case Flare => Hsl(45.0 + hue * 30.0, 90.0, 80.0 + lightness * 15.0)
    case Corona => Hsl(120.0 + hue * 60.0, 60.0, 70.0 + lightness * 20.0)
    case Proton => Hsl(0.0 + hue * 30.0, 80.0, 60.0 + lightness * 25.0)
    case Electron => Hsl(200.0 + hue * 60.0, 80.0, 60.0 + lightness * 25.0)
    case Plasma =>
      var tempHue := Max(0.0, Min(60.0, (temperature - 50000.0) / 20000.0 * 60.0));
      Hsl(tempHue, 75.0, 65.0 + lightness * 20.0)
  }

  /** Reads the kind back from a hue: the inverse of the five fixed bands. */
  function KindOfHue(hue: real): Kind {
    if 280.0 <= hue < 320.0 then Cme
    else if 45.0 <= hue < 75.0 then Flare
    else if 120.0 <= hue < 180.0 then Corona
    else if 0.0 <= hue < 30.0 then Proton
    else if 200.0 <= hue < 260.0 then Electron
    else Plasma
  }

  /** The five named bands are pairwise disjoint, so a named kind's colour identifies it. */
  lemma HueIdentifiesKind(kind: Kind, temperature: real, hue: Unit, lightness: Unit)
    requires kind != Plasma
    ensures KindOfHue(RealisticColor(kind, temperature, hue, lightness).hue) == kind
  {
  }

  /** The launch velocity `dir * speed` with `speed = base * (1 + draw / 2)`,
      and the energy `speed * density * 0.1`. */
  lemma LaunchSpeed(dir: Dir, base: real, draw: Unit, speed: real, density: real)
    requires 0.0 < base && 0.0 < density && speed == base + draw * base * 0.5
    ensures Sq(base) <= Sq(dir.0 * speed) + Sq(dir.1 * speed) < Sq(1.5 * base)
    ensures 0.0 < speed * density * 0.1
    ensures Sq(speed * density * 0.1) == (Sq(dir.0 * speed) + Sq(dir.1 * speed)) * Sq(density * 0.1)
  {
    assert 0.0 <= draw * base < base;
    ScaledDirLength(dir, speed);
    SqMonotone(base, speed);
    SqStrictMonotone(speed, 1.5 * base);
    assert Sq(speed * density * 0.1) == Sq(speed) * Sq(density * 0.1);
    assert 0.0 < speed * (density * 0.1);
  }

  /** The velocity `dir * speed` and the energy `speed * density * 0.1` of a
      new particle, with `speed = base + draw * base * 0.5`. */
  function LaunchMotion(dir: Dir, base: real, draw: Unit, density: real): (m: (real, real, real))
    requires 0.0 < base && 0.0 < density
    ensures Sq(base) <= Sq(m.0) + Sq(m.1) < Sq(1.5 * base)
    ensures 0.0 < m.2 && Sq(m.2) == (Sq(m.0) + Sq(m.1)) * Sq(density * 0.1)
  {
    var speed := base + draw * base * 0.5;
    LaunchSpeed(dir, base, draw, speed, density);
    (dir.0 * speed, dir.1 * speed, speed * density * 0.1)
  }

  /** The particle `createRealisticParticle(x, y, kind)` pushes. */
  function NewParticle(x: real, y: real, kind: Kind, d: ParticleDraws): (p: Particle)
    ensures p.x == x && p.y == y && p.kind == kind && p.life == 0 && !p.nan
    ensures Sq(BaseSpeed(kind)) <= Sq(p.vx) + Sq(p.vy) < Sq(1.5 * BaseSpeed(kind))
    ensures kind == Cme ==> 200.0 <= p.maxLife < 500.0 && 3.0 <= p.size < 9.0 && 20.0 <= p.density < 70.0
    ensures kind != Cme ==> 100.0 <= p.maxLife < 250.0 && 1.0 <= p.size < 4.0 && 5.0 <= p.density < 15.0
    ensures kind == Corona ==> 1000000.0 <= p.temperature < 3000000.0
    ensures kind != Corona ==> 50000.0 <= p.temperature < 150000.0
    ensures 5.0 <= p.magneticField < 25.0
    ensures 0.0 < p.energy && Sq(p.energy) == (Sq(p.vx) + Sq(p.vy)) * Sq(p.density * 0.1)
    ensures p.color == RealisticColor(kind, p.temperature, d.hue, d.lightness)
  {
    var temperature := if kind == Corona then d.temperature * 2000000.0 + 1000000.0
                       else d.temperature * 100000.0 + 50000.0;
    var density := if kind == Cme then d.density * 50.0 + 20.0 else d.density * 10.0 + 5.0;
    var m := LaunchMotion(d.dir, BaseSpeed(kind), d.speed, density);
    Particle(
      x, y, m.0, m.1, false,
      0,
      if kind == Cme then d.maxLife * 300.0 + 200.0 else d.maxLife * 150.0 + 100.0,
      if kind == Cme then d.size * 6.0 + 3.0 else d.size * 3.0 + 1.0,
      temperature, density, d.field * 20.0 + 5.0,
      RealisticColor(kind, temperature, d.hue, d.lightness),
      kind,
      m.2)
  }

  /** A particle's age has not passed its lifetime, which is positive. */
  predicate Alive(p: Particle) {
    0.0 < p.maxLife && p.life as real <= p.maxLife
  }

  /** A particle of a burst: spawned at `radius + jitter * spread` from the centre. */
  function Launch(cx: real, cy: real, radius: real, spread: real, kind: Kind, s: Seed): (p: Particle)
    ensures p.kind == kind && p.life == 0 && !p.nan && Alive(p)
    ensures 0.0 <= radius && 0.0 < spread ==>
              Sq(radius) <= Sq(p.x - cx) + Sq(p.y - cy) < Sq(radius + spread)
  {
    var dist := radius + s.jitter * spread;
    var at := PointAt(cx, cy, s.dir, dist);
    RingBand(radius, spread, s.jitter);
    NewParticle(at.0, at.1, kind, s.draws)
  }

  /** The particles a burst loop appends, one per seed, in seed order. */
  function Burst(cx: real, cy: real, radius: real, spread: real, kind: Kind, seeds: seq<Seed>): (ps: seq<Particle>)
    ensures |ps| == |seeds|
    ensures forall i | 0 <= i < |ps| :: ps[i].kind == kind && ps[i].life == 0 && Alive(ps[i])
    ensures 0.0 <= radius && 0.0 < spread ==>
              forall i | 0 <= i < |ps| :: Sq(radius) <= Sq(ps[i].x - cx) + Sq(ps[i].y - cy) < Sq(radius + spread)
  {
    seq(|seeds|, i requires 0 <= i < |seeds| => Launch(cx, cy, radius, spread, kind, seeds[i]))
  }

  /** The flare latch in `drawHyperRealisticSun`: it runs when the gate draw
      is below 0.02 or a flare is already decaying; the intensity drops by
      0.02, floored at 0, and an intensity of exactly 0 is reset to 1.
      Returns whether the 15-particle flare burst is emitted, and the new intensity. */
  function FlareStep(intensity: real, gate: Unit): (r: (bool, real))
    ensures 0.0 <= intensity <= 1.0 ==> 0.0 <= r.1 <= 1.0
    ensures r.0 <==> gate < 0.02 || intensity > 0.0
    ensures r.0 ==> 0.0 < r.1 && (intensity <= 1.0 ==> r.1 <= 1.0)
    ensures !r.0 ==> r.1 == intensity
  {
    if gate < 0.02 || intensity > 0.0 then
      var dropped := Max(0.0, intensity - 0.02);
      (true, if dropped == 0.0 then 1.0 else dropped)
    else
      (false, intensity)
  }

  /** Runs the flare latch over one gate draw per frame; returns how many
      frames emitted a flare burst and the final intensity. */
  function FlareFrames(intensity: real, gates: seq<Unit>): (nat, real)
    decreases |gates|
  {
    if |gates| == 0 then (0, intensity)
    else
      var step := FlareStep(intensity, gates[0]);
      var rest := FlareFrames(step.1, gates[1..]);
      ((if step.0 then 1 else 0) + rest.0, rest.1)
  }

  /** Once a flare has started, the intensity never returns to 0, so every
      later frame emits a flare burst, whatever the gate draws. */
  lemma {:induction false} FlareLatchHolds(intensity: real, gates: seq<Unit>)
    requires 0.0 < intensity <= 1.0
    ensures FlareFrames(intensity, gates).0 == |gates|
    ensures 0.0 < FlareFrames(intensity, gates).1 <= 1.0
    decreases |gates|
  {
    if |gates| > 0 {
      FlareLatchHolds(FlareStep(intensity, gates[0]).1, gates[1..]);
    }
  }

  /** The ambient kind: `random > 0.7 ? proton : random > 0.4 ? electron : corona`. */
  function AmbientKind(first: Unit, second: Unit): (k: Kind)
    ensures k == Proton || k == Electron || k == Corona
    ensures k == Proton <==> first > 0.7
  {
    if first > 0.7 then Proton else if second > 0.4 then Electron else Corona
  }

  /** The particles `drawHyperRealisticSun` appends in one frame: the flare
      burst when the latch runs, then at most one ambient particle. */
  function Emission(cx: real, cy: real, radius: real, intensity: real, flareGate: Unit, flareSeeds: seq<Seed>,
                    ambientGate: Unit, first: Unit, second: Unit, ambient: Seed): (ps: seq<Particle>)
    ensures |ps| == (if FlareStep(intensity, flareGate).0 then |flareSeeds| else 0) + (if ambientGate < 0.15 then 1 else 0)
    ensures forall i | 0 <= i < |ps| :: ps[i].life == 0 && Alive(ps[i]) && (ps[i].kind == Flare || i == |ps| - 1)
    ensures ambientGate < 0.15 ==> ps[|ps| - 1].kind in {Proton, Electron, Corona}
    ensures !(ambientGate < 0.15) ==> forall i | 0 <= i < |ps| :: ps[i].kind == Flare
  {
    (if FlareStep(intensity, flareGate).0 then Burst(cx, cy, radius, 30.0, Flare, flareSeeds) else []) +
    (if ambientGate < 0.15 then [Launch(cx, cy, radius, 40.0, AmbientKind(first, second), ambient)] else [])
  }

  /** The speed multiplier of `updateParticles`. */
  function Accel(kind: Kind): real {
    if kind == Cme then 1.03 else if kind == Flare then 1.02 else 1.005
  }

  /** Kinds that receive the magnetic nudge. */
  predicate Nudged(kind: Kind) {
    kind != Cme && kind != Flare
  }

  /** The fields a particle keeps for its whole life. */
  predicate SameBody(p: Particle, q: Particle) {
    q.kind == p.kind && q.maxLife == p.maxLife && q.size == p.size && q.temperature == p.temperature &&
    q.density == p.density && q.magneticField == p.magneticField && q.color == p.color && q.energy == p.energy
  }

  /** `d` is the distance of `p` from (cx, cy): `Math.sqrt(dx * dx + dy * dy)`. */
  predicate DistanceOf(p: Particle, d: real, cx: real, cy: real) {
    !p.nan ==> 0.0 <= d && Sq(d) == Sq(p.x - cx) + Sq(p.y - cy)
  }

  /** The magnetic nudge `(-dy / d, dx / d) * force`: perpendicular to the
      radial direction `(dx, dy)`, of length `force`, turning
      counter-clockwise (the cross product of `(dx, dy)` with it is `d * force`). */
  function Nudge(dx: real, dy: real, d: real, force: real): (n: (real, real))
    requires 0.0 < d && Sq(d) == Sq(dx) + Sq(dy)
    ensures n.0 * dx + n.1 * dy == 0.0
    ensures Sq(n.0) + Sq(n.1) == Sq(force)
    ensures dx * n.1 - dy * n.0 == d * force
  {
    var nx, ny := (-dy / d) * force, (dx / d) * force;
    assert nx * dx + ny * dy == 0.0;
    UnitRadial(dx, dy, d);
    RadialProjection(dx, dy, d);
    assert dx * ny - dy * nx == (dx * (dx / d) + dy * (dy / d)) * force;
    assert Sq(nx) + Sq(ny) == (Sq(-dy / d) + Sq(dx / d)) * Sq(force);
    (nx, ny)
  }

  /** One particle's turn in `updateParticles`, given its distance `d` from
      the centre BEFORE the move: accelerate, nudge (kinds other than cme and
      flare) by `(-dy/d, dx/d) * 0.001 * magneticField`, move, age by one, and
      drop it when it is too old or was too far. `None` means spliced out.
      The source has no guard for `d == 0`: the nudge then divides 0 by 0 and
      the coordinates become NaN; a NaN distance never compares greater, so
      such a particle is removed only by age. */
  function Advance(p: Particle, d: real, cx: real, cy: real, limit: real): (r: Option<Particle>)
    requires DistanceOf(p, d, cx, cy)
    ensures r.None? <==> (p.life + 1) as real > p.maxLife || (!p.nan && d > limit)
    ensures r.Some? ==> SameBody(p, r.value) && r.value.life == p.life + 1
    ensures r.Some? ==> (r.value.nan <==> p.nan || (Nudged(p.kind) && d == 0.0))
    ensures r.Some? && !r.value.nan ==>
              r.value.x == p.x + r.value.vx && r.value.y == p.y + r.value.vy
    ensures r.Some? && !r.value.nan && !Nudged(p.kind) ==>
              r.value.vx == Accel(p.kind) * p.vx && r.value.vy == Accel(p.kind) * p.vy
    ensures r.Some? && !r.value.nan && Nudged(p.kind) ==>
              (r.value.vx - Accel(p.kind) * p.vx) * (p.x - cx) + (r.value.vy - Accel(p.kind) * p.vy) * (p.y - cy) == 0.0 &&
              Sq(r.value.vx - Accel(p.kind) * p.vx) + Sq(r.value.vy - Accel(p.kind) * p.vy) == Sq(p.magneticField * 0.001) &&
              (p.x - cx) * (r.value.vy - Accel(p.kind) * p.vy) - (p.y - cy) * (r.value.vx - Accel(p.kind) * p.vx) ==
                d * (p.magneticField * 0.001)
  {
    var a := Accel(p.kind);
    var dx, dy := p.x - cx, p.y - cy;
    var nan := p.nan || (Nudged(p.kind) && d == 0.0);
    var force := p.magneticField * 0.001;
    var life := p.life + 1;
    if life as real > p.maxLife || (!p.nan && d > limit) then None
    else if nan then Some(p.(nan := true, life := life))
    else if Nudged(p.kind) then
      var n := Nudge(dx, dy, d, force);
      var vx, vy := a * p.vx + n.0, a * p.vy + n.1;
      Some(p.(x := p.x + vx, y := p.y + vy, vx := vx, vy := vy, life := life))
    else
      var vx, vy := a * p.vx, a * p.vy;
      Some(p.(x := p.x + vx, y := p.y + vy, vx := vx, vy := vy, life := life))
  }

  /** `ds` lists each particle's distance from the centre. */
  predicate Measured(ps: seq<Particle>, ds: seq<real>, cx: real, cy: real) {
    |ds| == |ps| && forall i | 0 <= i < |ps| :: DistanceOf(ps[i], ds[i], cx, cy)
  }

  lemma MeasuredSuffix(ps: seq<Particle>, ds: seq<real>, cx: real, cy: real, k: nat)
    requires Measured(ps, ds, cx, cy) && k <= |ps|
    ensures Measured(ps[k..], ds[k..], cx, cy)
  {
    forall i | 0 <= i < |ps| - k ensures DistanceOf(ps[k..][i], ds[k..][i], cx, cy) {
      assert ps[k..][i] == ps[k + i] && ds[k..][i] == ds[k + i];
    }
  }

  /** The population after `updateParticles`: every particle advanced once,
      the removed ones left out, the survivors in their original order. */
  function UpdateAll(ps: seq<Particle>, ds: seq<real>, cx: real, cy: real, limit: real): (r: seq<Particle>)
    requires Measured(ps, ds, cx, cy)
    ensures |r| <= |ps|
    ensures forall q | q in r :: Alive(q) && 1 <= q.life
    decreases |ps|
  {
    if |ps| == 0 then []
    else
      MeasuredSuffix(ps, ds, cx, cy, 1);
      var head := match Advance(ps[0], ds[0], cx, cy, limit) case None => [] case Some(q) => [q];
      head + UpdateAll(ps[1..], ds[1..], cx, cy, limit)
  }

  /** One turn of the backward update loop: with the particles after `i`
      already updated, splicing particle `i` out, or replacing it by its
      advanced self, leaves the particles from `i` on updated. */
  lemma SpliceStep(ps: seq<Particle>, ds: seq<real>, cx: real, cy: real, limit: real, i: nat, cur: seq<Particle>)
    requires Measured(ps, ds, cx, cy) && i < |ps|
    requires Measured(ps[i + 1..], ds[i + 1..], cx, cy)
    requires cur == ps[..i + 1] + UpdateAll(ps[i + 1..], ds[i + 1..], cx, cy, limit)
    ensures Measured(ps[i..], ds[i..], cx, cy)
    ensures i < |cur| && cur[i] == ps[i]
    ensures Advance(ps[i], ds[i], cx, cy, limit).None? ==>
              cur[..i] + cur[i + 1..] == ps[..i] + UpdateAll(ps[i..], ds[i..], cx, cy, limit)
    ensures Advance(ps[i], ds[i], cx, cy, limit).Some? ==>
              cur[..i] + [Advance(ps[i], ds[i], cx, cy, limit).value] + cur[i + 1..] ==
              ps[..i] + UpdateAll(ps[i..], ds[i..], cx, cy, limit)
  {
    MeasuredSuffix(ps, ds, cx, cy, i);
    assert ps[i..][0] == ps[i] && ps[i..][1..] == ps[i + 1..];
    assert ds[i..][0] == ds[i] && ds[i..][1..] == ds[i + 1..];
    var rest := UpdateAll(ps[i + 1..], ds[i + 1..], cx, cy, limit);
    assert cur[..i] == ps[..i] && cur[i] == ps[i] && cur[i + 1..] == rest;
    match Advance(ps[i], ds[i], cx, cy, limit)
    case None =>
      assert UpdateAll(ps[i..], ds[i..], cx, cy, limit) == rest;
    case Some(q) =>
      assert UpdateAll(ps[i..], ds[i..], cx, cy, limit) == [q] + rest;
      assert cur[..i] + [q] + cur[i + 1..] == ps[..i] + ([q] + rest);
  }

  /** A particle survives the update exactly when its own `Advance` keeps it. */
  lemma {:induction false} UpdateAllMembers(ps: seq<Particle>, ds: seq<real>, cx: real, cy: real, limit: real, q: Particle)
    requires Measured(ps, ds, cx, cy)
    ensures q in UpdateAll(ps, ds, cx, cy, limit) <==>
            exists i | 0 <= i < |ps| :: Advance(ps[i], ds[i], cx, cy, limit) == Some(q)
    decreases |ps|
  {
    if |ps| > 0 {
      MeasuredSuffix(ps, ds, cx, cy, 1);
      UpdateAllMembers(ps[1..], ds[1..], cx, cy, limit, q);
      if exists i | 0 <= i < |ps| :: Advance(ps[i], ds[i], cx, cy, limit) == Some(q) {
        var i :| 0 <= i < |ps| && Advance(ps[i], ds[i], cx, cy, limit) == Some(q);
        if i > 0 {
          assert ps[1..][i - 1] == ps[i] && ds[1..][i - 1] == ds[i];
        }
      }
      if exists i | 0 <= i < |ps| - 1 :: Advance(ps[1..][i], ds[1..][i], cx, cy, limit) == Some(q) {
        var i :| 0 <= i < |ps| - 1 && Advance(ps[1..][i], ds[1..][i], cx, cy, limit) == Some(q);
        assert ps[1..][i] == ps[i + 1] && ds[1..][i] == ds[i + 1];
      }
    }
  }

  /** `alpha = max(0, 1 - life / maxLife)`. */
  function ParticleAlpha(p: Particle): (alpha: real)
    requires 0.0 < p.maxLife
    ensures 0.0 <= alpha <= 1.0
    ensures alpha == 0.0 <==> p.life as real >= p.maxLife
    ensures p.life == 0 ==> alpha == 1.0
  {
    var q := p.life as real / p.maxLife;
    assert q * p.maxLife == p.life as real;
    assert q >= 1.0 <==> p.life as real >= p.maxLife;
    Max(0.0, 1.0 - q)
  }

  /** The trail of a high-energy particle: a segment from `(x, y) - 2 * (vx, vy)` to `(x, y)`. */
  function Trail(p: Particle): (seg: Option<((real, real), (real, real))>)
    ensures seg.Some? <==> p.energy > 50.0
    ensures seg.Some? ==>
              seg.value.1 == (p.x, p.y) &&
              Sq(seg.value.1.0 - seg.value.0.0) + Sq(seg.value.1.1 - seg.value.0.1) == 4.0 * (Sq(p.vx) + Sq(p.vy))
  {
    if p.energy > 50.0 then Some(((p.x - p.vx * 2.0, p.y - p.vy * 2.0), (p.x, p.y))) else None
  }

  /** Only CME particles are energetic enough to leave a trail: any other
      kind has speed below 12 and density below 15, so energy below 18. */
  lemma OnlyCmeLeavesTrail(x: real, y: real, kind: Kind, d: ParticleDraws)
    ensures Trail(NewParticle(x, y, kind, d)).Some? ==> kind == Cme
  {
    var p := NewParticle(x, y, kind, d);
    if kind != Cme {
      var base := BaseSpeed(kind);
      var speed := base + d.speed * base * 0.5;
      assert p.energy == speed * p.density * 0.1;
      assert 0.0 < speed < 12.0 && 0.0 < p.density < 15.0;
      assert speed * p.density <= speed * 15.0 < 12.0 * 15.0;
    }
  }

  /** One ring of the CME shockwave: its radius and stroke opacity. */
  datatype Ring = Ring(radius: real, alpha: real)

  /** `drawCMEShockwave`: three rings while a CME is active above intensity
      0.3, with radii `sunRadius * (3 - I)`, `(4 - 0.7 I)`, `(5 - 0.5 I)` and
      opacities `0.6 I`, `0.4 I`, `0.2 I`. */
  function Shockwave(active: bool, intensity: real, sunRadius: real): (rings: seq<Ring>)
    ensures |rings| == (if active && intensity > 0.3 then 3 else 0)
    ensures 0.0 < sunRadius && |rings| == 3 && intensity <= 1.0 ==>
              sunRadius * 2.0 <= rings[0].radius < rings[1].radius < rings[2].radius
    ensures |rings| == 3 && intensity <= 1.0 ==>
              0.0 < rings[2].alpha < rings[1].alpha < rings[0].alpha <= 0.6
  {
    if active && intensity > 0.3 then
      assert sunRadius * (4.0 - intensity * 0.7) - sunRadius * (3.0 - intensity) == sunRadius * (1.0 + intensity * 0.3);
      assert sunRadius * (5.0 - intensity * 0.5) - sunRadius * (4.0 - intensity * 0.7) == sunRadius * (1.0 + intensity * 0.2);
      assert sunRadius * (3.0 - intensity) - sunRadius * 2.0 == sunRadius * (1.0 - intensity);
      [Ring(sunRadius * (3.0 - intensity), intensity * 0.6),
       Ring(sunRadius * (4.0 - intensity * 0.7), intensity * 0.4),
       Ring(sunRadius * (5.0 - intensity * 0.5), intensity * 0.2)]
    else []
  }

  /** As the intensity decays, every shockwave ring widens. */
  lemma ShockwaveWidensAsIntensityFalls(i1: real, i2: real, sunRadius: real)
    requires 0.3 < i1 < i2 && 0.0 < sunRadius
    ensures forall k | 0 <= k < 3 :: Shockwave(true, i1, sunRadius)[k].radius > Shockwave(true, i2, sunRadius)[k].radius
  {
    assert sunRadius * (3.0 - i1) - sunRadius * (3.0 - i2) == sunRadius * (i2 - i1);
    assert sunRadius * (4.0 - i1 * 0.7) - sunRadius * (4.0 - i2 * 0.7) == sunRadius * (i2 - i1) * 0.7;
    assert sunRadius * (5.0 - i1 * 0.5) - sunRadius * (5.0 - i2 * 0.5) == sunRadius * (i2 - i1) * 0.5;
  }

  /** The CME that fires lasts exactly 125 calls of `handleSolarEvents`: the
      firing call leaves intensity 0.992, the next 123 calls keep it active,
      and the 124th after it ends it. */
  lemma CmeLasts125Calls(s: CmeLatch.State, time: int, delay: Unit, n: nat)
    requires CmeLatch.Fires(s, time) && n <= 124
    ensures var fired := CmeLatch.Tick(HyperCme, s, time, delay);
            fired.active &&
            (n < 124 ==> CmeLatch.Run(HyperCme, fired, time, n).active) &&
            (n == 124 ==> !CmeLatch.Run(HyperCme, fired, time, n).active)
  {
    var fired := CmeLatch.Tick(HyperCme, s, time, delay);
    CmeLatch.LevelIsProduct(HyperCme, 124);
    assert fired.intensity == CmeLatch.Level(HyperCme, 124);
    CmeLatch.DecaysInSteps(HyperCme, fired, time, 124, n);
  }

  /** The animation's mutable state: the canvas size, the clock, the
      particle list and the `solarActivity` record. */
  class SolarSimulation {
    var width: real
    var height: real
    var time: int
    var particles: seq<Particle>
    var flareIntensity: real
    var cmeActive: bool
    var cmeIntensity: real
    var nextCMETime: real
    /** Drawn once at start and never read again. */
    var nextFlareTime: real

    ghost predicate Valid()
      reads this
    {
      0.0 <= width && 0.0 <= height && 0.0 <= flareIntensity <= 1.0 &&
      CmeLatch.Inv(CmeState()) &&
      forall p | p in particles :: Alive(p)
    }

    function CmeState(): CmeLatch.State
      reads this
    {
      CmeLatch.State(cmeActive, cmeIntensity, nextCMETime)
    }

    function CenterX(): real reads this { width / 2.0 }
    function CenterY(): real reads this { height / 2.0 }
    function SunRadius(): real reads this { Min(width, height) * 0.12 }

    constructor (width: real, height: real, cmeDraw: Unit, flareDraw: Unit)
      requires 0.0 <= width && 0.0 <= height
      ensures Valid()
      ensures this.width == width && this.height == height && time == 0 && particles == []
      ensures flareIntensity == 0.0 && !cmeActive && cmeIntensity == 0.0
      ensures 5000.0 <= nextCMETime < 13000.0 && 2000.0 <= nextFlareTime < 5000.0
    {
      this.width, this.height := width, height;
      time := 0;
      particles := [];
      flareIntensity, cmeActive, cmeIntensity := 0.0, false, 0.0;
      nextCMETime := cmeDraw * 8000.0 + 5000.0;
      nextFlareTime := flareDraw * 3000.0 + 2000.0;
    }

    /** `resizeCanvas`: only the canvas size changes. */
    method Resize(width: real, height: real)
      requires Valid() && 0.0 <= width && 0.0 <= height
      modifies this`width, this`height
      ensures Valid() && this.width == width && this.height == height
    {
      this.width, this.height := width, height;
    }

    /** `createRealisticParticle`: appends one particle and leaves the others alone. */
    method CreateRealisticParticle(x: real, y: real, kind: Kind, d: ParticleDraws)
      requires Valid()
      modifies this`particles
      ensures Valid()
      ensures particles == old(particles) + [NewParticle(x, y, kind, d)]
    {
      particles := particles + [NewParticle(x, y, kind, d)];
    }

    /** A burst loop: one `createRealisticParticle` per seed, on the ring
        `[radius, radius + spread)` around the centre. */
    method SpawnBurst(kind: Kind, radius: real, spread: real, seeds: seq<Seed>)
      requires Valid()
      modifies this`particles
      ensures Valid()
      ensures particles == old(particles) + Burst(CenterX(), CenterY(), radius, spread, kind, seeds)
    {
      for k := 0 to |seeds|
        invariant Valid()
        invariant particles == old(particles) + Burst(CenterX(), CenterY(), radius, spread, kind, seeds[..k])
      {
        var p := Launch(CenterX(), CenterY(), radius, spread, kind, seeds[k]);
        CreateRealisticParticle(p.x, p.y, kind, seeds[k].draws);
        assert Burst(CenterX(), CenterY(), radius, spread, kind, seeds[..k + 1])
            == Burst(CenterX(), CenterY(), radius, spread, kind, seeds[..k]) + [p];
      }
      assert seeds[..|seeds|] == seeds;
    }

    /** `handleSolarEvents`: advance the clock by 16, fire an 80-particle CME
        burst when the latch fires, then decay the intensity. */
    method HandleSolarEvents(delay: Unit, seeds: seq<Seed>)
      requires Valid() && |seeds| == CmeBurstSize
      modifies this`time, this`particles, this`cmeActive, this`cmeIntensity, this`nextCMETime
      ensures Valid()
      ensures time == old(time) + CmeLatch.FrameStep
      ensures CmeState() == CmeLatch.Tick(HyperCme, old(CmeState()), time, delay)
      ensures particles == old(particles) +
                (if CmeLatch.Fires(old(CmeState()), time) then Burst(CenterX(), CenterY(), SunRadius(), 60.0, Cme, seeds) else [])
    {
      ghost var s0, ps0, burst := CmeState(), particles, Burst(CenterX(), CenterY(), SunRadius(), 60.0, Cme, seeds);
      time := time + 16;
      ghost var fires := CmeLatch.Fires(s0, time);
      if time as real > nextCMETime && !cmeActive {
        cmeActive := true;
        cmeIntensity := 1.0;
        nextCMETime := time as real + delay * 15000.0 + 10000.0;
        SpawnBurst(Cme, SunRadius(), 60.0, seeds);
      }
      assert particles == ps0 + (if fires then burst else []);
      assert CmeState() == (if fires then CmeLatch.State(true, 1.0, time as real + delay * 15000.0 + 10000.0) else s0);
      if cmeActive {
        cmeIntensity := cmeIntensity - 0.008;
        if cmeIntensity <= 0.0 {
          cmeActive := false;
          cmeIntensity := 0.0;
        }
      }
    }

    /** The emitting part of `drawHyperRealisticSun`: the flare latch with its
        15-particle burst near the photosphere, then the ambient particle. */
    method EmitFromSun(flareGate: Unit, flareSeeds: seq<Seed>, ambientGate: Unit, first: Unit, second: Unit, ambient: Seed)
      requires Valid() && |flareSeeds| == FlareBurstSize
      modifies this`particles, this`flareIntensity
      ensures Valid()
      ensures flareIntensity == FlareStep(old(flareIntensity), flareGate).1
      ensures particles == old(particles) +
                Emission(CenterX(), CenterY(), SunRadius(), old(flareIntensity), flareGate, flareSeeds, ambientGate, first, second, ambient)
    {
      if flareGate < 0.02 || flareIntensity > 0.0 {
        flareIntensity := Max(0.0, flareIntensity - 0.02);
        if flareIntensity == 0.0 {
          flareIntensity := 1.0;
        }
        SpawnBurst(Flare, SunRadius(), 30.0, flareSeeds);
      }
      if ambientGate < 0.15 {
        var p := Launch(CenterX(), CenterY(), SunRadius(), 40.0, AmbientKind(first, second), ambient);
        CreateRealisticParticle(p.x, p.y, AmbientKind(first, second), ambient.draws);
      }
    }

    /** `updateParticles`: a backward index loop that advances each particle
        and splices out the removed ones; `dist[i]` is particle `i`'s distance
        from the centre. */
    method UpdateParticles(dist: seq<real>)
      requires Valid() && Measured(particles, dist, CenterX(), CenterY())
      modifies this`particles
      ensures Valid()
      ensures particles == UpdateAll(old(particles), dist, CenterX(), CenterY(), width * 1.5)
    {
      var cx, cy, limit := CenterX(), CenterY(), width * 1.5;
      ghost var ps := particles;
      var i := |particles| - 1;
      while i >= 0
        invariant -1 <= i < |ps|
        invariant Measured(ps[i + 1..], dist[i + 1..], cx, cy)
        invariant particles == ps[..i + 1] + UpdateAll(ps[i + 1..], dist[i + 1..], cx, cy, limit)
        decreases i
      {
        SpliceStep(ps, dist, cx, cy, limit, i, particles);
        var next := Advance(particles[i], dist[i], cx, cy, limit);
        match next {
          case None =>
            particles := particles[..i] + particles[i + 1..];
          case Some(q) =>
            particles := particles[..i] + [q] + particles[i + 1..];
        }
        i := i - 1;
      }
      assert ps[0..] == ps && dist[0..] == dist;
    }

    /** The CME burst the next `handleSolarEvents` appends, if its latch fires. */
    function CmeSpawns(cmeSeeds: seq<Seed>): seq<Particle>
      reads this
    {
      if CmeLatch.Fires(CmeState(), time + CmeLatch.FrameStep)
      then Burst(CenterX(), CenterY(), SunRadius(), 60.0, Cme, cmeSeeds) else []
    }

    /** What the next `drawHyperRealisticSun` emits. */
    function SunSpawns(flareGate: Unit, flareSeeds: seq<Seed>, ambientGate: Unit, first: Unit, second: Unit, ambient: Seed): seq<Particle>
      reads this
    {
      Emission(CenterX(), CenterY(), SunRadius(), flareIntensity, flareGate, flareSeeds, ambientGate, first, second, ambient)
    }

    /** The spawning half of a frame: `handleSolarEvents`, then the
        emission of `drawHyperRealisticSun`. */
    method SpawnFrame(delay: Unit, cmeSeeds: seq<Seed>, flareGate: Unit, flareSeeds: seq<Seed>,
                      ambientGate: Unit, first: Unit, second: Unit, ambient: Seed)
      requires Valid() && |cmeSeeds| == CmeBurstSize && |flareSeeds| == FlareBurstSize
      modifies this`time, this`particles, this`cmeActive, this`cmeIntensity, this`nextCMETime, this`flareIntensity
      ensures Valid()
      ensures time == old(time) + CmeLatch.FrameStep
      ensures CmeState() == CmeLatch.Tick(HyperCme, old(CmeState()), time, delay)
      ensures flareIntensity == FlareStep(old(flareIntensity), flareGate).1
      ensures particles == old(particles) +
                (if CmeLatch.Fires(old(CmeState()), time) then Burst(CenterX(), CenterY(), SunRadius(), 60.0, Cme, cmeSeeds) else []) +
                Emission(CenterX(), CenterY(), SunRadius(), old(flareIntensity), flareGate, flareSeeds, ambientGate, first, second, ambient)
    {
      HandleSolarEvents(delay, cmeSeeds);
      EmitFromSun(flareGate, flareSeeds, ambientGate, first, second, ambient);
    }

    /** `animate` without the painting: solar events, emission, then the
        update; `dist` gives the distances of the population the update sees. */
    method Animate(delay: Unit, cmeSeeds: seq<Seed>, flareGate: Unit, flareSeeds: seq<Seed>,
                   ambientGate: Unit, first: Unit, second: Unit, ambient: Seed, dist: seq<real>)
      requires Valid() && |cmeSeeds| == CmeBurstSize && |flareSeeds| == FlareBurstSize
      requires Measured(particles + CmeSpawns(cmeSeeds) + SunSpawns(flareGate, flareSeeds, ambientGate, first, second, ambient),
                        dist, CenterX(), CenterY())
      modifies this`time, this`particles, this`cmeActive, this`cmeIntensity, this`nextCMETime, this`flareIntensity
      ensures Valid()
      ensures time == old(time) + CmeLatch.FrameStep
      ensures CmeState() == CmeLatch.Tick(HyperCme, old(CmeState()), time, delay)
      ensures flareIntensity == FlareStep(old(flareIntensity), flareGate).1
      ensures particles ==
                UpdateAll(old(particles) + old(CmeSpawns(cmeSeeds)) + old(SunSpawns(flareGate, flareSeeds, ambientGate, first, second, ambient)),
                          dist, CenterX(), CenterY(), width * 1.5)
    {
      SpawnFrame(delay, cmeSeeds, flareGate, flareSeeds, ambientGate, first, second, ambient);
      UpdateParticles(dist);
    }
  }
}
