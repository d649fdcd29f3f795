/** RealisticSolarAnimation, the unmounted middle variant: one `animate`
    closure that advances the clock, runs the CME latch with a 50-particle
    burst, emits corona and flare particles, and moves, nudges and culls the
    population. Unlike the mounted variant it moves a particle first and
    measures its distance from the new position. */
module RealisticSolar {
  import opened Support
  import CmeLatch

  datatype Kind = Flare | Cme | Corona

  /** A colour `hsl(hue, saturation%, lightness%)`. */
  datatype Hsl = Hsl(hue: real, saturation: real, lightness: real)

  /** One particle; `nan` records that its velocity has become IEEE NaN, and
      with it the coordinates from the next move on (see `Advance`). */
  datatype Particle = Particle(
    x: real, y: real, vx: real, vy: real, nan: bool,
    life: nat, maxLife: real, size: real, color: Hsl, kind: Kind)

  /** The draws `createParticle` makes: direction, speed, lifetime, size and
      the two colour draws. */
  datatype ParticleDraws = ParticleDraws(dir: Dir, speed: Unit, maxLife: Unit, size: Unit, hue: Unit, lightness: Unit)

  /** A CME particle's start on the ring around the sun, and its own draws. */
  datatype Seed = Seed(dir: Dir, jitter: Unit, draws: ParticleDraws)

  const CmeBurstSize: nat := 50
  const FlareBurstSize: nat := 10

  /** The CME constants: a drop of 0.01 per frame, next trigger 8000 to 18000 ms later. */
  const RealisticCme: CmeLatch.Config := CmeLatch.Config(0.01, 8000.0, 10000.0)

  /** The colour `createParticle` picks for a kind. */
  function ParticleColor(kind: Kind, hue: Unit, lightness: Unit): (c: Hsl)
    ensures kind == Cme ==> 300.0 <= c.hue < 360.0 && c.saturation == 80.0 && 60.0 <= c.lightness < 90.0
    ensures kind == Flare ==> 10.0 <= c.hue < 70.0 && c.saturation == 90.0 && 70.0 <= c.lightness < 90.0
    ensures kind == Corona ==> 20.0 <= c.hue < 50.0 && c.saturation == 70.0 && 60.0 <= c.lightness < 80.0
  {
    match kind
    case Cme => Hsl(hue * 60.0 + 300.0, 80.0, lightness * 30.0 + 60.0)
    case Flare => Hsl(hue * 60.0 + 10.0, 90.0, lightness * 20.0 + 70.0)
    case Corona => Hsl(hue * 30.0 + 20.0, 70.0, lightness * 20.0 + 60.0)
  }

  /** The flare and corona hue bands overlap, but the saturations differ:
      the saturation alone tells the kind back. */
  function KindOfSaturation(saturation: real): Kind {
    if saturation == 80.0 then Cme else if saturation == 90.0 then Flare else Corona
  }

  lemma SaturationIdentifiesKind(kind: Kind, hue: Unit, lightness: Unit)
    ensures KindOfSaturation(ParticleColor(kind, hue, lightness).saturation) == kind
  {
  }

  /** The particle `createParticle(x, y, kind)` pushes. */
  function NewParticle(x: real, y: real, kind: Kind, d: ParticleDraws): (p: Particle)
    ensures p.x == x && p.y == y && p.kind == kind && p.life == 0 && !p.nan
    ensures kind == Cme ==>
              Sq(4.0) <= Sq(p.vx) + Sq(p.vy) < Sq(12.0) && 100.0 <= p.maxLife < 300.0 && 2.0 <= p.size < 6.0
    ensures kind != Cme ==>
              Sq(1.0) <= Sq(p.vx) + Sq(p.vy) < Sq(4.0) && 50.0 <= p.maxLife < 150.0 && 1.0 <= p.size < 3.0
    ensures p.color == ParticleColor(kind, d.hue, d.lightness)
  {
    var speed := if kind == Cme then d.speed * 8.0 + 4.0 else d.speed * 3.0 + 1.0;
    ScaledDirLength(d.dir, speed);
    if kind == Cme then
      SqMonotone(4.0, speed);
      SqStrictMonotone(speed, 12.0);
      Particle(x, y, d.dir.0 * speed, d.dir.1 * speed, false, 0, d.maxLife * 200.0 + 100.0, d.size * 4.0 + 2.0,
               ParticleColor(kind, d.hue, d.lightness), kind)
    else
      SqMonotone(1.0, speed);
      SqStrictMonotone(speed, 4.0);
      Particle(x, y, d.dir.0 * speed, d.dir.1 * speed, false, 0, d.maxLife * 100.0 + 50.0, d.size * 2.0 + 1.0,
               ParticleColor(kind, d.hue, d.lightness), kind)
  }

  /** A particle's age has not passed its lifetime, which is positive. */
  predicate Alive(p: Particle) {
    0.0 < p.maxLife && p.life as real <= p.maxLife
  }

  /** The CME burst: one particle per seed at `sunRadius + jitter * 50` from the centre. */
  function CmeBurst(cx: real, cy: real, sunRadius: real, seeds: seq<Seed>): (ps: seq<Particle>)
    ensures |ps| == |seeds|
    ensures forall i | 0 <= i < |ps| :: ps[i].kind == Cme && ps[i].life == 0 && Alive(ps[i])
    ensures forall i | 0 <= i < |ps| ::
              Sq(ps[i].x - cx) + Sq(ps[i].y - cy) == Sq(sunRadius + seeds[i].jitter * 50.0)
    ensures 0.0 <= sunRadius ==>
              forall i | 0 <= i < |ps| :: Sq(sunRadius) <= Sq(ps[i].x - cx) + Sq(ps[i].y - cy) < Sq(sunRadius + 50.0)
  {
    seq(|seeds|, i requires 0 <= i < |seeds| => Launch(cx, cy, sunRadius, seeds[i]))
  }

  /** One particle of the CME burst, at `sunRadius + jitter * 50` from the centre. */
  function Launch(cx: real, cy: real, sunRadius: real, s: Seed): (p: Particle)
    ensures p.kind == Cme && p.life == 0 && Alive(p)
    ensures Sq(p.x - cx) + Sq(p.y - cy) == Sq(sunRadius + s.jitter * 50.0)
    ensures 0.0 <= sunRadius ==> Sq(sunRadius) <= Sq(p.x - cx) + Sq(p.y - cy) < Sq(sunRadius + 50.0)
  {
    var at := PointAt(cx, cy, s.dir, sunRadius + s.jitter * 50.0);
    RingBand(sunRadius, 50.0, s.jitter);
    NewParticle(at.0, at.1, Cme, s.draws)
  }

  /** The flare burst: one particle per draw, all at the same point `(x, y)`. */
  function Cluster(x: real, y: real, kind: Kind, draws: seq<ParticleDraws>): (ps: seq<Particle>)
    ensures |ps| == |draws|
    ensures forall i | 0 <= i < |ps| :: ps[i].x == x && ps[i].y == y && ps[i].kind == kind && ps[i].life == 0 && Alive(ps[i])
  {
    seq(|draws|, i requires 0 <= i < |draws| => NewParticle(x, y, kind, draws[i]))
  }

  /** The emission after the CME step: at most one corona particle (gate
      below 0.1) at `sunRadius + jitter * 20`, then, when the flare gate is
      below 0.05, ten flare particles at one point `0.9 * sunRadius` out. */
  function Emission(cx: real, cy: real, sunRadius: real, coronaGate: Unit, corona: Seed,
                    flareGate: Unit, flareDir: Dir, flareDraws: seq<ParticleDraws>): (ps: seq<Particle>)
    requires |flareDraws| == FlareBurstSize
    ensures |ps| == (if coronaGate < 0.1 then 1 else 0) + (if flareGate < 0.05 then FlareBurstSize else 0)
    ensures forall i | 0 <= i < |ps| :: ps[i].life == 0 && Alive(ps[i])
    ensures coronaGate < 0.1 ==> ps[0].kind == Corona
    ensures forall i | (if coronaGate < 0.1 then 1 else 0) <= i < |ps| ::
              ps[i].kind == Flare && ps[i].x == ps[|ps| - 1].x && ps[i].y == ps[|ps| - 1].y
    ensures coronaGate < 0.1 ==> Sq(ps[0].x - cx) + Sq(ps[0].y - cy) == Sq(sunRadius + corona.jitter * 20.0)
    ensures coronaGate < 0.1 && 0.0 <= sunRadius ==>
              Sq(sunRadius) <= Sq(ps[0].x - cx) + Sq(ps[0].y - cy) < Sq(sunRadius + 20.0)
    ensures forall i | (if coronaGate < 0.1 then 1 else 0) <= i < |ps| ::
              Sq(ps[i].x - cx) + Sq(ps[i].y - cy) == Sq(sunRadius * 0.9)
  {
    var at := PointAt(cx, cy, corona.dir, sunRadius + corona.jitter * 20.0);
    var flareAt := PointAt(cx, cy, flareDir, sunRadius * 0.9);
    RingBand(sunRadius, 20.0, corona.jitter);
    (if coronaGate < 0.1 then [NewParticle(at.0, at.1, Corona, corona.draws)] else []) +
    (if flareGate < 0.05 then Cluster(flareAt.0, flareAt.1, Flare, flareDraws) else [])
  }

  /** `d` is the distance of `p` from (cx, cy) after the move. */
  predicate MovedDistance(p: Particle, d: real, cx: real, cy: real) {
    !p.nan ==> 0.0 <= d && Sq(d) == Sq(p.x + p.vx - cx) + Sq(p.y + p.vy - cy)
  }

  /** One particle's turn in the update loop, given its distance `d` from the
      centre AFTER the move: move by the old velocity, age by one, then
      accelerate a CME particle by 1.02 or nudge any other one by
      `(-dy/d, dx/d) * 0.1`, and drop it when too old or too far. As in the
      mounted variant, `d == 0` makes the nudge divide 0 by 0: the particle
      has already moved, and only its velocity becomes NaN on that frame. */
  function Advance(p: Particle, d: real, cx: real, cy: real, limit: real): (r: Option<Particle>)
    requires MovedDistance(p, d, cx, cy)
    ensures r.None? <==> (p.life + 1) as real > p.maxLife || (!p.nan && d > limit)
    ensures r.Some? ==>
              r.value.life == p.life + 1 && r.value.kind == p.kind && r.value.maxLife == p.maxLife &&
              r.value.size == p.size && r.value.color == p.color
    ensures r.Some? ==> (r.value.nan <==> p.nan || (p.kind != Cme && d == 0.0))
    ensures r.Some? && !p.nan ==> r.value.x == p.x + p.vx && r.value.y == p.y + p.vy
    ensures r.Some? && !r.value.nan && p.kind == Cme ==> r.value.vx == 1.02 * p.vx && r.value.vy == 1.02 * p.vy
    ensures r.Some? && !r.value.nan && p.kind != Cme ==>
              (r.value.vx - p.vx) * (r.value.x - cx) + (r.value.vy - p.vy) * (r.value.y - cy) == 0.0 &&
              Sq(r.value.vx - p.vx) + Sq(r.value.vy - p.vy) == Sq(0.1) &&
              (r.value.x - cx) * (r.value.vy - p.vy) - (r.value.y - cy) * (r.value.vx - p.vx) == d * 0.1
  {
    var life := p.life + 1;
    var x, y := p.x + p.vx, p.y + p.vy;
    if life as real > p.maxLife || (!p.nan && d > limit) then None
    else if p.nan then Some(p.(life := life))
    else if p.kind != Cme && d == 0.0 then Some(p.(x := x, y := y, nan := true, life := life))
    else
      var dx, dy := x - cx, y - cy;
      if p.kind == Cme then
        Some(p.(x := x, y := y, vx := p.vx * 1.02, vy := p.vy * 1.02, life := life))
      else
        var nx, ny := (-dy / d) * 0.1, (dx / d) * 0.1;
        assert nx * dx + ny * dy == 0.0;
        UnitRadial(dx, dy, d);
        assert Sq(nx) + Sq(ny) == (Sq(-dy / d) + Sq(dx / d)) * Sq(0.1);
        RadialProjection(dx, dy, d);
        assert dx * ny - dy * nx == (dx * (dx / d) + dy * (dy / d)) * 0.1;
        Some(p.(x := x, y := y, vx := p.vx + nx, vy := p.vy + ny, life := life))
  }

  /** `ds` lists each particle's distance from the centre after its move. */
  predicate Measured(ps: seq<Particle>, ds: seq<real>, cx: real, cy: real) {
    |ds| == |ps| && forall i | 0 <= i < |ps| :: MovedDistance(ps[i], ds[i], cx, cy)
  }

  lemma MeasuredSuffix(ps: seq<Particle>, ds: seq<real>, cx: real, cy: real, k: nat)
    requires Measured(ps, ds, cx, cy) && k <= |ps|
    ensures Measured(ps[k..], ds[k..], cx, cy)
  {
    forall i | 0 <= i < |ps| - k ensures MovedDistance(ps[k..][i], ds[k..][i], cx, cy) {
      assert ps[k..][i] == ps[k + i] && ds[k..][i] == ds[k + i];
    }
  }

  /** The population after the update loop: every particle advanced once,
      the removed ones left out, the survivors in their original order. */
  function UpdateAll(ps: seq<Particle>, ds: seq<real>, cx: real, cy: real, limit: real): (r: seq<Particle>)
    requires Measured(ps, ds, cx, cy)
    ensures |r| <= |ps|
    ensures forall q | q in r :: Alive(q) && 1 <= q.life
    decreases |ps|
  {
    if |ps| == 0 then []
    else
      MeasuredSuffix(ps, ds, cx, cy, 1);
      var head := match Advance(ps[0], ds[0], cx, cy, limit) case None => [] case Some(q) => [q];
      head + UpdateAll(ps[1..], ds[1..], cx, cy, limit)
  }

  /** One turn of the backward update loop: with the particles after `i`
      already updated, splicing particle `i` out, or replacing it by its
      advanced self, leaves the particles from `i` on updated. */
  lemma SpliceStep(ps: seq<Particle>, ds: seq<real>, cx: real, cy: real, limit: real, i: nat, cur: seq<Particle>)
    requires Measured(ps, ds, cx, cy) && i < |ps|
    requires Measured(ps[i + 1..], ds[i + 1..], cx, cy)
    requires cur == ps[..i + 1] + UpdateAll(ps[i + 1..], ds[i + 1..], cx, cy, limit)
    ensures Measured(ps[i..], ds[i..], cx, cy)
    ensures i < |cur| && cur[i] == ps[i]
    ensures Advance(ps[i], ds[i], cx, cy, limit).None? ==>
              cur[..i] + cur[i + 1..] == ps[..i] + UpdateAll(ps[i..], ds[i..], cx, cy, limit)
    ensures Advance(ps[i], ds[i], cx, cy, limit).Some? ==>
              cur[..i] + [Advance(ps[i], ds[i], cx, cy, limit).value] + cur[i + 1..] ==
              ps[..i] + UpdateAll(ps[i..], ds[i..], cx, cy, limit)
  {
    MeasuredSuffix(ps, ds, cx, cy, i);
    assert ps[i..][0] == ps[i] && ps[i..][1..] == ps[i + 1..];
    assert ds[i..][0] == ds[i] && ds[i..][1..] == ds[i + 1..];
    var rest := UpdateAll(ps[i + 1..], ds[i + 1..], cx, cy, limit);
    assert cur[..i] == ps[..i] && cur[i] == ps[i] && cur[i + 1..] == rest;
    match Advance(ps[i], ds[i], cx, cy, limit)
    case None =>
      assert UpdateAll(ps[i..], ds[i..], cx, cy, limit) == rest;
    case Some(q) =>
      assert UpdateAll(ps[i..], ds[i..], cx, cy, limit) == [q] + rest;
      assert cur[..i] + [q] + cur[i + 1..] == ps[..i] + ([q] + rest);
  }

  /** A particle is in the updated population exactly when it is what
      `Advance` makes of one of the old particles. */
  lemma {:induction false} UpdateAllMembers(ps: seq<Particle>, ds: seq<real>, cx: real, cy: real, limit: real, q: Particle)
    requires Measured(ps, ds, cx, cy)
    ensures q in UpdateAll(ps, ds, cx, cy, limit) <==>
            exists i | 0 <= i < |ps| :: Advance(ps[i], ds[i], cx, cy, limit) == Some(q)
    decreases |ps|
  {
    if |ps| > 0 {
      MeasuredSuffix(ps, ds, cx, cy, 1);
      UpdateAllMembers(ps[1..], ds[1..], cx, cy, limit, q);
      if exists i | 0 <= i < |ps| :: Advance(ps[i], ds[i], cx, cy, limit) == Some(q) {
        var i :| 0 <= i < |ps| && Advance(ps[i], ds[i], cx, cy, limit) == Some(q);
        if i > 0 {
          assert ps[1..][i - 1] == ps[i] && ds[1..][i - 1] == ds[i];
        }
      }
      if exists i | 0 <= i < |ps| - 1 :: Advance(ps[1..][i], ds[1..][i], cx, cy, limit) == Some(q) {
        var i :| 0 <= i < |ps| - 1 && Advance(ps[1..][i], ds[1..][i], cx, cy, limit) == Some(q);
        assert ps[1..][i] == ps[i + 1] && ds[1..][i] == ds[i + 1];
      }
    }
  }

  /** One ring of the shockwave: its radius and stroke opacity. */
  datatype Ring = Ring(radius: real, alpha: real)

  /** The shockwave: two rings while a CME is active above intensity 0.5,
      with radii `sunRadius * (2 - I)` and `sunRadius * (2.5 - 0.5 I)`. */
  function Shockwave(active: bool, intensity: real, sunRadius: real): (rings: seq<Ring>)
    ensures |rings| == (if active && intensity > 0.5 then 2 else 0)
    ensures |rings| == 2 && 0.0 < sunRadius ==> rings[0].radius < rings[1].radius
  {
    if active && intensity > 0.5 then
      assert sunRadius * (2.5 - intensity * 0.5) - sunRadius * (2.0 - intensity) == sunRadius * (0.5 + intensity * 0.5);
      [Ring(sunRadius * (2.0 - intensity), intensity * 0.5), Ring(sunRadius * (2.5 - intensity * 0.5), intensity * 0.3)]
    else []
  }

  /** As the intensity decays, both rings widen. */
  lemma ShockwaveWidensAsIntensityFalls(i1: real, i2: real, sunRadius: real)
    requires 0.5 < i1 < i2 && 0.0 < sunRadius
    ensures Shockwave(true, i1, sunRadius)[0].radius > Shockwave(true, i2, sunRadius)[0].radius
    ensures Shockwave(true, i1, sunRadius)[1].radius > Shockwave(true, i2, sunRadius)[1].radius
  {
    assert sunRadius * (2.0 - i1) - sunRadius * (2.0 - i2) == sunRadius * (i2 - i1);
    assert sunRadius * (2.5 - i1 * 0.5) - sunRadius * (2.5 - i2 * 0.5) == sunRadius * (i2 - i1) * 0.5;
  }

  /** The CME that fires lasts exactly 100 frames: the firing frame leaves
      intensity 0.99, and the 99th frame after it ends the event. */
  lemma CmeLasts100Frames(s: CmeLatch.State, time: int, delay: Unit, n: nat)
    requires CmeLatch.Fires(s, time) && n <= 99
    ensures var fired := CmeLatch.Tick(RealisticCme, s, time, delay);
            fired.active &&
            (n < 99 ==> CmeLatch.Run(RealisticCme, fired, time, n).active) &&
            (n == 99 ==> !CmeLatch.Run(RealisticCme, fired, time, n).active)
  {
    var fired := CmeLatch.Tick(RealisticCme, s, time, delay);
    CmeLatch.LevelIsProduct(RealisticCme, 99);
    assert fired.intensity == CmeLatch.Level(RealisticCme, 99);
    CmeLatch.DecaysInSteps(RealisticCme, fired, time, 99, n);
  }

  /** The variables the `animate` closure captures. */
  class RealisticSimulation {
    var width: real
    var height: real
    var time: int
    var particles: seq<Particle>
    var cmeActive: bool
    var cmeIntensity: real
    var nextCMETime: real

    ghost predicate Valid()
      reads this
    {
      0.0 <= width && 0.0 <= height && CmeLatch.Inv(CmeState()) && forall p | p in particles :: Alive(p)
    }

    function CmeState(): CmeLatch.State
      reads this
    {
      CmeLatch.State(cmeActive, cmeIntensity, nextCMETime)
    }

    function CenterX(): real reads this { width / 2.0 }
    function CenterY(): real reads this { height / 2.0 }
    function SunRadius(): real reads this { Min(width, height) * 0.15 }

    constructor (width: real, height: real, cmeDraw: Unit)
      requires 0.0 <= width && 0.0 <= height
      ensures Valid()
      ensures this.width == width && this.height == height && time == 0 && particles == []
      ensures !cmeActive && cmeIntensity == 0.0 && 3000.0 <= nextCMETime < 8000.0
    {
      this.width, this.height := width, height;
      time := 0;
      particles := [];
      cmeActive, cmeIntensity := false, 0.0;
      nextCMETime := cmeDraw * 5000.0 + 3000.0;
    }

    /** `createParticle`: appends one particle and leaves the others alone. */
    method CreateParticle(x: real, y: real, kind: Kind, d: ParticleDraws)
      requires Valid()
      modifies this`particles
      ensures Valid()
      ensures particles == old(particles) + [NewParticle(x, y, kind, d)]
    {
      particles := particles + [NewParticle(x, y, kind, d)];
    }

    /** The loop pushing the 50 CME particles onto the ring. */
    method SpawnCmeBurst(seeds: seq<Seed>)
      requires Valid() && |seeds| == CmeBurstSize
      modifies this`particles
      ensures Valid()
      ensures particles == old(particles) + CmeBurst(CenterX(), CenterY(), SunRadius(), seeds)
    {
      for i := 0 to 50
        invariant Valid()
        invariant particles == old(particles) + CmeBurst(CenterX(), CenterY(), SunRadius(), seeds[..i])
      {
        var at := PointAt(CenterX(), CenterY(), seeds[i].dir, SunRadius() + seeds[i].jitter * 50.0);
        CreateParticle(at.0, at.1, Cme, seeds[i].draws);
        assert CmeBurst(CenterX(), CenterY(), SunRadius(), seeds[..i + 1])
            == CmeBurst(CenterX(), CenterY(), SunRadius(), seeds[..i]) + [NewParticle(at.0, at.1, Cme, seeds[i].draws)];
      }
      assert seeds[..50] == seeds;
    }

    /** The clock step and the CME trigger and decay at the top of `animate`. */
    method TriggerCme(delay: Unit, seeds: seq<Seed>)
      requires Valid() && |seeds| == CmeBurstSize
      modifies this`time, this`particles, this`cmeActive, this`cmeIntensity, this`nextCMETime
      ensures Valid()
      ensures time == old(time) + CmeLatch.FrameStep
      ensures CmeState() == CmeLatch.Tick(RealisticCme, old(CmeState()), time, delay)
      ensures particles == old(particles) +
                (if CmeLatch.Fires(old(CmeState()), time) then CmeBurst(CenterX(), CenterY(), SunRadius(), seeds) else [])
    {
      time := time + 16;
      if time as real > nextCMETime && !cmeActive {
        cmeActive := true;
        cmeIntensity := 1.0;
        nextCMETime := time as real + delay * 10000.0 + 8000.0;
        SpawnCmeBurst(seeds);
      }
      if cmeActive {
        cmeIntensity := cmeIntensity - 0.01;
        if cmeIntensity <= 0.0 {
          cmeActive := false;
          cmeIntensity := 0.0;
        }
      }
    }

    /** The corona and flare emission of `animate`. */
    method Emit(coronaGate: Unit, corona: Seed, flareGate: Unit, flareDir: Dir, flareDraws: seq<ParticleDraws>)
      requires Valid() && |flareDraws| == FlareBurstSize
      modifies this`particles
      ensures Valid()
      ensures particles == old(particles) +
                Emission(CenterX(), CenterY(), SunRadius(), coronaGate, corona, flareGate, flareDir, flareDraws)
    {
      if coronaGate < 0.1 {
        var at := PointAt(CenterX(), CenterY(), corona.dir, SunRadius() + corona.jitter * 20.0);
        CreateParticle(at.0, at.1, Corona, corona.draws);
      }
      ghost var before := particles;
      if flareGate < 0.05 {
        var at := PointAt(CenterX(), CenterY(), flareDir, SunRadius() * 0.9);
        for i := 0 to 10
          invariant Valid()
          invariant particles == before + Cluster(at.0, at.1, Flare, flareDraws[..i])
        {
          CreateParticle(at.0, at.1, Flare, flareDraws[i]);
          assert Cluster(at.0, at.1, Flare, flareDraws[..i + 1])
              == Cluster(at.0, at.1, Flare, flareDraws[..i]) + [NewParticle(at.0, at.1, Flare, flareDraws[i])];
        }
        assert flareDraws[..10] == flareDraws;
      }
    }

    /** The backward update loop of `animate`; `dist[i]` is particle `i`'s
        distance from the centre after its move. */
    method UpdateParticles(dist: seq<real>)
      requires Valid() && Measured(particles, dist, CenterX(), CenterY())
      modifies this`particles
      ensures Valid()
      ensures particles == UpdateAll(old(particles), dist, CenterX(), CenterY(), width)
    {
      var cx, cy, limit := CenterX(), CenterY(), width;
      ghost var ps := particles;
      var i := |particles| - 1;
      while i >= 0
        invariant -1 <= i < |ps|
        invariant Measured(ps[i + 1..], dist[i + 1..], cx, cy)
        invariant particles == ps[..i + 1] + UpdateAll(ps[i + 1..], dist[i + 1..], cx, cy, limit)
        decreases i
      {
        SpliceStep(ps, dist, cx, cy, limit, i, particles);
        var next := Advance(particles[i], dist[i], cx, cy, limit);
        match next {
          case None =>
            particles := particles[..i] + particles[i + 1..];
          case Some(q) =>
            particles := particles[..i] + [q] + particles[i + 1..];
        }
        i := i - 1;
      }
      assert ps[0..] == ps && dist[0..] == dist;
    }
  
    /** The CME burst the next `animate` appends, if its latch fires. */
    function CmeSpawns(cmeSeeds: seq<Seed>): seq<Particle>
      reads this
    {
      if CmeLatch.Fires(CmeState(), time + CmeLatch.FrameStep)
      then CmeBurst(CenterX(), CenterY(), SunRadius(), cmeSeeds) else []
    }

    /** The corona and flare particles the next `animate` emits. */
    function SunSpawns(coronaGate: Unit, corona: Seed, flareGate: Unit, flareDir: Dir, flareDraws: seq<ParticleDraws>): seq<Particle>
      requires |flareDraws| == FlareBurstSize
      reads this
    {
      Emission(CenterX(), CenterY(), SunRadius(), coronaGate, corona, flareGate, flareDir, flareDraws)
    }

    /** `animate` without the painting: the CME step, the emission, then the
        update; `dist` gives the after-move distances of the population the
        update sees. */
    method Animate(delay: Unit, cmeSeeds: seq<Seed>, coronaGate: Unit, corona: Seed,
                   flareGate: Unit, flareDir: Dir, flareDraws: seq<ParticleDraws>, dist: seq<real>)
      requires Valid() && |cmeSeeds| == CmeBurstSize && |flareDraws| == FlareBurstSize
      requires Measured(particles + CmeSpawns(cmeSeeds) + SunSpawns(coronaGate, corona, flareGate, flareDir, flareDraws),
                        dist, CenterX(), CenterY())
      modifies this`time, this`particles, this`cmeActive, this`cmeIntensity, this`nextCMETime
      ensures Valid()
      ensures time == old(time) + CmeLatch.FrameStep
      ensures CmeState() == CmeLatch.Tick(RealisticCme, old(CmeState()), time, delay)
      ensures particles ==
                UpdateAll(old(particles) + old(CmeSpawns(cmeSeeds)) + old(SunSpawns(coronaGate, corona, flareGate, flareDir, flareDraws)),
                          dist, CenterX(), CenterY(), width)
    {
      TriggerCme(delay, cmeSeeds);
      Emit(coronaGate, corona, flareGate, flareDir, flareDraws);
      UpdateParticles(dist);
    }
  }
}
