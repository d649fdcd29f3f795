/** SolarAnimation, the first and simplest variant: particles spawned near
    the sun with a count-down lifetime, moved and culled by a backward
    splice loop, and painted with an opacity written as a two-digit
    lowercase hex suffix of the colour. */
module SimpleSolar {
  import opened Support

  /** One particle; `life` counts down from `maxLife` by one per update. */
  datatype Particle = Particle(x: real, y: real, vx: real, vy: real, size: real, life: real, maxLife: real, color: string)

  /** The draws `createParticle` makes: direction, speed, size, lifetime and colour. */
  datatype ParticleDraws = ParticleDraws(dir: Dir, speed: Unit, size: Unit, life: Unit, color: Unit)

  const Blue: string := "#00bfff"
  const Orange: string := "#ff6600"

  /** The particle `createParticle(x, y)` pushes. */
  function NewParticle(x: real, y: real, d: ParticleDraws): (p: Particle)
    ensures p.x == x && p.y == y
    ensures p.life == p.maxLife && 50.0 <= p.life < 150.0
    ensures Sq(1.0) <= Sq(p.vx) + Sq(p.vy) < Sq(3.0)
    ensures 1.0 <= p.size < 4.0
    ensures p.color == (if d.color > 0.5 then Blue else Orange)
  {
    var speed := d.speed * 2.0 + 1.0;
    ScaledDirLength(d.dir, speed);
    SqMonotone(1.0, speed);
    SqStrictMonotone(speed, 3.0);
    var life := d.life * 100.0 + 50.0;
    Particle(x, y, d.dir.0 * speed, d.dir.1 * speed, d.size * 3.0 + 1.0, life, life,
             if d.color > 0.5 then Blue else Orange)
  }

  /** The emission at the end of `drawSun`: with probability 0.3 one particle
      at `radius + jitter * 20` from the centre. */
  function Emission(cx: real, cy: real, radius: real, gate: Unit, dir: Dir, jitter: Unit, d: ParticleDraws): (ps: seq<Particle>)
    ensures |ps| == (if gate < 0.3 then 1 else 0)
    ensures forall i | 0 <= i < |ps| :: ps[i].life == ps[i].maxLife && 0.0 < ps[i].life
    ensures 0.0 <= radius && |ps| == 1 ==>
              Sq(radius) <= Sq(ps[0].x - cx) + Sq(ps[0].y - cy) < Sq(radius + 20.0)
  {
    var dist := radius + jitter * 20.0;
    var at := PointAt(cx, cy, dir, dist);
    RingBand(radius, 20.0, jitter);
    if gate < 0.3 then [NewParticle(at.0, at.1, d)] else []
  }

  /** One particle's turn in `updateParticles`: move by its velocity, lose one
      unit of life, and go when the life left is 0 or less. */
  function Step(p: Particle): (r: Option<Particle>)
    ensures r.None? <==> p.life - 1.0 <= 0.0
    ensures r.Some? ==>
              r.value == p.(x := p.x + p.vx, y := p.y + p.vy, life := p.life - 1.0)
  {
    var q := p.(x := p.x + p.vx, y := p.y + p.vy, life := p.life - 1.0);
    if q.life <= 0.0 then None else Some(q)
  }

  /** No particle has more life left than it started with. */
  predicate WithinLifetime(ps: seq<Particle>) {
    forall p | p in ps :: p.life <= p.maxLife
  }

  /** Fresh particles start at their full lifetime, so appending them to a
      population within its lifetimes keeps it within them. */
  lemma SpawnedWithinLifetime(ps: seq<Particle>, spawned: seq<Particle>)
    requires WithinLifetime(ps)
    requires forall i | 0 <= i < |spawned| :: spawned[i].life == spawned[i].maxLife
    ensures WithinLifetime(ps + spawned)
  {
    forall p | p in ps + spawned ensures p.life <= p.maxLife {
      if p !in ps {
        var i :| 0 <= i < |spawned| && spawned[i] == p;
      }
    }
  }

  /** The population after `updateParticles`: every particle stepped once, the
      expired ones left out, the survivors in their original order. */
  function Tick(ps: seq<Particle>): (r: seq<Particle>)
    ensures |r| <= |ps|
    ensures forall q | q in r :: 0.0 < q.life
    ensures WithinLifetime(ps) ==> forall q | q in r :: q.life + 1.0 <= q.maxLife
    decreases |ps|
  {
    if |ps| == 0 then []
    else
      assert forall p | p in ps[1..] :: p in ps;
      var head := match Step(ps[0]) case None => [] case Some(q) => [q];
      head + Tick(ps[1..])
  }

  /** One turn of the backward splice loop: with the suffix after `i`
      already updated, stepping particle `i` in place (or splicing it out)
      leaves the suffix from `i` updated. */
  lemma SpliceStep(ps: seq<Particle>, i: nat, cur: seq<Particle>)
    requires i < |ps| && cur == ps[..i + 1] + Tick(ps[i + 1..])
    ensures i < |cur| && cur[i] == ps[i]
    ensures Step(ps[i]).None? ==> cur[..i] + cur[i + 1..] == ps[..i] + Tick(ps[i..])
    ensures Step(ps[i]).Some? ==> cur[..i] + [Step(ps[i]).value] + cur[i + 1..] == ps[..i] + Tick(ps[i..])
  {
    assert ps[i..][0] == ps[i] && ps[i..][1..] == ps[i + 1..];
    var rest := Tick(ps[i + 1..]);
    assert cur[..i] == ps[..i] && cur[i] == ps[i] && cur[i + 1..] == rest;
    match Step(ps[i]) {
      case None =>
        assert Tick(ps[i..]) == rest;
      case Some(q) =>
        assert Tick(ps[i..]) == [q] + rest;
        assert cur[..i] + [q] + cur[i + 1..] == ps[..i] + ([q] + rest);
    }
  }

  /** A particle survives the update exactly when some old particle steps to it. */
  lemma {:induction false} TickMembers(ps: seq<Particle>, q: Particle)
    ensures q in Tick(ps) <==> exists i | 0 <= i < |ps| :: Step(ps[i]) == Some(q)
    decreases |ps|
  {
    if |ps| > 0 {
      TickMembers(ps[1..], q);
      if exists i | 0 <= i < |ps| :: Step(ps[i]) == Some(q) {
        var i :| 0 <= i < |ps| && Step(ps[i]) == Some(q);
        if i > 0 {
          assert ps[1..][i - 1] == ps[i];
        }
      }
      if exists i | 0 <= i < |ps| - 1 :: Step(ps[1..][i]) == Some(q) {
        var i :| 0 <= i < |ps| - 1 && Step(ps[1..][i]) == Some(q);
        assert ps[1..][i] == ps[i + 1];
      }
    }
  }

  /** `n` consecutive updates with no spawning in between. */
  function Run(ps: seq<Particle>, n: nat): seq<Particle>
    decreases n
  {
    if n == 0 then ps else Run(Tick(ps), n - 1)
  }

  lemma {:induction false} RunEmpty(n: nat)
    ensures Run([], n) == []
    decreases n
  {
    if n > 0 {
      assert Tick([]) == [];
      RunEmpty(n - 1);
    }
  }

  /** The least integer not below `r`. */
  function Ceil(r: real): (c: int)
    ensures (c - 1) as real < r <= c as real
    ensures r <= 0.0 ==> c <= 0
  {
    if r.Floor as real == r then r.Floor else r.Floor + 1
  }

  /** A particle with `L > 0` life left is still there, with `L - k` left,
      after `k < ceil(L)` updates, and gone after `ceil(L)` or more. */
  lemma {:induction false} RemovedAtCeilingUpdate(p: Particle, k: nat)
    requires 0.0 < p.life
    ensures k < Ceil(p.life) ==> |Run([p], k)| == 1 && Run([p], k)[0].life == p.life - k as real
    ensures k >= Ceil(p.life) ==> Run([p], k) == []
    decreases k
  {
    if k > 0 {
      var next := Tick([p]);
      assert Tick([p]) == (match Step(p) case None => [] case Some(q) => [q]) + Tick([]);
      if p.life - 1.0 <= 0.0 {
        assert Ceil(p.life) == 1;
        assert next == [];
        RunEmpty(k - 1);
      } else {
        var q := p.(x := p.x + p.vx, y := p.y + p.vy, life := p.life - 1.0);
        assert next == [q];
        assert Ceil(q.life) == Ceil(p.life) - 1;
        RemovedAtCeilingUpdate(q, k - 1);
      }
    }
  }

  /** A freshly spawned particle with lifetime `L` is removed by exactly the
      `ceil(L)`-th update. */
  lemma SpawnedLivesCeilingUpdates(x: real, y: real, d: ParticleDraws)
    ensures var p := NewParticle(x, y, d);
            |Run([p], Ceil(p.maxLife) - 1)| == 1 && Run([p], Ceil(p.maxLife)) == []
  {
    var p := NewParticle(x, y, d);
    RemovedAtCeilingUpdate(p, Ceil(p.maxLife) - 1);
    RemovedAtCeilingUpdate(p, Ceil(p.maxLife));
  }

  /** `alpha = life / maxLife`. */
  function Alpha(p: Particle): (a: real)
    requires 0.0 < p.maxLife
    ensures a * p.maxLife == p.life
    ensures 0.0 < p.life < p.maxLife ==> 0.0 < a < 1.0
  {
    var a := p.life / p.maxLife;
    assert a * p.maxLife == p.life;
    assert (1.0 - a) * p.maxLife == p.maxLife - p.life;
    assert p.life < p.maxLife ==> a < 1.0 by {
      if p.life < p.maxLife && 1.0 <= a {
        assert false;
      }
    }
    a
  }

  const HexDigits: string := "0123456789abcdef"

  function HexDigit(n: nat): char
    requires n < 16
  {
    HexDigits[n]
  }

  predicate IsHexDigit(c: char) {
    c in HexDigits
  }

  function DigitValue(c: char): nat {
    if '0' <= c <= '9' then (c as int - '0' as int) as nat
    else if 'a' <= c <= 'f' then (c as int - 'a' as int + 10) as nat
    else 0
  }

  /** The value of a string of lowercase hex digits. */
  function ParseHex(s: string): nat
    decreases |s|
  {
    if |s| == 0 then 0 else ParseHex(s[..|s| - 1]) * 16 + DigitValue(s[|s| - 1])
  }

  /** `n.toString(16)` for a non-negative integer: lowercase hex digits, no
      leading zeros. */
  function ToHex(n: nat): (s: string)
    ensures 1 <= |s|
    ensures n < 16 ==> |s| == 1
    ensures 16 <= n < 256 ==> |s| == 2
    decreases n
  {
    if n < 16 then [HexDigit(n)] else ToHex(n / 16) + [HexDigit(n % 16)]
  }

  /** `toString(16)` on an integer: a minus sign before the digits of a negative one. */
  function IntToHex(i: int): (s: string)
    ensures 0 <= i ==> 1 <= |s| && ParseHex(s) == i && forall k | 0 <= k < |s| :: IsHexDigit(s[k])
    ensures 0 <= i < 16 ==> |s| == 1
    ensures 16 <= i < 256 ==> |s| == 2
    ensures i < 0 ==> 2 <= |s| && s[0] == '-' && ParseHex(s[1..]) == -i && forall k | 1 <= k < |s| :: IsHexDigit(s[k])
  {
    if i < 0 then
      ToHexRoundTrip(-i);
      var s := "-" + ToHex(-i);
      assert s[1..] == ToHex(-i);
      s
    else
      ToHexRoundTrip(i);
      ToHex(i)
  }

  /** Parsing the digits back gives the number. */
  lemma {:induction false} ToHexRoundTrip(n: nat)
    ensures ParseHex(ToHex(n)) == n
    ensures forall i | 0 <= i < |ToHex(n)| :: IsHexDigit(ToHex(n)[i])
    decreases n
  {
    if n < 16 {
      assert ToHex(n)[..0] == [];
    } else {
      ToHexRoundTrip(n / 16);
      var s := ToHex(n);
      assert s[..|s| - 1] == ToHex(n / 16);
    }
    DigitValueOfHexDigit(n % 16);
  }

  lemma DigitValueOfHexDigit(n: nat)
    requires n < 16
    ensures DigitValue(HexDigit(n)) == n && IsHexDigit(HexDigit(n))
  {
  }

  /** `padStart(2, '0')`. */
  function PadStart2(s: string): (r: string)
    ensures |s| <= 2 ==> |r| == 2
    ensures |s| >= 2 ==> r == s
    ensures r[|r| - |s|..] == s
  {
    if |s| >= 2 then s else seq(2 - |s|, _ => '0') + s
  }

  lemma {:induction false} LeadingZeros(z: string, s: string)
    requires forall i | 0 <= i < |z| :: z[i] == '0'
    ensures ParseHex(z + s) == ParseHex(s)
    decreases |s|
  {
    if |s| == 0 {
      assert z + s == z;
      ZerosParseToZero(z);
    } else {
      assert (z + s)[..|z + s| - 1] == z + s[..|s| - 1];
      LeadingZeros(z, s[..|s| - 1]);
    }
  }

  lemma {:induction false} ZerosParseToZero(z: string)
    requires forall i | 0 <= i < |z| :: z[i] == '0'
    ensures ParseHex(z) == 0
    decreases |z|
  {
    if |z| > 0 {
      ZerosParseToZero(z[..|z| - 1]);
    }
  }

  /** The opacity suffix of `drawParticles`: `floor(alpha * 255)` in hex,
      padded to two characters. */
  function AlphaSuffix(alpha: real): string {
    PadStart2(IntToHex((alpha * 255.0).Floor))
  }

  /** The fill style: the colour followed by the opacity suffix. */
  function FillStyle(p: Particle): string
    requires 0.0 < p.maxLife
  {
    p.color + AlphaSuffix(Alpha(p))
  }

  /** A byte prints, padded, as exactly two hex digits that parse back to it. */
  lemma PaddedByteRoundTrip(n: int)
    requires 0 <= n < 256
    ensures var s := PadStart2(IntToHex(n));
            |s| == 2 && IsHexDigit(s[0]) && IsHexDigit(s[1]) && ParseHex(s) == n
  {
    var h := IntToHex(n);
    var s := PadStart2(h);
    if |h| == 1 {
      assert s == "0" + h;
      LeadingZeros("0", h);
    } else {
      assert s == h;
    }
  }

  /** For an opacity in (0, 1) the suffix is exactly two hex digits that
      parse back to `floor(alpha * 255)`. */
  lemma AlphaSuffixRoundTrip(alpha: real)
    requires 0.0 < alpha < 1.0
    ensures var s := AlphaSuffix(alpha);
            |s| == 2 && IsHexDigit(s[0]) && IsHexDigit(s[1]) && ParseHex(s) == (alpha * 255.0).Floor
  {
    var n := (alpha * 255.0).Floor;
    assert 0 <= n < 255;
    PaddedByteRoundTrip(n);
  }

  /** A particle between updates is painted with a 9-character `#rrggbbaa`
      fill whose first seven characters are its colour. */
  lemma FillStyleIsRgba(p: Particle)
    requires p.color == Blue || p.color == Orange
    requires 0.0 < p.life && p.life + 1.0 <= p.maxLife
    ensures |FillStyle(p)| == 9 && FillStyle(p)[..7] == p.color
  {
    AlphaSuffixRoundTrip(Alpha(p));
  }

  /** The variables the `animate` closure captures. */
  class SimpleSimulation {
    var width: real
    var height: real
    var time: int
    var particles: seq<Particle>

    /** Between frames every particle has been updated at least once, so its
        life is positive and at least one below its lifetime. */
    ghost predicate Valid()
      reads this
    {
      0.0 <= width && 0.0 <= height &&
      forall p | p in particles :: 0.0 < p.life && p.life + 1.0 <= p.maxLife
    }

    function CenterX(): real reads this { width / 2.0 }
    function CenterY(): real reads this { height / 2.0 }
    function Radius(): real reads this { Min(width, height) * 0.15 }

    constructor (width: real, height: real)
      requires 0.0 <= width && 0.0 <= height
      ensures Valid()
      ensures this.width == width && this.height == height && time == 0 && particles == []
    {
      this.width, this.height := width, height;
      time := 0;
      particles := [];
    }

    /** `createParticle`: appends one particle and leaves the others alone. */
    method CreateParticle(x: real, y: real, d: ParticleDraws)
      modifies this`particles
      ensures particles == old(particles) + [NewParticle(x, y, d)]
    {
      particles := particles + [NewParticle(x, y, d)];
    }

    /** The spawning step at the end of `drawSun`. */
    method EmitFromSun(gate: Unit, dir: Dir, jitter: Unit, d: ParticleDraws)
      modifies this`particles
      ensures particles == old(particles) + Emission(CenterX(), CenterY(), Radius(), gate, dir, jitter, d)
    {
      if gate < 0.3 {
        var at := PointAt(CenterX(), CenterY(), dir, Radius() + jitter * 20.0);
        CreateParticle(at.0, at.1, d);
      }
    }

    /** `updateParticles`: the backward loop that steps each particle in place
        and splices out the expired ones. */
    method UpdateParticles()
      modifies this`particles
      ensures particles == Tick(old(particles))
    {
      ghost var ps := particles;
      var i := |particles| - 1;
      while i >= 0
        invariant -1 <= i < |ps|
        invariant particles == ps[..i + 1] + Tick(ps[i + 1..])
        decreases i
      {
        SpliceStep(ps, i, particles);
        match Step(particles[i]) {
          case None =>
            particles := particles[..i] + particles[i + 1..];
          case Some(q) =>
            particles := particles[..i] + [q] + particles[i + 1..];
        }
        assert particles == ps[..i] + Tick(ps[i..]);
        i := i - 1;
      }
      assert ps[0..] == ps;
    }

    /** `animate` without the painting: at most one new particle, one update,
        and the clock advanced by one. */
    method Animate(gate: Unit, dir: Dir, jitter: Unit, d: ParticleDraws)
      requires Valid()
      modifies this`particles, this`time
      ensures Valid()
      ensures time == old(time) + 1
      ensures particles == Tick(old(particles) + Emission(CenterX(), CenterY(), Radius(), gate, dir, jitter, d))
    {
      ghost var spawned := Emission(CenterX(), CenterY(), Radius(), gate, dir, jitter, d);
      SpawnedWithinLifetime(particles, spawned);
      EmitFromSun(gate, dir, jitter, d);
      UpdateParticles();
      time := time + 1;
    }
  }
}
