/** The coronal-mass-ejection latch that both canvas animations run once per
    frame. A CME fires when the clock has passed the next trigger time and no
    CME is active; firing sets the intensity to 1 and draws the next trigger
    time. In the same call, and in every later call while the CME is active,
    the intensity drops by a fixed step; once it reaches 0 or below it is set
    to 0 and the CME ends. The two animations differ only in the constants. */
module CmeLatch {
  import opened Support

  /** Every frame advances the animation clock by this many milliseconds. */
  const FrameStep: int := 16

  /** The per-call intensity drop, and the next trigger time drawn as
      `time + draw * delaySpan + delayMin`. */
  datatype Config = Config(decay: real, delayMin: real, delaySpan: real)

  predicate ValidConfig(c: Config) {
    0.0 < c.decay < 1.0 && 0.0 < c.delaySpan
  }

  /** `cmeActive`, `cmeIntensity` and `nextCMETime`. */
  datatype State = State(active: bool, intensity: real, nextTime: real)

  /** An active CME has an intensity in (0, 1]; an inactive one has intensity 0. */
  predicate Inv(s: State) {
    (s.active ==> 0.0 < s.intensity <= 1.0) && (!s.active ==> s.intensity == 0.0)
  }

  /** The trigger test: `time > nextCMETime && !cmeActive`. */
  predicate Fires(s: State, time: int) {
    time as real > s.nextTime && !s.active
  }

  /** One call of the latch, with `time` already advanced for this frame;
      `delay` is the random draw used only when the CME fires. */
  function Tick(c: Config, s: State, time: int, delay: Unit): (r: State)
    requires ValidConfig(c)
    ensures Inv(s) ==> Inv(r)
    ensures Fires(s, time) ==>
              r.active && r.intensity == 1.0 - c.decay &&
              time as real + c.delayMin <= r.nextTime < time as real + c.delayMin + c.delaySpan
    ensures !Fires(s, time) ==> r.nextTime == s.nextTime
    ensures s.active ==>
              (r.active <==> s.intensity - c.decay > 0.0) &&
              (r.active ==> r.intensity == s.intensity - c.decay) &&
              (!r.active ==> r.intensity == 0.0)
    ensures !s.active && !Fires(s, time) ==> r == s
  {
    var fired := if Fires(s, time) then State(true, 1.0, time as real + delay * c.delaySpan + c.delayMin) else s;
    if fired.active then
      var dropped := fired.intensity - c.decay;
      if dropped <= 0.0 then State(false, 0.0, fired.nextTime) else State(true, dropped, fired.nextTime)
    else
      fired
  }

  /** `n` further calls, one per frame, starting with the clock at `time`.
      The draw passed for the trigger time is irrelevant while a CME is active. */
  function Run(c: Config, s: State, time: int, n: nat): State
    requires ValidConfig(c)
    decreases n
  {
    if n == 0 then s else Run(c, Tick(c, s, time + FrameStep, 0.0), time + FrameStep, n - 1)
  }

  /** The intensity that `j` more decay steps take to 0: `j` times the step,
      written as a sum so that the proofs about it stay linear. */
  function Level(c: Config, j: nat): real
    decreases j
  {
    if j == 0 then 0.0 else Level(c, j - 1) + c.decay
  }

  /** The sum is the product `decay * j`, and positive for every `j > 0`. */
  lemma {:induction false} LevelIsProduct(c: Config, j: nat)
    requires ValidConfig(c)
    ensures Level(c, j) == c.decay * j as real
    ensures j > 0 ==> Level(c, j) > 0.0
    decreases j
  {
    if j > 0 {
      LevelIsProduct(c, j - 1);
      assert c.decay * (j - 1) as real + c.decay == c.decay * j as real;
    }
  }

  /** One call on an active CME of `j` decay steps leaves `j - 1` steps, and
      ends it when `j` was 1; the trigger time is left alone. */
  lemma DecayStep(c: Config, s: State, time: int, j: nat)
    requires ValidConfig(c)
    requires s.active && s.intensity == Level(c, j) && 1 <= j
    ensures Tick(c, s, time, 0.0) == State(j > 1, Level(c, j - 1), s.nextTime)
  {
    LevelIsProduct(c, j - 1);
  }

  /** An active CME whose intensity is `j` decay steps lasts exactly `j` more
      calls: it stays active, losing one step per call, and the `j`-th call
      ends it with intensity 0. No new CME can fire in between. */
  lemma {:induction false} DecaysInSteps(c: Config, s: State, time: int, j: nat, n: nat)
    requires ValidConfig(c)
    requires s.active && s.intensity == Level(c, j)
    requires 1 <= j && n <= j
    ensures Run(c, s, time, n) == State(n < j, Level(c, j - n), s.nextTime)
    decreases n
  {
    if n > 0 {
      var t := Tick(c, s, time + FrameStep, 0.0);
      DecayStep(c, s, time + FrameStep, j);
      if j == 1 {
        assert Run(c, t, time + FrameStep, 0) == t;
      } else {
        DecaysInSteps(c, t, time + FrameStep, j - 1, n - 1);
      }
    }
  }
}
