# Solar activity simulation and CME prediction page, in Dafny

This project models the parts of the site that hold real logic. The first
part is the three canvas animations of the Sun and its ejecta. The second is
the `Predict` page that takes SWIS-ASPEX `.cdf` uploads and produces a mock
CME verdict. The third is the `AnalysisResults` view that displays that
verdict.

- **`HyperRealisticSolarAnimation`** (module `HyperRealisticSolar`, class
  `SolarSimulation`). This is the animation the site mounts.
  - Each frame advances the clock by 16 ms.
  - It runs the CME latch: a trigger time, an 80-particle burst, and an
    intensity that decays by 0.008 per frame.
  - It runs the flare latch, which emits a 15-particle flare burst.
  - It sometimes emits one ambient proton, electron or corona particle.
  - It then updates every particle in a reverse splice loop. Updating means
    acceleration by kind, the magnetic "orbital" nudge for ambient kinds,
    integration, ageing, and removal when too old or too far.
  - Drawing uses the fade alpha, the trail of energetic particles and the
    three shockwave rings.
- **`RealisticSolarAnimation`** (module `RealisticSolar`, class
  `RealisticSimulation`). Same structure with different constants:
  - a 50-particle CME burst and a decay of 0.01 per frame;
  - corona and 10-particle flare emission;
  - ×1.02 for CME particles and a fixed 0.1 nudge for the rest;
  - two shockwave rings.
- **`SolarAnimation`** (module `SimpleSolar`, class `SimpleSimulation`).
  - Particles count their life down and are removed at 0.
  - The fill colour is `#rrggbb` followed by a two-digit hex alpha.
- **`CmeLatch`**: the CME trigger-and-decay state machine that the two
  richer animations share, parameterised by its constants.
- **`Predict`**:
  - `.cdf` validation and batch intake: added, duplicate and rejected files, and the rejection toast text;
  - removal by index;
  - the six-file gate;
  - the mock result and the mock time series.
- **`AnalysisResults`**:
  - type descriptions and colours;
  - chart rows;
  - characteristic cards with camelCase keys formatted as titles, units and bar widths;
  - the view: headline, type text and colour, probability and confidence,
    probability bar, parameter cards, chart rows, temperature bars and the
    interpretation paragraph.

`Support` holds what the modules share:
- `Unit` stands for a `Math.random()` draw in `[0, 1)`.
- `Dir` stands for a `(cos θ, sin θ)` pair.
- It also holds `Sq`, `Min`, `Max` and `Option`.

Randomness enters every operation as explicit draw parameters. Each
spawned particle gets its own `Seed` or `ParticleDraws`.

`Math.sqrt` is not computed. Update operations take the distance `d` of each
particle as a parameter, constrained by `d ≥ 0` and `d² = dx² + dy²`.

The magnetic nudge of the hyper-realistic animation divides by `d`, and the
code has no guard for `d = 0`. The model follows the code here: such a
particle gets a `nan` flag that stands for IEEE NaN coordinates. After that,
every distance comparison fails, so it leaves the list only by age. The
realistic animation does the same, except that on the frame where `d = 0` the
particle has already moved and only its velocity turns NaN; its coordinates
follow on the next move.

Some behaviour of the code is easy to misread, and the model keeps it as written:
- **Flares have no timer.** The flare latch fires on a 2% draw or while
  `flareIntensity > 0`. An intensity that reaches exactly 0 is reset to 1,
  so a flare never ends once it starts (`FlareLatchHolds`). `nextFlareTime`
  is drawn at start and never read.
- **No guard at `d = 0`.** The magnetic nudge divides by the distance
  without checking it (see the `nan` flag above).
- **Removal compares against the width only.** The hyper-realistic loop
  removes a particle whose distance exceeds `canvas.width * 1.5`, not the
  larger canvas dimension. That distance is measured before the move. The
  realistic loop compares against `canvas.width` and measures after the move.
- **The next CME time is half-open.** It is drawn from
  `[clock+10000, clock+25000)`, so it can equal `clock+10000`.

## Model

| member | source | states |
|---|---|---|
| CmeLatch.Tick | src/components/HyperRealisticSolarAnimation.tsx:259-290 | a CME fires only when the clock has passed the trigger time and none is active; firing sets intensity to 1 minus one decay step and re-arms the trigger in `[time+min, time+min+span)`; an active CME loses one decay step and ends exactly when the intensity is no longer positive; a quiet latch that does not fire is unchanged; the invariant (inactive ⇒ intensity 0, active ⇒ intensity in (0,1]) is preserved |
| CmeLatch.LevelIsProduct | src/components/HyperRealisticSolarAnimation.tsx:283-289 | the intensity `j` decay steps above zero equals `j × decay`, positive when `j > 0` |
| CmeLatch.DecayStep | src/components/HyperRealisticSolarAnimation.tsx:283-289 | one frame of an active CME at `j` steps above zero leaves it at `j-1` steps, still active iff `j > 1`, trigger time unchanged |
| CmeLatch.DecaysInSteps | src/components/HyperRealisticSolarAnimation.tsx:283-289 | `n ≤ j` frames of an active CME at `j` steps leave it at `j-n` steps, active iff `n < j` |
| HyperRealisticSolar.RealisticColor | src/components/HyperRealisticSolarAnimation.tsx:91-113 | each kind gets its hue, saturation and lightness band; the plasma hue is clamped to [0, 60] by temperature (0 at ≤ 50000 K, 60 at ≥ 70000 K) |
| HyperRealisticSolar.HueIdentifiesKind | src/components/HyperRealisticSolarAnimation.tsx:91-113 | the hue bands of the five non-plasma kinds are disjoint: the hue alone recovers the kind |
| HyperRealisticSolar.LaunchSpeed | src/components/HyperRealisticSolarAnimation.tsx:59-61 | a launch speed `base + draw × base × 0.5` gives a velocity whose magnitude lies in `[base, 1.5 base)`, and energy² = speed² × (0.1 density)² |
| HyperRealisticSolar.LaunchMotion | src/components/HyperRealisticSolarAnimation.tsx:59-88 | the velocity magnitude lies in `[base, 1.5 base)`, and the energy is positive with energy² = speed² × (0.1 density)² |
| HyperRealisticSolar.NewParticle | src/components/HyperRealisticSolarAnimation.tsx:54-89 | a new particle sits at the given point with age 0; its speed is in `[base, 1.5 base)` for its kind; lifespan, size, density, temperature and field lie in the source's bands per kind; energy = speed × density × 0.1; the colour is its kind's colour |
| HyperRealisticSolar.OnlyCmeLeavesTrail | src/components/HyperRealisticSolarAnimation.tsx:60-88 | only a CME particle can be spawned with energy above the trail threshold of 50 |
| HyperRealisticSolar.Launch | src/components/HyperRealisticSolarAnimation.tsx:271-279 | a burst particle is alive, of the burst's kind, and spawned in the annulus `[radius, radius + spread)` around the centre |
| HyperRealisticSolar.Burst | src/components/HyperRealisticSolarAnimation.tsx:271-279 | a burst appends one live particle of its kind per seed, each within the spawn annulus |
| Support.RingBand | src/components/HyperRealisticSolarAnimation.tsx:273 | a spawn distance `radius + jitter × spread` lies in `[radius, radius + spread)` |
| HyperRealisticSolar.FlareStep | src/components/HyperRealisticSolarAnimation.tsx:225-227 | the flare burst is emitted iff the gate draw is below 0.02 or a flare is decaying; the emitting step leaves a positive intensity ≤ 1, any other step leaves it unchanged |
| HyperRealisticSolar.FlareLatchHolds | src/components/HyperRealisticSolarAnimation.tsx:225-227 | once the flare intensity is positive, every later frame emits the flare burst whatever the draws, and the intensity stays in (0, 1] |
| HyperRealisticSolar.AmbientKind | src/components/HyperRealisticSolarAnimation.tsx:251 | the ambient kind is proton, electron or corona, and proton exactly when the first draw exceeds 0.7 |
| HyperRealisticSolar.Emission | src/components/HyperRealisticSolarAnimation.tsx:225-253 | the frame's emission holds 15 flare particles iff the flare latch fires plus one ambient particle iff its gate is below 0.15; all are alive at age 0, the ambient one last |
| Support.UnitRadial | src/components/HyperRealisticSolarAnimation.tsx:319-320 | `(-dy/d, dx/d)` is a unit vector when `d` is the distance |
| Support.RadialProjection | src/components/HyperRealisticSolarAnimation.tsx:319-320 | `(dx/d, dy/d)` projected on `(dx, dy)` gives back `d`, which fixes the nudge's sense of rotation |
| HyperRealisticSolar.Nudge | src/components/HyperRealisticSolarAnimation.tsx:317-321 | the magnetic nudge is perpendicular to the radius, has magnitude equal to the force and turns counter-clockwise in canvas coordinates (cross product `d × force`), i.e. it is `(-dy/d, dx/d) × force` and not its opposite |
| HyperRealisticSolar.Advance | src/components/HyperRealisticSolarAnimation.tsx:297-331 | a particle is removed iff its incremented age exceeds its lifespan or (coordinates not NaN and) its pre-move distance exceeds the limit; a kept particle keeps its body, ages by one, moves by its new velocity; the new velocity is the old one times the kind's multiplier, plus for ambient kinds a perpendicular, counter-clockwise nudge of magnitude `magneticField × 0.001`; NaN arises exactly from a nudge at distance 0 |
| HyperRealisticSolar.MeasuredSuffix | src/components/HyperRealisticSolarAnimation.tsx:313-315 | distances measured for a list stay measured for each suffix |
| HyperRealisticSolar.UpdateAll | src/components/HyperRealisticSolarAnimation.tsx:292-333 | the update never grows the list, and every survivor is alive with age ≥ 1 |
| HyperRealisticSolar.SpliceStep | src/components/HyperRealisticSolarAnimation.tsx:296-331 | processing index `i` of the reverse loop, with the tail already updated, either splices out `ps[i]` or replaces it with its advanced self, giving the update of the suffix from `i` |
| HyperRealisticSolar.UpdateAllMembers | src/components/HyperRealisticSolarAnimation.tsx:292-333 | a particle is in the updated list iff it is the advance of some particle of the old list |
| HyperRealisticSolar.ParticleAlpha | src/components/HyperRealisticSolarAnimation.tsx:337 | the alpha lies in [0, 1], is 1 at age 0 and is 0 exactly once age reaches the lifespan |
| HyperRealisticSolar.Trail | src/components/HyperRealisticSolarAnimation.tsx:387-395 | a trail is drawn iff energy exceeds 50; it ends at the particle and is twice the velocity long |
| HyperRealisticSolar.Shockwave | src/components/HyperRealisticSolarAnimation.tsx:401-428 | three rings are drawn iff a CME is active with intensity above 0.3; the radii are increasing and at least twice the sun radius, the opacities decreasing and at most 0.6 |
| HyperRealisticSolar.ShockwaveWidensAsIntensityFalls | src/components/HyperRealisticSolarAnimation.tsx:401-428 | as the CME intensity falls, every ring widens |
| HyperRealisticSolar.CmeLasts125Calls | src/components/HyperRealisticSolarAnimation.tsx:259-290 | a CME that fires stays active for the firing call and the next 123 calls and ends on the 124th after it |
| HyperRealisticSolar.SolarSimulation.constructor | src/components/HyperRealisticSolarAnimation.tsx:22-52 | the clock starts at 0 with no particles and no flare or CME; the CME is due in [5000, 13000) ms, the unused flare time in [2000, 5000) |
| HyperRealisticSolar.SolarSimulation.Resize | src/components/HyperRealisticSolarAnimation.tsx:15-18 | resizing sets the canvas size and changes nothing else |
| HyperRealisticSolar.SolarSimulation.CreateRealisticParticle | src/components/HyperRealisticSolarAnimation.tsx:54-89 | appends exactly the new particle |
| HyperRealisticSolar.SolarSimulation.SpawnBurst | src/components/HyperRealisticSolarAnimation.tsx:271-279 | appends exactly the burst around the sun's centre |
| HyperRealisticSolar.SolarSimulation.HandleSolarEvents | src/components/HyperRealisticSolarAnimation.tsx:256-290 | the clock advances 16 ms; the CME state takes one latch step; the 80-particle burst is appended iff the CME fires |
| HyperRealisticSolar.SolarSimulation.EmitFromSun | src/components/HyperRealisticSolarAnimation.tsx:224-253 | the flare intensity takes one latch step and the frame's emission is appended |
| HyperRealisticSolar.SolarSimulation.UpdateParticles | src/components/HyperRealisticSolarAnimation.tsx:292-333 | the reverse splice loop leaves exactly the list update of the old list, with limit `1.5 × width` |
| HyperRealisticSolar.SolarSimulation.SpawnFrame | src/components/HyperRealisticSolarAnimation.tsx:430-432 | the event step and the sun's emission of one frame, in order |
| HyperRealisticSolar.SolarSimulation.Animate | src/components/HyperRealisticSolarAnimation.tsx:430-438 | one frame: clock and CME latch step, flare latch step; the old list, then the CME burst, then the emission are concatenated, and the whole list (new particles included) takes one update step: `UpdateAll(old ++ burst ++ emission)` |
| RealisticSolar.ParticleColor | src/components/RealisticSolarAnimation.tsx:55-59 | each kind gets its hue band, saturation and lightness band |
| RealisticSolar.SaturationIdentifiesKind | src/components/RealisticSolarAnimation.tsx:55-59 | the saturation alone recovers the kind |
| RealisticSolar.NewParticle | src/components/RealisticSolarAnimation.tsx:43-62 | a new particle sits at the given point with age 0; speed, lifespan and size lie in the bands of its kind; its colour is its kind's |
| RealisticSolar.CmeBurst | src/components/RealisticSolarAnimation.tsx:90-97 | one live CME particle per seed, particle `i` at distance `sunRadius + jitter_i × 50` from the centre, hence in `[sunRadius, sunRadius + 50)` |
| RealisticSolar.Launch | src/components/RealisticSolarAnimation.tsx:91-96 | one burst particle: a live CME particle at distance `sunRadius + jitter × 50` from the centre |
| RealisticSolar.Cluster | src/components/RealisticSolarAnimation.tsx:193-199 | a flare cluster is live particles of one kind, all at the same point, one per draw |
| RealisticSolar.Emission | src/components/RealisticSolarAnimation.tsx:178-200 | one corona particle iff its gate is below 0.1, first, at distance `sunRadius + jitter × 20` (so in `[sunRadius, sunRadius + 20)`); then ten flare particles iff the flare gate is below 0.05, all at one point at distance `0.9 × sunRadius`; all alive at age 0 |
| RealisticSolar.Advance | src/components/RealisticSolarAnimation.tsx:205-228 | a particle moves by its old velocity and ages; it is removed iff too old or (not NaN and) its post-move distance exceeds the limit; a kept CME particle speeds up by 1.02, any other gets a perpendicular, counter-clockwise nudge of 0.1; NaN arises exactly from a nudge at distance 0, and the particle still moves on that frame |
| RealisticSolar.MeasuredSuffix | src/components/RealisticSolarAnimation.tsx:210-212 | distances measured for a list stay measured for each suffix |
| RealisticSolar.UpdateAll | src/components/RealisticSolarAnimation.tsx:202-230 | the update never grows the list, and every survivor is alive with age ≥ 1 |
| RealisticSolar.SpliceStep | src/components/RealisticSolarAnimation.tsx:202-230 | one step of the reverse loop turns the updated tail into the update of the suffix from `i` |
| RealisticSolar.UpdateAllMembers | src/components/RealisticSolarAnimation.tsx:202-230 | a particle is in the updated list iff it is the advance of some particle of the old list |
| RealisticSolar.Shockwave | src/components/RealisticSolarAnimation.tsx:259-272 | two rings are drawn iff a CME is active with intensity above 0.5, the inner smaller than the outer |
| RealisticSolar.ShockwaveWidensAsIntensityFalls | src/components/RealisticSolarAnimation.tsx:259-272 | as the CME intensity falls, both rings widen |
| RealisticSolar.CmeLasts100Frames | src/components/RealisticSolarAnimation.tsx:83-107 | a CME that fires stays active for the firing frame and the next 98 and ends on the 99th after it |
| RealisticSolar.RealisticSimulation.constructor | src/components/RealisticSolarAnimation.tsx:39-41 | no particles, no CME, the first CME due in [3000, 8000) ms |
| RealisticSolar.RealisticSimulation.CreateParticle | src/components/RealisticSolarAnimation.tsx:43-62 | appends exactly the new particle |
| RealisticSolar.RealisticSimulation.SpawnCmeBurst | src/components/RealisticSolarAnimation.tsx:90-97 | appends exactly the CME burst around the centre |
| RealisticSolar.RealisticSimulation.TriggerCme | src/components/RealisticSolarAnimation.tsx:65-107 | the clock advances 16 ms, the CME state takes one latch step and the 50-particle burst is appended iff it fires |
| RealisticSolar.RealisticSimulation.Emit | src/components/RealisticSolarAnimation.tsx:178-200 | appends exactly the frame's emission |
| RealisticSolar.RealisticSimulation.UpdateParticles | src/components/RealisticSolarAnimation.tsx:202-230 | the reverse splice loop leaves exactly the list update, with limit `width` |
| RealisticSolar.RealisticSimulation.Animate | src/components/RealisticSolarAnimation.tsx:64-275 | one frame: clock and latch step; the old list, then the CME burst, then the emission are concatenated, and the whole list (new particles included) takes one update step: `UpdateAll(old ++ burst ++ emission)` |
| SimpleSolar.NewParticle | src/components/SolarAnimation.tsx:38-54 | the particle starts at full life in [50, 150), speed in [1, 3), size in [1, 4), blue or orange by the colour draw |
| SimpleSolar.Emission | src/components/SolarAnimation.tsx:102-110 | one particle iff the gate is below 0.3, at full life, spawned in `[radius, radius + 20)` from the centre |
| SimpleSolar.Step | src/components/SolarAnimation.tsx:115-123 | a particle is removed iff its decremented life is ≤ 0; otherwise it has moved by its velocity and lost one unit of life |
| SimpleSolar.SpawnedWithinLifetime | src/components/SolarAnimation.tsx:38-54 | appending particles spawned at full life keeps every life within its lifespan |
| SimpleSolar.Tick | src/components/SolarAnimation.tsx:113-125 | the update never grows the list; every survivor has positive life, and, from a list within lifetime, at least one unit below its lifespan |
| SimpleSolar.SpliceStep | src/components/SolarAnimation.tsx:114-123 | one step of the reverse loop turns the updated tail into the update of the suffix from `i` |
| SimpleSolar.TickMembers | src/components/SolarAnimation.tsx:113-125 | a particle is in the updated list iff it is the step of some particle of the old list |
| SimpleSolar.RunEmpty | src/components/SolarAnimation.tsx:113-125 | an empty list stays empty under any number of updates |
| SimpleSolar.Ceil | src/components/SolarAnimation.tsx:120-122 | the ceiling of a real, as used to count the updates a life lasts |
| SimpleSolar.RemovedAtCeilingUpdate | src/components/SolarAnimation.tsx:113-125 | a particle with life `L > 0` survives `k < ⌈L⌉` updates with life `L - k` and is gone after `⌈L⌉` |
| SimpleSolar.SpawnedLivesCeilingUpdates | src/components/SolarAnimation.tsx:38-54 | a freshly spawned particle is removed by exactly the `⌈lifespan⌉`-th update |
| SimpleSolar.Alpha | src/components/SolarAnimation.tsx:129 | alpha × lifespan = life, strictly between 0 and 1 for a partly spent particle |
| SimpleSolar.ToHex | src/components/SolarAnimation.tsx:130 | the hex text of `n` has one digit below 16 and two below 256 |
| SimpleSolar.IntToHex | src/components/SolarAnimation.tsx:130 | a non-negative integer prints as hex digits that parse back to it (one digit below 16, two below 256); a negative one as `-` followed by hex digits that parse back to its magnitude |
| SimpleSolar.ToHexRoundTrip | src/components/SolarAnimation.tsx:130 | the hex text consists of hex digits and parses back to `n` |
| SimpleSolar.DigitValueOfHexDigit | src/components/SolarAnimation.tsx:130 | each hex digit parses back to its value |
| SimpleSolar.PadStart2 | src/components/SolarAnimation.tsx:130 | padding yields at least two characters and ends with the input |
| SimpleSolar.LeadingZeros | src/components/SolarAnimation.tsx:130 | leading zeros do not change the parsed value |
| SimpleSolar.ZerosParseToZero | src/components/SolarAnimation.tsx:130 | a string of zeros parses to 0 |
| SimpleSolar.PaddedByteRoundTrip | src/components/SolarAnimation.tsx:130 | any value in `[0, 256)` printed in hex and padded to two characters is two hex digits that parse back to it |
| SimpleSolar.AlphaSuffixRoundTrip | src/components/SolarAnimation.tsx:129-130 | for alpha in (0, 1) the suffix is two hex digits that parse back to `floor(alpha × 255)` |
| SimpleSolar.FillStyleIsRgba | src/components/SolarAnimation.tsx:129-130 | a particle between updates is painted with a 9-character fill whose first seven characters are its colour |
| SimpleSolar.SimpleSimulation.constructor | src/components/SolarAnimation.tsx:13-36 | the canvas size is set, the clock is 0, and there are no particles |
| SimpleSolar.SimpleSimulation.CreateParticle | src/components/SolarAnimation.tsx:38-54 | appends exactly the new particle |
| SimpleSolar.SimpleSimulation.EmitFromSun | src/components/SolarAnimation.tsx:102-110 | appends exactly the frame's emission |
| SimpleSolar.SimpleSimulation.UpdateParticles | src/components/SolarAnimation.tsx:113-125 | the reverse splice loop leaves exactly the update of the old list |
| SimpleSolar.SimpleSimulation.Animate | src/components/SolarAnimation.tsx:137-146 | the frame counter advances by one; the emission is appended to the old list and the whole list (new particle included) takes one update step: `Tick(old ++ emission)`; between frames every particle keeps a positive life at least one below its lifespan |
| AnalysisResults.TypeDescription | src/components/AnalysisResults.tsx:39-50 | any string other than the three CME type names gets the default "no significant activity" text, and only those |
| AnalysisResults.TypeColor | src/components/AnalysisResults.tsx:52-63 | any string other than the three CME type names gets the default green, and only those |
| AnalysisResults.TypeNamesDiffer | src/components/AnalysisResults.tsx:11 | the four CME types have distinct names |
| AnalysisResults.DescriptionLength | src/components/AnalysisResults.tsx:39-50 | the length of each type's description |
| AnalysisResults.TypeDescriptionsDiffer | src/components/AnalysisResults.tsx:39-50 | distinct CME types get distinct descriptions |
| AnalysisResults.TypeColorsDiffer | src/components/AnalysisResults.tsx:52-63 | distinct CME types get distinct colours |
| AnalysisResults.At | src/components/AnalysisResults.tsx:71-74 | an array read yields a value iff the index is in range, and then the element |
| AnalysisResults.PrepareChartData | src/components/AnalysisResults.tsx:66-76 | no rows without a time series; otherwise one row per timestamp reading the same index of every array |
| AnalysisResults.ChartTemperatureInThousands | src/components/AnalysisResults.tsx:74 | the chart temperature times 1000 is the sample |
| AnalysisResults.TemperatureBars | src/components/AnalysisResults.tsx:350 | the bar chart shows the first `min(n, 20)` rows unchanged |
| AnalysisResults.InsertSpaces | src/components/AnalysisResults.tsx:257 | one extra character (a space) per capital; the result never starts with a capital, and a key that does not start with a capital keeps its first character |
| AnalysisResults.InsertSpacesRoundTrip | src/components/AnalysisResults.tsx:257 | removing the space before each capital recovers the key: no information is lost |
| AnalysisResults.FormatKey | src/components/AnalysisResults.tsx:256-258 | the title has one extra character per capital, its first character upper-cased and the rest equal to the spaced key |
| AnalysisResults.InsertSpacesConcat | src/components/AnalysisResults.tsx:257 | spacing distributes over concatenation |
| AnalysisResults.InsertSpacesNoCapitals | src/components/AnalysisResults.tsx:257 | a key without capitals is unchanged |
| AnalysisResults.InsertSpacesTwoWords | src/components/AnalysisResults.tsx:257 | a two-word camelCase key gets exactly one space, before its capital |
| AnalysisResults.FormatTwoWordKey | src/components/AnalysisResults.tsx:256-258 | a two-word camelCase key such as `shockSpeed` becomes `Shock Speed` |
| AnalysisResults.GetUnit | src/components/AnalysisResults.tsx:260-268 | a unit is shown exactly for shock speed, electron density and magnetic field |
| AnalysisResults.BarWidth | src/components/AnalysisResults.tsx:279 | the bar width is the value capped at 100 percent |
| AnalysisResults.EntriesOf | src/components/AnalysisResults.tsx:253-254 | the entries are exactly the defined fields among the keys, each with its value |
| AnalysisResults.VisibleCharacteristics | src/components/AnalysisResults.tsx:253-254 | a characteristic is shown iff it is defined, with its value |
| AnalysisResults.Cards | src/components/AnalysisResults.tsx:253-283 | one card per shown characteristic, with its formatted title, value, unit and bar width `BarWidth(value)` |
| AnalysisResults.CardsShowDefinedCharacteristics | src/components/AnalysisResults.tsx:253-283 | every defined characteristic gets a card with its formatted title and value, and every bar is at most 100 percent |
| AnalysisResults.Render | src/components/AnalysisResults.tsx:37-372 | nothing is rendered iff there is no result; otherwise the headline follows `detected`, the description and colour are those of the result's type, probability and confidence are shown as percentages and the probability bar is as wide as the probability percentage, the cards are those of the defined characteristics, the chart rows come from the time series, the temperature bars are the chart's first rows, and the interpretation paragraph follows `detected` and the type |
| AnalysisResults.RenderProbabilityBar | src/components/AnalysisResults.tsx:130-140 | the probability bar is as wide as the printed percentage, within [0, 100] for a probability in [0, 1] |
| AnalysisResults.RenderInterpretation | src/components/AnalysisResults.tsx:365-372 | the interpretation differs between a detection and a quiet result, and between detections of different types |
| AnalysisResults.RenderDistinguishesTypes | src/components/AnalysisResults.tsx:39-63 | results of different CME types are shown with different descriptions and different colours |
| AnalysisResults.Interpretation | src/components/AnalysisResults.tsx:367-370 | a detection's paragraph is the lead, the type's name and the tail; a quiet result's is the fixed stable-conditions text |
| AnalysisResults.InterpretationNamesType | src/components/AnalysisResults.tsx:367-368 | detections of different types get different paragraphs |
| AnalysisResults.InterpretationFollowsDetection | src/components/AnalysisResults.tsx:367-370 | a detection's paragraph is never the stable-conditions text |
| AnalysisResults.RenderTemperatureBars | src/components/AnalysisResults.tsx:74 | bar `i < 20` of the temperature chart shows sample `i` of the series, in thousands |
| Predict.LowerChar | src/pages/Predict.tsx:76 | ASCII capitals map to their lower-case letter, all else is unchanged |
| Predict.Lower | src/pages/Predict.tsx:76 | lower-casing keeps the length and maps each character |
| Predict.ValidateCdfFileCharacters | src/pages/Predict.tsx:75-84 | a file is accepted iff its name ends in `.cdf` in any letter case |
| Predict.Upload | src/pages/Predict.tsx:97-102 | the entry keeps name and size; an empty MIME type becomes `application/x-cdf` |
| Predict.Names | src/pages/Predict.tsx:95 | the names of the list, in order |
| Predict.Classify | src/pages/Predict.tsx:94-115 | a file is rejected iff its name is not `.cdf`, a duplicate iff valid and already in the list, otherwise added as its upload entry |
| Predict.IntakeOf | src/pages/Predict.tsx:88-116 | every file of the batch lands in exactly one of added, duplicates and rejected |
| Predict.IntakeMembers | src/pages/Predict.tsx:91-116 | each list holds exactly the files of the batch with that outcome |
| Predict.SameNameTwiceInOneBatch | src/pages/Predict.tsx:95 | duplicates are checked only against the list the batch started from, so a new name given twice is added twice |
| Predict.JoinLength | src/pages/Predict.tsx:121 | the joined names are as long as the names plus one separator between each pair |
| Predict.JoinEnds | src/pages/Predict.tsx:121 | the joined text starts with the first name and ends with the last |
| Predict.JoinPlacesName | src/pages/Predict.tsx:121 | name `i` appears in the joined text at the offset after the earlier names and `i` separators, with a separator right before it |
| Predict.RejectionMessage | src/pages/Predict.tsx:118-124 | the invalid-format toast is shown iff some file was rejected; its text is the fixed prefix followed by the rejected names joined by `, ` |
| Predict.RejectionMessageListsNames | src/pages/Predict.tsx:118-122 | the toast lists every rejected name in batch order, each after the prefix, the earlier names and their `, ` separators |
| Predict.HandleFiles | src/pages/Predict.tsx:86-138 | the list becomes the old list followed by the added files; the duplicate toasts and the rejection toast follow the intake |
| Predict.KeepOthers | src/pages/Predict.tsx:156 | filtering never grows the list |
| Predict.KeepOthersSplices | src/pages/Predict.tsx:156 | the filter drops exactly the element at the index when it is in range and nothing otherwise |
| Predict.RemoveFileSplices | src/pages/Predict.tsx:153-162 | removing an in-range index splices out that file; an out-of-range index leaves the list unchanged |
| Predict.SelectTypeQuarters | src/pages/Predict.tsx:186-187 | each of the four types is selected for a quarter of the draw range |
| Predict.GenerateMockResult | src/pages/Predict.tsx:185-205 | detected iff the type is not "No CME"; shock speed present iff detected, in [500, 1500); probability in [0.6, 1) when detected and [0, 0.3) otherwise; confidence in [0.7, 1); the other characteristics in their bands; the attached series is the 100-sample mock series, starting 1 200 000 ms before its clock reading |
| Predict.StartAnalysis | src/pages/Predict.tsx:208-242 | a result is produced iff at least six files are uploaded |
| Predict.AnySixCdfFilesSuffice | src/pages/Predict.tsx:208-219 | six `.cdf` files with the same name in one batch pass the six-file gate |
| Predict.AllNewCdfFilesAdded | src/pages/Predict.tsx:91-136 | a batch of new `.cdf` names is appended whole and in order |
| Predict.MockSeriesShape | src/pages/Predict.tsx:164-183 | five arrays of one length; timestamps ascend 12000 ms apart, the last 12000 ms before now; every sample in its band |
| Predict.GenerateMockTimeSeries | src/pages/Predict.tsx:164-183 | the loop builds the 100-sample series, starting 1 200 000 ms before now |

## Left out

- Painting: gradients, streamers, granulation, corona rings, glows and the canvas API are not modelled. Only the numbers that drawing reads are modelled: alpha, trail segment, fill string and shockwave rings.
- `requestAnimationFrame`, the resize listener and teardown are left out. One call of `Animate` is one frame. `Resize` is modelled only for the hyper-realistic animation; the other two animations have the same listener and it is not repeated.
- `Math.random` is left out: each draw is a parameter. Draws that the code skips (the shock speed of an undetected result, the trigger draw while a CME is active) are still passed and ignored.
- `Math.cos`/`Math.sin` and `Math.sqrt` are left out. A direction is a `Dir` with `cos² + sin² = 1`, and a distance is a parameter with `d² = dx² + dy²`. The angle spread of a flare burst is one `Dir` per particle seed.
- Floating point is not modelled: numbers are exact reals. The NaN produced by the unguarded division at `d = 0` is kept as a flag, and rounding is not modelled.
- `HyperRealisticSolar.Advance`: a NaN particle's coordinates are not tracked beyond the flag.
- `RealisticSolar.Advance`: likewise, a NaN particle's coordinates are not tracked beyond the flag; they keep the value of the move on the `d = 0` frame.
- The hyper-realistic `Plasma` kind is modelled in the colour and spawn functions but no emission site spawns it, as in the code.
- `nextFlareTime` is drawn in the constructor and never read afterwards, as in the code.
- `Date`, `toISOString`, `toLocaleTimeString` and `toFixed` are left out. Times are integer milliseconds, and chart rows keep the raw timestamp.
- Toasts, `console.log`, drag-and-drop state, the file input element and the 4-second delay of `startAnalysis` are left out.
- React state updates are taken as synchronous. The stale closure of `handleDrop` is not modelled.
- Lower-casing and upper-casing cover ASCII letters only. The `/^./` replacement in `formatKey` does not match a leading line terminator, and the model keeps that case.
- `Predict.RemoveFileSplices`: with an out-of-range index the code's toast reads `removedFile.name` of `undefined` and throws. The model only gives the list (unchanged).
- `RealisticSolar`: the per-particle alpha computed inside the update loop is not modelled (it only feeds painting).
- `AnalysisResults`: the tab state, icons and the fixed "0.84"-style placeholder texts are not modelled.
