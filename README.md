# Orbital portfolio — a Dafny model

A model of the logic in a single-page portfolio site built with Next.js,
React, three.js and framer-motion, with proofs of properties of that logic.
The site is almost all rendering. The logic that can be stated is:

- **The page loader** (`Home`). A mounted gate and four load flags that
  timers set 100, 200, 300 and 400 ms after mount. Each section renders
  inside its own error boundary.
- **The error boundary** (`ErrorBoundary`). A latching `hasError` flag and
  the render choice between children, fallback and default screen.
- **The selection overlay** (`Overlay`). This is shared by the experience
  section (`OrbitalSystem`) and the lab (`Lab`). It holds a selected id and a
  hover flag. A 5000 ms auto-close timer is armed while something is selected
  and the cursor is off the card. Each section looks its record up by id and
  shows a three-item preview list.
- **The planet scene** (`PlanetSystem`):
  - the style table and its fallback, and the character-sum starting angle;
  - orbit speed, planet pulse and moon layout;
  - the asteroid belt and starfield buffers;
  - the mapping from records to planets.
- **The explosion intro** (`BigBang`). Four particle buffers filled in a loop.
  Two timers start the explosion and report completion. A frame callback
  integrates positions and velocities in place and fades the material.
- **The starfields** of the landing, lab, skills and closing sections
  (`Starfield`, `Landing`, `Lab`, `Skills`, `ThankYou`). These are arrays
  filled in loops, plus delta-driven rotation.
- **The skills scene**:
  - `Skills`: the layout of the 56 skill spheres, the category colour table,
    and the same-category connection scan;
  - `SkillConnections`: flattening the connections into a point buffer, and
    the line opacity;
  - `SkillSphere`: a sphere's hover and click state, float, spin and
    scale easing.
- **The lab's UFOs** (`Ufo`). Hover state, scale easing, the light ring, and
  bob and beam pulses.
- **The landing** (`Landing`). Motion variants, the reduced-motion answer,
  and the two intro flags.
- **The closing title** (`ThankYou`). Letters and their delays.
- **Viewport helpers** (`Mobile`).
- **The static data** (`ExperienceData`, `ProjectsData`, `SkillsData`).

How things are modelled:

- **Numbers.** JavaScript numbers and `Float32Array` entries are Dafny
  `real`s.
- **`Math.random()`.** It is an oracle `Random` from call index to a value in
  [0, 1). A loop that makes m calls per item gives item k the draws
  m·k … m·k + m − 1.
- **Trigonometry.** `Math.sin`, `Math.cos` and `Math.acos` are a `Trig`
  record. The only facts known about it are that sine and cosine lie in
  [−1, 1] and that sin² + cos² = 1.
- **Objects and refs.** A three.js object is a `Scene.Object3D` holding
  its rotation, height, scale and material opacity. A React ref that is
  not attached yet is `null`.
- **State.** Component state that handlers or timers update is a class with
  `modifies` clauses. Time is an explicit `Tick(ms)`.
- **Buffers.** Buffers stay arrays and are filled by `while` loops. Each fill
  method is proved against a specification function of the draws.

## Model

| member | source | states |
|---|---|---|
| Numeric.Lerp | components/three/SkillSphere.tsx:28-31 | one `lerp` step leaves (1 − alpha) of the distance to the target; for alpha in [0, 1] the new value lies between the old value and the target |
| Numeric.LerpConverges | components/three/UFO.tsx:66 | after n frames of easing the distance left is (1 − alpha)^n times the initial distance |
| Numeric.WaveBounds | components/three/UFO.tsx:62 | a sine times k plus c stays within c ± k |
| Numeric.SpherePointNorm | components/sections/Lab.tsx:19-25 | the point built from radius, theta = 2πu and phi = acos(2v − 1) lies at exactly that radius from the origin |
| Numeric.SpherePointInShell | components/sections/Lab.tsx:19-25 | a radius in [lo, hi) puts the point's squared norm in [lo², hi²) |
| Scene.Spin | components/sections/Skills.tsx:56-61 | rotation.y grows by delta·rateY and rotation.x by delta·rateX; all other fields stay as they were; nothing happens without a ref |
| Scene.SpinIsFrameRateIndependent | components/sections/Skills.tsx:58-59 | two distinct objects that start at the same rotation, one spun by frames of d1 and d2 and the other by one frame of d1 + d2, end at the same rotation, that start plus (d1 + d2)·rate |
| Mobile.RawPixelRatio | lib/utils/mobile.ts:22 | `devicePixelRatio \|\| 1`: a ratio of 0 reads as 1, a positive ratio as itself |
| Mobile.DevicePixelRatio | lib/utils/mobile.ts:20-23 | the ratio never exceeds 2; it is 1 without a window, positive for a non-negative ratio, and the ratio itself when it lies in (0, 2] |
| Mobile.ViewportClasses | lib/utils/mobile.ts:5-13 | mobile iff width < 768, tablet iff 768 ≤ width < 1024; never both; otherwise width ≥ 1024 |
| Mobile.NoWindowDefaults | lib/utils/mobile.ts:5-41 | with no window: not mobile, not tablet, ratio 1, the base count unchanged, medium performance |
| Mobile.ParticleCountBounded | lib/utils/mobile.ts:25-33 | for a base b ≥ 0 the optimised count lies in [0, b] |
| Mobile.ParticleCountMonotone | lib/utils/mobile.ts:25-33 | a wider viewport never gets fewer particles |
| Mobile.PerformanceLevels | lib/utils/mobile.ts:40-54 | low iff width < 640 and ratio > 2; high iff width ≥ 1024; medium in every other case, including no window |
| Lookup.FindFrom | components/sections/OrbitalSystem.tsx:33 | the first index at or after `from` whose key is the id, with no match before it; none when no later key matches |
| Lookup.FindIndex | components/sections/OrbitalSystem.tsx:33 | an index exists iff the selection is non-null and some record has that id; it is then the first such record |
| Lookup.Find | components/sections/OrbitalSystem.tsx:33 | `find` returns a record iff the selection is the id of some record; the record returned is in the list and carries that id |
| Lookup.FindDistinct | components/sections/Lab.tsx:77 | with distinct keys, looking up the key of record i returns record i |
| Lookup.Preview | components/sections/OrbitalSystem.tsx:150-156 | the list block appears iff the list is present and non-empty, and then holds min(3, length) items, the first ones in order |
| ExperienceData.ExperienceIds | lib/data/experience.ts:16-103 | four records with the ids sports-excitement, accenture, uncc-ta-swe and uncc-ta-logic, pairwise distinct |
| ExperienceData.ExperienceGeometry | lib/data/experience.ts:16-103 | every distance and size is positive and the orbit distances strictly increase |
| ExperienceData.OrbitsIncreasePairwise | lib/data/experience.ts:38-101 | adjacent increase implies xs[i].distance < xs[j].distance for any i < j |
| ExperienceData.ExperienceContent | lib/data/experience.ts:16-103 | every record has non-empty highlights and at least one technology |
| ExperienceData.ExperienceFindById | lib/data/experience.ts:16-103 | looking up the id of record i finds record i |
| ProjectsData.ProjectIds | lib/data/projects.ts:11-51 | three projects with ids ufo-1, ufo-2 and ufo-3, pairwise distinct |
| ProjectsData.ProjectContent | lib/data/projects.ts:11-51 | every project has a non-empty link and exactly three achievements |
| SkillsData.GroupFacts | lib/data/skills.ts:9-73 | the four groups hold 16 frontend, 16 backend, 13 cloud and 11 database skills, each group with its own category |
| SkillsData.SkillsWellFormed | lib/data/skills.ts:1-80 | 56 skills, each with a level in 1..5 and a category that is one of the four declared values and has a label |
| SkillsData.SkillsGrouped | lib/data/skills.ts:9-73 | the categories are contiguous: index k is frontend iff k < 16, backend iff 16 ≤ k < 32, cloud iff 32 ≤ k < 45, databases iff k ≥ 45 |
| SkillsData.SkillIdsDistinct | lib/data/skills.ts:9-73 | no two skills share an id |
| SkillsData.PositionOf | lib/data/skills.ts:9-73 | the id of skill k identifies k |
| ErrorBoundary.StateFromError | components/common/ErrorBoundary.tsx:21-23 | the state after an error has the flag set and keeps the error |
| ErrorBoundary.View | components/common/ErrorBoundary.tsx:30-51 | with no error, the children; with one, the fallback when it is truthy and otherwise the default screen, so the result is always truthy |
| ErrorBoundary.Latch | components/common/ErrorBoundary.tsx:15-52 | the flag is never reset: no errors leave the state unchanged, any errors leave the last one stored, and a set flag stays set |
| ErrorBoundary.ErrorIgnoresChildren | components/common/ErrorBoundary.tsx:30-50 | once an error is caught, what the boundary shows does not depend on its children |
| ErrorBoundary.Boundary.constructor | components/common/ErrorBoundary.tsx:16-19 | a new boundary starts with no error |
| ErrorBoundary.Boundary.Catch | components/common/ErrorBoundary.tsx:21-23 | catching an error stores the state the error hook returns |
| ErrorBoundary.TwoErrorsScenario | components/common/ErrorBoundary.tsx:15-52 | a fresh boundary shows its children; after two errors it shows the fallback and keeps the second error |
| Overlay.InitialValid | components/sections/OrbitalSystem.tsx:11-12 | in the initial state nothing is selected and no timer is pending, which satisfies the timer invariant |
| Overlay.StepValid | components/sections/OrbitalSystem.tsx:14-31 | every event keeps the invariant: a timer is pending iff something is selected and the cursor is off the card, and it fires within 5000 ms |
| Overlay.RunValid | components/sections/OrbitalSystem.tsx:23-31 | any sequence of events keeps that invariant |
| Overlay.ClickSelects | components/sections/OrbitalSystem.tsx:14-16 | a click replaces the selection and keeps the hover flag; a new id arms a full timer when the cursor is off the card; re-clicking the selected id changes nothing, so the timer is not reset |
| Overlay.CloseClears | components/sections/OrbitalSystem.tsx:18-20 | close clears the selection and any pending timer and leaves the hover flag alone |
| Overlay.HoverSets | components/sections/OrbitalSystem.tsx:95-96 | enter sets the hover flag and cancels the timer; leave clears the flag; the selection is kept |
| Overlay.WaitFires | components/sections/OrbitalSystem.tsx:23-28 | waiting clears the selection exactly when the pending timer's moment is reached |
| Overlay.AutoClose | components/sections/OrbitalSystem.tsx:23-31 | a fresh selection with the cursor off the card is cleared after exactly 5000 ms and not before |
| Overlay.HoverHolds | components/sections/OrbitalSystem.tsx:23-31 | while the cursor stays on the card, no amount of waiting closes it |
| Overlay.LeaveRestarts | components/sections/OrbitalSystem.tsx:23-31 | leaving the card restarts a full 5000 ms countdown |
| Overlay.HoverSurvivesClose | components/sections/OrbitalSystem.tsx:95-96 | closing while hovered keeps the flag set, so a later click does not arm the timer |
| Overlay.CardPresenter.constructor | components/sections/OrbitalSystem.tsx:11-12 | the hooks start empty with no timer pending, and the timer invariant holds |
| Overlay.CardPresenter.Apply | components/sections/OrbitalSystem.tsx:23-31 | setting the hooks is a no-op when nothing changes; otherwise the pending timer is cancelled and a fresh one is armed iff the condition holds |
| Overlay.CardPresenter.Select | components/sections/OrbitalSystem.tsx:14-16 | `handlePlanetClick`: the new state is the click step of the old one; the timer invariant is kept |
| Overlay.CardPresenter.Close | components/sections/OrbitalSystem.tsx:18-20 | `handleClose`: the new state is the close step of the old one; the timer invariant is kept |
| Overlay.CardPresenter.Enter | components/sections/OrbitalSystem.tsx:95 | cursor enter: the new state is the enter step; the timer invariant is kept |
| Overlay.CardPresenter.Leave | components/sections/OrbitalSystem.tsx:96 | cursor leave: the new state is the leave step; the timer invariant is kept |
| Overlay.CardPresenter.Tick | components/sections/OrbitalSystem.tsx:25-27 | time passes and a due timer clears the selection, as the wait step says; the timer invariant is kept |
| Overlay.ReplaceRestartsScenario | components/sections/OrbitalSystem.tsx:14-31 | a second click on another id restarts the timer: the card is open 4999 ms later and closed 1 ms after that |
| Overlay.ReclickScenario | components/sections/OrbitalSystem.tsx:14-31 | re-clicking the same id does not restart the timer: the card closes 5000 ms after the first click |
| OrbitalSystem.CardShownIffKnown | components/sections/OrbitalSystem.tsx:33 | the card shows iff the selection is the id of a record, and it then shows that record |
| OrbitalSystem.PlanetClickShowsCard | components/sections/OrbitalSystem.tsx:14-33 | clicking planet i shows the card of record i |
| OrbitalSystem.UnknownIdStillArmsTimer | components/sections/OrbitalSystem.tsx:23-33 | an id with no record shows no card but still arms the 5000 ms timer |
| OrbitalSystem.ShippedHighlights | components/sections/OrbitalSystem.tsx:150-156 | each shipped record's card lists exactly its first three highlights |
| Lab.ClickMarksOneUfo | components/sections/Lab.tsx:133-143 | after clicking UFO k, exactly UFO k is marked selected |
| Lab.CardShownIffKnown | components/sections/Lab.tsx:77 | the project card shows iff the selection is the id of a project |
| Lab.UfoClickShowsProject | components/sections/Lab.tsx:133-143 | clicking UFO k shows project k's card |
| Lab.ShowsLink | components/sections/Lab.tsx:289 | the link button appears iff the link is present and non-empty |
| Lab.ShippedCards | components/sections/Lab.tsx:218-224 | each shipped card lists all three achievements and shows its link |
| Lab.FillStarfield | components/sections/Lab.tsx:16-31 | a buffer of 1500·3 entries holding star k at entries 3k..3k+2 |
| Lab.StarfieldShell | components/sections/Lab.tsx:19-25 | each lab star lies at a distance in [60, 100) |
| Lab.StarfieldFrame | components/sections/Lab.tsx:39-44 | rotation grows by delta·0.05 on y and delta·0.02 on x when the ref is attached; position.y, scale and opacity stay as they were |
| PlanetSystem.StyleOf | components/three/PlanetSystem.tsx:62-97 | a table entry for the four known ids; otherwise the record's colour, no rings, no moons and shininess 30 |
| PlanetSystem.ShippedStyles | components/three/PlanetSystem.tsx:63-89 | every shipped record has a table entry, so the fallback is never used |
| PlanetSystem.StartDegrees | components/three/PlanetSystem.tsx:102-105 | the degree offset, the character sum mod 360, lies in [0, 359] |
| PlanetSystem.StartingAngle | components/three/PlanetSystem.tsx:102-105 | the starting angle lies in [0, 2π) |
| PlanetSystem.CharSumAppend | components/three/PlanetSystem.tsx:103 | the character sum of a concatenation is the sum of the parts' sums |
| PlanetSystem.StartDegreesSwap | components/three/PlanetSystem.tsx:103 | swapping two halves of an id does not move the planet |
| PlanetSystem.CloserIsFaster | components/three/PlanetSystem.tsx:111 | for 0 < d1 < d2 the closer orbit's speed 0.12/d1 is strictly greater and both are positive |
| PlanetSystem.ShippedSpeeds | components/three/PlanetSystem.tsx:111 | the shipped planets orbit strictly more slowly outward |
| PlanetSystem.OrbitAngle | components/three/PlanetSystem.tsx:113 | equals the starting angle at time 0 and is past it at any later time |
| PlanetSystem.PulseScale | components/three/PlanetSystem.tsx:117 | exactly 1 when not selected; always within [0.95, 1.05] |
| PlanetSystem.AdjustedSize | components/three/PlanetSystem.tsx:57-59 | 1.5 times the size on a mobile viewport, the size itself otherwise |
| PlanetSystem.PlanetFrame | components/three/PlanetSystem.tsx:107-119 | neither object changes at all unless both refs are attached; then the orbit is at its orbit angle, the planet spins at 0.2·t, its uniform scale is the pulse, and every other field of both stays as it was |
| PlanetSystem.Moons | components/three/PlanetSystem.tsx:203-211 | as many moons as requested |
| PlanetSystem.MoonsSpread | components/three/PlanetSystem.tsx:203-211 | moon distances and speeds strictly increase with the index, and every moon lies beyond the outer ring |
| PlanetSystem.MoonCount | components/three/PlanetSystem.tsx:203-204 | a planet shows exactly its style's number of moons, and none with the fallback style |
| PlanetSystem.MoonFrame | components/three/PlanetSystem.tsx:34-38 | the moon's group rotation is elapsed·speed and every other field stays as it was |
| PlanetSystem.AsteroidInBelt | components/three/PlanetSystem.tsx:226-234 | each asteroid has horizontal radius in [8.5, 9.5) and height in [−0.15, 0.15) |
| PlanetSystem.WriteAsteroid | components/three/PlanetSystem.tsx:227-233 | the three writes store asteroid i at entries 3i..3i+2 and touch nothing else |
| PlanetSystem.FillBelt | components/three/PlanetSystem.tsx:221-239 | a buffer of 1500·3 entries holding asteroid k at entries 3k..3k+2 |
| PlanetSystem.FillStarfield | components/three/PlanetSystem.tsx:259-273 | a buffer of 2000·3 entries holding star k at entries 3k..3k+2 |
| PlanetSystem.BackdropFrame | components/three/PlanetSystem.tsx:242-279 | the belt's rotation is elapsed·0.02 and the starfield's elapsed·0.005; every other field of each stays as it was |
| PlanetSystem.SunFrame | components/three/PlanetSystem.tsx:294-304 | the sun spins at 0.05·t and its uniform scale is sin(0.8t)·0.03 + 1, within 3% of 1; the glow's uniform scale is sin(0.8t)·0.05 + 1, within 5% of 1; the fields neither writes stay as they were |
| PlanetSystem.Planets | components/three/PlanetSystem.tsx:339-352 | nothing for empty data; otherwise one planet per record, selected iff its id is the selection, whose click selects that id |
| PlanetSystem.ClickSelectsOnePlanet | components/three/PlanetSystem.tsx:346-352 | with the shipped data, clicking planet i marks exactly planet i as selected |
| Starfield.Radius | components/sections/Lab.tsx:19 | `base + Math.random() * span` lies in [base, base + span) |
| Starfield.StarInShell | components/sections/Lab.tsx:19-25 | every star lies in the shell between radii base and base + span |
| Starfield.WriteStar | components/sections/Lab.tsx:18-26 | the three writes store star i at entries 3i..3i+2 and touch nothing else |
| Starfield.FillShell | components/sections/Lab.tsx:17-26 | a buffer of 3·count entries holding star k at entries 3k..3k+2 |
| Starfield.Place | components/sections/Landing.tsx:23-29 | the radius, azimuth and polar draws give the point of star i |
| Starfield.WriteTintedStar | components/sections/ThankYou.tsx:19-38 | star i's point goes into the position buffer and its colour (tint iff the draw passes the threshold) into the colour buffer |
| Starfield.FillTinted | components/sections/ThankYou.tsx:15-39 | both buffers hold 3·count entries, star k's point and colour at 3k..3k+2 |
| BigBang.SpeedBounds | components/three/BigBangIntro.tsx:31-37 | every particle's speed lies in [3, 9) |
| BigBang.Size | components/three/BigBangIntro.tsx:40 | every size lies in [0.1, 0.5) |
| BigBang.PaletteIndex | components/three/BigBangIntro.tsx:43-74 | the colour draw picks palette entry i exactly when it lies between thresholds i and i + 1 of 0.2, 0.4, 0.6, 0.75, 0.9 |
| BigBang.PaletteMonotone | components/three/BigBangIntro.tsx:43-74 | a larger draw never picks an earlier palette entry |
| BigBang.Color | components/three/BigBangIntro.tsx:43-74 | every colour is one of the six palette triples |
| BigBang.Launch | components/three/BigBangIntro.tsx:31-37 | the three draws give particle i's velocity |
| BigBang.WriteParticle | components/three/BigBangIntro.tsx:25-74 | one loop body: position i at the origin, velocity, colour and size of particle i; nothing else changes |
| BigBang.CreateParticles | components/three/BigBangIntro.tsx:17-75 | buffers of 3·8000, 3·8000, 3·8000 and 8000 entries; every particle at the origin with its velocity, colour and size |
| BigBang.Advance | components/three/BigBangIntro.tsx:115-117 | the position moves by velocity·delta; a zero-length frame leaves it in place |
| BigBang.Drag | components/three/BigBangIntro.tsx:120-123 | x and z velocity shrink by 0.98; for delta > 0 the vertical velocity ends below 0.98 of its old value |
| BigBang.HorizontalDecay | components/three/BigBangIntro.tsx:121-123 | after n frames the horizontal velocity is 0.98^n of its start |
| BigBang.StepParticle | components/three/BigBangIntro.tsx:113-124 | particle i advances by its old velocity, then drag and gravity act on it; no other entry changes |
| BigBang.Integrate | components/three/BigBangIntro.tsx:113-124 | every particle is stepped exactly once per frame |
| BigBang.FadeNeverClamps | components/three/BigBangIntro.tsx:130-132 | inside the fade window 4 < t < 5 the opacity 1 − (t − 4) lies in (0, 1), so the max with 0 never applies |
| BigBang.Intro.constructor | components/three/BigBangIntro.tsx:17-101 | the four buffers are fresh and built as the creation loop builds them: every particle at the origin with the velocity, palette colour and size of its draws; local time 0; opacity 1; both timers pending |
| BigBang.Intro.Tick | components/three/BigBangIntro.tsx:85-94 | each pending timer fires once its delay has passed and is then no longer pending: the explosion has started iff 1500 ms have passed and completion is reported iff 10000 ms have passed; time and opacity stay |
| BigBang.Intro.Teardown | components/three/BigBangIntro.tsx:96-100 | both timers are cleared; the flags, the clock, the local time and the opacity stay as they were |
| BigBang.Intro.Frame | components/three/BigBangIntro.tsx:103-134 | time grows by delta when the points are attached; the buffers are stepped only while exploding, before 5 s and with a position attribute; opacity changes only after 4 s; the clock and both pending timers stay as they were |
| BigBang.EarlyUnmountScenario | components/three/BigBangIntro.tsx:85-134 | over mount, frames and ticks the explosion starts exactly at 1500 ms, the particles stay at the origin until then, and unmounting before 10000 ms means completion is never reported |
| Skills.FillStarfield | components/sections/Skills.tsx:17-48 | 2500 stars, star k at exactly the point of its draws 4k..4k+2, in the shell [60, 120), each purple iff its colour draw exceeds 0.85 and pale otherwise |
| Skills.StarfieldFrame | components/sections/Skills.tsx:56-61 | rotation grows by delta·0.02 on y and delta·0.005 on x when the ref is attached; position.y, scale and opacity stay as they were |
| Skills.ColorsTellCategoriesApart | components/sections/Skills.tsx:82-87 | the four categories have four distinct colours, none of them the fallback; any other category gets the fallback |
| Skills.Angle | components/sections/Skills.tsx:90 | the angle of skill i lies in [0, 2π) |
| Skills.AngleIncreasing | components/sections/Skills.tsx:90 | the angle strictly increases with the index |
| Skills.PlacementBounds | components/sections/Skills.tsx:89-103 | entry i is skill i with its category colour, height in [−4, 4) and horizontal radius in [10, 16) |
| Skills.LayoutSkills | components/sections/Skills.tsx:80-106 | one placed entry per skill, in data order |
| Skills.ShippedColors | components/sections/Skills.tsx:82-101 | every shipped skill gets its table colour, so the fallback is unused |
| Skills.LinksRelated | components/sections/Skills.tsx:113-121 | every connection joins i < j of the same category, in strictly increasing row-major order, so there are no self-loops or duplicates |
| Skills.LinksBounded | components/sections/Skills.tsx:113-121 | there are at most as many connections as same-category pairs |
| Skills.Joined | components/sections/Skills.tsx:116-119 | one connection per joined pair |
| Skills.ScanRow | components/sections/Skills.tsx:114-120 | the inner loop over j performs row i of the scan and extends the connections to match |
| Skills.BuildConnections | components/sections/Skills.tsx:109-125 | the connections are exactly the position pairs of the scan's links, each of them related |
| SkillConnections.Flatten | components/three/SkillConnections.tsx:19-28 | 6 entries per connection; vertex 2k is connection k's start and vertex 2k + 1 its end, in input order; read in triples, exactly 2 vertices per connection |
| SkillConnections.LineOpacity | components/three/SkillConnections.tsx:35 | the opacity lies in [0.17, 0.33] |
| SkillConnections.Frame | components/three/SkillConnections.tsx:32-37 | sets the opacity and nothing else when the ref is attached |
| SkillSphere.TargetPrecedence | components/three/SkillSphere.tsx:27 | hover overrides the click state; 1.4 iff hovered, 1.3 iff clicked and not hovered, 1 otherwise |
| SkillSphere.FloatY | components/three/SkillSphere.tsx:23 | the float height stays within position[1] ± 0.2 |
| SkillSphere.Sphere.constructor | components/three/SkillSphere.tsx:17-18 | not hovered and not clicked |
| SkillSphere.Sphere.PointerOver | components/three/SkillSphere.tsx:45 | sets hovered and keeps clicked |
| SkillSphere.Sphere.PointerOut | components/three/SkillSphere.tsx:46 | clears hovered and keeps clicked |
| SkillSphere.Sphere.Click | components/three/SkillSphere.tsx:35-38 | toggles clicked, then calls onClick iff one was given |
| SkillSphere.Sphere.Frame | components/three/SkillSphere.tsx:20-32 | float height, rotation.y + 0.005 per frame whatever delta is, and one 0.15 lerp step towards the target |
| SkillSphere.DoubleClickRestores | components/three/SkillSphere.tsx:35-38 | two clicks restore the click state and call onClick twice iff one was given |
| SkillSphere.HoverEasesIn | components/three/SkillSphere.tsx:27-31 | while hovered the distance to 1.4 after n frames is 0.85^n of the initial distance |
| Ufo.TargetPrecedence | components/three/UFO.tsx:65 | selection overrides hover; 1.15 iff selected, 1.1 iff hovered and not selected, 1 otherwise |
| Ufo.SelectedEasesIn | components/three/UFO.tsx:66 | while selected the distance to 1.15 after n frames is 0.9^n of the initial distance |
| Ufo.Bob | components/three/UFO.tsx:62 | the bob height lies in [−0.3, 0.3] |
| Ufo.Pulse | components/three/UFO.tsx:70 | the beam pulse lies in [0.8, 1] |
| Ufo.BeamOpacityBounds | components/three/UFO.tsx:70-72 | the beam opacity lies in [0.24, 0.3] |
| Ufo.LightColors | components/three/UFO.tsx:89 | the ring reads cyan, magenta, yellow repeating, and neighbours differ |
| Ufo.LightPositions | components/three/UFO.tsx:81-93 | eight lights, light i exactly at (2·cos(i/8·2π), 2·sin(i/8·2π)) with colour i mod 3, so all on the circle of radius 2 |
| Ufo.LightOnCircle | components/three/UFO.tsx:85-88 | each light of the ring lies at distance 2 from the axis: x² + z² = 4 |
| Ufo.Craft.constructor | components/three/UFO.tsx:16 | not hovered |
| Ufo.Craft.PointerOver | components/three/UFO.tsx:103-107 | sets hovered |
| Ufo.Craft.PointerOut | components/three/UFO.tsx:108-111 | clears hovered |
| Ufo.Craft.Frame | components/three/UFO.tsx:58-78 | the craft, beam and light ring are each updated iff their own ref is attached: bob, turn and lerp; pulse and opacity; ring rotation; every field a part's update does not write stays as it was |
| ThankYou.FillStarfield | components/sections/ThankYou.tsx:14-45 | 1500 stars, star k at exactly the point of its draws 4k..4k+2, in the shell [60, 100), each cyan iff its colour draw exceeds 0.85 and pale otherwise |
| ThankYou.StarfieldFrame | components/sections/ThankYou.tsx:53-58 | rotation grows by delta·0.02 on y and delta·0.005 on x when the ref is attached; position.y, scale and opacity stay as they were |
| ThankYou.Title | components/sections/ThankYou.tsx:132-146 | one glyph per letter; a glyph is a non-breaking space iff its letter is a space, other letters map to themselves; letter i waits 0.4 + 0.1·i s |
| ThankYou.ShippedTitle | components/sections/ThankYou.tsx:132-146 | nine glyphs, only the sixth a non-breaking space, with strictly increasing delays |
| Landing.StarSize | components/sections/Landing.tsx:44 | a star's size lies in [0.05, 0.2) |
| Landing.WriteStar | components/sections/Landing.tsx:22-45 | one loop body: star i's point, its cyan-or-white colour and its size |
| Landing.FillStarfield | components/sections/Landing.tsx:16-52 | 1200 stars, star k at exactly the point of its draws 5k..5k+2, in the shell [60, 100), each cyan iff its colour draw exceeds 0.92 and white otherwise, with size 0.15·r + 0.05 from its fifth draw, in [0.05, 0.2) |
| Landing.Twinkle | components/sections/Landing.tsx:68 | the starfield opacity lies in [0.7, 0.9] |
| Landing.StarfieldFrame | components/sections/Landing.tsx:61-70 | spin by delta·0.02 and delta·0.005, and set the twinkle opacity, when the ref is attached; position.y and scale stay as they were |
| Landing.VariantsFadeIn | components/sections/Landing.tsx:87-100 | every variant fades from 0 to 1 and rests at offset 0; with reduced motion nothing moves, otherwise up starts at 30 and left at −30 |
| Landing.ReduceMotion | components/sections/Landing.tsx:103-104 | reduced motion iff the hook answers true (a null answer counts as false) |
| Landing.IntroFlags.constructor | components/sections/Landing.tsx:105-106 | the overlay shows and the intro is not complete |
| Landing.IntroFlags.Complete | components/sections/Landing.tsx:122-126 | marks the intro complete at once and schedules hiding 1000 ms later |
| Landing.IntroFlags.Tick | components/sections/Landing.tsx:125 | a due hide timer hides the overlay; otherwise nothing changes |
| Landing.IntroScenario | components/sections/Landing.tsx:105-162 | before completion the overlay shows without the quote; afterwards both show for exactly 1000 ms |
| Home.LoadedIsPrefix | app/page.tsx:50-64 | flag k is set iff the elapsed time has reached its delay, so the loaded sections always form a prefix of the page order |
| Home.Page.constructor | app/page.tsx:40-44 | not mounted and all four flags false |
| Home.Page.Mount | app/page.tsx:46-65 | mounted, with the four timers scheduled and no flag set yet |
| Home.Page.Tick | app/page.tsx:50-64 | flags are only ever set; while scheduled, flag k holds iff its delay has passed; after teardown nothing changes |
| Home.Page.Teardown | app/page.tsx:66-71 | all four timers are cleared and the flags are kept |
| Home.EarlyTeardownScenario | app/page.tsx:46-71 | unmounting at 250 ms leaves exactly the first two sections loaded, however long one waits |
| Home.RenderFollowsFlags | app/page.tsx:74-127 | only the placeholder before mount; once mounted, the landing always shows and section k shows iff its flag is set |
| Home.SectionErrorIsolated | app/page.tsx:83-125 | an error in one section's boundary changes only that slot, which then shows the section's own fallback |

## Left out

- Rendering is left out: three.js and React Three Fiber objects, framer-motion, CSS, SVG and DOM side effects (`scrollIntoView`, the body cursor). These are foreign library calls with no logic of their own. A frame callback is modelled only by the fields it writes.
- `geometry.dispose`, `console.log` and `console.error` are left out. They have no visible effect on state.
- `shouldReduceMotion` and `isTouchDevice` in lib/utils/mobile.ts wrap `matchMedia`, `ontouchstart` and `navigator` and contain no logic.
- Next.js `dynamic()` and `Suspense` loading, the real `setTimeout` scheduler, and React's strict-mode double effects are left out. Time is an explicit `Tick(ms)`.
- Numbers are idealised: all arithmetic is on reals. IEEE-754 and `Float32Array` rounding are not modelled, and no result depends on exact rounding, such as particular `Math.floor(b * 0.3)` values.
- `sin`, `cos` and `acos` are known only through their ranges and sin² + cos² = 1.
- `Math.random()` is left out as a distribution. Each `useMemo` generator gets its own draw stream, so the interleaving of calls across generators that share the one global generator is not modelled.
- app/layout.tsx, next.config.ts and components/three/index.ts hold metadata, build configuration and re-exports only.
- PlanetSystem.OrbitSpeed: requires distance > 0. JavaScript would give Infinity for 0. Every shipped distance is positive (ExperienceData.ExperienceGeometry).
- PlanetSystem.StyleOf: the `styles[id] || fallback` lookup does not model ids that hit `Object.prototype` keys such as `toString`.
- PlanetSystem.CharSum: sums Dafny characters. These are the same as JavaScript's UTF-16 code units only for ids in the Basic Multilingual Plane. Every shipped id is ASCII.
- Ufo: the UFO's `onClick` forwards to the lab's click handler, which is modelled by `Overlay.CardPresenter.Select`. `stopPropagation` is not modelled.
- Landing.IntroFlags: each call of `handleIntroComplete` schedules its own `setShowIntro(false)` timer. The model keeps only the earliest, because all of them set the same value.
- Landing.IntroFlags.QuoteShown: the quote block is nested inside the `showIntro` block (components/sections/Landing.tsx:136-162). It therefore shows only while both flags hold, not whenever `introComplete` holds.
- OrbitalSystem.UnknownIdStillArmsTimer: the auto-close effect looks only at the selected id. A selection with no matching record therefore still arms the timer, and the model follows the code in this.
- BigBang.Intro.Frame: the particles' `needsUpdate` flag and the spark shown before the explosion are rendering and are not modelled.
- SkillSphere.Sphere.Frame: `positionY` is the mesh's height relative to its group. The group is itself placed at `position` (components/three/SkillSphere.tsx:41), so the source counts the vertical offset twice. The model keeps the code as written and does not model the scene graph that adds the two.
