# Hand-tracking bird toy, modelled in Dafny

The program is a browser toy. A camera feed goes through MediaPipe Holistic,
and birds fly in to perch on the user's hands and head. They settle on the
upper ridge of each hand or face and idle there: they peck, hop and drop
poops. A fist, a shake of the hand or a shake of the head scares them away.
Keeping a hand still summons a burst of five birds and then single birds. A
hand can wipe poops off the other hand or the head. Custom bird profiles are
merged with a cloud copy.

The model covers the behaviour behind the drawing:

- `geometry.dfy` (module `Geometry`) holds the geometry kernel:
  - linear interpolation and the cubic Bezier point;
  - the fist classifier and the centroid;
  - the upper hand hull (the lower chain of Andrew's monotone chain);
  - arc-length sampling of a polyline.
- `birds.dfy` (module `Birds`) holds the bird, a `class Bird` with its fields:
  - the constructor;
  - the per-frame `Update`: the FLYING_IN → PERCHED → FLYING_AWAY lifecycle,
    sibling repulsion, the perch line, the flee speed cap and the timers;
  - `PickNewAction`.
- `butterfly.dfy` (module `Butterflies`) holds the butterfly, a
  `class Butterfly`: its constructor, `UpdateConfig`, and `Update` with
  particle aging and filtering and the same lifecycle.
- `hand_ar.dfy` (module `HandAR`) holds the tracker, a `class Scene` that owns:
  - the flock (`birds`);
  - the droppings (`poops`);
  - the per-limb records (`limbs`, keyed "Left", "Right" and "Head").

  It models limb registration, `processTargetLogic`, `spawnBurst`,
  `spawnSingleBird`, `scareBirds`, the missing-frame aging and eviction loop,
  `checkWipeInteraction`, the bird pass of `updateAndDrawBirds` (target
  resolution, droppings, update and culling), and the frame sequence of
  `onResults`.
- `profile_sync.dfy` (module `ProfileSync`) holds the merge and push decisions
  of `syncBirdsWithCloud`.
- `types.dfy` (module `Types`) holds the shared entities (points, creature
  states, bird profiles), the movement thresholds and a few arithmetic
  helpers.

## How the environment appears in the model

- Coordinates are `real`.
- `Math.sqrt` is a parameter `sqrt: real -> real`. The lemmas that need it
  assume only `IsSqrt(sqrt)`: the result is non-negative and squares back to
  its argument.
- `Math.sin` and `Math.cos` samples are parameters. The direction that
  `atan2` followed by `cos`/`sin` yields is the unit vector `Direction`.
- Every `Math.random()` draw is a parameter, grouped per call site
  (`SpawnRolls`, `UpdateRolls`, `PoopRolls`, ...). The contracts state their
  bounds under `IsRoll` (0 ≤ r < 1).
- Generated ids, `performance.now()` and `Date.now()` are parameters.
- Steps that change objects in place stay imperative. Examples:
  - `Bird.Update` changes the bird's fields.
  - `Scene.AgeLimbs` walks the limb map and deletes from it.
  - `Scene.CheckWipeInteraction` and `Scene.CullBirds` re-filter the arrays.
  - `UpperHandHull` pushes and pops its chain.

  Each method is proved against a pure function of the old state
  (`Step`, `FlightStep`, `AgedLimbs`, `Unwiped`, `OnStage`, `Merged`,
  `PolylinePoint`, ...). The properties the program promises are lemmas about
  those functions.

A few facts about the code that the model follows:

- Limb motion is the distance moved per 16 ms, compared with fixed
  thresholds; there is no smoothing or dead zone.
- A limb that reappears keeps its motion state; nothing resets it.
- A bird's target is used as given; there is no fallback for a NaN target.
- A polyline of zero total length is not special-cased. Its first segment
  has length 0 and divides 0 by 0. The model answers that segment's start,
  which is the first point; see "Left out".

## Model

| member | source | states |
|---|---|---|
| Types.Clamp | components/Bird.tsx:87 | `Math.min(Math.max(v, lo), hi)` lies in [lo, hi]: it is `v` inside the range and the nearer bound outside it |
| Types.PickInRange | components/Bird.tsx:52 | `Math.floor(roll * n)` is a valid index into `n` choices for a random draw |
| Geometry.DistanceFacts | utils/geometry.ts:4-6 | getDistance is non-negative and symmetric, squares to the squared distance, and is 0 exactly for equal points |
| Geometry.Lerp | utils/geometry.ts:8-10 | lerp gives `start` at 0 and `end` at 1, and stays between them for amounts in [0, 1] |
| Geometry.CubicBezierPoint | utils/geometry.ts:14-25 | the Bezier point is `p0` at t = 0 and `p3` at t = 1 |
| Geometry.CubicBezierOfConstant | utils/geometry.ts:14-25 | with four equal control points the curve is that point for every t |
| Geometry.BezierWeights | utils/geometry.ts:15-23 | the four Bernstein weights sum to 1 |
| Geometry.FoldedIffSquared | utils/geometry.ts:36-41 | a finger is folded (tip-to-wrist distance below 0.8 times knuckle-to-wrist) exactly when the squared distances compare with factor 0.64 |
| Geometry.IsFist | utils/geometry.ts:27-47 | isFist is true exactly when at least three of fingers 8/12/16/20 are folded against knuckles 5/9/13/17 (also stated on squared distances) |
| Geometry.Centroid | utils/geometry.ts:49-56 | the centroid is the mean of the x and y sums; there is none for an empty list |
| Geometry.CentroidInsideBox | utils/geometry.ts:49-56 | the centroid of points inside a box is inside the box |
| Geometry.SortByX | utils/geometry.ts:62 | the sorted copy is ordered by x and is a permutation of the input |
| Geometry.UpperHandHull | utils/geometry.ts:60-84 | the hull is a subsequence of the x-sorted points, no longer than the input, empty iff the input is, strictly turning at every three consecutive points, and runs from the first to the last sorted point |
| Geometry.PopNonLeftTurns | utils/geometry.ts:68-79 | the pop loop leaves a prefix of the chain that still embeds in the sorted points, keeps at least one point, and makes a strict turn with the next point |
| Geometry.SegmentLengthsNonNegative | utils/geometry.ts:94-98 | every segment length is non-negative |
| Geometry.MeasureSegments | utils/geometry.ts:91-98 | the first loop yields each segment's length and their total |
| Geometry.FindOnSegments | utils/geometry.ts:100-118 | the scan returns the lerp on the first segment reaching the target distance, else the last point |
| Geometry.PointOnPolyline | utils/geometry.ts:87-119 | getPointOnPolyline is (0,0) for no points, the point itself for one, and the arc-length point otherwise |
| Geometry.PolylineStart | utils/geometry.ts:87-119 | at t = 0 the sampled point is the first point |
| Geometry.PolylineEnd | utils/geometry.ts:100-118 | with no repeated consecutive points, any t ≥ 1 gives the last point |
| Geometry.PolylineOnSegment | utils/geometry.ts:100-114 | for t in [0, 1] the sampled point lies on some segment between its end points |
| Geometry.DirectionIsUnit | components/Bird.tsx:126-128 | the heading `(cos, sin)` of `atan2(dy, dx)` is a unit vector along (dx, dy) |
| Birds.SpawnOrigin | components/Bird.tsx:52-56 | a new bird starts above the screen or beyond its left or right edge |
| Birds.ChooseSpecies | components/Bird.tsx:66-76 | a custom profile is taken exactly when there is one and the draw exceeds 0.3, and it is one of the profiles, named after it; otherwise a built-in species |
| Birds.BodySize | components/Bird.tsx:78-87 | the size is clamped to [6, 100] and equals the species base size × limb scale × jitter when that is in range |
| Birds.InitialPerchOffset | components/Bird.tsx:96 | the perch offset is the forced one if given, else in [0.05, 0.95) |
| Birds.Bird.constructor | components/Bird.tsx:40-100 | a new bird's every field: off-screen origin, zero velocity, species, size in [6, 100], wingSpan = 2.5·size, FLYING_IN, perch offset, timers, poop timer in [180, 420) |
| Birds.ActionFor | components/Bird.tsx:168-175 | a hop is picked exactly when the roll is below 0.05 and idling exactly from 0.6, with an idle timer in [60, 160); hop lasts 20 frames, peck 35, look_back 80 and fluff 40; the timer is always positive |
| Birds.ActionBands | components/Bird.tsx:171-173 | peck, look_back and fluff are chosen exactly on their bands [0.05, 0.25), [0.25, 0.45), [0.45, 0.6) |
| Birds.Bird.PickNewAction | components/Bird.tsx:168-175 | pickNewAction sets the action and timer the roll selects, and velocityY = -3 exactly on a hop |
| Birds.Repelling | components/Bird.tsx:139-140 | the siblings that push are other birds, perched on the same limb |
| Birds.PushOnlyFromRepelling | components/Bird.tsx:139-144 | only such siblings contribute to the push |
| Birds.PushAwayFromSiblings | components/Bird.tsx:141-143 | siblings all below push the bird up (push ≥ 0), siblings all at or above push it down |
| Birds.TiedBirdsPushedAlike | components/Bird.tsx:143 | two birds at the same offset both get the same negative push |
| Birds.StepPerchSlides | components/Bird.tsx:137-145 | a perched bird with a target and a push slides to its old offset plus the push, clamped into [0.05, 0.95] |
| Birds.Bird.SiblingPush | components/Bird.tsx:137-144 | the repulsion loop computes the summed push over the siblings |
| Birds.CapSpeed | components/Bird.tsx:160-161 | a speed of at most 10 is left unchanged |
| Birds.CapSpeedBound | components/Bird.tsx:160-161 | after the cap vx² + vy² ≤ 100, with equality when the speed was over 10 |
| Birds.FlyInStep | components/Bird.tsx:119-131 | the position advances by the new velocity |
| Birds.FlyInSpeedCapped | components/Bird.tsx:124-129 | the steering velocity (without the flap bob) has speed at most min(2% of the distance, 8) |
| Birds.FleeSpeedCapped | components/Bird.tsx:155-161 | a fleeing bird's velocity is capped at 10 |
| Birds.NextBlinkTimer | components/Bird.tsx:116-117 | the blink timer ticks down and, once below -10, re-arms to [100, 300) |
| Birds.PerchChores | components/Bird.tsx:135-147 | position and timers other than poop and action are kept; justPooped is set exactly when the poop countdown reaches 0 (or it was set), and the countdown then re-arms into [300, 600), otherwise it counts down by one; with siblings the offset is clamped into [0.05, 0.95]; a new action exactly when the action timer has run out, and velocityY changes only on a hop, to -3 |
| Birds.Settle | components/Bird.tsx:148-153 | only x, y and velocityY change; x eases towards the perch without passing it; y stays on or above the perch line 1.6·size above the perch; on the line velocityY is 0, above it velocityY is the frame's fall plus gravity 0.5 |
| Birds.Ticked | components/Bird.tsx:114-117 | each frame the action timer decreases and the blink timer stays ≥ -10 |
| Birds.FlyInUpdate | components/Bird.tsx:119-133 | a flying-in bird perches exactly when its feet are within 15 of the perch |
| Birds.FleeUpdate | components/Bird.tsx:155-165 | fleeing changes only position and velocity |
| Birds.StepInvariants | components/Bird.tsx:113-166 | FLYING_AWAY is final; the only transition is FLYING_IN → PERCHED with a target and distance < 15; a perched bird is on or above its line; only a perched bird moves along its limb or poops; without a target a non-fleeing bird only ticks its timers |
| Birds.StepFleeCapped | components/Bird.tsx:155-165 | after a fleeing update vx² + vy² ≤ 100 |
| Birds.StepFlyInCapped | components/Bird.tsx:119-131 | after a flying-in update the steering speed is at most 8 |
| Birds.Bird.Tick | components/Bird.tsx:114-117 | the timers step as `Ticked` |
| Birds.Bird.FlyIn | components/Bird.tsx:119-133 | the fields change as `FlyInUpdate` |
| Birds.Bird.Chores | components/Bird.tsx:135-147 | the fields change as `PerchChores` |
| Birds.Bird.SettleOn | components/Bird.tsx:148-153 | the fields change as `Settle` |
| Birds.Bird.Perch | components/Bird.tsx:134-154 | the perched branch changes the fields as `PerchStep` |
| Birds.Bird.Flee | components/Bird.tsx:155-165 | the fleeing branch changes the fields as `FleeUpdate` |
| Birds.Bird.Advance | components/Bird.tsx:119-165 | the state dispatch changes the fields as `Advanced` |
| Birds.Bird.Update | components/Bird.tsx:113-166 | update changes exactly the dynamic fields, as `Step` (whose invariants are `StepInvariants`) |
| Butterflies.ButterflyOrigin | components/Butterfly.ts:45-50 | a new butterfly starts beyond one of the four edges |
| Butterflies.ButterflySize | components/Butterfly.ts:68-69 | the size is clamped to [1, 500] and equals base size × jitter × global scale when in range |
| Butterflies.Butterfly.constructor | components/Butterfly.ts:32-63 | a new butterfly starts FLYING_IN off screen with no particles, perch offset forced or in [0, 1), size in [1, 500] |
| Butterflies.Butterfly.UpdateConfig | components/Butterfly.ts:65-71 | updateConfig stores the profile and a size clamped into [1, 500] |
| Butterflies.AgedAll | components/Butterfly.ts:88-92 | aging keeps every particle |
| Butterflies.Alive | components/Butterfly.ts:93 | the filter keeps exactly the particles with life > 0 |
| Butterflies.SurvivorsOfAging | components/Butterfly.ts:88-93 | the retained particles are exactly the old ones with life > 0.001·dt, moved by (vx, vy) and aged |
| Butterflies.NewParticle | components/Butterfly.ts:95-104 | a spawned particle sits at the butterfly with life 1, velocity in [-0.25, 0.25) and size in [0, 2) |
| Butterflies.FlightStep | components/Butterfly.ts:106-132 | FLYING_AWAY is final; the only transition is FLYING_IN → PERCHED when within 10; without a target a non-fleeing butterfly stays put; perched it lerps 10% to its hover point; fleeing velocityY drops by exactly 0.05·dt |
| Butterflies.PerchedEasesTowardsPerch | components/Butterfly.ts:124 | a perched butterfly's x moves towards the perch and never past it |
| Butterflies.Butterfly.AgeParticles | components/Butterfly.ts:88-92 | the particles become `AgedAll` of the old ones |
| Butterflies.Butterfly.DropDeadParticles | components/Butterfly.ts:93 | the particles become `Alive` of the old ones |
| Butterflies.Butterfly.FlyTowards | components/Butterfly.ts:106-121 | the flying-in branch: 3% of the gap plus noise, perched once within 10 |
| Butterflies.Butterfly.Hover | components/Butterfly.ts:122-126 | the perched branch: 10% of the way to the hover point |
| Butterflies.Butterfly.DriftAway | components/Butterfly.ts:127-132 | the fleeing branch: sideways drift and velocityY decreased by 0.05·dt |
| Butterflies.Butterfly.Fly | components/Butterfly.ts:106-132 | the flight fields change as `FlightStep` |
| Butterflies.Butterfly.Update | components/Butterfly.ts:84-133 | the angle, the flap phase, the particles (aged, filtered, at most one spawned) and the flight change as stated |
| Butterflies.ParticlesAfterUpdate | components/Butterfly.ts:88-104 | after update every particle has life > 0 and at most one particle was added |
| HandAR.YawOf | components/HandAR.tsx:221-222 | the head is turned left when the nose is below 35% across the face, right above 65% |
| HandAR.HeadShake | components/HandAR.tsx:223-227 | the count grows by at most one per frame and stays below 6; a scare resets it to 0 and needs a fifth earlier shake and a new left/right direction within 1000 ms of the last; a flip records its direction and time; no flip for over 1200 ms resets the count to 0 |
| HandAR.FistScares | components/HandAR.tsx:198 | a fist on a hand scares, records the fist, clears stillness and the burst, and returns before `lastPos` or the stillness timer change |
| HandAR.ShakeResets | components/HandAR.tsx:203-205 | a shake resets stillness and the burst, scares a hand's birds, and drops its poops exactly above the clean threshold |
| HandAR.SpawnsNeedStillness | components/HandAR.tsx:206-217 | birds spawn only on a known limb, not a fist, moving less than the stillness threshold, after over 2000 ms of stillness, without dropping poops; a burst only when none happened yet (stamping `lastSpawnTime`), a single bird only after a burst and over 2000 ms after the last spawn |
| HandAR.HeadBurstWaitsForHands | components/HandAR.tsx:211-212 | while a hand is tracked and no hand bird is active, the head never bursts, and when it returns early it keeps its `lastPos` and shake count |
| HandAR.FreshLimbSpawnsNothing | components/HandAR.tsx:192-229 | on a limb's first frame nothing spawns or drops and the check time becomes now; a hand scares exactly when it makes a fist, and otherwise records its position |
| HandAR.Scared | components/HandAR.tsx:240 | a bird ends up FLYING_AWAY exactly when it already was, or sits on the given limb, or no limb is given; otherwise its state is unchanged |
| HandAR.WithoutKeeps | components/HandAR.tsx:179 | the poop filter keeps exactly the poops of other limbs |
| HandAR.Assess | components/HandAR.tsx:191-230 | the assessment of one limb is `Track` |
| HandAR.AssessMotion | components/HandAR.tsx:200-229 | the movement and head-shake part is `Tracked` |
| HandAR.AssessMovement | components/HandAR.tsx:201-218 | the movement thresholds give `Moved` |
| HandAR.AssessHead | components/HandAR.tsx:220-229 | the head-shake tail gives `Finished` |
| HandAR.AgedLimbs | components/HandAR.tsx:177-180 | after a frame a limb is kept iff it was seen or was missing fewer than 29 frames; kept limbs change only their missing count, which stays below 30 |
| HandAR.UnseenLimbIsEvicted | components/HandAR.tsx:177-179 | a limb unseen for as many frames as it takes to reach 30 is gone |
| HandAR.SeenLimbIsKept | components/HandAR.tsx:178 | a seen limb is kept with 0 missing frames |
| HandAR.Unwiped | components/HandAR.tsx:260-273 | the wipe filter keeps exactly the poops that are not wiped, in order |
| HandAR.HiddenDroppingStays | components/HandAR.tsx:262 | a poop whose limb has no contour is kept |
| HandAR.OnlyTheOtherHandWipes | components/HandAR.tsx:264-266 | a hand's poop is not wiped when the other hand is absent |
| HandAR.EitherHandWipesTheHead | components/HandAR.tsx:264-269 | either hand wipes a head poop when its centroid is on the poop |
| HandAR.NewPoop | components/HandAR.tsx:304 | a new poop is on the bird's limb at its offset; scale, scatter and rotation are in their ranges |
| HandAR.DroppingOf | components/HandAR.tsx:303-306 | a bird leaves a poop exactly when `justPooped` |
| HandAR.DroppingsOfPooped | components/HandAR.tsx:303-306 | every bird that had just pooped leaves its poop, and every new poop belongs to such a bird |
| HandAR.TargetOf | components/HandAR.tsx:302 | there is no target exactly when the bird flees and its limb has no contour; a bird that is not fleeing and has no contour targets its own position |
| HandAR.TargetOnContour | components/HandAR.tsx:302 | with a contour, the target lies on one of its segments |
| HandAR.OnStage | components/HandAR.tsx:309 | the cull keeps exactly the birds inside the 200-pixel margin, in order |
| HandAR.Fly | components/HandAR.tsx:302-307 | one bird's update against its resolved target is `Step`, pushed along its limb by the summed push of the flock as it stands, exactly when it sits perched with a target |
| HandAR.Turn | components/HandAR.tsx:303-307 | `justPooped` is cleared, then the bird updates against the flock's push as it stands before the turn |
| HandAR.TakeTurns | components/HandAR.tsx:301-308 | every bird of the flock takes its turn, each against its own pre-frame target, pushed by its siblings exactly when it sits perched with a target |
| HandAR.Scene.constructor | components/HandAR.tsx:63-65 | the scene starts with no birds, poops or limbs |
| HandAR.Scene.ScareBirds | components/HandAR.tsx:239-242 | scareBirds sets the matching birds to FLYING_AWAY and clears the limb's `hasBursted` |
| HandAR.Scene.SpawnBurst | components/HandAR.tsx:232-234 | spawnBurst appends five new birds at offsets 0.1/0.3/0.5/0.7/0.9 with no cap |
| HandAR.Scene.SpawnSingleBird | components/HandAR.tsx:235-238 | spawnSingleBird appends one bird exactly when fewer than 60 birds are not fleeing |
| HandAR.InitialLimbState | components/HandAR.tsx:34-38 | a new limb record has no last position, no contour, all timers, counts and widths at 0, no stillness, burst or fist, and yaw 'center' |
| HandAR.Scene.Register | components/HandAR.tsx:165 | a limb seen for the first time gets the initial record |
| HandAR.Scene.ProcessTargetLogic | components/HandAR.tsx:191-230 | the verdict is `Track` of the limb's record and landmarks (fist, reference point, width, yaw); the limb's record becomes the verdict's; the limb's poops are dropped, the old birds scared and new birds hatched exactly as the verdict says, with the burst's offsets and ids |
| HandAR.Scene.Grow | components/HandAR.tsx:214-216 | the spawn appends five fresh FLYING_IN birds on the limb at offsets 0.1/0.3/0.5/0.7/0.9 with the given ids, or one under the cap of 60, keeping the old flock as it was |
| HandAR.Scene.Perform | components/HandAR.tsx:198-227 | the limb's record is replaced; the limb's poops go exactly on a drop; every old bird is scared exactly on a scare; the new birds are the spawn's, FLYING_AWAY when the same verdict scares |
| HandAR.Scene.Befall | components/HandAR.tsx:198-227 | every bird is scared exactly when the verdict scares, the limb's poops go exactly when it drops them, and only the limb's own record changes |
| HandAR.Scene.StoreContour | components/HandAR.tsx:169-171 | the stored contour is the hull, raised by a quarter of the face width for the head |
| HandAR.Scene.Observe | components/HandAR.tsx:164-168 | the limb's record, or the initial one when first seen, is assessed with a hand counted as tracked when it is a hand; the record, poops and birds change as that verdict says and no other limb's record changes |
| HandAR.Scene.Process | components/HandAR.tsx:163-172 | an absent limb changes nothing; a present one is registered and assessed as in `Observe`, and its record stores the hull contour, raised for the head; the hull is a strictly turning subsequence of the sorted landmarks |
| HandAR.Scene.AgeOne | components/HandAR.tsx:177-179 | one limb is aged, or evicted at 30 missing frames with its birds scared and its poops dropped |
| HandAR.Scene.AgeLimbs | components/HandAR.tsx:177-180 | the aging loop yields `AgedLimbs`, the contours of the kept limbs, and the poops and birds of the evicted ones dropped or scared |
| HandAR.Scene.CheckWipeInteraction | components/HandAR.tsx:260-273 | checkWipeInteraction leaves the `Unwiped` poops |
| HandAR.Scene.CullBirds | components/HandAR.tsx:309 | the birds become `OnStage` of the old flock |
| HandAR.Scene.CollectDroppings | components/HandAR.tsx:303-305 | the new poops of the pass are `Droppings` of the flock |
| HandAR.Scene.FlyFlock | components/HandAR.tsx:301-308 | the flock's poops are appended and every bird takes its turn |
| HandAR.Scene.UpdateAndDrawBirds | components/HandAR.tsx:300-310 | updateAndDrawBirds adds the poops, updates every bird and culls the flock |
| HandAR.Scene.ProcessLimbs | components/HandAR.tsx:173-175 | the present limbs are registered and the frame's seen set is collected |
| HandAR.Scene.OnResults | components/HandAR.tsx:160-185 | after a frame the seen limbs have 0 missing frames, every limb has fewer than 30, `detectionActive` says whether any limb is tracked, and every bird is within the margin |
| ProfileSync.Keepable | utils/db.ts:77-82 | the merge keeps exactly the entries that are profiles with a non-empty id |
| ProfileSync.FirstOccurrencesIn | utils/db.ts:76-84 | the map's key order holds each id once, and exactly the ids set |
| ProfileSync.MergedWellFormed | utils/db.ts:76-84 | merged ids are pairwise distinct and non-empty, and every merged profile came from the cloud or the local list |
| ProfileSync.LocalWins | utils/db.ts:77-82 | every kept id appears; it carries the last local profile with that id if there is one, else the last cloud one |
| ProfileSync.CloudOrderFirst | utils/db.ts:76-84 | cloud ids come first in cloud order; the rest are local ids unknown to the cloud |
| ProfileSync.LastWith | utils/db.ts:78-81 | the profile a later `set` leaves for an id is one of the list with that id |
| ProfileSync.Put | utils/db.ts:78 | one `birdMap.set` keeps the map holding the profiles set so far |
| ProfileSync.HoldsSnoc | utils/db.ts:81 | setting an id keeps its slot in the key order and replaces its value |
| ProfileSync.PutAll | utils/db.ts:77-82 | each forEach loop sets every kept entry in order |
| ProfileSync.ReadOut | utils/db.ts:84 | `Array.from(birdMap.values())` lists, in key order, the last profile set for each id |
| ProfileSync.MergeProfiles | utils/db.ts:76-84 | the merge loop computes `Merged` |
| ProfileSync.CloudList | utils/db.ts:63-73 | an error status or an empty or unparseable body reads as []; an unreachable cloud or a non-list body throws |
| ProfileSync.SyncBirdsWithCloud | utils/db.ts:60-113 | an unreachable cloud, a non-list body or a null local entry returns the local list and posts nothing; otherwise the merge is posted exactly when it or the local list is longer than the cloud list and the payload is at most 950000 characters, and the merged list is returned unless the post or a save throws |

## Left out

- Rendering and UI are not modelled: the canvas drawing of birds, butterflies
  and poops, the React hooks, the camera and MediaPipe setup, the file
  upload, and the asset loading (`loadAssets`, `preloadImages`).
- `updateGlobalStatus` is not modelled. It only chooses a status message.
- Flight trajectories are modelled through `sqrt`, `sin` and `Direction`.
  Their actual values (`atan2`, `cos`, `sin`, wobble and noise) are not.
- Floating point, NaN and Infinity are left out, because the model works
  over the reals.
- `Geometry.SegmentPoint` gives the segment's start on a zero-length segment.
  The program divides 0 by 0 there and gets NaN.
- `HandAR.YawOf` covers a face of zero width by the sign of the division's
  numerator, as IEEE division would give it.
- `HandAR.Scene.ProcessTargetLogic` requires `now` to be later than the
  limb's last check. An elapsed time of 0 would divide by zero in the
  program.
- `HandAR.Scene.UpdateAndDrawBirds` collects each bird's dropping before the
  flock flies, not interleaved with the updates. The result is the same: a
  bird's dropping reads only its own pre-update fields, and a bird's update
  never reads `justPooped` or `poops`.
- `HandAR.Scene.AgeLimbs` visits the limbs in an unspecified order, where the
  program follows `Map` insertion order. Each limb's aging touches only its
  own record, poops and birds, so the order does not change the result.
- `HandAR.Scene.OnResults` does not model the canvas resizing or the
  mirroring of the landmarks. The landmarks arrive already in pixels.
- `HandAR.Scene.ProcessLimbs` states the birds' count bound and freshness,
  not each limb's verdict or each new bird's fields. Those are stated per limb
  by `HandAR.Scene.Process`; chaining the three limbs' contracts was beyond
  the solver's budget.
- `HandAR.Scene.OnResults` states the limb bookkeeping, `detectionActive` and
  the cull, not each limb's verdict, the droppings or each bird's step. Those
  are stated by `HandAR.Scene.Process`, `HandAR.Scene.AgeLimbs`,
  `HandAR.Scene.CheckWipeInteraction` and `HandAR.Scene.UpdateAndDrawBirds`;
  composing them in one contract was beyond the solver's budget.
- `HandAR.TakeTurns` states each bird's step with some sibling push, present
  exactly when the bird sits perched with a target (so its offset is clamped
  into [0.05, 0.95]), but not the push's value. That value is the flock's
  views at the bird's turn (earlier birds already moved), which `HandAR.Turn`
  states for one turn; carrying it through the loop was beyond the solver's
  budget.
- `HandAR.Scene.FlyFlock` states each bird's step as `HandAR.TakeTurns` does,
  without the push's value.
- `HandAR.Scene.UpdateAndDrawBirds` states each bird's step as
  `HandAR.TakeTurns` does, without the push's value.
- `Geometry.Centroid` returns None for an empty list. `getCentroid` divides 0
  by 0 there and gives {NaN, NaN}.
- `Birds.Bird.constructor` takes its id as a parameter. The program takes a
  base-36 slice of a random number.
- `Birds.Bird.Update` is proved for the fixed frame of 16 ms that the
  program passes. The `dt` parameter is unused in the program as well.
- `Butterflies.Butterfly.Update` does not model the particle colour string.
- `ProfileSync.SyncBirdsWithCloud` takes `JSON.parse`, `JSON.stringify` and
  whether the POST or a local save throws as parameters. The IndexedDB
  writes are left out.
- `ProfileSync.SyncBirdsWithCloud` treats a `null` local entry as a throw that
  returns the local list. `localBirds.map(b => b.id)` throws on it.
- Butterfly siblings are not modelled. `Butterfly.update` takes a `siblings`
  parameter but never reads it.
