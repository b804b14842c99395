/** A bird: it spawns off screen, flies to a perch on a hand or on the head,
  * idles there (pecking, hopping, dropping poops), and flies back to where it
  * came from when scared.
  *
  * `Math.random()` draws arrive as parameters (`SpawnRolls`, `UpdateRolls`),
  * `Math.sqrt` and `Math.sin` as the functions `sqrt` and `sin`, and `Date.now()`
  * as `now`. */
module Birds {
  import opened Types
  import opened Geometry

  // ---------------------------------------------------------------------
  // Spawning

  /** The built-in species, in the order the spawner indexes them. */
  const SpeciesList: seq<string> :=
    ["sparrow", "robin", "bluejay", "goldfinch", "cardinal", "swan", "crow", "eagle", "owl", "parrot", "toucan"]

  /** How far outside the screen a bird starts. */
  const SpawnBuffer: real := 150.0

  /** The draws a new bird takes, one per `Math.random()` call of the constructor. */
  datatype SpawnRolls = SpawnRolls(
    side: real, place: real, custom: real, pick: real, jitter: real,
    flap: real, phase: real, wobbleOffset: real, wobbleSpeed: real,
    perch: real, action: real, variant: real, poop: real)

  predicate ValidSpawnRolls(r: SpawnRolls) {
    && IsRoll(r.side) && IsRoll(r.place) && IsRoll(r.custom) && IsRoll(r.pick) && IsRoll(r.jitter)
    && IsRoll(r.flap) && IsRoll(r.phase) && IsRoll(r.wobbleOffset) && IsRoll(r.wobbleSpeed)
    && IsRoll(r.perch) && IsRoll(r.action) && IsRoll(r.variant) && IsRoll(r.poop)
  }

  /** Where a new bird starts: above the screen, left of it, or right of it,
    * the side chosen as `Math.floor(roll * 3)`. */
  function SpawnOrigin(screenWidth: real, screenHeight: real, sideRoll: real, placeRoll: real): (o: Point)
    requires IsRoll(sideRoll) && IsRoll(placeRoll) && screenWidth >= 0.0 && screenHeight >= 0.0
    ensures o.x < 0.0 || o.x > screenWidth || o.y < 0.0
  {
    var side := (sideRoll * 3.0).Floor;
    if side == 0 then Point(placeRoll * screenWidth, -SpawnBuffer)
    else if side == 1 then Point(-SpawnBuffer, placeRoll * screenHeight * 0.5)
    else Point(screenWidth + SpawnBuffer, placeRoll * screenHeight * 0.5)
  }

  /** The user-authored profile and the species of a new bird: a random custom
    * profile when there is one and the roll exceeds 0.3, a built-in species otherwise. */
  function ChooseSpecies(customConfigs: seq<CustomBirdConfig>, customRoll: real, pickRoll: real):
    (r: (Option<CustomBirdConfig>, string))
    requires IsRoll(customRoll) && IsRoll(pickRoll)
    ensures r.0.Some? <==> |customConfigs| > 0 && customRoll > 0.3
    ensures r.0.Some? ==> r.0.value in customConfigs && r.1 == r.0.value.name
    ensures r.0.None? ==> r.1 in SpeciesList
  {
    if |customConfigs| > 0 && customRoll > 0.3 then
      PickInRange(pickRoll, |customConfigs|);
      var i := (pickRoll * |customConfigs| as real).Floor;
      var cfg := customConfigs[i];
      (Some(cfg), cfg.name)
    else
      PickInRange(pickRoll, |SpeciesList|);
      (None, SpeciesList[(pickRoll * |SpeciesList| as real).Floor])
  }

  function SpeciesBaseSize(species: string): real {
    if species == "swan" then 45.0
    else if species in ["eagle", "crow"] then 28.0
    else if species in ["owl", "parrot", "toucan"] then 22.0
    else 16.0
  }

  /** A bird's body size: the species' base size, scaled with the limb's pixel width
    * (at least 50) and halved on the head, jittered by 0.85-1.15, then kept in [6, 100]. */
  function BodySize(species: string, handPixelWidth: real, targetId: string, jitterRoll: real): (size: real)
    ensures 6.0 <= size <= 100.0
    ensures var raw := SpeciesBaseSize(species) * BaseScale(handPixelWidth, targetId) * (0.85 + jitterRoll * 0.3);
      6.0 <= raw <= 100.0 ==> size == raw
  {
    Clamp(SpeciesBaseSize(species) * BaseScale(handPixelWidth, targetId) * (0.85 + jitterRoll * 0.3), 6.0, 100.0)
  }

  function BaseScale(handPixelWidth: real, targetId: string): real {
    var s := Max(handPixelWidth, 50.0) / 100.0 * 0.75;
    if targetId == HEAD then s * 0.5 else s
  }

  /** The fraction along the limb's ridge where a new bird perches. */
  function InitialPerchOffset(forcedOffset: Option<real>, roll: real): (o: real)
    ensures forcedOffset.Some? ==> o == forcedOffset.value
    ensures forcedOffset.None? && IsRoll(roll) ==> 0.05 <= o < 0.95
  {
    if forcedOffset.Some? then forcedOffset.value else 0.05 + roll * 0.9
  }

  // ---------------------------------------------------------------------
  // Idle actions

  /** The idle action a perched bird picks and how many frames it lasts. */
  datatype ActionChoice = ActionChoice(action: IdleAction, timer: real)

  /** pickNewAction's bands: hop 5%, peck 20%, look back 20%, fluff 15%, idle 40%. */
  function ActionFor(roll: real, idleRoll: real): (c: ActionChoice)
    ensures IsRoll(idleRoll) ==> c.timer > 0.0
    ensures c.action == Hop <==> roll < 0.05
    ensures c.action == Idle <==> roll >= 0.6
    ensures c.action == Idle && IsRoll(idleRoll) ==> 60.0 <= c.timer < 160.0
    ensures c.action != Idle ==> c.timer in {20.0, 35.0, 80.0, 40.0}
    ensures c.action == Hop ==> c.timer == 20.0
    ensures c.action == Peck ==> c.timer == 35.0
    ensures c.action == LookBack ==> c.timer == 80.0
    ensures c.action == Fluff ==> c.timer == 40.0
  {
    if roll < 0.05 then ActionChoice(Hop, 20.0)
    else if roll < 0.25 then ActionChoice(Peck, 35.0)
    else if roll < 0.45 then ActionChoice(LookBack, 80.0)
    else if roll < 0.6 then ActionChoice(Fluff, 40.0)
    else ActionChoice(Idle, 60.0 + idleRoll * 100.0)
  }

  /** Each band of `roll` yields its own action: the five bands are disjoint and cover [0, 1). */
  lemma ActionBands(roll: real, idleRoll: real)
    requires IsRoll(roll)
    ensures var a := ActionFor(roll, idleRoll).action;
      && (a == Peck <==> 0.05 <= roll < 0.25)
      && (a == LookBack <==> 0.25 <= roll < 0.45)
      && (a == Fluff <==> 0.45 <= roll < 0.6)
  {}

  // ---------------------------------------------------------------------
  // Sibling repulsion on the perch

  /** What a perched bird's repulsion reads of a sibling. */
  datatype PerchView = PerchView(id: string, targetId: string, state: CreatureState, perchOffset: real, size: real)

  /** Whether `sib` can push `me`: another bird, perched on the same limb. */
  predicate Repels(me: PerchView, sib: PerchView) {
    sib.id != me.id && sib.targetId == me.targetId && sib.state == Perched
  }

  /** The push one sibling gives: when the two are closer than (sum of sizes) / 250,
    * 8% of the overlap, directed away from the sibling (down on a tie). */
  function Contribution(me: PerchView, sib: PerchView): real {
    if !Repels(me, sib) then 0.0
    else
      var dist := Abs(me.perchOffset - sib.perchOffset);
      var neededSep := (me.size + sib.size) / 250.0;
      if dist < neededSep then (if me.perchOffset > sib.perchOffset then 1.0 else -1.0) * (neededSep - dist) * 0.08
      else 0.0
  }

  /** The summed push of the siblings, in order. */
  function Push(me: PerchView, sibs: seq<PerchView>): real {
    if sibs == [] then 0.0 else Push(me, sibs[..|sibs| - 1]) + Contribution(me, sibs[|sibs| - 1])
  }

  /** The siblings that can push `me`, in order. */
  function Repelling(me: PerchView, sibs: seq<PerchView>): (r: seq<PerchView>)
    ensures forall k :: 0 <= k < |r| ==> Repels(me, r[k]) && r[k] in sibs
  {
    if sibs == [] then []
    else
      var rest := Repelling(me, sibs[..|sibs| - 1]);
      if Repels(me, sibs[|sibs| - 1]) then rest + [sibs[|sibs| - 1]] else rest
  }

  /** Only other birds perched on the same limb push: the rest can be dropped. */
  lemma {:induction false} PushOnlyFromRepelling(me: PerchView, sibs: seq<PerchView>)
    ensures Push(me, sibs) == Push(me, Repelling(me, sibs))
  {
    if sibs != [] {
      var init, last := sibs[..|sibs| - 1], sibs[|sibs| - 1];
      PushOnlyFromRepelling(me, init);
      var rest := Repelling(me, init);
      if Repels(me, last) {
        assert (rest + [last])[..|rest|] == rest;
      }
    }
  }

  /** A bird whose every repelling sibling sits below it is pushed up (or not at all),
    * and one whose every repelling sibling sits at or above it is pushed down. */
  lemma {:induction false} PushAwayFromSiblings(me: PerchView, sibs: seq<PerchView>)
    requires forall v :: v in sibs ==> me.size >= 0.0 && v.size >= 0.0
    ensures (forall v :: v in sibs && Repels(me, v) ==> v.perchOffset < me.perchOffset) ==> Push(me, sibs) >= 0.0
    ensures (forall v :: v in sibs && Repels(me, v) ==> v.perchOffset >= me.perchOffset) ==> Push(me, sibs) <= 0.0
  {
    if sibs != [] {
      var init, last := sibs[..|sibs| - 1], sibs[|sibs| - 1];
      assert forall v :: v in init ==> v in sibs;
      PushAwayFromSiblings(me, init);
      if Repels(me, last) {
        var dist := Abs(me.perchOffset - last.perchOffset);
        var neededSep := (me.size + last.size) / 250.0;
        if dist < neededSep {
          ProductNonNegative(neededSep - dist, 0.08, (neededSep - dist) * 0.08);
        }
      }
    }
  }

  /** Two birds at the very same offset receive the same push from each other,
    * downwards: the tie-break sends both the same way. */
  lemma TiedBirdsPushedAlike(a: PerchView, b: PerchView)
    requires a.perchOffset == b.perchOffset && Repels(a, b) && Repels(b, a)
    requires a.size + b.size > 0.0
    ensures Contribution(a, b) == Contribution(b, a) < 0.0
  {
    var neededSep := (a.size + b.size) / 250.0;
    ProductPositive(neededSep, 0.08, neededSep * 0.08);
  }

  // ---------------------------------------------------------------------
  // Flight helpers

  /** The flee steering's speed cap: a velocity faster than 10 is rescaled to
    * speed 10 along its direction; a slower one is kept. */
  function CapSpeed(sqrt: real -> real, vx: real, vy: real): (v: (real, real))
    ensures sqrt(Sq(vx) + Sq(vy)) <= 10.0 ==> v == (vx, vy)
  {
    var speed := sqrt(Sq(vx) + Sq(vy));
    if speed > 10.0 then (vx * (10.0 / speed), vy * (10.0 / speed)) else (vx, vy)
  }

  /** After the cap the speed is at most 10, and exactly 10 when the cap applied. */
  lemma CapSpeedBound(sqrt: real -> real, vx: real, vy: real)
    requires IsSqrt(sqrt)
    ensures var v := CapSpeed(sqrt, vx, vy);
      && Sq(v.0) + Sq(v.1) <= 100.0
      && (sqrt(Sq(vx) + Sq(vy)) > 10.0 ==> Sq(v.0) + Sq(v.1) == 100.0)
  {
    CappedSpeed(sqrt, vx, vy);
  }

  lemma CappedSpeed(sqrt: real -> real, vx: real, vy: real)
    ensures var speed := sqrt(Sq(vx) + Sq(vy));
      && (IsSqrt(sqrt) && speed > 10.0 ==> Sq(vx * (10.0 / speed)) + Sq(vy * (10.0 / speed)) == 100.0)
      && (IsSqrt(sqrt) && speed <= 10.0 ==> Sq(vx) + Sq(vy) <= 100.0)
  {
    if !IsSqrt(sqrt) {
      return;
    }
    SqFacts(vx);
    SqFacts(vy);
    var speed := sqrt(Sq(vx) + Sq(vy));
    if speed > 10.0 {
      var k := 10.0 / speed;
      SqOfQuotient(10.0, speed);
      ScaleSq(vx, k);
      ScaleSq(vy, k);
      RescaledSum(Sq(vx), Sq(vy), Sq(speed), Sq(k));
    } else {
      if speed < 10.0 {
        SquareMonotone(speed, 10.0);
      }
    }
  }

  lemma RescaledSum(a: real, b: real, s: real, f: real)
    requires s == a + b && s > 0.0 && f == 100.0 / s
    ensures a * f + b * f == 100.0
  {
    assert a * f + b * f == (a + b) * f;
  }

  /** A bird's position and velocity. */
  datatype Motion = Motion(x: real, y: real, vx: real, vy: real)

  /** The distance from a flying-in bird's feet (1.5 sizes below it) to its perch. */
  function ArrivalDistance(sqrt: real -> real, m: Motion, target: Point, size: real): real {
    sqrt(Sq(target.x - m.x) + Sq((target.y - size * 1.5) - m.y))
  }

  /** The FLYING_IN step: towards the perch at min(2% of the distance, 8) per
    * frame, plus a vertical bob of twice the wing beat's sine `flapSine`. */
  function FlyInStep(sqrt: real -> real, m: Motion, target: Point, size: real, flapSine: real): (r: Motion)
    ensures r.x == m.x + r.vx && r.y == m.y + r.vy
  {
    var dx := target.x - m.x;
    var dy := (target.y - size * 1.5) - m.y;
    var speed := Min(0.02 * ArrivalDistance(sqrt, m, target, size), 8.0);
    var dir := Direction(sqrt, dx, dy);
    var vx := dir.0 * speed;
    var vy := dir.1 * speed + flapSine * 2.0;
    Motion(m.x + vx, m.y + vy, vx, vy)
  }

  /** Flying in, the steering velocity (the velocity without the bob) points at
    * the perch and is never faster than 8, nor than 2% of the remaining distance. */
  lemma FlyInSpeedCapped(sqrt: real -> real, m: Motion, target: Point, size: real, flapSine: real)
    requires IsSqrt(sqrt)
    ensures var r := FlyInStep(sqrt, m, target, size, flapSine);
      var steer := Sq(r.vx) + Sq(r.vy - flapSine * 2.0);
      && steer <= 64.0
      && steer <= Sq(0.02 * ArrivalDistance(sqrt, m, target, size))
  {
    var dx := target.x - m.x;
    var dy := (target.y - size * 1.5) - m.y;
    var dist := ArrivalDistance(sqrt, m, target, size);
    var speed := Min(0.02 * dist, 8.0);
    var dir := Direction(sqrt, dx, dy);
    var r := FlyInStep(sqrt, m, target, size, flapSine);
    assert r.vx == dir.0 * speed && r.vy - flapSine * 2.0 == dir.1 * speed;
    DirectedSteerBound(sqrt, dx, dy, speed);
  }

  /** The steering of a flight towards (dx, dy): along the unit direction, at
    * min(2% of the distance, 8). */
  lemma DirectedSteerBound(sqrt: real -> real, dx: real, dy: real, speed: real)
    requires IsSqrt(sqrt) && speed == Min(0.02 * sqrt(Sq(dx) + Sq(dy)), 8.0)
    ensures var dir := Direction(sqrt, dx, dy);
      && Sq(dir.0 * speed) + Sq(dir.1 * speed) <= 64.0
      && Sq(dir.0 * speed) + Sq(dir.1 * speed) <= Sq(0.02 * sqrt(Sq(dx) + Sq(dy)))
  {
    var dist := sqrt(Sq(dx) + Sq(dy));
    assert dist >= 0.0 by {
      SqFacts(dx);
      SqFacts(dy);
    }
    var dir := Direction(sqrt, dx, dy);
    assert Sq(dir.0) + Sq(dir.1) == 1.0 by {
      DirectionIsUnit(sqrt, dx, dy);
    }
    SteerBound(dir.0, dir.1, dist, speed);
  }

  /** A unit direction scaled by min(2% of `dist`, 8) is no longer than either bound. */
  lemma SteerBound(d0: real, d1: real, dist: real, speed: real)
    requires Sq(d0) + Sq(d1) == 1.0 && dist >= 0.0 && speed == Min(0.02 * dist, 8.0)
    ensures Sq(d0 * speed) + Sq(d1 * speed) <= 64.0
    ensures Sq(d0 * speed) + Sq(d1 * speed) <= Sq(0.02 * dist)
  {
    ScaledUnit(d0, d1, speed);
    SpeedBelow(speed, 8.0);
    SpeedBelow(speed, 0.02 * dist);
  }

  /** Scaling a unit direction by `s` gives a vector of squared length `Sq(s)`. */
  lemma ScaledUnit(d0: real, d1: real, s: real)
    requires Sq(d0) + Sq(d1) == 1.0
    ensures Sq(d0 * s) + Sq(d1 * s) == Sq(s)
  {
    ScaleSq(d0, s);
    ScaleSq(d1, s);
    UnitTimes(Sq(d0), Sq(d1), Sq(s));
  }

  lemma SpeedBelow(speed: real, cap: real)
    requires 0.0 <= speed <= cap
    ensures Sq(speed) <= Sq(cap)
  {
    if speed < cap {
      SquareMonotone(speed, cap);
    }
  }

  lemma UnitTimes(a: real, b: real, k: real)
    requires a + b == 1.0
    ensures a * k + b * k == k
  {
    assert a * k + b * k == (a + b) * k;
  }

  /** The FLYING_AWAY step: accelerate by 0.5 towards the spawn origin, cap the
    * speed at 10, and drift sideways to the heading by the wobble (1.5 times
    * the sine sample `wobbleSine`). */
  function FleeStep(sqrt: real -> real, m: Motion, origin: Point, wobbleSine: real): (r: Motion)
  {
    var dir := Direction(sqrt, origin.x - m.x, origin.y - m.y);
    var v := CapSpeed(sqrt, m.vx + dir.0 * 0.5, m.vy + dir.1 * 0.5);
    var wobble := wobbleSine * 1.5;
    Motion(m.x + v.0 - dir.1 * wobble, m.y + v.1 + dir.0 * wobble, v.0, v.1)
  }

  /** A fleeing bird never flies faster than 10 per frame. */
  lemma FleeSpeedCapped(sqrt: real -> real, m: Motion, origin: Point, wobbleSine: real)
    requires IsSqrt(sqrt)
    ensures var r := FleeStep(sqrt, m, origin, wobbleSine); Sq(r.vx) + Sq(r.vy) <= 100.0
  {
    var dir := Direction(sqrt, origin.x - m.x, origin.y - m.y);
    CapSpeedBound(sqrt, m.vx + dir.0 * 0.5, m.vy + dir.1 * 0.5);
  }

  /** The blink countdown: one tick per frame, re-armed to 100-300 frames once
    * it passes -10 (the blink itself is drawn while it is negative). */
  function NextBlinkTimer(blinkTimer: real, roll: real): (r: real)
    ensures IsRoll(roll) ==> r >= -10.0
    ensures blinkTimer - 1.0 >= -10.0 ==> r == blinkTimer - 1.0
    ensures blinkTimer - 1.0 < -10.0 && IsRoll(roll) ==> 100.0 <= r < 300.0
  {
    if blinkTimer - 1.0 < -10.0 then roll * 200.0 + 100.0 else blinkTimer - 1.0
  }

  /** The draws one update may take: blink reset, poop timer reset, action band, idle duration. */
  datatype UpdateRolls = UpdateRolls(blink: real, poop: real, action: real, idle: real)

  predicate ValidUpdateRolls(r: UpdateRolls) {
    IsRoll(r.blink) && IsRoll(r.poop) && IsRoll(r.action) && IsRoll(r.idle)
  }

  /** The part of a bird that update changes. */
  datatype Dynamics = Dynamics(
    x: real, y: real, vx: real, vy: real, flapPhase: real, state: CreatureState, perchOffset: real,
    idleAction: IdleAction, actionTimer: real, blinkTimer: real, poopTimer: real, justPooped: bool)

  /** The part of a bird that update reads but never changes. */
  datatype Build = Build(size: real, flapSpeed: real, origin: Point, wobbleOffset: real)

  /** The perched bird's chores, after the frame's timers: the poop countdown
    * (a poop is due when it reaches 0, and the countdown re-arms to 300-600
    * frames), the siblings' push along the limb (None when no siblings were
    * passed), and a new idle action when the action timer has run out. */
  function PerchChores(d: Dynamics, push: Option<real>, rolls: UpdateRolls): (r: Dynamics)
    ensures r.state == d.state && r.x == d.x && r.y == d.y && r.vx == d.vx
    ensures r.flapPhase == d.flapPhase && r.blinkTimer == d.blinkTimer
    ensures push.Some? ==> 0.05 <= r.perchOffset <= 0.95
    ensures push.None? ==> r.perchOffset == d.perchOffset
    ensures IsRoll(rolls.poop) ==> r.poopTimer > 0.0
    ensures IsRoll(rolls.poop) && d.poopTimer - 1.0 <= 0.0 ==> 300.0 <= r.poopTimer < 600.0
    ensures d.poopTimer - 1.0 > 0.0 ==> r.poopTimer == d.poopTimer - 1.0
    ensures r.justPooped <==> d.justPooped || d.poopTimer - 1.0 <= 0.0
    ensures d.actionTimer <= 0.0 ==> ActionChoice(r.idleAction, r.actionTimer) == ActionFor(rolls.action, rolls.idle)
    ensures d.actionTimer > 0.0 ==> r.idleAction == d.idleAction && r.actionTimer == d.actionTimer && r.vy == d.vy
    ensures r.vy != d.vy ==> r.idleAction == Hop && r.vy == -3.0
  {
    var poopDue := d.poopTimer - 1.0 <= 0.0;
    var picked := d.actionTimer <= 0.0;
    var choice := if picked then ActionFor(rolls.action, rolls.idle) else ActionChoice(d.idleAction, d.actionTimer);
    d.(poopTimer := if poopDue then 300.0 + rolls.poop * 300.0 else d.poopTimer - 1.0,
       justPooped := poopDue || d.justPooped,
       perchOffset := if push.Some? then Clamp(d.perchOffset + push.value, 0.05, 0.95) else d.perchOffset,
       idleAction := choice.action,
       actionTimer := choice.timer,
       vy := if picked && rolls.action < 0.05 then -3.0 else d.vy)
  }

  /** The perched bird's body: x eases 10% of the way to the perch, a hop in its
    * first half kicks upwards, and gravity of 0.5 pulls the bird down onto the
    * perch line 1.6 sizes above the perch, where it stands still. */
  function Settle(d: Dynamics, size: real, target: Point): (r: Dynamics)
    ensures r == d.(x := r.x, y := r.y, vy := r.vy)
    ensures r.y <= target.y - size * 1.6
    ensures r.y == target.y - size * 1.6 ==> r.vy == 0.0
    ensures r.y < target.y - size * 1.6 ==> r.vy == r.y - d.y + 0.5
    ensures d.x <= target.x ==> d.x <= r.x <= target.x
    ensures target.x <= d.x ==> target.x <= r.x <= d.x
  {
    var lineY := target.y - size * 1.6;
    var vy := if d.idleAction == Hop && d.actionTimer > 10.0 then -2.0 else d.vy;
    var landed := d.y + vy >= lineY;
    d.(x := d.x * 0.9 + target.x * 0.1,
       y := if landed then lineY else d.y + vy,
       vy := if landed then 0.0 else vy + 0.5)
  }

  /** The PERCHED step, after the frame's timers. */
  function PerchStep(d: Dynamics, size: real, target: Point, push: Option<real>, rolls: UpdateRolls): Dynamics {
    Settle(PerchChores(d, push, rolls), size, target)
  }

  /** The frame's timers: the wing phase advances, the action timer counts
    * down, the blink timer ticks. */
  function Ticked(d: Dynamics, flapSpeed: real, rolls: UpdateRolls): (r: Dynamics)
    ensures r.actionTimer < d.actionTimer
    ensures IsRoll(rolls.blink) ==> r.blinkTimer >= -10.0
  {
    d.(flapPhase := d.flapPhase + flapSpeed, actionTimer := d.actionTimer - 1.0,
       blinkTimer := NextBlinkTimer(d.blinkTimer, rolls.blink))
  }

  /** The FLYING_IN branch, after the timers: fly, and perch once the feet are
    * within 15 of the perch. */
  function FlyInUpdate(d: Dynamics, size: real, target: Point, sqrt: real -> real, flapSine: real): (r: Dynamics)
    ensures r.state == Perched <==> ArrivalDistance(sqrt, Motion(d.x, d.y, d.vx, d.vy), target, size) < 15.0
    ensures r.state == FlyingIn || r.state == Perched
    ensures r.flapPhase == d.flapPhase && r.blinkTimer == d.blinkTimer && r.actionTimer == d.actionTimer
    ensures r.perchOffset == d.perchOffset && r.poopTimer == d.poopTimer && r.justPooped == d.justPooped
  {
    var m := Motion(d.x, d.y, d.vx, d.vy);
    var n := FlyInStep(sqrt, m, target, size, flapSine);
    d.(x := n.x, y := n.y, vx := n.vx, vy := n.vy,
       state := if ArrivalDistance(sqrt, m, target, size) < 15.0 then Perched else FlyingIn)
  }

  /** The FLYING_AWAY branch, after the timers. */
  function FleeUpdate(d: Dynamics, origin: Point, sqrt: real -> real, wobbleSine: real): (r: Dynamics)
    ensures r.state == d.state && r.flapPhase == d.flapPhase && r.blinkTimer == d.blinkTimer
    ensures r.perchOffset == d.perchOffset && r.poopTimer == d.poopTimer && r.justPooped == d.justPooped
    ensures r.actionTimer == d.actionTimer
  {
    var n := FleeStep(sqrt, Motion(d.x, d.y, d.vx, d.vy), origin, wobbleSine);
    d.(x := n.x, y := n.y, vx := n.vx, vy := n.vy)
  }

  /** The state-dependent part of a frame, after the timers: fly in, sit on the
    * perch or flee. A bird without a perch that is not fleeing stays put. */
  function Advanced(t: Dynamics, b: Build, target: Option<Point>, push: Option<real>,
                    sqrt: real -> real, flapSine: real, wobbleSine: real, rolls: UpdateRolls): Dynamics
  {
    if t.state == FlyingIn && target.Some? then FlyInUpdate(t, b.size, target.value, sqrt, flapSine)
    else if t.state == Perched && target.Some? then PerchStep(t, b.size, target.value, push, rolls)
    else if t.state == FlyingAway then FleeUpdate(t, b.origin, sqrt, wobbleSine)
    else t
  }

  /** One frame of a bird (Bird.update): the frame's timers, then the step of its
    * state. `push` is the siblings' summed push, `flapSine` the sine of the
    * advanced wing phase, `wobbleSine` the sine of the flee wobble phase. */
  function Step(d: Dynamics, b: Build, target: Option<Point>, push: Option<real>,
                sqrt: real -> real, flapSine: real, wobbleSine: real, rolls: UpdateRolls): Dynamics
  {
    Advanced(Ticked(d, b.flapSpeed, rolls), b, target, push, sqrt, flapSine, wobbleSine, rolls)
  }

  /** What a frame does to every bird, whatever its state. */
  lemma StepInvariants(d: Dynamics, b: Build, target: Option<Point>, push: Option<real>,
                       sqrt: real -> real, flapSine: real, wobbleSine: real, rolls: UpdateRolls)
    ensures var r := Step(d, b, target, push, sqrt, flapSine, wobbleSine, rolls);
      // Timers tick every frame.
      && r.flapPhase == d.flapPhase + b.flapSpeed
      && r.blinkTimer == NextBlinkTimer(d.blinkTimer, rolls.blink)
      // The lifecycle: FLYING_AWAY is final, and the only transition is FLYING_IN
      // to PERCHED, taken exactly when the feet come within 15 of the perch.
      && (d.state == FlyingAway ==> r.state == FlyingAway)
      && (r.state != d.state ==> d.state == FlyingIn && r.state == Perched && target.Some?)
      && (d.state == FlyingIn && target.Some? ==>
           (r.state == Perched <==> ArrivalDistance(sqrt, Motion(d.x, d.y, d.vx, d.vy), target.value, b.size) < 15.0))
      // A perched bird stands on or above its perch line.
      && (d.state == Perched && target.Some? ==> r.y <= target.value.y - b.size * 1.6)
      // Only a perched bird moves along its limb or drops poops.
      && (d.state != Perched || target.None? ==>
           r.perchOffset == d.perchOffset && r.poopTimer == d.poopTimer && r.justPooped == d.justPooped)
      // Without a perch a bird that is not fleeing only ticks its timers.
      && (target.None? && d.state != FlyingAway ==>
           r == d.(flapPhase := r.flapPhase, actionTimer := d.actionTimer - 1.0, blinkTimer := r.blinkTimer))
  {
    var t := Ticked(d, b.flapSpeed, rolls);
    assert t.state == d.state && t.x == d.x && t.y == d.y && t.vx == d.vx && t.vy == d.vy;
  }

  /** A perched bird with its perch in sight slides along its limb by its
    * siblings' push, and ends up between 0.05 and 0.95 whatever the push. */
  lemma StepPerchSlides(d: Dynamics, b: Build, target: Point, push: real,
                        sqrt: real -> real, flapSine: real, wobbleSine: real, rolls: UpdateRolls)
    requires d.state == Perched
    ensures var r := Step(d, b, Some(target), Some(push), sqrt, flapSine, wobbleSine, rolls);
      r.perchOffset == Clamp(d.perchOffset + push, 0.05, 0.95) && 0.05 <= r.perchOffset <= 0.95
  {
    var t := Ticked(d, b.flapSpeed, rolls);
    assert t.state == Perched && t.perchOffset == d.perchOffset;
  }

  /** A fleeing bird is never faster than 10 per frame after its step. */
  lemma StepFleeCapped(d: Dynamics, b: Build, target: Option<Point>, push: Option<real>,
                       sqrt: real -> real, flapSine: real, wobbleSine: real, rolls: UpdateRolls)
    requires IsSqrt(sqrt) && d.state == FlyingAway
    ensures var r := Step(d, b, target, push, sqrt, flapSine, wobbleSine, rolls); Sq(r.vx) + Sq(r.vy) <= 100.0
  {
    FleeSpeedCapped(sqrt, Motion(d.x, d.y, d.vx, d.vy), b.origin, wobbleSine);
  }

  /** A bird flying in steers at most 8 per frame (besides its bob). */
  lemma StepFlyInCapped(d: Dynamics, b: Build, target: Point, push: Option<real>,
                        sqrt: real -> real, flapSine: real, wobbleSine: real, rolls: UpdateRolls)
    requires IsSqrt(sqrt) && d.state == FlyingIn
    ensures var r := Step(d, b, Some(target), push, sqrt, flapSine, wobbleSine, rolls);
      Sq(r.vx) + Sq(r.vy - flapSine * 2.0) <= 64.0
  {
    FlyInSpeedCapped(sqrt, Motion(d.x, d.y, d.vx, d.vy), target, b.size, flapSine);
  }

  // ---------------------------------------------------------------------
  // The bird

  class Bird {
    var id: string
    var targetId: string
    var x: real
    var y: real
    var originX: real
    var originY: real
    var targetX: real
    var targetY: real
    var velocityX: real
    var velocityY: real
    var size: real
    var wingSpan: real
    var flapSpeed: real
    var flapPhase: real
    var state: CreatureState
    var perchOffset: real
    var species: string
    var customConfig: Option<CustomBirdConfig>
    var idleAction: IdleAction
    var actionTimer: real
    var blinkTimer: real
    var variantSeed: real
    var flightWobbleOffset: real
    var flightWobbleSpeed: real
    var poopTimer: real
    var justPooped: bool

    /** A new bird for limb `targetId`, flying in from off screen. */
    constructor (screenWidth: real, screenHeight: real, handPixelWidth: real, targetId: string,
                 forcedOffset: Option<real>, customConfigs: seq<CustomBirdConfig>, id: string, rolls: SpawnRolls)
      requires screenWidth >= 0.0 && screenHeight >= 0.0 && ValidSpawnRolls(rolls)
      ensures this.id == id && this.targetId == targetId
      ensures Point(originX, originY) == SpawnOrigin(screenWidth, screenHeight, rolls.side, rolls.place)
      ensures x == originX && y == originY && velocityX == 0.0 && velocityY == 0.0
      ensures targetX == screenWidth / 2.0 && targetY == screenHeight / 2.0
      ensures (customConfig, species) == ChooseSpecies(customConfigs, rolls.custom, rolls.pick)
      ensures size == BodySize(species, handPixelWidth, targetId, rolls.jitter) && 6.0 <= size <= 100.0
      ensures wingSpan == 2.5 * size
      ensures flapSpeed == (0.12 + rolls.flap * 0.1) * (15.0 / size) && flapSpeed > 0.0
      ensures flapPhase == rolls.phase * PI * 2.0 && 0.0 <= flapPhase < 2.0 * PI
      ensures flightWobbleOffset == rolls.wobbleOffset * 100.0
      ensures flightWobbleSpeed == 0.05 + rolls.wobbleSpeed * 0.05
      ensures state == FlyingIn
      ensures perchOffset == InitialPerchOffset(forcedOffset, rolls.perch)
      ensures forcedOffset.None? ==> 0.05 <= perchOffset < 0.95
      ensures idleAction == Idle && actionTimer == rolls.action * 100.0 && blinkTimer == 0.0
      ensures variantSeed == rolls.variant
      ensures poopTimer == 180.0 + rolls.poop * 240.0 && 180.0 <= poopTimer < 420.0 && !justPooped
    {
      this.id := id;
      this.targetId := targetId;
      var origin := SpawnOrigin(screenWidth, screenHeight, rolls.side, rolls.place);
      originX, originY := origin.x, origin.y;
      x, y := originX, originY;
      this.targetX, this.targetY := screenWidth / 2.0, screenHeight / 2.0;
      velocityX, velocityY := 0.0, 0.0;
      var choice := ChooseSpecies(customConfigs, rolls.custom, rolls.pick);
      customConfig, species := choice.0, choice.1;
      var s := BodySize(choice.1, handPixelWidth, targetId, rolls.jitter);
      size := s;
      wingSpan := s * 2.5;
      var f := (0.12 + rolls.flap * 0.1) * (15.0 / s);
      ProductPositive(0.12 + rolls.flap * 0.1, 15.0 / s, f);
      flapSpeed := f;
      flapPhase := rolls.phase * PI * 2.0;
      flightWobbleOffset := rolls.wobbleOffset * 100.0;
      flightWobbleSpeed := 0.05 + rolls.wobbleSpeed * 0.05;
      state := FlyingIn;
      perchOffset := InitialPerchOffset(forcedOffset, rolls.perch);
      idleAction := Idle;
      actionTimer := rolls.action * 100.0;
      blinkTimer := 0.0;
      variantSeed := rolls.variant;
      poopTimer := 180.0 + rolls.poop * 240.0;
      justPooped := false;
    }

    /** What sibling repulsion reads of this bird. */
    function View(): PerchView
      reads this`id, this`targetId, this`state, this`perchOffset, this`size
    {
      PerchView(id, targetId, state, perchOffset, size)
    }

    /** pickNewAction: start a new idle action; a hop also kicks the bird upwards. */
    method PickNewAction(roll: real, idleRoll: real)
      modifies this`idleAction, this`actionTimer, this`velocityY
      ensures ActionChoice(idleAction, actionTimer) == ActionFor(roll, idleRoll)
      ensures velocityY == if roll < 0.05 then -3.0 else old(velocityY)
    {
      if roll < 0.05 {
        idleAction := Hop;
        actionTimer := 20.0;
        velocityY := -3.0;
      } else if roll < 0.25 {
        idleAction := Peck;
        actionTimer := 35.0;
      } else if roll < 0.45 {
        idleAction := LookBack;
        actionTimer := 80.0;
      } else if roll < 0.6 {
        idleAction := Fluff;
        actionTimer := 40.0;
      } else {
        idleAction := Idle;
        actionTimer := 60.0 + idleRoll * 100.0;
      }
    }

    /** The repulsion loop of update: the summed push of the siblings on this bird. */
    method SiblingPush(sibs: seq<Bird>) returns (push: real)
      ensures push == Push(View(), ViewsOf(sibs))
    {
      ghost var views := ViewsOf(sibs);
      ghost var me := View();
      push := 0.0;
      for i := 0 to |sibs|
        invariant push == Push(me, views[..i])
      {
        var sib := sibs[i];
        assert views[..i + 1][..i] == views[..i];
        if sib.id == id || sib.targetId != targetId || sib.state != Perched {
          continue;
        }
        var dist := Abs(perchOffset - sib.perchOffset);
        var neededSep := (size + sib.size) / 250.0;
        if dist < neededSep {
          push := push + (if perchOffset > sib.perchOffset then 1.0 else -1.0) * (neededSep - dist) * 0.08;
        }
      }
      assert views[..|sibs|] == views;
    }

    /** The fields update changes. */
    function Dyn(): Dynamics
      reads this
    {
      Dynamics(x, y, velocityX, velocityY, flapPhase, state, perchOffset,
               idleAction, actionTimer, blinkTimer, poopTimer, justPooped)
    }

    /** The fields update reads but keeps. */
    function Fixed(): Build
      reads this`size, this`flapSpeed, this`originX, this`originY, this`flightWobbleOffset
    {
      Build(size, flapSpeed, Point(originX, originY), flightWobbleOffset)
    }

    /** The FLYING_IN branch of update. */
    method FlyIn(target: Point, sqrt: real -> real, sin: real -> real)
      modifies this`velocityX, this`velocityY, this`x, this`y, this`state
      ensures Dyn() == FlyInUpdate(old(Dyn()), size, target, sqrt, sin(flapPhase))
    {
      var m := Motion(x, y, velocityX, velocityY);
      var arrived := ArrivalDistance(sqrt, m, target, size) < 15.0;
      var n := FlyInStep(sqrt, m, target, size, sin(flapPhase));
      x, y, velocityX, velocityY := n.x, n.y, n.vx, n.vy;
      state := if arrived then Perched else FlyingIn;
    }

    /** The chores of a perched bird. */
    method Chores(push: Option<real>, rolls: UpdateRolls)
      modifies this`poopTimer, this`justPooped, this`perchOffset, this`idleAction, this`actionTimer, this`velocityY
      ensures Dyn() == PerchChores(old(Dyn()), push, rolls)
    {
      poopTimer := poopTimer - 1.0;
      if poopTimer <= 0.0 {
        justPooped := true;
        poopTimer := 300.0 + rolls.poop * 300.0;
      }
      if push.Some? {
        perchOffset := Max(0.05, Min(0.95, perchOffset + push.value));
      }
      if actionTimer <= 0.0 {
        PickNewAction(rolls.action, rolls.idle);
      }
    }

    /** The body of a perched bird: easing, hopping, gravity. */
    method SettleOn(target: Point)
      modifies this`velocityY, this`x, this`y
      ensures Dyn() == Settle(old(Dyn()), size, target)
    {
      x := x * 0.9 + target.x * 0.1;
      var lineY := target.y - size * 1.6;
      if idleAction == Hop && actionTimer > 10.0 {
        velocityY := -2.0;
      }
      y := y + velocityY;
      if y >= lineY {
        y := lineY;
        velocityY := 0.0;
      } else {
        velocityY := velocityY + 0.5;
      }
    }

    /** The PERCHED branch of update. */
    method Perch(target: Point, push: Option<real>, rolls: UpdateRolls)
      modifies this`poopTimer, this`justPooped, this`perchOffset, this`idleAction, this`actionTimer,
               this`velocityY, this`x, this`y
      ensures Dyn() == PerchStep(old(Dyn()), size, target, push, rolls)
    {
      Chores(push, rolls);
      SettleOn(target);
    }

    /** The FLYING_AWAY branch of update, its wobble phase taken from the clock `now`. */
    method Flee(sqrt: real -> real, sin: real -> real, now: real)
      modifies this`velocityX, this`velocityY, this`x, this`y
      ensures Dyn() == FleeUpdate(old(Dyn()), Point(originX, originY), sqrt, sin(now * 0.005 + flightWobbleOffset))
    {
      var m := FleeStep(sqrt, Motion(x, y, velocityX, velocityY), Point(originX, originY),
                        sin(now * 0.005 + flightWobbleOffset));
      x, y, velocityX, velocityY := m.x, m.y, m.vx, m.vy;
    }

    /** The siblings' summed push on this bird; None when no siblings are passed. */
    function PushOn(siblings: Option<seq<Bird>>): Option<real>
      reads this, if siblings.Some? then set b | b in siblings.value else {}
    {
      if siblings.Some? then Some(Push(View(), ViewsOf(siblings.value))) else None
    }

    /** The frame's timers, the first part of update. */
    method Tick(rolls: UpdateRolls)
      modifies this`flapPhase, this`actionTimer, this`blinkTimer
      ensures Dyn() == Ticked(old(Dyn()), flapSpeed, rolls)
    {
      flapPhase := flapPhase + flapSpeed;
      actionTimer := actionTimer - 1.0;
      blinkTimer := blinkTimer - 1.0;
      if blinkTimer < -10.0 {
        blinkTimer := rolls.blink * 200.0 + 100.0;
      }
    }

    /** The state-dependent part of update, after the frame's timers. */
    method Advance(perchTarget: Option<Point>, push: Option<real>,
                   sqrt: real -> real, sin: real -> real, now: real, rolls: UpdateRolls)
      modifies this`x, this`y, this`velocityX, this`velocityY, this`state, this`perchOffset,
               this`idleAction, this`actionTimer, this`poopTimer, this`justPooped
      ensures Dyn() == Advanced(old(Dyn()), Fixed(), perchTarget, push,
                                sqrt, sin(flapPhase), sin(now * 0.005 + flightWobbleOffset), rolls)
    {
      if state == FlyingIn && perchTarget.Some? {
        FlyIn(perchTarget.value, sqrt, sin);
      } else if state == Perched && perchTarget.Some? {
        Perch(perchTarget.value, push, rolls);
      } else if state == FlyingAway {
        Flee(sqrt, sin, now);
      }
    }

    /** One animation frame. `perchTarget` is the bird's spot on its limb (None when
      * it has none), `siblings` the birds that may crowd it on the perch. The
      * siblings' push enters only when the bird is perched with a target. */
    method Update(dt: real, perchTarget: Option<Point>, siblings: Option<seq<Bird>>,
                  sqrt: real -> real, sin: real -> real, now: real, rolls: UpdateRolls)
      modifies this`x, this`y, this`velocityX, this`velocityY, this`flapPhase, this`state, this`perchOffset,
               this`idleAction, this`actionTimer, this`blinkTimer, this`poopTimer, this`justPooped
      ensures Dyn() == Step(old(Dyn()), Fixed(), perchTarget,
                            old(if state == Perched && perchTarget.Some? then PushOn(siblings) else None),
                            sqrt, sin(flapPhase), sin(now * 0.005 + flightWobbleOffset), rolls)
    {
      // The repulsion loop only reads offsets, sizes, states and ids, which the
      // frame's timers leave alone, so it may run first.
      var push: Option<real> := None;
      if state == Perched && perchTarget.Some? && siblings.Some? {
        var p := SiblingPush(siblings.value);
        push := Some(p);
      }
      Tick(rolls);
      Advance(perchTarget, push, sqrt, sin, now, rolls);
    }
  }

  /** What sibling repulsion reads of each bird, in order. */
  function ViewsOf(birds: seq<Bird>): (vs: seq<PerchView>)
    reads set b | b in birds
    ensures |vs| == |birds|
    ensures forall i :: 0 <= i < |birds| ==> vs[i] == birds[i].View()
  {
    if birds == [] then [] else ViewsOf(birds[..|birds| - 1]) + [birds[|birds| - 1].View()]
  }
}
