/** A butterfly: a user-authored creature that drifts in from off screen,
  * hovers over its perch, sheds fading sparkle particles, and drifts up and
  * away when scared.
  *
  * `Math.random()` draws arrive as parameters, `Math.sqrt`, `Math.sin` and
  * `Math.cos` as the functions `sqrt`, `sin` and `cos`. */
module Butterflies {
  import opened Types
  import opened Geometry

  /** The butterfly's profile: its name and the size it is drawn at. */
  datatype ButterflyConfig = ButterflyConfig(id: string, name: string, baseSize: real, globalScale: real)

  /** A sparkle: position, velocity, remaining life (1 when new, dropped at 0),
    * radius and the hue it is drawn with. */
  datatype Particle = Particle(x: real, y: real, vx: real, vy: real, life: real, size: real, hue: real)

  /** How far outside the screen a butterfly starts. */
  const ButterflyBuffer: real := 100.0

  // ---------------------------------------------------------------------
  // Spawning

  /** The draws a new butterfly takes. */
  datatype ButterflySpawnRolls = ButterflySpawnRolls(
    angle: real, flap: real, float: real, side: real, place: real, perch: real, size: real)

  predicate ValidButterflySpawnRolls(r: ButterflySpawnRolls) {
    IsRoll(r.angle) && IsRoll(r.flap) && IsRoll(r.float) && IsRoll(r.side) && IsRoll(r.place)
    && IsRoll(r.perch) && IsRoll(r.size)
  }

  /** Where a new butterfly starts: beyond the top, right, bottom or left edge,
    * the side chosen as `Math.floor(roll * 4)`. */
  function ButterflyOrigin(screenWidth: real, screenHeight: real, sideRoll: real, placeRoll: real): (o: Point)
    requires IsRoll(sideRoll) && IsRoll(placeRoll) && screenWidth >= 0.0 && screenHeight >= 0.0
    ensures o.x < 0.0 || o.x > screenWidth || o.y < 0.0 || o.y > screenHeight
  {
    var side := (sideRoll * 4.0).Floor;
    if side == 0 then Point(placeRoll * screenWidth, -ButterflyBuffer)
    else if side == 1 then Point(screenWidth + ButterflyBuffer, placeRoll * screenHeight)
    else if side == 2 then Point(placeRoll * screenWidth, screenHeight + ButterflyBuffer)
    else Point(-ButterflyBuffer, placeRoll * screenHeight)
  }

  /** A butterfly's size: the profile's base size, jittered by 0.8-1.2 and
    * scaled, then kept in [1, 500]. */
  function ButterflySize(config: ButterflyConfig, roll: real): (size: real)
    ensures 1.0 <= size <= 500.0
    ensures var raw := config.baseSize * (0.8 + roll * 0.4) * config.globalScale;
      1.0 <= raw <= 500.0 ==> size == raw
  {
    Clamp(config.baseSize * (0.8 + roll * 0.4) * config.globalScale, 1.0, 500.0)
  }

  // ---------------------------------------------------------------------
  // Particles

  /** One frame of a particle: it moves by its velocity and loses 0.001 life per ms. */
  function Aged(p: Particle, dt: real): Particle {
    p.(x := p.x + p.vx, y := p.y + p.vy, life := p.life - 0.001 * dt)
  }

  function AgedAll(ps: seq<Particle>, dt: real): (r: seq<Particle>)
    ensures |r| == |ps|
  {
    seq(|ps|, i requires 0 <= i < |ps| => Aged(ps[i], dt))
  }

  /** The particles still alive, in order. */
  function Alive(ps: seq<Particle>): (r: seq<Particle>)
    ensures |r| <= |ps|
    ensures forall i :: 0 <= i < |r| ==> r[i].life > 0.0
    ensures forall p :: p in r <==> p in ps && p.life > 0.0
  {
    if ps == [] then []
    else
      var last := ps[|ps| - 1];
      assert ps == ps[..|ps| - 1] + [last];
      Alive(ps[..|ps| - 1]) + (if last.life > 0.0 then [last] else [])
  }

  /** After aging, exactly the particles that had more than this frame's decay
    * left survive, each moved by its velocity. */
  lemma {:induction false} SurvivorsOfAging(ps: seq<Particle>, dt: real)
    ensures forall q :: q in Alive(AgedAll(ps, dt)) <==> exists p :: p in ps && q == Aged(p, dt) && p.life > 0.001 * dt
  {
    var aged := AgedAll(ps, dt);
    forall q | q in Alive(aged)
      ensures exists p :: p in ps && q == Aged(p, dt) && p.life > 0.001 * dt
    {
      var i :| 0 <= i < |aged| && aged[i] == q;
      assert ps[i] in ps && q == Aged(ps[i], dt);
    }
    forall q | exists p :: p in ps && q == Aged(p, dt) && p.life > 0.001 * dt
      ensures q in Alive(aged)
    {
      var p :| p in ps && q == Aged(p, dt) && p.life > 0.001 * dt;
      var i :| 0 <= i < |ps| && ps[i] == p;
      assert aged[i] == q;
    }
  }

  /** The draws of one butterfly frame: whether a particle spawns (over 0.9),
    * its velocity and radius, and the flee drift. */
  datatype ButterflyRolls = ButterflyRolls(spawn: real, pvx: real, pvy: real, psize: real, drift: real)

  /** A new sparkle at the butterfly, at full life, slowly drifting, hued by
    * the sine of the butterfly's angle. */
  function NewParticle(x: real, y: real, angleSine: real, rolls: ButterflyRolls): (p: Particle)
    ensures p.x == x && p.y == y && p.life == 1.0
    ensures IsRoll(rolls.pvx) && IsRoll(rolls.pvy) ==> -0.25 <= p.vx < 0.25 && -0.25 <= p.vy < 0.25
    ensures IsRoll(rolls.psize) ==> 0.0 <= p.size < 2.0
  {
    Particle(x, y, (rolls.pvx - 0.5) * 0.5, (rolls.pvy - 0.5) * 0.5, 1.0, rolls.psize * 2.0, 200.0 + angleSine * 40.0)
  }

  // ---------------------------------------------------------------------
  // Flight

  /** The part of a butterfly its flight changes. */
  datatype Flight = Flight(x: real, y: real, vx: real, vy: real, state: CreatureState)

  /** The distance from a flying-in butterfly to the spot 10 above its perch. */
  function HoverDistance(sqrt: real -> real, f: Flight, target: Point): real {
    sqrt(Sq(target.x - f.x) + Sq((target.y - 10.0) - f.y))
  }

  /** The flight part of a frame, with the butterfly's advanced `angle`:
    * flying in, it closes 3% of the gap per frame plus a float noise of up to
    * 1.5 per axis, and perches once within 10; perched, it eases 10% of the
    * way to its perch, hovering 12 above it; fleeing, it drifts sideways at
    * random and accelerates upwards by 0.05 per ms. */
  function FlightStep(f: Flight, target: Option<Point>, angle: real, floatOffset: real, dt: real,
                      sqrt: real -> real, sin: real -> real, cos: real -> real, driftRoll: real): (r: Flight)
    // The lifecycle.
    ensures f.state == FlyingAway ==> r.state == FlyingAway
    ensures r.state != f.state ==> f.state == FlyingIn && r.state == Perched && target.Some?
    ensures f.state == FlyingIn && target.Some? ==> (r.state == Perched <==> HoverDistance(sqrt, f, target.value) < 10.0)
    // Without a perch a butterfly that is not fleeing stays put.
    ensures target.None? && f.state != FlyingAway ==> r == f
    // Perched, it moves towards its perch and keeps its velocity.
    ensures f.state == Perched && target.Some? ==>
      && r.x == Lerp(f.x, target.value.x, 0.1) && r.vx == f.vx && r.vy == f.vy
      && r.y == Lerp(f.y, target.value.y - 12.0 + sin(angle) * 3.0, 0.1)
    // Fleeing, it accelerates upwards by exactly 0.05 per ms.
    ensures f.state == FlyingAway ==> r.vy == f.vy - 0.05 * dt && r.y == f.y + r.vy
    ensures f.state == FlyingAway && IsRoll(driftRoll) ==> -0.5 <= r.vx - f.vx < 0.5
  {
    if f.state == FlyingIn && target.Some? then
      var t := target.value;
      var dx := t.x - f.x;
      var dy := (t.y - 10.0) - f.y;
      var vx := dx * 0.03 + sin(angle + floatOffset) * 1.5;
      var vy := dy * 0.03 + cos(angle * 0.8 + floatOffset) * 1.5;
      Flight(f.x + vx, f.y + vy, vx, vy, if HoverDistance(sqrt, f, t) < 10.0 then Perched else FlyingIn)
    else if f.state == Perched && target.Some? then
      var t := target.value;
      f.(x := f.x * 0.9 + t.x * 0.1, y := f.y * 0.9 + (t.y - 12.0 + sin(angle) * 3.0) * 0.1)
    else if f.state == FlyingAway then
      var vx := f.vx + (driftRoll - 0.5) * 1.0;
      var vy := f.vy - 0.05 * dt;
      Flight(f.x + vx, f.y + vy, vx, vy, f.state)
    else f
  }

  /** Perched, the butterfly's x stays between where it was and its perch's x. */
  lemma PerchedEasesTowardsPerch(f: Flight, target: Point, angle: real, floatOffset: real, dt: real,
                                 sqrt: real -> real, sin: real -> real, cos: real -> real, driftRoll: real)
    requires f.state == Perched
    ensures var r := FlightStep(f, Some(target), angle, floatOffset, dt, sqrt, sin, cos, driftRoll);
      && (f.x <= target.x ==> f.x <= r.x <= target.x)
      && (target.x <= f.x ==> target.x <= r.x <= f.x)
  {
    var r := FlightStep(f, Some(target), angle, floatOffset, dt, sqrt, sin, cos, driftRoll);
    assert r.x == Lerp(f.x, target.x, 0.1);
  }

  // ---------------------------------------------------------------------
  // The butterfly

  class Butterfly {
    var id: string
    var targetId: string
    var x: real
    var y: real
    var originX: real
    var originY: real
    var targetX: real
    var targetY: real
    var velocityX: real
    var velocityY: real
    var size: real
    var state: CreatureState
    var perchOffset: real
    var species: string
    var config: ButterflyConfig
    var angle: real
    var flapPhase: real
    var floatOffset: real
    var particles: seq<Particle>

    /** A new butterfly for limb `targetId`, flying in from off screen. */
    constructor (screenWidth: real, screenHeight: real, targetId: string, forcedOffset: Option<real>,
                 config: ButterflyConfig, id: string, rolls: ButterflySpawnRolls)
      requires screenWidth >= 0.0 && screenHeight >= 0.0 && ValidButterflySpawnRolls(rolls)
      ensures this.id == id && this.targetId == targetId
      ensures Point(originX, originY) == ButterflyOrigin(screenWidth, screenHeight, rolls.side, rolls.place)
      ensures x == originX && y == originY && velocityX == 0.0 && velocityY == 0.0
      ensures targetX == screenWidth / 2.0 && targetY == screenHeight / 2.0
      ensures state == FlyingIn && particles == []
      ensures forcedOffset.Some? ==> perchOffset == forcedOffset.value
      ensures forcedOffset.None? ==> 0.0 <= perchOffset < 1.0
      ensures this.config == config && species == config.name
      ensures size == ButterflySize(config, rolls.size) && 1.0 <= size <= 500.0
      ensures 0.0 <= angle < 2.0 * PI && 0.0 <= flapPhase < 2.0 * PI && 0.0 <= floatOffset < 1000.0
    {
      angle := rolls.angle * PI * 2.0;
      flapPhase := rolls.flap * PI * 2.0;
      floatOffset := rolls.float * 1000.0;
      particles := [];
      this.id := id;
      this.targetId := targetId;
      this.config := config;
      species := config.name;
      var origin := ButterflyOrigin(screenWidth, screenHeight, rolls.side, rolls.place);
      originX, originY := origin.x, origin.y;
      x, y := originX, originY;
      targetX, targetY := screenWidth / 2.0, screenHeight / 2.0;
      velocityX, velocityY := 0.0, 0.0;
      state := FlyingIn;
      perchOffset := if forcedOffset.Some? then forcedOffset.value else rolls.perch;
      size := ButterflySize(config, rolls.size);
    }

    /** updateConfig: adopt a new profile and redraw the size from it. */
    method UpdateConfig(config: ButterflyConfig, sizeRoll: real)
      modifies this`config, this`species, this`size
      ensures this.config == config && species == config.name
      ensures size == ButterflySize(config, sizeRoll) && 1.0 <= size <= 500.0
    {
      this.config := config;
      species := config.name;
      var raw := config.baseSize * (0.8 + sizeRoll * 0.4) * config.globalScale;
      size := Min(Max(raw, 1.0), 500.0);
    }

    function Fl(): Flight
      reads this
    {
      Flight(x, y, velocityX, velocityY, state)
    }

    /** Moves every particle by its velocity and takes this frame's life from it. */
    method AgeParticles(dt: real)
      modifies this`particles
      ensures particles == AgedAll(old(particles), dt)
    {
      var i := 0;
      while i < |particles|
        invariant 0 <= i <= |particles| == |old(particles)|
        invariant forall k :: 0 <= k < i ==> particles[k] == Aged(old(particles)[k], dt)
        invariant forall k :: i <= k < |particles| ==> particles[k] == old(particles)[k]
      {
        var p := particles[i];
        particles := particles[i := p.(x := p.x + p.vx, y := p.y + p.vy, life := p.life - 0.001 * dt)];
        i := i + 1;
      }
    }

    /** Keeps the particles with life left, in order. */
    method DropDeadParticles()
      modifies this`particles
      ensures particles == Alive(old(particles))
    {
      var kept := [];
      for i := 0 to |particles|
        invariant kept == Alive(particles[..i])
      {
        assert particles[..i + 1][..i] == particles[..i];
        if particles[i].life > 0.0 {
          kept := kept + [particles[i]];
        }
      }
      assert particles[..|particles|] == particles;
      particles := kept;
    }

    /** Flying in: head for the spot 10 above the perch, with float noise. */
    method FlyTowards(t: Point, sqrt: real -> real, sin: real -> real, cos: real -> real)
      requires state == FlyingIn
      modifies this`x, this`y, this`velocityX, this`velocityY, this`state
      ensures velocityX == (t.x - old(x)) * 0.03 + sin(angle + floatOffset) * 1.5
      ensures velocityY == ((t.y - 10.0) - old(y)) * 0.03 + cos(angle * 0.8 + floatOffset) * 1.5
      ensures x == old(x) + velocityX && y == old(y) + velocityY
      ensures state == if HoverDistance(sqrt, old(Fl()), t) < 10.0 then Perched else FlyingIn
    {
      var dx := t.x - x;
      var dy := (t.y - 10.0) - y;
      var dist := HoverDistance(sqrt, Fl(), t);
      var noiseX := sin(angle + floatOffset) * 1.5;
      var noiseY := cos(angle * 0.8 + floatOffset) * 1.5;
      var vx := dx * 0.03 + noiseX;
      var vy := dy * 0.03 + noiseY;
      velocityX, velocityY, x, y := vx, vy, x + vx, y + vy;
      if dist < 10.0 {
        state := Perched;
      }
    }

    /** Perched: ease towards the perch, hovering above it. */
    method Hover(t: Point, sin: real -> real)
      requires state == Perched
      modifies this`x, this`y
      ensures x == old(x) * 0.9 + t.x * 0.1
      ensures y == old(y) * 0.9 + (t.y - 12.0 + sin(angle) * 3.0) * 0.1
    {
      var hoverY := sin(angle) * 3.0;
      x := x * 0.9 + t.x * 0.1;
      y := y * 0.9 + (t.y - 12.0 + hoverY) * 0.1;
    }

    /** Fleeing: drift sideways at random and accelerate upwards. */
    method DriftAway(dt: real, driftRoll: real)
      requires state == FlyingAway
      modifies this`x, this`y, this`velocityX, this`velocityY
      ensures velocityX == old(velocityX) + (driftRoll - 0.5) * 1.0
      ensures velocityY == old(velocityY) - 0.05 * dt
      ensures x == old(x) + velocityX && y == old(y) + velocityY
    {
      velocityX := velocityX + (driftRoll - 0.5) * 1.0;
      velocityY := velocityY - 0.05 * dt;
      x := x + velocityX;
      y := y + velocityY;
    }

    /** The flight part of update. */
    method Fly(target: Option<Point>, dt: real, sqrt: real -> real, sin: real -> real, cos: real -> real,
               driftRoll: real)
      modifies this`x, this`y, this`velocityX, this`velocityY, this`state
      ensures Fl() == FlightStep(old(Fl()), target, angle, floatOffset, dt, sqrt, sin, cos, driftRoll)
    {
      if state == FlyingIn && target.Some? {
        FlyTowards(target.value, sqrt, sin, cos);
      } else if state == Perched && target.Some? {
        Hover(target.value, sin);
      } else if state == FlyingAway {
        DriftAway(dt, driftRoll);
      }
    }

    /** One animation frame of `dt` ms. */
    method Update(dt: real, perchTarget: Option<Point>, sqrt: real -> real, sin: real -> real, cos: real -> real,
                  rolls: ButterflyRolls)
      modifies this`angle, this`flapPhase, this`particles, this`x, this`y, this`velocityX, this`velocityY, this`state
      ensures angle == old(angle) + 0.002 * dt
      ensures flapPhase == old(flapPhase) + (if old(state) == Perched then 0.003 else 0.015) * dt
      ensures particles == Alive(AgedAll(old(particles), dt)) +
        (if rolls.spawn > 0.9 then [NewParticle(old(x), old(y), sin(angle), rolls)] else [])
      ensures Fl() == FlightStep(old(Fl()), perchTarget, angle, floatOffset, dt, sqrt, sin, cos, rolls.drift)
    {
      angle := angle + 0.002 * dt;
      flapPhase := flapPhase + (if state == Perched then 0.003 else 0.015) * dt;
      AgeParticles(dt);
      DropDeadParticles();
      if rolls.spawn > 0.9 {
        particles := particles + [NewParticle(x, y, sin(angle), rolls)];
      }
      Fly(perchTarget, dt, sqrt, sin, cos, rolls.drift);
    }
  }

  /** After a frame every particle has life left, and at most one is new. */
  lemma ParticlesAfterUpdate(ps: seq<Particle>, dt: real, spawned: seq<Particle>)
    requires |spawned| <= 1 && forall p :: p in spawned ==> p.life == 1.0
    ensures var r := Alive(AgedAll(ps, dt)) + spawned;
      && (forall i :: 0 <= i < |r| ==> r[i].life > 0.0)
      && |r| <= |ps| + 1
  {
    var kept := Alive(AgedAll(ps, dt));
    assert forall i :: |kept| <= i < |kept + spawned| ==> (kept + spawned)[i] in spawned;
  }
}
