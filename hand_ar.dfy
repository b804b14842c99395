/** The tracker behind the AR view: per-limb bookkeeping (stillness, shaking,
  * fists, head shakes), the flock it spawns and scares, the droppings left on
  * limbs and wiped off by the other hand, and the per-frame bird pass.
  *
  * MediaPipe's landmarks arrive in pixels as parameters; `performance.now()`,
  * `Math.random()` draws and generated ids are parameters too, and
  * `Math.sqrt` is the function `sqrt`. */
module HandAR {
  import opened Types
  import opened Geometry
  import opened Birds

  // ---------------------------------------------------------------------
  // Limb state

  /** Which way the face is turned. */
  datatype Yaw = Center | TurnedLeft | TurnedRight

  /** What the tracker remembers of one limb ("Left", "Right" or "Head"). */
  datatype LimbState = LimbState(
    lastPos: Option<Point>, stillnessTimer: real, isStill: bool, hasBursted: bool, width: real,
    lastSpawnTime: real, prevContour: seq<Point>, missingFrames: nat, isFistDetected: bool,
    lastCheckTime: real, lastMovement: real, headShakeCount: nat, lastYawDir: Yaw, lastShakeTime: real)

  /** createInitialLimbState: a limb seen for the first time has no past: no
    * position, contour or timers, no burst, fist or shake yet, never checked,
    * and faces straight ahead. */
  function InitialLimbState(): (r: LimbState)
    ensures r.lastPos == None && r.prevContour == [] && r.lastYawDir == Center
    ensures r.stillnessTimer == 0.0 && r.width == 0.0 && r.lastSpawnTime == 0.0 && r.lastCheckTime == 0.0
    ensures r.lastMovement == 0.0 && r.lastShakeTime == 0.0 && r.missingFrames == 0 && r.headShakeCount == 0
    ensures !r.isStill && !r.hasBursted && !r.isFistDetected
  {
    LimbState(None, 0.0, false, false, 0.0, 0.0, [], 0, false, 0.0, 0.0, 0, Center, 0.0)
  }

  /** The milliseconds since the limb was last assessed; 16 on its first frame
    * (a last-check time of 0 counts as never). */
  function FrameGap(lastCheckTime: real, now: real): real {
    if lastCheckTime != 0.0 then now - lastCheckTime else 16.0
  }

  /** The head's yaw from the nose tip (landmark 1) and the cheeks (234 and 454):
    * the nose's position across the face, left below 0.35 and right above 0.65.
    * A face of zero width divides by zero, which gives an infinite ratio of the
    * numerator's sign, or no ratio at all (centre) when the nose is on the cheek. */
  function YawOf(nose: real, cheekLeft: real, cheekRight: real): (d: Yaw)
    ensures Abs(cheekRight - cheekLeft) > 0.0 ==>
      && (d == TurnedLeft <==> nose - cheekLeft < 0.35 * Abs(cheekRight - cheekLeft))
      && (d == TurnedRight <==> nose - cheekLeft > 0.65 * Abs(cheekRight - cheekLeft))
  {
    var span := Abs(cheekRight - cheekLeft);
    if span == 0.0 then
      (if nose - cheekLeft > 0.0 then TurnedRight else if nose - cheekLeft < 0.0 then TurnedLeft else Center)
    else
      var r := (nose - cheekLeft) / span;
      assert r < 0.35 <==> nose - cheekLeft < 0.35 * span by { QuotientBelow(nose - cheekLeft, span, 0.35); }
      assert r > 0.65 <==> nose - cheekLeft > 0.65 * span by { QuotientBelow(nose - cheekLeft, span, 0.65); }
      if r < 0.35 then TurnedLeft else if r > 0.65 then TurnedRight else Center
  }

  lemma QuotientBelow(n: real, d: real, k: real)
    requires d > 0.0
    ensures n / d < k <==> n < k * d
    ensures n / d > k <==> n > k * d
  {
    assert n == (n / d) * d;
  }

  /** Head-shake bookkeeping after one frame. */
  datatype ShakeCount = ShakeCount(count: nat, lastYawDir: Yaw, lastShakeTime: real, scared: bool)

  /** A turn to a new side within 1000 ms of the previous turn adds to the
    * count, a later one starts it again at 1; no turn for more than 1200 ms
    * clears it; a count of 6 scares the head's birds and starts over. */
  function HeadShake(count: nat, lastYawDir: Yaw, lastShakeTime: real, yaw: Yaw, now: real): (r: ShakeCount)
    ensures r.count < 6
    ensures r.count <= count + 1
    ensures r.scared ==> r.count == 0 && count >= 5
    ensures r.scared && count < 6 ==> yaw != Center && yaw != lastYawDir && now - lastShakeTime < 1000.0
    ensures yaw != Center && yaw != lastYawDir ==> r.lastYawDir == yaw && r.lastShakeTime == now
    ensures !(yaw != Center && yaw != lastYawDir) ==> r.lastYawDir == lastYawDir && r.lastShakeTime == lastShakeTime
    ensures !(yaw != Center && yaw != lastYawDir) && now - lastShakeTime > 1200.0 ==> r.count == 0
  {
    var turned := yaw != Center && yaw != lastYawDir;
    var c: nat :=
      if turned then (if now - lastShakeTime < 1000.0 then count + 1 else 1)
      else if now - lastShakeTime > 1200.0 then 0
      else count;
    var dir := if turned then yaw else lastYawDir;
    var t := if turned then now else lastShakeTime;
    if c >= 6 then ShakeCount(0, dir, t, true) else ShakeCount(c, dir, t, false)
  }

  /** What a frame of tracking asks of the flock. */
  datatype Spawn = NoSpawn | Burst | Single

  /** The outcome of assessing one limb: its new state, whether its birds are
    * scared, whether its droppings are shaken off, what is spawned, and whether
    * the head's burst was put off for the hands. */
  datatype Verdict = Verdict(limb: LimbState, scare: bool, dropPoops: bool, spawn: Spawn, deferred: bool)

  /** The movement part of processTargetLogic, for a limb with a previous
    * position that moved `dist` screen fractions per 16 ms: a shake resets the
    * stillness (and, on a hand, scares its birds, and above the clean threshold
    * drops its droppings); keeping still for over 2000 ms bursts once, then
    * spawns single birds at most every 2000 ms (plus a random delay up to 1000
    * ms); the head's burst waits while a hand is tracked and has no bird. */
  function Moved(s: LimbState, part: string, dist: real, dt: real, now: real,
                 handsTracked: bool, handBirdActive: bool, jitter: real): Verdict
  {
    var s := s.(lastMovement := dist);
    if dist > SHAKE_THRESHOLD then
      Verdict(s.(stillnessTimer := 0.0, isStill := false, hasBursted := false),
              part != HEAD, part != HEAD && dist > CLEAN_THRESHOLD, NoSpawn, false)
    else if dist < STILLNESS_THRESHOLD then
      var s := s.(stillnessTimer := s.stillnessTimer + dt);
      if s.stillnessTimer > STILLNESS_DURATION_MS then
        var s := s.(isStill := true);
        if !s.hasBursted then
          if part == HEAD && handsTracked && !handBirdActive then Verdict(s, false, false, NoSpawn, true)
          else Verdict(s.(hasBursted := true, lastSpawnTime := now), false, false, Burst, false)
        else if now - s.lastSpawnTime > 2000.0 then
          Verdict(s.(lastSpawnTime := now + jitter * 1000.0), false, false, Single, false)
        else Verdict(s, false, false, NoSpawn, false)
      else Verdict(s, false, false, NoSpawn, false)
    else Verdict(s.(stillnessTimer := 0.0, isStill := false), false, false, NoSpawn, false)
  }

  /** The end of processTargetLogic: the head's shake count, then the new
    * position is remembered. */
  function Finished(v: Verdict, part: string, yaw: Yaw, now: real, norm: Point): Verdict {
    if part == HEAD then
      var h := HeadShake(v.limb.headShakeCount, v.limb.lastYawDir, v.limb.lastShakeTime, yaw, now);
      var s := v.limb.(headShakeCount := h.count, lastYawDir := h.lastYawDir, lastShakeTime := h.lastShakeTime);
      var s := if h.scared then s.(hasBursted := false) else s;
      v.(limb := s.(lastPos := Some(norm)), scare := v.scare || h.scared)
    else v.(limb := v.limb.(lastPos := Some(norm)))
  }

  /** processTargetLogic as a function of what it reads: the limb's state, its
    * part, whether a hand makes a fist, its reference point in screen
    * fractions, its measured width, the time, whether a hand is tracked and has
    * a bird that is not fleeing, the head's yaw and a random draw. */
  function Track(st: LimbState, part: string, fist: bool, norm: Point, measured: real, now: real,
                 sqrt: real -> real, handsTracked: bool, handBirdActive: bool, yaw: Yaw, jitter: real): Verdict
    requires st.lastCheckTime == 0.0 || now > st.lastCheckTime
  {
    var s := st.(lastCheckTime := now, width := if measured != 0.0 then measured else 100.0);
    if part != HEAD && fist then
      Verdict(s.(isStill := false, isFistDetected := true, hasBursted := false), true, false, NoSpawn, false)
    else
      Tracked(s.(isFistDetected := false), part, norm, FrameGap(st.lastCheckTime, now), now, sqrt,
              handsTracked, handBirdActive, yaw, jitter)
  }

  /** How far the limb moved since its last position, in screen fractions
    * per 16 ms frame. */
  function Movement(sqrt: real -> real, norm: Point, lastPos: Point, dt: real): real
    requires dt != 0.0
  {
    Distance(sqrt, norm, lastPos) * (16.0 / dt)
  }

  /** processTargetLogic past the fist test: the movement since the previous
    * position, if any, and unless the head's burst was put off, the head's shake
    * count and the new position. */
  function Tracked(s: LimbState, part: string, norm: Point, dt: real, now: real, sqrt: real -> real,
                   handsTracked: bool, handBirdActive: bool, yaw: Yaw, jitter: real): Verdict
    requires dt != 0.0
  {
    var m :=
      if s.lastPos.Some? then
        Moved(s, part, Movement(sqrt, norm, s.lastPos.value, dt), dt, now, handsTracked, handBirdActive, jitter)
      else Verdict(s, false, false, NoSpawn, false);
    if m.deferred then m else Finished(m, part, yaw, now, norm)
  }

  /** A fist scares the hand's birds, is recorded, and leaves the limb's
    * position and stillness timer as they were; nothing spawns. */
  lemma FistScares(st: LimbState, part: string, norm: Point, measured: real, now: real,
                   sqrt: real -> real, handsTracked: bool, handBirdActive: bool, yaw: Yaw, jitter: real)
    requires st.lastCheckTime == 0.0 || now > st.lastCheckTime
    requires part != HEAD
    ensures var v := Track(st, part, true, norm, measured, now, sqrt, handsTracked, handBirdActive, yaw, jitter);
      && v.scare && !v.dropPoops && v.spawn == NoSpawn
      && v.limb.isFistDetected && !v.limb.isStill && !v.limb.hasBursted
      && v.limb.lastPos == st.lastPos && v.limb.stillnessTimer == st.stillnessTimer
  {
  }

  /** A shake resets the stillness; a hand's shake scares its birds, and one
    * above the clean threshold drops its droppings; nothing spawns. */
  lemma ShakeResets(st: LimbState, part: string, fist: bool, norm: Point, measured: real, now: real,
                    sqrt: real -> real, handsTracked: bool, handBirdActive: bool, yaw: Yaw, jitter: real)
    requires st.lastCheckTime == 0.0 || now > st.lastCheckTime
    requires !(part != HEAD && fist) && st.lastPos.Some?
    requires Movement(sqrt, norm, st.lastPos.value, FrameGap(st.lastCheckTime, now)) > SHAKE_THRESHOLD
    ensures var v := Track(st, part, fist, norm, measured, now, sqrt, handsTracked, handBirdActive, yaw, jitter);
      && v.limb.stillnessTimer == 0.0 && !v.limb.isStill && !v.limb.hasBursted && v.spawn == NoSpawn
      && (part != HEAD ==> v.scare)
      && (v.dropPoops <==> part != HEAD && Movement(sqrt, norm, st.lastPos.value, FrameGap(st.lastCheckTime, now)) > CLEAN_THRESHOLD)
      && v.limb.lastPos == Some(norm)
  {
  }

  /** Spawning needs stillness: a burst only from a limb that has not burst
    * since it last moved, a single bird only after a burst and more than 2000 ms
    * after the previous spawn; either way the limb is still. */
  lemma SpawnsNeedStillness(st: LimbState, part: string, fist: bool, norm: Point, measured: real, now: real,
                            sqrt: real -> real, handsTracked: bool, handBirdActive: bool, yaw: Yaw, jitter: real)
    requires st.lastCheckTime == 0.0 || now > st.lastCheckTime
    ensures var v := Track(st, part, fist, norm, measured, now, sqrt, handsTracked, handBirdActive, yaw, jitter);
      && (v.spawn != NoSpawn ==>
            && st.lastPos.Some? && !(part != HEAD && fist)
            && Movement(sqrt, norm, st.lastPos.value, FrameGap(st.lastCheckTime, now)) < STILLNESS_THRESHOLD
            && st.stillnessTimer + FrameGap(st.lastCheckTime, now) > STILLNESS_DURATION_MS
            && v.limb.isStill && !v.dropPoops)
      && (v.spawn == Burst ==> !st.hasBursted && v.limb.lastSpawnTime == now && (v.limb.hasBursted || v.scare))
      && (v.spawn == Single ==> st.hasBursted && now - st.lastSpawnTime > 2000.0)
  {
  }

  /** The head does not burst while a hand is tracked and no bird of either
    * hand is still around; it then keeps its position and shake count for the
    * next frame. */
  lemma HeadBurstWaitsForHands(st: LimbState, norm: Point, measured: real, now: real,
                               sqrt: real -> real, yaw: Yaw, jitter: real)
    requires st.lastCheckTime == 0.0 || now > st.lastCheckTime
    ensures var v := Track(st, HEAD, false, norm, measured, now, sqrt, true, false, yaw, jitter);
      && v.spawn != Burst
      && (v.deferred ==> v.limb.lastPos == st.lastPos && v.limb.headShakeCount == st.headShakeCount)
  {
  }

  /** A limb seen for the first time spawns nothing and drops nothing: it has
    * no previous position to measure stillness against. */
  lemma FreshLimbSpawnsNothing(part: string, fist: bool, norm: Point, measured: real, now: real,
                               sqrt: real -> real, handsTracked: bool, handBirdActive: bool, yaw: Yaw, jitter: real)
    ensures var v := Track(InitialLimbState(), part, fist, norm, measured, now, sqrt, handsTracked, handBirdActive, yaw, jitter);
      && v.spawn == NoSpawn && !v.dropPoops && v.limb.lastCheckTime == now
      && (part != HEAD ==> (v.scare <==> fist))
      && (part != HEAD && !fist ==> v.limb.lastPos == Some(norm))
  {
  }

  // ---------------------------------------------------------------------
  // The flock

  /** The perch offsets of a burst's five birds. */
  const BurstOffsets: seq<real> := [0.1, 0.3, 0.5, 0.7, 0.9]

  predicate Distinct(birds: seq<Bird>) {
    forall i, j :: 0 <= i < j < |birds| ==> birds[i] != birds[j]
  }

  /** The number of birds that are not fleeing. */
  function ActiveCount(birds: seq<Bird>): (n: nat)
    reads set b | b in birds
    ensures n <= |birds|
  {
    if birds == [] then 0
    else ActiveCount(birds[..|birds| - 1]) + (if birds[|birds| - 1].state != FlyingAway then 1 else 0)
  }

  /** The birds' states, in order. */
  function StatesOf(birds: seq<Bird>): (r: seq<CreatureState>)
    reads set b | b in birds
    ensures |r| == |birds| && forall i :: 0 <= i < |birds| ==> r[i] == birds[i].state
  {
    if birds == [] then [] else StatesOf(birds[..|birds| - 1]) + [birds[|birds| - 1].state]
  }

  /** Some bird of either hand is not fleeing. */
  predicate AnyActiveHandBird(birds: seq<Bird>)
    reads set b | b in birds
  {
    exists i :: 0 <= i < |birds| && (birds[i].targetId == LEFT || birds[i].targetId == RIGHT) && birds[i].state != FlyingAway
  }

  /** scareBirds' test for one bird: it flees if it is not already fleeing and
    * belongs to limb `l` (or `l` is absent, which scares every bird). */
  function Scared(s: CreatureState, targetId: string, l: Option<string>): (r: CreatureState)
    ensures r == FlyingAway <==> s == FlyingAway || l.None? || targetId == l.value
    ensures r != FlyingAway ==> r == s
  {
    if s != FlyingAway && (l.None? || targetId == l.value) then FlyingAway else s
  }

  /** The droppings not on any limb in `gone`, in order. */
  function Without(poops: seq<Poop>, gone: set<string>): (r: seq<Poop>)
    ensures |r| <= |poops|
  {
    if poops == [] then []
    else Without(poops[..|poops| - 1], gone) + (if poops[|poops| - 1].targetId in gone then [] else [poops[|poops| - 1]])
  }

  /** Exactly the droppings on the limbs that stay are kept. */
  lemma {:induction false} WithoutKeeps(poops: seq<Poop>, gone: set<string>)
    ensures forall p :: p in Without(poops, gone) <==> p in poops && p.targetId !in gone
  {
    if poops != [] {
      var init, last := poops[..|poops| - 1], poops[|poops| - 1];
      assert poops == init + [last];
      WithoutKeeps(init, gone);
    }
  }

  /** How many birds a spawn request adds, given the number not fleeing: a
    * burst always adds five; a single bird is refused at 60. */
  function Births(spawn: Spawn, active: nat): nat {
    match spawn
    case NoSpawn => 0
    case Burst => 5
    case Single => if active < 60 then 1 else 0
  }

  // ---------------------------------------------------------------------
  // What processTargetLogic reads from the landmarks

  /** A hand is a fist when at least three of its four fingers are folded. */
  predicate Fist(sqrt: real -> real, landmarks: seq<Point>)
    requires |landmarks| >= 21
  {
    AtLeastThreeOf(Folded(sqrt, landmarks, 0), Folded(sqrt, landmarks, 1), Folded(sqrt, landmarks, 2), Folded(sqrt, landmarks, 3))
  }

  /** Landmarks the limb's part needs: 21 for a hand, 468 for a face mesh (the
    * head reads landmarks 234 and 454). */
  predicate EnoughLandmarks(landmarks: seq<Point>, part: string) {
    |landmarks| >= 21 && (part == HEAD ==> |landmarks| > 454)
  }

  /** The reference point (nose tip for the head, wrist for a hand) in screen fractions. */
  function ReferencePoint(landmarks: seq<Point>, part: string, width: real, height: real): Point
    requires EnoughLandmarks(landmarks, part) && width > 0.0 && height > 0.0
  {
    var ref := if part == HEAD then landmarks[1] else landmarks[0];
    Point(ref.x / width, ref.y / height)
  }

  /** The limb's measured width: cheek to cheek, or index knuckle to pinky knuckle. */
  function MeasuredWidth(sqrt: real -> real, landmarks: seq<Point>, part: string): real
    requires EnoughLandmarks(landmarks, part)
  {
    if part == HEAD then Distance(sqrt, landmarks[234], landmarks[454]) else Distance(sqrt, landmarks[5], landmarks[17])
  }

  /** The head's yaw; hands have none. */
  function HeadYaw(landmarks: seq<Point>, part: string): Yaw
    requires EnoughLandmarks(landmarks, part)
  {
    if part == HEAD then YawOf(landmarks[1].x, landmarks[234].x, landmarks[454].x) else Center
  }

  /** Limb `part`'s record once it is registered: a limb seen for the first
    * time gets the initial record. */
  function RecordOf(limbs: map<string, LimbState>, part: string): LimbState {
    if part in limbs then limbs[part] else InitialLimbState()
  }

  /** A record written twice over leaves only the second. */
  lemma Rewritten(limbs: map<string, LimbState>, part: string, a: LimbState, b: LimbState)
    ensures limbs[part := a][part := b] == limbs[part := b]
  {
  }

  /** processTargetLogic's verdict on a limb of part `part` with record `st`,
    * from its landmarks in pixels on a `width` by `height` screen;
    * `handsTracked` says whether a hand has a record and `handBirdActive`
    * whether a hand has a bird that is not fleeing. */
  function Judge(st: LimbState, landmarks: seq<Point>, part: string, width: real, height: real, now: real,
                 sqrt: real -> real, handsTracked: bool, handBirdActive: bool, jitter: real): Verdict
    requires EnoughLandmarks(landmarks, part) && width > 0.0 && height > 0.0
    requires st.lastCheckTime == 0.0 || now > st.lastCheckTime
  {
    Track(st, part, part != HEAD && Fist(sqrt, landmarks), ReferencePoint(landmarks, part, width, height),
          MeasuredWidth(sqrt, landmarks, part), now, sqrt, handsTracked, handBirdActive, HeadYaw(landmarks, part), jitter)
  }

  /** The limb bookkeeping of processTargetLogic, field by field in the
    * program's order; what it asks of the flock and the droppings is returned. */
  method Assess(st0: LimbState, part: string, fist: bool, norm: Point, measured: real, now: real,
                sqrt: real -> real, handsTracked: bool, handBirdActive: bool, yaw: Yaw, jitter: real)
    returns (v: Verdict)
    requires st0.lastCheckTime == 0.0 || now > st0.lastCheckTime
    ensures v == Track(st0, part, fist, norm, measured, now, sqrt, handsTracked, handBirdActive, yaw, jitter)
  {
    var st := st0;
    var dt := FrameGap(st.lastCheckTime, now);
    st := st.(lastCheckTime := now);
    st := st.(width := if measured != 0.0 then measured else 100.0);
    if part != HEAD && fist {
      st := st.(isStill := false, isFistDetected := true, hasBursted := false);
      return Verdict(st, true, false, NoSpawn, false);
    }
    st := st.(isFistDetected := false);
    v := AssessMotion(st, part, norm, dt, now, sqrt, handsTracked, handBirdActive, yaw, jitter);
  }

  /** The limb bookkeeping past the fist test. */
  method AssessMotion(st: LimbState, part: string, norm: Point, dt: real, now: real, sqrt: real -> real,
                      handsTracked: bool, handBirdActive: bool, yaw: Yaw, jitter: real) returns (v: Verdict)
    requires dt != 0.0
    ensures v == Tracked(st, part, norm, dt, now, sqrt, handsTracked, handBirdActive, yaw, jitter)
  {
    var m: Verdict;
    if st.lastPos.Some? {
      var dist := Distance(sqrt, norm, st.lastPos.value) * (16.0 / dt);
      assert dist == Movement(sqrt, norm, st.lastPos.value, dt);
      m := AssessMovement(st, part, dist, dt, now, handsTracked, handBirdActive, jitter);
    } else {
      m := Verdict(st, false, false, NoSpawn, false);
    }
    if m.deferred {
      v := m;
    } else {
      v := AssessHead(m, part, yaw, now, norm);
    }
  }

  /** The movement part of the limb bookkeeping. */
  method AssessMovement(st0: LimbState, part: string, dist: real, dt: real, now: real,
                        handsTracked: bool, handBirdActive: bool, jitter: real) returns (v: Verdict)
    ensures v == Moved(st0, part, dist, dt, now, handsTracked, handBirdActive, jitter)
  {
    var st := st0.(lastMovement := dist);
    var scare, drop, spawn := false, false, NoSpawn;
    if dist > SHAKE_THRESHOLD {
      if part != HEAD {
        scare := true;
        drop := dist > CLEAN_THRESHOLD;
      }
      st := st.(stillnessTimer := 0.0, isStill := false, hasBursted := false);
    } else if dist < STILLNESS_THRESHOLD {
      st := st.(stillnessTimer := st.stillnessTimer + dt);
      if st.stillnessTimer > STILLNESS_DURATION_MS {
        st := st.(isStill := true);
        if !st.hasBursted {
          if part == HEAD && handsTracked && !handBirdActive {
            return Verdict(st, false, false, NoSpawn, true);
          }
          spawn := Burst;
          st := st.(hasBursted := true, lastSpawnTime := now);
        } else if now - st.lastSpawnTime > 2000.0 {
          spawn := Single;
          st := st.(lastSpawnTime := now + jitter * 1000.0);
        }
      }
    } else {
      st := st.(stillnessTimer := 0.0, isStill := false);
    }
    v := Verdict(st, scare, drop, spawn, false);
  }

  /** The head-shake part of the limb bookkeeping, and the new position. */
  method AssessHead(v0: Verdict, part: string, yaw: Yaw, now: real, norm: Point) returns (v: Verdict)
    ensures v == Finished(v0, part, yaw, now, norm)
  {
    var st := v0.limb;
    var scare := v0.scare;
    if part == HEAD {
      if yaw != Center && yaw != st.lastYawDir {
        if now - st.lastShakeTime < 1000.0 {
          st := st.(headShakeCount := st.headShakeCount + 1);
        } else {
          st := st.(headShakeCount := 1);
        }
        st := st.(lastShakeTime := now, lastYawDir := yaw);
      } else if now - st.lastShakeTime > 1200.0 {
        st := st.(headShakeCount := 0);
      }
      if st.headShakeCount >= 6 {
        scare := true;
        st := st.(hasBursted := false, headShakeCount := 0);
      }
    }
    st := st.(lastPos := Some(norm));
    v := v0.(limb := st, scare := scare);
  }

  // ---------------------------------------------------------------------
  // Missing limbs

  /** The limbs dropped this frame: unseen, and now missing for 30 frames. */
  function Evicted(limbs: map<string, LimbState>, active: set<string>): set<string> {
    set l | l in limbs && l !in active && limbs[l].missingFrames + 1 >= 30
  }

  /** One limb's record after a frame in which it was seen or not. */
  function AgedLimb(s: LimbState, seen: bool): LimbState {
    s.(missingFrames := if seen then 0 else s.missingFrames + 1)
  }

  /** The limb records after a frame: seen limbs have their missing count
    * reset, unseen ones count one more frame, and those reaching 30 are gone. */
  function AgedLimbs(limbs: map<string, LimbState>, active: set<string>): (r: map<string, LimbState>)
    ensures forall l :: l in r <==> l in limbs && (l in active || limbs[l].missingFrames + 1 < 30)
    ensures forall l :: l in r ==> r[l].missingFrames < 30 && r[l] == limbs[l].(missingFrames := r[l].missingFrames)
  {
    map l | l in limbs && l !in Evicted(limbs, active) :: AgedLimb(limbs[l], l in active)
  }

  /** The limb records part way through a frame's pass, with the limbs in
    * `todo` still to be aged. */
  ghost function AgedBut(limbs: map<string, LimbState>, active: set<string>, todo: set<string>): map<string, LimbState> {
    map l | l in limbs && (l in todo || l !in Evicted(limbs, active)) ::
      if l in todo then limbs[l] else AgedLimb(limbs[l], l in active)
  }

  /** The pass starts from the records as they are and, once nothing is left
    * to do, ends at AgedLimbs. */
  lemma AgedButEnds(limbs: map<string, LimbState>, active: set<string>)
    ensures AgedBut(limbs, active, limbs.Keys) == limbs
    ensures AgedBut(limbs, active, {}) == AgedLimbs(limbs, active)
  {
  }

  /** Aging one more limb `l` replaces its record by its aged one, or removes
    * it when it is evicted. */
  lemma AgedButStep(limbs: map<string, LimbState>, active: set<string>, todo: set<string>, l: string)
    requires l in todo && l in limbs
    ensures AgedBut(limbs, active, todo - {l}) ==
      if l in Evicted(limbs, active) then AgedBut(limbs, active, todo) - {l}
      else AgedBut(limbs, active, todo)[l := AgedLimb(limbs[l], l in active)]
  {
  }

  /** The limb records after one frame per entry of `actives`, each the set of
    * limbs seen in that frame. */
  function AgedOver(limbs: map<string, LimbState>, actives: seq<set<string>>): map<string, LimbState>
  {
    if actives == [] then limbs else AgedOver(AgedLimbs(limbs, actives[0]), actives[1..])
  }

  /** A limb unseen for as many frames as it takes its missing count to reach
    * 30 is gone. */
  lemma {:induction false} UnseenLimbIsEvicted(limbs: map<string, LimbState>, actives: seq<set<string>>, l: string)
    requires forall k :: 0 <= k < |actives| ==> l !in actives[k]
    requires l in limbs ==> limbs[l].missingFrames + |actives| >= 30
    requires |actives| > 0
    ensures l !in AgedOver(limbs, actives)
  {
    var next := AgedLimbs(limbs, actives[0]);
    assert l in next ==> next[l].missingFrames == limbs[l].missingFrames + 1;
    if |actives| > 1 {
      UnseenLimbIsEvicted(next, actives[1..], l);
    } else {
      assert AgedOver(next, actives[1..]) == next;
    }
  }

  /** A limb seen in the last frame is tracked, with no missing frames. */
  lemma SeenLimbIsKept(limbs: map<string, LimbState>, active: set<string>, l: string)
    requires l in limbs && l in active
    ensures l in AgedLimbs(limbs, active) && AgedLimbs(limbs, active)[l].missingFrames == 0
  {
  }

  lemma WithoutAppend(poops: seq<Poop>, p: Poop, gone: set<string>)
    ensures Without(poops + [p], gone) == Without(poops, gone) + (if p.targetId in gone then [] else [p])
  {
    assert (poops + [p])[..|poops|] == poops;
  }

  /** Dropping the droppings of no limb keeps them all. */
  lemma {:induction false} WithoutNothing(poops: seq<Poop>)
    ensures Without(poops, {}) == poops
  {
    if poops != [] {
      var init, last := poops[..|poops| - 1], poops[|poops| - 1];
      assert poops == init + [last];
      WithoutNothing(init);
    }
  }

  /** Dropping one limb's droppings after others' drops them all. */
  lemma {:induction false} WithoutOneMore(poops: seq<Poop>, gone: set<string>, l: string)
    ensures Without(Without(poops, gone), {l}) == Without(poops, gone + {l})
  {
    if poops != [] {
      var init, last := poops[..|poops| - 1], poops[|poops| - 1];
      assert poops == init + [last];
      WithoutOneMore(init, gone, l);
      WithoutAppend(init, last, gone);
      WithoutAppend(init, last, gone + {l});
      if last.targetId !in gone {
        assert Without(poops, gone) == Without(init, gone) + [last];
        WithoutAppend(Without(init, gone), last, {l});
        assert last.targetId in gone + {l} <==> last.targetId in {l};
      } else {
        assert Without(poops, gone) == Without(init, gone);
        assert last.targetId in gone + {l};
      }
    }
  }

  // ---------------------------------------------------------------------
  // Wiping

  /** How far a hand reaches: its measured width, or 80 when it has none. */
  function Reach(limbs: map<string, LimbState>, w: string): real {
    if w in limbs && limbs[w].width != 0.0 then limbs[w].width else 80.0
  }

  /** Hand `w` wipes the spot `at`: its contour's centroid is within 0.8 of its
    * reach. An empty contour has no centroid (0/0) and wipes nothing. */
  predicate WipesAt(sqrt: real -> real, contours: map<string, seq<Point>>, limbs: map<string, LimbState>, w: string, at: Point) {
    w in contours && |contours[w]| > 0 &&
    var c := contours[w];
    var n := |c| as real;
    sqrt(Sq(SumX(c) / n - at.x) + Sq(SumY(c) / n - at.y)) < Reach(limbs, w) * 0.8
  }

  /** A dropping is wiped when its limb's contour is present and a hand other
    * than its own (either hand, for the head) wipes the spot it is drawn at. */
  predicate Wiped(sqrt: real -> real, contours: map<string, seq<Point>>, limbs: map<string, LimbState>, p: Poop) {
    p.targetId in contours &&
    var pos := PolylinePoint(sqrt, contours[p.targetId], p.offset);
    var at := Point(pos.x, pos.y + p.scatterOffset);
    ((LEFT != p.targetId || p.targetId == HEAD) && WipesAt(sqrt, contours, limbs, LEFT, at))
    || ((RIGHT != p.targetId || p.targetId == HEAD) && WipesAt(sqrt, contours, limbs, RIGHT, at))
  }

  /** The droppings not wiped, in order. */
  function Unwiped(sqrt: real -> real, contours: map<string, seq<Point>>, limbs: map<string, LimbState>, poops: seq<Poop>): (r: seq<Poop>)
    ensures |r| <= |poops|
    ensures forall p :: p in r <==> p in poops && !Wiped(sqrt, contours, limbs, p)
  {
    if poops == [] then []
    else
      var last := poops[|poops| - 1];
      assert poops == poops[..|poops| - 1] + [last];
      Unwiped(sqrt, contours, limbs, poops[..|poops| - 1]) + (if Wiped(sqrt, contours, limbs, last) then [] else [last])
  }

  /** A dropping on a limb that is out of sight stays. */
  lemma HiddenDroppingStays(sqrt: real -> real, contours: map<string, seq<Point>>, limbs: map<string, LimbState>,
                            poops: seq<Poop>, p: Poop)
    requires p in poops && p.targetId !in contours
    ensures p in Unwiped(sqrt, contours, limbs, poops)
  {
  }

  /** A hand cannot wipe itself: without the other hand in sight, a hand's
    * dropping stays. */
  lemma OnlyTheOtherHandWipes(sqrt: real -> real, contours: map<string, seq<Point>>, limbs: map<string, LimbState>, p: Poop)
    requires p.targetId == LEFT || p.targetId == RIGHT
    requires (if p.targetId == LEFT then RIGHT else LEFT) !in contours
    ensures !Wiped(sqrt, contours, limbs, p)
  {
  }

  /** Either hand wipes the head's dropping by putting its centroid on it. */
  lemma EitherHandWipesTheHead(sqrt: real -> real, contours: map<string, seq<Point>>, limbs: map<string, LimbState>,
                               p: Poop, w: string)
    requires IsSqrt(sqrt) && p.targetId == HEAD && HEAD in contours
    requires (w == LEFT || w == RIGHT) && w in contours && |contours[w]| > 0 && Reach(limbs, w) > 0.0
    requires var pos := PolylinePoint(sqrt, contours[HEAD], p.offset);
      var n := |contours[w]| as real;
      SumX(contours[w]) / n == pos.x && SumY(contours[w]) / n == pos.y + p.scatterOffset
    ensures Wiped(sqrt, contours, limbs, p)
  {
    var pos := PolylinePoint(sqrt, contours[HEAD], p.offset);
    var at := Point(pos.x, pos.y + p.scatterOffset);
    var n := |contours[w]| as real;
    assert Sq(SumX(contours[w]) / n - at.x) + Sq(SumY(contours[w]) / n - at.y) == 0.0;
    assert sqrt(0.0) == 0.0 by {
      assert 0.0 <= sqrt(0.0) && Sq(sqrt(0.0)) == 0.0;
      if sqrt(0.0) > 0.0 {
        ProductPositive(sqrt(0.0), sqrt(0.0), Sq(sqrt(0.0)));
      }
    }
    assert WipesAt(sqrt, contours, limbs, w, at);
  }

  // ---------------------------------------------------------------------
  // The bird pass

  /** The draws of a new dropping. */
  datatype PoopRolls = PoopRolls(scale: real, rotation: real, seed: real, scatter: real)

  predicate ValidPoopRolls(r: PoopRolls) {
    IsRoll(r.scale) && IsRoll(r.rotation) && IsRoll(r.seed) && IsRoll(r.scatter)
  }

  /** The dropping a bird leaves at its perch: smaller on the head and
    * scattered over the bird's size there, over 5 pixels on a hand. */
  function NewPoop(targetId: string, perchOffset: real, birdSize: real, id: string, r: PoopRolls): (p: Poop)
    ensures p.id == id && p.targetId == targetId && p.offset == perchOffset
    ensures IsRoll(r.scale) && targetId == HEAD ==> 0.2 <= p.scale < 0.4
    ensures IsRoll(r.scale) && targetId != HEAD ==> 0.5 <= p.scale < 1.0
    ensures IsRoll(r.scatter) && targetId != HEAD ==> -2.5 <= p.scatterOffset < 2.5
    ensures IsRoll(r.rotation) ==> 0.0 <= p.rotation < 2.0 * PI
  {
    var head := targetId == HEAD;
    Poop(id, targetId, perchOffset, (0.5 + r.scale * 0.5) * (if head then 0.4 else 1.0), r.rotation * PI * 2.0, r.seed,
         if head then (r.scatter - 0.5) * birdSize * 2.0 else (r.scatter - 0.5) * 5.0)
  }

  /** The dropping of a bird that has just pooped, if it has. */
  function DroppingOf(b: Bird, id: string, r: PoopRolls): (d: seq<Poop>)
    reads b`justPooped, b`targetId, b`perchOffset, b`size
    ensures |d| <= 1 && (d != [] <==> b.justPooped)
  {
    if b.justPooped then [NewPoop(b.targetId, b.perchOffset, b.size, id, r)] else []
  }

  /** The droppings of the birds that have just pooped, one each, in order. */
  function Droppings(birds: seq<Bird>, ids: seq<string>, rolls: seq<PoopRolls>): (r: seq<Poop>)
    reads birds
    requires |ids| >= |birds| && |rolls| >= |birds|
    ensures |r| <= |birds|
  {
    if birds == [] then []
    else
      var n := |birds| - 1;
      Droppings(birds[..n], ids, rolls) + DroppingOf(birds[n], ids[n], rolls[n])
  }

  /** The droppings of a frame are exactly those of the birds that had just
    * pooped: each of them leaves one, and nothing else is left. */
  lemma {:induction false} DroppingsOfPooped(birds: seq<Bird>, ids: seq<string>, rolls: seq<PoopRolls>)
    requires |ids| >= |birds| && |rolls| >= |birds|
    ensures var r := Droppings(birds, ids, rolls);
      && (forall k :: 0 <= k < |birds| && birds[k].justPooped ==>
            NewPoop(birds[k].targetId, birds[k].perchOffset, birds[k].size, ids[k], rolls[k]) in r)
      && (forall p :: p in r ==>
            exists k :: 0 <= k < |birds| && birds[k].justPooped &&
              p == NewPoop(birds[k].targetId, birds[k].perchOffset, birds[k].size, ids[k], rolls[k]))
  {
    if birds != [] {
      var n := |birds| - 1;
      DroppingsOfPooped(birds[..n], ids, rolls);
      var r := Droppings(birds, ids, rolls);
      forall p | p in r
        ensures exists k :: 0 <= k < |birds| && birds[k].justPooped
                  && p == NewPoop(birds[k].targetId, birds[k].perchOffset, birds[k].size, ids[k], rolls[k])
      {
        if p in Droppings(birds[..n], ids, rolls) {
          var k :| 0 <= k < n && birds[..n][k].justPooped &&
            p == NewPoop(birds[..n][k].targetId, birds[..n][k].perchOffset, birds[..n][k].size, ids[k], rolls[k]);
          assert birds[k] == birds[..n][k];
        } else {
          assert birds[n].justPooped;
        }
      }
      forall k | 0 <= k < |birds| && birds[k].justPooped
        ensures NewPoop(birds[k].targetId, birds[k].perchOffset, birds[k].size, ids[k], rolls[k]) in r
      {
        if k < n {
          assert birds[..n][k] == birds[k];
        }
      }
    }
  }

  function TargetOf(sqrt: real -> real, contours: map<string, seq<Point>>, b: Bird): (t: Option<Point>)
    reads b`targetId, b`state, b`x, b`y, b`perchOffset
    ensures t.None? <==> b.targetId !in contours && b.state == FlyingAway
    ensures b.targetId !in contours && b.state != FlyingAway ==> t == Some(Point(b.x, b.y))
  {
    if b.targetId in contours then Some(PolylinePoint(sqrt, contours[b.targetId], b.perchOffset))
    else if b.state != FlyingAway then Some(Point(b.x, b.y))
    else None
  }

  /** With its limb's contour in sight, a bird's target lies on the contour. */
  lemma TargetOnContour(sqrt: real -> real, contours: map<string, seq<Point>>, b: Bird)
    requires IsSqrt(sqrt) && b.targetId in contours && |contours[b.targetId]| >= 2 && 0.0 <= b.perchOffset <= 1.0
    ensures var c := contours[b.targetId];
      exists i :: 0 <= i < |c| - 1 && OnSegment(c, i, TargetOf(sqrt, contours, b).value)
  {
    var c := contours[b.targetId];
    PolylineOnSegment(sqrt, c, b.perchOffset);
    var i :| 0 <= i < |c| - 1 && OnSegment(c, i, PolylinePoint(sqrt, c, b.perchOffset));
    assert TargetOf(sqrt, contours, b).value == PolylinePoint(sqrt, c, b.perchOffset);
  }

  /** A bird's frame went by: its dynamics went from `before` to `after` by
    * the bird step towards `target`; a perched bird with a target is pushed
    * along its limb by `push`, the sum of its siblings' pushes. */
  ghost predicate Stepped(before: Dynamics, after: Dynamics, build: Build, target: Option<Point>, push: real,
                          sqrt: real -> real, sin: real -> real, now: real, rolls: UpdateRolls)
  {
    after == Step(before, build, target, if before.state == Perched && target.Some? then Some(push) else None,
                  sqrt, sin(after.flapPhase), sin(now * 0.005 + build.wobbleOffset), rolls)
  }

  /** A bird's frame went by with some push from its siblings: the push is
    * there exactly when the bird sat perched with a target. */
  ghost predicate SteppedPushed(before: Dynamics, after: Dynamics, build: Build, target: Option<Point>,
                                sqrt: real -> real, sin: real -> real, now: real, rolls: UpdateRolls)
  {
    exists push: real :: Stepped(before, after, build, target, push, sqrt, sin, now, rolls)
  }

  /** A bird is kept while it is within 200 pixels of the screen. */
  predicate OnScreen(b: Bird, w: real, h: real)
    reads b
  {
    -200.0 < b.x < w + 200.0 && -200.0 < b.y < h + 200.0
  }

  /** The birds still near the screen, in order. */
  function OnStage(birds: seq<Bird>, w: real, h: real): (r: seq<Bird>)
    reads set b | b in birds
    ensures |r| <= |birds|
    ensures forall i :: 0 <= i < |r| ==> r[i] in birds && OnScreen(r[i], w, h)
    ensures forall i :: 0 <= i < |birds| && OnScreen(birds[i], w, h) ==> birds[i] in r
    ensures Distinct(birds) ==> Distinct(r)
  {
    if birds == [] then []
    else
      var n := |birds| - 1;
      var rest := OnStage(birds[..n], w, h);
      assert Distinct(birds) ==> birds[n] !in birds[..n];
      rest + (if OnScreen(birds[n], w, h) then [birds[n]] else [])
  }

  /** A contour moved up the screen by `dy`. */
  function Raised(contour: seq<Point>, dy: real): seq<Point> {
    seq(|contour|, i requires 0 <= i < |contour| => contour[i].(y := contour[i].y - dy))
  }

  /** The contour a limb keeps for the birds: the head's hull is raised by a
    * quarter of the face width, the other limbs keep theirs as it is. */
  function StoredContour(part: string, hull: seq<Point>, width: real): seq<Point> {
    if part == HEAD then Raised(hull, width * 0.25) else hull
  }

  /** One bird's update in the frame: its target is resolved (a point of its
    * limb's contour, or where it is when the contour is gone, or none once it
    * flees) and it is updated over 16 ms against the flock `siblings`. */
  method Fly(b: Bird, contours: map<string, seq<Point>>, sqrt: real -> real, sin: real -> real, now: real,
             siblings: seq<Bird>, rolls: UpdateRolls)
    modifies b`x, b`y, b`velocityX, b`velocityY, b`flapPhase, b`state, b`perchOffset,
             b`idleAction, b`actionTimer, b`blinkTimer, b`poopTimer, b`justPooped
    ensures Stepped(old(b.Dyn()), b.Dyn(), old(b.Fixed()), old(TargetOf(sqrt, contours, b)),
                    old(Push(b.View(), ViewsOf(siblings))), sqrt, sin, now, rolls)
  {
    var t: Option<Point> := None;
    if b.targetId in contours {
      var p := PointOnPolyline(sqrt, contours[b.targetId], b.perchOffset);
      t := Some(p);
    } else if b.state != FlyingAway {
      t := Some(Point(b.x, b.y));
    }
    ghost var before := b.Dyn();
    ghost var push := if b.state == Perched && t.Some? then b.PushOn(Some(siblings)) else None;
    b.Update(16.0, t, Some(siblings), sqrt, sin, now, rolls);
    assert b.Dyn() == Step(before, b.Fixed(), t, push, sqrt, sin(b.flapPhase), sin(now * 0.005 + b.flightWobbleOffset), rolls);
    assert push.Some? ==> before.state == Perched && t.Some?;
    assert b.Fixed() == old(b.Fixed());
  }

  /** One bird's turn in updateAndDrawBirds: its dropping, if any, is left
    * (justPooped is cleared), then it flies its frame. */
  method Turn(b: Bird, contours: map<string, seq<Point>>, sqrt: real -> real, sin: real -> real, now: real,
              flock: seq<Bird>, rolls: UpdateRolls)
    modifies b`x, b`y, b`velocityX, b`velocityY, b`flapPhase, b`state, b`perchOffset,
             b`idleAction, b`actionTimer, b`blinkTimer, b`poopTimer, b`justPooped
    ensures Stepped(old(b.Dyn()).(justPooped := false), b.Dyn(), old(b.Fixed()),
                    old(TargetOf(sqrt, contours, b)), old(Push(b.View(), ViewsOf(flock))), sqrt, sin, now, rolls)
  {
    label start:
    b.justPooped := false;
    ViewsKept@start(flock);
    Fly(b, contours, sqrt, sin, now, flock, rolls);
  }

  /** The turns of updateAndDrawBirds: in order, each bird of `flock` has its
    * target resolved and flies its frame against the flock as it stands at
    * its turn. `rolls` stand for each bird's draws in update. */
  method TakeTurns(flock: seq<Bird>, contours: map<string, seq<Point>>, sqrt: real -> real, sin: real -> real,
                   now: real, rolls: seq<UpdateRolls>)
    requires Distinct(flock) && |rolls| >= |flock|
    modifies set b | b in flock
    ensures forall i :: 0 <= i < |flock| ==>
      SteppedPushed(old(flock[i].Dyn()).(justPooped := false), flock[i].Dyn(), old(flock[i].Fixed()),
                    old(TargetOf(sqrt, contours, flock[i])), sqrt, sin, now, rolls[i])
  {
    for i := 0 to |flock|
      invariant forall k :: i <= k < |flock| ==> unchanged(flock[k])
      invariant forall k :: 0 <= k < i ==>
        SteppedPushed(old(flock[k].Dyn()).(justPooped := false), flock[k].Dyn(), old(flock[k].Fixed()),
                      old(TargetOf(sqrt, contours, flock[k])), sqrt, sin, now, rolls[k])
    {
      assert forall k :: 0 <= k < |flock| && k != i ==> flock[k] != flock[i];
      Turn(flock[i], contours, sqrt, sin, now, flock, rolls[i]);
    }
  }

  /** Views do not read the dropping flag, so clearing it leaves them be. */
  twostate lemma ViewsKept(flock: seq<Bird>)
    requires forall k :: 0 <= k < |flock| ==> flock[k].View() == old(flock[k].View())
    ensures ViewsOf(flock) == old(ViewsOf(flock))
  {
  }

  /** The limbs present in a frame. */
  function SeenParts(left: Option<seq<Point>>, right: Option<seq<Point>>, face: Option<seq<Point>>): set<string> {
    (if left.Some? then {LEFT} else {}) + (if right.Some? then {RIGHT} else {}) + (if face.Some? then {HEAD} else {})
  }

  /** The random draws of one limb's processing in a frame: the jitter of a
    * single spawn's timestamp, and the ids and draws of up to five new birds. */
  datatype LimbDraws = LimbDraws(jitter: real, ids: seq<string>, rolls: seq<SpawnRolls>)

  predicate ValidLimbDraws(d: LimbDraws) {
    |d.ids| == 5 && |d.rolls| == 5 && forall k :: 0 <= k < 5 ==> ValidSpawnRolls(d.rolls[k])
  }

  /** The scene: the flock, the droppings, and the tracked limbs. */
  class Scene {
    var birds: seq<Bird>
    var poops: seq<Poop>
    var limbs: map<string, LimbState>
    var customBirds: seq<CustomBirdConfig>

    constructor (customBirds: seq<CustomBirdConfig>)
      ensures birds == [] && poops == [] && limbs == map[] && this.customBirds == customBirds
    {
      birds, poops, limbs := [], [], map[];
      this.customBirds := customBirds;
    }

    /** What carrying out verdict `v` on limb `part` left of the droppings and
      * the flock, given the droppings `poops0`, the flock `birds0`, its states
      * `states0` and the number `active0` of its birds not fleeing before: the
      * limb's droppings are gone if the verdict drops them, the old birds are
      * kept in order (the limb's scared if it scares), and the new birds of
      * the limb follow, five at the burst offsets or one under the cap. */
    predicate Performed(v: Verdict, part: string, ids: seq<string>, poops0: seq<Poop>, birds0: seq<Bird>,
                        states0: seq<CreatureState>, active0: nat)
      reads this`poops, this`birds, set b | b in birds
    {
      && |ids| == 5 && |states0| == |birds0|
      && poops == (if v.dropPoops then Without(poops0, {part}) else poops0)
      && |birds| == |birds0| + Births(v.spawn, active0)
      && birds[..|birds0|] == birds0
      && (forall i :: 0 <= i < |birds0| ==>
            birds[i].state == if v.scare then Scared(states0[i], birds[i].targetId, Some(part)) else states0[i])
      && (forall i :: |birds0| <= i < |birds| ==>
            birds[i].targetId == part && birds[i].state == if v.scare then FlyingAway else FlyingIn)
      && (v.spawn == Burst ==> forall i :: |birds0| <= i < |birds| ==>
            birds[i].perchOffset == BurstOffsets[i - |birds0|] && birds[i].id == ids[i - |birds0|])
      && (v.spawn == Single ==> forall i :: |birds0| <= i < |birds| ==> birds[i].id == ids[0])
    }

    /** scareBirds: every bird of limb `l` (every bird, without `l`) that is not
      * fleeing flees; the limb's burst is re-armed. */
    method ScareBirds(l: Option<string>)
      requires Distinct(birds)
      modifies this`limbs, (set b | b in birds)`state
      ensures forall i :: 0 <= i < |birds| ==> birds[i].state == Scared(old(birds[i].state), birds[i].targetId, l)
      ensures limbs == if l.Some? && l.value in old(limbs) then old(limbs)[l.value := old(limbs)[l.value].(hasBursted := false)]
                       else old(limbs)
    {
      for i := 0 to |birds|
        invariant forall k :: 0 <= k < i ==> birds[k].state == Scared(old(birds[k].state), birds[k].targetId, l)
        invariant forall k :: i <= k < |birds| ==> birds[k].state == old(birds[k].state)
        invariant limbs == old(limbs)
      {
        var b := birds[i];
        if b.state != FlyingAway && (l.None? || b.targetId == l.value) {
          b.state := FlyingAway;
        }
      }
      if l.Some? && l.value in limbs {
        limbs := limbs[l.value := limbs[l.value].(hasBursted := false)];
      }
    }

    /** spawnBurst: five new birds for limb `l`, at offsets 0.1 to 0.9 along
      * it, however many birds there already are. */
    method SpawnBurst(screenWidth: real, screenHeight: real, l: string, limbWidth: real,
                      ids: seq<string>, rolls: seq<SpawnRolls>)
      requires screenWidth >= 0.0 && screenHeight >= 0.0
      requires |ids| == 5 && |rolls| == 5 && forall k :: 0 <= k < 5 ==> ValidSpawnRolls(rolls[k])
      requires Distinct(birds)
      modifies this`birds
      ensures Distinct(birds)
      ensures |birds| == |old(birds)| + 5 && birds[..|old(birds)|] == old(birds)
      ensures forall i :: |old(birds)| <= i < |birds| ==>
        && fresh(birds[i]) && birds[i].id == ids[i - |old(birds)|] && birds[i].targetId == l
        && birds[i].perchOffset == BurstOffsets[i - |old(birds)|] && birds[i].state == FlyingIn
    {
      var n := |birds|;
      for k := 0 to 5
        invariant |birds| == n + k && birds[..n] == old(birds) && Distinct(birds)
        invariant forall i :: n <= i < |birds| ==> fresh(birds[i])
        invariant forall i :: n <= i < |birds| ==> birds[i].id == ids[i - n] && birds[i].targetId == l
        invariant forall i :: n <= i < |birds| ==> birds[i].perchOffset == BurstOffsets[i - n]
        invariant forall i :: n <= i < |birds| ==> birds[i].state == FlyingIn
      {
        var b := new Bird(screenWidth, screenHeight, limbWidth, l, Some(BurstOffsets[k]), customBirds, ids[k], rolls[k]);
        birds := birds + [b];
      }
    }

    /** spawnSingleBird: one new bird for limb `l`, unless 60 birds are
      * already not fleeing. */
    method SpawnSingleBird(screenWidth: real, screenHeight: real, l: string, limbWidth: real,
                           id: string, rolls: SpawnRolls)
      requires screenWidth >= 0.0 && screenHeight >= 0.0 && ValidSpawnRolls(rolls)
      requires Distinct(birds)
      modifies this`birds
      ensures Distinct(birds)
      ensures old(ActiveCount(birds)) >= 60 ==> birds == old(birds)
      ensures old(ActiveCount(birds)) < 60 ==>
        && |birds| == |old(birds)| + 1 && birds[..|old(birds)|] == old(birds)
        && fresh(birds[|old(birds)|]) && birds[|old(birds)|].id == id
        && birds[|old(birds)|].targetId == l && birds[|old(birds)|].state == FlyingIn
      ensures ActiveCount(birds) == old(ActiveCount(birds)) || ActiveCount(birds) <= 60
    {
      var active := 0;
      for i := 0 to |birds|
        invariant active == ActiveCount(birds[..i])
      {
        assert birds[..i + 1][..i] == birds[..i];
        if birds[i].state != FlyingAway {
          active := active + 1;
        }
      }
      assert birds[..|birds|] == birds;
      if active < 60 {
        var b := new Bird(screenWidth, screenHeight, limbWidth, l, None, customBirds, id, rolls);
        ghost var before := birds;
        birds := birds + [b];
        assert birds[..|birds| - 1] == before;
      }
    }

    /** Registers a limb seen for the first time. */
    method Register(part: string)
      modifies this`limbs
      ensures limbs == if part in old(limbs) then old(limbs) else old(limbs)[part := InitialLimbState()]
      ensures part in limbs && limbs[part].lastCheckTime == if part in old(limbs) then old(limbs)[part].lastCheckTime else 0.0
    {
      if part !in limbs {
        limbs := limbs[part := InitialLimbState()];
      }
    }

    /** processTargetLogic: assesses limb `part` from its landmarks (in pixels)
      * and carries out what the assessment asks of the flock and the droppings.
      * A hand's shake scares before it drops droppings, and the head's shake
      * count scares after its burst, so spawning, then scaring, then dropping
      * is the program's order. A single spawn uses the first id and draw. */
    method ProcessTargetLogic(landmarks: seq<Point>, part: string, width: real, height: real, now: real,
                              sqrt: real -> real, jitter: real, ids: seq<string>, rolls: seq<SpawnRolls>)
      returns (v: Verdict)
      requires part in limbs && Distinct(birds)
      requires EnoughLandmarks(landmarks, part) && width > 0.0 && height > 0.0
      requires limbs[part].lastCheckTime == 0.0 || now > limbs[part].lastCheckTime
      requires |ids| == 5 && |rolls| == 5 && forall k :: 0 <= k < 5 ==> ValidSpawnRolls(rolls[k])
      modifies this`limbs, this`poops, this`birds, (set b | b in birds)`state
      ensures Distinct(birds) && forall b :: b in birds ==> b in old(birds) || fresh(b)
      ensures v == Judge(old(limbs)[part], landmarks, part, width, height, now, sqrt,
                         LEFT in old(limbs) || RIGHT in old(limbs), old(AnyActiveHandBird(birds)), jitter)
      ensures limbs == old(limbs)[part := v.limb]
      ensures Performed(v, part, ids, old(poops), old(birds), old(StatesOf(birds)), old(ActiveCount(birds)))
    {
      var fist := false;
      if part != HEAD {
        fist := IsFist(sqrt, landmarks);
      }
      var ref := if part == HEAD then landmarks[1] else landmarks[0];
      var measured := if part == HEAD then Distance(sqrt, landmarks[234], landmarks[454])
                      else Distance(sqrt, landmarks[5], landmarks[17]);
      var norm := Point(ref.x / width, ref.y / height);
      var yaw := if part == HEAD then YawOf(landmarks[1].x, landmarks[234].x, landmarks[454].x) else Center;
      v := Assess(limbs[part], part, fist, norm, measured, now, sqrt,
                      LEFT in limbs || RIGHT in limbs, AnyActiveHandBird(birds), yaw, jitter);
      Perform(v, part, width, height, ids, rolls);
    }

    /** The birds a verdict hatches: five at the burst offsets, or one while
      * the flock is under its cap of 60. */
    method Grow(spawn: Spawn, width: real, height: real, part: string, limbWidth: real,
                ids: seq<string>, rolls: seq<SpawnRolls>)
      requires Distinct(birds) && width > 0.0 && height > 0.0
      requires |ids| == 5 && |rolls| == 5 && forall k :: 0 <= k < 5 ==> ValidSpawnRolls(rolls[k])
      modifies this`birds
      ensures Distinct(birds)
      ensures |birds| == |old(birds)| + Births(spawn, old(ActiveCount(birds)))
      ensures birds[..|old(birds)|] == old(birds)
      ensures forall i :: |old(birds)| <= i < |birds| ==>
        fresh(birds[i]) && birds[i].targetId == part && birds[i].state == FlyingIn
      ensures spawn == Burst ==> forall i :: |old(birds)| <= i < |birds| ==>
        birds[i].perchOffset == BurstOffsets[i - |old(birds)|] && birds[i].id == ids[i - |old(birds)|]
      ensures spawn == Single ==> forall i :: |old(birds)| <= i < |birds| ==> birds[i].id == ids[0]
      ensures forall b :: b in birds ==> b in old(birds) || fresh(b)
    {
      if spawn == Burst {
        SpawnBurst(width, height, part, limbWidth, ids, rolls);
      } else if spawn == Single {
        SpawnSingleBird(width, height, part, limbWidth, ids[0], rolls[0]);
      }
      forall b | b in birds
        ensures b in old(birds) || fresh(b)
      {
        var i :| 0 <= i < |birds| && birds[i] == b;
        if i < |old(birds)| {
          assert birds[..|old(birds)|][i] == b;
        }
      }
    }

    /** Carries out a verdict on limb `part`. */
    method Perform(v: Verdict, part: string, width: real, height: real, ids: seq<string>, rolls: seq<SpawnRolls>)
      requires part in limbs && Distinct(birds) && width > 0.0 && height > 0.0
      requires |ids| == 5 && |rolls| == 5 && forall k :: 0 <= k < 5 ==> ValidSpawnRolls(rolls[k])
      modifies this`limbs, this`poops, this`birds, (set b | b in birds)`state
      ensures Distinct(birds) && forall b :: b in birds ==> b in old(birds) || fresh(b)
      ensures limbs == old(limbs)[part := v.limb]
      ensures Performed(v, part, ids, old(poops), old(birds), old(StatesOf(birds)), old(ActiveCount(birds)))
    {
      Grow(v.spawn, width, height, part, v.limb.width, ids, rolls);
      Befall(v, part);
    }

    /** The rest of a verdict on limb `part`, once its birds have hatched:
      * the flock is scared, the limb's poops are dropped, and the limb's
      * record is replaced, each as the verdict says. */
    method Befall(v: Verdict, part: string)
      requires part in limbs && Distinct(birds)
      modifies this`limbs, this`poops, (set b | b in birds)`state
      ensures poops == if v.dropPoops then Without(old(poops), {part}) else old(poops)
      ensures forall i :: 0 <= i < |birds| ==>
        birds[i].state == if v.scare then Scared(old(birds[i].state), birds[i].targetId, Some(part)) else old(birds[i].state)
      ensures limbs == old(limbs)[part := v.limb]
    {
      if v.scare {
        ScareBirds(Some(part));
      }
      if v.dropPoops {
        poops := Without(poops, {part});
      }
      limbs := limbs[part := v.limb];
    }

    /** The end of a limb's processing: its contour is the upper hull of its
      * landmarks, raised by a quarter of its width for the head. */
    method StoreContour(part: string, landmarks: seq<Point>) returns (hull: seq<Point>)
      requires part in limbs
      modifies this`limbs
      ensures IsSubsequence(hull, SortByX(landmarks)) && StrictlyTurning(hull) && (hull == [] <==> landmarks == [])
      ensures limbs == old(limbs)[part := old(limbs)[part].(prevContour := StoredContour(part, hull, old(limbs)[part].width))]
    {
      hull := UpperHandHull(landmarks);
      var contour := hull;
      if part == HEAD {
        var lift := limbs[part].width * 0.25;
        contour := Raised(hull, lift);
      }
      limbs := limbs[part := limbs[part].(prevContour := contour)];
    }

    /** The frame's processing of one limb (the `process` closure of
      * onResults): a limb seen for the first time is registered, its
      * landmarks (here already in pixels) are assessed, and its contour is
      * stored. A limb absent from the frame (`landmarks` is None) is left
      * alone. Returns whether the limb was seen. */
    method Process(landmarks: Option<seq<Point>>, part: string, width: real, height: real, now: real,
                   sqrt: real -> real, jitter: real, ids: seq<string>, rolls: seq<SpawnRolls>)
      returns (seen: bool, hull: seq<Point>, v: Verdict)
      requires Distinct(birds) && width > 0.0 && height > 0.0
      requires landmarks.Some? ==> EnoughLandmarks(landmarks.value, part)
      requires part in limbs ==> limbs[part].lastCheckTime == 0.0 || now > limbs[part].lastCheckTime
      requires |ids| == 5 && |rolls| == 5 && forall k :: 0 <= k < 5 ==> ValidSpawnRolls(rolls[k])
      modifies this`limbs, this`poops, this`birds, (set b | b in birds)`state
      ensures seen == landmarks.Some?
      ensures !seen ==> limbs == old(limbs) && poops == old(poops) && birds == old(birds)
      ensures seen ==> v == Judge(RecordOf(old(limbs), part), landmarks.value, part, width, height, now, sqrt,
                                  LEFT in old(limbs) || RIGHT in old(limbs) || part in {LEFT, RIGHT},
                                  old(AnyActiveHandBird(birds)), jitter)
      ensures seen ==> limbs == old(limbs)[part := v.limb.(prevContour := StoredContour(part, hull, v.limb.width))]
      ensures seen ==> Performed(v, part, ids, old(poops), old(birds), old(StatesOf(birds)), old(ActiveCount(birds)))
      ensures seen ==> IsSubsequence(hull, SortByX(landmarks.value)) && StrictlyTurning(hull) && hull != []
      ensures Distinct(birds) && |old(birds)| <= |birds| <= |old(birds)| + 5
      ensures forall b :: b in birds ==> b in old(birds) || fresh(b)
    {
      seen, hull, v := landmarks.Some?, [], Verdict(InitialLimbState(), false, false, NoSpawn, false);
      if seen {
        v := Observe(landmarks.value, part, width, height, now, sqrt, jitter, ids, rolls);
        hull := StoreContour(part, landmarks.value);
        Rewritten(old(limbs), part, v.limb, limbs[part]);
      }
    }

    /** The first two steps of Process: registration and assessment. */
    method Observe(landmarks: seq<Point>, part: string, width: real, height: real, now: real,
                   sqrt: real -> real, jitter: real, ids: seq<string>, rolls: seq<SpawnRolls>)
      returns (v: Verdict)
      requires Distinct(birds) && width > 0.0 && height > 0.0 && EnoughLandmarks(landmarks, part)
      requires part in limbs ==> limbs[part].lastCheckTime == 0.0 || now > limbs[part].lastCheckTime
      requires |ids| == 5 && |rolls| == 5 && forall k :: 0 <= k < 5 ==> ValidSpawnRolls(rolls[k])
      modifies this`limbs, this`poops, this`birds, (set b | b in birds)`state
      ensures v == Judge(RecordOf(old(limbs), part), landmarks, part, width, height, now, sqrt,
                         LEFT in old(limbs) || RIGHT in old(limbs) || part in {LEFT, RIGHT}, old(AnyActiveHandBird(birds)), jitter)
      ensures limbs == old(limbs)[part := v.limb]
      ensures Performed(v, part, ids, old(poops), old(birds), old(StatesOf(birds)), old(ActiveCount(birds)))
      ensures Distinct(birds) && |old(birds)| <= |birds| <= |old(birds)| + 5
      ensures forall b :: b in birds ==> b in old(birds) || fresh(b)
    {
      Register(part);
      v := ProcessTargetLogic(landmarks, part, width, height, now, sqrt, jitter, ids, rolls);
    }

    /** One limb's part of the frame's pass: a seen limb is present again, an
      * unseen one counts a missing frame, and at 30 missing frames its birds
      * are scared, its droppings removed and its record dropped. Returns the
      * limb's contour unless it was dropped. */
    method AgeOne(l: string, active: set<string>) returns (contour: Option<seq<Point>>)
      requires l in limbs && Distinct(birds)
      modifies this`limbs, this`poops, (set b | b in birds)`state
      ensures var s := old(limbs[l]);
        var evicted := l !in active && s.missingFrames + 1 >= 30;
        && limbs == (if evicted then old(limbs) - {l}
                     else old(limbs)[l := AgedLimb(s, l in active)])
        && contour == (if evicted then None else Some(s.prevContour))
        && poops == (if evicted then Without(old(poops), {l}) else old(poops))
        && forall i :: 0 <= i < |birds| ==>
             birds[i].state == if evicted && birds[i].targetId == l then FlyingAway else old(birds[i].state)
    {
      var s := limbs[l];
      if l in active {
        limbs := limbs[l := s.(missingFrames := 0)];
        contour := Some(s.prevContour);
      } else {
        s := s.(missingFrames := s.missingFrames + 1);
        if s.missingFrames < 30 {
          limbs := limbs[l := s];
          contour := Some(s.prevContour);
        } else {
          ScareBirds(Some(l));
          poops := Without(poops, {l});
          limbs := limbs - {l};
          contour := None;
        }
      }
    }

    /** The frame's pass over the tracked limbs (each as in AgeOne). Returns
      * the contours of the limbs still tracked. */
    method AgeLimbs(active: set<string>) returns (contours: map<string, seq<Point>>)
      requires Distinct(birds)
      modifies this`limbs, this`poops, (set b | b in birds)`state
      ensures limbs == AgedLimbs(old(limbs), active)
      ensures contours.Keys == limbs.Keys && forall l :: l in contours ==> contours[l] == limbs[l].prevContour
      ensures poops == Without(old(poops), Evicted(old(limbs), active))
      ensures forall i :: 0 <= i < |birds| ==>
        birds[i].state == if birds[i].targetId in Evicted(old(limbs), active) then FlyingAway else old(birds[i].state)
    {
      ghost var gone := Evicted(old(limbs), active);
      ghost var dropped: set<string> := {};
      var todo := limbs.Keys;
      contours := map[];
      WithoutNothing(poops);
      AgedButEnds(limbs, active);
      while todo != {}
        invariant todo <= old(limbs).Keys && dropped == gone - todo
        invariant limbs == AgedBut(old(limbs), active, todo)
        invariant contours.Keys == limbs.Keys - todo
        invariant forall l :: l in contours ==> contours[l] == limbs[l].prevContour
        invariant poops == Without(old(poops), dropped)
        invariant forall i :: 0 <= i < |birds| ==>
          birds[i].state == if birds[i].targetId in dropped then FlyingAway else old(birds[i].state)
        decreases todo
      {
        var l :| l in todo;
        AgedButStep(old(limbs), active, todo, l);
        var c := AgeOne(l, active);
        if c.Some? {
          contours := contours[l := c.value];
        } else {
          WithoutOneMore(old(poops), dropped, l);
          dropped := dropped + {l};
        }
        todo := todo - {l};
      }
      assert dropped == gone;
    }

    /** checkWipeInteraction: drops the droppings a hand has wiped. */
    method CheckWipeInteraction(contours: map<string, seq<Point>>, sqrt: real -> real)
      modifies this`poops
      ensures poops == Unwiped(sqrt, contours, limbs, old(poops))
    {
      var kept := [];
      for i := 0 to |poops|
        invariant kept == Unwiped(sqrt, contours, limbs, poops[..i])
      {
        assert poops[..i + 1][..i] == poops[..i];
        if !Wiped(sqrt, contours, limbs, poops[i]) {
          kept := kept + [poops[i]];
        }
      }
      assert poops[..|poops|] == poops;
      poops := kept;
    }

    /** The second half of updateAndDrawBirds: birds more than 200 pixels off
      * the screen are dropped. */
    method CullBirds(w: real, h: real)
      modifies this`birds
      ensures birds == old(OnStage(birds, w, h))
    {
      var kept := [];
      for i := 0 to |birds|
        invariant kept == OnStage(birds[..i], w, h)
      {
        assert birds[..i + 1][..i] == birds[..i];
        if OnScreen(birds[i], w, h) {
          kept := kept + [birds[i]];
        }
      }
      assert birds[..|birds|] == birds;
      birds := kept;
    }

    /** The droppings of updateAndDrawBirds: each bird that has just pooped
      * leaves one at its perch, in flock order. A bird's dropping depends only
      * on its own state before its turn, which no earlier turn touches, so
      * they are gathered here ahead of the flight. `ids` and `rolls` stand for
      * the random id and draws of each dropping. */
    method CollectDroppings(ids: seq<string>, rolls: seq<PoopRolls>) returns (drops: seq<Poop>)
      requires |ids| >= |birds| && |rolls| >= |birds|
      ensures drops == Droppings(birds, ids, rolls)
    {
      drops := [];
      for i := 0 to |birds|
        invariant drops == Droppings(birds[..i], ids, rolls)
      {
        assert birds[..i + 1][..i] == birds[..i];
        if birds[i].justPooped {
          drops := drops + [NewPoop(birds[i].targetId, birds[i].perchOffset, birds[i].size, ids[i], rolls[i])];
        }
      }
      assert birds[..|birds|] == birds;
    }

    /** The first half of updateAndDrawBirds: the birds take their turns and
      * the frame's droppings are left. `poopIds` and `poopRolls` stand for the
      * random id and draws of each dropping, `rolls` for each bird's draws in
      * update. */
    method FlyFlock(contours: map<string, seq<Point>>, sqrt: real -> real, sin: real -> real, now: real,
                    poopIds: seq<string>, poopRolls: seq<PoopRolls>, rolls: seq<UpdateRolls>)
      requires Distinct(birds) && |poopIds| >= |birds| && |poopRolls| >= |birds| && |rolls| >= |birds|
      modifies this`poops, set b | b in birds
      ensures poops == old(poops) + old(Droppings(birds, poopIds, poopRolls))
      ensures forall i :: 0 <= i < |birds| ==>
        SteppedPushed(old(birds[i].Dyn()).(justPooped := false), birds[i].Dyn(), old(birds[i].Fixed()),
                old(TargetOf(sqrt, contours, birds[i])),
                sqrt, sin, now, rolls[i])
    {
      var drops := CollectDroppings(poopIds, poopRolls);
      TakeTurns(birds, contours, sqrt, sin, now, rolls);
      label flown:
      poops := poops + drops;
      forall i | 0 <= i < |birds|
        ensures birds[i].Dyn() == old@flown(birds[i].Dyn())
      {
      }
    }

    /** updateAndDrawBirds: the flock flies its frame, then the birds more than
      * 200 pixels off the screen are dropped, whatever their state. */
    method UpdateAndDrawBirds(contours: map<string, seq<Point>>, w: real, h: real, sqrt: real -> real,
                              sin: real -> real, now: real, poopIds: seq<string>, poopRolls: seq<PoopRolls>,
                              rolls: seq<UpdateRolls>)
      requires Distinct(birds) && |poopIds| >= |birds| && |poopRolls| >= |birds| && |rolls| >= |birds|
      modifies this`poops, this`birds, set b | b in birds
      ensures poops == old(poops) + old(Droppings(birds, poopIds, poopRolls))
      ensures forall i :: 0 <= i < |old(birds)| ==>
        SteppedPushed(old(birds[i].Dyn()).(justPooped := false), old(birds)[i].Dyn(), old(birds[i].Fixed()),
                old(TargetOf(sqrt, contours, birds[i])),
                sqrt, sin, now, rolls[i])
      ensures birds == OnStage(old(birds), w, h) && Distinct(birds)
    {
      FlyFlock(contours, sqrt, sin, now, poopIds, poopRolls, rolls);
      label flown:
      CullBirds(w, h);
      forall i | 0 <= i < |old(birds)|
        ensures SteppedPushed(old(birds[i].Dyn()).(justPooped := false), old(birds)[i].Dyn(), old(birds[i].Fixed()),
                        old(TargetOf(sqrt, contours, birds[i])),
                        sqrt, sin, now, rolls[i])
      {
        var b := old(birds)[i];
        assert b.Dyn() == old@flown(b.Dyn());
      }
    }

    /** The three calls of `process` in onResults: the left hand, the right
      * hand and the face, in that order, those present in the frame. Returns
      * the limbs seen. */
    method ProcessLimbs(left: Option<seq<Point>>, right: Option<seq<Point>>, face: Option<seq<Point>>,
                        width: real, height: real, now: real, sqrt: real -> real, draws: seq<LimbDraws>)
      returns (active: set<string>)
      requires Distinct(birds) && width > 0.0 && height > 0.0
      requires left.Some? ==> EnoughLandmarks(left.value, LEFT)
      requires right.Some? ==> EnoughLandmarks(right.value, RIGHT)
      requires face.Some? ==> EnoughLandmarks(face.value, HEAD)
      requires forall l :: l in limbs ==> limbs[l].lastCheckTime == 0.0 || now > limbs[l].lastCheckTime
      requires |draws| == 3 && forall k :: 0 <= k < 3 ==> ValidLimbDraws(draws[k])
      modifies this`limbs, this`poops, this`birds, (set b | b in birds)`state
      ensures active == SeenParts(left, right, face)
      ensures (left.Some? ==> LEFT in limbs) && (right.Some? ==> RIGHT in limbs) && (face.Some? ==> HEAD in limbs)
      ensures Distinct(birds) && |birds| <= |old(birds)| + 15
      ensures forall b :: b in birds ==> b in old(birds) || fresh(b)
    {
      active := SeenParts(left, right, face);
      LabelsDistinct();
      var seen, hull, v := Process(left, LEFT, width, height, now, sqrt, draws[0].jitter, draws[0].ids, draws[0].rolls);
      label leftDone:
      seen, hull, v := Process(right, RIGHT, width, height, now, sqrt, draws[1].jitter, draws[1].ids, draws[1].rolls);
      label rightDone:
      seen, hull, v := Process(face, HEAD, width, height, now, sqrt, draws[2].jitter, draws[2].ids, draws[2].rolls);
      forall b | b in birds
        ensures b in old(birds) || fresh(b)
      {
        if b in old@rightDone(birds) && b in old@leftDone(birds) {
          assert b in old(birds) || fresh(b);
        }
      }
    }

    /** The limb-tracking part of onResults, one camera frame: the limbs
      * present are processed, the limb records are aged, wiped droppings are
      * dropped, and the flock flies and is culled. Landmarks come in pixels,
      * and the frame's random draws come as parameters. Returns whether any
      * limb is still tracked. */
    method OnResults(left: Option<seq<Point>>, right: Option<seq<Point>>, face: Option<seq<Point>>,
                     width: real, height: real, now: real, sqrt: real -> real, sin: real -> real,
                     draws: seq<LimbDraws>, poopIds: seq<string>, poopRolls: seq<PoopRolls>,
                     rolls: seq<UpdateRolls>)
      returns (detectionActive: bool)
      requires Distinct(birds) && width > 0.0 && height > 0.0
      requires left.Some? ==> EnoughLandmarks(left.value, LEFT)
      requires right.Some? ==> EnoughLandmarks(right.value, RIGHT)
      requires face.Some? ==> EnoughLandmarks(face.value, HEAD)
      requires forall l :: l in limbs ==> limbs[l].lastCheckTime == 0.0 || now > limbs[l].lastCheckTime
      requires |draws| == 3 && forall k :: 0 <= k < 3 ==> ValidLimbDraws(draws[k])
      requires |poopIds| >= |birds| + 15 && |poopRolls| >= |birds| + 15 && |rolls| >= |birds| + 15
      modifies this`limbs, this`poops, this`birds, set b | b in birds
      ensures detectionActive <==> limbs != map[]
      ensures left.Some? ==> LEFT in limbs && limbs[LEFT].missingFrames == 0
      ensures right.Some? ==> RIGHT in limbs && limbs[RIGHT].missingFrames == 0
      ensures face.Some? ==> HEAD in limbs && limbs[HEAD].missingFrames == 0
      ensures forall l :: l in limbs ==> limbs[l].missingFrames < 30
      ensures Distinct(birds) && forall i :: 0 <= i < |birds| ==> OnScreen(birds[i], width, height)
    {
      var active := ProcessLimbs(left, right, face, width, height, now, sqrt, draws);
      label processed:
      var contours := AgeLimbs(active);
      detectionActive := |limbs| > 0;
      if left.Some? {
        SeenLimbIsKept(old@processed(limbs), active, LEFT);
      }
      if right.Some? {
        SeenLimbIsKept(old@processed(limbs), active, RIGHT);
      }
      if face.Some? {
        SeenLimbIsKept(old@processed(limbs), active, HEAD);
      }
      CheckWipeInteraction(contours, sqrt);
      UpdateAndDrawBirds(contours, width, height, sqrt, sin, now, poopIds, poopRolls, rolls);
    }
  }
}
