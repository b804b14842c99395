/** Shared entity shapes, threshold constants and small numeric helpers of the bird toy. */
module Types {

  datatype Option<+T> = None | Some(value: T)

  /** A screen point, in pixels (or in screen fractions for normalised positions). */
  datatype Point = Point(x: real, y: real)

  /** Lifecycle of a creature. SPAWNING is declared by the program but never entered. */
  datatype CreatureState = Spawning | FlyingIn | Perched | FlyingAway

  /** What a perched bird is doing between flights. */
  datatype IdleAction = Idle | Peck | Hop | LookBack | Fluff

  /** The optional image layers of a user-authored bird. */
  datatype BirdAssets = BirdAssets(head: Option<string>, body: Option<string>, wings: Option<string>, legs: Option<string>)

  /** A user-authored bird profile; an empty id is the program's "falsy" id. */
  datatype CustomBirdConfig = CustomBirdConfig(id: string, name: string, assets: BirdAssets)

  /** A dropping stuck to a limb's contour at a fixed fraction `offset` along it. */
  datatype Poop = Poop(id: string, targetId: string, offset: real, scale: real, rotation: real, seed: real, scatterOffset: real)

  const PI: real := 3.141592653589793

  // Movement thresholds, in screen fractions per 16 ms frame.
  const STILLNESS_THRESHOLD: real := 0.01
  const STILLNESS_DURATION_MS: real := 2000.0
  const SHAKE_THRESHOLD: real := 0.06
  const CLEAN_THRESHOLD: real := 0.15

  // Limb labels used as map keys and as bird targets.
  const LEFT: string := "Left"
  const RIGHT: string := "Right"
  const HEAD: string := "Head"

  /** The three labels are different keys. */
  lemma LabelsDistinct()
    ensures LEFT != RIGHT && LEFT != HEAD && RIGHT != HEAD
  {
    assert LEFT[0] != HEAD[0];
  }

  /** A Math.random() draw. */
  predicate IsRoll(r: real) {
    0.0 <= r < 1.0
  }

  /** `Math.floor(roll * n)` picks one of `n` choices. */
  lemma PickInRange(roll: real, n: nat)
    requires IsRoll(roll) && n > 0
    ensures 0 <= (roll * n as real).Floor < n
  {
    assert roll * n as real < n as real;
  }

  function Abs(v: real): (r: real)
    ensures r >= 0.0 && (r == v || r == -v)
  {
    if v < 0.0 then -v else v
  }

  function Min(a: real, b: real): (r: real)
    ensures r <= a && r <= b && (r == a || r == b)
  {
    if a <= b then a else b
  }

  function Max(a: real, b: real): (r: real)
    ensures r >= a && r >= b && (r == a || r == b)
  {
    if a >= b then a else b
  }

  /** `Math.max(lo, Math.min(hi, v))`: the nearest point of [lo, hi] to `v`. */
  function Clamp(v: real, lo: real, hi: real): (r: real)
    requires lo <= hi
    ensures lo <= r <= hi
    ensures lo <= v <= hi ==> r == v
    ensures v < lo ==> r == lo
    ensures v > hi ==> r == hi
  {
    Max(lo, Min(hi, v))
  }
}
