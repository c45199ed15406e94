/** The player's bird: asymmetric gravity, the jump cut, drag, the velocity
    clamp, the velocity-driven rotation and the inset collision hitbox. */
module BirdPhysics {
  import opened Geometry

  const RiseGravity: real := 0.45
  const FallGravity: real := 0.8
  const Drag: real := 0.995
  const JumpCutFactor: real := 0.6
  const JumpPower: real := -10.0
  const MinVelocity: real := -12.0
  const MaxVelocity: real := 8.0
  const Size: real := 35.0
  const WingStep: real := 0.3
  const HitboxInset: real := 5.0
  const MinRotation: real := -20.0
  const MaxRotation: real := 90.0

  datatype Costume = Classic | Red | Blue | Rainbow | Golden | Green | Purple

  /** Every field of a bird. */
  datatype BirdState = BirdState(
    x: real, y: real, velocity: real, wingAnimation: real, rotationDeg: real, costume: Costume)

  /** A fresh bird at (x, y): at rest, wings and rotation at 0. */
  function Spawned(x: real, y: real, costume: Costume): BirdState
  {
    BirdState(x, y, 0.0, 0.0, 0.0, costume)
  }

  /** Gravity applied in one tick: the lighter rise gravity while moving up
      (negative velocity), the fall gravity otherwise, plus the jump-cut extra
      `FallGravity * (1 - JumpCutFactor)` when rising with the key released. */
  function Gravity(v: real, held: bool): real
  {
    var g := if v < 0.0 then RiseGravity else FallGravity;
    if v < 0.0 && !held then g + FallGravity * (1.0 - JumpCutFactor) else g
  }

  /** Velocity after one tick: gravity, then drag, then the clamp. */
  function NextVelocity(v: real, held: bool): (r: real)
    ensures MinVelocity <= r <= MaxVelocity
  {
    Clamp(MinVelocity, MaxVelocity, (v + Gravity(v, held)) * Drag)
  }

  /** The sprite's tilt: velocity mapped linearly from [-12, 8] onto [-20, 90]
      degrees, with the fraction clamped to [0, 1] first. */
  function Rotation(v: real): (r: real)
    ensures MinRotation <= r <= MaxRotation
    ensures v <= MinVelocity ==> r == MinRotation
    ensures v >= MaxVelocity ==> r == MaxRotation
  {
    var t := Clamp(0.0, 1.0, (v + 12.0) / (8.0 + 12.0));
    -20.0 + t * (90.0 + 20.0)
  }

  /** One tick of `Bird.Update`. */
  function Fly(b: BirdState, held: bool): (r: BirdState)
    ensures r.x == b.x && r.costume == b.costume
    ensures MinVelocity <= r.velocity <= MaxVelocity
    ensures MinRotation <= r.rotationDeg <= MaxRotation
    ensures r.y - b.y == r.velocity
  {
    var v := NextVelocity(b.velocity, held);
    b.(velocity := v, y := b.y + v, wingAnimation := b.wingAnimation + WingStep,
       rotationDeg := Rotation(v))
  }

  /** `Bird.Jump`: the velocity is set to the jump power and the wing animation
      restarts; position and rotation are untouched until the next tick. */
  function Flap(b: BirdState): (r: BirdState)
    ensures r.velocity < 0.0 && MinVelocity <= r.velocity <= MaxVelocity
    ensures r.x == b.x && r.y == b.y && r.rotationDeg == b.rotationDeg
  {
    b.(velocity := JumpPower, wingAnimation := 0.0)
  }

  /** `Bird.GetBounds`: the collision box, smaller than the sprite by 5 on each side. */
  function GetBounds(b: BirdState): (r: Rect)
    ensures Inset(r, Rect(b.x, b.y, Size, Size), HitboxInset)
    ensures r.w == r.h == Size - 2.0 * HitboxInset
  {
    Rect(b.x + 5.0, b.y + 5.0, Size - 10.0, Size - 10.0)
  }

  /** The velocity bound holds after any tick, whatever the velocity before it. */
  lemma VelocityBounded(b: BirdState, held: bool)
    ensures MinVelocity <= Fly(b, held).velocity <= MaxVelocity
    ensures Fly(b, held).rotationDeg == Rotation(Fly(b, held).velocity)
  {
  }

  /** The rotation map hits its documented reference points. */
  lemma RotationReferencePoints()
    ensures Rotation(MinVelocity) == -20.0
    ensures Rotation(MaxVelocity) == 90.0
    ensures Rotation(-2.0) == 35.0
  {
  }

  /** Rotation is non-decreasing in velocity: a faster fall never tilts the bird up. */
  lemma RotationMonotone(u: real, v: real)
    requires u <= v
    ensures Rotation(u) <= Rotation(v)
  {
    ClampMonotone(0.0, 1.0, (u + 12.0) / 20.0, (v + 12.0) / 20.0);
  }

  /** Releasing the key while rising never makes the next velocity smaller
      (more upward) than keeping it held; while falling the key has no effect. */
  lemma JumpCut(v: real)
    ensures NextVelocity(v, false) >= NextVelocity(v, true)
    ensures v < 0.0 && (v + Gravity(v, true)) * Drag > MinVelocity ==> NextVelocity(v, false) > NextVelocity(v, true)
    ensures v >= 0.0 ==> NextVelocity(v, false) == NextVelocity(v, true)
  {
    ClampMonotone(MinVelocity, MaxVelocity, (v + Gravity(v, true)) * Drag, (v + Gravity(v, false)) * Drag);
  }

  /** The physics is order-preserving: a bird moving down faster than another
      still moves down at least as fast one tick later. */
  lemma NextVelocityMonotone(u: real, v: real, held: bool)
    requires u <= v
    ensures NextVelocity(u, held) <= NextVelocity(v, held)
  {
    ClampMonotone(MinVelocity, MaxVelocity, (u + Gravity(u, held)) * Drag, (v + Gravity(v, held)) * Drag);
  }

  /** A bird falling at the cap stays at the cap: the clamp absorbs gravity. */
  lemma TerminalVelocity(held: bool)
    ensures NextVelocity(MaxVelocity, held) == MaxVelocity
  {
  }

  /** A bird tracks its state through the same fields the game reads and writes. */
  class Bird {
    var x: real
    var y: real
    var velocity: real
    var wingAnimation: real
    var rotationDeg: real
    var costume: Costume

    function State(): BirdState
      reads this
    {
      BirdState(x, y, velocity, wingAnimation, rotationDeg, costume)
    }

    /** `new Bird(x, y)` followed by setting the costume. */
    constructor (x0: real, y0: real, c: Costume)
      ensures State() == Spawned(x0, y0, c)
    {
      x, y, velocity := x0, y0, 0.0;
      wingAnimation, rotationDeg := 0.0, 0.0;
      costume := c;
    }

    method Update(held: bool)
      modifies this
      ensures State() == Fly(old(State()), held)
      ensures MinVelocity <= velocity <= MaxVelocity && MinRotation <= rotationDeg <= MaxRotation
    {
      var gravityToApply := if velocity < 0.0 then RiseGravity else FallGravity;
      if velocity < 0.0 && !held {
        gravityToApply := gravityToApply + FallGravity * (1.0 - JumpCutFactor);
      }
      velocity := velocity + gravityToApply;
      velocity := velocity * Drag;
      velocity := Max(MinVelocity, Min(velocity, MaxVelocity));
      y := y + velocity;
      wingAnimation := wingAnimation + WingStep;
      var t := (velocity + 12.0) / (8.0 + 12.0);
      t := Max(0.0, Min(1.0, t));
      rotationDeg := -20.0 + t * (90.0 + 20.0);
    }

    method Jump()
      modifies this
      ensures State() == Flap(old(State()))
    {
      velocity := JumpPower;
      wingAnimation := 0.0;
    }
  }
}
