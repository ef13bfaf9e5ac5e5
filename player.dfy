/** The Player struct and the pure pieces of UpdatePlayer: input, gravity, state, score and speed. */
module Players {
  import opened Wrappers
  import opened Config
  import opened Geometry
  import opened Platforms
  import opened PoolSpec
  import opened Animations

  datatype PlayerState = Idle | Walking | Jumping

  /** The state chosen after the landing scan: airborne wins over moving, moving over standing. */
  function DeriveState(onGround: bool, moving: bool): (s: PlayerState)
    ensures s == Jumping <==> !onGround
    ensures s == Walking <==> onGround && moving
    ensures s == Idle <==> onGround && !moving
  {
    if !onGround then Jumping else if moving then Walking else Idle
  }

  /** Left beats right when both are held; no key stops the player. */
  function HorizontalVelocity(left: bool, right: bool, gameSpeed: real): (vx: real)
    ensures !left && !right ==> vx == 0.0
    ensures left || right ==> vx == (if left then -PlayerSpeed else PlayerSpeed) * gameSpeed
  {
    if left then -PlayerSpeed * gameSpeed
    else if right then PlayerSpeed * gameSpeed
    else 0.0
  }

  function Facing(left: bool, right: bool, facingRight: bool): (r: bool)
    ensures left ==> !r
    ensures !left && right ==> r
    ensures !left && !right ==> r == facingRight
  {
    if left then false else if right then true else facingRight
  }

  /** Gravity for one frame, capped at the terminal fall speed. */
  function FallVelocity(vy: real, frameTime: real, gameSpeed: real): (r: real)
    ensures r <= MaxFallSpeed
    ensures r <= vy + Gravity * frameTime * gameSpeed
    ensures r == MaxFallSpeed || r == vy + Gravity * frameTime * gameSpeed
    ensures frameTime >= 0.0 && gameSpeed >= 0.0 && vy <= MaxFallSpeed ==> r >= vy
  {
    var v := vy + Gravity * frameTime * gameSpeed;
    if v > MaxFallSpeed then MaxFallSpeed else v
  }

  /** C's float-to-int conversion: truncation toward zero. */
  function Trunc(x: real): (n: int)
    ensures x >= 0.0 ==> n as real <= x < n as real + 1.0
    ensures x < 0.0 ==> n as real - 1.0 < x <= n as real
  {
    if x >= 0.0 then x.Floor else -((-x).Floor)
  }

  /**
   * The running-maximum score update: the score becomes the whole part of the height
   * climbed when that height exceeds it, and never decreases.
   */
  function RaisedScore(score: int, heightDifference: real): (r: int)
    ensures r >= score
    ensures heightDifference <= score as real ==> r == score
    ensures score >= 0 && heightDifference > score as real ==> r as real <= heightDifference < r as real + 1.0
  {
    if heightDifference > score as real then Trunc(heightDifference) else score
  }

  /** `1 + score * 0.0005`, capped at 2.5. */
  function SpeedFor(score: int): (r: real)
    ensures r <= 2.5
    ensures r <= 1.0 + score as real * 0.0005
    ensures score >= 0 ==> 1.0 <= r
    ensures r == 2.5 || r == 1.0 + score as real * 0.0005
    ensures r < 2.5 ==> r == 1.0 + score as real * 0.0005
  {
    var speed := 1.0 + score as real * 0.0005;
    if speed > 2.5 then 2.5 else speed
  }

  /** The fields of `player` that the movement part of a frame changes. */
  datatype Motion = Motion(position: Vec2, velocity: Vec2, hitbox: Rect, onGround: bool, currentPlatform: int)

  /**
   * The input step: the keys set the horizontal speed; a jump from the ground sets the
   * upward speed to the jump force and leaves the ground. Nothing else moves.
   */
  function Launched(m: Motion, left: bool, right: bool, jumpPressed: bool, gameSpeed: real): (r: Motion)
    ensures r.position == m.position && r.hitbox == m.hitbox && r.currentPlatform == m.currentPlatform
    ensures r.velocity.x == HorizontalVelocity(left, right, gameSpeed)
    ensures jumpPressed && m.onGround ==> r.velocity.y == JumpForce && !r.onGround
    ensures !(jumpPressed && m.onGround) ==> r.velocity.y == m.velocity.y && r.onGround == m.onGround
  {
    var jump := jumpPressed && m.onGround;
    m.(velocity := Vec2(HorizontalVelocity(left, right, gameSpeed), if jump then JumpForce else m.velocity.y),
       onGround := m.onGround && !jump)
  }

  /**
   * Gravity, the move and the landing scan. The player ends on the ground exactly when it
   * is not moving up and some slot catches its feet; it then stands on the lowest such
   * slot, its feet at that slot's top and its fall stopped. Otherwise it is airborne with
   * the capped fall speed. Landing moves the feet but not the hitbox.
   */
  function Fallen(m: Motion, slots: seq<Platform>, previousBottom: real, frameTime: real, gameSpeed: real): (r: Motion)
    ensures r.velocity.x == m.velocity.x && r.position.x == m.position.x + m.velocity.x * frameTime
    ensures r.hitbox == m.hitbox.(x := r.position.x - PlayerHitboxWidth / 2.0,
                                  y := m.position.y + FallVelocity(m.velocity.y, frameTime, gameSpeed) * frameTime - PlayerHitboxHeight)
    ensures r.onGround <==>
      FallVelocity(m.velocity.y, frameTime, gameSpeed) >= 0.0 &&
      exists k :: 0 <= k < |slots| && LandsOn(slots[k], Feet(r.hitbox), previousBottom)
    ensures r.onGround ==>
      0 <= r.currentPlatform < |slots| && LandsOn(slots[r.currentPlatform], Feet(r.hitbox), previousBottom) &&
      (forall k :: 0 <= k < r.currentPlatform ==> !LandsOn(slots[k], Feet(r.hitbox), previousBottom)) &&
      r.position.y == slots[r.currentPlatform].rect.y && r.velocity.y == 0.0
    ensures !r.onGround ==>
      r.currentPlatform == m.currentPlatform && r.velocity.y == FallVelocity(m.velocity.y, frameTime, gameSpeed) &&
      r.position.y == m.position.y + r.velocity.y * frameTime
  {
    var vy := FallVelocity(m.velocity.y, frameTime, gameSpeed);
    var position := Vec2(m.position.x + m.velocity.x * frameTime, m.position.y + vy * frameTime);
    var hitbox := m.hitbox.(x := position.x - PlayerHitboxWidth / 2.0, y := position.y - PlayerHitboxHeight);
    LandingIsFirstQualifying(slots, Feet(hitbox), previousBottom);
    var landing := if vy >= 0.0 then FirstLanding(slots, Feet(hitbox), previousBottom) else None;
    match landing
    case None => Motion(position, Vec2(m.velocity.x, vy), hitbox, false, m.currentPlatform)
    case Some(i) => Motion(position.(y := slots[i].rect.y), Vec2(m.velocity.x, 0.0), hitbox, true, i)
  }

  class Player {
    var position: Vec2
    var velocity: Vec2
    var hitbox: Rect
    var previousHitbox: Rect
    var state: PlayerState
    var prevState: PlayerState
    var facingRight: bool
    var onGround: bool
    var currentPlatform: int
    var platformsHit: int
    const idleAnim: Animation
    const walkAnim: Animation
    const jumpAnim: Animation

    /** The zero-initialised global `player`. */
    constructor ()
      ensures fresh(idleAnim) && fresh(walkAnim) && fresh(jumpAnim)
      ensures Valid()
      ensures position == Vec2(0.0, 0.0) && velocity == Vec2(0.0, 0.0)
      ensures hitbox == Rect(0.0, 0.0, 0.0, 0.0) && previousHitbox == hitbox
      ensures state == Idle && prevState == Idle && !facingRight && !onGround
      ensures currentPlatform == 0 && platformsHit == 0
      ensures idleAnim.frames == 0 && walkAnim.frames == 0 && jumpAnim.frames == 0
    {
      position, velocity := Vec2(0.0, 0.0), Vec2(0.0, 0.0);
      hitbox := Rect(0.0, 0.0, 0.0, 0.0);
      previousHitbox := Rect(0.0, 0.0, 0.0, 0.0);
      state, prevState := Idle, Idle;
      facingRight, onGround := false, false;
      currentPlatform, platformsHit := 0, 0;
      idleAnim := new Animation();
      walkAnim := new Animation();
      jumpAnim := new Animation();
    }

    /** The movement fields as one value. */
    function CurrentMotion(): Motion
      reads this`position, this`velocity, this`hitbox, this`onGround, this`currentPlatform
    {
      Motion(position, velocity, hitbox, onGround, currentPlatform)
    }

    /** The animation UpdatePlayer drives in a given state. */
    function AnimationFor(s: PlayerState): Animation {
      match s
      case Idle => idleAnim
      case Walking => walkAnim
      case Jumping => jumpAnim
    }

    /** The key handling of UpdatePlayer: A/LEFT moves left, else D/RIGHT moves right, else the player stops. */
    method ApplyInput(left: bool, right: bool, gameSpeed: real)
      modifies this`velocity, this`facingRight
      ensures velocity == old(velocity).(x := HorizontalVelocity(left, right, gameSpeed))
      ensures facingRight == Facing(left, right, old(facingRight))
    {
      if left {
        velocity := velocity.(x := -PlayerSpeed * gameSpeed);
        facingRight := false;
      } else if right {
        velocity := velocity.(x := PlayerSpeed * gameSpeed);
        facingRight := true;
      } else {
        velocity := velocity.(x := 0.0);
      }
    }

    /** Gravity, the fall-speed cap, position integration and the hitbox anchored at the feet. */
    method Integrate(frameTime: real, gameSpeed: real)
      modifies this`velocity, this`position, this`hitbox
      ensures velocity == old(velocity).(y := FallVelocity(old(velocity.y), frameTime, gameSpeed))
      ensures position == Vec2(old(position.x) + velocity.x * frameTime, old(position.y) + velocity.y * frameTime)
      ensures hitbox == old(hitbox).(x := position.x - PlayerHitboxWidth / 2.0, y := position.y - PlayerHitboxHeight)
    {
      velocity := velocity.(y := velocity.y + Gravity * frameTime * gameSpeed);
      if velocity.y > MaxFallSpeed {
        velocity := velocity.(y := MaxFallSpeed);
      }
      position := Vec2(position.x + velocity.x * frameTime, position.y + velocity.y * frameTime);
      hitbox := hitbox.(x := position.x - PlayerHitboxWidth / 2.0, y := position.y - PlayerHitboxHeight);
    }

    /** Standing on slot i, whose top is at y: the feet snap to it (the hitbox is not moved). */
    method LandOn(i: int, y: real)
      modifies this`position, this`velocity, this`onGround, this`currentPlatform
      ensures position == old(position).(y := y) && velocity == old(velocity).(y := 0.0)
      ensures onGround && currentPlatform == i
    {
      position := position.(y := y);
      velocity := velocity.(y := 0.0);
      onGround := true;
      currentPlatform := i;
    }

    /** The switch at the end of UpdatePlayer: advances the current state's animation, rewinding it on a state change. */
    method AnimateState(deltaTime: real)
      requires Valid() && AnimationsReady()
      modifies AnimationFor(state)
      ensures AnimationsReady()
      ensures AnimationFor(state).frames == old(AnimationFor(state).frames)
      ensures AnimationFor(state).frameTime == old(AnimationFor(state).frameTime)
      ensures AnimationFor(state).Clock() == Advance(old(AnimationFor(state).Clock()), AnimationFor(state).frames,
                                                     AnimationFor(state).frameTime, deltaTime, state != prevState)
    {
      var resetAnimation := prevState != state;
      match state
      case Idle => idleAnim.UpdateAnimation(deltaTime, resetAnimation);
      case Walking => walkAnim.UpdateAnimation(deltaTime, resetAnimation);
      case Jumping => jumpAnim.UpdateAnimation(deltaTime, resetAnimation);
    }

    ghost predicate Valid()
      reads this`currentPlatform
    {
      idleAnim != walkAnim && idleAnim != jumpAnim && walkAnim != jumpAnim &&
      0 <= currentPlatform < MaxPlatforms
    }

    /** All three animations have been set up by InitPlayer. */
    ghost predicate AnimationsReady()
      reads idleAnim, walkAnim, jumpAnim
    {
      idleAnim.Valid() && walkAnim.Valid() && jumpAnim.Valid()
    }
  }
}
