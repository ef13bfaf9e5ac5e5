/**
 * The rest of the per-frame simulation of src/main.c: the global game state, InitPlayer,
 * UpdatePlayer, UpdateGameCamera and CheckGameOver.
 */
module Game {
  import opened Wrappers
  import opened Config
  import opened Geometry
  import opened Platforms
  import opened PoolSpec
  import opened Pool
  import opened Animations
  import opened Players

  datatype GameState = Menu | Playing | GameOver

  /** The part of raylib's Camera2D the game sets; rotation and zoom are not part of this model. */
  datatype Camera = Camera(offset: Vec2, target: Vec2)

  /**
   * The camera keeps the player a third of the screen below its centre but never looks
   * further down than 50 px past the start height's half-screen.
   */
  function CameraTargetY(playerY: real, startY: real): (y: real)
    ensures y <= startY - ScreenHeight / 2.0 + 50.0
    ensures y <= playerY - ScreenHeight / 3.0
    ensures y == playerY - ScreenHeight / 3.0 || y == startY - ScreenHeight / 2.0 + 50.0
  {
    var target := playerY - ScreenHeight / 3.0;
    if target > startY - ScreenHeight / 2.0 + 50.0 then startY - ScreenHeight / 2.0 + 50.0 else target
  }

  /** The player has dropped more than 50 px past the bottom edge of the view. */
  predicate FellOff(playerY: real, cameraTargetY: real) {
    playerY > cameraTargetY + ScreenHeight / 2.0 + 50.0
  }

  class Game {
    var gameState: GameState
    const player: Player
    const pool: PlatformPool
    var camera: Camera
    var score: int
    var highScore: int
    var gameSpeed: real
    var startYPosition: real

    ghost predicate Valid()
      reads this`score, this`highScore, player`currentPlatform
    {
      pool.Valid() && player.Valid() && score >= 0 && highScore >= 0
    }

    /** The state a run is in once started: animations set up and the speed in range. */
    ghost predicate Ready()
      reads this`score, this`highScore, this`gameSpeed, player`currentPlatform, player.idleAnim, player.walkAnim, player.jumpAnim
    {
      Valid() && player.AnimationsReady() && 1.0 <= gameSpeed <= 2.5
    }

    /** The zero-initialised globals before the menu starts a run. */
    constructor ()
      ensures Valid() && fresh(pool) && fresh(pool.slots) && fresh(player)
      ensures gameState == Menu && score == 0 && highScore == 0 && gameSpeed == 1.0 && startYPosition == 0.0
      ensures camera == Camera(Vec2(0.0, 0.0), Vec2(0.0, 0.0))
      ensures forall k :: 0 <= k < pool.slots.Length ==> !pool.slots[k].active
    {
      gameState := Menu;
      player := new Player();
      pool := new PlatformPool();
      camera := Camera(Vec2(0.0, 0.0), Vec2(0.0, 0.0));
      score, highScore := 0, 0;
      gameSpeed, startYPosition := 1.0, 0.0;
    }

    /** Places the player on the top of slot 0, at rest, and sets up its three animations. */
    method InitPlayer()
      requires Valid()
      modifies this`score, this`startYPosition, player, player.idleAnim, player.walkAnim, player.jumpAnim
      ensures Valid() && player.AnimationsReady()
      ensures var p := pool.slots[0];
        player.position == Vec2(CentreX(p), p.rect.y - 2.0) &&
        player.hitbox == Rect(CentreX(p) - PlayerHitboxWidth / 2.0, p.rect.y - 2.0 - PlayerHitboxHeight,
                              PlayerHitboxWidth, PlayerHitboxHeight)
      ensures player.velocity == Vec2(0.0, 0.0) && player.previousHitbox == player.hitbox
      ensures player.state == Idle && player.prevState == Idle && player.facingRight && player.onGround
      ensures player.currentPlatform == 0 && player.platformsHit == 0
      ensures player.idleAnim.frames == 5 && player.idleAnim.frameTime == 0.15
      ensures player.walkAnim.frames == 8 && player.walkAnim.frameTime == 0.1
      ensures player.jumpAnim.frames == 8 && player.jumpAnim.frameTime == 0.1
      ensures forall s :: player.AnimationFor(s).Clock() == FrameClock(0, 0.0)
      ensures score == 0 && startYPosition == player.hitbox.y
    {
      var initialPlatform := pool.slots[0];
      player.position := Vec2(CentreX(initialPlatform), initialPlatform.rect.y - 2.0);
      player.velocity := Vec2(0.0, 0.0);
      player.hitbox := Rect(player.position.x - PlayerHitboxWidth / 2.0, player.position.y - PlayerHitboxHeight,
                            PlayerHitboxWidth, PlayerHitboxHeight);
      player.previousHitbox := player.hitbox;
      player.state := Idle;
      player.prevState := Idle;
      player.facingRight := true;
      player.onGround := true;
      player.currentPlatform := 0;

      player.idleAnim.Setup(5, 0.15);
      player.walkAnim.Setup(8, 0.1);
      player.jumpAnim.Setup(8, 0.1);

      player.platformsHit := 0;
      score := 0;
      startYPosition := player.position.y - PlayerHitboxHeight;
    }

    /** The reset the menu performs when a run starts (the button hit-test is not part of this model). */
    method StartRun(rolls: seq<PlatformRoll>)
      requires Valid() && |rolls| == 7 && AllValid(rolls)
      modifies this, player, player.idleAnim, player.walkAnim, player.jumpAnim, pool.slots
      ensures Ready() && gameState == Playing && score == 0 && gameSpeed == 1.0
      ensures pool.slots[..] == InitLayout(old(pool.slots[..]), rolls)
      ensures player.position == Vec2(ScreenWidth / 2.0, ScreenHeight - 102.0)
      ensures player.velocity == Vec2(0.0, 0.0) && player.onGround && player.state == Idle && player.currentPlatform == 0
      ensures player.hitbox == Rect(384.0, 466.0, PlayerHitboxWidth, PlayerHitboxHeight) && player.previousHitbox == player.hitbox
      ensures player.facingRight && player.prevState == Idle && player.platformsHit == 0
      ensures player.idleAnim.frames == 5 && player.walkAnim.frames == 8 && player.jumpAnim.frames == 8
      ensures player.idleAnim.frameTime == 0.15 && player.walkAnim.frameTime == 0.1 && player.jumpAnim.frameTime == 0.1
      ensures forall s :: player.AnimationFor(s).Clock() == FrameClock(0, 0.0)
      ensures startYPosition == ScreenHeight - 134.0
      ensures camera == old(camera) && highScore == old(highScore)
    {
      gameState := Playing;
      pool.InitPlatforms(rolls);
      InitLayoutShape(old(pool.slots[..]), rolls);
      assert pool.slots[0].rect == Rect(300.0, 500.0, 200.0, PlatformHeight);
      InitPlayer();
      score := 0;
      gameSpeed := 1.0;
    }

    /**
     * One frame of player physics: horizontal input, a jump from the ground (which requests
     * a platform above the current one), gravity, integration, the landing scan, the state,
     * its animation, the score and the speed.
     */
    method UpdatePlayer(moveLeft: bool, moveRight: bool, jumpPressed: bool, frameTime: real, roll: PlatformRoll)
      requires Ready() && frameTime >= 0.0 && roll.Valid()
      modifies this`score, this`gameSpeed, player, player.idleAnim, player.walkAnim, player.jumpAnim, pool.slots
      ensures Ready()
      ensures var current := old(pool.slots[player.currentPlatform]);
        pool.slots[..] ==
          if jumpPressed && old(player.onGround) then Generated(old(pool.slots[..]), CentreX(current), current.rect.y, roll)
          else old(pool.slots[..])
      ensures player.previousHitbox == old(player.hitbox) && player.prevState == old(player.state)
      ensures player.facingRight == Facing(moveLeft, moveRight, old(player.facingRight))
      ensures player.CurrentMotion()
           == Fallen(Launched(old(player.CurrentMotion()), moveLeft, moveRight, jumpPressed, old(gameSpeed)),
                     pool.slots[..], old(player.hitbox).Bottom(), frameTime, old(gameSpeed))
      ensures player.state == DeriveState(player.onGround, moveLeft || moveRight)
      ensures var a := player.AnimationFor(player.state);
        a.frames == old(a.frames) && a.frameTime == old(a.frameTime) &&
        a.Clock() == Advance(old(a.Clock()), a.frames, a.frameTime, frameTime * old(gameSpeed), player.state != player.prevState)
      ensures player.state != Idle ==> unchanged(player.idleAnim)
      ensures player.state != Walking ==> unchanged(player.walkAnim)
      ensures player.state != Jumping ==> unchanged(player.jumpAnim)
      ensures player.platformsHit == old(player.platformsHit)
      ensures score == RaisedScore(old(score), startYPosition - player.hitbox.y) && score >= old(score)
      ensures gameSpeed == SpeedFor(score)
    {
      var deltaTime := frameTime * gameSpeed;
      Move(moveLeft, moveRight, jumpPressed, frameTime, roll);
      FinishStep(moveLeft || moveRight, deltaTime);
    }

    /** The movement part of UpdatePlayer: the input and jump, then gravity, the move and the landing scan. */
    method Move(moveLeft: bool, moveRight: bool, jumpPressed: bool, frameTime: real, roll: PlatformRoll)
      requires Valid() && roll.Valid()
      modifies player`previousHitbox, player`prevState, player`velocity, player`facingRight, player`onGround,
        player`state, player`position, player`hitbox, player`currentPlatform, pool.slots
      ensures Valid()
      ensures var current := old(pool.slots[player.currentPlatform]);
        pool.slots[..] ==
          if jumpPressed && old(player.onGround) then Generated(old(pool.slots[..]), CentreX(current), current.rect.y, roll)
          else old(pool.slots[..])
      ensures player.previousHitbox == old(player.hitbox) && player.prevState == old(player.state)
      ensures player.facingRight == Facing(moveLeft, moveRight, old(player.facingRight))
      ensures player.CurrentMotion()
           == Fallen(Launched(old(player.CurrentMotion()), moveLeft, moveRight, jumpPressed, gameSpeed),
                     pool.slots[..], old(player.hitbox).Bottom(), frameTime, gameSpeed)
    {
      ReadInput(moveLeft, moveRight, jumpPressed, roll);
      Fall(frameTime);
    }

    /** The first part of UpdatePlayer: remember the last frame, read the keys, and jump from the ground. */
    method ReadInput(moveLeft: bool, moveRight: bool, jumpPressed: bool, roll: PlatformRoll)
      requires Valid() && roll.Valid()
      modifies player`previousHitbox, player`prevState, player`velocity, player`facingRight, player`onGround,
        player`state, pool.slots
      ensures Valid()
      ensures player.previousHitbox == old(player.hitbox) && player.prevState == old(player.state)
      ensures player.CurrentMotion() == Launched(old(player.CurrentMotion()), moveLeft, moveRight, jumpPressed, gameSpeed)
      ensures player.facingRight == Facing(moveLeft, moveRight, old(player.facingRight))
      ensures player.state == if jumpPressed && old(player.onGround) then Jumping else old(player.state)
      ensures var current := old(pool.slots[player.currentPlatform]);
        pool.slots[..] ==
          if jumpPressed && old(player.onGround) then Generated(old(pool.slots[..]), CentreX(current), current.rect.y, roll)
          else old(pool.slots[..])
    {
      player.previousHitbox := player.hitbox;
      player.prevState := player.state;
      player.ApplyInput(moveLeft, moveRight, gameSpeed);
      if jumpPressed && player.onGround {
        player.velocity := player.velocity.(y := JumpForce);
        player.onGround := false;
        player.state := Jumping;
        var current := pool.slots[player.currentPlatform];
        pool.GeneratePlatform(CentreX(current), current.rect.y, roll);
      }
    }

    /** Gravity, the move and the landing scan: the part of UpdatePlayer after the input. */
    method Fall(frameTime: real)
      requires Valid()
      modifies player`velocity, player`position, player`hitbox, player`onGround, player`currentPlatform
      ensures Valid()
      ensures player.CurrentMotion()
           == Fallen(old(player.CurrentMotion()), pool.slots[..], player.previousHitbox.Bottom(), frameTime, gameSpeed)
    {
      player.Integrate(frameTime, gameSpeed);
      LandingScan();
    }

    /**
     * The landing scan of UpdatePlayer: only while not moving up, the first slot that catches
     * the feet band stops the fall on its top.
     */
    method LandingScan()
      requires Valid()
      modifies player`position, player`velocity, player`onGround, player`currentPlatform
      ensures Valid()
      ensures var landing := if old(player.velocity.y) >= 0.0
                             then FirstLanding(pool.slots[..], Feet(player.hitbox), player.previousHitbox.Bottom())
                             else None;
        (landing.Some? ==>
          landing.value < pool.slots.Length && player.onGround && player.currentPlatform == landing.value &&
          player.position == old(player.position).(y := pool.slots[landing.value].rect.y) &&
          player.velocity == old(player.velocity).(y := 0.0)) &&
        (landing.None? ==>
          !player.onGround && player.currentPlatform == old(player.currentPlatform) &&
          player.position == old(player.position) && player.velocity == old(player.velocity))
    {
      player.onGround := false;
      if player.velocity.y >= 0.0 {
        var landing := pool.FindLanding(Feet(player.hitbox), player.previousHitbox.Bottom());
        if landing.Some? {
          player.LandOn(landing.value, pool.slots[landing.value].rect.y);
        }
      }
    }

    /** The end of UpdatePlayer: the new state and its animation, then the score and the speed. */
    method FinishStep(moving: bool, deltaTime: real)
      requires Ready()
      modifies this`score, this`gameSpeed, player`state, player.idleAnim, player.walkAnim, player.jumpAnim
      ensures Ready()
      ensures player.state == DeriveState(player.onGround, moving)
      ensures var a := player.AnimationFor(player.state);
        a.frames == old(a.frames) && a.frameTime == old(a.frameTime) &&
        a.Clock() == Advance(old(a.Clock()), a.frames, a.frameTime, deltaTime, player.state != player.prevState)
      ensures player.state != Idle ==> unchanged(player.idleAnim)
      ensures player.state != Walking ==> unchanged(player.walkAnim)
      ensures player.state != Jumping ==> unchanged(player.jumpAnim)
      ensures score == RaisedScore(old(score), startYPosition - player.hitbox.y)
      ensures gameSpeed == SpeedFor(score)
    {
      player.state := DeriveState(player.onGround, moving);
      player.AnimateState(deltaTime);
      UpdateScore();
    }

    /** Raises the score to the height climbed above the start and derives the speed from it. */
    method UpdateScore()
      requires Valid()
      modifies this`score, this`gameSpeed
      ensures Valid()
      ensures score == RaisedScore(old(score), startYPosition - player.hitbox.y) && score >= old(score)
      ensures gameSpeed == SpeedFor(score) && 1.0 <= gameSpeed <= 2.5
    {
      var heightDifference := startYPosition - player.hitbox.y;
      score := RaisedScore(score, heightDifference);
      gameSpeed := SpeedFor(score);
    }

    /** The per-frame pool update, against the camera as UpdateGameCamera last left it. */
    method UpdatePlatforms(rolls: seq<PlatformRoll>)
      requires Valid() && |rolls| == 5 && AllValid(rolls)
      modifies pool.slots
      ensures Valid()
      ensures pool.slots[..] == UpdatedPool(old(pool.slots[..]), camera.target.y, rolls)
    {
      pool.UpdatePlatforms(camera.target.y, rolls);
    }

    /** Follows the player, clamped so the view never drops below the start. */
    method UpdateGameCamera()
      requires Valid()
      modifies this`camera
      ensures camera == Camera(Vec2(ScreenWidth / 2.0, ScreenHeight / 2.0),
                               Vec2(player.position.x, CameraTargetY(player.position.y, startYPosition)))
    {
      camera := camera.(target := Vec2(player.position.x, player.position.y - ScreenHeight / 3.0));
      if camera.target.y > startYPosition - ScreenHeight / 2.0 + 50.0 {
        camera := camera.(target := camera.target.(y := startYPosition - ScreenHeight / 2.0 + 50.0));
      }
      camera := camera.(offset := Vec2(ScreenWidth / 2.0, ScreenHeight / 2.0));
    }

    /** Ends the run once the player falls off the bottom, keeping the best score. */
    method CheckGameOver()
      requires Valid()
      modifies this`gameState, this`highScore
      ensures Valid()
      ensures FellOff(player.position.y, camera.target.y) ==>
        gameState == GameOver && highScore == (if score > old(highScore) then score else old(highScore))
      ensures !FellOff(player.position.y, camera.target.y) ==>
        gameState == old(gameState) && highScore == old(highScore)
      ensures highScore >= old(highScore)
    {
      if player.position.y > camera.target.y + ScreenHeight / 2.0 + 50.0 {
        gameState := GameOver;
        if score > highScore {
          highScore := score;
        }
      }
    }
  }
}
