/** The Animation struct and UpdateAnimation, which advances it through a pointer. */
module Animations {
  function Abs(n: int): int { if n < 0 then -n else n }

  /** C's `%`: the remainder of division truncated toward zero, with the sign of the dividend. */
  function CRem(a: int, b: int): (r: int)
    requires b != 0
    ensures a >= 0 ==> 0 <= r < Abs(b)
    ensures a < 0 ==> -Abs(b) < r <= 0
    ensures (a - r) % Abs(b) == 0
  {
    var m := Abs(b);
    if a >= 0 then
      assert a - a % m == (a / m) * m;
      ModUnique(a - a % m, m, a / m, 0);
      a % m
    else
      assert -a == ((-a) / m) * m + (-a) % m;
      assert a + (-a) % m == (-((-a) / m)) * m;
      ModUnique(a + (-a) % m, m, -((-a) / m), 0);
      -((-a) % m)
  }

  /** `(currentFrame + 1) % frames`. */
  function NextFrame(frame: int, frames: int): (r: int)
    requires frames != 0
    ensures 0 <= frame < frames ==> 0 <= r < frames
    ensures 0 <= frame < frames ==> r == if frame + 1 == frames then 0 else frame + 1
  {
    CRem(frame + 1, frames)
  }

  /** The frame reached from `frame` after n advances. */
  function FrameAfter(frame: int, frames: int, n: nat): int
    requires frames != 0
  {
    if n == 0 then frame else NextFrame(FrameAfter(frame, frames, n - 1), frames)
  }

  /** Division with remainder is unique: x = q * m + r with 0 <= r < m fixes x % m. */
  lemma ModUnique(x: int, m: int, q: int, r: int)
    requires m > 0 && 0 <= r < m && x == q * m + r
    ensures x % m == r
  {
    var q', r' := x / m, x % m;
    var d := q - q';
    assert d * m == r' - r;
  }

  lemma ModStep(a: int, frames: int)
    requires a >= 0 && frames > 0
    ensures (a + 1) % frames == if a % frames + 1 == frames then 0 else a % frames + 1
  {
    var q, r := a / frames, a % frames;
    assert a == q * frames + r;
    if r + 1 == frames {
      ModUnique(a + 1, frames, q + 1, 0);
    } else {
      ModUnique(a + 1, frames, q, r + 1);
    }
  }

  /** Frames cycle: n advances from a frame in range land on (frame + n) mod frames. */
  lemma {:induction false} FrameAfterWraps(frame: int, frames: int, n: nat)
    requires 0 <= frame < frames
    ensures FrameAfter(frame, frames, n) == (frame + n) % frames
  {
    if n > 0 {
      FrameAfterWraps(frame, frames, n - 1);
      ModStep(frame + n - 1, frames);
    }
  }

  /** The two fields UpdateAnimation changes: the current frame and the time spent on it. */
  datatype FrameClock = FrameClock(frame: int, elapsed: real)

  /**
   * One UpdateAnimation call: a reset rewinds to frame 0; otherwise the time accumulates
   * and, once it reaches frameTime, the frame advances by one (wrapping) and the time restarts.
   */
  function Advance(c: FrameClock, frames: int, frameTime: real, deltaTime: real, reset: bool): (r: FrameClock)
    requires reset || frames != 0
    ensures reset ==> r == FrameClock(0, 0.0)
    ensures !reset ==> (r.elapsed == 0.0 <==> c.elapsed + deltaTime >= frameTime || c.elapsed + deltaTime == 0.0)
    ensures !reset && c.elapsed + deltaTime >= frameTime ==> r.frame == NextFrame(c.frame, frames)
    ensures !reset && c.elapsed + deltaTime < frameTime ==> r == FrameClock(c.frame, c.elapsed + deltaTime)
    ensures !reset && 0 <= c.frame < frames ==> 0 <= r.frame < frames
  {
    if reset then FrameClock(0, 0.0)
    else
      var elapsed := c.elapsed + deltaTime;
      if elapsed >= frameTime then FrameClock(CRem(c.frame + 1, frames), 0.0)
      else FrameClock(c.frame, elapsed)
  }

  class Animation {
    var frames: int
    var currentFrame: int
    var frameTime: real
    var elapsedTime: real

    /** A zero-initialised struct, as in the global `player` before InitPlayer. */
    constructor ()
      ensures frames == 0 && currentFrame == 0 && frameTime == 0.0 && elapsedTime == 0.0
    {
      frames, currentFrame, frameTime, elapsedTime := 0, 0, 0.0, 0.0;
    }

    ghost predicate Valid()
      reads this
    {
      0 < frames && 0 <= currentFrame < frames
    }

    function Clock(): FrameClock
      reads this
    {
      FrameClock(currentFrame, elapsedTime)
    }

    /** The set-up InitPlayer gives each animation: a frame count, a frame duration, rewound. */
    method Setup(frameCount: int, duration: real)
      modifies this
      ensures frames == frameCount && frameTime == duration
      ensures Clock() == FrameClock(0, 0.0)
      ensures 0 < frameCount ==> Valid()
    {
      frames, frameTime := frameCount, duration;
      currentFrame, elapsedTime := 0, 0.0;
    }

    method UpdateAnimation(deltaTime: real, reset: bool)
      requires reset || frames != 0
      modifies this
      ensures frames == old(frames) && frameTime == old(frameTime)
      ensures Clock() == Advance(old(Clock()), frames, frameTime, deltaTime, reset)
      ensures old(Valid()) ==> Valid()
    {
      if reset {
        currentFrame := 0;
        elapsedTime := 0.0;
        return;
      }
      elapsedTime := elapsedTime + deltaTime;
      if elapsedTime >= frameTime {
        currentFrame := CRem(currentFrame + 1, frames);
        elapsedTime := 0.0;
      }
    }
  }
}
