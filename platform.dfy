/** The Platform record and how one platform is built from a reference point. */
module Platforms {
  import opened Config
  import opened Geometry

  /** The three cosmetic variants (PLATFORM_TYPE_1..3); they do not affect physics. */
  datatype PlatformType = Type1 | Type2 | Type3

  function Ordinal(t: PlatformType): int {
    match t
    case Type1 => 0
    case Type2 => 1
    case Type3 => 2
  }

  /** The cast `(PlatformType)n` for a rolled n in [0, 2]. */
  function PlatformTypeOf(n: int): (t: PlatformType)
    requires 0 <= n <= 2
    ensures Ordinal(t) == n
  {
    if n == 0 then Type1 else if n == 1 then Type2 else Type3
  }

  datatype Platform = Platform(rect: Rect, kind: PlatformType, active: bool)

  /** A slot as the zero-initialised global array holds it before any run. */
  const ZeroPlatform := Platform(Rect(0.0, 0.0, 0.0, 0.0), Type1, false)

  /** Slot 0 of every run: centred horizontally, 100 px above the bottom of the screen. */
  const FirstPlatform := Platform(Rect(ScreenWidth / 2.0 - 100.0, ScreenHeight - 100.0, 200.0, PlatformHeight), Type1, true)

  function CentreX(p: Platform): real { p.rect.x + p.rect.width / 2.0 }

  /**
   * The four GetRandomValue results one platform consumes, in call order: the vertical gap,
   * the horizontal offset, the width and the type.
   */
  datatype PlatformRoll = PlatformRoll(gap: int, offsetX: int, width: int, kind: int)
  {
    predicate Valid() {
      PlatformMinGap <= gap <= PlatformMaxGap &&
      -MaxHorizontalGap <= offsetX <= MaxHorizontalGap &&
      80 <= width <= 180 &&
      0 <= kind <= 2
    }
  }

  predicate AllValid(rolls: seq<PlatformRoll>) {
    forall k :: 0 <= k < |rolls| ==> rolls[k].Valid()
  }

  /** The horizontal clamp of a platform centre to [50, SCREEN_WIDTH - 50]. */
  function ClampX(x: real): (r: real)
    ensures MinCentreX <= r <= MaxCentreX
    ensures MinCentreX <= x <= MaxCentreX ==> r == x
    ensures x < MinCentreX ==> r == MinCentreX
    ensures x > MaxCentreX ==> r == MaxCentreX
  {
    if x < MinCentreX then MinCentreX
    else if x > MaxCentreX then MaxCentreX
    else x
  }

  /**
   * The platform GeneratePlatform (and each step of InitPlatforms) builds from the
   * reference point (refX, refY): a gap above refY, its centre the offset reference
   * clamped to the screen, the rolled width and type.
   */
  function NewPlatform(refX: real, refY: real, roll: PlatformRoll): (p: Platform)
    requires roll.Valid()
    ensures p.active
    ensures p.rect.height == PlatformHeight
    ensures p.rect.width == roll.width as real && 80.0 <= p.rect.width <= 180.0
    ensures p.rect.y == refY - roll.gap as real
    ensures refY - PlatformMaxGap as real <= p.rect.y <= refY - PlatformMinGap as real
    ensures CentreX(p) == ClampX(refX + roll.offsetX as real)
    ensures MinCentreX <= CentreX(p) <= MaxCentreX
    ensures Ordinal(p.kind) == roll.kind
  {
    var newY := refY - roll.gap as real;
    var newX := ClampX(refX + roll.offsetX as real);
    var width := roll.width as real;
    Platform(Rect(newX - width / 2.0, newY, width, PlatformHeight), PlatformTypeOf(roll.kind), true)
  }
}
