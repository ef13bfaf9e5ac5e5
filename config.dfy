/** The compile-time constants of src/main.c (its #define block). */
module Config {
  const ScreenWidth: real := 800.0
  const ScreenHeight: real := 600.0
  const Gravity: real := 980.0
  const JumpForce: real := -450.0
  const PlayerSpeed: real := 200.0
  const MaxPlatforms: nat := 22
  const PlatformMinGap: int := 50
  const PlatformMaxGap: int := 100
  const MaxHorizontalGap: int := 160
  const PlayerHitboxWidth: real := 32.0
  const PlayerHitboxHeight: real := 32.0
  const MaxFallSpeed: real := 800.0
  const PlatformHeight: real := 32.0

  /** Platforms whose centre would leave this band are pulled back into it. */
  const MinCentreX: real := 50.0
  const MaxCentreX: real := ScreenWidth - 50.0

  /** Vertical distance between successive refill requests (PLATFORM_MAX_GAP + PLATFORM_HEIGHT). */
  const RefillStep: real := PlatformMaxGap as real + PlatformHeight
}
