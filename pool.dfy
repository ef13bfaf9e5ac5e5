/** The global `platforms[MAX_PLATFORMS]` array and the functions of src/main.c that work on it in place. */
module Pool {
  import opened Wrappers
  import opened Config
  import opened Geometry
  import opened Search
  import opened Platforms
  import opened PoolSpec

  class PlatformPool {
    const slots: array<Platform>

    ghost predicate Valid() {
      slots.Length == MaxPlatforms
    }

    /** The zero-initialised global array: every slot inactive. */
    constructor ()
      ensures Valid() && fresh(slots)
      ensures forall k :: 0 <= k < slots.Length ==> slots[k] == ZeroPlatform
    {
      slots := new Platform[MaxPlatforms](_ => ZeroPlatform);
    }

    /** Clears every flag, installs slot 0 and steps seven platforms upward from it. */
    method InitPlatforms(rolls: seq<PlatformRoll>)
      requires Valid() && |rolls| == 7 && AllValid(rolls)
      modifies slots
      ensures slots[..] == InitLayout(old(slots[..]), rolls)
    {
      for i := 0 to slots.Length
        invariant forall k :: 0 <= k < i ==> slots[k] == old(slots[k]).(active := false)
        invariant forall k :: i <= k < slots.Length ==> slots[k] == old(slots[k])
      {
        slots[i] := slots[i].(active := false);
      }
      slots[0] := FirstPlatform;
      var lastY := ScreenHeight - 100.0;
      var lastX := ScreenWidth / 2.0;
      for i := 1 to 8
        invariant slots[..i] == Chain(rolls[..i - 1])
        invariant lastX == CentreX(slots[i - 1]) && lastY == slots[i - 1].rect.y
        invariant forall k :: i <= k < slots.Length ==> slots[k] == old(slots[k]).(active := false)
      {
        var roll := rolls[i - 1];
        assert rolls[..i][..i - 1] == rolls[..i - 1];
        lastY := lastY - roll.gap as real;
        lastX := ClampX(lastX + roll.offsetX as real);
        var width := roll.width as real;
        slots[i] := Platform(Rect(lastX - width / 2.0, lastY, width, PlatformHeight), PlatformTypeOf(roll.kind), true);
        assert slots[i] == NewPlatform(CentreX(slots[i - 1]), slots[i - 1].rect.y, roll);
        assert slots[..i + 1] == slots[..i] + [slots[i]];
      }
      assert rolls[..7] == rolls;
      assert slots[8..] == Deactivated(old(slots[..])[8..]);
      assert slots[..] == slots[..8] + slots[8..];
    }

    /** First-fit: fills the lowest inactive slot from (refX, refY); a full pool is left as it is. */
    method GeneratePlatform(refX: real, refY: real, roll: PlatformRoll)
      requires Valid() && roll.Valid()
      modifies slots
      ensures slots[..] == Generated(old(slots[..]), refX, refY, roll)
    {
      ghost var m := InactiveMask(slots[..]);
      for i := 0 to slots.Length
        invariant FirstTrue(m, i) == FirstTrue(m, 0)
      {
        if !slots[i].active {
          var newY := refY - roll.gap as real;
          var newX := ClampX(refX + roll.offsetX as real);
          var width := roll.width as real;
          slots[i] := Platform(Rect(newX - width / 2.0, newY, width, PlatformHeight), PlatformTypeOf(roll.kind), true);
          return;
        }
      }
    }

    /** The landing loop of UpdatePlayer: the first slot that catches feet moving down from previousBottom. */
    method FindLanding(feet: Rect, previousBottom: real) returns (landing: Option<nat>)
      requires Valid()
      ensures landing == FirstLanding(slots[..], feet, previousBottom)
    {
      ghost var m := LandingMask(slots[..], feet, previousBottom);
      landing := None;
      for i := 0 to slots.Length
        invariant FirstTrue(m, i) == FirstTrue(m, 0)
      {
        if !slots[i].active {
          continue;
        }
        if CheckCollisionRecs(feet, slots[i].rect) {
          if previousBottom <= slots[i].rect.y + 1.0 {
            landing := Some(i);
            return;
          }
        }
      }
    }

    /** The highest (least y) top of an active slot, None when no slot is active. */
    method HighestActiveY() returns (highest: Option<real>)
      requires Valid()
      ensures highest == MinActiveY(slots[..])
    {
      highest := None;
      for i := 0 to slots.Length
        invariant highest == MinActiveY(slots[..i])
      {
        assert slots[..i + 1][..i] == slots[..i];
        if slots[i].active {
          if highest.None? || slots[i].rect.y < highest.value {
            highest := Some(slots[i].rect.y);
          }
        }
      }
      assert slots[..slots.Length] == slots[..];
    }

    /** The first active slot whose top is at y. */
    method FirstAtHeight(y: real) returns (found: Option<nat>)
      requires Valid()
      ensures found == FirstTrue(AtHeightMask(slots[..], y), 0)
    {
      ghost var m := AtHeightMask(slots[..], y);
      found := None;
      for i := 0 to slots.Length
        invariant FirstTrue(m, i) == FirstTrue(m, 0)
      {
        if slots[i].active && slots[i].rect.y == y {
          found := Some(i);
          return;
        }
      }
    }

    /** The despawn loop of UpdatePlatforms: deactivates every active slot whose top is below limit. */
    method DespawnBelow(limit: real)
      requires Valid()
      modifies slots
      ensures slots[..] == Despawned(old(slots[..]), limit)
    {
      for i := 0 to slots.Length
        invariant forall k :: 0 <= k < i ==> slots[k] == DespawnOne(old(slots[k]), limit)
        invariant forall k :: i <= k < slots.Length ==> slots[k] == old(slots[k])
      {
        if slots[i].active && slots[i].rect.y > limit {
          slots[i] := slots[i].(active := false);
        }
      }
    }

    /** The refill loop of UpdatePlatforms: one GeneratePlatform per roll, each RefillStep higher. */
    method RefillFrom(refX: real, baseY: real, rolls: seq<PlatformRoll>)
      requires Valid() && AllValid(rolls)
      modifies slots
      ensures slots[..] == Refill(old(slots[..]), refX, baseY, rolls)
    {
      ghost var s := slots[..];
      for j := 0 to |rolls|
        invariant slots[..] == Refill(s, refX, baseY, rolls[..j])
      {
        RefillUnfold(s, refX, baseY, rolls, j);
        GeneratePlatform(refX, baseY - j as real * RefillStep, rolls[j]);
      }
      assert rolls[..|rolls|] == rolls;
    }

    /**
     * Despawns slots below the camera's bottom limit, then, when the highest active platform
     * is missing or too low, requests five platforms stepping upward from it.
     */
    method UpdatePlatforms(cameraTargetY: real, rolls: seq<PlatformRoll>)
      requires Valid() && |rolls| == 5 && AllValid(rolls)
      modifies slots
      ensures slots[..] == UpdatedPool(old(slots[..]), cameraTargetY, rolls)
    {
      DespawnBelow(BottomLimit(cameraTargetY));
      ghost var d := slots[..];
      var highest := HighestActiveY();
      if NeedsRefill(highest, cameraTargetY) {
        var refX := ScreenWidth / 2.0;
        var baseY: real;
        if highest.Some? {
          var found := FirstAtHeight(highest.value);
          if found.Some? {
            refX := CentreX(slots[found.value]);
          }
          baseY := highest.value;
        } else {
          baseY := cameraTargetY - ScreenHeight / 2.0;
        }
        assert UpdatedPool(old(slots[..]), cameraTargetY, rolls) == Refill(d, refX, baseY, rolls);
        RefillFrom(refX, baseY, rolls);
      } else {
        assert UpdatedPool(old(slots[..]), cameraTargetY, rolls) == d;
      }
    }
  }
}
