/**
 * The platform pool as a sequence of slots: what each pool operation of src/main.c
 * does to the whole array, and the properties of those operations.
 */
module PoolSpec {
  import opened Wrappers
  import opened Config
  import opened Geometry
  import opened Search
  import opened Platforms

  function ActiveCount(s: seq<Platform>): nat
  {
    if s == [] then 0 else (if s[0].active then 1 else 0) + ActiveCount(s[1..])
  }

  /** Writing one slot changes the active count by the change of that slot's flag. */
  lemma {:induction false} ActiveCountUpdate(s: seq<Platform>, i: nat, p: Platform)
    requires i < |s|
    ensures ActiveCount(s[i := p]) + (if s[i].active then 1 else 0)
         == ActiveCount(s) + (if p.active then 1 else 0)
  {
    if i == 0 {
      assert s[i := p][1..] == s[1..];
    } else {
      assert s[i := p][1..] == s[1..][i - 1 := p];
      ActiveCountUpdate(s[1..], i - 1, p);
    }
  }

  // ---------------------------------------------------------------- GeneratePlatform

  function InactiveMask(s: seq<Platform>): (m: seq<bool>)
    ensures |m| == |s| && forall k :: 0 <= k < |s| ==> (m[k] <==> !s[k].active)
  {
    seq(|s|, k requires 0 <= k < |s| => !s[k].active)
  }

  predicate AllActive(s: seq<Platform>) {
    forall k :: 0 <= k < |s| ==> s[k].active
  }

  /** Slot i is the one a first-fit scan stops at. */
  predicate IsFirstFree(s: seq<Platform>, i: int) {
    0 <= i < |s| && !s[i].active && forall k :: 0 <= k < i ==> s[k].active
  }

  /** The pool after GeneratePlatform(refX, refY) with the given random values. */
  function Generated(s: seq<Platform>, refX: real, refY: real, roll: PlatformRoll): (r: seq<Platform>)
    requires roll.Valid()
    ensures |r| == |s|
  {
    match FirstTrue(InactiveMask(s), 0)
    case None => s
    case Some(i) => s[i := NewPlatform(refX, refY, roll)]
  }

  /**
   * GeneratePlatform writes exactly the lowest-index inactive slot and nothing else,
   * and leaves a pool with every slot active unchanged.
   */
  lemma GeneratedWritesFirstFree(s: seq<Platform>, refX: real, refY: real, roll: PlatformRoll)
    requires roll.Valid()
    ensures AllActive(s) ==> Generated(s, refX, refY, roll) == s
    ensures !AllActive(s) ==> exists i :: IsFirstFree(s, i)
    ensures forall i :: IsFirstFree(s, i) ==> Generated(s, refX, refY, roll) == s[i := NewPlatform(refX, refY, roll)]
  {
    FirstTrueIsLowest(InactiveMask(s), 0);
    match FirstTrue(InactiveMask(s), 0)
    case None =>
    case Some(i) =>
      assert IsFirstFree(s, i);
      forall j | IsFirstFree(s, j) ensures j == i { }
  }

  /**
   * GeneratePlatform never overwrites an active slot and activates one slot exactly
   * when the pool has a free one.
   */
  lemma GeneratedCount(s: seq<Platform>, refX: real, refY: real, roll: PlatformRoll)
    requires roll.Valid()
    ensures ActiveCount(Generated(s, refX, refY, roll)) == ActiveCount(s) + (if AllActive(s) then 0 else 1)
    ensures forall k :: 0 <= k < |s| && s[k].active ==> Generated(s, refX, refY, roll)[k] == s[k]
  {
    GeneratedWritesFirstFree(s, refX, refY, roll);
    if !AllActive(s) {
      var i :| IsFirstFree(s, i);
      ActiveCountUpdate(s, i, NewPlatform(refX, refY, roll));
    }
  }

  /**
   * A platform generated from refY lies at least the minimum gap above it, so a limit on
   * active tops survives generation whenever refY is at most 50 px below that limit.
   */
  lemma GeneratedStaysAbove(s: seq<Platform>, refX: real, refY: real, roll: PlatformRoll, limit: real)
    requires roll.Valid()
    requires forall k :: 0 <= k < |s| && s[k].active ==> s[k].rect.y <= limit
    requires refY - PlatformMinGap as real <= limit
    ensures forall k :: 0 <= k < |s| && Generated(s, refX, refY, roll)[k].active ==> Generated(s, refX, refY, roll)[k].rect.y <= limit
  {
    GeneratedWritesFirstFree(s, refX, refY, roll);
  }

  // ---------------------------------------------------------------- InitPlatforms

  /**
   * The climbable chain InitPlatforms lays out: slot 0, then one platform per roll,
   * each generated from the centre and top of the one before.
   */
  function Chain(rolls: seq<PlatformRoll>): (c: seq<Platform>)
    requires AllValid(rolls)
    ensures |c| == |rolls| + 1
    decreases |rolls|
  {
    if rolls == [] then [FirstPlatform]
    else
      var prev := Chain(rolls[..|rolls| - 1]);
      var last := prev[|prev| - 1];
      prev + [NewPlatform(CentreX(last), last.rect.y, rolls[|rolls| - 1])]
  }

  lemma {:induction false} ChainSteps(rolls: seq<PlatformRoll>)
    requires AllValid(rolls)
    ensures Chain(rolls)[0] == FirstPlatform
    ensures forall i :: 1 <= i <= |rolls| ==>
      Chain(rolls)[i] == NewPlatform(CentreX(Chain(rolls)[i - 1]), Chain(rolls)[i - 1].rect.y, rolls[i - 1])
    decreases |rolls|
  {
    if rolls != [] {
      var n := |rolls| - 1;
      assert AllValid(rolls[..n]);
      ChainSteps(rolls[..n]);
      forall i | 1 <= i <= n
        ensures Chain(rolls)[i] == NewPlatform(CentreX(Chain(rolls)[i - 1]), Chain(rolls)[i - 1].rect.y, rolls[i - 1])
      {
        assert rolls[..n][i - 1] == rolls[i - 1];
      }
    }
  }

  /** The flag-only clear InitPlatforms applies to the slots it does not refill. */
  function Deactivated(s: seq<Platform>): (r: seq<Platform>)
    ensures |r| == |s|
  {
    seq(|s|, k requires 0 <= k < |s| => s[k].(active := false))
  }

  /** The pool after InitPlatforms: the chain in slots 0..7, earlier contents of 8..21 with their flags cleared. */
  function InitLayout(s: seq<Platform>, rolls: seq<PlatformRoll>): (r: seq<Platform>)
    requires |s| == MaxPlatforms && |rolls| == 7 && AllValid(rolls)
    ensures |r| == MaxPlatforms
  {
    Chain(rolls) + Deactivated(s[8..])
  }

  /** The shape of any sequence that starts at slot 0 and links each platform to the one before. */
  lemma LinkedShape(c: seq<Platform>, rolls: seq<PlatformRoll>)
    requires AllValid(rolls) && |c| == |rolls| + 1 && c[0] == FirstPlatform
    requires forall i :: 1 <= i <= |rolls| ==> c[i] == NewPlatform(CentreX(c[i - 1]), c[i - 1].rect.y, rolls[i - 1])
    ensures forall k :: 0 <= k < |c| ==> c[k].active && MinCentreX <= CentreX(c[k]) <= MaxCentreX
    ensures forall k :: 1 <= k < |c| ==>
      c[k].rect.y == c[k - 1].rect.y - rolls[k - 1].gap as real &&
      c[k - 1].rect.y - PlatformMaxGap as real <= c[k].rect.y <= c[k - 1].rect.y - PlatformMinGap as real &&
      c[k].rect.height == PlatformHeight &&
      80.0 <= c[k].rect.width <= 180.0
  {
    forall k | 1 <= k < |c|
      ensures c[k].active && c[k].rect.height == PlatformHeight && 80.0 <= c[k].rect.width <= 180.0
      ensures c[k].rect.y == c[k - 1].rect.y - rolls[k - 1].gap as real
      ensures MinCentreX <= CentreX(c[k]) <= MaxCentreX
    {
      assert rolls[k - 1].Valid();
      assert c[k] == NewPlatform(CentreX(c[k - 1]), c[k - 1].rect.y, rolls[k - 1]);
    }
  }

  /**
   * Every platform of the chain is active with its centre on screen, and each one after
   * slot 0 is a platform-height slab of a rolled width, a rolled gap above the previous one.
   */
  lemma ChainShape(rolls: seq<PlatformRoll>)
    requires AllValid(rolls)
    ensures var c := Chain(rolls);
      c[0] == FirstPlatform &&
      (forall k :: 0 <= k < |c| ==> c[k].active && MinCentreX <= CentreX(c[k]) <= MaxCentreX) &&
      (forall k :: 1 <= k < |c| ==>
        c[k].rect.y == c[k - 1].rect.y - rolls[k - 1].gap as real &&
        c[k - 1].rect.y - PlatformMaxGap as real <= c[k].rect.y <= c[k - 1].rect.y - PlatformMinGap as real &&
        c[k].rect.height == PlatformHeight &&
        80.0 <= c[k].rect.width <= 180.0)
  {
    ChainSteps(rolls);
    LinkedShape(Chain(rolls), rolls);
  }

  /** The layout InitPlatforms leaves: an active chain of eight in slots 0..7, the rest switched off. */
  lemma InitLayoutShape(s: seq<Platform>, rolls: seq<PlatformRoll>)
    requires |s| == MaxPlatforms && |rolls| == 7 && AllValid(rolls)
    ensures var r := InitLayout(s, rolls);
      (forall k :: 0 <= k < 8 ==> r[k].active) &&
      (forall k :: 8 <= k < MaxPlatforms ==> r[k] == s[k].(active := false)) &&
      r[0].rect == Rect(300.0, 500.0, 200.0, PlatformHeight) &&
      (forall k :: 1 <= k < 8 ==>
        r[k - 1].rect.y - PlatformMaxGap as real <= r[k].rect.y <= r[k - 1].rect.y - PlatformMinGap as real &&
        r[k].rect.y == r[k - 1].rect.y - rolls[k - 1].gap as real &&
        r[k].rect.height == PlatformHeight &&
        80.0 <= r[k].rect.width <= 180.0) &&
      (forall k :: 0 <= k < 8 ==> MinCentreX <= CentreX(r[k]) <= MaxCentreX)
  {
    ChainShape(rolls);
    var c := Chain(rolls);
    var r := InitLayout(s, rolls);
    assert r[..8] == c;
    assert r[8..] == Deactivated(s[8..]);
  }

  // ---------------------------------------------------------------- UpdatePlatforms

  /** Platforms whose top is below this y have scrolled off the bottom of the view. */
  function BottomLimit(cameraTargetY: real): real {
    cameraTargetY + ScreenHeight / 2.0 + 100.0
  }

  function DespawnOne(p: Platform, limit: real): Platform {
    if p.active && p.rect.y > limit then p.(active := false) else p
  }

  /** The pool after the despawn loop of UpdatePlatforms. */
  function Despawned(s: seq<Platform>, limit: real): (r: seq<Platform>)
    ensures |r| == |s|
    ensures forall k :: 0 <= k < |s| ==> (r[k].active <==> s[k].active && s[k].rect.y <= limit)
    ensures forall k :: 0 <= k < |s| ==> r[k].rect == s[k].rect && r[k].kind == s[k].kind
    ensures forall k :: 0 <= k < |s| && r[k].active ==> r[k].rect.y <= limit
  {
    seq(|s|, k requires 0 <= k < |s| => DespawnOne(s[k], limit))
  }

  /** The "highest active platform" scan: the sentinel -INFINITY becomes None. */
  function MinActiveY(s: seq<Platform>): Option<real>
    decreases |s|
  {
    if s == [] then None
    else
      var h := MinActiveY(s[..|s| - 1]);
      var p := s[|s| - 1];
      if p.active && (h.None? || p.rect.y < h.value) then Some(p.rect.y) else h
  }

  /** The scan yields the least top y over active slots, and None exactly when none is active. */
  lemma {:induction false} MinActiveYIsMinimum(s: seq<Platform>)
    ensures MinActiveY(s).None? <==> forall k :: 0 <= k < |s| ==> !s[k].active
    ensures MinActiveY(s).Some? ==>
      (exists k :: 0 <= k < |s| && s[k].active && s[k].rect.y == MinActiveY(s).value) &&
      (forall k :: 0 <= k < |s| && s[k].active ==> MinActiveY(s).value <= s[k].rect.y)
    decreases |s|
  {
    if s != [] {
      var n := |s| - 1;
      MinActiveYIsMinimum(s[..n]);
      assert forall k :: 0 <= k < n ==> s[..n][k] == s[k];
      if MinActiveY(s[..n]).Some? {
        var k :| 0 <= k < n && s[..n][k].active && s[..n][k].rect.y == MinActiveY(s[..n]).value;
        assert s[k].active;
      }
    }
  }

  /** A refill is requested when no platform is active or the highest one lies more than 150 px below the view's top edge. */
  predicate NeedsRefill(highest: Option<real>, cameraTargetY: real) {
    highest.None? || highest.value > cameraTargetY - ScreenHeight / 2.0 + 150.0
  }

  function AtHeightMask(s: seq<Platform>, y: real): (m: seq<bool>)
    ensures |m| == |s| && forall k :: 0 <= k < |s| ==> (m[k] <==> s[k].active && s[k].rect.y == y)
  {
    seq(|s|, k requires 0 <= k < |s| => s[k].active && s[k].rect.y == y)
  }

  /** The pool after the refill loop: one GeneratePlatform per roll, stepping up by RefillStep. */
  function Refill(s: seq<Platform>, refX: real, baseY: real, rolls: seq<PlatformRoll>): (r: seq<Platform>)
    requires AllValid(rolls)
    ensures |r| == |s|
    decreases |rolls|
  {
    if rolls == [] then s
    else
      var n := |rolls| - 1;
      Generated(Refill(s, refX, baseY, rolls[..n]), refX, baseY - n as real * RefillStep, rolls[n])
  }

  lemma RefillUnfold(s: seq<Platform>, refX: real, baseY: real, rolls: seq<PlatformRoll>, j: nat)
    requires AllValid(rolls) && j < |rolls|
    ensures rolls[j].Valid()
    ensures Refill(s, refX, baseY, rolls[..j + 1])
         == Generated(Refill(s, refX, baseY, rolls[..j]), refX, baseY - j as real * RefillStep, rolls[j])
  {
    assert rolls[..j + 1][..j] == rolls[..j];
  }

  /**
   * A refill activates at most one slot per roll, keeps every active slot as it was,
   * and puts every platform it makes at least a minimum gap above baseY.
   */
  lemma {:induction false} RefillBounds(s: seq<Platform>, refX: real, baseY: real, rolls: seq<PlatformRoll>, limit: real)
    requires AllValid(rolls)
    requires forall k :: 0 <= k < |s| && s[k].active ==> s[k].rect.y <= limit
    requires baseY - PlatformMinGap as real <= limit
    ensures ActiveCount(Refill(s, refX, baseY, rolls)) <= ActiveCount(s) + |rolls|
    ensures forall k :: 0 <= k < |s| && s[k].active ==> Refill(s, refX, baseY, rolls)[k] == s[k]
    ensures forall k :: 0 <= k < |s| && Refill(s, refX, baseY, rolls)[k].active ==> Refill(s, refX, baseY, rolls)[k].rect.y <= limit
    decreases |rolls|
  {
    if rolls != [] {
      var n := |rolls| - 1;
      assert AllValid(rolls[..n]);
      RefillBounds(s, refX, baseY, rolls[..n], limit);
      var prev := Refill(s, refX, baseY, rolls[..n]);
      var refY := baseY - n as real * RefillStep;
      assert rolls[n].Valid();
      assert RefillStep == 132.0;
      assert refY <= baseY;
      RefillUnfold(s, refX, baseY, rolls, n);
      assert rolls[..n + 1] == rolls;
      GeneratedCount(prev, refX, refY, rolls[n]);
      GeneratedStaysAbove(prev, refX, refY, rolls[n], limit);
    }
  }

  /** The whole of UpdatePlatforms, given the camera's target y and five refill rolls. */
  function UpdatedPool(s: seq<Platform>, cameraTargetY: real, rolls: seq<PlatformRoll>): (r: seq<Platform>)
    requires AllValid(rolls)
    ensures |r| == |s|
  {
    var d := Despawned(s, BottomLimit(cameraTargetY));
    var highest := MinActiveY(d);
    if !NeedsRefill(highest, cameraTargetY) then d
    else
      var refX :=
        if highest.None? then ScreenWidth / 2.0
        else match FirstTrue(AtHeightMask(d, highest.value), 0)
          case Some(k) => CentreX(d[k])
          case None => ScreenWidth / 2.0;
      var baseY := if highest.None? then cameraTargetY - ScreenHeight / 2.0 else highest.value;
      Refill(d, refX, baseY, rolls)
  }

  /**
   * After UpdatePlatforms no active platform lies below the bottom limit; slots that
   * survive the despawn loop are kept as they are; slots are activated only by a refill,
   * at most one per roll.
   */
  lemma UpdatedPoolBounds(s: seq<Platform>, cameraTargetY: real, rolls: seq<PlatformRoll>)
    requires AllValid(rolls)
    ensures var r := UpdatedPool(s, cameraTargetY, rolls);
      forall k :: 0 <= k < |s| && r[k].active ==> r[k].rect.y <= BottomLimit(cameraTargetY)
    ensures var d := Despawned(s, BottomLimit(cameraTargetY));
      forall k :: 0 <= k < |s| && d[k].active ==> UpdatedPool(s, cameraTargetY, rolls)[k] == d[k]
    ensures var d := Despawned(s, BottomLimit(cameraTargetY));
      ActiveCount(UpdatedPool(s, cameraTargetY, rolls))
        <= ActiveCount(d) + (if NeedsRefill(MinActiveY(d), cameraTargetY) then |rolls| else 0)
  {
    var limit := BottomLimit(cameraTargetY);
    var d := Despawned(s, limit);
    var highest := MinActiveY(d);
    if NeedsRefill(highest, cameraTargetY) {
      MinActiveYIsMinimum(d);
      var refX :=
        if highest.None? then ScreenWidth / 2.0
        else match FirstTrue(AtHeightMask(d, highest.value), 0)
          case Some(k) => CentreX(d[k])
          case None => ScreenWidth / 2.0;
      var baseY := if highest.None? then cameraTargetY - ScreenHeight / 2.0 else highest.value;
      RefillBounds(d, refX, baseY, rolls, limit);
    }
  }

  // ---------------------------------------------------------------- landing scan

  /** The band at the bottom of the hitbox tested against platforms: 10 px up, 15 px tall. */
  function Feet(hitbox: Rect): Rect {
    Rect(hitbox.x, hitbox.Bottom() - 10.0, hitbox.width, 15.0)
  }

  /** Slot p catches the player: active, overlapping the feet, and the previous bottom was not below its top (1 px tolerance). */
  predicate LandsOn(p: Platform, feet: Rect, previousBottom: real) {
    p.active && CheckCollisionRecs(feet, p.rect) && previousBottom <= p.rect.y + 1.0
  }

  function LandingMask(s: seq<Platform>, feet: Rect, previousBottom: real): (m: seq<bool>)
    ensures |m| == |s| && forall k :: 0 <= k < |s| ==> (m[k] <==> LandsOn(s[k], feet, previousBottom))
  {
    seq(|s|, k requires 0 <= k < |s| => LandsOn(s[k], feet, previousBottom))
  }

  function FirstLanding(s: seq<Platform>, feet: Rect, previousBottom: real): Option<nat> {
    FirstTrue(LandingMask(s, feet, previousBottom), 0)
  }

  /** The landing scan picks the lowest-index slot that catches the player, and none when no slot does. */
  lemma LandingIsFirstQualifying(s: seq<Platform>, feet: Rect, previousBottom: real)
    ensures FirstLanding(s, feet, previousBottom).None? <==>
      forall k :: 0 <= k < |s| ==> !LandsOn(s[k], feet, previousBottom)
    ensures FirstLanding(s, feet, previousBottom).Some? ==>
      var i := FirstLanding(s, feet, previousBottom).value;
      i < |s| && LandsOn(s[i], feet, previousBottom) &&
      forall k :: 0 <= k < i ==> !LandsOn(s[k], feet, previousBottom)
  {
    FirstTrueIsLowest(LandingMask(s, feet, previousBottom), 0);
  }
}
