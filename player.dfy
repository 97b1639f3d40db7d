/**
 * The player controller (Scripts/Player/Player.cs): the attack cooldown
 * gate, the 0.15 s attack feedback that locks movement, the running flag,
 * and turning the sprite and the weapon hold point towards the mouse.
 * `Time.time` is the parameter `now`; each AttackVisualFeedback coroutine is
 * a remaining wait in `feedbacks`, advanced by Tick.
 */
module Players {
  import opened Basics
  import opened Timing
  import Controls
  import Weapons

  /** The wait in AttackVisualFeedback. */
  const FeedbackDuration: real := 0.15
  /** `magnitude > 0.1f`, squared. */
  const RunningThresholdSquared: real := 0.1 * 0.1
  /** `magnitude > 0.01f` (the movement gate in FixedUpdate), squared. */
  const MovingThresholdSquared: real := 0.01 * 0.01

  /** The weapon hold point's local position for a sprite facing left (flipped) or right. */
  function WeaponHoldOffset(flipX: bool): (p: Point)
    ensures p.y == 0.1 && p.z == 0.0
    ensures p.x == -0.5 <==> flipX
    ensures p.x == 0.5 <==> !flipX
  {
    if flipX then Point(-0.5, 0.1, 0.0) else Point(0.5, 0.1, 0.0)
  }

  /**
   * The keyboard fallback of GetMovementInput: W/S and A/D each add 1 or
   * -1 to one axis and the sum is normalised.
   */
  method FallbackMovementInput(held: set<Controls.KeyCode>) returns (v: MoveVector)
    ensures v.Normalized?
    ensures v.y == 1 <==> Controls.W in held && Controls.S !in held
    ensures v.y == -1 <==> Controls.S in held && Controls.W !in held
    ensures v.y == 0 <==> (Controls.W in held <==> Controls.S in held)
    ensures v.x == 1 <==> Controls.D in held && Controls.A !in held
    ensures v.x == -1 <==> Controls.A in held && Controls.D !in held
    ensures v.x == 0 <==> (Controls.A in held <==> Controls.D in held)
  {
    var x, y := 0, 0;
    if Controls.W in held { y := y + 1; }
    if Controls.S in held { y := y - 1; }
    if Controls.A in held { x := x - 1; }
    if Controls.D in held { x := x + 1; }
    v := Normalized(x, y);
  }

  class Player {
    const attackCooldown: real
    const flipBasedOnMouse: bool
    /** `characterSprite` is set (assigned or found in children by Awake). */
    const hasSprite: bool
    /** `animator` is set (assigned or found in children by Awake). */
    const hasAnimator: bool
    /** `ActiveWeapon.Instance != null` */
    const hasActiveWeapon: bool
    /**
     * `ActiveWeapon.Instance.GetActiveWeapon()`, its `sword` field: null when
     * no Sword was assigned or found. Read only when hasActiveWeapon holds.
     */
    const weapon: Weapons.Sword?

    var lastAttackTime: Stamp
    var isAttacking: bool
    var isRunning: bool
    /** Remaining waits of the running AttackVisualFeedback coroutines. */
    var feedbacks: seq<real>
    /** `characterSprite.flipX` */
    var flipX: bool
    /** `weaponHoldPoint.localPosition` */
    var weaponHoldPosition: Point
    /** How many times the animator's "Attack" trigger was set. */
    var attackTriggers: nat
    /** The times of the accepted attacks. */
    ghost var attackTimes: seq<real>

    ghost predicate Valid()
      reads this
    {
      && (attackTimes == [] <==> lastAttackTime == NegInfinity)
      && (attackTimes != [] ==> lastAttackTime == At(attackTimes[|attackTimes| - 1]))
      && SpacedAtLeast(attackTimes, attackCooldown)
      && (isAttacking ==> feedbacks != [])
      && (!hasSprite ==> feedbacks == [])
    }

    /**
     * Awake with a newly created hold point at (0.5, 0.1, 0). Awake does not
     * write the sprite's flipX, so it keeps the flip the scene gave it.
     */
    constructor (attackCooldown: real, flipBasedOnMouse: bool, hasSprite: bool, hasAnimator: bool,
                 hasActiveWeapon: bool, weapon: Weapons.Sword?, flipXInScene: bool)
      ensures Valid()
      ensures this.attackCooldown == attackCooldown && this.flipBasedOnMouse == flipBasedOnMouse
      ensures this.hasSprite == hasSprite && this.hasAnimator == hasAnimator
      ensures this.hasActiveWeapon == hasActiveWeapon && this.weapon == weapon
      ensures lastAttackTime == NegInfinity && attackTimes == []
      ensures !isAttacking && !isRunning && feedbacks == [] && attackTriggers == 0
      ensures flipX == flipXInScene
      ensures weaponHoldPosition == WeaponHoldOffset(false)
    {
      this.attackCooldown := attackCooldown;
      this.flipBasedOnMouse := flipBasedOnMouse;
      this.hasSprite := hasSprite;
      this.hasAnimator := hasAnimator;
      this.hasActiveWeapon := hasActiveWeapon;
      this.weapon := weapon;
      lastAttackTime := NegInfinity;
      isAttacking := false;
      isRunning := false;
      feedbacks := [];
      flipX := flipXInScene;
      weaponHoldPosition := Point(0.5, 0.1, 0.0);
      attackTriggers := 0;
      attackTimes := [];
    }

    /** GetMovementInput: the input component's vector, else the keyboard fallback. */
    method GetMovementInput(input: Controls.GameInput?, held: set<Controls.KeyCode>) returns (v: MoveVector)
      ensures input != null ==> v == Controls.MovementOf(input.settings, held)
      ensures input != null ==> MagnitudeSquared(v) <= 1.0
      ensures input == null ==> v.Normalized?
      ensures input == null ==> (v.y == 1 <==> Controls.W in held && Controls.S !in held)
      ensures input == null ==> (v.y == -1 <==> Controls.S in held && Controls.W !in held)
      ensures input == null ==> (v.y == 0 <==> (Controls.W in held <==> Controls.S in held))
      ensures input == null ==> (v.x == 1 <==> Controls.D in held && Controls.A !in held)
      ensures input == null ==> (v.x == -1 <==> Controls.A in held && Controls.D !in held)
      ensures input == null ==> (v.x == 0 <==> (Controls.A in held <==> Controls.D in held))
    {
      if input != null {
        v := input.GetMovementVector(held);
      } else {
        v := FallbackMovementInput(held);
      }
    }

    /**
     * Update for one frame's movement input and mouse: the running flag, and
     * (with a camera) flipX and the hold point.
     */
    method Update(input: MoveVector, mouse: Point, position: Point, cameraPresent: bool)
      requires Valid()
      modifies this
      ensures Valid()
      ensures isRunning == MagnitudeAbove(input, RunningThresholdSquared)
      ensures flipBasedOnMouse && hasSprite && cameraPresent ==>
        flipX == (mouse.x < position.x) && weaponHoldPosition == WeaponHoldOffset(flipX)
      ensures !(flipBasedOnMouse && hasSprite && cameraPresent) ==>
        flipX == old(flipX) && weaponHoldPosition == old(weaponHoldPosition)
      ensures lastAttackTime == old(lastAttackTime) && isAttacking == old(isAttacking)
      ensures feedbacks == old(feedbacks) && attackTriggers == old(attackTriggers)
      ensures attackTimes == old(attackTimes)
    {
      isRunning := MagnitudeAbove(input, RunningThresholdSquared);
      if flipBasedOnMouse && hasSprite {
        LookAtMouse(mouse, position, cameraPresent);
      }
    }

    /** LookAtMouse: faces the sprite towards the mouse and moves the hold point to that side. */
    method LookAtMouse(mouse: Point, position: Point, cameraPresent: bool)
      requires Valid()
      modifies this
      ensures Valid()
      ensures cameraPresent ==> flipX == (mouse.x < position.x) && weaponHoldPosition == WeaponHoldOffset(flipX)
      ensures !cameraPresent ==> flipX == old(flipX) && weaponHoldPosition == old(weaponHoldPosition)
      ensures lastAttackTime == old(lastAttackTime) && isAttacking == old(isAttacking)
      ensures isRunning == old(isRunning) && feedbacks == old(feedbacks)
      ensures attackTriggers == old(attackTriggers) && attackTimes == old(attackTimes)
    {
      if !cameraPresent {
        return;
      }
      if mouse.x < position.x {
        flipX := true;
      } else {
        flipX := false;
      }
      var offset := Point(0.5, 0.1, 0.0);
      if flipX {
        offset := offset.(x := -0.5);
      }
      weaponHoldPosition := offset;
    }

    /** FixedUpdate: whether the body is moved this physics step. */
    method FixedUpdate(input: MoveVector) returns (moves: bool)
      ensures moves <==> MagnitudeAbove(input, MovingThresholdSquared) && !isAttacking
    {
      moves := MagnitudeAbove(input, MovingThresholdSquared) && !isAttacking;
    }

    /**
     * TryAttack at time `now`: when the cooldown has elapsed, perform the
     * attack and record `now`; otherwise nothing happens. When the attack
     * throws (an ActiveWeapon without a sword) `now` is not recorded.
     */
    method TryAttack(now: real) returns (accepted: bool, outcome: TickOutcome)
      requires Valid() && (weapon != null ==> weapon.Valid())
      modifies this, weapon
      ensures Valid() && (weapon != null ==> weapon.Valid())
      ensures accepted <==> CooldownElapsed(now, old(lastAttackTime), attackCooldown)
      ensures outcome.Threw? <==> accepted && hasActiveWeapon && weapon == null
      ensures outcome.Threw? ==> outcome.fault == NullReference
      ensures !accepted || outcome.Threw? ==> unchanged(this) && (weapon != null ==> unchanged(weapon))
      ensures accepted && outcome == Completed ==>
        && lastAttackTime == At(now) && attackTimes == old(attackTimes) + [now]
        && isAttacking == (hasSprite || old(isAttacking))
        && feedbacks == old(feedbacks) + (if hasSprite then [FeedbackDuration] else [])
        && attackTriggers == old(attackTriggers) + (if hasAnimator then 1 else 0)
      ensures accepted && hasActiveWeapon && weapon != null && !old(weapon.isAttacking) ==>
        && weapon.isAttacking && weapon.swings == old(weapon.swings) + 1
        && weapon.routineRemaining == weapon.attackDuration
        && weapon.colliderEnabled == (old(weapon.colliderEnabled) || weapon.hasCollider)
        && weapon.damage == old(weapon.damage)
      ensures weapon != null && (!hasActiveWeapon || old(weapon.isAttacking)) ==> unchanged(weapon)
      ensures isRunning == old(isRunning) && flipX == old(flipX)
      ensures weaponHoldPosition == old(weaponHoldPosition)
    {
      accepted := CooldownElapsed(now, lastAttackTime, attackCooldown);
      outcome := Completed;
      if accepted {
        AppendSpacedAtLeast(attackTimes, attackCooldown, now);
        outcome := PerformAttack();
        if outcome.Threw? {
          return;
        }
        lastAttackTime := At(now);
        attackTimes := attackTimes + [now];
      }
    }

    /**
     * PerformAttack: the weapon attacks (throwing when the ActiveWeapon has
     * no sword, before anything else changes), then the feedback starts
     * (with a sprite) and the animator trigger fires (with an animator).
     */
    method PerformAttack() returns (outcome: TickOutcome)
      requires weapon != null ==> weapon.Valid()
      modifies this, weapon
      ensures weapon != null ==> weapon.Valid()
      ensures outcome.Threw? <==> hasActiveWeapon && weapon == null
      ensures outcome.Threw? ==> outcome.fault == NullReference && unchanged(this)
      ensures outcome == Completed ==>
        && isAttacking == (hasSprite || old(isAttacking))
        && feedbacks == old(feedbacks) + (if hasSprite then [FeedbackDuration] else [])
        && attackTriggers == old(attackTriggers) + (if hasAnimator then 1 else 0)
      ensures hasActiveWeapon && weapon != null && !old(weapon.isAttacking) ==>
        && weapon.isAttacking && weapon.swings == old(weapon.swings) + 1
        && weapon.routineRemaining == weapon.attackDuration
        && weapon.colliderEnabled == (old(weapon.colliderEnabled) || weapon.hasCollider)
        && weapon.damage == old(weapon.damage)
      ensures weapon != null && (!hasActiveWeapon || old(weapon.isAttacking)) ==> unchanged(weapon)
      ensures lastAttackTime == old(lastAttackTime) && attackTimes == old(attackTimes)
      ensures isRunning == old(isRunning) && flipX == old(flipX)
      ensures weaponHoldPosition == old(weaponHoldPosition)
    {
      if hasActiveWeapon {
        if weapon == null {
          return Threw(NullReference);
        }
        weapon.Attack();
      }
      if hasSprite {
        // StartCoroutine runs AttackVisualFeedback up to its wait
        isAttacking := true;
        feedbacks := feedbacks + [FeedbackDuration];
      }
      if hasAnimator {
        attackTriggers := attackTriggers + 1;
      }
      outcome := Completed;
    }

    /**
     * A frame of length dt passes: every feedback whose wait runs out resumes
     * and clears isAttacking.
     */
    method Tick(dt: real)
      requires Valid()
      modifies this
      ensures Valid()
      ensures feedbacks == Advance(old(feedbacks), dt)
      ensures isAttacking == (old(isAttacking) && !AnyFinishes(old(feedbacks), dt))
      ensures lastAttackTime == old(lastAttackTime) && attackTimes == old(attackTimes)
      ensures isRunning == old(isRunning) && flipX == old(flipX)
      ensures weaponHoldPosition == old(weaponHoldPosition) && attackTriggers == old(attackTriggers)
    {
      if AnyFinishes(feedbacks, dt) {
        isAttacking := false;
      }
      feedbacks := Advance(feedbacks, dt);
    }
  }

  /** Accepted attacks are at least the cooldown apart, whatever the times passed in. */
  lemma AttacksAtLeastCooldownApart(p: Player, i: nat, j: nat)
    requires p.Valid() && p.attackCooldown >= 0.0
    requires i < j < |p.attackTimes|
    ensures p.attackTimes[j] - p.attackTimes[i] >= p.attackCooldown
  {
    AnyTwoAtLeast(p.attackTimes, p.attackCooldown, i, j);
  }

  /**
   * A single feedback keeps isAttacking set while less than its 0.15 s has
   * passed and clears it once the 0.15 s are used up.
   */
  lemma SingleFeedbackWindow(wait: real, dt: real)
    ensures AnyFinishes([wait], dt) <==> wait - dt <= 0.0
    ensures !AnyFinishes([wait], dt) ==> Advance([wait], dt) == [wait - dt]
    ensures AnyFinishes([wait], dt) ==> Advance([wait], dt) == []
  {
    if wait - dt <= 0.0 {
      assert [wait][0] - dt <= 0.0;
    }
  }
}
