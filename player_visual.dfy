/**
 * The second player controller (class PlayerController in
 * Scripts/Player/PlayerVisual.cs): the same cooldown gate and feedback as
 * Player, a stored movement input with a 0.1 movement threshold, the
 * animator's running flag, mouse facing without a hold point, and an Awake
 * that leaves a second instance running without taking over `Instance`.
 */
module PlayerVisuals {
  import opened Basics
  import opened Timing
  import Controls
  import Weapons
  import Players

  /** The static `PlayerController.Instance`. */
  class ControllerSlot {
    var instance: PlayerController?

    constructor ()
      ensures instance == null
    {
      instance := null;
    }
  }

  /** What FixedUpdate does this physics step. */
  datatype MoveOutcome =
    | NoMove
    | Moved
    /** `rb` was never assigned, so `rb.MovePosition` throws. */
    | NullBody

  class PlayerController {
    const attackCooldown: real
    const flipBasedOnMouse: bool
    /** `ActiveWeapon.Instance != null` */
    const hasActiveWeapon: bool
    /**
     * `ActiveWeapon.Instance.GetActiveWeapon()`, its `sword` field: null when
     * no Sword was assigned or found. Read only when hasActiveWeapon holds.
     */
    const weapon: Weapons.Sword?

    /** `rb` is set (by Awake, from a Rigidbody2D on the object). */
    var hasBody: bool
    /** `characterSprite` is set (assigned, or found in children by Awake). */
    var hasSprite: bool
    /** `animator` is set (assigned, or found in children by Awake). */
    var hasAnimator: bool

    var movementInput: MoveVector
    var lastAttackTime: Stamp
    var isAttacking: bool
    /** Remaining waits of the running AttackVisualFeedback coroutines. */
    var feedbacks: seq<real>
    /** `characterSprite.flipX` */
    var flipX: bool
    /** The animator's "IsRunning" parameter. */
    var animatorIsRunning: bool
    /** How many times the animator's "Attack" trigger was set. */
    var attackTriggers: nat
    /** The times of the accepted attacks. */
    ghost var attackTimes: seq<real>

    ghost predicate Valid()
      reads this
    {
      && (attackTimes == [] <==> lastAttackTime == NegInfinity)
      && (attackTimes != [] ==> lastAttackTime == At(attackTimes[|attackTimes| - 1]))
      && SpacedAtLeast(attackTimes, attackCooldown)
      && (isAttacking ==> feedbacks != [])
    }

    /**
     * The component before Awake, with the references the inspector assigned
     * and the sprite's flipX as the scene set it.
     */
    constructor (attackCooldown: real, flipBasedOnMouse: bool, assignedSprite: bool, assignedAnimator: bool,
                 hasActiveWeapon: bool, weapon: Weapons.Sword?, flipXInScene: bool)
      ensures Valid()
      ensures this.attackCooldown == attackCooldown && this.flipBasedOnMouse == flipBasedOnMouse
      ensures this.hasActiveWeapon == hasActiveWeapon && this.weapon == weapon && !hasBody
      ensures hasSprite == assignedSprite && hasAnimator == assignedAnimator
      ensures movementInput == Raw(0, 0) && lastAttackTime == NegInfinity && attackTimes == []
      ensures !isAttacking && feedbacks == [] && !animatorIsRunning && attackTriggers == 0
      ensures flipX == flipXInScene
    {
      this.attackCooldown := attackCooldown;
      this.flipBasedOnMouse := flipBasedOnMouse;
      this.hasActiveWeapon := hasActiveWeapon;
      this.weapon := weapon;
      hasBody := false;
      hasSprite := assignedSprite;
      hasAnimator := assignedAnimator;
      movementInput := Raw(0, 0);
      lastAttackTime := NegInfinity;
      isAttacking := false;
      feedbacks := [];
      flipX := flipXInScene;
      animatorIsRunning := false;
      attackTriggers := 0;
      attackTimes := [];
    }

    /**
     * Awake: a second instance returns at once, leaving `Instance` and
     * itself as they are (it is not destroyed); otherwise it becomes
     * `Instance` and looks up its body, sprite and animator.
     */
    method Awake(slot: ControllerSlot, bodyOnObject: bool, spriteInChildren: bool, animatorInChildren: bool)
      requires Valid()
      modifies this, slot
      ensures Valid()
      ensures old(slot.instance) != null && old(slot.instance) != this ==>
        slot.instance == old(slot.instance) && unchanged(this)
      ensures !(old(slot.instance) != null && old(slot.instance) != this) ==>
        && slot.instance == this && hasBody == bodyOnObject
        && hasSprite == (old(hasSprite) || spriteInChildren)
        && hasAnimator == (old(hasAnimator) || animatorInChildren)
      ensures movementInput == old(movementInput) && lastAttackTime == old(lastAttackTime)
      ensures isAttacking == old(isAttacking) && feedbacks == old(feedbacks) && flipX == old(flipX)
      ensures attackTimes == old(attackTimes) && attackTriggers == old(attackTriggers)
      ensures animatorIsRunning == old(animatorIsRunning)
    {
      if slot.instance != null && slot.instance != this {
        return;
      }
      slot.instance := this;
      hasBody := bodyOnObject;
      if !hasSprite {
        hasSprite := spriteInChildren;
      }
      if !hasAnimator {
        hasAnimator := animatorInChildren;
      }
    }

    /**
     * IsRunning: the stored movement input is longer than 0.1, which for
     * the integer-valued intents it holds means it is non-zero.
     */
    function IsRunning(): (running: bool)
      reads this
      ensures running <==> !IsZero(movementInput)
    {
      IntegerMagnitudeAbove(movementInput, Players.RunningThresholdSquared);
      MagnitudeAbove(movementInput, Players.RunningThresholdSquared)
    }

    /**
     * Update: stores the input component's vector, or the normalised raw
     * axes when there is none; refreshes the animator's running flag; faces
     * the mouse.
     */
    method Update(input: Controls.GameInput?, held: set<Controls.KeyCode>, axisHorizontal: int, axisVertical: int,
                  mouse: Point, position: Point, cameraPresent: bool)
      requires Valid()
      modifies this
      ensures Valid()
      ensures input != null ==> movementInput == Controls.MovementOf(input.settings, held)
      ensures input == null ==> movementInput == Normalized(axisHorizontal, axisVertical)
      ensures hasAnimator ==> animatorIsRunning == IsRunning()
      ensures !hasAnimator ==> animatorIsRunning == old(animatorIsRunning)
      ensures flipBasedOnMouse && hasSprite && cameraPresent ==> flipX == (mouse.x < position.x)
      ensures !(flipBasedOnMouse && hasSprite && cameraPresent) ==> flipX == old(flipX)
      ensures hasBody == old(hasBody) && hasSprite == old(hasSprite) && hasAnimator == old(hasAnimator)
      ensures lastAttackTime == old(lastAttackTime) && isAttacking == old(isAttacking)
      ensures feedbacks == old(feedbacks) && attackTriggers == old(attackTriggers)
      ensures attackTimes == old(attackTimes)
    {
      ReadMovementInput(input, held, axisHorizontal, axisVertical);
      UpdateAnimation();
      if flipBasedOnMouse && hasSprite {
        LookAtMouse(mouse, position, cameraPresent);
      }
    }

    method ReadMovementInput(input: Controls.GameInput?, held: set<Controls.KeyCode>,
                             axisHorizontal: int, axisVertical: int)
      modifies this
      ensures input != null ==> movementInput == Controls.MovementOf(input.settings, held)
      ensures input == null ==> movementInput == Normalized(axisHorizontal, axisVertical)
      ensures hasBody == old(hasBody) && hasSprite == old(hasSprite) && hasAnimator == old(hasAnimator)
      ensures animatorIsRunning == old(animatorIsRunning) && flipX == old(flipX)
      ensures lastAttackTime == old(lastAttackTime) && isAttacking == old(isAttacking)
      ensures feedbacks == old(feedbacks) && attackTriggers == old(attackTriggers)
      ensures attackTimes == old(attackTimes)
    {
      if input != null {
        movementInput := input.GetMovementVector(held);
      } else {
        movementInput := Normalized(axisHorizontal, axisVertical);
      }
    }

    method UpdateAnimation()
      modifies this
      ensures hasAnimator ==> animatorIsRunning == MagnitudeAbove(movementInput, Players.RunningThresholdSquared)
      ensures !hasAnimator ==> animatorIsRunning == old(animatorIsRunning)
      ensures hasBody == old(hasBody) && hasSprite == old(hasSprite) && hasAnimator == old(hasAnimator)
      ensures movementInput == old(movementInput) && flipX == old(flipX)
      ensures lastAttackTime == old(lastAttackTime) && isAttacking == old(isAttacking)
      ensures feedbacks == old(feedbacks) && attackTriggers == old(attackTriggers)
      ensures attackTimes == old(attackTimes)
    {
      if !hasAnimator {
        return;
      }
      var isMoving := MagnitudeAbove(movementInput, Players.RunningThresholdSquared);
      animatorIsRunning := isMoving;
    }

    /** LookAtMouse: flips the sprite when the mouse is left of the player. */
    method LookAtMouse(mouse: Point, position: Point, cameraPresent: bool)
      modifies this
      ensures cameraPresent ==> flipX == (mouse.x < position.x)
      ensures !cameraPresent ==> flipX == old(flipX)
      ensures hasBody == old(hasBody) && hasSprite == old(hasSprite) && hasAnimator == old(hasAnimator)
      ensures movementInput == old(movementInput) && animatorIsRunning == old(animatorIsRunning)
      ensures lastAttackTime == old(lastAttackTime) && isAttacking == old(isAttacking)
      ensures feedbacks == old(feedbacks) && attackTriggers == old(attackTriggers)
      ensures attackTimes == old(attackTimes)
    {
      if !cameraPresent {
        return;
      }
      if mouse.x < position.x {
        flipX := true;
      } else {
        flipX := false;
      }
    }

    /** FixedUpdate: moves when the stored input is longer than 0.1 and no feedback locks it. */
    method FixedUpdate() returns (outcome: MoveOutcome)
      ensures outcome != NoMove <==> MagnitudeAbove(movementInput, Players.RunningThresholdSquared) && !isAttacking
      ensures outcome == NullBody <==> outcome != NoMove && !hasBody
    {
      if MagnitudeAbove(movementInput, Players.RunningThresholdSquared) && !isAttacking {
        outcome := if hasBody then Moved else NullBody;
      } else {
        outcome := NoMove;
      }
    }

    /**
     * TryAttack at time `now`: when the cooldown has elapsed, attack with the
     * weapon, start the feedback (with a sprite), fire the animator trigger
     * (with an animator) and record `now`; otherwise nothing happens. An
     * ActiveWeapon without a sword throws before anything changes.
     */
    method TryAttack(now: real) returns (accepted: bool, outcome: TickOutcome)
      requires Valid() && (weapon != null ==> weapon.Valid())
      modifies this, weapon
      ensures Valid() && (weapon != null ==> weapon.Valid())
      ensures accepted <==> CooldownElapsed(now, old(lastAttackTime), attackCooldown)
      ensures outcome.Threw? <==> accepted && hasActiveWeapon && weapon == null
      ensures outcome.Threw? ==> outcome.fault == NullReference
      ensures !accepted || outcome.Threw? ==> unchanged(this) && (weapon != null ==> unchanged(weapon))
      ensures accepted && outcome == Completed ==>
        && lastAttackTime == At(now) && attackTimes == old(attackTimes) + [now]
        && isAttacking == (hasSprite || old(isAttacking))
        && feedbacks == old(feedbacks) + (if hasSprite then [Players.FeedbackDuration] else [])
        && attackTriggers == old(attackTriggers) + (if hasAnimator then 1 else 0)
      ensures accepted && hasActiveWeapon && weapon != null && !old(weapon.isAttacking) ==>
        && weapon.isAttacking && weapon.swings == old(weapon.swings) + 1
        && weapon.routineRemaining == weapon.attackDuration
        && weapon.colliderEnabled == (old(weapon.colliderEnabled) || weapon.hasCollider)
        && weapon.damage == old(weapon.damage)
      ensures weapon != null && (!hasActiveWeapon || old(weapon.isAttacking)) ==> unchanged(weapon)
      ensures hasBody == old(hasBody) && hasSprite == old(hasSprite) && hasAnimator == old(hasAnimator)
      ensures movementInput == old(movementInput) && flipX == old(flipX)
      ensures animatorIsRunning == old(animatorIsRunning)
    {
      accepted := CooldownElapsed(now, lastAttackTime, attackCooldown);
      outcome := Completed;
      if accepted {
        if hasActiveWeapon {
          if weapon == null {
            outcome := Threw(NullReference);
            return;
          }
          weapon.Attack();
        }
        AppendSpacedAtLeast(attackTimes, attackCooldown, now);
        if hasSprite {
          // StartCoroutine runs AttackVisualFeedback up to its wait
          isAttacking := true;
          feedbacks := feedbacks + [Players.FeedbackDuration];
        }
        if hasAnimator {
          attackTriggers := attackTriggers + 1;
        }
        lastAttackTime := At(now);
        attackTimes := attackTimes + [now];
      }
    }

    /**
     * A frame of length dt passes: every feedback whose wait runs out resumes
     * and clears isAttacking.
     */
    method Tick(dt: real)
      requires Valid()
      modifies this
      ensures Valid()
      ensures feedbacks == Advance(old(feedbacks), dt)
      ensures isAttacking == (old(isAttacking) && !AnyFinishes(old(feedbacks), dt))
      ensures hasBody == old(hasBody) && hasSprite == old(hasSprite) && hasAnimator == old(hasAnimator)
      ensures movementInput == old(movementInput) && flipX == old(flipX)
      ensures lastAttackTime == old(lastAttackTime) && attackTimes == old(attackTimes)
      ensures animatorIsRunning == old(animatorIsRunning) && attackTriggers == old(attackTriggers)
    {
      if AnyFinishes(feedbacks, dt) {
        isAttacking := false;
      }
      feedbacks := Advance(feedbacks, dt);
    }
  }

  /**
   * Accepted attacks are at least the cooldown apart, whatever the times
   * passed in. PlayerController is a class of its own beside Player, so its
   * history gets its own statement.
   */
  lemma ControllerAttacksAtLeastCooldownApart(p: PlayerController, i: nat, j: nat)
    requires p.Valid() && p.attackCooldown >= 0.0
    requires i < j < |p.attackTimes|
    ensures p.attackTimes[j] - p.attackTimes[i] >= p.attackCooldown
  {
    AnyTwoAtLeast(p.attackTimes, p.attackCooldown, i, j);
  }

  /**
   * For the integer-valued intents both controllers receive, Player's 0.01
   * movement threshold and PlayerController's 0.1 threshold agree: both
   * hold exactly for a non-zero vector.
   */
  lemma MovementThresholdsAgree(v: MoveVector)
    ensures MagnitudeAbove(v, Players.MovingThresholdSquared) <==> !IsZero(v)
    ensures MagnitudeAbove(v, Players.RunningThresholdSquared) <==> !IsZero(v)
  {
    IntegerMagnitudeAbove(v, Players.MovingThresholdSquared);
    IntegerMagnitudeAbove(v, Players.RunningThresholdSquared);
  }
}
