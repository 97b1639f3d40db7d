/**
 * The melee weapon (Scripts/Weapon/Sword.cs): a guarded attack window that
 * switches the hit collider on for `attackDuration` seconds and applies
 * damage to enemies reported while it is open. The coroutine's
 * WaitForSeconds is the countdown `routineRemaining`, advanced by Tick.
 */
module Weapons {

  /** What OnTriggerEnter2D receives: the collider's name and whether it carries an EnemyEntity. */
  datatype Collision = Collision(name: string, hasEnemyEntity: bool)

  /** One call of EnemyEntity.TakeDamage. */
  datatype Damage = Damage(target: Collision, amount: int)

  class Sword {
    const damageAmount: int
    const attackDuration: real
    /** Awake found a PolygonCollider2D. */
    const hasCollider: bool
    /** `_attackCollider.enabled`; stays as it is when there is no collider. */
    var colliderEnabled: bool
    var isAttacking: bool
    /** Seconds left in AttackRoutine's wait; the routine runs exactly while isAttacking. */
    var routineRemaining: real
    /** How many times OnSwordSwing was raised. */
    var swings: nat
    /** Every TakeDamage call made so far. */
    var damage: seq<Damage>

    /** The collider is on exactly while the window is open (when there is one). */
    predicate ColliderMatchesWindow()
      reads this
    {
      hasCollider ==> colliderEnabled == isAttacking
    }

    /** Every damage call went to an enemy, with the configured amount. */
    ghost predicate Valid()
      reads this
    {
      forall k :: 0 <= k < |damage| ==> damage[k].target.hasEnemyEntity && damage[k].amount == damageAmount
    }

    /**
     * Awake: looks the collider up and changes nothing else; until Start the
     * collider's enabled flag is whatever the scene gave it.
     */
    constructor (damageAmount: int, attackDuration: real, hasCollider: bool, colliderEnabledInScene: bool)
      ensures this.damageAmount == damageAmount && this.attackDuration == attackDuration
      ensures this.hasCollider == hasCollider && colliderEnabled == colliderEnabledInScene
      ensures !isAttacking && swings == 0 && damage == []
      ensures Valid()
    {
      this.damageAmount := damageAmount;
      this.attackDuration := attackDuration;
      this.hasCollider := hasCollider;
      colliderEnabled := colliderEnabledInScene;
      isAttacking := false;
      routineRemaining := 0.0;
      swings := 0;
      damage := [];
    }

    /** Start: turns the collider off. */
    method Start()
      modifies this
      ensures hasCollider ==> !colliderEnabled
      ensures !hasCollider ==> colliderEnabled == old(colliderEnabled)
      ensures isAttacking == old(isAttacking) && routineRemaining == old(routineRemaining)
      ensures swings == old(swings) && damage == old(damage)
      ensures !isAttacking ==> ColliderMatchesWindow()
    {
      AttackColliderTurnOff();
    }

    method AttackColliderTurnOff()
      modifies this
      ensures colliderEnabled == (old(colliderEnabled) && !hasCollider)
      ensures isAttacking == old(isAttacking) && routineRemaining == old(routineRemaining)
      ensures swings == old(swings) && damage == old(damage)
    {
      if hasCollider {
        colliderEnabled := false;
      }
    }

    method AttackColliderTurnOn()
      modifies this
      ensures colliderEnabled == (old(colliderEnabled) || hasCollider)
      ensures isAttacking == old(isAttacking) && routineRemaining == old(routineRemaining)
      ensures swings == old(swings) && damage == old(damage)
    {
      if hasCollider {
        colliderEnabled := true;
      }
    }

    /**
     * Attack: ignored while a window is open; otherwise the routine opens the
     * window and starts waiting, and then OnSwordSwing is raised once.
     */
    method Attack()
      requires Valid()
      modifies this
      ensures Valid()
      ensures old(isAttacking) ==> unchanged(this)
      ensures !old(isAttacking) ==>
        && isAttacking && routineRemaining == attackDuration
        && colliderEnabled == (old(colliderEnabled) || hasCollider)
        && swings == old(swings) + 1 && damage == old(damage)
      ensures old(ColliderMatchesWindow()) ==> ColliderMatchesWindow()
    {
      if isAttacking {
        return;
      }
      // StartCoroutine runs AttackRoutine up to its first wait
      isAttacking := true;
      AttackColliderTurnOn();
      routineRemaining := attackDuration;
      swings := swings + 1;
    }

    /**
     * A frame of length dt passes: a waiting AttackRoutine resumes when its
     * wait has run out, closes the window and ends.
     */
    method Tick(dt: real)
      requires Valid()
      modifies this
      ensures Valid()
      ensures !old(isAttacking) ==> unchanged(this)
      ensures old(isAttacking) && old(routineRemaining) - dt > 0.0 ==>
        && isAttacking && routineRemaining == old(routineRemaining) - dt
        && colliderEnabled == old(colliderEnabled)
      ensures old(isAttacking) && old(routineRemaining) - dt <= 0.0 ==>
        && !isAttacking && colliderEnabled == (old(colliderEnabled) && !hasCollider)
      ensures swings == old(swings) && damage == old(damage)
      ensures old(ColliderMatchesWindow()) ==> ColliderMatchesWindow()
    {
      if isAttacking {
        routineRemaining := routineRemaining - dt;
        if routineRemaining <= 0.0 {
          AttackColliderTurnOff();
          isAttacking := false;
        }
      }
    }

    /**
     * OnTriggerEnter2D: while the window is open, an enemy takes
     * `damageAmount`; nothing else happens. The same enemy may be reported
     * and damaged more than once in one window.
     */
    method OnTriggerEnter2D(collision: Collision)
      requires Valid()
      modifies this
      ensures Valid()
      ensures damage == old(damage) +
        (if isAttacking && collision.hasEnemyEntity then [Damage(collision, damageAmount)] else [])
      ensures isAttacking == old(isAttacking) && colliderEnabled == old(colliderEnabled)
      ensures routineRemaining == old(routineRemaining) && swings == old(swings)
    {
      if !isAttacking {
        return;
      }
      if collision.hasEnemyEntity {
        damage := damage + [Damage(collision, damageAmount)];
      }
    }
  }
}
