// The melee enemy: health, death, hit-react and attack cooldowns, attack
// range, stun, the floating damage numbers, and what it writes into its AI
// controller's blackboard.

module EnemyAI {
  import opened ShooterTypes
  import opened AIControl
  import Shooter

  /** The four attack montage sections, in the order the attack roll picks them. */
  const AttackLFast := "AttackLFast"
  const AttackRFast := "AttackRFast"
  const AttackL := "AttackL"
  const AttackR := "AttackR"

  /**
   * GetAttackSectionName for a given roll: rolls 1 to 4 pick the four
   * sections in order; any other value leaves the name empty (None).
   */
  function AttackSectionName(section: int): (r: Option<string>)
    ensures r.Some? <==> 1 <= section <= 4
    ensures r.Some? ==> r.value in {AttackLFast, AttackRFast, AttackL, AttackR}
  {
    if section == 1 then Some(AttackLFast)
    else if section == 2 then Some(AttackRFast)
    else if section == 3 then Some(AttackL)
    else if section == 4 then Some(AttackR)
    else None
  }

  /** Different rolls give different sections, so each of the four is reachable. */
  lemma AttackSectionsDistinct(a: int, b: int)
    requires 1 <= a <= 4 && 1 <= b <= 4 && a != b
    ensures AttackSectionName(a) != AttackSectionName(b)
  {
  }

  /** AEnemy's gameplay state. */
  class Enemy {
    /** Values the enemy and enemy-level data tables supply. */
    const maxHealth: real
    const baseDamage: real
    const stunChance: real
    const hasDeathMontage: bool

    var health: real
    var bIsDying: bool
    var bCanHitReact: bool
    var bCanAttack: bool
    var bIsInAttackRange: bool
    var bIsStunned: bool
    /** Whether the Blueprint health bar is on screen. */
    var healthBarVisible: bool
    /** Damage-number widgets on screen and the world location each belongs to. */
    var damageNumbers: map<object, Vector>
    var enemyController: EnemyController?

    /** The header's initialisers, with the data-table values. */
    constructor (maxHealth: real, baseDamage: real, stunChance: real, hasDeathMontage: bool)
      ensures this.maxHealth == maxHealth && this.baseDamage == baseDamage
      ensures this.stunChance == stunChance && this.hasDeathMontage == hasDeathMontage
      ensures health == 100.0 && !bIsDying && bCanHitReact && bCanAttack
      ensures !bIsInAttackRange && !bIsStunned && !healthBarVisible
      ensures damageNumbers == map[] && enemyController == null
    {
      this.maxHealth := maxHealth;
      this.baseDamage := baseDamage;
      this.stunChance := stunChance;
      this.hasDeathMontage := hasDeathMontage;
      health := 100.0;
      bIsDying := false;
      bCanHitReact := true;
      bCanAttack := true;
      bIsInAttackRange := false;
      bIsStunned := false;
      healthBarVisible := false;
      damageNumbers := map[];
      enemyController := null;
    }

    /** The controller, as a frame. */
    function Controller(): set<EnemyController>
      reads this`enemyController
    {
      if enemyController != null then {enemyController} else {}
    }

    /**
     * BeginPlay: full health, and the controller's blackboard learns that
     * the enemy can attack and where its two patrol points are (given here
     * in world space); then the behaviour tree runs.  The source writes
     * "CanAttack" before testing the controller for null, so a controller
     * must be there.
     */
    method BeginPlay(controller: EnemyController, patrolPoint: Vector, patrolPoint2: Vector)
      modifies this`health, this`enemyController, controller`blackboard, controller`behaviorTreeRunning
      ensures health == maxHealth && enemyController == controller
      ensures controller.blackboard == old(controller.blackboard)[CanAttackKey := BoolValue(true)]
                                         [PatrolPointKey := VectorValue(patrolPoint)]
                                         [PatrolPoint2Key := VectorValue(patrolPoint2)]
      ensures controller.behaviorTreeRunning
    {
      health := maxHealth;
      enemyController := controller;
      enemyController.SetValue(CanAttackKey, BoolValue(true));
      enemyController.SetValue(PatrolPointKey, VectorValue(patrolPoint));
      enemyController.SetValue(PatrolPoint2Key, VectorValue(patrolPoint2));
      enemyController.RunBehaviorTree();
    }

    /**
     * ShowHealthBar: the Blueprint shows the bar.  The native part only
     * restarts the timer that later calls HideHealthBar.
     */
    method ShowHealthBar()
      modifies this`healthBarVisible
      ensures healthBarVisible
    {
      healthBarVisible := true;
    }

    /** HideHealthBar: implemented in Blueprint only; the bar is hidden. */
    method HideHealthBar()
      modifies this`healthBarVisible
      ensures !healthBarVisible
    {
      healthBarVisible := false;
    }

    /**
     * Die: the health bar is hidden; the first call marks the enemy dying
     * and, with a death montage and a controller, tells the blackboard and
     * stops movement.  Later calls change nothing else.
     */
    method Die()
      modifies this`healthBarVisible, this`bIsDying, Controller()`blackboard, Controller()`movementStopped
      ensures !healthBarVisible && bIsDying
      ensures old(bIsDying) ==> Controller() == {} || (enemyController.blackboard == old(enemyController.blackboard)
                                                       && enemyController.movementStopped == old(enemyController.movementStopped))
      ensures !old(bIsDying) && hasDeathMontage && enemyController != null ==>
                enemyController.blackboard == old(enemyController.blackboard)[DeadKey := BoolValue(true)]
                && enemyController.movementStopped
      ensures !(!old(bIsDying) && hasDeathMontage) && enemyController != null ==>
                enemyController.blackboard == old(enemyController.blackboard)
                && enemyController.movementStopped == old(enemyController.movementStopped)
    {
      HideHealthBar();
      if bIsDying {
        return;
      }
      bIsDying := true;
      if !hasDeathMontage {
        return;
      }
      if enemyController == null {
        return;
      }
      enemyController.SetValue(DeadKey, BoolValue(true));
      enemyController.StopMovement();
    }

    /** PlayHitMontage: only when hit reactions are allowed; then they are blocked until the timer resets them. */
    method PlayHitMontage()
      modifies this`bCanHitReact
      ensures !bCanHitReact
    {
      if !bCanHitReact {
        return;
      }
      bCanHitReact := false;
    }

    /** ResetHitReactTimer: hit reactions are allowed again. */
    method ResetHitReactTimer()
      modifies this`bCanHitReact
      ensures bCanHitReact
    {
      bCanHitReact := true;
    }

    /** PlayAttackMontage: the enemy cannot attack again until ResetCanAttack; the blackboard agrees. */
    method PlayAttackMontage()
      modifies this`bCanAttack, Controller()`blackboard
      ensures !bCanAttack
      ensures enemyController != null ==>
                enemyController.blackboard == old(enemyController.blackboard)[CanAttackKey := BoolValue(false)]
    {
      bCanAttack := false;
      if enemyController == null {
        return;
      }
      enemyController.SetValue(CanAttackKey, BoolValue(false));
    }

    /** ResetCanAttack: the attack cooldown is over.  The source does not test the controller for null. */
    method ResetCanAttack()
      requires enemyController != null
      modifies this`bCanAttack, enemyController`blackboard
      ensures bCanAttack
      ensures enemyController.blackboard == old(enemyController.blackboard)[CanAttackKey := BoolValue(true)]
    {
      bCanAttack := true;
      enemyController.SetValue(CanAttackKey, BoolValue(true));
    }

    /** SetIsStunned: the flag and the blackboard's "Stunned" key. */
    method SetIsStunned(stunned: bool)
      modifies this`bIsStunned, Controller()`blackboard
      ensures bIsStunned == stunned
      ensures enemyController != null ==>
                enemyController.blackboard == old(enemyController.blackboard)[StunnedKey := BoolValue(stunned)]
    {
      bIsStunned := stunned;
      if enemyController == null {
        return;
      }
      enemyController.SetValue(StunnedKey, BoolValue(stunned));
    }

    /** SetTarget: only the shooter character becomes the blackboard's target. */
    method SetTarget(target: Shooter.ShooterCharacter?)
      modifies Controller()`blackboard
      ensures enemyController != null ==>
                enemyController.blackboard == if target != null
                                              then old(enemyController.blackboard)[TargetKey := ObjectValue(target)]
                                              else old(enemyController.blackboard)
    {
      if enemyController == null {
        return;
      }
      if target != null {
        enemyController.SetValue(TargetKey, ObjectValue(target));
      }
    }

    /** AgroSphereOverlap: whatever enters the agro sphere is offered as target. */
    method AgroSphereOverlap(other: Shooter.ShooterCharacter?)
      modifies Controller()`blackboard
      ensures enemyController != null ==>
                enemyController.blackboard == if other != null
                                              then old(enemyController.blackboard)[TargetKey := ObjectValue(other)]
                                              else old(enemyController.blackboard)
    {
      SetTarget(other);
    }

    /** CombatRangeOverlap: the shooter character is in attack range. */
    method CombatRangeOverlap(other: Shooter.ShooterCharacter?)
      modifies this`bIsInAttackRange, Controller()`blackboard
      ensures bIsInAttackRange == (old(bIsInAttackRange) || other != null)
      ensures enemyController != null ==>
                enemyController.blackboard == if other != null
                                              then old(enemyController.blackboard)[InAttackRangeKey := BoolValue(true)]
                                              else old(enemyController.blackboard)
    {
      if other != null {
        bIsInAttackRange := true;
        if enemyController == null {
          return;
        }
        enemyController.SetValue(InAttackRangeKey, BoolValue(true));
      }
    }

    /** CombatRangeEndOverlap: the shooter character has left attack range. */
    method CombatRangeEndOverlap(other: Shooter.ShooterCharacter?)
      modifies this`bIsInAttackRange, Controller()`blackboard
      ensures bIsInAttackRange == (old(bIsInAttackRange) && other == null)
      ensures enemyController != null ==>
                enemyController.blackboard == if other != null
                                              then old(enemyController.blackboard)[InAttackRangeKey := BoolValue(false)]
                                              else old(enemyController.blackboard)
    {
      if other != null {
        bIsInAttackRange := false;
        if enemyController == null {
          return;
        }
        enemyController.SetValue(InAttackRangeKey, BoolValue(false));
      }
    }

    /**
     * TakeDamage, with the stun roll as a parameter.  The causer becomes
     * the target; health is clamped at zero, where the enemy dies.  A dying
     * enemy takes no damage (returns 0); otherwise the health bar shows and
     * a roll not above stunChance stuns it.
     */
    method TakeDamage(damage: real, causer: Shooter.ShooterCharacter?, roll: real) returns (r: real)
      modifies this`health, this`bIsDying, this`healthBarVisible, this`bCanHitReact, this`bIsStunned,
               Controller()`blackboard, Controller()`movementStopped
      ensures health == ClampedHealth(old(health), damage)
      ensures bIsDying == (old(bIsDying) || health == 0.0)
      ensures r == if bIsDying then 0.0 else damage
      ensures bIsDying ==> healthBarVisible == (old(healthBarVisible) && health != 0.0)
      ensures bIsDying ==> bIsStunned == old(bIsStunned) && bCanHitReact == old(bCanHitReact)
      ensures !bIsDying ==> healthBarVisible
      ensures !bIsDying && roll <= stunChance ==> bIsStunned && !bCanHitReact
      ensures !bIsDying && roll > stunChance ==> bIsStunned == old(bIsStunned) && bCanHitReact == old(bCanHitReact)
      ensures old(health) >= 0.0 ==> health >= 0.0
      ensures enemyController != null ==>
                enemyController.blackboard ==
                  var targeted := if causer != null then old(enemyController.blackboard)[TargetKey := ObjectValue(causer)]
                                  else old(enemyController.blackboard);
                  var killed := if !old(bIsDying) && health == 0.0 && hasDeathMontage
                                then targeted[DeadKey := BoolValue(true)] else targeted;
                  if !bIsDying && roll <= stunChance then killed[StunnedKey := BoolValue(true)] else killed
      ensures enemyController != null ==>
                enemyController.movementStopped ==
                  (old(enemyController.movementStopped) || (!old(bIsDying) && health == 0.0 && hasDeathMontage))
    {
      SetTarget(causer);
      if health - damage <= 0.0 {
        health := 0.0;
        Die();
      } else {
        health := health - damage;
      }
      if bIsDying {
        return 0.0;
      }
      ShowHealthBar();
      if roll <= stunChance {
        PlayHitMontage();
        SetIsStunned(true);
      }
      r := damage;
    }

    /** StoreDamageNumber: the widget is shown at the hit location. */
    method StoreDamageNumber(widget: object, location: Vector)
      modifies this`damageNumbers
      ensures damageNumbers == old(damageNumbers)[widget := location]
      ensures widget in damageNumbers && damageNumbers[widget] == location
    {
      damageNumbers := damageNumbers[widget := location];
    }

    /** DestroyDamageNumber: the widget's timer ran out; exactly its entry goes. */
    method DestroyDamageNumber(widget: object)
      modifies this`damageNumbers
      ensures damageNumbers == old(damageNumbers) - {widget}
      ensures widget !in damageNumbers
    {
      damageNumbers := damageNumbers - {widget};
    }

    /**
     * DoDamage: a melee hit on the shooter character, with this enemy's
     * controller as instigator.  Zero base damage applies no damage.  The
     * result is what the character's TakeDamage reports (the source drops it).
     */
    method DoDamage(c: Shooter.ShooterCharacter?) returns (dealt: real)
      modifies {c}`health, {c}`bIsDead, {c}`inputEnabled, Controller()`blackboard
      ensures c == null || baseDamage == 0.0 ==> dealt == 0.0
      ensures c != null && baseDamage != 0.0 ==>
                c.health == ClampedHealth(old(c.health), baseDamage)
                && c.bIsDead == (old(c.bIsDead) || c.health == 0.0)
                && c.inputEnabled == (old(c.inputEnabled) && !(c.health == 0.0 && c.hasDeathMontage && c.hasPlayerController))
                && dealt == (if c.health == 0.0 && enemyController == null then 0.0 else baseDamage)
      ensures c != null && baseDamage != 0.0 && c.health == 0.0 && enemyController != null ==>
                enemyController.blackboard == old(enemyController.blackboard)[CharacterDeadKey := BoolValue(true)]
      ensures (c == null || baseDamage == 0.0 || c.health != 0.0) && enemyController != null ==>
                enemyController.blackboard == old(enemyController.blackboard)
      ensures c != null && baseDamage == 0.0 ==>
                c.health == old(c.health) && c.bIsDead == old(c.bIsDead) && c.inputEnabled == old(c.inputEnabled)
    {
      dealt := 0.0;
      if c == null {
        return;
      }
      if baseDamage != 0.0 {
        dealt := c.TakeDamage(baseDamage, enemyController);
      }
    }

    /** StunCharacter, with the roll as a parameter: a roll not above the character's stunChance calls Stun. */
    method StunCharacter(c: Shooter.ShooterCharacter?, roll: real)
      modifies {c}`combatState
      ensures c != null && c.Valid() ==> c.combatState == old(c.combatState)
      ensures c != null && roll <= c.stunChance && old(c.health) < 0.0 ==> c.combatState == ShooterTypes.Stunned
      ensures c != null && roll > c.stunChance ==> c.combatState == old(c.combatState)
    {
      if c == null {
        return;
      }
      if roll <= c.stunChance {
        c.Stun();
      }
    }
  }
}
