// The animation instance's discrete decisions: the booleans it derives from
// the owning character's combat state, the aim-offset priority and the
// recoil-weight table. Speeds, rotations, turn-in-place yaw and lean are
// floating-point interpolation and stay outside the model; what TurnInPlace
// decides about the turning flag comes in as a parameter.

module ShooterAnim {
  import ShooterTypes
  import Shooter

  /** EOffsetState: four live aim-offset poses and the MAX sentinel. */
  datatype OffsetState = Aiming | Hip | Reloading | InAir | OffsetStateMax

  /** The three flags UpdateAnimProperties reads off the combat state. */
  datatype StateFlags = StateFlags(reloading: bool, equipping: bool, useFabrik: bool)

  /**
   * Reloading and equipping are read off their own states; the two-hand IK
   * (FABRIK) poses are used only while the hands are free, that is when
   * unoccupied or between automatic shots.
   */
  function FlagsFor(s: ShooterTypes.CombatState): (f: StateFlags)
    ensures f.reloading <==> s == ShooterTypes.Reloading
    ensures f.equipping <==> s == ShooterTypes.Equipping
    ensures f.useFabrik <==> s == ShooterTypes.Unoccupied || s == ShooterTypes.ShootTimerInProgress
    ensures !(f.reloading && f.equipping)
    ensures f.useFabrik ==> !f.reloading && !f.equipping
  {
    match s
    case Unoccupied => StateFlags(false, false, true)
    case ShootTimerInProgress => StateFlags(false, false, true)
    case Reloading => StateFlags(true, false, false)
    case Equipping => StateFlags(false, true, false)
    case Stunned => StateFlags(false, false, false)
    case CombatStateMax => StateFlags(false, false, false)
  }

  /**
   * The aim-offset pose by priority: reloading beats being in the air,
   * which beats aiming; with none of them the weapon is held at the hip.
   */
  function OffsetStateFor(reloading: bool, inAir: bool, aiming: bool): (o: OffsetState)
    ensures o != OffsetStateMax
    ensures o == Reloading <==> reloading
    ensures o == InAir <==> !reloading && inAir
    ensures o == Aiming <==> !reloading && !inAir && aiming
    ensures o == Hip <==> !reloading && !inAir && !aiming
  {
    if reloading then Reloading
    else if inAir then InAir
    else if aiming then Aiming
    else Hip
  }

  /**
   * The recoil-weight table. A reload or an equip always plays the full
   * recoil layer; otherwise turning in place mutes it, crouching damps it to
   * 0.1, aiming upright plays it in full and the hip stance plays half.
   */
  function RecoilWeight(turning: bool, crouching: bool, aiming: bool, reloading: bool, equipping: bool): (w: real)
    ensures w == 0.0 || w == 0.1 || w == 0.5 || w == 1.0
    ensures reloading || equipping ==> w == 1.0
    ensures !reloading && !equipping && turning ==> w == 0.0
    ensures !reloading && !equipping && !turning && crouching ==> w == 0.1
    ensures !reloading && !equipping && !turning && !crouching && aiming ==> w == 1.0
    ensures !reloading && !equipping && !turning && !crouching && !aiming ==> w == 0.5
  {
    if turning then
      (if reloading || equipping then 1.0 else 0.0)
    else if crouching then
      (if reloading || equipping then 1.0 else 0.1)
    else
      (if aiming || reloading || equipping then 1.0 else 0.5)
  }

  /** The recoil layer plays in full exactly when busy, or when aiming upright and still. */
  lemma FullRecoilExactly(turning: bool, crouching: bool, aiming: bool, reloading: bool, equipping: bool)
    ensures RecoilWeight(turning, crouching, aiming, reloading, equipping) == 1.0
      <==> reloading || equipping || (!turning && !crouching && aiming)
  {
  }

  /** The weight the table gives for a character's combat state is 1 whenever it reloads or equips. */
  lemma BusyStateFullRecoil(s: ShooterTypes.CombatState, turning: bool, crouching: bool, aiming: bool)
    requires s == ShooterTypes.Reloading || s == ShooterTypes.Equipping
    ensures RecoilWeight(turning, crouching, aiming, FlagsFor(s).reloading, FlagsFor(s).equipping) == 1.0
    ensures OffsetStateFor(FlagsFor(s).reloading, false, aiming) == (if s == ShooterTypes.Reloading then Reloading else if aiming then Aiming else Hip)
  {
  }

  class ShooterAnimInstance {
    var shooterCharacter: Shooter.ShooterCharacter?
    var recoilWeight: real
    var bIsInAir: bool
    var bIsAccelerating: bool
    var bIsTurningInPlace: bool
    var bIsAiming: bool
    var bIsReloading: bool
    var bIsCrouching: bool
    var bIsEquipping: bool
    var offsetState: OffsetState
    var equippedWeaponType: ShooterTypes.WeaponType
    var bShouldUseFABRIKPoses: bool

    /** The header's initial values. */
    constructor ()
      ensures shooterCharacter == null
      ensures recoilWeight == 1.0
      ensures !bIsInAir && !bIsAccelerating && !bIsTurningInPlace && !bIsAiming
      ensures !bIsReloading && !bIsCrouching && !bIsEquipping
      ensures offsetState == Hip
      ensures equippedWeaponType == ShooterTypes.WeaponTypeMax
      ensures !bShouldUseFABRIKPoses
    {
      shooterCharacter := null;
      recoilWeight := 1.0;
      bIsInAir := false;
      bIsAccelerating := false;
      bIsTurningInPlace := false;
      bIsAiming := false;
      bIsReloading := false;
      bIsCrouching := false;
      bIsEquipping := false;
      offsetState := Hip;
      equippedWeaponType := ShooterTypes.WeaponTypeMax;
      bShouldUseFABRIKPoses := false;
    }

    /** Binds the instance to its pawn owner; null when the owner is not a shooter character. */
    method NativeInitializeAnimation(pawnOwner: Shooter.ShooterCharacter?)
      modifies this`shooterCharacter
      ensures shooterCharacter == pawnOwner
    {
      shooterCharacter := pawnOwner;
    }

    /**
     * One frame of UpdateAnimProperties. `isInAir` and `isAccelerating` are
     * what the movement component reports; `turnInPlace` is what TurnInPlace
     * decides about the turning flag (None when it leaves the flag as it was).
     * With no owning character nothing changes; otherwise the flags follow
     * the character, the recoil weight is recomputed, and the weapon type is
     * copied only when a weapon is equipped.
     */
    method UpdateAnimProperties(pawnOwner: Shooter.ShooterCharacter?, isInAir: bool, isAccelerating: bool,
                                turnInPlace: ShooterTypes.Option<bool>)
      modifies this`shooterCharacter, this`bIsCrouching, this`bIsReloading, this`bIsEquipping,
               this`bShouldUseFABRIKPoses, this`bIsInAir, this`bIsAccelerating, this`bIsAiming,
               this`offsetState, this`bIsTurningInPlace, this`recoilWeight, this`equippedWeaponType
      ensures shooterCharacter == if old(shooterCharacter) != null then old(shooterCharacter) else pawnOwner
      ensures shooterCharacter == null ==> unchanged(this)
      ensures shooterCharacter != null ==>
        StateFlags(bIsReloading, bIsEquipping, bShouldUseFABRIKPoses) == FlagsFor(shooterCharacter.combatState)
      ensures shooterCharacter != null ==>
        bIsCrouching == shooterCharacter.bIsCrouching && bIsAiming == shooterCharacter.bIsAiming
      ensures shooterCharacter != null ==> bIsInAir == isInAir && bIsAccelerating == isAccelerating
      ensures shooterCharacter != null ==> offsetState == OffsetStateFor(bIsReloading, isInAir, bIsAiming)
      ensures shooterCharacter != null ==>
        bIsTurningInPlace == (if turnInPlace.Some? then turnInPlace.value else old(bIsTurningInPlace))
      ensures shooterCharacter != null ==>
        recoilWeight == RecoilWeight(bIsTurningInPlace, bIsCrouching, bIsAiming, bIsReloading, bIsEquipping)
      ensures shooterCharacter != null && shooterCharacter.equippedWeapon != null ==>
        equippedWeaponType == shooterCharacter.equippedWeapon.weaponType
      ensures shooterCharacter != null && shooterCharacter.equippedWeapon == null ==>
        equippedWeaponType == old(equippedWeaponType)
    {
      if shooterCharacter == null {
        shooterCharacter := pawnOwner;
      }
      if shooterCharacter == null {
        return;
      }
      FollowCharacter(shooterCharacter, isInAir, isAccelerating);

      // TurnInPlace: its float bookkeeping is not modelled, only its verdict
      // on the turning flag, after which it sets the recoil weight.
      if turnInPlace.Some? {
        bIsTurningInPlace := turnInPlace.value;
      }
      SetRecoilWeight();

      if shooterCharacter.equippedWeapon == null {
        return;
      }
      equippedWeaponType := shooterCharacter.equippedWeapon.weaponType;
    }

    /**
     * The part of UpdateAnimProperties that copies the character's pose:
     * the combat-state flags, crouching, aiming, the movement component's
     * verdicts, and the aim-offset pose chosen by priority.
     */
    method FollowCharacter(c: Shooter.ShooterCharacter, isInAir: bool, isAccelerating: bool)
      modifies this`bIsCrouching, this`bIsReloading, this`bIsEquipping, this`bShouldUseFABRIKPoses,
               this`bIsInAir, this`bIsAccelerating, this`bIsAiming, this`offsetState
      ensures StateFlags(bIsReloading, bIsEquipping, bShouldUseFABRIKPoses) == FlagsFor(c.combatState)
      ensures bIsCrouching == c.bIsCrouching && bIsAiming == c.bIsAiming
      ensures bIsInAir == isInAir && bIsAccelerating == isAccelerating
      ensures offsetState == OffsetStateFor(bIsReloading, isInAir, bIsAiming)
    {
      var flags := FlagsFor(c.combatState);
      bIsCrouching := c.bIsCrouching;
      bIsReloading := flags.reloading;
      bIsEquipping := flags.equipping;
      bShouldUseFABRIKPoses := flags.useFabrik;
      bIsInAir := isInAir;
      bIsAccelerating := isAccelerating;
      bIsAiming := c.bIsAiming;
      offsetState := OffsetStateFor(bIsReloading, bIsInAir, bIsAiming);
    }

    /** Sets the recoil layer's weight from the current pose flags. */
    method SetRecoilWeight()
      modifies this`recoilWeight
      ensures recoilWeight == RecoilWeight(bIsTurningInPlace, bIsCrouching, bIsAiming, bIsReloading, bIsEquipping)
      ensures recoilWeight == 0.0 || recoilWeight == 0.1 || recoilWeight == 0.5 || recoilWeight == 1.0
    {
      recoilWeight := RecoilWeight(bIsTurningInPlace, bIsCrouching, bIsAiming, bIsReloading, bIsEquipping);
    }
  }
}
