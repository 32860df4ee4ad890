// Enumerations, fixed-width integers and small value types shared by the
// shooter's items, character, enemy and animation instance.

module ShooterTypes {

  /** The engine's signed 32-bit and 8-bit integers. */
  newtype int32 = x: int | -0x8000_0000 <= x < 0x8000_0000
  newtype int8 = x: int | -0x80 <= x < 0x80

  /** INT_MAX, the starting "lowest amount" of the interp-slot search. */
  const Int32Max: int32 := 0x7fff_ffff

  predicate InInt32(x: int)
  {
    -0x8000_0000 <= x < 0x8000_0000
  }

  /**
   * Storing an int into an int8 keeps the value modulo 2^8 (what the compiler
   * does for `int8 += int8`): in range it is the value itself.
   */
  function WrapInt8(x: int): (r: int8)
    ensures -0x80 <= x < 0x80 ==> r as int == x
    ensures (x - r as int) % 0x100 == 0
  {
    var m := (x + 0x80) % 0x100;
    assert x - (m - 0x80) == ((x + 0x80) / 0x100) * 0x100;
    (m - 0x80) as int8
  }

  datatype Option<T> = None | Some(value: T)

  /** ECombatState: five live states and the ECS_MAX sentinel. */
  datatype CombatState = Unoccupied | ShootTimerInProgress | Reloading | Equipping | Stunned | CombatStateMax

  /** EItemRarity, in declaration order. */
  datatype ItemRarity = Damaged | Common | Uncommon | Rare | Legendary | RarityMax
  {
    /** The enumerator's underlying value. */
    function Ordinal(): nat
    {
      match this
      case Damaged => 0
      case Common => 1
      case Uncommon => 2
      case Rare => 3
      case Legendary => 4
      case RarityMax => 5
    }
  }

  /** EItemState: where an item is in its pickup life cycle. */
  datatype ItemState = Pickup | EquipInterping | PickedUp | Equipped | Falling | ItemStateMax

  /** EItemType: which interp slot an interpolating item flies to. */
  datatype ItemType = AmmoItem | WeaponItem | ItemTypeMax

  datatype WeaponType = SubmachineGun | AssaultRifle | Pistol | WeaponTypeMax

  datatype AmmoType = Ammo9mm | AmmoAR | AmmoTypeMax

  datatype Vector = Vector(x: real, y: real, z: real)

  /**
   * Health after a hit, as both the player and the enemy compute it: a hit
   * that would bring health to zero or below sets it to exactly zero.
   */
  function ClampedHealth(health: real, damage: real): (h: real)
    ensures h >= 0.0
    ensures h == 0.0 <==> health - damage <= 0.0
    ensures h > 0.0 ==> h == health - damage
  {
    if health - damage <= 0.0 then 0.0 else health - damage
  }
}
