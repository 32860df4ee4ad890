# Advanced Shooter gameplay bookkeeping, in Dafny

This project models the discrete gameplay state of the Advanced Shooter
third-person prototype, an Unreal Engine C++ game. It covers:

- the player character's combat-state machine;
- the carried-ammo map and the way it refills the magazine;
- the capped inventory, the interp-slot occupancy counters and the overlapped-item counter;
- the item life cycle with its per-state component table, rarity stars and custom-depth gate;
- the weapon magazine;
- the enemy's health, death, cooldown and blackboard flags;
- the animation instance's decision tables.

Engine services are handled as follows:

- Timers become methods that are called explicitly.
- Random rolls and movement-component queries become parameters.
- Sounds, montages, particles and delegate broadcasts are no-ops.
- The AI blackboard is a `map<string, BBValue>`.

Modules:

- `ShooterTypes` (ShooterTypes.dfy) holds the enumerations, the signed 32- and 8-bit integer types with 8-bit wrap-around, and the health clamp. The player and the enemy share that clamp.
- `ItemSettings` (ItemSettings.dfy) holds the collision and visibility settings of an item's components, the per-state property table of `AItem::SetItemProperties`, the ammo-mesh table of `AAmmo::SetItemProperties`, and the rarity-to-stars computation.
- `AIControl` (AIControl.dfy) reduces the enemy controller to its blackboard plus two flags: movement stopped and behaviour tree running.
- `Shooter` (Shooter.dfy) holds the `Item` class and the `ShooterCharacter` class.
  - `Item` merges `AItem`, `AWeapon` and `AAmmo`. Its `cls` field records the dynamic class, and the overridden members dispatch on it.
  - The two classes call each other, so they share a module.
  - The pure functions and lemmas that specify them are in the same module: magazine arithmetic, the reload transfer, the overlap counter, the exchange guard, the interp-slot counters and the carried-ammo update.
- `EnemyAI` (Enemy.dfy) holds the `Enemy` class and the attack-section names.
- `ShooterAnim` (ShooterAnim.dfy) holds the animation instance's flags from combat state, the aim-offset priority, the recoil-weight table and the `ShooterAnimInstance` class.

Quirks of the code are reproduced, not fixed:

- `IncrementInterpLocItemCount` guards on `amount < -1 && amount > 1`, which is never true.
- Its bounds test `Num() >= index` lets `index == Num()` through to an out-of-range write. `GetInterpLocation` has the same test. Both members therefore require `index != |interpLocations|`. An index past the end is a no-op, or yields the empty location.
- The guard of `ExchangeInventoryItems` reduces to `combatState != Equipping`.
- `Stun` returns whenever health is at least zero. Health never drops below zero, so the character is never stunned.
- `overlappedItemCount` is an `int8`, so `+=` wraps from 127 to -128.
- `AEnemy::BeginPlay` writes to the blackboard before it checks the controller for null, so the model requires a controller.
- `AItem::PlayPickupSound` and `PlayEquipSound` dereference a null character when a sound asset is set and the call is not forced. The model's precondition excludes that case.

## Model

| member | source | states |
|---|---|---|
| ShooterTypes.WrapInt8 | Source/AdvancedShooter/ShooterCharacter.h:363 | storing into the int8 counter keeps in-range values and otherwise agrees with the value modulo 256 |
| ShooterTypes.ClampedHealth | Source/AdvancedShooter/ShooterCharacter.cpp:1064-1076 | health after a hit is never negative; it is exactly 0 iff the hit reaches or passes zero, otherwise the old health minus the damage |
| ItemSettings.ItemProperties | Source/AdvancedShooter/Items/Item.cpp:145-243 | per state: only PickedUp hides the mesh, only Falling simulates physics and gravity and collides the mesh, only Pickup enables the area sphere (overlap on all channels) and the box (blocking Visibility); interping, picked-up and equipped hide the widget; ItemStateMax changes nothing; custom depth is untouched |
| ItemSettings.ItemPropertiesIdempotent | Source/AdvancedShooter/Items/Item.cpp:139-143 | applying a state's properties twice is the same as applying them once |
| ItemSettings.AmmoMeshProperties | Source/AdvancedShooter/Items/Ammo.cpp:39-79 | only Falling enables physics, gravity and collision on the ammo mesh; PickedUp (no case) leaves the mesh as it was; custom depth is untouched |
| ItemSettings.StarCount | Source/AdvancedShooter/Items/Item.cpp:109-136 | a live rarity lights ordinal+1 stars (Damaged 1 … Legendary 5); the MAX sentinel lights none |
| ItemSettings.FreshStars | Source/AdvancedShooter/Items/Item.cpp:101-137 | on an empty star array SetActiveStars yields six entries, index 0 false and index i true exactly for i ≤ ordinal+1 |
| AIControl.EnemyController.SetValue | Source/AdvancedShooter/AI/Enemy.cpp:485 | a blackboard write updates exactly that key |
| Shooter.AmmoAfterShot | Source/AdvancedShooter/Items/Weapon.cpp:184-191 | a shot leaves ammo − 1 when a round is loaded and 0 when at most one is, never negative |
| Shooter.ShotsDrainMagazine | Source/AdvancedShooter/Items/Weapon.cpp:184-191 | n shots from a magazine of a rounds leave a − n rounds, or 0 when n ≥ a |
| Shooter.ReloadTransfer | Source/AdvancedShooter/ShooterCharacter.cpp:773-797 | a reload conserves magazine plus carried ammo, never overfills the magazine, leaves the magazine full or the carried count 0, and from a legal state only moves rounds from carried to magazine |
| Shooter.ReloadTwiceMovesNothing | Source/AdvancedShooter/ShooterCharacter.cpp:773-797 | reloading again right after a reload moves no rounds |
| Shooter.OverlapUpdate | Source/AdvancedShooter/ShooterCharacter.cpp:553-566 | tracing is on iff the sum is positive; a non-positive sum resets the count to 0; a positive sum below 128 is stored as is, and one of 128 or more as sum − 256 (int8 wrap-around) |
| Shooter.OverlapEnterThenLeave | Source/AdvancedShooter/ShooterCharacter.cpp:553-566 | entering and then leaving one sphere restores the count and turns tracing on in between |
| Shooter.OverlapCountWraps | Source/AdvancedShooter/ShooterCharacter.cpp:563 | at 127 overlapped items one more wraps the count to −128 while tracing stays on |
| Shooter.ExchangeGuard | Source/AdvancedShooter/ShooterCharacter.cpp:978-979 | the exchange guard holds iff the slots differ, the target is below the inventory length and the state is not Equipping |
| Shooter.Bump | Source/AdvancedShooter/ShooterCharacter.cpp:645-653 | changing one slot's count changes that slot's count by exactly the amount and nothing else |
| Shooter.BumpThenUnbump | Source/AdvancedShooter/Items/Item.cpp:251-254 | adding 1 at the chosen slot and subtracting 1 at the same slot restores every count |
| Shooter.InitialSlotsBalanced | Source/AdvancedShooter/ShooterCharacter.cpp:621-643 | the seven freshly created slots are balanced (all counts 0) |
| Shooter.LeastLoadedPickKeepsBalance | Source/AdvancedShooter/ShooterCharacter.cpp:1159-1173 | sending an item to the first least-loaded item slot keeps all item slots within one item of each other |
| Shooter.AddCarried | Source/AdvancedShooter/ShooterCharacter.cpp:912-919 | picking up ammo adds the amount to its own type only, and a type absent from the map stays absent |
| Shooter.Item.constructor | Source/AdvancedShooter/Items/Item.cpp:11-31 | a new item starts in Pickup, not interping, custom depth changeable, no owner; the box blocks Visibility and ignores every other channel |
| Shooter.Item.SetItemProperties | Source/AdvancedShooter/Items/Ammo.cpp:35-37 | components take the state's property table; an ammo actor then also applies the ammo-mesh table |
| Shooter.Item.SetItemState | Source/AdvancedShooter/Items/Item.cpp:139-143 | stores the state and applies that state's properties |
| Shooter.Item.SetCustomDepth | Source/AdvancedShooter/Items/Item.cpp:466-476 | the outline changes only while bCanChangeCustomDepth holds; ammo (Ammo.cpp:99-107) ignores the gate |
| Shooter.Item.SetActiveStars | Source/AdvancedShooter/Items/Item.cpp:101-137 | appends six stars lit according to rarity |
| Shooter.Item.BeginPlay | Source/AdvancedShooter/Items/Item.cpp:34-52 | hides the pickup widget, lights the stars, applies the current state's properties and switches the outline off |
| Shooter.Item.OnSphereOverlap | Source/AdvancedShooter/Items/Item.cpp:79-88 | a shooter entering the sphere raises its overlapped-item count by one (OverlapUpdate) |
| Shooter.Item.OnSphereEndOverlap | Source/AdvancedShooter/Items/Item.cpp:90-99 | a shooter leaving lowers the count by one and clears the highlighted slot |
| Shooter.Item.SetSlotIndex | Source/AdvancedShooter/Items/Item.h:114 | stores the slot index unchanged |
| Shooter.Item.SetCharacter | Source/AdvancedShooter/Items/Item.h:115 | stores the owning character |
| Shooter.Item.SetCharacterInventoryFull | Source/AdvancedShooter/Items/Item.h:116 | stores the inventory-full flag |
| Shooter.Item.PlayPickupSound | Source/AdvancedShooter/Items/Item.cpp:501-516 | the sound plays iff forced or allowed by the owner's flag, and an unforced play closes the flag |
| Shooter.Item.PlayEquipSound | Source/AdvancedShooter/Items/Item.cpp:518-533 | the same gate for the equip sound and its flag |
| Shooter.Item.StartItemCurve | Source/AdvancedShooter/Items/Item.cpp:245-278 | the item is owned by the character, EquipInterping with that state's properties on its mesh (and on the ammo mesh for ammo), interping, outline locked; its slot is the first least-loaded item slot, whose count goes up by one |
| Shooter.Item.FinishInterping | Source/AdvancedShooter/Items/Item.cpp:375-393 | interping stops; with an owner the same slot's count goes down by one, the character takes the item, the highlight clears, the outline unlocks and is switched off (the ammo mesh's for ammo), and the inventory cap still holds; only the pickup's fields of item, owner and owner's weapon may change |
| Shooter.Item.InterpTarget | Source/AdvancedShooter/Items/Item.cpp:445-464 | ammo flies to its chosen slot's component, a weapon to slot 0's; no owner, or ItemTypeMax, gives no target |
| Shooter.Item.DecrementAmmo | Source/AdvancedShooter/Items/Weapon.cpp:184-191 | ammo becomes AmmoAfterShot of the old ammo |
| Shooter.Item.ReloadAmmo | Source/AdvancedShooter/Items/Weapon.cpp:177-182 | under the checkf that the magazine has room, adds exactly the amount |
| Shooter.Item.StopFalling | Source/AdvancedShooter/Items/Weapon.cpp:193-198 | the weapon stops falling and returns to Pickup, with that state's properties on its mesh (and on the ammo mesh for ammo) |
| Shooter.Item.ThrowWeapon | Source/AdvancedShooter/Items/Weapon.cpp:152-175 | the weapon is marked falling |
| Shooter.Item.StartSlideTimer | Source/AdvancedShooter/Items/Weapon.cpp:130-134 | the pistol slide starts moving |
| Shooter.Item.FinishMovingSlide | Source/AdvancedShooter/Items/Weapon.cpp:125-128 | the pistol slide stops |
| Shooter.Item.SetIsMovingClip | Source/AdvancedShooter/Items/Weapon.h:156 | stores the moving-clip flag |
| Shooter.Item.AmmoSphereOverlap | Source/AdvancedShooter/Items/Ammo.cpp:82-93 | only a shooter character starts the ammo's curve and disables its collision sphere; anything else changes nothing |
| Shooter.Item.Destroy | Source/AdvancedShooter/ShooterCharacter.cpp:931 | the picked-up ammo actor is destroyed |
| Shooter.ShooterCharacter.constructor | Source/AdvancedShooter/ShooterCharacter.h:401-528 | starts Unoccupied, with no highlighted slot (−1), both sound flags open, full health, an empty inventory, no slots and no overlaps |
| Shooter.ShooterCharacter.Jump | Source/AdvancedShooter/ShooterCharacter.cpp:203-213 | a crouching character stands up instead of jumping and regains walking speed |
| Shooter.ShooterCharacter.CrouchButtonPressed | Source/AdvancedShooter/ShooterCharacter.cpp:243-259 | on the ground the crouch flag toggles, and speed and friction follow it |
| Shooter.ShooterCharacter.Aim | Source/AdvancedShooter/ShooterCharacter.cpp:587-591 | aiming slows to crouch speed |
| Shooter.ShooterCharacter.StopAiming | Source/AdvancedShooter/ShooterCharacter.cpp:592-598 | stops aiming; standing restores walking speed |
| Shooter.ShooterCharacter.AimDownSight | Source/AdvancedShooter/ShooterCharacter.cpp:571-579 | the button is held; aiming starts unless reloading, equipping or stunned |
| Shooter.ShooterCharacter.StopAimingDownSight | Source/AdvancedShooter/ShooterCharacter.cpp:581-585 | the button is released and aiming stops; standing restores the base walk speed, crouching keeps the speed |
| Shooter.ShooterCharacter.ShootWeapon | Source/AdvancedShooter/ShooterCharacter.cpp:264-291 | only when Unoccupied with a loaded weapon: one round is used and the shoot timer starts; otherwise state and ammo are unchanged |
| Shooter.ShooterCharacter.ShootButtonPressed | Source/AdvancedShooter/ShooterCharacter.cpp:389-393 | holds the trigger and fires exactly as ShootWeapon does: one round, the shoot timer, the bullet flag and the pistol slide under CanShoot, otherwise nothing |
| Shooter.ShooterCharacter.ShootButtonReleased | Source/AdvancedShooter/ShooterCharacter.cpp:395-398 | releases the trigger |
| Shooter.ShooterCharacter.StartShootTimer | Source/AdvancedShooter/ShooterCharacter.cpp:400-406 | with a weapon, the state becomes ShootTimerInProgress |
| Shooter.ShooterCharacter.StartCrosshairBulletFire | Source/AdvancedShooter/ShooterCharacter.cpp:408-413 | marks a bullet being fired |
| Shooter.ShooterCharacter.FinishCrosshairBulletFire | Source/AdvancedShooter/ShooterCharacter.cpp:414-417 | clears the bullet-fired mark |
| Shooter.ShooterCharacter.AutoShootReset | Source/AdvancedShooter/ShooterCharacter.cpp:419-435 | stunned changes nothing; with ammo, an automatic weapon with the trigger held fires again (round, bullet flag, pistol slide), otherwise Unoccupied with everything else kept; an empty weapon reloads when possible, stopping aim with StopAiming's speed, and otherwise aim and speed are kept |
| Shooter.ShooterCharacter.ReloadWeapon | Source/AdvancedShooter/ShooterCharacter.cpp:714-736 | Unoccupied → Reloading exactly when a weapon is equipped, ammo of its type is carried and the clip is not full; aiming then stops and the walk speed follows StopAiming; otherwise nothing changes |
| Shooter.ShooterCharacter.FinishReloading | Source/AdvancedShooter/ShooterCharacter.cpp:762-801 | does nothing while stunned; otherwise Unoccupied, aiming at crouch speed if the button is held and aim and speed untouched if not, and magazine and carried count of the weapon's type become ReloadTransfer of the old ones, other types untouched |
| Shooter.ShooterCharacter.FinishEquipping | Source/AdvancedShooter/ShooterCharacter.cpp:834-844 | Unoccupied unless stunned; aiming at crouch speed resumes if the button is held; otherwise aim and walk speed are untouched |
| Shooter.ShooterCharacter.TakeDamage | Source/AdvancedShooter/ShooterCharacter.cpp:1062-1080 | health becomes ClampedHealth, death marks the character dead, disables input when a death montage and a player controller exist, and sets the enemy blackboard's CharacterDead key; returns 0 only for a kill with no enemy instigator |
| Shooter.ShooterCharacter.Die | Source/AdvancedShooter/ShooterCharacter.cpp:1082-1092 | marks the character dead; with a death montage and a player controller, input is disabled |
| Shooter.ShooterCharacter.Stun | Source/AdvancedShooter/ShooterCharacter.cpp:1099-1106 | stuns only with negative health, so under Valid (health ≥ 0) it never changes the state |
| Shooter.ShooterCharacter.EndStun | Source/AdvancedShooter/ShooterCharacter.cpp:1108-1116 | back to Unoccupied, aiming at crouch speed if the button is held, aim and walk speed untouched if not |
| Shooter.ShooterCharacter.StartPickupSoundTimer | Source/AdvancedShooter/ShooterCharacter.cpp:1036-1041 | closes the pickup-sound flag |
| Shooter.ShooterCharacter.ResetPickupSoundTimer | Source/AdvancedShooter/ShooterCharacter.cpp:1053-1056 | reopens the pickup-sound flag |
| Shooter.ShooterCharacter.StartEquipSoundTimer | Source/AdvancedShooter/ShooterCharacter.cpp:1043-1048 | closes the equip-sound flag |
| Shooter.ShooterCharacter.ResetEquipSoundTimer | Source/AdvancedShooter/ShooterCharacter.cpp:1049-1052 | reopens the equip-sound flag |
| Shooter.ShooterCharacter.IncrementOverlappedItemCount | Source/AdvancedShooter/ShooterCharacter.cpp:553-566 | count and trace flag become OverlapUpdate of the old count |
| Shooter.ShooterCharacter.InitInterpLocations | Source/AdvancedShooter/ShooterCharacter.cpp:621-643 | appends the weapon slot and six item slots, all empty |
| Shooter.ShooterCharacter.GetInterpLocationIndex | Source/AdvancedShooter/ShooterCharacter.cpp:1159-1173 | returns the first item slot (never slot 0) with the least count, or 1 when there are fewer than two slots |
| Shooter.ShooterCharacter.IncrementInterpLocItemCount | Source/AdvancedShooter/ShooterCharacter.cpp:645-653 | an in-range slot's count changes by the amount (Bump); an index past the end changes nothing |
| Shooter.ShooterCharacter.GetInterpLocation | Source/AdvancedShooter/ShooterCharacter.cpp:1175-1183 | returns the slot at an in-range index, the empty location past the end |
| Shooter.ShooterCharacter.SelectButtonPressed | Source/AdvancedShooter/ShooterCharacter.cpp:539-546 | only when Unoccupied and an item is traced: the item starts its curve (EquipInterping with its properties, outline locked) to the least-loaded slot, whose count rises by one, and the trace target clears; otherwise the traced item is unchanged |
| Shooter.ShooterCharacter.GetEmptyInventorySlot | Source/AdvancedShooter/ShooterCharacter.cpp:1016-1032 | the first null slot; else the length when below the cap; else −1 |
| Shooter.ShooterCharacter.HighlightInventorySlot | Source/AdvancedShooter/ShooterCharacter.cpp:1002-1008 | highlights the first empty slot, else the next index below the cap, else −1 (every slot before the highlighted one is occupied) |
| Shooter.ShooterCharacter.UnHighlightInventorySlot | Source/AdvancedShooter/ShooterCharacter.cpp:1010-1014 | clears the highlight to −1 |
| Shooter.ShooterCharacter.InitAmmoMap | Source/AdvancedShooter/ShooterCharacter.cpp:883-888 | carries 85 rounds of 9mm and 120 of AR |
| Shooter.ShooterCharacter.BeginPlay | Source/AdvancedShooter/ShooterCharacter.cpp:79-99 | the default weapon is equipped, becomes slot 0 of the inventory, owned and unoutlined; ammo map and slots are initialised and walking speed set; a valid character with room stays valid |
| Shooter.ShooterCharacter.EquipWeapon | Source/AdvancedShooter/ShooterCharacter.cpp:806-833 | a non-null weapon becomes the equipped one in state Equipped, with that state's properties; null changes nothing |
| Shooter.ShooterCharacter.DropWeapon | Source/AdvancedShooter/ShooterCharacter.cpp:860-869 | the equipped weapon goes to Falling, with that state's properties, and is marked falling |
| Shooter.ShooterCharacter.SwapWeapon | Source/AdvancedShooter/ShooterCharacter.cpp:846-858 | the new weapon takes the equipped weapon's slot when it exists and keeps its own index otherwise (length unchanged); the old one falls with Falling's properties, the new one is equipped with Equipped's; the trace targets clear; validity is kept |
| Shooter.ShooterCharacter.PickupAmmo | Source/AdvancedShooter/ShooterCharacter.cpp:910-932 | carried ammo becomes AddCarried; the state becomes Reloading exactly when the weapon has that type, is empty, and a reload can start, aiming stopping then; otherwise state, aim and walk speed are unchanged; the ammo actor is destroyed |
| Shooter.ShooterCharacter.StoreWeapon | Source/AdvancedShooter/ShooterCharacter.cpp:1135-1150 | below the cap the weapon is appended in slot = old length, PickedUp with its properties, nothing else changing; at the cap it is swapped in as SwapWeapon says |
| Shooter.ShooterCharacter.StoreItem | Source/AdvancedShooter/ShooterCharacter.cpp:1135-1156 | a weapon is stored as StoreWeapon says, ammo is picked up as PickupAmmo says, and an item of neither class changes nothing |
| Shooter.ShooterCharacter.GetPickupItem | Source/AdvancedShooter/ShooterCharacter.cpp:1131-1157 | the owner's equip-sound window closes; a weapon is stored as StoreWeapon says, ammo as PickupAmmo says (reload included), and every field the item's class does not concern keeps its value; the inventory never exceeds the cap and validity is kept |
| Shooter.ShooterCharacter.WeaponSlotKeyPressed | Source/AdvancedShooter/ShooterCharacter.cpp:939-949 | the key of another slot exchanges to it when the exchange guard allows and no shoot timer runs, with Equipped's and PickedUp's properties on the two weapons; otherwise the equipped weapon, its state and the combat state are kept; other inventory items never change |
| Shooter.ShooterCharacter.ExchangeInventoryItems | Source/AdvancedShooter/ShooterCharacter.cpp:975-1000 | when the guard holds outside the shoot timer, the target weapon is equipped with Equipped's properties, the old one PickedUp with its properties, the state Equipping; otherwise the equipped weapon, its state and the combat state are kept; other inventory items never change; validity is kept |
| Shooter.PickUp | Source/AdvancedShooter/Items/Item.cpp:251-254 | a whole pickup (curve start then finish) leaves every slot count as it was and the inventory within the cap |
| EnemyAI.AttackSectionName | Source/AdvancedShooter/AI/Enemy.cpp:250-275 | rolls 1-4 name one of the four attack sections; any other roll names none |
| EnemyAI.AttackSectionsDistinct | Source/AdvancedShooter/AI/Enemy.h:314-317 | different rolls pick different sections |
| EnemyAI.Enemy.constructor | Source/AdvancedShooter/AI/Enemy.h:232-346 | health 100, not dying, able to hit-react and attack, not stunned, out of range, no damage numbers |
| EnemyAI.Enemy.BeginPlay | Source/AdvancedShooter/AI/Enemy.cpp:37-79 | health is reset to max; CanAttack and both patrol points are written to the blackboard and the tree runs |
| EnemyAI.Enemy.ShowHealthBar | Source/AdvancedShooter/AI/Enemy.cpp:197-202 | the health bar is visible: `healthBarVisible` stands for the Blueprint side of the event, which the native body's hide timer later undoes |
| EnemyAI.Enemy.HideHealthBar | Source/AdvancedShooter/AI/Enemy.h:154 | the health bar is hidden (the Blueprint side of the event, as a flag) |
| EnemyAI.Enemy.Die | Source/AdvancedShooter/AI/Enemy.cpp:204-218 | the first call marks dying, sets Dead on the blackboard and stops movement; later calls only hide the bar |
| EnemyAI.Enemy.PlayHitMontage | Source/AdvancedShooter/AI/Enemy.cpp:220-233 | closes the hit-react cooldown |
| EnemyAI.Enemy.ResetHitReactTimer | Source/AdvancedShooter/AI/Enemy.cpp:277-280 | reopens the hit-react cooldown |
| EnemyAI.Enemy.PlayAttackMontage | Source/AdvancedShooter/AI/Enemy.cpp:235-248 | clears bCanAttack and the CanAttack key |
| EnemyAI.Enemy.ResetCanAttack | Source/AdvancedShooter/AI/Enemy.cpp:421-425 | sets bCanAttack and the CanAttack key |
| EnemyAI.Enemy.SetIsStunned | Source/AdvancedShooter/AI/Enemy.cpp:480-486 | stores the stun flag and the Stunned key |
| EnemyAI.Enemy.SetTarget | Source/AdvancedShooter/AI/Enemy.cpp:488-499 | a shooter character becomes the Target key; anything else changes nothing |
| EnemyAI.Enemy.AgroSphereOverlap | Source/AdvancedShooter/AI/Enemy.cpp:359-364 | an overlapping shooter becomes the target |
| EnemyAI.Enemy.CombatRangeOverlap | Source/AdvancedShooter/AI/Enemy.cpp:366-379 | only a shooter sets bIsInAttackRange and the InAttackRange key to true |
| EnemyAI.Enemy.CombatRangeEndOverlap | Source/AdvancedShooter/AI/Enemy.cpp:381-394 | only a shooter sets them to false |
| EnemyAI.Enemy.TakeDamage | Source/AdvancedShooter/AI/Enemy.cpp:329-357 | health becomes ClampedHealth and a kill starts dying; the blackboard gets the causer as Target, Dead on the first kill with a death montage, Stunned when a surviving enemy's roll ≤ stunChance, and movement stops exactly on that first kill; a dying enemy returns 0, otherwise the damage with the bar shown |
| EnemyAI.Enemy.StoreDamageNumber | Source/AdvancedShooter/AI/Enemy.cpp:282-294 | inserts the widget's location |
| EnemyAI.Enemy.DestroyDamageNumber | Source/AdvancedShooter/AI/Enemy.cpp:310-314 | removes exactly that widget's entry |
| EnemyAI.Enemy.DoDamage | Source/AdvancedShooter/AI/Enemy.cpp:401-407 | no character or zero base damage changes nothing; otherwise the character's health, death and input follow its TakeDamage, the blackboard gets CharacterDead on a kill and is untouched otherwise, and the damage dealt is the base damage except for a kill with no controller |
| EnemyAI.Enemy.StunCharacter | Source/AdvancedShooter/AI/Enemy.cpp:409-419 | a valid character (health ≥ 0) is never actually stunned, nor is one whose roll exceeds its stun chance |
| ShooterAnim.FlagsFor | Source/AdvancedShooter/ShooterAnimInstance.cpp:29-32 | reloading and equipping hold exactly in their states, FABRIK poses exactly when Unoccupied or ShootTimerInProgress, and never together with reloading or equipping |
| ShooterAnim.OffsetStateFor | Source/AdvancedShooter/ShooterAnimInstance.cpp:60-78 | Reloading iff reloading, else InAir iff in the air, else Aiming iff aiming, else Hip; never MAX |
| ShooterAnim.RecoilWeight | Source/AdvancedShooter/ShooterAnimInstance.cpp:163-191 | always 0, 0.1, 0.5 or 1; 1 when reloading or equipping; otherwise 0 turning, 0.1 crouching, 1 aiming, 0.5 at the hip |
| ShooterAnim.FullRecoilExactly | Source/AdvancedShooter/ShooterAnimInstance.cpp:163-191 | the weight is 1 iff busy, or aiming while neither turning nor crouching |
| ShooterAnim.BusyStateFullRecoil | Source/AdvancedShooter/ShooterAnimInstance.cpp:29-30 | in the Reloading and Equipping combat states the recoil weight is 1, and a reload overrides the aim offset |
| ShooterAnim.ShooterAnimInstance.constructor | Source/AdvancedShooter/ShooterAnimInstance.h:50-131 | recoil weight 1, offset Hip, weapon type MAX, FABRIK off, all flags false |
| ShooterAnim.ShooterAnimInstance.NativeInitializeAnimation | Source/AdvancedShooter/ShooterAnimInstance.cpp:13-17 | binds the owning shooter character |
| ShooterAnim.ShooterAnimInstance.UpdateAnimProperties | Source/AdvancedShooter/ShooterAnimInstance.cpp:20-87 | without an owner nothing changes; otherwise the flags follow the character, the offset follows the priority, the recoil weight the table, and the weapon type changes only when a weapon is equipped |
| ShooterAnim.ShooterAnimInstance.FollowCharacter | Source/AdvancedShooter/ShooterAnimInstance.cpp:28-78 | the combat-state flags are FlagsFor of the character's state, crouching and aiming copy the character's, and the offset is OffsetStateFor, by priority |
| ShooterAnim.ShooterAnimInstance.SetRecoilWeight | Source/AdvancedShooter/ShooterAnimInstance.cpp:163-191 | stores the table's weight for the current flags |

## Left out

- Engine components are not modelled: cameras, capsules, meshes beyond their collision and visibility settings, widgets, materials, particles and sounds. Montages, sounds, glow materials and delegate broadcasts (equip and highlight icons) are no-ops.
- Frame-by-frame float interpolation is not modelled: camera zoom, crosshair spread, capsule height, recoil input, `ItemInterp`, the item pulse, the weapon slide displacement, and `TurnInPlace` and `Lean`. Their only discrete output, the turning flag, is a parameter of `UpdateAnimProperties`. Move speed and yaw offsets are not modelled.
- Line traces and hit resolution are not modelled: `TraceUnderCrosshair`, `TraceForItems`, `SendBullet`, `GetTrailEndLocation`, and the damage scaling by headshot or data tables. The traced item is the `traceHitItem` field.
- Timers are not modelled. Their callbacks are methods called explicitly, with no notion of time.
- Random rolls are parameters: the enemy's stun roll and the attack-section roll. The "is falling" query, acceleration and the spawned default weapon are parameters too.
- Data-table loading is not modelled: rarity data, weapon data and enemy level data. The loaded values are constructor arguments (`ItemData`, the enemy's health, damage and stun chance).
- Asset presence is a constant of the object: death montage, player controller, pickup and equip sounds.
- Engine component defaults before `SetItemProperties` runs are assumed (`EngineDefault`).
- The weapon's hand socket is assumed present in `EquipWeapon`. A missing socket only skips the attach, which is not modelled.
- `GrabClip` and `ReplaceClip` (animation notifies moving the clip bone), the weapon's physics impulse in `ThrowWeapon`, and the upright correction in `Weapon::Tick` are not modelled.
- Damage-number widgets are map entries; their screen positions (`UpdateDamageNumbers`) are not modelled.
- The enemy controller is reduced to its blackboard, movement-stopped flag and behaviour-tree flag. The explosive, the player controller and the Grux animation instance are not part of this model.
- Shooter.ShooterCharacter.ExchangeInventoryItems: the forced equip sound at the end is not modelled. It only depends on the montage and sound assets.
- Shooter.Item.Destroy: destruction is a flag; the actor is not removed from the world.
- EnemyAI.Enemy.ShowHealthBar: the native body only clears and restarts the timer that calls `HideHealthBar`; the bar's visibility is drawn by the Blueprint, and `healthBarVisible` stands for it. The timer itself is not modelled.
- EnemyAI.Enemy.HideHealthBar: a Blueprint-implementable event with no native body; the model's flag is the Blueprint's effect, which the source itself does not show.
- Shooter.Item.InterpTarget: for an item type with no case the source returns a default-constructed vector whose components are uninitialised; the model returns no target, the same as with no owner.
- EnemyAI.Enemy.DoDamage: the source's `DoDamage` returns nothing; the model's result is the value `ApplyDamage` gets back from the character's `TakeDamage`, which the source discards. `ApplyDamage` skipping zero damage is engine behaviour, modelled as the `baseDamage != 0` test.
- Shooter.ShooterCharacter.IncrementInterpLocItemCount: the slot counts are int32, and the precondition keeps each update inside the int32 range, so the signed overflow of a count past 2147483647 items is not modelled. The same bound is part of `InterpSlotAvailable`, which `StartItemCurve` requires.
- Shooter.ShooterCharacter.IncrementInterpLocItemCount: requires `index != |interpLocations|`, the one index the source's off-by-one bounds test would write out of range. Shooter.ShooterCharacter.GetInterpLocation has the same precondition.
- Shooter.OverlapUpdate: a non-negative count holds only while fewer than 128 items overlap; the int8 wrap-around past 127 is modelled and shown by `OverlapCountWraps`.
- Shooter.ShooterCharacter.FinishReloading: ammo counts are unbounded integers, so 32-bit overflow of carried ammo is not modelled. The same holds for `PickupAmmo`.
- Inventory and slot indices are unbounded integers, not int32.
- Every C++ `float` is a `real`: health, damage, stun chances, rolls, walk speeds, friction and the recoil weights. Rounding, NaN and infinity are not modelled. A NaN damage, for instance, makes the `health - damage <= 0` test false and leaves health NaN, which the contracts' `health >= 0` clauses do not allow for.
