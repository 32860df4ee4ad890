// The player character and the items it picks up.  AItem, AWeapon and AAmmo
// are one class whose `cls` records the actor's dynamic class; the virtual
// overrides dispatch on it.  Item and character call each other, so they
// share this module.

module Shooter {
  import opened ShooterTypes
  import opened ItemSettings
  import opened AIControl

  /** The dynamic class of an item actor. */
  datatype ItemClass = ItemActor | WeaponActor | AmmoActor

  /** The scene components an interp location can point at (NoSceneComp is null). */
  datatype SceneComp = NoSceneComp | WeaponInterpComp | InterpComp(n: nat)

  /** FInterpLocation: a scene component and how many items fly towards it. */
  datatype InterpLocation = InterpLocation(sceneComp: SceneComp, itemAmount: int32)

  /**
   * What an item's editor defaults and data-table rows fix before play.
   * The sound fields say whether a pickup / equip sound asset is set.
   */
  datatype ItemData = ItemData(itemType: ItemType, rarity: ItemRarity, itemAmount: int,
                               weaponType: WeaponType, ammoType: AmmoType, ammo: int,
                               magazineCap: int, automatic: bool,
                               hasPickupSound: bool, hasEquipSound: bool)

  /** The field initialisers of Item.h and Weapon.h, with no sound assets. */
  const HeaderDefaults := ItemData(AmmoItem, Common, 0, SubmachineGun, Ammo9mm, 0, 30, true, false, false)

  /** The seven slots InitInterpLocations appends: the weapon slot, then six item slots. */
  const InitialInterpLocations: seq<InterpLocation> :=
    [InterpLocation(WeaponInterpComp, 0)] + seq(6, i requires 0 <= i < 6 => InterpLocation(InterpComp(i + 1), 0))

  // ---------------------------------------------------------------------
  // Pure rules behind the character's and the weapon's bookkeeping
  // ---------------------------------------------------------------------

  /** AWeapon::DecrementAmmo: one round fewer, never below zero. */
  function AmmoAfterShot(ammo: int): (r: int)
    ensures r >= 0
    ensures ammo >= 1 ==> r == ammo - 1
    ensures ammo <= 1 ==> r == 0
  {
    if ammo - 1 <= 0 then 0 else ammo - 1
  }

  /** `n` shots in a row: AmmoAfterShot applied n times. */
  function AmmoAfterShots(ammo: int, n: nat): int
  {
    if n == 0 then ammo else AmmoAfterShot(AmmoAfterShots(ammo, n - 1))
  }

  /** A magazine of `ammo` rounds holds max(ammo - n, 0) after n shots. */
  lemma {:induction false} ShotsDrainMagazine(ammo: nat, n: nat)
    ensures AmmoAfterShots(ammo, n) == if ammo >= n then ammo - n else 0
  {
    if n > 0 {
      ShotsDrainMagazine(ammo, n - 1);
    }
  }

  /**
   * FinishReloading's transfer between the magazine and the carried ammo:
   * returns (magazine, carried) afterwards.
   */
  function ReloadTransfer(ammo: int, cap: int, carried: int): (r: (int, int))
    ensures r.0 + r.1 == ammo + carried
    ensures r.0 <= cap
    ensures r.0 == cap || r.1 == 0
    ensures ammo <= cap && carried >= 0 ==> ammo <= r.0 && 0 <= r.1 <= carried
  {
    var space := cap - ammo;
    if space > carried then (ammo + carried, 0) else (cap, carried - space)
  }

  /** A second reload straight after the first moves nothing. */
  lemma ReloadTwiceMovesNothing(ammo: int, cap: int, carried: int)
    requires ammo <= cap && carried >= 0
    ensures var r := ReloadTransfer(ammo, cap, carried);
            ReloadTransfer(r.0, cap, r.1) == r
  {
  }

  /**
   * IncrementOverlappedItemCount on (count, amount): the new int8 count and
   * the new bShouldTraceForItems.  The test is done on the int sum; only the
   * store into the int8 field wraps.
   */
  function OverlapUpdate(count: int8, amount: int8): (r: (int8, bool))
    ensures r.1 <==> count as int + amount as int > 0
    ensures count as int + amount as int <= 0 ==> r.0 == 0
    ensures 0 < count as int + amount as int < 0x80 ==> r.0 as int == count as int + amount as int
    ensures count as int + amount as int >= 0x80 ==> r.0 < 0
    ensures count as int + amount as int >= 0x80 ==> r.0 as int == count as int + amount as int - 0x100
  {
    var sum := count as int + amount as int;
    if sum <= 0 then (0, false) else (WrapInt8(sum), true)
  }

  /** While fewer than 127 items overlap, entering and leaving one restores the count. */
  lemma OverlapEnterThenLeave(count: int8)
    requires 0 <= count < 0x7f
    ensures OverlapUpdate(OverlapUpdate(count, 1).0, -1).0 == count
    ensures OverlapUpdate(count, 1).1
  {
  }

  /** The counter is an int8: the 128th overlapping item wraps it to -128. */
  lemma OverlapCountWraps()
    ensures OverlapUpdate(0x7f, 1) == (-0x80, true)
  {
    assert WrapInt8(0x80) as int == -0x80 by {
      assert (0x80 - WrapInt8(0x80) as int) % 0x100 == 0;
    }
  }

  /**
   * ExchangeInventoryItems' bCanExchangeItems.  Its combat-state test,
   * `Unoccupied || != Equipping`, is the same as `!= Equipping`.
   */
  function ExchangeGuard(current: int, next: int, count: int, state: CombatState): (b: bool)
    ensures b <==> current != next && next < count && state != Equipping
  {
    current != next && next < count && (state == Unoccupied || state != Equipping)
  }

  /** One interp slot's item count changed by `amount`. */
  function Bump(locs: seq<InterpLocation>, index: int, amount: int32): (r: seq<InterpLocation>)
    requires 0 <= index < |locs|
    requires InInt32(locs[index].itemAmount as int + amount as int)
    ensures |r| == |locs|
    ensures r[index].sceneComp == locs[index].sceneComp
    ensures r[index].itemAmount as int == locs[index].itemAmount as int + amount as int
    ensures forall j :: 0 <= j < |locs| && j != index ==> r[j] == locs[j]
  {
    locs[index := locs[index].(itemAmount := (locs[index].itemAmount as int + amount as int) as int32)]
  }

  /** Adding one item to a slot and taking it away again leaves the slots as they were. */
  lemma BumpThenUnbump(locs: seq<InterpLocation>, index: int)
    requires 0 <= index < |locs|
    requires locs[index].itemAmount < Int32Max
    ensures Bump(Bump(locs, index, 1), index, -1) == locs
  {
  }

  /**
   * `r` is the slot GetInterpLocationIndex should pick: an item slot (not
   * the weapon slot 0) whose count is least, the first such on ties.
   */
  ghost predicate FirstLeastLoaded(locs: seq<InterpLocation>, r: int)
  {
    1 <= r < |locs|
    && (forall j :: 1 <= j < |locs| ==> locs[r].itemAmount <= locs[j].itemAmount)
    && (forall j :: 1 <= j < r ==> locs[r].itemAmount < locs[j].itemAmount)
  }

  /** No item slot holds more than one item more than any other. */
  ghost predicate Balanced(locs: seq<InterpLocation>)
  {
    forall i, j :: 1 <= i < |locs| && 1 <= j < |locs| ==> locs[i].itemAmount as int <= locs[j].itemAmount as int + 1
  }

  /** The slots InitInterpLocations creates start balanced. */
  lemma InitialSlotsBalanced()
    ensures Balanced(InitialInterpLocations)
  {
  }

  /**
   * Sending an item to the first least-loaded slot keeps the item slots
   * balanced, so a stream of pickups spreads across the slots evenly.
   */
  lemma LeastLoadedPickKeepsBalance(locs: seq<InterpLocation>, r: int)
    requires Balanced(locs) && FirstLeastLoaded(locs, r)
    requires locs[r].itemAmount < Int32Max
    ensures Balanced(Bump(locs, r, 1))
  {
  }

  /** Carried ammo after picking up `amount` rounds of type `t`; a type not in the map is not added. */
  function AddCarried(m: map<AmmoType, int>, t: AmmoType, amount: int): (r: map<AmmoType, int>)
    ensures r.Keys == m.Keys
    ensures t in m ==> r[t] == m[t] + amount
    ensures forall k :: k in m && k != t ==> r[k] == m[k]
  {
    if t in m then m[t := m[t] + amount] else m
  }

  // ---------------------------------------------------------------------
  // Items
  // ---------------------------------------------------------------------

  /** AItem, together with the AWeapon and AAmmo fields its subclasses add. */
  class Item {
    const cls: ItemClass
    const itemType: ItemType
    const itemRarity: ItemRarity
    const itemAmount: int
    const hasPickupSound: bool
    const hasEquipSound: bool

    var itemState: ItemState
    var activeStars: seq<bool>
    /** The item mesh, area sphere, collision box and pickup widget. */
    var components: ItemComponents
    var bIsInterping: bool
    var bCanChangeCustomDepth: bool
    var character: ShooterCharacter?
    var interpLocIndex: int
    var slotIndex: int
    var bIsCharacterInventoryFull: bool

    // AWeapon
    const weaponType: WeaponType
    const ammoType: AmmoType
    const magazineCap: int
    const bIsAutomatic: bool
    var ammo: int
    var bIsFalling: bool
    var bMovingSlide: bool
    var bIsMovingClip: bool

    // AAmmo
    var ammoMesh: Primitive
    var ammoCollisionSphere: CollisionEnabled
    var destroyed: bool

    /** A spawned actor of class `cls` with the given defaults, before BeginPlay. */
    constructor (cls: ItemClass, data: ItemData)
      ensures this.cls == cls && itemType == data.itemType && itemRarity == data.rarity
      ensures itemAmount == data.itemAmount && hasPickupSound == data.hasPickupSound
      ensures hasEquipSound == data.hasEquipSound
      ensures weaponType == data.weaponType && ammoType == data.ammoType
      ensures magazineCap == data.magazineCap && bIsAutomatic == data.automatic && ammo == data.ammo
      ensures itemState == Pickup && activeStars == []
      ensures !bIsInterping && bCanChangeCustomDepth && character == null
      ensures interpLocIndex == 0 && slotIndex == 0 && !bIsCharacterInventoryFull
      ensures !bIsFalling && !bMovingSlide && !bIsMovingClip && !destroyed
      ensures components.box.responses.To(Visibility) == Block
      ensures forall ch :: ch != Visibility ==> components.box.responses.To(ch) == Ignore
    {
      this.cls := cls;
      itemType := data.itemType;
      itemRarity := data.rarity;
      itemAmount := data.itemAmount;
      hasPickupSound := data.hasPickupSound;
      hasEquipSound := data.hasEquipSound;
      weaponType := data.weaponType;
      ammoType := data.ammoType;
      magazineCap := data.magazineCap;
      bIsAutomatic := data.automatic;
      ammo := data.ammo;
      itemState := Pickup;
      activeStars := [];
      components := ItemComponents(EngineDefault, EngineDefault,
                                   EngineDefault.SetCollisionResponseToAllChannels(Ignore)
                                                .SetCollisionResponseToChannel(Visibility, Block),
                                   true);
      bIsInterping := false;
      bCanChangeCustomDepth := true;
      character := null;
      interpLocIndex := 0;
      slotIndex := 0;
      bIsCharacterInventoryFull := false;
      bIsFalling := false;
      bMovingSlide := false;
      bIsMovingClip := false;
      ammoMesh := EngineDefault;
      ammoCollisionSphere := QueryAndPhysics;
      destroyed := false;
    }

    /** The owning character, as a frame. */
    function Owner(): set<ShooterCharacter>
      reads this`character
    {
      if character != null then {character} else {}
    }

    /** The owning character's equipped weapon, as a frame. */
    function OwnerWeapon(): set<Item>
      reads this`character, Owner()`equippedWeapon
    {
      if character != null && character.equippedWeapon != null then {character.equippedWeapon} else {}
    }

    /**
     * SetItemProperties, with AAmmo's override: the base settings for the
     * state, then, for ammo, the ammo-mesh settings.
     */
    method SetItemProperties(state: ItemState)
      modifies this`components, this`ammoMesh
      ensures components == ItemProperties(state, old(components))
      ensures ammoMesh == if cls == AmmoActor then AmmoMeshProperties(state, old(ammoMesh)) else old(ammoMesh)
    {
      components := ItemProperties(state, components);
      if cls == AmmoActor {
        ammoMesh := AmmoMeshProperties(state, ammoMesh);
      }
    }

    /** SetItemState: store the state and apply its property set. */
    method SetItemState(state: ItemState)
      modifies this`itemState, this`components, this`ammoMesh
      ensures itemState == state
      ensures components == ItemProperties(state, old(components))
      ensures ammoMesh == if cls == AmmoActor then AmmoMeshProperties(state, old(ammoMesh)) else old(ammoMesh)
    {
      itemState := state;
      SetItemProperties(state);
    }

    /**
     * EnableCustomDepth (on) and DisableCustomDepth (off).  The base class
     * changes the item mesh only while bCanChangeCustomDepth holds; AAmmo's
     * override changes the ammo mesh with no such gate.
     */
    method SetCustomDepth(on: bool)
      modifies this`components, this`ammoMesh
      ensures cls == AmmoActor ==> ammoMesh == old(ammoMesh).SetRenderCustomDepth(on) && components == old(components)
      ensures cls != AmmoActor ==> ammoMesh == old(ammoMesh)
      ensures cls != AmmoActor && bCanChangeCustomDepth ==>
                components == old(components).(mesh := old(components).mesh.SetRenderCustomDepth(on))
      ensures cls != AmmoActor && !bCanChangeCustomDepth ==> components == old(components)
    {
      if cls == AmmoActor {
        ammoMesh := ammoMesh.SetRenderCustomDepth(on);
      } else {
        if !bCanChangeCustomDepth {
          return;
        }
        components := components.(mesh := components.mesh.SetRenderCustomDepth(on));
      }
    }

    /**
     * SetActiveStars: append six unlit stars, then light entries 1 to
     * StarCount(rarity) (entry 0 is unused).
     */
    method SetActiveStars()
      modifies this`activeStars
      ensures activeStars == StarsAfter(old(activeStars), itemRarity)
    {
      for i := 0 to 6
        invariant activeStars == old(activeStars) + seq(i, _ => false)
      {
        activeStars := activeStars + [false];
      }
      ghost var appended := activeStars;
      match itemRarity {
        case Damaged =>
          activeStars := activeStars[1 := true];
        case Common =>
          activeStars := activeStars[1 := true][2 := true];
        case Uncommon =>
          activeStars := activeStars[1 := true][2 := true][3 := true];
        case Rare =>
          activeStars := activeStars[1 := true][2 := true][3 := true][4 := true];
        case Legendary =>
          activeStars := activeStars[1 := true][2 := true][3 := true][4 := true][5 := true];
        case RarityMax =>
      }
      forall i | 0 <= i < |activeStars|
        ensures activeStars[i] == StarsAfter(old(activeStars), itemRarity)[i]
      {
        assert appended[i] == if i < |old(activeStars)| then old(activeStars)[i] else false;
        assert activeStars[i] == if 1 <= i <= StarCount(itemRarity) then true else appended[i];
      }
    }

    /**
     * BeginPlay: hide the pickup widget, light the stars, apply the current
     * state's properties and switch custom depth off.
     */
    method BeginPlay()
      modifies this`components, this`ammoMesh, this`activeStars
      ensures activeStars == StarsAfter(old(activeStars), itemRarity)
      ensures !components.widgetVisible
      ensures cls == AmmoActor ==>
                components == ItemProperties(itemState, old(components).(widgetVisible := false))
                && ammoMesh == AmmoMeshProperties(itemState, old(ammoMesh)).SetRenderCustomDepth(false)
      ensures cls != AmmoActor ==> ammoMesh == old(ammoMesh)
      ensures cls != AmmoActor ==>
                var c := ItemProperties(itemState, old(components).(widgetVisible := false));
                components == if bCanChangeCustomDepth then c.(mesh := c.mesh.SetRenderCustomDepth(false)) else c
    {
      components := components.(widgetVisible := false);
      SetActiveStars();
      SetItemProperties(itemState);
      SetCustomDepth(false);
    }

    /** OnSphereOverlap: a shooter character entering the area sphere counts one more item. */
    method OnSphereOverlap(shooter: ShooterCharacter?)
      modifies {shooter}`overlappedItemCount, {shooter}`bShouldTraceForItems
      ensures shooter != null ==>
                (shooter.overlappedItemCount, shooter.bShouldTraceForItems)
                == OverlapUpdate(old(shooter.overlappedItemCount), 1)
    {
      if shooter != null {
        shooter.IncrementOverlappedItemCount(1);
      }
    }

    /** OnSphereEndOverlap: one item fewer, and the highlighted slot is cleared. */
    method OnSphereEndOverlap(shooter: ShooterCharacter?)
      modifies {shooter}`overlappedItemCount, {shooter}`bShouldTraceForItems, {shooter}`highlightedSlot
      ensures shooter != null ==>
                (shooter.overlappedItemCount, shooter.bShouldTraceForItems)
                == OverlapUpdate(old(shooter.overlappedItemCount), -1)
                && shooter.highlightedSlot == -1
    {
      if shooter != null {
        shooter.IncrementOverlappedItemCount(-1);
        shooter.UnHighlightInventorySlot();
      }
    }

    method SetSlotIndex(index: int)
      modifies this`slotIndex
      ensures slotIndex == index
    {
      slotIndex := index;
    }

    method SetCharacter(c: ShooterCharacter?)
      modifies this`character
      ensures character == c
    {
      character := c;
    }

    method SetCharacterInventoryFull(full: bool)
      modifies this`bIsCharacterInventoryFull
      ensures bIsCharacterInventoryFull == full
    {
      bIsCharacterInventoryFull := full;
    }

    /**
     * PlayPickupSound.  With no character and no sound it returns at once;
     * a forced sound ignores the character's gate; otherwise the sound plays
     * only when the character's gate is open, and playing closes it.  With
     * no character, a sound and no force, the source dereferences null.
     */
    method PlayPickupSound(force: bool) returns (played: bool)
      requires character != null || !hasPickupSound || force
      modifies Owner()`bShouldPlayPickupSound
      ensures played <==> (character != null || hasPickupSound)
                          && (force || old(character.bShouldPlayPickupSound))
      ensures character != null ==>
                character.bShouldPlayPickupSound == (old(character.bShouldPlayPickupSound) && (force || !played))
    {
      played := false;
      if character == null && !hasPickupSound {
        return;
      }
      if force {
        played := true;
      } else if character.bShouldPlayPickupSound {
        character.StartPickupSoundTimer();
        played := true;
      }
    }

    /** PlayEquipSound: the same gating, on the character's equip-sound flag. */
    method PlayEquipSound(force: bool) returns (played: bool)
      requires character != null || !hasEquipSound || force
      modifies Owner()`bShouldPlayEquipSound
      ensures played <==> (character != null || hasEquipSound)
                          && (force || old(character.bShouldPlayEquipSound))
      ensures character != null ==>
                character.bShouldPlayEquipSound == (old(character.bShouldPlayEquipSound) && (force || !played))
    {
      played := false;
      if character == null && !hasEquipSound {
        return;
      }
      if force {
        played := true;
      } else if character.bShouldPlayEquipSound {
        character.StartEquipSoundTimer();
        played := true;
      }
    }

    /**
     * StartItemCurve: the item starts flying towards the character.  It
     * takes the least-loaded item slot and counts itself there, plays the
     * pickup sound, and enters EquipInterping with custom depth locked.
     */
    method StartItemCurve(c: ShooterCharacter, force: bool)
      requires c.InterpSlotAvailable()
      modifies this`character, this`interpLocIndex, this`bIsInterping, this`bCanChangeCustomDepth,
               this`itemState, this`components, this`ammoMesh,
               c`interpLocations, c`bShouldPlayPickupSound
      ensures character == c
      ensures bIsInterping && !bCanChangeCustomDepth && itemState == EquipInterping
      ensures components == ItemProperties(EquipInterping, old(components))
      ensures ammoMesh == if cls == AmmoActor then AmmoMeshProperties(EquipInterping, old(ammoMesh)) else old(ammoMesh)
      ensures 1 <= interpLocIndex
      ensures |old(c.interpLocations)| <= 1 ==> interpLocIndex == 1 && c.interpLocations == old(c.interpLocations)
      ensures |old(c.interpLocations)| > 1 ==>
                FirstLeastLoaded(old(c.interpLocations), interpLocIndex)
                && old(c.interpLocations)[interpLocIndex].itemAmount < Int32Max
                && c.interpLocations == Bump(old(c.interpLocations), interpLocIndex, 1)
      ensures c.bShouldPlayPickupSound == (old(c.bShouldPlayPickupSound) && force)
    {
      character := c;
      interpLocIndex := c.GetInterpLocationIndex();
      c.IncrementInterpLocItemCount(interpLocIndex, 1);
      var _ := PlayPickupSound(force);
      bIsInterping := true;
      SetItemState(EquipInterping);
      bCanChangeCustomDepth := false;
    }

    /**
     * FinishInterping: the flight is over.  The item leaves its slot, the
     * character takes it, and custom depth is unlocked and switched off.
     */
    method FinishInterping()
      requires character != null ==> character.CanTake(this)
      requires character != null ==> 0 <= interpLocIndex != |character.interpLocations|
      requires character != null && interpLocIndex < |character.interpLocations| ==>
                 character.interpLocations[interpLocIndex].itemAmount > -0x8000_0000
      modifies this`bIsInterping, this`bCanChangeCustomDepth, this`itemState, this`components, this`ammoMesh,
               this`slotIndex, this`destroyed,
               Owner()`interpLocations, Owner()`inventory, Owner()`equippedWeapon, Owner()`traceHitItem,
               Owner()`traceHitItemLastFrame, Owner()`ammoMap, Owner()`combatState, Owner()`bIsAiming,
               Owner()`maxWalkSpeed, Owner()`highlightedSlot, Owner()`bShouldPlayEquipSound,
               OwnerWeapon()`itemState, OwnerWeapon()`components, OwnerWeapon()`ammoMesh, OwnerWeapon()`bIsFalling
      ensures !bIsInterping
      ensures old(character) == null ==> character == null && bCanChangeCustomDepth == old(bCanChangeCustomDepth)
      ensures character == old(character) && interpLocIndex == old(interpLocIndex)
      ensures character != null ==> bCanChangeCustomDepth && character.highlightedSlot == -1
      ensures character != null ==> if cls == AmmoActor then !ammoMesh.renderCustomDepth else !components.mesh.renderCustomDepth
      ensures character != null ==>
                character.interpLocations ==
                  if old(interpLocIndex) < |old(character.interpLocations)|
                  then Bump(old(character.interpLocations), old(interpLocIndex), -1)
                  else old(character.interpLocations)
      ensures character != null ==> character.Took(this)
      ensures character != null && |old(character.inventory)| <= character.inventoryCap ==>
                |character.inventory| <= character.inventoryCap
    {
      bIsInterping := false;
      if character == null {
        return;
      }
      character.IncrementInterpLocItemCount(interpLocIndex, -1);
      character.GetPickupItem(this);
      character.UnHighlightInventorySlot();
      bCanChangeCustomDepth := true;
      SetCustomDepth(false);
    }

    /**
     * AItem::GetInterpLocation: the scene component the item flies to.
     * None stands for the zero vector returned with no character, and for
     * the default-constructed vector, whose components are left
     * uninitialised, returned for an item type with no case.  The source reads the chosen slot's scene
     * component, so that slot must exist and point at one.
     */
    function InterpTarget(): (r: Option<SceneComp>)
      reads this`character, this`interpLocIndex, character
      requires character != null && itemType == AmmoItem ==>
                 0 <= interpLocIndex != |character.interpLocations|
                 && character.GetInterpLocation(interpLocIndex).sceneComp != NoSceneComp
      requires character != null && itemType == WeaponItem ==>
                 |character.interpLocations| != 0 && character.interpLocations[0].sceneComp != NoSceneComp
      ensures character == null || itemType == ItemTypeMax <==> r == None
      ensures character != null && itemType == AmmoItem ==>
                interpLocIndex < |character.interpLocations|
                && r == Some(character.interpLocations[interpLocIndex].sceneComp)
      ensures character != null && itemType == WeaponItem ==> r == Some(WeaponInterpCompOf(character.interpLocations))
    {
      if character == null then None
      else match itemType
        case AmmoItem => Some(character.GetInterpLocation(interpLocIndex).sceneComp)
        case WeaponItem => Some(character.GetInterpLocation(0).sceneComp)
        case ItemTypeMax => None
    }

    // ------------------------------------------------------------- AWeapon

    /** AWeapon::ClipIsFull. */
    predicate ClipIsFull()
      reads this`ammo
    {
      ammo >= magazineCap
    }

    /** AWeapon::DecrementAmmo. */
    method DecrementAmmo()
      modifies this`ammo
      ensures ammo == AmmoAfterShot(old(ammo))
    {
      if ammo - 1 <= 0 {
        ammo := 0;
      } else {
        ammo := ammo - 1;
      }
    }

    /** AWeapon::ReloadAmmo: the checkf demands the magazine not overflow. */
    method ReloadAmmo(amount: int)
      requires ammo + amount <= magazineCap
      modifies this`ammo
      ensures ammo == old(ammo) + amount
      ensures ammo <= magazineCap
    {
      ammo := ammo + amount;
    }

    /** AWeapon::StopFalling: the thrown weapon lands and can be picked up again. */
    method StopFalling()
      modifies this`bIsFalling, this`itemState, this`components, this`ammoMesh
      ensures !bIsFalling && itemState == Pickup
      ensures components == ItemProperties(Pickup, old(components))
      ensures ammoMesh == if cls == AmmoActor then AmmoMeshProperties(Pickup, old(ammoMesh)) else old(ammoMesh)
    {
      bIsFalling := false;
      SetItemState(Pickup);
    }

    /** AWeapon::ThrowWeapon, without the impulse: the weapon is falling. */
    method ThrowWeapon()
      modifies this`bIsFalling
      ensures bIsFalling
    {
      bIsFalling := true;
    }

    method StartSlideTimer()
      modifies this`bMovingSlide
      ensures bMovingSlide
    {
      bMovingSlide := true;
    }

    method FinishMovingSlide()
      modifies this`bMovingSlide
      ensures !bMovingSlide
    {
      bMovingSlide := false;
    }

    method SetIsMovingClip(move: bool)
      modifies this`bIsMovingClip
      ensures bIsMovingClip == move
    {
      bIsMovingClip := move;
    }

    // --------------------------------------------------------------- AAmmo

    /**
     * AAmmo::AmmoSphereOverlap: only the shooter character starts the
     * pickup (without forcing the sound), and the ammo collision sphere
     * is switched off.
     */
    method AmmoSphereOverlap(shooter: ShooterCharacter?)
      requires shooter != null ==> shooter.InterpSlotAvailable()
      modifies this`character, this`interpLocIndex, this`bIsInterping, this`bCanChangeCustomDepth,
               this`itemState, this`components, this`ammoMesh, this`ammoCollisionSphere,
               {shooter}`interpLocations, {shooter}`bShouldPlayPickupSound
      ensures shooter == null ==> ammoCollisionSphere == old(ammoCollisionSphere) && itemState == old(itemState)
                                  && bIsInterping == old(bIsInterping)
      ensures shooter != null ==> ammoCollisionSphere == NoCollision && character == shooter
                                  && itemState == EquipInterping && bIsInterping
      ensures shooter != null ==> shooter.bShouldPlayPickupSound == false
      ensures shooter != null && cls == AmmoActor ==> ammoMesh == AmmoMeshProperties(EquipInterping, old(ammoMesh))
    {
      if shooter != null {
        StartItemCurve(shooter, false);
        ammoCollisionSphere := NoCollision;
      }
    }

    /** Actor::Destroy, as far as the ammo is concerned. */
    method Destroy()
      modifies this`destroyed
      ensures destroyed
    {
      destroyed := true;
    }
  }

  /** The weapon slot's scene component. */
  function WeaponInterpCompOf(locs: seq<InterpLocation>): SceneComp
    requires |locs| != 0
  {
    locs[0].sceneComp
  }

  // ---------------------------------------------------------------------
  // The player character
  // ---------------------------------------------------------------------

  /** AShooterCharacter's gameplay state. */
  class ShooterCharacter {
    const inventoryCap: int := 2
    const starting9mmAmmo: int := 85
    const startingARAmmo: int := 120
    const baseMoveSpeed: real := 650.0
    const crouchMoveSpeed: real := 300.0
    const baseGroundFriction: real := 2.0
    const crouchingGroundFriction: real := 100.0
    const maxHealth: real := 100.0
    const stunChance: real := 0.25
    /** Whether a death montage asset is set, and a player controller exists to disable input. */
    const hasDeathMontage: bool
    const hasPlayerController: bool

    var combatState: CombatState
    var bIsAiming: bool
    var bAimingButtonPressed: bool
    var bIsCrouching: bool
    var bShootPressed: bool
    var bShootingBullet: bool
    var bShouldTraceForItems: bool
    var overlappedItemCount: int8
    var equippedWeapon: Item?
    var traceHitItem: Item?
    var traceHitItemLastFrame: Item?
    var ammoMap: map<AmmoType, int>
    var inventory: seq<Item?>
    var interpLocations: seq<InterpLocation>
    var highlightedSlot: int
    var health: real
    var bIsDead: bool
    var inputEnabled: bool
    var bShouldPlayPickupSound: bool
    var bShouldPlayEquipSound: bool
    /** The movement component's MaxWalkSpeed and GroundFriction. */
    var maxWalkSpeed: real
    var groundFriction: real

    /** The constructor and the header's field initialisers. */
    constructor (hasDeathMontage: bool, hasPlayerController: bool)
      ensures this.hasDeathMontage == hasDeathMontage && this.hasPlayerController == hasPlayerController
      ensures combatState == Unoccupied && highlightedSlot == -1
      ensures bShouldPlayPickupSound && bShouldPlayEquipSound
      ensures health == maxHealth && !bIsDead && inputEnabled
      ensures inventory == [] && interpLocations == [] && ammoMap == map[]
      ensures equippedWeapon == null && traceHitItem == null && traceHitItemLastFrame == null
      ensures overlappedItemCount == 0 && !bShouldTraceForItems
      ensures !bIsAiming && !bAimingButtonPressed && !bIsCrouching && !bShootPressed && !bShootingBullet
      ensures Valid()
    {
      this.hasDeathMontage := hasDeathMontage;
      this.hasPlayerController := hasPlayerController;
      combatState := Unoccupied;
      bIsAiming := false;
      bAimingButtonPressed := false;
      bIsCrouching := false;
      bShootPressed := false;
      bShootingBullet := false;
      bShouldTraceForItems := false;
      overlappedItemCount := 0;
      equippedWeapon := null;
      traceHitItem := null;
      traceHitItemLastFrame := null;
      ammoMap := map[];
      inventory := [];
      interpLocations := [];
      highlightedSlot := -1;
      health := 100.0;
      bIsDead := false;
      inputEnabled := true;
      bShouldPlayPickupSound := true;
      bShouldPlayEquipSound := true;
      maxWalkSpeed := 600.0;
      groundFriction := 8.0;
    }

    /** The inventory never exceeds its cap and health never drops below zero. */
    ghost predicate Valid()
      reads this`inventory, this`health
    {
      |inventory| <= inventoryCap && health >= 0.0
    }

    /** The item under the crosshair, as a frame. */
    function TraceHit(): set<Item>
      reads this`traceHitItem
    {
      if traceHitItem != null then {traceHitItem} else {}
    }

    /** The equipped weapon, as a frame. */
    function Weapon(): set<Item>
      reads this`equippedWeapon
    {
      if equippedWeapon != null then {equippedWeapon} else {}
    }

    /**
     * A pickup can start: IncrementInterpLocItemCount would index one past
     * the end with a single slot, and the chosen slot's int32 count must
     * have room for one more item.
     */
    predicate InterpSlotAvailable()
      reads this`interpLocations
    {
      |interpLocations| != 1
      && (|interpLocations| > 1 ==>
            exists j :: 1 <= j < |interpLocations| && interpLocations[j].itemAmount < Int32Max)
    }

    /** SwapWeapon dereferences the equipped weapon and writes its slot when it is in range. */
    predicate CanSwap()
      reads this`equippedWeapon, this`inventory, Weapon()`slotIndex
    {
      equippedWeapon != null
      && (equippedWeapon.slotIndex <= |inventory| - 1 ==> 0 <= equippedWeapon.slotIndex)
    }

    /** What GetPickupItem dereferences to store this item. */
    predicate CanStore(item: Item)
      reads this`equippedWeapon, this`inventory, Weapon()`slotIndex
    {
      (item.cls == WeaponActor && |inventory| >= inventoryCap ==> CanSwap())
      && (item.cls == AmmoActor ==> equippedWeapon != null)
    }

    /** What GetPickupItem dereferences for this item, its equip sound included. */
    predicate CanTake(item: Item)
      reads this`equippedWeapon, this`inventory, Weapon()`slotIndex, item`character
    {
      (item.character != null || !item.hasEquipSound) && CanStore(item)
    }

    /** After GetPickupItem: a taken weapon is in the inventory or equipped; taken ammo is gone. */
    predicate Took(item: Item)
      reads this`equippedWeapon, this`inventory, item`itemState, item`destroyed
    {
      (item.cls == WeaponActor ==>
         (item in inventory && item.itemState == PickedUp) || (equippedWeapon == item && item.itemState == Equipped))
      && (item.cls == AmmoActor ==> item.destroyed)
    }

    // ------------------------------------------------------------ movement

    /** Jump: while crouching it only stands up; otherwise the engine jump runs (`jumped`). */
    method Jump() returns (jumped: bool)
      modifies this`bIsCrouching, this`maxWalkSpeed
      ensures jumped <==> !old(bIsCrouching)
      ensures !bIsCrouching
      ensures maxWalkSpeed == if old(bIsCrouching) then baseMoveSpeed else old(maxWalkSpeed)
    {
      jumped := false;
      if bIsCrouching {
        bIsCrouching := false;
        maxWalkSpeed := baseMoveSpeed;
      } else {
        jumped := true;
      }
    }

    /** CrouchButtonPressed: toggles crouching unless falling, then sets speed and friction. */
    method CrouchButtonPressed(isFalling: bool)
      modifies this`bIsCrouching, this`maxWalkSpeed, this`groundFriction
      ensures bIsCrouching == (if isFalling then old(bIsCrouching) else !old(bIsCrouching))
      ensures bIsCrouching ==> maxWalkSpeed == crouchMoveSpeed && groundFriction == crouchingGroundFriction
      ensures !bIsCrouching ==> maxWalkSpeed == baseMoveSpeed && groundFriction == baseGroundFriction
    {
      if !isFalling {
        bIsCrouching := !bIsCrouching;
      }
      if bIsCrouching {
        maxWalkSpeed := crouchMoveSpeed;
        groundFriction := crouchingGroundFriction;
      } else {
        maxWalkSpeed := baseMoveSpeed;
        groundFriction := baseGroundFriction;
      }
    }

    // ------------------------------------------------------------- aiming

    method Aim()
      modifies this`bIsAiming, this`maxWalkSpeed
      ensures bIsAiming && maxWalkSpeed == crouchMoveSpeed
    {
      bIsAiming := true;
      maxWalkSpeed := crouchMoveSpeed;
    }

    method StopAiming()
      modifies this`bIsAiming, this`maxWalkSpeed
      ensures !bIsAiming
      ensures maxWalkSpeed == if bIsCrouching then old(maxWalkSpeed) else baseMoveSpeed
    {
      bIsAiming := false;
      if !bIsCrouching {
        maxWalkSpeed := baseMoveSpeed;
      }
    }

    /** AimDownSight: the button is held; aiming starts unless reloading, equipping or stunned. */
    method AimDownSight()
      modifies this`bAimingButtonPressed, this`bIsAiming, this`maxWalkSpeed
      ensures bAimingButtonPressed
      ensures combatState in {Reloading, Equipping, Stunned} ==>
                bIsAiming == old(bIsAiming) && maxWalkSpeed == old(maxWalkSpeed)
      ensures combatState !in {Reloading, Equipping, Stunned} ==> bIsAiming && maxWalkSpeed == crouchMoveSpeed
    {
      bAimingButtonPressed := true;
      if combatState != Reloading && combatState != Equipping && combatState != Stunned {
        Aim();
      }
    }

    method StopAimingDownSight()
      modifies this`bAimingButtonPressed, this`bIsAiming, this`maxWalkSpeed
      ensures !bAimingButtonPressed && !bIsAiming
      ensures maxWalkSpeed == if bIsCrouching then old(maxWalkSpeed) else baseMoveSpeed
    {
      bAimingButtonPressed := false;
      StopAiming();
    }

    // ------------------------------------------------------------ shooting

    /** ShootWeapon's guard: a weapon with ammo, and nothing else going on. */
    predicate CanShoot()
      reads this`equippedWeapon, this`combatState, Weapon()`ammo
    {
      equippedWeapon != null && combatState == Unoccupied && equippedWeapon.ammo > 0
    }

    /**
     * ShootWeapon: only when CanShoot, one round leaves the magazine, the
     * crosshair and shoot timers start (pistols also move their slide);
     * otherwise nothing changes.
     */
    method ShootWeapon()
      modifies this`combatState, this`bShootingBullet, Weapon()`ammo, Weapon()`bMovingSlide
      ensures old(CanShoot()) ==>
                equippedWeapon.ammo == old(equippedWeapon.ammo) - 1
                && combatState == ShootTimerInProgress && bShootingBullet
                && equippedWeapon.bMovingSlide == (old(equippedWeapon.bMovingSlide) || equippedWeapon.weaponType == Pistol)
      ensures !old(CanShoot()) ==>
                combatState == old(combatState) && bShootingBullet == old(bShootingBullet)
                && (equippedWeapon != null ==> equippedWeapon.ammo == old(equippedWeapon.ammo)
                                               && equippedWeapon.bMovingSlide == old(equippedWeapon.bMovingSlide))
    {
      if equippedWeapon == null {
        return;
      }
      if combatState != Unoccupied {
        return;
      }
      if WeaponHasAmmo() {
        equippedWeapon.DecrementAmmo();
        StartCrosshairBulletFire();
        StartShootTimer();
        if equippedWeapon.weaponType == Pistol {
          equippedWeapon.StartSlideTimer();
        }
      }
    }

    method ShootButtonPressed()
      modifies this`bShootPressed, this`combatState, this`bShootingBullet, Weapon()`ammo, Weapon()`bMovingSlide
      ensures bShootPressed
      ensures old(CanShoot()) ==>
                equippedWeapon.ammo == old(equippedWeapon.ammo) - 1
                && combatState == ShootTimerInProgress && bShootingBullet
                && equippedWeapon.bMovingSlide == (old(equippedWeapon.bMovingSlide) || equippedWeapon.weaponType == Pistol)
      ensures !old(CanShoot()) ==>
                combatState == old(combatState) && bShootingBullet == old(bShootingBullet)
                && (equippedWeapon != null ==> equippedWeapon.ammo == old(equippedWeapon.ammo)
                                               && equippedWeapon.bMovingSlide == old(equippedWeapon.bMovingSlide))
    {
      bShootPressed := true;
      ShootWeapon();
    }

    method ShootButtonReleased()
      modifies this`bShootPressed
      ensures !bShootPressed
    {
      bShootPressed := false;
    }

    /** StartShootTimer: with a weapon, the auto-fire timer runs. */
    method StartShootTimer()
      modifies this`combatState
      ensures combatState == if equippedWeapon != null then ShootTimerInProgress else old(combatState)
    {
      if equippedWeapon == null {
        return;
      }
      combatState := ShootTimerInProgress;
    }

    method StartCrosshairBulletFire()
      modifies this`bShootingBullet
      ensures bShootingBullet
    {
      bShootingBullet := true;
    }

    method FinishCrosshairBulletFire()
      modifies this`bShootingBullet
      ensures !bShootingBullet
    {
      bShootingBullet := false;
    }

    /**
     * AutoShootReset, the auto-fire timer's callback: unless stunned the
     * character is free again; it fires again while the trigger is held on
     * an automatic weapon with ammo, and reloads an empty (or missing) one.
     */
    method AutoShootReset()
      modifies this`combatState, this`bShootingBullet, this`bIsAiming, this`maxWalkSpeed,
               Weapon()`ammo, Weapon()`bMovingSlide
      ensures old(combatState) == Stunned ==> combatState == Stunned && bIsAiming == old(bIsAiming)
      ensures old(combatState) != Stunned && WeaponHasAmmo() && !(bShootPressed && equippedWeapon.bIsAutomatic) ==>
                combatState == Unoccupied
      ensures old(combatState) != Stunned && old(WeaponHasAmmo()) && bShootPressed && equippedWeapon.bIsAutomatic ==>
                combatState == ShootTimerInProgress && equippedWeapon.ammo == old(equippedWeapon.ammo) - 1
      ensures old(combatState) != Stunned && !old(WeaponHasAmmo()) ==>
                combatState == (if equippedWeapon != null && CarryingAmmo() && !equippedWeapon.ClipIsFull()
                                then Reloading else Unoccupied)
      ensures equippedWeapon != null && !(old(combatState) != Stunned && old(WeaponHasAmmo()) && bShootPressed
                                          && equippedWeapon.bIsAutomatic) ==>
                equippedWeapon.ammo == old(equippedWeapon.ammo)
      ensures var fires := old(combatState) != Stunned && old(WeaponHasAmmo()) && bShootPressed && equippedWeapon.bIsAutomatic;
              if fires
              then bShootingBullet
                   && equippedWeapon.bMovingSlide == (old(equippedWeapon.bMovingSlide) || equippedWeapon.weaponType == Pistol)
              else bShootingBullet == old(bShootingBullet)
                   && (equippedWeapon != null ==> equippedWeapon.bMovingSlide == old(equippedWeapon.bMovingSlide))
      ensures var reloads := old(combatState) != Stunned && !old(WeaponHasAmmo())
                             && equippedWeapon != null && CarryingAmmo() && !equippedWeapon.ClipIsFull();
              if reloads
              then !bIsAiming
                   && maxWalkSpeed == if old(bIsAiming) && !bIsCrouching then baseMoveSpeed else old(maxWalkSpeed)
              else bIsAiming == old(bIsAiming) && maxWalkSpeed == old(maxWalkSpeed)
    {
      if combatState == Stunned {
        return;
      }
      combatState := Unoccupied;
      if WeaponHasAmmo() {
        if bShootPressed && equippedWeapon.bIsAutomatic {
          ShootWeapon();
        }
      } else {
        ReloadWeapon();
      }
    }

    // ----------------------------------------------------------- reloading

    /** WeaponHasAmmo. */
    predicate WeaponHasAmmo()
      reads this`equippedWeapon, Weapon()`ammo
    {
      equippedWeapon != null && equippedWeapon.ammo > 0
    }

    /** CarryingAmmo: some ammo of the equipped weapon's type is carried. */
    predicate CarryingAmmo()
      reads this`equippedWeapon, this`ammoMap
    {
      equippedWeapon != null && equippedWeapon.ammoType in ammoMap && ammoMap[equippedWeapon.ammoType] > 0
    }

    /** ReloadWeapon's guard. */
    predicate CanReload()
      reads this`combatState, this`equippedWeapon, this`ammoMap, Weapon()`ammo
    {
      combatState == Unoccupied && equippedWeapon != null && CarryingAmmo() && !equippedWeapon.ClipIsFull()
    }

    /**
     * ReloadWeapon: Unoccupied becomes Reloading, and aiming stops, only
     * when ammo of the weapon's type is carried and the clip is not full.
     */
    method ReloadWeapon()
      modifies this`combatState, this`bIsAiming, this`maxWalkSpeed
      ensures combatState == if old(CanReload()) then Reloading else old(combatState)
      ensures old(CanReload()) ==> !bIsAiming
      ensures old(CanReload()) ==>
                maxWalkSpeed == if old(bIsAiming) && !bIsCrouching then baseMoveSpeed else old(maxWalkSpeed)
      ensures !old(CanReload()) ==> bIsAiming == old(bIsAiming) && maxWalkSpeed == old(maxWalkSpeed)
    {
      if combatState != Unoccupied {
        return;
      }
      if equippedWeapon == null {
        return;
      }
      if CarryingAmmo() && !equippedWeapon.ClipIsFull() {
        if bIsAiming {
          StopAiming();
        }
        combatState := Reloading;
      }
    }

    /**
     * FinishReloading: unless stunned, the character is free again (and
     * aims if the button is held), and ammo moves from the carried stock of
     * the weapon's type into the magazine, as ReloadTransfer says.
     */
    method FinishReloading()
      modifies this`combatState, this`bIsAiming, this`maxWalkSpeed, this`ammoMap, Weapon()`ammo
      ensures old(combatState) == Stunned ==>
                combatState == Stunned && ammoMap == old(ammoMap)
                && (equippedWeapon != null ==> equippedWeapon.ammo == old(equippedWeapon.ammo))
      ensures old(combatState) != Stunned ==> combatState == Unoccupied
      ensures old(combatState) == Stunned || !bAimingButtonPressed ==>
                bIsAiming == old(bIsAiming) && maxWalkSpeed == old(maxWalkSpeed)
      ensures old(combatState) != Stunned && bAimingButtonPressed ==> bIsAiming && maxWalkSpeed == crouchMoveSpeed
      ensures old(combatState) != Stunned && equippedWeapon != null && equippedWeapon.ammoType in old(ammoMap) ==>
                var t := equippedWeapon.ammoType;
                var r := ReloadTransfer(old(equippedWeapon.ammo), equippedWeapon.magazineCap, old(ammoMap)[t]);
                equippedWeapon.ammo == r.0 && ammoMap == old(ammoMap)[t := r.1]
      ensures old(combatState) != Stunned && equippedWeapon != null && equippedWeapon.ammoType !in old(ammoMap) ==>
                equippedWeapon.ammo == old(equippedWeapon.ammo) && ammoMap == old(ammoMap)
      ensures equippedWeapon == null ==> ammoMap == old(ammoMap)
    {
      if combatState == Stunned {
        return;
      }
      combatState := Unoccupied;
      if bAimingButtonPressed {
        Aim();
      }
      if equippedWeapon == null {
        return;
      }
      var t := equippedWeapon.ammoType;
      if t in ammoMap {
        var carried := ammoMap[t];
        var space := equippedWeapon.magazineCap - equippedWeapon.ammo;
        if space > carried {
          equippedWeapon.ReloadAmmo(carried);
          carried := 0;
          ammoMap := ammoMap[t := carried];
        } else {
          equippedWeapon.ReloadAmmo(space);
          carried := carried - space;
          ammoMap := ammoMap[t := carried];
        }
      }
    }

    /** FinishEquipping: unless stunned, the character is free again and aims if the button is held. */
    method FinishEquipping()
      modifies this`combatState, this`bIsAiming, this`maxWalkSpeed
      ensures combatState == if old(combatState) == Stunned then Stunned else Unoccupied
      ensures old(combatState) == Stunned || !bAimingButtonPressed ==>
                bIsAiming == old(bIsAiming) && maxWalkSpeed == old(maxWalkSpeed)
      ensures old(combatState) != Stunned && bAimingButtonPressed ==> bIsAiming && maxWalkSpeed == crouchMoveSpeed
    {
      if combatState == Stunned {
        return;
      }
      combatState := Unoccupied;
      if bAimingButtonPressed {
        Aim();
      }
    }

    // ------------------------------------------------------- health, stun

    /**
     * TakeDamage: a hit that would bring health to zero or below sets it to
     * zero and kills the character; an enemy controller as instigator then
     * learns that the character is dead.  The result is the damage taken,
     * or 0 when a killing hit has no enemy controller behind it.
     */
    method TakeDamage(damage: real, instigator: EnemyController?) returns (r: real)
      modifies this`health, this`bIsDead, this`inputEnabled, {instigator}`blackboard
      ensures health == ClampedHealth(old(health), damage)
      ensures bIsDead == (old(bIsDead) || health == 0.0)
      ensures r == if health == 0.0 && instigator == null then 0.0 else damage
      ensures instigator != null ==>
                instigator.blackboard == if health == 0.0
                                         then old(instigator.blackboard)[CharacterDeadKey := BoolValue(true)]
                                         else old(instigator.blackboard)
      ensures inputEnabled == (old(inputEnabled) && !(health == 0.0 && hasDeathMontage && hasPlayerController))
      ensures old(health) >= 0.0 ==> health >= 0.0
    {
      if health - damage <= 0.0 {
        health := 0.0;
        Die();
        if instigator == null {
          return 0.0;
        }
        instigator.SetValue(CharacterDeadKey, BoolValue(true));
      } else {
        health := health - damage;
      }
      r := damage;
    }

    /** Die: the character is dead; with a death montage and a player controller, input is disabled. */
    method Die()
      modifies this`bIsDead, this`inputEnabled
      ensures bIsDead
      ensures inputEnabled == (old(inputEnabled) && !(hasDeathMontage && hasPlayerController))
    {
      bIsDead := true;
      if !hasDeathMontage {
        return;
      }
      if !hasPlayerController {
        return;
      }
      inputEnabled := false;
    }

    /**
     * Stun: the character is stunned only when health is negative, which
     * Valid rules out, so a valid character is never stunned.
     */
    method Stun()
      modifies this`combatState
      ensures combatState == if old(health) >= 0.0 then old(combatState) else Stunned
      ensures Valid() ==> combatState == old(combatState)
    {
      if health >= 0.0 {
        return;
      }
      combatState := Stunned;
    }

    /** EndStun: free again, aiming if the button is held. */
    method EndStun()
      modifies this`combatState, this`bIsAiming, this`maxWalkSpeed
      ensures combatState == Unoccupied
      ensures bAimingButtonPressed ==> bIsAiming && maxWalkSpeed == crouchMoveSpeed
      ensures !bAimingButtonPressed ==> bIsAiming == old(bIsAiming) && maxWalkSpeed == old(maxWalkSpeed)
    {
      combatState := Unoccupied;
      if bAimingButtonPressed {
        Aim();
      }
    }

    method StartPickupSoundTimer()
      modifies this`bShouldPlayPickupSound
      ensures !bShouldPlayPickupSound
    {
      bShouldPlayPickupSound := false;
    }

    method ResetPickupSoundTimer()
      modifies this`bShouldPlayPickupSound
      ensures bShouldPlayPickupSound
    {
      bShouldPlayPickupSound := true;
    }

    method StartEquipSoundTimer()
      modifies this`bShouldPlayEquipSound
      ensures !bShouldPlayEquipSound
    {
      bShouldPlayEquipSound := false;
    }

    method ResetEquipSoundTimer()
      modifies this`bShouldPlayEquipSound
      ensures bShouldPlayEquipSound
    {
      bShouldPlayEquipSound := true;
    }

    // ------------------------------------------------- overlap and pickup

    /** IncrementOverlappedItemCount, as OverlapUpdate says. */
    method IncrementOverlappedItemCount(amount: int8)
      modifies this`overlappedItemCount, this`bShouldTraceForItems
      ensures (overlappedItemCount, bShouldTraceForItems) == OverlapUpdate(old(overlappedItemCount), amount)
    {
      if overlappedItemCount as int + amount as int <= 0 {
        overlappedItemCount := 0;
        bShouldTraceForItems := false;
      } else {
        overlappedItemCount := WrapInt8(overlappedItemCount as int + amount as int);
        bShouldTraceForItems := true;
      }
    }

    /** InitInterpLocations: the weapon slot and six item slots, all empty, are appended. */
    method InitInterpLocations()
      modifies this`interpLocations
      ensures interpLocations == old(interpLocations) + InitialInterpLocations
    {
      interpLocations := interpLocations + [InterpLocation(WeaponInterpComp, 0)];
      interpLocations := interpLocations + [InterpLocation(InterpComp(1), 0)];
      interpLocations := interpLocations + [InterpLocation(InterpComp(2), 0)];
      interpLocations := interpLocations + [InterpLocation(InterpComp(3), 0)];
      interpLocations := interpLocations + [InterpLocation(InterpComp(4), 0)];
      interpLocations := interpLocations + [InterpLocation(InterpComp(5), 0)];
      interpLocations := interpLocations + [InterpLocation(InterpComp(6), 0)];
    }

    /**
     * GetInterpLocationIndex: the least-loaded item slot, the first on
     * ties; 1 when there is no item slot.  The running minimum starts at
     * INT_MAX, so slots already at INT_MAX are never preferred to slot 1.
     */
    method GetInterpLocationIndex() returns (r: int)
      ensures 1 <= r
      ensures |interpLocations| <= 1 ==> r == 1
      ensures |interpLocations| > 1 ==> FirstLeastLoaded(interpLocations, r)
    {
      r := 1;
      var lowestAmount: int32 := Int32Max;
      var i := 1;
      while i < |interpLocations|
        invariant 1 <= i && (i <= |interpLocations| || i == 1)
        invariant 1 <= r && (r < i || r == 1)
        invariant (r < i && r < |interpLocations| && lowestAmount == interpLocations[r].itemAmount)
                  || (r == 1 && lowestAmount == Int32Max)
        invariant forall j :: 1 <= j < i ==> lowestAmount <= interpLocations[j].itemAmount
        invariant forall j :: 1 <= j < r ==> lowestAmount < interpLocations[j].itemAmount
      {
        if interpLocations[i].itemAmount < lowestAmount {
          r := i;
          lowestAmount := interpLocations[i].itemAmount;
        }
        i := i + 1;
      }
    }

    /**
     * IncrementInterpLocItemCount.  Its early return (`amount < -1 &&
     * amount > 1`) can never fire, and its bounds test `Num() >= index`
     * lets index == Num through: the precondition excludes that index and
     * negative ones, which the source reads out of bounds; an index past
     * the end changes nothing.
     */
    method IncrementInterpLocItemCount(index: int, amount: int32)
      requires 0 <= index && index != |interpLocations|
      requires index < |interpLocations| ==> InInt32(interpLocations[index].itemAmount as int + amount as int)
      modifies this`interpLocations
      ensures interpLocations == if index < |old(interpLocations)|
                                 then Bump(old(interpLocations), index, amount)
                                 else old(interpLocations)
    {
      if amount < -1 && amount > 1 {
        assert false;
        return;
      }
      if |interpLocations| >= index {
        interpLocations := Bump(interpLocations, index, amount);
      }
    }

    /**
     * AShooterCharacter::GetInterpLocation, with the same `index <= Num()`
     * test: index == Num is excluded as an out-of-bounds read; past the
     * end the value-initialised location (no component, no items) comes back.
     */
    function GetInterpLocation(index: int): (r: InterpLocation)
      reads this`interpLocations
      requires 0 <= index && index != |interpLocations|
      ensures index < |interpLocations| ==> r == interpLocations[index]
      ensures index > |interpLocations| ==> r == InterpLocation(NoSceneComp, 0)
    {
      if index <= |interpLocations| then interpLocations[index] else InterpLocation(NoSceneComp, 0)
    }

    /**
     * SelectButtonPressed: an Unoccupied character picks up the item under
     * the crosshair, forcing its pickup sound, and forgets the trace hit.
     */
    method SelectButtonPressed()
      requires combatState == Unoccupied && traceHitItem != null ==> InterpSlotAvailable()
      modifies this`traceHitItem, this`interpLocations, this`bShouldPlayPickupSound,
               TraceHit()`character, TraceHit()`interpLocIndex, TraceHit()`bIsInterping,
               TraceHit()`bCanChangeCustomDepth, TraceHit()`itemState, TraceHit()`components, TraceHit()`ammoMesh
      ensures bShouldPlayPickupSound == old(bShouldPlayPickupSound)
      ensures combatState != Unoccupied || old(traceHitItem) == null ==>
                traceHitItem == old(traceHitItem) && interpLocations == old(interpLocations)
      ensures combatState != Unoccupied && traceHitItem != null ==> unchanged(traceHitItem)
      ensures combatState == Unoccupied && old(traceHitItem) != null ==>
                var t := old(traceHitItem);
                traceHitItem == null && t.itemState == EquipInterping
                && t.character == this && t.bIsInterping && !t.bCanChangeCustomDepth
                && t.components == ItemProperties(EquipInterping, old(t.components))
                && t.ammoMesh == if t.cls == AmmoActor then AmmoMeshProperties(EquipInterping, old(t.ammoMesh)) else old(t.ammoMesh)
      ensures combatState == Unoccupied && old(traceHitItem) != null && |old(interpLocations)| > 1 ==>
                var k := old(traceHitItem).interpLocIndex;
                FirstLeastLoaded(old(interpLocations), k) && old(interpLocations)[k].itemAmount < Int32Max
                && interpLocations == Bump(old(interpLocations), k, 1)
    {
      if combatState != Unoccupied {
        return;
      }
      if traceHitItem == null {
        return;
      }
      traceHitItem.StartItemCurve(this, true);
      traceHitItem := null;
    }

    // ----------------------------------------------------------- inventory

    /**
     * GetEmptyInventorySlot: the first empty slot; else the next index when
     * the inventory is below its cap; else -1.
     */
    method GetEmptyInventorySlot() returns (r: int)
      ensures -1 <= r <= |inventory|
      ensures 0 <= r < |inventory| ==> inventory[r] == null
      ensures forall j :: 0 <= j < |inventory| && (r == -1 || j < r) ==> inventory[j] != null
      ensures r == |inventory| ==> |inventory| < inventoryCap
      ensures r == -1 ==> |inventory| >= inventoryCap
    {
      var i := 0;
      while i < |inventory|
        invariant 0 <= i <= |inventory|
        invariant forall j :: 0 <= j < i ==> inventory[j] != null
      {
        if inventory[i] == null {
          return i;
        }
        i := i + 1;
      }
      if |inventory| < inventoryCap {
        return |inventory|;
      }
      return -1;
    }

    /** HighlightInventorySlot: the slot a new weapon would take, the first free one, is highlighted. */
    method HighlightInventorySlot()
      modifies this`highlightedSlot
      ensures -1 <= highlightedSlot <= |inventory|
      ensures highlightedSlot == -1 ==> |inventory| >= inventoryCap && null !in inventory
      ensures 0 <= highlightedSlot < |inventory| ==> inventory[highlightedSlot] == null
      ensures forall j :: 0 <= j < |inventory| && (highlightedSlot == -1 || j < highlightedSlot) ==> inventory[j] != null
      ensures highlightedSlot == |inventory| ==> |inventory| < inventoryCap && null !in inventory
    {
      highlightedSlot := GetEmptyInventorySlot();
    }

    method UnHighlightInventorySlot()
      modifies this`highlightedSlot
      ensures highlightedSlot == -1
    {
      highlightedSlot := -1;
    }

    /** InitAmmoMap: 85 rounds of 9mm and 120 of AR. */
    method InitAmmoMap()
      modifies this`ammoMap
      ensures ammoMap == old(ammoMap)[Ammo9mm := starting9mmAmmo][AmmoAR := startingARAmmo]
      ensures ammoMap[Ammo9mm] == 85 && ammoMap[AmmoAR] == 120
    {
      ammoMap := ammoMap[Ammo9mm := starting9mmAmmo];
      ammoMap := ammoMap[AmmoAR := startingARAmmo];
    }

    /**
     * BeginPlay with the follow camera present: the spawned default weapon
     * is equipped, becomes inventory slot 0 and is owned by this character,
     * its outline is switched off, then the carried ammo, the interp slots
     * and the walking speed are set up.  The source dereferences the spawned
     * weapon unconditionally, so a default weapon class must be configured.
     */
    method BeginPlay(defaultWeapon: Item)
      requires defaultWeapon.cls == WeaponActor
      modifies this`equippedWeapon, this`inventory, this`ammoMap, this`interpLocations, this`maxWalkSpeed,
               defaultWeapon`itemState, defaultWeapon`components, defaultWeapon`ammoMesh,
               defaultWeapon`slotIndex, defaultWeapon`character
      ensures equippedWeapon == defaultWeapon && defaultWeapon.itemState == Equipped
      ensures inventory == old(inventory) + [defaultWeapon]
      ensures defaultWeapon.slotIndex == 0 && defaultWeapon.character == this
      ensures var equipped := ItemProperties(Equipped, old(defaultWeapon.components));
              defaultWeapon.components ==
                if defaultWeapon.bCanChangeCustomDepth
                then equipped.(mesh := equipped.mesh.SetRenderCustomDepth(false))
                else equipped
      ensures ammoMap == old(ammoMap)[Ammo9mm := starting9mmAmmo][AmmoAR := startingARAmmo]
      ensures interpLocations == old(interpLocations) + InitialInterpLocations
      ensures defaultWeapon.ammoMesh == old(defaultWeapon.ammoMesh)
      ensures maxWalkSpeed == baseMoveSpeed
      ensures old(Valid()) && |old(inventory)| < inventoryCap ==> Valid()
    {
      EquipWeapon(defaultWeapon, false);
      inventory := inventory + [equippedWeapon];
      defaultWeapon.SetSlotIndex(0);
      defaultWeapon.SetCustomDepth(false);
      defaultWeapon.SetCharacter(this);
      InitAmmoMap();
      InitInterpLocations();
      maxWalkSpeed := baseMoveSpeed;
    }

    /**
     * EquipWeapon: a non-null weapon becomes the equipped one, in state
     * Equipped.  (The hand socket is assumed present.)
     */
    method EquipWeapon(w: Item?, isSwapping: bool)
      modifies this`equippedWeapon, {w}`itemState, {w}`components, {w}`ammoMesh
      ensures w == null ==> equippedWeapon == old(equippedWeapon)
      ensures w != null ==> equippedWeapon == w && w.itemState == Equipped
                            && w.components == ItemProperties(Equipped, old(w.components))
                            && w.ammoMesh == if w.cls == AmmoActor then AmmoMeshProperties(Equipped, old(w.ammoMesh))
                                             else old(w.ammoMesh)
    {
      if w == null {
        return;
      }
      equippedWeapon := w;
      equippedWeapon.SetItemState(Equipped);
    }

    /** DropWeapon: the equipped weapon falls to the ground (it stays the equipped weapon). */
    method DropWeapon()
      modifies Weapon()`itemState, Weapon()`components, Weapon()`ammoMesh, Weapon()`bIsFalling
      ensures equippedWeapon != null ==>
                equippedWeapon.itemState == Falling && equippedWeapon.bIsFalling
                && equippedWeapon.components == ItemProperties(Falling, old(equippedWeapon.components))
                && equippedWeapon.ammoMesh == if equippedWeapon.cls == AmmoActor
                                              then AmmoMeshProperties(Falling, old(equippedWeapon.ammoMesh))
                                              else old(equippedWeapon.ammoMesh)
    {
      if equippedWeapon == null {
        return;
      }
      equippedWeapon.SetItemState(Falling);
      equippedWeapon.ThrowWeapon();
    }

    /**
     * SwapWeapon: the new weapon takes the equipped weapon's inventory slot
     * (when that slot exists), the old weapon is dropped, and the new one
     * is equipped.  The inventory keeps its length.
     */
    method SwapWeapon(w: Item)
      requires CanSwap()
      modifies this`inventory, this`equippedWeapon, this`traceHitItem, this`traceHitItemLastFrame,
               w`slotIndex, w`itemState, w`components, w`ammoMesh,
               Weapon()`itemState, Weapon()`components, Weapon()`ammoMesh, Weapon()`bIsFalling
      ensures var slot := old(equippedWeapon.slotIndex);
              inventory == if slot <= |old(inventory)| - 1 then old(inventory)[slot := w] else old(inventory)
      ensures |inventory| == |old(inventory)|
      ensures old(equippedWeapon.slotIndex) <= |old(inventory)| - 1 ==> w.slotIndex == old(equippedWeapon.slotIndex)
      ensures old(equippedWeapon.slotIndex) > |old(inventory)| - 1 ==> w.slotIndex == old(w.slotIndex)
      ensures equippedWeapon == w && w.itemState == Equipped
      ensures old(equippedWeapon) != w ==>
                var dropped := old(equippedWeapon);
                dropped.itemState == Falling && dropped.bIsFalling
                && dropped.components == ItemProperties(Falling, old(dropped.components))
                && dropped.ammoMesh == (if dropped.cls == AmmoActor then AmmoMeshProperties(Falling, old(dropped.ammoMesh))
                                        else old(dropped.ammoMesh))
                && w.components == ItemProperties(Equipped, old(w.components))
                && w.ammoMesh == if w.cls == AmmoActor then AmmoMeshProperties(Equipped, old(w.ammoMesh)) else old(w.ammoMesh)
      ensures old(equippedWeapon) == w ==>
                w.bIsFalling && w.components == ItemProperties(Equipped, ItemProperties(Falling, old(w.components)))
      ensures traceHitItem == null && traceHitItemLastFrame == null
      ensures old(Valid()) ==> Valid()
    {
      var slot := equippedWeapon.slotIndex;
      if |inventory| - 1 >= slot {
        inventory := inventory[slot := w];
        w.SetSlotIndex(slot);
      }
      DropWeapon();
      EquipWeapon(w, true);
      traceHitItem := null;
      traceHitItemLastFrame := null;
    }

    /**
     * PickupAmmo: the rounds join the carried stock of their type (a type
     * not in the map is dropped), an empty weapon of that type starts to
     * reload, and the ammo actor is destroyed.
     */
    method PickupAmmo(a: Item)
      requires equippedWeapon != null
      modifies this`ammoMap, this`combatState, this`bIsAiming, this`maxWalkSpeed, a`destroyed
      ensures ammoMap == AddCarried(old(ammoMap), a.ammoType, a.itemAmount)
      ensures a.destroyed
      ensures var reloads := equippedWeapon.ammoType == a.ammoType && equippedWeapon.ammo == 0
                             && old(combatState) == Unoccupied && CarryingAmmo() && !equippedWeapon.ClipIsFull();
              combatState == (if reloads then Reloading else old(combatState))
              && (reloads ==>
                    !bIsAiming
                    && maxWalkSpeed == if old(bIsAiming) && !bIsCrouching then baseMoveSpeed else old(maxWalkSpeed))
              && (!reloads ==> bIsAiming == old(bIsAiming) && maxWalkSpeed == old(maxWalkSpeed))
    {
      if a.ammoType in ammoMap {
        var ammoCount := ammoMap[a.ammoType];
        ammoCount := ammoCount + a.itemAmount;
        ammoMap := ammoMap[a.ammoType := ammoCount];
      }
      if equippedWeapon.ammoType == a.ammoType {
        if equippedWeapon.ammo == 0 {
          ReloadWeapon();
        }
      }
      a.Destroy();
    }

    /**
     * The weapon branch of GetPickupItem: into the next inventory slot while
     * there is room, otherwise swapped for the equipped weapon.
     */
    method StoreWeapon(item: Item)
      requires item.cls == WeaponActor
      requires |inventory| >= inventoryCap ==> CanSwap()
      modifies this`inventory, this`equippedWeapon, this`traceHitItem, this`traceHitItemLastFrame,
               item`slotIndex, item`itemState, item`components, item`ammoMesh,
               Weapon()`itemState, Weapon()`components, Weapon()`ammoMesh, Weapon()`bIsFalling
      ensures |old(inventory)| <= inventoryCap ==> |inventory| <= inventoryCap
      ensures |old(inventory)| < inventoryCap ==>
                inventory == old(inventory) + [item] && item.slotIndex == |old(inventory)|
                && item.itemState == PickedUp && equippedWeapon == old(equippedWeapon)
                && item.components == ItemProperties(PickedUp, old(item.components)) && item.ammoMesh == old(item.ammoMesh)
                && traceHitItem == old(traceHitItem) && traceHitItemLastFrame == old(traceHitItemLastFrame)
                && (old(equippedWeapon) != null && old(equippedWeapon) != item ==>
                      unchanged(old(equippedWeapon)`itemState, old(equippedWeapon)`components,
                                old(equippedWeapon)`ammoMesh, old(equippedWeapon)`bIsFalling))
      ensures |old(inventory)| >= inventoryCap ==>
                var slot := old(equippedWeapon.slotIndex);
                var dropped := old(equippedWeapon);
                inventory == (if slot <= |old(inventory)| - 1 then old(inventory)[slot := item] else old(inventory))
                && item.slotIndex == (if slot <= |old(inventory)| - 1 then slot else old(item.slotIndex))
                && equippedWeapon == item && item.itemState == Equipped
                && traceHitItem == null && traceHitItemLastFrame == null
                && (dropped != item ==>
                      dropped.itemState == Falling && dropped.bIsFalling
                      && dropped.components == ItemProperties(Falling, old(dropped.components))
                      && item.components == ItemProperties(Equipped, old(item.components)))
    {
      if |inventory| < inventoryCap {
        item.SetSlotIndex(|inventory|);
        inventory := inventory + [item];
        item.SetItemState(PickedUp);
      } else {
        SwapWeapon(item);
      }
    }

    /**
     * The casts of GetPickupItem after the equip sound: a weapon is stored as
     * StoreWeapon says, ammo is picked up as PickupAmmo says, and anything
     * else changes nothing.
     */
    method StoreItem(item: Item)
      requires CanStore(item)
      modifies this`inventory, this`equippedWeapon, this`traceHitItem, this`traceHitItemLastFrame,
               this`ammoMap, this`combatState, this`bIsAiming, this`maxWalkSpeed,
               item`slotIndex, item`itemState, item`components, item`ammoMesh, item`destroyed,
               Weapon()`itemState, Weapon()`components, Weapon()`ammoMesh, Weapon()`bIsFalling
      ensures |old(inventory)| <= inventoryCap ==> |inventory| <= inventoryCap
      ensures Took(item)
      ensures old(Valid()) ==> Valid()
      ensures item.cls == WeaponActor && |old(inventory)| < inventoryCap ==>
                inventory == old(inventory) + [item] && item.slotIndex == |old(inventory)|
                && item.itemState == PickedUp && equippedWeapon == old(equippedWeapon)
                && item.components == ItemProperties(PickedUp, old(item.components)) && item.ammoMesh == old(item.ammoMesh)
                && traceHitItem == old(traceHitItem) && traceHitItemLastFrame == old(traceHitItemLastFrame)
                && (old(equippedWeapon) != null && old(equippedWeapon) != item ==>
                      unchanged(old(equippedWeapon)`itemState, old(equippedWeapon)`components,
                                old(equippedWeapon)`ammoMesh, old(equippedWeapon)`bIsFalling))
      ensures item.cls == WeaponActor && |old(inventory)| >= inventoryCap ==>
                var slot := old(equippedWeapon.slotIndex);
                var dropped := old(equippedWeapon);
                inventory == (if slot <= |old(inventory)| - 1 then old(inventory)[slot := item] else old(inventory))
                && item.slotIndex == (if slot <= |old(inventory)| - 1 then slot else old(item.slotIndex))
                && equippedWeapon == item && item.itemState == Equipped
                && traceHitItem == null && traceHitItemLastFrame == null
                && (dropped != item ==>
                      dropped.itemState == Falling && dropped.bIsFalling
                      && dropped.components == ItemProperties(Falling, old(dropped.components))
                      && item.components == ItemProperties(Equipped, old(item.components)))
      ensures item.cls != AmmoActor ==>
                ammoMap == old(ammoMap) && combatState == old(combatState)
                && bIsAiming == old(bIsAiming) && maxWalkSpeed == old(maxWalkSpeed) && item.destroyed == old(item.destroyed)
      ensures item.cls != WeaponActor ==>
                inventory == old(inventory) && equippedWeapon == old(equippedWeapon)
                && traceHitItem == old(traceHitItem) && traceHitItemLastFrame == old(traceHitItemLastFrame)
                && item.slotIndex == old(item.slotIndex)
                && unchanged(item`itemState, item`components, item`ammoMesh)
                && (old(equippedWeapon) != null ==>
                      unchanged(old(equippedWeapon)`itemState, old(equippedWeapon)`components,
                                old(equippedWeapon)`ammoMesh, old(equippedWeapon)`bIsFalling))
      ensures item.cls == AmmoActor ==> ammoMap == AddCarried(old(ammoMap), item.ammoType, item.itemAmount)
      ensures item.cls == AmmoActor && equippedWeapon != null ==>
                var reloads := equippedWeapon.ammoType == item.ammoType && equippedWeapon.ammo == 0
                               && old(combatState) == Unoccupied && CarryingAmmo() && !equippedWeapon.ClipIsFull();
                combatState == (if reloads then Reloading else old(combatState))
                && (reloads ==>
                      !bIsAiming
                      && maxWalkSpeed == if old(bIsAiming) && !bIsCrouching then baseMoveSpeed else old(maxWalkSpeed))
                && (!reloads ==> bIsAiming == old(bIsAiming) && maxWalkSpeed == old(maxWalkSpeed))
      ensures item.cls == ItemActor ==> inventory == old(inventory) && ammoMap == old(ammoMap)
    {
      if item.cls == WeaponActor {
        StoreWeapon(item);
      }
      if item.cls == AmmoActor {
        PickupAmmo(item);
      }
    }

    /**
     * GetPickupItem: the equip sound plays (closing the owner's equip-sound
     * window), then the item is stored as StoreItem says.  The inventory
     * never grows past its cap.
     */
    method GetPickupItem(item: Item)
      requires CanTake(item)
      modifies this`inventory, this`equippedWeapon, this`traceHitItem, this`traceHitItemLastFrame,
               this`ammoMap, this`combatState, this`bIsAiming, this`maxWalkSpeed,
               item`slotIndex, item`itemState, item`components, item`ammoMesh, item`destroyed,
               Weapon()`itemState, Weapon()`components, Weapon()`ammoMesh, Weapon()`bIsFalling,
               item.Owner()`bShouldPlayEquipSound
      ensures |old(inventory)| <= inventoryCap ==> |inventory| <= inventoryCap
      ensures Took(item)
      ensures old(Valid()) ==> Valid()
      ensures item.character != null ==> !item.character.bShouldPlayEquipSound
      ensures item.cls == WeaponActor && |old(inventory)| < inventoryCap ==>
                inventory == old(inventory) + [item] && item.slotIndex == |old(inventory)|
                && item.itemState == PickedUp && equippedWeapon == old(equippedWeapon)
                && item.components == ItemProperties(PickedUp, old(item.components)) && item.ammoMesh == old(item.ammoMesh)
                && traceHitItem == old(traceHitItem) && traceHitItemLastFrame == old(traceHitItemLastFrame)
                && (old(equippedWeapon) != null && old(equippedWeapon) != item ==>
                      unchanged(old(equippedWeapon)`itemState, old(equippedWeapon)`components,
                                old(equippedWeapon)`ammoMesh, old(equippedWeapon)`bIsFalling))
      ensures item.cls == WeaponActor && |old(inventory)| >= inventoryCap ==>
                var slot := old(equippedWeapon.slotIndex);
                var dropped := old(equippedWeapon);
                inventory == (if slot <= |old(inventory)| - 1 then old(inventory)[slot := item] else old(inventory))
                && item.slotIndex == (if slot <= |old(inventory)| - 1 then slot else old(item.slotIndex))
                && equippedWeapon == item && item.itemState == Equipped
                && traceHitItem == null && traceHitItemLastFrame == null
                && (dropped != item ==>
                      dropped.itemState == Falling && dropped.bIsFalling
                      && dropped.components == ItemProperties(Falling, old(dropped.components))
                      && item.components == ItemProperties(Equipped, old(item.components)))
      ensures item.cls != AmmoActor ==>
                ammoMap == old(ammoMap) && combatState == old(combatState)
                && bIsAiming == old(bIsAiming) && maxWalkSpeed == old(maxWalkSpeed) && item.destroyed == old(item.destroyed)
      ensures item.cls != WeaponActor ==>
                inventory == old(inventory) && equippedWeapon == old(equippedWeapon)
                && traceHitItem == old(traceHitItem) && traceHitItemLastFrame == old(traceHitItemLastFrame)
                && item.slotIndex == old(item.slotIndex)
                && unchanged(item`itemState, item`components, item`ammoMesh)
                && (old(equippedWeapon) != null ==>
                      unchanged(old(equippedWeapon)`itemState, old(equippedWeapon)`components,
                                old(equippedWeapon)`ammoMesh, old(equippedWeapon)`bIsFalling))
      ensures item.cls == AmmoActor ==> ammoMap == AddCarried(old(ammoMap), item.ammoType, item.itemAmount)
      ensures item.cls == AmmoActor && equippedWeapon != null ==>
                var reloads := equippedWeapon.ammoType == item.ammoType && equippedWeapon.ammo == 0
                               && old(combatState) == Unoccupied && CarryingAmmo() && !equippedWeapon.ClipIsFull();
                combatState == (if reloads then Reloading else old(combatState))
                && (reloads ==>
                      !bIsAiming
                      && maxWalkSpeed == if old(bIsAiming) && !bIsCrouching then baseMoveSpeed else old(maxWalkSpeed))
                && (!reloads ==> bIsAiming == old(bIsAiming) && maxWalkSpeed == old(maxWalkSpeed))
      ensures item.cls == ItemActor ==> inventory == old(inventory) && ammoMap == old(ammoMap)
    {
      var _ := item.PlayEquipSound(false);
      StoreItem(item);
    }

    /**
     * DefaultWeaponSlotKeyPressed (slot 0) and WeaponSlot1KeyPressed (slot 1):
     * pressing the key of the slot already in hand does nothing, any other
     * slot key asks for an exchange from the equipped weapon's slot.  Both
     * read the equipped weapon's slot without a null check.
     */
    method WeaponSlotKeyPressed(slot: int)
      requires equippedWeapon != null
      requires equippedWeapon.slotIndex != slot
               && ExchangeGuard(equippedWeapon.slotIndex, slot, |inventory|, combatState)
               && combatState != ShootTimerInProgress ==>
                 0 <= slot && inventory[slot] != null && inventory[slot].cls == WeaponActor
      modifies this`equippedWeapon, this`combatState, Weapon()`itemState, Weapon()`components, Weapon()`ammoMesh,
               set i | 0 <= i < |inventory| && inventory[i] != null :: inventory[i]`itemState,
               set i | 0 <= i < |inventory| && inventory[i] != null :: inventory[i]`components,
               set i | 0 <= i < |inventory| && inventory[i] != null :: inventory[i]`ammoMesh
      ensures var moves := old(ExchangeGuard(equippedWeapon.slotIndex, slot, |inventory|, combatState))
                           && old(combatState) != ShootTimerInProgress;
              if moves
              then equippedWeapon == inventory[slot] && equippedWeapon.itemState == Equipped
                   && combatState == Equipping
              else equippedWeapon == old(equippedWeapon) && combatState == old(combatState)
                   && unchanged(equippedWeapon`itemState, equippedWeapon`components, equippedWeapon`ammoMesh)
      ensures old(ExchangeGuard(equippedWeapon.slotIndex, slot, |inventory|, combatState))
              && old(combatState) != ShootTimerInProgress && old(equippedWeapon) != equippedWeapon ==>
                var prev := old(equippedWeapon);
                equippedWeapon.components == ItemProperties(Equipped, old(inventory[slot].components))
                && equippedWeapon.ammoMesh == old(inventory[slot].ammoMesh)
                && prev.components == ItemProperties(PickedUp, old(prev.components))
                && prev.ammoMesh == if prev.cls == AmmoActor then AmmoMeshProperties(PickedUp, old(prev.ammoMesh)) else old(prev.ammoMesh)
      ensures forall o: Item :: o in old(inventory) && o != old(equippedWeapon) && o != equippedWeapon ==>
                o.itemState == old(o.itemState) && o.components == old(o.components) && o.ammoMesh == old(o.ammoMesh)
    {
      if equippedWeapon.slotIndex == slot {
        return;
      }
      ExchangeInventoryItems(equippedWeapon.slotIndex, slot);
    }

    /**
     * ExchangeInventoryItems: outside the shoot timer, and when the guard
     * holds, the weapon in slot `next` is equipped, the old one is put
     * away, and the character starts equipping.
     */
    method ExchangeInventoryItems(current: int, next: int)
      requires ExchangeGuard(current, next, |inventory|, combatState) && combatState != ShootTimerInProgress ==>
                 0 <= next && equippedWeapon != null && inventory[next] != null && inventory[next].cls == WeaponActor
      modifies this`equippedWeapon, this`combatState, Weapon()`itemState, Weapon()`components, Weapon()`ammoMesh,
               set i | 0 <= i < |inventory| && inventory[i] != null :: inventory[i]`itemState,
               set i | 0 <= i < |inventory| && inventory[i] != null :: inventory[i]`components,
               set i | 0 <= i < |inventory| && inventory[i] != null :: inventory[i]`ammoMesh
      ensures !old(ExchangeGuard(current, next, |inventory|, combatState)) || old(combatState) == ShootTimerInProgress ==>
                equippedWeapon == old(equippedWeapon) && combatState == old(combatState)
      ensures old(ExchangeGuard(current, next, |inventory|, combatState)) && old(combatState) != ShootTimerInProgress ==>
                equippedWeapon == inventory[next] && equippedWeapon.itemState == Equipped
                && combatState == Equipping
                && (old(equippedWeapon) != equippedWeapon ==> old(equippedWeapon).itemState == PickedUp)
      ensures old(ExchangeGuard(current, next, |inventory|, combatState)) && old(combatState) != ShootTimerInProgress
              && old(equippedWeapon) != equippedWeapon ==>
                var prev := old(equippedWeapon);
                equippedWeapon.components == ItemProperties(Equipped, old(inventory[next].components))
                && equippedWeapon.ammoMesh == old(inventory[next].ammoMesh)
                && prev.components == ItemProperties(PickedUp, old(prev.components))
                && prev.ammoMesh == if prev.cls == AmmoActor then AmmoMeshProperties(PickedUp, old(prev.ammoMesh)) else old(prev.ammoMesh)
      ensures !old(ExchangeGuard(current, next, |inventory|, combatState)) || old(combatState) == ShootTimerInProgress ==>
                equippedWeapon != null ==> unchanged(equippedWeapon`itemState, equippedWeapon`components, equippedWeapon`ammoMesh)
      ensures forall o: Item :: o in old(inventory) && o != old(equippedWeapon) && o != equippedWeapon ==>
                o.itemState == old(o.itemState) && o.components == old(o.components) && o.ammoMesh == old(o.ammoMesh)
      ensures old(Valid()) ==> Valid()
    {
      var canExchange := ExchangeGuard(current, next, |inventory|, combatState);
      if combatState == ShootTimerInProgress {
        return;
      }
      if canExchange {
        var oldEquippedWeapon := equippedWeapon;
        var newWeapon := inventory[next];
        EquipWeapon(newWeapon, false);
        oldEquippedWeapon.SetItemState(PickedUp);
        newWeapon.SetItemState(Equipped);
        ItemPropertiesIdempotent(Equipped, old(newWeapon.components));
        combatState := Equipping;
      }
    }
  }

  /**
   * A whole pickup: the item's curve starts towards `c` and, when the
   * interp timer fires, FinishInterping hands the item over.  The slot
   * count the item took at the start is given back at the end.
   */
  method PickUp(item: Item, c: ShooterCharacter, force: bool)
    requires c.InterpSlotAvailable() && c.CanStore(item)
    modifies item, c, c.equippedWeapon
    ensures c.interpLocations == old(c.interpLocations)
    ensures item.character == c && c.Took(item)
    ensures !item.bIsInterping && item.bCanChangeCustomDepth
    ensures |old(c.inventory)| <= c.inventoryCap ==> |c.inventory| <= c.inventoryCap
  {
    item.StartItemCurve(c, force);
    item.FinishInterping();
  }
}
