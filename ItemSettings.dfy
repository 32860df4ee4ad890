// The component configuration an item takes in each item state, and the
// rarity stars shown on its pickup widget.  Engine components (meshes,
// spheres, boxes) are value records here; an item stores one of each.

module ItemSettings {
  import opened ShooterTypes

  datatype CollisionEnabled = NoCollision | QueryOnly | PhysicsOnly | QueryAndPhysics
  datatype Response = Ignore | Overlap | Block
  datatype Channel = WorldStatic | WorldDynamic | Pawn | Visibility | Camera | PhysicsBody | Vehicle | Destructible

  /** A response for every channel, with per-channel exceptions. */
  datatype Responses = Responses(all: Response, overrides: map<Channel, Response>)
  {
    function To(ch: Channel): Response
    {
      if ch in overrides then overrides[ch] else all
    }
  }

  /** SetCollisionResponseToAllChannels: one response, no exceptions left. */
  function AllChannels(r: Response): (rs: Responses)
    ensures forall ch :: rs.To(ch) == r
  {
    Responses(r, map[])
  }

  /** The state of a primitive component that the item code sets. */
  datatype Primitive = Primitive(simulatePhysics: bool, enableGravity: bool, visible: bool,
                                 collision: CollisionEnabled, responses: Responses,
                                 renderCustomDepth: bool)
  {
    function SetSimulatePhysics(b: bool): Primitive { this.(simulatePhysics := b) }
    function SetEnableGravity(b: bool): Primitive { this.(enableGravity := b) }
    function SetVisibility(b: bool): Primitive { this.(visible := b) }
    function SetCollisionEnabled(c: CollisionEnabled): Primitive { this.(collision := c) }
    function SetCollisionResponseToAllChannels(r: Response): Primitive { this.(responses := AllChannels(r)) }
    function SetCollisionResponseToChannel(ch: Channel, r: Response): Primitive
    {
      this.(responses := responses.(overrides := responses.overrides[ch := r]))
    }
    function SetRenderCustomDepth(b: bool): Primitive { this.(renderCustomDepth := b) }
  }

  /** Values a component holds before any item code touches it. */
  const EngineDefault := Primitive(false, true, true, QueryAndPhysics, AllChannels(Block), false)

  /** The components AItem configures: mesh, area sphere, collision box, pickup widget. */
  datatype ItemComponents = ItemComponents(mesh: Primitive, areaSphere: Primitive, box: Primitive,
                                           widgetVisible: bool)

  /** Mesh settings shared by every state in which the item is not physically simulated. */
  function Held(p: Primitive, visible: bool): Primitive
  {
    p.SetSimulatePhysics(false).SetEnableGravity(false).SetVisibility(visible)
     .SetCollisionResponseToAllChannels(Ignore).SetCollisionEnabled(NoCollision)
  }

  /** A volume that takes part in no collision or overlap. */
  function Off(p: Primitive): Primitive
  {
    p.SetCollisionResponseToAllChannels(Ignore).SetCollisionEnabled(NoCollision)
  }

  /**
   * AItem::SetItemProperties: the component settings for each item state.
   * Only a picked-up item is hidden, only a falling item is simulated, and
   * only an item lying in the world (Pickup) can be overlapped by its area
   * sphere and traced through its collision box.  The sentinel state has no
   * case and changes nothing; custom depth is never touched.
   */
  function ItemProperties(state: ItemState, c: ItemComponents): (r: ItemComponents)
    ensures state == ItemStateMax ==> r == c
    ensures state != ItemStateMax ==> (r.mesh.visible <==> state != PickedUp)
    ensures state != ItemStateMax ==> (r.mesh.simulatePhysics <==> state == Falling)
    ensures state != ItemStateMax ==> (r.mesh.enableGravity <==> state == Falling)
    ensures state != ItemStateMax ==> (r.mesh.collision != NoCollision <==> state == Falling)
    ensures state == Falling ==> r.mesh.collision == QueryAndPhysics && r.mesh.responses.To(WorldStatic) == Block
                                 && r.mesh.responses.To(Pawn) == Ignore
    ensures state != ItemStateMax ==> (r.areaSphere.collision != NoCollision <==> state == Pickup)
    ensures state == Pickup ==> r.areaSphere.collision == QueryOnly && forall ch :: r.areaSphere.responses.To(ch) == Overlap
    ensures state != ItemStateMax ==> (r.box.collision != NoCollision <==> state == Pickup)
    ensures state != ItemStateMax ==> (r.box.responses.To(Visibility) == Block <==> state == Pickup)
    ensures state == Pickup ==> r.box.collision == QueryAndPhysics
    ensures state == EquipInterping || state == PickedUp || state == Equipped ==> !r.widgetVisible
    ensures state == Pickup || state == Falling || state == ItemStateMax ==> r.widgetVisible == c.widgetVisible
    ensures r.mesh.renderCustomDepth == c.mesh.renderCustomDepth
  {
    match state
    case Pickup =>
      c.(mesh := Held(c.mesh, true),
         areaSphere := c.areaSphere.SetCollisionResponseToAllChannels(Overlap).SetCollisionEnabled(QueryOnly),
         box := c.box.SetCollisionResponseToAllChannels(Ignore).SetCollisionResponseToChannel(Visibility, Block)
                     .SetCollisionEnabled(QueryAndPhysics))
    case Equipped =>
      ItemComponents(Held(c.mesh, true), Off(c.areaSphere), Off(c.box), false)
    case Falling =>
      c.(mesh := c.mesh.SetSimulatePhysics(true).SetEnableGravity(true).SetVisibility(true)
                   .SetCollisionEnabled(QueryAndPhysics).SetCollisionResponseToAllChannels(Ignore)
                   .SetCollisionResponseToChannel(WorldStatic, Block),
         areaSphere := Off(c.areaSphere),
         box := Off(c.box))
    case EquipInterping =>
      ItemComponents(Held(c.mesh, true), Off(c.areaSphere), Off(c.box), false)
    case PickedUp =>
      ItemComponents(Held(c.mesh, false), Off(c.areaSphere), Off(c.box), false)
    case ItemStateMax =>
      c
  }

  /** Setting the same state twice configures the components as setting it once. */
  lemma ItemPropertiesIdempotent(state: ItemState, c: ItemComponents)
    ensures ItemProperties(state, ItemProperties(state, c)) == ItemProperties(state, c)
  {
  }

  /**
   * AAmmo::SetItemProperties, applied to the ammo mesh after the base item
   * settings.  It has no PickedUp case, and its Falling case leaves the
   * mesh's visibility as it was.
   */
  function AmmoMeshProperties(state: ItemState, m: Primitive): (r: Primitive)
    ensures state == PickedUp || state == ItemStateMax ==> r == m
    ensures state != PickedUp && state != ItemStateMax ==>
              (r.simulatePhysics <==> state == Falling) && (r.enableGravity <==> state == Falling)
              && (r.collision != NoCollision <==> state == Falling)
    ensures state == Falling ==> r.visible == m.visible && r.responses.To(WorldStatic) == Block
    ensures state == Pickup || state == Equipped || state == EquipInterping ==> r.visible
    ensures r.renderCustomDepth == m.renderCustomDepth
  {
    match state
    case Pickup => Held(m, true)
    case Equipped => Held(m, true)
    case Falling =>
      m.SetSimulatePhysics(true).SetEnableGravity(true).SetCollisionEnabled(QueryAndPhysics)
       .SetCollisionResponseToAllChannels(Ignore).SetCollisionResponseToChannel(WorldStatic, Block)
    case EquipInterping => Held(m, true)
    case PickedUp => m
    case ItemStateMax => m
  }

  /** How many stars AItem::SetActiveStars lights for a rarity. */
  function StarCount(rarity: ItemRarity): (k: nat)
    ensures rarity != RarityMax ==> k == rarity.Ordinal() + 1
    ensures rarity == RarityMax ==> k == 0
    ensures k <= 5
  {
    match rarity
    case Damaged => 1
    case Common => 2
    case Uncommon => 3
    case Rare => 4
    case Legendary => 5
    case RarityMax => 0
  }

  /**
   * The star array after AItem::SetActiveStars: six unlit entries appended,
   * then entries 1 to StarCount lit (entry 0 is never used).
   */
  ghost function StarsAfter(stars: seq<bool>, rarity: ItemRarity): seq<bool>
  {
    seq(|stars| + 6, i requires 0 <= i < |stars| + 6 =>
          if 1 <= i <= StarCount(rarity) then true
          else if i < |stars| then stars[i]
          else false)
  }

  /** On a fresh item the array has six entries, of which exactly 1..ordinal+1 are lit. */
  lemma FreshStars(rarity: ItemRarity)
    requires rarity != RarityMax
    ensures |StarsAfter([], rarity)| == 6
    ensures !StarsAfter([], rarity)[0]
    ensures forall i :: 1 <= i < 6 ==> (StarsAfter([], rarity)[i] <==> i <= rarity.Ordinal() + 1)
  {
    var stars := StarsAfter([], rarity);
    forall i | 1 <= i < 6
      ensures stars[i] <==> i <= rarity.Ordinal() + 1
    {
      assert stars[i] == (i <= StarCount(rarity));
    }
  }
}
