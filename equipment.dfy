/**
 * The static equipment catalog and the global ammunition cap.
 * Every item is keyed by a stable identifier; an item may declare a slot
 * type and a cost, and any number of counters, each of which becomes a
 * trooper field named "<counterId>_current" while the item is equipped.
 */
module Equipment {
  import opened Options

  /** The ammunition cap shared by every trooper. */
  const MaxAmmo: nat := 3

  /** The four slot types an item may declare. */
  const BasicArmor := "basic_armor"
  const BasicWeapon := "basic_weapon"
  const SpecialWeapon := "special_weapon"
  const SpecialEquipment := "special_equipment"
  const SlotTypeNames: seq<string> := [BasicArmor, BasicWeapon, SpecialWeapon, SpecialEquipment]

  datatype Counter = Counter(id: string, name: string, max: nat, icon: string, color: Option<string>)

  /** A catalog entry. `itemType` and `cost` are optional: one entry declares neither. */
  datatype Item = Item(name: string, cost: Option<nat>, itemType: Option<string>, counters: seq<Counter>)

  /** The counters entries of the six items that declare one. */
  const MediumArmorCounters := [Counter("armor_absorbed", "Armor", 1, "shield", None)]
  const RocketLauncherCounters := [Counter("rocket", "R. Launcher", 1, "diamond", None)]
  const SupplyPackCounters := [Counter("pack_ammo", "Pack Ammo", 6, "circle", Some("navy"))]
  const DroneGearCounters := [Counter("drone", "Drone", 1, "drone", Some("orange"))]
  const JumpPackCounters := [Counter("jump", "Jump", 1, "rocket", None)]
  const RadioGearCounters := [Counter("strike", "Art. Strike", 1, "arrow-big-down-dash", Some("red"))]

  const Database: map<string, Item> := map[
    "light_armor" := Item("Light Armor", Some(0), Some(BasicArmor), []),
    "medium_armor" := Item("Medium Armor", Some(0), Some(BasicArmor),
                           MediumArmorCounters),
    "heavy_armor" := Item("Heavy Armor", Some(0), Some(BasicArmor), []),
    "assault_rifle" := Item("Assault Rifle", Some(0), Some(BasicWeapon), []),
    "carbine" := Item("Carbine", Some(0), Some(BasicWeapon), []),
    "marksman_rifle" := Item("Marksman Rifle", Some(0), Some(BasicWeapon), []),
    "lmg" := Item("LMG", Some(1), Some(SpecialWeapon), []),
    "sniper_rifle" := Item("Sniper Rifle", Some(0), Some(SpecialWeapon), []),
    "grenade_launcher" := Item("Grenade Launcher", Some(1), Some(SpecialWeapon), []),
    "hmg" := Item("HMG", Some(2), Some(SpecialWeapon), []),
    "rocket_launcher" := Item("Rocket Launcher", Some(1), Some(SpecialWeapon),
                              RocketLauncherCounters),
    "melee_weapon" := Item("Melee Weapon", Some(0), Some(SpecialWeapon), []),
    "plasma_rifle" := Item("Plasma Rifle", Some(3), Some(SpecialWeapon), []),
    "supply_pack" := Item("Supply Pack", Some(1), Some(SpecialEquipment),
                          SupplyPackCounters),
    "commanders_kit" := Item("Commander's Kit", Some(1), Some(SpecialEquipment), []),
    "demo_charges" := Item("Demolition Charges", None, None, []),
    "drone_gear" := Item("Drone Gear", Some(0), Some(SpecialEquipment),
                         DroneGearCounters),
    "jump_pack" := Item("Jump Pack", Some(2), Some(SpecialEquipment),
                        JumpPackCounters),
    "medic_gear" := Item("Medic Gear", Some(1), Some(SpecialEquipment), []),
    "radio_gear" := Item("Radio Gear", Some(1), Some(SpecialEquipment),
                         RadioGearCounters)
  ]

  /** The trooper field that holds the current value of counter `counterId`. */
  function CounterField(counterId: string): (f: string)
    ensures |f| == |counterId| + 8 && f[..|counterId|] == counterId
  {
    counterId + "_current"
  }

  /**
   * The counters of the item keyed `id`; none for an unknown or counterless item.
   * CatalogCounters shows that this is the counters entry of the catalog.
   */
  function ItemCounters(id: string): (cs: seq<Counter>)
    ensures |cs| <= 1
    ensures forall c :: c in cs ==> c.max >= 1 && |c.id| > 0
  {
    if id == "medium_armor" then MediumArmorCounters
    else if id == "rocket_launcher" then RocketLauncherCounters
    else if id == "supply_pack" then SupplyPackCounters
    else if id == "drone_gear" then DroneGearCounters
    else if id == "jump_pack" then JumpPackCounters
    else if id == "radio_gear" then RadioGearCounters
    else []
  }

  /** ItemCounters reads the counters entry of the catalog; an unknown id has none. */
  lemma CatalogCounters(id: string)
    ensures id in Database ==> ItemCounters(id) == Database[id].counters
    ensures id !in Database ==> ItemCounters(id) == []
  {
  }

  /** Some counter of `cs` has the field `f`. */
  predicate Supplies(cs: seq<Counter>, f: string)
  {
    exists c :: c in cs && CounterField(c.id) == f
  }

  /** Item `id` has a counter whose field is `f`. */
  predicate Provides(id: string, f: string)
  {
    Supplies(ItemCounters(id), f)
  }

  /** Item `id` is in the catalog and declares one of the slot types `types`. */
  predicate InSlot(id: string, types: seq<string>): (b: bool)
    ensures b ==> |id| > 0 && |types| > 0
  {
    id in Database && Database[id].itemType.Some? && Database[id].itemType.value in types
  }

  lemma CounterFieldInjective(a: string, b: string)
    requires CounterField(a) == CounterField(b)
    ensures a == b
  {
    assert a == CounterField(a)[..|a|];
  }

  /** Every entry that declares a type declares one of the four slot types. */
  lemma ItemTypesAreSlotTypes(id: string)
    requires id in Database && Database[id].itemType.Some?
    ensures Database[id].itemType.value in SlotTypeNames
  {
  }

  /** The demolition charges declare neither type nor cost, so no slot ever holds them. */
  lemma DemoChargesHaveNoSlot(types: seq<string>)
    ensures Database["demo_charges"].itemType.None? && Database["demo_charges"].cost.None?
    ensures !InSlot("demo_charges", types)
  {
  }

  /** The counters of the catalog, with their maxima; every maximum is at least 1. */
  lemma CounterMaxima(id: string, c: Counter)
    requires c in ItemCounters(id)
    ensures c.max >= 1
    ensures (id, c.id, c.max) in {("medium_armor", "armor_absorbed", 1), ("rocket_launcher", "rocket", 1),
                                  ("supply_pack", "pack_ammo", 6), ("drone_gear", "drone", 1),
                                  ("jump_pack", "jump", 1), ("radio_gear", "strike", 1)}
  {
  }

  /** Counter fields are distinct across the catalog: each belongs to exactly one counter of one item. */
  lemma CounterFieldOwner(a: string, b: string, ca: Counter, cb: Counter)
    requires ca in ItemCounters(a) && cb in ItemCounters(b)
    requires CounterField(ca.id) == CounterField(cb.id)
    ensures a == b && ca == cb
  {
    CounterFieldInjective(ca.id, cb.id);
    CounterMaxima(a, ca);
    CounterMaxima(b, cb);
  }

  /** The default gear: the assault rifle is a basic weapon and the medium armor a basic armor. */
  lemma DefaultItemTypes()
    ensures "assault_rifle" in Database && Database["assault_rifle"].itemType == Some(BasicWeapon)
    ensures "medium_armor" in Database && Database["medium_armor"].itemType == Some(BasicArmor)
  {
  }

  /** Items without a counters entry (light and heavy armor, the assault rifle) contribute no counter field. */
  lemma CounterlessItems(f: string)
    ensures !Provides("light_armor", f) && !Provides("heavy_armor", f) && !Provides("assault_rifle", f)
  {
    assert ItemCounters("light_armor") == [];
    assert ItemCounters("heavy_armor") == [];
    assert ItemCounters("assault_rifle") == [];
  }

  /** Medium armor contributes exactly the field "armor_absorbed_current". */
  lemma MediumArmorField(f: string)
    ensures Provides("medium_armor", f) <==> f == "armor_absorbed_current"
  {
    var cs := ItemCounters("medium_armor");
    assert cs == [Counter("armor_absorbed", "Armor", 1, "shield", None)];
    assert CounterField(cs[0].id) == "armor_absorbed_current";
    if f == "armor_absorbed_current" {
      assert cs[0] in cs;
    } else {
      forall c | c in cs ensures CounterField(c.id) != f {
        assert c == cs[0];
      }
    }
  }
}
