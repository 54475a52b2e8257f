/**
 * What the page does with a click or a change once the trooper id, the field and the value
 * have been read off the element: the pip dispatch, the position toggle, the remove-gear
 * button and the three-slot gear swap.
 */
module EventHandlers {
  import opened Options
  import opened Equipment
  import opened Strings
  import opened Utilities
  import opened CounterFields
  import opened DataManager
  import opened Mission

  // ---------------------------------------------------------------- pip clicks

  /**
   * handlePipClick once the pip is read: nothing without a trooper id or without a numeric
   * value (`value` is None for NaN); "grit" and "ammo" go to setGrit and setAmmo; "counter"
   * goes to setEquipmentCounter when the pips name a field; any other resource does nothing.
   */
  function PipClicked(ts: seq<Trooper>, id: string, resource: string, field: string, value: Option<int>): (r: seq<Trooper>)
    ensures id == "" || value.None? ==> r == ts
    ensures id != "" && value.Some? && resource == "grit" ==> r == EditFirst(ts, id, Grit(value.value))
    ensures id != "" && value.Some? && resource == "ammo" ==> r == EditFirst(ts, id, Ammo(value.value))
    ensures id != "" && value.Some? && resource == "counter" && field != "" ==>
              r == EditFirst(ts, id, EquipmentCounter(field, value.value))
    ensures resource == "counter" && field == "" ==> r == ts
    ensures resource != "grit" && resource != "ammo" && resource != "counter" ==> r == ts
  {
    if id == "" || value.None? then ts
    else if resource == "grit" then EditFirst(ts, id, Grit(value.value))
    else if resource == "ammo" then EditFirst(ts, id, Ammo(value.value))
    else if resource == "counter" && field != "" then EditFirst(ts, id, EquipmentCounter(field, value.value))
    else ts
  }

  method HandlePipClick(roster: Roster, id: string, resource: string, field: string, value: Option<int>)
    modifies roster
    ensures roster.troopers == PipClicked(old(roster.troopers), id, resource, field, value)
  {
    if id == "" || value.None? {
      return;
    }
    if resource == "grit" {
      roster.SetGrit(id, value.value);
    } else if resource == "ammo" {
      roster.SetAmmo(id, value.value);
    } else if resource == "counter" {
      if field != "" {
        roster.SetEquipmentCounter(id, field, value.value);
      }
    }
  }

  /**
   * A click on a rendered grit pip (1..gritMax) or ammunition pip (1..MaxAmmo) keeps every
   * trooper within its grit and ammunition bounds.
   */
  lemma PipClickKeepsBounds(ts: seq<Trooper>, id: string, resource: string, value: int)
    requires forall i :: 0 <= i < |ts| ==> 0 <= ts[i].gritCurrent <= ts[i].gritMax
    requires forall i :: 0 <= i < |ts| ==> ts[i].ammoCurrent.Some? ==> 0 <= ts[i].ammoCurrent.value <= MaxAmmo
    requires resource == "grit" || resource == "ammo"
    requires value >= 1
    requires resource == "grit" && FindIndex(ts, id).Some? ==> value <= ts[FindIndex(ts, id).value].gritMax
    ensures var r := PipClicked(ts, id, resource, "", Some(value));
            && (forall i :: 0 <= i < |r| ==> 0 <= r[i].gritCurrent <= r[i].gritMax)
            && (forall i :: 0 <= i < |r| ==> r[i].ammoCurrent.Some? ==> 0 <= r[i].ammoCurrent.value <= MaxAmmo)
  {
    var k := FindIndex(ts, id);
    if id != "" && k.Some? {
      var e := if resource == "grit" then Grit(value) else Ammo(value);
      PipEditKeepsBounds(ts[k.value], e);
    }
  }

  // ---------------------------------------------------------------- position chips

  /** The value a position field takes when nobody holds it. */
  const NotApplicable := "N/A"

  /** A chip equal to the current value clears the field to "N/A"; any other chip sets its position. */
  function TogglePosition(current: Option<string>, position: string): (v: string)
    ensures v == NotApplicable <==> current == Some(position) || position == NotApplicable
    ensures current != Some(position) ==> v == position
  {
    if current == Some(position) then NotApplicable else position
  }

  /** Clicking the same chip twice, starting anywhere else, ends at "N/A". */
  lemma ToggleTwiceClears(current: Option<string>, position: string)
    requires current != Some(position)
    ensures TogglePosition(Some(TogglePosition(current, position)), position) == NotApplicable
  {
  }

  /** The updateTrooper field a chip writes. */
  function PositionUpdate(side: Side, value: string): (u: FieldUpdate)
    ensures side == Offensive ==> u == OffensivePosition(value)
    ensures side == Defensive ==> u == DefensivePosition(value)
  {
    match side
    case Offensive => OffensivePosition(value)
    case Defensive => DefensivePosition(value)
  }

  /**
   * handlePositionClick once the chip is read: nothing without an id, a field or a position, or
   * for an unknown id; otherwise the toggled value is written through updateTrooper. The capacity
   * validators are not consulted.
   */
  function PositionClicked(ts: seq<Trooper>, id: string, field: Option<Side>, position: string): (r: seq<Trooper>)
    ensures |r| == |ts|
    ensures id == "" || field.None? || position == "" || FindIndex(ts, id).None? ==> r == ts
    ensures id != "" && field.Some? && position != "" && FindIndex(ts, id).Some? ==>
              var k := FindIndex(ts, id).value;
              r == ts[k := Updated(ts[k], PositionUpdate(field.value, TogglePosition(PositionOn(ts[k], field.value), position)))]
  {
    if id == "" || field.None? || position == "" then ts
    else match FindIndex(ts, id)
      case None => ts
      case Some(k) =>
        EditFirst(ts, id, Update(PositionUpdate(field.value, TogglePosition(PositionOn(ts[k], field.value), position))))
  }

  method HandlePositionClick(roster: Roster, id: string, field: Option<Side>, position: string)
    modifies roster
    ensures roster.troopers == PositionClicked(old(roster.troopers), id, field, position)
  {
    if id == "" || field.None? || position == "" {
      return;
    }
    var k := FindIndex(roster.troopers, id);
    if k.None? {
      return;
    }
    var trooper := roster.troopers[k.value];
    var newValue := TogglePosition(PositionOn(trooper, field.value), position);
    roster.UpdateTrooper(id, PositionUpdate(field.value, newValue));
  }

  /**
   * The chip click does not consult the validators: in tight space, where canSetFlanking refuses
   * every roster, a click still puts a deployed trooper on Flanking.
   */
  lemma PositionClickIgnoresCapacity()
    ensures var t := Trooper("t1", "New Trooper", "OK", "", 1, 1, None, "", true, None, None, map[]);
            && !CanSetFlanking([t], 0)
            && PositionClicked([t], "t1", Some(Offensive), Flanking)[0].offensivePosition == Some(Flanking)
            && CountHolding(PositionClicked([t], "t1", Some(Offensive), Flanking), Offensive, Flanking) == 1
  {
    var t := Trooper("t1", "New Trooper", "OK", "", 1, 1, None, "", true, None, None, map[]);
    var r := PositionClicked([t], "t1", Some(Offensive), Flanking);
    assert FindIndex([t], "t1") == Some(0);
    assert r[0] == t.(offensivePosition := Some(Flanking));
    assert r[1..] == [];
  }

  // ---------------------------------------------------------------- the remove-gear button

  /** handleGearListClick once the button is read: removeGearItem when both id and item are given. */
  function GearListClicked(ts: seq<Trooper>, id: string, itemKey: string): (r: seq<Trooper>)
    ensures id == "" || itemKey == "" ==> r == ts
    ensures id != "" && itemKey != "" ==> r == EditFirst(ts, id, RemoveGear(itemKey))
  {
    if id != "" && itemKey != "" then EditFirst(ts, id, RemoveGear(itemKey)) else ts
  }

  method HandleGearListClick(roster: Roster, id: string, itemKey: string)
    modifies roster
    ensures roster.troopers == GearListClicked(old(roster.troopers), id, itemKey)
  {
    if id != "" && itemKey != "" {
      roster.RemoveGearItem(id, itemKey);
    }
  }

  // ---------------------------------------------------------------- the gear swap

  /** The three gear selects of a trooper card. */
  datatype Slot = ArmorSlot | WeaponSlot | SpecialSlot

  /** The item types a select replaces. */
  function SlotTypes(s: Slot): (types: seq<string>)
    ensures forall x :: x in types ==> x in SlotTypeNames
    ensures |types| >= 1
  {
    match s
    case ArmorSlot => [BasicArmor]
    case WeaponSlot => [BasicWeapon]
    case SpecialSlot => [SpecialWeapon, SpecialEquipment]
  }

  /** The select named by an input's field, when it is one of the three gear selects. */
  function SlotOfField(field: string): (s: Option<Slot>)
    ensures s == Some(ArmorSlot) <==> field == "gear_armor"
    ensures s == Some(WeaponSlot) <==> field == "gear_weapon"
    ensures s == Some(SpecialSlot) <==> field == "gear_special"
  {
    if field == "gear_armor" then Some(ArmorSlot)
    else if field == "gear_weapon" then Some(WeaponSlot)
    else if field == "gear_special" then Some(SpecialSlot)
    else None
  }

  /** No item belongs to two selects: every item declares one type and the selects' types are disjoint. */
  lemma SlotsDisjoint(a: Slot, b: Slot, id: string)
    requires a != b
    ensures !(InSlot(id, SlotTypes(a)) && InSlot(id, SlotTypes(b)))
  {
  }

  /**
   * The gear ids after a swap: every occurrence of the first id whose item belongs to the slot is
   * removed, and a non-empty new key is appended at the end.
   */
  function SwapIds(ids: seq<string>, types: seq<string>, newItemKey: string): (r: seq<string>)
    ensures FirstInSlot(ids, types).None? ==> r == ids + (if newItemKey == "" then [] else [newItemKey])
    ensures FirstInSlot(ids, types).Some? ==>
              var oldKey := ids[FirstInSlot(ids, types).value];
              && (forall y :: y in r <==> (y in ids && y != oldKey) || (y == newItemKey && newItemKey != ""))
              && multiset(r) == multiset(ids)[oldKey := 0] + (if newItemKey == "" then multiset{} else multiset{newItemKey})
    ensures newItemKey != "" ==> |r| > 0 && r[|r| - 1] == newItemKey
  {
    var kept := match FirstInSlot(ids, types)
      case None => ids
      case Some(k) => Without(ids, ids[k]);
    if newItemKey != "" then kept + [newItemKey] else kept
  }

  /**
   * The ids kept by a swap keep their order: the swap removes the old item from each part of
   * the list separately.
   */
  lemma SwapKeepsOrder(a: seq<string>, b: seq<string>, types: seq<string>, newItemKey: string)
    requires FirstInSlot(a + b, types).Some?
    ensures var oldKey := (a + b)[FirstInSlot(a + b, types).value];
            SwapIds(a + b, types, newItemKey) ==
              Without(a, oldKey) + Without(b, oldKey) + (if newItemKey == "" then [] else [newItemKey])
  {
    var oldKey := (a + b)[FirstInSlot(a + b, types).value];
    WithoutConcat(a, b, oldKey);
  }

  /**
   * The trooper after the gear-swap branch of handleInputChange: the gear list as SwapIds leaves
   * it, joined with ", "; the replaced item's counter fields deleted; then the counters
   * initialised over the new gear. Every equipped counter field is defined afterwards.
   */
  function Swapped(t: Trooper, types: seq<string>, newItemKey: string): (r: Trooper)
    ensures r == t.(gear := r.gear, counters := r.counters)
    ensures CountersComplete(r)
  {
    var ids := GearIds(t.gear);
    var cleared := match FirstInSlot(ids, types)
      case None => t.counters
      case Some(k) => WithoutItemCounters(t.counters, ids[k]);
    InitializedCounters(t.(gear := Join(SwapIds(ids, types, newItemKey)), counters := cleared))
  }

  /** The roster after a swap on the trooper `id`; an unknown id changes nothing. */
  function GearSwapped(ts: seq<Trooper>, id: string, slot: Slot, newItemKey: string): (r: seq<Trooper>)
    ensures |r| == |ts|
    ensures FindIndex(ts, id).None? ==> r == ts
    ensures FindIndex(ts, id).Some? ==>
              var k := FindIndex(ts, id).value;
              r == ts[k := Swapped(ts[k], SlotTypes(slot), newItemKey)]
  {
    match FindIndex(ts, id)
    case None => ts
    case Some(k) => ts[k := Swapped(ts[k], SlotTypes(slot), newItemKey)]
  }

  /**
   * The gear-swap branch of handleInputChange: find the trooper, split and trim its gear, drop
   * the first item of the slot with its counter fields, append the new key, join, and
   * initialise the counters.
   */
  method HandleGearSwap(roster: Roster, id: string, slot: Slot, newItemKey: string)
    modifies roster
    ensures roster.troopers == GearSwapped(old(roster.troopers), id, slot, newItemKey)
  {
    var typesToReplace := SlotTypes(slot);
    var k := FindIndex(roster.troopers, id);
    if k.None? {
      return;
    }
    var trooper := roster.troopers[k.value];
    var gearArray := GearIds(trooper.gear);
    var found := FirstInSlot(gearArray, typesToReplace);
    if found.Some? {
      var oldItemKey := gearArray[found.value];
      gearArray := Without(gearArray, oldItemKey);
      trooper := RemoveGearCounterProperties(trooper, oldItemKey);
    }
    if newItemKey != "" {
      gearArray := gearArray + [newItemKey];
    }
    trooper := trooper.(gear := Join(gearArray));
    trooper := InitializeTrooperCounters(trooper);
    roster.troopers := roster.troopers[k.value := trooper];
  }

  /** The ids a swap leaves are the ones the new gear string parses back to (for a well-formed key). */
  lemma SwappedGearIds(t: Trooper, types: seq<string>, newItemKey: string)
    requires newItemKey == "" || Piece(newItemKey)
    ensures GearIds(Swapped(t, types, newItemKey).gear) == SwapIds(GearIds(t.gear), types, newItemKey)
  {
    var ids := GearIds(t.gear);
    var r := SwapIds(ids, types, newItemKey);
    assert forall i :: 0 <= i < |r| ==> Piece(r[i]) by {
      forall i | 0 <= i < |r| ensures Piece(r[i]) {
        assert r[i] in r;
        if FirstInSlot(ids, types).None? {
          if i < |ids| { assert r[i] == ids[i]; assert r[i] in ids; }
        }
      }
    }
    GearIdsJoin(r);
  }

  /**
   * The counter fields after a swap: those the trooper had, less the replaced item's, together
   * with every field of an item equipped afterwards.
   */
  lemma SwappedCounters(t: Trooper, types: seq<string>, newItemKey: string, f: string)
    ensures var r := Swapped(t, types, newItemKey);
            var found := FirstInSlot(GearIds(t.gear), types);
            f in r.counters <==>
              (f in t.counters && (found.None? || !Provides(GearIds(t.gear)[found.value], f)))
              || Equips(ParseGearArray(r.gear), f)
  {
  }

  /**
   * Re-selecting the item a slot already holds keeps it equipped, at the end of the list, and
   * resets each of its counters to its maximum: it is not an un-equip.
   */
  lemma ReselectResetsCounters(t: Trooper, types: seq<string>, c: Counter)
    requires FirstInSlot(GearIds(t.gear), types).Some?
    requires var key := GearIds(t.gear)[FirstInSlot(GearIds(t.gear), types).value];
             Lower(key) == key && c in ItemCounters(key)
    ensures var key := GearIds(t.gear)[FirstInSlot(GearIds(t.gear), types).value];
            var r := Swapped(t, types, key);
            && key in GearIds(r.gear)
            && GearIds(r.gear)[|GearIds(r.gear)| - 1] == key
            && CounterField(c.id) in r.counters
            && r.counters[CounterField(c.id)] == c.max
  {
    var ids := GearIds(t.gear);
    var key := ids[FirstInSlot(ids, types).value];
    assert key in ids;
    SwappedGearIds(t, types, key);
    var r := Swapped(t, types, key);
    var newIds := SwapIds(ids, types, key);
    var parsed := ParseGearArray(r.gear);
    ParseIsLoweredGearIds(r.gear);
    var last := |newIds| - 1;
    assert parsed[last] == Lower(newIds[last]) == key;
    ReequipResetsCounter(t.counters, parsed, last, c);
  }

  /** At most one distinct item of the slot's types is present (repeats of the same id aside). */
  predicate SlotExclusive(ids: seq<string>, types: seq<string>)
  {
    forall i, j :: 0 <= i < |ids| && 0 <= j < |ids| && InSlot(ids[i], types) && InSlot(ids[j], types) ==> ids[i] == ids[j]
  }

  /** Every select holds at most one item. */
  predicate Exclusive(ids: seq<string>)
  {
    forall s: Slot :: SlotExclusive(ids, SlotTypes(s))
  }

  /** Whatever the slot held before, a swap leaves none of its items besides the new key. */
  lemma SwapClearsSlot(ids: seq<string>, types: seq<string>, newItemKey: string, y: string)
    requires SlotExclusive(ids, types)
    requires y in SwapIds(ids, types, newItemKey) && InSlot(y, types)
    ensures y == newItemKey
  {
  }

  /** A swap with an item of its own slot, or with no item, keeps every select holding at most one item. */
  lemma SwapKeepsExclusive(ids: seq<string>, slot: Slot, newItemKey: string)
    requires Exclusive(ids)
    requires newItemKey == "" || InSlot(newItemKey, SlotTypes(slot))
    ensures Exclusive(SwapIds(ids, SlotTypes(slot), newItemKey))
  {
    var r := SwapIds(ids, SlotTypes(slot), newItemKey);
    forall s: Slot ensures SlotExclusive(r, SlotTypes(s)) {
      forall i, j | 0 <= i < |r| && 0 <= j < |r| && InSlot(r[i], SlotTypes(s)) && InSlot(r[j], SlotTypes(s))
        ensures r[i] == r[j]
      {
        assert r[i] in r && r[j] in r;
        if s == slot {
          assert SlotExclusive(ids, SlotTypes(slot));
          SwapClearsSlot(ids, SlotTypes(slot), newItemKey, r[i]);
          SwapClearsSlot(ids, SlotTypes(slot), newItemKey, r[j]);
        } else {
          if newItemKey != "" {
            SlotsDisjoint(slot, s, newItemKey);
          }
          assert r[i] in ids && r[j] in ids;
          var a :| 0 <= a < |ids| && ids[a] == r[i];
          var b :| 0 <= b < |ids| && ids[b] == r[j];
          assert SlotExclusive(ids, SlotTypes(s));
        }
      }
    }
  }

  /** The default gear holds one weapon and one armor, so a new trooper starts with every select holding at most one item. */
  lemma NewTrooperExclusive(id: string)
    ensures Exclusive(GearIds(CreateNewTrooper(id).gear))
  {
    DefaultGearIds();
    DefaultGearExclusive();
  }

  lemma DefaultGearExclusive()
    ensures Exclusive(["assault_rifle", "medium_armor"])
  {
    var ids := ["assault_rifle", "medium_armor"];
    DefaultItemTypes();
    forall s: Slot ensures SlotExclusive(ids, SlotTypes(s)) {
      if InSlot(ids[0], SlotTypes(s)) && InSlot(ids[1], SlotTypes(s)) {
        assert false;
      }
    }
  }
}
