/**
 * The roster and the operations on troopers: counter fields that follow the equipped gear,
 * the pip rule shared by grit, ammunition and counters, field updates, deletion,
 * creation from the template and the repair pass applied to a loaded roster.
 */
module DataManager {
  import opened Options
  import opened Equipment
  import opened Strings
  import opened Utilities
  import opened CounterFields
  import Config

  /**
   * A trooper as held in the roster. `gear` is the comma-separated list of item ids.
   * `counters` holds the "<counterId>_current" fields, keyed by that field name.
   * Ammunition and the two positions may be absent, as in the template.
   */
  datatype Trooper = Trooper(
    id: string,
    name: string,
    status: string,
    gear: string,
    gritCurrent: int,
    gritMax: int,
    ammoCurrent: Option<int>,
    notes: string,
    isActive: bool,
    offensivePosition: Option<string>,
    defensivePosition: Option<string>,
    counters: map<string, int>)

  // ---------------------------------------------------------------- counter fields

  /** Every counter field of an item equipped in `t.gear` is present. */
  ghost predicate CountersComplete(t: Trooper)
  {
    forall f :: Equips(ParseGearArray(t.gear), f) ==> f in t.counters
  }

  /** The trooper initializeTrooperCounters leaves behind. */
  function InitializedCounters(t: Trooper): (r: Trooper)
    ensures CountersComplete(r)
    ensures r == t.(counters := r.counters)
  {
    t.(counters := InitCounters(t.counters, ParseGearArray(t.gear)))
  }

  /**
   * initializeTrooperCounters: for every parsed gear id that is a catalog item with counters,
   * and for every counter of it, sets the counter's field to the counter's maximum when the
   * field is absent.
   */
  method InitializeTrooperCounters(t: Trooper) returns (r: Trooper)
    ensures r == InitializedCounters(t)
  {
    var gearIds := ParseGearArray(t.gear);
    var m := t.counters;
    var i := 0;
    while i < |gearIds|
      invariant 0 <= i <= |gearIds|
      invariant m == InitCounters(t.counters, gearIds[..i])
    {
      m := AddItemCounters(m, ItemCounters(gearIds[i]));
      InitCountersStep(t.counters, gearIds, i);
      i := i + 1;
    }
    assert gearIds[..i] == gearIds;
    r := t.(counters := m);
  }

  /** The inner loop of initializeTrooperCounters: each counter's field, when absent, set to its maximum. */
  method AddItemCounters(m0: map<string, int>, cs: seq<Counter>) returns (m: map<string, int>)
    ensures m == AddCounters(m0, cs)
  {
    m := m0;
    var j := 0;
    while j < |cs|
      invariant 0 <= j <= |cs|
      invariant m == AddCounters(m0, cs[..j])
    {
      var currentField := CounterField(cs[j].id);
      if currentField !in m {
        m := m[currentField := cs[j].max];
      }
      AddCountersSnoc(m0, cs, j);
      j := j + 1;
    }
    assert cs[..j] == cs;
  }

  /**
   * removeGearCounterProperties: deletes the field of every counter of item `gearId`
   * that the trooper has.
   */
  method RemoveGearCounterProperties(t: Trooper, gearId: string) returns (r: Trooper)
    ensures r == t.(counters := WithoutItemCounters(t.counters, gearId))
  {
    var cs := ItemCounters(gearId);
    var m := t.counters;
    var j := 0;
    while j < |cs|
      invariant 0 <= j <= |cs|
      invariant m == t.counters - Fields(cs[..j])
    {
      var currentField := CounterField(cs[j].id);
      RemoveFieldsStep(t.counters, m, cs, j);
      if currentField in m {
        m := m - {currentField};
      }
      j := j + 1;
    }
    assert cs[..j] == cs;
    r := t.(counters := m);
  }

  // ---------------------------------------------------------------- the pip rule

  /**
   * The pip rule shared by grit, ammunition and counters: requesting the value already held
   * steps it down by one, never below zero; any other request is taken, capped at `cap`
   * when there is one. An absent current value never matches a request.
   */
  function Toggle(current: Option<int>, requested: int, cap: Option<int>): (r: int)
    ensures current == Some(requested) ==> r == requested - 1 || (r == 0 && requested <= 0)
    ensures current != Some(requested) && cap.None? ==> r == requested
    ensures current != Some(requested) && cap.Some? ==> r <= cap.value && (r == requested || r == cap.value)
    ensures current == Some(requested) && requested >= 1 ==> r == requested - 1
    ensures current == Some(requested) && requested <= 0 ==> r == 0
    ensures current != Some(requested) && cap.Some? && requested <= cap.value ==> r == requested
    ensures current != Some(requested) && cap.Some? && requested > cap.value ==> r == cap.value
  {
    if current == Some(requested) then
      (if requested - 1 > 0 then requested - 1 else 0)
    else if cap.Some? && cap.value < requested then cap.value
    else requested
  }

  /** Requesting zero always leaves zero, whatever the current value (for a non-negative cap). */
  lemma ToggleZero(current: Option<int>, cap: Option<int>)
    requires cap.Some? ==> cap.value >= 0
    ensures Toggle(current, 0, cap) == 0
  {
  }

  /**
   * Clicking the pip of the current value twice restores it: the first click steps down,
   * the second sets it again. This holds for every value from 1 to the cap.
   */
  lemma ToggleTwiceRestores(v: int, cap: Option<int>)
    requires v >= 1 && (cap.Some? ==> v <= cap.value)
    ensures Toggle(Some(Toggle(Some(v), v, cap)), v, cap) == v
  {
  }

  /**
   * Grit: with 0 <= current <= max before the click, the result stays in [0, max] exactly when
   * the requested value lies in [0, max]; there is no clamp to gritMax.
   */
  lemma GritClickBounds(current: int, amount: int, gritMax: int)
    requires 0 <= current <= gritMax
    ensures 0 <= Toggle(Some(current), amount, None) <= gritMax <==> 0 <= amount <= gritMax
  {
  }

  /**
   * Ammunition: the cap MaxAmmo is kept whenever it held before the click, and a
   * non-negative request never leaves a negative count.
   */
  lemma AmmoClickBounds(current: Option<int>, amount: int)
    requires current.Some? ==> current.value <= MaxAmmo
    ensures Toggle(current, amount, Some(MaxAmmo)) <= MaxAmmo
    ensures amount >= 0 ==> Toggle(current, amount, Some(MaxAmmo)) >= 0
  {
  }

  // ---------------------------------------------------------------- lookups and field updates

  /** roster.find(t => t.id === id), as an index: the first trooper with that id. */
  function FindIndex(ts: seq<Trooper>, id: string): (k: Option<nat>)
    ensures k.Some? ==> k.value < |ts| && ts[k.value].id == id
    ensures k.Some? ==> forall j :: 0 <= j < k.value ==> ts[j].id != id
    ensures k.None? ==> forall j :: 0 <= j < |ts| ==> ts[j].id != id
    decreases |ts|
  {
    if |ts| == 0 then None
    else if ts[0].id == id then Some(0)
    else match FindIndex(ts[1..], id)
      case None => None
      case Some(k) => Some(k + 1)
  }

  /** The fields the user interface writes through updateTrooper, with their values. */
  datatype FieldUpdate =
    | Name(name: string)
    | Status(status: string)
    | Notes(notes: string)
    | GritMax(gritMax: int)
    | OffensivePosition(position: string)
    | DefensivePosition(position: string)

  /**
   * The trooper after one field update: the named field takes the value; a new gritMax also
   * lowers gritCurrent to it when it was above. Nothing else changes.
   */
  function Updated(t: Trooper, u: FieldUpdate): (r: Trooper)
    ensures u.GritMax? ==> r.gritMax == u.gritMax && r.gritCurrent <= r.gritMax
    ensures u.GritMax? ==> r.gritCurrent == if t.gritCurrent > u.gritMax then u.gritMax else t.gritCurrent
    ensures u.GritMax? ==> r == t.(gritMax := r.gritMax, gritCurrent := r.gritCurrent)
    ensures u.GritMax? && 0 <= t.gritCurrent && u.gritMax >= 0 ==> 0 <= r.gritCurrent <= r.gritMax
    ensures !u.GritMax? ==> r.gritCurrent == t.gritCurrent && r.gritMax == t.gritMax
    ensures u.Name? ==> r == t.(name := u.name)
    ensures u.Status? ==> r == t.(status := u.status)
    ensures u.Notes? ==> r == t.(notes := u.notes)
    ensures u.OffensivePosition? ==> r == t.(offensivePosition := Some(u.position))
    ensures u.DefensivePosition? ==> r == t.(defensivePosition := Some(u.position))
  {
    match u
    case Name(v) => t.(name := v)
    case Status(v) => t.(status := v)
    case Notes(v) => t.(notes := v)
    case OffensivePosition(v) => t.(offensivePosition := Some(v))
    case DefensivePosition(v) => t.(defensivePosition := Some(v))
    case GritMax(v) =>
      var t1 := t.(gritMax := v);
      if t1.gritCurrent > t1.gritMax then t1.(gritCurrent := t1.gritMax) else t1
  }

  /** Items.filter(i => i !== x): every occurrence of `x` goes, the rest keep their order. */
  function Without(xs: seq<string>, x: string): (r: seq<string>)
    ensures forall y :: y in r <==> y in xs && y != x
    ensures multiset(r) == multiset(xs)[x := 0]
    decreases |xs|
  {
    if |xs| == 0 then []
    else
      assert xs == [xs[0]] + xs[1..];
      (if xs[0] == x then [] else [xs[0]]) + Without(xs[1..], x)
  }

  lemma {:induction false} WithoutConcat(a: seq<string>, b: seq<string>, x: string)
    ensures Without(a + b, x) == Without(a, x) + Without(b, x)
    decreases |a|
  {
    if |a| > 0 {
      assert (a + b)[1..] == a[1..] + b;
      WithoutConcat(a[1..], b, x);
    } else {
      assert a + b == b;
    }
  }

  /** The gear list after removeGearItem: the trim-only ids without `itemKey`, re-joined. */
  function GearWithout(gear: string, itemKey: string): (g: string)
    ensures GearIds(g) == Without(GearIds(gear), itemKey)
  {
    var ids := Without(GearIds(gear), itemKey);
    assert forall i :: 0 <= i < |ids| ==> ids[i] in ids;
    GearIdsJoin(ids);
    Join(ids)
  }

  /** deleteTrooper: the roster without every trooper carrying `id`. */
  function DeleteTrooper(ts: seq<Trooper>, id: string): (r: seq<Trooper>)
    ensures forall t :: t in r <==> t in ts && t.id != id
    ensures |r| <= |ts|
    decreases |ts|
  {
    if |ts| == 0 then []
    else (if ts[0].id == id then [] else [ts[0]]) + DeleteTrooper(ts[1..], id)
  }

  /** Deletion keeps the order of the other troopers: it distributes over concatenation. */
  lemma {:induction false} DeleteKeepsOrder(a: seq<Trooper>, b: seq<Trooper>, id: string)
    ensures DeleteTrooper(a + b, id) == DeleteTrooper(a, id) + DeleteTrooper(b, id)
    decreases |a|
  {
    if |a| > 0 {
      assert (a + b)[1..] == a[1..] + b;
      DeleteKeepsOrder(a[1..], b, id);
    } else {
      assert a + b == b;
    }
  }

  /** Deleting an id that no trooper carries leaves the roster as it was. */
  lemma {:induction false} DeleteUnknownId(ts: seq<Trooper>, id: string)
    requires FindIndex(ts, id).None?
    ensures DeleteTrooper(ts, id) == ts
    decreases |ts|
  {
    if |ts| > 0 {
      assert FindIndex(ts[1..], id).None?;
      DeleteUnknownId(ts[1..], id);
      assert ts == [ts[0]] + ts[1..];
    }
  }

  // ---------------------------------------------------------------- the roster

  /** The in-place edits the roster offers for one trooper, with their arguments. */
  datatype Edit =
    | Update(u: FieldUpdate)
    | RemoveGear(itemKey: string)
    | Grit(amount: int)
    | Ammo(amount: int)
    | EquipmentCounter(field: string, amount: int)

  /** The current value of counter field `f`, absent when the trooper has no such field. */
  function CounterValue(t: Trooper, f: string): (v: Option<int>)
    ensures v.Some? <==> f in t.counters
    ensures v.Some? ==> v.value == t.counters[f]
  {
    if f in t.counters then Some(t.counters[f]) else None
  }

  /**
   * The trooper after one edit. updateTrooper as Updated; removeGearItem drops every occurrence
   * of the key from the gear list and leaves the counter fields alone; setGrit, setAmmo and
   * setEquipmentCounter apply the pip rule, ammunition capped at MaxAmmo, grit and counters
   * uncapped, the counter field written even when it was absent.
   */
  function Edited(t: Trooper, e: Edit): (r: Trooper)
    ensures e.Update? ==> r == Updated(t, e.u)
    ensures e.RemoveGear? ==> r == t.(gear := r.gear) && GearIds(r.gear) == Without(GearIds(t.gear), e.itemKey)
    ensures e.Grit? ==> r == t.(gritCurrent := Toggle(Some(t.gritCurrent), e.amount, None))
    ensures e.Ammo? ==> r == t.(ammoCurrent := Some(Toggle(t.ammoCurrent, e.amount, Some(MaxAmmo))))
    ensures e.EquipmentCounter? ==>
              r == t.(counters := t.counters[e.field := Toggle(CounterValue(t, e.field), e.amount, None)])
  {
    match e
    case Update(u) => Updated(t, u)
    case RemoveGear(itemKey) => t.(gear := GearWithout(t.gear, itemKey))
    case Grit(amount) => t.(gritCurrent := Toggle(Some(t.gritCurrent), amount, None))
    case Ammo(amount) => t.(ammoCurrent := Some(Toggle(t.ammoCurrent, amount, Some(MaxAmmo))))
    case EquipmentCounter(f, amount) => t.(counters := t.counters[f := Toggle(CounterValue(t, f), amount, None)])
  }

  /**
   * The roster after an edit addressed to `id`: the first trooper with that id is edited, every
   * other trooper stays as it was, and an unknown id changes nothing.
   */
  function EditFirst(ts: seq<Trooper>, id: string, e: Edit): (r: seq<Trooper>)
    ensures |r| == |ts|
    ensures FindIndex(ts, id).None? ==> r == ts
    ensures FindIndex(ts, id).Some? ==> r[FindIndex(ts, id).value] == Edited(ts[FindIndex(ts, id).value], e)
    ensures forall j :: 0 <= j < |ts| && Some(j) != FindIndex(ts, id) ==> r[j] == ts[j]
  {
    match FindIndex(ts, id)
    case None => ts
    case Some(k) => ts[k := Edited(ts[k], e)]
  }

  /** An edit of a grit or ammunition pip keeps a well-formed trooper well formed whenever the request is in range. */
  lemma PipEditKeepsBounds(t: Trooper, e: Edit)
    requires 0 <= t.gritCurrent <= t.gritMax
    requires t.ammoCurrent.Some? ==> 0 <= t.ammoCurrent.value <= MaxAmmo
    requires e.Grit? ==> 0 <= e.amount <= t.gritMax
    requires e.Ammo? ==> 0 <= e.amount
    requires e.Grit? || e.Ammo?
    ensures 0 <= Edited(t, e).gritCurrent <= Edited(t, e).gritMax
    ensures Edited(t, e).ammoCurrent.Some? ==> 0 <= Edited(t, e).ammoCurrent.value <= MaxAmmo
  {
    if e.Grit? {
      GritClickBounds(t.gritCurrent, e.amount, t.gritMax);
    } else {
      AmmoClickBounds(t.ammoCurrent, e.amount);
    }
  }

  /** The roster: troopers in insertion order, updated in place by the operations below. */
  class Roster {
    var troopers: seq<Trooper>

    constructor (ts: seq<Trooper>)
      ensures troopers == ts
    {
      troopers := ts;
    }

    /** updateTrooper: writes one field of the first trooper with `id`; an unknown id changes nothing. */
    method UpdateTrooper(id: string, u: FieldUpdate)
      modifies this
      ensures troopers == EditFirst(old(troopers), id, Update(u))
    {
      var k := FindIndex(troopers, id);
      if k.Some? {
        var trooper := troopers[k.value];
        match u {
          case Name(v) => trooper := trooper.(name := v);
          case Status(v) => trooper := trooper.(status := v);
          case Notes(v) => trooper := trooper.(notes := v);
          case OffensivePosition(v) => trooper := trooper.(offensivePosition := Some(v));
          case DefensivePosition(v) => trooper := trooper.(defensivePosition := Some(v));
          case GritMax(v) => trooper := trooper.(gritMax := v);
        }
        if u.GritMax? && trooper.gritCurrent > trooper.gritMax {
          trooper := trooper.(gritCurrent := trooper.gritMax);
        }
        troopers := troopers[k.value := trooper];
      }
    }

    /** removeGearItem: drops every occurrence of `itemKey` from the gear list; counter fields stay. */
    method RemoveGearItem(id: string, itemKey: string)
      modifies this
      ensures troopers == EditFirst(old(troopers), id, RemoveGear(itemKey))
    {
      var k := FindIndex(troopers, id);
      if k.Some? {
        var trooper := troopers[k.value];
        var currentGearArray := GearIds(trooper.gear);
        trooper := trooper.(gear := Join(Without(currentGearArray, itemKey)));
        troopers := troopers[k.value := trooper];
      }
    }

    /** setGrit: the pip rule on gritCurrent, with no clamp to gritMax. */
    method SetGrit(id: string, amount: int)
      modifies this
      ensures troopers == EditFirst(old(troopers), id, Grit(amount))
    {
      var k := FindIndex(troopers, id);
      if k.Some? {
        var trooper := troopers[k.value];
        if amount == trooper.gritCurrent {
          trooper := trooper.(gritCurrent := if amount - 1 > 0 then amount - 1 else 0);
        } else {
          trooper := trooper.(gritCurrent := amount);
        }
        troopers := troopers[k.value := trooper];
      }
    }

    /** setAmmo: the pip rule on ammoCurrent, a new value capped at MaxAmmo. */
    method SetAmmo(id: string, amount: int)
      modifies this
      ensures troopers == EditFirst(old(troopers), id, Ammo(amount))
    {
      var k := FindIndex(troopers, id);
      if k.Some? {
        var trooper := troopers[k.value];
        if Some(amount) == trooper.ammoCurrent {
          trooper := trooper.(ammoCurrent := Some(if amount - 1 > 0 then amount - 1 else 0));
        } else {
          trooper := trooper.(ammoCurrent := Some(if amount < MaxAmmo then amount else MaxAmmo));
        }
        troopers := troopers[k.value := trooper];
      }
    }

    /** setEquipmentCounter: the pip rule on the field `counterField`, which is written even when absent. */
    method SetEquipmentCounter(id: string, counterField: string, amount: int)
      modifies this
      ensures troopers == EditFirst(old(troopers), id, EquipmentCounter(counterField, amount))
    {
      var k := FindIndex(troopers, id);
      if k.Some? {
        var trooper := troopers[k.value];
        if counterField in trooper.counters && amount == trooper.counters[counterField] {
          trooper := trooper.(counters := trooper.counters[counterField := if amount - 1 > 0 then amount - 1 else 0]);
        } else {
          trooper := trooper.(counters := trooper.counters[counterField := amount]);
        }
        troopers := troopers[k.value := trooper];
      }
    }
  }

  // ---------------------------------------------------------------- creation and loading

  /** createNewTrooper, with the id given: the template, full ammunition, counters initialised. */
  function CreateNewTrooper(id: string): (t: Trooper)
    ensures t.id == id
  {
    var tp := Config.DefaultTrooperTemplate;
    InitializedCounters(Trooper(id, tp.name, tp.status, tp.gear, tp.gritCurrent, tp.gritMax,
                                Some(MaxAmmo), tp.notes, tp.isActive, None, None, map[]))
  }

  /**
   * A record as read back from storage, before repair: gritMax and isActive may be missing
   * (gritMax may also be zero, which the repair treats like a missing value).
   */
  datatype StoredTrooper = StoredTrooper(
    id: string,
    name: string,
    status: string,
    gear: string,
    gritCurrent: int,
    gritMax: Option<int>,
    ammoCurrent: Option<int>,
    notes: string,
    isActive: Option<bool>,
    offensivePosition: Option<string>,
    defensivePosition: Option<string>,
    counters: map<string, int>)

  /** The repair applied to each loaded record: default gritMax, clamp gritCurrent, default isActive, counters. */
  function Repaired(s: StoredTrooper): (t: Trooper)
    ensures t.gritMax == if s.gritMax.None? || s.gritMax == Some(0) then 1 else s.gritMax.value
    ensures t.gritCurrent <= t.gritMax && (s.gritCurrent <= t.gritMax ==> t.gritCurrent == s.gritCurrent)
    ensures t.gritCurrent == if s.gritCurrent < t.gritMax then s.gritCurrent else t.gritMax
    ensures t.id == s.id && t.name == s.name && t.status == s.status && t.gear == s.gear
    ensures t.ammoCurrent == s.ammoCurrent && t.notes == s.notes
    ensures t.offensivePosition == s.offensivePosition && t.defensivePosition == s.defensivePosition
    ensures t.counters == InitCounters(s.counters, ParseGearArray(s.gear))
    ensures t.isActive == (s.isActive.None? || s.isActive.value)
    ensures CountersComplete(t)
    ensures forall f :: f in s.counters ==> f in t.counters && t.counters[f] == s.counters[f]
  {
    var gritMax := if s.gritMax.None? || s.gritMax == Some(0) then 1 else s.gritMax.value;
    InitializedCounters(Trooper(s.id, s.name, s.status, s.gear,
                                if s.gritCurrent < gritMax then s.gritCurrent else gritMax, gritMax,
                                s.ammoCurrent, s.notes, if s.isActive.Some? then s.isActive.value else true,
                                s.offensivePosition, s.defensivePosition, s.counters))
  }

  /** The repair pass of loadRoster, applied to every stored record in order. */
  function LoadRoster(saved: seq<StoredTrooper>): (ts: seq<Trooper>)
    ensures |ts| == |saved|
    ensures forall i :: 0 <= i < |saved| ==> ts[i] == Repaired(saved[i])
  {
    seq(|saved|, i requires 0 <= i < |saved| => Repaired(saved[i]))
  }

  /** The record a trooper is saved as: every field present. */
  function Stored(t: Trooper): (s: StoredTrooper)
    ensures s.gritMax == Some(t.gritMax) && s.isActive == Some(t.isActive)
    ensures s.id == t.id && s.name == t.name && s.status == t.status && s.gear == t.gear && s.notes == t.notes
    ensures s.gritCurrent == t.gritCurrent && s.ammoCurrent == t.ammoCurrent && s.counters == t.counters
    ensures s.offensivePosition == t.offensivePosition && s.defensivePosition == t.defensivePosition
  {
    StoredTrooper(t.id, t.name, t.status, t.gear, t.gritCurrent, Some(t.gritMax), t.ammoCurrent, t.notes,
                  Some(t.isActive), t.offensivePosition, t.defensivePosition, t.counters)
  }

  /** The trooper invariants: grit within [0, gritMax] with gritMax >= 1, ammunition within [0, MaxAmmo], counters present. */
  ghost predicate WellFormed(t: Trooper)
  {
    && 1 <= t.gritMax
    && 0 <= t.gritCurrent <= t.gritMax
    && (t.ammoCurrent.Some? ==> 0 <= t.ammoCurrent.value <= MaxAmmo)
    && CountersComplete(t)
  }

  /** Saving and reloading a well-formed trooper gives it back unchanged: the repair causes no drift. */
  lemma ReloadIsIdentity(t: Trooper)
    requires WellFormed(t)
    ensures Repaired(Stored(t)) == t
  {
    InitCountersComplete(t.counters, ParseGearArray(t.gear));
  }

  /** A loaded roster holds the same troopers, in the same order, when all were well formed. */
  lemma ReloadRosterIsIdentity(ts: seq<Trooper>)
    requires forall i :: 0 <= i < |ts| ==> WellFormed(ts[i])
    ensures LoadRoster(seq(|ts|, i requires 0 <= i < |ts| => Stored(ts[i]))) == ts
  {
    forall i | 0 <= i < |ts| ensures Repaired(Stored(ts[i])) == ts[i] {
      ReloadIsIdentity(ts[i]);
    }
  }

  /**
   * A new trooper: template values, MaxAmmo rounds, no positions, and exactly one counter field,
   * armor_absorbed_current = 1 from the default medium armor; it is well formed.
   */
  lemma NewTrooperDefaults(id: string)
    ensures var t := CreateNewTrooper(id);
      && t.name == "New Trooper" && t.status == "OK" && t.notes == "" && t.isActive
      && t.gear == "assault_rifle, medium_armor"
      && t.gritCurrent == 1 && t.gritMax == 1
      && t.ammoCurrent == Some(MaxAmmo) && MaxAmmo == 3
      && t.offensivePosition.None? && t.defensivePosition.None?
      && t.counters == map["armor_absorbed_current" := 1]
      && WellFormed(t)
  {
    DefaultGearIds();
    DefaultCounters();
  }

  /** The default gear yields the one field armor_absorbed_current, at 1. */
  lemma DefaultCounters()
    ensures InitCounters(map[], ["assault_rifle", "medium_armor"]) == map["armor_absorbed_current" := 1]
  {
    var ids := ["assault_rifle", "medium_armor"];
    var m := InitCounters(map[], ids);
    var f := "armor_absorbed_current";
    forall g ensures g in m <==> g == f {
      EquipsAt(ids, g);
      CounterlessItems(g);
      MediumArmorField(g);
    }
    MediumArmorField(f);
    var c: Counter :| c in ItemCounters(ids[1]) && CounterField(c.id) == f;
    CounterMaxima(ids[1], c);
    NewCounterIsMax(map[], ids, 1, c);
    assert m.Keys == map[f := 1].Keys;
  }

  /** The default gear parses to the assault rifle and the medium armor, in that order. */
  lemma DefaultGearIds()
    ensures ParseGearArray(Config.DefaultTrooperTemplate.gear) == ["assault_rifle", "medium_armor"]
    ensures GearIds(Config.DefaultTrooperTemplate.gear) == ["assault_rifle", "medium_armor"]
  {
    var ids := ["assault_rifle", "medium_armor"];
    assert Join(ids) == Config.DefaultTrooperTemplate.gear;
    assert Piece(ids[0]) && Lower(ids[0]) == ids[0];
    assert Piece(ids[1]) && Lower(ids[1]) == ids[1];
    ParseJoinRoundTrip(ids);
    GearIdsJoin(ids);
  }
}
