# Trooper tracker: the domain engine in Dafny

This project models the bookkeeping core of a companion tracker for a tabletop skirmish game.
The tracker keeps a roster of troopers and one mission record, and it applies the game's
bookkeeping rules to them.

- **The equipment catalog** (`equipment.dfy`, module `Equipment`): twenty items keyed by id. Each
  item has a slot type and a cost, both optional. Six items declare counters (armor absorbed,
  rocket, pack ammunition, drone, jump, strike). The ammunition cap `MaxAmmo` is 3.
- **Fixed game data** (`config.dfy`, module `Config`): the six battlefield positions and the
  template for a new trooper.
- **Gear-list parsing** (`strings.dfy` and `utilities.dfy`, modules `Strings` and `Utilities`).
  A trooper's gear is a comma-separated string. Parsing splits it on commas, trims each piece,
  lower-cases it and drops empty pieces. A slot lookup returns the first parsed id whose catalog
  type is one of the slot's types.
- **Counter fields** (`counters.dfy`, module `CounterFields`). Each counter of an equipped item
  gets a trooper field named `<counterId>_current`. The model holds these fields in a map keyed
  by that name. Initialisation adds each missing field at the counter's maximum. Unequipping an
  item deletes that item's fields.
- **The roster** (`datamanager.dfy`, module `DataManager`). It covers counter initialisation and
  removal as loops, the pip rule shared by grit, ammunition and counters, and field updates. It
  also covers deletion, removal of a gear item, creation from the template and the repair pass
  run on a loaded roster. The roster is a class (`Roster`) whose methods edit the first trooper
  with a given id in place. Each method is proved against a pure function (`EditFirst`).
- **The mission** (`mission.dfy`, module `Mission`). The record holds threat level, victory
  threshold, momentum, cover, space, exchange count and a header flag. `MissionState` is a class
  whose setters update those fields in place; each setter is proved against the pure transition
  `Apply`. The module also holds `startMission`, `endMission` and the default-merge of the loader,
  the banded lookups, the victory and retreat predicates, and the cover and space capacity
  tables. The Fortified and Flanking validators count deployed troopers against those capacities.
- **Event handling** (`eventhandlers.dfy`, module `EventHandlers`). These are the handlers after
  the trooper id, field and value have been read off the page element: the pip dispatch, the
  position toggle, the remove-gear button and the three-slot gear swap.

Some consequences of the code that the model keeps, and that a reader might not expect:

- `setThreatLevel` stores any threat level as given, with no clamp; only the victory threshold
  follows it (modules/missionManager.js:67-72).
- `removeGearItem` removes the gear id but leaves that item's counter fields behind
  (modules/dataManager.js:116-123). Only the gear swap deletes counter fields.
- The position toggle writes the new position without consulting `canSetFortified` or
  `canSetFlanking` (modules/eventHandlers.js:56-61), so a chip click can exceed a capacity.
- `setGrit` and `setEquipmentCounter` take any requested value with no upper cap. Only
  ammunition is capped, at `MaxAmmo` (modules/dataManager.js:128-168).
- `startMission` returns a record without cover, space, exchange count or header flag. The
  loader's default-merge fills them back in as 1, 1, 1 and false.
- Re-selecting the item a gear slot already holds does not un-equip it. The swap removes the
  item and its counter fields, appends it again and re-initialises the counters. The effect is a
  move to the end of the list with the counters reset to their maxima.

## Model

| member | source | states |
|---|---|---|
| Equipment.ItemCounters | equipment.js:7-177 | an item has at most one counter, each with a non-empty id and a maximum of at least 1 |
| Equipment.InSlot | modules/utilities.js:8-11 | an id that qualifies for a slot is non-empty, so the truthiness test on the found key agrees with finding one, and an empty type list admits nothing |
| Equipment.CatalogCounters | equipment.js:7-177 | the counters of an item are exactly the counters entry of its catalog record; an unknown id has none |
| Equipment.CounterField | modules/dataManager.js:16 | a counter's field is its id followed by "_current"; the id is a prefix of the field |
| Equipment.CounterFieldInjective | modules/dataManager.js:16 | distinct counter ids give distinct fields |
| Equipment.ItemTypesAreSlotTypes | equipment.js:13-165 | every item that declares a type declares basic_armor, basic_weapon, special_weapon or special_equipment |
| Equipment.DemoChargesHaveNoSlot | equipment.js:125-128 | demo_charges declares neither type nor cost, so no slot lookup finds it |
| Equipment.CounterMaxima | equipment.js:20-26 | the six counters and their maxima (armor_absorbed 1, rocket 1, pack_ammo 6, drone 1, jump 1, strike 1); each maximum is at least 1 |
| Equipment.CounterFieldOwner | equipment.js:21-22 | counter ids are distinct across the catalog, so a field belongs to one counter of one item |
| Equipment.CounterlessItems | equipment.js:9-41 | light_armor, heavy_armor and assault_rifle supply no counter field |
| Equipment.MediumArmorField | equipment.js:15-28 | medium_armor supplies exactly the field armor_absorbed_current |
| Equipment.DefaultItemTypes | equipment.js:15-41 | assault_rifle is a basic_weapon and medium_armor a basic_armor |
| Config.SixPositions | modules/config.js:1-8 | exactly six positions: Flanking, Engaged, Limited, Fortified, In Cover, Flanked |
| Config.TemplateDefaults | modules/config.js:10-18 | the template has gritCurrent = gritMax = 1, status OK, empty notes and isActive true |
| Strings.Split | modules/utilities.js:18 | split(',') yields at least one piece and no piece holds a comma |
| Strings.TrimStart | modules/utilities.js:18 | the leading part of trim(): a suffix of the input whose dropped prefix is all whitespace, and which does not start with whitespace |
| Strings.TrimEnd | modules/utilities.js:18 | the trailing part of trim(): a prefix of the input whose dropped suffix is all whitespace, and which does not end with whitespace |
| Strings.Trim | modules/utilities.js:18 | trim() yields a string with no leading or trailing whitespace, made of characters of the input |
| Strings.TrimDropsBlanks | modules/utilities.js:18 | trim() removes only whitespace, and only at the two ends: the result is a contiguous slice of the input with all-whitespace text before and after it |
| Strings.Lower | modules/utilities.js:18 | toLowerCase() keeps the length and maps each character by ASCII lower-casing |
| Strings.SplitConcat | modules/utilities.js:18 | splitting across a comma is the concatenation of the two splits |
| Strings.TidyConcat | modules/utilities.js:18 | trim, lower-case and filter distribute over concatenation of the piece lists |
| Strings.JoinRoundTrip | modules/dataManager.js:120 | splitting and trimming a ", "-join of non-empty, trimmed, comma-free ids gives the ids back |
| Strings.TidyYieldsPieces | modules/utilities.js:18 | the trim-and-filter step yields only non-empty, trimmed, comma-free pieces |
| Utilities.ParseGearArray | modules/utilities.js:17-19 | every parsed id is non-empty, trimmed, comma-free and lower-case |
| Utilities.GearIds | modules/dataManager.js:119 | the trim-only parse yields non-empty, trimmed, comma-free ids |
| Utilities.ParseIsLoweredGearIds | modules/utilities.js:17-19 | parseGearArray is the trim-only parse with every id lower-cased |
| Utilities.ParseKeepsOrder | modules/utilities.js:17-19 | parsing keeps the left-to-right order of the comma-separated input |
| Utilities.GearIdsJoin | modules/dataManager.js:119-120 | re-joining trimmed ids with ", " and parsing again gives the same ids |
| Utilities.ParseJoinRoundTrip | modules/utilities.js:17-19 | parsing a ", "-join of non-empty, trimmed, lower-case, comma-free ids gives the same sequence |
| Utilities.ParseIsNormalForm | modules/utilities.js:17-19 | parsing, re-joining and parsing again changes nothing |
| Utilities.FirstInSlot | modules/utilities.js:8-11 | the index found is of an id in the catalog with a type in the slot, and no earlier id is; none means no id qualifies |
| Utilities.GetEquippedItem | modules/utilities.js:6-12 | the result is a parsed id in the catalog whose type is in the slot, the first such; undefined exactly when none exists |
| CounterFields.AddCounters | modules/dataManager.js:15-22 | a field is present afterwards exactly when it was before or a counter of the list supplies it; old values stay; a new field holds a supplying counter's maximum |
| CounterFields.InitLists | modules/dataManager.js:11-23 | the same three facts over the counter lists of all equipped items |
| CounterFields.InitCounters | modules/dataManager.js:8-25 | after initialisation a field is present exactly when it was or an equipped item supplies it; present fields are never overwritten |
| CounterFields.EquipsAt | modules/dataManager.js:11-13 | a field is equipped exactly when some equipped item has a counter with that field; unknown and counterless items supply nothing |
| CounterFields.InitCountersStep | modules/dataManager.js:11-23 | initialising over one more id adds that item's counters to the fields built so far |
| CounterFields.NewCounterIsMax | modules/dataManager.js:19-21 | a field that initialisation adds holds the maximum of the one counter that owns it |
| CounterFields.InitCountersComplete | modules/dataManager.js:19 | once every equipped field is present, initialisation changes nothing |
| CounterFields.InitCountersIdempotent | modules/dataManager.js:8-25 | initialising twice gives the same fields as initialising once |
| CounterFields.WithoutItemCounters | modules/dataManager.js:30-41 | exactly the given item's counter fields are deleted, other fields keep their values; unknown or counterless items delete nothing |
| CounterFields.ReequipResetsCounter | modules/dataManager.js:30-41 | after deleting an item's fields, initialisation puts each of its counters back at its maximum |
| DataManager.InitializedCounters | modules/dataManager.js:8-25 | the trooper with initialised counters has every equipped counter field and differs only in its counter fields |
| DataManager.InitializeTrooperCounters | modules/dataManager.js:8-25 | the nested loops over gear ids and their counters compute InitializedCounters |
| DataManager.AddItemCounters | modules/dataManager.js:15-22 | the loop over one item's counters computes AddCounters |
| DataManager.RemoveGearCounterProperties | modules/dataManager.js:30-41 | the loop deletes exactly the item's counter fields and changes nothing else |
| DataManager.Toggle | modules/dataManager.js:131-135 | the pip rule: requesting the held value v gives v - 1 when v >= 1 and 0 otherwise; any other request is taken as is when there is no cap or it is at most the cap, and is the cap when above it |
| DataManager.ToggleZero | modules/dataManager.js:131-135 | requesting 0 always yields 0 |
| DataManager.ToggleTwiceRestores | modules/dataManager.js:131-135 | clicking the pip of the held value twice restores it |
| DataManager.GritClickBounds | modules/dataManager.js:128-138 | 0 <= gritCurrent <= gritMax survives a click exactly when the request lies in [0, gritMax]; there is no clamp |
| DataManager.AmmoClickBounds | modules/dataManager.js:143-153 | ammunition stays at most MaxAmmo, and a non-negative request never makes it negative |
| DataManager.FindIndex | modules/dataManager.js:91 | the index of the first trooper with the id, or none when no trooper has it |
| DataManager.Updated | modules/dataManager.js:90-104 | the named field takes the value; a new gritMax lowers gritCurrent to it when above, so gritCurrent <= gritMax; nothing else changes |
| DataManager.Without | modules/dataManager.js:120 | every occurrence of the key goes and the rest keep their multiplicities |
| DataManager.WithoutConcat | modules/dataManager.js:120 | the filter distributes over concatenation, so the order of the rest is kept |
| DataManager.GearWithout | modules/dataManager.js:116-123 | the new gear string parses to the old ids without the key |
| DataManager.DeleteTrooper | modules/dataManager.js:109-111 | the roster keeps exactly the troopers without that id |
| DataManager.DeleteKeepsOrder | modules/dataManager.js:109-111 | deletion distributes over concatenation, so the other troopers keep their order |
| DataManager.DeleteUnknownId | modules/dataManager.js:109-111 | deleting an id no trooper carries leaves the roster as it was |
| DataManager.CounterValue | modules/dataManager.js:161 | the current counter value is present exactly when the trooper has the field |
| DataManager.Edited | modules/dataManager.js:90-168 | one trooper edit: updateTrooper as Updated, removeGearItem drops the key and keeps counter fields, the three setters apply the pip rule (ammunition capped, absent counter field written) |
| DataManager.EditFirst | modules/dataManager.js:90-168 | the first trooper with the id is edited, every other trooper is unchanged, an unknown id changes nothing |
| DataManager.PipEditKeepsBounds | modules/dataManager.js:128-153 | a grit or ammunition click with an in-range request keeps the trooper within its bounds |
| DataManager.Roster.UpdateTrooper | modules/dataManager.js:90-104 | the roster afterwards is EditFirst with the field update |
| DataManager.Roster.RemoveGearItem | modules/dataManager.js:116-123 | the roster afterwards is EditFirst with the gear removal |
| DataManager.Roster.SetGrit | modules/dataManager.js:128-138 | the roster afterwards is EditFirst with the grit click |
| DataManager.Roster.SetAmmo | modules/dataManager.js:143-153 | the roster afterwards is EditFirst with the ammunition click |
| DataManager.Roster.SetEquipmentCounter | modules/dataManager.js:158-168 | the roster afterwards is EditFirst with the counter click |
| DataManager.CreateNewTrooper | modules/dataManager.js:77-85 | the new trooper carries the given id |
| DataManager.NewTrooperDefaults | modules/dataManager.js:77-85 | a new trooper has the template values, MaxAmmo = 3 rounds, no positions and only armor_absorbed_current = 1, and it is well formed |
| DataManager.DefaultCounters | modules/dataManager.js:84 | initialising the default gear yields the single field armor_absorbed_current at 1 |
| DataManager.DefaultGearIds | modules/config.js:13 | the default gear parses to assault_rifle then medium_armor |
| DataManager.Repaired | modules/dataManager.js:54-62 | gritMax 1 when stored falsy; gritCurrent the minimum of the stored value and gritMax; isActive true when absent; id, name, status, gear, ammunition, notes and both positions carried over; counters are the stored ones initialised over the parsed gear, so every equipped field is present and stored values are kept |
| DataManager.Stored | modules/dataManager.js:69-71 | the saved record carries every field of the trooper, gritMax and isActive included, so the loader's defaults never fire on it |
| DataManager.LoadRoster | modules/dataManager.js:54-64 | the repair is applied to every record, in order |
| DataManager.ReloadIsIdentity | modules/dataManager.js:54-62 | a well-formed trooper saved and loaded again comes back unchanged |
| DataManager.ReloadRosterIsIdentity | modules/dataManager.js:46-72 | a roster of well-formed troopers survives save and load unchanged |
| Mission.Merged | modules/missionManager.js:7-29 | for each of the eight fields, a stored value overrides the default and a missing one takes the default (inactive, threat level 2, momentum 0, victory 3, cover 1, space 1, exchange 1, header collapsed) |
| Mission.MergedFull | modules/missionManager.js:21-39 | loading a complete saved record gives it back |
| Mission.MergedEmpty | modules/missionManager.js:7-16 | loading an empty record gives the defaults |
| Mission.StartMission | modules/missionManager.js:44-53 | active, momentum 0, the given threat level with victory at level + 1, and no cover, space, exchange count or header flag |
| Mission.EndMission | modules/missionManager.js:58-62 | inactive, with victory at threat level + 1 |
| Mission.StartedMissionLoads | modules/missionManager.js:21-53 | a started mission loads with cover, space and exchange count 1 and is valid |
| Mission.EndedMissionLoads | modules/missionManager.js:7-16 | an ended mission loads as exactly the defaults, which are valid and inactive |
| Mission.Clamp | modules/missionManager.js:78 | max(lo, min(hi, x)) lies in [lo, hi], is x when x is there and the nearer bound otherwise |
| Mission.Apply | modules/missionManager.js:67-179 | each setter changes only its own fields: threat level unclamped with victory at level + 1; set and adjusted momentum clamped to the nearer end of [-3, 5]; cover and space clamped to [0, 2]; exchange count set as given from 1 up and 1 below, incremented and decremented by one with the floor at 1; the header flag flipped |
| Mission.ApplyPreservesValid | modules/missionManager.js:67-179 | every setter keeps victory = threat level + 1 and every rating in range |
| Mission.DerivedSetters | modules/missionManager.js:86-88 | adjustMomentum(d) is setMomentum(momentum + d); increment and decrement are setExchangeCount(count ± 1) |
| Mission.ExchangeFloorAndToggleTwice | modules/missionManager.js:168-179 | decrementing at one exchange stays at one; toggling the header twice restores it |
| Mission.SettersIdempotent | modules/missionManager.js:67-156 | setting the same value twice equals setting it once |
| Mission.MissionState.constructor | modules/missionManager.js:21-32 | the loaded state is the default-merge of the stored record |
| Mission.MissionState.SetThreatLevel | modules/missionManager.js:67-72 | the new state is Apply with setThreatLevel |
| Mission.MissionState.SetMomentum | modules/missionManager.js:77-81 | the new state is Apply with setMomentum |
| Mission.MissionState.AdjustMomentum | modules/missionManager.js:86-88 | the new state is Apply with adjustMomentum |
| Mission.MissionState.SetCover | modules/missionManager.js:134-138 | the new state is Apply with setCover |
| Mission.MissionState.SetSpace | modules/missionManager.js:143-147 | the new state is Apply with setSpace |
| Mission.MissionState.SetExchangeCount | modules/missionManager.js:152-156 | the new state is Apply with setExchangeCount |
| Mission.MissionState.IncrementExchange | modules/missionManager.js:161-163 | the new state is Apply with incrementExchange |
| Mission.MissionState.DecrementExchange | modules/missionManager.js:168-170 | the new state is Apply with decrementExchange |
| Mission.MissionState.ToggleHeaderExpanded | modules/missionManager.js:175-179 | the new state is Apply with the header toggle |
| Mission.IsMissionWon | modules/missionManager.js:111-113 | in a valid record a mission is won exactly when momentum exceeds the threat level |
| Mission.IsForcedRetreat | modules/missionManager.js:118-120 | in a valid record a forced retreat is exactly momentum at the floor -3 |
| Mission.WonExcludesRetreat | modules/missionManager.js:111-120 | a valid mission at threat level -3 or above is never won and in forced retreat at once |
| Mission.WinAtThreatLevelTwo | modules/missionManager.js:44-113 | at threat level 2, momentum raised 0, 1, 2, 3 first wins at 3 |
| Mission.RetreatAtMinusThree | modules/missionManager.js:77-120 | from momentum -2 one step down reaches -3 and forced retreat; a further step stays at -3 |
| Mission.DifficultyName | modules/missionManager.js:93-97 | Routine exactly up to 2, Hazardous exactly at 3, Desperate exactly above 3 |
| Mission.InjuryInfo | modules/missionManager.js:102-106 | "1 injury" up to 2; above 2 the odds text, led by 2 exactly at 3 and by 3 exactly above 3 |
| Mission.SameBands | modules/missionManager.js:93-106 | two threat levels share a difficulty name exactly when they share an injury text |
| Mission.MomentumColorClass | modules/missionManager.js:125-129 | danger exactly at -2 and below, success exactly at 3 and above, neutral exactly between |
| Mission.ColorAgreesWithOutcome | modules/missionManager.js:111-129 | a forced retreat shows danger; a win at a threshold of 3 or more shows success |
| Mission.LevelAt | modules/missionManager.js:190 | the level at the rating, and the middle level for a rating outside 0..2 |
| Mission.CoverInfo | modules/missionManager.js:184-191 | capacity 0 exactly at cover 0, unlimited exactly at 2, 2 (Normal) for every other rating |
| Mission.SpaceInfo | modules/missionManager.js:196-203 | capacity 0 exactly at space 0, unlimited exactly at 2, 2 (Transitional) for every other rating |
| Mission.CountHolding | modules/missionManager.js:220 | the count of deployed troopers holding the position is at most the roster size, and 0 exactly when none holds it |
| Mission.CountConcat | modules/missionManager.js:220 | the count adds up over the parts of a roster |
| Mission.CountIgnoresNonHolders | modules/missionManager.js:220 | changing a trooper who holds the position neither before nor after, inactive ones included, leaves the count unchanged |
| Mission.Admits | modules/missionManager.js:211-226 | capacity 0 refuses, unlimited admits, a finite capacity admits exactly while the count is below it |
| Mission.CanSetFortified | modules/missionManager.js:209-227 | invalid for every roster in exposed cover, valid for every roster in dense cover, otherwise valid exactly when fewer than 2 deployed troopers are Fortified |
| Mission.CanSetFlanking | modules/missionManager.js:233-251 | invalid for every roster in tight space, valid for every roster in open space, otherwise valid exactly when fewer than 2 deployed troopers are Flanking |
| Mission.NormalCoverFillsAtTwo | modules/missionManager.js:220-224 | two deployed Fortified troopers fill normal cover |
| Mission.InactiveRosterAdmitsFlanking | modules/missionManager.js:233-251 | a roster with nobody deployed admits a Flanking trooper unless space is tight |
| EventHandlers.PipClicked | modules/eventHandlers.js:26-37 | no id or no numeric value does nothing; grit, ammo and counter (with a field) go to their setters; anything else does nothing |
| EventHandlers.HandlePipClick | modules/eventHandlers.js:16-41 | the roster afterwards is PipClicked |
| EventHandlers.PipClickKeepsBounds | modules/eventHandlers.js:28-31 | a click on a rendered grit or ammunition pip keeps every trooper within its grit and ammunition bounds |
| EventHandlers.TogglePosition | modules/eventHandlers.js:59 | the chip of the current value gives "N/A", any other chip gives its position |
| EventHandlers.ToggleTwiceClears | modules/eventHandlers.js:59 | clicking the same chip twice, starting anywhere else, ends at "N/A" |
| EventHandlers.PositionUpdate | modules/eventHandlers.js:61 | the chip writes the offensive or the defensive position field |
| EventHandlers.PositionClicked | modules/eventHandlers.js:54-61 | no id, field or position, or an unknown id, does nothing; otherwise only that trooper's position field changes, to the toggled value |
| EventHandlers.HandlePositionClick | modules/eventHandlers.js:46-64 | the roster afterwards is PositionClicked |
| EventHandlers.PositionClickIgnoresCapacity | modules/eventHandlers.js:56-61 | in tight space, where canSetFlanking refuses, a chip click still puts a deployed trooper on Flanking |
| EventHandlers.GearListClicked | modules/eventHandlers.js:76-80 | removeGearItem runs only when both the id and the item are given |
| EventHandlers.HandleGearListClick | modules/eventHandlers.js:69-81 | the roster afterwards is GearListClicked |
| EventHandlers.SlotTypes | modules/eventHandlers.js:94-98 | each select replaces a non-empty list of catalog slot types |
| EventHandlers.SlotOfField | modules/eventHandlers.js:94-100 | gear_armor, gear_weapon and gear_special name the three selects, and no other field does |
| EventHandlers.SlotsDisjoint | modules/eventHandlers.js:94-98 | no item belongs to two selects |
| EventHandlers.SwapIds | modules/eventHandlers.js:105-121 | every occurrence of the first id of the slot is removed, the other ids stay with their multiplicities, and a non-empty key ends the list |
| EventHandlers.SwapKeepsOrder | modules/eventHandlers.js:113 | the ids a swap keeps are in their original order |
| EventHandlers.Swapped | modules/eventHandlers.js:105-123 | only gear and counters change, and every equipped counter field is defined afterwards |
| EventHandlers.GearSwapped | modules/eventHandlers.js:102-103 | an unknown id changes nothing; otherwise only that trooper is swapped |
| EventHandlers.HandleGearSwap | modules/eventHandlers.js:100-127 | the roster afterwards is GearSwapped |
| EventHandlers.SwappedGearIds | modules/eventHandlers.js:117-121 | the new gear string parses back to the swapped ids |
| EventHandlers.SwappedCounters | modules/eventHandlers.js:112-123 | a field is present afterwards exactly when it was and is not the replaced item's, or an item equipped afterwards supplies it |
| EventHandlers.ReselectResetsCounters | modules/eventHandlers.js:107-123 | re-selecting the held item keeps it equipped, last in the list, with each of its counters at its maximum |
| EventHandlers.SwapClearsSlot | modules/eventHandlers.js:107-119 | after a swap the only item of the slot is the new key |
| EventHandlers.SwapKeepsExclusive | modules/eventHandlers.js:105-121 | a swap with an item of the slot, or with none, keeps every select holding at most one item |
| EventHandlers.NewTrooperExclusive | modules/config.js:13 | a new trooper starts with at most one item per select |
| EventHandlers.DefaultGearExclusive | modules/config.js:13 | the default gear holds one weapon and one armor, never two of one select |

## Left out

- Storage: reading and writing the browser's local storage and the JSON encoding. The model keeps the pure parts: the default-merge of the mission loader, the repair pass of the roster loader, and a save/load round trip through `Stored`.
- The id `createNewTrooper` builds from the clock is a parameter of `CreateNewTrooper`.
- Reading the page: finding the clicked element, its data attributes and `parseFloat`. Handlers take the trooper id, field, resource and value as arguments. A value that is not a number is `None`.
- Re-rendering and animation frames, toast messages, and the HTML renderers and templates.
- The older single-file version of the application is not part of this model.
- The `reason` strings of `canSetFortified` and `canSetFlanking`. Only the boolean verdict is modelled.
- Descriptions of catalog items and counter labels other than names, icons and colours. They are display text only.
- Numbers are integers. Grit, ammunition and counter values that are fractions or NaN, and `gritMax` parsed from text, are not modelled. `Infinity` is the `Unlimited` capacity.
- Non-ASCII lower-casing: `Lower` maps only A-Z.
- The other branch of `handleInputChange` writes any named field from a text input through `updateTrooper`. It is not modelled. `FieldUpdate` covers the six fields the page writes: name, status, notes, gritMax and the two positions.
- Troopers are values inside the roster, so the model does not capture aliasing between a trooper object and the roster that holds it.
- `MissionState` holds complete records only. The setters applied to the partial object `startMission` returns (where a missing exchange count becomes NaN) are not modelled. That record is modelled by `StartMission`, and what loading it gives by `StartedMissionLoads`.
- Repaired: a stored record without `gritCurrent` (where the source computes NaN) is not modelled; stored `gritCurrent` is always a number.
- Mission.InjuryInfo: its contract pins the low-band text exactly, and the other two by their leading digit and the shared tail `OddsTail`. The body holds the exact texts.
