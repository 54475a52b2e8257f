/** Gear-list parsing and the slot lookup. */
module Utilities {
  import opened Options
  import opened Equipment
  import opened Strings

  /**
   * parseGearArray: split on commas, trim and lower-case every piece, drop the empty ones.
   * Every id it yields is non-empty, trimmed, comma-free and lower-case.
   */
  function ParseGearArray(gear: string): (ids: seq<string>)
    ensures forall x :: x in ids ==> Piece(x) && Lower(x) == x
  {
    TidyYieldsPieces(Split(gear), true);
    Tidy(Split(gear), true)
  }

  /**
   * The same parse without lower-casing, as written inline where a gear list is edited
   * (removing an item, swapping a slot). Every id it yields is non-empty, trimmed and comma-free.
   */
  function GearIds(gear: string): (ids: seq<string>)
    ensures forall x :: x in ids ==> Piece(x)
  {
    TidyYieldsPieces(Split(gear), false);
    Tidy(Split(gear), false)
  }

  /** The lower-casing parse is the trim-only parse, lower-cased. */
  lemma ParseIsLoweredGearIds(gear: string)
    ensures ParseGearArray(gear) == LowerAll(GearIds(gear))
  {
    TidyLower(Split(gear));
  }

  /** Parsing keeps the left-to-right order of the comma-separated input. */
  lemma ParseKeepsOrder(a: string, b: string)
    ensures ParseGearArray(a + [','] + b) == ParseGearArray(a) + ParseGearArray(b)
    ensures GearIds(a + [','] + b) == GearIds(a) + GearIds(b)
  {
    SplitConcat(a, b);
    TidyConcat(Split(a), Split(b), true);
    TidyConcat(Split(a), Split(b), false);
  }

  /** Joining ids with ", " and parsing the result back gives the same ids. */
  lemma GearIdsJoin(xs: seq<string>)
    requires forall i :: 0 <= i < |xs| ==> Piece(xs[i])
    ensures GearIds(Join(xs)) == xs
    ensures ParseGearArray(Join(xs)) == LowerAll(xs)
  {
    JoinRoundTrip(xs);
    ParseIsLoweredGearIds(Join(xs));
  }

  /** For lower-case ids the round trip through ", " is exact. */
  lemma ParseJoinRoundTrip(xs: seq<string>)
    requires forall i :: 0 <= i < |xs| ==> Piece(xs[i]) && Lower(xs[i]) == xs[i]
    ensures ParseGearArray(Join(xs)) == xs
  {
    GearIdsJoin(xs);
  }

  /** Parsing is a normal form: re-joining a parsed list and parsing again changes nothing. */
  lemma ParseIsNormalForm(gear: string)
    ensures ParseGearArray(Join(ParseGearArray(gear))) == ParseGearArray(gear)
  {
    var ids := ParseGearArray(gear);
    assert forall i :: 0 <= i < |ids| ==> ids[i] in ids;
    ParseJoinRoundTrip(ids);
  }

  /** The index of the first id whose catalog entry has a type in `types`: the `find` of the slot lookup. */
  function FirstInSlot(ids: seq<string>, types: seq<string>): (k: Option<nat>)
    ensures k.Some? ==> k.value < |ids| && InSlot(ids[k.value], types)
    ensures k.Some? ==> forall j :: 0 <= j < k.value ==> !InSlot(ids[j], types)
    ensures k.None? ==> forall j :: 0 <= j < |ids| ==> !InSlot(ids[j], types)
    decreases |ids|
  {
    if |ids| == 0 then None
    else if InSlot(ids[0], types) then Some(0)
    else match FirstInSlot(ids[1..], types)
      case None => None
      case Some(k) => Some(k + 1)
  }

  /**
   * getEquippedItem: the first parsed gear id that is a catalog item of one of the slot
   * types `types`, or nothing when no such id exists. Ids outside the catalog are never returned.
   */
  function GetEquippedItem(gear: string, types: seq<string>): (r: Option<string>)
    ensures r.Some? ==> r.value in ParseGearArray(gear) && r.value in Database && InSlot(r.value, types)
    ensures r.Some? ==> exists k :: 0 <= k < |ParseGearArray(gear)| && ParseGearArray(gear)[k] == r.value &&
                          forall j :: 0 <= j < k ==> !InSlot(ParseGearArray(gear)[j], types)
    ensures r.None? <==> forall x :: x in ParseGearArray(gear) ==> !InSlot(x, types)
  {
    var ids := ParseGearArray(gear);
    match FirstInSlot(ids, types)
    case None => None
    case Some(k) => Some(ids[k])
  }
}
