/**
 * The mission record: threat level and victory threshold, momentum, the cover and space
 * ratings of the battlefield, the exchange counter and the header flag; the banded lookups
 * on threat level and momentum; and the two validators that hold the Fortified and Flanking
 * positions to the capacity the cover and space ratings allow.
 */
module Mission {
  import opened Options
  import opened DataManager

  // ---------------------------------------------------------------- the record

  /** A mission record with every field present. */
  datatype MissionValues = MissionValues(
    isActive: bool,
    threatLevel: int,
    momentum: int,
    victoryThreshold: int,
    cover: int,
    space: int,
    exchangeCount: int,
    isHeaderExpanded: bool)

  /** A mission record as written to storage, where any field may be missing. */
  datatype MissionRecord = MissionRecord(
    isActive: Option<bool>,
    threatLevel: Option<int>,
    momentum: Option<int>,
    victoryThreshold: Option<int>,
    cover: Option<int>,
    space: Option<int>,
    exchangeCount: Option<int>,
    isHeaderExpanded: Option<bool>)

  /** No mission under way, threat level 2 with victory at 3, normal cover, transitional space. */
  const Defaults := MissionValues(false, 2, 0, 3, 1, 1, 1, false)

  /** The momentum range every setter keeps. */
  const MinMomentum := -3
  const MaxMomentum := 5

  /** The record of a complete state, every field present. */
  function Full(v: MissionValues): MissionRecord
  {
    MissionRecord(Some(v.isActive), Some(v.threatLevel), Some(v.momentum), Some(v.victoryThreshold),
                  Some(v.cover), Some(v.space), Some(v.exchangeCount), Some(v.isHeaderExpanded))
  }

  function Or<T>(o: Option<T>, d: T): T
  {
    if o.Some? then o.value else d
  }

  /**
   * The state loadMissionState builds from a stored record: each field the record carries
   * overrides the default, and every missing field takes its default.
   */
  function Merged(r: MissionRecord): (v: MissionValues)
    ensures r.isActive.Some? ==> v.isActive == r.isActive.value
    ensures r.isActive.None? ==> v.isActive == Defaults.isActive
    ensures r.threatLevel.Some? ==> v.threatLevel == r.threatLevel.value
    ensures r.threatLevel.None? ==> v.threatLevel == Defaults.threatLevel
    ensures r.momentum.Some? ==> v.momentum == r.momentum.value
    ensures r.momentum.None? ==> v.momentum == Defaults.momentum
    ensures r.victoryThreshold.Some? ==> v.victoryThreshold == r.victoryThreshold.value
    ensures r.victoryThreshold.None? ==> v.victoryThreshold == Defaults.victoryThreshold
    ensures r.cover.Some? ==> v.cover == r.cover.value
    ensures r.cover.None? ==> v.cover == Defaults.cover
    ensures r.space.Some? ==> v.space == r.space.value
    ensures r.space.None? ==> v.space == Defaults.space
    ensures r.exchangeCount.Some? ==> v.exchangeCount == r.exchangeCount.value
    ensures r.exchangeCount.None? ==> v.exchangeCount == Defaults.exchangeCount
    ensures r.isHeaderExpanded.Some? ==> v.isHeaderExpanded == r.isHeaderExpanded.value
    ensures r.isHeaderExpanded.None? ==> v.isHeaderExpanded == Defaults.isHeaderExpanded
  {
    MissionValues(Or(r.isActive, Defaults.isActive), Or(r.threatLevel, Defaults.threatLevel),
                  Or(r.momentum, Defaults.momentum), Or(r.victoryThreshold, Defaults.victoryThreshold),
                  Or(r.cover, Defaults.cover), Or(r.space, Defaults.space),
                  Or(r.exchangeCount, Defaults.exchangeCount), Or(r.isHeaderExpanded, Defaults.isHeaderExpanded))
  }

  /** Loading what was saved gives the saved state back: the default-merge only fills gaps. */
  lemma MergedFull(v: MissionValues)
    ensures Merged(Full(v)) == v
  {
  }

  /** Loading an empty record gives the defaults. */
  lemma MergedEmpty()
    ensures Merged(MissionRecord(None, None, None, None, None, None, None, None)) == Defaults
  {
  }

  /**
   * startMission: a record that is active, at the given threat level, momentum 0 and victory at
   * threatLevel + 1, and that carries no cover, space, exchange count or header flag.
   */
  function StartMission(threatLevel: int): (r: MissionRecord)
    ensures r.isActive == Some(true) && r.momentum == Some(0)
    ensures r.threatLevel == Some(threatLevel) && r.victoryThreshold == Some(threatLevel + 1)
    ensures r.cover.None? && r.space.None? && r.exchangeCount.None? && r.isHeaderExpanded.None?
  {
    MissionRecord(Some(true), Some(threatLevel), Some(0), Some(threatLevel + 1), None, None, None, None)
  }

  /** endMission: a complete record of the defaults. */
  function EndMission(): (r: MissionRecord)
    ensures r.isActive == Some(false)
    ensures r.threatLevel.Some? && r.victoryThreshold.Some? && r.victoryThreshold.value == r.threatLevel.value + 1
  {
    Full(Defaults)
  }

  /** The state the mission invariants describe: victory at threat level + 1, every rating in its range. */
  predicate Valid(v: MissionValues)
  {
    && v.victoryThreshold == v.threatLevel + 1
    && MinMomentum <= v.momentum <= MaxMomentum
    && 0 <= v.cover <= 2
    && 0 <= v.space <= 2
    && v.exchangeCount >= 1
  }

  /**
   * A started mission, once loaded, is active at its threat level with momentum 0, and the loader
   * fills cover, space and exchange count with 1 and the header flag with false. It is valid.
   */
  lemma StartedMissionLoads(threatLevel: int)
    ensures Merged(StartMission(threatLevel)) == MissionValues(true, threatLevel, 0, threatLevel + 1, 1, 1, 1, false)
    ensures Valid(Merged(StartMission(threatLevel)))
  {
  }

  /** An ended mission loads as exactly the defaults, which are valid. */
  lemma EndedMissionLoads()
    ensures Merged(EndMission()) == Defaults
    ensures Valid(Defaults) && !Defaults.isActive
  {
    MergedFull(Defaults);
  }

  // ---------------------------------------------------------------- the setters

  /** max(lo, min(hi, x)). */
  function Clamp(lo: int, hi: int, x: int): (r: int)
    requires lo <= hi
    ensures lo <= r <= hi
    ensures lo <= x <= hi ==> r == x
    ensures x < lo ==> r == lo
    ensures x > hi ==> r == hi
  {
    if x < lo then lo else if x > hi then hi else x
  }

  /** The setters of the mission record, with their arguments. */
  datatype Update =
    | SetThreatLevel(level: int)
    | SetMomentum(momentum: int)
    | AdjustMomentum(delta: int)
    | SetCover(cover: int)
    | SetSpace(space: int)
    | SetExchangeCount(count: int)
    | IncrementExchange
    | DecrementExchange
    | ToggleHeaderExpanded

  /**
   * The record after one setter. The threat level is stored as given (no clamp) with the
   * victory threshold one above it; momentum is clamped to [-3, 5], cover and space to [0, 2],
   * the exchange count floored at 1. Each setter changes its own fields and nothing else.
   */
  function Apply(v: MissionValues, u: Update): (w: MissionValues)
    ensures u.SetThreatLevel? ==> w == v.(threatLevel := u.level, victoryThreshold := u.level + 1)
    ensures (u.SetMomentum? || u.AdjustMomentum?) ==>
              w == v.(momentum := w.momentum) && MinMomentum <= w.momentum <= MaxMomentum
    ensures u.SetMomentum? ==> w.momentum == Clamp(MinMomentum, MaxMomentum, u.momentum)
    ensures u.AdjustMomentum? ==> w.momentum == Clamp(MinMomentum, MaxMomentum, v.momentum + u.delta)
    ensures u.SetCover? ==> w == v.(cover := w.cover) && w.cover == Clamp(0, 2, u.cover)
    ensures u.SetSpace? ==> w == v.(space := w.space) && w.space == Clamp(0, 2, u.space)
    ensures (u.SetExchangeCount? || u.IncrementExchange? || u.DecrementExchange?) ==>
              w == v.(exchangeCount := w.exchangeCount) && w.exchangeCount >= 1
    ensures u.SetExchangeCount? && u.count >= 1 ==> w.exchangeCount == u.count
    ensures u.SetExchangeCount? && u.count < 1 ==> w.exchangeCount == 1
    ensures u.IncrementExchange? && v.exchangeCount >= 0 ==> w.exchangeCount == v.exchangeCount + 1
    ensures u.IncrementExchange? && v.exchangeCount < 0 ==> w.exchangeCount == 1
    ensures u.DecrementExchange? && v.exchangeCount >= 2 ==> w.exchangeCount == v.exchangeCount - 1
    ensures u.DecrementExchange? && v.exchangeCount < 2 ==> w.exchangeCount == 1
    ensures u.ToggleHeaderExpanded? ==> w == v.(isHeaderExpanded := !v.isHeaderExpanded)
  {
    match u
    case SetThreatLevel(level) => v.(threatLevel := level, victoryThreshold := level + 1)
    case SetMomentum(m) => v.(momentum := Clamp(MinMomentum, MaxMomentum, m))
    case AdjustMomentum(d) => v.(momentum := Clamp(MinMomentum, MaxMomentum, v.momentum + d))
    case SetCover(c) => v.(cover := Clamp(0, 2, c))
    case SetSpace(s) => v.(space := Clamp(0, 2, s))
    case SetExchangeCount(n) => v.(exchangeCount := if n > 1 then n else 1)
    case IncrementExchange => v.(exchangeCount := if v.exchangeCount + 1 > 1 then v.exchangeCount + 1 else 1)
    case DecrementExchange => v.(exchangeCount := if v.exchangeCount - 1 > 1 then v.exchangeCount - 1 else 1)
    case ToggleHeaderExpanded => v.(isHeaderExpanded := !v.isHeaderExpanded)
  }

  /** Every setter keeps a valid record valid. */
  lemma ApplyPreservesValid(v: MissionValues, u: Update)
    requires Valid(v)
    ensures Valid(Apply(v, u))
  {
  }

  /** adjustMomentum(d) is setMomentum(momentum + d); increment and decrement are setExchangeCount(count ± 1). */
  lemma DerivedSetters(v: MissionValues, d: int)
    ensures Apply(v, AdjustMomentum(d)) == Apply(v, SetMomentum(v.momentum + d))
    ensures Apply(v, IncrementExchange) == Apply(v, SetExchangeCount(v.exchangeCount + 1))
    ensures Apply(v, DecrementExchange) == Apply(v, SetExchangeCount(v.exchangeCount - 1))
  {
  }

  /** Decrementing at one exchange stays at one; toggling the header twice restores it. */
  lemma ExchangeFloorAndToggleTwice(v: MissionValues)
    ensures v.exchangeCount <= 2 ==> Apply(v, DecrementExchange).exchangeCount == 1
    ensures Apply(Apply(v, ToggleHeaderExpanded), ToggleHeaderExpanded) == v
  {
  }

  /** Setting the same value twice is the same as setting it once (every clamp is idempotent). */
  lemma SettersIdempotent(v: MissionValues, u: Update)
    requires !u.AdjustMomentum? && !u.IncrementExchange? && !u.DecrementExchange? && !u.ToggleHeaderExpanded?
    ensures Apply(Apply(v, u), u) == Apply(v, u)
  {
  }

  // ---------------------------------------------------------------- the mission state in memory

  /** The mission record held by the page, which the setters update field by field. */
  class MissionState {
    var isActive: bool
    var threatLevel: int
    var momentum: int
    var victoryThreshold: int
    var cover: int
    var space: int
    var exchangeCount: int
    var isHeaderExpanded: bool

    function Values(): MissionValues
      reads this
    {
      MissionValues(isActive, threatLevel, momentum, victoryThreshold, cover, space, exchangeCount, isHeaderExpanded)
    }

    /** loadMissionState: the defaults overridden by whatever fields the stored record carries. */
    constructor (saved: MissionRecord)
      ensures Values() == Merged(saved)
    {
      var v := Merged(saved);
      isActive, threatLevel, momentum, victoryThreshold := v.isActive, v.threatLevel, v.momentum, v.victoryThreshold;
      cover, space, exchangeCount, isHeaderExpanded := v.cover, v.space, v.exchangeCount, v.isHeaderExpanded;
    }

    method SetThreatLevel(level: int)
      modifies this
      ensures Values() == Apply(old(Values()), Update.SetThreatLevel(level))
    {
      threatLevel := level;
      victoryThreshold := level + 1;
    }

    method SetMomentum(m: int)
      modifies this
      ensures Values() == Apply(old(Values()), Update.SetMomentum(m))
    {
      momentum := if MaxMomentum < m then MaxMomentum else m;
      if momentum < MinMomentum {
        momentum := MinMomentum;
      }
    }

    method AdjustMomentum(delta: int)
      modifies this
      ensures Values() == Apply(old(Values()), Update.AdjustMomentum(delta))
    {
      SetMomentum(momentum + delta);
    }

    method SetCover(c: int)
      modifies this
      ensures Values() == Apply(old(Values()), Update.SetCover(c))
    {
      cover := if 2 < c then 2 else c;
      if cover < 0 {
        cover := 0;
      }
    }

    method SetSpace(s: int)
      modifies this
      ensures Values() == Apply(old(Values()), Update.SetSpace(s))
    {
      space := if 2 < s then 2 else s;
      if space < 0 {
        space := 0;
      }
    }

    method SetExchangeCount(count: int)
      modifies this
      ensures Values() == Apply(old(Values()), Update.SetExchangeCount(count))
    {
      exchangeCount := if count < 1 then 1 else count;
    }

    method IncrementExchange()
      modifies this
      ensures Values() == Apply(old(Values()), Update.IncrementExchange)
    {
      SetExchangeCount(exchangeCount + 1);
    }

    method DecrementExchange()
      modifies this
      ensures Values() == Apply(old(Values()), Update.DecrementExchange)
    {
      SetExchangeCount(exchangeCount - 1);
    }

    method ToggleHeaderExpanded()
      modifies this
      ensures Values() == Apply(old(Values()), Update.ToggleHeaderExpanded)
    {
      isHeaderExpanded := !isHeaderExpanded;
    }
  }

  // ---------------------------------------------------------------- victory, retreat and the bands

  /** isMissionWon: momentum has reached the victory threshold, which in a valid record is one above the threat level. */
  predicate IsMissionWon(v: MissionValues): (won: bool)
    ensures Valid(v) ==> (won <==> v.momentum > v.threatLevel)
  {
    v.momentum >= v.victoryThreshold
  }

  /** isForcedRetreat: momentum at -3 or below, which in a valid record means exactly at the floor. */
  predicate IsForcedRetreat(v: MissionValues): (retreat: bool)
    ensures Valid(v) ==> (retreat <==> v.momentum == MinMomentum)
  {
    v.momentum <= MinMomentum
  }

  /** A valid mission is never won and in forced retreat at once when its threat level is at least -3. */
  lemma WonExcludesRetreat(v: MissionValues)
    requires Valid(v) && v.threatLevel >= -3
    ensures !(IsMissionWon(v) && IsForcedRetreat(v))
  {
  }

  /** At threat level 2, raising momentum one step at a time from 0 first wins at 3. */
  lemma WinAtThreatLevelTwo()
    ensures var s0 := Merged(StartMission(2));
            var s1 := Apply(s0, AdjustMomentum(1));
            var s2 := Apply(s1, AdjustMomentum(1));
            var s3 := Apply(s2, AdjustMomentum(1));
            && !IsMissionWon(s0) && !IsMissionWon(s1) && !IsMissionWon(s2) && IsMissionWon(s3)
            && s3.momentum == 3
  {
    StartedMissionLoads(2);
  }

  /** From momentum -2, one step down reaches -3, the forced retreat; further steps stay at -3. */
  lemma RetreatAtMinusThree(v: MissionValues)
    requires v.momentum == -2
    ensures Apply(v, AdjustMomentum(-1)).momentum == -3 && IsForcedRetreat(Apply(v, AdjustMomentum(-1)))
    ensures Apply(Apply(v, AdjustMomentum(-1)), AdjustMomentum(-1)).momentum == -3
  {
  }

  /** getDifficultyName: Routine, Hazardous or Desperate by threat band. */
  function DifficultyName(threatLevel: int): (s: string)
    ensures s == "Routine" <==> threatLevel <= 2
    ensures s == "Hazardous" <==> threatLevel == 3
    ensures s == "Desperate" <==> threatLevel > 3
  {
    if threatLevel <= 2 then "Routine"
    else if threatLevel == 3 then "Hazardous"
    else "Desperate"
  }

  /** The common tail of the two injury texts that give odds of a second injury. */
  const OddsTail := "-in-6 odds of 2 injuries, otherwise 1 injury"

  /** getInjuryInfo: one injury up to threat level 2, then 2-in-6 and 3-in-6 odds of a second. */
  function InjuryInfo(threatLevel: int): (s: string)
    ensures threatLevel <= 2 ==> s == "1 injury"
    ensures threatLevel > 2 ==> |s| > 0 && s[1..] == OddsTail
    ensures threatLevel > 2 ==> (s[0] == '2' <==> threatLevel == 3) && (s[0] == '3' <==> threatLevel > 3)
  {
    if threatLevel <= 2 then "1 injury"
    else if threatLevel == 3 then "2" + OddsTail
    else "3" + OddsTail
  }

  /** Difficulty and injury text change at the same threat levels: two levels share one exactly when they share the other. */
  lemma SameBands(a: int, b: int)
    ensures DifficultyName(a) == DifficultyName(b) <==> InjuryInfo(a) == InjuryInfo(b)
  {
    var one, two, three := InjuryInfo(2), InjuryInfo(3), InjuryInfo(4);
    assert one[0] == '1' && two[0] == '2' && three[0] == '3';
  }

  /** getMomentumColorClass: danger at -2 and below, success at 3 and above, neutral between. */
  function MomentumColorClass(momentum: int): (s: string)
    ensures s == "danger" <==> momentum <= -2
    ensures s == "success" <==> momentum >= 3
    ensures s == "neutral" <==> -2 < momentum < 3
  {
    if momentum <= -2 then "danger" else if momentum >= 3 then "success" else "neutral"
  }

  /** A forced retreat always shows danger; at the default threshold a won mission always shows success. */
  lemma ColorAgreesWithOutcome(v: MissionValues)
    ensures IsForcedRetreat(v) ==> MomentumColorClass(v.momentum) == "danger"
    ensures IsMissionWon(v) && v.victoryThreshold >= 3 ==> MomentumColorClass(v.momentum) == "success"
  {
  }

  // ---------------------------------------------------------------- capacities and validators

  /** How many troopers a position admits: a number, or no limit. */
  datatype Capacity = Finite(n: nat) | Unlimited

  datatype Level = Level(name: string, capacity: Capacity)

  const CoverLevels := [Level("Exposed", Finite(0)), Level("Normal", Finite(2)), Level("Dense", Unlimited)]
  const SpaceLevels := [Level("Tight", Finite(0)), Level("Transitional", Finite(2)), Level("Open", Unlimited)]

  /** The level of a rating; a rating outside 0..2 falls back to the middle level. */
  function LevelAt(levels: seq<Level>, rating: int): (l: Level)
    requires |levels| == 3
    ensures 0 <= rating < 3 ==> l == levels[rating]
    ensures !(0 <= rating < 3) ==> l == levels[1]
  {
    if 0 <= rating < 3 then levels[rating] else levels[1]
  }

  /** getCoverInfo. */
  function CoverInfo(cover: int): (l: Level)
    ensures l.capacity == Finite(0) <==> cover == 0
    ensures l.capacity == Unlimited <==> cover == 2
    ensures l.capacity == Finite(2) <==> cover != 0 && cover != 2
    ensures l.name == "Normal" <==> !(cover == 0 || cover == 2)
  {
    LevelAt(CoverLevels, cover)
  }

  /** getSpaceInfo. */
  function SpaceInfo(space: int): (l: Level)
    ensures l.capacity == Finite(0) <==> space == 0
    ensures l.capacity == Unlimited <==> space == 2
    ensures l.capacity == Finite(2) <==> space != 0 && space != 2
    ensures l.name == "Transitional" <==> !(space == 0 || space == 2)
  {
    LevelAt(SpaceLevels, space)
  }

  /** The defensive position of the Fortified validator and the offensive one of the Flanking validator. */
  const Fortified := "Fortified"
  const Flanking := "Flanking"

  datatype Side = Offensive | Defensive

  function PositionOn(t: Trooper, side: Side): Option<string>
  {
    match side
    case Offensive => t.offensivePosition
    case Defensive => t.defensivePosition
  }

  /** Whether trooper `t` is deployed and holds `position` on `side`. */
  predicate Holds(t: Trooper, side: Side, position: string)
  {
    t.isActive && PositionOn(t, side) == Some(position)
  }

  /** roster.filter(t => t.isActive && t.<side>Position === position).length */
  function CountHolding(ts: seq<Trooper>, side: Side, position: string): (n: nat)
    ensures n <= |ts|
    ensures n == 0 <==> forall i :: 0 <= i < |ts| ==> !Holds(ts[i], side, position)
    decreases |ts|
  {
    if |ts| == 0 then 0
    else (if Holds(ts[0], side, position) then 1 else 0) + CountHolding(ts[1..], side, position)
  }

  /** The count adds up over the parts of a roster. */
  lemma {:induction false} CountConcat(a: seq<Trooper>, b: seq<Trooper>, side: Side, position: string)
    ensures CountHolding(a + b, side, position) == CountHolding(a, side, position) + CountHolding(b, side, position)
    decreases |a|
  {
    if |a| == 0 {
      assert a + b == b;
    } else {
      assert (a + b)[1..] == a[1..] + b;
      CountConcat(a[1..], b, side, position);
    }
  }

  /** Changing a trooper who does not hold the position before or after leaves the count unchanged: inactive troopers never count. */
  lemma CountIgnoresNonHolders(ts: seq<Trooper>, k: nat, t: Trooper, side: Side, position: string)
    requires k < |ts| && !Holds(ts[k], side, position) && !Holds(t, side, position)
    ensures CountHolding(ts[k := t], side, position) == CountHolding(ts, side, position)
  {
    assert ts == ts[..k] + [ts[k]] + ts[k + 1..];
    assert ts[k := t] == ts[..k] + [t] + ts[k + 1..];
    CountConcat(ts[..k] + [ts[k]], ts[k + 1..], side, position);
    CountConcat(ts[..k], [ts[k]], side, position);
    CountConcat(ts[..k] + [t], ts[k + 1..], side, position);
    CountConcat(ts[..k], [t], side, position);
  }

  /** Whether one more trooper may take a position whose capacity is `cap`, given the current count. */
  function Admits(cap: Capacity, count: nat): (ok: bool)
    ensures cap == Finite(0) ==> !ok
    ensures cap.Unlimited? ==> ok
    ensures cap.Finite? ==> (ok <==> count < cap.n)
  {
    match cap
    case Finite(n) => n != 0 && count < n
    case Unlimited => true
  }

  /** canSetFortified: room for one more deployed Fortified trooper under the cover's capacity. */
  function CanSetFortified(ts: seq<Trooper>, cover: int): (valid: bool)
    ensures cover == 0 ==> !valid
    ensures cover == 2 ==> valid
    ensures cover != 0 && cover != 2 ==> (valid <==> CountHolding(ts, Defensive, Fortified) < 2)
  {
    Admits(CoverInfo(cover).capacity, CountHolding(ts, Defensive, Fortified))
  }

  /** canSetFlanking: room for one more deployed Flanking trooper under the space's capacity. */
  function CanSetFlanking(ts: seq<Trooper>, space: int): (valid: bool)
    ensures space == 0 ==> !valid
    ensures space == 2 ==> valid
    ensures space != 0 && space != 2 ==> (valid <==> CountHolding(ts, Offensive, Flanking) < 2)
  {
    Admits(SpaceInfo(space).capacity, CountHolding(ts, Offensive, Flanking))
  }

  /** Under normal cover, two deployed Fortified troopers fill the capacity; inactive ones never do. */
  lemma NormalCoverFillsAtTwo(ts: seq<Trooper>, i: nat, j: nat)
    requires i < j < |ts|
    requires Holds(ts[i], Defensive, Fortified) && Holds(ts[j], Defensive, Fortified)
    ensures !CanSetFortified(ts, 1)
  {
    assert ts == ts[..i] + [ts[i]] + ts[i + 1..j] + [ts[j]] + ts[j + 1..];
    CountConcat(ts[..i] + [ts[i]] + ts[i + 1..j] + [ts[j]], ts[j + 1..], Defensive, Fortified);
    CountConcat(ts[..i] + [ts[i]] + ts[i + 1..j], [ts[j]], Defensive, Fortified);
    CountConcat(ts[..i] + [ts[i]], ts[i + 1..j], Defensive, Fortified);
    CountConcat(ts[..i], [ts[i]], Defensive, Fortified);
  }

  /** A roster where nobody is deployed may always take a Flanking trooper unless the space is tight. */
  lemma InactiveRosterAdmitsFlanking(ts: seq<Trooper>, space: int)
    requires forall i :: 0 <= i < |ts| ==> !ts[i].isActive
    requires space != 0
    ensures CanSetFlanking(ts, space)
  {
  }
}
