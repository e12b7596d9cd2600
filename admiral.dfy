/**
 * The admirals of src/game/admiral.cpp: one record per player in `gAdmiralData`, with
 * its purse, its build table, its cursor handles into the object and destination
 * tables, and the steps that update them.
 */
module Admirals {
  import opened Wrappers
  import opened Fixed
  import opened Limits
  import opened SpaceObjects
  import opened Destinations

  /** kAdmiralNameLen. */
  const AdmiralNameLen := 31
  /** kMaxNumAdmiralCanBuild: one entry per class any destination can list. */
  const MaxNumAdmiralCanBuild := MaxDestObject * MaxTypeBaseCanBuild
  /** kAdmiralScoreNum. */
  const AdmiralScoreNum := 3
  /** kNoDestinationObject. */
  const NoDestinationObject := -1
  /** The blitzkrieg counter restarts at a magnitude drawn from [1200, 2400). */
  const BlitzkriegBase := 1200
  /** Build time under the fast-build cheat. */
  const CheatBuildTime := 9
  /** A think step takes this much off every destination's build time. */
  const BuildTimeStep := 10
  /** A think step tries at most this many draws from the build table. */
  const BuildAttempts := 7

  /** A draw `gRandomSeed.next(n)`: a value in [0, n), and 0 when the range is empty. */
  predicate ValidDraw(r: int, n: int)
  {
    if n > 0 then 0 <= r < n else r == 0
  }

  /** What the core reads of a base object. */
  datatype BaseInfo = BaseInfo(
    number: nat, price: int, buildTime: int, buildRatio: int,
    sufficientEscortsExist: bool, matchingFoeExists: bool, orderKeyTag: int, friendDefecit: int)

  function BaseNumber(b: Option<BaseInfo>): int
  {
    if b.Some? then b.value.number else NoObject
  }

  /** A missing base object adds nothing to the build chances. */
  function RatioOf(b: Option<BaseInfo>): int
  {
    if b.Some? then b.value.buildRatio else 0
  }

  /** An entry of an admiral's build table; `NoEntry` is a free one. */
  datatype BuildEntry = BuildEntry(baseNum: int, base: int, chanceRange: int)
  const NoEntry := BuildEntry(-1, NoObject, -1)

  function Sum(s: seq<int>): int
  {
    if s == [] then 0 else Sum(s[..|s| - 1]) + s[|s| - 1]
  }

  function Max0(x: int): int
  {
    if x < 0 then 0 else x
  }

  /** The fields no step of the economy or the AI changes. */
  datatype Identity = Identity(active: bool, isComputer: bool, isRemote: bool,
                               earningPower: int, race: int, name: string, buildFast: bool)
  /** The economy counters and the blitzkrieg posture. */
  datatype Purse = Purse(cash: int, saveGoal: int, blitzkrieg: int, hopeToBuild: int)
  /** The handles into the object and destination tables. */
  datatype Cursors = Cursors(destinationObject: int, destinationObjectID: int, hasDestination: bool,
                             considerShip: int, considerShipID: int, considerDestination: int,
                             buildAtObject: int, flagship: int, flagshipID: int)
  /** `_canBuildType` and `_totalBuildChance`. */
  datatype BuildTable = BuildTable(entries: seq<BuildEntry>, totalBuildChance: int)
  /** What the build table holds: how many entries are in use, their classes and their ratios. */
  datatype Entered = Entered(count: nat, types: set<int>, ratios: seq<int>)

  /** What `remove_destination` leaves of an admiral's cursors when slot `d` of object `which` goes. */
  function Dropped(c: Cursors, active: bool, d: int, which: int): Cursors
  {
    if !active then c
    else
      var c1 := if c.destinationObject == which
                then c.(destinationObject := NoObject, destinationObjectID := -1, hasDestination := false)
                else c;
      var c2 := if c1.considerDestination == d then c1.(considerDestination := NoDestinationObject) else c1;
      if c2.buildAtObject == d then c2.(buildAtObject := NoObject) else c2
  }

  /** An active admiral's cursors no longer reference a removed destination. */
  lemma DroppedForgets(c: Cursors, d: int, which: int)
    requires d >= 0
    ensures Dropped(c, true, d, which).destinationObject != which || which == NoObject
    ensures Dropped(c, true, d, which).considerDestination != d
    ensures Dropped(c, true, d, which).buildAtObject != d
  {
  }

  /** The classes in the first `n` entries. */
  ghost function TypesIn(entries: seq<BuildEntry>, n: nat): set<int>
    requires n <= |entries|
  {
    if n == 0 then {} else TypesIn(entries, n - 1) + {entries[n - 1].baseNum}
  }

  lemma {:induction false} TypesInMember(entries: seq<BuildEntry>, n: nat, c: int)
    requires n <= |entries|
    ensures c in TypesIn(entries, n) <==> exists j :: 0 <= j < n && entries[j].baseNum == c
  {
    if n > 0 {
      TypesInMember(entries, n - 1, c);
    }
  }

  lemma {:induction false} TypesInPrefix(a: seq<BuildEntry>, b: seq<BuildEntry>, n: nat)
    requires n <= |a| && n <= |b| && forall j :: 0 <= j < n ==> a[j] == b[j]
    ensures TypesIn(a, n) == TypesIn(b, n)
  {
    if n > 0 {
      TypesInPrefix(a, b, n - 1);
    }
  }

  /**
   * A build table: the first `e.count` entries hold distinct classes, the rest are
   * free, each entry's `chanceRange` is the sum of the ratios entered before it, and
   * the total is the sum of all of them.
   */
  ghost predicate TableHolds(t: BuildTable, e: Entered)
  {
    && |t.entries| == MaxNumAdmiralCanBuild
    && e.count <= MaxNumAdmiralCanBuild
    && |e.ratios| == e.count
    && (forall i, j :: 0 <= i < j < e.count ==> t.entries[i].baseNum != t.entries[j].baseNum)
    && e.types == TypesIn(t.entries, e.count)
    && (forall j :: 0 <= j < e.count ==> t.entries[j].baseNum >= 0)
    && (forall j :: 0 <= j < e.count ==> t.entries[j].chanceRange == Sum(e.ratios[..j]))
    && (forall j :: e.count <= j < |t.entries| ==> t.entries[j] == NoEntry)
    && t.totalBuildChance == Sum(e.ratios)
  }

  /** The table after class `c` takes the first free entry, with the running total as its chance. */
  function WithEntry(t: BuildTable, count: nat, c: int, base: Option<BaseInfo>): BuildTable
    requires count < |t.entries|
  {
    BuildTable(t.entries[count := BuildEntry(c, BaseNumber(base), t.totalBuildChance)],
               t.totalBuildChance + RatioOf(base))
  }

  ghost function WithType(e: Entered, c: int, base: Option<BaseInfo>): Entered
  {
    Entered(e.count + 1, e.types + {c}, e.ratios + [RatioOf(base)])
  }

  lemma SumAppend(s: seq<int>, x: int)
    ensures Sum(s + [x]) == Sum(s) + x
  {
    assert (s + [x])[..|s|] == s;
  }

  /** The entries before the new one keep the running sums of the ratios before them. */
  lemma ChancesKept(entries: seq<BuildEntry>, ratios: seq<int>, count: nat, x: BuildEntry, r: int)
    requires count == |ratios| < |entries| && x.chanceRange == Sum(ratios)
    requires forall j :: 0 <= j < count ==> entries[j].chanceRange == Sum(ratios[..j])
    ensures forall j :: 0 <= j <= count ==>
      entries[count := x][j].chanceRange == Sum((ratios + [r])[..j])
  {
    forall j | 0 <= j <= count
      ensures entries[count := x][j].chanceRange == Sum((ratios + [r])[..j])
    {
      if j < count {
        assert (ratios + [r])[..j] == ratios[..j];
      } else {
        assert (ratios + [r])[..j] == ratios;
      }
    }
  }

  /** Entering a new class into a table with room keeps it a build table. */
  lemma EntryAdded(t: BuildTable, e: Entered, c: int, base: Option<BaseInfo>)
    requires TableHolds(t, e) && c >= 0 && c !in e.types && e.count < MaxNumAdmiralCanBuild
    ensures TableHolds(WithEntry(t, e.count, c, base), WithType(e, c, base))
  {
    var x := BuildEntry(c, BaseNumber(base), t.totalBuildChance);
    TypesInMember(t.entries, e.count, c);
    SumAppend(e.ratios, RatioOf(base));
    ChancesKept(t.entries, e.ratios, e.count, x, RatioOf(base));
    TypesInPrefix(t.entries, t.entries[e.count := x], e.count);
  }

  class Admiral {
    /** The admiral's own index in the admiral table. */
    const number: nat

    var identity: Identity
    var purse: Purse
    var cursors: Cursors
    var table: BuildTable
    ghost var entered: Entered
    var score: seq<int>

    ghost predicate Valid()
      reads this
    {
      TableHolds(table, entered) && |score| == AdmiralScoreNum
    }

    /** Only the purse may have changed. */
    twostate predicate OnlyPurse()
      reads this
    {
      identity == old(identity) && cursors == old(cursors) && table == old(table)
      && entered == old(entered) && score == old(score)
    }

    /** The build table was rebuilt: the hope is dropped and nothing else but the table changed. */
    twostate predicate Rebuilt()
      reads this
    {
      identity == old(identity) && cursors == old(cursors) && score == old(score)
      && purse == old(purse).(hopeToBuild := -1) && TableHolds(table, entered)
    }

    /** Only the cursors may have changed. */
    twostate predicate OnlyCursors()
      reads this
    {
      identity == old(identity) && purse == old(purse) && table == old(table)
      && entered == old(entered) && score == old(score)
    }

    /** `Admiral()`: an inactive admiral with every counter 0 and every handle none. */
    constructor (number: nat)
      ensures this.number == number && Valid() && !identity.active
      ensures entered.count == 0 && purse.hopeToBuild == -1
    {
      this.number := number;
      identity := Identity(false, false, false, 0, 0, "", false);
      purse := Purse(0, 0, 0, -1);
      cursors := Cursors(NoObject, -1, false, NoObject, -1, NoDestinationObject, NoObject, NoObject, -1);
      table := BuildTable(seq(MaxNumAdmiralCanBuild, _ => NoEntry), 0);
      entered := Entered(0, {}, []);
      score := [0, 0, 0];
    }

    /**
     * `Admiral::make`: an inactive admiral becomes active with the player's settings and
     * its name cut to 31 characters; an active one is left alone and none is returned.
     */
    method Make(isComputer: bool, isRemote: bool, earningPower: int, race: int, name: Option<string>)
      returns (made: bool)
      modifies this
      ensures made == !old(identity.active)
      ensures !made ==> identity == old(identity)
      ensures made ==> identity == old(identity).(
        active := true, isComputer := isComputer, isRemote := isRemote, earningPower := earningPower,
        race := race, name := if name.Some? then Truncate(name.value, AdmiralNameLen) else old(identity.name))
      ensures purse == old(purse) && cursors == old(cursors) && table == old(table)
      ensures entered == old(entered) && score == old(score)
    {
      if identity.active {
        return false;
      }
      identity := identity.(active := true, isComputer := isComputer, isRemote := isRemote,
                            earningPower := earningPower, race := race);
      if name.Some? {
        identity := identity.(name := Truncate(name.value, AdmiralNameLen));
      }
      return true;
    }

    /** `pay_absolute`: the amount is added and the cash clamped at 0. */
    method PayAbsolute(howMuch: int)
      modifies this
      ensures purse == old(purse).(cash := Max0(old(purse.cash) + howMuch))
      ensures purse.cash >= 0
      ensures old(purse.cash) + howMuch >= 0 ==> purse.cash == old(purse.cash) + howMuch
      ensures OnlyPurse()
    {
      var cash := purse.cash + howMuch;
      if cash < 0 {
        cash := 0;
      }
      purse := purse.(cash := cash);
    }

    /** `pay`: the amount is first scaled by the earning power. */
    method Pay(howMuch: int)
      modifies this
      ensures purse == old(purse).(cash := Max0(old(purse.cash) + MulFixed(howMuch, identity.earningPower)))
      ensures OnlyPurse()
    {
      PayAbsolute(MulFixed(howMuch, identity.earningPower));
    }

    /** `remove_destination`: an active admiral lets go of every handle to slot `d` and its object. */
    method RemoveDestinationRefs(d: int, which: int)
      modifies this
      ensures cursors == Dropped(old(cursors), identity.active, d, which)
      ensures OnlyCursors()
    {
      if identity.active {
        if cursors.destinationObject == which {
          cursors := cursors.(destinationObject := NoObject, destinationObjectID := -1, hasDestination := false);
        }
        if cursors.considerDestination == d {
          cursors := cursors.(considerDestination := NoDestinationObject);
        }
        if cursors.buildAtObject == d {
          cursors := cursors.(buildAtObject := NoObject);
        }
      }
    }

    /** `flagship()`: the flagship handle, unless its slot now holds another object. */
    function Flagship(t: seq<SpaceObject>): (r: int)
      reads this
      requires Handle(cursors.flagship, |t|)
      ensures r == NoObject || r == cursors.flagship
      ensures r != NoObject <==> cursors.flagship != NoObject && t[cursors.flagship].id == cursors.flagshipID
    {
      if cursors.flagship != NoObject && t[cursors.flagship].id == cursors.flagshipID then cursors.flagship
      else NoObject
    }

    /** `set_flagship`: the handle and the id of the object it names, or -1. */
    method SetFlagship(obj: int, objects: array<SpaceObject>)
      requires Handle(obj, objects.Length)
      modifies this
      ensures cursors == old(cursors).(flagship := obj,
                                       flagshipID := if obj == NoObject then -1 else objects[obj].id)
      ensures Flagship(objects[..]) == obj
      ensures OnlyCursors()
    {
      var id := if obj != NoObject then objects[obj].id else -1;
      cursors := cursors.(flagship := obj, flagshipID := id);
    }

    /** Once the flagship's slot is reused by an object with another id, the handle is stale. */
    lemma RecycledFlagshipIsStale(t: seq<SpaceObject>, id: int)
      requires cursors.flagship != NoObject && Handle(cursors.flagship, |t|)
      requires t[cursors.flagship].id == cursors.flagshipID && id != cursors.flagshipID
      ensures Flagship(t) == cursors.flagship
      ensures Flagship(t[cursors.flagship := t[cursors.flagship].(id := id)]) == NoObject
    {
    }

    /** `target()`: the destination object, if its id still matches and it is in use. */
    function Target(t: seq<SpaceObject>): (r: int)
      reads this
      requires Handle(cursors.destinationObject, |t|)
      ensures r == NoObject || r == cursors.destinationObject
      ensures r != NoObject <==>
        var d := cursors.destinationObject;
        d != NoObject && t[d].id == cursors.destinationObjectID && t[d].active == InUse
    {
      var d := cursors.destinationObject;
      if d != NoObject && t[d].id == cursors.destinationObjectID && t[d].active == InUse then d
      else NoObject
    }

    /** `set_target`: the handle, the id of the object it names, and "has a destination". */
    method SetTarget(obj: int, objects: array<SpaceObject>)
      requires Handle(obj, objects.Length)
      modifies this
      ensures cursors == old(cursors).(destinationObject := obj, hasDestination := true,
                                       destinationObjectID := if obj == NoObject then -1 else objects[obj].id)
      ensures Target(objects[..]) == if obj != NoObject && objects[obj].active == InUse then obj else NoObject
      ensures OnlyCursors()
    {
      var id := if obj != NoObject then objects[obj].id else -1;
      cursors := cursors.(destinationObject := obj, destinationObjectID := id, hasDestination := true);
    }

    /** `control()`: the object under consideration, if its id matches, it is in use and it is ours. */
    function Control(t: seq<SpaceObject>): (r: int)
      reads this
      requires Handle(cursors.considerShip, |t|)
      ensures r == NoObject || r == cursors.considerShip
      ensures r != NoObject <==>
        var c := cursors.considerShip;
        c != NoObject && t[c].id == cursors.considerShipID && t[c].active == InUse && t[c].owner == number
    {
      var c := cursors.considerShip;
      if c != NoObject && t[c].id == cursors.considerShipID && t[c].active == InUse && t[c].owner == number
      then c else NoObject
    }

    /**
     * `set_control`: the object under consideration and its id; a destination object
     * that accepts builds and has something to build also becomes the build site.
     */
    method SetControl(obj: int, objects: array<SpaceObject>, dests: array<Destination>)
      requires Handle(obj, objects.Length) && TableShaped(dests)
      requires obj != NoObject ==> Handle(objects[obj].asDestination, dests.Length)
      modifies this
      ensures var d := if obj == NoObject then NoObject else objects[obj].asDestination;
        cursors == old(cursors).(
          considerShip := obj,
          considerShipID := if obj == NoObject then -1 else objects[obj].id,
          buildAtObject := if obj != NoObject && objects[obj].traits.canAcceptBuild && d != NoObject && Buildable(dests[d])
                           then d else old(cursors.buildAtObject))
      ensures obj != NoObject && objects[obj].owner == number && objects[obj].active == InUse ==>
        Control(objects[..]) == obj
      ensures OnlyCursors()
    {
      if obj != NoObject {
        cursors := cursors.(considerShip := obj, considerShipID := objects[obj].id);
        if objects[obj].traits.canAcceptBuild {
          var d := objects[obj].asDestination;
          if d != NoObject {
            var b := CanBuild(dests[d]);
            if b {
              cursors := cursors.(buildAtObject := d);
            }
          }
        }
      } else {
        cursors := cursors.(considerShip := obj, considerShipID := -1);
      }
    }

    /**
     * `Admiral::build`: builds class entry `j` of the build site. It refuses, changing
     * nothing, when `j` is out of range, there is no site, the site is still building,
     * the class has no base object for this race or the price is more than the whole
     * part of the cash. Otherwise it pays the price and queues the base object, for its
     * build time or 9 ticks under the fast-build cheat.
     */
    method Build(j: int, dests: array<Destination>, lookup: (int, int) -> Option<BaseInfo>)
      returns (built: bool)
      requires TableShaped(dests) && Handle(cursors.buildAtObject, dests.Length)
      modifies this, dests
      ensures TableShaped(dests)
      ensures built <==> BuildAllowed(j, old(dests[..]), lookup, old(purse.cash))
      ensures !built ==> purse == old(purse) && dests[..] == old(dests[..])
      ensures built ==>
        var dest := cursors.buildAtObject;
        var b := lookup(old(dests[dest].canBuildType[j]), identity.race).value;
        var time := if identity.buildFast then CheatBuildTime else b.buildTime;
        && purse == old(purse).(cash := old(purse.cash) - LongToFixed(b.price))
        && dests[..] == old(dests[..])[dest := old(dests[dest]).(buildTime := time, totalBuildTime := time,
                                                                  buildObjectBaseNum := b.number)]
      ensures built ==> purse.cash >= 0
      ensures OnlyPurse()
    {
      var dest := cursors.buildAtObject;
      if 0 <= j < MaxTypeBaseCanBuild && dest != NoObject && dests[dest].buildTime <= 0 {
        var base := lookup(dests[dest].canBuildType[j], identity.race);
        if base.Some? && base.value.price <= FixedToLong(purse.cash) {
          WholeCompare(base.value.price, purse.cash);
          purse := purse.(cash := purse.cash - LongToFixed(base.value.price));
          var time := if identity.buildFast then CheatBuildTime else base.value.buildTime;
          dests[dest] := dests[dest].(buildTime := time, totalBuildTime := time,
                                      buildObjectBaseNum := base.value.number);
          return true;
        }
      }
      return false;
    }

    /** The first part of `RecalcAllAdmiralBuildData`: every entry free, no chances, no hope. */
    method ClearBuildData()
      requires |table.entries| == MaxNumAdmiralCanBuild
      modifies this
      ensures TableHolds(table, entered) && entered == Entered(0, {}, [])
      ensures table.totalBuildChance == 0
      ensures purse == old(purse).(hopeToBuild := -1)
      ensures identity == old(identity) && cursors == old(cursors) && score == old(score)
    {
      var entries := table.entries;
      for j := 0 to MaxNumAdmiralCanBuild
        invariant |entries| == MaxNumAdmiralCanBuild
        invariant forall k :: 0 <= k < j ==> entries[k] == NoEntry
      {
        entries := entries[j := NoEntry];
      }
      table := BuildTable(entries, 0);
      entered := Entered(0, {}, []);
      purse := purse.(hopeToBuild := -1);
    }

    /** The scan for class `c` among the entries, bound checked first. */
    method FindBuildType(c: int) returns (j: int)
      requires TableHolds(table, entered) && c >= 0
      ensures 0 <= j <= MaxNumAdmiralCanBuild
      ensures j < MaxNumAdmiralCanBuild <==> c in entered.types
      ensures j < MaxNumAdmiralCanBuild ==> table.entries[j].baseNum == c
    {
      j := 0;
      while j < MaxNumAdmiralCanBuild && table.entries[j].baseNum != c
        invariant 0 <= j <= MaxNumAdmiralCanBuild
        invariant forall k :: 0 <= k < j ==> table.entries[k].baseNum != c
      {
        j := j + 1;
      }
      TypesInMember(table.entries, entered.count, c);
    }

    /** The scan for the first free entry, bound checked first: the one after the last in use. */
    method FindFreeEntry() returns (j: int)
      requires TableHolds(table, entered)
      ensures j == entered.count
    {
      j := 0;
      while j < MaxNumAdmiralCanBuild && table.entries[j].baseNum != -1
        invariant 0 <= j <= entered.count
        invariant forall k :: 0 <= k < j ==> table.entries[k].baseNum != -1
      {
        j := j + 1;
      }
    }

    /**
     * The body of `RecalcAllAdmiralBuildData` for one class `c` a destination of this
     * admiral offers: a class already in the table is skipped; a new one takes the
     * first free entry, with the running total as its `chanceRange`, and adds its base
     * object's build ratio to the total. The source raises "Too Many Types to Build!"
     * when no entry is free; the precondition rules that case out, and
     * `RecalcAllAdmiralBuildData` shows it always holds.
     */
    method AddBuildType(c: int, base: Option<BaseInfo>)
      requires TableHolds(table, entered) && c >= 0
      requires c !in entered.types ==> entered.count < MaxNumAdmiralCanBuild
      modifies this
      ensures TableHolds(table, entered) && entered.types == old(entered.types) + {c}
      ensures c in old(entered.types) ==> table == old(table) && entered == old(entered)
      ensures c !in old(entered.types) ==>
        table == WithEntry(old(table), old(entered.count), c, base) && entered == WithType(old(entered), c, base)
      ensures identity == old(identity) && purse == old(purse) && cursors == old(cursors) && score == old(score)
    {
      var j := FindBuildType(c);
      if j == MaxNumAdmiralCanBuild {
        j := FindFreeEntry();
        var t := table;
        ghost var e := entered;
        EntryAdded(t, e, c, base);
        table := WithEntry(t, j, c, base);
        entered := WithType(e, c, base);
      }
    }

    /** The classes of one destination this admiral owns, entered one by one. */
    method EnterClasses(classes: seq<int>, lookup: (int, int) -> Option<BaseInfo>)
      requires TableHolds(table, entered) && |classes| == MaxTypeBaseCanBuild
      requires entered.count + MaxTypeBaseCanBuild <= MaxNumAdmiralCanBuild
      modifies this
      ensures TableHolds(table, entered) && entered.types == old(entered.types) + ClassesUpTo(classes, |classes|)
      ensures entered.count <= old(entered.count) + MaxTypeBaseCanBuild
      ensures identity == old(identity) && purse == old(purse) && cursors == old(cursors) && score == old(score)
    {
      for k := 0 to MaxTypeBaseCanBuild
        invariant TableHolds(table, entered)
        invariant entered.types == old(entered.types) + ClassesUpTo(classes, k)
        invariant entered.count <= old(entered.count) + k
        invariant identity == old(identity) && purse == old(purse) && cursors == old(cursors) && score == old(score)
      {
        var c := classes[k];
        if c >= 0 {
          AddBuildType(c, lookup(c, identity.race));
        }
      }
    }

    /** Every object of this admiral forgets its current target. */
    method ResetTargets(objects: array<SpaceObject>)
      modifies objects
      ensures forall i :: 0 <= i < objects.Length ==> objects[i] == Untargeted(old(objects[i]), number)
    {
      for i := 0 to objects.Length
        invariant forall k :: 0 <= k < i ==> objects[k] == Untargeted(old(objects[k]), number)
        invariant forall k :: i <= k < objects.Length ==> objects[k] == old(objects[k])
      {
        if objects[i].owner == number {
          objects[i] := objects[i].(currentTargetValue := 0);
        }
      }
    }

    /**
     * The blitzkrieg step of `think`: the posture counts towards zero and, when it gets
     * there, restarts with the other sign at a drawn magnitude, every object of this
     * admiral dropping its current target.
     */
    method Blitzkrieg(draw: int, objects: array<SpaceObject>)
      requires 0 <= draw < BlitzkriegBase
      modifies this, objects
      ensures purse == old(purse).(blitzkrieg := NextPosture(old(purse.blitzkrieg), draw))
      ensures OnlyPurse()
      ensures forall i :: 0 <= i < objects.Length ==>
        objects[i] == if Flips(old(purse.blitzkrieg)) then Untargeted(old(objects[i]), number) else old(objects[i])
    {
      var b := purse.blitzkrieg;
      if b > 0 {
        b := b - 1;
        if b <= 0 {
          b := 0 - (draw + BlitzkriegBase);
          ResetTargets(objects);
        }
      } else {
        b := b + 1;
        if b >= 0 {
          b := draw + BlitzkriegBase;
          ResetTargets(objects);
        }
      }
      purse := purse.(blitzkrieg := b);
    }

    /**
     * The search of `think` for a place to build: starting after the current build slot
     * (slot 0 when there is none), the slots are tried in turn, wrapping around, and the
     * cursor stops at the first one this admiral owns that accepts builds. When there is
     * none the cursor ends where it started.
     */
    method FindBuildSite(dests: array<Destination>, objects: array<SpaceObject>)
      returns (site: int, ghost steps: int)
      requires dests.Length == MaxDestObject && Handle(cursors.buildAtObject, MaxDestObject)
      modifies this
      ensures OnlyCursors() && cursors == old(cursors).(buildAtObject := cursors.buildAtObject)
      ensures var start := if old(cursors.buildAtObject) == NoObject then 0 else old(cursors.buildAtObject);
        && 1 <= steps <= MaxDestObject && cursors.buildAtObject == Slot(start, steps)
        && forall k :: 1 <= k < steps ==> !BuildSite(dests[..], objects[..], Slot(start, k), number)
      ensures site != NoObject ==>
        BuildSite(dests[..], objects[..], cursors.buildAtObject, number) && site == dests[cursors.buildAtObject].whichObject
      ensures site == NoObject <==> forall d :: 0 <= d < MaxDestObject ==> !BuildSite(dests[..], objects[..], d, number)
    {
      ghost var ds, ts := dests[..], objects[..];
      if cursors.buildAtObject == NoObject {
        cursors := cursors.(buildAtObject := 0);
      }
      ghost var start := cursors.buildAtObject;
      var begin := cursors.buildAtObject + 1;
      site := NoObject;
      steps := MaxDestObject;
      for i := begin to begin + MaxDestObject
        invariant forall k :: 1 <= k <= i - begin ==> !BuildSite(ds, ts, Slot(start, k), number)
        invariant cursors.buildAtObject == Slot(start, i - begin)
        invariant OnlyCursors() && cursors == old(cursors).(buildAtObject := cursors.buildAtObject)
      {
        var d := i % MaxDestObject;
        assert d == Slot(start, i - begin + 1);
        cursors := cursors.(buildAtObject := d);
        var w := dests[d].whichObject;
        if 0 <= w < objects.Length && objects[w].owner == number && objects[w].traits.canAcceptBuild {
          site := w;
          steps := i - begin + 1;
          assert BuildSite(ds, ts, d, number);
          return;
        }
      }
      forall d | 0 <= d < MaxDestObject
        ensures !BuildSite(ds, ts, d, number)
      {
        var k := if d > start then d - start else d - start + MaxDestObject;
        assert Slot(start, k) == d;
      }
    }

    /**
     * One draw from the build table: the entry holding the largest chance range not
     * above `r`, the first of them on a tie, or -1 when none qualifies.
     */
    method PickEntry(r: int) returns (i: int)
      requires |table.entries| == MaxNumAdmiralCanBuild
      ensures i == BestIndex(table.entries, r, MaxNumAdmiralCanBuild)
    {
      i := -1;
      var friendValue := -1;
      for j := 0 to MaxNumAdmiralCanBuild
        invariant i == BestIndex(table.entries, r, j)
        invariant i >= 0 ==> 0 <= table.entries[i].chanceRange
        invariant friendValue == if i == -1 then -1 else table.entries[i].chanceRange
      {
        if table.entries[j].chanceRange <= r && table.entries[j].chanceRange > friendValue {
          friendValue := table.entries[j].chanceRange;
          i := j;
        }
      }
    }

    /** The escort check: some active object of this admiral made from `b` is short of escorts. */
    method HasShortEscort(objects: array<SpaceObject>, b: BaseInfo) returns (r: bool)
      ensures r == ShortOfEscorts(objects[..], number, b)
    {
      for i := 0 to objects.Length
        invariant forall k :: 0 <= k < i ==> !Escorted(objects[k], number, b)
      {
        if Escorted(objects[i], number, b) {
          return true;
        }
      }
      return false;
    }

    /** The foe check: some active object of another admiral carries `b`'s order key tag. */
    method HasMatchingFoe(objects: array<SpaceObject>, b: BaseInfo) returns (found: bool)
      ensures found == FoeExists(objects[..], number, b)
    {
      found := false;
      for i := 0 to objects.Length
        invariant found <==> exists k :: 0 <= k < i && MatchingFoe(objects[k], number, b)
      {
        if MatchingFoe(objects[i], number, b) {
          found := true;
        }
      }
    }

    /**
     * The draws of `think`: while there is no hope to build and fewer than seven draws
     * were made, draw an entry and give it up again when its base object is short of
     * escorts or lacks a matching foe.
     */
    method DrawBuild(draws: seq<int>, objects: array<SpaceObject>, lookup: (int, int) -> Option<BaseInfo>)
      requires |table.entries| == MaxNumAdmiralCanBuild && |draws| == BuildAttempts
      requires forall k :: 0 <= k < |draws| ==> ValidDraw(draws[k], table.totalBuildChance)
      modifies this
      ensures OnlyPurse()
      ensures purse == old(purse).(hopeToBuild :=
        Drawn(table, draws, old(purse.hopeToBuild), objects[..], number, identity.race, lookup))
    {
      var k := 0;
      while purse.hopeToBuild < 0 && k < BuildAttempts
        invariant 0 <= k <= BuildAttempts
        invariant purse == old(purse).(hopeToBuild := purse.hopeToBuild) && OnlyPurse()
        invariant Drawn(table, draws[k..], purse.hopeToBuild, objects[..], number, identity.race, lookup)
               == Drawn(table, draws, old(purse.hopeToBuild), objects[..], number, identity.race, lookup)
        decreases BuildAttempts - k
      {
        assert draws[k..][1..] == draws[k + 1..];
        var i := PickEntry(draws[k]);
        k := k + 1;
        var hope := if i >= 0 then table.entries[i].baseNum else purse.hopeToBuild;
        if hope >= 0 {
          var base := lookup(hope, identity.race);
          if base.Some? {
            if base.value.sufficientEscortsExist {
              var short := HasShortEscort(objects, base.value);
              if short {
                hope := -1;
              }
            }
            if base.value.matchingFoeExists {
              var found := HasMatchingFoe(objects, base.value);
              if !found {
                hope := -1;
              }
            }
          }
        }
        purse := purse.(hopeToBuild := hope);
      }
    }

    /**
     * The build step of `think`, taken only when the cash exceeds the savings goal: the
     * goal is dropped and a build site is looked for; at an idle one `BuildAtSite`
     * decides what to buy or save for.
     */
    method ChooseBuild(draws: seq<int>, dests: array<Destination>, objects: array<SpaceObject>,
                       lookup: (int, int) -> Option<BaseInfo>) returns (ghost bought: bool, ghost steps: int)
      requires Valid() && TableShaped(dests) && Sited(dests[..], objects[..])
      requires Handle(cursors.buildAtObject, MaxDestObject)
      requires |draws| == BuildAttempts && forall k :: 0 <= k < |draws| ==> ValidDraw(draws[k], table.totalBuildChance)
      modifies this, dests
      ensures Valid() && TableShaped(dests) && Handle(cursors.buildAtObject, MaxDestObject)
      ensures identity == old(identity) && table == old(table) && entered == old(entered) && score == old(score)
      ensures cursors == old(cursors).(buildAtObject := cursors.buildAtObject)
      ensures purse.blitzkrieg == old(purse.blitzkrieg)
      ensures old(purse.cash) <= old(purse.saveGoal) ==>
        !bought && purse == old(purse) && cursors == old(cursors)
      ensures var d := cursors.buildAtObject;
        if d == NoObject then dests[..] == old(dests[..])
        else dests[..] == old(dests[..])[d := dests[d]] && dests[d].whichObject == old(dests[d].whichObject)
      ensures forall i :: 0 <= i < dests.Length ==> dests[i].whichObject == old(dests[i].whichObject)
      ensures !bought ==> purse.cash == old(purse.cash) && dests[..] == old(dests[..])
      ensures bought ==>
        var d := cursors.buildAtObject;
        && BuildSite(old(dests[..]), objects[..], d, number) && old(dests[d]).buildTime <= 0
        && purse.hopeToBuild == -1 && purse.saveGoal == 0 && purse.cash >= 0 && dests[d].buildObjectBaseNum >= 0
      ensures old(purse.cash) > old(purse.saveGoal) && purse.saveGoal != 0 ==>
        && purse.hopeToBuild != NoShip && lookup(purse.hopeToBuild, identity.race).Some?
        && purse.saveGoal == LongToFixed(lookup(purse.hopeToBuild, identity.race).value.price)
        && purse.cash < purse.saveGoal
      ensures purse.hopeToBuild >= 0 && purse.hopeToBuild != old(purse.hopeToBuild) ==>
        purse.hopeToBuild in entered.types
      ensures old(purse.cash) > old(purse.saveGoal) ==>
        var start := if old(cursors.buildAtObject) == NoObject then 0 else old(cursors.buildAtObject);
        var d := cursors.buildAtObject;
        && 1 <= steps <= MaxDestObject && d == Slot(start, steps)
        && (forall k :: 1 <= k < steps ==> !BuildSite(old(dests[..]), objects[..], Slot(start, k), number))
        && (BuildSite(old(dests[..]), objects[..], d, number) <==>
              exists e :: 0 <= e < MaxDestObject && BuildSite(old(dests[..]), objects[..], e, number))
        && if BuildSite(old(dests[..]), objects[..], d, number) && old(dests[d]).buildTime <= 0
           then (purse, dests[..]) == BuildStep(d, draws, old(purse).(saveGoal := 0), old(dests[..]), objects[..], lookup)
           else purse == old(purse).(saveGoal := 0) && dests[..] == old(dests[..])
    {
      bought, steps := false, 0;
      if purse.cash <= purse.saveGoal {
        return;
      }
      purse := purse.(saveGoal := 0);
      var site;
      site, steps := FindBuildSite(dests, objects);
      if site == NoObject {
        return;
      }
      var d := objects[site].asDestination;
      if dests[d].buildTime > 0 {
        return;
      }
      bought := BuildAtSite(d, draws, dests, objects, lookup);
    }

    /**
     * The build step of `think` at an idle site `d`: without a hope the admiral draws
     * one; a hope that the site offers is bought when the cash covers its price, which
     * clears the hope, and otherwise its price becomes the savings goal.
     */
    method BuildAtSite(d: int, draws: seq<int>, dests: array<Destination>, objects: array<SpaceObject>,
                       lookup: (int, int) -> Option<BaseInfo>) returns (ghost bought: bool)
      requires Valid() && TableShaped(dests) && purse.saveGoal == 0
      requires d == cursors.buildAtObject && BuildSite(dests[..], objects[..], d, number) && dests[d].buildTime <= 0
      requires |draws| == BuildAttempts && forall k :: 0 <= k < |draws| ==> ValidDraw(draws[k], table.totalBuildChance)
      modifies this, dests
      ensures Valid() && TableShaped(dests)
      ensures identity == old(identity) && table == old(table) && entered == old(entered) && score == old(score)
      ensures cursors == old(cursors) && purse.blitzkrieg == old(purse.blitzkrieg)
      ensures dests[..] == old(dests[..])[d := dests[d]] && dests[d].whichObject == old(dests[d].whichObject)
      ensures !bought ==> purse.cash == old(purse.cash) && dests[..] == old(dests[..])
      ensures bought ==>
        purse.hopeToBuild == -1 && purse.saveGoal == 0 && purse.cash >= 0 && dests[d].buildObjectBaseNum >= 0
      ensures purse.saveGoal != 0 ==>
        && purse.hopeToBuild != NoShip && lookup(purse.hopeToBuild, identity.race).Some?
        && purse.saveGoal == LongToFixed(lookup(purse.hopeToBuild, identity.race).value.price)
        && purse.cash < purse.saveGoal
      ensures purse.hopeToBuild >= 0 && purse.hopeToBuild != old(purse.hopeToBuild) ==>
        purse.hopeToBuild in entered.types
      ensures (purse, dests[..]) == BuildStep(d, draws, old(purse), old(dests[..]), objects[..], lookup)
      ensures bought <==> BuildStepBuys(d, draws, old(purse), old(dests[..]), objects[..], lookup)
    {
      bought := false;
      if purse.hopeToBuild < 0 {
        DrawBuild(draws, objects, lookup);
        DrawnFromTable(table, entered, draws, old(purse.hopeToBuild), objects[..], number, identity.race, lookup);
      }
      var hope := purse.hopeToBuild;
      var j := ClassSlot(dests[d], hope);
      if j < MaxTypeBaseCanBuild && hope != NoShip {
        var base := lookup(hope, identity.race);
        if base.Some? {
          if purse.cash >= LongToFixed(base.value.price) {
            WholeCompare(base.value.price, purse.cash);
            bought := Build(j, dests, lookup);
            purse := purse.(hopeToBuild := -1, saveGoal := 0);
          } else {
            purse := purse.(saveGoal := LongToFixed(base.value.price));
          }
        }
      }
    }

    /**
     * `think` for one admiral. Only a computer player on this machine thinks: its
     * blitzkrieg posture moves on one step, then it considers building.
     */
    method Think(blitzDraw: int, buildDraws: seq<int>, dests: array<Destination>, objects: array<SpaceObject>,
                 lookup: (int, int) -> Option<BaseInfo>)
      requires Valid() && TableShaped(dests) && Sited(dests[..], objects[..])
      requires Handle(cursors.buildAtObject, MaxDestObject) && 0 <= blitzDraw < BlitzkriegBase
      requires |buildDraws| == BuildAttempts
      requires forall k :: 0 <= k < |buildDraws| ==> ValidDraw(buildDraws[k], table.totalBuildChance)
      modifies this, dests, objects
      ensures !identity.isComputer || identity.isRemote ==>
        unchanged(this) && dests[..] == old(dests[..]) && objects[..] == old(objects[..])
      ensures identity.isComputer && !identity.isRemote ==>
        purse.blitzkrieg == NextPosture(old(purse.blitzkrieg), blitzDraw)
      ensures Valid() && TableShaped(dests) && Sited(dests[..], objects[..])
      ensures Handle(cursors.buildAtObject, MaxDestObject)
      ensures identity == old(identity) && table == old(table) && entered == old(entered) && score == old(score)
      ensures identity.isComputer && !identity.isRemote ==>
        var p := old(purse).(blitzkrieg := purse.blitzkrieg);
        var d := cursors.buildAtObject;
        && (old(purse.cash) <= old(purse.saveGoal) ==>
              purse == p && dests[..] == old(dests[..]) && cursors == old(cursors))
        && (old(purse.cash) > old(purse.saveGoal) ==>
              && (BuildSite(old(dests[..]), objects[..], d, number) <==>
                    exists e :: 0 <= e < MaxDestObject && BuildSite(old(dests[..]), objects[..], e, number))
              && if BuildSite(old(dests[..]), objects[..], d, number) && old(dests[d]).buildTime <= 0
                 then (purse, dests[..]) == BuildStep(d, buildDraws, p.(saveGoal := 0), old(dests[..]), objects[..], lookup)
                 else purse == p.(saveGoal := 0) && dests[..] == old(dests[..]))
    {
      if !identity.isComputer || identity.isRemote {
        return;
      }
      ghost var before := objects[..];
      Blitzkrieg(blitzDraw, objects);
      UntargetedKeepsSites(dests[..], before, objects[..], number, Flips(old(purse.blitzkrieg)));
      ghost var sites := dests[..];
      var _, _ := ChooseBuild(buildDraws, dests, objects, lookup);
      SitesKept(sites, dests[..], objects[..]);
    }

    /**
     * The class the build step at site `d` works toward: the current hope, or when
     * there is none the outcome of up to seven draws, and whether the site offers it
     * with a base object for this admiral's race.
     */
    ghost function StepHope(draws: seq<int>, p: Purse, t: seq<SpaceObject>,
                            lookup: (int, int) -> Option<BaseInfo>): int
      reads this
      requires |table.entries| == MaxNumAdmiralCanBuild
    {
      Drawn(table, draws, p.hopeToBuild, t, number, identity.race, lookup)
    }

    ghost predicate Offered(h: int, site: Destination, lookup: (int, int) -> Option<BaseInfo>)
      reads this
    {
      h != NoShip && h in site.canBuildType && lookup(h, identity.race).Some?
    }

    /** The build step at `d` buys: the class is offered and the cash covers its whole price. */
    ghost predicate BuildStepBuys(d: int, draws: seq<int>, p: Purse, ds: seq<Destination>, t: seq<SpaceObject>,
                                  lookup: (int, int) -> Option<BaseInfo>)
      reads this
      requires |table.entries| == MaxNumAdmiralCanBuild && 0 <= d < |ds|
    {
      var h := StepHope(draws, p, t, lookup);
      Offered(h, ds[d], lookup) && p.cash >= LongToFixed(lookup(h, identity.race).value.price)
    }

    /**
     * The purse and destination table after the build step at the idle site `d`. A
     * class the site offers is bought when the cash covers its price: the price is
     * paid, the site starts building it, and hope and goal are cleared. When the cash
     * falls short the price becomes the savings goal and the hope is kept. A class the
     * site does not offer is kept as the hope and nothing else changes.
     */
    ghost function BuildStep(d: int, draws: seq<int>, p: Purse, ds: seq<Destination>, t: seq<SpaceObject>,
                             lookup: (int, int) -> Option<BaseInfo>): (Purse, seq<Destination>)
      reads this
      requires |table.entries| == MaxNumAdmiralCanBuild && 0 <= d < |ds|
    {
      var h := StepHope(draws, p, t, lookup);
      if !Offered(h, ds[d], lookup) then (p.(hopeToBuild := h), ds)
      else
        var b := lookup(h, identity.race).value;
        if BuildStepBuys(d, draws, p, ds, t, lookup) then
          var time := if identity.buildFast then CheatBuildTime else b.buildTime;
          (p.(cash := p.cash - LongToFixed(b.price), hopeToBuild := -1, saveGoal := 0),
           ds[d := ds[d].(buildTime := time, totalBuildTime := time, buildObjectBaseNum := b.number)])
        else (p.(hopeToBuild := h, saveGoal := LongToFixed(b.price)), ds)
    }

    /**
     * The build step never overdraws: cash that was not negative stays so, and a
     * savings goal it sets is more than the cash. It bought exactly when the class was
     * offered and the hope is gone.
     */
    lemma BuildStepSolvent(d: int, draws: seq<int>, p: Purse, ds: seq<Destination>, t: seq<SpaceObject>,
                           lookup: (int, int) -> Option<BaseInfo>)
      requires |table.entries| == MaxNumAdmiralCanBuild && 0 <= d < |ds| && p.cash >= 0 && p.saveGoal == 0
      ensures var q := BuildStep(d, draws, p, ds, t, lookup).0;
        q.cash >= 0 && (q.saveGoal != 0 ==> q.cash < q.saveGoal)
        && (BuildStepBuys(d, draws, p, ds, t, lookup) <==>
              Offered(StepHope(draws, p, t, lookup), ds[d], lookup) && q.hopeToBuild == -1)
    {
    }

    /**
     * Saving pays off: when the step at a site saves for a class, a later step at the
     * same site, keeping that hope, buys it as soon as the cash reaches the goal, paying
     * exactly the goal.
     */
    lemma SavedHopeIsBought(d: int, draws: seq<int>, p: Purse, ds: seq<Destination>, t: seq<SpaceObject>,
                            lookup: (int, int) -> Option<BaseInfo>, later: seq<int>, q: Purse,
                            t2: seq<SpaceObject>)
      requires |table.entries| == MaxNumAdmiralCanBuild && 0 <= d < |ds|
      requires StepHope(draws, p, t, lookup) >= 0
      requires Offered(StepHope(draws, p, t, lookup), ds[d], lookup) && !BuildStepBuys(d, draws, p, ds, t, lookup)
      requires var saved := BuildStep(d, draws, p, ds, t, lookup).0;
        q.hopeToBuild == saved.hopeToBuild && q.cash >= saved.saveGoal
      ensures BuildStepBuys(d, later, q, ds, t2, lookup)
      ensures BuildStep(d, later, q, ds, t2, lookup).0.cash == q.cash - BuildStep(d, draws, p, ds, t, lookup).0.saveGoal
    {
      assert StepHope(later, q, t2, lookup) == StepHope(draws, p, t, lookup);
    }

    /** The conditions under which `build(j)` goes ahead. */
    ghost predicate BuildAllowed(j: int, ds: seq<Destination>, lookup: (int, int) -> Option<BaseInfo>, cash: int)
      reads this
    {
      var dest := cursors.buildAtObject;
      && 0 <= j < MaxTypeBaseCanBuild && 0 <= dest < |ds| && j < |ds[dest].canBuildType|
      && ds[dest].buildTime <= 0
      && lookup(ds[dest].canBuildType[j], identity.race).Some?
      && lookup(ds[dest].canBuildType[j], identity.race).value.price <= FixedToLong(cash)
    }
  }

  /** The admiral table: one admiral per player, each at its own index. */
  predicate Roster(admirals: seq<Admiral>)
  {
    |admirals| == MaxPlayerNum && forall i :: 0 <= i < |admirals| ==> admirals[i].number == i
  }

  /** `Admiral::get`: an admiral index, or none outside the table. */
  function GetAdmiral(i: int): (r: int)
    ensures r == NoObject || r == i
    ensures 0 <= r < MaxPlayerNum <==> 0 <= i < MaxPlayerNum
  {
    if 0 <= i < MaxPlayerNum then i else NoObject
  }

  /**
   * `RemoveDestination`: every admiral lets go of slot `d`, then the slot is emptied;
   * no slot at all is a no-op.
   */
  method RemoveDestination(dests: array<Destination>, admirals: seq<Admiral>, d: int)
    requires Roster(admirals) && Handle(d, dests.Length)
    modifies dests, admirals
    ensures d == NoObject ==> dests[..] == old(dests[..])
    ensures d != NoObject ==> dests[..] == old(dests[..])[d := Empty]
    ensures forall x :: 0 <= x < |admirals| ==>
      admirals[x].cursors ==
        if d == NoObject then old(admirals[x].cursors)
        else Dropped(old(admirals[x].cursors), admirals[x].identity.active, d, old(dests[d].whichObject))
    ensures d != NoObject ==> forall x :: 0 <= x < |admirals| && admirals[x].identity.active ==>
      admirals[x].cursors.considerDestination != d && admirals[x].cursors.buildAtObject != d
    ensures forall x :: 0 <= x < |admirals| ==> admirals[x].OnlyCursors()
  {
    if d == NoObject {
      return;
    }
    var which := dests[d].whichObject;
    for i := 0 to |admirals|
      invariant dests[..] == old(dests[..])
      invariant forall x :: 0 <= x < i ==>
        admirals[x].cursors == Dropped(old(admirals[x].cursors), admirals[x].identity.active, d, which)
      invariant forall x :: i <= x < |admirals| ==> admirals[x].cursors == old(admirals[x].cursors)
      invariant forall x :: 0 <= x < |admirals| ==> admirals[x].OnlyCursors()
    {
      admirals[i].RemoveDestinationRefs(d, which);
    }
    forall x | 0 <= x < |admirals| && admirals[x].identity.active
      ensures admirals[x].cursors.considerDestination != d && admirals[x].cursors.buildAtObject != d
    {
      DroppedForgets(old(admirals[x].cursors), d, which);
    }
    dests[d] := Empty;
  }

  /** The owner of the object at destination slot `d`, or -1 when there is no slot or no object. */
  function SiteOwner(ds: seq<Destination>, t: seq<SpaceObject>, d: int): int
  {
    if 0 <= d < |ds| && 0 <= ds[d].whichObject < |t| then t[ds[d].whichObject].owner else NoObject
  }

  /**
   * `GetAdmiralBuildAtObject`: the admiral's build site, cleared first when its slot is
   * free or its object now belongs to someone else.
   */
  method GetAdmiralBuildAtObject(a: Admiral, dests: array<Destination>, objects: array<SpaceObject>)
    returns (r: int)
    requires Handle(a.cursors.buildAtObject, dests.Length)
    requires forall i :: 0 <= i < dests.Length ==> Handle(dests[i].whichObject, objects.Length)
    modifies a
    ensures r == a.cursors.buildAtObject
    ensures r == NoObject || r == old(a.cursors.buildAtObject)
    ensures r != NoObject <==> SiteOwner(dests[..], objects[..], old(a.cursors.buildAtObject)) == a.number
    ensures a.cursors == old(a.cursors).(buildAtObject := r)
    ensures a.OnlyCursors()
  {
    var b := a.cursors.buildAtObject;
    if b != NoObject {
      if dests[b].whichObject != NoObject {
        if objects[dests[b].whichObject].owner != a.number {
          a.cursors := a.cursors.(buildAtObject := NoObject);
        }
      } else {
        a.cursors := a.cursors.(buildAtObject := NoObject);
      }
    }
    return a.cursors.buildAtObject;
  }

  /**
   * `SetAdmiralBuildAtObject`: an object that accepts builds and whose destination has
   * something to build becomes the admiral's build site. Without an admiral it is an
   * error.
   */
  method SetAdmiralBuildAtObject(admirals: seq<Admiral>, a: int, obj: int,
                                 objects: array<SpaceObject>, dests: array<Destination>)
    returns (ok: bool)
    requires Roster(admirals) && Handle(a, |admirals|) && Handle(obj, objects.Length) && TableShaped(dests)
    requires obj != NoObject ==> Handle(objects[obj].asDestination, dests.Length)
    modifies admirals
    ensures ok <==> a != NoObject
    ensures forall x :: 0 <= x < |admirals| && x != a ==> admirals[x].cursors == old(admirals[x].cursors)
    ensures ok ==>
      var d := if obj == NoObject then NoObject else objects[obj].asDestination;
      admirals[a].cursors == old(admirals[a].cursors).(buildAtObject :=
        if obj != NoObject && objects[obj].traits.canAcceptBuild && d != NoObject && Buildable(dests[d])
        then d else old(admirals[a].cursors.buildAtObject))
    ensures forall x :: 0 <= x < |admirals| ==> admirals[x].OnlyCursors()
  {
    if a == NoObject {
      return false;
    }
    if obj != NoObject && objects[obj].traits.canAcceptBuild {
      var d := objects[obj].asDestination;
      if d != NoObject {
        var b := CanBuild(dests[d]);
        if b {
          admirals[a].cursors := admirals[a].cursors.(buildAtObject := d);
        }
      }
    }
    return true;
  }

  /** `GetAdmiralScore`: score `which` of admiral `a`, or 0 for no admiral or no such score. */
  function GetAdmiralScore(admirals: seq<Admiral>, a: int, which: int): (r: int)
    reads admirals
    requires Roster(admirals) && Handle(a, |admirals|)
    requires a != NoObject ==> |admirals[a].score| == AdmiralScoreNum
    ensures !(a != NoObject && 0 <= which < AdmiralScoreNum) ==> r == 0
  {
    if a != NoObject && 0 <= which < AdmiralScoreNum then admirals[a].score[which] else 0
  }

  /** `AlterAdmiralScore`: adds `amount` to score `which`; no admiral or no such score changes nothing. */
  method AlterAdmiralScore(admirals: seq<Admiral>, a: int, which: int, amount: int)
    requires Roster(admirals) && Handle(a, |admirals|)
    requires a != NoObject ==> |admirals[a].score| == AdmiralScoreNum
    modifies admirals
    ensures a != NoObject && 0 <= which < AdmiralScoreNum ==>
      admirals[a].score == old(admirals[a].score)[which := old(admirals[a].score[which]) + amount]
    ensures a != NoObject ==> |admirals[a].score| == AdmiralScoreNum
    ensures a != NoObject ==>
      GetAdmiralScore(admirals, a, which) == old(GetAdmiralScore(admirals, a, which)) +
        if 0 <= which < AdmiralScoreNum then amount else 0
    ensures forall x :: 0 <= x < |admirals| && (x != a || !(0 <= which < AdmiralScoreNum)) ==>
      admirals[x].score == old(admirals[x].score)
    ensures forall x :: 0 <= x < |admirals| ==>
      && admirals[x].identity == old(admirals[x].identity) && admirals[x].purse == old(admirals[x].purse)
      && admirals[x].cursors == old(admirals[x].cursors) && admirals[x].table == old(admirals[x].table)
      && admirals[x].entered == old(admirals[x].entered)
  {
    if a != NoObject && 0 <= which < AdmiralScoreNum {
      admirals[a].score := admirals[a].score[which := admirals[a].score[which] + amount];
    }
  }

  /** The ship classes among the first `k` a destination lists, without the empty entries. */
  function ClassesUpTo(s: seq<int>, k: nat): set<int>
    requires k <= |s|
  {
    if k == 0 then {} else ClassesUpTo(s, k - 1) + (if s[k - 1] >= 0 then {s[k - 1]} else {})
  }

  /** What destination `d` offers to admiral `x`: its classes when `x` owns its object. */
  function Offered(d: Destination, t: seq<SpaceObject>, x: int): set<int>
  {
    if 0 <= d.whichObject < |t| && t[d.whichObject].owner == x
    then ClassesUpTo(d.canBuildType, |d.canBuildType|) else {}
  }

  /** The classes admiral `x` can build: everything the first `n` destinations it owns offer. */
  function Wanted(ds: seq<Destination>, t: seq<SpaceObject>, x: int, n: nat): set<int>
    requires n <= |ds|
  {
    if n == 0 then {} else Wanted(ds, t, x, n - 1) + Offered(ds[n - 1], t, x)
  }

  /** Every destination's object handle is valid, so is that object's owner, and the object knows its slot. */
  ghost predicate Sited(ds: seq<Destination>, t: seq<SpaceObject>)
  {
    forall i :: 0 <= i < |ds| ==>
      && Handle(ds[i].whichObject, |t|)
      && (ds[i].whichObject >= 0 ==>
            Handle(t[ds[i].whichObject].owner, MaxPlayerNum) && t[ds[i].whichObject].asDestination == i)
  }

  /** The first half of `RecalcAllAdmiralBuildData`: every admiral's table cleared. */
  method ClearAllBuildData(admirals: seq<Admiral>)
    requires Roster(admirals)
    requires forall x :: 0 <= x < |admirals| ==> |admirals[x].table.entries| == MaxNumAdmiralCanBuild
    modifies admirals
    ensures forall x :: 0 <= x < |admirals| ==>
      admirals[x].Rebuilt() && admirals[x].entered == Entered(0, {}, [])
  {
    for x := 0 to |admirals|
      invariant forall y :: 0 <= y < x ==>
        admirals[y].Rebuilt() && admirals[y].entered == Entered(0, {}, [])
      invariant forall y :: x <= y < |admirals| ==> unchanged(admirals[y])
    {
      admirals[x].ClearBuildData();
    }
  }

  /** The second half of `RecalcAllAdmiralBuildData` for destination `d`: its owner enters its classes. */
  method OfferClasses(d: Destination, objects: array<SpaceObject>, admirals: seq<Admiral>,
                      lookup: (int, int) -> Option<BaseInfo>, ghost i: nat)
    requires Roster(admirals) && Shaped(d) && i < MaxDestObject
    requires Handle(d.whichObject, objects.Length)
    requires d.whichObject >= 0 ==> Handle(objects[d.whichObject].owner, MaxPlayerNum)
    requires forall x :: 0 <= x < |admirals| ==>
      TableHolds(admirals[x].table, admirals[x].entered) && admirals[x].entered.count <= MaxTypeBaseCanBuild * i
    modifies admirals
    ensures forall x :: 0 <= x < |admirals| ==>
      && TableHolds(admirals[x].table, admirals[x].entered)
      && admirals[x].entered.count <= MaxTypeBaseCanBuild * (i + 1)
      && admirals[x].entered.types == old(admirals[x].entered.types) + Offered(d, objects[..], x)
      && admirals[x].identity == old(admirals[x].identity) && admirals[x].purse == old(admirals[x].purse)
      && admirals[x].cursors == old(admirals[x].cursors) && admirals[x].score == old(admirals[x].score)
  {
    var w := d.whichObject;
    var owner := if w >= 0 then objects[w].owner else NoObject;
    if owner >= 0 {
      admirals[owner].EnterClasses(d.canBuildType, lookup);
    }
  }

  /**
   * `RecalcAllAdmiralBuildData`: every admiral's table is cleared and then holds,
   * once each, exactly the classes the destinations it owns offer, with chances
   * accumulated in the order they were met. The table never overflows: ten
   * destinations of twelve classes fill at most all 120 entries, so the source's
   * "Too Many Types to Build!" is never raised.
   */
  method RecalcAllAdmiralBuildData(dests: array<Destination>, objects: array<SpaceObject>,
                                   admirals: seq<Admiral>, lookup: (int, int) -> Option<BaseInfo>)
    requires Roster(admirals) && TableShaped(dests) && Sited(dests[..], objects[..])
    requires forall x :: 0 <= x < |admirals| ==> |admirals[x].table.entries| == MaxNumAdmiralCanBuild
    modifies admirals
    ensures forall x :: 0 <= x < |admirals| ==> admirals[x].Rebuilt()
    ensures forall x :: 0 <= x < |admirals| ==>
      admirals[x].entered.types == Wanted(dests[..], objects[..], x, dests.Length)
  {
    ClearAllBuildData(admirals);
    for i := 0 to dests.Length
      invariant forall x :: 0 <= x < |admirals| ==>
        admirals[x].Rebuilt() && admirals[x].entered.types == Wanted(dests[..], objects[..], x, i)
      invariant forall x :: 0 <= x < |admirals| ==> admirals[x].entered.count <= MaxTypeBaseCanBuild * i
    {
      OfferClasses(dests[i], objects, admirals, lookup, i);
    }
  }

  /** `Destination` scan of `think` for the class hoped for, bound checked first. */
  method ClassSlot(d: Destination, c: int) returns (j: int)
    requires Shaped(d)
    ensures 0 <= j <= MaxTypeBaseCanBuild
    ensures j < MaxTypeBaseCanBuild ==> d.canBuildType[j] == c
    ensures forall k :: 0 <= k < j ==> d.canBuildType[k] != c
  {
    j := 0;
    while j < MaxTypeBaseCanBuild && d.canBuildType[j] != c
      invariant 0 <= j <= MaxTypeBaseCanBuild
      invariant forall k :: 0 <= k < j ==> d.canBuildType[k] != c
    {
      j := j + 1;
    }
  }

  /** The posture changes sign on this step: the counter has run out. */
  predicate Flips(b: int)
  {
    -1 <= b <= 1
  }

  /** The blitzkrieg posture after one think step; `draw` is what a restart draws. */
  function NextPosture(b: int, draw: int): int
  {
    if b > 0 then (if b - 1 <= 0 then 0 - (draw + BlitzkriegBase) else b - 1)
    else (if b + 1 >= 0 then draw + BlitzkriegBase else b + 1)
  }

  /** The posture after `n` think steps of an admiral whose restarts all draw `draw`. */
  function Posture(b: int, draw: int, n: nat): int
  {
    if n == 0 then b else NextPosture(Posture(b, draw, n - 1), draw)
  }

  /**
   * A posture of magnitude `m` lasts exactly `m` think steps: positive (offensive) or
   * negative it counts towards zero for `m - 1` steps, and the `m`-th step restarts it
   * with the other sign at a magnitude in [1200, 2400).
   */
  lemma {:induction false} PostureLasts(m: int, draw: int, k: nat)
    requires m >= 1 && 0 <= draw < BlitzkriegBase && k <= m
    ensures k < m ==> Posture(m, draw, k) == m - k && Posture(-m, draw, k) == -m + k
    ensures k == m ==> Posture(m, draw, k) == -(draw + BlitzkriegBase) && Posture(-m, draw, k) == draw + BlitzkriegBase
  {
    if k > 0 {
      PostureLasts(m, draw, k - 1);
    }
  }

  /** A step never leaves the posture at zero, and a restart flips its sign. */
  lemma PostureNeverZero(b: int, draw: int)
    requires 0 <= draw < BlitzkriegBase
    ensures NextPosture(b, draw) != 0
    ensures Flips(b) ==> BlitzkriegBase <= (if b > 0 then -NextPosture(b, draw) else NextPosture(b, draw)) < 2 * BlitzkriegBase
  {
  }

  /** An object of admiral `a` forgets its current target. */
  function Untargeted(o: SpaceObject, a: int): SpaceObject
  {
    if o.owner == a then o.(currentTargetValue := 0) else o
  }

  /** The slot `k` places after `start`, wrapping around. */
  function Slot(start: int, k: int): (d: int)
    requires 0 <= start < MaxDestObject && 0 <= k <= MaxDestObject
    ensures 0 <= d < MaxDestObject
    ensures d == if start + k < MaxDestObject then start + k else start + k - MaxDestObject
  {
    (start + k) % MaxDestObject
  }

  /** Slot `d` holds an object admiral `me` owns that accepts builds. */
  predicate BuildSite(ds: seq<Destination>, t: seq<SpaceObject>, d: int, me: int)
  {
    0 <= d < |ds| && 0 <= ds[d].whichObject < |t| && t[ds[d].whichObject].owner == me
    && t[ds[d].whichObject].traits.canAcceptBuild
  }

  /**
   * The entry a draw `r` picks among the first `n`: the first of those holding the
   * largest chance range not above `r`. Free entries, with range -1, never qualify;
   * -1 when no entry does.
   */
  function BestIndex(e: seq<BuildEntry>, r: int, n: nat): (i: int)
    requires n <= |e|
    ensures -1 <= i < n
  {
    if n == 0 then -1
    else
      var b := BestIndex(e, r, n - 1);
      if 0 <= e[n - 1].chanceRange <= r && (b == -1 || e[n - 1].chanceRange > e[b].chanceRange) then n - 1 else b
  }

  predicate Qualifies(x: BuildEntry, r: int)
  {
    0 <= x.chanceRange <= r
  }

  /** `BestIndex` is the first qualifying entry with the largest range, and -1 only when none qualifies. */
  lemma {:induction false} BestIndexIsFirstLargest(e: seq<BuildEntry>, r: int, n: nat)
    requires n <= |e|
    ensures var i := BestIndex(e, r, n);
      && (i == -1 <==> forall j :: 0 <= j < n ==> !Qualifies(e[j], r))
      && (i >= 0 ==> Qualifies(e[i], r))
      && (i >= 0 ==> forall j :: 0 <= j < n && Qualifies(e[j], r) ==>
            e[j].chanceRange <= e[i].chanceRange && (j < i ==> e[j].chanceRange < e[i].chanceRange))
  {
    if n > 0 {
      BestIndexIsFirstLargest(e, r, n - 1);
    }
  }

  lemma SumStep(s: seq<int>, k: nat)
    requires k < |s|
    ensures Sum(s[..k + 1]) == Sum(s[..k]) + s[k]
  {
    assert s[..k + 1][..k] == s[..k];
  }

  /**
   * With positive ratios, a draw `r` in [0, total) picks the entry whose slice
   * [chanceRange, chanceRange + ratio) holds `r`: each class takes its ratio's share
   * of the draws.
   */
  lemma WeightedPick(t: BuildTable, e: Entered, r: int)
    requires TableHolds(t, e) && forall k :: 0 <= k < e.count ==> e.ratios[k] > 0
    requires 0 <= r < t.totalBuildChance
    ensures var i := BestIndex(t.entries, r, MaxNumAdmiralCanBuild);
      0 <= i < e.count && t.entries[i].chanceRange <= r < t.entries[i].chanceRange + e.ratios[i]
  {
    BestIndexIsFirstLargest(t.entries, r, MaxNumAdmiralCanBuild);
    var i := BestIndex(t.entries, r, MaxNumAdmiralCanBuild);
    assert e.ratios[..0] == [];
    assert Qualifies(t.entries[0], r);
    assert i < e.count;
    SumStep(e.ratios, i);
    if i + 1 == e.count {
      assert e.ratios[..i + 1] == e.ratios;
    }
  }

  /** The object is active, belongs to `me`, was made from `b`, and is short of escorts. */
  predicate Escorted(o: SpaceObject, me: int, b: BaseInfo)
  {
    o.active != Available && o.owner == me && o.traits.base == b.number && o.strengths.escort < b.friendDefecit
  }

  /** The object is active, belongs to someone other than `me`, and carries `b`'s order key tag. */
  predicate MatchingFoe(o: SpaceObject, me: int, b: BaseInfo)
  {
    o.active != Available && o.owner != me && o.traits.levelKeyTag == b.orderKeyTag
  }

  predicate ShortOfEscorts(t: seq<SpaceObject>, me: int, b: BaseInfo)
  {
    exists i :: 0 <= i < |t| && Escorted(t[i], me, b)
  }

  predicate FoeExists(t: seq<SpaceObject>, me: int, b: BaseInfo)
  {
    exists i :: 0 <= i < |t| && MatchingFoe(t[i], me, b)
  }

  /** The base object's build flags turn the class down. */
  predicate Rejected(t: seq<SpaceObject>, me: int, b: BaseInfo)
  {
    (b.sufficientEscortsExist && ShortOfEscorts(t, me, b)) || (b.matchingFoeExists && !FoeExists(t, me, b))
  }

  /** The hope after one draw `r`: the class picked, or the old hope when none is, unless turned down. */
  function Attempt(tbl: BuildTable, r: int, hope: int, t: seq<SpaceObject>, me: int, race: int,
                   lookup: (int, int) -> Option<BaseInfo>): int
    requires |tbl.entries| == MaxNumAdmiralCanBuild
  {
    var i := BestIndex(tbl.entries, r, MaxNumAdmiralCanBuild);
    var h := if i >= 0 then tbl.entries[i].baseNum else hope;
    if h >= 0 && lookup(h, race).Some? && Rejected(t, me, lookup(h, race).value) then -1 else h
  }

  /** The hope after drawing with `rs` for as long as there is none. */
  function Drawn(tbl: BuildTable, rs: seq<int>, hope: int, t: seq<SpaceObject>, me: int, race: int,
                 lookup: (int, int) -> Option<BaseInfo>): int
    requires |tbl.entries| == MaxNumAdmiralCanBuild
    decreases |rs|
  {
    if hope >= 0 || rs == [] then hope
    else Drawn(tbl, rs[1..], Attempt(tbl, rs[0], hope, t, me, race, lookup), t, me, race, lookup)
  }

  /** A hope that the draws come up with is a class of the table that its flags do not turn down. */
  lemma {:induction false} DrawnFromTable(tbl: BuildTable, e: Entered, rs: seq<int>, hope: int, t: seq<SpaceObject>,
                                          me: int, race: int, lookup: (int, int) -> Option<BaseInfo>)
    requires TableHolds(tbl, e) && hope < 0
    ensures var h := Drawn(tbl, rs, hope, t, me, race, lookup);
      h < 0 || (h in e.types && !(lookup(h, race).Some? && Rejected(t, me, lookup(h, race).value)))
    decreases |rs|
  {
    if rs != [] {
      var a := Attempt(tbl, rs[0], hope, t, me, race, lookup);
      if a < 0 {
        DrawnFromTable(tbl, e, rs[1..], a, t, me, race, lookup);
      } else {
        var i := BestIndex(tbl.entries, rs[0], MaxNumAdmiralCanBuild);
        assert 0 <= i < e.count;
        TypesInMember(tbl.entries, e.count, a);
      }
    }
  }

  /** Clearing targets keeps every owner and destination link. */
  lemma UntargetedKeepsSites(ds: seq<Destination>, t: seq<SpaceObject>, t2: seq<SpaceObject>, a: int, cleared: bool)
    requires Sited(ds, t) && |t2| == |t|
    requires forall i :: 0 <= i < |t| ==> t2[i] == if cleared then Untargeted(t[i], a) else t[i]
    ensures Sited(ds, t2)
  {
    assert forall i :: 0 <= i < |t| ==> t2[i].owner == t[i].owner && t2[i].asDestination == t[i].asDestination;
  }

  /** Changing a destination's build counters keeps the links. */
  lemma SitesKept(ds: seq<Destination>, ds2: seq<Destination>, t: seq<SpaceObject>)
    requires Sited(ds, t) && |ds2| == |ds|
    requires forall i :: 0 <= i < |ds| ==> ds2[i].whichObject == ds[i].whichObject
    ensures Sited(ds2, t)
  {
  }

  /** A build due at slot `dest`: `AdmiralBuildAtObject` is asked to make `baseNum` for `admiral` there. */
  datatype Spawn = Spawn(admiral: int, baseNum: int, dest: int)

  /**
   * A destination after the countdown of `AdmiralThink`: ten ticks less build time, not
   * below zero, and the queued build gone once the time is up.
   */
  function CountedDown(d: Destination): (r: Destination)
    ensures r.buildTime == Max0(d.buildTime - BuildTimeStep)
    ensures r.buildObjectBaseNum >= 0 <==> d.buildObjectBaseNum >= 0 && d.buildTime > BuildTimeStep
    ensures r == d.(buildTime := r.buildTime, buildObjectBaseNum := r.buildObjectBaseNum)
  {
    var time := d.buildTime - BuildTimeStep;
    if time > 0 then d.(buildTime := time)
    else if d.buildObjectBaseNum >= 0 then d.(buildTime := 0, buildObjectBaseNum := NoObject)
    else d.(buildTime := 0)
  }

  /** The build the countdown of slot `i` hands over, if any. */
  function SpawnAt(ds: seq<Destination>, t: seq<SpaceObject>, i: int): seq<Spawn>
    requires 0 <= i < |ds|
  {
    if ds[i].buildTime - BuildTimeStep <= 0 && ds[i].buildObjectBaseNum >= 0
    then [Spawn(SiteOwner(ds, t, i), ds[i].buildObjectBaseNum, i)] else []
  }

  /** The builds the countdown of the first `n` slots hands over, in slot order. */
  function Spawns(ds: seq<Destination>, t: seq<SpaceObject>, n: nat): seq<Spawn>
    requires n <= |ds|
  {
    if n == 0 then [] else Spawns(ds, t, n - 1) + SpawnAt(ds, t, n - 1)
  }

  /** What admiral `x` earns from the first `n` slots, in slot order. */
  function Earnings(ds: seq<Destination>, t: seq<SpaceObject>, x: int, n: nat): seq<int>
    requires n <= |ds|
  {
    if n == 0 then [] else Earnings(ds, t, x, n - 1) + (if SiteOwner(ds, t, n - 1) == x then [ds[n - 1].earn] else [])
  }

  /** Cash after `pay` of each of `earns` in turn, at earning power `power`. */
  function Credited(cash: int, power: int, earns: seq<int>): int
  {
    if earns == [] then cash
    else Max0(Credited(cash, power, earns[..|earns| - 1]) + MulFixed(earns[|earns| - 1], power))
  }

  /** Every spawn comes from a queued build whose time runs out on this step, once per slot, so each slot spawns at most once. */
  lemma {:induction false} SpawnsAreDue(ds: seq<Destination>, t: seq<SpaceObject>, n: nat)
    requires n <= |ds|
    ensures |Spawns(ds, t, n)| <= n
    ensures forall k :: 0 <= k < |Spawns(ds, t, n)| ==>
      var sp := Spawns(ds, t, n)[k];
      && 0 <= sp.dest < n && sp.baseNum == ds[sp.dest].buildObjectBaseNum >= 0
      && ds[sp.dest].buildTime <= BuildTimeStep && CountedDown(ds[sp.dest]).buildObjectBaseNum == NoObject
    ensures forall k, l :: 0 <= k < l < |Spawns(ds, t, n)| ==> Spawns(ds, t, n)[k].dest < Spawns(ds, t, n)[l].dest
  {
    if n > 0 {
      SpawnsAreDue(ds, t, n - 1);
    }
  }

  /** Earnings never take cash below zero, and with non-negative income and power never reduce it. */
  lemma {:induction false} CreditedGrows(cash: int, power: int, earns: seq<int>)
    requires cash >= 0
    ensures Credited(cash, power, earns) >= 0
    ensures power >= 0 && (forall k :: 0 <= k < |earns| ==> earns[k] >= 0) ==> Credited(cash, power, earns) >= cash
  {
    if earns != [] {
      var front := earns[..|earns| - 1];
      CreditedGrows(cash, power, front);
      if power >= 0 && (forall k :: 0 <= k < |earns| ==> earns[k] >= 0) {
        assert forall k :: 0 <= k < |front| ==> front[k] == earns[k];
        MulNonNegative(earns[|earns| - 1], power);
      }
    }
  }

  lemma CreditedStep(cash: int, power: int, earns: seq<int>, e: int)
    ensures Credited(cash, power, earns + [e]) == Max0(Credited(cash, power, earns) + MulFixed(e, power))
  {
    assert (earns + [e])[..|earns|] == earns;
  }

  lemma EarningsStep(ds: seq<Destination>, t: seq<SpaceObject>, x: int, i: nat, cash: int, power: int)
    requires i < |ds|
    ensures Credited(cash, power, Earnings(ds, t, x, i + 1)) ==
      if SiteOwner(ds, t, i) == x then Max0(Credited(cash, power, Earnings(ds, t, x, i)) + MulFixed(ds[i].earn, power))
      else Credited(cash, power, Earnings(ds, t, x, i))
  {
    if SiteOwner(ds, t, i) == x {
      CreditedStep(cash, power, Earnings(ds, t, x, i), ds[i].earn);
    } else {
      assert Earnings(ds, t, x, i + 1) == Earnings(ds, t, x, i);
    }
  }

  /** The income of one slot: its owner, if any, is paid what it earns. */
  method PayOwner(admirals: seq<Admiral>, owner: int, earn: int)
    requires Roster(admirals) && Handle(owner, |admirals|)
    modifies admirals
    ensures forall x :: 0 <= x < |admirals| ==>
      && admirals[x].purse == old(admirals[x].purse).(cash :=
           if x == owner then Max0(old(admirals[x].purse.cash) + MulFixed(earn, admirals[x].identity.earningPower))
           else old(admirals[x].purse.cash))
      && admirals[x].OnlyPurse()
  {
    if owner >= 0 {
      admirals[owner].Pay(earn);
    }
  }

  /** The countdown of one slot; the build it hands over, if any. */
  method CountDown(dests: array<Destination>, objects: array<SpaceObject>, i: nat) returns (due: seq<Spawn>)
    requires i < dests.Length && Sited(dests[..], objects[..])
    modifies dests
    ensures dests[..] == old(dests[..])[i := CountedDown(old(dests[i]))]
    ensures due == SpawnAt(old(dests[..]), objects[..], i)
  {
    var d := dests[i];
    var w := d.whichObject;
    var owner := if w >= 0 then objects[w].owner else NoObject;
    var time := d.buildTime - BuildTimeStep;
    var queued := d.buildObjectBaseNum;
    due := [];
    if time <= 0 {
      time := 0;
      if queued >= 0 {
        due := [Spawn(owner, queued, i)];
        queued := NoObject;
      }
    }
    dests[i] := d.(buildTime := time, buildObjectBaseNum := queued);
  }

  /** The state of the admirals after the income of the first `i` slots. */
  ghost predicate PaidUpTo(admirals: seq<Admiral>, purses: seq<Purse>, powers: seq<int>,
                          ds: seq<Destination>, ts: seq<SpaceObject>, i: nat)
    requires |purses| == |powers| == |admirals| && i <= |ds|
    reads admirals
  {
    forall x :: 0 <= x < |admirals| ==>
      && admirals[x].purse == purses[x].(cash := Credited(purses[x].cash, powers[x], Earnings(ds, ts, x, i)))
      && admirals[x].identity.earningPower == powers[x]
  }

  /** One slot of `AdmiralThink`'s first half: its countdown, then its income. */
  method PassSlot(dests: array<Destination>, objects: array<SpaceObject>, admirals: seq<Admiral>, i: nat,
                  ghost ds: seq<Destination>, ghost purses: seq<Purse>, ghost powers: seq<int>)
    returns (due: seq<Spawn>)
    requires Roster(admirals) && i < dests.Length == |ds| && |purses| == |powers| == |admirals|
    requires Sited(ds, objects[..]) && dests[i] == ds[i]
    requires forall k :: 0 <= k < dests.Length ==> dests[k].whichObject == ds[k].whichObject
    requires PaidUpTo(admirals, purses, powers, ds, objects[..], i)
    modifies dests, admirals
    ensures dests[..] == old(dests[..])[i := CountedDown(ds[i])]
    ensures due == SpawnAt(ds, objects[..], i)
    ensures PaidUpTo(admirals, purses, powers, ds, objects[..], i + 1)
    ensures forall x :: 0 <= x < |admirals| ==> admirals[x].OnlyPurse()
  {
    var w := dests[i].whichObject;
    var owner := if w >= 0 then objects[w].owner else NoObject;
    var earn := dests[i].earn;
    SitesKept(ds, dests[..], objects[..]);
    due := CountDown(dests, objects, i);
    forall x | 0 <= x < |admirals|
      ensures Credited(purses[x].cash, powers[x], Earnings(ds, objects[..], x, i + 1)) ==
        if x == owner then Max0(Credited(purses[x].cash, powers[x], Earnings(ds, objects[..], x, i)) + MulFixed(earn, powers[x]))
        else Credited(purses[x].cash, powers[x], Earnings(ds, objects[..], x, i))
    {
      EarningsStep(ds, objects[..], x, i, purses[x].cash, powers[x]);
    }
    PayOwner(admirals, owner, earn);
  }

  /**
   * The first half of `AdmiralThink`: every slot counts down its build time, a build
   * whose time is up is handed over, and the owner of each slot's object is paid
   * what the slot earns.
   */
  method DestinationPass(dests: array<Destination>, objects: array<SpaceObject>, admirals: seq<Admiral>)
    returns (spawns: seq<Spawn>)
    requires Roster(admirals) && TableShaped(dests) && Sited(dests[..], objects[..])
    modifies dests, admirals
    ensures forall i :: 0 <= i < dests.Length ==> dests[i] == CountedDown(old(dests[i]))
    ensures spawns == Spawns(old(dests[..]), objects[..], dests.Length)
    ensures forall x :: 0 <= x < |admirals| ==>
      && admirals[x].purse == old(admirals[x].purse).(cash := Credited(old(admirals[x].purse.cash),
           admirals[x].identity.earningPower, Earnings(old(dests[..]), objects[..], x, dests.Length)))
      && admirals[x].OnlyPurse()
  {
    ghost var ds := dests[..];
    ghost var purses := seq(|admirals|, x requires 0 <= x < |admirals| reads admirals => admirals[x].purse);
    ghost var powers := seq(|admirals|, x requires 0 <= x < |admirals| reads admirals => admirals[x].identity.earningPower);
    spawns := [];
    for i := 0 to dests.Length
      invariant dests[..] == seq(dests.Length, k requires 0 <= k < dests.Length => if k < i then CountedDown(ds[k]) else ds[k])
      invariant spawns == Spawns(ds, objects[..], i)
      invariant PaidUpTo(admirals, purses, powers, ds, objects[..], i)
      invariant forall x :: 0 <= x < |admirals| ==> admirals[x].OnlyPurse()
    {
      var due := PassSlot(dests, objects, admirals, i, ds, purses, powers);
      spawns := spawns + due;
    }
  }

  /** The draws one admiral's `think` uses: the blitzkrieg restart and up to seven build draws. */
  datatype ThinkDraws = ThinkDraws(blitz: int, builds: seq<int>)

  /** The state every think step relies on and keeps. */
  ghost predicate Thinking(dests: array<Destination>, objects: array<SpaceObject>, admirals: seq<Admiral>)
    reads dests, objects, admirals
  {
    && Roster(admirals) && TableShaped(dests) && Sited(dests[..], objects[..])
    && forall x :: 0 <= x < |admirals| ==>
         admirals[x].Valid() && Handle(admirals[x].cursors.buildAtObject, MaxDestObject)
  }

  /** The second half of `AdmiralThink`: each admiral thinks in turn. */
  method ThinkAll(dests: array<Destination>, objects: array<SpaceObject>, admirals: seq<Admiral>,
                  draws: seq<ThinkDraws>, lookup: (int, int) -> Option<BaseInfo>)
    requires Thinking(dests, objects, admirals) && |draws| == |admirals|
    requires forall x :: 0 <= x < |admirals| ==>
      && 0 <= draws[x].blitz < BlitzkriegBase && |draws[x].builds| == BuildAttempts
      && forall k :: 0 <= k < BuildAttempts ==> ValidDraw(draws[x].builds[k], admirals[x].table.totalBuildChance)
    modifies dests, objects, admirals
    ensures Thinking(dests, objects, admirals)
    ensures forall x :: 0 <= x < |admirals| ==>
      && admirals[x].identity == old(admirals[x].identity) && admirals[x].table == old(admirals[x].table)
      && admirals[x].score == old(admirals[x].score)
  {
    for x := 0 to |admirals|
      invariant Thinking(dests, objects, admirals)
      invariant forall y :: 0 <= y < |admirals| ==>
        && admirals[y].identity == old(admirals[y].identity) && admirals[y].table == old(admirals[y].table)
        && admirals[y].score == old(admirals[y].score)
    {
      admirals[x].Think(draws[x].blitz, draws[x].builds, dests, objects, lookup);
    }
  }

  /**
   * `AdmiralThink`: the destination countdown and income, then each admiral's `think`.
   * The builds that came due are returned for `AdmiralBuildAtObject`.
   */
  method AdmiralThink(dests: array<Destination>, objects: array<SpaceObject>, admirals: seq<Admiral>,
                      draws: seq<ThinkDraws>, lookup: (int, int) -> Option<BaseInfo>)
    returns (spawns: seq<Spawn>)
    requires Thinking(dests, objects, admirals) && |draws| == |admirals|
    requires forall x :: 0 <= x < |admirals| ==>
      && 0 <= draws[x].blitz < BlitzkriegBase && |draws[x].builds| == BuildAttempts
      && forall k :: 0 <= k < BuildAttempts ==> ValidDraw(draws[x].builds[k], admirals[x].table.totalBuildChance)
    modifies dests, objects, admirals
    ensures Thinking(dests, objects, admirals)
    ensures spawns == Spawns(old(dests[..]), old(objects[..]), dests.Length)
    ensures forall x :: 0 <= x < |admirals| ==>
      && admirals[x].identity == old(admirals[x].identity) && admirals[x].table == old(admirals[x].table)
      && admirals[x].score == old(admirals[x].score)
  {
    spawns := DestinationPass(dests, objects, admirals);
    SitesKept(old(dests[..]), dests[..], objects[..]);
    ThinkAll(dests, objects, admirals, draws, lookup);
  }
}
