/**
 * The destination table (`gDestBalanceData` in src/game/admiral.cpp): a fixed number
 * of slots, each either free or tied to a space object that admirals can travel to,
 * earn from and build at.
 */
module Destinations {
  import opened Wrappers
  import opened Limits
  import opened SpaceObjects

  /** kDestinationNameLen: a destination's name is cut to this many characters. */
  const NameLen := 17

  datatype Destination = Destination(
    whichObject: int,
    name: string,
    earn: int,
    totalBuildTime: int,
    buildTime: int,
    /** The base object being built here, or -1. */
    buildObjectBaseNum: int,
    /** The ship classes that can be built here; `NoShip` marks an empty entry. */
    canBuildType: seq<int>,
    /** Each admiral's occupation count. */
    occupied: seq<int>)

  /** `MaxTypeBaseCanBuild` empty class entries. */
  const NoClasses: seq<int> :=
    [NoShip, NoShip, NoShip, NoShip, NoShip, NoShip, NoShip, NoShip, NoShip, NoShip, NoShip, NoShip]
  /** `MaxPlayerNum` zero counts. */
  const NoOccupants: seq<int> := [0, 0, 0, 0]

  /** The state of a free slot: every field empty or zero. */
  const Empty := Destination(NoObject, "", 0, 0, 0, NoObject, NoClasses, NoOccupants)

  predicate Shaped(d: Destination)
  {
    |d.canBuildType| == MaxTypeBaseCanBuild && |d.occupied| == MaxPlayerNum
  }

  predicate Free(d: Destination)
  {
    d.whichObject < 0
  }

  ghost predicate TableShaped(dests: array<Destination>)
    reads dests
  {
    dests.Length == MaxDestObject && forall i :: 0 <= i < dests.Length ==> Shaped(dests[i])
  }

  /** The free slots of a table. */
  function FreeSlots(s: seq<Destination>): set<int>
  {
    set i | 0 <= i < |s| && Free(s[i])
  }

  /** `ResetAllDestObjectData`: every slot becomes free and empty. */
  method ResetAllDestObjectData(dests: array<Destination>)
    modifies dests
    ensures forall i :: 0 <= i < dests.Length ==> dests[i] == Empty
  {
    for i := 0 to dests.Length
      invariant forall k :: 0 <= k < i ==> dests[k] == Empty
    {
      dests[i] := Empty;
    }
  }

  /** `Destination::get`: a slot number, or none for an index outside the table. */
  function Get(i: int): (r: int)
    ensures r == NoObject || r == i
    ensures 0 <= r < MaxDestObject <==> 0 <= i < MaxDestObject
  {
    if 0 <= i < MaxDestObject then i else NoObject
  }

  /** One of the first `MaxShipCanBuild` class entries names a ship. */
  predicate Buildable(d: Destination)
    requires |d.canBuildType| >= MaxShipCanBuild
  {
    exists i :: 0 <= i < MaxShipCanBuild && d.canBuildType[i] != NoShip
  }

  /** `Destination::can_build`: only the first `MaxShipCanBuild` entries are looked at. */
  method CanBuild(d: Destination) returns (b: bool)
    requires Shaped(d)
    ensures b == Buildable(d)
  {
    for i := 0 to MaxShipCanBuild
      invariant forall k :: 0 <= k < i ==> d.canBuildType[k] == NoShip
    {
      if d.canBuildType[i] != NoShip {
        return true;
      }
    }
    return false;
  }

  /** A free slot has nothing to build. */
  lemma {:induction false} EmptyCannotBuild()
    ensures Shaped(Empty) && Free(Empty) && !Buildable(Empty)
  {
    forall i | 0 <= i < MaxShipCanBuild
      ensures Empty.canBuildType[i] == NoShip
    {
      assert NoClasses[i] == NoShip;
    }
  }

  /** `next_free_destination`: the lowest free slot, or -1 when every slot is taken. */
  method NextFreeDestination(dests: array<Destination>) returns (d: int)
    ensures d == NoObject <==> forall i :: 0 <= i < dests.Length ==> !Free(dests[i])
    ensures d != NoObject ==> 0 <= d < dests.Length && Free(dests[d])
    ensures d != NoObject ==> forall i :: 0 <= i < d ==> !Free(dests[i])
  {
    for i := 0 to dests.Length
      invariant forall k :: 0 <= k < i ==> !Free(dests[k])
    {
      if dests[i].whichObject < 0 {
        return i;
      }
    }
    return NoObject;
  }

  /** `std::string::resize` down to at most `n` characters. */
  function Truncate(s: string, n: nat): (r: string)
    ensures |r| <= n && r <= s
    ensures |s| <= n ==> r == s
  {
    if |s| > n then s[..n] else s
  }

  /**
   * What `MakeNewDestination` leaves in a free slot `d`. The build counters and the
   * earnings are set; the classes are copied, or all empty; the name is set only when
   * one was looked up; the occupation counts are reset only for an object whose death
   * is neutral, and the owner then starts at `age`. The queued build is left alone.
   */
  function Made(d: Destination, obj: int, classes: Option<seq<int>>, earn: int,
                name: Option<string>, neutralDeath: bool, owner: int, age: int): Destination
    requires classes.Some? ==> |classes.value| >= MaxTypeBaseCanBuild
    requires -1 <= owner < MaxPlayerNum
  {
    var types := if classes.Some? then classes.value[..MaxTypeBaseCanBuild] else NoClasses;
    var d1 := d.(whichObject := obj, earn := earn, totalBuildTime := 0, buildTime := 0,
                 canBuildType := types);
    var d2 := if name.Some? then d1.(name := Truncate(name.value, NameLen)) else d1;
    if neutralDeath then
      d2.(occupied := if owner >= 0 then NoOccupants[owner := age] else NoOccupants)
    else d2
  }

  /**
   * `MakeNewDestination`: ties object `obj` to the lowest free slot and returns it; when
   * no slot is free it returns -1 and the table is unchanged.
   */
  method MakeNewDestination(dests: array<Destination>, obj: nat, classes: Option<seq<int>>,
                            earn: int, name: Option<string>, neutralDeath: bool, owner: int,
                            age: int) returns (d: int)
    requires TableShaped(dests)
    requires classes.Some? ==> |classes.value| >= MaxTypeBaseCanBuild
    requires -1 <= owner < MaxPlayerNum
    modifies dests
    ensures TableShaped(dests)
    ensures d == NoObject <==> FreeSlots(old(dests[..])) == {}
    ensures d == NoObject ==> dests[..] == old(dests[..])
    ensures d != NoObject ==> 0 <= d < dests.Length && d in FreeSlots(old(dests[..]))
    ensures d != NoObject ==> forall i :: i in FreeSlots(old(dests[..])) ==> d <= i
    ensures d != NoObject ==>
      dests[..] == old(dests[..])[d := Made(old(dests[d]), obj, classes, earn, name, neutralDeath, owner, age)]
    ensures d != NoObject ==> FreeSlots(dests[..]) == FreeSlots(old(dests[..])) - {d}
  {
    d := NextFreeDestination(dests);
    if d == NoObject {
      assert forall i :: i in FreeSlots(dests[..]) ==> !Free(dests[i]);
      return;
    }
    ghost var before := dests[..];
    var types: seq<int> := [];
    for j := 0 to MaxTypeBaseCanBuild
      invariant |types| == j
      invariant classes.Some? ==> types == classes.value[..j]
      invariant classes.None? ==> types == NoClasses[..j]
    {
      types := types + [if classes.Some? then classes.value[j] else NoShip];
    }
    var slot := dests[d].(whichObject := obj, earn := earn, totalBuildTime := 0, buildTime := 0,
                          canBuildType := types);
    if name.Some? {
      slot := slot.(name := Truncate(name.value, NameLen));
    }
    if neutralDeath {
      var counts: seq<int> := [];
      for j := 0 to MaxPlayerNum
        invariant counts == NoOccupants[..j]
      {
        counts := counts + [0];
      }
      if owner >= 0 {
        counts := counts[owner := age];
      }
      slot := slot.(occupied := counts);
    }
    assert NoClasses[..MaxTypeBaseCanBuild] == NoClasses && NoOccupants[..MaxPlayerNum] == NoOccupants;
    assert d in FreeSlots(before);
    dests[d] := slot;
    MadeTakesOneSlot(before, d, slot);
  }

  /** Filling a free slot with a taken one removes exactly that slot from the free ones. */
  lemma MadeTakesOneSlot(s: seq<Destination>, d: int, m: Destination)
    requires 0 <= d < |s| && Free(s[d]) && !Free(m)
    ensures FreeSlots(s[d := m]) == FreeSlots(s) - {d}
  {
    assert forall i :: i in FreeSlots(s[d := m]) <==> i in FreeSlots(s) - {d};
  }

  /** `StopBuilding`: the slot's build counters and queued build are cleared. */
  method StopBuilding(dests: array<Destination>, d: nat)
    requires d < dests.Length
    modifies dests
    ensures dests[..] == old(dests[..])[d := old(dests[d]).(totalBuildTime := 0, buildTime := 0,
                                                            buildObjectBaseNum := NoObject)]
  {
    dests[d] := dests[d].(totalBuildTime := 0, buildTime := 0, buildObjectBaseNum := NoObject);
  }

  /**
   * `AlterDestinationObjectOccupation`: adds `amount` to admiral `a`'s count and
   * returns the new count; without an admiral it returns -1 and changes nothing.
   */
  method AlterDestinationObjectOccupation(dests: array<Destination>, d: nat, a: int, amount: int)
    returns (r: int)
    requires d < dests.Length && Shaped(dests[d]) && -1 <= a < MaxPlayerNum
    modifies dests
    ensures a < 0 ==> r == -1 && dests[..] == old(dests[..])
    ensures a >= 0 ==> r == old(dests[d].occupied[a]) + amount
    ensures a >= 0 ==>
      dests[..] == old(dests[..])[d := old(dests[d]).(occupied := old(dests[d].occupied)[a := r])]
  {
    if a >= 0 {
      r := dests[d].occupied[a] + amount;
      dests[d] := dests[d].(occupied := dests[d].occupied[a := r]);
    } else {
      r := -1;
    }
  }

  /**
   * `ClearAllOccupants`: every admiral's count becomes 0, except `a`'s (when there is
   * one), which becomes `fullAmount`.
   */
  method ClearAllOccupants(dests: array<Destination>, d: nat, a: int, fullAmount: int)
    requires d < dests.Length && Shaped(dests[d]) && -1 <= a < MaxPlayerNum
    modifies dests
    ensures Shaped(dests[d])
    ensures forall i :: 0 <= i < MaxPlayerNum ==>
      dests[d].occupied[i] == if i == a then fullAmount else 0
    ensures dests[..] == old(dests[..])[d := old(dests[d]).(occupied := dests[d].occupied)]
  {
    var counts: seq<int> := [];
    for i := 0 to MaxPlayerNum
      invariant counts == NoOccupants[..i]
    {
      counts := counts + [0];
    }
    if a >= 0 {
      counts := counts[a := fullAmount];
    }
    dests[d] := dests[d].(occupied := counts);
  }

  function SumOf(s: seq<int>): int
  {
    if s == [] then 0 else SumOf(s[..|s| - 1]) + s[|s| - 1]
  }

  /** After `ClearAllOccupants` with an admiral, the counts add up to `fullAmount`. */
  lemma {:induction false} ClearedOccupantsTotal(counts: seq<int>, a: int, fullAmount: int)
    requires |counts| == MaxPlayerNum && 0 <= a < MaxPlayerNum
    requires forall i :: 0 <= i < MaxPlayerNum ==> counts[i] == if i == a then fullAmount else 0
    ensures SumOf(counts) == fullAmount
  {
    var k := MaxPlayerNum;
    assert counts[..k] == counts;
    while k > 0
      invariant 0 <= k <= MaxPlayerNum
      invariant SumOf(counts) == SumOf(counts[..k]) + (if a >= k then fullAmount else 0)
    {
      assert counts[..k][..k - 1] == counts[..k - 1];
      k := k - 1;
    }
    assert counts[..0] == [];
  }
}
