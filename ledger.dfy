/**
 * The escort ledger of src/game/admiral.cpp: an object sent to a destination object
 * adds its offense value to that object's strength counters, friendly or hostile,
 * and takes it away again when it is removed while the stored id still holds.
 */
module Ledger {
  import opened Wrappers
  import opened SpaceObjects
  import opened Admirals

  /** What `SetObjectDestination` reads of the object owner's admiral. */
  datatype Orders = Orders(active: bool, hasDestination: bool, destinationObject: int, destinationObjectID: int)

  /** The owner's orders, or none when the owner is not an admiral of the table. */
  function OrdersOf(admirals: seq<Admiral>, owner: int): Option<Orders>
    reads admirals
  {
    if 0 <= owner < |admirals| then
      var a := admirals[owner];
      Some(Orders(a.identity.active, a.cursors.hasDestination, a.cursors.destinationObject,
                  a.cursors.destinationObjectID))
    else None
  }

  /** The "forget it" course: no destination object, no location, back at its own position. */
  function Forget(c: Course): Course
  {
    c.(destObject := NoObject, destObjectDest := NoObject,
       destinationLocation := Coord(NoDestinationCoord, NoDestinationCoord),
       timeFromOrigin := 0, idealLocationCalc := Coord(0, 0), originLocation := c.location)
  }

  /** The course with no destination object and no stored id, as a removal leaves it. */
  function Unhooked(c: Course): Course
  {
    c.(destObject := NoObject, destObjectDest := NoObject, destObjectID := -1)
  }

  /** Two tables of the same size have the same strength counters everywhere. */
  predicate SameLedger(a: seq<SpaceObject>, b: seq<SpaceObject>)
  {
    |a| == |b| && forall k :: 0 <= k < |a| ==> a[k].strengths == b[k].strengths
  }

  /** `x`'s offense is counted as a friend's at `y` when the two have the same owner. */
  predicate Friendly(y: SpaceObject, x: SpaceObject)
  {
    y.owner == x.owner
  }

  /** Offense `v` taken out of the counters: friend and escort, or foe. */
  function Withdrawn(s: Strengths, friendly: bool, v: int): Strengths
  {
    if friendly then s.(remoteFriend := s.remoteFriend - v, escort := s.escort - v)
    else s.(remoteFoe := s.remoteFoe - v)
  }

  /** Offense `v` put into the counters: friend and escort, or foe. */
  function Deposited(s: Strengths, friendly: bool, v: int): Strengths
  {
    if friendly then s.(remoteFriend := s.remoteFriend + v, escort := s.escort + v)
    else s.(remoteFoe := s.remoteFoe + v)
  }

  /** `x`'s destination object still is the object whose id `x` stored. */
  predicate Hooked(t: seq<SpaceObject>, x: SpaceObject)
  {
    x.course.destObject != NoObject && 0 <= x.course.destObject < |t|
    && t[x.course.destObject].id == x.course.destObjectID
  }

  /**
   * `RemoveObjectFromDestination` on table `t`: when object `o` is hooked to its
   * destination object, that object's counters lose `o`'s offense value; `o`'s
   * destination handles are cleared in every case. Nothing else changes.
   */
  function Released(t: seq<SpaceObject>, o: int): (r: seq<SpaceObject>)
    requires 0 <= o < |t| && Handle(t[o].course.destObject, |t|)
    ensures |r| == |t| && r[o].course == Unhooked(t[o].course)
    ensures forall k :: 0 <= k < |t| && k != o ==> r[k].course == t[k].course
    ensures forall k :: 0 <= k < |t| ==> r[k].id == t[k].id && r[k].owner == t[k].owner && r[k].traits == t[k].traits
    ensures forall k :: 0 <= k < |t| && k != o && k != t[o].course.destObject ==> r[k] == t[k]
    ensures !Hooked(t, t[o]) ==> SameLedger(r, t)
    ensures Hooked(t, t[o]) ==>
      var d := t[o].course.destObject;
      r[d].strengths == Withdrawn(t[d].strengths, Friendly(t[d], t[o]), t[o].traits.offenseValue)
  {
    var x := t[o];
    var d := x.course.destObject;
    var t1 := if Hooked(t, x)
              then t[d := t[d].(strengths := Withdrawn(t[d].strengths, Friendly(t[d], x), x.traits.offenseValue))]
              else t;
    t1[o := t1[o].(course := Unhooked(t1[o].course))]
  }

  /** Removing an object that has already been removed changes nothing. */
  lemma ReleasedTwice(t: seq<SpaceObject>, o: int)
    requires 0 <= o < |t| && Handle(t[o].course.destObject, |t|)
    ensures Released(Released(t, o), o) == Released(t, o)
  {
  }

  /** `RemoveObjectFromDestination`: the object table becomes `Released` of the old one. */
  method RemoveObjectFromDestination(objects: array<SpaceObject>, o: nat)
    requires o < objects.Length && Handle(objects[o].course.destObject, objects.Length)
    modifies objects
    ensures objects[..] == Released(old(objects[..]), o)
  {
    var x := objects[o];
    var d := x.course.destObject;
    if d != NoObject {
      if objects[d].id == x.course.destObjectID {
        var s := objects[d].strengths;
        if objects[d].owner == x.owner {
          s := s.(remoteFriend := s.remoteFriend - x.traits.offenseValue, escort := s.escort - x.traits.offenseValue);
        } else {
          s := s.(remoteFoe := s.remoteFoe - x.traits.offenseValue);
        }
        objects[d] := objects[d].(strengths := s);
      }
    }
    objects[o] := objects[o].(course := objects[o].course.(destObject := NoObject, destObjectDest := NoObject,
                                                           destObjectID := -1));
  }

  /** The duty an object takes on when it joins `y`, whose counters already hold it. */
  function DutyAt(y: SpaceObject, friendly: bool): Duty
  {
    if !friendly then AssaultDuty
    else if y.strengths.escort < y.traits.friendDefecit then (if y.traits.isDestination then GuardDuty else EscortDuty)
    else NoDuty
  }

  /** `o` is added to object `d`: it copies `d`'s handles and id, `d`'s counters gain `o`'s offense. */
  function Joined(t: seq<SpaceObject>, o: int, d: int): seq<SpaceObject>
    requires 0 <= o < |t| && 0 <= d < |t| && o != d
  {
    var x := t[o];
    var friendly := Friendly(t[d], x);
    var y := t[d].(strengths := Deposited(t[d].strengths, friendly, x.traits.offenseValue));
    t[o := x.(course := x.course.(hasArrived := false, destObject := d, destObjectDest := t[d].course.destObject,
                                  destObjectDestID := t[d].course.destObjectID, destObjectID := t[d].id,
                                  duty := DutyAt(y, friendly)))]
     [d := y]
  }

  /** The destination object an assignment aims at: the override, else the admiral's. */
  function Aim(override: int, a: Orders): int
  {
    if override != NoObject then override else a.destinationObject
  }

  /** The guards of `SetObjectDestination` up to the choice of an object to join. */
  predicate Accepts(x: SpaceObject, override: int, v: Option<Orders>)
  {
    x.owner >= 0 && x.traits.canAcceptDestination && !(x.traits.staticDestination && override == NoObject)
    && v.Some?
    && !(override == NoObject && (!v.value.active || !v.value.hasDestination
                                  || v.value.destinationObject == NoObject
                                  || v.value.destinationObjectID == x.id))
  }

  /** The handles `SetObjectDestination` follows are handles into `t`. */
  predicate Addressed(t: seq<SpaceObject>, o: int, override: int, v: Option<Orders>)
  {
    0 <= o < |t| && Handle(t[o].course.destObject, |t|) && Handle(override, |t|)
    && (v.Some? ==> Handle(v.value.destinationObject, |t|))
  }

  /** The aimed-at object is live, and still the one the admiral meant unless overridden. */
  predicate Honoured(t: seq<SpaceObject>, o: int, override: int, v: Option<Orders>)
    requires Addressed(t, o, override, v)
  {
    Accepts(t[o], override, v) &&
    var d := Aim(override, v.value);
    t[d].active == InUse && (t[d].id == v.value.destinationObjectID || override != NoObject)
  }

  /** `SetObjectDestination` ends by adding `o` to an object other than itself. */
  predicate Joins(t: seq<SpaceObject>, o: int, override: int, v: Option<Orders>)
    requires Addressed(t, o, override, v)
  {
    Honoured(t, o, override, v) && Aim(override, v.value) != o
  }

  /** An honoured assignment first restarts the clock and takes `o` out of its old destination. */
  function Readied(t: seq<SpaceObject>, o: int): (r: seq<SpaceObject>)
    requires 0 <= o < |t| && Handle(t[o].course.destObject, |t|)
    ensures SameLedger(r, Released(t, o))
    ensures forall k :: 0 <= k < |t| && k != o ==> r[k] == Released(t, o)[k]
    ensures r[o].course.destObject == NoObject && r[o].course.timeFromOrigin == TimeToCheckHome
    ensures forall k :: 0 <= k < |t| ==> r[k].id == t[k].id && r[k].owner == t[k].owner && r[k].traits == t[k].traits
  {
    var t1 := t[o := t[o].(course := t[o].course.(timeFromOrigin := TimeToCheckHome))];
    assert Hooked(t1, t1[o]) == Hooked(t, t[o]);
    if t[o].course.destObject != NoObject then Released(t1, o) else t1
  }

  /**
   * `SetObjectDestination(o, override)` on table `t`, where `v` is what the owner's
   * admiral holds. An object without an owner forgets its destination and id; one that
   * cannot accept a destination, is locked and not overridden, or has no admiral is left
   * alone; without an override, an admiral that is inactive, has no destination or aims
   * at the object itself makes the object forget; otherwise the aimed-at object, when
   * live and not replaced, has `o` taken out of its old destination and added to it.
   */
  function Assigned(t: seq<SpaceObject>, o: int, override: int, v: Option<Orders>): seq<SpaceObject>
    requires Addressed(t, o, override, v)
  {
    var x := t[o];
    if x.owner < 0 then t[o := x.(course := Forget(x.course).(destObjectID := -1))]
    else if !x.traits.canAcceptDestination then t
    else if x.traits.staticDestination && override == NoObject then t
    else if v.None? then t
    else if !Honoured(t, o, override, v) then t[o := x.(course := Forget(x.course))]
    else
      var t2 := Readied(t, o);
      var d := Aim(override, v.value);
      if o != d then Joined(t2, o, d) else t2[o := t2[o].(course := Forget(t2[o].course))]
  }

  /** Every destination handle stays a handle into the table. */
  lemma AssignedKeepsHandles(t: seq<SpaceObject>, o: int, override: int, v: Option<Orders>)
    requires Addressed(t, o, override, v)
    ensures var r := Assigned(t, o, override, v);
      |r| == |t| && forall k :: 0 <= k < |t| && Handle(t[k].course.destObject, |t|) ==> Handle(r[k].course.destObject, |r|)
  {
  }

  /** The joining step of `SetObjectDestination`: the table becomes `Joined` of the old one. */
  method JoinObject(objects: array<SpaceObject>, o: nat, d: nat)
    requires o < objects.Length && d < objects.Length && o != d
    modifies objects
    ensures objects[..] == Joined(old(objects[..]), o, d)
  {
    var me := objects[o];
    var y := objects[d];
    me := me.(course := me.course.(hasArrived := false, destObject := d, destObjectDest := y.course.destObject,
                                   destObjectDestID := y.course.destObjectID, destObjectID := y.id));
    var s := y.strengths;
    if y.owner == me.owner {
      s := s.(remoteFriend := s.remoteFriend + me.traits.offenseValue, escort := s.escort + me.traits.offenseValue);
      y := y.(strengths := s);
      if y.traits.isDestination {
        me := me.(course := me.course.(duty := if s.escort < y.traits.friendDefecit then GuardDuty else NoDuty));
      } else {
        me := me.(course := me.course.(duty := if s.escort < y.traits.friendDefecit then EscortDuty else NoDuty));
      }
    } else {
      s := s.(remoteFoe := s.remoteFoe + me.traits.offenseValue);
      y := y.(strengths := s);
      me := me.(course := me.course.(duty := AssaultDuty));
    }
    objects[o] := me;
    objects[d] := y;
  }

  /**
   * `SetObjectDestination`: the object table becomes `Assigned` of the old one, with the
   * owner's orders read from the admiral table.
   */
  method SetObjectDestination(objects: array<SpaceObject>, admirals: seq<Admiral>, o: nat, override: int)
    requires o < objects.Length && Addressed(objects[..], o, override, OrdersOf(admirals, objects[o].owner))
    modifies objects
    ensures objects[..] == Assigned(old(objects[..]), o, override, OrdersOf(admirals, old(objects[o].owner)))
  {
    var x := objects[o];
    if x.owner < 0 {
      objects[o] := x.(course := Forget(x.course).(destObjectID := -1));
      return;
    }
    if !x.traits.canAcceptDestination {
      return;
    }
    if x.traits.staticDestination && override == NoObject {
      return;
    }
    if x.owner >= |admirals| {
      return;
    }
    var a := admirals[x.owner];
    if override == NoObject
       && (!a.identity.active || !a.cursors.hasDestination || a.cursors.destinationObject == NoObject
           || a.cursors.destinationObjectID == x.id) {
      objects[o] := x.(course := Forget(x.course));
      return;
    }
    var d := override;
    if d == NoObject {
      d := a.cursors.destinationObject;
    }
    if objects[d].active == InUse && (objects[d].id == a.cursors.destinationObjectID || override != NoObject) {
      ghost var t0 := objects[..];
      objects[o] := objects[o].(course := objects[o].course.(
        timeFromOrigin := if x.traits.canAcceptDestination then TimeToCheckHome else 0));
      if objects[o].course.destObject != NoObject {
        RemoveObjectFromDestination(objects, o);
      }
      assert objects[..] == Readied(t0, o);
      if o != d {
        JoinObject(objects, o, d);
      } else {
        objects[o] := objects[o].(course := Forget(objects[o].course));
      }
    } else {
      objects[o] := x.(course := Forget(x.course));
    }
  }

  /**
   * A joining assignment takes `o` out of its old destination's ledger and puts it into
   * the new one's: friendly when the owners match, hostile otherwise. `o` then holds the
   * new handle and id, and takes the duty the raised counters call for.
   */
  lemma {:induction false} JoinDeposits(t: seq<SpaceObject>, o: int, override: int, v: Option<Orders>)
    requires Addressed(t, o, override, v) && Joins(t, o, override, v)
    ensures var d := Aim(override, v.value); var r := Assigned(t, o, override, v);
      var friendly := Friendly(t[d], t[o]);
      && r[d].strengths == Deposited(Released(t, o)[d].strengths, friendly, t[o].traits.offenseValue)
      && r[o].course.destObject == d && r[o].course.destObjectID == t[d].id && !r[o].course.hasArrived
      && r[o].course.timeFromOrigin == TimeToCheckHome
      && r[o].course.duty == DutyAt(r[d], friendly)
      && forall k :: 0 <= k < |t| && k != o && k != d ==> r[k] == Released(t, o)[k]
  {
    var d := Aim(override, v.value);
    var t2 := Readied(t, o);
    assert t2[d].strengths == Released(t, o)[d].strengths;
    assert t2[d].id == t[d].id && t2[d].owner == t[d].owner && t2[o].owner == t[o].owner;
  }

  /**
   * The ledger is symmetric: removing an object right after a joining assignment gives
   * back exactly the counters that removing it before the assignment would have left.
   */
  lemma {:induction false} JoinRoundTrip(t: seq<SpaceObject>, o: int, override: int, v: Option<Orders>)
    requires Addressed(t, o, override, v) && Joins(t, o, override, v)
    ensures SameLedger(Released(Assigned(t, o, override, v), o), Released(t, o))
  {
    var d := Aim(override, v.value);
    var r := Assigned(t, o, override, v);
    JoinDeposits(t, o, override, v);
    AssignedKeepsHandles(t, o, override, v);
    assert Hooked(r, r[o]);
    var back := Released(r, o);
    assert back[d].strengths == Released(t, o)[d].strengths;
  }

  /**
   * Every other outcome leaves the counters as they were, or as a removal leaves them
   * when the object aimed at itself: the object either stays as it was or lets go of
   * its destination handle, without its entry being withdrawn unless it was removed.
   */
  lemma {:induction false} DeclineKeepsLedger(t: seq<SpaceObject>, o: int, override: int, v: Option<Orders>)
    requires Addressed(t, o, override, v) && !Joins(t, o, override, v)
    ensures var r := Assigned(t, o, override, v);
      && (r == t || r[o].course.destObject == NoObject)
      && (!Honoured(t, o, override, v) ==> SameLedger(r, t))
      && (Honoured(t, o, override, v) ==> SameLedger(r, Released(t, o)))
  {
    if Honoured(t, o, override, v) {
      var t2 := Readied(t, o);
      assert SameLedger(t2[o := t2[o].(course := Forget(t2[o].course))], t2);
    }
  }
}
