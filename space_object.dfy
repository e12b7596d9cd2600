/**
 * The parts of a space object (src/data/space-object.hpp, not part of this model) that
 * the admiral core reads and writes. The object table is an array of these records;
 * a handle is an index into it, or -1 for none. Fields of an object's base type that
 * the core reads (`offenseValue`, `friendDefecit`, `levelKeyTag`) are copied into the
 * record's traits. Attribute bits the core tests become booleans.
 */
module SpaceObjects {
  /** `kObjectAvailable`, `kObjectInUse`, `kObjectToBeFreed`. */
  datatype ObjectState = Available | InUse | ToBeFreed

  /** The duties `SetObjectDestination` hands out, and any other duty. */
  datatype Duty = NoDuty | EscortDuty | GuardDuty | AssaultDuty | HostileBaseDuty | OtherDuty

  datatype Coord = Coord(h: int, v: int)

  /** kNoDestinationCoord: the coordinate of "no destination location". */
  const NoDestinationCoord := 0x7fff_ffff
  /** kTimeToCheckHome: what `timeFromOrigin` starts at when an object is sent somewhere. */
  const TimeToCheckHome := 900

  /** No object. */
  const NoObject := -1

  /** What an object takes from its base type and its attribute bits. */
  datatype Traits = Traits(
    /** The base object the object was made from. */
    base: int,
    canAcceptDestination: bool,
    staticDestination: bool,
    isDestination: bool,
    canAcceptBuild: bool,
    offenseValue: int,
    friendDefecit: int,
    levelKeyTag: int)

  /** Where the object is, where it is headed and what it is there for. */
  datatype Course = Course(
    destObject: int,
    destObjectID: int,
    destObjectDest: int,
    destObjectDestID: int,
    hasArrived: bool,
    duty: Duty,
    timeFromOrigin: int,
    location: Coord,
    originLocation: Coord,
    destinationLocation: Coord,
    idealLocationCalc: Coord)

  /** The strength counters of objects headed for this one. */
  datatype Strengths = Strengths(remoteFriend: int, remoteFoe: int, escort: int)

  datatype SpaceObject = SpaceObject(
    id: int,
    active: ObjectState,
    /** The owning admiral, or -1. */
    owner: int,
    /** The destination slot of a destination object, or -1. */
    asDestination: int,
    traits: Traits,
    course: Course,
    strengths: Strengths,
    currentTargetValue: int)

  /** A handle into a table of `n` entries: an index, or none. */
  predicate Handle(h: int, n: int)
  {
    h == NoObject || 0 <= h < n
  }

  /** The object handles an object holds point into the table, and its owner is -1 or an admiral. */
  ghost predicate Linked(t: seq<SpaceObject>, admirals: int)
  {
    forall i :: 0 <= i < |t| ==>
      Handle(t[i].course.destObject, |t|) && Handle(t[i].owner, admirals)
  }
}
