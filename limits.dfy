/**
 * Table sizes of the engine. Their values come from Antares' headers, which are not
 * part of this model; these are the values the game ships with.
 */
module Limits {
  /** kMaxPlayerNum: admirals in a level. */
  const MaxPlayerNum := 4
  /** kMaxDestObject: slots of the destination table. */
  const MaxDestObject := 10
  /** kMaxTypeBaseCanBuild: ship classes a destination can list. */
  const MaxTypeBaseCanBuild := 12
  /** kMaxShipCanBuild: how many of a destination's class entries `can_build` looks at. */
  const MaxShipCanBuild := 6
  /** kNoShip: the empty entry of a class list. */
  const NoShip := -1
}
