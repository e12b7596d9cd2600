/**
 * Gamepad button names (src/config/gamepad.cpp).
 *
 * The name table `gamepad_names` is a string list loaded from resources; here it is
 * the parameter `names`, and the range [BEGIN, END) of button numbers is `begin`/`end`.
 */
module Gamepad {
  import opened Wrappers

  /** Reference definition: the first index in [from, end) whose name is `name`. */
  function IndexFrom(names: seq<string>, from: int, end: int, name: string): (r: Option<int>)
    requires 0 <= from <= end <= |names|
    ensures r.Some? ==> from <= r.value < end && names[r.value] == name
    ensures r.Some? ==> forall i :: from <= i < r.value ==> names[i] != name
    ensures r.None? <==> forall i :: from <= i < end ==> names[i] != name
    decreases end - from
  {
    if from == end then None
    else if names[from] == name then Some(from)
    else IndexFrom(names, from + 1, end, name)
  }

  /** `Gamepad::num`: the button number called `name`, or 0 when no button is. */
  method Num(names: seq<string>, begin: int, end: int, name: string) returns (n: int)
    requires 0 <= begin <= end <= |names|
    ensures n == (match IndexFrom(names, begin, end, name)
                  case Some(i) => i
                  case None => 0)
  {
    var i := begin;
    while i < end
      invariant begin <= i <= end
      invariant IndexFrom(names, begin, end, name) == IndexFrom(names, i, end, name)
    {
      if names[i] == name {
        return i;
      }
      i := i + 1;
    }
    return 0;
  }

  /**
   * When the button range starts above 0 (button 0 is no button), a result of 0 from
   * `Num` means exactly that no button has the name, which is how interface items
   * reject an unknown gamepad button.
   */
  lemma NumZeroIffUnknown(names: seq<string>, begin: int, end: int, name: string)
    requires 1 <= begin <= end <= |names|
    ensures (match IndexFrom(names, begin, end, name) case Some(i) => i case None => 0) == 0
            <==> forall i :: begin <= i < end ==> names[i] != name
  {
  }

  /**
   * `Gamepad::name`: for a button in range, `out` becomes its name and the result is
   * true; otherwise the result is false and `out` keeps the caller's value.
   */
  method Name(names: seq<string>, button: int, outIn: string) returns (ok: bool, out: string)
    ensures ok <==> 0 <= button < |names|
    ensures ok ==> out == names[button]
    ensures !ok ==> out == outIn
  {
    if 0 <= button < |names| {
      out := names[button];
      return true, out;
    }
    return false, outIn;
  }
}
