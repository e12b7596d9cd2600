/**
 * How `Admiral::think` in src/game/admiral.cpp scores one candidate destination
 * object for one of the admiral's ships: a base importance that depends on who owns
 * the candidate, then each soft order flag that applies multiplies the score by a
 * power of two and each hard flag that applies sets it to 0, and last a random
 * jitter. The quantities the scoring reads of the two objects are the fields of a
 * `Sighting`.
 */
module Targeting {
  import opened SpaceObjects
  import opened Admirals

  /** The importances of a target, as raw fixed-point values (0x100 is 1.0). */
  const UnimportantTarget := 0x0000
  const MostImportantTarget := 0x0200
  const LeastImportantTarget := 0x0100
  const VeryImportantTarget := 0x0160
  const SomewhatImportantTarget := 0x0120
  const AbsolutelyEssential := 0x8000

  /** No score reaches this: the largest base importance after four eightfold raises. */
  const ScoreCeiling := AbsolutelyEssential * 8 * 8 * 8 * 8

  /** The order flags of the ship's base type. */
  datatype OrderFlags = OrderFlags(
    targetIsBase: bool, targetIsNotBase: bool, targetIsLocal: bool, targetIsRemote: bool,
    targetIsFriend: bool, targetIsFoe: bool,
    hardTargetIsBase: bool, hardTargetIsNotBase: bool, hardTargetIsLocal: bool,
    hardTargetIsRemote: bool, hardTargetIsFriend: bool, hardTargetIsFoe: bool,
    hardMatchingFoe: bool)

  /** The candidate has the ship's owner, another admiral, or none. */
  datatype Relation = Own | Hostile | Unowned

  /** What the scoring reads of the ship and the candidate. */
  datatype Sighting = Sighting(
    relation: Relation,
    /** The candidate is a destination (`kIsDestination`). */
    isDestination: bool,
    /** The candidate's escort strength is below its base type's friend deficit. */
    escortShort: bool,
    /** The candidate's destination class is above the ship's. */
    outranks: bool,
    /** The local strengths of the candidate's grid cell, from the ship's side. */
    friendValue: int,
    foeValue: int,
    blitzkrieg: int,
    duty: Duty,
    /** Both coordinate distances are below the maximum relevant distance. */
    local: bool,
    orderKeyTag: int,
    levelKeyTag: int)

  /** `v <<= k` when `on`, for a shift `k` of 1, 2 or 3. */
  function Raised(v: int, on: bool, k: int): (r: int)
    requires 1 <= k <= 3
    ensures v >= 0 ==> v <= r
    ensures on && k == 3 ==> r == 8 * v
    ensures !on ==> r == v
  {
    if !on then v else if k == 1 then 2 * v else if k == 2 then 4 * v else 8 * v
  }

  /** `v = 0` when `on`. */
  function Zeroed(v: int, on: bool): int
  {
    if on then 0 else v
  }

  /** The candidate's base-or-not rules: raise for the preferred kind, zero for the ruled-out kind. */
  function BaseRules(v: int, isDestination: bool, f: OrderFlags, k: int): int
    requires 1 <= k <= 3
  {
    if isDestination then Zeroed(Raised(v, f.targetIsBase, 3), f.hardTargetIsNotBase)
    else Zeroed(Raised(v, f.targetIsNotBase, k), f.hardTargetIsBase)
  }

  /** The importance of one of the ship's own objects, before the friend or foe rules. */
  function OwnImportance(s: Sighting): int
  {
    if s.isDestination then
      if s.escortShort then AbsolutelyEssential
      else if s.foeValue != 0 then
        if s.foeValue >= s.friendValue then MostImportantTarget
        else if s.foeValue > s.friendValue / 2 then VeryImportantTarget
        else UnimportantTarget
      else if s.blitzkrieg > 0 && s.duty == GuardDuty then UnimportantTarget
      else if s.foeValue > 0 then SomewhatImportantTarget
      else UnimportantTarget
    else if s.outranks then
      if s.foeValue > s.friendValue then MostImportantTarget
      else if s.escortShort then MostImportantTarget
      else UnimportantTarget
    else UnimportantTarget
  }

  /** The importance of another admiral's object; only a guarding or idle ship rates one. */
  function HostileImportance(s: Sighting): int
  {
    if s.duty == GuardDuty || s.duty == NoDuty then
      if s.isDestination then
        Raised(if s.foeValue < s.friendValue then MostImportantTarget else SomewhatImportantTarget,
               s.blitzkrieg > 0, 2)
      else if s.friendValue != 0 then
        if s.friendValue < s.foeValue then SomewhatImportantTarget else UnimportantTarget
      else LeastImportantTarget
    else UnimportantTarget
  }

  /**
   * The score by ownership (src/game/admiral.cpp:799-927): the base importance, then the
   * base-or-not rules, then the friend rules for an own candidate or the foe rules for
   * any other one.
   */
  function Owned(s: Sighting, f: OrderFlags): int
  {
    match s.relation
    case Own =>
      Zeroed(Raised(BaseRules(OwnImportance(s), s.isDestination, f, 3), f.targetIsFriend, 3), f.hardTargetIsFoe)
    case Hostile =>
      var v := if s.duty == GuardDuty || s.duty == NoDuty
               then BaseRules(HostileImportance(s), s.isDestination, f, 1)
               else HostileImportance(s);
      Zeroed(Raised(v, f.targetIsFoe, 3), f.hardTargetIsFriend)
    case Unowned =>
      var v := BaseRules(if s.isDestination then Raised(VeryImportantTarget, s.blitzkrieg > 0, 2)
                         else UnimportantTarget, s.isDestination, f, 3);
      Zeroed(Raised(v, f.targetIsFoe, 3), f.hardTargetIsFriend)
  }

  /** The local-or-remote rules (src/game/admiral.cpp:929-951). */
  function Placed(v: int, local: bool, f: OrderFlags): int
  {
    if local then Zeroed(Raised(v, f.targetIsLocal, 3), f.hardTargetIsRemote)
    else Zeroed(Raised(v, f.targetIsRemote, 3), f.hardTargetIsLocal)
  }

  /** The ship's order key tag is set and names the candidate's level key tag. */
  predicate KeyMatch(s: Sighting)
  {
    s.orderKeyTag != 0 && s.orderKeyTag == s.levelKeyTag
  }

  /** The key-tag rule (src/game/admiral.cpp:954-959). */
  function Keyed(v: int, s: Sighting, f: OrderFlags): int
  {
    if KeyMatch(s) then 8 * v else Zeroed(v, f.hardMatchingFoe)
  }

  /** The score before the jitter. */
  function Score(s: Sighting, f: OrderFlags): int
  {
    Keyed(Placed(Owned(s, f), s.local, f), s, f)
  }

  /**
   * The jitter (src/game/admiral.cpp:961-963): a positive score `v` becomes
   * `v + r - (v >> 2)` with `r` drawn from [0, v >> 1); any other score is kept.
   */
  function Jittered(v: int, r: int): (w: int)
    requires v > 0 ==> ValidDraw(r, v / 2)
    ensures v <= 0 ==> w == v
    ensures v > 0 ==> v - v / 4 <= w <= v + v / 2 - v / 4 && w > 0
    ensures v > 1 ==> w < v + v / 2 - v / 4
  {
    if v > 0 then v + r - v / 4 else v
  }

  lemma ImportanceBounds(s: Sighting)
    ensures 0 <= OwnImportance(s) <= AbsolutelyEssential
    ensures 0 <= HostileImportance(s) <= MostImportantTarget * 4
  {
  }

  lemma {:induction false} OwnedBounds(s: Sighting, f: OrderFlags)
    ensures 0 <= Owned(s, f) <= AbsolutelyEssential * 8 * 8
  {
    ImportanceBounds(s);
    match s.relation
    case Own =>
      assert 0 <= BaseRules(OwnImportance(s), s.isDestination, f, 3) <= AbsolutelyEssential * 8;
    case Hostile =>
      assert 0 <= BaseRules(HostileImportance(s), s.isDestination, f, 1) <= MostImportantTarget * 4 * 8;
    case Unowned =>
  }

  /** Every score is in [0, `ScoreCeiling`], well inside a signed 32-bit value. */
  lemma {:induction false} ScoreBounds(s: Sighting, f: OrderFlags)
    ensures 0 <= Score(s, f) <= ScoreCeiling < 0x8000_0000
  {
    OwnedBounds(s, f);
    assert 0 <= Placed(Owned(s, f), s.local, f) <= AbsolutelyEssential * 8 * 8 * 8;
  }

  /** The jittered score of a sighting also fits in a signed 32-bit value. */
  lemma JitterFits(s: Sighting, f: OrderFlags, r: int)
    requires Score(s, f) > 0 ==> ValidDraw(r, Score(s, f) / 2)
    ensures 0 <= Jittered(Score(s, f), r) < 0x8000_0000
  {
    ScoreBounds(s, f);
  }

  /** A hard flag rules the candidate out when the rule it names holds. */
  predicate RuledOut(s: Sighting, f: OrderFlags)
  {
    || (f.hardTargetIsFoe && s.relation == Own)
    || (f.hardTargetIsFriend && s.relation != Own)
    || (f.hardTargetIsNotBase && s.isDestination)
    || (f.hardTargetIsBase && !s.isDestination)
    || (f.hardTargetIsRemote && s.local)
    || (f.hardTargetIsLocal && !s.local)
    || (f.hardMatchingFoe && !KeyMatch(s))
  }

  /** Any hard rule that applies makes the score 0, and the jitter keeps it there. */
  lemma {:induction false} RuledOutScoresZero(s: Sighting, f: OrderFlags, r: int)
    requires RuledOut(s, f)
    ensures Score(s, f) == 0 && Jittered(Score(s, f), r) == 0
  {
    if (f.hardTargetIsNotBase && s.isDestination) || (f.hardTargetIsBase && !s.isDestination) {
      assert s.relation == Hostile && s.duty != GuardDuty && s.duty != NoDuty ==> HostileImportance(s) == 0;
      assert Owned(s, f) == 0;
    }
  }

  /** Without a hard rule against it, a candidate the scoring rates keeps a positive score. */
  lemma {:induction false} NotRuledOutKeepsScore(s: Sighting, f: OrderFlags)
    requires !RuledOut(s, f) && Owned(s, f) > 0
    ensures Score(s, f) >= Owned(s, f)
  {
  }

  /** `f`'s soft flags are among `g`'s, and the two have the same hard flags. */
  predicate Softer(f: OrderFlags, g: OrderFlags)
  {
    && (f.targetIsBase ==> g.targetIsBase) && (f.targetIsNotBase ==> g.targetIsNotBase)
    && (f.targetIsLocal ==> g.targetIsLocal) && (f.targetIsRemote ==> g.targetIsRemote)
    && (f.targetIsFriend ==> g.targetIsFriend) && (f.targetIsFoe ==> g.targetIsFoe)
    && f.hardTargetIsBase == g.hardTargetIsBase && f.hardTargetIsNotBase == g.hardTargetIsNotBase
    && f.hardTargetIsLocal == g.hardTargetIsLocal && f.hardTargetIsRemote == g.hardTargetIsRemote
    && f.hardTargetIsFriend == g.hardTargetIsFriend && f.hardTargetIsFoe == g.hardTargetIsFoe
    && f.hardMatchingFoe == g.hardMatchingFoe
  }

  lemma {:induction false} OwnedRaise(s: Sighting, f: OrderFlags, g: OrderFlags)
    requires Softer(f, g)
    ensures 0 <= Owned(s, f) <= Owned(s, g)
  {
    ImportanceBounds(s);
    match s.relation
    case Own =>
      assert 0 <= BaseRules(OwnImportance(s), s.isDestination, f, 3) <= BaseRules(OwnImportance(s), s.isDestination, g, 3);
    case Hostile =>
      assert 0 <= BaseRules(HostileImportance(s), s.isDestination, f, 1) <= BaseRules(HostileImportance(s), s.isDestination, g, 1);
    case Unowned =>
  }

  lemma PlacedRaise(v: int, w: int, local: bool, f: OrderFlags, g: OrderFlags)
    requires Softer(f, g) && 0 <= v <= w
    ensures 0 <= Placed(v, local, f) <= Placed(w, local, g)
  {
  }

  /** Soft flags only ever raise a score. */
  lemma {:induction false} SoftFlagsRaise(s: Sighting, f: OrderFlags, g: OrderFlags)
    requires Softer(f, g)
    ensures Score(s, f) <= Score(s, g)
  {
    OwnedRaise(s, f, g);
    PlacedRaise(Owned(s, f), Owned(s, g), s.local, f, g);
  }

  /**
   * An own destination that is not short of escorts and has no foes near it rates as
   * unimportant: the somewhat-important case there needs a positive foe value.
   */
  lemma QuietOwnDestination(s: Sighting, f: OrderFlags)
    requires s.relation == Own && s.isDestination && !s.escortShort && s.foeValue == 0
    ensures Score(s, f) == 0
  {
  }

  /** An own destination short of escorts rates highest of all bases before any flag. */
  lemma EssentialComesFirst(s: Sighting, f: OrderFlags)
    requires s.relation == Own && s.isDestination && s.escortShort
    ensures OwnImportance(s) == AbsolutelyEssential
    ensures forall u: Sighting :: OwnImportance(u) <= OwnImportance(s) && HostileImportance(u) < OwnImportance(s)
  {
  }
}
