/**
 * Decoding rules of `read_from(BaseObject*)` and its frame readers
 * (src/data/base-object.cpp): how the fields of a base-object record become the
 * engine's view of it. Raw integers are unbounded; the record's binary layout is not
 * part of this model.
 */
module BaseObject {
  import opened Fixed
  import Messages

  /**
   * Attribute bits used by the decoding. Their values come from Antares'
   * base-object header, which is not part of this model.
   */
  const IsVector: bv32 := 0x0000_0020
  const IsSelfAnimated: bv32 := 0x0000_0080
  const ShapeFromDirection: bv32 := 0x0000_0100
  const NeutralDeath: bv32 := 0x0800_0000

  /**
   * Attribute normalisation: a self-animated object is drawn neither by direction nor
   * as a vector, and one drawn by direction is not a vector.
   */
  function NormaliseAttributes(a: bv32): bv32
  {
    if a & IsSelfAnimated != 0 then a & !(ShapeFromDirection | IsVector)
    else if a & ShapeFromDirection != 0 then a & !IsVector
    else a
  }

  /** Normalisation touches only the direction and vector bits. */
  lemma NormaliseKeepsOtherBits(a: bv32)
    ensures NormaliseAttributes(a) & IsSelfAnimated == a & IsSelfAnimated
    ensures NormaliseAttributes(a) & !(IsVector | ShapeFromDirection) ==
            a & !(IsVector | ShapeFromDirection)
    ensures a & IsSelfAnimated == 0 && a & ShapeFromDirection == 0 ==> NormaliseAttributes(a) == a
  {
  }

  /** What normalisation clears, case by case. */
  lemma NormaliseClears(a: bv32)
    ensures a & IsSelfAnimated != 0 ==> NormaliseAttributes(a) & (ShapeFromDirection | IsVector) == 0
    ensures a & IsSelfAnimated == 0 && a & ShapeFromDirection != 0 ==>
      NormaliseAttributes(a) & IsVector == 0 && NormaliseAttributes(a) & ShapeFromDirection != 0
  {
  }

  /** The neutral-death bit survives normalisation. */
  lemma NormaliseKeepsNeutralDeath(a: bv32)
    ensures NormaliseAttributes(a) & NeutralDeath == a & NeutralDeath
  {
  }

  /** After normalisation, at most one of the three drawing kinds is set. */
  lemma NormalisedKindsExclusive(a: bv32)
    ensures var r := NormaliseAttributes(a);
      (r & IsSelfAnimated != 0 ==> r & ShapeFromDirection == 0 && r & IsVector == 0) &&
      (r & ShapeFromDirection != 0 ==> r & IsVector == 0)
  {
    var r := NormaliseAttributes(a);
    NormaliseClears(a);
    NormaliseKeepsOtherBits(a);
    if a & IsSelfAnimated != 0 {
      assert r & ShapeFromDirection == r & (ShapeFromDirection | IsVector) & ShapeFromDirection;
      assert r & IsVector == r & (ShapeFromDirection | IsVector) & IsVector;
    }
  }

  /** Normalising twice is normalising once. */
  lemma NormaliseIdempotent(a: bv32)
    ensures NormaliseAttributes(NormaliseAttributes(a)) == NormaliseAttributes(a)
  {
  }

  /** Which frame record follows the fields, chosen by the normalised attributes. */
  datatype FrameKind = Rotation | Animation | Vector | Weapon

  function FrameKindOf(attributes: bv32): (k: FrameKind)
    ensures k == Rotation <==> attributes & ShapeFromDirection != 0
    ensures k == Animation <==> attributes & ShapeFromDirection == 0 && attributes & IsSelfAnimated != 0
    ensures k == Vector <==>
      attributes & ShapeFromDirection == 0 && attributes & IsSelfAnimated == 0 && attributes & IsVector != 0
  {
    if attributes & ShapeFromDirection != 0 then Rotation
    else if attributes & IsSelfAnimated != 0 then Animation
    else if attributes & IsVector != 0 then Vector
    else Weapon
  }

  /** A normalised record reads the frame its one drawing-kind bit names. */
  lemma FrameKindOfNormalised(a: bv32)
    ensures var r := NormaliseAttributes(a);
      (a & IsSelfAnimated != 0 ==> FrameKindOf(r) == Animation) &&
      (a & IsSelfAnimated == 0 && a & ShapeFromDirection != 0 ==> FrameKindOf(r) == Rotation)
  {
    NormalisedKindsExclusive(a);
  }

  datatype Range = Range(begin: int, end: int)

  function Max0(x: int): int { if x > 0 then x else 0 }

  /** A value and a spread: the range `[value, value + max(0, spread)]`. */
  function SpreadRange(value: int, spread: int): (r: Range)
    ensures r.begin == value && r.begin <= r.end
    ensures spread >= 0 ==> r.end - r.begin == spread
    ensures spread < 0 ==> r.end == r.begin
  {
    Range(value, value + Max0(spread))
  }

  /** `initial_age`: a spread from a non-negative age, and `(-1, -1)` for no age limit. */
  function InitialAge(age: int, ageRange: int): (r: Range)
    ensures age >= 0 ==> r == SpreadRange(age, ageRange)
    ensures age < 0 ==> r == Range(-1, -1)
    ensures r.begin <= r.end
  {
    if age >= 0 then SpreadRange(age, ageRange) else Range(-1, -1)
  }

  /** `occupy_count`: the age range of a neutral-death object, otherwise -1. */
  function OccupyCount(attributes: bv32, ageRange: int): (c: int)
    ensures attributes & NeutralDeath != 0 ==> c == ageRange
    ensures attributes & NeutralDeath == 0 ==> c == -1
  {
    if attributes & NeutralDeath != 0 then ageRange else -1
  }

  datatype IconShape = Square | Triangle | Diamond | Plus
  datatype Icon = Icon(shape: IconShape, size: int)

  /** The shape nibble of an icon code, 0 to 4. */
  function ShapeOfNibble(n: int): IconShape
    requires 0 <= n < 5
  {
    if n == 1 then Triangle else if n == 2 then Diamond else if n == 3 then Plus else Square
  }

  /**
   * Icon decode: a code in (0, 0x50) gives the size from its low nibble and the shape
   * from its high nibble; every other code gives a square of size 0.
   */
  function DecodeIcon(icon: int): (r: Icon)
    ensures 0 <= r.size < 16
    ensures !(0 < icon < 0x50) ==> r == Icon(Square, 0)
  {
    if 0 < icon < 0x50 then Icon(ShapeOfNibble(icon / 16), icon % 16) else Icon(Square, 0)
  }

  /** The code of an icon, with the first of the two square nibbles. */
  function EncodeIcon(i: Icon): int
    requires 0 <= i.size < 16
  {
    (match i.shape case Square => 0 case Triangle => 1 case Diamond => 2 case Plus => 3) * 16 + i.size
  }

  /** Every icon but the empty square decodes from its code. */
  lemma IconRoundTrip(i: Icon)
    requires 0 <= i.size < 16 && i != Icon(Square, 0)
    ensures DecodeIcon(EncodeIcon(i)) == i
  {
  }

  /** The second square nibble 0x40 decodes like the first. */
  lemma IconSquareAliases(size: int)
    requires 0 <= size < 16
    ensures DecodeIcon(0x40 + size) == Icon(Square, size)
    ensures size > 0 ==> DecodeIcon(size) == Icon(Square, size)
  {
  }

  /** `buildTime = 3 * (build_time / 10)`: three ticks per whole ten of the record's value. */
  function BuildTime(buildTime: nat): (t: nat)
    ensures t % 3 == 0
    ensures (t / 3) * 10 <= buildTime < (t / 3) * 10 + 10
  {
    3 * (buildTime / 10)
  }

  /** A key tag: empty for nibble 0, else the nibble's lower-case hexadecimal digit. */
  function KeyTag(nibble: int): (s: string)
    requires 0 <= nibble < 16
    ensures nibble == 0 <==> s == []
    ensures nibble != 0 ==>
      |s| == 1 && s[0] in "0123456789abcdef" && Messages.HexDigitValue(s[0]) == nibble
  {
    if nibble == 0 then [] else (Messages.HexDigitRoundTrip(nibble); [Messages.HexChar(nibble)])
  }

  /** Distinct tags name distinct nibbles. */
  lemma KeyTagInjective(m: int, n: int)
    requires 0 <= m < 16 && 0 <= n < 16 && KeyTag(m) == KeyTag(n)
    ensures m == n
  {
    if m != 0 && n != 0 {
      assert Messages.HexDigitValue(KeyTag(m)[0]) == m;
    }
  }

  datatype AnimationDirection = NoDirection | PlusDirection | MinusDirection | RandomDirection

  /** The animation direction table: unlisted pairs animate in no direction. */
  function DecodeDirection(dir: int, dirRange: int): AnimationDirection
  {
    if dir == 0 && dirRange == 0 then NoDirection
    else if dir == 1 && dirRange == 0 then PlusDirection
    else if dir == -1 && dirRange == 0 then MinusDirection
    else if dir == -1 && dirRange == -1 then RandomDirection
    else NoDirection
  }

  function EncodeDirection(d: AnimationDirection): (int, int)
  {
    match d
    case NoDirection => (0, 0)
    case PlusDirection => (1, 0)
    case MinusDirection => (-1, 0)
    case RandomDirection => (-1, -1)
  }

  /** Each direction has its pair, and any pair outside the table means no direction. */
  lemma DirectionTable(d: AnimationDirection, dir: int, dirRange: int)
    ensures DecodeDirection(EncodeDirection(d).0, EncodeDirection(d).1) == d
    ensures (dir, dirRange) !in {(0, 0), (1, 0), (-1, 0), (-1, -1)} ==>
      DecodeDirection(dir, dirRange) == NoDirection
  {
  }

  /**
   * The animation frame: the shape range ends one raw unit above its last whole shape,
   * the first-shape range spans a spread of whole shapes.
   */
  datatype AnimationFrame = AnimationFrame(shapes: Range, speed: int, first: Range,
                                           direction: AnimationDirection)

  function DecodeAnimation(begin: int, end: int, dir: int, dirRange: int, speed: int,
                           first: int, firstRange: int): (a: AnimationFrame)
    ensures FixedToLong(a.shapes.begin) == begin && FixedToLong(a.shapes.end) == end
    ensures a.shapes.end % One == 1
    ensures a.speed == speed
    ensures FixedToLong(a.first.begin) == first
    ensures FixedToLong(a.first.end) - FixedToLong(a.first.begin) == firstRange
    ensures a.first.begin % One == 0 && a.first.end % One == 0 && a.shapes.begin % One == 0
    ensures a.direction == DecodeDirection(dir, dirRange)
  {
    AnimationFrame(Range(LongToFixed(begin), LongToFixed(end) + 1), speed,
                   Range(LongToFixed(first), LongToFixed(first + firstRange)),
                   DecodeDirection(dir, dirRange))
  }

  /** A frame whose shape and first-shape ends are whole shapes, as a decoded frame's are. */
  predicate WholeShapes(a: AnimationFrame)
  {
    a.shapes.begin % One == 0 && a.shapes.end % One == 1 &&
    a.first.begin % One == 0 && a.first.end % One == 0
  }

  /** The record fields a frame reads back to, with its direction's code pair. */
  function EncodeAnimation(a: AnimationFrame): (int, int, int, int, int, int, int)
  {
    (FixedToLong(a.shapes.begin), FixedToLong(a.shapes.end),
     EncodeDirection(a.direction).0, EncodeDirection(a.direction).1, a.speed,
     FixedToLong(a.first.begin), FixedToLong(a.first.end) - FixedToLong(a.first.begin))
  }

  /**
   * Decoding loses nothing but the direction pair outside the table: the fields read
   * back, and the pair reads back as the one its direction is coded by.
   */
  lemma AnimationFieldsRoundTrip(begin: int, end: int, dir: int, dirRange: int, speed: int,
                                 first: int, firstRange: int)
    ensures var d := DecodeDirection(dir, dirRange);
      EncodeAnimation(DecodeAnimation(begin, end, dir, dirRange, speed, first, firstRange)) ==
      (begin, end, EncodeDirection(d).0, EncodeDirection(d).1, speed, first, firstRange)
  {
  }

  /** Every frame with whole shapes is the decoding of the fields it reads back to. */
  lemma AnimationFrameRoundTrip(a: AnimationFrame)
    requires WholeShapes(a)
    ensures var e := EncodeAnimation(a);
      DecodeAnimation(e.0, e.1, e.2, e.3, e.4, e.5, e.6) == a
  {
    DirectionTable(a.direction, 0, 0);
    var e := EncodeAnimation(a);
    assert LongToFixed(e.0) == a.shapes.begin;
    assert LongToFixed(e.1) + 1 == a.shapes.end;
    assert LongToFixed(e.5) == a.first.begin;
    assert LongToFixed(e.5 + e.6) == a.first.end;
  }

  datatype VectorKind = Bolt | BeamToObject | BeamToCoord | BeamToObjectLightning | BeamToCoordLightning

  /** The vector kind table: codes 1 to 4 are beams, every other code a bolt. */
  function DecodeVectorKind(kind: int): (k: VectorKind)
    ensures k == Bolt <==> !(1 <= kind <= 4)
  {
    if kind == 1 then BeamToObject
    else if kind == 2 then BeamToCoord
    else if kind == 3 then BeamToObjectLightning
    else if kind == 4 then BeamToCoordLightning
    else Bolt
  }

  function VectorKindCode(k: VectorKind): int
  {
    match k
    case Bolt => 0
    case BeamToObject => 1
    case BeamToCoord => 2
    case BeamToObjectLightning => 3
    case BeamToCoordLightning => 4
  }

  lemma VectorKindRoundTrip(k: VectorKind)
    ensures DecodeVectorKind(VectorKindCode(k)) == k
  {
  }

  /**
   * How a vector is drawn: invisible for colours up to 16, a bolt in the colour's
   * translated shade, or a beam in the colour's hue (its high nibble).
   */
  datatype VectorLook = Invisible | BoltColor(color: int) | BeamHue(hue: int)

  function DecodeVectorLook(kind: int, color: int): (v: VectorLook)
    requires 0 <= color < 256
    ensures v.Invisible? <==> color <= 16
    ensures v.BoltColor? ==> DecodeVectorKind(kind) == Bolt && v.color == color
    ensures v.BeamHue? ==> DecodeVectorKind(kind) != Bolt && 1 <= v.hue < 16 && v.hue == color / 16
  {
    if color <= 16 then Invisible
    else if DecodeVectorKind(kind) == Bolt then BoltColor(color)
    else BeamHue(color / 16)
  }

  /** The record fields the decoding reads. Fixed-point fields are raw values. */
  datatype RawBaseObject = RawBaseObject(
    attributes: bv32, offense: int, maxVelocity: int, initialVelocity: int,
    initialVelocityRange: int, initialAge: int, ageRange: int, icon: int,
    initialDirection: int, initialDirectionRange: int, friendDeficit: int,
    buildRatio: int, buildTime: nat, levelTag: int, engageTag: int, orderTag: int)

  /** The decoded fields of a base object. */
  datatype BaseObjectRecord = BaseObjectRecord(
    attributes: bv32, offenseValue: int, maxVelocity: int, initialVelocity: Range,
    initialAge: Range, occupyCount: int, icon: Icon, initialDirection: Range,
    friendDefecit: int, buildRatio: int, buildTime: nat, levelKeyTag: string,
    engageKeyTag: string, orderKeyTag: string, frameKind: FrameKind)

  /**
   * `read_from(BaseObject*)`, after the fields are read: the attributes are
   * normalised, spreads become ranges, the icon and key tags are decoded, and the
   * occupation count follows the normalised neutral-death bit.
   */
  function DecodeBaseObject(raw: RawBaseObject): (b: BaseObjectRecord)
    requires 0 <= raw.levelTag < 16 && 0 <= raw.engageTag < 16 && 0 <= raw.orderTag < 16
    ensures b.attributes == NormaliseAttributes(raw.attributes)
    ensures b.offenseValue == raw.offense && b.maxVelocity == raw.maxVelocity
    ensures b.friendDefecit == raw.friendDeficit && b.buildRatio == raw.buildRatio
    ensures b.initialVelocity == SpreadRange(raw.initialVelocity, raw.initialVelocityRange)
    ensures b.initialDirection == SpreadRange(raw.initialDirection, raw.initialDirectionRange)
    ensures b.initialAge == InitialAge(raw.initialAge, raw.ageRange)
    ensures b.icon == DecodeIcon(raw.icon)
    ensures b.levelKeyTag == KeyTag(raw.levelTag) && b.engageKeyTag == KeyTag(raw.engageTag)
    ensures b.orderKeyTag == KeyTag(raw.orderTag)
    ensures b.buildTime == BuildTime(raw.buildTime)
    ensures b.occupyCount == OccupyCount(raw.attributes, raw.ageRange)
    ensures b.frameKind == FrameKindOf(b.attributes)
    ensures b.buildTime * 10 <= raw.buildTime * 3 < b.buildTime * 10 + 30
  {
    var a := NormaliseAttributes(raw.attributes);
    NormaliseKeepsNeutralDeath(raw.attributes);
    BaseObjectRecord(
      a, raw.offense, raw.maxVelocity, SpreadRange(raw.initialVelocity, raw.initialVelocityRange),
      InitialAge(raw.initialAge, raw.ageRange), OccupyCount(a, raw.ageRange),
      DecodeIcon(raw.icon), SpreadRange(raw.initialDirection, raw.initialDirectionRange),
      raw.friendDeficit, raw.buildRatio, BuildTime(raw.buildTime), KeyTag(raw.levelTag),
      KeyTag(raw.engageTag), KeyTag(raw.orderTag), FrameKindOf(a))
  }

  /**
   * A decoded record is a fixed point of the decoding: reading it again with its own
   * normalised attributes in place of the raw ones gives the same record, so its frame
   * kind and occupation count are those of its attributes.
   */
  lemma DecodeStable(raw: RawBaseObject)
    requires 0 <= raw.levelTag < 16 && 0 <= raw.engageTag < 16 && 0 <= raw.orderTag < 16
    ensures var b := DecodeBaseObject(raw);
      DecodeBaseObject(raw.(attributes := b.attributes)) == b
  {
    NormaliseIdempotent(raw.attributes);
    NormaliseKeepsNeutralDeath(raw.attributes);
  }

  /** Two records with the same decoded key tags carry the same tag nibbles. */
  lemma DecodedTagsRecover(r1: RawBaseObject, r2: RawBaseObject)
    requires 0 <= r1.levelTag < 16 && 0 <= r1.engageTag < 16 && 0 <= r1.orderTag < 16
    requires 0 <= r2.levelTag < 16 && 0 <= r2.engageTag < 16 && 0 <= r2.orderTag < 16
    requires DecodeBaseObject(r1).levelKeyTag == DecodeBaseObject(r2).levelKeyTag
    requires DecodeBaseObject(r1).engageKeyTag == DecodeBaseObject(r2).engageKeyTag
    requires DecodeBaseObject(r1).orderKeyTag == DecodeBaseObject(r2).orderKeyTag
    ensures r1.levelTag == r2.levelTag && r1.engageTag == r2.engageTag && r1.orderTag == r2.orderTag
  {
    KeyTagInjective(r1.levelTag, r2.levelTag);
    KeyTagInjective(r1.engageTag, r2.engageTag);
    KeyTagInjective(r1.orderTag, r2.orderTag);
  }
}
