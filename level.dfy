/**
 * Field decoding of level records (src/data/level.cpp): the level type derived from
 * its players, the start-time word, action ranges, the argument kind a condition
 * reads, brief-point kinds and the validation of a scenario-info document. The binary
 * reader and the resource texts a level loads are not part of this model.
 */
module Level {
  import opened Wrappers
  import Limits

  datatype PlayerType = SingleHuman | NetworkHuman | OtherPlayer(code: int)
  datatype LevelType = Demo | Solo | Net

  /** The level type: that of the last human player, and a demo when there is none. */
  function TypeOfPlayers(players: seq<PlayerType>): (t: LevelType)
  {
    if players == [] then Demo
    else match players[|players| - 1]
      case SingleHuman => Solo
      case NetworkHuman => Net
      case OtherPlayer(_) => TypeOfPlayers(players[..|players| - 1])
  }

  /** A level is a demo exactly when none of its players is human. */
  lemma {:induction false} DemoIffNoHuman(players: seq<PlayerType>)
    ensures TypeOfPlayers(players) == Demo <==> forall i :: 0 <= i < |players| ==> players[i].OtherPlayer?
  {
    if players != [] {
      DemoIffNoHuman(players[..|players| - 1]);
      assert forall i :: 0 <= i < |players| - 1 ==> players[..|players| - 1][i] == players[i];
    }
  }

  /** Player `k` is human and every player after it is a computer. */
  predicate LastHumanAt(players: seq<PlayerType>, k: int)
  {
    0 <= k < |players| && !players[k].OtherPlayer? &&
    forall i :: k < i < |players| ==> players[i].OtherPlayer?
  }

  /** A level is solo or net because of its last human player, who is of that kind. */
  lemma {:induction false} TypeFromLastHuman(players: seq<PlayerType>)
    requires TypeOfPlayers(players) != Demo
    ensures exists k ::
      LastHumanAt(players, k) && (players[k].SingleHuman? <==> TypeOfPlayers(players) == Solo)
  {
    var n := |players|;
    if players[n - 1].OtherPlayer? {
      var prefix := players[..n - 1];
      TypeFromLastHuman(prefix);
      var k :| LastHumanAt(prefix, k) && (prefix[k].SingleHuman? <==> TypeOfPlayers(prefix) == Solo);
      assert forall i :: k < i < n - 1 ==> players[i] == prefix[i];
      assert LastHumanAt(players, k);
    } else {
      assert LastHumanAt(players, n - 1);
    }
  }

  /**
   * The player loop of `read_from(Level*)`: the type starts as a demo and each human
   * player read sets it; a player record that cannot be read (None) fails the read.
   */
  method ReadLevelType(players: seq<Option<PlayerType>>) returns (r: Option<LevelType>)
    requires |players| == Limits.MaxPlayerNum
    ensures r.None? <==> exists i :: 0 <= i < |players| && players[i].None?
    ensures r.Some? ==> r.value == TypeOfPlayers(Values(players))
  {
    var t := Demo;
    for i := 0 to |players|
      invariant forall j :: 0 <= j < i ==> players[j].Some?
      invariant t == TypeOfPlayers(Values(players[..i]))
    {
      if players[i].None? {
        return None;
      }
      assert players[..i + 1][..i] == players[..i];
      match players[i].value {
        case SingleHuman => t := Solo;
        case NetworkHuman => t := Net;
        case OtherPlayer(_) =>
      }
    }
    assert players[..|players|] == players;
    return Some(t);
  }

  /** The player types of a list of successful reads. */
  function Values(players: seq<Option<PlayerType>>): (v: seq<PlayerType>)
    requires forall i :: 0 <= i < |players| ==> players[i].Some?
    ensures |v| == |players|
    ensures forall i :: 0 <= i < |v| ==> v[i] == players[i].value
  {
    if players == [] then [] else Values(players[..|players| - 1]) + [players[|players| - 1].value]
  }

  /**
   * The start-time word: its low 15 bits are the start time in seconds and its top
   * bit marks a training level.
   */
  function StartTime(word: bv16): (seconds: int)
    ensures 0 <= seconds < 0x8000
  {
    (word & 0x7fff) as int
  }

  function IsTraining(word: bv16): bool
  {
    word & 0x8000 != 0
  }

  /** The two parts of the start-time word give back the word. */
  lemma StartTimeSplit(word: bv16)
    ensures StartTime(word) + (if IsTraining(word) then 0x8000 else 0) == word as int
  {
    if IsTraining(word) {
      assert word == (word & 0x7fff) | 0x8000;
      assert (word & 0x7fff) as int + 0x8000 == ((word & 0x7fff) | 0x8000) as int;
    } else {
      assert word == word & 0x7fff;
    }
  }

  /** The range of actions a condition triggers: `[start, end)`. */
  datatype ActionRange = ActionRange(start: int, end: int)

  /** `read_action`: `count` actions from a non-negative `start`, none otherwise. */
  function ReadAction(start: int, count: int): (a: ActionRange)
    ensures a.start == start
    ensures start >= 0 ==> a.end - a.start == count
    ensures start < 0 ==> a.end == a.start
  {
    ActionRange(start, if start >= 0 then start + count else start)
  }

  datatype ConditionKind =
    | CounterCondition | CounterGreaterCondition | CounterNotCondition
    | DestructionCondition | OwnerCondition | NoShipsLeftCondition | ZoomLevelCondition
    | VelocityLessThanEqualToCondition | TimeCondition
    | ProximityCondition | DistanceGreaterCondition
    | CurrentMessageCondition | CurrentComputerCondition
    | OtherCondition(code: int)

  /** What a condition reads from its 12-byte argument section. */
  datatype ConditionArgument = CounterArgument | LongValue | FixedValue | TimeValue
                             | UnsignedLongValue | LocationValue | NoArgument

  /** The argument a condition kind reads; unlisted kinds read none. */
  function ConditionArgumentOf(kind: ConditionKind): (a: ConditionArgument)
    ensures a == NoArgument <==> kind.OtherCondition?
  {
    match kind
    case CounterCondition => CounterArgument
    case CounterGreaterCondition => CounterArgument
    case CounterNotCondition => CounterArgument
    case DestructionCondition => LongValue
    case OwnerCondition => LongValue
    case NoShipsLeftCondition => LongValue
    case ZoomLevelCondition => LongValue
    case VelocityLessThanEqualToCondition => FixedValue
    case TimeCondition => TimeValue
    case ProximityCondition => UnsignedLongValue
    case DistanceGreaterCondition => UnsignedLongValue
    case CurrentMessageCondition => LocationValue
    case CurrentComputerCondition => LocationValue
    case OtherCondition(_) => NoArgument
  }

  /**
   * Whether reading a condition succeeds, given whether the read of its argument
   * succeeds: an unlisted kind always succeeds, every other kind succeeds exactly
   * when its argument reads.
   */
  function ReadConditionArgument(kind: ConditionKind, argumentRead: bool): (ok: bool)
    ensures kind.OtherCondition? ==> ok
    ensures !kind.OtherCondition? ==> (ok <==> argumentRead)
  {
    if ConditionArgumentOf(kind) == NoArgument then true else argumentRead
  }

  datatype BriefPointKind = NoPointKind | BriefObjectKind | BriefAbsoluteKind
                          | BriefFreestandingKind | OtherBriefKind(code: int)

  /**
   * Whether reading a brief point succeeds: kinds without data succeed, object and
   * absolute points succeed when their data reads, and an unknown kind fails.
   */
  function ReadBriefPoint(kind: BriefPointKind, dataRead: bool): (ok: bool)
    ensures kind.OtherBriefKind? ==> !ok
    ensures (kind == NoPointKind || kind == BriefFreestandingKind) ==> ok
    ensures (kind == BriefObjectKind || kind == BriefAbsoluteKind) ==> (ok <==> dataRead)
  {
    match kind
    case NoPointKind => true
    case BriefFreestandingKind => true
    case BriefObjectKind => dataRead
    case BriefAbsoluteKind => dataRead
    case OtherBriefKind(_) => false
  }

  /** A value of the scenario-info document. */
  datatype Value = StringValue(s: string) | IntValue(i: int) | OtherValue

  datatype ScenarioInfo = ScenarioInfo(
    title: string, downloadURL: string, author: string, authorURL: string, version: string,
    warpInFlare: int, warpOutFlare: int, playerBody: int, energyBlob: int)

  const StringFields: seq<string> := ["title", "download_url", "author", "author_url", "version"]
  const IdFields: seq<string> := ["warp_in_flare", "warp_out_flare", "player_body", "energy_blob"]

  /** A field read as a string: a missing or non-string field reads as empty. */
  function AsString(m: map<string, Value>, field: string): string
  {
    if field in m && m[field].StringValue? then m[field].s else []
  }

  predicate IsInt(m: map<string, Value>, field: string)
  {
    field in m && m[field].IntValue?
  }

  /** What `read_from(ScenarioInfo*)` accepts. */
  predicate ValidScenarioInfo(m: map<string, Value>)
  {
    && (forall i :: 0 <= i < |StringFields| ==> AsString(m, StringFields[i]) != [])
    && (forall i :: 0 <= i < |IdFields| ==> IsInt(m, IdFields[i]))
  }

  /**
   * `read_from(ScenarioInfo*)` after parsing: every string field must be non-empty and
   * every object field an integer, and then each is copied into the info.
   */
  method ReadScenarioInfo(m: map<string, Value>) returns (r: Option<ScenarioInfo>)
    ensures r.Some? <==> ValidScenarioInfo(m)
    ensures r.Some? ==>
      && r.value.title == AsString(m, "title") && r.value.downloadURL == AsString(m, "download_url")
      && r.value.author == AsString(m, "author") && r.value.authorURL == AsString(m, "author_url")
      && r.value.version == AsString(m, "version")
      && r.value.title != [] && r.value.downloadURL != [] && r.value.author != []
      && r.value.authorURL != [] && r.value.version != []
      && IsInt(m, "warp_in_flare") && r.value.warpInFlare == m["warp_in_flare"].i
      && IsInt(m, "warp_out_flare") && r.value.warpOutFlare == m["warp_out_flare"].i
      && IsInt(m, "player_body") && r.value.playerBody == m["player_body"].i
      && IsInt(m, "energy_blob") && r.value.energyBlob == m["energy_blob"].i
  {
    for k := 0 to |StringFields|
      invariant forall i :: 0 <= i < k ==> AsString(m, StringFields[i]) != []
    {
      if AsString(m, StringFields[k]) == [] {
        return None;
      }
    }
    for k := 0 to |IdFields|
      invariant forall i :: 0 <= i < k ==> IsInt(m, IdFields[i])
    {
      if !IsInt(m, IdFields[k]) {
        return None;
      }
    }
    assert AsString(m, StringFields[0]) != [] && AsString(m, StringFields[1]) != [];
    assert AsString(m, StringFields[2]) != [] && AsString(m, StringFields[3]) != [];
    assert AsString(m, StringFields[4]) != [];
    assert IsInt(m, IdFields[0]) && IsInt(m, IdFields[1]) && IsInt(m, IdFields[2]) && IsInt(m, IdFields[3]);
    return Some(ScenarioInfo(
      AsString(m, "title"), AsString(m, "download_url"), AsString(m, "author"),
      AsString(m, "author_url"), AsString(m, "version"),
      m["warp_in_flare"].i, m["warp_out_flare"].i, m["player_body"].i, m["energy_blob"].i));
  }
}
