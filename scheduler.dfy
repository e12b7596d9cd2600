/**
 * The tick scheduler of `PlayTheGame` (src/AresMain.cpp): wall-clock samples become
 * game ticks, ticks are processed in chunks no longer than `maxTimePerCycle` that
 * never overrun a decide cycle of `decideEveryCycles` ticks, and once per full decide
 * cycle the AI, input and collision passes run, with scenario conditions checked
 * every 30 decide cycles. The passes themselves, drawing and the menu screens are
 * outside this model; the passes are counted, and what input they return is a
 * parameter.
 */
module Scheduler {
  /** Fast motion advances the game by this many ticks per frame. */
  const FastMotionTicks := 12
  /** Scenario conditions are checked once every this many decide cycles. */
  const ScenarioCheckPeriod := 30

  datatype GameResult = NoGame | QuitGame | RestartGame | WinGame | LoseGame

  /** A clock sample: the microsecond clock and whether the fast-motion key is down. */
  datatype Sample = Sample(time: int, fastMotion: bool)

  /**
   * What one decide cycle learns from outside: whether a replay tape still had keys,
   * the two outputs of the player's key pass (whether the keys asked for a pause, and
   * whether a message is being typed), and whether the mouse button is down.
   */
  datatype DecideInput = DecideInput(tapeHasKeys: bool, pause: bool, enteringMessage: bool, button: bool)

  function Min(a: int, b: int): int { if a < b then a else b }

  /** The next chunk: what is left, capped at `maxChunk` and at the rest of the decide cycle. */
  function Chunk(maxChunk: int, period: int, dc: int, units: int): int
  {
    Min(Min(units, maxChunk), period - dc)
  }

  /** The decide-cycle counter after a chunk: a full cycle starts over at 0. */
  function AfterChunk(period: int, dc: int, c: int): int
  {
    if dc + c == period then 0 else dc + c
  }

  /** The chunks `units` ticks are processed in, from decide-cycle position `dc`. */
  function Plan(maxChunk: int, period: int, dc: int, units: int): seq<int>
    requires maxChunk > 0 && 0 <= dc < period
    decreases units
  {
    if units <= 0 then []
    else
      var c := Chunk(maxChunk, period, dc, units);
      [c] + Plan(maxChunk, period, AfterChunk(period, dc, c), units - c)
  }

  /** How many decide cycles complete while processing `units` ticks from `dc`. */
  function Fired(maxChunk: int, period: int, dc: int, units: int): nat
    requires maxChunk > 0 && 0 <= dc < period
    decreases units
  {
    if units <= 0 then 0
    else
      var c := Chunk(maxChunk, period, dc, units);
      (if dc + c == period then 1 else 0) + Fired(maxChunk, period, AfterChunk(period, dc, c), units - c)
  }

  /** The decide-cycle position after processing `units` ticks from `dc`. */
  function FinalCycle(maxChunk: int, period: int, dc: int, units: int): int
    requires maxChunk > 0 && 0 <= dc < period
    decreases units
  {
    if units <= 0 then dc
    else
      var c := Chunk(maxChunk, period, dc, units);
      FinalCycle(maxChunk, period, AfterChunk(period, dc, c), units - c)
  }

  function Sum(s: seq<int>): int
  {
    if s == [] then 0 else s[0] + Sum(s[1..])
  }

  /** Every chunk is at least one tick and at most `maxChunk`. */
  lemma {:induction false} PlanChunksBounded(maxChunk: int, period: int, dc: int, units: int)
    requires maxChunk > 0 && 0 <= dc < period
    ensures forall i :: 0 <= i < |Plan(maxChunk, period, dc, units)| ==>
      0 < Plan(maxChunk, period, dc, units)[i] <= maxChunk
    decreases units
  {
    if units > 0 {
      var c := Chunk(maxChunk, period, dc, units);
      PlanChunksBounded(maxChunk, period, AfterChunk(period, dc, c), units - c);
    }
  }

  /** The chunks add up to exactly the ticks that passed. */
  lemma {:induction false} PlanSum(maxChunk: int, period: int, dc: int, units: int)
    requires maxChunk > 0 && 0 <= dc < period && units >= 0
    ensures Sum(Plan(maxChunk, period, dc, units)) == units
    decreases units
  {
    if units > 0 {
      var c := Chunk(maxChunk, period, dc, units);
      PlanSum(maxChunk, period, AfterChunk(period, dc, c), units - c);
    }
  }

  /** No chunk runs past the end of a decide cycle. */
  lemma {:induction false} PlanWithinCycle(maxChunk: int, period: int, dc: int, units: int)
    requires maxChunk > 0 && 0 <= dc < period
    ensures units > 0 ==> dc + Plan(maxChunk, period, dc, units)[0] <= period
    ensures 0 <= FinalCycle(maxChunk, period, dc, units) < period
    decreases units
  {
    if units > 0 {
      var c := Chunk(maxChunk, period, dc, units);
      PlanWithinCycle(maxChunk, period, AfterChunk(period, dc, c), units - c);
    }
  }

  /** Completed decide cycles and the final position account for every tick. */
  lemma {:induction false} FiredCount(maxChunk: int, period: int, dc: int, units: int)
    requires maxChunk > 0 && 0 <= dc < period && units >= 0
    ensures Fired(maxChunk, period, dc, units) * period + FinalCycle(maxChunk, period, dc, units) == dc + units
    decreases units
  {
    if units > 0 {
      var c := Chunk(maxChunk, period, dc, units);
      var next := AfterChunk(period, dc, c);
      FiredCount(maxChunk, period, next, units - c);
      var f := Fired(maxChunk, period, next, units - c);
      var fc := FinalCycle(maxChunk, period, next, units - c);
      assert f * period + fc == next + units - c;
      assert FinalCycle(maxChunk, period, dc, units) == fc;
      if dc + c == period {
        assert Fired(maxChunk, period, dc, units) == 1 + f;
        MulSucc(f, period);
      } else {
        assert Fired(maxChunk, period, dc, units) == f;
      }
    }
  }

  lemma MulSucc(f: int, p: int)
    ensures (1 + f) * p == p + f * p
  {
  }

  /**
   * So a decide cycle fires once for every `period` ticks: processing `units` ticks
   * from position `dc` fires `(dc + units) / period` of them and leaves the position
   * at `(dc + units) % period`, however the chunks were cut.
   */
  lemma FiredIsQuotient(maxChunk: int, period: int, dc: int, units: int)
    requires maxChunk > 0 && 0 <= dc < period && units >= 0
    ensures Fired(maxChunk, period, dc, units) == (dc + units) / period
    ensures FinalCycle(maxChunk, period, dc, units) == (dc + units) % period
  {
    FiredCount(maxChunk, period, dc, units);
    PlanWithinCycle(maxChunk, period, dc, units);
    DivUnique(dc + units, period, Fired(maxChunk, period, dc, units), FinalCycle(maxChunk, period, dc, units));
  }

  lemma DivUnique(n: int, d: int, q: int, r: int)
    requires d > 0 && 0 <= r < d && q * d + r == n
    ensures q == n / d && r == n % d
  {
    var q', r' := n / d, n % d;
    assert q' * d + r' == n;
    if q != q' {
      var k := q - q';
      assert k * d == q * d - q' * d;
      assert k * d == r' - r;
      if k > 0 {
        MulAtLeast(k, d);
      } else {
        MulAtLeast(-k, d);
      }
    }
  }

  lemma MulAtLeast(x: int, d: int)
    requires x >= 1 && d > 0
    ensures x * d >= d
  {
    assert x * d == (x - 1) * d + d;
  }

  lemma MulDiv(x: int, u: int)
    requires u > 0
    ensures (x * u) / u == x
  {
    DivUnique(x * u, u, x, 0);
  }

  /** A run of clock samples, none earlier than `t` or than the one before it: the clock only moves forward. */
  ghost predicate Ordered(t: int, samples: seq<Sample>)
  {
    && (forall i :: 0 <= i < |samples| ==> t <= samples[i].time)
    && (forall i, j :: 0 <= i < j < |samples| ==> samples[i].time <= samples[j].time)
  }

  /** The state a step may leave alone, to say in one clause that it did. */
  datatype Counters = Counters(
    gameTime: int, decideCycle: int, scenarioCheckTime: int, gameOver: int,
    playerPaused: bool, mouseDown: bool, enteringMessage: bool, result: GameResult,
    decides: nat, scenarioChecks: int, movedTicks: int)

  /** `PlayTheGame`'s tick accounting. */
  class TickScheduler {
    /** kMaxTimePerCycle, kDecideEveryCycles, kTimeUnit: header constants, here parameters. */
    const maxTimePerCycle: int
    const decideEveryCycles: int
    const timeUnit: int
    /** The scenario's start time in ticks. */
    const startTime: int
    /** kOptionReplay: the game plays back a recorded tape. */
    const replay: bool

    var gameTime: int
    /** gLastTime: the clock value that corresponds to the scenario's start time. */
    var lastTime: int
    /** The latest clock sample. */
    var scrapTime: int
    var decideCycle: int
    var scenarioCheckTime: int
    var gameOver: int
    var playerPaused: bool
    var mouseDown: bool
    var enteringMessage: bool
    var result: GameResult
    /** Counters for the passes: decide cycles run, scenario checks, ticks moved. */
    var decides: nat
    var scenarioChecks: int
    var movedTicks: int
    /** The chunk sizes handed to the motion pass, in order. */
    ghost var chunkLog: seq<int>

    function Snapshot(): Counters
      reads this
    {
      Counters(gameTime, decideCycle, scenarioCheckTime, gameOver, playerPaused, mouseDown,
               enteringMessage, result, decides, scenarioChecks, movedTicks)
    }

    /** Nothing that measures time moved: the game time, the clock base and sample, the ticks. */
    twostate predicate Unmoved()
      reads this
    {
      && gameTime == old(gameTime) && movedTicks == old(movedTicks) && chunkLog == old(chunkLog)
      && lastTime == old(lastTime) && scrapTime == old(scrapTime)
    }

    /** The game time the clock says at clock value `t`. */
    function ClockTime(t: int): int
      reads this
      requires timeUnit > 0
    {
      (t - lastTime) / timeUnit + startTime
    }

    /**
     * The counters are in range and the game never runs ahead of the clock, so the
     * ticks a sample yields are never negative.
     */
    ghost predicate Valid()
      reads this
    {
      && maxTimePerCycle > 0 && decideEveryCycles > 0 && timeUnit > 0
      && 0 <= decideCycle < decideEveryCycles
      && 0 <= scenarioCheckTime < ScenarioCheckPeriod
      && startTime <= gameTime
      && lastTime <= scrapTime
      && gameTime <= ClockTime(scrapTime)
    }

    constructor (maxTimePerCycle: int, decideEveryCycles: int, timeUnit: int, startTime: int,
                 replay: bool, now: int, gameOver: int)
      requires maxTimePerCycle > 0 && decideEveryCycles > 0 && timeUnit > 0
      ensures Valid()
      ensures gameTime == startTime && lastTime == now && scrapTime == now
      ensures decideCycle == 0 && scenarioCheckTime == 0 && this.gameOver == gameOver
      ensures !playerPaused && result == NoGame && decides == 0 && chunkLog == []
    {
      this.maxTimePerCycle := maxTimePerCycle;
      this.decideEveryCycles := decideEveryCycles;
      this.timeUnit := timeUnit;
      this.startTime := startTime;
      this.replay := replay;
      gameTime := startTime;
      lastTime := now;
      scrapTime := now;
      decideCycle := 0;
      scenarioCheckTime := 0;
      this.gameOver := gameOver;
      playerPaused, mouseDown, enteringMessage := false, false, false;
      result := NoGame;
      decides, scenarioChecks, movedTicks := 0, 0, 0;
      chunkLog := [];
    }

    /**
     * Re-bases the clock so that clock value `now` means game time `t`: what fast
     * motion and a pause do to `gLastTime`.
     */
    method Rebase(now: int, t: int)
      requires Valid() && startTime <= t && gameTime <= t && scrapTime <= now
      modifies this
      ensures Valid()
      ensures scrapTime == now && ClockTime(now) == t
      ensures Snapshot() == old(Snapshot()) && chunkLog == old(chunkLog)
    {
      lastTime := now - (t - startTime) * timeUnit;
      scrapTime := now;
      MulDiv(t - startTime, timeUnit);
      assert (now - lastTime) == (t - startTime) * timeUnit;
    }

    /**
     * One clock sample: it yields the ticks its clock value is ahead of the game; with
     * fast motion (and no message being typed) it yields exactly 12 and the clock is
     * re-based to match.
     */
    method TakeSample(s: Sample) returns (units: int)
      requires Valid() && scrapTime <= s.time
      modifies this
      ensures Valid()
      ensures scrapTime == s.time && units == ClockTime(scrapTime) - gameTime && units >= 0
      ensures s.fastMotion && !enteringMessage ==> units == FastMotionTicks
      ensures !(s.fastMotion && !enteringMessage) ==> lastTime == old(lastTime)
      ensures Snapshot() == old(Snapshot()) && chunkLog == old(chunkLog)
    {
      if s.fastMotion && !enteringMessage {
        Rebase(s.time, gameTime + FastMotionTicks);
      } else {
        ClockMonotone(scrapTime, s.time);
        scrapTime := s.time;
      }
      units := ClockTime(scrapTime) - gameTime;
    }

    /**
     * The polling loop: clock samples are taken until one yields a tick. `used` is how
     * many samples were taken; when all of them yield nothing the game stands still.
     */
    method PollClock(samples: seq<Sample>) returns (units: int, used: nat)
      requires Valid() && Ordered(scrapTime, samples)
      modifies this
      ensures Valid()
      ensures units >= 0 && used <= |samples|
      ensures units == 0 ==> used == |samples|
      ensures used < |samples| ==> units > 0
      ensures used > 0 ==> scrapTime == samples[used - 1].time && units == ClockTime(scrapTime) - gameTime
      ensures used > 0 && samples[used - 1].fastMotion && !enteringMessage ==> units == FastMotionTicks
      ensures used == 0 ==> units == 0 && scrapTime == old(scrapTime) && lastTime == old(lastTime)
      ensures Snapshot() == old(Snapshot()) && chunkLog == old(chunkLog)
    {
      units := 0;
      used := 0;
      while units == 0 && used < |samples|
        invariant Valid() && used <= |samples| && units >= 0
        invariant Ordered(scrapTime, samples[used..])
        invariant used > 0 ==> scrapTime == samples[used - 1].time && units == ClockTime(scrapTime) - gameTime
        invariant used > 0 && samples[used - 1].fastMotion && !enteringMessage ==> units == FastMotionTicks
        invariant used == 0 ==> units == 0 && scrapTime == old(scrapTime) && lastTime == old(lastTime)
        invariant Snapshot() == old(Snapshot()) && chunkLog == old(chunkLog)
        decreases |samples| - used
      {
        units := TakeSample(samples[used]);
        assert Ordered(scrapTime, samples[used + 1..]) by {
          assert samples[used..][1..] == samples[used + 1..];
        }
        used := used + 1;
      }
    }

    lemma ClockMonotone(t: int, t': int)
      requires timeUnit > 0 && t <= t'
      ensures ClockTime(t) <= ClockTime(t')
    {
      DivMonotone(t - lastTime, t' - lastTime, timeUnit);
    }

    /**
     * After a pause the clock is re-based to the current game time, so the time spent
     * paused yields no ticks.
     */
    method ResumeFromPause(units: int) returns (unitsLeft: int)
      requires Valid()
      modifies this
      ensures Valid()
      ensures old(playerPaused) ==> unitsLeft == 0 && !playerPaused && ClockTime(scrapTime) == gameTime
      ensures !old(playerPaused) ==> unitsLeft == units && lastTime == old(lastTime)
      ensures scrapTime == old(scrapTime) && chunkLog == old(chunkLog)
      ensures Snapshot() == old(Snapshot()).(playerPaused := false)
    {
      unitsLeft := units;
      if playerPaused {
        playerPaused := false;
        unitsLeft := 0;
        Rebase(scrapTime, gameTime);
      }
    }

    /**
     * A negative `gGameOver` is a countdown to the end of the game: it grows by the
     * ticks that passed and is moved from 0 to 1, so it never rests at 0.
     */
    method CountDownGameOver(units: int)
      requires Valid()
      modifies this
      ensures Valid()
      ensures old(gameOver) < 0 && old(gameOver) + units != 0 ==> gameOver == old(gameOver) + units
      ensures old(gameOver) < 0 && old(gameOver) + units == 0 ==> gameOver == 1
      ensures old(gameOver) < 0 ==> gameOver != 0
      ensures old(gameOver) >= 0 ==> gameOver == old(gameOver)
      ensures scrapTime == old(scrapTime) && lastTime == old(lastTime) && chunkLog == old(chunkLog)
      ensures Snapshot() == old(Snapshot()).(gameOver := gameOver)
    {
      if gameOver < 0 {
        gameOver := gameOver + units;
        if gameOver == 0 {
          gameOver := 1;
        }
      }
    }

    /**
     * The chunk loop: the ticks are handed to the motion pass in the chunks `Plan`
     * cuts, the game time advances by all of them, and each time the decide-cycle
     * counter is exactly full one decide cycle runs with the next input and the counter
     * restarts at 0. Every 30th decide cycle checks the scenario conditions.
     */
    method RunChunks(units: int, inputs: nat -> DecideInput)
      requires Valid() && units >= 0 && gameTime + units <= ClockTime(scrapTime)
      modifies this
      ensures Valid()
      ensures gameTime == old(gameTime) + units
      ensures movedTicks == old(movedTicks) + units
      ensures chunkLog == old(chunkLog) + Plan(maxTimePerCycle, decideEveryCycles, old(decideCycle), units)
      ensures decides == old(decides) + Fired(maxTimePerCycle, decideEveryCycles, old(decideCycle), units)
      ensures decideCycle == FinalCycle(maxTimePerCycle, decideEveryCycles, old(decideCycle), units)
      ensures scenarioChecks * ScenarioCheckPeriod + scenarioCheckTime - decides ==
        old(scenarioChecks * ScenarioCheckPeriod + scenarioCheckTime - decides)
      ensures decides == old(decides) ==>
        playerPaused == old(playerPaused) && gameOver == old(gameOver) && result == old(result)
        && enteringMessage == old(enteringMessage)
      ensures decides > old(decides) ==>
        playerPaused == inputs(decides - 1).pause && enteringMessage == inputs(decides - 1).enteringMessage
      ensures old(gameOver) != 0 ==> gameOver != 0
      ensures gameOver != old(gameOver) ==> gameOver == 1
      ensures result != old(result) ==> result == QuitGame && replay && gameOver == 1
      ensures lastTime == old(lastTime) && scrapTime == old(scrapTime)
    {
      var unitsPassed := units;
      ghost var dc0 := decideCycle;
      while unitsPassed > 0
        invariant Valid() && unitsPassed >= 0
        invariant gameTime + unitsPassed <= ClockTime(scrapTime)
        invariant gameTime == old(gameTime) + (units - unitsPassed)
        invariant movedTicks == old(movedTicks) + (units - unitsPassed)
        invariant chunkLog + Plan(maxTimePerCycle, decideEveryCycles, decideCycle, unitsPassed)
          == old(chunkLog) + Plan(maxTimePerCycle, decideEveryCycles, dc0, units)
        invariant decides + Fired(maxTimePerCycle, decideEveryCycles, decideCycle, unitsPassed)
          == old(decides) + Fired(maxTimePerCycle, decideEveryCycles, dc0, units)
        invariant FinalCycle(maxTimePerCycle, decideEveryCycles, decideCycle, unitsPassed)
          == FinalCycle(maxTimePerCycle, decideEveryCycles, dc0, units)
        invariant scenarioChecks * ScenarioCheckPeriod + scenarioCheckTime - decides ==
          old(scenarioChecks * ScenarioCheckPeriod + scenarioCheckTime - decides)
        invariant decides >= old(decides)
        invariant decides == old(decides) ==>
          playerPaused == old(playerPaused) && gameOver == old(gameOver) && result == old(result)
          && enteringMessage == old(enteringMessage)
        invariant decides > old(decides) ==>
          playerPaused == inputs(decides - 1).pause && enteringMessage == inputs(decides - 1).enteringMessage
        invariant old(gameOver) != 0 ==> gameOver != 0
        invariant gameOver != old(gameOver) ==> gameOver == 1
        invariant result != old(result) ==> result == QuitGame && replay && gameOver == 1
        invariant lastTime == old(lastTime) && scrapTime == old(scrapTime)
        decreases unitsPassed
      {
        var unitsToDo := Step(unitsPassed, inputs);
        unitsPassed := unitsPassed - unitsToDo;
      }
    }

    /** One chunk of the chunk loop, with the decide cycle it may complete. */
    method Step(unitsPassed: int, inputs: nat -> DecideInput) returns (unitsToDo: int)
      requires Valid() && unitsPassed > 0 && gameTime + unitsPassed <= ClockTime(scrapTime)
      modifies this
      ensures Valid()
      ensures unitsToDo == Chunk(maxTimePerCycle, decideEveryCycles, old(decideCycle), unitsPassed)
      ensures decideCycle == AfterChunk(decideEveryCycles, old(decideCycle), unitsToDo)
      ensures gameTime == old(gameTime) + unitsToDo && movedTicks == old(movedTicks) + unitsToDo
      ensures chunkLog == old(chunkLog) + [unitsToDo]
      ensures decides == old(decides) + if old(decideCycle) + unitsToDo == decideEveryCycles then 1 else 0
      ensures scenarioChecks * ScenarioCheckPeriod + scenarioCheckTime - decides ==
        old(scenarioChecks * ScenarioCheckPeriod + scenarioCheckTime - decides)
      ensures decides == old(decides) ==>
        playerPaused == old(playerPaused) && gameOver == old(gameOver) && result == old(result)
        && enteringMessage == old(enteringMessage)
      ensures decides > old(decides) ==>
        playerPaused == inputs(old(decides)).pause && enteringMessage == inputs(old(decides)).enteringMessage
      ensures old(gameOver) != 0 ==> gameOver != 0
      ensures gameOver != old(gameOver) ==> gameOver == 1
      ensures result != old(result) ==> result == QuitGame && replay && gameOver == 1
      ensures lastTime == old(lastTime) && scrapTime == old(scrapTime)
    {
      unitsToDo := Chunk(maxTimePerCycle, decideEveryCycles, decideCycle, unitsPassed);
      decideCycle := decideCycle + unitsToDo;
      movedTicks := movedTicks + unitsToDo;
      chunkLog := chunkLog + [unitsToDo];
      gameTime := gameTime + unitsToDo;
      if decideCycle == decideEveryCycles {
        Decide(inputs(decides));
      }
    }

    /**
     * One decide cycle: a replay whose tape has run out ends the game; the player's
     * keys decide the pause and whether a message is being typed; in a replay the mouse button quits, otherwise it is
     * tracked as pressed or released; the counter restarts and every 30th cycle
     * checks the scenario conditions.
     */
    method Decide(input: DecideInput)
      requires decideCycle == decideEveryCycles
      requires 0 <= scenarioCheckTime < ScenarioCheckPeriod
      modifies this
      ensures decideCycle == 0 && decides == old(decides) + 1
      ensures playerPaused == input.pause && enteringMessage == input.enteringMessage
      ensures replay && (input.button || !input.tapeHasKeys) ==> gameOver == 1
      ensures !(replay && (input.button || !input.tapeHasKeys)) ==> gameOver == old(gameOver)
      ensures result == if replay && input.button then QuitGame else old(result)
      ensures !replay ==> mouseDown == input.button
      ensures 0 <= scenarioCheckTime < ScenarioCheckPeriod
      ensures scenarioChecks * ScenarioCheckPeriod + scenarioCheckTime ==
        old(scenarioChecks * ScenarioCheckPeriod + scenarioCheckTime) + 1
      ensures Unmoved()
    {
      decides := decides + 1;
      if replay && !input.tapeHasKeys {
        gameOver := 1;
      }
      playerPaused, enteringMessage := input.pause, input.enteringMessage;
      HandleButton(input.button);
      decideCycle := 0;
      CountScenarioCheck();
    }

    /** The mouse button in a decide cycle: a replay quits, a game tracks press and release. */
    method HandleButton(button: bool)
      modifies this
      ensures replay && button ==> result == QuitGame && gameOver == 1
      ensures !(replay && button) ==> result == old(result) && gameOver == old(gameOver)
      ensures !replay ==> mouseDown == button
      ensures Unmoved() && decideCycle == old(decideCycle) && decides == old(decides)
      ensures playerPaused == old(playerPaused) && scenarioCheckTime == old(scenarioCheckTime)
      ensures scenarioChecks == old(scenarioChecks) && enteringMessage == old(enteringMessage)
    {
      if button {
        if replay {
          result := QuitGame;
          gameOver := 1;
        } else {
          mouseDown := true;
        }
      } else if mouseDown {
        mouseDown := false;
      }
    }

    /** `scenarioCheckTime` counts decide cycles modulo 30; at each wrap the conditions are checked. */
    method CountScenarioCheck()
      requires 0 <= scenarioCheckTime < ScenarioCheckPeriod
      modifies this
      ensures 0 <= scenarioCheckTime < ScenarioCheckPeriod
      ensures old(scenarioCheckTime) + 1 == ScenarioCheckPeriod ==>
        scenarioCheckTime == 0 && scenarioChecks == old(scenarioChecks) + 1
      ensures old(scenarioCheckTime) + 1 < ScenarioCheckPeriod ==>
        scenarioCheckTime == old(scenarioCheckTime) + 1 && scenarioChecks == old(scenarioChecks)
      ensures Unmoved() && decideCycle == old(decideCycle) && decides == old(decides)
      ensures playerPaused == old(playerPaused) && gameOver == old(gameOver) && result == old(result)
      ensures mouseDown == old(mouseDown) && enteringMessage == old(enteringMessage)
    {
      scenarioCheckTime := scenarioCheckTime + 1;
      if scenarioCheckTime == ScenarioCheckPeriod {
        scenarioCheckTime := 0;
        scenarioChecks := scenarioChecks + 1;
      }
    }

    /**
     * One pass of the frame loop, up to drawing: poll the clock, resynchronise after a
     * pause, count down a game that is ending, and process the ticks.
     */
    method Frame(samples: seq<Sample>, inputs: nat -> DecideInput) returns (unitsDone: int)
      requires Valid() && Ordered(scrapTime, samples)
      modifies this
      ensures Valid()
      ensures unitsDone >= 0 && gameTime == old(gameTime) + unitsDone
      ensures old(playerPaused) ==> unitsDone == 0
      ensures decides - old(decides) == (old(decideCycle) + unitsDone) / decideEveryCycles
      ensures decideCycle == (old(decideCycle) + unitsDone) % decideEveryCycles
    {
      var units, used := PollClock(samples);
      units := ResumeFromPause(units);
      CountDownGameOver(units);
      ghost var dc := decideCycle;
      RunChunks(units, inputs);
      FiredIsQuotient(maxTimePerCycle, decideEveryCycles, dc, units);
      unitsDone := units;
    }

    /**
     * The end of `PlayTheGame`: the whole seconds played, and the result, where a game
     * that ended without one is won exactly when the winner is the player's admiral.
     */
    method Finish(now: int, winner: int, playerAdmiral: int) returns (seconds: int, r: GameResult)
      requires Valid() && lastTime <= now
      ensures seconds == (now - lastTime) / 1000000
      ensures result != NoGame ==> r == result
      ensures result == NoGame ==> (r == WinGame <==> winner == playerAdmiral)
      ensures result == NoGame ==> (r == LoseGame <==> winner != playerAdmiral)
    {
      var additionalSeconds := 0;
      seconds := (now - lastTime) / 1000000 + additionalSeconds;
      if result == NoGame {
        r := if winner == playerAdmiral then WinGame else LoseGame;
      } else {
        r := result;
      }
    }
  }

  lemma DivMonotone(a: int, b: int, d: int)
    requires d > 0 && a <= b
    ensures a / d <= b / d
  {
    var qa, qb := a / d, b / d;
    assert qa * d + a % d == a && qb * d + b % d == b;
    MulStep(qa, qb, d);
  }

  lemma MulStep(x: int, y: int, d: int)
    requires d > 0
    ensures x > y ==> x * d >= y * d + d
  {
    if x > y {
      MulAtLeast(x - y, d);
      assert (x - y) * d == x * d - y * d;
    }
  }

  /**
   * The random seed around a game: a replay plays with the tape's seed and the seed
   * from before the game is restored afterwards; a normal game continues the seed.
   * `play` is what the game does to the seed.
   */
  method PlayScenario(replay: bool, seed: int, tapeSeed: int, play: int -> int)
    returns (gameSeed: int, after: int)
    ensures replay ==> gameSeed == tapeSeed && after == seed
    ensures !replay ==> gameSeed == seed && after == play(seed)
  {
    var randomSeed := seed;
    var saveSeed := 0;
    if replay {
      saveSeed := randomSeed;
      randomSeed := tapeSeed;
    }
    gameSeed := randomSeed;
    randomSeed := play(randomSeed);
    if replay {
      randomSeed := saveSeed;
    }
    after := randomSeed;
  }
}
