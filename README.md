# Antares game core in Dafny

This project models the core of Antares, an open-source remake of the space strategy
game Ares, and proves properties of the model. It covers:

- **The admirals** (`src/game/admiral.cpp`). An admiral is the AI or human player behind
  one side, with its purse, build table and cursor handles. The model covers the
  destination table the admirals earn from and build at, the escort ledger kept by
  `SetObjectDestination` and `RemoveObjectFromDestination`, and the target scoring of
  `Admiral::think`. It also covers the per-tick `AdmiralThink` pass: build countdown,
  payment and thinking.
- **The tick scheduler of `PlayTheGame`** (`src/AresMain.cpp`). Clock samples become
  game ticks. The ticks are processed in chunks that never overrun a decide cycle, and
  the decide cycles count scenario checks. The replay random seed is saved and
  restored around a game.
- **The message system** (`src/game/messages.cpp`): long-message paging, the
  short-message queue, and the syntax of special labels.
- **The key-setup screen** (`src/KeySetupScreen.c`): key conflicts, tabs, key-button
  cycling, and commit or cancel.
- **The data readers:** base objects (`src/data/base-object.cpp`), levels
  (`src/data/level.cpp`) and interface items (`src/data/interface.cpp`). The model
  covers their value checks and decodings, not the byte-level reading.
- **The gamepad button names** (`src/config/gamepad.cpp`).

**Form of the model.**

- Global tables (`gDestBalanceData`, `gAdmiralData`, the space-object table) are
  `array`s of datatype records, passed to the methods that update them.
- An admiral is a `class`. Its mutable record parts (identity, purse, cursors, build
  table, score) are fields.
- The long message, the message screen, the key-setup screen and the tick scheduler are
  classes.
- Pure computations (decodings, label parsing, scoring, chunk plans) are functions, with
  lemmas about them.
- Fixed-point values are raw integers with 8 fractional bits (`0x100` is 1.0). The
  source's `>>` on signed values is floor division, and Dafny's `/` by a positive
  divisor is the same.
- Random draws (`gRandomSeed.next(n)`) are parameters constrained to `[0, n)`.
- Base-object lookups by class and race (`mGetBaseObjectFromClassRace`) are a function
  parameter.

Several table sizes come from headers that are not part of this model. They are
constants with the values the game ships with:

- `kMaxPlayerNum` = 4;
- `kMaxDestObject` = 10;
- `kMaxTypeBaseCanBuild` = 12;
- `kMaxShipCanBuild` = 6;
- `kMaxNumAdmiralCanBuild` = `kMaxDestObject * kMaxTypeBaseCanBuild`;
- `kTimeToCheckHome` = 900;
- the key-setup tabs hold 8, 11, 9, 6 and 10 keys, so `kKeyExtendedControlNum` = 44.

The scheduler's `kMaxTimePerCycle`, `kDecideEveryCycles` and `kTimeUnit` are parameters.

## Model

| member | source | states |
|---|---|---|
| Fixed.LongToFixed | src/game/admiral.cpp:1073 | the fixed-point value of a whole number is a whole multiple of 1.0 whose whole part is the number |
| Fixed.FixedToLong | src/game/admiral.cpp:1072 | the whole part of a fixed-point value is its floor: the largest whole number not above it |
| Fixed.LongRoundTrip | src/game/admiral.cpp:1072-1073 | reading back the whole part of a whole number's fixed-point value gives the number |
| Fixed.WholeCompare | src/game/admiral.cpp:1072-1073 | a price is at most the whole part of the cash exactly when its fixed-point value is at most the cash, so `build` never drives the cash negative |
| Fixed.MulFixed | src/game/admiral.cpp:1094 | the fixed-point product is the exact product scaled down by 1.0; the rounding toward zero is this model's choice, since `mMultiplyFixed` is defined outside the modelled files |
| Fixed.MulOne | src/game/admiral.cpp:1094 | an earning power of 1.0 pays exactly the amount |
| Fixed.MulNonNegative | src/game/admiral.cpp:1094 | non-negative amounts and powers give a non-negative payment |
| Gamepad.IndexFrom | src/config/gamepad.cpp:38-45 | reference search: the first index in the range whose name matches, with no match before it; none exactly when no name in the range matches |
| Gamepad.Num | src/config/gamepad.cpp:38-45 | the button number is the first matching index in `[BEGIN, END)`, or 0 when none matches |
| Gamepad.NumZeroIffUnknown | src/config/gamepad.cpp:38-45 | for a range starting above 0, the answer is 0 exactly when no button has the name |
| Gamepad.Name | src/config/gamepad.cpp:47-53 | success exactly for a button inside the name list; it then yields that button's name, and otherwise the output is untouched |
| BaseObject.NormaliseKeepsOtherBits | src/data/base-object.cpp:49-53 | normalising the attributes touches only the shape-from-direction and vector bits; attributes with neither the self-animated nor the shape-from-direction bit are left unchanged |
| BaseObject.NormaliseClears | src/data/base-object.cpp:49-53 | a self-animated object loses the shape-from-direction and vector bits; an object drawn by direction loses the vector bit and keeps its direction bit |
| BaseObject.NormaliseKeepsNeutralDeath | src/data/base-object.cpp:49-53 | the neutral-death bit survives normalisation |
| BaseObject.NormalisedKindsExclusive | src/data/base-object.cpp:49-53 | after normalisation at most one frame-kind bit is set |
| BaseObject.NormaliseIdempotent | src/data/base-object.cpp:49-53 | normalising twice is normalising once |
| BaseObject.FrameKindOf | src/data/base-object.cpp:108-116 | the frame kind is rotation exactly for shape-from-direction, animation exactly for self-animated without it, vector exactly for the vector bit alone, and a weapon frame otherwise |
| BaseObject.FrameKindOfNormalised | src/data/base-object.cpp:108-116 | after normalisation a self-animated object reads an animation frame and an object drawn by direction a rotation frame |
| BaseObject.SpreadRange | src/data/base-object.cpp:60-62 | a value and a spread give a range starting at the value, as wide as the spread, and empty for a negative spread |
| BaseObject.InitialAge | src/data/base-object.cpp:63-68 | a non-negative age gives the spread range; a negative age gives the empty range at -1 |
| BaseObject.OccupyCount | src/data/base-object.cpp:70-74 | the occupy count is the age range for a neutral-death object and -1 otherwise |
| BaseObject.DecodeIcon | src/data/base-object.cpp:78-89 | the icon size is below 16; a code outside `(0, 0x50)` gives a size-0 square |
| BaseObject.IconRoundTrip | src/data/base-object.cpp:78-89 | every icon but the size-0 square decodes back from its code: shape from the high nibble, size from the low |
| BaseObject.IconSquareAliases | src/data/base-object.cpp:78-89 | high nibble 0 and high nibble 4 both mean a square |
| BaseObject.BuildTime | src/data/base-object.cpp:98 | the stored build time is 3 ticks per whole 10 units of the raw value, so it is always a multiple of 3 |
| BaseObject.KeyTag | src/data/base-object.cpp:100-106 | a zero nibble gives no tag; any other gives one character of the lower-case digit table `0123456789abcdef` that reads back as the nibble |
| BaseObject.KeyTagInjective | src/data/base-object.cpp:100-106 | different nibbles give different key tags |
| BaseObject.DirectionTable | src/data/base-object.cpp:141-151 | each animation direction decodes back from its code pair, and any pair outside the table means no direction |
| BaseObject.DecodeAnimation | src/data/base-object.cpp:129-154 | the shape range has the given whole bounds and its end is one raw unit above the last frame; the speed is the raw speed; the first-shape range starts at the given whole first shape and has the given width; the direction is decoded |
| BaseObject.AnimationFieldsRoundTrip | src/data/base-object.cpp:129-154 | the fields of a decoded frame read back as the record's, and its direction reads back as the code pair of the decoded direction |
| BaseObject.AnimationFrameRoundTrip | src/data/base-object.cpp:129-154 | every frame whose ranges lie on whole shapes is the decoding of the fields it reads back to |
| BaseObject.DecodeVectorKind | src/data/base-object.cpp:161-167 | a kind outside 1..4 is a bolt |
| BaseObject.VectorKindRoundTrip | src/data/base-object.cpp:161-167 | every vector kind decodes back from its code |
| BaseObject.DecodeVectorLook | src/data/base-object.cpp:168-176 | a colour of 16 or less is invisible; otherwise a bolt keeps the colour and a beam takes the hue (the high nibble) |
| BaseObject.DecodeBaseObject | src/data/base-object.cpp:27-118 | the decoded record has normalised attributes; offense, maximum velocity, friend deficit and build ratio copied; the velocity and direction spread ranges and the initial age range; the decoded icon and three key tags; the build time scaled by 3/10; and the occupy count and frame kind of its normalised attributes |
| BaseObject.DecodeStable | src/data/base-object.cpp:49-53 | decoding again with the record's own normalised attributes gives the same record |
| BaseObject.DecodedTagsRecover | src/data/base-object.cpp:100-106 | records with the same decoded key tags carry the same tag nibbles |
| Level.DemoIffNoHuman | src/data/level.cpp:76-86 | a level is a demo exactly when no player is a human |
| Level.TypeFromLastHuman | src/data/level.cpp:76-86 | the level type is set by the last human player's kind: single-player or net |
| Level.ReadLevelType | src/data/level.cpp:76-86 | the read fails exactly when some player fails to read, and otherwise the type is that of the players read |
| Level.Values | src/data/level.cpp:76-86 | the players read are the read values, in order |
| Level.StartTime | src/data/level.cpp:132-133 | the start time is the low 15 bits of the word |
| Level.StartTimeSplit | src/data/level.cpp:132-133 | the start time and the training bit together are the whole word |
| Level.ReadAction | src/data/level.cpp:146-154 | an action range starts at the start and holds `count` actions, or none for a negative start |
| Level.ConditionArgumentOf | src/data/level.cpp:169-201 | a condition kind has no argument exactly when it is not one of the kinds the switch lists |
| Level.ReadConditionArgument | src/data/level.cpp:156-202 | a condition without an argument always reads; one with an argument reads exactly when the argument does |
| Level.ReadBriefPoint | src/data/level.cpp:213-240 | an unknown kind fails; the no-point and free-standing kinds always read; the object and absolute kinds read exactly when their data does |
| Level.ReadScenarioInfo | src/data/level.cpp:39-69 | the info is read exactly when every string field is non-empty and every object field is an integer; each field is then copied |
| Interface.PlainKind | src/data/interface.cpp:118-191 | a `rect` item, and only a `rect` item, is a plain or labelled rectangle |
| Interface.TabRow | src/data/interface.cpp:206-223 | a tab box has one button per tab |
| Interface.InterfaceItems | src/data/interface.cpp:106-234 | the items are built exactly when every type name is known, and are then the items of the description in order; otherwise the error names the first unknown type |
| Interface.AllItemsStep | src/data/interface.cpp:106-234 | each entry appends its items, numbered after those before it |
| Interface.EntryItems | src/data/interface.cpp:118-227 | one entry's items |
| Interface.LayOutTabs | src/data/interface.cpp:192-227 | the loop lays out the tab buttons of the reference layout and ends at the last button's right edge |
| Interface.TabRowIds | src/data/interface.cpp:206-223 | tab buttons take consecutive ids |
| Interface.ItemsForIds | src/data/interface.cpp:118-227 | an entry's items take consecutive ids |
| Interface.AllItemsIds | src/data/interface.cpp:106-234 | item k of the result has id `id0 + k`: ids are dense and in order |
| Interface.AllItemsCount | src/data/interface.cpp:106-234 | the number of items is one per plain entry plus one more than its tab count per tab box |
| Interface.TabRowLayout | src/data/interface.cpp:201-223 | each tab button is its tab's width wide, sits from 20 to 10 above the box, and the next button starts 37 to its right |
| Interface.TabBoxBorder | src/data/interface.cpp:225 | the box follows its buttons with the next id; its top-right border runs from the last button to 17 before the box's right edge |
| KeySetup.ConflictTextUpdate | src/KeySetupScreen.c:162-204 | key numbers are kept; each control remembers its old conflict flag; a control conflicts exactly when another control has its key number |
| KeySetup.SameKeysSameConflicts | src/KeySetupScreen.c:162-204 | conflicts depend on the key numbers alone |
| KeySetup.ClearStoppedConflicts | src/KeySetupScreen.c:362-372 | a control that conflicted before but no longer does loses its "did conflict" flag; nothing else changes |
| KeySetup.StoreKey | src/KeySetupScreen.c:339-372 | storing a key changes just that key number; afterward the conflict flags match the new keys exactly, and a control stays marked as having conflicted exactly when it conflicted before and still does |
| KeySetup.TabNumMatchesLayout | src/KeySetupScreen.c:206-213 | every control of a tab, by the per-tab key counts, maps back to that tab |
| KeySetup.TabNumMonotone | src/KeySetupScreen.c:206-213 | later controls are never on an earlier tab |
| KeySetup.DoneButtonStatus | src/KeySetupScreen.c:384-402 | the done button is dimmed exactly when some control conflicts |
| KeySetup.KeySetupScreen.constructor | src/KeySetupScreen.c:288-314 | the screen starts on the ship tab with no key button selected, editing a fresh copy of the key numbers whose conflict flags match them exactly |
| KeySetup.KeySetupScreen.KeyPressed | src/KeySetupScreen.c:323-374 | a key is stored exactly when it is not reserved, is not 0, and a key button is selected. It goes into the selected control of the shown tab, and the selection moves to the next button, wrapping to the first; the conflict flags then match the new keys, and only controls that conflicted before and still do stay marked as having conflicted. Otherwise nothing changes |
| KeySetup.KeySetupScreen.ClickItem | src/KeySetupScreen.c:461-471 | clicking a key button of the shown tab selects it; other items leave the selection |
| KeySetup.KeySetupScreen.SelectTab | src/KeySetupScreen.c:487-559 | a tab shows its own key range and clears the selection |
| KeySetup.KeySetupScreen.Finish | src/KeySetupScreen.c:564-575 | cancel keeps the saved controls; done saves exactly the edited ones |
| Messages.HexDigitRoundTrip | src/game/messages.cpp:87-93 | every nibble's hexadecimal digit reads back as the nibble |
| Messages.LongMessage.constructor | src/game/messages.cpp:160-186 | cleared: no message shown, none to replay, no text laid out |
| Messages.LongMessage.EndLongMessage | src/game/messages.cpp:369-383 | the shown range becomes the one to replay; no message is shown; the string message becomes the last one |
| Messages.LongMessage.AdvanceCurrentLongMessage | src/game/messages.cpp:385-402 | without a message nothing changes; before the last page the next page is shown; on the last page the message ends |
| Messages.LongMessage.PreviousCurrentLongMessage | src/game/messages.cpp:404-420 | after the first page the previous one is shown; otherwise the page stays; the page never drops below the first |
| Messages.LongMessage.StartLongMessage | src/game/messages.cpp:192-223 | an idle screen starts the new range at its first page and keeps the old range for a replay; a message being shown is redirected to the new range, or ended when that range is empty |
| Messages.LongMessage.ReplayLastLongMessage | src/game/messages.cpp:422-432 | with a message to replay and none shown, the last string message is restored and the last range starts again: from its first page when the current page is -1, and paging on from before its start when the current page is below -1; otherwise nothing changes |
| Messages.LongMessage.DrawCurrentLongMessage | src/game/messages.cpp:310-367 | on a new page or string message, a shown or absent page is recorded as the last one; a page being typed out advances by the time passed, never past the end of its text; a positive teletype delay drains in steps of 3 to the one value in (-3, 0] it is congruent to modulo 3; otherwise nothing changes |
| Messages.MessageScreen.constructor | src/game/messages.cpp:160-186 | an empty queue and a stopped timer |
| Messages.MessageScreen.AddMessage | src/game/messages.cpp:188-190 | the message joins the end of the queue |
| Messages.MessageScreen.DrawMessageScreen | src/game/messages.cpp:436-464 | the head stays on screen for one display period and is then dropped; what is shown is the new head, with its lift |
| Messages.MessageLift | src/game/messages.cpp:449-457 | a label is lifted exactly while it rises or sinks, by less than the move time, counted from the nearer end of the display period |
| Messages.FindFrom | src/game/messages.cpp:502-506 | the scan stops at the first stop character after the start, or at the end of the text |
| Messages.ReadNumber | src/game/messages.cpp:494-506 | a number is read as the decimal value of the characters up to the stop character |
| Messages.ParseLabel | src/game/messages.cpp:485-538 | a label is read exactly when the text starts with `#` and has a type character, and it is then the reference reading of the text |
| Messages.ParseHint | src/game/messages.cpp:508-538 | the hint point and the message after the number are the reference readings |
| Messages.HintLine | src/game/messages.cpp:543-567 | a hint line is shown exactly for a written point or an object label. A written point is moved below the instruments and raised by 2 on either side; one right of the left panel also moves by the panel offset; without a point the attachment is (0, -2) |
| Messages.Decimal | src/game/messages.cpp:502-506 | decimal writing gives at least one digit and digits only |
| Messages.DigitsValueOfDecimal | src/game/messages.cpp:502-506 | reading the decimal digits of a number gives the number |
| Messages.HintPointRoundTrip | src/game/messages.cpp:508-538 | a written hint line `#h,v#` reads back as its point, followed by its message |
| Messages.HintRoundTrip | src/game/messages.cpp:508-538 | after a number, the written hint line (if any) and the message read back |
| Messages.LabelRoundTrip | src/game/messages.cpp:485-538 | a label written as `#<type><value>#[#h,v#]<message>` reads back as its type, value, hint point and message |
| Scheduler.PlanChunksBounded | src/AresMain.cpp:735-742 | every chunk is at least one tick and at most the longest chunk allowed |
| Scheduler.PlanSum | src/AresMain.cpp:734-815 | the chunks add up to exactly the ticks that passed |
| Scheduler.PlanWithinCycle | src/AresMain.cpp:739-742 | no chunk runs past the end of a decide cycle, and the position in the cycle stays inside it |
| Scheduler.FiredCount | src/AresMain.cpp:742-807 | the decide cycles run and the final position account for every tick |
| Scheduler.FiredIsQuotient | src/AresMain.cpp:734-815 | the decide cycles run are the quotient, and the final position is the remainder, of position plus ticks by the cycle length |
| Scheduler.TickScheduler.constructor | src/AresMain.cpp:652-686 | the game starts at the scenario's start time on the current clock, with every counter at 0 |
| Scheduler.TickScheduler.Rebase | src/AresMain.cpp:711-714 | after a re-base the clock reads the chosen game time now, and no counter changes |
| Scheduler.TickScheduler.TakeSample | src/AresMain.cpp:700-717 | a sample yields the non-negative ticks the clock is ahead of the game; with fast motion (and no message being typed) it yields exactly 12; otherwise the clock base is untouched |
| Scheduler.TickScheduler.PollClock | src/AresMain.cpp:699-718 | polling stops at the first sample that yields ticks, or after all samples when none does |
| Scheduler.TickScheduler.ClockMonotone | src/AresMain.cpp:700-703 | a later clock value never means an earlier game time |
| Scheduler.TickScheduler.ResumeFromPause | src/AresMain.cpp:720-726 | a pause drops the ticks, clears the pause and re-bases the clock on the game time; otherwise the ticks go on |
| Scheduler.TickScheduler.CountDownGameOver | src/AresMain.cpp:728-732 | a running game-over countdown advances by the ticks and becomes 1 instead of reaching 0; it never lands on 0 |
| Scheduler.TickScheduler.RunChunks | src/AresMain.cpp:734-815 | the game advances by exactly the ticks, in the reference chunks; the decide cycles counted and the final position are the reference ones; scenario checks count every 30 decide cycles; the pause and message-typing flags are those of the last decide input |
| Scheduler.TickScheduler.Step | src/AresMain.cpp:735-815 | one chunk is capped by the longest chunk and by the rest of the decide cycle; a decide runs exactly when the cycle fills |
| Scheduler.TickScheduler.Decide | src/AresMain.cpp:752-813 | the decide cycle restarts. The pause and message-typing flags are the ones the player's key pass reports. A replay ends the game on a button press (quitting) or when the tape runs out. A game tracks the button. Scenario-check counting goes on |
| Scheduler.TickScheduler.HandleButton | src/AresMain.cpp:781-804 | in a replay a press quits the game; in a game the button state is remembered |
| Scheduler.TickScheduler.CountScenarioCheck | src/AresMain.cpp:807-812 | the scenario-check counter counts decide cycles modulo 30, with a check at each wrap |
| Scheduler.TickScheduler.Frame | src/AresMain.cpp:699-815 | a frame advances the game by the ticks it processes, none while paused, and runs one decide per decide-cycle boundary crossed |
| Scheduler.TickScheduler.Finish | src/AresMain.cpp:994-1008 | the seconds played are whole seconds of clock time; with no result set, the game is won exactly when the winner is the player |
| Scheduler.PlayScenario | src/AresMain.cpp:314-315 | a replay plays with the tape's seed and restores the player's seed afterwards (lines 466-468); a normal game plays on and keeps the seed it leaves |
| Destinations.ResetAllDestObjectData | src/game/admiral.cpp:75-88 | every slot becomes free and empty |
| Destinations.Get | src/game/admiral.cpp:90-95 | a slot number inside the table is itself; any other index is none |
| Destinations.CanBuild | src/game/admiral.cpp:97-104 | a destination can build exactly when one of its first six class entries names a ship |
| Destinations.EmptyCannotBuild | src/game/admiral.cpp:75-104 | a free slot is well shaped and has nothing to build |
| Destinations.NextFreeDestination | src/game/admiral.cpp:134-141 | the lowest free slot, or none exactly when every slot is taken |
| Destinations.Truncate | src/game/admiral.cpp:168-169 | a name is cut to at most the limit, keeping its prefix, and left alone when it fits |
| Destinations.MakeNewDestination | src/game/admiral.cpp:143-184 | the object takes the lowest free slot, which then leaves the free slots; with none free, nothing changes and none is returned |
| Destinations.MadeTakesOneSlot | src/game/admiral.cpp:143-184 | filling a free slot removes exactly that slot from the free ones |
| Destinations.StopBuilding | src/game/admiral.cpp:1088-1091 | only the slot's build counters and queued base object are cleared |
| Destinations.AlterDestinationObjectOccupation | src/game/admiral.cpp:1126-1134 | an admiral's count changes by the amount and the new count is returned; without an admiral, -1 and no change |
| Destinations.ClearAllOccupants | src/game/admiral.cpp:1136-1143 | every count becomes 0 except the given admiral's, which becomes the full amount |
| Destinations.ClearedOccupantsTotal | src/game/admiral.cpp:1136-1143 | after clearing with an admiral, the counts add up to the full amount |
| Ledger.Released | src/game/admiral.cpp:577-593 | removal clears the object's destination handles. While the stored id still holds, it withdraws the object's offense from the destination's friend and escort counters (same owner) or foe counter. Nothing else changes |
| Ledger.ReleasedTwice | src/game/admiral.cpp:577-593 | removing twice is removing once |
| Ledger.RemoveObjectFromDestination | src/game/admiral.cpp:577-593 | the table becomes the reference removal of the old one |
| Ledger.Readied | src/game/admiral.cpp:513-524 | an honoured assignment restarts the home clock and then removes the object from its old destination |
| Ledger.AssignedKeepsHandles | src/game/admiral.cpp:460-575 | an assignment keeps every destination handle inside the table |
| Ledger.JoinObject | src/game/admiral.cpp:527-557 | joining copies the destination's handles and id into the object and adds its offense to the right counters |
| Ledger.SetObjectDestination | src/game/admiral.cpp:460-575 | the table becomes the reference assignment: forget without an owner; no change when no destination can be accepted, when locked, or with no admiral; forget when the admiral gives no order; otherwise remove and join |
| Ledger.JoinDeposits | src/game/admiral.cpp:513-557 | a joining assignment withdraws the object from its old destination and deposits its offense at the new one. The object holds the new handle and id with the home clock restarted, and its duty follows the raised counters (assault for a foe, guard or escort while short) |
| Ledger.JoinRoundTrip | src/game/admiral.cpp:513-593 | removing an object right after it joined gives back exactly the counters that removing it before would have left |
| Ledger.DeclineKeepsLedger | src/game/admiral.cpp:460-575 | every outcome but a join leaves the counters unchanged, or as a removal leaves them when the object aimed at itself |
| Targeting.Raised | src/game/admiral.cpp:823-824 | a soft flag multiplies a non-negative score by 2, 4 or 8 and never lowers it |
| Targeting.Jittered | src/game/admiral.cpp:961-963 | a positive score moves by at most a quarter down and a quarter up, and stays positive; other scores are kept |
| Targeting.ImportanceBounds | src/game/admiral.cpp:799-927 | base importances are non-negative and at most "absolutely essential" |
| Targeting.OwnedBounds | src/game/admiral.cpp:799-927 | the score after the ownership rules stays non-negative and bounded |
| Targeting.ScoreBounds | src/game/admiral.cpp:799-959 | every score is non-negative and fits in a signed 32-bit value |
| Targeting.JitterFits | src/game/admiral.cpp:961-963 | the jittered score also fits in a signed 32-bit value |
| Targeting.RuledOutScoresZero | src/game/admiral.cpp:799-963 | any hard order flag whose rule applies makes the score 0, and the jitter keeps it 0 |
| Targeting.NotRuledOutKeepsScore | src/game/admiral.cpp:929-959 | without an applicable hard flag the placement and key rules never lower a score |
| Targeting.OwnedRaise | src/game/admiral.cpp:799-927 | more soft flags never lower the ownership score |
| Targeting.PlacedRaise | src/game/admiral.cpp:929-951 | more soft flags never lower the placement score |
| Targeting.SoftFlagsRaise | src/game/admiral.cpp:799-959 | soft flags only ever raise a score |
| Targeting.QuietOwnDestination | src/game/admiral.cpp:799-821 | an own destination that is not short of escorts and has no foe value scores 0: the somewhat-important case there needs a positive foe value and cannot be reached |
| Targeting.EssentialComesFirst | src/game/admiral.cpp:799-803 | an own destination short of escorts has the highest base importance of any candidate |
| Admirals.DroppedForgets | src/game/admiral.cpp:186-201 | after a destination is removed, an active admiral holds no handle to it or its object |
| Admirals.ChancesKept | src/game/admiral.cpp:258-263 | adding an entry keeps every earlier entry's chance as the sum of the ratios before it |
| Admirals.EntryAdded | src/game/admiral.cpp:258-263 | entering a new class into a table with room keeps it a build table. Entries stay distinct and packed at the front, with running-sum chances and the total as their sum |
| Admirals.Admiral.constructor | src/game/admiral.cpp:69-73 | a fresh admiral is inactive with an empty build table and no hope to build |
| Admirals.Admiral.Make | src/game/admiral.cpp:113-132 | an inactive admiral becomes active with the player's settings and its name cut to 31 characters; an active one is left alone |
| Admirals.Admiral.PayAbsolute | src/game/admiral.cpp:1097-1102 | the amount is added to the cash, clamped at 0; only the purse changes |
| Admirals.Admiral.Pay | src/game/admiral.cpp:1093-1095 | the amount is scaled by the earning power before being paid |
| Admirals.Admiral.RemoveDestinationRefs | src/game/admiral.cpp:186-201 | an active admiral drops its target, consideration and build cursors on the removed slot; only the cursors change |
| Admirals.Admiral.Flagship | src/game/admiral.cpp:286-293 | the flagship is reported exactly while its handle is set and the object there still has the stored id |
| Admirals.Admiral.SetFlagship | src/game/admiral.cpp:295-302 | the flagship handle and id are stored, and the flagship then reads back as set |
| Admirals.Admiral.RecycledFlagshipIsStale | src/game/admiral.cpp:286-302 | once the flagship's slot holds an object with another id, no flagship is reported |
| Admirals.Admiral.Target | src/game/admiral.cpp:314-321 | the target is reported exactly while it has the stored id and is in use |
| Admirals.Admiral.SetTarget | src/game/admiral.cpp:304-312 | the target handle and id are stored and "has destination" is set; the target reads back when it is in use |
| Admirals.Admiral.Control | src/game/admiral.cpp:338-346 | the object under consideration is reported exactly while it has the stored id, is in use and is this admiral's |
| Admirals.Admiral.SetControl | src/game/admiral.cpp:323-336 | the object and id are stored; a destination that accepts builds and can build also becomes the build site |
| Admirals.Admiral.Build | src/game/admiral.cpp:1064-1086 | a build goes ahead exactly when the entry is in range, the site is idle, the class has a base object for the race, and the price fits the whole cash. It pays the price and queues the object for its build time (9 under the cheat); otherwise nothing changes |
| Admirals.Admiral.ClearBuildData | src/game/admiral.cpp:225-234 | the build table becomes empty with no chances and no hope |
| Admirals.Admiral.FindBuildType | src/game/admiral.cpp:243-247 | the scan finds the entry of a class exactly when the class is in the table |
| Admirals.Admiral.FindFreeEntry | src/game/admiral.cpp:250-254 | the first free entry is the one after the last in use |
| Admirals.Admiral.AddBuildType | src/game/admiral.cpp:243-263 | a class already offered is skipped; a new one takes the first free entry, with the running total as its chance, and adds its build ratio to the total |
| Admirals.Admiral.EnterClasses | src/game/admiral.cpp:236-269 | one destination's classes are entered, keeping the table a build table |
| Admirals.Admiral.ResetTargets | src/game/admiral.cpp:655-659 | every object of this admiral drops its target value; every other object is untouched |
| Admirals.Admiral.Blitzkrieg | src/game/admiral.cpp:650-672 | the posture counts toward 0 and, on reaching it, restarts with the other sign at the drawn magnitude, with every own object dropping its target |
| Admirals.Admiral.FindBuildSite | src/game/admiral.cpp:976-992 | the search goes round from after the current site and stops at the first slot this admiral owns that accepts builds; none is found exactly when no slot qualifies |
| Admirals.Admiral.PickEntry | src/game/admiral.cpp:1003-1011 | a draw picks the reference entry: the first with the largest chance not above the draw |
| Admirals.Admiral.HasShortEscort | src/game/admiral.cpp:1014-1025 | exactly whether some own object of that base type is short of escorts |
| Admirals.Admiral.HasMatchingFoe | src/game/admiral.cpp:1027-1040 | exactly whether some other admiral's object carries the base type's order key tag |
| Admirals.Admiral.DrawBuild | src/game/admiral.cpp:998-1043 | the hope to build becomes the reference result of up to seven draws |
| Admirals.Admiral.ChooseBuild | src/game/admiral.cpp:971-1061 | with cash at most the savings goal nothing happens. Otherwise the goal is dropped and the cursor stops at the first owned build site after the old one, and lands on a site exactly when one exists; at an idle site the purse and table become `BuildStep`'s (buy the offered hope when the cash covers it, otherwise save for its price), elsewhere nothing else changes |
| Admirals.Admiral.BuildAtSite | src/game/admiral.cpp:997-1057 | the purse and table become `BuildStep`'s: the hope is drawn when there is none; an offered hope is bought exactly when the cash covers its price, paying it, queueing it at the site and clearing hope and goal; a short purse keeps the hope with its price as goal; an unoffered hope is only kept |
| Admirals.Admiral.BuildStepSolvent | src/game/admiral.cpp:1049-1057 | the build step never makes cash negative, a goal it sets exceeds the cash, and it buys exactly when the hope was offered and is cleared |
| Admirals.Admiral.SavedHopeIsBought | src/game/admiral.cpp:1049-1057 | once the step saves for a class, a later step at that site keeping the hope buys it as soon as the cash reaches the goal, paying exactly the goal |
| Admirals.Admiral.Think | src/game/admiral.cpp:636-1062 | only a local computer player thinks: its posture moves one step; with cash above the goal the cursor lands on a site exactly when one exists, and an idle site gets `BuildStep`'s outcome; the table, identity and scores are kept |
| Admirals.GetAdmiral | src/game/admiral.cpp:106-111 | a player number inside the table is itself; any other is none |
| Admirals.RemoveDestination | src/game/admiral.cpp:203-222 | the slot becomes free and empty, and afterward no active admiral holds a cursor on it |
| Admirals.GetAdmiralBuildAtObject | src/game/admiral.cpp:356-369 | the build site is kept and reported exactly while its object is still this admiral's; otherwise it is cleared |
| Admirals.SetAdmiralBuildAtObject | src/game/admiral.cpp:371-383 | with an admiral, its build site becomes the object's destination slot; without one the call fails; other admirals are untouched |
| Admirals.GetAdmiralScore | src/game/admiral.cpp:1110-1116 | a score of an admiral in range is read, and anything else reads 0 |
| Admirals.AlterAdmiralScore | src/game/admiral.cpp:1104-1108 | only the named score of the named admiral changes, by the amount, and only when both are in range |
| Admirals.ClearAllBuildData | src/game/admiral.cpp:225-234 | every admiral's build table becomes empty |
| Admirals.OfferClasses | src/game/admiral.cpp:236-269 | a destination's classes are entered into its owner's table only |
| Admirals.RecalcAllAdmiralBuildData | src/game/admiral.cpp:224-270 | every admiral's table is rebuilt to hold exactly the classes its destinations offer. It never overflows, so "Too Many Types to Build!" cannot be raised |
| Admirals.ClassSlot | src/game/admiral.cpp:1044-1048 | the first class entry of the site that matches, or past the end when none does |
| Admirals.PostureLasts | src/game/admiral.cpp:650-672 | a posture of magnitude m lasts m steps before flipping sign |
| Admirals.PostureNeverZero | src/game/admiral.cpp:650-672 | the posture never rests at 0, and a flip restarts its magnitude in [1200, 2400) |
| Admirals.Slot | src/game/admiral.cpp:976-992 | the wrap-around slot index stays inside the table |
| Admirals.BestIndex | src/game/admiral.cpp:1003-1011 | the reference pick is -1 or an index below the bound |
| Admirals.BestIndexIsFirstLargest | src/game/admiral.cpp:1003-1011 | the pick qualifies, has the largest chance among qualifying entries and comes first among equals; -1 exactly when none qualifies |
| Admirals.WeightedPick | src/game/admiral.cpp:1003-1011 | in a build table with positive ratios, a draw below the total picks the entry whose chance interval holds the draw |
| Admirals.DrawnFromTable | src/game/admiral.cpp:998-1043 | the hope the draws leave is none or a class in the table |
| Admirals.CountedDown | src/game/admiral.cpp:615-622 | a slot's build time drops by 10 without going below 0, and its queued object is kept only while time is left |
| Admirals.SpawnsAreDue | src/game/admiral.cpp:615-622 | every object handed over comes from a build queued at its slot whose time runs out on this pass, and that build is then cleared; at most one per slot, in slot order |
| Admirals.CreditedGrows | src/game/admiral.cpp:625-628 | cash stays non-negative through a pass, and non-negative earnings never lower it |
| Admirals.PayOwner | src/game/admiral.cpp:625-628 | only the owner is paid, its earning scaled by its earning power |
| Admirals.CountDown | src/game/admiral.cpp:615-622 | one slot's build counts down, and the finished object (if any) is returned |
| Admirals.PassSlot | src/game/admiral.cpp:613-629 | one slot counts down, pays its owner and extends the pass's reference earnings |
| Admirals.DestinationPass | src/game/admiral.cpp:613-629 | every slot counts down; the finished objects are the reference spawns; each admiral's cash is the reference sum of its earnings |
| Admirals.ThinkAll | src/game/admiral.cpp:631-633 | every admiral thinks in turn, keeping the tables well formed |
| Admirals.AdmiralThink | src/game/admiral.cpp:613-634 | one think pass hands over exactly the reference spawns of the countdown and keeps every table well formed and every identity, build table and score |

## Left out

- Drawing, sound and screen layout: the conflict text, label drawing, the teletype
  sound, the pictures in long messages and the screen widgets. These are side effects
  with nothing to prove.
- Reading of the binary and JSON level, base-object and interface formats
  (`read_from`, the `pn` readers). Each read arrives as a value or a read failure.
- The 32-bit widths of the source's integers. Integers are unbounded.
  `Targeting.ScoreBounds` and `Targeting.JitterFits` show that scores fit 32 bits.
- `Admiral::think`'s consideration sweep (admiral.cpp:674-770) and the best-target
  update (964-967). Each walks the object and destination lists through linked
  pointers (`nextFarObject`). The scoring of one candidate is modelled in full as
  pure functions on a `Sighting` record.
- `SetObjectLocationDestination` (admiral.cpp:402-458): it is not part of this model.
- Creating ships (`CreateAnySpaceObject`). `AdmiralThink` returns the objects due to be
  created as `Spawn` records, and the caller creates them.
- Base-object lookup returning none: `BuildAtSite` then does nothing. The source
  dereferences the lookup result there without a check.
- The scans at admiral.cpp:244, 251 and 1045 read an entry before testing the loop
  bound. The model tests the bound first, so it never reads past the table.
- "Too Many Types to Build!" (admiral.cpp:255-257) is not modelled as a path. It is
  proved unreachable by `Admirals.RecalcAllAdmiralBuildData`, since no table can
  overflow.
- The random number generator: its draws are parameters of the methods that use them.
- Networking, and the key handling after the chunk loop of `PlayTheGame`
  (AresMain.cpp:817-957). That covers the pause-key loop, the restart and quit menu,
  the music key and a replay quitting on a key press. The decide passes (AI, input,
  collisions) are counted, not run.
- The `additionalSeconds` added to the seconds played is not modelled.
- The forget branches of `SetObjectDestination` (admiral.cpp:494-504, 558-573) clear the
  destination handle without withdrawing the object's offense from the old
  destination. That is modelled as written: `Ledger.DeclineKeepsLedger` states it.
- Admirals.Admiral.Think: does not say which site the search stops at, only that it
  finds one exactly when one exists; `ChooseBuild` states the order of the search.
- Admirals.ThinkAll: states that tables stay well formed and identities are kept, not
  each admiral's posture and build outcome.
- Admirals.AdmiralThink: does not restate the cash each admiral ends with, because the
  think step may spend it. `Admirals.DestinationPass` states the payment.
- Admirals.AdmiralThink: the admirals think before the ships due this pass exist. The
  source creates each one and sends it on its way inside the slot loop
  (admiral.cpp:599-604, 618-622), before any admiral thinks (631-633). A fresh ship
  therefore already counts in the escort scan (1015-1024) and the foe scan (1029-1036)
  of the same tick. The model returns the ships as `Spawn` records for the caller, so
  an admiral whose new ship is short of escorts may keep a hope the source drops.
- Messages.MessageScreen.DrawMessageScreen: drops the front message only when the
  queue is not empty. The source pops without that test (messages.cpp:441-443).
- Messages.ParseLabel: where the source steps past the end of the text (messages.cpp:
  494-531: a number or hint point left open, or a text of fewer than two characters)
  the model reads an empty remainder, and a text under two characters is no label.
  `Messages.ParseHint` and the label readings follow the same rule.
- Messages.LongMessage.DrawCurrentLongMessage: the call `CheckScenarioConditions(0)`
  made on a new page (messages.cpp:327) is not modelled. Scenario conditions are not
  part of this model.
- KeySetup: a key is its key number. The conversions between the key map and key
  numbers (`GetKeyNumFromKeyMap` and `GetKeyMapFromKeyNum`, KeySetupScreen.c:290 and
  568) are not part of this model; the screen reads and writes key numbers.
- Gamepad.NumZeroIffUnknown: assumes the names range starts above 0, as the gamepad
  button table does, so that 0 is never a found button number.
