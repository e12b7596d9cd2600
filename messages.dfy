/**
 * Long and short messages of the play screen (src/game/messages.cpp).
 *
 * The long-message record `gLongMessageData` is the class `LongMessage`; its paging
 * through resource ids, the re-play of the last message and the teletype advance of
 * `at_char` are modelled. The short-message queue `gMessageData` and the display timer
 * `gMessageTimeCount` are the class `MessageScreen`. Drawing, labels, sounds and
 * resource loading are not part of this model.
 */
module Messages {
  import opened Wrappers

  const MessageMoveTime := 30
  /** kMessageDisplayTime: how long one short message stays on screen. */
  const MessageDisplayTime := MessageMoveTime * 2 + 120

  /** The label rises during the first `RaiseTime` ticks and sinks after `LowerTime`. */
  const RaiseTime := MessageMoveTime
  const LowerTime := MessageDisplayTime - MessageMoveTime

  /** Teletype sound period: the delay count is drained in steps of 3 ticks. */
  const TeletypeStep := 3

  datatype Stage = NoStage | StartStage | ClipStage | ShowStage

  /** `mHexDigitValue`: value of a lower-case hexadecimal digit. */
  function HexDigitValue(c: char): int
  {
    if '0' <= c <= '9' then c as int - '0' as int else c as int - 'a' as int + 10
  }

  /** The lower-case hexadecimal digit for a nibble, as in the `hex` table of key tags. */
  function HexChar(d: int): (c: char)
    requires 0 <= d < 16
  {
    "0123456789abcdef"[d]
  }

  /** `mHexDigitValue` inverts the digit table: every nibble is read back. */
  lemma HexDigitRoundTrip(d: int)
    requires 0 <= d < 16
    ensures HexDigitValue(HexChar(d)) == d
  {
    var digits := "0123456789abcdef";
    assert digits[0] == '0' && digits[1] == '1' && digits[2] == '2' && digits[3] == '3';
    assert digits[4] == '4' && digits[5] == '5' && digits[6] == '6' && digits[7] == '7';
    assert digits[8] == '8' && digits[9] == '9' && digits[10] == 'a' && digits[11] == 'b';
    assert digits[12] == 'c' && digits[13] == 'd' && digits[14] == 'e' && digits[15] == 'f';
  }

  class LongMessage {
    var startResID: int
    var endResID: int
    var currentResID: int
    var lastResID: int
    var previousStartResID: int
    var previousEndResID: int
    var stage: Stage
    var time: int
    var textHeight: int
    /** Size of the laid-out text, or None when `retro_text` is reset. */
    var retroText: Option<int>
    var charDelayCount: int
    var atChar: int
    var pictID: int
    var stringMessage: string
    var lastStringMessage: string
    var newStringMessage: bool
    var labelMessage: bool
    var lastLabelMessage: bool

    /** The teletype cursor never passes the end of the text. */
    ghost predicate Valid()
      reads this
    {
      retroText.Some? ==> 0 <= atChar <= retroText.value
    }

    /** The state `ClearMessage` leaves: no message, none to replay. */
    constructor ()
      ensures Valid()
      ensures startResID == endResID == currentResID == lastResID == -1
      ensures previousStartResID == previousEndResID == -1
      ensures stringMessage == lastStringMessage == [] && !newStringMessage
      ensures !labelMessage && !lastLabelMessage && retroText == None
    {
      startResID, endResID, currentResID, lastResID := -1, -1, -1, -1;
      previousStartResID, previousEndResID := -1, -1;
      stage := NoStage;
      time, textHeight, charDelayCount, atChar, pictID := 0, 0, 0, 0, -1;
      retroText := None;
      stringMessage, lastStringMessage := [], [];
      newStringMessage, labelMessage, lastLabelMessage := false, false, false;
    }

    /**
     * `EndLongMessage`: the pages just shown become the ones to replay, and no message
     * is active.
     */
    method EndLongMessage()
      requires Valid()
      modifies this
      ensures Valid()
      ensures previousStartResID == old(startResID) && previousEndResID == old(endResID)
      ensures startResID == -1 && endResID == -1 && currentResID == -1
      ensures stage == StartStage && retroText == None
      ensures lastStringMessage == old(stringMessage)
      ensures stringMessage == old(stringMessage) && lastResID == old(lastResID)
      ensures atChar == old(atChar) && charDelayCount == old(charDelayCount)
      ensures newStringMessage == old(newStringMessage) && labelMessage == old(labelMessage)
      ensures lastLabelMessage == old(lastLabelMessage) && time == old(time)
      ensures textHeight == old(textHeight) && pictID == old(pictID)
    {
      previousStartResID := startResID;
      previousEndResID := endResID;
      startResID := -1;
      endResID := -1;
      currentResID := -1;
      stage := StartStage;
      retroText := None;
      lastStringMessage := stringMessage;
    }

    /**
     * `AdvanceCurrentLongMessage`: an active message moves to its next page while one
     * is left and otherwise ends; with no active message nothing changes.
     */
    method AdvanceCurrentLongMessage()
      requires Valid()
      modifies this
      ensures Valid()
      ensures old(currentResID) == -1 ==> Unchanged(old(Snapshot()))
      ensures old(currentResID) != -1 && old(currentResID) < old(endResID) ==>
        && currentResID == old(currentResID) + 1 && stage == StartStage
        && startResID == old(startResID) && endResID == old(endResID)
        && previousStartResID == old(previousStartResID)
        && previousEndResID == old(previousEndResID) && retroText == old(retroText)
      ensures old(currentResID) != -1 && old(currentResID) >= old(endResID) ==>
        && previousStartResID == old(startResID) && previousEndResID == old(endResID)
        && startResID == -1 && endResID == -1 && currentResID == -1
        && stage == StartStage && retroText == None
        && lastStringMessage == old(stringMessage)
      ensures stringMessage == old(stringMessage) && atChar == old(atChar)
    {
      if currentResID != -1 {
        if currentResID < endResID {
          currentResID := currentResID + 1;
          stage := StartStage;
        } else {
          EndLongMessage();
        }
      }
    }

    /**
     * `PreviousCurrentLongMessage`: an active message moves back one page, but never
     * before its first page; with no active message nothing changes.
     */
    method PreviousCurrentLongMessage()
      requires Valid()
      modifies this
      ensures Valid()
      ensures old(currentResID) != -1 && old(currentResID) > old(startResID) ==>
        currentResID == old(currentResID) - 1 && stage == StartStage
      ensures !(old(currentResID) != -1 && old(currentResID) > old(startResID)) ==>
        Unchanged(old(Snapshot()))
      ensures old(currentResID) >= old(startResID) ==> currentResID >= startResID
      ensures startResID == old(startResID) && endResID == old(endResID)
      ensures previousStartResID == old(previousStartResID)
      ensures previousEndResID == old(previousEndResID)
    {
      if currentResID != -1 {
        if currentResID > startResID {
          currentResID := currentResID - 1;
          stage := StartStage;
        }
      }
    }

    /**
     * `StartLongMessage`. With no active message, the message starts on its first page
     * and the previous start and end are kept for a later replay. With a message active,
     * the new range replaces it and paging restarts through
     * `AdvanceCurrentLongMessage` from the page before `start`.
     */
    method StartLongMessage(start: int, end: int)
      requires Valid()
      modifies this
      ensures Valid()
      ensures old(currentResID) == -1 ==>
        && previousStartResID == old(startResID) && previousEndResID == old(endResID)
        && startResID == start && endResID == end && currentResID == start
        && stage == StartStage && time == 0 && textHeight == 0 && retroText == None
        && charDelayCount == 0 && pictID == -1
      ensures old(currentResID) != -1 && start - 1 != -1 && start - 1 < end ==>
        && startResID == start && endResID == end && currentResID == start
        && stage == StartStage
        && previousStartResID == old(previousStartResID)
        && previousEndResID == old(previousEndResID)
      ensures old(currentResID) != -1 && start - 1 != -1 && start - 1 >= end ==>
        && previousStartResID == start && previousEndResID == end
        && startResID == -1 && endResID == -1 && currentResID == -1
      ensures old(currentResID) != -1 && start - 1 == -1 ==>
        startResID == start && endResID == end && currentResID == -1
      ensures stringMessage == old(stringMessage)
    {
      if currentResID != -1 {
        startResID := start;
        endResID := end;
        currentResID := start - 1;
        AdvanceCurrentLongMessage();
      } else {
        previousStartResID := startResID;
        previousEndResID := endResID;
        startResID := start;
        endResID := end;
        currentResID := start;
        time := 0;
        stage := StartStage;
        textHeight := 0;
        retroText := None;
        charDelayCount := 0;
        pictID := -1;
      }
    }

    /**
     * `ReplayLastLongMessage`: only when no message is active and one was shown
     * before, the last string message is restored and the previous pages start again.
     * A current page below -1 counts as no message here but as an active one for
     * `StartLongMessage`, which then pages from before the replayed start.
     */
    method ReplayLastLongMessage()
      requires Valid()
      modifies this
      ensures Valid()
      ensures old(previousStartResID) >= 0 && old(currentResID) < 0 ==>
        stringMessage == old(lastStringMessage) &&
        (old(currentResID) == -1 ==>
          startResID == old(previousStartResID) && endResID == old(previousEndResID) &&
          currentResID == old(previousStartResID) && stage == StartStage &&
          previousStartResID == old(startResID) && previousEndResID == old(endResID))
      ensures old(previousStartResID) >= 0 && old(currentResID) < -1 ==>
        var start, end := old(previousStartResID), old(previousEndResID);
        && (start == 0 ==> startResID == start && endResID == end && currentResID == -1)
        && (start > 0 && start - 1 < end ==>
              && startResID == start && endResID == end && currentResID == start
              && stage == StartStage
              && previousStartResID == start && previousEndResID == end)
        && (start > 0 && start - 1 >= end ==>
              && previousStartResID == start && previousEndResID == end
              && startResID == -1 && endResID == -1 && currentResID == -1)
      ensures !(old(previousStartResID) >= 0 && old(currentResID) < 0) ==>
        Unchanged(old(Snapshot()))
    {
      if previousStartResID >= 0 && currentResID < 0 {
        stringMessage := lastStringMessage;
        StartLongMessage(previousStartResID, previousEndResID);
      }
    }

    /**
     * What `DrawCurrentLongMessage` does to the message state. When the page or the
     * string message is new, a shown (or absent) page is recorded as the last one.
     * Otherwise a page being typed out advances `atChar` by the time that passed, but
     * not beyond the end of the text, and the teletype delay count absorbs that time
     * in steps of 3.
     */
    method DrawCurrentLongMessage(timePass: int)
      requires Valid()
      requires timePass >= 0
      modifies this
      ensures Valid()
      ensures retroText == old(retroText) && currentResID == old(currentResID)
      ensures old(currentResID != lastResID || newStringMessage) ==>
        && atChar == old(atChar) && charDelayCount == old(charDelayCount)
        && (old(stage == ShowStage || currentResID < 0) ==>
              lastResID == old(currentResID) && !newStringMessage
              && lastLabelMessage == old(labelMessage))
        && (!old(stage == ShowStage || currentResID < 0) ==> Unchanged(old(Snapshot())))
      ensures !old(currentResID != lastResID || newStringMessage) && old(Typing()) ==>
        && atChar == old(atChar) + Min(timePass, old(retroText.value - atChar))
        && atChar <= retroText.value
        && (old(charDelayCount) + Min(timePass, old(retroText.value - atChar)) > 0 ==>
              -TeletypeStep < charDelayCount <= 0
              && (old(charDelayCount) + Min(timePass, old(retroText.value - atChar)) - charDelayCount)
                 % TeletypeStep == 0)
        && (old(charDelayCount) + Min(timePass, old(retroText.value - atChar)) <= 0 ==>
              charDelayCount == old(charDelayCount) + Min(timePass, old(retroText.value - atChar)))
      ensures !old(currentResID != lastResID || newStringMessage) && !old(Typing()) ==>
        Unchanged(old(Snapshot()))
    {
      if currentResID != lastResID || newStringMessage {
        if stage == ShowStage || currentResID < 0 {
          lastResID := currentResID;
          lastLabelMessage := labelMessage;
          newStringMessage := false;
        }
      } else if Typing() {
        var size := retroText.value;
        var pass := Min(timePass, size - atChar);
        var count := charDelayCount + pass;
        if count > 0 {
          while count > 0
            invariant count > -TeletypeStep
            invariant (charDelayCount + pass - count) % TeletypeStep == 0
            decreases count
          {
            count := count - TeletypeStep;
          }
        }
        charDelayCount := count;
        atChar := atChar + pass;
      }
    }

    /** A page is being typed out: the guard of the teletype branch. */
    predicate Typing()
      reads this
    {
      currentResID >= 0 && retroText.Some? && atChar < retroText.value
      && stage == ShowStage && !labelMessage
    }

    /** The whole paging state, to say that a call changed none of it. */
    function Snapshot(): PagingState
      reads this
    {
      PagingState(startResID, endResID, currentResID, lastResID, previousStartResID,
                  previousEndResID, stage, retroText, charDelayCount, atChar,
                  stringMessage, lastStringMessage, newStringMessage, lastLabelMessage)
    }

    predicate Unchanged(s: PagingState)
      reads this
    {
      Snapshot() == s
    }
  }

  datatype PagingState = PagingState(
    startResID: int, endResID: int, currentResID: int, lastResID: int,
    previousStartResID: int, previousEndResID: int, stage: Stage, retroText: Option<int>,
    charDelayCount: int, atChar: int, stringMessage: string, lastStringMessage: string,
    newStringMessage: bool, lastLabelMessage: bool)

  function Min(a: int, b: int): int { if a < b then a else b }

  /** The short-message queue and its display timer. */
  class MessageScreen {
    var queue: seq<string>
    var timeCount: int

    /** The timer stays within one display period and is 0 while nothing is queued. */
    ghost predicate Valid()
      reads this
    {
      0 <= timeCount <= MessageDisplayTime && (queue == [] ==> timeCount == 0)
    }

    constructor ()
      ensures Valid() && queue == [] && timeCount == 0
    {
      queue := [];
      timeCount := 0;
    }

    /** `AddMessage`: the message joins the end of the queue. */
    method AddMessage(message: string)
      requires Valid()
      modifies this
      ensures Valid()
      ensures queue == old(queue) + [message] && timeCount == old(timeCount)
    {
      queue := queue + [message];
    }

    /**
     * `DrawMessageScreen` (its timer and queue): the timer grows by `byUnits`; once it
     * exceeds the display time it restarts at 0 and the front message is dropped; an
     * empty queue holds the timer at 0. The returned message is the one now shown.
     */
    method DrawMessageScreen(byUnits: int) returns (shown: Option<string>, lift: Option<int>)
      requires Valid() && byUnits >= 0
      modifies this
      ensures Valid()
      ensures old(timeCount) + byUnits > MessageDisplayTime ==>
        queue == (if old(queue) == [] then [] else old(queue)[1..]) && timeCount == 0
      ensures old(timeCount) + byUnits <= MessageDisplayTime ==>
        queue == old(queue) && timeCount == (if queue == [] then 0 else old(timeCount) + byUnits)
      ensures shown == if queue == [] then None else Some(queue[0])
      ensures lift == if queue == [] then None else MessageLift(timeCount)
    {
      timeCount := timeCount + byUnits;
      if timeCount > MessageDisplayTime {
        timeCount := 0;
        if queue != [] {
          queue := queue[1..];
        }
      }
      if queue != [] {
        shown := Some(queue[0]);
        lift := MessageLift(timeCount);
      } else {
        shown, lift := None, None;
        timeCount := 0;
      }
    }
  }

  /**
   * How far above the bottom of the viewport `DrawMessageScreen` places the message
   * label: rising for the first `RaiseTime` ticks, sinking back in the last
   * `MessageMoveTime` ticks, and left where it is (None) in between.
   */
  function MessageLift(timeCount: int): (r: Option<int>)
    requires 0 <= timeCount <= MessageDisplayTime
    ensures r.Some? <==> timeCount < RaiseTime || timeCount > LowerTime
    ensures r.Some? ==> 0 <= r.value < MessageMoveTime
    ensures r.Some? ==> r.value == timeCount || r.value == MessageDisplayTime - timeCount
  {
    if timeCount < RaiseTime then Some(timeCount)
    else if timeCount > LowerTime then Some(MessageDisplayTime - timeCount)
    else None
  }

  /**
   * The parts of a special label text `#tnnn#[#hhh,vvv#]message`: the placement
   * letter, the number, the hint-line point as written (if any) and the message.
   */
  datatype LabelText = LabelText(whichType: char, value: int, hint: Option<Point>, message: string)

  datatype Point = Point(h: int, v: int)

  /** Decimal accumulation of `MessageLabel_Set_Special`: `value * 10 + (c - '0')`. */
  function DigitsValue(s: string): int
  {
    if s == [] then 0 else DigitsValue(s[..|s| - 1]) * 10 + (s[|s| - 1] as int - '0' as int)
  }

  /** Index of the first `c` at or after `from`, or `|s|` when there is none. */
  function FindFrom(s: string, from: nat, c: char): (k: nat)
    requires from <= |s|
    ensures from <= k <= |s|
    ensures k < |s| ==> s[k] == c
    ensures forall i :: from <= i < k ==> s[i] != c
    decreases |s| - from
  {
    if from == |s| then from else if s[from] == c then from else FindFrom(s, from + 1, c)
  }

  /**
   * How `MessageLabel_Set_Special` splits a label text. A text that does not start
   * with `#` followed by a type character is no label. The number runs to the next
   * `#`; a second `#` right after it opens a hint-line point `h,v` closed by `#`;
   * the rest is the message. Where the source would step past the end of the text
   * (a number or a point that is not closed) the model reads an empty remainder.
   */
  function LabelOf(text: string): (r: Option<LabelText>)
  {
    if |text| < 2 || text[0] != '#' then None
    else
      var j := FindFrom(text, 2, '#');
      Some(LabelText(text[1], DigitsValue(text[2..j]), HintOf(text, j), MessageOf(text, j)))
  }

  /** The hint-line point after the number that ends at `j`, if the text has one. */
  function HintOf(text: string, j: nat): Option<Point>
    requires j <= |text|
  {
    if j + 1 < |text| && text[j + 1] == '#' then
      var c := FindFrom(text, j + 2, ',');
      var h := DigitsValue(text[j + 2..c]);
      if c == |text| then Some(Point(h, 0))
      else Some(Point(h, DigitsValue(text[c + 1..FindFrom(text, c + 1, '#')])))
    else None
  }

  /** The message text after the number that ends at `j` and the hint line, if any. */
  function MessageOf(text: string, j: nat): string
    requires j <= |text|
  {
    if j == |text| then []
    else if j + 1 < |text| && text[j + 1] == '#' then
      var c := FindFrom(text, j + 2, ',');
      if c == |text| then []
      else
        var e := FindFrom(text, c + 1, '#');
        if e < |text| then text[e + 1..] else []
    else text[j + 1..]
  }

  /**
   * The digit loops of `MessageLabel_Set_Special`: scanning from `from` up to the
   * first `stop` (or the end), accumulating decimal digits.
   */
  method ReadNumber(text: string, from: nat, stop: char) returns (value: int, next: nat)
    requires from <= |text|
    ensures next == FindFrom(text, from, stop)
    ensures value == DigitsValue(text[from..next])
  {
    value := 0;
    next := from;
    while next < |text| && text[next] != stop
      invariant from <= next <= |text|
      invariant FindFrom(text, from, stop) == FindFrom(text, next, stop)
      invariant value == DigitsValue(text[from..next])
    {
      assert text[from..next + 1][..next - from] == text[from..next];
      value := value * 10 + (text[next] as int - '0' as int);
      next := next + 1;
    }
  }

  /** `MessageLabel_Set_Special`, the text-splitting part. */
  method ParseLabel(text: string) returns (r: Option<LabelText>)
    ensures r == LabelOf(text)
    ensures r.Some? <==> |text| >= 2 && text[0] == '#'
  {
    if |text| < 2 || text[0] != '#' {
      return None;
    }
    var whichType := text[1];
    var value, j := ReadNumber(text, 2, '#');
    var hint, message := ParseHint(text, j);
    return Some(LabelText(whichType, value, hint, message));
  }

  /** The part of `MessageLabel_Set_Special` after the closing `#` of the number. */
  method ParseHint(text: string, j: nat) returns (hint: Option<Point>, message: string)
    requires j <= |text|
    ensures hint == HintOf(text, j) && message == MessageOf(text, j)
  {
    if j == |text| {
      return None, [];
    }
    if j + 1 < |text| && text[j + 1] == '#' {
      var h, c := ReadNumber(text, j + 2, ',');
      if c == |text| {
        return Some(Point(h, 0)), [];
      }
      var v, e := ReadNumber(text, c + 1, '#');
      return Some(Point(h, v)), if e < |text| then text[e + 1..] else [];
    }
    return None, text[j + 1..];
  }

  /**
   * Where the hint line of a label attaches. A point written in the text is moved
   * below the instruments on either side, and one right of the left panel is also
   * moved by the width the right panel takes on this screen; an object label always
   * has a hint line. The vertical coordinate is finally raised by 2.
   */
  function HintLine(l: LabelText, instrumentTop: int, panelLeft: int, playRight: int): (r: (bool, Point))
    ensures r.0 <==> l.hint.Some? || l.whichType == 'O'
    ensures l.hint.None? ==> r.1 == Point(0, -2)
    ensures l.hint.Some? && l.hint.value.h < panelLeft ==>
      r.1 == Point(l.hint.value.h, l.hint.value.v + instrumentTop - 2)
    ensures l.hint.Some? && l.hint.value.h >= panelLeft ==>
      r.1.h - playRight == l.hint.value.h - panelLeft
      && r.1.v == l.hint.value.v + instrumentTop - 2
  {
    var hintLine := l.hint.Some? || l.whichType == 'O';
    match l.hint
    case None => (hintLine, Point(0, -2))
    case Some(p) =>
      var h := if p.h >= panelLeft then p.h - panelLeft + playRight else p.h;
      (hintLine, Point(h, p.v + instrumentTop - 2))
  }

  /** Decimal digits only. */
  predicate Digits(d: string)
  {
    forall i :: 0 <= i < |d| ==> '0' <= d[i] <= '9'
  }

  /** Decimal digits of a natural number, most significant first. */
  function Decimal(n: nat): (s: string)
    ensures |s| >= 1 && Digits(s)
  {
    if n < 10 then [('0' as int + n) as char] else Decimal(n / 10) + [('0' as int + n % 10) as char]
  }

  /** Reading the decimal digits of `n` back gives `n`. */
  lemma {:induction false} DigitsValueOfDecimal(n: nat)
    ensures DigitsValue(Decimal(n)) == n
  {
    if n >= 10 {
      DigitsValueOfDecimal(n / 10);
      var s := Decimal(n);
      assert s[..|s| - 1] == Decimal(n / 10);
    }
  }

  lemma {:induction false} FindFromSkipsDigits(s: string, from: nat, k: nat, c: char)
    requires from <= k < |s| && s[k] == c && !('0' <= c <= '9')
    requires forall i :: from <= i < k ==> '0' <= s[i] <= '9'
    ensures FindFrom(s, from, c) == k
    decreases k - from
  {
    if from < k {
      FindFromSkipsDigits(s, from + 1, k, c);
    }
  }

  /**
   * Digits written at `from` and closed by `stop` read back: the scan stops right
   * after them.
   */
  lemma ReadsDigits(text: string, from: nat, d: string, stop: char)
    requires !('0' <= stop <= '9') && Digits(d)
    requires from + |d| < |text|
    requires text[from..from + |d|] == d && text[from + |d|] == stop
    ensures FindFrom(text, from, stop) == from + |d|
  {
    forall i | from <= i < from + |d|
      ensures '0' <= text[i] <= '9'
    {
      assert text[i] == text[from..from + |d|][i - from];
    }
    FindFromSkipsDigits(text, from, from + |d|, stop);
  }

  /** Splitting a suffix that is a concatenation. */
  lemma Split(s: string, k: nat, a: string, b: string)
    requires k <= |s| && s[k..] == a + b
    ensures k + |a| <= |s| && s[k..k + |a|] == a && s[k + |a|..] == b
  {
    assert s[k..k + |a|] == s[k..][..|a|];
    assert s[k + |a|..] == s[k..][|a|..];
  }

  /** The text a label is written as, with its numbers in decimal. */
  function LabelSource(whichType: char, value: nat, hint: Option<(nat, nat)>, message: string): string
  {
    ['#', whichType] + (Decimal(value) + (['#'] + (HintSource(hint) + message)))
  }

  function HintSource(hint: Option<(nat, nat)>): string
  {
    match hint
    case None => []
    case Some(p) => ['#'] + (Decimal(p.0) + ([','] + (Decimal(p.1) + ['#'])))
  }

  function HintPoint(hint: Option<(nat, nat)>): Option<Point>
  {
    match hint
    case None => None
    case Some(p) => Some(Point(p.0, p.1))
  }

  /** Where the parts of a hint line `#h,v#` written at `j + 1` sit in the text. */
  lemma HintLayout(text: string, j: nat, dh: string, dv: string, message: string)
    requires j + 1 <= |text| && text[j + 1..] == ['#'] + (dh + ([','] + (dv + (['#'] + message))))
    ensures var c := j + 2 + |dh|; var e := c + 1 + |dv|;
      && e < |text| && text[j + 1] == '#'
      && text[j + 2..c] == dh && text[c] == ','
      && text[c + 1..e] == dv && text[e] == '#' && text[e + 1..] == message
  {
    var c := j + 2 + |dh|;
    var e := c + 1 + |dv|;
    Split(text, j + 1, ['#'], dh + ([','] + (dv + (['#'] + message))));
    Split(text, j + 2, dh, [','] + (dv + (['#'] + message)));
    Split(text, c, [','], dv + (['#'] + message));
    Split(text, c + 1, dv, ['#'] + message);
    Split(text, e, ['#'], message);
    assert text[j + 1] == text[j + 1..j + 2][0];
    assert text[c] == text[c..c + 1][0];
    assert text[e] == text[e..e + 1][0];
  }

  /** Where the scans of a hint line laid out as `HintLayout` says stop. */
  lemma HintScans(text: string, j: nat, dh: string, dv: string)
    requires Digits(dh) && Digits(dv)
    requires var c := j + 2 + |dh|; var e := c + 1 + |dv|;
      && e < |text| && text[j + 1] == '#'
      && text[j + 2..c] == dh && text[c] == ',' && text[c + 1..e] == dv && text[e] == '#'
    ensures FindFrom(text, j + 2, ',') == j + 2 + |dh|
    ensures FindFrom(text, j + 3 + |dh|, '#') == j + 3 + |dh| + |dv|
  {
    ReadsDigits(text, j + 2, dh, ',');
    ReadsDigits(text, j + 3 + |dh|, dv, '#');
  }

  /** The point of a hint line laid out as `HintLayout` says reads back. */
  lemma HintOfReads(text: string, j: nat, dh: string, dv: string)
    requires Digits(dh) && Digits(dv)
    requires var c := j + 2 + |dh|; var e := c + 1 + |dv|;
      && e < |text| && text[j + 1] == '#'
      && text[j + 2..c] == dh && text[c] == ',' && text[c + 1..e] == dv && text[e] == '#'
    ensures HintOf(text, j) == Some(Point(DigitsValue(dh), DigitsValue(dv)))
  {
    var c := j + 2 + |dh|;
    var e := c + 1 + |dv|;
    HintScans(text, j, dh, dv);
    HintOfAt(text, j, c, e);
    SameValue(text[j + 2..c], dh);
    SameValue(text[c + 1..e], dv);
  }

  lemma SameValue(a: string, b: string)
    requires a == b
    ensures DigitsValue(a) == DigitsValue(b)
  {
  }

  /** The point of a hint line whose comma is at `c` and whose closing `#` is at `e`. */
  lemma HintOfAt(text: string, j: nat, c: nat, e: nat)
    requires j + 2 <= c < e <= |text| && text[j + 1] == '#'
    requires FindFrom(text, j + 2, ',') == c && FindFrom(text, c + 1, '#') == e
    ensures HintOf(text, j) == Some(Point(DigitsValue(text[j + 2..c]), DigitsValue(text[c + 1..e])))
  {
  }

  /** The message after a hint line laid out as `HintLayout` says reads back. */
  lemma MessageOfReads(text: string, j: nat, dh: string, dv: string, message: string)
    requires Digits(dh) && Digits(dv)
    requires var c := j + 2 + |dh|; var e := c + 1 + |dv|;
      && e < |text| && text[j + 1] == '#'
      && text[j + 2..c] == dh && text[c] == ',' && text[c + 1..e] == dv && text[e] == '#'
      && text[e + 1..] == message
    ensures MessageOf(text, j) == message
  {
    HintScans(text, j, dh, dv);
  }

  /** A hint line `#h,v#` written at `j + 1` reads back, and so does the message after it. */
  lemma HintPointRoundTrip(text: string, j: nat, dh: string, dv: string, message: string)
    requires Digits(dh) && Digits(dv)
    requires j + 1 <= |text| && text[j + 1..] == ['#'] + (dh + ([','] + (dv + (['#'] + message))))
    ensures HintOf(text, j) == Some(Point(DigitsValue(dh), DigitsValue(dv)))
    ensures MessageOf(text, j) == message
  {
    HintLayout(text, j, dh, dv, message);
    HintOfReads(text, j, dh, dv);
    MessageOfReads(text, j, dh, dv, message);
  }

  lemma Reassociate(a: string, b: string, c: string, d: string, e: string, f: string)
    ensures (a + (b + (c + (d + e))))  + f == a + (b + (c + (d + (e + f))))
  {
  }

  /** The hint line written after a number closed at `j` reads back. */
  lemma HintRoundTrip(text: string, j: nat, hint: Option<(nat, nat)>, message: string)
    requires j + 1 <= |text| && text[j + 1..] == HintSource(hint) + message
    requires hint.None? && |message| > 0 ==> message[0] != '#'
    ensures HintOf(text, j) == HintPoint(hint)
    ensures MessageOf(text, j) == message
  {
    match hint {
      case None =>
        assert j + 1 < |text| ==> text[j + 1] == message[0];
      case Some(p) =>
        var dh := Decimal(p.0);
        var dv := Decimal(p.1);
        Reassociate(['#'], dh, [','], dv, ['#'], message);
        HintPointRoundTrip(text, j, dh, dv, message);
        DigitsValueOfDecimal(p.0);
        DigitsValueOfDecimal(p.1);
    }
  }

  /** Where the parts of a label `#t<digits>#<rest>` sit in its text. */
  lemma LabelLayout(whichType: char, d: string, rest: string)
    ensures var text := ['#', whichType] + (d + (['#'] + rest)); var j := 2 + |d|;
      && j < |text| && text[0] == '#' && text[1] == whichType
      && text[2..j] == d && text[j] == '#' && text[j + 1..] == rest
  {
    var text := ['#', whichType] + (d + (['#'] + rest));
    var j := 2 + |d|;
    Split(text, 0, ['#', whichType], d + (['#'] + rest));
    Split(text, 2, d, ['#'] + rest);
    Split(text, j, ['#'], rest);
    assert text[j] == text[j..j + 1][0];
  }

  /**
   * A label written with decimal numbers splits back into its parts, provided the
   * message of a label without a hint line does not itself start with `#`.
   */
  lemma LabelRoundTrip(whichType: char, value: nat, hint: Option<(nat, nat)>, message: string)
    requires hint.None? && |message| > 0 ==> message[0] != '#'
    ensures LabelOf(LabelSource(whichType, value, hint, message)) ==
      Some(LabelText(whichType, value, HintPoint(hint), message))
  {
    var text := LabelSource(whichType, value, hint, message);
    var d := Decimal(value);
    var j := 2 + |d|;
    LabelLayout(whichType, d, HintSource(hint) + message);
    ReadsDigits(text, 2, d, '#');
    SameValue(text[2..j], d);
    DigitsValueOfDecimal(value);
    HintRoundTrip(text, j, hint, message);
  }

}
