/**
 * The key-setup screen (src/KeySetupScreen.c): conflict detection over the temporary
 * key controls, the control-index-to-tab mapping, the cycling of the selected key
 * button when a key is stored, and commit or cancel of the edited controls.
 *
 * A key control is represented by its key number; the conversions between key maps
 * and key numbers (`GetKeyNumFromKeyMap`, `GetKeyMapFromKeyNum`) are not part of
 * this model, so `gKeyControl` is modelled as the array of key numbers.
 */
module KeySetup {

  // Tabs and their key ranges (KeySetupScreen.c:83-108).
  const ShipTabNum := 3
  const CommandTabNum := 4
  const ShortcutTabNum := 5
  const UtilityTabNum := 6
  const HotKeyTabNum := 7

  const ShipKeyNum := 8
  const CommandKeyNum := 11
  const ShortcutKeyNum := 9
  const UtilityKeyNum := 6
  const HotKeyKeyNum := 10

  const ShipKeyIndexOffset := 0
  const CommandKeyIndexOffset := ShipKeyIndexOffset + ShipKeyNum
  const ShortcutKeyIndexOffset := CommandKeyIndexOffset + CommandKeyNum
  const UtilityKeyIndexOffset := ShortcutKeyIndexOffset + ShortcutKeyNum
  const HotKeyKeyIndexOffset := UtilityKeyIndexOffset + UtilityKeyNum

  /** kKeyExtendedControlNum: every control of the five tabs. */
  const KeyExtendedControlNum := HotKeyKeyIndexOffset + HotKeyKeyNum

  /** Interface item number of the first key button of the shown tab. */
  const PreTabItemNum := 15
  const FirstKey := PreTabItemNum

  datatype TempKeyControl = TempKeyControl(keyNum: int, conflicts: bool, didConflict: bool)

  datatype ButtonStatus = Active | Dimmed

  /** The key numbers of a sequence of controls. */
  ghost function KeyNums(s: seq<TempKeyControl>): (r: seq<int>)
    ensures |r| == |s| && forall i :: 0 <= i < |s| ==> r[i] == s[i].keyNum
  {
    seq(|s|, i requires 0 <= i < |s| => s[i].keyNum)
  }

  /** Control `i` shares its key number with some other control. */
  ghost predicate HasConflict(keys: seq<TempKeyControl>, i: int)
    requires 0 <= i < |keys|
  {
    exists j :: 0 <= j < |keys| && j != i && keys[j].keyNum == keys[i].keyNum
  }

  /**
   * Pair {m, k} has been compared by the nested loops of `ConflictTextUpdate` when the
   * outer index is `i` and the inner index is `j`.
   */
  ghost predicate Compared(i: int, j: int, m: int, k: int) {
    (m < k && (m < i || (m == i && k < j))) || (k < m && (k < i || (k == i && m < j)))
  }

  /**
   * `ConflictText_Update` (its conflict flags; the conflict text it draws is not
   * modelled): every control remembers its previous `conflicts` flag in `didConflict`,
   * and `conflicts` becomes true exactly when another control has the same key number.
   */
  method ConflictTextUpdate(keyControls: array<TempKeyControl>)
    modifies keyControls
    ensures forall i :: 0 <= i < keyControls.Length ==>
      keyControls[i].keyNum == old(keyControls[i].keyNum) &&
      keyControls[i].didConflict == old(keyControls[i].conflicts)
    ensures forall i :: 0 <= i < keyControls.Length ==>
      (keyControls[i].conflicts <==> HasConflict(keyControls[..], i))
  {
    var n := keyControls.Length;
    ghost var before := keyControls[..];
    for i := 0 to n
      invariant forall k :: 0 <= k < i ==>
        keyControls[k] == TempKeyControl(before[k].keyNum, false, before[k].conflicts)
      invariant forall k :: i <= k < n ==> keyControls[k] == before[k]
    {
      keyControls[i] := keyControls[i].(didConflict := keyControls[i].conflicts, conflicts := false);
    }
    ghost var cleared := keyControls[..];
    for i := 0 to n
      invariant forall k :: 0 <= k < n ==>
        keyControls[k].keyNum == cleared[k].keyNum &&
        keyControls[k].didConflict == cleared[k].didConflict
      invariant forall k :: 0 <= k < n ==>
        (keyControls[k].conflicts <==>
          exists m :: 0 <= m < n && m != k && cleared[m].keyNum == cleared[k].keyNum && Compared(i, i + 1, m, k))
    {
      for j := i + 1 to n
        invariant forall k :: 0 <= k < n ==>
          keyControls[k].keyNum == cleared[k].keyNum &&
          keyControls[k].didConflict == cleared[k].didConflict
        invariant forall k :: 0 <= k < n ==>
          (keyControls[k].conflicts <==>
            exists m :: 0 <= m < n && m != k && cleared[m].keyNum == cleared[k].keyNum && Compared(i, j, m, k))
      {
        if keyControls[i].keyNum == keyControls[j].keyNum {
          keyControls[i] := keyControls[i].(conflicts := true);
          keyControls[j] := keyControls[j].(conflicts := true);
        }
      }
    }
  }

  /** Conflicts depend on the key numbers only. */
  lemma SameKeysSameConflicts(s: seq<TempKeyControl>, t: seq<TempKeyControl>, i: int)
    requires KeyNums(s) == KeyNums(t) && 0 <= i < |s|
    ensures HasConflict(s, i) <==> HasConflict(t, i)
  {
    assert |s| == |KeyNums(s)| == |t|;
    if HasConflict(s, i) {
      var j :| 0 <= j < |s| && j != i && s[j].keyNum == s[i].keyNum;
      assert KeyNums(s)[j] == KeyNums(t)[j] && KeyNums(s)[i] == KeyNums(t)[i];
    }
    if HasConflict(t, i) {
      var j :| 0 <= j < |t| && j != i && t[j].keyNum == t[i].keyNum;
      assert KeyNums(s)[j] == KeyNums(t)[j] && KeyNums(s)[i] == KeyNums(t)[i];
    }
  }

  /**
   * After the conflicts are recomputed, a control that conflicted before and no longer
   * does stops flashing and has its `didConflict` flag cleared (KeySetupScreen.c:362-372).
   */
  method ClearStoppedConflicts(a: array<TempKeyControl>)
    modifies a
    ensures forall i :: 0 <= i < a.Length ==>
      a[i].keyNum == old(a[i].keyNum) && a[i].conflicts == old(a[i].conflicts) &&
      a[i].didConflict == (old(a[i].didConflict) && old(a[i].conflicts))
  {
    for i := 0 to a.Length
      invariant forall j :: 0 <= j < i ==>
        a[j].keyNum == old(a[j].keyNum) && a[j].conflicts == old(a[j].conflicts) &&
        a[j].didConflict == (old(a[j].didConflict) && old(a[j].conflicts))
      invariant forall j :: i <= j < a.Length ==> a[j] == old(a[j])
    {
      if a[i].didConflict && !a[i].conflicts {
        a[i] := a[i].(didConflict := false);
      }
    }
  }

  /**
   * Storing key number `k` in control `slot`, then recomputing the conflicts and
   * clearing the flags of controls that stopped conflicting: a control is left
   * marked as having conflicted exactly when it conflicted before and still does.
   */
  method StoreKey(a: array<TempKeyControl>, slot: int, k: int)
    requires 0 <= slot < a.Length
    modifies a
    ensures KeyNums(a[..]) == KeyNums(old(a[..]))[slot := k]
    ensures forall i :: 0 <= i < a.Length ==> (a[i].conflicts <==> HasConflict(a[..], i))
    ensures forall i :: 0 <= i < a.Length ==> a[i].didConflict == (old(a[i].conflicts) && a[i].conflicts)
  {
    ghost var wanted := KeyNums(a[..])[slot := k];
    a[slot] := a[slot].(keyNum := k);
    assert KeyNums(a[..]) == wanted;
    ConflictTextUpdate(a);
    ghost var updated := a[..];
    assert KeyNums(updated) == wanted;
    ClearStoppedConflicts(a);
    assert KeyNums(a[..]) == KeyNums(updated);
    forall i | 0 <= i < a.Length
      ensures a[i].conflicts <==> HasConflict(a[..], i)
    {
      SameKeysSameConflicts(a[..], updated, i);
    }
  }

  /** `KeyControlIndex_GetTabNum`: the tab (0 to 4) on which control `i` is shown. */
  function KeyControlIndexGetTabNum(i: int): (t: int)
  {
    if i < CommandKeyIndexOffset then 0
    else if i < ShortcutKeyIndexOffset then 1
    else if i < UtilityKeyIndexOffset then 2
    else if i < HotKeyKeyIndexOffset then 3
    else 4
  }

  /** First control index of tab `t`, from the per-tab key counts. */
  function TabKeyOffset(t: int): int
    requires 0 <= t < 5
  {
    [ShipKeyIndexOffset, CommandKeyIndexOffset, ShortcutKeyIndexOffset,
     UtilityKeyIndexOffset, HotKeyKeyIndexOffset][t]
  }

  /** Number of controls on tab `t`. */
  function TabKeyCount(t: int): int
    requires 0 <= t < 5
  {
    [ShipKeyNum, CommandKeyNum, ShortcutKeyNum, UtilityKeyNum, HotKeyKeyNum][t]
  }

  /** Every control of tab `t`, as laid out by the per-tab counts, maps back to `t`. */
  lemma TabNumMatchesLayout(t: int, i: int)
    requires 0 <= t < 5
    requires TabKeyOffset(t) <= i < TabKeyOffset(t) + TabKeyCount(t)
    ensures KeyControlIndexGetTabNum(i) == t
  {
  }

  /** Later controls are never on an earlier tab. */
  lemma TabNumMonotone(i: int, j: int)
    requires i <= j
    ensures KeyControlIndexGetTabNum(i) <= KeyControlIndexGetTabNum(j)
  {
  }

  /**
   * The Done and Options buttons are dimmed while any control conflicts with another
   * (KeySetupScreen.c:384-402), and active otherwise.
   */
  method DoneButtonStatus(keyControls: array<TempKeyControl>) returns (s: ButtonStatus)
    ensures s == Dimmed <==> exists i :: 0 <= i < keyControls.Length && keyControls[i].conflicts
  {
    s := Active;
    for i := 0 to keyControls.Length
      invariant s == Dimmed <==> exists k :: 0 <= k < i && keyControls[k].conflicts
    {
      if keyControls[i].conflicts {
        s := Dimmed;
      }
    }
  }

  /** The local state of `Key_Setup_Screen_Do` that the key assignment changes. */
  class KeySetupScreen {
    var tempKeyControls: array<TempKeyControl>
    var whichTab: int
    var currentMaxKey: int
    var currentKeyOffset: int
    var whichKeyButton: int

    ghost predicate Valid()
      reads this
    {
      && tempKeyControls.Length == KeyExtendedControlNum
      && 0 < currentMaxKey
      && 0 <= currentKeyOffset
      && currentKeyOffset + currentMaxKey <= KeyExtendedControlNum
      && -1 <= whichKeyButton < currentMaxKey
    }

    /** The key numbers being edited. */
    ghost function Keys(): seq<int>
      reads this, tempKeyControls
    {
      KeyNums(tempKeyControls[..])
    }

    /**
     * Opening the screen: copy every control's key number, clear its flags, show the
     * ship tab with no key button selected, and compute the conflicts
     * (KeySetupScreen.c:288-314).
     */
    constructor (keyControl: seq<int>)
      requires |keyControl| == KeyExtendedControlNum
      ensures Valid() && fresh(tempKeyControls)
      ensures Keys() == keyControl
      ensures whichTab == ShipTabNum && currentMaxKey == ShipKeyNum
      ensures currentKeyOffset == ShipKeyIndexOffset && whichKeyButton == -1
      ensures forall i :: 0 <= i < KeyExtendedControlNum ==>
        (tempKeyControls[i].conflicts <==> HasConflict(tempKeyControls[..], i))
    {
      var a := new TempKeyControl[KeyExtendedControlNum](i requires 0 <= i < KeyExtendedControlNum =>
        TempKeyControl(keyControl[i], false, false));
      ConflictTextUpdate(a);
      tempKeyControls := a;
      whichTab := ShipTabNum;
      currentMaxKey := ShipKeyNum;
      currentKeyOffset := ShipKeyIndexOffset;
      whichKeyButton := -1;
    }

    /**
     * A key press (KeySetupScreen.c:323-374). A reserved key becomes key number -1 and
     * nothing is stored. Otherwise, a positive key number with a key button selected
     * is stored in that button's control, the selection moves cyclically to the next
     * button of the tab, the conflicts are recomputed and every control that stopped
     * conflicting has its `didConflict` flag cleared.
     */
    method KeyPressed(keyNum: int, reserved: bool) returns (stored: bool)
      requires Valid()
      modifies this, tempKeyControls
      ensures Valid() && tempKeyControls == old(tempKeyControls)
      ensures whichTab == old(whichTab) && currentMaxKey == old(currentMaxKey)
      ensures currentKeyOffset == old(currentKeyOffset)
      ensures stored <==> !reserved && keyNum > 0 && 0 <= old(whichKeyButton)
      ensures !stored ==> whichKeyButton == old(whichKeyButton) && Keys() == old(Keys())
      ensures !stored ==> forall i :: 0 <= i < KeyExtendedControlNum ==>
        tempKeyControls[i] == old(tempKeyControls[i])
      ensures stored ==> Keys() == old(Keys())[old(whichKeyButton) + currentKeyOffset := keyNum]
      ensures stored ==> 0 <= whichKeyButton < currentMaxKey
      ensures stored ==> whichKeyButton == if old(whichKeyButton) + 1 < currentMaxKey
                                           then old(whichKeyButton) + 1 else 0
      ensures stored ==> forall i :: 0 <= i < KeyExtendedControlNum ==>
        (tempKeyControls[i].conflicts <==> HasConflict(tempKeyControls[..], i))
      ensures stored ==> forall i :: 0 <= i < KeyExtendedControlNum ==>
        tempKeyControls[i].didConflict == (old(tempKeyControls[i].conflicts) && tempKeyControls[i].conflicts)
    {
      var k := keyNum;
      if reserved {
        k := -1;
      }
      stored := false;
      if k > 0 && whichKeyButton >= 0 && whichKeyButton < currentMaxKey {
        StoreKey(tempKeyControls, whichKeyButton + currentKeyOffset, k);
        whichKeyButton := whichKeyButton + 1;
        if whichKeyButton >= currentMaxKey {
          whichKeyButton := 0;
        }
        stored := true;
      }
    }

    /** Clicking key button `item` of the shown tab selects it (KeySetupScreen.c:461-471). */
    method ClickItem(item: int)
      requires Valid()
      modifies this
      ensures Valid()
      ensures tempKeyControls == old(tempKeyControls) && whichTab == old(whichTab)
      ensures currentMaxKey == old(currentMaxKey) && currentKeyOffset == old(currentKeyOffset)
      ensures whichKeyButton == if FirstKey <= item < FirstKey + currentMaxKey
                                then item - FirstKey else old(whichKeyButton)
    {
      if FirstKey <= item < FirstKey + currentMaxKey {
        whichKeyButton := item - FirstKey;
      }
    }

    /**
     * Clicking tab button `tab` shows that tab's key buttons with none selected
     * (KeySetupScreen.c:487-559).
     */
    method SelectTab(tab: int)
      requires Valid()
      requires ShipTabNum <= tab <= HotKeyTabNum
      modifies this
      ensures Valid() && tempKeyControls == old(tempKeyControls)
      ensures whichTab == tab && whichKeyButton == -1
      ensures currentKeyOffset == TabKeyOffset(tab - ShipTabNum)
      ensures currentMaxKey == TabKeyCount(tab - ShipTabNum)
    {
      whichTab := tab;
      whichKeyButton := -1;
      if tab == ShipTabNum {
        currentMaxKey, currentKeyOffset := ShipKeyNum, ShipKeyIndexOffset;
      } else if tab == CommandTabNum {
        currentMaxKey, currentKeyOffset := CommandKeyNum, CommandKeyIndexOffset;
      } else if tab == ShortcutTabNum {
        currentMaxKey, currentKeyOffset := ShortcutKeyNum, ShortcutKeyIndexOffset;
      } else if tab == UtilityTabNum {
        currentMaxKey, currentKeyOffset := UtilityKeyNum, UtilityKeyIndexOffset;
      } else {
        currentMaxKey, currentKeyOffset := HotKeyKeyNum, HotKeyKeyIndexOffset;
      }
    }

    /**
     * Leaving the screen (KeySetupScreen.c:564-575): unless cancelled, every edited key
     * is written back to `keyControl`; a cancel leaves it unchanged.
     */
    method Finish(cancel: bool, keyControl: array<int>)
      requires Valid()
      requires keyControl.Length == KeyExtendedControlNum
      modifies keyControl
      ensures cancel ==> keyControl[..] == old(keyControl[..])
      ensures !cancel ==> keyControl[..] == Keys()
    {
      if !cancel {
        for i := 0 to KeyExtendedControlNum
          invariant forall k :: 0 <= k < i ==> keyControl[k] == tempKeyControls[k].keyNum
        {
          keyControl[i] := tempKeyControls[i].keyNum;
        }
      }
    }
  }
}
