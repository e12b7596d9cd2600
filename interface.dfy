/**
 * Interface item numbering and tab-box layout (`interface_items` in
 * src/data/interface.cpp). Each item of an interface description becomes one item
 * with the next id; a tab box becomes one button per tab, laid out left to right
 * along its top edge, followed by the box itself. Reading the fields of an item
 * (bounds, labels, hues, styles) is not part of this model: each item arrives with
 * its type name, bounds, whether it has a label, and its tab widths.
 */
module Interface {
  datatype Rect = Rect(left: int, top: int, right: int, bottom: int)

  /** One entry of the interface description. */
  datatype ItemSpec = ItemSpec(kind: string, bounds: Rect, hasLabel: bool, tabWidths: seq<int>)

  datatype ItemKind = PlainRect | LabeledRect | PlainButton | CheckboxButton | RadioButton
                    | PictureRect | TextRect

  datatype Item =
    | Plain(kind: ItemKind, bounds: Rect, id: int)
    | TabBoxButton(bounds: Rect, id: int)
    | TabBox(bounds: Rect, topRightBorderSize: int, id: int)

  datatype Result = Items(items: seq<Item>) | UnknownType(index: nat, kind: string)

  /** The plain item kind a type name names, if it names one. */
  function PlainKind(s: ItemSpec): (k: ItemKind)
    requires s.kind in {"rect", "button", "checkbox", "radio", "picture", "text"}
    ensures k == PlainRect || k == LabeledRect <==> s.kind == "rect"
  {
    if s.kind == "rect" then (if s.hasLabel then LabeledRect else PlainRect)
    else if s.kind == "button" then PlainButton
    else if s.kind == "checkbox" then CheckboxButton
    else if s.kind == "radio" then RadioButton
    else if s.kind == "picture" then PictureRect
    else TextRect
  }

  predicate KnownKind(s: ItemSpec)
  {
    s.kind in {"rect", "button", "checkbox", "radio", "picture", "text", "tab-box"}
  }

  function Sum(ws: seq<int>): int
  {
    if ws == [] then 0 else Sum(ws[..|ws| - 1]) + ws[|ws| - 1]
  }

  /** Tab buttons are 37 units apart. */
  const TabGap := 37

  /** The left edge of the tab button after the tabs `ws`, starting from `left0`. */
  function TabLeft(left0: int, ws: seq<int>): int
  {
    left0 + Sum(ws) + TabGap * |ws|
  }

  /** The right edge of the last tab button, and 0 when there is none. */
  function LastRight(left0: int, ws: seq<int>): int
  {
    if ws == [] then 0 else TabLeft(left0, ws[..|ws| - 1]) + ws[|ws| - 1]
  }

  /** The tab buttons of a box whose first button starts at `left0`. */
  function TabRow(left0: int, top: int, ws: seq<int>, id: int): (row: seq<Item>)
    ensures |row| == |ws|
  {
    if ws == [] then []
    else
      var n := |ws| - 1;
      var left := TabLeft(left0, ws[..n]);
      TabRow(left0, top, ws[..n], id) + [TabBoxButton(Rect(left, top - 20, left + ws[n], top - 10), id + n)]
  }

  /** The items one entry becomes, numbered from `id`. */
  function ItemsFor(s: ItemSpec, id: int): seq<Item>
    requires KnownKind(s)
  {
    if s.kind == "tab-box" then
      var left0 := s.bounds.left + 22;
      TabRow(left0, s.bounds.top, s.tabWidths, id)
        + [TabBox(s.bounds, s.bounds.right - LastRight(left0, s.tabWidths) - 17, id + |s.tabWidths|)]
    else [Plain(PlainKind(s), s.bounds, id)]
  }

  /** The items of a description whose entries are all known, numbered from `id0`. */
  function AllItems(specs: seq<ItemSpec>, id0: int): seq<Item>
    requires forall i :: 0 <= i < |specs| ==> KnownKind(specs[i])
  {
    if specs == [] then []
    else
      var pre := AllItems(specs[..|specs| - 1], id0);
      pre + ItemsFor(specs[|specs| - 1], id0 + |pre|)
  }

  /**
   * `interface_items`: the entries in order, each numbered from the next free id; an
   * entry of unknown type stops the read with an error naming it.
   */
  method InterfaceItems(id0: int, specs: seq<ItemSpec>) returns (r: Result)
    ensures r.Items? <==> forall i :: 0 <= i < |specs| ==> KnownKind(specs[i])
    ensures r.Items? ==> r.items == AllItems(specs, id0)
    ensures r.UnknownType? ==>
      r.index < |specs| && r.kind == specs[r.index].kind && !KnownKind(specs[r.index]) &&
      forall i :: 0 <= i < r.index ==> KnownKind(specs[i])
  {
    var items: seq<Item> := [];
    var id := id0;
    for i := 0 to |specs|
      invariant forall j :: 0 <= j < i ==> KnownKind(specs[j])
      invariant items == AllItems(specs[..i], id0)
      invariant id == id0 + |items|
    {
      var s := specs[i];
      if !KnownKind(s) {
        return UnknownType(i, s.kind);
      }
      var more := EntryItems(s, id);
      AllItemsStep(specs, i, id0);
      items := items + more;
      id := id + |more|;
    }
    assert specs[..|specs|] == specs;
    return Items(items);
  }

  lemma AllItemsStep(specs: seq<ItemSpec>, i: nat, id0: int)
    requires i < |specs| && forall j :: 0 <= j <= i ==> KnownKind(specs[j])
    ensures AllItems(specs[..i + 1], id0) == AllItems(specs[..i], id0) + ItemsFor(specs[i], id0 + |AllItems(specs[..i], id0)|)
  {
    assert specs[..i + 1][..i] == specs[..i];
  }

  /** One entry of `interface_items`: a plain item, or the tab buttons and then the box. */
  method EntryItems(s: ItemSpec, id0: int) returns (more: seq<Item>)
    requires KnownKind(s)
    ensures more == ItemsFor(s, id0)
  {
    var id := id0;
    if s.kind == "tab-box" {
      var left0 := s.bounds.left + 22;
      var row, right := LayOutTabs(left0, s.bounds.top, s.tabWidths, id);
      more := row;
      id := id + |s.tabWidths|;
      more := more + [TabBox(s.bounds, s.bounds.right - right - 17, id)];
    } else {
      more := [Plain(PlainKind(s), s.bounds, id)];
    }
  }

  /** The tab loop of `interface_items`: each button ends `width` after it starts and the next starts 37 later. */
  method LayOutTabs(left0: int, top: int, widths: seq<int>, id0: int) returns (row: seq<Item>, right: int)
    ensures row == TabRow(left0, top, widths, id0)
    ensures right == LastRight(left0, widths)
  {
    row := [];
    var left := left0;
    right := 0;
    var id := id0;
    for j := 0 to |widths|
      invariant row == TabRow(left0, top, widths[..j], id0)
      invariant left == TabLeft(left0, widths[..j])
      invariant right == LastRight(left0, widths[..j])
      invariant id == id0 + j
    {
      assert widths[..j + 1][..j] == widths[..j];
      right := left + widths[j];
      row := row + [TabBoxButton(Rect(left, top - 20, right, top - 10), id)];
      id := id + 1;
      left := right + TabGap;
    }
    assert widths[..|widths|] == widths;
  }

  /** Ids are consecutive from `id0` across the items of one entry. */
  lemma {:induction false} TabRowIds(left0: int, top: int, ws: seq<int>, id: int)
    ensures forall k :: 0 <= k < |ws| ==> TabRow(left0, top, ws, id)[k].id == id + k
  {
    if ws != [] {
      TabRowIds(left0, top, ws[..|ws| - 1], id);
    }
  }

  lemma ItemsForIds(s: ItemSpec, id: int)
    requires KnownKind(s)
    ensures forall k :: 0 <= k < |ItemsFor(s, id)| ==> ItemsFor(s, id)[k].id == id + k
  {
    if s.kind == "tab-box" {
      TabRowIds(s.bounds.left + 22, s.bounds.top, s.tabWidths, id);
    }
  }

  /** Every item gets its own id, counting up from `id0` in item order. */
  lemma {:induction false} AllItemsIds(specs: seq<ItemSpec>, id0: int)
    requires forall i :: 0 <= i < |specs| ==> KnownKind(specs[i])
    ensures forall k :: 0 <= k < |AllItems(specs, id0)| ==> AllItems(specs, id0)[k].id == id0 + k
  {
    if specs != [] {
      var pre := AllItems(specs[..|specs| - 1], id0);
      AllItemsIds(specs[..|specs| - 1], id0);
      ItemsForIds(specs[|specs| - 1], id0 + |pre|);
    }
  }

  /** One item per plain entry and one per tab plus one per tab box. */
  function ItemCount(specs: seq<ItemSpec>): int
  {
    if specs == [] then 0
    else
      var s := specs[|specs| - 1];
      ItemCount(specs[..|specs| - 1]) + (if s.kind == "tab-box" then |s.tabWidths| + 1 else 1)
  }

  lemma {:induction false} AllItemsCount(specs: seq<ItemSpec>, id0: int)
    requires forall i :: 0 <= i < |specs| ==> KnownKind(specs[i])
    ensures |AllItems(specs, id0)| == ItemCount(specs)
  {
    if specs != [] {
      AllItemsCount(specs[..|specs| - 1], id0);
    }
  }

  /**
   * Tab-button layout: the first button starts 22 right of the box, every button is
   * its tab's width wide, spans from 20 to 10 above the box top, and the next one
   * starts 37 right of it.
   */
  lemma {:induction false} TabRowLayout(left0: int, top: int, ws: seq<int>, id: int, k: int)
    requires 0 <= k < |ws|
    ensures var b := TabRow(left0, top, ws, id)[k];
      b.TabBoxButton? && b.bounds.right - b.bounds.left == ws[k] &&
      b.bounds.top == top - 20 && b.bounds.bottom == top - 10 &&
      (k == 0 ==> b.bounds.left == left0) &&
      (k + 1 < |ws| ==> TabRow(left0, top, ws, id)[k + 1].bounds.left == b.bounds.right + TabGap)
  {
    var n := |ws| - 1;
    if k < n {
      TabRowLayout(left0, top, ws[..n], id, k);
      if k + 1 == n {
        var p := ws[..n];
        assert p[..k] + [p[k]] == p;
        SumSnoc(p[..k], p[k]);
      } else {
        assert TabRow(left0, top, ws, id)[k + 1] == TabRow(left0, top, ws[..n], id)[k + 1];
      }
    } else if k == 0 {
      assert ws[..n] == [];
    }
  }

  lemma SumSnoc(ws: seq<int>, w: int)
    ensures Sum(ws + [w]) == Sum(ws) + w
  {
    assert (ws + [w])[..|ws|] == ws;
  }

  /** The tab box's border runs from the last button's right edge to 17 before its own. */
  lemma TabBoxBorder(s: ItemSpec, id: int)
    requires s.kind == "tab-box" && s.tabWidths != []
    ensures var items := ItemsFor(s, id);
      var n := |s.tabWidths|;
      |items| == n + 1 && items[n].TabBox? && items[n].id == id + n &&
      items[n].topRightBorderSize == s.bounds.right - items[n - 1].bounds.right - 17
  {
  }
}
