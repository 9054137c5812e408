/**
 * The level menu: one item per level, captioned "Level 1", "Level 2", ...,
 * exactly one of them selected (when there is any), moved up and down by
 * Menu.select and shown highlighted by MenuItem.update.
 */
module Menus {

  /** MenuItem.update's text rule: the selected item is framed by "> " and " <". */
  function Label(caption: string, selected: bool): string {
    if selected then "> " + caption + " <" else caption
  }

  /**
   * The label shows the caption unchanged, framed exactly when the item is
   * selected, so selected and unselected labels of one caption differ.
   */
  lemma LabelShowsCaption(caption: string, selected: bool)
    ensures var t := Label(caption, selected);
            && |t| == |caption| + (if selected then 4 else 0)
            && (selected ==> t[..2] == "> " && t[2..|t| - 2] == caption && t[|t| - 2..] == " <")
            && (!selected ==> t == caption)
    ensures Label(caption, true) != Label(caption, false)
  {
    if selected {
      var t := Label(caption, selected);
      assert t[2..|t| - 2] == caption;
    }
    assert |Label(caption, true)| != |Label(caption, false)|;
  }

  /** The decimal digits of `n`, as an f-string prints it. */
  function Decimal(n: nat): (s: string)
    ensures |s| > 0 && forall k :: 0 <= k < |s| ==> '0' <= s[k] <= '9'
  {
    if n < 10 then ["0123456789"[n]]
    else Decimal(n / 10) + ["0123456789"[n % 10]]
  }

  /** The number a string of decimal digits denotes. */
  function DecimalValue(s: string): int {
    if s == [] then 0 else DecimalValue(s[..|s| - 1]) * 10 + (s[|s| - 1] as int - '0' as int)
  }

  /** Reading back the printed digits gives the number. */
  lemma {:induction false} DecimalRoundTrip(n: nat)
    ensures DecimalValue(Decimal(n)) == n
  {
    if n >= 10 {
      DecimalRoundTrip(n / 10);
      var s := Decimal(n);
      assert s[..|s| - 1] == Decimal(n / 10);
    }
  }

  /** The caption of the item of level `i` (counted from 0). */
  function Caption(i: nat): string {
    "Level " + Decimal(i + 1)
  }

  /** Different levels have different captions. */
  lemma CaptionsDiffer(i: nat, j: nat)
    requires i != j
    ensures Caption(i) != Caption(j)
  {
    var a, b := Decimal(i + 1), Decimal(j + 1);
    DecimalRoundTrip(i + 1);
    DecimalRoundTrip(j + 1);
    assert DecimalValue(a) != DecimalValue(b);
    var prefix := "Level ";
    assert |prefix| == 6;
    assert (prefix + a)[6..] == a && (prefix + b)[6..] == b;
  }

  /** Menu.select on the index: the move happens only when it stays on the menu of `n` items. */
  function Selected(i: int, n: int, direction: int): int {
    if 0 <= i + direction < n then i + direction else i
  }

  /** The selection never leaves the menu, and a move that happened is undone by the opposite one. */
  lemma SelectStaysOnMenu(i: int, n: int, direction: int)
    requires 0 <= i < n
    ensures 0 <= Selected(i, n, direction) < n
    ensures Selected(i, n, direction) != i ==> Selected(Selected(i, n, direction), n, -direction) == i
  {
  }

  /** Selecting the next item `k` times, as `k` completed levels do. */
  function SelectedDown(i: int, n: int, k: nat): int {
    if k == 0 then i else Selected(SelectedDown(i, n, k - 1), n, 1)
  }

  /** Moving down `k` times stops at the last item. */
  lemma {:induction false} SelectedDownStops(i: int, n: int, k: nat)
    requires 0 <= i < n
    ensures SelectedDown(i, n, k) == if i + k < n then i + k else n - 1
  {
    if k > 0 {
      SelectedDownStops(i, n, k - 1);
    }
  }

  /** A menu item: its caption, whether it is selected, and the text it shows. */
  class MenuItem {
    const caption: string
    var selected: bool
    var text: string

    constructor (caption: string, selected: bool)
      ensures this.caption == caption && this.selected == selected && text == caption
    {
      this.caption := caption;
      this.selected := selected;
      text := caption;
    }

    /** MenuItem.update. */
    method Update()
      modifies this
      ensures text == Label(caption, selected) && selected == old(selected)
    {
      if selected {
        text := "> " + caption + " <";
      } else {
        text := caption;
      }
    }
  }

  /** The level menu. */
  class Menu {
    var items: seq<MenuItem>
    var selectedI: int

    /** Exactly the item at `selectedI` is selected; an empty menu keeps index 0. */
    predicate Valid()
      reads this, items
    {
      && (if |items| == 0 then selectedI == 0 else 0 <= selectedI < |items|)
      && (forall k :: 0 <= k < |items| ==> (items[k].selected <==> k == selectedI))
      && (forall a, b :: 0 <= a < |items| && 0 <= b < |items| && a != b ==> items[a] != items[b])
    }

    /** Menu.__init__ and Menu.setup_items for `levels` levels: the first item is selected. */
    constructor (levels: nat)
      ensures Valid() && selectedI == 0 && |items| == levels
      ensures forall k :: 0 <= k < levels ==> items[k].caption == Caption(k) && items[k].text == Caption(k)
    {
      selectedI := 0;
      items := [];
      new;
      var i := 0;
      while i < levels
        invariant 0 <= i <= levels && |items| == i && selectedI == 0
        invariant forall k :: 0 <= k < i ==> items[k].caption == Caption(k) && items[k].text == Caption(k)
        invariant forall k :: 0 <= k < i ==> (items[k].selected <==> k == selectedI)
        invariant forall a, b :: 0 <= a < i && 0 <= b < i && a != b ==> items[a] != items[b]
      {
        var item := new MenuItem(Caption(i), i == selectedI);
        items := items + [item];
        i := i + 1;
      }
    }

    /** Menu.select: the flag moves from the old item to the new one when the new index is on the menu. */
    method Select(direction: int)
      requires Valid()
      modifies this, items
      ensures Valid() && items == old(items)
      ensures selectedI == Selected(old(selectedI), |items|, direction)
      ensures forall k :: 0 <= k < |items| ==> items[k].text == old(items[k].text)
    {
      var newI := selectedI + direction;
      if 0 <= newI < |items| {
        items[selectedI].selected := false;
        selectedI := newI;
        items[selectedI].selected := true;
      }
    }

    /** Menu.update: every item shows its label. */
    method Update()
      requires Valid()
      modifies items
      ensures Valid()
      ensures forall k :: 0 <= k < |items| ==> items[k].text == Label(items[k].caption, items[k].selected)
    {
      var i := 0;
      while i < |items|
        invariant 0 <= i <= |items| && Valid()
        invariant forall k :: 0 <= k < i ==> items[k].text == Label(items[k].caption, items[k].selected)
      {
        items[i].Update();
        i := i + 1;
      }
    }
  }
}
