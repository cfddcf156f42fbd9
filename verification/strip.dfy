/** The horizontal strip of the popup: one text item per menu label, in
    menu order, with a divider between neighbouring items. */
module Layout {
  import opened Style

  datatype Padding = Padding(left: int, top: int, right: int, bottom: int)

  datatype TextStyle = TextStyle(colors: TextColors, size: int, padding: Padding)

  datatype DividerStyle = DividerStyle(color: int, width: int, height: int)

  /** The style the build loop reads from the menu. */
  datatype ItemStyle = ItemStyle(backgrounds: Backgrounds, pressedColor: int, text: TextStyle, divider: DividerStyle)

  /** A child of the strip: a clickable text item that reports `position`
      when clicked, or a divider. */
  datatype Child =
    | Item(title: string, position: nat, kind: ItemKind, background: StateList, text: TextStyle)
    | Divider(style: DividerStyle)

  function ItemAt(menus: seq<string>, i: nat, st: ItemStyle): Child
    requires i < |menus|
  {
    var kind := KindAt(|menus|, i);
    Item(menus[i], i, kind, BackgroundOf(kind, st.backgrounds, st.pressedColor), st.text)
  }

  /** The divider added after item i, if any: none for a single item or after the last one. */
  function DividerAfter(menus: seq<string>, i: nat, st: ItemStyle): seq<Child> {
    if |menus| > 1 && i != |menus| - 1 then [Divider(st.divider)] else []
  }

  /** The strip after the first k turns of the build loop. */
  function StripPrefix(menus: seq<string>, st: ItemStyle, k: nat): (r: seq<Child>)
    requires k <= |menus|
    ensures |r| == if 0 < k == |menus| then 2 * k - 1 else 2 * k
    decreases k
  {
    if k == 0 then []
    else StripPrefix(menus, st, k - 1) + [ItemAt(menus, k - 1, st)] + DividerAfter(menus, k - 1, st)
  }

  function Strip(menus: seq<string>, st: ItemStyle): seq<Child> {
    StripPrefix(menus, st, |menus|)
  }

  /** Items and dividers alternate: even slots hold the items in menu
      order, odd slots dividers. */
  lemma {:induction false} StripPrefixAt(menus: seq<string>, st: ItemStyle, k: nat, j: nat)
    requires k <= |menus| && j < |StripPrefix(menus, st, k)|
    ensures StripPrefix(menus, st, k)[j] == if j % 2 == 0 then ItemAt(menus, j / 2, st) else Divider(st.divider)
  {
    if j < |StripPrefix(menus, st, k - 1)| {
      StripPrefixAt(menus, st, k - 1, j);
    }
  }

  /** The strip has 2n - 1 children for n >= 1 items, item i sits at slot
      2i and reports position i, and the last child is an item. */
  lemma StripShape(menus: seq<string>, st: ItemStyle)
    ensures |Strip(menus, st)| == if |menus| == 0 then 0 else 2 * |menus| - 1
    ensures forall i :: 0 <= i < |menus| ==>
              2 * i < |Strip(menus, st)| && Strip(menus, st)[2 * i] == ItemAt(menus, i, st)
    ensures forall j :: 0 <= j < |Strip(menus, st)| && j % 2 == 1 ==> Strip(menus, st)[j] == Divider(st.divider)
    ensures |menus| > 0 ==> Strip(menus, st)[|Strip(menus, st)| - 1].Item?
  {
    var s := Strip(menus, st);
    forall i | 0 <= i < |menus| ensures 2 * i < |s| && s[2 * i] == ItemAt(menus, i, st) {
      StripPrefixAt(menus, st, |menus|, 2 * i);
    }
    forall j | 0 <= j < |s| && j % 2 == 1 ensures s[j] == Divider(st.divider) {
      StripPrefixAt(menus, st, |menus|, j);
    }
    if |menus| > 0 {
      StripPrefixAt(menus, st, |menus|, |s| - 1);
    }
  }

  function DividerCount(children: seq<Child>): nat {
    if children == [] then 0
    else (if children[0].Divider? then 1 else 0) + DividerCount(children[1..])
  }

  lemma {:induction false} DividerCountAppend(a: seq<Child>, b: seq<Child>)
    ensures DividerCount(a + b) == DividerCount(a) + DividerCount(b)
  {
    if a == [] {
      assert a + b == b;
    } else {
      assert (a + b)[1..] == a[1..] + b;
      DividerCountAppend(a[1..], b);
    }
  }

  /** The labels of the items, in strip order. */
  function Labels(children: seq<Child>): seq<string> {
    if children == [] then []
    else (if children[0].Item? then [children[0].title] else []) + Labels(children[1..])
  }

  lemma {:induction false} LabelsAppend(a: seq<Child>, b: seq<Child>)
    ensures Labels(a + b) == Labels(a) + Labels(b)
  {
    if a == [] {
      assert a + b == b;
    } else {
      assert (a + b)[1..] == a[1..] + b;
      LabelsAppend(a[1..], b);
    }
  }

  /** After k turns the strip shows the first k labels and has a divider
      after each of them except the very last item. */
  lemma {:induction false} StripPrefixContents(menus: seq<string>, st: ItemStyle, k: nat)
    requires k <= |menus|
    ensures Labels(StripPrefix(menus, st, k)) == menus[..k]
    ensures DividerCount(StripPrefix(menus, st, k)) == if 0 < k == |menus| then k - 1 else k
  {
    if k > 0 {
      var p := StripPrefix(menus, st, k - 1);
      var d := DividerAfter(menus, k - 1, st);
      StripPrefixContents(menus, st, k - 1);
      LabelsAppend(p + [ItemAt(menus, k - 1, st)], d);
      LabelsAppend(p, [ItemAt(menus, k - 1, st)]);
      DividerCountAppend(p + [ItemAt(menus, k - 1, st)], d);
      DividerCountAppend(p, [ItemAt(menus, k - 1, st)]);
      assert menus[..k] == menus[..k - 1] + [menus[k - 1]];
    }
  }

  /** The strip lists every label once, in menu order, with max(0, n - 1) dividers. */
  lemma StripContents(menus: seq<string>, st: ItemStyle)
    ensures Labels(Strip(menus, st)) == menus
    ensures DividerCount(Strip(menus, st)) == if |menus| == 0 then 0 else |menus| - 1
  {
    StripPrefixContents(menus, st, |menus|);
    assert menus[..|menus|] == menus;
  }

  /** The loop over the menu's indices in `showPopupListWindow`: adds item
      i, then a divider unless it is the only or the last item. */
  method BuildStrip(menus: seq<string>, st: ItemStyle) returns (children: seq<Child>)
    ensures children == Strip(menus, st)
    ensures Labels(children) == menus
    ensures DividerCount(children) == if |menus| == 0 then 0 else |menus| - 1
    ensures |menus| > 0 ==> children[|children| - 1].Item?
  {
    children := [];
    for i := 0 to |menus|
      invariant children == StripPrefix(menus, st, i)
    {
      children := children + [ItemAt(menus, i, st)];
      if |menus| > 1 && i != |menus| - 1 {
        children := children + [Divider(st.divider)];
      }
    }
    StripContents(menus, st);
    StripShape(menus, st);
  }
}
