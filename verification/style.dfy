/** The drawables the menu derives from its style primitives, as plain
    records: a GradientDrawable is a fill colour and its corners, a
    StateListDrawable a pressed and a normal drawable, a ColorStateList a
    pressed and a normal colour. Colours are Android ARGB ints. */
module Style {

  const TRANSPARENT: int := 0                                 // Color.TRANSPARENT
  const WHITE: int := -1                                      // Color.WHITE, 0xFFFFFFFF as an Int
  const DEFAULT_NORMAL_TEXT_COLOR: int := WHITE
  const DEFAULT_PRESSED_TEXT_COLOR: int := WHITE
  const DEFAULT_NORMAL_BACKGROUND_COLOR: int := -0x34000000
  const DEFAULT_PRESSED_BACKGROUND_COLOR: int := -0x18888889
  const DEFAULT_DIVIDER_COLOR: int := -0x65000001

  /** The corners of a GradientDrawable: none set, one `cornerRadius` for all
      four, or a `cornerRadii` array of eight entries, an (x, y) pair for
      each of top-left, top-right, bottom-right and bottom-left. */
  datatype Corners = Square | Rounded(radius: int) | PerCorner(radii: seq<int>)

  datatype Gradient = Gradient(color: int, corners: Corners)

  /** A StateListDrawable with `state_pressed` and default entries. */
  datatype StateList = StateList(pressed: Gradient, normal: Gradient)

  /** The drawables `refreshBackgroundOrRadiusStateList` keeps: the left,
      right and single ("corner") item backgrounds and the panel's. */
  datatype Backgrounds = Backgrounds(left: StateList, right: StateList, single: StateList, panel: Gradient)

  /** A ColorStateList for `state_pressed` and the default state. */
  datatype TextColors = TextColors(pressed: int, normal: int)

  datatype ItemKind = LeftItem | RightItem | SingleItem | CenterItem

  /** Entry k of a `cornerRadii` array belongs to a corner on the left side
      (top-left or bottom-left). */
  predicate OnLeftSide(k: nat) {
    k / 2 == 0 || k / 2 == 3
  }

  /** Radius of entry k (0 <= k < 8) of the corners, whichever way they were set. */
  function RadiusAt(c: Corners, k: nat): int
    requires k < 8
  {
    match c
    case Square => 0
    case Rounded(r) => r
    case PerCorner(radii) => if k < |radii| then radii[k] else 0
  }

  /** Radii of the leftmost item: rounded on the left side only. */
  function LeftRadii(r: int): (radii: seq<int>)
    ensures |radii| == 8
    ensures forall k :: 0 <= k < 8 ==> radii[k] == if OnLeftSide(k) then r else 0
  {
    [r, r, 0, 0, 0, 0, r, r]
  }

  /** Radii of the rightmost item: rounded on the right side only. */
  function RightRadii(r: int): (radii: seq<int>)
    ensures |radii| == 8
    ensures forall k :: 0 <= k < 8 ==> radii[k] == if OnLeftSide(k) then 0 else r
  {
    [0, 0, r, r, r, r, 0, 0]
  }

  /** An item background: the pressed colour when pressed, transparent
      otherwise, the same corners in both states. */
  predicate PressHighlight(s: StateList, pressedColor: int) {
    s.pressed.color == pressedColor && s.normal.color == TRANSPARENT && s.pressed.corners == s.normal.corners
  }

  function ItemStates(pressedColor: int, corners: Corners): StateList {
    StateList(Gradient(pressedColor, corners), Gradient(TRANSPARENT, corners))
  }

  /** What `refreshBackgroundOrRadiusStateList` rebuilds from the two
      background colours and the corner radius. */
  function RefreshBackgrounds(pressedColor: int, normalColor: int, radius: int): (b: Backgrounds)
    ensures PressHighlight(b.left, pressedColor) && PressHighlight(b.right, pressedColor)
    ensures PressHighlight(b.single, pressedColor)
    ensures b.panel.color == normalColor
    // left and right are complementary halves of a fully rounded shape
    ensures forall k :: 0 <= k < 8 ==>
              RadiusAt(b.left.pressed.corners, k) == (if OnLeftSide(k) then radius else 0) &&
              RadiusAt(b.left.pressed.corners, k) + RadiusAt(b.right.pressed.corners, k) == radius
    // a single item and the panel are rounded all round
    ensures forall k :: 0 <= k < 8 ==>
              RadiusAt(b.single.pressed.corners, k) == radius && RadiusAt(b.panel.corners, k) == radius
  {
    Backgrounds(ItemStates(pressedColor, PerCorner(LeftRadii(radius))),
                ItemStates(pressedColor, PerCorner(RightRadii(radius))),
                ItemStates(pressedColor, Rounded(radius)),
                Gradient(normalColor, Rounded(radius)))
  }

  /** `getCenterItemBackground`: a fresh square background from the current
      pressed colour. */
  function CenterItemBackground(pressedColor: int): (s: StateList)
    ensures PressHighlight(s, pressedColor)
    ensures forall k :: 0 <= k < 8 ==> RadiusAt(s.pressed.corners, k) == 0
  {
    ItemStates(pressedColor, Square)
  }

  /** Which background item i of an n-item strip gets. */
  function KindAt(n: nat, i: nat): (kind: ItemKind)
    requires i < n
    ensures kind == SingleItem <==> n == 1
    ensures kind == LeftItem <==> n > 1 && i == 0
    ensures kind == RightItem <==> n > 1 && i == n - 1
    ensures kind == CenterItem <==> 0 < i < n - 1
  {
    if n > 1 && i == 0 then LeftItem
    else if n > 1 && i == n - 1 then RightItem
    else if n == 1 then SingleItem
    else CenterItem
  }

  function BackgroundOf(kind: ItemKind, b: Backgrounds, pressedColor: int): StateList {
    match kind
    case LeftItem => b.left
    case RightItem => b.right
    case SingleItem => b.single
    case CenterItem => CenterItemBackground(pressedColor)
  }

  /** An item's corner is rounded exactly when it is also a corner of the
      whole strip, and every item highlights with the pressed colour. */
  lemma ItemRoundedAtStripCorners(n: nat, i: nat, pressedColor: int, normalColor: int, radius: int, k: nat)
    requires i < n && k < 8
    ensures var s := BackgroundOf(KindAt(n, i), RefreshBackgrounds(pressedColor, normalColor, radius), pressedColor);
            PressHighlight(s, pressedColor) &&
            RadiusAt(s.pressed.corners, k) ==
              if (i == 0 && OnLeftSide(k)) || (i == n - 1 && !OnLeftSide(k)) then radius else 0
  {
  }
}
