/** Positioning arithmetic of the tip menu: the horizontal translation of the
    triangle indicator inside the panel, the offsets the popup window is shown
    at, and the three vertices of the triangle.

    Pixel sizes are integers; the touch point is a real number. The `/ 2f`
    halvings of the source are exact here, Kotlin's truncating `Int / 2` and
    `Float.toInt()` are written out (`DivTwo`, `Truncate`). */
module Geometry {

  /** Where the indicator sits: on top of the panel (CORNER_POSITION_TOP) or
      under it (CORNER_POSITION_BOTTOM). */
  datatype Corner = Top | Bottom

  /** `n / 2f`: half of an integer pixel size, exact. */
  function Half(n: int): real { n as real / 2.0 }

  /** Closest the indicator's centre may come to a side of the panel:
      half the indicator plus the rounded corner. */
  function Reach(indicatorWidth: int, radius: int): real {
    Half(indicatorWidth) + radius as real
  }

  /** How far the indicator may move from the panel's centre before it
      would enter a rounded corner. */
  function Slack(popupWidth: int, indicatorWidth: int, radius: int): real {
    Half(popupWidth) - Reach(indicatorWidth, radius)
  }

  /** A popup centred on the touch point would cross the left screen edge. */
  predicate OverflowsLeft(rawX: real, popupWidth: int) {
    rawX < Half(popupWidth)
  }

  /** A popup centred on the touch point would cross the right screen edge. */
  predicate OverflowsRight(rawX: real, screenWidth: int, popupWidth: int) {
    screenWidth as real - rawX < Half(popupWidth)
  }

  /** `indicatorView.translationX` after a trigger: 0 keeps the indicator in
      the middle of the panel; when the popup would leave the screen the
      indicator moves towards the touch point, but not into a rounded corner.
      The left edge is tested first. */
  function IndicatorTranslation(rawX: real, screenWidth: int, popupWidth: int, indicatorWidth: int, radius: int): (t: real)
    // never into a rounded corner, whenever the panel is wide enough to have a straight part
    ensures Slack(popupWidth, indicatorWidth, radius) >= 0.0 ==>
              -Slack(popupWidth, indicatorWidth, radius) <= t <= Slack(popupWidth, indicatorWidth, radius)
    // left overflow moves the indicator left, right overflow moves it right
    ensures Slack(popupWidth, indicatorWidth, radius) >= 0.0 && OverflowsLeft(rawX, popupWidth) ==> t <= 0.0
    ensures (Slack(popupWidth, indicatorWidth, radius) >= 0.0 && !OverflowsLeft(rawX, popupWidth) &&
             OverflowsRight(rawX, screenWidth, popupWidth)) ==> t >= 0.0
    // centred exactly when neither margin is short (the converse needs a straight part of positive length)
    ensures !OverflowsLeft(rawX, popupWidth) && !OverflowsRight(rawX, screenWidth, popupWidth) ==> t == 0.0
    ensures Slack(popupWidth, indicatorWidth, radius) > 0.0 && t == 0.0 ==>
              !OverflowsLeft(rawX, popupWidth) && !OverflowsRight(rawX, screenWidth, popupWidth)
  {
    var marginLeft := rawX;
    var marginRight := screenWidth as real - rawX;
    if marginLeft < Half(popupWidth) then
      if marginLeft < Reach(indicatorWidth, radius) then Reach(indicatorWidth, radius) - Half(popupWidth)
      else marginLeft - Half(popupWidth)
    else if marginRight < Half(popupWidth) then
      if marginRight < Reach(indicatorWidth, radius) then Half(popupWidth) - Reach(indicatorWidth, radius)
      else Half(popupWidth) - marginRight
    else 0.0
  }

  function Clamp(x: real, lo: real, hi: real): real {
    if x < lo then lo else if x > hi then hi else x
  }

  /** Screen x of the popup's centre, assuming the window manager pushes a
      window that would cross a screen edge back inside the screen (left edge
      first, as the translation does). This is the platform's behaviour, not
      code of the menu; it is what gives the translation its meaning. */
  function WindowCentre(rawX: real, screenWidth: int, popupWidth: int): real {
    if OverflowsLeft(rawX, popupWidth) then Half(popupWidth)
    else if OverflowsRight(rawX, screenWidth, popupWidth) then screenWidth as real - Half(popupWidth)
    else rawX
  }

  /** The indicator points at the touch point, clamped to the straight part
      of the panel's edge. */
  lemma IndicatorPointsAtTouch(rawX: real, screenWidth: int, popupWidth: int, indicatorWidth: int, radius: int)
    requires Slack(popupWidth, indicatorWidth, radius) >= 0.0
    ensures var c := WindowCentre(rawX, screenWidth, popupWidth);
            var s := Slack(popupWidth, indicatorWidth, radius);
            c + IndicatorTranslation(rawX, screenWidth, popupWidth, indicatorWidth, radius) == Clamp(rawX, c - s, c + s)
  {
  }

  /** When the screen is at least as wide as the popup, at most one edge
      overflows, and touching at the mirror image of rawX mirrors the
      indicator. */
  lemma TranslationMirror(rawX: real, screenWidth: int, popupWidth: int, indicatorWidth: int, radius: int)
    requires screenWidth >= popupWidth
    ensures !(OverflowsLeft(rawX, popupWidth) && OverflowsRight(rawX, screenWidth, popupWidth))
    ensures IndicatorTranslation(screenWidth as real - rawX, screenWidth, popupWidth, indicatorWidth, radius)
            == -IndicatorTranslation(rawX, screenWidth, popupWidth, indicatorWidth, radius)
  {
  }

  /** The left edge takes precedence: once the left margin is short, the
      screen width (and so the right margin) plays no part. */
  lemma LeftOverflowFirst(rawX: real, screenWidth: int, otherScreenWidth: int, popupWidth: int, indicatorWidth: int, radius: int)
    requires OverflowsLeft(rawX, popupWidth)
    ensures IndicatorTranslation(rawX, screenWidth, popupWidth, indicatorWidth, radius)
            == IndicatorTranslation(rawX, otherScreenWidth, popupWidth, indicatorWidth, radius)
  {
  }

  /** Touches near the left edge, near the right edge and in the middle of a
      400 px screen, for a 200 px popup, a 16 px indicator and an 8 px radius. */
  lemma TranslationExamples()
    ensures IndicatorTranslation(10.0, 400, 200, 16, 8) == -84.0
    ensures IndicatorTranslation(390.0, 400, 200, 16, 8) == 84.0
    ensures IndicatorTranslation(200.0, 400, 200, 16, 8) == 0.0
    ensures IndicatorTranslation(50.0, 400, 200, 16, 8) == -50.0
  {
  }

  /** Kotlin's `Float.toInt()`: truncation towards zero. */
  function Truncate(x: real): (n: int)
    ensures x >= 0.0 ==> n as real <= x < n as real + 1.0
    ensures x < 0.0 ==> n as real - 1.0 < x <= n as real
  {
    if x >= 0.0 then x.Floor else -((-x).Floor)
  }

  /** Kotlin's `Int / 2`: the quotient is truncated towards zero. */
  function DivTwo(n: int): (h: int)
    ensures n >= 0 ==> 0 <= n - 2 * h <= 1
    ensures n < 0 ==> -1 <= n - 2 * h <= 0
  {
    if n >= 0 then n / 2 else -((-n) / 2)
  }

  /** The x and y offsets the window is shown at, with centre gravity. */
  datatype Offset = Offset(x: int, y: int)

  predicate Even(n: int) { n % 2 == 0 }

  /** Top edge of a window of height popupHeight shown with centre gravity at
      offset o, before any push-back: the window manager centres the window
      in the screen, rounding the free space towards zero, and moves it by
      the offset. This is where the window lands while it fits on the screen;
      a window that would cross a screen edge is pushed back inside instead,
      as `WindowCentre` assumes. It is the platform's rule, not code of the
      menu; it gives the offsets their meaning. */
  function WindowTop(o: Offset, screenHeight: int, popupHeight: int): int {
    DivTwo(screenHeight - popupHeight) + o.y
  }

  /** Left edge of a window of width popupWidth, by the same rule and with the same proviso. */
  function WindowLeft(o: Offset, screenWidth: int, popupWidth: int): int {
    DivTwo(screenWidth - popupWidth) + o.x
  }

  /** The window shown at offset o has a height and lies between the
      screen's top and bottom edges, so the window manager does not push it
      back. */
  predicate FitsVertically(o: Offset, screenHeight: int, popupHeight: int) {
    0 <= popupHeight && 0 <= WindowTop(o, screenHeight, popupHeight) && WindowTop(o, screenHeight, popupHeight) + popupHeight <= screenHeight
  }

  /** Where the popup window is shown. While the window fits on the screen,
      the edge that carries the indicator's apex (the top edge for Top, the
      bottom edge for Bottom) is placed relative to the touch row; with odd
      sizes the rounding of the two halvings can move it one pixel up. */
  function Placement(corner: Corner, rawX: real, rawY: real, screenWidth: int, screenHeight: int,
                     popupHeight: int, indicatorHeight: int): (o: Offset)
    // indicator on top: the window's top edge lies indicatorHeight below the touch row
    ensures corner == Top && FitsVertically(o, screenHeight, popupHeight) ==>
              Truncate(rawY) + indicatorHeight - 1 <= WindowTop(o, screenHeight, popupHeight)
                                                  <= Truncate(rawY) + indicatorHeight
    ensures corner == Top && FitsVertically(o, screenHeight, popupHeight) &&
            Even(screenHeight) && Even(popupHeight) ==>
              WindowTop(o, screenHeight, popupHeight) == Truncate(rawY) + indicatorHeight
    // indicator below: the window's bottom edge lies popupHeight/2 - indicatorHeight above the touch row
    ensures corner == Bottom && FitsVertically(o, screenHeight, popupHeight) ==>
              Truncate(rawY) - (DivTwo(popupHeight) - indicatorHeight) - 1
                <= WindowTop(o, screenHeight, popupHeight) + popupHeight
                <= Truncate(rawY) - (DivTwo(popupHeight) - indicatorHeight)
    ensures corner == Bottom && FitsVertically(o, screenHeight, popupHeight) &&
            Even(screenHeight) && Even(popupHeight) ==>
              WindowTop(o, screenHeight, popupHeight) + popupHeight == Truncate(rawY) - (DivTwo(popupHeight) - indicatorHeight)
  {
    match corner
    case Top =>
      Offset(Truncate(rawX) - DivTwo(screenWidth),
             Truncate(rawY) - DivTwo(screenHeight) + DivTwo(popupHeight) + indicatorHeight)
    case Bottom =>
      Offset(Truncate(rawX) - DivTwo(screenWidth),
             Truncate(rawY) - DivTwo(screenHeight) - popupHeight + indicatorHeight)
  }

  /** When a window centred on the touch column would cross neither side of
      the screen, it is centred on that column, to within the rounding of
      odd sizes, for either corner position; this agrees with `WindowCentre`,
      which needs no push-back there. */
  lemma PlacementColumn(corner: Corner, rawX: real, rawY: real, screenWidth: int, screenHeight: int,
                        popupWidth: int, popupHeight: int, indicatorHeight: int)
    requires 0 <= popupWidth <= screenWidth
    requires !OverflowsLeft(rawX, popupWidth) && !OverflowsRight(rawX, screenWidth, popupWidth)
    ensures WindowCentre(rawX, screenWidth, popupWidth) == rawX
    ensures var o := Placement(corner, rawX, rawY, screenWidth, screenHeight, popupHeight, indicatorHeight);
            var centre := WindowLeft(o, screenWidth, popupWidth) + DivTwo(popupWidth);
            Truncate(rawX) - 1 <= centre <= Truncate(rawX) &&
            (Even(screenWidth) && Even(popupWidth) ==> centre == Truncate(rawX))
  {
  }

  /** Both corner positions share the column; their rows differ by one and a
      half windows, wherever the touch is and whatever the screen. */
  lemma PlacementTopVersusBottom(rawX: real, rawY: real, screenWidth: int, screenHeight: int,
                                 popupHeight: int, indicatorHeight: int)
    ensures var top := Placement(Top, rawX, rawY, screenWidth, screenHeight, popupHeight, indicatorHeight);
            var bottom := Placement(Bottom, rawX, rawY, screenWidth, screenHeight, popupHeight, indicatorHeight);
            top.x == bottom.x && top.y - bottom.y == DivTwo(popupHeight) + popupHeight
  {
  }

  /** The two placements are not mirror images: on an 800 px high screen, a
      100 px window with a 10 px indicator touched at row 400 opens with its
      top edge 10 px below the touch (Top), but with its bottom edge 40 px
      above it (Bottom), not 10 px. */
  lemma PlacementNotMirrored()
    ensures FitsVertically(Placement(Top, 0.0, 400.0, 480, 800, 100, 10), 800, 100)
    ensures WindowTop(Placement(Top, 0.0, 400.0, 480, 800, 100, 10), 800, 100) == 410
    ensures FitsVertically(Placement(Bottom, 0.0, 400.0, 480, 800, 100, 10), 800, 100)
    ensures WindowTop(Placement(Bottom, 0.0, 400.0, 480, 800, 100, 10), 800, 100) + 100 == 360
  {
  }

  datatype Point = Point(x: real, y: real)

  /** The closed path of the indicator drawable, in its own w x h box
      (y grows downwards). */
  function TriangleVertices(corner: Corner, w: real, h: real): (v: seq<Point>)
    ensures |v| == 3
    // v[0]..v[1] is a horizontal base of length w across the whole box
    ensures v[0].y == v[1].y && v[0].x == 0.0 && v[1].x == w
    // the apex is over the middle of the base: the triangle is isosceles
    ensures v[2].x - v[0].x == v[1].x - v[2].x
    // indicator on top: base on the box's lower side (against the panel), apex at the top
    ensures corner == Top ==> v[0].y == h && v[2].y == 0.0
    // indicator below: base on the box's upper side (against the panel), apex at the bottom
    ensures corner == Bottom ==> v[0].y == 0.0 && v[2].y == h
  {
    match corner
    case Top => [Point(0.0, h), Point(w, h), Point(w / 2.0, 0.0)]
    case Bottom => [Point(0.0, 0.0), Point(w, 0.0), Point(w / 2.0, h)]
  }

  function FlipVertically(p: Point, h: real): Point { Point(p.x, h - p.y) }

  /** The two orientations are mirror images of each other. */
  lemma TriangleMirror(w: real, h: real)
    ensures var top := TriangleVertices(Top, w, h);
            TriangleVertices(Bottom, w, h) == [FlipVertically(top[0], h), FlipVertically(top[1], h), FlipVertically(top[2], h)]
  {
  }
}
