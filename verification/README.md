# TipMenu, modelled in Dafny

A model of the `TipMenu` class of the TipMenu Android library: a small
floating panel of horizontally arranged text items that opens near the touch
point on an anchor view when it is tapped or long-pressed. A triangular
indicator on the panel points at the touch point. The model covers three
parts of the class:

- **Positioning** (`geometry.dfy`, module `Geometry`). This is the horizontal
  translation of the indicator, which clamps it against the screen edges and
  keeps it out of the rounded corners. It also covers the offsets the window
  is shown at and the three vertices of the triangle. Touch coordinates are
  reals. The `/ 2f` halvings are exact. Kotlin's `Float.toInt()` and
  `Int / 2` both truncate towards zero, and the model writes that out as
  `Truncate` and `DivTwo`.
- **Style and strip layout** (`style.dfy` as module `Style`, `strip.dfy` as
  module `Layout`). Drawables are plain records: a `GradientDrawable` is a
  colour plus its corners, and a `StateListDrawable` is a pressed/normal
  pair. The model covers the left, right, single and centre item
  backgrounds, the panel background, the text colour pair, and the
  background kind each item gets from its index. It also covers the
  `for (i in menus.indices)` loop that lays out items and dividers.
- **Controller** (`tipmenu.dfy`, module `Controller`). Class `TipMenu` has the
  source's fields:
  - the nullable popup window;
  - the last touch point;
  - the four cached sizes, each assigned only while it is zero;
  - the indicator's translation;
  - the style primitives and the drawables derived from them.

  Its methods are `bind`, the touch and trigger listeners,
  `showPopupListWindow`, `showTipMenu`, `hidePopupListWindow`, the item
  click handler and the style setters. `Valid()` ties the derived drawables
  to the primitives. It also ties a built window to the cached sizes, to
  the current labels and to the order of its two parts.

Inputs from the platform are parameters: whether the host activity is
finishing, the measured sizes of the strip and the indicator
(`Measurement`), and the screen size (fixed per instance, like the source's
`by lazy` values). The results of `dp2px` for the default sizes are
parameters too (`DefaultPixels`). A window is `PopupWindow(content, width,
height, shownAt)`, and it is showing exactly when `shownAt` holds the offset
it was shown at. What the offsets mean on screen follows the window
manager's rule for centre gravity. While the window fits on the screen, it
is centred in the screen, with the free space halved towards zero, and then
moved by the offset (`WindowTop`, `WindowLeft`). A window that would cross a
screen edge is pushed back inside instead, as `WindowCentre` assumes for the
indicator. So the placement claims are stated only for a window that fits
(`FitsVertically`, and no horizontal overflow for the column). That rule
belongs to the platform and is an assumption of the model.

Behaviour of the code that the model keeps as written:

- `bind` only drops the window. The four cached sizes are never reset, so a
  size measured non-zero once stays for the lifetime of the object.
- The `pressedTextColor` setter passes the new pressed colour as the normal
  colour too, so the text colour pair becomes (c, c)
  (`SetPressedTextColor`).
- The indicator is always filled with the default normal background colour.
  It does not follow `normalBackgroundColor` (`TipMenu.constructor`).
- With `TYPE_CLICK_NONE`, no trigger listener is registered (`TriggerFor`).
- The two placements are not mirror images of each other. For the top
  position, the window's top edge (where the apex is) lies one indicator
  height below the touch row. For the bottom position, the window's bottom
  edge (where the apex is) lies half a window minus one indicator height
  above the touch row (`Geometry.PlacementNotMirrored`).
- A click on an item reports that item's own position to the current
  listener, and then hides the current window, whichever window the item
  belongs to (`ClickItem`).
- For `CORNER_POSITION_TOP`, the indicator is placed above the strip with
  its apex up. The window's centre then lies half a window plus one
  indicator below the touch point, so the panel opens below the touch
  point.

## Model

| member | source | states |
|---|---|---|
| `Geometry.IndicatorTranslation` | app/src/main/java/com/yumi/tipmenu/tipmenu/TipMenu.kt:236-253 | if the panel has a straight part (popupWidth/2 >= indicatorWidth/2 + radius), the translation lies within ±(popupWidth/2 − indicatorWidth/2 − radius); it is ≤ 0 on a left overflow and ≥ 0 on a right overflow; it is 0 when neither margin is below popupWidth/2, and only then when that straight part has positive length |
| `Geometry.IndicatorPointsAtTouch` | app/src/main/java/com/yumi/tipmenu/tipmenu/TipMenu.kt:236-253 | if the window is kept on screen, the indicator's screen x is the touch x clamped to the straight part of the panel's edge |
| `Geometry.TranslationMirror` | app/src/main/java/com/yumi/tipmenu/tipmenu/TipMenu.kt:238-250 | when screenWidth ≥ popupWidth, the two overflow branches exclude each other, and the translation at screenWidth − rawX is the negation of the translation at rawX |
| `Geometry.LeftOverflowFirst` | app/src/main/java/com/yumi/tipmenu/tipmenu/TipMenu.kt:238-245 | the left-edge test comes first: on a left overflow the screen width (the right margin) does not affect the result |
| `Geometry.TranslationExamples` | app/src/main/java/com/yumi/tipmenu/tipmenu/TipMenu.kt:236-253 | on a 400 px screen with a 200 px popup, 16 px indicator and 8 px radius: rawX 10 gives −84, 390 gives +84, 200 gives 0, 50 gives −50 |
| `Geometry.Truncate` | app/src/main/java/com/yumi/tipmenu/tipmenu/TipMenu.kt:264 | `toInt()` truncates towards zero: the result is within 1 of x, on the side of x closer to zero |
| `Geometry.DivTwo` | app/src/main/java/com/yumi/tipmenu/tipmenu/TipMenu.kt:264-265 | Kotlin `Int / 2`: the remainder n − 2h is 0 or 1 for n ≥ 0 and 0 or −1 for n < 0 |
| `Geometry.Placement` | app/src/main/java/com/yumi/tipmenu/tipmenu/TipMenu.kt:261-272 | while the window fits vertically on the screen, the edge that carries the apex lands relative to the touch row: for top, the window's top edge is indicatorHeight below it; for bottom, the window's bottom edge is popupHeight/2 − indicatorHeight above it (exact for even sizes, at most one pixel higher otherwise) |
| `Geometry.PlacementColumn` | app/src/main/java/com/yumi/tipmenu/tipmenu/TipMenu.kt:263-270 | when a window centred on the touch column would overflow neither side of the screen, `WindowCentre` leaves the column as it is and, for either corner position, the window is centred horizontally on the touch column (exact for even sizes, within one pixel otherwise) |
| `Geometry.PlacementNotMirrored` | app/src/main/java/com/yumi/tipmenu/tipmenu/TipMenu.kt:261-272 | the two placements are not mirror images: for an 800 px screen, a 100 px window, a 10 px indicator and touch row 400, both windows fit, the top edge is 10 px below the touch for top, but the bottom edge is 40 px above it for bottom |
| `Geometry.PlacementTopVersusBottom` | app/src/main/java/com/yumi/tipmenu/tipmenu/TipMenu.kt:261-272 | both corner positions use the same x offset; their y offsets differ by popupHeight/2 + popupHeight, whatever the touch point and the screen |
| `Geometry.TriangleVertices` | app/src/main/java/com/yumi/tipmenu/tipmenu/TipMenu.kt:357-371 | three vertices: a horizontal base of length w spanning the box, and an apex over its middle (isosceles); for top the base is on the lower side with the apex at y = 0, for bottom the base is at y = 0 with the apex at y = h |
| `Geometry.TriangleMirror` | app/src/main/java/com/yumi/tipmenu/tipmenu/TipMenu.kt:357-371 | the bottom triangle is the top triangle flipped vertically (y ↦ h − y), vertex by vertex |
| `Style.LeftRadii` | app/src/main/java/com/yumi/tipmenu/tipmenu/TipMenu.kt:292 | the eight entries are r for the top-left and bottom-left corners and 0 for the rest |
| `Style.RightRadii` | app/src/main/java/com/yumi/tipmenu/tipmenu/TipMenu.kt:302 | the eight entries are r for the top-right and bottom-right corners and 0 for the rest |
| `Style.RefreshBackgrounds` | app/src/main/java/com/yumi/tipmenu/tipmenu/TipMenu.kt:288-322 | left, right and single items use the pressed colour when pressed and transparent otherwise, with the same corners in both states; left[k] + right[k] = r for every entry; the single item and the panel are rounded r on every corner; the panel uses the normal background colour |
| `Style.CenterItemBackground` | app/src/main/java/com/yumi/tipmenu/tipmenu/TipMenu.kt:332-341 | a centre item uses the pressed colour when pressed and transparent otherwise, with no rounded corner |
| `Style.KindAt` | app/src/main/java/com/yumi/tipmenu/tipmenu/TipMenu.kt:191-199 | single iff n = 1; left iff n ≥ 2 and i = 0; right iff n ≥ 2 and i = n − 1; centre iff 0 < i < n − 1 |
| `Style.ItemRoundedAtStripCorners` | app/src/main/java/com/yumi/tipmenu/tipmenu/TipMenu.kt:191-199 | an item's corner is rounded (radius r) exactly when it is also a corner of the whole strip, otherwise it is square; every item highlights with the pressed colour |
| `Layout.StripPrefix` | app/src/main/java/com/yumi/tipmenu/tipmenu/TipMenu.kt:176-209 | after k loop turns the strip has 2k children, or 2k − 1 once the last item is added |
| `Layout.StripPrefixAt` | app/src/main/java/com/yumi/tipmenu/tipmenu/TipMenu.kt:176-209 | even slots hold the items, item j/2 with its label, position and background kind; odd slots hold dividers |
| `Layout.StripShape` | app/src/main/java/com/yumi/tipmenu/tipmenu/TipMenu.kt:176-209 | the strip has 2n − 1 children (0 for n = 0); item i is at slot 2i and reports position i; every odd slot is a divider; the last child is an item |
| `Layout.StripPrefixContents` | app/src/main/java/com/yumi/tipmenu/tipmenu/TipMenu.kt:176-209 | after k turns the strip shows menus[..k] in order, with a divider after each item except the last item of the menu |
| `Layout.StripContents` | app/src/main/java/com/yumi/tipmenu/tipmenu/TipMenu.kt:200-208 | the strip's labels are exactly the menu in order, with max(0, n − 1) dividers |
| `Layout.BuildStrip` | app/src/main/java/com/yumi/tipmenu/tipmenu/TipMenu.kt:176-209 | the loop builds exactly the specified strip: labels in menu order, max(0, n − 1) dividers, no divider after the last item |
| `Controller.TriggerFor` | app/src/main/java/com/yumi/tipmenu/tipmenu/TipMenu.kt:126-132 | no trigger listener for TYPE_CLICK_NONE; a long-press listener exactly for TYPE_LONG_CLICK |
| `Controller.ContentOrder` | app/src/main/java/com/yumi/tipmenu/tipmenu/TipMenu.kt:161-174 | two distinct parts; the indicator comes first exactly for the top corner position |
| `Controller.TipMenu.constructor` | app/src/main/java/com/yumi/tipmenu/tipmenu/TipMenu.kt:26-114 | the object starts unbound, with no window, zero caches, default colours, derived drawables and text colours built from the defaults, and an indicator filled with the default normal background colour |
| `Controller.TipMenu.Bind` | app/src/main/java/com/yumi/tipmenu/tipmenu/TipMenu.kt:116-133 | labels and listener are replaced, the window is dropped, the trigger follows the click type, and the four cached sizes are unchanged |
| `Controller.TipMenu.OnTouch` | app/src/main/java/com/yumi/tipmenu/tipmenu/TipMenu.kt:121-125 | once bound, every touch records rawX and rawY |
| `Controller.TipMenu.OnGesture` | app/src/main/java/com/yumi/tipmenu/tipmenu/TipMenu.kt:126-132 | a gesture opens the popup exactly when it is the registered trigger; any other gesture changes nothing |
| `Controller.TipMenu.ShowPopupListWindow` | app/src/main/java/com/yumi/tipmenu/tipmenu/TipMenu.kt:135-256 | a finishing host changes nothing; content is built only when there is no window; a non-zero cached size never changes; the translation is recomputed on every trigger; the window ends up showing, and a window that was showing keeps its place |
| `Controller.TipMenu.BuildPopupWindow` | app/src/main/java/com/yumi/tipmenu/tipmenu/TipMenu.kt:139-235 | the content is the ordered parts, the panel background and the strip built from the current style; each size is measured only while zero; the window height is the strip height plus the indicator height |
| `Controller.TipMenu.ShowTipMenu` | app/src/main/java/com/yumi/tipmenu/tipmenu/TipMenu.kt:258-277 | a built, hidden window is shown at `Placement`; otherwise nothing changes |
| `Controller.TipMenu.HidePopupListWindow` | app/src/main/java/com/yumi/tipmenu/tipmenu/TipMenu.kt:279-286 | a finishing host changes nothing; otherwise a showing window is dismissed, and hiding twice is the same as hiding once |
| `Controller.DismissedIdempotent` | app/src/main/java/com/yumi/tipmenu/tipmenu/TipMenu.kt:283-285 | after a dismissal no window is showing, and dismissing again changes nothing |
| `Controller.TipMenu.ClickItem` | app/src/main/java/com/yumi/tipmenu/tipmenu/TipMenu.kt:182-188 | a click on an item of any shown strip reports that item's position to the current listener, then hides the current window; with no listener it neither reports nor hides; on the current window's strip, the reported position is the clicked label's index in the menu |
| `Controller.TipMenu.PlatformDismiss` | app/src/main/java/com/yumi/tipmenu/tipmenu/TipMenu.kt:230-234 | the focusable window with a background can be dismissed by the platform (outside touch, back key); afterwards no window is showing, so the next trigger shows it again |
| `Controller.TipMenu.RefreshBackgroundOrRadiusStateList` | app/src/main/java/com/yumi/tipmenu/tipmenu/TipMenu.kt:288-322 | the drawables are rebuilt from the current colours and radius |
| `Controller.TipMenu.SetNormalTextColor` | app/src/main/java/com/yumi/tipmenu/tipmenu/TipMenu.kt:76-80 | the text colours become (pressed, new normal) |
| `Controller.TipMenu.SetPressedTextColor` | app/src/main/java/com/yumi/tipmenu/tipmenu/TipMenu.kt:82-86 | the text colours become (new, new): the normal colour is overwritten as well |
| `Controller.TipMenu.SetNormalBackgroundColor` | app/src/main/java/com/yumi/tipmenu/tipmenu/TipMenu.kt:92-96 | the panel's colour follows, and a built window is unchanged |
| `Controller.TipMenu.SetPressedBackgroundColor` | app/src/main/java/com/yumi/tipmenu/tipmenu/TipMenu.kt:97-101 | the left, right and single items highlight with the new colour |
| `Controller.TipMenu.SetBackgroundCornerRadius` | app/src/main/java/com/yumi/tipmenu/tipmenu/TipMenu.kt:102-106 | the panel is rounded with the new radius on every corner |
| `Controller.TipMenu.SetTextPadding` | app/src/main/java/com/yumi/tipmenu/tipmenu/TipMenu.kt:437-442 | the padding is replaced; it applies to the next build |

## Left out

- Android toolkit calls are not modelled. These are the construction of `LinearLayout`, `TextView` and `ImageView`, `addView`/`removeView`, `setBackgroundDrawable` and `PopupWindow` internals. The window is a record of content, size and shown position.
- View measurement (`getViewWidth`/`getViewHeight`, lines 417-425) is an input (`Measurement`). The `layoutParams.width > 0` branch for the indicator (lines 214-225) is not modelled. The indicator's layout parameters are always `WRAP_CONTENT` there, so the measured size is what the code uses.
- Screen metrics via `WindowManager` (lines 401-415) are constructor parameters, fixed per instance like the `by lazy` values.
- `dp2px` and `sp2px` (lines 427-435) convert through the display density in floating point. Their results for the defaults are the `DefaultPixels` parameter.
- IEEE float rounding is not modelled. Touch coordinates, the `/ 2f` halvings and the triangle's coordinates are exact reals.
- Drawing the triangle with Canvas, Path and Paint is not modelled, nor are the drawable's alpha, colour filter and opacity (lines 350-396). Only the three vertices and the fill colour are kept.
- Touch and gesture delivery is reduced to `OnTouch` (record the point) and `OnGesture` (run the registered trigger). A single abstract anchor stands for `anchorView`. Listeners that a previous bind left on a different anchor are not modelled. The long-click listener's `true` result and the touch listener's `false` result are not modelled.
- `Controller.TipMenu.OnGesture`: states only that the window ends up showing. The full effect is stated by `ShowPopupListWindow`, which it calls.
- The style setters of `normalTextColor`, `pressedTextColor`, `normalBackgroundColor`, `pressedBackgroundColor` and `backgroundCornerRadius` belong to private properties of the source, which nothing in the class assigns. They are modelled as methods so that the refresh logic they trigger is covered.
- Controller.TipMenu.Bind: a window that is showing when `bind` is called stays on screen, but the model keeps no state for it once `popupWindow` is dropped. Clicks on its items are covered, since `ClickItem` accepts any shown strip. Its own dismissal is not modelled, and neither is the next build moving the single indicator view out of it (lines 151-154).
- Kotlin `Int` is 32-bit and `Float.toInt()` saturates at the `Int` bounds. `Truncate`, `DivTwo`, `Placement` and the cached sizes use unbounded integers, so pixel values and touch coordinates are assumed to stay within 32-bit range, where the two agree.
- `Geometry.Placement` and `Geometry.PlacementColumn` say nothing about a window that crosses a screen edge. There the window manager pushes the window back inside, and where its edges then land is not stated.
- `clickType` and `cornerPosition` are plain `Int` parameters in the source (line 26); the model takes them as the closed types `ClickType` and `Corner`, so other values are outside the model. In the source, any other `clickType` registers no trigger, like `TYPE_CLICK_NONE` (lines 126-132 have no else branch). Any other `cornerPosition` adds neither the indicator nor the strip to the content (lines 161-174), leaves the triangle's path empty (lines 357-371) and never calls `showAtLocation` (lines 261-274), so the menu is built but never shown.
- `MainActivity.kt` only wires up a demo (a label list and a toast) and is not part of this model.
