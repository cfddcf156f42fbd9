/** The `TipMenu` controller: binds to an anchor, records the last touch
    point, builds the popup's content the first time it is triggered after
    a bind, caches the measured sizes, places the indicator and the window,
    and dismisses the window when an item is clicked.

    The platform is reduced to what the controller reads from it: whether
    the host activity is finishing, the measured sizes of the strip and the
    indicator (`Measurement`), the screen size, and the pixel values of the
    density-independent defaults (`DefaultPixels`). */
module Controller {
  import opened Wrappers
  import opened Geometry
  import opened Style
  import opened Layout

  /** TYPE_CLICK_NONE, TYPE_LONG_CLICK, TYPE_CLICK. */
  datatype ClickType = ClickNone | LongClick | Click

  /** The gestures the anchor delivers. */
  datatype Gesture = LongPress | Tap

  /** The trigger listener `bind` registers on the anchor. */
  function TriggerFor(clickType: ClickType): (g: Option<Gesture>)
    ensures g.None? <==> clickType == ClickNone
    ensures g == Some(LongPress) <==> clickType == LongClick
  {
    match clickType
    case ClickNone => None
    case LongClick => Some(LongPress)
    case Click => Some(Tap)
  }

  /** The two children of the vertical content view. */
  datatype Part = IndicatorPart | StripPart

  /** The indicator is added before the strip when it points up, after it
      when it points down. */
  function ContentOrder(corner: Corner): (parts: seq<Part>)
    ensures |parts| == 2 && parts[0] != parts[1]
    ensures parts[0] == IndicatorPart <==> corner == Top
  {
    match corner
    case Top => [IndicatorPart, StripPart]
    case Bottom => [StripPart, IndicatorPart]
  }

  /** The content view: its two parts in order, the panel background of the
      strip, and the strip's children. */
  datatype Content = Content(parts: seq<Part>, panel: Gradient, strip: seq<Child>)

  /** A built PopupWindow: its content and size, and where it is shown while
      it is showing. */
  datatype PopupWindow = PopupWindow(content: Content, width: int, height: int, shownAt: Option<Offset>) {
    predicate Showing() { shownAt.Some? }
  }

  /** A showing window is dismissed; no window, or a hidden one, is left as it is. */
  function Dismissed(w: Option<PopupWindow>): Option<PopupWindow> {
    if w.Some? && w.value.Showing() then Some(w.value.(shownAt := None)) else w
  }

  /** A cached size takes the measured value only while it is still zero,
      so a non-zero size is final. */
  function CacheOnce(cached: int, measured: int): int {
    if cached == 0 then measured else cached
  }

  /** Dismissing a second time changes nothing. */
  lemma DismissedIdempotent(w: Option<PopupWindow>)
    ensures Dismissed(Dismissed(w)) == Dismissed(w)
    ensures Dismissed(w).None? || !Dismissed(w).value.Showing()
  {
  }

  /** What measuring the strip and the indicator view returns. */
  datatype Measurement = Measurement(stripWidth: int, stripHeight: int, indicatorWidth: int, indicatorHeight: int)

  /** The defaults after `dp2px`: text size, text padding, corner radius,
      divider size, and the indicator's 16 x 8 dp box. */
  datatype DefaultPixels = DefaultPixels(
    textSize: int, padding: Padding, radius: int, dividerWidth: int, dividerHeight: int,
    indicatorWidth: real, indicatorHeight: real)

  /** The indicator drawable: its path and its fill colour. */
  datatype Triangle = Triangle(vertices: seq<Point>, color: int)

  /** A `PopupMenuListener`, told apart by identity. */
  datatype Listener = Listener(id: nat)

  /** A call of `onPopupMenuClick(position)` on a listener. */
  datatype Notification = Notification(listener: Listener, position: nat)

  class TipMenu {
    const clickType: ClickType
    const cornerPosition: Corner
    const screenWidth: int
    const screenHeight: int
    const indicator: Triangle

    // what `bind` sets: the anchor's listeners, the labels and the callback
    var bound: bool
    var trigger: Option<Gesture>
    var menus: seq<string>
    var listener: Option<Listener>
    var popupWindow: Option<PopupWindow>
    ghost var builtWith: ItemStyle
    var rawX: real
    var rawY: real

    // style primitives
    var normalTextColor: int
    var pressedTextColor: int
    var textSize: int
    var textPadding: Padding
    var normalBackgroundColor: int
    var pressedBackgroundColor: int
    var backgroundCornerRadius: int
    var divider: DividerStyle

    // drawables derived from them
    var backgrounds: Backgrounds
    var textColors: TextColors

    // indicator placement and the cached sizes
    var indicatorTranslationX: real
    var indicatorWidth: int
    var indicatorHeight: int
    var popupWindowWidth: int
    var popupWindowHeight: int

    ghost predicate Valid()
      reads this
    {
      backgrounds == RefreshBackgrounds(pressedBackgroundColor, normalBackgroundColor, backgroundCornerRadius)
      && textColors.pressed == pressedTextColor
      && (textColors.normal == normalTextColor || textColors.normal == pressedTextColor)
      && trigger == (if bound then TriggerFor(clickType) else None)
      && (popupWindow.Some? ==>
            bound
            && popupWindow.value.width == popupWindowWidth
            && popupWindow.value.height == popupWindowHeight
            && popupWindow.value.content.parts == ContentOrder(cornerPosition)
            && popupWindow.value.content.strip == Strip(menus, builtWith))
    }

    /** The style the strip is built with, read from the current fields. */
    function CurrentItemStyle(): ItemStyle
      reads this
    {
      ItemStyle(backgrounds, pressedBackgroundColor, TextStyle(textColors, textSize, textPadding), divider)
    }

    /** Where `showTipMenu` shows the window. */
    function CurrentPlacement(): Offset
      reads this
    {
      Placement(cornerPosition, rawX, rawY, screenWidth, screenHeight, popupWindowHeight, indicatorHeight)
    }

    constructor (clickType: ClickType, cornerPosition: Corner, screenWidth: int, screenHeight: int, px: DefaultPixels)
      ensures Valid()
      ensures this.clickType == clickType && this.cornerPosition == cornerPosition
      ensures this.screenWidth == screenWidth && this.screenHeight == screenHeight
      ensures !bound && popupWindow.None? && listener.None?
      ensures rawX == 0.0 && rawY == 0.0 && indicatorTranslationX == 0.0
      ensures indicatorWidth == 0 && indicatorHeight == 0 && popupWindowWidth == 0 && popupWindowHeight == 0
      ensures normalTextColor == DEFAULT_NORMAL_TEXT_COLOR && pressedTextColor == DEFAULT_PRESSED_TEXT_COLOR
      ensures textColors == TextColors(DEFAULT_PRESSED_TEXT_COLOR, DEFAULT_NORMAL_TEXT_COLOR)
      ensures normalBackgroundColor == DEFAULT_NORMAL_BACKGROUND_COLOR
      ensures pressedBackgroundColor == DEFAULT_PRESSED_BACKGROUND_COLOR
      ensures backgroundCornerRadius == px.radius
      ensures textSize == px.textSize && textPadding == px.padding
      ensures divider == DividerStyle(DEFAULT_DIVIDER_COLOR, px.dividerWidth, px.dividerHeight)
      // the indicator is always filled with the default colour, whatever the panel's colour becomes
      ensures indicator == Triangle(TriangleVertices(cornerPosition, px.indicatorWidth, px.indicatorHeight),
                                    DEFAULT_NORMAL_BACKGROUND_COLOR)
    {
      this.clickType := clickType;
      this.cornerPosition := cornerPosition;
      this.screenWidth := screenWidth;
      this.screenHeight := screenHeight;
      indicator := Triangle(TriangleVertices(cornerPosition, px.indicatorWidth, px.indicatorHeight),
                            DEFAULT_NORMAL_BACKGROUND_COLOR);
      bound := false;
      trigger := None;
      menus := [];
      listener := None;
      popupWindow := None;
      rawX, rawY := 0.0, 0.0;
      normalTextColor := DEFAULT_NORMAL_TEXT_COLOR;
      pressedTextColor := DEFAULT_PRESSED_TEXT_COLOR;
      textSize := px.textSize;
      textPadding := px.padding;
      normalBackgroundColor := DEFAULT_NORMAL_BACKGROUND_COLOR;
      pressedBackgroundColor := DEFAULT_PRESSED_BACKGROUND_COLOR;
      backgroundCornerRadius := px.radius;
      divider := DividerStyle(DEFAULT_DIVIDER_COLOR, px.dividerWidth, px.dividerHeight);
      indicatorTranslationX := 0.0;
      indicatorWidth, indicatorHeight, popupWindowWidth, popupWindowHeight := 0, 0, 0, 0;
      new;
      backgrounds := RefreshBackgrounds(pressedBackgroundColor, normalBackgroundColor, backgroundCornerRadius);
      textColors := TextColors(pressedTextColor, normalTextColor);
    }

    /** Replaces the labels and the callback and drops the built window. The
        cached sizes, the touch point and the style are kept. */
    method Bind(menus: seq<string>, listener: Option<Listener>)
      requires Valid()
      modifies this`bound, this`trigger, this`menus, this`listener, this`popupWindow
      ensures Valid()
      ensures bound && this.menus == menus && this.listener == listener
      ensures popupWindow.None?
      ensures trigger == TriggerFor(clickType)
      ensures indicatorWidth == old(indicatorWidth) && indicatorHeight == old(indicatorHeight)
      ensures popupWindowWidth == old(popupWindowWidth) && popupWindowHeight == old(popupWindowHeight)
    {
      this.menus := menus;
      this.listener := listener;
      popupWindow := None;
      bound := true;
      trigger := TriggerFor(clickType);
    }

    /** The anchor's touch listener: records the raw touch point, once bound. */
    method OnTouch(x: real, y: real)
      requires Valid()
      modifies this`rawX, this`rawY
      ensures Valid()
      ensures bound ==> rawX == x && rawY == y
      ensures !bound ==> rawX == old(rawX) && rawY == old(rawY)
    {
      if bound {
        rawX, rawY := x, y;
      }
    }

    /** A gesture on the anchor: opens the popup when it is the registered trigger. */
    method OnGesture(g: Gesture, hostFinishing: bool, m: Measurement) returns (fired: bool)
      requires Valid()
      modifies this`popupWindow, this`builtWith, this`indicatorTranslationX,
               this`indicatorWidth, this`indicatorHeight, this`popupWindowWidth, this`popupWindowHeight
      ensures Valid()
      ensures fired <==> bound && TriggerFor(clickType) == Some(g)
      ensures !fired ==> unchanged(this)
      ensures fired && !hostFinishing ==> popupWindow.Some? && popupWindow.value.Showing()
    {
      fired := trigger == Some(g);
      if fired {
        ShowPopupListWindow(hostFinishing, m);
      }
    }

    /** `showPopupListWindow`: builds the content if there is no window,
        caching each size only while it is zero, then places the indicator
        and shows the window unless it is showing already. */
    method ShowPopupListWindow(hostFinishing: bool, m: Measurement)
      requires Valid() && bound
      modifies this`popupWindow, this`builtWith, this`indicatorTranslationX,
               this`indicatorWidth, this`indicatorHeight, this`popupWindowWidth, this`popupWindowHeight
      ensures Valid()
      // a finishing host changes nothing
      ensures hostFinishing ==> unchanged(this)
      // a non-zero cached size never changes
      ensures old(indicatorWidth) != 0 ==> indicatorWidth == old(indicatorWidth)
      ensures old(indicatorHeight) != 0 ==> indicatorHeight == old(indicatorHeight)
      ensures old(popupWindowWidth) != 0 ==> popupWindowWidth == old(popupWindowWidth)
      ensures old(popupWindowHeight) != 0 ==> popupWindowHeight == old(popupWindowHeight)
      // an existing window is reused: no size is measured, the content stays
      ensures old(popupWindow).Some? ==>
                indicatorWidth == old(indicatorWidth) && indicatorHeight == old(indicatorHeight) &&
                popupWindowWidth == old(popupWindowWidth) && popupWindowHeight == old(popupWindowHeight)
      ensures !hostFinishing && old(popupWindow).Some? ==>
                popupWindow == Some(old(popupWindow).value.(shownAt :=
                  if old(popupWindow).value.Showing() then old(popupWindow).value.shownAt else Some(CurrentPlacement())))
      // without a window, one is built from the current style and shown
      ensures !hostFinishing && old(popupWindow).None? ==>
                indicatorWidth == CacheOnce(old(indicatorWidth), m.indicatorWidth) &&
                indicatorHeight == CacheOnce(old(indicatorHeight), m.indicatorHeight) &&
                popupWindowWidth == CacheOnce(old(popupWindowWidth), m.stripWidth) &&
                popupWindowHeight == CacheOnce(old(popupWindowHeight), m.stripHeight + indicatorHeight) &&
                popupWindow == Some(PopupWindow(Content(ContentOrder(cornerPosition), backgrounds.panel,
                                                        Strip(menus, CurrentItemStyle())),
                                                popupWindowWidth, popupWindowHeight, Some(CurrentPlacement())))
      // the indicator is placed again on every trigger, even if the window is showing
      ensures !hostFinishing ==>
                indicatorTranslationX ==
                  IndicatorTranslation(rawX, screenWidth, popupWindowWidth, indicatorWidth, backgroundCornerRadius)
      ensures !hostFinishing ==> popupWindow.Some? && popupWindow.value.Showing()
    {
      if hostFinishing {
        return;
      }
      if popupWindow.None? {
        BuildPopupWindow(m);
      }
      indicatorTranslationX := IndicatorTranslation(rawX, screenWidth, popupWindowWidth, indicatorWidth, backgroundCornerRadius);
      ShowTipMenu();
    }

    /** The build step of `showPopupListWindow`: content view, strip, the
        sizes (each measured only while its cache is zero) and the window. */
    method BuildPopupWindow(m: Measurement)
      requires Valid() && bound && popupWindow.None?
      modifies this`popupWindow, this`builtWith,
               this`indicatorWidth, this`indicatorHeight, this`popupWindowWidth, this`popupWindowHeight
      ensures Valid()
      ensures indicatorWidth == CacheOnce(old(indicatorWidth), m.indicatorWidth)
      ensures indicatorHeight == CacheOnce(old(indicatorHeight), m.indicatorHeight)
      ensures popupWindowWidth == CacheOnce(old(popupWindowWidth), m.stripWidth)
      // the window's height covers the strip and the indicator
      ensures popupWindowHeight == CacheOnce(old(popupWindowHeight), m.stripHeight + indicatorHeight)
      ensures popupWindow == Some(PopupWindow(Content(ContentOrder(cornerPosition), backgrounds.panel,
                                                      Strip(menus, CurrentItemStyle())),
                                              popupWindowWidth, popupWindowHeight, None))
    {
      var st := CurrentItemStyle();
      var parts := ContentOrder(cornerPosition);
      var strip := BuildStrip(menus, st);
      popupWindowWidth := CacheOnce(popupWindowWidth, m.stripWidth);
      indicatorWidth := CacheOnce(indicatorWidth, m.indicatorWidth);
      indicatorHeight := CacheOnce(indicatorHeight, m.indicatorHeight);
      popupWindowHeight := CacheOnce(popupWindowHeight, m.stripHeight + indicatorHeight);
      builtWith := st;
      popupWindow := Some(PopupWindow(Content(parts, backgrounds.panel, strip), popupWindowWidth, popupWindowHeight, None));
      assert CurrentItemStyle() == st;
    }

    /** `showTipMenu`: shows the window at the placement unless it is showing. */
    method ShowTipMenu()
      requires Valid()
      modifies this`popupWindow
      ensures Valid()
      ensures popupWindow ==
                if old(popupWindow).Some? && !old(popupWindow).value.Showing()
                then Some(old(popupWindow).value.(shownAt := Some(CurrentPlacement())))
                else old(popupWindow)
    {
      if popupWindow.Some? && !popupWindow.value.Showing() {
        popupWindow := Some(popupWindow.value.(shownAt := Some(CurrentPlacement())));
      }
    }

    /** `hidePopupListWindow`: dismisses a showing window unless the host is finishing. */
    method HidePopupListWindow(hostFinishing: bool)
      requires Valid()
      modifies this`popupWindow
      ensures Valid()
      ensures popupWindow == if hostFinishing then old(popupWindow) else Dismissed(old(popupWindow))
      ensures !hostFinishing ==> popupWindow.None? || !popupWindow.value.Showing()
    {
      if hostFinishing {
        return;
      }
      if popupWindow.Some? && popupWindow.value.Showing() {
        popupWindow := Some(popupWindow.value.(shownAt := None));
      }
    }

    /** The click listener of the item in slot j of a shown strip. The strip
        need not belong to the current window: a window dropped by a rebind
        stays on screen, and its items still call back. The item reports its
        own position to the current listener, then the current window is
        hidden; with no listener it does neither. */
    method ClickItem(clicked: seq<Child>, j: nat, hostFinishing: bool) returns (notified: Option<Notification>)
      requires Valid()
      requires j < |clicked| && clicked[j].Item?
      modifies this`popupWindow
      ensures Valid()
      ensures notified == if listener.Some? then Some(Notification(listener.value, clicked[j].position)) else None
      // it is the current window that is hidden, whichever window was clicked
      ensures popupWindow == if listener.Some? && !hostFinishing then Dismissed(old(popupWindow)) else old(popupWindow)
      // on the current window, the position reported is the clicked label's index in the menu
      ensures old(popupWindow).Some? && clicked == old(popupWindow).value.content.strip ==>
                2 * clicked[j].position == j && clicked[j].position < |menus| &&
                menus[clicked[j].position] == clicked[j].title
    {
      if popupWindow.Some? && clicked == popupWindow.value.content.strip {
        StripPrefixAt(menus, builtWith, |menus|, j);
      }
      if listener.Some? {
        notified := Some(Notification(listener.value, clicked[j].position));
        HidePopupListWindow(hostFinishing);
      } else {
        notified := None;
      }
    }

    /** The window is focusable and has a background, so the platform
        dismisses it on a touch outside it or the back key. */
    method PlatformDismiss()
      requires Valid()
      modifies this`popupWindow
      ensures Valid()
      ensures popupWindow == Dismissed(old(popupWindow))
    {
      popupWindow := Dismissed(popupWindow);
    }

    /** Rebuilds the left, right, single and panel drawables. */
    method RefreshBackgroundOrRadiusStateList()
      modifies this`backgrounds
      ensures backgrounds == RefreshBackgrounds(pressedBackgroundColor, normalBackgroundColor, backgroundCornerRadius)
    {
      backgrounds := RefreshBackgrounds(pressedBackgroundColor, normalBackgroundColor, backgroundCornerRadius);
    }

    method SetNormalTextColor(color: int)
      requires Valid()
      modifies this`normalTextColor, this`textColors
      ensures Valid()
      ensures normalTextColor == color && textColors == TextColors(pressedTextColor, color)
    {
      normalTextColor := color;
      textColors := TextColors(pressedTextColor, normalTextColor);
    }

    /** The setter hands the new pressed colour over as the normal colour too. */
    method SetPressedTextColor(color: int)
      requires Valid()
      modifies this`pressedTextColor, this`textColors
      ensures Valid()
      ensures pressedTextColor == color && textColors == TextColors(color, color)
      ensures normalTextColor == old(normalTextColor)
    {
      pressedTextColor := color;
      textColors := TextColors(pressedTextColor, pressedTextColor);
    }

    method SetNormalBackgroundColor(color: int)
      requires Valid()
      modifies this`normalBackgroundColor, this`backgrounds
      ensures Valid() && normalBackgroundColor == color
      ensures backgrounds.panel.color == color
      ensures popupWindow == old(popupWindow)
    {
      normalBackgroundColor := color;
      RefreshBackgroundOrRadiusStateList();
    }

    method SetPressedBackgroundColor(color: int)
      requires Valid()
      modifies this`pressedBackgroundColor, this`backgrounds
      ensures Valid() && pressedBackgroundColor == color
      ensures PressHighlight(backgrounds.left, color) && PressHighlight(backgrounds.right, color)
      ensures PressHighlight(backgrounds.single, color)
    {
      pressedBackgroundColor := color;
      RefreshBackgroundOrRadiusStateList();
    }

    method SetBackgroundCornerRadius(radius: int)
      requires Valid()
      modifies this`backgroundCornerRadius, this`backgrounds
      ensures Valid() && backgroundCornerRadius == radius
      ensures forall k :: 0 <= k < 8 ==> RadiusAt(backgrounds.panel.corners, k) == radius
    {
      backgroundCornerRadius := radius;
      RefreshBackgroundOrRadiusStateList();
    }

    /** `setTextPadding`: used by the next build only. */
    method SetTextPadding(left: int, top: int, right: int, bottom: int)
      requires Valid()
      modifies this`textPadding
      ensures Valid() && textPadding == Padding(left, top, right, bottom)
    {
      textPadding := Padding(left, top, right, bottom);
    }
  }
}
