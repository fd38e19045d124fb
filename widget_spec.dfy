/**
 * The state of an ExpandableTextView as a value, and one function per event
 * that changes it. The class in module Widget keeps the same fields and each of
 * its methods is proved to move its state exactly as the function here does.
 *
 * The widget's two children are folded into the state: the text view (its
 * text and its vertical cap) and the toggle view (its visibility and the
 * indicator it shows).
 */
module WidgetSpec {
  import opened Results
  import opened Indicator
  import opened Interpolation

  /** Integer.MAX_VALUE: the line cap that means "no cap". */
  const INT_MAX: int := 0x7fff_ffff

  /** LinearLayout's orientation constants. */
  const HORIZONTAL: int := 0
  const VERTICAL: int := 1

  datatype Visibility = Visible | Invisible | Gone

  /**
   * The text view's vertical limit. A TextView keeps a single limit, given
   * either in lines (setMaxLines) or in pixels (setMaxHeight); the last call wins.
   */
  datatype TextCap = MaxLines(lines: int) | MaxHeight(pixels: int)

  /** The widget's layout-parameter height. */
  datatype LayoutHeight = WrapContent | Exactly(pixels: int)

  /** One expand/collapse animation, attached to the widget until cleared. */
  datatype Run = Run(startHeight: int, endHeight: int, duration: int)

  /** What the widget is inflated with; fixed for its lifetime. */
  datatype Config = Config(
    maxCollapsedLines: int,
    animationDuration: int,
    expandToggleOnTextClick: bool,
    controller: Controller)

  /**
   * What the host's text layout reports during one onMeasure: the line count and
   * the top of line lineCount after the unconstrained pass, the text view's
   * compound paddings, and the widget's measured height after the second pass.
   */
  datatype Layout = Layout(
    lineCount: int,
    lineTop: int,
    compoundPaddingTop: int,
    compoundPaddingBottom: int,
    measuredHeight: int)

  /** Defaults of the maxCollapsedLines and animDuration attributes. */
  const MAX_COLLAPSED_LINES: int := 8
  const DEFAULT_ANIM_DURATION: int := 300

  /** The attributes init reads from the layout file; None is an absent attribute. */
  datatype WidgetAttributes = WidgetAttributes(
    maxCollapsedLines: Option<int>,
    animDuration: Option<int>,
    expandToggleOnTextClick: Option<bool>,
    toggle: ToggleAttributes)

  /**
   * init's reading of the attributes: absent ones take their defaults (eight
   * lines, 300 ms, text taps toggle), and an unknown toggle type throws.
   */
  function ReadConfig(a: WidgetAttributes): (r: Result<Config>)
    ensures r.Err? <==> SetupExpandToggleController(a.toggle).Err?
    ensures r.Err? ==> r.error == SetupExpandToggleController(a.toggle).error
    ensures r.Ok? ==> r.value.controller == SetupExpandToggleController(a.toggle).value
    ensures r.Ok? ==> r.value.maxCollapsedLines == (if a.maxCollapsedLines.Some? then a.maxCollapsedLines.value else MAX_COLLAPSED_LINES)
    ensures r.Ok? ==> r.value.animationDuration == (if a.animDuration.Some? then a.animDuration.value else DEFAULT_ANIM_DURATION)
    ensures r.Ok? ==> (r.value.expandToggleOnTextClick <==> a.expandToggleOnTextClick != Some(false))
  {
    var controller := SetupExpandToggleController(a.toggle);
    if controller.Err? then Err(controller.error)
    else
      Ok(Config(
        GetOr(a.maxCollapsedLines, MAX_COLLAPSED_LINES),
        GetOr(a.animDuration, DEFAULT_ANIM_DURATION),
        GetOr(a.expandToggleOnTextClick, true),
        controller.value))
  }

  /** The two children a tap can land on. */
  datatype Child = ToggleView | TextView

  datatype State = State(
    collapsed: bool,
    relayout: bool,
    animating: bool,
    collapsedHeight: int,
    textHeightWithMaxLines: int,
    marginBetweenTxtAndBottom: int,
    visibility: Visibility,
    orientation: int,
    layoutHeight: LayoutHeight,
    text: string,
    textCap: TextCap,
    toggleVisibility: Visibility,
    indicator: Indicator,
    status: Option<map<int, bool>>,   // the bound collapsed-status map, if any
    position: int,
    animation: Option<Run>,
    pendingMarginReads: nat,          // posted, not yet run, margin reads
    hasListener: bool)

  /** SparseBooleanArray.get(key, default). */
  function GetOrDefault(flags: map<int, bool>, key: int, default: bool): bool
  {
    if key in flags then flags[key] else default
  }

  /** getRealTextViewHeight: the full text height, offset of the line after the last plus paddings. */
  function RealTextViewHeight(l: Layout): int
  {
    l.lineTop + l.compoundPaddingTop + l.compoundPaddingBottom
  }

  /**
   * The facts every state reachable through the widget's own events keeps
   * (a write to the bound map by another widget or by the adapter is not one
   * of them, and it can break the second fact): the indicator shows the current
   * state, a bound map agrees with it at the bound row, the widget is gone
   * exactly when its text is empty, it is never horizontal, and an attached
   * animation means the animating flag is up.
   */
  predicate Consistent(c: Config, s: State)
  {
    && s.indicator == c.controller.IndicatorFor(s.collapsed)
    && (s.status.Some? ==> GetOrDefault(s.status.value, s.position, true) == s.collapsed)
    && (s.visibility == Gone <==> s.text == [])
    && s.orientation != HORIZONTAL
    && (s.animation.Some? ==> s.animating)
  }

  /**
   * The widget right after inflation: collapsed, gone, vertical, no measurement
   * pending, and the indicator synced to the collapsed state. The toggle's
   * visibility and the layout height come from the layout file.
   */
  function Initial(c: Config, toggleVisibility: Visibility, layoutHeight: LayoutHeight): (s: State)
    ensures Consistent(c, s)
    ensures s.collapsed && !s.relayout && !s.animating && s.visibility == Gone
    ensures s.orientation == VERTICAL && s.animation == None && s.pendingMarginReads == 0
    ensures s.status == None && !s.hasListener
  {
    State(
      collapsed := true, relayout := false, animating := false,
      collapsedHeight := 0, textHeightWithMaxLines := 0, marginBetweenTxtAndBottom := 0,
      visibility := Gone, orientation := VERTICAL, layoutHeight := layoutHeight,
      text := [], textCap := MaxLines(INT_MAX),
      toggleVisibility := toggleVisibility, indicator := c.controller.IndicatorFor(true),
      status := None, position := 0, animation := None, pendingMarginReads := 0,
      hasListener := false)
  }

  /** setOrientation: horizontal throws and changes nothing. */
  function SetOrientation(s: State, orientation: int): Result<State>
  {
    if orientation == HORIZONTAL then Err(HorizontalOrientation) else Ok(s.(orientation := orientation))
  }

  lemma SetOrientationRejectsHorizontal(s: State, orientation: int)
    ensures var r := SetOrientation(s, orientation);
      && (r.Err? <==> orientation == HORIZONTAL)
      && (r.Err? ==> r.error == HorizontalOrientation)
      && (r.Ok? ==> r.value.orientation == orientation && r.value.(orientation := s.orientation) == s)
  {
  }

  /**
   * setText(text): asks for a new measurement, hides the widget exactly when the
   * text is empty, detaches any animation and resets the height to wrap_content.
   */
  function SetText(s: State, text: string): State
  {
    s.(relayout := true, text := text,
       visibility := if text == [] then Gone else Visible,
       animation := None, layoutHeight := WrapContent)
  }

  /** setText invalidates the measurement and never changes the collapsed flag or starts an animation. */
  lemma SetTextInvalidatesMeasurement(s: State, text: string)
    ensures var r := SetText(s, text);
      && r.relayout && r.text == text
      && (r.visibility == Gone <==> text == [])
      && (r.visibility != Gone ==> r.visibility == Visible)
      && r.layoutHeight == WrapContent && r.animation == None
      && r.collapsed == s.collapsed && r.animating == s.animating
      && r.(relayout := s.relayout, text := s.text, visibility := s.visibility,
            layoutHeight := s.layoutHeight, animation := s.animation) == s
  {
  }

  /**
   * setText(text, collapsedStatus, position): binds the map and the row, takes the
   * row's collapsed flag (true when the row has none), syncs the indicator and
   * then does what setText(text) does.
   */
  function SetTextWithStatus(c: Config, s: State, text: string, flags: map<int, bool>, position: int): State
  {
    var collapsed := GetOrDefault(flags, position, true);
    SetText(
      s.(status := Some(flags), position := position, animation := None,
         collapsed := collapsed, indicator := c.controller.IndicatorFor(collapsed)),
      text)
  }

  lemma SetTextWithStatusLoadsRow(c: Config, s: State, text: string, flags: map<int, bool>, position: int)
    ensures var r := SetTextWithStatus(c, s, text, flags, position);
      && r.status == Some(flags) && r.position == position
      && r.collapsed == (if position in flags then flags[position] else true)
      && r.indicator == c.controller.IndicatorFor(r.collapsed)
      && r == SetText(s.(status := Some(flags), position := position, animation := None,
                         collapsed := r.collapsed, indicator := r.indicator), text)
      && r.animating == s.animating
  {
  }

  /**
   * onMeasure. Skipped while no measurement is pending or the widget is gone.
   * Otherwise it clears the pending flag, hides the toggle and lifts the line
   * cap; if the text then needs more lines than the collapsed maximum, it
   * records the full text height, shows the toggle and, when collapsed, caps the
   * lines again, records the collapsed height and posts a margin read.
   */
  function Measure(c: Config, s: State, l: Layout): State
  {
    if !s.relayout || s.visibility == Gone then s
    else if l.lineCount <= c.maxCollapsedLines then
      s.(relayout := false, toggleVisibility := Gone, textCap := MaxLines(INT_MAX))
    else if s.collapsed then
      s.(relayout := false, toggleVisibility := Visible, textCap := MaxLines(c.maxCollapsedLines),
         textHeightWithMaxLines := RealTextViewHeight(l),
         pendingMarginReads := s.pendingMarginReads + 1, collapsedHeight := l.measuredHeight)
    else
      s.(relayout := false, toggleVisibility := Visible, textCap := MaxLines(INT_MAX),
         textHeightWithMaxLines := RealTextViewHeight(l))
  }

  /**
   * When a measurement runs, the toggle ends up visible exactly when the text
   * needs more lines than the collapsed maximum. Fitting text lifts the cap and
   * keeps every stored height; overflowing text records the full text height,
   * and, only when collapsed, the line cap, the collapsed height and a posted
   * margin read. A measurement writes nothing but relayout, the toggle's
   * visibility, the cap, the two heights and the posted reads.
   */
  lemma MeasureOutcome(c: Config, s: State, l: Layout)
    ensures var r := Measure(c, s, l);
      && (!s.relayout || s.visibility == Gone ==> r == s)
      && (s.relayout && s.visibility != Gone ==>
            && !r.relayout
            && (r.toggleVisibility == Visible <==> l.lineCount > c.maxCollapsedLines)
            && (r.toggleVisibility != Visible ==> r.toggleVisibility == Gone))
      && (s.relayout && s.visibility != Gone && l.lineCount <= c.maxCollapsedLines ==>
            r == s.(relayout := false, toggleVisibility := Gone, textCap := MaxLines(INT_MAX)))
      && (s.relayout && s.visibility != Gone && l.lineCount > c.maxCollapsedLines ==>
            && r.textHeightWithMaxLines == l.lineTop + l.compoundPaddingTop + l.compoundPaddingBottom
            && r.textCap == MaxLines(if s.collapsed then c.maxCollapsedLines else INT_MAX)
            && r.collapsedHeight == (if s.collapsed then l.measuredHeight else s.collapsedHeight)
            && r.pendingMarginReads == s.pendingMarginReads + (if s.collapsed then 1 else 0))
      && r.(relayout := s.relayout, toggleVisibility := s.toggleVisibility, textCap := s.textCap,
            textHeightWithMaxLines := s.textHeightWithMaxLines, collapsedHeight := s.collapsedHeight,
            pendingMarginReads := s.pendingMarginReads) == s
  {
  }

  /**
   * The posted margin read, run once layout has placed the children: it stores
   * the widget's height minus the text view's height.
   */
  function ReadMargin(s: State, height: int, textViewHeight: int): State
    requires s.pendingMarginReads > 0
  {
    s.(marginBetweenTxtAndBottom := height - textViewHeight,
       pendingMarginReads := s.pendingMarginReads - 1)
  }

  lemma ReadMarginStoresMargin(s: State, height: int, textViewHeight: int)
    requires s.pendingMarginReads > 0
    ensures var r := ReadMargin(s, height, textViewHeight);
      && r.marginBetweenTxtAndBottom == height - textViewHeight
      && r.pendingMarginReads == s.pendingMarginReads - 1
      && r.(marginBetweenTxtAndBottom := s.marginBetweenTxtAndBottom,
            pendingMarginReads := s.pendingMarginReads) == s
  {
  }

  /**
   * onClick, given the widget's current height and the text view's current
   * height. Nothing happens while the toggle is not visible. Otherwise the
   * collapsed flag flips, the indicator follows, the bound row (if any) is
   * written, the animating flag goes up and a new run replaces any attached one.
   */
  function Click(c: Config, s: State, height: int, textViewHeight: int): State
  {
    if s.toggleVisibility != Visible then s
    else
      var collapsed := !s.collapsed;
      var end := if collapsed then s.collapsedHeight else height + s.textHeightWithMaxLines - textViewHeight;
      s.(collapsed := collapsed,
         indicator := c.controller.IndicatorFor(collapsed),
         status := if s.status.Some? then Some(s.status.value[s.position := collapsed]) else None,
         animating := true,
         animation := Some(Run(height, end, c.animationDuration)))
  }

  /**
   * A click with the toggle hidden changes nothing. Otherwise it flips the
   * flag, writes the new flag at the bound row and nowhere else, and starts a
   * run from the current height: a collapse ends at the recorded collapsed
   * height, an expansion grows by the part of the text the cap hides. A click
   * writes nothing but the flag, the indicator, the map, the animating flag and
   * the run.
   */
  lemma ClickOutcome(c: Config, s: State, height: int, textViewHeight: int)
    ensures var r := Click(c, s, height, textViewHeight);
      && (s.toggleVisibility != Visible ==> r == s)
      && (s.toggleVisibility == Visible ==>
            && r.collapsed == !s.collapsed
            && r.animating
            && r.indicator == c.controller.IndicatorFor(r.collapsed)
            && r.animation.Some?
            && r.animation.value.startHeight == height
            && r.animation.value.duration == c.animationDuration
            && (r.collapsed ==> r.animation.value.endHeight == s.collapsedHeight)
            && (!r.collapsed ==> r.animation.value.endHeight == height + s.textHeightWithMaxLines - textViewHeight))
      && (s.status.None? ==> r.status.None?)
      && (s.status.Some? && s.toggleVisibility == Visible ==>
            && r.status.Some?
            && r.status.value.Keys == s.status.value.Keys + {s.position}
            && r.status.value[s.position] == r.collapsed
            && (forall k :: k in s.status.value && k != s.position ==> r.status.value[k] == s.status.value[k]))
      && r.(collapsed := s.collapsed, indicator := s.indicator, status := s.status,
            animating := s.animating, animation := s.animation) == s
  {
  }

  /** onInterceptTouchEvent: while animating, taps never reach the children. */
  function InterceptsTouch(s: State): bool
  {
    s.animating
  }

  /**
   * A tap on one of the children. The toggle view always forwards it to onClick,
   * the text view only when expandToggleOnTextClick is set; while animating the
   * widget intercepts every tap.
   */
  function Tap(c: Config, s: State, child: Child, height: int, textViewHeight: int): State
  {
    if InterceptsTouch(s) then s
    else if child == ToggleView || c.expandToggleOnTextClick then Click(c, s, height, textViewHeight)
    else s
  }

  /** Taps during an animation, and taps on a text view that does not toggle, change nothing. */
  lemma TapGuard(c: Config, s: State, child: Child, height: int, textViewHeight: int)
    ensures var r := Tap(c, s, child, height, textViewHeight);
      && (s.animating ==> r == s)
      && (child == TextView && !c.expandToggleOnTextClick ==> r == s)
      && (!s.animating && (child == ToggleView || c.expandToggleOnTextClick) ==>
            r == Click(c, s, height, textViewHeight))
  {
  }

  /**
   * applyTransformation of the attached run at time t: the widget's height is
   * the interpolated height and the text view is capped at that height minus the
   * stored margin.
   */
  function Transform(s: State, t: Progress): State
    requires s.animation.Some?
  {
    var h := NewHeight(s.animation.value.startHeight, s.animation.value.endHeight, t);
    s.(textCap := MaxHeight(h - s.marginBetweenTxtAndBottom), layoutHeight := Exactly(h))
  }

  /**
   * A frame puts the widget at the run's start height at time 0, at its end
   * height at time 1 and in between otherwise, and always caps the text at the
   * new height minus the stored margin.
   */
  lemma TransformOutcome(s: State, t: Progress)
    requires s.animation.Some?
    ensures var r := Transform(s, t);
      var run := s.animation.value;
      && r.layoutHeight.Exactly?
      && (t.num == 0 ==> r.layoutHeight.pixels == run.startHeight)
      && (t.num == t.den ==> r.layoutHeight.pixels == run.endHeight)
      && (run.startHeight <= run.endHeight ==> run.startHeight <= r.layoutHeight.pixels <= run.endHeight)
      && (run.endHeight <= run.startHeight ==> run.endHeight <= r.layoutHeight.pixels <= run.startHeight)
      && r.textCap == MaxHeight(r.layoutHeight.pixels - s.marginBetweenTxtAndBottom)
      && r.(layoutHeight := s.layoutHeight, textCap := s.textCap) == s
  {
    NewHeightBetween(s.animation.value.startHeight, s.animation.value.endHeight, t);
  }

  /** The animation-end listener: detaches the run and lowers the animating flag. */
  function AnimationEnd(s: State): State
  {
    s.(animation := None, animating := false)
  }

  /** What the animation-end listener reports to a registered listener: isExpanded. */
  function EndNotification(s: State): (n: Option<bool>)
    ensures n.Some? <==> s.hasListener
    ensures n.Some? ==> (n.value <==> !s.collapsed)
  {
    if s.hasListener then Some(!s.collapsed) else None
  }

  /** Every event the model knows, so that traces of them can be stated. */
  datatype Event =
    | SetTextEvent(text: string)
    | SetTextWithStatusEvent(text: string, flags: map<int, bool>, position: int)
    | MeasureEvent(layout: Layout)
    | MarginReadEvent(height: int, textViewHeight: int)
    | TapEvent(child: Child, height: int, textViewHeight: int)
    | ClickEvent(height: int, textViewHeight: int)
    | FrameEvent(t: Progress)
    | AnimationEndEvent
    | OrientationEvent(orientation: int)
    | ListenerEvent(present: bool)

  /**
   * The host can only run a posted read, only transform an attached run, and
   * only dispatch a tap to the children of a visible widget.
   */
  predicate Enabled(s: State, e: Event)
  {
    match e
    case MarginReadEvent(_, _) => s.pendingMarginReads > 0
    case TapEvent(_, _, _) => s.visibility == Visible
    case FrameEvent(_) => s.animation.Some?
    case _ => true
  }

  function Apply(c: Config, s: State, e: Event): State
    requires Enabled(s, e)
  {
    match e
    case SetTextEvent(text) => SetText(s, text)
    case SetTextWithStatusEvent(text, flags, position) => SetTextWithStatus(c, s, text, flags, position)
    case MeasureEvent(l) => Measure(c, s, l)
    case MarginReadEvent(h, th) => ReadMargin(s, h, th)
    case TapEvent(child, h, th) => Tap(c, s, child, h, th)
    case ClickEvent(h, th) => Click(c, s, h, th)
    case FrameEvent(t) => Transform(s, t)
    case AnimationEndEvent => AnimationEnd(s)
    case OrientationEvent(o) => (match SetOrientation(s, o) case Ok(r) => r case Err(_) => s)
    case ListenerEvent(present) => s.(hasListener := present)
  }

  /** The state after a sequence of events, or None when one of them was not enabled. */
  function Replay(c: Config, s: State, events: seq<Event>): Option<State>
    decreases |events|
  {
    if events == [] then Some(s)
    else if !Enabled(s, events[0]) then None
    else Replay(c, Apply(c, s, events[0]), events[1..])
  }
}
