/**
 * ExpandableTextView as an object whose methods update its fields in place.
 * Each method is proved to leave the object in exactly the state the matching
 * function of WidgetSpec computes from the state before the call; the
 * properties proved about those functions (WidgetProperties) therefore hold of
 * the object as long as its state changes only through its own methods. A
 * write to a shared CollapsedStatus through another widget changes this
 * widget's Model() without any of its methods running.
 */
module Widget {
  import opened Results
  import opened Indicator
  import opened Interpolation
  import opened WidgetSpec

  /**
   * The SparseBooleanArray of collapsed flags that a list adapter owns and
   * shares with every widget it binds to one of its rows.
   */
  class CollapsedStatus {
    var flags: map<int, bool>

    constructor ()
      ensures flags == map[]
    {
      flags := map[];
    }

    function Get(key: int, default: bool): bool
      reads this
    {
      GetOrDefault(flags, key, default)
    }

    method Put(key: int, value: bool)
      modifies this
      ensures flags == old(flags)[key := value]
    {
      flags := flags[key := value];
    }
  }

  class ExpandableTextView {
    const config: Config

    var collapsed: bool
    var relayout: bool
    var animating: bool
    var collapsedHeight: int
    var textHeightWithMaxLines: int
    var marginBetweenTxtAndBottom: int

    var visibility: Visibility
    var orientation: int
    var layoutHeight: LayoutHeight
    var animation: Option<Run>
    var hasListener: bool

    // the text view
    var text: string
    var textCap: TextCap
    // the toggle view
    var toggleVisibility: Visibility
    var indicator: Indicator

    var collapsedStatus: CollapsedStatus?
    var position: int

    /** Runnables posted by onMeasure that the host has not run yet. */
    var pendingMarginReads: nat

    /** The widget's fields, and the bound map's contents, as one value. */
    ghost function Model(): State
      reads this, collapsedStatus
    {
      State(
        collapsed := collapsed, relayout := relayout, animating := animating,
        collapsedHeight := collapsedHeight, textHeightWithMaxLines := textHeightWithMaxLines,
        marginBetweenTxtAndBottom := marginBetweenTxtAndBottom,
        visibility := visibility, orientation := orientation, layoutHeight := layoutHeight,
        text := text, textCap := textCap,
        toggleVisibility := toggleVisibility, indicator := indicator,
        status := if collapsedStatus == null then None else Some(collapsedStatus.flags),
        position := position, animation := animation,
        pendingMarginReads := pendingMarginReads, hasListener := hasListener)
    }

    /**
     * The widget once inflated: init (vertical, gone) followed by findViews,
     * which syncs the indicator to the initial collapsed state.
     */
    constructor (config: Config, toggleVisibility: Visibility, layoutHeight: LayoutHeight)
      ensures this.config == config && collapsedStatus == null
      ensures Model() == Initial(config, toggleVisibility, layoutHeight)
    {
      this.config := config;
      collapsed, relayout, animating := true, false, false;
      collapsedHeight, textHeightWithMaxLines, marginBetweenTxtAndBottom := 0, 0, 0;
      orientation := VERTICAL;
      visibility := Gone;
      this.layoutHeight := layoutHeight;
      animation := None;
      hasListener := false;
      text, textCap := [], MaxLines(INT_MAX);
      this.toggleVisibility := toggleVisibility;
      collapsedStatus, position := null, 0;
      pendingMarginReads := 0;
      new;
      ChangeIndicatorState(collapsed);
    }

    /** The controller's changeState, applied to the toggle view. */
    method ChangeIndicatorState(collapsed: bool)
      modifies this`indicator
      ensures indicator == config.controller.IndicatorFor(collapsed)
    {
      indicator := config.controller.IndicatorFor(collapsed);
    }

    method SetOrientation(orientation: int) returns (error: Option<Error>)
      modifies this`orientation
      ensures var r := WidgetSpec.SetOrientation(old(Model()), orientation);
              && (error.Some? <==> r.Err?)
              && (r.Err? ==> error.value == r.error && Model() == old(Model()))
              && (r.Ok? ==> Model() == r.value)
    {
      if orientation == HORIZONTAL {
        return Some(HorizontalOrientation);
      }
      this.orientation := orientation;
      error := None;
    }

    method OnClick(height: int, textViewHeight: int)
      modifies this, collapsedStatus
      ensures collapsedStatus == old(collapsedStatus)
      ensures Model() == Click(config, old(Model()), height, textViewHeight)
    {
      if toggleVisibility != Visible {
        return;
      }
      collapsed := !collapsed;
      ChangeIndicatorState(collapsed);
      if collapsedStatus != null {
        collapsedStatus.Put(position, collapsed);
      }
      animating := true;
      var run;
      if collapsed {
        run := Run(height, collapsedHeight, config.animationDuration);
      } else {
        run := Run(height, height + textHeightWithMaxLines - textViewHeight, config.animationDuration);
      }
      // clearAnimation, then startAnimation
      animation := Some(run);
    }

    method OnInterceptTouchEvent() returns (intercept: bool)
      ensures intercept == animating
    {
      intercept := animating;
    }

    /** A tap the host delivers to one of the two children. */
    method Tap(child: Child, height: int, textViewHeight: int)
      modifies this, collapsedStatus
      ensures collapsedStatus == old(collapsedStatus)
      ensures Model() == WidgetSpec.Tap(config, old(Model()), child, height, textViewHeight)
    {
      var intercept := OnInterceptTouchEvent();
      if !intercept && (child == ToggleView || config.expandToggleOnTextClick) {
        OnClick(height, textViewHeight);
      }
    }

    /** onMeasure; the host's two layout passes report what layout holds. */
    method OnMeasure(layout: Layout)
      modifies this
      ensures collapsedStatus == old(collapsedStatus)
      ensures Model() == Measure(config, old(Model()), layout)
    {
      if !relayout || visibility == Gone {
        return;
      }
      relayout, toggleVisibility, textCap := false, Gone, MaxLines(INT_MAX);
      if layout.lineCount <= config.maxCollapsedLines {
        return;
      }
      // the text overflows: record its full height and show the toggle; when
      // collapsed, cap the lines again, post the margin read and record the
      // collapsed height
      if collapsed {
        textHeightWithMaxLines, textCap, toggleVisibility := RealTextViewHeight(layout), MaxLines(config.maxCollapsedLines), Visible;
        pendingMarginReads, collapsedHeight := pendingMarginReads + 1, layout.measuredHeight;
      } else {
        textHeightWithMaxLines, toggleVisibility := RealTextViewHeight(layout), Visible;
      }
    }

    /** One runnable posted by onMeasure, run by the host after layout. */
    method RunPostedMarginRead(height: int, textViewHeight: int)
      requires pendingMarginReads > 0
      modifies this
      ensures collapsedStatus == old(collapsedStatus)
      ensures Model() == ReadMargin(old(Model()), height, textViewHeight)
    {
      marginBetweenTxtAndBottom := height - textViewHeight;
      pendingMarginReads := pendingMarginReads - 1;
    }

    method SetOnExpandStateChangeListener(present: bool)
      modifies this`hasListener
      ensures hasListener == present
    {
      hasListener := present;
    }

    method SetText(text: string)
      modifies this
      ensures collapsedStatus == old(collapsedStatus)
      ensures Model() == WidgetSpec.SetText(old(Model()), text)
    {
      relayout, this.text := true, text;
      visibility := if text == [] then Gone else Visible;
      // clearAnimation, and the height back to wrap_content
      animation, layoutHeight := None, WrapContent;
    }

    method SetTextWithStatus(text: string, status: CollapsedStatus, position: int)
      modifies this
      ensures collapsedStatus == status
      ensures Model() == WidgetSpec.SetTextWithStatus(config, old(Model()), text, status.flags, position)
    {
      collapsedStatus := status;
      this.position := position;
      var isCollapsed := status.Get(position, true);
      animation := None;
      collapsed := isCollapsed;
      ChangeIndicatorState(collapsed);
      SetText(text);
    }

    method GetText() returns (t: string)
      ensures t == text
    {
      t := text;
    }

    /** applyTransformation of the attached run at time t. */
    method ApplyTransformation(t: Progress)
      requires animation.Some?
      modifies this
      ensures collapsedStatus == old(collapsedStatus)
      ensures Model() == Transform(old(Model()), t)
    {
      var newHeight := NewHeight(animation.value.startHeight, animation.value.endHeight, t);
      textCap := MaxHeight(newHeight - marginBetweenTxtAndBottom);
      layoutHeight := Exactly(newHeight);
    }

    /** The animation-end listener; returns what a registered listener is told. */
    method OnAnimationEnd() returns (notified: Option<bool>)
      modifies this
      ensures collapsedStatus == old(collapsedStatus)
      ensures Model() == AnimationEnd(old(Model()))
      ensures notified == EndNotification(Model())
    {
      animation := None;
      animating := false;
      notified := if hasListener then Some(!collapsed) else None;
    }
  }

  /**
   * Inflation: init reads the attributes (an unknown toggle type throws before
   * any widget exists), then the widget is built and findViews syncs its
   * indicator.
   */
  method Inflate(attributes: WidgetAttributes, toggleVisibility: Visibility, layoutHeight: LayoutHeight)
    returns (r: Result<ExpandableTextView>)
    ensures r.Err? <==> ReadConfig(attributes).Err?
    ensures r.Err? ==> r.error == ReadConfig(attributes).error
    ensures r.Ok? ==>
      && fresh(r.value)
      && r.value.config == ReadConfig(attributes).value
      && r.value.collapsedStatus == null
      && r.value.Model() == Initial(r.value.config, toggleVisibility, layoutHeight)
  {
    var config := ReadConfig(attributes);
    if config.Err? {
      return Err(config.error);
    }
    var widget := new ExpandableTextView(config.value, toggleVisibility, layoutHeight);
    r := Ok(widget);
  }

  /** The configuration of the list rows in RecycledRowScenario: three lines and a text toggle. */
  const RecycleConfig := Config(3, 300, false, TextViewController(Some("more"), Some("less")))

  /**
   * A list of two widgets sharing one status map: the row expanded through one
   * widget is expanded when the other widget is bound to it, without animating
   * (rowThree is the second widget's state at that point);
   * binding that widget on to a row the map has no entry for shows it
   * collapsed and leaves the map as it was.
   */
  method RecycledRowScenario() returns (first: ExpandableTextView, second: ExpandableTextView, status: CollapsedStatus,
                                         ghost rowThree: State)
    ensures rowThree == SetTextWithStatus(RecycleConfig, Initial(RecycleConfig, Visible, WrapContent),
                                          "row three, recycled", map[3 := false], 3)
    ensures rowThree.position == 3 && !rowThree.collapsed && rowThree.indicator == Label(Some("less"))
    ensures rowThree.animation == None && !rowThree.animating && rowThree.status == Some(map[3 := false])
    ensures first.collapsedStatus == status && second.collapsedStatus == status
    ensures !first.collapsed && first.animating
    ensures second.position == 4 && second.collapsed && second.indicator == Label(Some("more"))
    ensures status.flags == map[3 := false]
  {
    var config := RecycleConfig;
    status := new CollapsedStatus();

    first := new ExpandableTextView(config, Visible, WrapContent);
    first.SetTextWithStatus("row three", status, 3);
    assert first.collapsed;
    first.Tap(ToggleView, 80, 68);
    assert status.flags == map[3 := false];

    second := new ExpandableTextView(config, Visible, WrapContent);
    second.SetTextWithStatus("row three, recycled", status, 3);
    rowThree := second.Model();
    second.SetTextWithStatus("row four", status, 4);
  }
}
