/** What the widget's event functions promise together. */
module WidgetProperties {
  import opened Results
  import opened Indicator
  import opened Interpolation
  import opened WidgetSpec

  /** Every event keeps the widget consistent. */
  lemma ApplyPreservesConsistent(c: Config, s: State, e: Event)
    requires Consistent(c, s) && Enabled(s, e)
    ensures Consistent(c, Apply(c, s, e))
  {
    match e
    case SetTextWithStatusEvent(text, flags, position) =>
      var r := Apply(c, s, e);
      assert GetOrDefault(flags, position, true) == r.collapsed;
    case ClickEvent(h, th) =>
      ClickPreservesConsistent(c, s, h, th);
    case TapEvent(child, h, th) =>
      if !s.animating && (child == ToggleView || c.expandToggleOnTextClick) {
        ClickPreservesConsistent(c, s, h, th);
      }
    case _ =>
  }

  lemma ClickPreservesConsistent(c: Config, s: State, height: int, textViewHeight: int)
    requires Consistent(c, s)
    ensures Consistent(c, Click(c, s, height, textViewHeight))
  {
    var r := Click(c, s, height, textViewHeight);
    if s.toggleVisibility == Visible && s.status.Some? {
      assert GetOrDefault(r.status.value, r.position, true) == r.status.value[s.position];
    }
  }

  /** Any sequence of enabled events keeps the widget consistent. */
  lemma {:induction false} ReplayPreservesConsistent(c: Config, s: State, events: seq<Event>)
    requires Consistent(c, s)
    ensures Replay(c, s, events).Some? ==> Consistent(c, Replay(c, s, events).value)
    decreases |events|
  {
    if events != [] && Enabled(s, events[0]) {
      ApplyPreservesConsistent(c, s, events[0]);
      ReplayPreservesConsistent(c, Apply(c, s, events[0]), events[1..]);
    }
  }

  /** Every state the widget can reach from inflation through its own events is consistent. */
  lemma ReachableIsConsistent(c: Config, toggleVisibility: Visibility, layoutHeight: LayoutHeight, events: seq<Event>)
    ensures var r := Replay(c, Initial(c, toggleVisibility, layoutHeight), events);
            r.Some? ==> Consistent(c, r.value)
  {
    ReplayPreservesConsistent(c, Initial(c, toggleVisibility, layoutHeight), events);
  }

  /**
   * One full toggle as the host drives it: a tap on the toggle view,
   * the final animation frame, and the animation-end listener.
   */
  function FullToggle(c: Config, s: State, height: int, textViewHeight: int): State
    requires !s.animating && s.toggleVisibility == Visible
  {
    AnimationEnd(Transform(Tap(c, s, ToggleView, height, textViewHeight), Finished))
  }

  /** A full toggle flips the collapsed flag and leaves the widget settled, the toggle still shown. */
  lemma FullToggleSettles(c: Config, s: State, height: int, textViewHeight: int)
    requires !s.animating && s.toggleVisibility == Visible
    ensures var r := FullToggle(c, s, height, textViewHeight);
      && !r.animating && r.animation == None && r.toggleVisibility == Visible
      && r.collapsed == !s.collapsed
  {
  }

  /**
   * Expanding a settled collapsed widget grows it by exactly the hidden
   * remainder of the text and reports isExpanded = true; collapsing it again
   * brings it back to exactly the recorded collapsed height, reports
   * isExpanded = false, and leaves the bound map agreeing with the start.
   */
  lemma ExpandThenCollapse(c: Config, s: State, h0: int, tv0: int, h1: int, tv1: int)
    requires Consistent(c, s) && s.collapsed && !s.animating && s.toggleVisibility == Visible
    ensures var e := FullToggle(c, s, h0, tv0);
      && !e.collapsed
      && e.layoutHeight == Exactly(h0 + s.textHeightWithMaxLines - tv0)
      && (s.hasListener ==> EndNotification(e) == Some(true))
      && var b := FullToggle(c, e, h1, tv1);
         && b.collapsed
         && b.layoutHeight == Exactly(s.collapsedHeight)
         && b.indicator == s.indicator
         && (s.hasListener ==> EndNotification(b) == Some(false))
         && (s.status.Some? ==> b.status == Some(s.status.value[s.position := true]))
         && (s.status.Some? && s.position in s.status.value ==> b.status == s.status)
         && Consistent(c, b)
  {
    var e := FullToggle(c, s, h0, tv0);
    ClickPreservesConsistent(c, s, h0, tv0);
    ClickPreservesConsistent(c, e, h1, tv1);
    var b := FullToggle(c, e, h1, tv1);
    if s.status.Some? {
      var m := s.status.value;
      assert b.status.value == m[s.position := false][s.position := true];
      assert m[s.position := false][s.position := true] == m[s.position := true];
      if s.position in s.status.value {
        assert s.status.value[s.position] == true;
        assert s.status.value[s.position := true] == s.status.value;
      }
    }
  }

  /** A second measurement without a new setText changes nothing. */
  lemma MeasureOnce(c: Config, s: State, l1: Layout, l2: Layout)
    ensures Measure(c, Measure(c, s, l1), l2) == Measure(c, s, l1)
  {
  }

  /**
   * Assigning the same text again and measuring it against the same layout
   * yields the same toggle visibility, cap and heights as the first time.
   */
  lemma RemeasureSameText(c: Config, s: State, text: string, l: Layout)
    ensures var once := Measure(c, SetText(s, text), l);
            var twice := Measure(c, SetText(once, text), l);
            && twice.collapsedHeight == once.collapsedHeight
            && twice.textHeightWithMaxLines == once.textHeightWithMaxLines
            && twice.toggleVisibility == once.toggleVisibility
            && twice.textCap == once.textCap
            && twice.collapsed == once.collapsed
  {
  }

  /**
   * Text that fits the collapsed maximum never shows the toggle, and then no tap
   * or click changes anything until new text arrives.
   */
  lemma ShortTextNeverToggles(c: Config, s: State, text: string, l: Layout,
                              child: Child, height: int, textViewHeight: int)
    requires text != [] && l.lineCount <= c.maxCollapsedLines
    ensures var r := Measure(c, SetText(s, text), l);
            && r.toggleVisibility == Gone
            && r.textCap == MaxLines(INT_MAX)
            && Tap(c, r, child, height, textViewHeight) == r
            && Click(c, r, height, textViewHeight) == r
  {
  }

  /**
   * Text that needs more lines than the collapsed maximum, measured while
   * collapsed, shows the toggle, caps the text at the collapsed maximum and
   * records both heights.
   */
  lemma LongTextCollapses(c: Config, s: State, text: string, l: Layout)
    requires text != [] && l.lineCount > c.maxCollapsedLines && s.collapsed
    ensures var r := Measure(c, SetText(s, text), l);
            && r.toggleVisibility == Visible
            && r.textCap == MaxLines(c.maxCollapsedLines)
            && r.collapsedHeight == l.measuredHeight
            && r.textHeightWithMaxLines == RealTextViewHeight(l)
            && r.pendingMarginReads == s.pendingMarginReads + 1
  {
  }

  /**
   * List recycling: a row toggled in one widget is found in that state by any
   * widget later bound to the same map and row, and the other rows of the map
   * are as they were.
   */
  lemma RowStateSurvivesRecycling(c: Config, a: State, b: State, text: string,
                                  flags: map<int, bool>, position: int,
                                  height: int, textViewHeight: int, laterText: string)
    requires a.toggleVisibility == Visible && !a.animating
    ensures var bound := SetTextWithStatus(c, a, text, flags, position);
            var toggled := Tap(c, bound, ToggleView, height, textViewHeight);
            var rebound := SetTextWithStatus(c, b, laterText, toggled.status.value, position);
            && rebound.collapsed == toggled.collapsed
            && rebound.indicator == toggled.indicator
            && rebound.collapsed == !GetOrDefault(flags, position, true)
            && (forall q :: q != position ==>
                  GetOrDefault(toggled.status.value, q, true) == GetOrDefault(flags, q, true))
  {
    var bound := SetTextWithStatus(c, a, text, flags, position);
    var toggled := Tap(c, bound, ToggleView, height, textViewHeight);
    assert toggled.status.value == flags[position := toggled.collapsed];
  }

  /** A widget with a three-line maximum, a 300 ms animation and an image toggle that text taps also drive. */
  const ThreeLines := Config(3, 300, true, ImageButtonController(IcExpandMore, IcExpandLess))

  /**
   * Twenty wrapped lines of 20 pixels under a three-line maximum: the widget
   * measures collapsed with the toggle shown, its cap at three lines, a
   * collapsed height of 80 and a full text height of 408, and the posted read
   * then stores a margin of 12 below the text.
   */
  lemma TwentyLineMeasurement()
    ensures var s0 := SetText(Initial(ThreeLines, Visible, WrapContent).(hasListener := true), "twenty lines of text");
      var measured := Measure(ThreeLines, s0, Layout(20, 400, 4, 4, 80));
      && measured.toggleVisibility == Visible && measured.textCap == MaxLines(3)
      && measured.collapsedHeight == 80 && measured.textHeightWithMaxLines == 408
      && measured.pendingMarginReads == 1
      && var settled := ReadMargin(measured, 80, 68);
         && settled.marginBetweenTxtAndBottom == 12
         && settled.collapsed && !settled.animating && settled.hasListener
  {
    var s0 := SetText(Initial(ThreeLines, Visible, WrapContent).(hasListener := true), "twenty lines of text");
    assert s0.relayout && s0.visibility == Visible && s0.collapsed;
    MeasureOutcome(ThreeLines, s0, Layout(20, 400, 4, 4, 80));
  }

  /**
   * The twenty-line widget once settled: a second tap during the expansion is
   * swallowed, the expansion passes 250 pixels halfway and ends at 420 pixels
   * with the text capped at its full height of 408, reporting isExpanded = true.
   */
  lemma TwentyLineExpansion(settled: State)
    requires settled.collapsed && !settled.animating && settled.toggleVisibility == Visible
    requires settled.collapsedHeight == 80 && settled.textHeightWithMaxLines == 408
    requires settled.marginBetweenTxtAndBottom == 12 && settled.hasListener
    ensures var clicked := Tap(ThreeLines, settled, ToggleView, 80, 68);
      && clicked.animating && !clicked.collapsed
      && clicked.animation == Some(Run(80, 420, 300))
      && Tap(ThreeLines, clicked, ToggleView, 80, 68) == clicked
      && var half := Transform(clicked, Fraction(1, 2));
         && half.layoutHeight == Exactly(250) && half.textCap == MaxHeight(238)
         && half.animation.Some?
         && var expanded := AnimationEnd(Transform(half, Finished));
            && expanded.layoutHeight == Exactly(420) && expanded.textCap == MaxHeight(408)
            && EndNotification(expanded) == Some(true)
            && !expanded.collapsed && !expanded.animating && expanded.toggleVisibility == Visible
            && expanded.collapsedHeight == 80 && expanded.hasListener
  {
    var clicked := Tap(ThreeLines, settled, ToggleView, 80, 68);
    ClickOutcome(ThreeLines, settled, 80, 68);
    assert clicked.animation == Some(Run(80, 420, 300));
    var half := Transform(clicked, Fraction(1, 2));
    TransformOutcome(clicked, Fraction(1, 2));
    assert NewHeight(80, 420, Fraction(1, 2)) == 250;
    TransformOutcome(half, Finished);
  }

  /** The expanded twenty-line widget: a tap on the text collapses it back to 80 pixels, reporting isExpanded = false. */
  lemma TwentyLineCollapse(expanded: State)
    requires !expanded.collapsed && !expanded.animating && expanded.toggleVisibility == Visible
    requires expanded.collapsedHeight == 80 && expanded.hasListener
    ensures var collapsing := Tap(ThreeLines, expanded, TextView, 420, 408);
      && collapsing.animation == Some(Run(420, 80, 300))
      && var back := AnimationEnd(Transform(collapsing, Finished));
         && back.collapsed && back.layoutHeight == Exactly(80)
         && back.indicator == Image(IcExpandMore)
         && EndNotification(back) == Some(false)
  {
    var collapsing := Tap(ThreeLines, expanded, TextView, 420, 408);
    ClickOutcome(ThreeLines, expanded, 420, 408);
    TransformOutcome(collapsing, Finished);
  }

  /**
   * A row restored as expanded is measured while expanded, so the collapsed
   * height is never recorded: on a fresh widget the first collapse runs to a
   * height of 0.
   */
  lemma ExpandedRowCollapsesToStaleHeight()
    ensures var bound := SetTextWithStatus(ThreeLines, Initial(ThreeLines, Visible, WrapContent),
                                           "twenty lines of text", map[3 := false], 3);
      var measured := Measure(ThreeLines, bound, Layout(20, 400, 4, 4, 420));
      && !measured.collapsed && measured.toggleVisibility == Visible
      && measured.collapsedHeight == 0 && measured.pendingMarginReads == 0
      && var collapsing := Tap(ThreeLines, measured, ToggleView, 420, 408);
         && collapsing.collapsed && collapsing.animation == Some(Run(420, 0, 300))
         && Transform(collapsing, Finished).layoutHeight == Exactly(0)
  {
    var bound := SetTextWithStatus(ThreeLines, Initial(ThreeLines, Visible, WrapContent),
                                   "twenty lines of text", map[3 := false], 3);
    assert !bound.collapsed && bound.relayout && bound.visibility == Visible;
    var measured := Measure(ThreeLines, bound, Layout(20, 400, 4, 4, 420));
    MeasureOutcome(ThreeLines, bound, Layout(20, 400, 4, 4, 420));
    var collapsing := Tap(ThreeLines, measured, ToggleView, 420, 408);
    ClickOutcome(ThreeLines, measured, 420, 408);
    TransformOutcome(collapsing, Finished);
  }
}
