# ExpandableTextView: the expand/collapse state machine

ExpandableTextView is an Android widget: a vertical container that holds a text
view and a toggle view. When the text needs more lines than a configured
maximum, the widget shows the text cut to that many lines and shows the toggle.
Tapping the toggle (or the text, if configured so) animates the container's
height to the full text and back. When a list adapter shares one map of
collapsed flags with the widgets it recycles, each row remembers its state.

This project models that state machine in Dafny and proves what it promises.

- `results.dfy` (module `Results`): `Option`, `Result` and the two exceptions
  the widget throws.
- `indicator.dfy` (module `Indicator`): the two indicator controllers, which
  swap an image or a label. Also the toggle-type attribute and the default
  glyphs.
- `interpolation.dfy` (module `Interpolation`): the animation's height
  arithmetic. The elapsed fraction is an exact fraction in [0, 1]. The cast
  of the interpolated height to `int` is truncation toward zero.
- `widget_spec.dfy` (module `WidgetSpec`): the widget's state as a value
  (`State`), one function per event, and a lemma beside each function stating
  its outcome. `Consistent` is the invariant every state reached through the
  widget's own events keeps.
- `widget.dfy` (module `Widget`):
  - the class `ExpandableTextView`, whose fields mirror the widget's. Each
    method is proved to move the object's state (`Model()`) exactly as the
    matching `WidgetSpec` function does;
  - the class `CollapsedStatus`, the shared map of collapsed flags. Two widgets
    bound to one map really share it.
- `widget_properties.dfy` (module `WidgetProperties`): properties that span
  several events:
  - the invariant holds along every sequence of the widget's own events;
  - expanding then collapsing returns to the collapsed height;
  - measuring twice without new text is a no-op;
  - a list row keeps its state across recycling;
  - a concrete twenty-line walk-through.

Inputs the host supplies become parameters:

- The text layout is a `Layout` passed to `OnMeasure`: the line count,
  `getLineTop(getLineCount())`, the compound paddings and the measured height.
- The current heights of the container and the text view are passed to
  `OnClick`, `Tap` and `RunPostedMarginRead`.
- The elapsed fraction is passed to `ApplyTransformation`.

The runnable that `onMeasure` posts is a counter of pending reads. The host
runs one with `RunPostedMarginRead`.

In these places the code does something a reader might not expect; the model
follows the code:

- The full text height is the top of line `getLineCount()` plus paddings. That
  is the bottom of the whole text, not the top of line `maxCollapsedLines`.
- The stored margin is `getHeight() - mTv.getHeight()`. The longer
  expression, which also subtracts the toggle's height and the top margin, is
  computed but only logged.
- `onClick` does not check `mAnimating`. Only `onInterceptTouchEvent` stops
  taps while animating, so `Tap` is guarded and `OnClick` is not.
- An expansion ends at the current height plus the hidden part of the text
  (`getHeight() + mTextHeightWithMaxLines - mTv.getHeight()`). It does not
  start from the recorded collapsed height.
- Nothing checks that `maxCollapsedLines` is at least 1.
- The collapsed height is recorded only by a measurement taken while
  collapsed (lines 249 and 257-286). A row restored as expanded through
  `setText(text, map, pos)` and measured that way keeps the collapsed height it
  had before: 0 on a fresh widget, or the height of another row on a recycled
  one. Its first collapse then runs to that height.
  `ExpandedRowCollapsesToStaleHeight` shows the fresh case.
- Measurement is skipped only while the widget is GONE. An INVISIBLE widget is
  still measured.

## Model

| member | source | states |
|---|---|---|
| Indicator.Controller.IndicatorFor | lib/src/main/java/com/ms/square/android/expandabletextview/ExpandableTextView.java:464-514 | changeState shows the expand asset or label while collapsed and the collapse one otherwise; an image controller shows images and a text controller labels |
| Indicator.IndicatorDistinguishesStates | lib/src/main/java/com/ms/square/android/expandabletextview/ExpandableTextView.java:483-485 | when the two assets differ, equal indicators mean equal collapsed flags, and the other way round |
| Indicator.SetupExpandToggleController | lib/src/main/java/com/ms/square/android/expandabletextview/ExpandableTextView.java:390-416 | an error exactly when the toggle type (default image button) is neither 0 nor 1, naming the type; an absent type gives the image controller; missing images fall back to the two library glyphs; labels are taken as read, possibly null |
| Interpolation.TruncDiv | lib/src/main/java/com/ms/square/android/expandabletextview/ExpandableTextView.java:433 | the int cast: the quotient rounded toward zero, bounded by the true quotient on the side of zero |
| Interpolation.NewHeight | lib/src/main/java/com/ms/square/android/expandabletextview/ExpandableTextView.java:433 | the interpolated height is exactly the start height at time 0 and exactly the end height at time 1 |
| Interpolation.NewHeightBetween | lib/src/main/java/com/ms/square/android/expandabletextview/ExpandableTextView.java:433 | every interpolated height lies between the start and end heights |
| Interpolation.NewHeightMonotone | lib/src/main/java/com/ms/square/android/expandabletextview/ExpandableTextView.java:433 | for any two times t1 <= t2 in [0, 1], whatever their denominators, the later frame is never farther from the end height: an expansion only grows, a collapse only shrinks |
| WidgetSpec.ReadConfig | lib/src/main/java/com/ms/square/android/expandabletextview/ExpandableTextView.java:320-329 | absent attributes take their defaults (8 lines, 300 ms, text taps toggle); an unknown toggle type is an error and nothing is configured |
| WidgetSpec.Initial | lib/src/main/java/com/ms/square/android/expandabletextview/ExpandableTextView.java:320-351 | the inflated widget is collapsed, gone, vertical, not animating, with no run attached, no measurement or margin read pending, no map bound and no listener, and satisfies the invariant (its indicator shows the collapsed state) |
| WidgetSpec.RealTextViewHeight | lib/src/main/java/com/ms/square/android/expandabletextview/ExpandableTextView.java:384-388 | getRealTextViewHeight: the full text height is the top of line getLineCount() (the bottom of the last line) plus the compound top and bottom paddings; MeasureOutcome states that an overflowing measurement records exactly this |
| WidgetSpec.SetOrientation | lib/src/main/java/com/ms/square/android/expandabletextview/ExpandableTextView.java:120-125 | setOrientation: an error for horizontal, otherwise the state with the new orientation; its outcome is stated by SetOrientationRejectsHorizontal |
| WidgetSpec.SetOrientationRejectsHorizontal | lib/src/main/java/com/ms/square/android/expandabletextview/ExpandableTextView.java:120-125 | horizontal orientation is rejected with an error and no change; any other orientation is set and nothing else changes |
| WidgetSpec.SetText | lib/src/main/java/com/ms/square/android/expandabletextview/ExpandableTextView.java:293-300 | setText(text): the fields it writes (relayout, text, visibility by emptiness, wrap_content, run detached); its outcome is stated by SetTextInvalidatesMeasurement |
| WidgetSpec.SetTextInvalidatesMeasurement | lib/src/main/java/com/ms/square/android/expandabletextview/ExpandableTextView.java:293-300 | setText requests a measurement, makes the widget gone exactly when the text is empty and visible otherwise, resets the height to wrap_content, detaches the run, and never changes the collapsed or animating flag; nothing else changes |
| WidgetSpec.SetTextWithStatus | lib/src/main/java/com/ms/square/android/expandabletextview/ExpandableTextView.java:302-310 | setText(text, map, pos): the bound row and its flag (true when absent), the synced indicator, then setText; its outcome is stated by SetTextWithStatusLoadsRow |
| WidgetSpec.SetTextWithStatusLoadsRow | lib/src/main/java/com/ms/square/android/expandabletextview/ExpandableTextView.java:302-310 | the bound form binds the map and the row, takes the row's flag (true when absent), syncs the indicator to it, then does exactly what setText does |
| WidgetSpec.Measure | lib/src/main/java/com/ms/square/android/expandabletextview/ExpandableTextView.java:206-287 | onMeasure: the fields it writes, branch by branch (skipped, fitting, overflowing while collapsed, overflowing while expanded); its outcome is stated by MeasureOutcome |
| WidgetSpec.MeasureOutcome | lib/src/main/java/com/ms/square/android/expandabletextview/ExpandableTextView.java:206-287 | skipped when no measurement is pending or the widget is gone; otherwise clears the pending flag, and the toggle is visible exactly when the line count exceeds the maximum (gone otherwise); fitting text lifts the line cap and changes no height; overflowing text records the full text height, and only when collapsed caps the lines, records the collapsed height and posts a margin read; nothing else is written |
| WidgetSpec.ReadMargin | lib/src/main/java/com/ms/square/android/expandabletextview/ExpandableTextView.java:259-282 | the posted runnable: the stored margin and one read consumed; its outcome is stated by ReadMarginStoresMargin |
| WidgetSpec.ReadMarginStoresMargin | lib/src/main/java/com/ms/square/android/expandabletextview/ExpandableTextView.java:259-282 | the posted read stores the container height minus the text view height, consumes one pending read, and changes nothing else |
| WidgetSpec.Click | lib/src/main/java/com/ms/square/android/expandabletextview/ExpandableTextView.java:128-190 | onClick: nothing while the toggle is hidden; otherwise the flipped flag, the indicator, the bound row written, animating set and a new run from the current height; its outcome is stated by ClickOutcome |
| WidgetSpec.ClickOutcome | lib/src/main/java/com/ms/square/android/expandabletextview/ExpandableTextView.java:128-190 | with the toggle hidden nothing changes; otherwise the flag flips, the indicator follows, animating is set, the bound map gets the new flag at the row and keeps every other entry, no map is written when none is bound, and a run starts from the current height to the collapsed height (collapsing) or to the current height plus the hidden text (expanding) |
| WidgetSpec.InterceptsTouch | lib/src/main/java/com/ms/square/android/expandabletextview/ExpandableTextView.java:193-197 | onInterceptTouchEvent: taps are intercepted exactly while animating; TapGuard states what that makes of a tap |
| WidgetSpec.Tap | lib/src/main/java/com/ms/square/android/expandabletextview/ExpandableTextView.java:193-197 | a tap on a child: intercepted while animating, forwarded to onClick by the toggle always and by the text only when text taps toggle (the listeners of lines 340-350); its outcome is stated by TapGuard |
| WidgetSpec.TapGuard | lib/src/main/java/com/ms/square/android/expandabletextview/ExpandableTextView.java:193-197 | while animating every tap is intercepted and changes nothing; a text tap changes nothing unless text taps toggle; otherwise the tap is a click |
| WidgetSpec.Transform | lib/src/main/java/com/ms/square/android/expandabletextview/ExpandableTextView.java:431-441 | applyTransformation: the interpolated height as the layout height and the text capped at it minus the margin; its outcome is stated by TransformOutcome |
| WidgetSpec.TransformOutcome | lib/src/main/java/com/ms/square/android/expandabletextview/ExpandableTextView.java:431-441 | a frame sets the container to the interpolated height (start at 0, end at 1, between otherwise) and caps the text at that height minus the stored margin; nothing else changes |
| WidgetSpec.AnimationEnd | lib/src/main/java/com/ms/square/android/expandabletextview/ExpandableTextView.java:171-181 | the end listener: the run detached and animating cleared; EndNotification states what is reported |
| WidgetSpec.EndNotification | lib/src/main/java/com/ms/square/android/expandabletextview/ExpandableTextView.java:171-181 | a registered listener is told isExpanded, which is true exactly when the widget is not collapsed; without a listener nothing is reported |
| WidgetProperties.ApplyPreservesConsistent | lib/src/main/java/com/ms/square/android/expandabletextview/ExpandableTextView.java:119-310 | every enabled event of the widget's own keeps the invariant: indicator matches the flag, the bound row matches the flag, gone exactly when the text is empty, never horizontal, a run only while animating |
| WidgetProperties.ClickPreservesConsistent | lib/src/main/java/com/ms/square/android/expandabletextview/ExpandableTextView.java:133-141 | a click keeps the indicator and the bound row in step with the flipped flag |
| WidgetProperties.ReplayPreservesConsistent | lib/src/main/java/com/ms/square/android/expandabletextview/ExpandableTextView.java:119-310 | any sequence of the widget's own enabled events keeps the invariant |
| WidgetProperties.ReachableIsConsistent | lib/src/main/java/com/ms/square/android/expandabletextview/ExpandableTextView.java:320-351 | every state reachable from inflation through the widget's own events satisfies the invariant |
| WidgetProperties.FullToggleSettles | lib/src/main/java/com/ms/square/android/expandabletextview/ExpandableTextView.java:128-190 | a tap, the last frame and the end listener flip the flag and leave the widget settled with the toggle shown |
| WidgetProperties.ExpandThenCollapse | lib/src/main/java/com/ms/square/android/expandabletextview/ExpandableTextView.java:144-181 | starting collapsed (the only start it covers), expanding grows the widget by exactly the hidden text and reports true; collapsing again returns it to exactly the collapsed height with the original indicator, reports false, and leaves the bound map as it was (or with the row set to collapsed if it was absent) |
| WidgetProperties.MeasureOnce | lib/src/main/java/com/ms/square/android/expandabletextview/ExpandableTextView.java:212-229 | a second measurement without a new setText changes nothing |
| WidgetProperties.RemeasureSameText | lib/src/main/java/com/ms/square/android/expandabletextview/ExpandableTextView.java:229-300 | setting the same text again and measuring the same layout gives the same toggle visibility, cap, heights and flag |
| WidgetProperties.ShortTextNeverToggles | lib/src/main/java/com/ms/square/android/expandabletextview/ExpandableTextView.java:233-242 | text that fits never shows the toggle and leaves the text uncapped, and then no tap or click changes anything |
| WidgetProperties.LongTextCollapses | lib/src/main/java/com/ms/square/android/expandabletextview/ExpandableTextView.java:245-286 | overflowing text measured while collapsed shows the toggle, caps the lines at the maximum, records both heights and posts one margin read |
| WidgetProperties.RowStateSurvivesRecycling | lib/src/main/java/com/ms/square/android/expandabletextview/ExpandableTextView.java:302-310 | a row toggled through one widget is found in the toggled state, with the matching indicator, by any widget later bound to the same map and row; other rows are unchanged |
| WidgetProperties.TwentyLineMeasurement | lib/src/main/java/com/ms/square/android/expandabletextview/ExpandableTextView.java:206-287 | twenty 20-pixel lines under a three-line maximum measure collapsed with the toggle shown, collapsed height 80, full text height 408, and a margin of 12 once read |
| WidgetProperties.TwentyLineExpansion | lib/src/main/java/com/ms/square/android/expandabletextview/ExpandableTextView.java:143-197 | the tap starts a run from 80 to 420, a second tap is swallowed, the half-way frame is 250 pixels with the text capped at 238, and the run ends at 420 reporting true |
| WidgetProperties.TwentyLineCollapse | lib/src/main/java/com/ms/square/android/expandabletextview/ExpandableTextView.java:143-181 | a text tap on the expanded widget runs from 420 back to 80 and reports false, with the expand glyph shown again |
| WidgetProperties.ExpandedRowCollapsesToStaleHeight | lib/src/main/java/com/ms/square/android/expandabletextview/ExpandableTextView.java:245-286 | a fresh widget bound to a row stored as expanded and measured with overflowing text records no collapsed height, so its first collapse runs from 420 to 0 and the last frame sets the height to 0 |
| Widget.ExpandableTextView.constructor | lib/src/main/java/com/ms/square/android/expandabletextview/ExpandableTextView.java:320-351 | the new object's state is the initial state, with no map bound |
| Widget.ExpandableTextView.ChangeIndicatorState | lib/src/main/java/com/ms/square/android/expandabletextview/ExpandableTextView.java:483-485 | the toggle view shows the controller's indicator for the given flag |
| Widget.ExpandableTextView.SetOrientation | lib/src/main/java/com/ms/square/android/expandabletextview/ExpandableTextView.java:120-125 | returns the error and changes nothing for horizontal; otherwise the state is the new orientation |
| Widget.ExpandableTextView.OnClick | lib/src/main/java/com/ms/square/android/expandabletextview/ExpandableTextView.java:128-190 | the new state, including the shared map's contents, is exactly the click outcome |
| Widget.ExpandableTextView.OnInterceptTouchEvent | lib/src/main/java/com/ms/square/android/expandabletextview/ExpandableTextView.java:193-197 | intercepts exactly while animating |
| Widget.ExpandableTextView.Tap | lib/src/main/java/com/ms/square/android/expandabletextview/ExpandableTextView.java:340-350 | a tap on a child runs through the intercept and the click listeners findViews installs; the new state is exactly the tap outcome |
| Widget.ExpandableTextView.OnMeasure | lib/src/main/java/com/ms/square/android/expandabletextview/ExpandableTextView.java:206-287 | the new state is exactly the measurement outcome |
| Widget.ExpandableTextView.RunPostedMarginRead | lib/src/main/java/com/ms/square/android/expandabletextview/ExpandableTextView.java:259-282 | the new state is exactly the margin read's outcome |
| Widget.ExpandableTextView.SetOnExpandStateChangeListener | lib/src/main/java/com/ms/square/android/expandabletextview/ExpandableTextView.java:289-291 | a listener is registered or removed |
| Widget.ExpandableTextView.SetText | lib/src/main/java/com/ms/square/android/expandabletextview/ExpandableTextView.java:293-300 | the new state is exactly setText's outcome and the bound map is untouched |
| Widget.ExpandableTextView.SetTextWithStatus | lib/src/main/java/com/ms/square/android/expandabletextview/ExpandableTextView.java:302-310 | the given map becomes the bound one and the new state is exactly the bound setText's outcome |
| Widget.ExpandableTextView.GetText | lib/src/main/java/com/ms/square/android/expandabletextview/ExpandableTextView.java:312-318 | returns the text view's text |
| Widget.ExpandableTextView.ApplyTransformation | lib/src/main/java/com/ms/square/android/expandabletextview/ExpandableTextView.java:431-441 | the new state is exactly the frame's outcome |
| Widget.ExpandableTextView.OnAnimationEnd | lib/src/main/java/com/ms/square/android/expandabletextview/ExpandableTextView.java:171-181 | the run is detached and animating cleared before the listener is told isExpanded, computed from the cleared state |
| Widget.RecycledRowScenario | lib/src/main/java/com/ms/square/android/expandabletextview/ExpandableTextView.java:302-310 | two widgets share one map: after the first expands row 3 the map holds row 3 expanded, the second, bound to row 3, is in a state (the ghost result rowThree, ensured equal to the bound setText of a fresh widget) that shows it expanded with the collapse label and no run, and the second rebound to row 4 (absent) is collapsed with the expand label while the map is unchanged |
| Widget.Inflate | lib/src/main/java/com/ms/square/android/expandabletextview/ExpandableTextView.java:108-117 | an unknown toggle type fails before any widget exists; otherwise a fresh widget with the read configuration in its initial state |

## Left out

- Alpha fading (`applyAlphaAnimation` and the `mAnimAlphaStart` arithmetic): it is float-only and cosmetic.
- Floating point: the elapsed fraction is an exact rational, so float rounding in the interpolation is not modelled.
- 32-bit wrap-around: heights are unbounded integers. The layout's pixel values are far below the range where `int` arithmetic would overflow.
- Text layout and line breaking: the line count, the line-top offset, the paddings and the measured heights are inputs.
- The container's and the text view's current heights at click time and at the posted read are inputs. So whether the collapsed height is below the full text height depends on the host's numbers, and the model proves nothing about it.
- Resource ids, `findViewById`, `setView`, drawables loaded through `getDrawable`, and `Build.VERSION` checks: drawables are abstract values.
- `Log` calls, the `if (false)` dead branch, and the longer margin expression that is only logged.
- Frame scheduling, the duration's timing and the host's `startAnimation`/`clearAnimation` machinery: a run is a value, and frames and the end callback are events the caller delivers.
- WidgetSpec.Click / Widget.ExpandableTextView.OnClick: a click while a run is still playing is not modelled as ending that run. In the code, `clearAnimation()` at line 188 ends the running animation, so its end listener clears `mAnimating` and reports the new `!mCollapsed`, and the new run then plays with taps no longer intercepted. The model keeps `animating` set and reports nothing. Delivering `AnimationEndEvent` after such a click detaches the new run instead, so the source's state after the click cannot be reproduced. The invariant's "a run only while animating" relies on this. Only a direct `OnClick` reaches this case, because `Tap` is intercepted while animating.
- WidgetSpec.SetText / WidgetSpec.SetTextWithStatus / Widget.ExpandableTextView.SetText / Widget.ExpandableTextView.SetTextWithStatus: the `clearAnimation()` at lines 297 and 306 ends a running animation in the same way, which clears `mAnimating` and notifies the listener. The model detaches the run and leaves the animating flag as it was. So text set during an animation leaves the model animating, and intercepting taps, until an `AnimationEndEvent` arrives.
- WidgetProperties.ReachableIsConsistent: the map a widget is bound to can also be written by another widget bound to the same row, or by the adapter. Such writes are outside the widget's own events. They can make the bound row disagree with this widget's collapsed flag, so the invariant covers only states reached through this widget's own events. The same limit applies to WidgetProperties.ReplayPreservesConsistent.
- WidgetSpec.Tap / Widget.ExpandableTextView.Tap: the tap is whatever the host delivers, so these two do not check the widget's own visibility. Android's touch dispatch, which never reaches the children of a widget that is not visible, is not modelled here. A widget made GONE by `setText("")` after long text still has its toggle VISIBLE, because the skipped `onMeasure` (line 212) never hides it, and a tap delivered to it would toggle. The event traces behind `ReplayPreservesConsistent` enable a tap only while the widget is VISIBLE.
- The deferral of the posted runnable: the caller runs it explicitly after layout.
- `getText` when the text view is missing (`mTv == null`): every modelled widget has its text view. A null text passed to `setText` is the empty string.
- The text view's initial line cap is taken as no cap (`Integer.MAX_VALUE`), and the initial text as empty.
- The sample application (`DemoActivity`): UI glue with no logic of its own.
