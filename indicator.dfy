/**
 * The expand/collapse indicator shown on the toggle view. The widget has two
 * controllers, one that swaps the image of an image button and one that swaps
 * the label of a text view; here they are the two variants of one datatype.
 */
module Indicator {
  import opened Results

  /** Values of the expandToggleType attribute. */
  const EXPAND_INDICATOR_IMAGE_BUTTON: int := 0
  const EXPAND_INDICATOR_TEXT_VIEW: int := 1
  const DEFAULT_TOGGLE_TYPE: int := EXPAND_INDICATOR_IMAGE_BUTTON

  /** An image: one given by an attribute, or one of the library's two default glyphs. */
  datatype Drawable = FromAttribute(resource: int) | IcExpandMore | IcExpandLess

  /** What the toggle view displays. A missing label attribute is a null string. */
  datatype Indicator = Image(drawable: Drawable) | Label(text: Option<string>)

  datatype Controller =
    | ImageButtonController(expandDrawable: Drawable, collapseDrawable: Drawable)
    | TextViewController(expandText: Option<string>, collapseText: Option<string>)
  {
    /** The indicator that invites the user to expand (shown while collapsed). */
    function ExpandIndicator(): Indicator
    {
      match this
      case ImageButtonController(e, _) => Image(e)
      case TextViewController(e, _) => Label(e)
    }

    /** The indicator that invites the user to collapse (shown while expanded). */
    function CollapseIndicator(): Indicator
    {
      match this
      case ImageButtonController(_, c) => Image(c)
      case TextViewController(_, c) => Label(c)
    }

    /** The choice changeState makes: the expand asset while collapsed, the collapse asset otherwise. */
    function IndicatorFor(collapsed: bool): (shown: Indicator)
      ensures collapsed ==> shown == ExpandIndicator()
      ensures !collapsed ==> shown == CollapseIndicator()
      ensures shown.Image? <==> ImageButtonController?
    {
      if collapsed then ExpandIndicator() else CollapseIndicator()
    }
  }

  /** The attributes that setupExpandToggleController reads; None is an absent attribute. */
  datatype ToggleAttributes = ToggleAttributes(
    toggleType: Option<int>,
    expandDrawable: Option<Drawable>,
    collapseDrawable: Option<Drawable>,
    expandText: Option<string>,
    collapseText: Option<string>)

  /**
   * Builds the controller for the configured toggle type. Images absent from the
   * attributes fall back to the library's glyphs; labels stay as read (possibly null).
   */
  function SetupExpandToggleController(a: ToggleAttributes): (r: Result<Controller>)
    ensures r.Err? <==> GetOr(a.toggleType, DEFAULT_TOGGLE_TYPE) !in {EXPAND_INDICATOR_IMAGE_BUTTON, EXPAND_INDICATOR_TEXT_VIEW}
    ensures r.Err? ==> r.error == UnknownToggleType(a.toggleType.value)
    ensures a.toggleType.None? ==> r.Ok? && r.value.ImageButtonController?
    ensures r.Ok? && r.value.ImageButtonController? ==>
      && r.value.expandDrawable == (if a.expandDrawable.Some? then a.expandDrawable.value else IcExpandMore)
      && r.value.collapseDrawable == (if a.collapseDrawable.Some? then a.collapseDrawable.value else IcExpandLess)
    ensures r.Ok? && r.value.TextViewController? ==>
      r.value.expandText == a.expandText && r.value.collapseText == a.collapseText
  {
    var toggleType := GetOr(a.toggleType, DEFAULT_TOGGLE_TYPE);
    if toggleType == EXPAND_INDICATOR_IMAGE_BUTTON then
      Ok(ImageButtonController(GetOr(a.expandDrawable, IcExpandMore), GetOr(a.collapseDrawable, IcExpandLess)))
    else if toggleType == EXPAND_INDICATOR_TEXT_VIEW then
      Ok(TextViewController(a.expandText, a.collapseText))
    else
      Err(UnknownToggleType(toggleType))
  }

  /**
   * When the two assets differ, the indicator tells the collapsed state apart:
   * equal indicators mean equal states, and the other way round.
   */
  lemma IndicatorDistinguishesStates(c: Controller, x: bool, y: bool)
    requires c.ExpandIndicator() != c.CollapseIndicator()
    ensures c.IndicatorFor(x) == c.IndicatorFor(y) <==> x == y
  {
    if x != y {
      assert {c.IndicatorFor(x), c.IndicatorFor(y)} == {c.ExpandIndicator(), c.CollapseIndicator()};
    }
  }
}
