/**
 * The route line width card: five width modes (map-style default, three
 * presets and a custom width chosen on a slider), the mapping from a stored
 * width back to a mode, and the card's reaction to item taps and slider moves.
 */
module RouteLineWidth {
  import opened Wrappers

  /** Bounds of the custom width slider. */
  const CustomWidthMin: int := 1
  const CustomWidthMax: int := 24

  datatype WidthMode = Default | Thin | Medium | Thick | Custom

  /** String resources used as the title of each mode. */
  datatype TitleRes =
    | MapWidgetRenderer
    | RenderingValueThinName
    | RenderingValueMediumName
    | RenderingValueBoldName
    | SharedStringCustom

  function Title(m: WidthMode): TitleRes
  {
    match m
    case Default => MapWidgetRenderer
    case Thin => RenderingValueThinName
    case Medium => RenderingValueMediumName
    case Thick => RenderingValueBoldName
    case Custom => SharedStringCustom
  }

  /** The width a mode carries: the three presets have one, the others none. */
  function PresetWidth(m: WidthMode): Option<int>
  {
    match m
    case Default => None
    case Thin => Some(5)
    case Medium => Some(13)
    case Thick => Some(28)
    case Custom => None
  }

  /** The modes in declaration order; also the item list of the selector. */
  const AllModes: seq<WidthMode> := [Default, Thin, Medium, Thick, Custom]

  predicate InCustomRange(w: int)
  {
    CustomWidthMin <= w <= CustomWidthMax
  }

  /** The first mode of `modes` whose preset width is `w`, if any. */
  function SearchPreset(modes: seq<WidthMode>, w: int): (r: Option<WidthMode>)
    ensures r.Some? ==> r.value in modes && PresetWidth(r.value) == Some(w)
    ensures r.None? ==> forall k :: 0 <= k < |modes| ==> PresetWidth(modes[k]) != Some(w)
  {
    if modes == [] then None
    else if PresetWidth(modes[0]) == Some(w) then Some(modes[0])
    else SearchPreset(modes[1..], w)
  }

  /** The mode a stored width is shown as: no width is the map-style default. */
  function AppropriateMode(width: Option<int>): WidthMode
  {
    match width
    case None => Default
    case Some(w) =>
      match SearchPreset(AllModes, w)
      case Some(m) => m
      case None => Custom
  }

  /** Every width has a mode, and exactly the three preset widths name a preset. */
  lemma ModeOfWidth(width: Option<int>)
    ensures AppropriateMode(width) == Default <==> width.None?
    ensures AppropriateMode(width) == Thin <==> width == Some(5)
    ensures AppropriateMode(width) == Medium <==> width == Some(13)
    ensures AppropriateMode(width) == Thick <==> width == Some(28)
    ensures AppropriateMode(width) == Custom <==>
              width.Some? && width.value != 5 && width.value != 13 && width.value != 28
  {
    if width.Some? {
      var w := width.value;
      assert AllModes[1..] == [Thin, Medium, Thick, Custom];
      assert AllModes[2..] == [Medium, Thick, Custom];
      assert AllModes[3..] == [Thick, Custom];
      assert AllModes[4..] == [Custom];
      if w == 5 {
        assert SearchPreset(AllModes, w) == SearchPreset(AllModes[1..], w);
      } else if w == 13 {
        assert SearchPreset(AllModes, w) == SearchPreset(AllModes[2..], w);
      } else if w == 28 {
        assert SearchPreset(AllModes, w) == SearchPreset(AllModes[3..], w);
      } else {
        assert PresetWidth(AllModes[1]) == Some(5);
        assert PresetWidth(AllModes[2]) == Some(13);
        assert PresetWidth(AllModes[3]) == Some(28);
      }
    }
  }

  /** Selecting a mode other than CUSTOM stores its width, and that width reads back as the same mode. */
  lemma PresetRoundTrip(m: WidthMode)
    requires m != Custom
    ensures AppropriateMode(PresetWidth(m)) == m
  {
    ModeOfWidth(PresetWidth(m));
  }

  /**
   * The search loop over the modes, with its early exit; it computes
   * AppropriateMode.
   */
  method FindAppropriateMode(width: Option<int>) returns (result: WidthMode)
    ensures result == AppropriateMode(width)
  {
    if width.Some? {
      var w := width.value;
      var found: Option<WidthMode> := None;
      var i := 0;
      while i < |AllModes|
        invariant 0 <= i <= |AllModes|
        invariant found.None?
        invariant SearchPreset(AllModes, w) == SearchPreset(AllModes[i..], w)
      {
        var mode := AllModes[i];
        assert AllModes[i..][1..] == AllModes[i + 1..];
        if PresetWidth(mode).Some? && w == PresetWidth(mode).value {
          found := Some(mode);
          break;
        }
        i := i + 1;
      }
      if found.None? {
        result := Custom;
      } else {
        result := found.value;
      }
    } else {
      result := Default;
    }
  }

  /** The width kept when the card enters CUSTOM mode: a missing or out-of-range width becomes the minimum. */
  function WidthOnCustomEntry(stored: Option<int>): (r: int)
    ensures InCustomRange(r)
    ensures stored.Some? && InCustomRange(stored.value) ==> r == stored.value
    ensures !(stored.Some? && InCustomRange(stored.value)) ==> r == CustomWidthMin
  {
    if stored.None? || stored.value > CustomWidthMax || stored.value < CustomWidthMin then CustomWidthMin
    else stored.value
  }

  /**
   * A custom width that is also a preset width is shown as that preset when
   * the card is next opened: only 5 and 13 lie in the custom range.
   */
  lemma CustomWidthReadBack(stored: Option<int>)
    ensures var c := WidthOnCustomEntry(stored);
            AppropriateMode(Some(c)) == (if c == 5 then Thin else if c == 13 then Medium else Custom)
  {
    ModeOfWidth(Some(WidthOnCustomEntry(stored)));
  }

  /** Map refreshes caused by entering CUSTOM: one exactly when the stored width has to be reset. */
  function ClampRefreshes(stored: Option<int>): nat
  {
    if stored.Some? && InCustomRange(stored.value) then 0 else 1
  }

  /** Java's float-to-int cast on a finite value: truncation toward zero. */
  function TruncateTowardZero(v: real): (r: int)
    ensures 0.0 <= v ==> r as real <= v < r as real + 1.0
    ensures v < 0.0 ==> r as real - 1.0 < v <= r as real
  {
    if 0.0 <= v then v.Floor else -((-v).Floor)
  }

  /** Position of `x` in `s`, or -1 when it is absent (List.indexOf). */
  function IndexOf<T(==)>(s: seq<T>, x: T): (r: int)
    ensures -1 <= r < |s|
    ensures r == -1 <==> x !in s
    ensures 0 <= r ==> s[r] == x && x !in s[..r]
  {
    if s == [] then -1
    else if s[0] == x then 0
    else
      var k := IndexOf(s[1..], x);
      if k == -1 then -1
      else
        assert s[..k + 1] == [s[0]] + s[1..][..k];
        k + 1
  }

  /** Item position of a mode in the selector; every mode has one. */
  function ItemPosition(m: WidthMode): (r: int)
    ensures 0 <= r < |AllModes| && AllModes[r] == m
  {
    assert m == AllModes[0] || m == AllModes[1] || m == AllModes[2] || m == AllModes[3] || m == AllModes[4];
    IndexOf(AllModes, m)
  }

  /** The route's own settings object, shared with the rest of the app. */
  class RouteLineDrawInfo {
    var width: Option<int>
    var color: Option<int>

    constructor (width: Option<int>, color: Option<int>)
      ensures this.width == width && this.color == color
    {
      this.width := width;
      this.color := color;
    }
  }

  class RouteLineWidthCard {
    const drawInfo: RouteLineDrawInfo
    var selectedMode: WidthMode
    /** The title shown in the header. */
    var header: TitleRes
    var descriptionVisible: bool
    var sliderVisible: bool
    /** The number shown beside the slider, and the value the card last gave the slider. */
    var customWidthText: int
    var sliderValue: int
    /** The item the selector list was last scrolled to. */
    var scrollPosition: int
    /** How many times the map was asked to redraw after a width change. */
    var mapRefreshes: nat

    /** What the card keeps consistent with its selected mode after every event. */
    ghost predicate Valid()
      reads this, drawInfo
    {
      header == Title(selectedMode) &&
      descriptionVisible == (selectedMode == Default) &&
      sliderVisible == (selectedMode == Custom) &&
      (selectedMode == Custom ==> drawInfo.width.Some? && InCustomRange(drawInfo.width.value)) &&
      scrollPosition == ItemPosition(selectedMode)
    }

    /** Creating the card and laying out its content: the mode is read from the stored width. */
    constructor (info: RouteLineDrawInfo)
      modifies info
      ensures Valid() && drawInfo == info
      ensures selectedMode == AppropriateMode(old(info.width))
      ensures info.width == if selectedMode == Custom then Some(WidthOnCustomEntry(old(info.width)))
                            else old(info.width)
      ensures info.color == old(info.color)
      ensures selectedMode == Custom ==> customWidthText == sliderValue == info.width.value
      ensures mapRefreshes == if selectedMode == Custom then ClampRefreshes(old(info.width)) else 0
    {
      drawInfo := info;
      var mode := FindAppropriateMode(info.width);
      selectedMode := mode;
      scrollPosition := 0;
      mapRefreshes := 0;
      new;
      ModeChanged();
    }

    method SetRouteLineWidth(width: Option<int>)
      modifies drawInfo, this`mapRefreshes
      ensures drawInfo.width == width && drawInfo.color == old(drawInfo.color)
      ensures mapRefreshes == old(mapRefreshes) + 1
    {
      drawInfo.width := width;
      mapRefreshes := mapRefreshes + 1;
    }

    /** Header, description, slider and scroll position follow the selected mode. */
    method ModeChanged()
      modifies this, drawInfo
      ensures Valid()
      ensures selectedMode == old(selectedMode) && drawInfo.color == old(drawInfo.color)
      ensures drawInfo.width == if selectedMode == Custom then Some(WidthOnCustomEntry(old(drawInfo.width)))
                                else old(drawInfo.width)
      ensures selectedMode == Custom ==>
                customWidthText == sliderValue == drawInfo.width.value &&
                mapRefreshes == old(mapRefreshes) + ClampRefreshes(old(drawInfo.width))
      ensures selectedMode != Custom ==>
                customWidthText == old(customWidthText) && sliderValue == old(sliderValue) &&
                mapRefreshes == old(mapRefreshes)
    {
      header := Title(selectedMode);
      descriptionVisible := selectedMode == Default;
      UpdateCustomWidthSlider();
      ScrollMenuToSelectedItem();
    }

    method UpdateCustomWidthSlider()
      modifies this, drawInfo
      ensures selectedMode == old(selectedMode) && header == old(header)
      ensures descriptionVisible == old(descriptionVisible) && scrollPosition == old(scrollPosition)
      ensures drawInfo.color == old(drawInfo.color)
      ensures sliderVisible == (selectedMode == Custom)
      ensures selectedMode == Custom ==>
                drawInfo.width == Some(WidthOnCustomEntry(old(drawInfo.width))) &&
                customWidthText == sliderValue == drawInfo.width.value &&
                mapRefreshes == old(mapRefreshes) + ClampRefreshes(old(drawInfo.width))
      ensures selectedMode != Custom ==>
                drawInfo.width == old(drawInfo.width) &&
                customWidthText == old(customWidthText) && sliderValue == old(sliderValue) &&
                mapRefreshes == old(mapRefreshes)
    {
      if selectedMode == Custom {
        var width := drawInfo.width;
        var w: int;
        if width.None? || width.value > CustomWidthMax || width.value < CustomWidthMin {
          w := CustomWidthMin;
          SetRouteLineWidth(Some(w));
        } else {
          w := width.value;
        }
        customWidthText := w;
        sliderValue := w;
        sliderVisible := true;
      } else {
        sliderVisible := false;
      }
    }

    method ScrollMenuToSelectedItem()
      modifies this`scrollPosition
      ensures scrollPosition == ItemPosition(selectedMode)
    {
      var position := ItemPosition(selectedMode);
      if position != -1 {
        scrollPosition := position;
      }
    }

    /**
     * A tap on the item at `position`: it becomes the selected mode; a mode
     * other than CUSTOM stores its own width, so the stored width reads back
     * as the tapped mode.
     */
    method OnItemClick(position: int)
      requires Valid()
      requires 0 <= position < |AllModes|
      modifies this, drawInfo
      ensures Valid()
      ensures selectedMode == AllModes[position]
      ensures selectedMode != Custom ==> drawInfo.width == PresetWidth(selectedMode)
      ensures selectedMode != Custom ==> AppropriateMode(drawInfo.width) == selectedMode
      ensures selectedMode == Custom ==> drawInfo.width == Some(WidthOnCustomEntry(old(drawInfo.width)))
      ensures selectedMode == Custom ==>
                customWidthText == sliderValue == drawInfo.width.value &&
                mapRefreshes == old(mapRefreshes) + ClampRefreshes(old(drawInfo.width))
      ensures selectedMode != Custom ==>
                customWidthText == old(customWidthText) && sliderValue == old(sliderValue) &&
                mapRefreshes == old(mapRefreshes) + 1
      ensures drawInfo.color == old(drawInfo.color)
    {
      selectedMode := AllModes[position];
      if selectedMode != Custom {
        SetRouteLineWidth(PresetWidth(selectedMode));
        PresetRoundTrip(selectedMode);
      }
      ModeChanged();
    }

    /** The slider listener: only a move made by the user stores the truncated value. */
    method OnSliderValueChange(value: real, fromUser: bool)
      requires Valid()
      requires CustomWidthMin as real <= value <= CustomWidthMax as real
      modifies this, drawInfo
      ensures Valid()
      ensures fromUser ==> drawInfo.width == Some(TruncateTowardZero(value)) &&
                           customWidthText == TruncateTowardZero(value) &&
                           mapRefreshes == old(mapRefreshes) + 1
      ensures fromUser ==> InCustomRange(drawInfo.width.value)
      ensures !fromUser ==> drawInfo.width == old(drawInfo.width) && customWidthText == old(customWidthText) &&
                            mapRefreshes == old(mapRefreshes)
      ensures selectedMode == old(selectedMode) && drawInfo.color == old(drawInfo.color)
      ensures sliderValue == old(sliderValue) && scrollPosition == old(scrollPosition)
    {
      if fromUser {
        var newWidth := TruncateTowardZero(value);
        SetRouteLineWidth(Some(newWidth));
        customWidthText := newWidth;
      }
    }

    /** The color of the route line: the stored one, else the route layer's. */
    function RouteLineColor(layerColor: int): (r: int)
      reads drawInfo
      ensures drawInfo.color.Some? ==> r == drawInfo.color.value
      ensures drawInfo.color.None? ==> r == layerColor
    {
      if drawInfo.color.Some? then drawInfo.color.value else layerColor
    }

    /** Preset modes are painted in the route line color, the others in the given default. */
    function IconColor(mode: WidthMode, defaultColor: int, layerColor: int): (r: int)
      reads drawInfo
      ensures mode in {Thin, Medium, Thick} ==>
                r == (if drawInfo.color.Some? then drawInfo.color.value else layerColor)
      ensures mode in {Default, Custom} ==> r == defaultColor
    {
      if PresetWidth(mode).Some? then RouteLineColor(layerColor) else defaultColor
    }
  }
}
