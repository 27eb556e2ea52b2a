/**
 * The bar-chart adapter for route attribute statistics: which attribute the
 * user has highlighted, which attributes the legend under the chart lists,
 * and how each legend line is worded and emboldened.
 */
module CustomChart {
  import opened Wrappers

  datatype LegendViewType = OneElement | AllAsList | Gone

  /** One attribute of the route breakdown (surface, road class, ...). */
  datatype RouteSegmentAttribute = RouteSegmentAttribute(
    propertyName: string, userPropertyName: string, color: int, distance: real)

  /** The statistics snapshot: chart stack elements and the legend partition, in iteration order. */
  datatype RouteStatistics = RouteStatistics(
    elements: seq<RouteSegmentAttribute>, partition: seq<RouteSegmentAttribute>)

  /**
   * Text services the adapter calls but does not define: the distance
   * formatter, capitalisation of a title, and the lookup of a rendering
   * property's display name (given the name and a fallback).
   */
  datatype TextServices = TextServices(
    formatDistance: real -> string,
    capitalizeFirstLetter: string -> string,
    renderingName: (string, string) -> string)

  /** A text with one bold span [spanStart, spanEnd). */
  datatype SpannedText = SpannedText(text: string, spanStart: int, spanEnd: int)

  /** A legend row: the attribute's color dot and its text. */
  datatype LegendLine = LegendLine(iconColor: int, legend: SpannedText)

  /** An attribute to list, and whether its whole line is bold. */
  datatype LegendEntry = LegendEntry(attribute: RouteSegmentAttribute, fullSpan: bool)

  /** Java's `name.equals(selected)`: never true when the selection is null. */
  predicate NameEquals(name: string, selected: Option<string>)
  {
    selected.Some? && selected.value == name
  }

  /** `s` with every underscore replaced by a space. */
  function ReplaceUnderscores(s: string): (r: string)
    ensures |r| == |s|
    ensures forall i :: 0 <= i < |s| ==> r[i] == (if s[i] == '_' then ' ' else s[i])
  {
    if s == [] then []
    else [if s[0] == '_' then ' ' else s[0]] + ReplaceUnderscores(s[1..])
  }

  /** Index of the first attribute whose name equals the selection, or -1. */
  function FirstNamedIndex(attrs: seq<RouteSegmentAttribute>, selected: Option<string>): (r: int)
    ensures -1 <= r < |attrs|
    ensures 0 <= r ==> NameEquals(attrs[r].propertyName, selected)
    ensures forall j :: 0 <= j < |attrs| && (r == -1 || j < r) ==> !NameEquals(attrs[j].propertyName, selected)
  {
    if attrs == [] then -1
    else if NameEquals(attrs[0].propertyName, selected) then 0
    else
      var k := FirstNamedIndex(attrs[1..], selected);
      if k == -1 then -1 else k + 1
  }

  /** The attachLegend call attachBottomInfo makes: the list and the name whose line is fully bold. */
  datatype LegendRequest = LegendRequest(list: seq<RouteSegmentAttribute>, fullSpanName: Option<string>)

  function LegendRequestFor(viewType: LegendViewType, attrs: seq<RouteSegmentAttribute>,
                            selected: Option<string>): (r: Option<LegendRequest>)
    ensures viewType == Gone ==> r.None?
    ensures viewType == AllAsList ==> r == Some(LegendRequest(attrs, selected))
    ensures viewType == OneElement ==>
              (r.Some? <==> exists j :: 0 <= j < |attrs| && NameEquals(attrs[j].propertyName, selected)) &&
              (r.Some? ==> |r.value.list| == 1 && r.value.list[0] in attrs &&
                           NameEquals(r.value.list[0].propertyName, selected) && r.value.fullSpanName.None?)
  {
    match viewType
    case OneElement =>
      var i := FirstNamedIndex(attrs, selected);
      if i < 0 then None else Some(LegendRequest([attrs[i]], None))
    case AllAsList => Some(LegendRequest(attrs, selected))
    case Gone => None
  }

  /** No two attributes of the list share a property name (they are the keys of the partition). */
  predicate DistinctNames(list: seq<RouteSegmentAttribute>)
  {
    forall i, j :: 0 <= i < j < |list| ==> list[i].propertyName != list[j].propertyName
  }

  /** The entries attachLegend lists for `list`, each marked bold when its name equals `fullSpanName`. */
  function EntriesOf(list: seq<RouteSegmentAttribute>, fullSpanName: Option<string>): (r: seq<LegendEntry>)
    ensures |r| == |list|
    ensures fullSpanName.None? ==> forall k :: 0 <= k < |r| ==> !r[k].fullSpan
    ensures DistinctNames(list) ==>
              forall i, j :: 0 <= i < |r| && 0 <= j < |r| && r[i].fullSpan && r[j].fullSpan ==> i == j
  {
    seq(|list|, k requires 0 <= k < |list| => LegendEntry(list[k], NameEquals(list[k].propertyName, fullSpanName)))
  }

  /** The legend entries shown for a view type, attribute list and selection: attributes of the list, no more of them than it holds. */
  function LegendEntries(viewType: LegendViewType, attrs: seq<RouteSegmentAttribute>,
                         selected: Option<string>): (r: seq<LegendEntry>)
    ensures |r| <= |attrs|
    ensures forall k :: 0 <= k < |r| ==> r[k].attribute in attrs
  {
    match LegendRequestFor(viewType, attrs, selected)
    case None => []
    case Some(req) => EntriesOf(req.list, req.fullSpanName)
  }

  /**
   * ONE_ELEMENT lists at most the first attribute named like the selection,
   * never in full bold, and nothing when the selection is null or unmatched.
   */
  lemma OneElementLegend(attrs: seq<RouteSegmentAttribute>, selected: Option<string>)
    ensures var es := LegendEntries(OneElement, attrs, selected);
            |es| <= 1 &&
            (|es| == 1 <==> exists j :: 0 <= j < |attrs| && NameEquals(attrs[j].propertyName, selected)) &&
            (selected.None? ==> es == []) &&
            forall e :: e in es ==> !e.fullSpan && e.attribute in attrs &&
                                    NameEquals(e.attribute.propertyName, selected) &&
                                    e.attribute == attrs[FirstNamedIndex(attrs, selected)]
  {
    var i := FirstNamedIndex(attrs, selected);
    if i >= 0 {
      assert LegendEntries(OneElement, attrs, selected) == [LegendEntry(attrs[i], false)];
    }
  }

  /** ALL_AS_LIST lists every attribute in order, bold exactly where the name equals the selection. */
  lemma AllAsListLegend(attrs: seq<RouteSegmentAttribute>, selected: Option<string>)
    ensures var es := LegendEntries(AllAsList, attrs, selected);
            |es| == |attrs| &&
            forall k :: 0 <= k < |attrs| ==>
              es[k].attribute == attrs[k] &&
              (es[k].fullSpan <==> selected.Some? && attrs[k].propertyName == selected.value)
  {
  }

  /** GONE lists nothing. */
  lemma GoneLegend(attrs: seq<RouteSegmentAttribute>, selected: Option<string>)
    ensures LegendEntries(Gone, attrs, selected) == []
  {
  }

  /**
   * A legend text: `title`, then ": ", then `distance`. The bold span runs to
   * the end of the text, from 0 when the line is fully bold and otherwise
   * from just after ": ", so that exactly the distance is bold.
   */
  function LegendSpan(title: string, distance: string, fullSpan: bool): (r: SpannedText)
    ensures r.text == title + ": " + distance
    ensures 0 <= r.spanStart <= r.spanEnd == |r.text|
    ensures fullSpan ==> r.text[r.spanStart..r.spanEnd] == r.text
    ensures !fullSpan ==> r.spanStart == |title| + 2 && r.text[r.spanStart..r.spanEnd] == distance
    ensures r.spanStart == 0 <==> fullSpan
  {
    var text := title + ": " + distance;
    assert text[|title| + 2..] == distance;
    SpannedText(text, if fullSpan then 0 else |title| + 2, |text|)
  }

  /** The legend line of one entry. */
  function LineOf(e: LegendEntry, svc: TextServices): LegendLine
  {
    var name := svc.renderingName(e.attribute.userPropertyName, ReplaceUnderscores(e.attribute.userPropertyName));
    LegendLine(e.attribute.color,
               LegendSpan(svc.capitalizeFirstLetter(name), svc.formatDistance(e.attribute.distance), e.fullSpan))
  }

  function LinesOf(es: seq<LegendEntry>, svc: TextServices): seq<LegendLine>
  {
    seq(|es|, k requires 0 <= k < |es| => LineOf(es[k], svc))
  }

  class CustomChartAdapter {
    /** The statistics the base adapter holds (null until data is attached). */
    var statistics: Option<RouteStatistics>
    var selectedPropertyName: Option<string>
    var legendViewType: LegendViewType
    /** The legend views appended to the container under the chart. */
    var bottomInfo: seq<LegendLine>
    /** How many times the legend was asked to refresh. */
    var bottomInfoUpdates: nat

    /** Construction, including the chart preparation that installs the listeners. */
    constructor (statistics: Option<RouteStatistics>)
      ensures this.statistics == statistics
      ensures legendViewType == Gone && selectedPropertyName == None
      ensures bottomInfo == [] && bottomInfoUpdates == 0
    {
      this.statistics := statistics;
      selectedPropertyName := None;
      legendViewType := Gone;
      bottomInfo := [];
      bottomInfoUpdates := 0;
    }

    /**
     * A tap on the chart at stack index `stackIndex`: an index inside the
     * elements selects that element; otherwise only a one-element legend over
     * a single element selects it; anything else changes nothing.
     */
    method OnValueSelected(stackIndex: int)
      modifies this`selectedPropertyName, this`bottomInfoUpdates
      ensures statistics.None? ==>
                selectedPropertyName == old(selectedPropertyName) && bottomInfoUpdates == old(bottomInfoUpdates)
      ensures statistics.Some? && 0 <= stackIndex < |statistics.value.elements| ==>
                selectedPropertyName == Some(statistics.value.elements[stackIndex].propertyName) &&
                bottomInfoUpdates == old(bottomInfoUpdates) + 1
      ensures statistics.Some? && !(0 <= stackIndex < |statistics.value.elements|) ==>
                if legendViewType == OneElement && |statistics.value.elements| == 1 then
                  selectedPropertyName == Some(statistics.value.elements[0].propertyName) &&
                  bottomInfoUpdates == old(bottomInfoUpdates) + 1
                else
                  selectedPropertyName == old(selectedPropertyName) && bottomInfoUpdates == old(bottomInfoUpdates)
    {
      if statistics.None? {
        return;
      }
      var elems := statistics.value.elements;
      var i := stackIndex;
      if i >= 0 && |elems| > i {
        selectedPropertyName := Some(elems[i].propertyName);
        bottomInfoUpdates := bottomInfoUpdates + 1;
      } else if legendViewType == OneElement && |elems| == 1 {
        selectedPropertyName := Some(elems[0].propertyName);
        bottomInfoUpdates := bottomInfoUpdates + 1;
      }
    }

    /** A tap outside the bars clears the selection. */
    method OnNothingSelected()
      modifies this`selectedPropertyName, this`bottomInfoUpdates
      ensures selectedPropertyName == None
      ensures bottomInfoUpdates == old(bottomInfoUpdates) + 1
    {
      selectedPropertyName := None;
      bottomInfoUpdates := bottomInfoUpdates + 1;
    }

    method SetLegendViewType(legendViewType: LegendViewType)
      modifies this`legendViewType
      ensures this.legendViewType == legendViewType
    {
      this.legendViewType := legendViewType;
    }

    /** Appends the legend lines for the current view type and selection. */
    method AttachBottomInfo(svc: TextServices)
      modifies this`bottomInfo
      ensures statistics.None? ==> bottomInfo == old(bottomInfo)
      ensures statistics.Some? ==>
                bottomInfo == old(bottomInfo) +
                  LinesOf(LegendEntries(legendViewType, statistics.value.partition, selectedPropertyName), svc)
    {
      if statistics.None? {
        return;
      }
      var attributes := statistics.value.partition;
      match legendViewType {
        case OneElement =>
          var i := 0;
          while i < |attributes|
            invariant 0 <= i <= |attributes|
            invariant bottomInfo == old(bottomInfo)
            invariant forall j :: 0 <= j < i ==> !NameEquals(attributes[j].propertyName, selectedPropertyName)
          {
            if NameEquals(attributes[i].propertyName, selectedPropertyName) {
              assert FirstNamedIndex(attributes, selectedPropertyName) == i;
              AttachLegend([attributes[i]], None, svc);
              break;
            }
            i := i + 1;
          }
        case AllAsList =>
          AttachLegend(attributes, selectedPropertyName, svc);
        case Gone =>
      }
    }

    /** One legend line per attribute of `list`, in order. */
    method AttachLegend(list: seq<RouteSegmentAttribute>, fullSpanName: Option<string>, svc: TextServices)
      modifies this`bottomInfo
      ensures bottomInfo == old(bottomInfo) + LinesOf(EntriesOf(list, fullSpanName), svc)
    {
      var i := 0;
      while i < |list|
        invariant 0 <= i <= |list|
        invariant bottomInfo == old(bottomInfo) + LinesOf(EntriesOf(list[..i], fullSpanName), svc)
      {
        var segment := list[i];
        var propertyName := segment.userPropertyName;
        var name := svc.renderingName(propertyName, ReplaceUnderscores(propertyName));
        var selected := NameEquals(segment.propertyName, fullSpanName);
        var text := GetSpanLegend(name, segment, selected, svc);
        bottomInfo := bottomInfo + [LegendLine(segment.color, text)];
        assert list[..i + 1] == list[..i] + [list[i]];
        assert LinesOf(EntriesOf(list[..i + 1], fullSpanName), svc) ==
               LinesOf(EntriesOf(list[..i], fullSpanName), svc) + [LegendLine(segment.color, text)];
        i := i + 1;
      }
      assert list[..i] == list;
    }

    /** Builds a legend text in place: capitalised title, ": ", the formatted distance, then the bold span. */
    static method GetSpanLegend(title: string, segment: RouteSegmentAttribute, fullSpan: bool,
                                svc: TextServices) returns (spannable: SpannedText)
      ensures spannable == LegendSpan(svc.capitalizeFirstLetter(title), svc.formatDistance(segment.distance), fullSpan)
    {
      var formattedDistance := svc.formatDistance(segment.distance);
      var capitalized := svc.capitalizeFirstLetter(title);
      var text := capitalized;
      text := text + ": ";
      var startIndex := if fullSpan then 0 else |text|;
      text := text + formattedDistance;
      spannable := SpannedText(text, startIndex, |text|);
    }
  }
}
