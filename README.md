# OsmAnd route-appearance and navigation helpers, modelled in Dafny

This project models five small pieces of decision logic from OsmAnd's Android client,
with the Android, canvas and chart-library types replaced by plain values:

- **Route line width card** (`route_line_width.dfy`): the five width modes (map-style
  default, thin 5, medium 13, thick 28, custom), the mapping from a stored width back to a
  mode, and the card as a class whose item taps and slider moves update the selected mode
  and the width stored in the route's draw settings. Entering custom mode resets a missing
  or out-of-range width to exactly 1.
- **Statistics chart adapter** (`custom_chart_adapter.dfy`): the highlighted attribute
  driven by chart taps, the legend view type, the choice of legend entries per view type,
  and the text and bold span of each legend line.
- **Route geometry drawer** (`route_geometry_way_drawer.dfy`): the gradient / attribute /
  base dispatch for each segment, and the shadow border drawn either as one merged path
  below the zoom threshold or per segment at and above it. The canvas is a log of draw
  commands; the custom paint is an object whose settings each draw records.
- **Average-speed track filter** (`average_speed_track_filter.dfy`): the acceptance test
  over a range with open-ended extremes, the speed unit and coefficient per metric system,
  and the coefficient update.
- **GPX navigation parameters** (`gpx_navigation_params.dfy`): a mutable holder with
  defaults and chaining setters, each of which changes only its own field.

`wrappers.dfy` holds the `Option` type standing in for nullable references.

Tapping CUSTOM does not itself store a width, but the click handler then runs
`modeChanged`, whose slider set-up resets a missing or out-of-range width to 1
(`RouteLineWidthCard.java` lines 241-248 and 151-155); `OnItemClick` states the combined
effect. A custom width of 5 or 13 therefore survives, yet is shown as THIN or MEDIUM the
next time the card opens (`CustomWidthReadBack`).

External values are parameters: the metric system setting, the route layer's default
line color, theme colors, the statistics snapshot, the distance formatter, the
capitalisation helper and the rendering-name lookup (bundled as `TextServices`), and the
two predicates of a route coloring type (`ColoringType`). `MapTileLayer` is not part of
this model; its maximum zoom and over-zoom allowance are constants of unspecified value,
so every property of the border threshold holds whatever they are.

## Model

| member | source | states |
|---|---|---|
| RouteLineWidth.ModeOfWidth | OsmAnd/src/net/osmand/plus/routing/cards/RouteLineWidthCard.java:191-207 | a null width is DEFAULT; exactly 5, 13 and 28 give THIN, MEDIUM and THICK; every other width is CUSTOM, so the mapping is total |
| RouteLineWidth.SearchPreset | OsmAnd/src/net/osmand/plus/routing/cards/RouteLineWidthCard.java:194-199 | the mode found has the searched width as its preset; when none is found no mode has it |
| RouteLineWidth.FindAppropriateMode | OsmAnd/src/net/osmand/plus/routing/cards/RouteLineWidthCard.java:191-207 | the search loop with its early exit returns the mode AppropriateMode specifies |
| RouteLineWidth.PresetRoundTrip | OsmAnd/src/net/osmand/plus/routing/cards/RouteLineWidthCard.java:240-246 | selecting any mode but CUSTOM stores a width that maps back to the same mode |
| RouteLineWidth.WidthOnCustomEntry | OsmAnd/src/net/osmand/plus/routing/cards/RouteLineWidthCard.java:151-155 | on entering CUSTOM the width is in [1,24]; an in-range width is kept, a null or out-of-range one becomes exactly 1 |
| RouteLineWidth.CustomWidthReadBack | OsmAnd/src/net/osmand/plus/routing/cards/RouteLineWidthCard.java:151-155 | a custom width of 5 or 13 is read back as THIN or MEDIUM; every other custom width as CUSTOM |
| RouteLineWidth.TruncateTowardZero | OsmAnd/src/net/osmand/plus/routing/cards/RouteLineWidthCard.java:163 | the float-to-int cast truncates toward zero |
| RouteLineWidth.IndexOf | OsmAnd/src/net/osmand/plus/routing/cards/RouteLineWidthCard.java:306-308 | list index of an element, -1 exactly when absent, the first occurrence otherwise |
| RouteLineWidth.ItemPosition | OsmAnd/src/net/osmand/plus/routing/cards/RouteLineWidthCard.java:211 | every mode has a position in the five-item list, never -1, and the item there is that mode |
| RouteLineWidth.RouteLineWidthCard.constructor | OsmAnd/src/net/osmand/plus/routing/cards/RouteLineWidthCard.java:69-100 | the mode is read from the stored width; a CUSTOM width is brought into range and shown beside and on the slider, refreshing the map once only when it had to be reset; header, description, slider and scroll position agree with the mode |
| RouteLineWidth.RouteLineWidthCard.SetRouteLineWidth | OsmAnd/src/net/osmand/plus/routing/cards/RouteLineWidthCard.java:115-118 | the width is stored and the map asked to refresh once |
| RouteLineWidth.RouteLineWidthCard.ModeChanged | OsmAnd/src/net/osmand/plus/routing/cards/RouteLineWidthCard.java:102-107 | header, description (visible iff DEFAULT), slider (visible iff CUSTOM) and scroll follow the mode; in CUSTOM the clamped width is shown and a reset refreshes the map once; otherwise width, slider text and value and refresh count are untouched |
| RouteLineWidth.RouteLineWidthCard.UpdateCustomWidthSlider | OsmAnd/src/net/osmand/plus/routing/cards/RouteLineWidthCard.java:140-182 | in CUSTOM the stored width is reset to 1 when null or outside [1,24] (one map refresh, none when kept) and shown beside and on the slider; otherwise only the slider is hidden: width, slider text and value and refresh count unchanged |
| RouteLineWidth.RouteLineWidthCard.ScrollMenuToSelectedItem | OsmAnd/src/net/osmand/plus/routing/cards/RouteLineWidthCard.java:184-189 | the list scrolls to the selected mode's position |
| RouteLineWidth.RouteLineWidthCard.OnItemClick | OsmAnd/src/net/osmand/plus/routing/cards/RouteLineWidthCard.java:237-248 | the tapped item becomes the mode; a non-CUSTOM mode stores its preset width (one map refresh), which reads back as that mode, and leaves the slider text and value alone; CUSTOM keeps an in-range width and otherwise stores 1, refreshing once only then |
| RouteLineWidth.RouteLineWidthCard.OnSliderValueChange | OsmAnd/src/net/osmand/plus/routing/cards/RouteLineWidthCard.java:159-168 | only a user move stores the truncated slider value (which stays in [1,24]), shows it and refreshes the map; other moves change nothing; the listener never sets the slider itself |
| RouteLineWidth.RouteLineWidthCard.IconColor | OsmAnd/src/net/osmand/plus/routing/cards/RouteLineWidthCard.java:275-283 | preset modes take the stored route color, else the layer's; DEFAULT and CUSTOM take the given default |
| RouteLineWidth.RouteLineWidthCard.RouteLineColor | OsmAnd/src/net/osmand/plus/routing/cards/RouteLineWidthCard.java:279-283 | the stored route color when set, else the route layer's color |
| CustomChart.ReplaceUnderscores | OsmAnd/src/net/osmand/plus/measurementtool/graph/CustomChartAdapter.java:135 | same length, each underscore becomes a space, other characters kept |
| CustomChart.FirstNamedIndex | OsmAnd/src/net/osmand/plus/measurementtool/graph/CustomChartAdapter.java:106-111 | the index of the first attribute whose name equals the selection, or -1 when none does |
| CustomChart.LegendRequestFor | OsmAnd/src/net/osmand/plus/measurementtool/graph/CustomChartAdapter.java:104-116 | GONE makes no legend call; ALL_AS_LIST passes all attributes and the selection; ONE_ELEMENT makes a call iff some name matches, with that single matching attribute and no full-span name |
| CustomChart.LegendEntries | OsmAnd/src/net/osmand/plus/measurementtool/graph/CustomChartAdapter.java:98-116 | every legend entry is an attribute of the list, and there are never more entries than attributes |
| CustomChart.EntriesOf | OsmAnd/src/net/osmand/plus/measurementtool/graph/CustomChartAdapter.java:123-136 | one entry per attribute; no entry is fully bold when the full-span name is null, and at most one is when the attribute names are distinct |
| CustomChart.OneElementLegend | OsmAnd/src/net/osmand/plus/measurementtool/graph/CustomChartAdapter.java:105-112 | ONE_ELEMENT shows at most one entry, the first attribute named like the selection, never fully bold; nothing when the selection is null or unmatched |
| CustomChart.AllAsListLegend | OsmAnd/src/net/osmand/plus/measurementtool/graph/CustomChartAdapter.java:113-115 | ALL_AS_LIST shows every attribute in order, bold iff its name equals the selection |
| CustomChart.GoneLegend | OsmAnd/src/net/osmand/plus/measurementtool/graph/CustomChartAdapter.java:104-116 | GONE shows nothing |
| CustomChart.LegendSpan | OsmAnd/src/net/osmand/plus/measurementtool/graph/CustomChartAdapter.java:145-156 | the text is title, ": ", distance; the bold span ends at the text end and starts at 0 iff full span, otherwise covers exactly the distance |
| CustomChart.CustomChartAdapter.constructor | OsmAnd/src/net/osmand/plus/measurementtool/graph/CustomChartAdapter.java:53-57 | the legend type starts as GONE and nothing is selected |
| CustomChart.CustomChartAdapter.OnValueSelected | OsmAnd/src/net/osmand/plus/measurementtool/graph/CustomChartAdapter.java:60-74 | null statistics change nothing; an in-range stack index selects that element; out of range, only ONE_ELEMENT over a single element selects it; otherwise nothing changes |
| CustomChart.CustomChartAdapter.OnNothingSelected | OsmAnd/src/net/osmand/plus/measurementtool/graph/CustomChartAdapter.java:77-80 | the selection is cleared and the legend refreshed |
| CustomChart.CustomChartAdapter.SetLegendViewType | OsmAnd/src/net/osmand/plus/measurementtool/graph/CustomChartAdapter.java:84-86 | only the setter changes the legend type |
| CustomChart.CustomChartAdapter.AttachBottomInfo | OsmAnd/src/net/osmand/plus/measurementtool/graph/CustomChartAdapter.java:98-117 | with null statistics nothing is added; otherwise the lines of the legend entries for the view type and selection are appended |
| CustomChart.CustomChartAdapter.AttachLegend | OsmAnd/src/net/osmand/plus/measurementtool/graph/CustomChartAdapter.java:119-143 | one line per attribute of the list, in order, appended to the container |
| CustomChart.CustomChartAdapter.GetSpanLegend | OsmAnd/src/net/osmand/plus/measurementtool/graph/CustomChartAdapter.java:145-157 | building the text step by step yields LegendSpan of the capitalised title and formatted distance |
| RouteGeometry.JoinPathsAppend | OsmAnd/src/net/osmand/plus/views/layers/geometry/RouteGeometryWayDrawer.java:38-41 | merging two lists of segments merges their paths in order |
| RouteGeometry.JoinPathsSegment | OsmAnd/src/net/osmand/plus/views/layers/geometry/RouteGeometryWayDrawer.java:38-42 | the merged path holds each segment's path, in order |
| RouteGeometry.BorderStrategiesExclusive | OsmAnd/src/net/osmand/plus/views/layers/geometry/RouteGeometryWayDrawer.java:36-68 | merged and per-segment borders are never both drawn; with borders on and gradient coloring exactly one is, per segment at the threshold; otherwise neither |
| RouteGeometry.RouteGeometryWayDrawer.constructor | OsmAnd/src/net/osmand/plus/views/layers/geometry/RouteGeometryWayDrawer.java:21-28 | the coloring type starts DEFAULT and the border flag is fixed |
| RouteGeometry.RouteGeometryWayDrawer.SetRouteColoringType | OsmAnd/src/net/osmand/plus/views/layers/geometry/RouteGeometryWayDrawer.java:30-32 | the coloring type is replaced |
| RouteGeometry.RouteGeometryWayDrawer.DrawFullBorder | OsmAnd/src/net/osmand/plus/views/layers/geometry/RouteGeometryWayDrawer.java:34-44 | below the threshold, with borders on and gradient coloring, exactly one shadow draw of all segment paths merged in order (empty when there are none); otherwise no draw |
| RouteGeometry.RouteGeometryWayDrawer.DrawPath | OsmAnd/src/net/osmand/plus/views/layers/geometry/RouteGeometryWayDrawer.java:46-64 | gradient (checked first) draws once with a clamped start-to-end gradient of the two colors, the style width and alpha 0xFF; attribute sets the paint color and delegates; otherwise delegates without touching the paint |
| RouteGeometry.RouteGeometryWayDrawer.BaseDraw | OsmAnd/src/net/osmand/plus/views/layers/geometry/RouteGeometryWayDrawer.java:60-62 | the segment is handed to the inherited drawing |
| RouteGeometry.RouteGeometryWayDrawer.DrawSegmentBorder | OsmAnd/src/net/osmand/plus/views/layers/geometry/RouteGeometryWayDrawer.java:66-71 | at or above the threshold, with borders on and gradient coloring, one shadow draw of the segment's path; otherwise no draw |
| AverageSpeedFilter.UnitResId | OsmAnd/src/net/osmand/plus/myplaces/tracks/filters/AverageSpeedTrackFilter.kt:18-27 | miles systems give mph, nautical systems nm/h, kilometres km/h |
| AverageSpeedFilter.SpeedCoef | OsmAnd/src/net/osmand/plus/myplaces/tracks/filters/AverageSpeedTrackFilter.kt:47-56 | the coefficient follows the unit: 2.237 for mph, 1.94384 for nm/h, 3.6 for km/h |
| AverageSpeedFilter.CoefMatchesUnit | OsmAnd/src/net/osmand/plus/myplaces/tracks/filters/AverageSpeedTrackFilter.kt:47-56 | each coefficient is the shown unit's conversion factor from m/s to within 0.001 |
| AverageSpeedFilter.AverageSpeedTrackFilter.constructor | OsmAnd/src/net/osmand/plus/myplaces/tracks/filters/AverageSpeedTrackFilter.kt:12 | the coefficient starts at 1 |
| AverageSpeedFilter.AverageSpeedTrackFilter.IsTrackAccepted | OsmAnd/src/net/osmand/plus/myplaces/tracks/filters/AverageSpeedTrackFilter.kt:30-41 | disabled accepts all; enabled rejects missing or zero speeds; otherwise, for a well-formed range, accepts iff the normalised speed is on neither bound, above the lower bound unless that is the minimum, and below the upper unless that is the maximum |
| AverageSpeedFilter.AverageSpeedTrackFilter.FullRangeRejectsOnlyExtremes | OsmAnd/src/net/osmand/plus/myplaces/tracks/filters/AverageSpeedTrackFilter.kt:36-39 | with the range at its extremes, a non-zero speed is accepted iff it is neither extreme |
| AverageSpeedFilter.AverageSpeedTrackFilter.UpdateCoef | OsmAnd/src/net/osmand/plus/myplaces/tracks/filters/AverageSpeedTrackFilter.kt:44-57 | only the coefficient changes, to the metric system's value |
| GpxNavigation.GpxNavigationParams.constructor | OsmAnd/src/net/osmand/plus/helpers/GpxNavigationParams.java:5-10 | threshold 50, all flags false, mode null |
| GpxNavigation.GpxNavigationParams.IsForce | OsmAnd/src/net/osmand/plus/helpers/GpxNavigationParams.java:12-14 | reads back the force component of the holder's value |
| GpxNavigation.GpxNavigationParams.IsCheckLocationPermission | OsmAnd/src/net/osmand/plus/helpers/GpxNavigationParams.java:21-23 | reads back the permission component |
| GpxNavigation.GpxNavigationParams.IsPassWholeRoute | OsmAnd/src/net/osmand/plus/helpers/GpxNavigationParams.java:30-32 | reads back the whole-route component |
| GpxNavigation.GpxNavigationParams.IsSnapToRoad | OsmAnd/src/net/osmand/plus/helpers/GpxNavigationParams.java:39-41 | reads back the snap component |
| GpxNavigation.GpxNavigationParams.GetSnapToRoadMode | OsmAnd/src/net/osmand/plus/helpers/GpxNavigationParams.java:48-50 | reads back the snap mode, null included |
| GpxNavigation.GpxNavigationParams.GetSnapToRoadThreshold | OsmAnd/src/net/osmand/plus/helpers/GpxNavigationParams.java:57-59 | reads back the threshold |
| GpxNavigation.GpxNavigationParams.SetForce | OsmAnd/src/net/osmand/plus/helpers/GpxNavigationParams.java:16-19 | returns the same object; only force changes, to the given value |
| GpxNavigation.GpxNavigationParams.SetCheckLocationPermission | OsmAnd/src/net/osmand/plus/helpers/GpxNavigationParams.java:25-28 | returns the same object; only the permission flag changes |
| GpxNavigation.GpxNavigationParams.SetPassWholeRoute | OsmAnd/src/net/osmand/plus/helpers/GpxNavigationParams.java:34-37 | returns the same object; only the whole-route flag changes |
| GpxNavigation.GpxNavigationParams.SetSnapToRoad | OsmAnd/src/net/osmand/plus/helpers/GpxNavigationParams.java:43-46 | returns the same object; only the snap flag changes |
| GpxNavigation.GpxNavigationParams.SetSnapToRoadMode | OsmAnd/src/net/osmand/plus/helpers/GpxNavigationParams.java:52-55 | returns the same object; any mode, null included, is stored as given |
| GpxNavigation.GpxNavigationParams.SetSnapToRoadThreshold | OsmAnd/src/net/osmand/plus/helpers/GpxNavigationParams.java:61-64 | returns the same object; any int threshold, negative included, is stored as given |
| GpxNavigation.ChainedSetup | OsmAnd/src/net/osmand/plus/helpers/GpxNavigationParams.java:16-64 | an example chain of five setters on fresh parameters leaves each of those fields with the value set and the untouched permission flag at its default |

## Left out

- Android view machinery: adapter binding, view inflation, button backgrounds and text colors, `notifyItemChanged`, the global-layout scroll listener and the card listener callback.
- The route line width card registers a new slider listener on every entry into CUSTOM; all of them store the same value, so the model keeps one and does not count the repeated map refreshes.
- The card's state before its content is laid out (a null selected mode) is not modelled: the constructor models construction followed by `updateContent`.
- Header text formatting and the map-style name in the description are tokens, not strings.
- Float and double work: the contrast-ratio check of legend icons, `highlight()` pixel coordinates, slider float values beyond truncation, and float rounding of speed times coefficient (speeds and coefficients are exact reals).
- RouteLineWidth.TruncateTowardZero: does not model Java's saturation of out-of-range floats or NaN, because slider values lie in [1,24].
- `updateBottomInfo` belongs to the base chart adapter, which is not part of this model; the model counts the refresh requests and models `attachBottomInfo` separately.
- The distance formatter, `Algorithms.capitalizeFirstLetter` and the rendering-name lookup are parameters, not definitions.
- The base `GeometryWayDrawer` (its own segment drawing and the per-frame order of border and fill calls) is not part of this model; a delegated draw is recorded as a `BaseDrawPath` command.
- The `RouteColoringType` enumeration is not part of this model; only its two predicates are, and its DEFAULT value is taken to satisfy neither.
- Paint internals: color and alpha are modelled as separate settings, so `setColor` also setting the alpha byte and `setAlpha(0xFF)` also changing the color's alpha byte are not captured (DrawPath's gradient branch keeps the color setting as it was), and the cast failure when a non-gradient style reaches gradient drawing (DrawPath requires a gradient style there).
- The generic range filter (enabled flag, chosen bounds, extremes) is state the filter inherits; its own logic is not part of this model. A track is modelled by its optional average speed.
- The settings store: the metric system is a parameter, never null.
