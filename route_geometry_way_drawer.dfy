/**
 * The route polyline drawer: per segment, a gradient, an attribute color or
 * the base drawing; and an optional shadow border drawn either as one merged
 * path (below a zoom threshold) or per segment (at and above it).
 */
module RouteGeometry {
  import opened Wrappers

  /** The map tile layer's maximum zoom and its over-zoom allowance; their values are defined elsewhere. */
  const DefaultMaxZoom: int
  const OverzoomIn: int
  const BorderTypeZoomThreshold: int := DefaultMaxZoom + OverzoomIn

  /** A route coloring type, seen through the two predicates the drawer asks of it. */
  datatype ColoringType = ColoringType(isGradient: bool, isRouteInfoAttribute: bool)

  /** The initial coloring type: neither gradient nor attribute based. */
  const DefaultColoring: ColoringType := ColoringType(false, false)

  /** A path is a sequence of opaque geometry pieces; adding a path appends its pieces. */
  type Path = seq<int>

  datatype Point = Point(x: real, y: real)

  /** A segment's style; the gradient variant carries its two end colors and stroke width. */
  datatype WayStyle =
    | WayStyle(color: int)
    | GradientWayStyle(color: int, currColor: int, nextColor: int, width: real)

  datatype DrawPathData = DrawPathData(path: Path, start: Point, end: Point, style: WayStyle)

  datatype TileMode = Clamp

  datatype LinearGradient = LinearGradient(x0: real, y0: real, x1: real, y1: real,
                                           color0: int, color1: int, tile: TileMode)

  /** The observable settings of the shared custom paint. */
  datatype PaintState = PaintState(shader: Option<LinearGradient>, strokeWidth: real, alpha: int, color: int)

  /** Which paint a draw used: the context's fixed shadow paint, or the custom paint as it then was. */
  datatype PaintUse = ShadowPaint | CustomPaint(state: PaintState)

  /** One call reaching the canvas: a path stroked with a paint, or a segment handed to the base drawer. */
  datatype DrawCommand =
    | DrawPathCmd(path: Path, paint: PaintUse)
    | BaseDrawPath(data: DrawPathData)

  /** The in-order concatenation of the segments' paths. */
  function JoinPaths(ps: seq<DrawPathData>): Path
  {
    if ps == [] then [] else JoinPaths(ps[..|ps| - 1]) + ps[|ps| - 1].path
  }

  lemma {:induction false} JoinPathsAppend(a: seq<DrawPathData>, b: seq<DrawPathData>)
    ensures JoinPaths(a + b) == JoinPaths(a) + JoinPaths(b)
    decreases |b|
  {
    if b == [] {
      assert a + b == a;
    } else {
      var b' := b[..|b| - 1];
      assert (a + b)[..|a + b| - 1] == a + b';
      JoinPathsAppend(a, b');
    }
  }

  /** The merged path holds every segment's path, in order: a segment appears right after the ones before it. */
  lemma JoinPathsSegment(ps: seq<DrawPathData>, k: int)
    requires 0 <= k < |ps|
    ensures var before := |JoinPaths(ps[..k])|;
            before + |ps[k].path| <= |JoinPaths(ps)| &&
            JoinPaths(ps)[before..before + |ps[k].path|] == ps[k].path
  {
    assert ps == ps[..k] + [ps[k]] + ps[k + 1..];
    JoinPathsAppend(ps[..k] + [ps[k]], ps[k + 1..]);
    JoinPathsAppend(ps[..k], [ps[k]]);
    assert [ps[k]][..0] == [];
  }

  /** Whether the merged border is drawn at `zoom`. */
  predicate FullBorderDrawn(drawBorder: bool, coloring: ColoringType, zoom: int)
  {
    drawBorder && zoom < BorderTypeZoomThreshold && coloring.isGradient
  }

  /** Whether each segment draws its own border at `zoom`. */
  predicate SegmentBorderDrawn(drawBorder: bool, coloring: ColoringType, zoom: int)
  {
    drawBorder && zoom >= BorderTypeZoomThreshold && coloring.isGradient
  }

  /**
   * The two border strategies never both apply; with borders on and a
   * gradient coloring exactly one does, the per-segment one from the
   * threshold up; otherwise neither.
   */
  lemma BorderStrategiesExclusive(drawBorder: bool, coloring: ColoringType, zoom: int)
    ensures !(FullBorderDrawn(drawBorder, coloring, zoom) && SegmentBorderDrawn(drawBorder, coloring, zoom))
    ensures drawBorder && coloring.isGradient ==>
              (FullBorderDrawn(drawBorder, coloring, zoom) || SegmentBorderDrawn(drawBorder, coloring, zoom))
    ensures zoom == BorderTypeZoomThreshold ==> !FullBorderDrawn(drawBorder, coloring, zoom)
    ensures !drawBorder || !coloring.isGradient ==>
              !FullBorderDrawn(drawBorder, coloring, zoom) && !SegmentBorderDrawn(drawBorder, coloring, zoom)
  {
  }

  /** The drawing surface, recorded as the log of draws it received. */
  class Canvas {
    var log: seq<DrawCommand>

    constructor ()
      ensures log == []
    {
      log := [];
    }

    method DrawPath(path: Path, paint: PaintUse)
      modifies this
      ensures log == old(log) + [DrawPathCmd(path, paint)]
    {
      log := log + [DrawPathCmd(path, paint)];
    }
  }

  /** The context's reusable custom paint. */
  class Paint {
    var shader: Option<LinearGradient>
    var strokeWidth: real
    var alpha: int
    var color: int

    constructor (strokeWidth: real, alpha: int, color: int)
      ensures State() == PaintState(None, strokeWidth, alpha, color)
    {
      shader := None;
      this.strokeWidth := strokeWidth;
      this.alpha := alpha;
      this.color := color;
    }

    function State(): PaintState
      reads this
    {
      PaintState(shader, strokeWidth, alpha, color)
    }
  }

  class RouteGeometryWayDrawer {
    const drawBorder: bool
    const customPaint: Paint
    var routeColoringType: ColoringType

    constructor (customPaint: Paint, drawBorder: bool)
      ensures this.customPaint == customPaint && this.drawBorder == drawBorder
      ensures routeColoringType == DefaultColoring
    {
      this.customPaint := customPaint;
      this.drawBorder := drawBorder;
      routeColoringType := DefaultColoring;
    }

    method SetRouteColoringType(coloringType: ColoringType)
      modifies this`routeColoringType
      ensures routeColoringType == coloringType
    {
      routeColoringType := coloringType;
    }

    /** Below the threshold, one stroke of the merged path with the shadow paint; otherwise nothing. */
    method DrawFullBorder(canvas: Canvas, zoom: int, pathsData: seq<DrawPathData>)
      modifies canvas
      ensures canvas.log == old(canvas.log) +
                if FullBorderDrawn(drawBorder, routeColoringType, zoom)
                then [DrawPathCmd(JoinPaths(pathsData), ShadowPaint)] else []
    {
      if drawBorder && zoom < BorderTypeZoomThreshold && routeColoringType.isGradient {
        var fullPath: Path := [];
        var i := 0;
        while i < |pathsData|
          invariant 0 <= i <= |pathsData|
          invariant fullPath == JoinPaths(pathsData[..i])
        {
          assert pathsData[..i + 1][..i] == pathsData[..i];
          fullPath := fullPath + pathsData[i].path;
          i := i + 1;
        }
        assert pathsData[..i] == pathsData;
        canvas.DrawPath(fullPath, ShadowPaint);
      }
    }

    /**
     * A segment's line. Gradient coloring strokes it with a clamped gradient
     * from its start to its end point, the style's width and full opacity;
     * attribute coloring sets the custom paint's color to the style color and
     * hands the segment to the base drawer; otherwise the base drawer alone.
     */
    method DrawPath(canvas: Canvas, pathData: DrawPathData)
      requires routeColoringType.isGradient ==> pathData.style.GradientWayStyle?
      modifies canvas, customPaint
      ensures routeColoringType.isGradient ==>
                var style := pathData.style;
                customPaint.State() ==
                  PaintState(Some(LinearGradient(pathData.start.x, pathData.start.y, pathData.end.x, pathData.end.y,
                                                 style.currColor, style.nextColor, Clamp)),
                             style.width, 0xFF, old(customPaint.color)) &&
                canvas.log == old(canvas.log) + [DrawPathCmd(pathData.path, CustomPaint(customPaint.State()))]
      ensures !routeColoringType.isGradient && routeColoringType.isRouteInfoAttribute ==>
                customPaint.State() == old(customPaint.State()).(color := pathData.style.color) &&
                canvas.log == old(canvas.log) + [BaseDrawPath(pathData)]
      ensures !routeColoringType.isGradient && !routeColoringType.isRouteInfoAttribute ==>
                customPaint.State() == old(customPaint.State()) &&
                canvas.log == old(canvas.log) + [BaseDrawPath(pathData)]
    {
      if routeColoringType.isGradient {
        var style := pathData.style;
        var gradient := LinearGradient(pathData.start.x, pathData.start.y, pathData.end.x, pathData.end.y,
                                       style.currColor, style.nextColor, Clamp);
        customPaint.shader := Some(gradient);
        customPaint.strokeWidth := style.width;
        customPaint.alpha := 0xFF;
        canvas.DrawPath(pathData.path, CustomPaint(customPaint.State()));
      } else if routeColoringType.isRouteInfoAttribute {
        customPaint.color := pathData.style.color;
        BaseDraw(canvas, pathData);
      } else {
        BaseDraw(canvas, pathData);
      }
    }

    /** The inherited segment drawing, recorded as handed over. */
    method BaseDraw(canvas: Canvas, pathData: DrawPathData)
      modifies canvas
      ensures canvas.log == old(canvas.log) + [BaseDrawPath(pathData)]
    {
      canvas.log := canvas.log + [BaseDrawPath(pathData)];
    }

    /** At and above the threshold, the segment's own path stroked with the shadow paint; otherwise nothing. */
    method DrawSegmentBorder(canvas: Canvas, zoom: int, pathData: DrawPathData)
      modifies canvas
      ensures canvas.log == old(canvas.log) +
                if SegmentBorderDrawn(drawBorder, routeColoringType, zoom)
                then [DrawPathCmd(pathData.path, ShadowPaint)] else []
    {
      if drawBorder && zoom >= BorderTypeZoomThreshold && routeColoringType.isGradient {
        canvas.DrawPath(pathData.path, ShadowPaint);
      }
    }
  }
}
