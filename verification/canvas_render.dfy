/**
 * The canvas repaint of src/components/CanvasOverlay.tsx (`renderCanvas` and
 * its inner `drawShape`), stated as the sequence of 2D-context calls it makes
 * rather than as pixels. A circle's radius is carried squared, so no square
 * root is taken.
 */
module CanvasRender {
  import opened Wrappers
  import opened AnnotationTypes
  import opened CanvasOverlay

  /** One call on the 2D drawing context. */
  datatype DrawCmd =
    | ClearRect
    | SetLineCapRound
    | SetLineJoinRound
    | SetLineWidth(width: int)
    | SetComposite(op: CompositeOp)
    | SetStrokeStyle(color: string)
    | SetFillStyle(color: string)
    | BeginPath
    | MoveTo(p: Point)
    | LineTo(p: Point)
    | Arc(center: Point, radiusSquared: int)
    | Stroke
    | Save
    | SetFont(font: string)
    | SetShadow(color: string, blur: int)
    | FillText(text: string, at: Point)
    | Restore

  const TextFont: string := "bold 16px sans-serif"
  const TextShadowColor: string := "rgba(255, 255, 255, 0.5)"
  const TextShadowBlur: int := 10

  /** The calls that change the tracked drawing state. */
  predicate SetsStyle(c: DrawCmd) {
    c.SetComposite? || c.SetLineWidth? || c.SetStrokeStyle? || c.SetFillStyle?
  }

  /** The calls that put paint on the surface. */
  predicate Paints(c: DrawCmd) {
    c.MoveTo? || c.LineTo? || c.Arc? || c.Stroke? || c.FillText?
  }

  /** Whether a shape carries the payload its kind is painted from. */
  predicate Drawable(s: Shape) {
    match s.kind
    case Pen => s.points.Some? && |s.points.value| > 0
    case Eraser => s.points.Some? && |s.points.value| > 0
    case Highlight => s.points.Some? && |s.points.value| > 0
    case Line => s.start.Some? && s.end.Some?
    case Circle => s.start.Some? && s.end.Some?
    case Text => s.position.Some? && s.text.Some? && s.text.value != ""
    case Cursor => false
  }

  /** Squared Euclidean distance; the circle's radius is its square root. */
  function RadiusSquared(center: Point, rim: Point): (r: int)
    ensures r >= 0
    ensures r == 0 <==> center == rim
  {
    (rim.x - center.x) * (rim.x - center.x) + (rim.y - center.y) * (rim.y - center.y)
  }

  /** One `lineTo` per point, in order. */
  function LineTos(ps: seq<Point>): (r: seq<DrawCmd>)
    ensures forall c :: c in r ==> c.LineTo?
    decreases |ps|
  {
    if |ps| == 0 then [] else LineTos(ps[..|ps| - 1]) + [LineTo(ps[|ps| - 1])]
  }

  lemma {:induction false} LineTosAt(ps: seq<Point>)
    ensures |LineTos(ps)| == |ps|
    ensures forall k :: 0 <= k < |ps| ==> LineTos(ps)[k] == LineTo(ps[k])
    decreases |ps|
  {
    if |ps| > 0 {
      LineTosAt(ps[..|ps| - 1]);
    }
  }

  /** An open path through the points: `moveTo` the first, `lineTo` each later one, stroke. */
  function Polyline(ps: seq<Point>): (r: seq<DrawCmd>)
    requires |ps| >= 1
  {
    [BeginPath, MoveTo(ps[0])] + LineTos(ps[1..]) + [Stroke]
  }

  /**
   * A polyline of n points is one `moveTo` to the first point followed by
   * n - 1 `lineTo`s through the others in order.
   */
  lemma PolylineShape(ps: seq<Point>)
    requires |ps| >= 1
    ensures |Polyline(ps)| == |ps| + 2
    ensures Polyline(ps)[1] == MoveTo(ps[0])
    ensures forall k :: 1 <= k < |ps| ==> Polyline(ps)[k + 1] == LineTo(ps[k])
    ensures |set k | 0 <= k < |Polyline(ps)| && Polyline(ps)[k].MoveTo?| == 1
  {
    var r := Polyline(ps);
    LineTosAt(ps[1..]);
    assert forall k :: 2 <= k < |ps| + 1 ==> r[k] == LineTos(ps[1..])[k - 2];
    assert (set k | 0 <= k < |r| && r[k].MoveTo?) == {1};
  }

  /** The style half of `drawShape`: line width, composite mode, colours. */
  function StyleCommands(s: Shape): seq<DrawCmd> {
    [SetLineWidth(s.strokeWidth)] +
    if s.kind == Eraser then [SetComposite(DestinationOut)]
    else if s.kind == Highlight then [SetComposite(Multiply), SetStrokeStyle(s.color), SetFillStyle(s.color)]
    else [SetComposite(SourceOver), SetStrokeStyle(s.color), SetFillStyle(s.color)]
  }

  /** The geometry half of `drawShape`: nothing when the payload is missing. */
  function Geometry(s: Shape): (r: seq<DrawCmd>)
    ensures r != [] <==> Drawable(s)
    ensures forall c :: c in r ==> !SetsStyle(c)
    ensures (s.kind == Pen || s.kind == Eraser || s.kind == Highlight) && s.points.Some? && |s.points.value| > 0 ==>
      r == Polyline(s.points.value)
    ensures s.kind == Text && s.position.Some? && s.text.Some? && s.text.value != "" ==>
      r == [Save, SetFont(TextFont), SetShadow(TextShadowColor, TextShadowBlur),
            FillText(s.text.value, s.position.value), Restore]
    ensures s.kind == Line && s.start.Some? && s.end.Some? ==>
      r == [BeginPath, MoveTo(s.start.value), LineTo(s.end.value), Stroke]
    ensures s.kind == Circle && s.start.Some? && s.end.Some? ==>
      var c, e := s.start.value, s.end.value;
      r == [BeginPath, Arc(c, (e.x - c.x) * (e.x - c.x) + (e.y - c.y) * (e.y - c.y)), Stroke]
  {
    if (s.kind == Pen || s.kind == Eraser || s.kind == Highlight) && s.points.Some? && |s.points.value| > 0 then
      Polyline(s.points.value)
    else if s.kind == Line && s.start.Some? && s.end.Some? then
      [BeginPath, MoveTo(s.start.value), LineTo(s.end.value), Stroke]
    else if s.kind == Circle && s.start.Some? && s.end.Some? then
      [BeginPath, Arc(s.start.value, RadiusSquared(s.start.value, s.end.value)), Stroke]
    else if s.kind == Text && s.position.Some? && s.text.Some? && s.text.value != "" then
      [Save, SetFont(TextFont), SetShadow(TextShadowColor, TextShadowBlur),
       FillText(s.text.value, s.position.value), Restore]
    else
      []
  }

  /** `drawShape`: the style calls, then the geometry. */
  function DrawShape(s: Shape): seq<DrawCmd> {
    StyleCommands(s) + Geometry(s)
  }

  /**
   * Every shape starts by setting its own width and then the composite mode
   * the style table gives its tool.
   */
  lemma DrawShapeStart(s: Shape)
    ensures |DrawShape(s)| >= 2 && DrawShape(s)[0] == SetLineWidth(s.strokeWidth)
    ensures DrawShape(s)[1] == SetComposite(GetToolStyle(s.kind).composite)
  {
  }

  /** A shape without its payload sets styles but paints nothing. */
  lemma UndrawableShapePaintsNothing(s: Shape)
    requires !Drawable(s)
    ensures forall c :: c in DrawShape(s) ==> !Paints(c)
  {
    assert DrawShape(s) == StyleCommands(s);
  }

  /** An eraser never sets the stroke or the fill colour. */
  lemma EraserSetsNoColour(s: Shape)
    requires s.kind == Eraser
    ensures forall c :: c in DrawShape(s) ==> !c.SetStrokeStyle? && !c.SetFillStyle?
  {
    var style, geometry := StyleCommands(s), Geometry(s);
    assert style == [SetLineWidth(s.strokeWidth), SetComposite(DestinationOut)];
    forall c | c in DrawShape(s)
      ensures !c.SetStrokeStyle? && !c.SetFillStyle?
    {
      assert c in style || c in geometry;
    }
  }

  /** `shapes.forEach(drawShape)`. */
  function DrawAll(shapes: seq<Shape>): seq<DrawCmd>
    decreases |shapes|
  {
    if |shapes| == 0 then [] else DrawAll(shapes[..|shapes| - 1]) + DrawShape(shapes[|shapes| - 1])
  }

  /** Painting a concatenation paints the first list, then the second. */
  lemma {:induction false} DrawAllAppend(a: seq<Shape>, b: seq<Shape>)
    ensures DrawAll(a + b) == DrawAll(a) + DrawAll(b)
    decreases |b|
  {
    if |b| > 0 {
      var b' := b[..|b| - 1];
      assert (a + b)[..|a + b| - 1] == a + b';
      DrawAllAppend(a, b');
    } else {
      assert a + b == a;
    }
  }

  /**
   * Paint order: every shape is painted after all earlier ones and before all
   * later ones, and a shape that paints nothing does not stop the rest.
   */
  lemma DrawAllAt(shapes: seq<Shape>, i: nat)
    requires i < |shapes|
    ensures DrawAll(shapes) == DrawAll(shapes[..i]) + DrawShape(shapes[i]) + DrawAll(shapes[i + 1..])
  {
    DrawAllSplit(shapes, i + 1);
    DrawAllSnoc(shapes, i);
  }

  lemma DrawAllSplit(shapes: seq<Shape>, k: nat)
    requires k <= |shapes|
    ensures DrawAll(shapes) == DrawAll(shapes[..k]) + DrawAll(shapes[k..])
  {
    assert shapes == shapes[..k] + shapes[k..];
    DrawAllAppend(shapes[..k], shapes[k..]);
  }

  lemma DrawAllSnoc(shapes: seq<Shape>, i: nat)
    requires i < |shapes|
    ensures DrawAll(shapes[..i + 1]) == DrawAll(shapes[..i]) + DrawShape(shapes[i])
  {
    assert shapes[..i + 1][..i] == shapes[..i];
  }

  /**
   * `renderCanvas`: clear, round caps and joins, the committed shapes in list
   * order, the shape being captured last, and the composite mode reset.
   */
  function Render(shapes: seq<Shape>, current: Option<Shape>): seq<DrawCmd> {
    [ClearRect, SetLineCapRound, SetLineJoinRound]
      + DrawAll(shapes)
      + (if current.Some? then DrawShape(current.value) else [])
      + [SetComposite(SourceOver)]
  }

  /**
   * The preview is the picture: committing the shape being captured yields
   * exactly the calls the preview made before the commit.
   */
  lemma CommitKeepsPicture(shapes: seq<Shape>, s: Shape)
    ensures Render(shapes + [s], None) == Render(shapes, Some(s))
  {
    assert (shapes + [s])[..|shapes|] == shapes;
    var prefix := [ClearRect, SetLineCapRound, SetLineJoinRound];
    var drawn := DrawAll(shapes + [s]);
    assert drawn == DrawAll(shapes) + DrawShape(s);
    assert prefix + drawn + [] == prefix + DrawAll(shapes) + DrawShape(s);
  }

  /**
   * A circle pressed at (0, 0) and released at (3, 4) is drawn as the arc
   * around (0, 0) whose squared radius is 25: it passes through the release point.
   */
  lemma CircleScenarioDraws(shapes: seq<Shape>)
    ensures
      var evs := [MouseDown(Point(0, 0), "c", None), MouseMove(Point(3, 4)), MouseUp];
      var after := Run(CaptureState(false, None, shapes), Circle, evs);
      && |after.shapes| == |shapes| + 1
      && Geometry(after.shapes[|shapes|]) == [BeginPath, Arc(Point(0, 0), 25), Stroke]
  {
    CircleScenario(shapes);
  }

  /** The context state that the calls above change (save/restore bracket only font and shadow). */
  datatype Context = Context(composite: CompositeOp, lineWidth: int, strokeStyle: string, fillStyle: string)

  function Apply(ctx: Context, c: DrawCmd): Context {
    match c
    case SetComposite(op) => ctx.(composite := op)
    case SetLineWidth(w) => ctx.(lineWidth := w)
    case SetStrokeStyle(color) => ctx.(strokeStyle := color)
    case SetFillStyle(color) => ctx.(fillStyle := color)
    case _ => ctx
  }

  function Exec(ctx: Context, cmds: seq<DrawCmd>): Context
    decreases |cmds|
  {
    if |cmds| == 0 then ctx else Apply(Exec(ctx, cmds[..|cmds| - 1]), cmds[|cmds| - 1])
  }

  lemma {:induction false} ExecAppend(ctx: Context, a: seq<DrawCmd>, b: seq<DrawCmd>)
    ensures Exec(ctx, a + b) == Exec(Exec(ctx, a), b)
    decreases |b|
  {
    if |b| > 0 {
      assert (a + b)[..|a + b| - 1] == a + b[..|b| - 1];
      ExecAppend(ctx, a, b[..|b| - 1]);
    } else {
      assert a + b == a;
    }
  }

  /** Calls that set none of the tracked state leave the context alone. */
  lemma {:induction false} ExecNoStyle(ctx: Context, cmds: seq<DrawCmd>)
    requires forall c :: c in cmds ==> !SetsStyle(c)
    ensures Exec(ctx, cmds) == ctx
    decreases |cmds|
  {
    if |cmds| > 0 {
      assert cmds[|cmds| - 1] in cmds;
      ExecNoStyle(ctx, cmds[..|cmds| - 1]);
    }
  }

  lemma ExecSnoc(ctx: Context, a: seq<DrawCmd>, c: DrawCmd)
    ensures Exec(ctx, a + [c]) == Apply(Exec(ctx, a), c)
  {
    assert (a + [c])[..|a|] == a;
  }

  /** The tracked state right after the style calls of a shape. */
  lemma ExecStyle(ctx: Context, s: Shape)
    ensures s.kind == Eraser ==>
      Exec(ctx, StyleCommands(s)) == ctx.(lineWidth := s.strokeWidth, composite := DestinationOut)
    ensures s.kind != Eraser ==>
      Exec(ctx, StyleCommands(s)) == Context(GetToolStyle(s.kind).composite, s.strokeWidth, s.color, s.color)
  {
    var w := SetLineWidth(s.strokeWidth);
    ExecSnoc(ctx, [], w);
    assert [] + [w] == [w];
    if s.kind == Eraser {
      ExecSnoc(ctx, [w], SetComposite(DestinationOut));
    } else {
      var op := GetToolStyle(s.kind).composite;
      assert StyleCommands(s) == [w, SetComposite(op), SetStrokeStyle(s.color), SetFillStyle(s.color)];
      ExecInk(ctx, w, op, s.color);
    }
  }

  lemma ExecInk(ctx: Context, w: DrawCmd, op: CompositeOp, color: string)
    requires w.SetLineWidth?
    ensures Exec(ctx, [w, SetComposite(op), SetStrokeStyle(color), SetFillStyle(color)])
         == Context(op, w.width, color, color)
  {
    var c1 := [w];
    var c2 := c1 + [SetComposite(op)];
    var c3 := c2 + [SetStrokeStyle(color)];
    var c4 := c3 + [SetFillStyle(color)];
    ExecSnoc(ctx, [], w);
    assert [] + [w] == c1;
    ExecSnoc(ctx, c1, SetComposite(op));
    ExecSnoc(ctx, c2, SetStrokeStyle(color));
    ExecSnoc(ctx, c3, SetFillStyle(color));
    assert c4 == [w, SetComposite(op), SetStrokeStyle(color), SetFillStyle(color)];
  }

  /**
   * After painting any shape the context holds that shape's width and the
   * composite mode of its tool; an eraser leaves the stroke and fill colours
   * of whatever was painted before, and other shapes set both to their colour.
   */
  lemma DrawShapeContext(ctx: Context, s: Shape)
    ensures Exec(ctx, DrawShape(s)).composite == GetToolStyle(s.kind).composite
    ensures Exec(ctx, DrawShape(s)).lineWidth == s.strokeWidth
    ensures s.kind == Eraser ==>
      Exec(ctx, DrawShape(s)).strokeStyle == ctx.strokeStyle && Exec(ctx, DrawShape(s)).fillStyle == ctx.fillStyle
    ensures s.kind != Eraser ==>
      Exec(ctx, DrawShape(s)).strokeStyle == s.color && Exec(ctx, DrawShape(s)).fillStyle == s.color
  {
    var style := StyleCommands(s);
    ExecAppend(ctx, style, Geometry(s));
    ExecNoStyle(Exec(ctx, style), Geometry(s));
    ExecStyle(ctx, s);
  }

  /** Whatever was painted, the repaint leaves the composite mode at `source-over`. */
  lemma RenderResetsComposite(ctx: Context, shapes: seq<Shape>, current: Option<Shape>)
    ensures Exec(ctx, Render(shapes, current)).composite == SourceOver
  {
    var r := Render(shapes, current);
    assert r[..|r| - 1] + [SetComposite(SourceOver)] == r;
  }

  /** The repaint as the component performs it: a loop over the shapes, each a loop over its points. */
  method StyleInto(shape: Shape) returns (cmds: seq<DrawCmd>)
    ensures cmds == StyleCommands(shape)
  {
    cmds := [SetLineWidth(shape.strokeWidth)];
    if shape.kind == Eraser {
      cmds := cmds + [SetComposite(DestinationOut)];
    } else if shape.kind == Highlight {
      cmds := cmds + [SetComposite(Multiply), SetStrokeStyle(shape.color), SetFillStyle(shape.color)];
    } else {
      cmds := cmds + [SetComposite(SourceOver), SetStrokeStyle(shape.color), SetFillStyle(shape.color)];
    }
  }

  method PolylineInto(pts: seq<Point>) returns (cmds: seq<DrawCmd>)
    requires |pts| >= 1
    ensures cmds == Polyline(pts)
  {
    cmds := [BeginPath, MoveTo(pts[0])];
    for i := 1 to |pts|
      invariant cmds == [BeginPath, MoveTo(pts[0])] + LineTos(pts[1..i])
    {
      assert pts[1..i + 1][..i - 1] == pts[1..i];
      cmds := cmds + [LineTo(pts[i])];
    }
    assert pts[1..|pts|] == pts[1..];
    cmds := cmds + [Stroke];
  }

  method DrawShapeInto(shape: Shape) returns (cmds: seq<DrawCmd>)
    ensures cmds == DrawShape(shape)
  {
    cmds := StyleInto(shape);
    var geometry: seq<DrawCmd> := [];
    if (shape.kind == Pen || shape.kind == Eraser || shape.kind == Highlight)
       && shape.points.Some? && |shape.points.value| > 0 {
      geometry := PolylineInto(shape.points.value);
    } else if shape.kind == Line && shape.start.Some? && shape.end.Some? {
      geometry := [BeginPath, MoveTo(shape.start.value), LineTo(shape.end.value), Stroke];
    } else if shape.kind == Circle && shape.start.Some? && shape.end.Some? {
      var c, e := shape.start.value, shape.end.value;
      geometry := [BeginPath, Arc(c, (e.x - c.x) * (e.x - c.x) + (e.y - c.y) * (e.y - c.y)), Stroke];
    } else if shape.kind == Text && shape.position.Some? && shape.text.Some? && shape.text.value != "" {
      geometry := [Save, SetFont(TextFont), SetShadow(TextShadowColor, TextShadowBlur),
                   FillText(shape.text.value, shape.position.value), Restore];
    }
    assert geometry == Geometry(shape);
    cmds := cmds + geometry;
  }

  method RenderCanvas(shapes: seq<Shape>, current: Option<Shape>) returns (cmds: seq<DrawCmd>)
    ensures cmds == Render(shapes, current)
  {
    var setup := [ClearRect, SetLineCapRound, SetLineJoinRound];
    var painted: seq<DrawCmd> := [];
    for i := 0 to |shapes|
      invariant painted == DrawAll(shapes[..i])
    {
      var one := DrawShapeInto(shapes[i]);
      DrawAllSnoc(shapes, i);
      painted := painted + one;
    }
    assert shapes[..|shapes|] == shapes;
    var preview: seq<DrawCmd> := [];
    if current.Some? {
      preview := DrawShapeInto(current.value);
    }
    cmds := setup + painted + preview + [SetComposite(SourceOver)];
  }
}
