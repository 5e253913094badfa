/**
 * The annotation canvas's tool style table and its pointer-capture state
 * machine (src/components/CanvasOverlay.tsx).
 *
 * The capture machine has three pieces of state: whether a gesture is in
 * progress, the shape being captured, and the committed shape list. The list is
 * owned by the parent, which receives every new list through `onShapesChange`
 * and passes it straight back in; the model folds that round trip into the
 * state. Each handler is a pure transition below, and the class
 * `CaptureMachine` performs the same transitions on its fields.
 */
module CanvasOverlay {
  import opened Wrappers
  import opened AnnotationTypes

  /** The canvas composite operations the overlay uses. */
  datatype CompositeOp = SourceOver | Multiply | DestinationOut

  datatype ToolStyle = ToolStyle(strokeWidth: int, color: string, composite: CompositeOp)

  const HighlightColor: string := "rgba(255, 255, 0, 0.3)"
  const EraserColor: string := "rgba(0,0,0,1)"
  const InkColor: string := "#ef4444"

  /**
   * The fixed style table: highlight is a wide translucent multiply stroke,
   * eraser a wide destination-out stroke, every other tool a thin red stroke
   * painted normally.
   */
  function GetToolStyle(t: Tool): (s: ToolStyle)
    ensures s.composite == Multiply <==> t == Highlight
    ensures s.composite == DestinationOut <==> t == Eraser
    ensures s.strokeWidth == 20 <==> t == Highlight || t == Eraser
    ensures s.strokeWidth == 2 <==> t != Highlight && t != Eraser
    ensures t == Highlight ==> s.color == HighlightColor
    ensures t == Eraser ==> s.color == EraserColor
    ensures t != Highlight && t != Eraser ==> s.color == InkColor
  {
    if t == Highlight then ToolStyle(20, HighlightColor, Multiply)
    else if t == Eraser then ToolStyle(20, EraserColor, DestinationOut)
    else ToolStyle(2, InkColor, SourceOver)
  }

  /** Tools whose pointer-down shape starts a point list. */
  predicate StartsPoints(t: Tool) {
    t == Pen || t == Highlight
  }

  /** Tools for which pointer-move appends to the point list. */
  predicate AppendsPoints(t: Tool) {
    t == Pen || t == Eraser || t == Highlight
  }

  datatype CaptureState = CaptureState(isDrawing: bool, current: Option<Shape>, shapes: seq<Shape>)

  /** What one handler produces: the next state and the list passed to `onShapesChange`, if any. */
  datatype Step = Step(state: CaptureState, notified: Option<seq<Shape>>)

  datatype PointerEvent =
    | MouseDown(pos: Point, id: string, input: Option<string>)
    | MouseMove(pos: Point)
    | MouseUp
    | MouseLeave

  /**
   * The shape built at pointer-down from the current tool's style: pen and
   * highlight start a point list, every other tool gets `start == end == pos`.
   */
  function NewShape(tool: Tool, pos: Point, id: string): (s: Shape)
    ensures s.id == id && s.kind == tool
    ensures s.color == GetToolStyle(tool).color && s.strokeWidth == GetToolStyle(tool).strokeWidth
    ensures StartsPoints(tool) ==> s.points == Some([pos]) && s.start.None? && s.end.None?
    ensures !StartsPoints(tool) ==> s.points.None? && s.start == Some(pos) && s.end == Some(pos)
    ensures s.text.None? && s.position.None?
  {
    var style := GetToolStyle(tool);
    Shape(id, tool, style.color, style.strokeWidth,
          if StartsPoints(tool) then Some([pos]) else None,
          if !StartsPoints(tool) then Some(pos) else None,
          if !StartsPoints(tool) then Some(pos) else None,
          None, None)
  }

  /** The eraser's own pointer-down shape: a one-point stroke of width 20. */
  function EraserShape(pos: Point, id: string): (s: Shape)
    ensures s.kind == Eraser && s.strokeWidth == 20 && s.points == Some([pos])
    ensures s.start.None? && s.end.None? && s.text.None? && s.position.None?
  {
    Shape(id, Eraser, EraserColor, 20, Some([pos]), None, None, None, None)
  }

  /**
   * Pointer-down. The text tool commits a note at once when the prompt returns
   * a non-empty string (`input`; `None` is a cancelled prompt) and always ends
   * with drawing off. Every other tool starts a gesture with a fresh current
   * shape. The committed list never changes except by the text commit.
   */
  function OnMouseDown(st: CaptureState, tool: Tool, pos: Point, id: string, input: Option<string>): (r: Step)
    ensures r.state.isDrawing <==> tool != Text
    ensures tool == Text ==> r.state.current == st.current
    ensures tool == Text && input.Some? && input.value != "" ==>
      && r.notified == Some(r.state.shapes)
      && |r.state.shapes| == |st.shapes| + 1
      && r.state.shapes[..|st.shapes|] == st.shapes
      && var note := r.state.shapes[|st.shapes|];
         note.kind == Text && note.text == input && note.position == Some(pos)
    ensures !(tool == Text && input.Some? && input.value != "") ==>
      r.notified.None? && r.state.shapes == st.shapes
    ensures tool == Eraser ==> r.state.current == Some(EraserShape(pos, id))
    ensures tool != Text && tool != Eraser ==>
      && r.state.current.Some?
      && var s := r.state.current.value;
         && s.kind == tool
         && (StartsPoints(tool) ==> s.points == Some([pos]) && s.start.None? && s.end.None?)
         && (!StartsPoints(tool) ==> s.points.None? && s.start == Some(pos) && s.end == Some(pos))
  {
    if tool == Text then
      if input.Some? && input.value != "" then
        var list := st.shapes + [NewShape(tool, pos, id).(text := input, position := Some(pos))];
        Step(st.(isDrawing := false, shapes := list), Some(list))
      else
        Step(st.(isDrawing := false), None)
    else if tool == Eraser then
      Step(st.(isDrawing := true, current := Some(EraserShape(pos, id))), None)
    else
      Step(st.(isDrawing := true, current := Some(NewShape(tool, pos, id))), None)
  }

  /**
   * Pointer-move. Nothing happens unless a gesture is in progress. Stroke
   * tools append exactly the new position to an existing point list and leave
   * the earlier points alone; a current shape without a point list stays as it
   * is. Every other tool moves `end` only, so `start` stays where it was.
   */
  function OnMouseMove(st: CaptureState, tool: Tool, pos: Point): (r: CaptureState)
    ensures !st.isDrawing ==> r == st
    ensures r.isDrawing == st.isDrawing && r.shapes == st.shapes
    ensures r.current.Some? <==> st.current.Some?
    ensures st.isDrawing && st.current.Some? ==>
      var before, after := st.current.value, r.current.value;
      && after.kind == before.kind && after.start == before.start
      && (AppendsPoints(tool) && before.points.Some? ==>
            after.points == Some(before.points.value + [pos]) && after == before.(points := after.points))
      && (AppendsPoints(tool) && before.points.None? ==> after == before)
      && (!AppendsPoints(tool) ==> after.end == Some(pos) && after == before.(end := after.end))
  {
    if !st.isDrawing then st
    else if AppendsPoints(tool) then
      match st.current
      case None => st
      case Some(s) =>
        if s.points.None? then st
        else st.(current := Some(s.(points := Some(s.points.value + [pos]))))
    else
      match st.current
      case None => st
      case Some(s) => st.(current := Some(s.(end := Some(pos))))
  }

  /**
   * Pointer-up (and pointer-leave). While drawing, the current shape, if any,
   * is committed: the parent is handed the whole new list, old list plus that
   * shape. Drawing ends and the current shape is cleared. When no gesture is in
   * progress nothing changes.
   */
  function OnMouseUp(st: CaptureState): (r: Step)
    ensures !st.isDrawing ==> r == Step(st, None)
    ensures st.isDrawing ==> !r.state.isDrawing && r.state.current.None?
    ensures st.isDrawing && st.current.Some? ==>
      r.notified == Some(st.shapes + [st.current.value]) && r.state.shapes == r.notified.value
    ensures st.current.None? ==> r.notified.None? && r.state.shapes == st.shapes
  {
    if !st.isDrawing then Step(st, None)
    else
      match st.current
      case Some(s) =>
        var list := st.shapes + [s];
        Step(CaptureState(false, None, list), Some(list))
      case None => Step(st.(isDrawing := false), None)
  }

  /**
   * One pointer event on the canvas. With the cursor tool no handler is
   * attached, so the event does nothing; pointer-leave runs the pointer-up
   * handler. Whatever happens, the committed list only ever grows by the one
   * shape it hands to the parent.
   */
  function Handle(st: CaptureState, tool: Tool, ev: PointerEvent): (r: Step)
    ensures tool == Cursor ==> r == Step(st, None)
    ensures r.notified.Some? ==>
      && r.state.shapes == r.notified.value
      && |r.state.shapes| == |st.shapes| + 1
      && r.state.shapes[..|st.shapes|] == st.shapes
    ensures r.notified.None? ==> r.state.shapes == st.shapes
  {
    if tool == Cursor then Step(st, None)
    else
      match ev
      case MouseDown(pos, id, input) => OnMouseDown(st, tool, pos, id, input)
      case MouseMove(pos) => Step(OnMouseMove(st, tool, pos), None)
      case MouseUp => OnMouseUp(st)
      case MouseLeave => OnMouseUp(st)
  }

  /** The state after a sequence of events, each seeing the previous one's result. */
  function Run(st: CaptureState, tool: Tool, evs: seq<PointerEvent>): CaptureState
    decreases |evs|
  {
    if |evs| == 0 then st
    else Handle(Run(st, tool, evs[..|evs| - 1]), tool, evs[|evs| - 1]).state
  }

  /** The shapes committed by a sequence of events, in commit order. */
  function Committed(st: CaptureState, tool: Tool, evs: seq<PointerEvent>): seq<Shape>
    decreases |evs|
  {
    if |evs| == 0 then []
    else
      var before := Run(st, tool, evs[..|evs| - 1]);
      var step := Handle(before, tool, evs[|evs| - 1]);
      Committed(st, tool, evs[..|evs| - 1])
        + (if step.notified.Some? then [step.state.shapes[|before.shapes|]] else [])
  }

  /**
   * Commit monotonicity: after any event sequence the list is the old list,
   * untouched, followed by exactly the shapes committed, in commit order.
   */
  lemma {:induction false} RunAppendsCommits(st: CaptureState, tool: Tool, evs: seq<PointerEvent>)
    ensures Run(st, tool, evs).shapes == st.shapes + Committed(st, tool, evs)
    decreases |evs|
  {
    if |evs| > 0 {
      var init := evs[..|evs| - 1];
      RunAppendsCommits(st, tool, init);
      var before := Run(st, tool, init);
      var step := Handle(before, tool, evs[|evs| - 1]);
      if step.notified.Some? {
        assert step.state.shapes == before.shapes + [step.state.shapes[|before.shapes|]];
      }
    }
  }

  /** With the cursor tool no event sequence changes anything. */
  lemma {:induction false} CursorIsInert(st: CaptureState, evs: seq<PointerEvent>)
    ensures Run(st, Cursor, evs) == st
    ensures Committed(st, Cursor, evs) == []
    decreases |evs|
  {
    if |evs| > 0 {
      CursorIsInert(st, evs[..|evs| - 1]);
    }
  }

  /** Running one more event is handling it in the state the earlier events left. */
  lemma RunSnoc(st: CaptureState, tool: Tool, evs: seq<PointerEvent>, ev: PointerEvent)
    ensures Run(st, tool, evs + [ev]) == Handle(Run(st, tool, evs), tool, ev).state
  {
    assert (evs + [ev])[..|evs|] == evs;
  }

  /** A pen stroke down at (10,10), moved to (20,10) and (20,20), then released. */
  lemma PenScenario(shapes: seq<Shape>)
    ensures
      var evs := [MouseDown(Point(10, 10), "1", None), MouseMove(Point(20, 10)),
                  MouseMove(Point(20, 20)), MouseUp];
      Run(CaptureState(false, None, shapes), Pen, evs)
        == CaptureState(false, None, shapes + [Shape("1", Pen, InkColor, 2,
             Some([Point(10, 10), Point(20, 10), Point(20, 20)]), None, None, None, None)])
  {
    var st := CaptureState(false, None, shapes);
    var a, b, c, d := MouseDown(Point(10, 10), "1", None), MouseMove(Point(20, 10)),
                      MouseMove(Point(20, 20)), MouseUp;
    RunSnoc(st, Pen, [], a);
    RunSnoc(st, Pen, [a], b);
    RunSnoc(st, Pen, [a, b], c);
    RunSnoc(st, Pen, [a, b, c], d);
    assert [] + [a] == [a] && [a] + [b] == [a, b] && [a, b] + [c] == [a, b, c] && [a, b, c] + [d] == [a, b, c, d];
    var down := Shape("1", Pen, InkColor, 2, Some([Point(10, 10)]), None, None, None, None);
    assert Run(st, Pen, [a]) == CaptureState(true, Some(down), shapes);
    assert [Point(10, 10)] + [Point(20, 10)] == [Point(10, 10), Point(20, 10)];
    assert Run(st, Pen, [a, b]) == CaptureState(true, Some(down.(points := Some([Point(10, 10), Point(20, 10)]))), shapes);
    assert [Point(10, 10), Point(20, 10)] + [Point(20, 20)] == [Point(10, 10), Point(20, 10), Point(20, 20)];
  }

  /** A circle dragged from (0,0) to (3,4) commits with `start` (0,0) and `end` (3,4). */
  lemma CircleScenario(shapes: seq<Shape>)
    ensures
      var evs := [MouseDown(Point(0, 0), "c", None), MouseMove(Point(3, 4)), MouseUp];
      var after := Run(CaptureState(false, None, shapes), Circle, evs);
      && |after.shapes| == |shapes| + 1
      && after.shapes[|shapes|].kind == Circle
      && after.shapes[|shapes|].start == Some(Point(0, 0))
      && after.shapes[|shapes|].end == Some(Point(3, 4))
  {
    var st := CaptureState(false, None, shapes);
    var a, b, c := MouseDown(Point(0, 0), "c", None), MouseMove(Point(3, 4)), MouseUp;
    RunSnoc(st, Circle, [], a);
    RunSnoc(st, Circle, [a], b);
    RunSnoc(st, Circle, [a, b], c);
    assert [] + [a] == [a] && [a] + [b] == [a, b] && [a, b] + [c] == [a, b, c];
  }

  /** A text note is one commit when the prompt returns text and no commit when it returns nothing. */
  lemma TextScenario(shapes: seq<Shape>)
    ensures
      var after := Run(CaptureState(false, None, shapes), Text, [MouseDown(Point(50, 50), "t", Some("Note"))]);
      && |after.shapes| == |shapes| + 1
      && after.shapes[|shapes|].text == Some("Note")
      && after.shapes[|shapes|].position == Some(Point(50, 50))
    ensures Run(CaptureState(false, None, shapes), Text, [MouseDown(Point(50, 50), "t", Some(""))]).shapes == shapes
    ensures Run(CaptureState(false, None, shapes), Text, [MouseDown(Point(50, 50), "t", None)]).shapes == shapes
  {
    var st := CaptureState(false, None, shapes);
    RunSnoc(st, Text, [], MouseDown(Point(50, 50), "t", Some("Note")));
    RunSnoc(st, Text, [], MouseDown(Point(50, 50), "t", Some("")));
    RunSnoc(st, Text, [], MouseDown(Point(50, 50), "t", None));
  }

  /**
   * The canvas component's capture state. The handlers change these fields in
   * place, exactly as the transitions above describe; `shapes` is the list the
   * parent passes back after each `onShapesChange`.
   */
  class CaptureMachine {
    var isDrawing: bool
    var currentShape: Option<Shape>
    var shapes: seq<Shape>

    function State(): CaptureState
      reads this
    {
      CaptureState(isDrawing, currentShape, shapes)
    }

    constructor (initial: seq<Shape>)
      ensures State() == CaptureState(false, None, initial)
    {
      isDrawing := false;
      currentShape := None;
      shapes := initial;
    }

    method HandleMouseDown(tool: Tool, pos: Point, id: string, input: Option<string>)
      returns (notified: Option<seq<Shape>>)
      modifies this
      ensures Step(State(), notified) == OnMouseDown(old(State()), tool, pos, id, input)
    {
      isDrawing := true;
      var newShape := NewShape(tool, pos, id);
      notified := None;
      if tool == Text {
        if input.Some? && input.value != "" {
          var list := shapes + [newShape.(text := input, position := Some(pos))];
          notified := Some(list);
          shapes := list;
        }
        isDrawing := false;
      } else if tool == Eraser {
        currentShape := Some(EraserShape(pos, id));
      } else {
        currentShape := Some(newShape);
      }
    }

    method HandleMouseMove(tool: Tool, pos: Point)
      modifies this
      ensures State() == OnMouseMove(old(State()), tool, pos)
    {
      if !isDrawing {
        return;
      }
      if AppendsPoints(tool) {
        if currentShape.Some? && currentShape.value.points.Some? {
          var prev := currentShape.value;
          currentShape := Some(prev.(points := Some(prev.points.value + [pos])));
        }
      } else if currentShape.Some? {
        currentShape := Some(currentShape.value.(end := Some(pos)));
      }
    }

    method HandleMouseUp() returns (notified: Option<seq<Shape>>)
      modifies this
      ensures Step(State(), notified) == OnMouseUp(old(State()))
    {
      notified := None;
      if !isDrawing {
        return;
      }
      isDrawing := false;
      if currentShape.Some? {
        var list := shapes + [currentShape.value];
        notified := Some(list);
        shapes := list;
        currentShape := None;
      }
    }

    /** Routes an event to its handler; with the cursor tool none is attached. */
    method Dispatch(tool: Tool, ev: PointerEvent) returns (notified: Option<seq<Shape>>)
      modifies this
      ensures Step(State(), notified) == Handle(old(State()), tool, ev)
    {
      notified := None;
      if tool == Cursor {
        return;
      }
      match ev
      case MouseDown(pos, id, input) => notified := HandleMouseDown(tool, pos, id, input);
      case MouseMove(pos) => HandleMouseMove(tool, pos);
      case MouseUp => notified := HandleMouseUp();
      case MouseLeave => notified := HandleMouseUp();
    }
  }
}
