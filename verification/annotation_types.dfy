/**
 * The annotation vocabulary: the seven tools, a point in canvas pixels and a
 * shape whose payload fields are all optional, as the source declares them.
 */
module AnnotationTypes {
  import opened Wrappers

  datatype Tool = Cursor | Pen | Line | Circle | Text | Eraser | Highlight

  /** A canvas position; the model takes pointer positions as given integers. */
  datatype Point = Point(x: int, y: int)

  /**
   * One annotation. `kind` is the source's `type` field. Which payload field is
   * present depends on how the shape was created, not on a type-level rule:
   * `points` for pen, highlight and eraser strokes, `start`/`end` for the other
   * tools, and `text`/`position` (beside `start`/`end`) for text notes.
   */
  datatype Shape = Shape(
    id: string,
    kind: Tool,
    color: string,
    strokeWidth: int,
    points: Option<seq<Point>>,
    start: Option<Point>,
    end: Option<Point>,
    text: Option<string>,
    position: Option<Point>)
}
