/** What a drawing context commits onto a page. A page keeps the list of
    its committed marks in place of the pixels they would rasterise to. */
module Marks {

  import opened Geometry

  /** A colour name or hex string, as the colour chooser hands it back. */
  type Color = string

  /** The page background, and the colour the eraser paints with. */
  const White: Color := "white"

  /** The outline of a mark. */
  datatype Figure =
    | Segment(from: Point, to: Point)     // a line from one point to another
    | Rect(corner: Point, opposite: Point) // an axis-aligned rectangle
    | Oval(corner: Point, opposite: Point) // the ellipse inscribed in that rectangle
    | Polygon(vertices: seq<Point>)       // a closed polygon through the vertices

  datatype Mark =
    | Stroke(figure: Figure, color: Color, width: int)
    | Label(at: Point, text: string, color: Color, size: int)

}
