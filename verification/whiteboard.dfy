/** The whiteboard's tool state and pointer handlers. Each handler of the
    application becomes a pure transition from one `Board` to the next.
    Whatever a handler asks of a dialog or of a library (the text typed, the
    size entered, whether the font file loads) arrives as a parameter. */
module Whiteboard {

  import opened Options
  import opened Geometry
  import opened Marks
  import Pages

  /** The drawing modes; exactly one is active. */
  datatype Tool = Pen | Eraser | Rectangle | Circle | Line | Cube | Pentagon | Hexagon | Triangle | Star | Text

  /** The tools that drag out a shape between the press and the release
      point. */
  predicate IsShape(tool: Tool) {
    tool in {Rectangle, Circle, Line, Cube, Pentagon, Hexagon, Triangle, Star}
  }

  /** A pointer position, in whole canvas pixels. */
  datatype Pixel = Pixel(x: int, y: int)

  function ToPoint(p: Pixel): Point {
    Point(p.x as real, p.y as real)
  }

  datatype TextOptions = TextOptions(font: string, size: int, style: string)

  /** The application state. `anchor` is the pair `start_x, start_y`, which
      are always set and cleared together; `preview` is the figure
      `current_shape_id` refers to: the outline drawn since the last press
      and not committed to any page, or None right after a press. */
  datatype Board = Board(
    store: Pages.Store,
    tool: Tool,
    anchor: Option<Pixel>,
    preview: Option<Figure>,
    color: Color,
    penSize: int,
    text: TextOptions)

  predicate Valid(b: Board) {
    Pages.Valid(b.store)
  }

  /** The state the application starts in: one blank page, the black pen of
      width 2, Arial 20 normal for text. */
  function Init(): (b: Board)
    ensures Valid(b)
    ensures b.tool == Pen && b.anchor == None && b.preview == None
    ensures b.color == "black" && b.penSize == 2 && b.text == TextOptions("Arial", 20, "normal")
    ensures |b.store.pages| == 1 && b.store.pages[0].marks == []
  {
    Board(Pages.Init(), Pen, None, None, "black", 2, TextOptions("Arial", 20, "normal"))
  }

  /** The anchor passes the handler's `if self.start_x and self.start_y`
      test: it is set and neither coordinate is 0. */
  predicate Truthy(anchor: Option<Pixel>) {
    anchor.Some? && anchor.value.x != 0 && anchor.value.y != 0
  }

  /** The two corners of the box spanned by `a` and `b`, smallest first. */
  function Normalise(a: Pixel, b: Pixel): (box: (Pixel, Pixel))
    ensures box.0.x <= box.1.x && box.0.y <= box.1.y
    ensures {box.0.x, box.1.x} == {a.x, b.x} && {box.0.y, box.1.y} == {a.y, b.y}
  {
    (Pixel(if a.x <= b.x then a.x else b.x, if a.y <= b.y then a.y else b.y),
     Pixel(if a.x <= b.x then b.x else a.x, if a.y <= b.y then b.y else a.y))
  }

  /** The outline a shape tool draws from corner `a` to corner `b`, taken as
      given: what the display previews while dragging. */
  function Outline(t: Trig, tool: Tool, a: Pixel, b: Pixel): Figure
    requires IsShape(tool)
  {
    var x0, y0, x1, y1 := a.x as real, a.y as real, b.x as real, b.y as real;
    match tool
    case Rectangle => Rect(ToPoint(a), ToPoint(b))
    case Circle => Oval(ToPoint(a), ToPoint(b))
    case Line => Segment(ToPoint(a), ToPoint(b))
    case Cube => Polygon(CubeCoords(x0, y0, x1, y1))
    case Pentagon => Polygon(PentagonCoords(t, x0, y0, x1, y1))
    case Hexagon => Polygon(HexagonCoords(t, x0, y0, x1, y1))
    case Triangle => Polygon(TriangleCoords(x0, y0, x1, y1))
    case Star => Polygon(StarCoords(t, x0, y0, x1, y1))
  }

  /** The outline committed on release: the rectangle, circle and cube use
      the normalised box; every other shape uses the press and release
      points as they are. */
  function Committed(t: Trig, tool: Tool, anchor: Pixel, release: Pixel): Figure
    requires IsShape(tool)
  {
    var box := Normalise(anchor, release);
    if tool in {Rectangle, Circle, Cube} then Outline(t, tool, box.0, box.1)
    else Outline(t, tool, anchor, release)
  }

  // ---------------------------------------------------------------------
  // Pointer handlers
  // ---------------------------------------------------------------------

  /** `add_text`: `entered` is the text dialog's answer (None when
      cancelled) and `fontLoads` whether the TrueType font file loads. Only
      non-empty text with a loadable font is placed, and only then does the
      tool fall back to the pen. */
  function AddText(b: Board, at: Pixel, entered: Option<string>, fontLoads: bool): (r: Board)
    requires Valid(b)
    ensures Valid(r)
    ensures entered.Some? && entered.value != "" && fontLoads ==>
      && r.tool == Pen
      && r.anchor == b.anchor && r.preview == b.preview
      && r.store.current == b.store.current && |r.store.pages| == |b.store.pages|
      && r.store.pages[r.store.current].marks
         == b.store.pages[b.store.current].marks + [Label(ToPoint(at), entered.value, b.color, b.text.size)]
      && (forall i :: 0 <= i < |b.store.pages| && i != b.store.current ==> r.store.pages[i] == b.store.pages[i])
    ensures entered.Some? && entered.value != "" && fontLoads ==>
      && r == b.(store := r.store, tool := Pen)
      && r.store.draws == b.store.draws
      && r.store.pages[b.store.current]
         == b.store.pages[b.store.current].(marks := b.store.pages[b.store.current].marks + [Label(ToPoint(at), entered.value, b.color, b.text.size)])
    ensures !(entered.Some? && entered.value != "" && fontLoads) ==> r == b
  {
    if entered.Some? && entered.value != "" && fontLoads then
      var mark := Label(ToPoint(at), entered.value, b.color, b.text.size);
      b.(store := Pages.Commit(b.store, mark), tool := Pen)
    else b
  }

  /** `on_button_press`: the text tool places text; every other tool
      anchors the gesture at the press point and forgets the preview. */
  function Press(b: Board, at: Pixel, entered: Option<string>, fontLoads: bool): (r: Board)
    requires Valid(b)
    ensures Valid(r)
    ensures b.tool != Text ==> r == b.(anchor := Some(at), preview := None)
    ensures b.tool == Text ==> r.anchor == b.anchor && r.preview == b.preview
  {
    if b.tool == Text then AddText(b, at, entered, fontLoads)
    else b.(anchor := Some(at), preview := None)
  }

  /** The colour a freehand tool paints with: the eraser always paints the
      white background. */
  function Ink(b: Board): (c: Color)
    ensures b.tool == Eraser ==> c == White
    ensures b.tool != Eraser ==> c == b.color
  {
    if b.tool == Eraser then White else b.color
  }

  /** The segment a freehand tool commits when the pointer moves from
      `from` to `to`. */
  function StrokeMark(b: Board, from: Pixel, to: Pixel): Mark {
    Stroke(Segment(ToPoint(from), ToPoint(to)), Ink(b), b.penSize)
  }

  /** `paint`, the handler for pointer motion with the button held. */
  function Motion(t: Trig, b: Board, at: Pixel): (r: Board)
    requires Valid(b)
    ensures Valid(r)
    ensures r.tool == b.tool && r.color == b.color && r.penSize == b.penSize && r.text == b.text
    // shape tools touch the preview only, never a page
    ensures IsShape(b.tool) ==> r.store == b.store && r.anchor == b.anchor
    ensures IsShape(b.tool) && b.anchor.Some? ==> r.preview == Some(Outline(t, b.tool, b.anchor.value, at))
    ensures IsShape(b.tool) && b.anchor.None? ==> r == b
    // freehand tools move the anchor along and commit the step if the old anchor is truthy
    ensures b.tool in {Pen, Eraser} ==> r.anchor == Some(at) && r.preview == b.preview
    ensures b.tool in {Pen, Eraser} && Truthy(b.anchor) ==>
      && r.store.current == b.store.current && |r.store.pages| == |b.store.pages|
      && r.store.pages[r.store.current].marks
         == b.store.pages[b.store.current].marks + [Stroke(Segment(ToPoint(b.anchor.value), ToPoint(at)), Ink(b), b.penSize)]
      && (forall i :: 0 <= i < |b.store.pages| && i != b.store.current ==> r.store.pages[i] == b.store.pages[i])
      && r.store.draws == b.store.draws
      && r.store.pages[b.store.current]
         == b.store.pages[b.store.current].(marks := b.store.pages[b.store.current].marks + [Stroke(Segment(ToPoint(b.anchor.value), ToPoint(at)), Ink(b), b.penSize)])
    ensures b.tool in {Pen, Eraser} && !Truthy(b.anchor) ==> r.store == b.store
    ensures b.tool == Text ==> r == b
  {
    if b.tool in {Pen, Eraser} then
      var store := if Truthy(b.anchor) then Pages.Commit(b.store, StrokeMark(b, b.anchor.value, at)) else b.store;
      b.(store := store, anchor := Some(at))
    else if IsShape(b.tool) then
      // with no anchor the handler fails while redrawing, before `current_shape_id` is reassigned
      if b.anchor.Some? then b.(preview := Some(Outline(t, b.tool, b.anchor.value, at)))
      else b
    else b
  }

  /** `on_button_release`: a shape tool with an anchor commits its outline
      to the current page; whatever the tool, the anchor is cleared. */
  function Release(t: Trig, b: Board, at: Pixel): (r: Board)
    requires Valid(b)
    ensures Valid(r)
    ensures r.anchor == None
    ensures r == b.(store := r.store, anchor := None)
    ensures IsShape(b.tool) && b.anchor.Some? ==>
      && r.store.current == b.store.current && |r.store.pages| == |b.store.pages|
      && r.store.pages[r.store.current].marks
         == b.store.pages[b.store.current].marks + [Stroke(Committed(t, b.tool, b.anchor.value, at), b.color, b.penSize)]
      && (forall i :: 0 <= i < |b.store.pages| && i != b.store.current ==> r.store.pages[i] == b.store.pages[i])
      && r.store.draws == b.store.draws
      && r.store.pages[b.store.current]
         == b.store.pages[b.store.current].(marks := b.store.pages[b.store.current].marks + [Stroke(Committed(t, b.tool, b.anchor.value, at), b.color, b.penSize)])
    ensures !(IsShape(b.tool) && b.anchor.Some?) ==> r.store == b.store
  {
    if IsShape(b.tool) && b.anchor.Some? then
      var mark := Stroke(Committed(t, b.tool, b.anchor.value, at), b.color, b.penSize);
      b.(store := Pages.Commit(b.store, mark), anchor := None)
    else
      // without an anchor the handler fails in `min` before committing anything
      b.(anchor := None)
  }

  // ---------------------------------------------------------------------
  // Menu actions
  // ---------------------------------------------------------------------

  /** The size dialog's answer is used only when it is a truthy integer:
      neither cancelled nor 0. */
  predicate Accepted(answer: Option<int>) {
    answer.Some? && answer.value != 0
  }

  /** `set_pen_size`, and `set_eraser_size` too: both menu entries store the
      one stroke width the pen and the eraser share. */
  function SetPenSize(b: Board, answer: Option<int>): (r: Board)
    ensures r.penSize == (if Accepted(answer) then answer.value else b.penSize)
    ensures r == b.(penSize := r.penSize)
  {
    if Accepted(answer) then b.(penSize := answer.value) else b
  }

  /** `set_font_size`: like the stroke width, only a truthy answer is kept. */
  function SetFontSize(b: Board, answer: Option<int>): (r: Board)
    ensures r.text.size == (if Accepted(answer) then answer.value else b.text.size)
    ensures r == b.(text := b.text.(size := r.text.size))
  {
    if Accepted(answer) then b.(text := b.text.(size := answer.value)) else b
  }

  /** `set_font_style`: a cancelled or empty answer leaves the style. */
  function SetFontStyle(b: Board, answer: Option<string>): (r: Board)
    ensures r.text.style == (if answer.Some? && answer.value != "" then answer.value else b.text.style)
    ensures r == b.(text := b.text.(style := r.text.style))
  {
    if answer.Some? && answer.value != "" then b.(text := b.text.(style := answer.value)) else b
  }

  // ---------------------------------------------------------------------
  // Event sequences
  // ---------------------------------------------------------------------

  /** One thing the event loop dispatches, with the answers of any dialogs
      it opens. */
  datatype Event =
    | PointerDown(at: Pixel, entered: Option<string>, fontLoads: bool)
    | PointerMove(at: Pixel)
    | PointerUp(at: Pixel)
    | ChooseTool(tool: Tool)
    | PenSize(answer: Option<int>)
    | EraserSize(answer: Option<int>)
    | FontSize(answer: Option<int>)
    | FontStyle(style: Option<string>)
    | NextPage
    | PreviousPage
    | ClearPage
    | OpenImage(path: string, readable: bool)

  function Step(t: Trig, b: Board, e: Event): (r: Board)
    requires Valid(b)
    ensures Valid(r)
    ensures e.NextPage? ==> |r.store.pages| <= |b.store.pages| + 1
    ensures !e.NextPage? ==> |r.store.pages| == |b.store.pages|
    ensures |r.store.pages| >= |b.store.pages|
  {
    match e
    case PointerDown(at, entered, fontLoads) => Press(b, at, entered, fontLoads)
    case PointerMove(at) => Motion(t, b, at)
    case PointerUp(at) => Release(t, b, at)
    case ChooseTool(tool) => b.(tool := tool)
    case PenSize(answer) => SetPenSize(b, answer)
    case EraserSize(answer) => SetPenSize(b, answer)
    case FontSize(answer) => SetFontSize(b, answer)
    case FontStyle(style) => SetFontStyle(b, style)
    case NextPage => b.(store := Pages.NextPage(b.store))
    case PreviousPage => b.(store := Pages.PreviousPage(b.store))
    case ClearPage => b.(store := Pages.ClearPage(b.store))
    case OpenImage(path, readable) => b.(store := Pages.OpenImage(b.store, path, readable))
  }

  /** How many "Next Page" actions a sequence of events holds. */
  function NextCount(events: seq<Event>): nat {
    if events == [] then 0 else (if events[0].NextPage? then 1 else 0) + NextCount(events[1..])
  }

  /** Dispatches the events in order. Whatever they are, the store stays
      valid, no page is ever removed, and only "Next Page" adds one. */
  function Run(t: Trig, b: Board, events: seq<Event>): (r: Board)
    requires Valid(b)
    ensures Valid(r)
    ensures |b.store.pages| <= |r.store.pages| <= |b.store.pages| + NextCount(events)
    decreases |events|
  {
    if events == [] then b else Run(t, Step(t, b, events[0]), events[1..])
  }

  // ---------------------------------------------------------------------
  // Properties
  // ---------------------------------------------------------------------

  /** The committed outline is the same whichever end of the drag was the
      press, for every shape but the line and the triangle, which use the
      two points as given. */
  lemma CommitIgnoresDragDirection(t: Trig, tool: Tool)
    requires IsShape(tool)
    ensures (forall a, p :: Committed(t, tool, a, p) == Committed(t, tool, p, a)) <==> tool !in {Line, Triangle}
  {
    if tool in {Line, Triangle} {
      var a, p := Pixel(0, 0), Pixel(2, 4);
      if tool == Line {
        assert Committed(t, tool, a, p).from != Committed(t, tool, p, a).from;
      } else {
        assert Committed(t, tool, a, p).vertices[0] != Committed(t, tool, p, a).vertices[0];
      }
    } else {
      forall a, p
        ensures Committed(t, tool, a, p) == Committed(t, tool, p, a)
      {
        var x0, y0, x1, y1 := a.x as real, a.y as real, p.x as real, p.y as real;
        RegularShapesIgnoreCornerOrder(t, x0, y0, x1, y1);
        assert Normalise(a, p) == Normalise(p, a);
      }
    }
  }

  /** Releasing where the last motion event was commits what the display
      previewed: exactly so for the line, pentagon, hexagon, triangle and
      star; for the rectangle and circle the same box with its corners
      ordered; for the cube only when the drag went right and down. */
  lemma CommitMatchesPreview(t: Trig, b: Board, at: Pixel)
    requires Valid(b) && IsShape(b.tool) && b.anchor.Some?
    ensures var shown := Motion(t, b, at).preview.value;
            var kept := Committed(t, b.tool, b.anchor.value, at);
      && (b.tool !in {Rectangle, Circle, Cube} ==> kept == shown)
      && (b.tool in {Rectangle, Circle} ==>
            (&& kept.corner == Point(Min(shown.corner.x, shown.opposite.x), Min(shown.corner.y, shown.opposite.y))
             && kept.opposite == Point(Max(shown.corner.x, shown.opposite.x), Max(shown.corner.y, shown.opposite.y))))
      && (b.tool == Cube ==> (kept == shown <==> b.anchor.value.x <= at.x && b.anchor.value.y <= at.y))
  {
  }

  /** A rectangle dragged between (50,50) and (150,120) commits the box
      (50,50)-(150,120), whichever way the drag went. */
  lemma RectangleExample(t: Trig)
    ensures Committed(t, Rectangle, Pixel(150, 120), Pixel(50, 50)) == Rect(Point(50.0, 50.0), Point(150.0, 120.0))
    ensures Committed(t, Rectangle, Pixel(50, 50), Pixel(150, 120)) == Rect(Point(50.0, 50.0), Point(150.0, 120.0))
  {
  }

  /** Cancelling the text prompt, or entering nothing, leaves the pages,
      the tool and everything else as they were. */
  lemma CancelledTextChangesNothing(b: Board, at: Pixel, entered: Option<string>, fontLoads: bool)
    requires Valid(b) && b.tool == Text
    requires entered == None || entered == Some("")
    ensures Press(b, at, entered, fontLoads) == b
  {
  }

  /** Applies the motion handler to each point in turn. */
  function Drag(t: Trig, b: Board, points: seq<Pixel>): (r: Board)
    requires Valid(b)
    ensures Valid(r)
    decreases |points|
  {
    if points == [] then b else Drag(t, Motion(t, b, points[0]), points[1..])
  }

  /** The segments of the path from `start` through `points`. */
  function Path(b: Board, start: Pixel, points: seq<Pixel>): (r: seq<Mark>)
    ensures |r| == |points|
    ensures forall i :: 0 <= i < |points| ==> r[i] == StrokeMark(b, if i == 0 then start else points[i - 1], points[i])
    decreases |points|
  {
    if points == [] then [] else [StrokeMark(b, start, points[0])] + Path(b, points[0], points[1..])
  }

  /** A freehand drag away from the 0 lines commits one segment per motion
      event, each starting where the previous one ended, to the current
      page and no other. */
  lemma {:induction false} DragDrawsConnectedPath(t: Trig, b: Board, start: Pixel, points: seq<Pixel>)
    requires Valid(b) && b.tool in {Pen, Eraser} && b.anchor == Some(start)
    requires start.x != 0 && start.y != 0
    requires forall i :: 0 <= i < |points| ==> points[i].x != 0 && points[i].y != 0
    ensures var r := Drag(t, b, points);
      && r.store.current == b.store.current && |r.store.pages| == |b.store.pages|
      && r.store.pages[r.store.current].marks == b.store.pages[b.store.current].marks + Path(b, start, points)
      && (forall i :: 0 <= i < |b.store.pages| && i != b.store.current ==> r.store.pages[i] == b.store.pages[i])
    decreases |points|
  {
    if points != [] {
      var b1 := Motion(t, b, points[0]);
      assert b1.anchor == Some(points[0]);
      DragDrawsConnectedPath(t, b1, points[0], points[1..]);
      assert Path(b1, points[0], points[1..]) == Path(b, points[0], points[1..]) by {
        PathDependsOnInkAndWidth(b1, b, points[0], points[1..]);
      }
      assert Path(b, start, points) == [StrokeMark(b, start, points[0])] + Path(b, points[0], points[1..]);
    }
  }

  /** A path depends on the board only through its ink and width. */
  lemma {:induction false} PathDependsOnInkAndWidth(b: Board, c: Board, start: Pixel, points: seq<Pixel>)
    requires Ink(b) == Ink(c) && b.penSize == c.penSize
    ensures Path(b, start, points) == Path(c, start, points)
    decreases |points|
  {
    if points != [] {
      PathDependsOnInkAndWidth(b, c, points[0], points[1..]);
    }
  }

  /** A press on either 0 line anchors a stroke whose first segment is then
      skipped: the handler tests the coordinates for truthiness, not for
      being set. */
  lemma ZeroAnchorSkipsFirstSegment(t: Trig, b: Board, start: Pixel, next: Pixel)
    requires Valid(b) && b.tool in {Pen, Eraser} && (start.x == 0 || start.y == 0)
    ensures Motion(t, Press(b, start, None, false), next).store == b.store
    ensures Motion(t, Press(b, start, None, false), next).anchor == Some(next)
  {
  }

  /** The eraser's segment is white whatever colour is chosen: erasing
      paints the background colour over the page. */
  lemma EraserPaintsWhite(t: Trig, b: Board, at: Pixel)
    requires Valid(b) && b.tool == Eraser && Truthy(b.anchor)
    ensures var marks := Motion(t, b, at).store.pages[b.store.current].marks;
      && |marks| == |b.store.pages[b.store.current].marks| + 1
      && marks[|marks| - 1].color == White
  {
  }

  /** A whole shape gesture from press through one motion to release at the
      same point: the display shows the raw outline, the current page gains
      exactly the committed outline, no other page changes, and the gesture
      ends with no anchor. */
  lemma ShapeGesture(t: Trig, b: Board, press: Pixel, release: Pixel)
    requires Valid(b) && IsShape(b.tool)
    ensures var r := Release(t, Motion(t, Press(b, press, None, false), release), release);
      && r.anchor == None
      && r.preview == Some(Outline(t, b.tool, press, release))
      && r.store.current == b.store.current && |r.store.pages| == |b.store.pages|
      && r.store.pages[r.store.current].marks
         == b.store.pages[b.store.current].marks + [Stroke(Committed(t, b.tool, press, release), b.color, b.penSize)]
      && (forall i :: 0 <= i < |b.store.pages| && i != b.store.current ==> r.store.pages[i] == b.store.pages[i])
  {
  }

  /** A cancelled or 0 answer is no answer at all, and giving the same
      answer twice is the same as giving it once. */
  lemma SettersIgnoreCancel(b: Board, answer: Option<int>, style: Option<string>)
    ensures SetPenSize(b, None) == SetPenSize(b, Some(0)) == b
    ensures SetFontSize(b, None) == SetFontSize(b, Some(0)) == b
    ensures SetFontStyle(b, None) == SetFontStyle(b, Some("")) == b
    ensures SetPenSize(SetPenSize(b, answer), answer) == SetPenSize(b, answer)
    ensures SetFontSize(SetFontSize(b, answer), answer) == SetFontSize(b, answer)
    ensures SetFontStyle(SetFontStyle(b, style), style) == SetFontStyle(b, style)
  {
  }

  /** The eraser size and the pen size are one setting: after either menu
      entry accepts a size, the next pen stroke is drawn that wide. */
  lemma EraserSizeIsPenWidth(t: Trig, b: Board, n: int, from: Pixel, to: Pixel)
    requires Valid(b) && n != 0 && from.x != 0 && from.y != 0
    ensures var sized := Step(t, b, EraserSize(Some(n)));
            var pen := sized.(tool := Pen, anchor := Some(from));
            var r := Motion(t, pen, to);
      r.store.pages[r.store.current].marks[|r.store.pages[r.store.current].marks| - 1].width == n
  {
  }

}
