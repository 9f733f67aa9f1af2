# Whiteboard core, modelled in Dafny

The whiteboard is a desktop drawing application: a canvas backed by one raster
image per page, a tool selector (pen, eraser, eight shapes, text) and page
navigation. This project models its pure core:

- `geometry.dfy` (module `Geometry`): the shape generators `get_cube_coords`,
  `get_triangle_coords`, `get_pentagon_coords`, `get_hexagon_coords` and
  `get_star_coords`, over exact `real` coordinates. `math.pi`, `math.cos` and
  `math.sin` are not computed: they are a `Trig` record passed in, and facts
  that need cos² + sin² = 1 assume it as `Pythagorean(t)`.
- `marks.dfy` (module `Marks`): what a drawing context commits to a page
  (segments, rectangles, ellipses, polygons, text labels). A page keeps its
  list of committed marks in place of pixels.
- `pages.dfy` (module `Pages`): the page store, which is the parallel lists
  `pages` and `draws` plus `current_page`. Its invariant `Valid` says:
  - the two lists have equal length;
  - the index is in range;
  - context i paints onto image i;
  - no two images share a surface.
  It also models `next_page`, `previous_page`, `clear_page`, `open_image` and
  the page order `save_as_pdf` writes.
- `whiteboard.dfy` (module `Whiteboard`): the application state and the
  handlers `on_button_press`, `paint`, `on_button_release` and `add_text`,
  plus the size and style setters. Each is a pure transition. Dialog answers,
  and whether a font or image file loads, are parameters. A sequence of
  events can be run, and the invariant holds throughout.
- `options.dfy` (module `Options`): the `Option` type for dialog answers and
  the gesture anchor.

The model keeps the code's behaviour, quirks included:
- Only the rectangle, circle and cube commit the normalised box. The line,
  pentagon, hexagon, triangle and star commit the raw press and release
  points.
- The cube's list ends with the bottom-left corner p4 = (x0,y1), so it is
  closed only when y0 = y1 (`CubeEndsWhereItStarts`). The polygon call
  closes it when drawn.
- The triangle's apex is at y = min(y0, y1), the top edge of the box, so a
  triangle dragged upward is flat (`TriangleFlatIffDraggedUp`).
- A pen or eraser segment is skipped when an anchor coordinate is 0, because
  the code tests the coordinates for truthiness.
- The text tool falls back to the pen only after non-empty text was placed
  with a font that loaded.
- Release leaves `current_shape_id` as it is, so the preview stays.
- A size answer of 0 is ignored like a cancel, while negative sizes are kept.

## Model

| member | source | states |
|---|---|---|
| `Geometry.Centre` | ai-ml-whiteboard.py:171-172 | the centre lies inside the box and is equally far from both edges on each axis |
| `Geometry.Radius` | ai-ml-whiteboard.py:173 | the radius is non-negative, at most half of each side, and exactly half of the smaller side |
| `Geometry.VertexOnCircle` | ai-ml-whiteboard.py:178-179 | with cos² + sin² = 1, the point computed at any angle lies at distance radius from the centre |
| `Geometry.CubeCorner` | ai-ml-whiteboard.py:156-165 | p1..p4 are the box corners (x0,y0), (x1,y0), (x1,y1), (x0,y1); p5..p8 are p1..p4 shifted by (+width/2, −height/2) |
| `Geometry.CubeCoords` | ai-ml-whiteboard.py:150-168 | exactly 16 points; point i is corner CubeOrder[i]; points 0 and 8 are (x0,y0); the last point is p4 = (x0,y1) |
| `Geometry.CubeVisitsEachCornerTwice` | ai-ml-whiteboard.py:168 | each of the 8 corners occurs exactly once in the first 8 points and twice in all 16; no other label occurs |
| `Geometry.CubeDrawsEveryBoxEdge` | ai-ml-whiteboard.py:168 | drawn as a closed polygon, the 16 points draw exactly the 12 box edges (front face, back face, four joining edges) |
| `Geometry.CubeEndsWhereItStarts` | ai-ml-whiteboard.py:156-168 | the last point equals the first iff y0 = y1; otherwise the list is open and the polygon call closes it |
| `Geometry.CubeDependsOnCornerOrder` | ai-ml-whiteboard.py:150-165 | swapping the two corners changes the cube outline |
| `Geometry.TriangleCoords` | ai-ml-whiteboard.py:195-205 | exactly 3 points: (x0,y1), (x1,y1) and an apex at x = (x0+x1)/2, y = min(y0,y1) |
| `Geometry.TriangleFlatIffDraggedUp` | ai-ml-whiteboard.py:196-204 | all three points share y = y1 iff y1 ≤ y0; when y0 < y1 the apex lies strictly above the base |
| `Geometry.RingStep` | ai-ml-whiteboard.py:174-189 | consecutive pentagon angles differ by 2π/5; consecutive hexagon angles differ by radians(60) |
| `Geometry.RingLoop` | ai-ml-whiteboard.py:175-180 | after n loop iterations the list has n points; point i lies at angle i on the circle around the centre |
| `Geometry.PentagonCoords` | ai-ml-whiteboard.py:170-181 | exactly 5 points; the first is at angle π/2 (the top); point i is at π/2 + 2πi/5 around the box centre at the box radius |
| `Geometry.HexagonCoords` | ai-ml-whiteboard.py:183-193 | exactly 6 points; the first is at angle 0; point i is at radians(60·i) around the box centre at the box radius |
| `Geometry.RingOnCircle` | ai-ml-whiteboard.py:176-180 | with cos² + sin² = 1, every pentagon or hexagon point lies at squared distance radius² from the centre |
| `Geometry.StarLoop` | ai-ml-whiteboard.py:214-223 | after n iterations there are 2n points; point 2k is at the outer angle of k and radius r; point 2k+1 is at that angle + π/5 and radius r/2 |
| `Geometry.StarCoords` | ai-ml-whiteboard.py:207-224 | exactly 10 points, alternating outer radius r and inner radius r/2; each inner angle is the preceding outer angle + π/5 |
| `Geometry.StarAlternatesRadii` | ai-ml-whiteboard.py:210-223 | with cos² + sin² = 1, even points lie on the circle of radius r and odd points on the circle of radius r/2 |
| `Geometry.RegularShapesIgnoreCornerOrder` | ai-ml-whiteboard.py:170-224 | the pentagon, hexagon and star are unchanged when the corners are swapped, when the other diagonal is used, or when the corners are normalised |
| `Pages.Init` | ai-ml-whiteboard.py:13-15 | the store starts valid, with one blank page and index 0 |
| `Pages.Commit` | ai-ml-whiteboard.py:131-147 | a mark drawn through draws[current] is appended to the current page only; lengths, contexts and index are unchanged, and the store stays valid |
| `Pages.Replace` | ai-ml-whiteboard.py:243-244 | a new image on an unused surface replaces pages[current] and draws[current]; every other page and context stays, and the store stays valid |
| `Pages.ClearPage` | ai-ml-whiteboard.py:242-245 | the current page becomes blank with no marks; the other pages and the length are unchanged |
| `Pages.ClearDiscardsMarks` | ai-ml-whiteboard.py:242-245 | clearing after a commit gives the same store as clearing without it |
| `Pages.OpenImage` | ai-ml-whiteboard.py:252-258 | a chosen, readable file replaces only the current page with that picture and no marks; a cancelled dialog or unreadable file changes nothing |
| `Pages.NextPage` | ai-ml-whiteboard.py:260-265 | the index goes up by one; exactly one blank page is appended iff the old index was the last; existing pages are kept; the store stays valid |
| `Pages.PreviousPage` | ai-ml-whiteboard.py:267-270 | the index goes down by one when above 0 and is a no-op at page 0; pages and contexts never change |
| `Pages.PreviousUndoesNext` | ai-ml-whiteboard.py:260-270 | previous after next restores the index and keeps every earlier page |
| `Pages.NextUndoesPrevious` | ai-ml-whiteboard.py:260-270 | from any page but the first, next after previous restores the exact store |
| `Pages.SaveAsPdf` | ai-ml-whiteboard.py:247-250 | a document is written iff a path was chosen and the write succeeds; it holds every page in index order, with page 0 as the base |
| `Whiteboard.Init` | ai-ml-whiteboard.py:13-29 | the board starts valid with the black pen of width 2, no anchor, Arial 20 normal, and one empty page |
| `Whiteboard.Normalise` | ai-ml-whiteboard.py:129-130 | the normalised corners are ordered and use the same x values and the same y values as the two input points |
| `Whiteboard.AddText` | ai-ml-whiteboard.py:289-297 | non-empty text with a loadable font adds one label to the current page only and switches to the pen; colour, width, text options, contexts and the page's surface and background stay; otherwise the board is unchanged |
| `Whiteboard.Press` | ai-ml-whiteboard.py:120-125 | a non-text press only sets the anchor to the press point and clears the preview; a text press leaves anchor and preview alone |
| `Whiteboard.Ink` | ai-ml-whiteboard.py:84-93 | the eraser paints white whatever the current colour; the pen paints the current colour |
| `Whiteboard.EraserPaintsWhite` | ai-ml-whiteboard.py:88-94 | an eraser motion from a truthy anchor appends exactly one mark to the current page, and its colour is white whatever colour is chosen |
| `Whiteboard.Motion` | ai-ml-whiteboard.py:80-118 | shape tools change only the preview (the outline from anchor to pointer), never a page or the anchor, and without an anchor change nothing; pen and eraser move the anchor to the pointer and append the segment from the old anchor to the current page only if that anchor is truthy; the text tool changes nothing |
| `Whiteboard.Release` | ai-ml-whiteboard.py:127-148 | the anchor is always cleared and only the store may change; a shape tool with an anchor appends exactly its committed outline to the current page |
| `Whiteboard.SetPenSize` | ai-ml-whiteboard.py:232-240 | the pen and eraser setters change the one shared width, and only for a truthy answer; cancel or 0 leaves it |
| `Whiteboard.SetFontSize` | ai-ml-whiteboard.py:279-282 | the text size changes only for a truthy answer; nothing else changes |
| `Whiteboard.SetFontStyle` | ai-ml-whiteboard.py:284-287 | the text style changes only for a non-empty answer; nothing else changes |
| `Whiteboard.Step` | ai-ml-whiteboard.py:32-78 | every dispatched event keeps the store valid; only "Next Page" can add a page, at most one, and no event removes one |
| `Whiteboard.Run` | ai-ml-whiteboard.py:32-34 | over any event sequence the store stays valid and the page count grows by at most the number of "Next Page" events |
| `Whiteboard.CommitIgnoresDragDirection` | ai-ml-whiteboard.py:128-147 | the committed outline is the same from either end of the drag iff the tool is neither the line nor the triangle |
| `Whiteboard.CommitMatchesPreview` | ai-ml-whiteboard.py:95-147 | release commits the preview exactly for line, pentagon, hexagon, triangle and star; the ordered preview box for rectangle and circle; the preview cube iff the drag went right and down |
| `Whiteboard.RectangleExample` | ai-ml-whiteboard.py:129-132 | a rectangle dragged either way between (50,50) and (150,120) commits the box (50,50)-(150,120) |
| `Whiteboard.CancelledTextChangesNothing` | ai-ml-whiteboard.py:289-291 | with the text tool, a cancelled or empty prompt leaves the whole board unchanged |
| `Whiteboard.ShapeGesture` | ai-ml-whiteboard.py:95-148 | press, one motion and release at the same point: the preview is the raw outline, the current page gains exactly the committed outline, other pages are unchanged, and the anchor ends cleared |
| `Whiteboard.SettersIgnoreCancel` | ai-ml-whiteboard.py:232-287 | a cancelled or 0 size answer, or a cancelled or empty style answer, leaves the board unchanged; repeating an answer changes nothing more |
| `Whiteboard.EraserSizeIsPenWidth` | ai-ml-whiteboard.py:237-240 | a non-zero size accepted from the eraser entry is the width of the next pen stroke |
| `Whiteboard.Drag` | ai-ml-whiteboard.py:80-94 | a run of motion events keeps the store valid |
| `Whiteboard.Path` | ai-ml-whiteboard.py:83-87 | a path through n points has n segments; segment i runs from point i−1 (the start for i = 0) to point i, in the tool's ink and the pen width |
| `Whiteboard.DragDrawsConnectedPath` | ai-ml-whiteboard.py:80-94 | a pen or eraser drag away from the 0 lines appends, to the current page only, one segment per motion, each starting where the previous ended |
| `Whiteboard.ZeroAnchorSkipsFirstSegment` | ai-ml-whiteboard.py:81-94 | after a press on x = 0 or y = 0, the first pen or eraser motion commits nothing but still moves the anchor |

## Left out

- The tkinter display is not modelled: canvas items, `update_canvas`, event binding and the window. The preview is kept only as the figure last shown.
- Dialogs (`simpledialog`, `filedialog`, `colorchooser`) are not modelled. Each answer is a parameter: `None` or `""` for a cancel.
- `set_color` is left out. It stores whatever the colour chooser returns, including `None` on cancel, so it is dialog behaviour only. The colour is kept in the state, and the model never changes it.
- `set_tool` and `add_text_mode` only assign the tool. They appear as the `ChooseTool` event, with no member of their own.
- PIL is not modelled: rasterisation, `ImageFont.truetype`, `Image.open(...).resize` and the PDF encoder. A page is its background plus its list of committed marks. Whether the font or the image file loads, and whether the PDF file can be written, is a boolean parameter. A failed load leaves the state as it was when the library raised; a failed save produces no document.
- How PIL rasterises a segment of a given width, anti-aliasing, and the 1600×1200 pixel content are not modelled. Each committed stroke records its width, and a page records its marks, not its pixels.
- The numeric values of `math.pi`, `math.cos`, `math.sin` and `math.radians` are not modelled, and neither is floating-point rounding. Coordinates are exact reals.
- Geometry.RingStep: states the step between the angles passed to cos and sin, not the angle measured between the resulting vertices. Cos and sin are inputs, so that angle cannot be computed.
- Geometry.RingOnCircle: holds only under `Pythagorean(t)`, because nothing else about cos and sin is known.
- Geometry.StarAlternatesRadii: holds only under `Pythagorean(t)`, for the same reason.
- A shape-tool motion or release without an anchor raises an exception in the code. The model keeps the state at the point of the raise: `current_shape_id` still names the old preview and nothing is committed, so the board is unchanged apart from the cleared anchor on release. Normal event order never reaches this case.
- Whiteboard.Drag: its own contract says only that the store stays valid. What a drag commits is stated by `DragDrawsConnectedPath`.
