/** The page store and navigator: a list of page images, a parallel list of
    drawing contexts (one bound to each image), and the index of the page on
    screen. */
module Pages {

  import opened Options
  import opened Marks

  /** What a page image was created from: a fresh white canvas, or an image
      file stretched to the canvas size. */
  datatype Background = Blank | Picture(source: string)

  /** A page image. `surface` identifies the image object, so that a drawing
      context can say which image it paints onto. */
  datatype Page = Page(surface: nat, background: Background, marks: seq<Mark>)

  /** A drawing context, bound to one image object. */
  datatype Context = Context(surface: nat)

  /** `pages` and `draws` are the two parallel lists; `nextSurface` is a surface id
      no image has used yet. */
  datatype Store = Store(pages: seq<Page>, draws: seq<Context>, current: nat, nextSurface: nat)

  /** The store's invariant: the lists have equal length, the index is in
      range, context i paints onto image i, and no two images share a
      surface id. */
  predicate Valid(s: Store) {
    && |s.pages| == |s.draws|
    && s.current < |s.pages|
    && (forall i :: 0 <= i < |s.pages| ==> s.draws[i].surface == s.pages[i].surface)
    && (forall i :: 0 <= i < |s.pages| ==> s.pages[i].surface < s.nextSurface)
    && (forall i, j :: 0 <= i < j < |s.pages| ==> s.pages[i].surface != s.pages[j].surface)
  }

  /** A new white page on a surface nobody uses yet. */
  function BlankPage(surface: nat): Page {
    Page(surface, Blank, [])
  }

  /** The store the application starts with: one blank page, on screen. */
  function Init(): (s: Store)
    ensures Valid(s)
    ensures |s.pages| == 1 && s.current == 0
    ensures s.pages[0].background == Blank && s.pages[0].marks == []
  {
    Store([BlankPage(0)], [Context(0)], 0, 1)
  }

  /** Paints `m` through the current page's drawing context: it lands on
      the image that context is bound to, which is the current page and no
      other. */
  function Commit(s: Store, m: Mark): (r: Store)
    requires Valid(s)
    ensures Valid(r)
    ensures |r.pages| == |s.pages| && r.draws == s.draws && r.current == s.current && r.nextSurface == s.nextSurface
    ensures r.pages[s.current] == s.pages[s.current].(marks := s.pages[s.current].marks + [m])
    ensures forall i :: 0 <= i < |s.pages| && i != s.current ==> r.pages[i] == s.pages[i]
  {
    var target := s.draws[s.current].surface;
    var pages := seq(|s.pages|, i requires 0 <= i < |s.pages| =>
      if s.pages[i].surface == target then s.pages[i].(marks := s.pages[i].marks + [m]) else s.pages[i]);
    s.(pages := pages)
  }

  /** Puts a new image in place of the current page and binds a new drawing
      context to it. */
  function Replace(s: Store, background: Background): (r: Store)
    requires Valid(s)
    ensures Valid(r)
    ensures |r.pages| == |s.pages| && r.current == s.current
    ensures r.pages[s.current] == Page(s.nextSurface, background, [])
    ensures forall i :: 0 <= i < |s.pages| && i != s.current ==> r.pages[i] == s.pages[i] && r.draws[i] == s.draws[i]
  {
    var page := Page(s.nextSurface, background, []);
    Store(s.pages[s.current := page], s.draws[s.current := Context(page.surface)], s.current, s.nextSurface + 1)
  }

  /** `clear_page`: the current page becomes a blank white page. */
  function ClearPage(s: Store): (r: Store)
    requires Valid(s)
    ensures Valid(r)
    ensures |r.pages| == |s.pages| && r.current == s.current
    ensures r.pages[r.current].background == Blank && r.pages[r.current].marks == []
    ensures forall i :: 0 <= i < |s.pages| && i != s.current ==> r.pages[i] == s.pages[i]
  {
    Replace(s, Blank)
  }

  /** `open_image`: `path` is the file dialog's answer ("" when cancelled)
      and `readable` whether the image library could open that file. Only a
      successful open replaces the current page; otherwise nothing changes. */
  function OpenImage(s: Store, path: string, readable: bool): (r: Store)
    requires Valid(s)
    ensures Valid(r)
    ensures |r.pages| == |s.pages| && r.current == s.current
    ensures path != "" && readable ==>
      r.pages[r.current].background == Picture(path) && r.pages[r.current].marks == []
    ensures path == "" || !readable ==> r == s
    ensures forall i :: 0 <= i < |s.pages| && i != s.current ==> r.pages[i] == s.pages[i]
  {
    if path != "" && readable then Replace(s, Picture(path)) else s
  }

  /** `next_page`: moves one page on, first creating a blank page when the
      current page is the last one. */
  function NextPage(s: Store): (r: Store)
    requires Valid(s)
    ensures Valid(r)
    ensures r.current == s.current + 1
    ensures |r.pages| == |s.pages| + (if s.current == |s.pages| - 1 then 1 else 0)
    ensures r.pages[..|s.pages|] == s.pages
    ensures s.current == |s.pages| - 1 ==> r.pages[r.current].background == Blank && r.pages[r.current].marks == []
  {
    var current := s.current + 1;
    if current >= |s.pages| then
      var pages := s.pages + [BlankPage(s.nextSurface)];
      Store(pages, s.draws + [Context(pages[current].surface)], current, s.nextSurface + 1)
    else
      s.(current := current)
  }

  /** `previous_page`: moves one page back, staying put on the first page. */
  function PreviousPage(s: Store): (r: Store)
    requires Valid(s)
    ensures Valid(r)
    ensures r.pages == s.pages && r.draws == s.draws
    ensures s.current > 0 ==> r.current == s.current - 1
    ensures s.current == 0 ==> r == s
  {
    if s.current > 0 then s.(current := s.current - 1) else s
  }

  /** Going back undoes going forward, except that a page created on the
      way stays. */
  lemma PreviousUndoesNext(s: Store)
    requires Valid(s)
    ensures PreviousPage(NextPage(s)).current == s.current
    ensures PreviousPage(NextPage(s)).pages[..|s.pages|] == s.pages
  {
  }

  /** Going forward exactly undoes going back from any page but the first. */
  lemma NextUndoesPrevious(s: Store)
    requires Valid(s) && s.current > 0
    ensures NextPage(PreviousPage(s)) == s
  {
  }

  /** Clearing discards whatever was committed to the current page before. */
  lemma ClearDiscardsMarks(s: Store, m: Mark)
    requires Valid(s)
    ensures ClearPage(Commit(s, m)) == ClearPage(s)
  {
  }

  /** The document `save_as_pdf` writes: every page, in index order. */
  datatype Document = Document(path: string, pages: seq<Page>, resolution: real)

  /** `save_as_pdf`: `path` is the save dialog's answer ("" when cancelled)
      and `writable` whether the image library could write that file; a
      failed write raises and leaves no document. The first page is the base
      of the document and the rest are appended after it, so the document
      holds all pages in order. */
  function SaveAsPdf(s: Store, path: string, writable: bool): (r: Option<Document>)
    requires Valid(s)
    ensures r.Some? <==> path != "" && writable
    ensures r.Some? ==> r.value.path == path && r.value.pages == s.pages
  {
    if path != "" && writable then Some(Document(path, [s.pages[0]] + s.pages[1..], 100.0)) else None
  }

}
