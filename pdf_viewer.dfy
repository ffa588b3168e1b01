/**
 * `PDFViewer`: a page counter over a fixed page count and a zoom level,
 * each moved by guarded steps. The state is modelled as a value with one
 * function per handler, and as an object whose handler methods follow those
 * functions.
 */
module PdfViewer {

  /** `useState(10)`: the demo page count, never changed. */
  const TotalPages: int := 10
  const MinZoom: int := 50
  const MaxZoom: int := 200
  const ZoomStep: int := 25

  datatype PdfState = PdfState(currentPage: int, zoom: int)

  /** `useState(1)` and `useState(100)`. */
  const Initial: PdfState := PdfState(1, 100)

  /** Page within the document, zoom within its range and on the 25% grid. */
  predicate Valid(s: PdfState)
  {
    && 1 <= s.currentPage <= TotalPages
    && MinZoom <= s.zoom <= MaxZoom
    && s.zoom % ZoomStep == 0
  }

  /** `handlePrevPage`. */
  function PrevPage(s: PdfState): PdfState
  {
    if s.currentPage > 1 then s.(currentPage := s.currentPage - 1) else s
  }

  /** `handleNextPage`. */
  function NextPage(s: PdfState): PdfState
  {
    if s.currentPage < TotalPages then s.(currentPage := s.currentPage + 1) else s
  }

  /** `handleZoomIn`. */
  function ZoomIn(s: PdfState): PdfState
  {
    if s.zoom < MaxZoom then s.(zoom := s.zoom + ZoomStep) else s
  }

  /** `handleZoomOut`. */
  function ZoomOut(s: PdfState): PdfState
  {
    if s.zoom > MinZoom then s.(zoom := s.zoom - ZoomStep) else s
  }

  /** The next button's `disabled={currentPage >= totalPages}`. */
  predicate NextDisabled(s: PdfState)
  {
    s.currentPage >= TotalPages
  }

  /** The previous button's `disabled={currentPage <= 1}`. */
  predicate PrevDisabled(s: PdfState)
  {
    s.currentPage <= 1
  }

  lemma InitialValid()
    ensures Valid(Initial)
  {
  }

  /** Every handler keeps the viewer's state valid. */
  lemma HandlersPreserveValid(s: PdfState)
    requires Valid(s)
    ensures Valid(PrevPage(s)) && Valid(NextPage(s)) && Valid(ZoomIn(s)) && Valid(ZoomOut(s))
  {
  }

  /** Page steps leave the zoom alone; zoom steps leave the page alone. */
  lemma StepsAreIndependent(s: PdfState)
    ensures PrevPage(s).zoom == s.zoom && NextPage(s).zoom == s.zoom
    ensures ZoomIn(s).currentPage == s.currentPage && ZoomOut(s).currentPage == s.currentPage
  {
  }

  /** A button is disabled exactly when pressing it would change nothing (on a valid state). */
  lemma DisabledIffNoOp(s: PdfState)
    requires Valid(s)
    ensures NextDisabled(s) <==> NextPage(s) == s
    ensures PrevDisabled(s) <==> PrevPage(s) == s
  {
  }

  /** On a valid state, a page step is undone by the opposite step whenever it moved. */
  lemma PageStepsInverse(s: PdfState)
    requires Valid(s)
    ensures NextPage(s) != s ==> PrevPage(NextPage(s)) == s
    ensures PrevPage(s) != s ==> NextPage(PrevPage(s)) == s
  {
  }

  /** On a valid state, a zoom step is undone by the opposite step whenever it moved. */
  lemma ZoomStepsInverse(s: PdfState)
    requires Valid(s)
    ensures ZoomIn(s) != s ==> ZoomOut(ZoomIn(s)) == s
    ensures ZoomOut(s) != s ==> ZoomIn(ZoomOut(s)) == s
  {
  }

  /** `n` presses of the next-page button. */
  function NextPages(s: PdfState, n: nat): PdfState
  {
    if n == 0 then s else NextPage(NextPages(s, n - 1))
  }

  /** `n` presses of the zoom-in button. */
  function ZoomIns(s: PdfState, n: nat): PdfState
  {
    if n == 0 then s else ZoomIn(ZoomIns(s, n - 1))
  }

  /** From the first page, `n` next presses reach page `n + 1`, stopping at the last page. */
  lemma {:induction false} NextPagesReach(s: PdfState, n: nat)
    requires s.currentPage == 1
    ensures NextPages(s, n) == s.(currentPage := if n + 1 < TotalPages then n + 1 else TotalPages)
  {
    if n > 0 {
      NextPagesReach(s, n - 1);
    }
  }

  /** From the minimum zoom, `n` zoom-in presses reach `50 + 25n`, stopping at 200. */
  lemma {:induction false} ZoomInsReach(s: PdfState, n: nat)
    requires s.zoom == MinZoom
    ensures ZoomIns(s, n) == s.(zoom := if MinZoom + ZoomStep * n < MaxZoom then MinZoom + ZoomStep * n else MaxZoom)
  {
    if n > 0 {
      ZoomInsReach(s, n - 1);
    }
  }

  /** `n` presses of the zoom-out button. */
  function ZoomOuts(s: PdfState, n: nat): PdfState
  {
    if n == 0 then s else ZoomOut(ZoomOuts(s, n - 1))
  }

  /** From 100%, two zoom-out presses reach the minimum zoom, and further presses stay there. */
  lemma {:induction false} ZoomOutsFloor(s: PdfState, n: nat)
    requires s.zoom == 100
    ensures ZoomOuts(s, n).zoom == if n == 0 then 100 else if n == 1 then 75 else MinZoom
    ensures ZoomOuts(s, n).currentPage == s.currentPage
  {
    if n > 0 {
      ZoomOutsFloor(s, n - 1);
    }
  }

  /** Every valid state is reachable from the initial one by the handlers. */
  lemma ValidReachable(t: PdfState)
    requires Valid(t)
    ensures NextPages(ZoomIns(ZoomOuts(Initial, 2), (t.zoom - MinZoom) / ZoomStep), t.currentPage - 1) == t
  {
    var z := ZoomOuts(Initial, 2);
    ZoomOutsFloor(Initial, 2);
    var n := (t.zoom - MinZoom) / ZoomStep;
    ZoomInsReach(z, n);
    var y := ZoomIns(z, n);
    assert y.zoom == t.zoom;
    NextPagesReach(y, t.currentPage - 1);
  }

  /** The viewer's state as an object: the two `useState` fields updated in place. */
  class Viewer {
    var currentPage: int
    var zoom: int

    function State(): PdfState
      reads this
    {
      PdfState(currentPage, zoom)
    }

    constructor()
      ensures State() == Initial
    {
      currentPage := 1;
      zoom := 100;
    }

    method HandlePrevPage()
      modifies this
      ensures State() == PrevPage(old(State()))
      ensures Valid(old(State())) ==> Valid(State())
    {
      if currentPage > 1 {
        currentPage := currentPage - 1;
      }
    }

    method HandleNextPage()
      modifies this
      ensures State() == NextPage(old(State()))
      ensures Valid(old(State())) ==> Valid(State())
    {
      if currentPage < TotalPages {
        currentPage := currentPage + 1;
      }
    }

    method HandleZoomIn()
      modifies this
      ensures State() == ZoomIn(old(State()))
      ensures Valid(old(State())) ==> Valid(State())
    {
      if zoom < MaxZoom {
        zoom := zoom + ZoomStep;
      }
    }

    method HandleZoomOut()
      modifies this
      ensures State() == ZoomOut(old(State()))
      ensures Valid(old(State())) ==> Valid(State())
    {
      if zoom > MinZoom {
        zoom := zoom - ZoomStep;
      }
    }
  }

}
