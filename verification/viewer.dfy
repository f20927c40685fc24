/**
 * The viewer component's state and its event handlers: page navigation, the
 * document-loaded callback, the two touch handlers and the keydown handler.
 * Each handler changes the component's state in place; the timers that later
 * hide the overlay and clear the alert are not part of this model.
 */
module Viewer {
  import opened Optional
  import opened Navigation
  import opened Gestures
  import opened Shortcuts

  class SecurePDFViewer {
    /** Page count reported by the document loader; `None` until it has loaded. */
    var numPages: Option<nat>
    var pageNumber: int
    /** Horizontal position of the touch in progress, if one was recorded. */
    var touchStart: Option<int>
    /** The "screenshot attempt detected" banner. */
    var screenCaptureAttempted: bool
    /** Whether the full-screen black overlay is displayed. */
    var overlayVisible: bool

    /** The page shown is a real page: 1 <= pageNumber <= `numPages || 1`. */
    ghost predicate Valid()
      reads this
    {
      1 <= pageNumber <= PageLimit(numPages)
    }

    /**
     * Mount: nothing loaded and page 1 (src/SecurePDFViewer.js:161-166), no
     * touch (line 319) and the overlay created hidden (line 190).
     */
    constructor ()
      ensures Valid()
      ensures numPages == None && pageNumber == 1 && touchStart == None
      ensures !screenCaptureAttempted && !overlayVisible
    {
      numPages := None;
      pageNumber := 1;
      touchStart := None;
      screenCaptureAttempted := false;
      overlayVisible := false;
    }

    /**
     * The loader's success callback: records the page count and leaves the
     * current page alone. The first load keeps the page valid, and so does a
     * reload that does not lower the page limit.
     */
    method OnDocumentLoadSuccess(n: nat)
      modifies this`numPages
      ensures numPages == Some(n) && pageNumber == old(pageNumber)
      // the first load, the special case of the next clause with a limit of 1 before it
      ensures old(Valid()) && old(numPages) == None ==> Valid()
      ensures old(Valid()) && PageLimit(old(numPages)) <= PageLimit(numPages) ==> Valid()
    {
      numPages := Some(n);
    }

    /** One page back, never below the first; a no-op on page 1. */
    method GoToPrevPage()
      modifies this`pageNumber
      ensures pageNumber == PrevPage(old(pageNumber))
      ensures old(pageNumber) == 1 ==> pageNumber == 1
      ensures old(Valid()) ==> Valid()
    {
      pageNumber := PrevPage(pageNumber);
    }

    /** One page forward, never past `numPages || 1`; a no-op on the last page. */
    method GoToNextPage()
      modifies this`pageNumber
      ensures pageNumber == NextPage(old(pageNumber), numPages)
      ensures old(pageNumber) == PageLimit(numPages) ==> pageNumber == old(pageNumber)
      ensures old(Valid()) ==> Valid()
    {
      pageNumber := NextPage(pageNumber, numPages);
    }

    /** A touch begins at horizontal position `x`. */
    method HandleTouchStart(x: int)
      modifies this`touchStart
      ensures touchStart == Some(x)
    {
      touchStart := Some(x);
    }

    /**
     * A touch ends at horizontal position `x`. Without a recorded start (or
     * with a start at 0, which reads as none) nothing changes at all, not even
     * the recorded start. Otherwise a swipe of more than 50 turns exactly one
     * page in its direction, anything shorter turns none, and the recorded
     * start is cleared in every case.
     */
    method HandleTouchEnd(x: int)
      modifies this`pageNumber, this`touchStart
      ensures !Recorded(old(touchStart)) ==>
                pageNumber == old(pageNumber) && touchStart == old(touchStart)
      ensures Recorded(old(touchStart)) ==> touchStart == None
      ensures Recorded(old(touchStart)) ==>
                match ClassifySwipe(old(touchStart).value, x)
                case SwipeLeft => pageNumber == NextPage(old(pageNumber), numPages)
                case SwipeRight => pageNumber == PrevPage(old(pageNumber))
                case NoSwipe => pageNumber == old(pageNumber)
      ensures old(Valid()) ==> Valid()
    {
      if !Recorded(touchStart) {
        return;
      }
      var diff := touchStart.value - x;
      if Abs(diff) > SwipeThreshold {
        if diff > 0 {
          GoToNextPage();
        } else {
          GoToPrevPage();
        }
      }
      touchStart := None;
    }

    /**
     * The keydown handler. Returns whether the event's default action was
     * cancelled; raises the alert and shows the overlay as the decision table
     * says, and never lowers either.
     */
    method HandleKeyDown(e: KeyEvent) returns (defaultPrevented: bool)
      modifies this`screenCaptureAttempted, this`overlayVisible
      ensures defaultPrevented == Response(Classify(e)).preventDefault
      ensures screenCaptureAttempted == (old(screenCaptureAttempted) || Response(Classify(e)).raiseAlert)
      ensures overlayVisible == (old(overlayVisible) || Response(Classify(e)).showOverlay)
    {
      defaultPrevented := false;
      if IsPrintOrSave(e) {
        defaultPrevented := true;
        screenCaptureAttempted := true;
      }
      if IsClipboard(e) {
        defaultPrevented := true;
      }
      if IsScreenshot(e) {
        defaultPrevented := true;
        overlayVisible := true;
        screenCaptureAttempted := true;
      }
      assert KeyResponse(e) == Response(Classify(e));
    }
  }
}
