/**
 * The swipe classifier of the document area: the horizontal start and end
 * positions of one touch become a next-page swipe, a previous-page swipe or
 * nothing. The threshold is strict: a displacement of exactly 50 does nothing.
 */
module Gestures {
  import opened Optional

  const SwipeThreshold: int := 50

  /** Leftward drags turn to the next page, rightward drags to the previous one. */
  datatype Swipe = SwipeLeft | SwipeRight | NoSwipe

  function Abs(x: int): (r: int)
    ensures r >= 0 && (r == x || r == -x)
  {
    if x < 0 then -x else x
  }

  /**
   * The touch-end decision as written: `diff = start - end`; if `|diff| > 50`
   * its sign picks the direction, otherwise nothing happens.
   */
  function ClassifySwipe(start: int, end: int): (r: Swipe)
    ensures r == SwipeLeft <==> start - end > SwipeThreshold
    ensures r == SwipeRight <==> end - start > SwipeThreshold
    ensures r == NoSwipe <==> -SwipeThreshold <= start - end <= SwipeThreshold
  {
    var diff := start - end;
    if Abs(diff) > SwipeThreshold then
      if diff > 0 then SwipeLeft else SwipeRight
    else NoSwipe
  }

  /** Reversing a drag reverses its direction; a drag that does nothing does nothing either way. */
  lemma SwipeMirror(start: int, end: int)
    ensures ClassifySwipe(start, end) == SwipeLeft <==> ClassifySwipe(end, start) == SwipeRight
    ensures ClassifySwipe(start, end) == NoSwipe <==> ClassifySwipe(end, start) == NoSwipe
  {
  }

  /**
   * Whether a touch start counts as recorded: the guard `!touchStart` is
   * JavaScript truthiness, so a missing start (`null`) and a start at x = 0
   * both read as "no start".
   */
  predicate Recorded(touchStart: Option<int>)
  {
    touchStart.Some? && touchStart.value != 0
  }
}
