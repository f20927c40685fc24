/**
 * Page navigation as the viewer writes it: two functional updaters handed to
 * the page-number state setter. React applies queued updaters one after the
 * other, each to the result of the previous one, which is what `Navigate`
 * models.
 */
module Navigation {
  import opened Optional

  /**
   * The upper bound the next-page updater clamps to: `numPages || 1`. Before
   * the document has loaded (`null`) and for a zero page count (falsy in
   * JavaScript) it is 1; otherwise it is the page count.
   */
  function PageLimit(numPages: Option<nat>): (r: int)
    ensures r >= 1
    ensures numPages.Some? && numPages.value > 0 ==> r == numPages.value
    ensures numPages == None || numPages == Some(0) ==> r == 1
  {
    match numPages
    case None => 1
    case Some(n) => if n == 0 then 1 else n
  }

  /** Previous page: `Math.max(p - 1, 1)`. */
  function PrevPage(p: int): (r: int)
    ensures r >= 1
    ensures p > 1 ==> r == p - 1
    ensures p <= 1 ==> r == 1
    ensures p >= 1 ==> r <= p
  {
    if p - 1 > 1 then p - 1 else 1
  }

  /** Next page: `Math.min(p + 1, numPages || 1)`. */
  function NextPage(p: int, numPages: Option<nat>): (r: int)
    ensures r <= PageLimit(numPages)
    ensures p < PageLimit(numPages) ==> r == p + 1
    ensures p >= PageLimit(numPages) ==> r == PageLimit(numPages)
    ensures p >= 1 ==> r >= 1
  {
    var limit := PageLimit(numPages);
    if p + 1 < limit then p + 1 else limit
  }

  /** The two updaters a button press, a swipe or a click can queue. */
  datatype Step = Prev | Next

  function Apply(p: int, numPages: Option<nat>, s: Step): (r: int)
  {
    match s
    case Prev => PrevPage(p)
    case Next => NextPage(p, numPages)
  }

  /** The page number after React has applied the queued updaters `steps`, oldest first, to `p`. */
  function Navigate(p: int, numPages: Option<nat>, steps: seq<Step>): (r: int)
    decreases |steps|
  {
    if steps == [] then p else Navigate(Apply(p, numPages, steps[0]), numPages, steps[1..])
  }

  /** Any sequence of page turns keeps an in-range page in range: 1 <= p <= `numPages || 1`. */
  lemma {:induction false} NavigateStaysInRange(p: int, numPages: Option<nat>, steps: seq<Step>)
    requires 1 <= p <= PageLimit(numPages)
    ensures 1 <= Navigate(p, numPages, steps) <= PageLimit(numPages)
    decreases |steps|
  {
    if steps != [] {
      NavigateStaysInRange(Apply(p, numPages, steps[0]), numPages, steps[1..]);
    }
  }

  /** `k` next-page presses from an in-range page land on `min(p + k, numPages || 1)`. */
  lemma {:induction false} RepeatedNext(p: int, numPages: Option<nat>, k: nat)
    requires 1 <= p <= PageLimit(numPages)
    ensures Navigate(p, numPages, seq(k, _ => Next)) ==
              if p + k < PageLimit(numPages) then p + k else PageLimit(numPages)
    decreases k
  {
    if k > 0 {
      var steps := seq(k, _ => Next);
      assert steps[0] == Next && steps[1..] == seq(k - 1, _ => Next);
      RepeatedNext(NextPage(p, numPages), numPages, k - 1);
    }
  }

  /** `k` previous-page presses from page `p >= 1` land on `max(p - k, 1)`. */
  lemma {:induction false} RepeatedPrev(p: int, numPages: Option<nat>, k: nat)
    requires p >= 1
    ensures Navigate(p, numPages, seq(k, _ => Prev)) == if p - k > 1 then p - k else 1
    decreases k
  {
    if k > 0 {
      var steps := seq(k, _ => Prev);
      assert steps[0] == Prev && steps[1..] == seq(k - 1, _ => Prev);
      RepeatedPrev(PrevPage(p), numPages, k - 1);
    }
  }

  /** A next-page press followed by a previous-page press returns to the page, unless it started on the last one. */
  lemma NextThenPrev(p: int, numPages: Option<nat>)
    requires 1 <= p < PageLimit(numPages)
    ensures Navigate(p, numPages, [Next, Prev]) == p
  {
  }
}
