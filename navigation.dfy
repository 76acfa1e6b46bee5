/**
 * The slide navigation of the web presentation (script.js, class Presentation).
 *
 * The DOM is reduced to what the navigation writes into it: the pair of CSS
 * classes `active`/`prev` on every slide element, the `disabled` flag of the
 * two buttons, the width of the progress bar and the text of the aria-live
 * announcement.
 */
module Navigation {
  import opened Wrappers

  /** The two classes updateSlide manages on one slide element. */
  datatype SlideClasses = SlideClasses(active: bool, prev: bool)

  /** The keys the keydown handler reacts to; every other key is OtherKey. */
  datatype Key = ArrowLeft | ArrowRight | Home | End | OtherKey

  // ---------------------------------------------------------------------
  // Cursor transitions
  // ---------------------------------------------------------------------

  /** nextSlide: advance unless already on the last slide. */
  function NextIndex(c: int, n: int): (r: int)
    requires 0 <= c < n
    ensures 0 <= r < n
    ensures c < n - 1 ==> r == c + 1
    ensures c == n - 1 ==> r == c
  {
    if c < n - 1 then c + 1 else c
  }

  /** previousSlide: step back unless already on the first slide. */
  function PrevIndex(c: int, n: int): (r: int)
    requires 0 <= c < n
    ensures 0 <= r < n
    ensures c > 0 ==> r == c - 1
    ensures c == 0 ==> r == c
  {
    if c > 0 then c - 1 else c
  }

  /** goToSlide: jump to `index` when it names a slide, otherwise stay. */
  function GoToIndex(c: int, n: int, index: int): (r: int)
    requires 0 <= c < n
    ensures 0 <= r < n
    ensures 0 <= index < n ==> r == index
    ensures !(0 <= index < n) ==> r == c
  {
    if 0 <= index && index < n then index else c
  }

  /** The keydown handler: four independent tests of the key name. */
  function KeyIndex(key: Key, c: int, n: int): (r: int)
    requires 0 <= c < n
    ensures 0 <= r < n
  {
    match key
    case ArrowLeft => PrevIndex(c, n)
    case ArrowRight => NextIndex(c, n)
    case Home => GoToIndex(c, n, 0)
    case End => GoToIndex(c, n, n - 1)
    case OtherKey => c
  }

  lemma PrevUndoesNext(c: int, n: int)
    requires 0 <= c < n - 1
    ensures NextIndex(c, n) == c + 1
    ensures PrevIndex(NextIndex(c, n), n) == c
  {
  }

  lemma NextUndoesPrev(c: int, n: int)
    requires 0 < c < n
    ensures PrevIndex(c, n) == c - 1
    ensures NextIndex(PrevIndex(c, n), n) == c
  {
  }

  /** Home always lands on the first slide and End on the last, wherever the cursor is. */
  lemma HomeAndEndKeys(c: int, n: int)
    requires 0 <= c < n
    ensures KeyIndex(Home, c, n) == 0
    ensures KeyIndex(End, c, n) == n - 1
    ensures KeyIndex(OtherKey, c, n) == c
  {
  }

  // ---------------------------------------------------------------------
  // Swipe gesture (screen x coordinates of touchstart and touchend)
  // ---------------------------------------------------------------------

  /** Horizontal travel, in CSS pixels, a touch must exceed to count as a swipe. */
  const SwipeThreshold: real := 50.0

  predicate SwipesToNext(startX: real, endX: real) {
    endX < startX - SwipeThreshold
  }

  predicate SwipesToPrevious(startX: real, endX: real) {
    endX > startX + SwipeThreshold
  }

  /**
   * handleSwipe runs its two tests one after the other; the result is
   * nonetheless a single step, because the tests exclude each other.
   */
  function SwipeIndex(c: int, n: int, startX: real, endX: real): (r: int)
    requires 0 <= c < n
    ensures 0 <= r < n
    ensures SwipesToNext(startX, endX) ==> r == NextIndex(c, n)
    ensures SwipesToPrevious(startX, endX) ==> r == PrevIndex(c, n)
    ensures -SwipeThreshold <= endX - startX <= SwipeThreshold ==> r == c
  {
    var afterFirst := if SwipesToNext(startX, endX) then NextIndex(c, n) else c;
    if SwipesToPrevious(startX, endX) then PrevIndex(afterFirst, n) else afterFirst
  }

  lemma SwipeBranchesExclusive(startX: real, endX: real)
    ensures !(SwipesToNext(startX, endX) && SwipesToPrevious(startX, endX))
    ensures !SwipesToNext(startX, endX) && !SwipesToPrevious(startX, endX)
            <==> -SwipeThreshold <= endX - startX <= SwipeThreshold
  {
  }

  // ---------------------------------------------------------------------
  // Derived view
  // ---------------------------------------------------------------------

  /** The classes updateSlide leaves on slide `i` when the cursor is at `c`. */
  predicate ShowsSlide(s: seq<SlideClasses>, c: int) {
    forall i :: 0 <= i < |s| ==> s[i] == SlideClasses(i == c, i < c)
  }

  function CountActive(s: seq<SlideClasses>): nat {
    if s == [] then 0 else CountActive(s[..|s| - 1]) + (if s[|s| - 1].active then 1 else 0)
  }

  function CountPrev(s: seq<SlideClasses>): nat {
    if s == [] then 0 else CountPrev(s[..|s| - 1]) + (if s[|s| - 1].prev then 1 else 0)
  }

  lemma {:induction false} CountsOfPrefix(s: seq<SlideClasses>, c: int, k: nat)
    requires ShowsSlide(s, c) && 0 <= c
    requires k <= |s|
    ensures CountActive(s[..k]) == (if c < k then 1 else 0)
    ensures CountPrev(s[..k]) == (if k < c then k else c)
  {
    if k > 0 {
      CountsOfPrefix(s, c, k - 1);
      assert s[..k][..k - 1] == s[..k - 1];
    }
  }

  /** After updateSlide exactly one slide is active and exactly `c` slides carry `prev`. */
  lemma {:induction false} ExactlyOneActive(s: seq<SlideClasses>, c: int)
    requires ShowsSlide(s, c) && 0 <= c < |s|
    ensures CountActive(s) == 1
    ensures CountPrev(s) == c
    ensures forall i :: 0 <= i < |s| && s[i].active ==> i == c
  {
    CountsOfPrefix(s, c, |s|);
    assert s[..|s|] == s;
  }

  /** Width of the progress bar, in percent (exact; the browser computes it in floating point). */
  function Progress(c: int, n: int): (p: real)
    requires 0 <= c < n
    ensures 0.0 < p <= 100.0
    ensures p == 100.0 <==> c == n - 1
  {
    (c + 1) as real / n as real * 100.0
  }

  lemma ProgressIncreasing(c1: int, c2: int, n: int)
    requires 0 <= c1 < c2 < n
    ensures Progress(c1, n) < Progress(c2, n)
  {
    var d := n as real;
    var q1, q2 := (c1 + 1) as real / d, (c2 + 1) as real / d;
    assert q1 * d == (c1 + 1) as real && q2 * d == (c2 + 1) as real;
  }

  // ---------------------------------------------------------------------
  // The "Slide n of N" announcement
  // ---------------------------------------------------------------------

  predicate IsDigit(ch: char) {
    '0' <= ch <= '9'
  }

  function DigitChar(d: int): (ch: char)
    requires 0 <= d < 10
    ensures IsDigit(ch)
  {
    ('0' as int + d) as char
  }

  function DigitValue(ch: char): int
    requires IsDigit(ch)
  {
    ch as int - '0' as int
  }

  predicate AllDigits(s: string) {
    forall i :: 0 <= i < |s| ==> IsDigit(s[i])
  }

  /** Decimal rendering of a whole number, as a template literal shows it. */
  function NatToString(n: nat): (s: string)
    ensures 1 <= |s| && AllDigits(s)
    ensures s[0] == '0' <==> n == 0
    decreases n
  {
    if n < 10 then [DigitChar(n)] else NatToString(n / 10) + [DigitChar(n % 10)]
  }

  function ParseNat(s: string): nat
    requires AllDigits(s)
  {
    if s == [] then 0 else ParseNat(s[..|s| - 1]) * 10 + DigitValue(s[|s| - 1])
  }

  lemma {:induction false} NatToStringRoundTrip(n: nat)
    ensures ParseNat(NatToString(n)) == n
    decreases n
  {
    if n >= 10 {
      var s := NatToString(n);
      assert s[..|s| - 1] == NatToString(n / 10);
      NatToStringRoundTrip(n / 10);
    }
  }

  function Announcement(slideNumber: nat, total: nat): string {
    "Slide " + NatToString(slideNumber) + " of " + NatToString(total)
  }

  /** announceSlide: slides are numbered from one for the reader. */
  function SlideAnnouncement(c: int, n: int): string
    requires 0 <= c < n
  {
    Announcement(c + 1, n)
  }

  /** A run of digits cannot be continued by the separator at a place where another run still has digits. */
  lemma SeparatorEndsDigits(x: string, y: string, restX: string, restY: string)
    requires AllDigits(y) && |x| < |y|
    ensures x + " of " + restX != y + " of " + restY
  {
    assert (x + " of " + restX)[|x|] == ' ';
    assert (y + " of " + restY)[|x|] == y[|x|];
  }

  /** Two different slides of one presentation are never announced alike. */
  lemma DistinctSlidesAnnouncedDistinctly(c1: int, c2: int, n: int)
    requires 0 <= c1 < n && 0 <= c2 < n && c1 != c2
    ensures SlideAnnouncement(c1, n) != SlideAnnouncement(c2, n)
  {
    if SlideAnnouncement(c1, n) == SlideAnnouncement(c2, n) {
      AnnouncementDeterminesPosition(c1 + 1, n, c2 + 1, n);
    }
  }

  /** The announcement text determines both the slide number and the slide count. */
  lemma AnnouncementDeterminesPosition(a: nat, b: nat, c: nat, d: nat)
    requires Announcement(a, b) == Announcement(c, d)
    ensures a == c && b == d
  {
    var sa, sb, sc, sd := NatToString(a), NatToString(b), NatToString(c), NatToString(d);
    var t := Announcement(a, b)[6..];
    assert t == sa + " of " + sb;
    assert t == sc + " of " + sd;
    if |sa| < |sc| {
      SeparatorEndsDigits(sa, sc, sb, sd);
      assert false;
    } else if |sc| < |sa| {
      SeparatorEndsDigits(sc, sa, sd, sb);
      assert false;
    }
    assert sa == t[..|sa|] == sc;
    assert sb == t[|sa| + 4..] == sd;
    NatToStringRoundTrip(a);
    NatToStringRoundTrip(b);
    NatToStringRoundTrip(c);
    NatToStringRoundTrip(d);
  }

  // ---------------------------------------------------------------------
  // preloadNextSlide
  // ---------------------------------------------------------------------

  /** The slide whose images preloadNextSlide fetches, if its guard lets it. */
  function PreloadTarget(currentIndex: int, slideCount: int): (target: Option<int>)
    ensures target.Some? ==> currentIndex < target.value < slideCount
    ensures target.None? ==> currentIndex >= slideCount - 1
  {
    if currentIndex + 1 < slideCount then Some(currentIndex + 1) else None
  }

  /** From a valid cursor, preloading targets exactly the slide nextSlide would show, and only when it would move. */
  lemma PreloadMatchesNext(c: int, n: int)
    requires 0 <= c < n
    ensures PreloadTarget(c, n).Some? <==> NextIndex(c, n) != c
    ensures PreloadTarget(c, n).Some? ==> PreloadTarget(c, n).value == NextIndex(c, n)
  {
  }

  // ---------------------------------------------------------------------
  // The Presentation object
  // ---------------------------------------------------------------------

  class Presentation {
    /** The slide elements (their class lists), fixed when the page loads. */
    const slides: array<SlideClasses>
    const totalSlides: int
    var currentSlide: int
    var prevDisabled: bool
    var nextDisabled: bool
    var progress: real
    var announcement: string

    ghost predicate CursorInRange()
      reads this
    {
      totalSlides == slides.Length && 0 <= currentSlide < totalSlides
    }

    /** The cursor is in range and the whole view reflects it. */
    ghost predicate Valid()
      reads this, slides
      ensures Valid() ==> CountActive(slides[..]) == 1 && CountPrev(slides[..]) == currentSlide
      ensures Valid() ==> (prevDisabled && nextDisabled <==> totalSlides == 1)
    {
      if CursorInRange() && ShowsSlide(slides[..], currentSlide) then
        ExactlyOneActive(slides[..], currentSlide);
        prevDisabled == (currentSlide == 0) &&
        nextDisabled == (currentSlide == totalSlides - 1) &&
        progress == Progress(currentSlide, totalSlides) &&
        announcement == SlideAnnouncement(currentSlide, totalSlides)
      else
        false
    }

    /**
     * `initial` holds whatever classes the markup gave the slides; the page
     * needs at least one slide, since updateSlide indexes slides[0].
     */
    constructor (initial: seq<SlideClasses>)
      requires |initial| >= 1
      ensures Valid() && fresh(slides)
      ensures totalSlides == |initial| && currentSlide == 0
    {
      slides := new SlideClasses[|initial|](i requires 0 <= i < |initial| => initial[i]);
      totalSlides := |initial|;
      currentSlide := 0;
      new;
      UpdateSlide();
    }

    /** Recompute the view from the cursor, clearing stale classes first. */
    method UpdateSlide()
      requires CursorInRange()
      modifies slides, this`prevDisabled, this`nextDisabled, this`progress, this`announcement
      ensures Valid()
    {
      var j := 0;
      while j < slides.Length
        invariant 0 <= j <= slides.Length
        invariant forall k :: 0 <= k < j ==> slides[k] == SlideClasses(false, false)
      {
        slides[j] := slides[j].(active := false, prev := false);
        j := j + 1;
      }
      slides[currentSlide] := slides[currentSlide].(active := true);
      var i := 0;
      while i < currentSlide
        invariant 0 <= i <= currentSlide
        invariant forall k :: 0 <= k < slides.Length ==> slides[k] == SlideClasses(k == currentSlide, k < i)
      {
        slides[i] := slides[i].(prev := true);
        i := i + 1;
      }
      prevDisabled := currentSlide == 0;
      nextDisabled := currentSlide == totalSlides - 1;
      progress := Progress(currentSlide, totalSlides);
      announcement := SlideAnnouncement(currentSlide, totalSlides);
    }

    method NextSlide()
      requires Valid()
      modifies this, slides
      ensures Valid()
      ensures currentSlide == NextIndex(old(currentSlide), totalSlides)
      ensures old(currentSlide) == totalSlides - 1 ==> unchanged(this) && unchanged(slides)
    {
      if currentSlide < totalSlides - 1 {
        currentSlide := currentSlide + 1;
        UpdateSlide();
      }
    }

    method PreviousSlide()
      requires Valid()
      modifies this, slides
      ensures Valid()
      ensures currentSlide == PrevIndex(old(currentSlide), totalSlides)
      ensures old(currentSlide) == 0 ==> unchanged(this) && unchanged(slides)
    {
      if currentSlide > 0 {
        currentSlide := currentSlide - 1;
        UpdateSlide();
      }
    }

    method GoToSlide(index: int)
      requires Valid()
      modifies this, slides
      ensures Valid()
      ensures currentSlide == GoToIndex(old(currentSlide), totalSlides, index)
      ensures !(0 <= index < totalSlides) ==> unchanged(this) && unchanged(slides)
    {
      if index >= 0 && index < totalSlides {
        currentSlide := index;
        UpdateSlide();
      }
    }

    /** The keydown listener. */
    method HandleKey(key: Key)
      requires Valid()
      modifies this, slides
      ensures Valid()
      ensures currentSlide == KeyIndex(key, old(currentSlide), totalSlides)
    {
      if key == ArrowLeft { PreviousSlide(); }
      if key == ArrowRight { NextSlide(); }
      if key == Home { GoToSlide(0); }
      if key == End { GoToSlide(totalSlides - 1); }
    }

    /** handleSwipe, with the coordinates the touchstart and touchend listeners recorded. */
    method HandleSwipe(touchStartX: real, touchEndX: real)
      requires Valid()
      modifies this, slides
      ensures Valid()
      ensures currentSlide == SwipeIndex(old(currentSlide), totalSlides, touchStartX, touchEndX)
    {
      if touchEndX < touchStartX - SwipeThreshold { NextSlide(); }
      if touchEndX > touchStartX + SwipeThreshold { PreviousSlide(); }
    }
  }

  /** A forward step followed by a backward step returns a presentation to where it was. */
  method NextThenPrevious(p: Presentation)
    requires p.Valid() && p.currentSlide < p.totalSlides - 1
    modifies p, p.slides
    ensures p.Valid()
    ensures p.currentSlide == old(p.currentSlide)
  {
    p.NextSlide();
    p.PreviousSlide();
  }
}
