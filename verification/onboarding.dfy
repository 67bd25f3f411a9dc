/**
 * The onboarding carousel (`OnboardingView`): a fixed list of three pages, a
 * current index moved by the Prev and Next buttons, the page dots, and the
 * direction flag the bubble animation flips on every page change.
 */
module Onboarding {

  datatype Page = Page(heading: string, description: string, imageName: string)

  /** The pages `onboardingPages` is initialised with. */
  const InitialPages: seq<Page> := [
    Page("Discover Amazing Events Near You",
         "Find concerts, festivals, workshops and networking events happening in your city",
         "Onboarding_1stPage"),
    Page("Never Miss Your Favorite Events",
         "Get personalized recommendations and instant notifications for events you'll love",
         "Onboarding_2ndPage"),
    Page("Connect with Like-Minded People",
         "Meet new friends and build meaningful connections at events that match your interests",
         "Onboarding_3rdPage")
  ]

  // ---------------------------------------------------------------------
  // The index rules

  /** The Prev action's effect on the index. */
  function PrevIndex(i: int): int
  {
    if i != 0 then i - 1 else i
  }

  /** The Next action's effect on the index, for `count` pages. */
  function NextIndex(i: int, count: nat): int
  {
    if i < count - 1 then i + 1 else i
  }

  /** `.disabled(currentIndex == 0)` on Prev. */
  predicate PrevEnabled(i: int)
  {
    i != 0
  }

  /** Both actions keep the index on a page, and move it by one page unless already at the end. */
  lemma IndexStaysOnAPage(i: int, count: nat)
    requires 0 <= i < count
    ensures 0 <= PrevIndex(i) < count && 0 <= NextIndex(i, count) < count
    ensures PrevIndex(i) == i <==> i == 0
    ensures NextIndex(i, count) == i <==> i == count - 1
    ensures PrevIndex(i) == i <==> !PrevEnabled(i)
  {
  }

  /** Prev undoes Next away from the last page, and Next undoes Prev away from the first. */
  lemma PrevNextInverse(i: int, count: nat)
    requires 0 <= i < count
    ensures i < count - 1 ==> PrevIndex(NextIndex(i, count)) == i
    ensures i > 0 ==> NextIndex(PrevIndex(i), count) == i
  {
  }

  /** The index after pressing Next `n` times. */
  function NextTimes(i: int, count: nat, n: nat): int
    decreases n
  {
    if n == 0 then i else NextTimes(NextIndex(i, count), count, n - 1)
  }

  /** Pressing Next `n` times advances `n` pages, stopping at the last one. */
  lemma {:induction false} NextTimesStopsAtLast(i: int, count: nat, n: nat)
    requires 0 <= i < count
    ensures NextTimes(i, count, n) == if i + n < count - 1 then i + n else count - 1
    decreases n
  {
    if n > 0 {
      NextTimesStopsAtLast(NextIndex(i, count), count, n - 1);
    }
  }

  /** The index after pressing Prev `n` times. */
  function PrevTimes(i: int, n: nat): int
    decreases n
  {
    if n == 0 then i else PrevTimes(PrevIndex(i), n - 1)
  }

  /** Pressing Prev `n` times goes back `n` pages, stopping at the first one. */
  lemma {:induction false} PrevTimesStopsAtFirst(i: int, n: nat)
    requires 0 <= i
    ensures PrevTimes(i, n) == if i - n > 0 then i - n else 0
    decreases n
  {
    if n > 0 {
      PrevTimesStopsAtFirst(PrevIndex(i), n - 1);
    }
  }

  // ---------------------------------------------------------------------
  // The dots

  datatype DotStyle = Opaque | Faded

  /** The dot of page `index`: white when it is the current page, faded otherwise. */
  function DotStyleOf(index: int, currentIndex: int): DotStyle
  {
    if index == currentIndex then Opaque else Faded
  }

  /** The dots that are drawn opaque. */
  function HighlightedDots(count: nat, currentIndex: int): set<int>
  {
    set k | 0 <= k < count && DotStyleOf(k, currentIndex) == Opaque
  }

  /** Exactly one dot is highlighted, the current page's. */
  lemma ExactlyOneDot(count: nat, currentIndex: int)
    requires 0 <= currentIndex < count
    ensures HighlightedDots(count, currentIndex) == {currentIndex}
    ensures |HighlightedDots(count, currentIndex)| == 1
  {
    assert DotStyleOf(currentIndex, currentIndex) == Opaque;
    assert currentIndex in HighlightedDots(count, currentIndex);
  }

  // ---------------------------------------------------------------------
  // The view

  class OnboardingView {
    /** `@State onboardingPages`: no action ever assigns it. */
    const pages: seq<Page>
    /** `@State currentIndex` */
    var currentIndex: int
    /** `@State moveLeftNext`, flipped by `shiftBubbles`. */
    var moveLeftNext: bool

    ghost predicate Valid()
      reads this
    {
      0 <= currentIndex < |pages|
    }

    constructor ()
      ensures Valid() && pages == InitialPages && |pages| == 3
      ensures currentIndex == 0 && moveLeftNext
    {
      pages := InitialPages;
      currentIndex := 0;
      moveLeftNext := true;
    }

    /** The page shown: its heading, description and image. */
    function CurrentPage(): (p: Page)
      requires Valid()
      reads this
      ensures p in pages
    {
      pages[currentIndex]
    }

    /** The Prev button's action. */
    method Prev()
      requires Valid()
      modifies this
      ensures Valid() && currentIndex == PrevIndex(old(currentIndex))
      ensures moveLeftNext == (if currentIndex != old(currentIndex) then !old(moveLeftNext) else old(moveLeftNext))
    {
      if currentIndex != 0 {
        ShiftBubbles();
        currentIndex := currentIndex - 1;
      }
    }

    /** The Next button's action. */
    method Next()
      requires Valid()
      modifies this
      ensures Valid() && currentIndex == NextIndex(old(currentIndex), |pages|)
      ensures moveLeftNext == (if currentIndex != old(currentIndex) then !old(moveLeftNext) else old(moveLeftNext))
    {
      if currentIndex < |pages| - 1 {
        ShiftBubbles();
        currentIndex := currentIndex + 1;
      }
    }

    /** What `shiftBubbles` does to the view's state apart from the bubbles: it flips the direction. */
    method ShiftBubbles()
      modifies this
      ensures moveLeftNext == !old(moveLeftNext) && currentIndex == old(currentIndex)
    {
      moveLeftNext := !moveLeftNext;
    }
  }

  /**
   * Paging through the whole carousel and back: two Nexts reach the last
   * page, a third changes nothing, and two Prevs return to the first page
   * with the direction flag where it started.
   */
  method ForwardAndBack(v: OnboardingView)
    requires v.Valid() && v.currentIndex == 0 && |v.pages| == 3
    modifies v
    ensures v.Valid() && v.currentIndex == 0 && v.moveLeftNext == old(v.moveLeftNext)
  {
    v.Next();
    v.Next();
    assert v.currentIndex == 2;
    v.Next();
    assert v.currentIndex == 2 && v.moveLeftNext == old(v.moveLeftNext);
    v.Prev();
    v.Prev();
  }
}
