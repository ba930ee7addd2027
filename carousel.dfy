/** The gallery strip (components/Carousel.tsx). Its state is the
    `isAutoScrolling` flag, whether the interval timer is installed, and the
    strip's scroll offset. Scroll offsets are whole pixels; `scrollTo` and
    `scrollBy` are taken to reach their target at once (no smooth
    interpolation, no clamping by the browser). */
module Carousel {
  import opened Types

  /** How far one auto-advance step scrolls, in pixels. */
  const CARD_WIDTH: nat := 420

  /** Within this many pixels of the end, the next tick wraps to the start. */
  const END_MARGIN: nat := 50

  /** The interval between ticks, in milliseconds. */
  const TICK_INTERVAL_MS: nat := 5000

  /** At most this many position indicators are drawn. */
  const INDICATOR_LIMIT: nat := 6

  function Max(a: int, b: int): int { if a < b then b else a }

  function Min(a: int, b: int): int { if a < b then a else b }

  /** The offset from which a tick wraps: `scrollWidth - clientWidth - 50`. */
  function WrapPoint(scrollWidth: nat, clientWidth: nat): int
  {
    scrollWidth - clientWidth - END_MARGIN
  }

  /** The target of an active tick (Carousel.tsx:20-25): back to the start
      when at most 50 pixels of scrolling remain, else one card further. The
      target never lies more than a card beyond the wrap point. */
  function ScrollTarget(scrollLeft: nat, scrollWidth: nat, clientWidth: nat): (t: nat)
    ensures t == 0 || t == scrollLeft + CARD_WIDTH
    ensures t == 0 <==> scrollWidth - clientWidth - scrollLeft <= END_MARGIN
    ensures t < Max(0, WrapPoint(scrollWidth, clientWidth)) + CARD_WIDTH
  {
    if scrollLeft >= WrapPoint(scrollWidth, clientWidth) then 0 else scrollLeft + CARD_WIDTH
  }

  /** The offset after `k` active ticks from `start`, the widths fixed. */
  function Ticks(start: nat, scrollWidth: nat, clientWidth: nat, k: nat): nat
  {
    if k == 0 then start else ScrollTarget(Ticks(start, scrollWidth, clientWidth, k - 1), scrollWidth, clientWidth)
  }

  /** How many card steps are taken from the start before the strip wraps:
      the fewest whole cards that reach the wrap point. */
  function StepsBeforeWrap(scrollWidth: nat, clientWidth: nat): (s: nat)
    ensures CARD_WIDTH * s >= WrapPoint(scrollWidth, clientWidth)
    ensures s > 0 ==> CARD_WIDTH * (s - 1) < WrapPoint(scrollWidth, clientWidth)
  {
    var w := WrapPoint(scrollWidth, clientWidth);
    if w <= 0 then 0 else (w + CARD_WIDTH - 1) / CARD_WIDTH
  }

  /** From the start, uninterrupted ticks step one card at a time until the
      wrap point is reached and then return to the start: the strip cycles
      with period `StepsBeforeWrap + 1`. */
  lemma {:induction false} TicksFromStart(scrollWidth: nat, clientWidth: nat, k: nat)
    requires k <= StepsBeforeWrap(scrollWidth, clientWidth)
    ensures Ticks(0, scrollWidth, clientWidth, k) == CARD_WIDTH * k
  {
    if k > 0 {
      TicksFromStart(scrollWidth, clientWidth, k - 1);
    }
  }

  lemma TicksWrap(scrollWidth: nat, clientWidth: nat)
    ensures Ticks(0, scrollWidth, clientWidth, StepsBeforeWrap(scrollWidth, clientWidth) + 1) == 0
  {
    TicksFromStart(scrollWidth, clientWidth, StepsBeforeWrap(scrollWidth, clientWidth));
  }

  /** The list is usable: `images && Array.isArray(images) && images.length`. */
  function HasImages(images: Option<seq<CarouselImage>>): bool
  {
    images.Some? && |images.value| > 0
  }

  datatype View = LoadingPlaceholder | Gallery(cards: seq<CarouselImage>, indicators: nat)

  /** What the component renders (Carousel.tsx:32-38, 50, 100): the loading
      placeholder for an empty or absent list; otherwise a card for every
      entry, in order, and at most six indicators. */
  function Render(images: Option<seq<CarouselImage>>): (v: View)
    ensures v.LoadingPlaceholder? <==> images.None? || images.value == []
    ensures v.Gallery? ==> v.cards == images.value
    ensures v.Gallery? ==> 1 <= v.indicators <= INDICATOR_LIMIT && v.indicators <= |v.cards|
    ensures v.Gallery? ==> (v.indicators < INDICATOR_LIMIT ==> v.indicators == |v.cards|)
  {
    if !HasImages(images) then LoadingPlaceholder
    else Gallery(images.value, Min(INDICATOR_LIMIT, |images.value|))
  }

  class Carousel {
    var isAutoScrolling: bool
    var timerRunning: bool
    var scrollLeft: nat

    /** Mounting: the flag starts active (Carousel.tsx:11); the effect
        installs the timer only for a usable list, and only then is the strip
        (the scroll container) rendered at all (Carousel.tsx:14-16, 28). */
    constructor (images: Option<seq<CarouselImage>>)
      ensures isAutoScrolling && scrollLeft == 0
      ensures timerRunning == HasImages(images)
    {
      isAutoScrolling := true;
      timerRunning := HasImages(images);
      scrollLeft := 0;
    }

    /** A new list re-runs the effect: the old timer is cleared and a new one
        installed only for a usable list. An unusable list renders the
        placeholder instead of the strip, so the strip that a later list
        mounts starts again at offset 0. The pause flag is a ref and survives
        both. */
    method ImagesChanged(images: Option<seq<CarouselImage>>)
      modifies this
      ensures timerRunning == HasImages(images)
      ensures scrollLeft == if HasImages(images) then old(scrollLeft) else 0
      ensures isAutoScrolling == old(isAutoScrolling)
    {
      timerRunning := HasImages(images);
      if !HasImages(images) {
        scrollLeft := 0;
      }
    }

    /** Pointer enters the strip (Carousel.tsx:46). */
    method MouseEnter()
      modifies this
      ensures !isAutoScrolling
      ensures timerRunning == old(timerRunning) && scrollLeft == old(scrollLeft)
    {
      isAutoScrolling := false;
    }

    /** Pointer leaves the strip (Carousel.tsx:47). */
    method MouseLeave()
      modifies this
      ensures isAutoScrolling
      ensures timerRunning == old(timerRunning) && scrollLeft == old(scrollLeft)
    {
      isAutoScrolling := true;
    }

    /** The user scrolls the strip by hand (it is `overflow-x-auto`,
        Carousel.tsx:48), typically while hovering it; the offset is wherever
        the user leaves it. Only a mounted strip can be scrolled, and the strip
        is mounted exactly while the timer is installed. */
    method UserScrolled(offset: nat)
      requires timerRunning
      modifies this
      ensures scrollLeft == offset
      ensures isAutoScrolling == old(isAutoScrolling) && timerRunning == old(timerRunning)
    {
      scrollLeft := offset;
    }

    /** One timer tick (Carousel.tsx:18-26): paused, nothing moves; active,
        the strip goes to `ScrollTarget`. Ticks happen only while the timer is
        installed. */
    method Tick(scrollWidth: nat, clientWidth: nat)
      requires timerRunning
      modifies this
      ensures scrollLeft == if old(isAutoScrolling) then ScrollTarget(old(scrollLeft), scrollWidth, clientWidth)
                            else old(scrollLeft)
      ensures isAutoScrolling == old(isAutoScrolling) && timerRunning == old(timerRunning)
    {
      if !isAutoScrolling {
        return;
      }
      if scrollLeft >= scrollWidth - clientWidth - END_MARGIN {
        scrollLeft := 0;
      } else {
        scrollLeft := scrollLeft + CARD_WIDTH;
      }
    }
  }

  /** While the pointer is over the strip a tick leaves it where it is;
      after the pointer leaves, the next tick applies the wrap-or-step rule from the held offset. */
  method HoverScenario(images: seq<CarouselImage>, scrollWidth: nat, clientWidth: nat)
    returns (whileHovered: nat, afterLeaving: nat)
    requires images != []
    ensures whileHovered == 0
    ensures afterLeaving == ScrollTarget(0, scrollWidth, clientWidth)
  {
    var strip := new Carousel(Some(images));
    strip.MouseEnter();
    strip.Tick(scrollWidth, clientWidth);
    whileHovered := strip.scrollLeft;
    strip.MouseLeave();
    strip.Tick(scrollWidth, clientWidth);
    afterLeaving := strip.scrollLeft;
  }
}
