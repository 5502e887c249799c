/** The carousel (script.js:27-74): a track of cards shifted left so that a
    window of `slidesVisible` cards starting at `currentIndex` shows; next,
    previous and window resizes move the window through `moveToSlide`. */
module Carousel {

  /** `maxIndex` of `moveToSlide` (script.js:48): the last index whose window
      still ends at the last card. Negative when more cards fit than exist. */
  function MaxIndex(cardCount: int, slidesVisible: int): (r: int)
    ensures r + slidesVisible == cardCount
    ensures r < 0 <==> slidesVisible > cardCount
  {
    cardCount - slidesVisible
  }

  /** The bound test of `moveToSlide` (script.js:49-53) as written: the lower
      bound is tested first and the upper bound only when the lower one did
      not fire, so with a negative `maxIndex` a non-negative target lands on
      that negative index. */
  function Clamp(target: int, cardCount: int, slidesVisible: int): (r: int)
    ensures r == target || r == 0 || r == MaxIndex(cardCount, slidesVisible)
    ensures 0 <= MaxIndex(cardCount, slidesVisible) ==> 0 <= r <= MaxIndex(cardCount, slidesVisible)
    ensures 0 <= target <= MaxIndex(cardCount, slidesVisible) ==> r == target
  {
    var maxIndex := MaxIndex(cardCount, slidesVisible);
    if target < 0 then 0 else if target > maxIndex then maxIndex else target
  }

  /** When more cards fit than exist, a negative target gives 0 and every
      other target the negative `maxIndex`: the index is not confined to
      `[0, max(0, maxIndex)]`. */
  lemma ClampOverfull(target: int, cardCount: int, slidesVisible: int)
    requires slidesVisible > cardCount
    ensures target < 0 ==> Clamp(target, cardCount, slidesVisible) == 0
    ensures 0 <= target ==> Clamp(target, cardCount, slidesVisible) == MaxIndex(cardCount, slidesVisible) < 0
  {
  }

  /** The indices `moveToSlide` can leave behind for a given sizing. */
  predicate Reachable(index: int, cardCount: int, slidesVisible: int) {
    var maxIndex := MaxIndex(cardCount, slidesVisible);
    0 <= index <= maxIndex || index == 0 || index == maxIndex
  }

  /** With at least as many cards as fit, a reachable index is a valid
      window start. */
  lemma ReachableInRange(index: int, cardCount: int, slidesVisible: int)
    requires Reachable(index, cardCount, slidesVisible)
    requires cardCount >= slidesVisible
    ensures 0 <= index <= MaxIndex(cardCount, slidesVisible)
  {
  }

  /** Re-applying `moveToSlide` to a reachable index with the sizing
      unchanged keeps it, provided at least as many cards exist as fit. */
  lemma ReclampStable(index: int, cardCount: int, slidesVisible: int)
    requires Reachable(index, cardCount, slidesVisible)
    requires cardCount >= slidesVisible
    ensures Clamp(index, cardCount, slidesVisible) == index
  {
  }

  /** When more cards fit than exist, re-applying `moveToSlide` is not
      idempotent: it alternates between `maxIndex` and 0. */
  lemma ReclampAlternates(cardCount: int, slidesVisible: int)
    requires slidesVisible > cardCount
    ensures Clamp(MaxIndex(cardCount, slidesVisible), cardCount, slidesVisible) == 0
    ensures Clamp(0, cardCount, slidesVisible) == MaxIndex(cardCount, slidesVisible)
  {
  }

  /** The index after `k` clicks on next. */
  function AfterNext(index: int, k: nat, cardCount: int, slidesVisible: int): int
    decreases k
  {
    if k == 0 then index
    else AfterNext(Clamp(index + 1, cardCount, slidesVisible), k - 1, cardCount, slidesVisible)
  }

  /** The index after `k` clicks on previous. */
  function AfterPrev(index: int, k: nat, cardCount: int, slidesVisible: int): int
    decreases k
  {
    if k == 0 then index
    else AfterPrev(Clamp(index - 1, cardCount, slidesVisible), k - 1, cardCount, slidesVisible)
  }

  function Min(a: int, b: int): int { if a <= b then a else b }

  function Max(a: int, b: int): int { if a >= b then a else b }

  /** From a valid index, next clicks advance one card each until the last
      window, and then stay there. */
  lemma {:induction false} NextSaturates(index: int, k: nat, cardCount: int, slidesVisible: int)
    requires 0 <= index <= MaxIndex(cardCount, slidesVisible)
    ensures AfterNext(index, k, cardCount, slidesVisible) == Min(index + k, MaxIndex(cardCount, slidesVisible))
    decreases k
  {
    if k > 0 {
      NextSaturates(Clamp(index + 1, cardCount, slidesVisible), k - 1, cardCount, slidesVisible);
    }
  }

  /** From a valid index, previous clicks go back one card each until the
      first, and then stay at 0. */
  lemma {:induction false} PrevSaturates(index: int, k: nat, cardCount: int, slidesVisible: int)
    requires 0 <= index <= MaxIndex(cardCount, slidesVisible)
    ensures AfterPrev(index, k, cardCount, slidesVisible) == Max(index - k, 0)
    decreases k
  {
    if k > 0 {
      PrevSaturates(Clamp(index - 1, cardCount, slidesVisible), k - 1, cardCount, slidesVisible);
    }
  }

  /** Seven cards with three visible: six next clicks from the start stop at
      index 4, not 6. */
  lemma SevenCardsThreeVisible()
    ensures MaxIndex(7, 3) == 4
    ensures AfterNext(0, 6, 7, 3) == 4
  {
    NextSaturates(0, 6, 7, 3);
  }

  /** `slidesVisible` from `updateCarouselSizing` (script.js:39), over integer
      pixel widths: as many whole cards as fit in the container, at least 1. */
  function VisibleCount(containerWidth: nat, cardWidth: nat): (r: int)
    requires cardWidth > 0
    ensures r >= 1
    ensures r == 1 || r * cardWidth <= containerWidth
    ensures containerWidth < (r + 1) * cardWidth
  {
    var fit := containerWidth / cardWidth;
    assert containerWidth < (fit + 1) * cardWidth by {
      assert (fit + 1) * cardWidth == fit * cardWidth + cardWidth;
    }
    if fit < 1 then 1 else fit
  }

  class CarouselState {
    /** `cards.length`; the cards of the track never change. */
    const cardCount: int
    /** Width of the first card, in whole pixels. */
    var cardWidth: nat
    var slidesVisible: int
    var currentIndex: int
    /** How far the track is shifted left, in pixels (its `translateX`). */
    var shift: int

    /** The sizing `moveToSlide` relies on: a first card exists (it is read
        at script.js:34) and at least one card fits. */
    ghost predicate Sized()
      reads this
    {
      cardCount >= 1 && cardWidth > 0 && slidesVisible >= 1
    }

    ghost predicate Valid()
      reads this
    {
      Sized() && Reachable(currentIndex, cardCount, slidesVisible)
    }

    /** Set-up (script.js:32-44): measure, compute the sizing, start at the
        first card with the track not yet shifted. */
    constructor (cardCount: int, cardWidth: nat, containerWidth: nat)
      requires cardCount >= 1 && cardWidth > 0
      ensures Valid()
      ensures this.cardCount == cardCount && this.cardWidth == cardWidth
      ensures slidesVisible == VisibleCount(containerWidth, cardWidth)
      ensures currentIndex == 0 && shift == 0
    {
      this.cardCount := cardCount;
      this.cardWidth := cardWidth;
      slidesVisible := VisibleCount(containerWidth, cardWidth);
      currentIndex := 0;
      shift := 0;
    }

    /** `updateCarouselSizing` (script.js:37-40). */
    method UpdateSizing(newCardWidth: nat, containerWidth: nat)
      requires newCardWidth > 0
      modifies this
      ensures cardWidth == newCardWidth
      ensures slidesVisible == VisibleCount(containerWidth, newCardWidth)
      ensures currentIndex == old(currentIndex) && shift == old(shift)
    {
      cardWidth := newCardWidth;
      slidesVisible := VisibleCount(containerWidth, newCardWidth);
    }

    /** `moveToSlide` (script.js:47-57). The index becomes the clamped
        target. The track's transform is the string
        'translateX(-' + cardWidth * index + 'px)'; for a negative index that
        reads "translateX(--…px)", which is not a valid transform, so the
        browser keeps the previous shift. */
    method MoveTo(target: int)
      requires Sized()
      modifies this
      ensures Valid()
      ensures currentIndex == Clamp(target, cardCount, slidesVisible)
      ensures shift == if currentIndex >= 0 then cardWidth * currentIndex else old(shift)
      ensures cardWidth == old(cardWidth) && slidesVisible == old(slidesVisible)
    {
      var maxIndex := cardCount - slidesVisible;
      var index := target;
      if index < 0 {
        index := 0;
      } else if index > maxIndex {
        index := maxIndex;
      }
      var offset := cardWidth * index;
      if offset >= 0 {
        shift := offset;
      }
      currentIndex := index;
    }

    /** The next button (script.js:60-62). */
    method Next()
      requires Valid()
      modifies this
      ensures Valid()
      ensures currentIndex == Clamp(old(currentIndex) + 1, cardCount, slidesVisible)
      ensures shift == if currentIndex >= 0 then cardWidth * currentIndex else old(shift)
      ensures cardWidth == old(cardWidth) && slidesVisible == old(slidesVisible)
    {
      MoveTo(currentIndex + 1);
    }

    /** The previous button (script.js:65-67). */
    method Prev()
      requires Valid()
      modifies this
      ensures Valid()
      ensures currentIndex == Clamp(old(currentIndex) - 1, cardCount, slidesVisible)
      ensures currentIndex >= 0 ==> shift == cardWidth * currentIndex
      ensures cardWidth == old(cardWidth) && slidesVisible == old(slidesVisible)
    {
      MoveTo(currentIndex - 1);
    }

    /** The window's resize handler (script.js:70-73): re-measure, then move
        to the current index again under the new sizing. */
    method Resize(newCardWidth: nat, containerWidth: nat)
      requires Valid() && newCardWidth > 0
      modifies this
      ensures Valid()
      ensures cardWidth == newCardWidth
      ensures slidesVisible == VisibleCount(containerWidth, newCardWidth)
      ensures currentIndex == Clamp(old(currentIndex), cardCount, slidesVisible)
      ensures shift == if currentIndex >= 0 then cardWidth * currentIndex else old(shift)
    {
      UpdateSizing(newCardWidth, containerWidth);
      MoveTo(currentIndex);
    }
  }
}
