/**
 * The testimonial slider of script.js: the global `appState` object and the
 * wrap-around index update of `changeSlide`. The DOM is reduced to the number
 * of `.depoimento` elements present when a handler runs; indexing that list
 * outside its bounds yields `undefined`, and touching `classList` on it throws
 * a TypeError, which the model reports as `thrown`.
 */
module Slider {

  /** The slide shown after moving `direction` steps from `current`. */
  function NextSlide(current: int, total: int, direction: int): int {
    var moved := current + direction;
    if moved >= total then 0
    else if moved < 0 then total - 1
    else moved
  }

  /** A step of one slide either way never leaves the range of slides. */
  lemma NextSlideInRange(current: int, total: int, direction: int)
    requires 0 <= current < total
    requires direction == 1 || direction == -1
    ensures 0 <= NextSlide(current, total, direction) < total
  {
  }

  /** Forward from the last slide is the first; back from the first is the last. */
  lemma NextSlideWraps(total: int)
    requires total > 0
    ensures NextSlide(total - 1, total, 1) == 0
    ensures NextSlide(0, total, -1) == total - 1
  {
  }

  /** One step forward and one step back, in either order, return to the start. */
  lemma NextSlideStepsCancel(current: int, total: int)
    requires 0 <= current < total
    ensures NextSlide(NextSlide(current, total, 1), total, -1) == current
    ensures NextSlide(NextSlide(current, total, -1), total, 1) == current
  {
  }

  /**
   * A larger step does not wrap modulo the number of slides: it snaps to the
   * first slide, unlike `(current + direction) % total`.
   */
  lemma NextSlideIsNotModular()
    ensures NextSlide(2, 4, 3) == 0
    ensures (2 + 3) % 4 == 1
  {
  }

  /** `appState` */
  class AppState {
    var currentSlide: int
    var totalSlides: int
    var isLoading: bool

    /** The slide index addresses one of the slides. */
    predicate OnSlide()
      reads this
    {
      0 <= currentSlide < totalSlides
    }

    /** The initial `{ currentSlide: 0, totalSlides: 0, isLoading: false }`. */
    constructor ()
      ensures currentSlide == 0 && totalSlides == 0 && !isLoading
    {
      currentSlide := 0;
      totalSlides := 0;
      isLoading := false;
    }

    /**
     * `setupSlider` with `count` testimonials in the page: the total is
     * recorded only when there is at least one. The button and timer wiring
     * is left out.
     */
    method SetupSlider(count: nat)
      modifies this
      ensures count > 0 ==> totalSlides == count
      ensures count == 0 ==> totalSlides == old(totalSlides)
      ensures currentSlide == old(currentSlide) && isLoading == old(isLoading)
    {
      if count > 0 {
        totalSlides := count;
      }
    }

    /**
     * `changeSlide(direction)` with `slideCount` testimonials in the page.
     * With none it returns at once. Otherwise the current slide is looked up
     * before the index moves (a bad index throws with the state untouched)
     * and the new slide after it moves (a bad index throws after the update).
     */
    method ChangeSlide(direction: int, slideCount: nat) returns (thrown: bool)
      modifies this
      ensures totalSlides == old(totalSlides) && isLoading == old(isLoading)
      ensures slideCount == 0 ==> !thrown && currentSlide == old(currentSlide)
      ensures slideCount > 0 && !(0 <= old(currentSlide) < slideCount) ==>
        thrown && currentSlide == old(currentSlide)
      ensures slideCount > 0 && 0 <= old(currentSlide) < slideCount ==>
        currentSlide == NextSlide(old(currentSlide), totalSlides, direction) &&
        (thrown <==> !(0 <= currentSlide < slideCount))
      ensures old(OnSlide()) && slideCount == totalSlides && (direction == 1 || direction == -1) ==>
        OnSlide() && !thrown
    {
      if slideCount == 0 {
        return false;
      }
      if !(0 <= currentSlide < slideCount) {
        return true;
      }
      currentSlide := currentSlide + direction;
      if currentSlide >= totalSlides {
        currentSlide := 0;
      } else if currentSlide < 0 {
        currentSlide := totalSlides - 1;
      }
      thrown := !(0 <= currentSlide < slideCount);
    }
  }
}
