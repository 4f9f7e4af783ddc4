/**
 * The home page banner carousel: three slides, moved forward and back with
 * wrap-around, chosen directly, and advanced by an autoplay timer that a
 * direct choice restarts.
 */
module Banner {

  datatype Slide = Slide(id: int, image: string, alt: string)

  const Banners: seq<Slide> := [
    Slide(1, "assets/banners/banner1.webp", "Banner promocional 1"),
    Slide(2, "assets/banners/banner2.webp", "Banner promocional 2"),
    Slide(3, "assets/banners/banner3.png", "Banner promocional 3")
  ]

  /** Milliseconds between two automatic advances. */
  const AutoplayInterval: nat := 5000

  /** `nextSlide`: from the last slide back to the first, otherwise one on. */
  function Next(current: int, count: int): (r: int)
    ensures current == count - 1 ==> r == 0
    ensures current != count - 1 ==> r == current + 1
  {
    if current == count - 1 then 0 else current + 1
  }

  /** `prevSlide`: from the first slide to the last, otherwise one back. */
  function Prev(current: int, count: int): (r: int)
    ensures current == 0 ==> r == count - 1
    ensures current != 0 ==> r == current - 1
  {
    if current == 0 then count - 1 else current - 1
  }

  /** Previous undoes next, and next undoes previous, within the slides. */
  lemma PrevUndoesNext(current: int, count: int)
    requires 0 <= current < count
    ensures Prev(Next(current, count), count) == current
    ensures Next(Prev(current, count), count) == current
  {
  }

  /** `k` automatic advances. */
  function Advance(current: int, count: int, k: nat): int
  {
    if k == 0 then current else Next(Advance(current, count, k - 1), count)
  }

  /**
   * Up to a full turn, `k` advances from a slide in range land `k` slides on,
   * wrapping past the last slide once.
   */
  lemma {:induction false} AdvanceWithinTurn(current: int, count: int, k: nat)
    requires 0 <= current < count && k <= count
    ensures Advance(current, count, k) == if current + k < count then current + k else current + k - count
  {
    if k > 0 {
      AdvanceWithinTurn(current, count, k - 1);
    }
  }

  /** After as many advances as there are slides, the carousel is back where it started. */
  lemma FullTurn(current: int, count: int)
    requires 0 <= current < count
    ensures Advance(current, count, count) == current
  {
    AdvanceWithinTurn(current, count, count);
  }

  /** A slide set past the end by `goToSlide` is never wrapped: next keeps climbing. */
  lemma PastTheEndKeepsClimbing(current: int, count: int)
    requires current >= count
    ensures Next(current, count) == current + 1 && Next(current, count) >= count
  {
  }

  /** The carousel's state: the slide shown and whether the autoplay timer runs. */
  class Carousel {
    var currentSlide: int
    var autoplayRunning: bool
    var autoplayStarts: nat

    constructor ()
      ensures currentSlide == 0 && autoplayRunning && autoplayStarts == 1
    {
      currentSlide := 0;
      autoplayRunning := true;
      autoplayStarts := 1;
    }

    /** `nextSlide`, also what each tick of the autoplay timer does. */
    method NextSlide()
      modifies this
      ensures currentSlide == Next(old(currentSlide), |Banners|)
      ensures autoplayRunning == old(autoplayRunning) && autoplayStarts == old(autoplayStarts)
    {
      currentSlide := Next(currentSlide, |Banners|);
    }

    method PrevSlide()
      modifies this
      ensures currentSlide == Prev(old(currentSlide), |Banners|)
      ensures autoplayRunning == old(autoplayRunning) && autoplayStarts == old(autoplayStarts)
    {
      currentSlide := Prev(currentSlide, |Banners|);
    }

    /** `goToSlide`: any index is taken as is, and the autoplay timer starts over. */
    method GoToSlide(index: int)
      modifies this
      ensures currentSlide == index && autoplayRunning && autoplayStarts == old(autoplayStarts) + 1
    {
      currentSlide := index;
      StopAutoplay();
      StartAutoplay();
    }

    method StartAutoplay()
      modifies this
      ensures autoplayRunning && autoplayStarts == old(autoplayStarts) + 1 && currentSlide == old(currentSlide)
    {
      autoplayRunning := true;
      autoplayStarts := autoplayStarts + 1;
    }

    /** `stopAutoplay`, also run when the banner is destroyed. */
    method StopAutoplay()
      modifies this
      ensures !autoplayRunning && autoplayStarts == old(autoplayStarts) && currentSlide == old(currentSlide)
    {
      autoplayRunning := false;
    }
  }

  /** Next and then previous on the carousel show the slide shown before. */
  method NextThenPrev(c: Carousel)
    requires 0 <= c.currentSlide < |Banners|
    modifies c
    ensures c.currentSlide == old(c.currentSlide)
  {
    c.NextSlide();
    c.PrevSlide();
    PrevUndoesNext(old(c.currentSlide), |Banners|);
  }
}
