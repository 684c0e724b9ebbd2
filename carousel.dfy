/**
 * The testimonial carousel on the landing page: previous/next buttons that
 * wrap around and one dot button per testimonial. The page lists three
 * testimonials; the carousel is modelled for any non-zero number of them.
 */
module Testimonials {

  /** The number of testimonials the landing page lists. */
  const TestimonialCount: nat := 3

  /** `prev === length - 1 ? 0 : prev + 1`. */
  function Next(index: nat, count: nat): (r: nat)
    requires index < count
    ensures r < count
    ensures r == (index + 1) % count
  {
    if index == count - 1 then 0 else index + 1
  }

  /** `prev === 0 ? length - 1 : prev - 1`. */
  function Previous(index: nat, count: nat): (r: nat)
    requires index < count
    ensures r < count
    ensures Next(r, count) == index
  {
    if index == 0 then count - 1 else index - 1
  }

  /** Previous undoes next, and next undoes previous. */
  lemma PreviousNextInverse(index: nat, count: nat)
    requires index < count
    ensures Previous(Next(index, count), count) == index
    ensures Next(Previous(index, count), count) == index
  {
  }

  /** The index after pressing "next" `steps` times. */
  function NextTimes(index: nat, count: nat, steps: nat): (r: nat)
    requires index < count
    ensures r < count
  {
    if steps == 0 then index else Next(NextTimes(index, count, steps - 1), count)
  }

  /** Before wrapping, pressing "next" `steps` times moves exactly `steps` places forward. */
  lemma {:induction false} NextTimesForward(index: nat, count: nat, steps: nat)
    requires index + steps < count
    ensures NextTimes(index, count, steps) == index + steps
  {
    if steps > 0 {
      NextTimesForward(index, count, steps - 1);
    }
  }

  /** Pressing "next" `a` times and then `b` times is pressing it `a + b` times. */
  lemma {:induction false} NextTimesCompose(index: nat, count: nat, a: nat, b: nat)
    requires index < count
    ensures NextTimes(NextTimes(index, count, a), count, b) == NextTimes(index, count, a + b)
  {
    if b > 0 {
      NextTimesCompose(index, count, a, b - 1);
    }
  }

  /** Pressing "next" as many times as there are testimonials comes back to the start. */
  lemma {:induction false} FullTurnReturns(index: nat, count: nat)
    requires index < count
    ensures NextTimes(index, count, count) == index
  {
    var toLast := count - 1 - index;
    NextTimesForward(index, count, toLast);
    assert NextTimes(index, count, toLast + 1) == 0;
    NextTimesCompose(index, count, toLast + 1, index);
    if index > 0 {
      NextTimesForward(0, count, index);
    }
  }

  /** On the landing page's three testimonials: "next" on the last shows the first, "previous" on the first shows the last. */
  lemma PageWraps()
    ensures Next(TestimonialCount - 1, TestimonialCount) == 0
    ensures Previous(0, TestimonialCount) == TestimonialCount - 1
  {
  }

  /** The carousel's state: which testimonial is shown. */
  class Carousel {
    const count: nat
    var currentIndex: nat

    ghost predicate Valid()
      reads this
    {
      currentIndex < count
    }

    /** `useState(0)`: the first testimonial is shown. */
    constructor (count: nat)
      requires count > 0
      ensures Valid() && this.count == count && currentIndex == 0
    {
      this.count := count;
      currentIndex := 0;
    }

    /** `showPrevious`. */
    method ShowPrevious()
      requires Valid()
      modifies this`currentIndex
      ensures Valid()
      ensures currentIndex == Previous(old(currentIndex), count)
      ensures old(currentIndex) == 0 ==> currentIndex == count - 1
      ensures old(currentIndex) > 0 ==> currentIndex == old(currentIndex) - 1
    {
      currentIndex := if currentIndex == 0 then count - 1 else currentIndex - 1;
    }

    /** `showNext`. */
    method ShowNext()
      requires Valid()
      modifies this`currentIndex
      ensures Valid()
      ensures currentIndex == Next(old(currentIndex), count)
      ensures old(currentIndex) == count - 1 ==> currentIndex == 0
      ensures old(currentIndex) < count - 1 ==> currentIndex == old(currentIndex) + 1
    {
      currentIndex := if currentIndex == count - 1 then 0 else currentIndex + 1;
    }

    /** The dot button of testimonial `index`: shows exactly that testimonial. */
    method GoTo(index: nat)
      requires Valid() && index < count
      modifies this`currentIndex
      ensures Valid() && currentIndex == index
    {
      currentIndex := index;
    }
  }

  /** A client's view: next then previous, from any reachable state, shows the same testimonial again. */
  method NextThenPrevious(c: Carousel)
    requires c.Valid()
    modifies c
    ensures c.Valid() && c.currentIndex == old(c.currentIndex)
  {
    c.ShowNext();
    c.ShowPrevious();
    PreviousNextInverse(old(c.currentIndex), c.count);
  }
}
