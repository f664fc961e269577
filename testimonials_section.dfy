/** The testimonial carousel: one index into a fixed list, stepped forward, backward or set directly. */
module Testimonials {

  datatype Testimonial = Testimonial(id: nat, name: string, company: string, result: string, rating: nat)

  const Testimonials: seq<Testimonial> := [
    Testimonial(1, "Sarah Johnson", "TechStart Inc.", "300% increase in brand recognition", 5),
    Testimonial(2, "Michael Chen", "Urban Fashion", "250% boost in customer engagement", 5),
    Testimonial(3, "Emily Rodriguez", "Green Energy Co.", "400% improvement in conversion rates", 5),
    Testimonial(4, "David Kim", "Startup Labs", "180% increase in social media reach", 5)
  ]

  /** `testimonials.length` */
  const Count: nat := |Testimonials|

  /**
   * `(prev + 1) % testimonials.length`: the next index, wrapping from the last to the first.
   * (On these non-negative operands JavaScript's `%` and Dafny's agree.)
   */
  function Next(i: nat): (r: nat)
    requires i < Count
    ensures r < Count
    ensures r == if i == Count - 1 then 0 else i + 1
  {
    (i + 1) % Count
  }

  /** `(prev - 1 + testimonials.length) % testimonials.length`: the previous index, wrapping from the first to the last. */
  function Prev(i: nat): (r: nat)
    requires i < Count
    ensures r < Count
    ensures r == if i == 0 then Count - 1 else i - 1
  {
    (i - 1 + Count) % Count
  }

  /** The interval callback's step, written separately in the source. */
  function Tick(i: nat): (r: nat)
    requires i < Count
    ensures r < Count
  {
    (i + 1) % Count
  }

  /** The timer advances exactly as the "next" button does. */
  lemma TickIsNext(i: nat)
    requires i < Count
    ensures Tick(i) == Next(i)
  {
  }

  /** Back after forward, and forward after back, return to the starting index. */
  lemma PrevUndoesNext(i: nat)
    requires i < Count
    ensures Prev(Next(i)) == i && Next(Prev(i)) == i
  {
  }

  /** `n` presses of "next" from index `i`. */
  function NextTimes(i: nat, n: nat): (r: nat)
    requires i < Count
    ensures r < Count
    decreases n
  {
    if n == 0 then i else NextTimes(Next(i), n - 1)
  }

  /** `n` presses of "next" move the index `n` places round the list. */
  lemma {:induction false} NextTimesIsModular(i: nat, n: nat)
    requires i < Count
    ensures NextTimes(i, n) == (i + n) % Count
    decreases n
  {
    if n > 0 {
      NextTimesIsModular(Next(i), n - 1);
      assert (Next(i) + (n - 1)) % Count == (i + n) % Count by {
        if i == Count - 1 {
          assert Next(i) + (n - 1) + Count == i + n;
        }
      }
    }
  }

  /** A full round of `testimonials.length` presses returns to the starting index. */
  lemma FullRoundIsIdentity(i: nat)
    requires i < Count
    ensures NextTimes(i, Count) == i
  {
    NextTimesIsModular(i, Count);
  }

  /** The `TestimonialsSection` component's state. */
  class TestimonialsSection {
    var currentIndex: nat

    ghost predicate Valid()
      reads this
    {
      currentIndex < Count
    }

    constructor ()
      ensures Valid() && currentIndex == 0
    {
      currentIndex := 0;
    }

    /** `testimonials[currentIndex]`: the testimonial on show, always one of the four. */
    function Current(): (t: Testimonial)
      reads this
      requires Valid()
      ensures t in Testimonials && t == Testimonials[currentIndex]
    {
      Testimonials[currentIndex]
    }

    method NextTestimonial()
      requires Valid()
      modifies this
      ensures Valid() && currentIndex == Next(old(currentIndex))
    {
      currentIndex := Next(currentIndex);
    }

    method PrevTestimonial()
      requires Valid()
      modifies this
      ensures Valid() && currentIndex == Prev(old(currentIndex))
    {
      currentIndex := Prev(currentIndex);
    }

    /** One firing of the five-second interval. */
    method IntervalTick()
      requires Valid()
      modifies this
      ensures Valid() && currentIndex == Tick(old(currentIndex))
    {
      currentIndex := Tick(currentIndex);
    }

    /** A click on dot number `index`, one per testimonial. */
    method GoTo(index: nat)
      requires index < Count
      modifies this
      ensures Valid() && currentIndex == index && Current() == Testimonials[index]
    {
      currentIndex := index;
    }
  }
}
