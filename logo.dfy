/** The site logo: a cursor over candidate image paths that moves on to the next one when an image fails to load. */
module Branding {

  const Candidates: seq<string> := ["/brandlogo.png", "/logo.svg", "/logo.png", "/logo.jpg", "/favicon.png"]

  /**
   * The cursor after one load error: one step further while that stays in range,
   * otherwise where it was (the last candidate stays on show).
   */
  function AfterError(index: nat): (r: nat)
    requires index < |Candidates|
    ensures r < |Candidates|
    ensures index + 1 < |Candidates| ==> r == index + 1
    ensures index + 1 >= |Candidates| ==> r == index
  {
    var next := index + 1;
    if next < |Candidates| then next else index
  }

  /** The cursor after `k` load errors. */
  function AfterErrors(index: nat, k: nat): (r: nat)
    requires index < |Candidates|
    ensures index <= r < |Candidates|
    decreases k
  {
    if k == 0 then index else AfterErrors(AfterError(index), k - 1)
  }

  /** After `k` errors from candidate `index`, the cursor is `k` places further on, or at the last candidate. */
  lemma {:induction false} ErrorsFrom(index: nat, k: nat)
    requires index < |Candidates|
    ensures AfterErrors(index, k) == if index + k < |Candidates| then index + k else |Candidates| - 1
    decreases k
  {
    if k > 0 {
      ErrorsFrom(AfterError(index), k - 1);
    }
  }

  /** The `Logo` component's state. */
  class Logo {
    var index: nat
    var src: string

    /** The image shown is always the candidate the cursor points at. */
    ghost predicate Valid()
      reads this
    {
      index < |Candidates| && src == Candidates[index]
    }

    constructor ()
      ensures Valid() && index == 0 && src == Candidates[0]
    {
      index := 0;
      src := Candidates[0];
    }

    /** The `<img>` error handler. */
    method HandleError()
      requires Valid()
      modifies this
      ensures Valid() && index == AfterError(old(index)) && old(index) <= index
    {
      var next := index + 1;
      if next < |Candidates| {
        index := next;
        src := Candidates[next];
      }
    }
  }
}
