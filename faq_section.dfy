/** The FAQ accordion: the list of open question ids and the toggle that opens or closes one. */
module Faq {
  import opened Common

  /** The ids of the six questions; each question's button toggles its own id. */
  const FaqIds: seq<int> := [1, 2, 3, 4, 5, 6]

  /** No id occurs twice. */
  ghost predicate NoDuplicates(s: seq<int>)
  {
    forall x :: multiset(s)[x] <= 1
  }

  /**
   * `prev.includes(id) ? prev.filter(item => item !== id) : [...prev, id]`. An absent id is
   * appended at the end; a present id loses every occurrence while all other ids keep their
   * count and order; no other id changes membership.
   */
  function Toggle(prev: seq<int>, id: int): (r: seq<int>)
    ensures id !in prev ==> r == prev + [id]
    ensures id in prev ==>
      id !in r && IsSubsequence(r, prev) && forall x :: x != id ==> multiset(r)[x] == multiset(prev)[x]
    ensures (id in r) == (id !in prev)
    ensures forall x :: x != id ==> (x in r <==> x in prev)
  {
    if id in prev then Filter(prev, item => item != id) else prev + [id]
  }

  /** Toggling keeps a duplicate-free list duplicate-free. */
  lemma ToggleKeepsNoDuplicates(prev: seq<int>, id: int)
    requires NoDuplicates(prev)
    ensures NoDuplicates(Toggle(prev, id))
  {
    var r := Toggle(prev, id);
    if id !in prev {
      assert multiset(r) == multiset(prev) + multiset{id};
    }
  }

  /** Toggling the same id twice restores its membership. */
  lemma ToggleTwiceRestoresMembership(prev: seq<int>, id: int)
    ensures (id in Toggle(Toggle(prev, id), id)) == (id in prev)
  {
  }

  /** Opening a closed item and closing it again gives back the very same list. */
  lemma ToggleTwiceFromClosed(prev: seq<int>, id: int)
    requires id !in prev
    ensures Toggle(Toggle(prev, id), id) == prev
  {
    var keep := (item: int) => item != id;
    assert id in prev + [id];
    FilterAppend(prev, [id], keep);
    FilterKeepsAll(prev, keep);
    assert Filter([id], keep) == [];
  }

  /** The list after a run of toggles, from `start`. */
  function ToggleAll(start: seq<int>, ids: seq<int>): (r: seq<int>)
    ensures forall x :: x !in ids ==> (x in r <==> x in start)
    decreases |ids|
  {
    if ids == [] then start else ToggleAll(Toggle(start, ids[0]), ids[1..])
  }

  /** However many toggles, from a duplicate-free start such as the initial `[]`, the open list never holds a duplicate. */
  lemma {:induction false} ToggleAllNoDuplicates(start: seq<int>, ids: seq<int>)
    requires NoDuplicates(start)
    ensures NoDuplicates(ToggleAll(start, ids))
    decreases |ids|
  {
    if ids != [] {
      ToggleKeepsNoDuplicates(start, ids[0]);
      ToggleAllNoDuplicates(Toggle(start, ids[0]), ids[1..]);
    }
  }

  /** The `FAQSection` component's state. */
  class FaqSection {
    var openItems: seq<int>

    /** Open items are question ids, each at most once. */
    ghost predicate Valid()
      reads this
    {
      NoDuplicates(openItems) && forall x :: x in openItems ==> x in FaqIds
    }

    constructor ()
      ensures Valid() && openItems == []
    {
      openItems := [];
    }

    /** `openItems.includes(id)`: whether a question's answer is shown; only a question's own id can be open. */
    function IsOpen(id: int): (open: bool)
      reads this
      ensures open <==> id in openItems
      ensures Valid() && open ==> id in FaqIds
    {
      id in openItems
    }

    method ToggleItem(id: int)
      requires Valid() && id in FaqIds
      modifies this
      ensures Valid() && openItems == Toggle(old(openItems), id)
      ensures IsOpen(id) == !old(IsOpen(id))
      ensures forall other :: other != id ==> IsOpen(other) == old(IsOpen(other))
    {
      ToggleKeepsNoDuplicates(openItems, id);
      openItems := Toggle(openItems, id);
    }
  }
}
