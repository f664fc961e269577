/**
 * What the two admin catalog editors (products and services) share in demo mode:
 * the locally generated id and the replace-by-id update of the in-memory list.
 */
module Catalog {
  import opened Common

  const DemoPrefix := "demo-"

  /** The id `demo-${Date.now()}` given to an item created in demo mode; `now` is the clock reading. */
  function DemoId(now: nat): (id: string)
    ensures DemoPrefix <= id
    ensures |id| > |DemoPrefix|
  {
    DemoPrefix + Decimal(now)
  }

  /** Two demo items created at different clock readings get different ids. */
  lemma DemoIdInjective(a: nat, b: nat)
    requires DemoId(a) == DemoId(b)
    ensures a == b
  {
    assert Decimal(a) == DemoId(a)[|DemoPrefix|..];
    assert Decimal(b) == DemoId(b)[|DemoPrefix|..];
    DecimalInjective(a, b);
  }

  /**
   * `list.map(x => key(x) === id ? updated : x)`: every element whose key is `id`
   * becomes `updated`, every other element stays where it was.
   */
  function ReplaceWhere<T>(list: seq<T>, key: T -> string, id: string, updated: T): (r: seq<T>)
    ensures |r| == |list|
    ensures forall i :: 0 <= i < |list| && key(list[i]) == id ==> r[i] == updated
    ensures forall i :: 0 <= i < |list| && key(list[i]) != id ==> r[i] == list[i]
  {
    if list == [] then []
    else [if key(list[0]) == id then updated else list[0]] + ReplaceWhere(list[1..], key, id, updated)
  }

  /** Replacing by an id that no element carries leaves the list as it was. */
  lemma ReplaceMissingIsIdentity<T>(list: seq<T>, key: T -> string, id: string, updated: T)
    requires forall i :: 0 <= i < |list| ==> key(list[i]) != id
    ensures ReplaceWhere(list, key, id, updated) == list
  {
  }

  /** Replacing keeps every key: when `updated` carries key `id`, the list's keys are unchanged. */
  lemma ReplaceKeepsKeys<T>(list: seq<T>, key: T -> string, id: string, updated: T)
    requires key(updated) == id
    ensures forall i :: 0 <= i < |list| ==> key(ReplaceWhere(list, key, id, updated)[i]) == key(list[i])
  {
  }
}
