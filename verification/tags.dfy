/** Toggling a tag in a selection list: a tag already chosen is removed
    (every copy of it), a tag not chosen is appended at the end. The keyword,
    warning-sign, sleep-issue and event pickers all use this rule. */
module Tags {
  import opened Seqs

  /** `list.filter(i => i !== x)`. */
  function RemoveAll(list: seq<string>, x: string): (r: seq<string>)
    ensures x !in r
    ensures x in list ==> |r| < |list|
    ensures forall y :: y in r <==> y in list && y != x
  {
    Filter(list, (y: string) => y != x)
  }

  function Toggle(list: seq<string>, x: string): (r: seq<string>)
    ensures x in r <==> x !in list
    ensures x in list ==> |r| < |list|
    ensures x !in list ==> |r| == |list| + 1 && r[..|list|] == list && r[|list|] == x
    ensures forall y :: y != x ==> (y in r <==> y in list)
  {
    if x in list then RemoveAll(list, x) else list + [x]
  }

  /** Removal keeps every other tag with its multiplicity. */
  lemma RemoveAllCounts(list: seq<string>, x: string, y: string)
    ensures multiset(RemoveAll(list, x))[y] == if y == x then 0 else multiset(list)[y]
  {
    FilterMultiset(list, (z: string) => z != x, y);
  }

  /** Removal keeps the relative order of the remaining tags: removing from
      a concatenation removes from each part separately. */
  lemma RemoveAllAppend(a: seq<string>, b: seq<string>, x: string)
    ensures RemoveAll(a + b, x) == RemoveAll(a, x) + RemoveAll(b, x)
  {
    FilterAppend(a, b, (y: string) => y != x);
  }

  /** Removing a tag that is not there changes nothing. */
  lemma RemoveAllAbsent(list: seq<string>, x: string)
    requires x !in list
    ensures RemoveAll(list, x) == list
  {
    FilterAll(list, (y: string) => y != x);
  }

  /** Toggling an unselected tag twice restores the selection exactly. */
  lemma ToggleTwiceAbsent(list: seq<string>, x: string)
    requires x !in list
    ensures Toggle(Toggle(list, x), x) == list
  {
    assert x in list + [x];
    RemoveAllAppend(list, [x], x);
    RemoveAllAbsent(list, x);
    assert RemoveAll([x], x) == [];
  }

  /** Toggling a selected tag twice moves it, once, to the end. */
  lemma ToggleTwicePresent(list: seq<string>, x: string)
    requires x in list
    ensures Toggle(Toggle(list, x), x) == RemoveAll(list, x) + [x]
  {
  }

  /** A selection without repeats stays without repeats. */
  lemma ToggleNoDuplicates(list: seq<string>, x: string)
    requires NoDuplicates(list)
    ensures NoDuplicates(Toggle(list, x))
  {
    if x in list {
      FilterNoDuplicates(list, (y: string) => y != x);
    }
  }
}
