/** The vibe-filter selection: a list used as a set, toggled one tag at a time. */
module Filters {
  import opened Seqs
  import opened Questions

  /** `toggleFilter`: removes `f` when it is selected and appends it at the end otherwise.
      The tag's membership flips and no other tag's membership changes. */
  function Toggle(filters: seq<FilterType>, f: FilterType): (r: seq<FilterType>)
    ensures f in r <==> f !in filters
    ensures forall g :: g != f ==> (g in r <==> g in filters)
    ensures f !in filters ==> r == filters + [f]
  {
    if f in filters then Filter(filters, item => item != f) else filters + [f]
  }

  /** Selecting an unselected tag and then deselecting it gives back the original list. */
  lemma ToggleTwice(filters: seq<FilterType>, f: FilterType)
    requires f !in filters
    ensures Toggle(Toggle(filters, f), f) == filters
  {
    FilterAppend(filters, [f], item => item != f);
    FilterKeepsAll(filters, item => item != f);
    assert Filter([f], item => item != f) == [];
  }

  /** A selection without repeated tags keeps that property. */
  lemma ToggleKeepsDistinct(filters: seq<FilterType>, f: FilterType)
    requires Distinct(filters)
    ensures Distinct(Toggle(filters, f))
  {
    if f in filters {
      FilterDistinct(filters, item => item != f);
    } else {
      var r := filters + [f];
      forall i, j | 0 <= i < j < |r| ensures r[i] != r[j] {
        if j == |filters| { assert r[i] in filters; }
      }
    }
  }

  /** Deselecting a tag of a selection without repeats removes just that tag, in place. */
  lemma ToggleRemovesInPlace(filters: seq<FilterType>, k: nat)
    requires Distinct(filters) && k < |filters|
    ensures Toggle(filters, filters[k]) == filters[..k] + filters[k + 1..]
  {
    FilterDropsOne(filters, k, item => item != filters[k]);
  }
}
