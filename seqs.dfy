/** Sequence helpers shared by the roster, the vibe filters and the saved list. */
module Seqs {

  /** The elements of `s` for which `keep` holds, in their original order
      (JavaScript's `Array.prototype.filter`). */
  function Filter<T(!new)>(s: seq<T>, keep: T -> bool): (r: seq<T>)
    ensures |r| <= |s|
    ensures forall x :: x in r <==> x in s && keep(x)
  {
    if s == [] then []
    else if keep(s[0]) then [s[0]] + Filter(s[1..], keep)
    else Filter(s[1..], keep)
  }

  /** No element occurs twice. */
  predicate Distinct<T(==)>(s: seq<T>) {
    forall i, j :: 0 <= i < j < |s| ==> s[i] != s[j]
  }

  /** Every earlier element stands in `rel` to every later one. */
  predicate Pairwise<T>(s: seq<T>, rel: (T, T) -> bool) {
    forall i, j :: 0 <= i < j < |s| ==> rel(s[i], s[j])
  }

  /** Filtering distributes over concatenation: it keeps the relative order. */
  lemma {:induction false} FilterAppend<T(!new)>(a: seq<T>, b: seq<T>, keep: T -> bool)
    ensures Filter(a + b, keep) == Filter(a, keep) + Filter(b, keep)
  {
    if a == [] {
      assert a + b == b;
    } else {
      assert (a + b)[0] == a[0];
      assert (a + b)[1..] == a[1..] + b;
      FilterAppend(a[1..], b, keep);
    }
  }

  /** A filter that drops nothing is the identity. */
  lemma {:induction false} FilterKeepsAll<T(!new)>(s: seq<T>, keep: T -> bool)
    requires forall i :: 0 <= i < |s| ==> keep(s[i])
    ensures Filter(s, keep) == s
  {
    if s != [] {
      FilterKeepsAll(s[1..], keep);
      assert s == [s[0]] + s[1..];
    }
  }

  /** A filter that keeps nothing yields the empty sequence. */
  lemma FilterDropsAll<T(!new)>(s: seq<T>, keep: T -> bool)
    requires forall i :: 0 <= i < |s| ==> !keep(s[i])
    ensures Filter(s, keep) == []
  {
  }

  /** Filtering keeps any pairwise relation that held in the input. */
  lemma {:induction false} FilterPairwise<T(!new)>(s: seq<T>, keep: T -> bool, rel: (T, T) -> bool)
    requires Pairwise(s, rel)
    ensures Pairwise(Filter(s, keep), rel)
  {
    if s != [] {
      var t := s[1..];
      assert Pairwise(t, rel) by {
        forall i, j | 0 <= i < j < |t| ensures rel(t[i], t[j]) {
          assert t[i] == s[i + 1] && t[j] == s[j + 1];
        }
      }
      FilterPairwise(t, keep, rel);
      var u := Filter(t, keep);
      if keep(s[0]) {
        forall k | 0 <= k < |u| ensures rel(s[0], u[k]) {
          assert u[k] in t;
          var m :| 0 <= m < |t| && t[m] == u[k];
          assert s[m + 1] == u[k];
        }
        var r := [s[0]] + u;
        forall i, j | 0 <= i < j < |r| ensures rel(r[i], r[j]) {
          if i > 0 {
            assert r[i] == u[i - 1] && r[j] == u[j - 1];
          } else {
            assert r[j] == u[j - 1];
          }
        }
      }
    }
  }

  /** Filtering a duplicate-free sequence leaves it duplicate-free. */
  lemma FilterDistinct<T(!new)>(s: seq<T>, keep: T -> bool)
    requires Distinct(s)
    ensures Distinct(Filter(s, keep))
  {
    var differ := (x: T, y: T) => x != y;
    assert Pairwise(s, differ);
    FilterPairwise(s, keep, differ);
  }

  /** A sequence is its prefix before `k`, its element at `k`, and the rest. */
  lemma SplitAt<T>(s: seq<T>, k: nat)
    requires k < |s|
    ensures s == s[..k] + ([s[k]] + s[k + 1..])
  {
    assert s[k..] == [s[k]] + s[k + 1..];
  }

  /** A filter that keeps everything around one dropped element splices that element out. */
  lemma FilterSplice<T(!new)>(before: seq<T>, x: T, after: seq<T>, keep: T -> bool)
    requires !keep(x)
    requires forall i :: 0 <= i < |before| ==> keep(before[i])
    requires forall i :: 0 <= i < |after| ==> keep(after[i])
    ensures Filter(before + ([x] + after), keep) == before + after
  {
    assert Filter([x] + after, keep) == after by {
      assert ([x] + after)[0] == x && ([x] + after)[1..] == after;
      FilterKeepsAll(after, keep);
    }
    FilterAppend(before, [x] + after, keep);
    FilterKeepsAll(before, keep);
  }

  /** Dropping exactly the element at `k` by a filter splices it out in place. */
  lemma FilterDropsOne<T(!new)>(s: seq<T>, k: nat, keep: T -> bool)
    requires k < |s|
    requires !keep(s[k])
    requires forall i :: 0 <= i < |s| && i != k ==> keep(s[i])
    ensures Filter(s, keep) == s[..k] + s[k + 1..]
  {
    var before, after := s[..k], s[k + 1..];
    assert forall i :: 0 <= i < |before| ==> keep(before[i]) by {
      forall i | 0 <= i < |before| ensures keep(before[i]) {
        assert before[i] == s[i];
      }
    }
    assert forall i :: 0 <= i < |after| ==> keep(after[i]) by {
      forall i | 0 <= i < |after| ensures keep(after[i]) {
        assert after[i] == s[k + 1 + i];
      }
    }
    SplitAt(s, k);
    FilterSplice(before, s[k], after, keep);
  }
}
