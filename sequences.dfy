/**
 * Order-preserving filtering of sequences, the value-level counterpart of the
 * in-place `List<T>.RemoveAll` and of LINQ's `Where(...).ToList()`, and the
 * facts the registries need about it.
 */
module Sequences {

  /** Keeps, in their original order, the elements on which `keep` holds. */
  function Filter<T>(s: seq<T>, keep: T -> bool): (r: seq<T>)
    ensures |r| <= |s|
  {
    if s == [] then [] else (if keep(s[0]) then [s[0]] else []) + Filter(s[1..], keep)
  }

  /** Every pair of positions i < j satisfies `rel`. */
  ghost predicate Pairwise<T>(s: seq<T>, rel: (T, T) -> bool)
  {
    forall i, j :: 0 <= i < j < |s| ==> rel(s[i], s[j])
  }

  /** An element survives the filter exactly when it was there and is kept. */
  lemma {:induction false} FilterMembership<T>(s: seq<T>, keep: T -> bool, x: T)
    ensures x in Filter(s, keep) <==> x in s && keep(x)
  {
    if s != [] {
      FilterMembership(s[1..], keep, x);
      assert s == [s[0]] + s[1..];
    }
  }

  /** Every element of the result is kept. */
  lemma FilterAllKept<T>(s: seq<T>, keep: T -> bool)
    ensures forall k :: 0 <= k < |Filter(s, keep)| ==> keep(Filter(s, keep)[k])
  {
    forall k | 0 <= k < |Filter(s, keep)| ensures keep(Filter(s, keep)[k]) {
      FilterMembership(s, keep, Filter(s, keep)[k]);
    }
  }

  /** Filtering distributes over concatenation, so relative order is kept. */
  lemma {:induction false} FilterAppend<T>(a: seq<T>, b: seq<T>, keep: T -> bool)
    ensures Filter(a + b, keep) == Filter(a, keep) + Filter(b, keep)
  {
    if a == [] {
      assert a + b == b;
    } else {
      var ab := a + b;
      assert ab[0] == a[0] && ab[1..] == a[1..] + b;
      FilterAppend(a[1..], b, keep);
      var head := if keep(a[0]) then [a[0]] else [];
      calc {
        Filter(ab, keep);
        head + Filter(a[1..] + b, keep);
        head + (Filter(a[1..], keep) + Filter(b, keep));
        (head + Filter(a[1..], keep)) + Filter(b, keep);
      }
    }
  }

  /** A filter that keeps every element returns its input unchanged. */
  lemma {:induction false} FilterKeepsEverything<T>(s: seq<T>, keep: T -> bool)
    requires forall k :: 0 <= k < |s| ==> keep(s[k])
    ensures Filter(s, keep) == s
  {
    if s != [] {
      FilterKeepsEverything(s[1..], keep);
    }
  }

  /** The filter drops something exactly when some element is not kept. */
  lemma {:induction false} FilterShrinks<T>(s: seq<T>, keep: T -> bool)
    ensures |Filter(s, keep)| < |s| <==> exists k :: 0 <= k < |s| && !keep(s[k])
  {
    if s != [] {
      FilterShrinks(s[1..], keep);
      if !keep(s[0]) {
        assert !keep(s[0]);
      } else if exists k :: 0 <= k < |s[1..]| && !keep(s[1..][k]) {
        var k :| 0 <= k < |s[1..]| && !keep(s[1..][k]);
        assert !keep(s[k + 1]);
      } else {
        forall k | 0 <= k < |s| ensures keep(s[k]) {
          if k > 0 { assert s[k] == s[1..][k - 1]; }
        }
      }
    }
  }

  /** Filtering keeps a pairwise relation, because it only drops elements. */
  lemma {:induction false} FilterPairwise<T>(s: seq<T>, keep: T -> bool, rel: (T, T) -> bool)
    requires Pairwise(s, rel)
    ensures Pairwise(Filter(s, keep), rel)
  {
    if s != [] {
      var t := s[1..];
      assert Pairwise(t, rel) by {
        forall i, j | 0 <= i < j < |t| ensures rel(t[i], t[j]) {
          assert t[i] == s[i + 1] && t[j] == s[j + 1];
        }
      }
      FilterPairwise(t, keep, rel);
      if keep(s[0]) {
        var r := Filter(s, keep);
        var ft := Filter(t, keep);
        assert r == [s[0]] + ft;
        forall i, j | 0 <= i < j < |r| ensures rel(r[i], r[j]) {
          if i == 0 {
            FilterMembership(t, keep, r[j]);
            var k :| 0 <= k < |t| && t[k] == r[j];
            assert rel(s[0], s[k + 1]);
          } else {
            assert r[i] == ft[i - 1] && r[j] == ft[j - 1];
          }
        }
      }
    }
  }

  /** Small facts about concatenation, for proofs whose context is too large to find them unaided. */
  lemma ConsAppend<T>(a: seq<T>, b: seq<T>)
    requires a != []
    ensures (a + b)[0] == a[0] && (a + b)[1..] == a[1..] + b
  {
  }

  lemma AppendAssociates<T>(a: seq<T>, b: seq<T>, c: seq<T>)
    ensures a + (b + c) == (a + b) + c
  {
  }
}
