/** Sequence helpers standing for JavaScript's `Array.prototype.filter`. */
module Seqs {

  /** `s.filter(keep)`: the elements of `s` that satisfy `keep`, in their original order. */
  function Filter<T>(s: seq<T>, keep: T -> bool): (r: seq<T>)
    ensures |r| <= |s|
    ensures forall x :: x in r ==> x in s && keep(x)
    ensures forall x :: x in s && keep(x) ==> x in r
    decreases |s|
  {
    if |s| == 0 then []
    else Filter(s[..|s| - 1], keep) + (if keep(s[|s| - 1]) then [s[|s| - 1]] else [])
  }

  /** Filtering keeps the multiplicity of every kept element and drops every other one. */
  lemma {:induction false} FilterCounts<T>(s: seq<T>, keep: T -> bool, x: T)
    ensures multiset(Filter(s, keep))[x] == if keep(x) then multiset(s)[x] else 0
    decreases |s|
  {
    if |s| > 0 {
      var init := s[..|s| - 1];
      FilterCounts(init, keep, x);
      assert s == init + [s[|s| - 1]];
    }
  }

  /** A kept element appears in the filtered sequence; `j` is one of its positions there. */
  lemma FilterIndexOf<T>(s: seq<T>, keep: T -> bool, i: nat) returns (j: nat)
    requires i < |s| && keep(s[i])
    ensures j < |Filter(s, keep)| && Filter(s, keep)[j] == s[i]
  {
    assert s[i] in s;
    j :| j < |Filter(s, keep)| && Filter(s, keep)[j] == s[i];
  }

  /** Filtering distributes over concatenation, so survivors keep their relative order. */
  lemma {:induction false} FilterAppend<T>(s: seq<T>, t: seq<T>, keep: T -> bool)
    ensures Filter(s + t, keep) == Filter(s, keep) + Filter(t, keep)
    decreases |t|
  {
    if |t| == 0 {
      assert s + t == s;
    } else {
      var t', x := t[..|t| - 1], t[|t| - 1];
      var tail := if keep(x) then [x] else [];
      FilterAppend(s, t', keep);
      assert (s + t)[..|s + t| - 1] == s + t' && (s + t)[|s + t| - 1] == x;
      assert Filter(s + t, keep) == Filter(s + t', keep) + tail;
      assert Filter(t, keep) == Filter(t', keep) + tail;
    }
  }

  /** Filtering with a predicate that every element satisfies changes nothing. */
  lemma {:induction false} FilterAll<T>(s: seq<T>, keep: T -> bool)
    requires forall i :: 0 <= i < |s| ==> keep(s[i])
    ensures Filter(s, keep) == s
    decreases |s|
  {
    if |s| > 0 {
      FilterAll(s[..|s| - 1], keep);
    }
  }

  /** Filtering with a predicate that no element satisfies leaves nothing. */
  lemma {:induction false} FilterNone<T>(s: seq<T>, keep: T -> bool)
    requires forall i :: 0 <= i < |s| ==> !keep(s[i])
    ensures Filter(s, keep) == []
    decreases |s|
  {
    if |s| > 0 {
      FilterNone(s[..|s| - 1], keep);
    }
  }

  /** Filtering a sequence in which exactly one position is kept leaves that one element. */
  lemma {:induction false} FilterSingle<T>(s: seq<T>, keep: T -> bool, i: nat)
    requires i < |s| && keep(s[i])
    requires forall j :: 0 <= j < |s| && j != i ==> !keep(s[j])
    ensures Filter(s, keep) == [s[i]]
    decreases |s|
  {
    var init := s[..|s| - 1];
    if i == |s| - 1 {
      FilterNone(init, keep);
    } else {
      FilterSingle(init, keep, i);
    }
  }

  /** A relation that holds of every ordered pair of elements of `s` still holds of every ordered pair after filtering. */
  lemma {:induction false} FilterPairwise<T>(s: seq<T>, keep: T -> bool, ok: (T, T) -> bool)
    requires forall i, j :: 0 <= i < j < |s| ==> ok(s[i], s[j])
    ensures forall i, j :: 0 <= i < j < |Filter(s, keep)| ==> ok(Filter(s, keep)[i], Filter(s, keep)[j])
    decreases |s|
  {
    if |s| > 0 {
      var init, last := s[..|s| - 1], s[|s| - 1];
      FilterPairwise(init, keep, ok);
      var f, r := Filter(init, keep), Filter(s, keep);
      if keep(last) {
        assert r == f + [last];
        forall i, j | 0 <= i < j < |r| ensures ok(r[i], r[j]) {
          if j == |r| - 1 {
            assert r[i] in f;
            var m :| 0 <= m < |init| && init[m] == r[i];
            assert s[m] == r[i] && s[|s| - 1] == r[j];
            assert ok(s[m], s[|s| - 1]);
          } else {
            assert r[i] == f[i] && r[j] == f[j];
          }
        }
      } else {
        assert r == f;
      }
    }
  }
}
