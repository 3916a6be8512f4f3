/** `Array.prototype.filter` and the facts the dashboard's counters and tabs
    rely on. */
module JsArrays {

  /** `s.filter(keep)`: exactly the elements `keep` accepts, each as often as
      it occurs in `s`. */
  function Filter<T(==, !new)>(s: seq<T>, keep: T -> bool): (r: seq<T>)
    ensures |r| <= |s|
    ensures forall x :: multiset(r)[x] == if keep(x) then multiset(s)[x] else 0
  {
    if s == [] then []
    else
      assert s == [s[0]] + s[1..];
      (if keep(s[0]) then [s[0]] else []) + Filter(s[1..], keep)
  }

  /** Filtering an array with a first element. */
  lemma FilterCons<T(!new)>(x: T, s: seq<T>, keep: T -> bool)
    ensures Filter([x] + s, keep) == (if keep(x) then [x] else []) + Filter(s, keep)
  {
    assert ([x] + s)[1..] == s;
  }

  /** `idx` places the elements of `a` in `b` at strictly increasing positions. */
  ghost predicate Embeds<T>(a: seq<T>, b: seq<T>, idx: seq<nat>) {
    && |idx| == |a|
    && (forall k :: 0 <= k < |idx| ==> idx[k] < |b| && a[k] == b[idx[k]])
    && (forall k, l :: 0 <= k < l < |idx| ==> idx[k] < idx[l])
  }

  /** A filtered array keeps the relative order of what it keeps: it is a
      subsequence of its input. */
  lemma {:induction false} FilterIsSubsequence<T(!new)>(s: seq<T>, keep: T -> bool) returns (idx: seq<nat>)
    ensures Embeds(Filter(s, keep), s, idx)
  {
    if s == [] {
      idx := [];
    } else {
      var tail := FilterIsSubsequence(s[1..], keep);
      idx := EmbedsUnderHead(Filter(s[1..], keep), s, tail, keep(s[0]));
    }
  }

  /** An embedding into the tail of `b` extends to one into `b`, with or
      without the head of `b` put in front. */
  lemma EmbedsUnderHead<T>(a: seq<T>, b: seq<T>, tail: seq<nat>, withHead: bool) returns (idx: seq<nat>)
    requires b != [] && Embeds(a, b[1..], tail)
    ensures Embeds((if withHead then [b[0]] else []) + a, b, idx)
  {
    var shifted := seq(|tail|, k requires 0 <= k < |tail| => tail[k] + 1);
    assert Embeds(a, b, shifted) by {
      forall k | 0 <= k < |shifted| ensures shifted[k] < |b| && a[k] == b[shifted[k]] {
        assert b[1..][tail[k]] == b[tail[k] + 1];
      }
    }
    idx := if withHead then [0] + shifted else shifted;
  }

  /** A filter that accepts every element returns its input. */
  lemma {:induction false} FilterKeepsAll<T(!new)>(s: seq<T>, keep: T -> bool)
    requires forall i :: 0 <= i < |s| ==> keep(s[i])
    ensures Filter(s, keep) == s
  {
    if s != [] {
      FilterKeepsAll(s[1..], keep);
    }
  }

  /** Filters that agree on every element of `s` give the same result. */
  lemma {:induction false} FilterAgrees<T(!new)>(s: seq<T>, p: T -> bool, q: T -> bool)
    requires forall i :: 0 <= i < |s| ==> p(s[i]) == q(s[i])
    ensures Filter(s, p) == Filter(s, q)
  {
    if s != [] {
      FilterAgrees(s[1..], p, q);
    }
  }

  /** Two filters that never accept the same element keep, together, no more
      than the whole array. */
  lemma {:induction false} DisjointFiltersFit<T(!new)>(s: seq<T>, p: T -> bool, q: T -> bool)
    requires forall i :: 0 <= i < |s| ==> !(p(s[i]) && q(s[i]))
    ensures |Filter(s, p)| + |Filter(s, q)| <= |s|
  {
    if s != [] {
      DisjointFiltersFit(s[1..], p, q);
    }
  }

  /** A filter keeps nothing exactly when no element passes it. */
  lemma FilterEmpty<T(!new)>(s: seq<T>, keep: T -> bool)
    ensures Filter(s, keep) == [] <==> forall i :: 0 <= i < |s| ==> !keep(s[i])
  {
    var r := Filter(s, keep);
    if r != [] {
      assert multiset(r)[r[0]] > 0;
    }
    forall i | 0 <= i < |s| && keep(s[i]) ensures r != [] {
      assert multiset(s)[s[i]] > 0;
    }
  }
}
