/** Order-preserving filtering of sequences, shared by the cart's removal and
    the catalogue's category view (both are `Array.prototype.filter` in the
    storefront). */
module Sequences {

  /** `sub` is obtained from `s` by deleting zero or more elements and keeping
      the rest in their original order. */
  predicate IsSubsequence<T(==)>(sub: seq<T>, s: seq<T>)
    decreases |s|
  {
    if |sub| == 0 then true
    else if |s| == 0 then false
    else if sub[0] == s[0] then IsSubsequence(sub[1..], s[1..])
    else IsSubsequence(sub, s[1..])
  }

  /** Number of elements of `s` that `keep` accepts (an independent count,
      used to pin down the length of a filter). */
  function CountWhere<T>(s: seq<T>, keep: T -> bool): (n: nat)
    ensures n <= |s|
  {
    if |s| == 0 then 0
    else (if keep(s[0]) then 1 else 0) + CountWhere(s[1..], keep)
  }

  /** The elements of `s` that `keep` accepts, in their original order. */
  function Filter<T>(s: seq<T>, keep: T -> bool): (r: seq<T>)
    ensures |r| == CountWhere(s, keep)
    ensures forall i :: 0 <= i < |r| ==> keep(r[i])
    ensures forall x :: x in r ==> x in s
    ensures forall i :: 0 <= i < |s| && keep(s[i]) ==> s[i] in r
    ensures (forall i :: 0 <= i < |s| ==> keep(s[i])) ==> r == s
  {
    if |s| == 0 then []
    else if keep(s[0]) then [s[0]] + Filter(s[1..], keep)
    else Filter(s[1..], keep)
  }

  lemma {:induction false} FilterIsSubsequence<T>(s: seq<T>, keep: T -> bool)
    ensures IsSubsequence(Filter(s, keep), s)
    decreases |s|
  {
    if |s| > 0 {
      FilterIsSubsequence(s[1..], keep);
      var r := Filter(s, keep);
      if keep(s[0]) {
        assert r[1..] == Filter(s[1..], keep);
      } else {
        SubsequenceOfTail(r, s);
      }
    }
  }

  /** A subsequence of the tail is a subsequence of the whole. */
  lemma {:induction false} SubsequenceOfTail<T>(sub: seq<T>, s: seq<T>)
    requires |s| > 0
    requires IsSubsequence(sub, s[1..])
    ensures IsSubsequence(sub, s)
    decreases |s|, 0
  {
    if |sub| > 0 && sub[0] == s[0] {
      SubsequenceDropHead(sub, s[1..]);
    }
  }

  /** Dropping the head of a subsequence keeps it a subsequence. */
  lemma {:induction false} SubsequenceDropHead<T>(sub: seq<T>, s: seq<T>)
    requires |sub| > 0
    requires IsSubsequence(sub, s)
    ensures IsSubsequence(sub[1..], s)
    decreases |s|, 1
  {
    if sub[0] != s[0] {
      SubsequenceDropHead(sub, s[1..]);
      SubsequenceOfTail(sub[1..], s);
    } else {
      SubsequenceOfTail(sub[1..], s);
    }
  }

  /** A subsequence all of whose elements `keep` accepts is no longer than
      the filter. */
  lemma {:induction false} KeptSubsequenceBound<T>(sub: seq<T>, s: seq<T>, keep: T -> bool)
    requires IsSubsequence(sub, s)
    requires forall i :: 0 <= i < |sub| ==> keep(sub[i])
    ensures |sub| <= CountWhere(s, keep)
    decreases |s|
  {
    if |sub| > 0 {
      if sub[0] == s[0] {
        KeptSubsequenceBound(sub[1..], s[1..], keep);
      } else {
        KeptSubsequenceBound(sub, s[1..], keep);
      }
    }
  }

  /** The filter is the ONLY subsequence of `s` whose elements are all
      accepted and that has as many elements as `s` has accepted ones. */
  lemma {:induction false} FilterUnique<T>(sub: seq<T>, s: seq<T>, keep: T -> bool)
    requires IsSubsequence(sub, s)
    requires forall i :: 0 <= i < |sub| ==> keep(sub[i])
    requires |sub| == CountWhere(s, keep)
    ensures sub == Filter(s, keep)
    decreases |s|
  {
    if |s| > 0 {
      if |sub| > 0 && sub[0] == s[0] {
        FilterUnique(sub[1..], s[1..], keep);
      } else if keep(s[0]) {
        KeptSubsequenceBound(sub, s[1..], keep);
        assert false;
      } else {
        FilterUnique(sub, s[1..], keep);
      }
    }
  }
}
