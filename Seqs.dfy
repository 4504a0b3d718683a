/**
 * Sequence operations shared by the page components: the JavaScript
 * `Array.prototype.filter`, `splice(i, 1)`, the "filter out / append"
 * toggle used by the schedule filters and the job form's crew checkboxes,
 * and `Array.from(new Set(xs))` (de-duplication in first-occurrence order).
 */
module Seqs {

  /** `s.filter(p)`: the elements of `s` that satisfy `p`, in order. */
  function Filter<T(!new)>(s: seq<T>, p: T -> bool): (r: seq<T>)
    ensures |r| <= |s|
    ensures forall x :: x in r <==> x in s && p(x)
  {
    if s == [] then []
    else if p(s[0]) then [s[0]] + Filter(s[1..], p)
    else Filter(s[1..], p)
  }

  /**
   * A filter keeps every copy of a passing element and no copy of a failing
   * one: it counts `x` as often as `s` does when `p(x)`, and never otherwise.
   */
  lemma {:induction false} FilterCount<T(!new)>(s: seq<T>, p: T -> bool)
    ensures forall x :: multiset(Filter(s, p))[x] == if p(x) then multiset(s)[x] else 0
  {
    if s != [] {
      FilterCount(s[1..], p);
      assert s == [s[0]] + s[1..];
      assert multiset(s) == multiset([s[0]]) + multiset(s[1..]);
      if p(s[0]) {
        assert multiset(Filter(s, p)) == multiset([s[0]]) + multiset(Filter(s[1..], p));
      }
    }
  }

  /** `a` is an order-preserving subsequence of `b`. */
  predicate IsSubseq<T(==,!new)>(a: seq<T>, b: seq<T>)
  {
    if a == [] then true
    else if b == [] then false
    else if a[0] == b[0] then IsSubseq(a[1..], b[1..])
    else IsSubseq(a, b[1..])
  }

  lemma {:induction false} IsSubseqOfSelf<T(!new)>(s: seq<T>)
    ensures IsSubseq(s, s)
  {
    if s != [] {
      IsSubseqOfSelf(s[1..]);
    }
  }

  /** A filter keeps the relative order of what it keeps. */
  lemma {:induction false} FilterIsSubseq<T(!new)>(s: seq<T>, p: T -> bool)
    ensures IsSubseq(Filter(s, p), s)
  {
    if s != [] {
      FilterIsSubseq(s[1..], p);
      var r := Filter(s[1..], p);
      if p(s[0]) {
        assert Filter(s, p) == [s[0]] + r;
        assert ([s[0]] + r)[1..] == r;
      } else {
        if r != [] {
          assert r[0] in s[1..];
        }
      }
    }
  }

  /** A filter every element passes is the identity. */
  lemma {:induction false} FilterKeepsAll<T(!new)>(s: seq<T>, p: T -> bool)
    requires forall i :: 0 <= i < |s| ==> p(s[i])
    ensures Filter(s, p) == s
  {
    if s != [] {
      FilterKeepsAll(s[1..], p);
      assert [s[0]] + s[1..] == s;
    }
  }

  /** Filtering twice is filtering once by the conjunction. */
  lemma {:induction false} FilterFilter<T(!new)>(s: seq<T>, p: T -> bool, q: T -> bool, pq: T -> bool)
    requires forall x :: pq(x) == (p(x) && q(x))
    ensures Filter(Filter(s, p), q) == Filter(s, pq)
  {
    if s != [] {
      FilterFilter(s[1..], p, q, pq);
      if p(s[0]) {
        assert Filter(s, p) == [s[0]] + Filter(s[1..], p);
        assert (Filter(s, p))[1..] == Filter(s[1..], p);
      }
    }
  }

  /** `s.filter(y => y !== x)`: every occurrence of `x` removed. */
  function RemoveAll<T(==,!new)>(s: seq<T>, x: T): (r: seq<T>)
    ensures |r| <= |s|
    ensures forall y :: y in r <==> y in s && y != x
    ensures x !in s ==> r == s
  {
    if s == [] then []
    else if s[0] == x then RemoveAll(s[1..], x)
    else [s[0]] + RemoveAll(s[1..], x)
  }

  /** Removing every `x` is the filter that keeps what differs from `x`, occurrence by occurrence. */
  lemma {:induction false} RemoveAllIsFilter<T(!new)>(s: seq<T>, x: T)
    ensures RemoveAll(s, x) == Filter(s, y => y != x)
  {
    if s != [] {
      RemoveAllIsFilter(s[1..], x);
    }
  }

  /**
   * The membership toggle: `s.includes(x) ? s.filter(y => y !== x) : [...s, x]`.
   */
  function Toggle<T(==,!new)>(s: seq<T>, x: T): (r: seq<T>)
  {
    if x in s then RemoveAll(s, x) else s + [x]
  }

  /** After a toggle `x` is present iff it was absent; nothing else changes membership. */
  lemma ToggleMembership<T(!new)>(s: seq<T>, x: T)
    ensures x in Toggle(s, x) <==> x !in s
    ensures forall y :: y != x ==> (y in Toggle(s, x) <==> y in s)
    ensures x !in s ==> Toggle(s, x) == s + [x]
    ensures x in s ==> |Toggle(s, x)| < |s|
  {
    if x in s {
      RemoveAllShrinks(s, x);
    }
  }

  lemma {:induction false} RemoveAllShrinks<T(!new)>(s: seq<T>, x: T)
    requires x in s
    ensures |RemoveAll(s, x)| < |s|
  {
    if s[0] != x {
      RemoveAllShrinks(s[1..], x);
    }
  }

  /** Toggling an absent element twice restores the original list. */
  lemma ToggleTwiceAbsent<T(!new)>(s: seq<T>, x: T)
    requires x !in s
    ensures Toggle(Toggle(s, x), x) == s
  {
    var t := s + [x];
    assert x in t;
    RemoveAllAppend(s, x);
  }

  lemma {:induction false} RemoveAllAppend<T(!new)>(s: seq<T>, x: T)
    requires x !in s
    ensures RemoveAll(s + [x], x) == s
  {
    if s == [] {
      assert [] + [x] == [x];
    } else {
      assert (s + [x])[1..] == s[1..] + [x];
      RemoveAllAppend(s[1..], x);
      assert [s[0]] + s[1..] == s;
    }
  }

  /** `updated.splice(i, 1)` for a non-negative index: out of range it changes nothing. */
  function RemoveAt<T(!new)>(s: seq<T>, i: nat): (r: seq<T>)
    ensures i < |s| ==> |r| == |s| - 1
    ensures i < |s| ==> forall k :: 0 <= k < i ==> r[k] == s[k]
    ensures i < |s| ==> forall k :: i <= k < |r| ==> r[k] == s[k + 1]
    ensures |s| <= i ==> r == s
  {
    if i < |s| then s[..i] + s[i + 1..] else s
  }

  /** Removing a row and putting it back where it was gives back the list. */
  lemma RemoveAtInverse<T(!new)>(s: seq<T>, i: nat)
    requires i < |s|
    ensures RemoveAt(s, i)[..i] + [s[i]] + RemoveAt(s, i)[i..] == s
  {
    var r := RemoveAt(s, i);
    assert r[..i] == s[..i];
    assert r[i..] == s[i + 1..];
    assert s[..i] + [s[i]] + s[i + 1..] == s;
  }

  predicate NoDuplicates<T(==,!new)>(s: seq<T>)
  {
    forall i, j :: 0 <= i < j < |s| ==> s[i] != s[j]
  }

  /** Index of the first occurrence of `x` in `s` (`s.indexOf(x)`). */
  function FirstIndex<T(==,!new)>(s: seq<T>, x: T): (k: nat)
    requires x in s
    ensures k < |s| && s[k] == x
    ensures forall j :: 0 <= j < k ==> s[j] != x
  {
    if s[0] == x then 0 else 1 + FirstIndex(s[1..], x)
  }

  /**
   * `Array.from(new Set(s))`: a JavaScript Set iterates in insertion order,
   * so each element appears once, at the position of its first occurrence.
   */
  function Dedup<T(==,!new)>(s: seq<T>): (r: seq<T>)
    ensures NoDuplicates(r)
    ensures forall x :: x in r <==> x in s
  {
    if s == [] then []
    else
      var d := Dedup(s[..|s| - 1]);
      var e := s[|s| - 1];
      assert s == s[..|s| - 1] + [e];
      if e in d then d else d + [e]
  }

  lemma {:induction false} FirstIndexOfPrefix<T(!new)>(s: seq<T>, e: T, y: T)
    requires y in s
    ensures FirstIndex(s + [e], y) == FirstIndex(s, y)
  {
    if s[0] != y {
      assert (s + [e])[1..] == s[1..] + [e];
      FirstIndexOfPrefix(s[1..], e, y);
    }
  }

  /** The de-duplicated list is ordered by first occurrence in the source list. */
  lemma {:induction false} DedupFirstOccurrenceOrder<T(!new)>(s: seq<T>)
    ensures forall i, j :: 0 <= i < j < |Dedup(s)| ==>
      FirstIndex(s, Dedup(s)[i]) < FirstIndex(s, Dedup(s)[j])
  {
    if s != [] {
      var p := s[..|s| - 1];
      var e := s[|s| - 1];
      assert s == p + [e];
      DedupFirstOccurrenceOrder(p);
      var d := Dedup(p);
      forall y | y in p
        ensures FirstIndex(s, y) == FirstIndex(p, y)
      {
        FirstIndexOfPrefix(p, e, y);
      }
      if e !in d {
        assert e !in p;
        assert FirstIndex(s, e) == |p|;
        assert Dedup(s) == d + [e];
        forall i, j | 0 <= i < j < |Dedup(s)|
          ensures FirstIndex(s, Dedup(s)[i]) < FirstIndex(s, Dedup(s)[j])
        {
          assert Dedup(s)[i] == d[i];
          assert d[i] in p;
          if j < |d| {
            assert Dedup(s)[j] == d[j];
            assert d[j] in p;
          }
        }
      } else {
        assert Dedup(s) == d;
        forall i, j | 0 <= i < j < |Dedup(s)|
          ensures FirstIndex(s, Dedup(s)[i]) < FirstIndex(s, Dedup(s)[j])
        {
          assert d[i] in p && d[j] in p;
        }
      }
    }
  }
}
