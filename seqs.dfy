/** The two table scans every Convex query in the model is built from:
    `.filter(p).collect()` and `.filter(p).first()`, both over a table read
    in its stored order. */
module Seqs {
  import opened Wrappers

  /** `r` is `s` with some elements deleted and the rest kept in order. */
  ghost predicate IsSubsequence<T>(r: seq<T>, s: seq<T>)
    decreases |s|
  {
    if r == [] then true
    else if s == [] then false
    else if r[0] == s[0] then IsSubsequence(r[1..], s[1..])
    else IsSubsequence(r, s[1..])
  }

  /** `.filter(p).collect()`: every element satisfying `p`, in table order,
      with its multiplicity, and nothing else. */
  function Filter<T(!new)>(s: seq<T>, p: T -> bool): (r: seq<T>)
    ensures forall x :: multiset(r)[x] == if p(x) then multiset(s)[x] else 0
    ensures forall x :: x in r <==> x in s && p(x)
    ensures IsSubsequence(r, s)
  {
    if s == [] then []
    else
      var rest := Filter(s[1..], p);
      assert s == [s[0]] + s[1..];
      if p(s[0]) then [s[0]] + rest else rest
  }

  /** The position of the first element satisfying `p`, if there is one. */
  function FirstIndex<T>(s: seq<T>, p: T -> bool): (r: Option<nat>)
    ensures r.Some? ==> r.value < |s| && p(s[r.value])
    ensures r.Some? ==> forall j :: 0 <= j < r.value ==> !p(s[j])
    ensures r.None? ==> forall j :: 0 <= j < |s| ==> !p(s[j])
  {
    if s == [] then None
    else if p(s[0]) then Some(0)
    else
      match FirstIndex(s[1..], p)
      case None => None
      case Some(k) => Some(k + 1)
  }

  /** `.filter(p).first()`: the first element in table order satisfying
      `p`, or nothing when no element does. */
  function First<T>(s: seq<T>, p: T -> bool): (r: Option<T>)
    ensures r.None? <==> forall j :: 0 <= j < |s| ==> !p(s[j])
    ensures r.Some? ==> r.value in s && p(r.value)
    ensures r.Some? ==>
      exists i :: 0 <= i < |s| && s[i] == r.value && forall j :: 0 <= j < i ==> !p(s[j])
  {
    match FirstIndex(s, p)
    case None => None
    case Some(i) => Some(s[i])
  }

  /** Appending an element never changes an earlier first match; it becomes
      the first match only when nothing before it matched. */
  lemma {:induction false} FirstIndexAppend<T>(s: seq<T>, x: T, p: T -> bool)
    ensures FirstIndex(s + [x], p) ==
      match FirstIndex(s, p)
      case Some(i) => Some(i)
      case None => if p(x) then Some(|s|) else None
  {
    if s != [] {
      assert (s + [x])[1..] == s[1..] + [x];
      FirstIndexAppend(s[1..], x, p);
    }
  }

  /** `First` on a sequence with one more element at the end. */
  lemma FirstAppend<T>(s: seq<T>, x: T, p: T -> bool)
    ensures First(s + [x], p) == if First(s, p).Some? then First(s, p) else if p(x) then Some(x) else None
  {
    FirstIndexAppend(s, x, p);
    match FirstIndex(s, p)
    case None =>
    case Some(i) => assert (s + [x])[i] == s[i];
  }

  /** `First` looks at the head before the rest. */
  lemma FirstUnfold<T>(s: seq<T>, p: T -> bool)
    requires s != []
    ensures First(s, p) == if p(s[0]) then Some(s[0]) else First(s[1..], p)
  {
  }

  /** The first `q`-element of the `p`-filtered sequence is the first
      element satisfying both, here named `pq`. */
  lemma {:induction false} FirstOfFilter<T(!new)>(s: seq<T>, p: T -> bool, q: T -> bool, pq: T -> bool)
    requires forall x :: pq(x) == (p(x) && q(x))
    ensures First(Filter(s, p), q) == First(s, pq)
  {
    if s != [] {
      FirstOfFilter(s[1..], p, q, pq);
      FirstUnfold(s, pq);
      var rest := Filter(s[1..], p);
      if p(s[0]) {
        assert Filter(s, p) == [s[0]] + rest;
        FirstUnfold([s[0]] + rest, q);
        assert ([s[0]] + rest)[1..] == rest;
      }
    }
  }
}
