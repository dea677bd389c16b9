/** Small helpers shared by every page and route of the app: an optional value,
    a route response, JavaScript's `Array.filter`, duplicate-free sequences, the
    `[...new Set(xs)]` idiom and the `Math.floor(Math.random() * n)` index pick. */
module Common {

  datatype Option<T> = None | Some(value: T)

  /** What an API route answers: a JSON body with status 200, or an error
      status, optionally carrying the status the upstream service returned. */
  datatype Response<T> =
    | Success(body: T)
    | ErrorStatus(status: int, upstreamStatus: Option<int>)

  /** The elements of `s` that satisfy `p`, in their original order (`s.filter(p)`). */
  function Filter<T(!new)>(s: seq<T>, p: T -> bool): (r: seq<T>)
    ensures |r| <= |s|
    ensures forall x :: x in r <==> x in s && p(x)
    ensures IsSubseq(r, s)
  {
    if s == [] then []
    else if p(s[0]) then [s[0]] + Filter(s[1..], p)
    else Filter(s[1..], p)
  }

  /** Filtering keeps every copy of an element that passes and no copy of
      one that fails: the result is exactly the passing part of the input,
      duplicates included. */
  lemma {:induction false} FilterCounts<T(!new)>(s: seq<T>, p: T -> bool)
    ensures forall x :: multiset(Filter(s, p))[x] == if p(x) then multiset(s)[x] else 0
  {
    if s != [] {
      FilterCounts(s[1..], p);
      assert s == [s[0]] + s[1..];
    }
  }

  /** `r` can be obtained from `s` by deleting elements (order is kept). */
  ghost predicate IsSubseq<T>(r: seq<T>, s: seq<T>)
    decreases |s|
  {
    r == [] || (s != [] && ((r[0] == s[0] && IsSubseq(r[1..], s[1..])) || IsSubseq(r, s[1..])))
  }

  lemma {:induction false} SubseqRefl<T>(s: seq<T>)
    ensures IsSubseq(s, s)
    decreases |s|
  {
    if s != [] {
      SubseqRefl(s[1..]);
    }
  }

  /** Filtering keeps the whole input exactly when every element passes. */
  lemma {:induction false} FilterAllIffFull<T(!new)>(s: seq<T>, p: T -> bool)
    ensures |Filter(s, p)| == |s| <==> forall x :: x in s ==> p(x)
  {
    if s != [] {
      FilterAllIffFull(s[1..], p);
      assert s[0] in s;
      assert forall x :: x in s[1..] ==> x in s;
      assert forall x :: x in s ==> x == s[0] || x in s[1..];
    }
  }

  /** The first element counts once when it passes. */
  lemma FilterHead<T(!new)>(s: seq<T>, p: T -> bool)
    requires s != []
    ensures |Filter(s, p)| == (if p(s[0]) then 1 else 0) + |Filter(s[1..], p)|
  {
  }

  lemma {:induction false} FilterKeepsAll<T(!new)>(s: seq<T>, p: T -> bool)
    requires forall x :: x in s ==> p(x)
    ensures Filter(s, p) == s
  {
    if s != [] {
      FilterKeepsAll(s[1..], p);
    }
  }

  /** Filtering by `p` and by its negation splits `s` in two. */
  lemma {:induction false} FilterPartition<T(!new)>(s: seq<T>, p: T -> bool, q: T -> bool)
    requires forall x :: x in s ==> (q(x) <==> !p(x))
    ensures |Filter(s, p)| + |Filter(s, q)| == |s|
  {
    if s != [] {
      FilterPartition(s[1..], p, q);
    }
  }

  predicate NoDup<T(==)>(s: seq<T>)
  {
    forall i, j :: 0 <= i < j < |s| ==> s[i] != s[j]
  }

  /** The index of the first occurrence of `x` in `s`. */
  function FirstIndex<T(==)>(s: seq<T>, x: T): (k: nat)
    requires x in s
    ensures k < |s| && s[k] == x
    ensures forall i :: 0 <= i < k ==> s[i] != x
  {
    if s[0] == x then 0 else FirstIndex(s[1..], x) + 1
  }

  /** Appending does not move the first occurrence of an element present
      before. */
  lemma FirstIndexAppend<T>(p: seq<T>, x: T, y: T)
    requires y in p
    ensures FirstIndex(p + [x], y) == FirstIndex(p, y)
  {
    var k := FirstIndex(p, y);
    assert (p + [x])[k] == y;
  }

  /** `[...new Set(s)]`: the first occurrence of each element, in order. */
  function Dedup<T(==,!new)>(s: seq<T>): (r: seq<T>)
    ensures NoDup(r)
    ensures forall x :: x in r <==> x in s
    ensures forall i, j :: 0 <= i < j < |r| ==> FirstIndex(s, r[i]) < FirstIndex(s, r[j])
    ensures IsSubseq(r, s)
    ensures |r| <= |s|
    ensures |r| == 0 <==> |s| == 0
  {
    if s == [] then []
    else
      var p, x := s[..|s| - 1], s[|s| - 1];
      assert s == p + [x];
      var rest := Dedup(p);
      SubseqSnoc(rest, p, x);
      DedupStepOrder(p, x, rest);
      if x in rest then rest
      else
        assert forall i :: 0 <= i < |rest| ==> (rest + [x])[i] == rest[i];
        rest + [x]
  }

  /** One step of `Dedup` keeps the first-occurrence order: the elements of
      `rest` keep their first indices when `x` is appended, and a new `x`
      comes after all of them. */
  lemma DedupStepOrder<T>(p: seq<T>, x: T, rest: seq<T>)
    requires forall y :: y in rest ==> y in p
    requires forall i, j :: 0 <= i < j < |rest| ==> FirstIndex(p, rest[i]) < FirstIndex(p, rest[j])
    ensures forall i, j :: 0 <= i < j < |rest| ==> FirstIndex(p + [x], rest[i]) < FirstIndex(p + [x], rest[j])
    ensures x !in p ==>
              forall i, j :: 0 <= i < j < |rest + [x]| ==>
                FirstIndex(p + [x], (rest + [x])[i]) < FirstIndex(p + [x], (rest + [x])[j])
  {
    forall i, j | 0 <= i < j < |rest|
      ensures FirstIndex(p + [x], rest[i]) < FirstIndex(p + [x], rest[j])
    {
      FirstIndexAppend(p, x, rest[i]);
      FirstIndexAppend(p, x, rest[j]);
    }
    if x !in p {
      NewLastComesLast(p, x, rest);
    }
  }

  lemma NewLastComesLast<T>(p: seq<T>, x: T, rest: seq<T>)
    requires x !in p
    requires forall y :: y in rest ==> y in p
    requires forall i, j :: 0 <= i < j < |rest| ==> FirstIndex(p + [x], rest[i]) < FirstIndex(p + [x], rest[j])
    ensures forall i, j :: 0 <= i < j < |rest + [x]| ==>
              FirstIndex(p + [x], (rest + [x])[i]) < FirstIndex(p + [x], (rest + [x])[j])
  {
    var r := rest + [x];
    var s := p + [x];
    assert s[|p|] == x;
    assert FirstIndex(s, x) == |p|;
    forall i, j | 0 <= i < j < |r|
      ensures FirstIndex(s, r[i]) < FirstIndex(s, r[j])
    {
      assert r[i] == rest[i] && rest[i] in rest;
      FirstIndexAppend(p, x, rest[i]);
      if j < |rest| {
        assert r[j] == rest[j];
      } else {
        assert r[j] == x;
      }
    }
  }

  /** A subsequence stays one when both sides grow, or only the longer. */
  lemma {:induction false} SubseqSnoc<T>(r: seq<T>, s: seq<T>, x: T)
    requires IsSubseq(r, s)
    ensures IsSubseq(r, s + [x]) && IsSubseq(r + [x], s + [x])
    decreases |s|
  {
    if s == [] {
      assert r == [];
      assert IsSubseq([x][1..], [x][1..]);
    } else {
      assert (s + [x])[1..] == s[1..] + [x];
      if r != [] && r[0] == s[0] && IsSubseq(r[1..], s[1..]) {
        SubseqSnoc(r[1..], s[1..], x);
        assert (r + [x])[1..] == r[1..] + [x];
      } else if r != [] {
        SubseqSnoc(r, s[1..], x);
      } else {
        SubseqSnoc(r, s[1..], x);
        assert r + [x] == [x];
      }
    }
  }

  /** `Math.floor(u * n)` for a random draw `u` in [0, 1). */
  function RandomIndex(u: real, n: nat): (k: nat)
    requires 0.0 <= u < 1.0 && n > 0
    ensures k < n
  {
    ProductBelow(u, n);
    (u * n as real).Floor
  }

  lemma ProductBelow(u: real, n: nat)
    requires 0.0 <= u < 1.0 && n > 0
    ensures 0.0 <= u * n as real < n as real
  {
  }
}
