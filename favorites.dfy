/** The favourites screen (movie-swipe/app/favorites/page.tsx): the stored
    favourites, their removal, and the "recommended" ids ranked by how often
    each movie was swiped right or up. */
module Favorites {
  import opened Common
  import opened Records

  /** How many ids the recommendation list holds at most. */
  const MaxRecommendations: nat := 5
  /** Integer keys below this bound are array indices, which JavaScript
      enumerates before every other key, in ascending order. */
  const ArrayIndexBound: int := 4294967295

  /** A right or an up swipe: the directions the recommendation counts. */
  predicate IsLike(s: SwipeStat)
  {
    s.direction == Right || s.direction == Up
  }

  ghost predicate Liked(stats: seq<SwipeStat>, id: int)
  {
    exists i :: 0 <= i < |stats| && IsLike(stats[i]) && stats[i].movieId == id
  }

  lemma LikedPrefix(stats: seq<SwipeStat>, id: int)
    requires stats != []
    ensures Liked(stats, id) <==>
              Liked(stats[..|stats| - 1], id) || (IsLike(stats[|stats| - 1]) && stats[|stats| - 1].movieId == id)
  {
    var p := stats[..|stats| - 1];
    if Liked(stats, id) {
      var i :| 0 <= i < |stats| && IsLike(stats[i]) && stats[i].movieId == id;
      if i < |p| {
        assert p[i] == stats[i];
      }
    }
    if Liked(p, id) {
      var i :| 0 <= i < |p| && IsLike(p[i]) && p[i].movieId == id;
      assert stats[i] == p[i];
    }
  }

  /** The number of right and up swipes on `id`. */
  function LikeCount(stats: seq<SwipeStat>, id: int): (n: nat)
    ensures n <= |stats|
    ensures n > 0 <==> Liked(stats, id)
    decreases |stats|
  {
    if stats == [] then 0
    else
      var last := stats[|stats| - 1];
      LikedPrefix(stats, id);
      LikeCount(stats[..|stats| - 1], id) + (if IsLike(last) && last.movieId == id then 1 else 0)
  }

  /** The liked ids in the order they were first liked: the key order of the
      dictionary the counting loop fills. */
  function LikedIds(stats: seq<SwipeStat>): (r: seq<int>)
    ensures NoDup(r)
    ensures forall id :: id in r <==> Liked(stats, id)
    decreases |stats|
  {
    if stats == [] then []
    else
      var last := stats[|stats| - 1];
      var r := LikedIds(stats[..|stats| - 1]);
      forall id ensures Liked(stats, id) <==> id in r || (IsLike(last) && last.movieId == id) {
        LikedPrefix(stats, id);
      }
      if IsLike(last) && last.movieId !in r then r + [last.movieId] else r
  }

  /** The dictionary of like counts, built statistic by statistic: a like
      adds one to its id's entry, creating it at 1. */
  function CountMap(stats: seq<SwipeStat>): (m: map<int, nat>)
    decreases |stats|
  {
    if stats == [] then map[]
    else
      var m := CountMap(stats[..|stats| - 1]);
      var last := stats[|stats| - 1];
      if IsLike(last) then m[last.movieId := (if last.movieId in m then m[last.movieId] else 0) + 1] else m
  }

  /** The dictionary holds exactly the liked ids, each with its like count. */
  lemma {:induction false} CountMapCounts(stats: seq<SwipeStat>, k: int)
    ensures k in CountMap(stats) <==> Liked(stats, k)
    ensures k in CountMap(stats) ==> CountMap(stats)[k] == LikeCount(stats, k)
    decreases |stats|
  {
    if stats != [] {
      CountMapCounts(stats[..|stats| - 1], k);
      LikedPrefix(stats, k);
    }
  }

  /** One more statistic: a like adds its id at the end of the key order when
      it is new, and adds one to its count. */
  lemma CountSnoc(p: seq<SwipeStat>, s: SwipeStat)
    ensures LikedIds(p + [s]) ==
              if IsLike(s) && s.movieId !in LikedIds(p) then LikedIds(p) + [s.movieId] else LikedIds(p)
    ensures CountMap(p + [s]) ==
              if IsLike(s) then CountMap(p)[s.movieId := (if s.movieId in CountMap(p) then CountMap(p)[s.movieId] else 0) + 1]
              else CountMap(p)
  {
    var t := p + [s];
    assert t[..|t| - 1] == p && t[|t| - 1] == s;
  }

  /** The `forEach` over the stored statistics that fills the dictionary. */
  method CountLikes(stats: seq<SwipeStat>) returns (counts: map<int, nat>, order: seq<int>)
    ensures order == LikedIds(stats)
    ensures counts == CountMap(stats)
  {
    counts, order := map[], [];
    var i := 0;
    while i < |stats|
      invariant 0 <= i <= |stats|
      invariant order == LikedIds(stats[..i])
      invariant counts == CountMap(stats[..i])
    {
      var s := stats[i];
      assert stats[..i + 1] == stats[..i] + [s];
      CountSnoc(stats[..i], s);
      if IsLike(s) {
        counts := counts[s.movieId := (if s.movieId in counts then counts[s.movieId] else 0) + 1];
        if s.movieId !in order {
          order := order + [s.movieId];
        }
      }
      i := i + 1;
    }
    assert stats[..i] == stats;
  }

  predicate SortedDesc<T>(s: seq<T>, rank: T -> int)
  {
    forall i, j :: 0 <= i < j < |s| ==> rank(s[i]) >= rank(s[j])
  }

  /** Insert `x` before the first element it outranks or ties with. */
  function InsertDesc<T(!new)>(x: T, t: seq<T>, rank: T -> int): (r: seq<T>)
    ensures |r| == |t| + 1
    ensures multiset(r) == multiset(t) + multiset{x}
  {
    if t == [] || rank(x) >= rank(t[0]) then [x] + t
    else
      var rest := InsertDesc(x, t[1..], rank);
      assert t == [t[0]] + t[1..];
      [t[0]] + rest
  }

  lemma {:induction false} InsertDescSorted<T(!new)>(x: T, t: seq<T>, rank: T -> int)
    requires SortedDesc(t, rank)
    ensures SortedDesc(InsertDesc(x, t, rank), rank)
  {
    if t != [] && rank(x) < rank(t[0]) {
      var rest := InsertDesc(x, t[1..], rank);
      InsertDescSorted(x, t[1..], rank);
      var r := [t[0]] + rest;
      forall j | 0 <= j < |rest|
        ensures rank(t[0]) >= rank(rest[j])
      {
        InsertedFrom(x, t[1..], rank, j);
      }
      assert forall i :: 1 <= i < |r| ==> r[i] == rest[i - 1];
    }
  }

  /** Every element of an insertion result is the inserted one or an old one. */
  lemma InsertedFrom<T(!new)>(x: T, t: seq<T>, rank: T -> int, j: nat)
    requires j < |InsertDesc(x, t, rank)|
    ensures var y := InsertDesc(x, t, rank)[j]; y == x || exists k :: 0 <= k < |t| && t[k] == y
  {
    var r := InsertDesc(x, t, rank);
    assert r[j] in multiset(r);
    assert r[j] == x || r[j] in multiset(t);
  }

  /** A stable sort, highest rank first (`sort((a, b) => rank(b) - rank(a))`):
      a permutation of `s` whose ranks never increase. */
  function SortDesc<T(!new)>(s: seq<T>, rank: T -> int): (r: seq<T>)
    ensures |r| == |s|
    ensures multiset(r) == multiset(s)
    ensures forall y :: y in r <==> y in s
    ensures SortedDesc(r, rank)
    decreases |s|
  {
    if s == [] then []
    else
      assert s == [s[0]] + s[1..];
      var rest := SortDesc(s[1..], rank);
      InsertDescSorted(s[0], rest, rank);
      var r := InsertDesc(s[0], rest, rank);
      assert forall y :: y in r <==> y in multiset(r);
      assert forall y :: y in s <==> y in multiset(s);
      r
  }

  /** A permutation of a duplicate-free sequence is duplicate-free. */
  lemma PermutationNoDup<T>(a: seq<T>, b: seq<T>)
    requires multiset(a) == multiset(b) && NoDup(a)
    ensures NoDup(b)
  {
    forall i, j | 0 <= i < j < |b|
      ensures b[i] != b[j]
    {
      if b[i] == b[j] {
        assert b == b[..j] + b[j..];
        assert b[i] in multiset(b[..j]) && b[j] in multiset(b[j..]);
        assert multiset(b)[b[i]] >= 2;
        NoDupOccursOnce(a, b[i]);
      }
    }
  }

  lemma {:induction false} NoDupOccursOnce<T>(a: seq<T>, x: T)
    requires NoDup(a)
    ensures multiset(a)[x] <= 1
  {
    if a != [] {
      assert a == [a[0]] + a[1..];
      NoDupOccursOnce(a[1..], x);
      if a[0] == x {
        assert x !in a[1..];
      }
    }
  }

  predicate IsArrayIndex(k: int)
  {
    0 <= k < ArrayIndexBound
  }

  lemma {:induction false} FilterNoDup<T(!new)>(s: seq<T>, p: T -> bool)
    requires NoDup(s)
    ensures NoDup(Filter(s, p))
  {
    if s != [] {
      FilterNoDup(s[1..], p);
      assert s[0] !in s[1..];
    }
  }

  /** `Object.entries` key order: array-index keys ascending, then the other
      keys in insertion order. */
  function EntryOrder(order: seq<int>): (r: seq<int>)
    ensures forall k :: k in r <==> k in order
    ensures NoDup(order) ==> NoDup(r)
  {
    EntryOrderNoDup(order);
    SortDesc(Filter(order, IsArrayIndex), k => -k) + Filter(order, k => !IsArrayIndex(k))
  }

  lemma EntryOrderNoDup(order: seq<int>)
    ensures NoDup(order) ==> NoDup(SortDesc(Filter(order, IsArrayIndex), k => -k) + Filter(order, k => !IsArrayIndex(k)))
  {
    if !NoDup(order) {
      return;
    }
    var indices := SortDesc(Filter(order, IsArrayIndex), k => -k);
    var others := Filter(order, k => !IsArrayIndex(k));
    FilterNoDup(order, IsArrayIndex);
    PermutationNoDup(Filter(order, IsArrayIndex), indices);
    FilterNoDup(order, k => !IsArrayIndex(k));
    forall i, j | 0 <= i < |indices| && 0 <= j < |others|
      ensures indices[i] != others[j]
    {
      assert indices[i] in multiset(indices) && others[j] in others;
    }
  }

  function Take<T>(s: seq<T>, n: nat): (r: seq<T>)
  {
    if |s| <= n then s else s[..n]
  }

  /** The first `n` of a list sorted highest first are the top `n`: sorted,
      drawn from the list, and nothing left out ranks above anything kept. */
  lemma TakeSorted<T(!new)>(s: seq<T>, rank: T -> int, n: nat)
    requires SortedDesc(s, rank) && NoDup(s)
    ensures |Take(s, n)| <= n && NoDup(Take(s, n)) && SortedDesc(Take(s, n), rank)
    ensures forall y :: y in Take(s, n) ==> y in s
    ensures forall y :: y in s && y !in Take(s, n) ==>
              |Take(s, n)| == n && forall x :: x in Take(s, n) ==> rank(y) <= rank(x)
  {
    var r := Take(s, n);
    assert forall i :: 0 <= i < |r| ==> r[i] == s[i];
    forall y | y in s && y !in r
      ensures |r| == n && forall x :: x in r ==> rank(y) <= rank(x)
    {
      var p :| 0 <= p < |s| && s[p] == y;
      assert p >= |r|;
      forall x | x in r
        ensures rank(y) <= rank(x)
      {
        var i :| 0 <= i < |r| && r[i] == x;
      }
    }
  }

  /** The rank of a key: its count. */
  function CountOf(counts: map<int, nat>, k: int): int
  {
    if k in counts then counts[k] else 0
  }

  /** The filter / sort / slice pipeline: the keys that are not favourites,
      by count with the highest first, at most five of them. Every eligible
      key left out counts no more than any key kept, and only a full list
      leaves a key out. */
  function Ranked(keys: seq<int>, counts: map<int, nat>, favoriteIds: seq<int>): (r: seq<int>)
    requires NoDup(keys)
    ensures |r| <= MaxRecommendations
    ensures NoDup(r)
    ensures forall k :: k in r ==> k in keys && k !in favoriteIds
    ensures SortedDesc(r, k => CountOf(counts, k))
    ensures forall k :: k in keys && k !in favoriteIds && k !in r ==>
              |r| == MaxRecommendations && forall x :: x in r ==> CountOf(counts, k) <= CountOf(counts, x)
  {
    var rank := k => CountOf(counts, k);
    var eligible := Filter(keys, k => k !in favoriteIds);
    FilterNoDup(keys, k => k !in favoriteIds);
    var sorted := SortDesc(eligible, rank);
    PermutationNoDup(eligible, sorted);
    TakeSorted(sorted, rank, MaxRecommendations);
    Take(sorted, MaxRecommendations)
  }

  /** `generateRecommendations` on stored statistics: the liked ids that are
      not favourites, most liked first, at most five. */
  function Recommend(stats: seq<SwipeStat>, favoriteIds: seq<int>): (r: seq<int>)
    ensures |r| <= MaxRecommendations && NoDup(r)
    ensures forall k :: k in r ==> k !in favoriteIds && LikeCount(stats, k) > 0
    ensures forall i, j :: 0 <= i < j < |r| ==> LikeCount(stats, r[i]) >= LikeCount(stats, r[j])
    ensures forall k :: LikeCount(stats, k) > 0 && k !in favoriteIds && k !in r ==>
              |r| == MaxRecommendations && forall x :: x in r ==> LikeCount(stats, k) <= LikeCount(stats, x)
  {
    var keys := EntryOrder(LikedIds(stats));
    CountOfIsLikeCount(stats);
    Ranked(keys, CountMap(stats), favoriteIds)
  }

  /** The dictionary's rank of every id, present or not, is its like count. */
  lemma CountOfIsLikeCount(stats: seq<SwipeStat>)
    ensures forall k :: CountOf(CountMap(stats), k) == LikeCount(stats, k)
  {
    forall k
      ensures CountOf(CountMap(stats), k) == LikeCount(stats, k)
    {
      CountMapCounts(stats, k);
    }
  }

  /** The ids of the favourites, in list order. */
  function FavoriteIds(list: seq<FavoriteMovie>): (ids: seq<int>)
    ensures |ids| == |list|
    ensures forall id :: id in ids <==> HasFavorite(list, id)
  {
    var ids := seq(|list|, i requires 0 <= i < |list| => list[i].movie.id);
    assert forall i :: 0 <= i < |list| ==> ids[i] == list[i].movie.id;
    ids
  }

  /** `removeFavorite`: every favourite with the id goes, the rest keep
      their order. */
  function RemoveFavorite(list: seq<FavoriteMovie>, id: int): (r: seq<FavoriteMovie>)
    ensures forall f :: f in r <==> f in list && f.movie.id != id
    ensures forall f :: multiset(r)[f] == if f.movie.id != id then multiset(list)[f] else 0
    ensures !HasFavorite(r, id)
    ensures IsSubseq(r, list)
  {
    FilterCounts(list, (f: FavoriteMovie) => f.movie.id != id);
    var r := Filter(list, (f: FavoriteMovie) => f.movie.id != id);
    assert forall i :: 0 <= i < |r| ==> r[i] in r;
    r
  }

  /** Removing a favourite undoes an up swipe that added it. */
  lemma RemoveUndoesAdd(list: seq<FavoriteMovie>, f: FavoriteMovie)
    requires !HasFavorite(list, f.movie.id)
    ensures RemoveFavorite(AddToFavorites(list, f), f.movie.id) == list
  {
    var p := (x: FavoriteMovie) => x.movie.id != f.movie.id;
    var s := AddToFavorites(list, f);
    assert s[0] == f && s[1..] == list;
    assert Filter(s, p) == Filter(list, p);
    forall x | x in list
      ensures p(x)
    {
      var i :| 0 <= i < |list| && list[i] == x;
    }
    FilterKeepsAll(list, p);
  }

  /** The favourites screen's state. */
  class FavoritesView {
    const store: LocalStore
    var favorites: seq<FavoriteMovie>
    var recommendations: seq<int>

    constructor (s: LocalStore)
      ensures store == s && favorites == s.favoriteMovies && recommendations == []
    {
      store := s;
      favorites, recommendations := s.favoriteMovies, [];
    }

    /** `generateRecommendations`, given what is stored under "swipeStats"
        (`None` when nothing is): without favourites or without stored
        statistics the recommendations stay as they were. */
    method GenerateRecommendations(stored: Option<seq<SwipeStat>>)
      modifies this`recommendations
      ensures favorites == [] || stored.None? ==> recommendations == old(recommendations)
      ensures favorites != [] && stored.Some? ==>
                recommendations == Recommend(stored.value, FavoriteIds(favorites))
    {
      var favoriteIds := FavoriteIds(favorites);
      if |favoriteIds| == 0 || stored.None? {
        return;
      }
      var counts, order := CountLikes(stored.value);
      recommendations := Ranked(EntryOrder(order), counts, favoriteIds);
    }

    method Remove(id: int)
      modifies this`favorites, store`favoriteMovies
      ensures favorites == RemoveFavorite(old(favorites), id) && store.favoriteMovies == favorites
    {
      favorites := RemoveFavorite(favorites, id);
      store.favoriteMovies := favorites;
    }
  }
}
