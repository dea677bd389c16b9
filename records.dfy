/** The records the app keeps in the browser's key/value storage, the rules by
    which the swipe screen and the choose screen update those lists, and the
    storage itself as an object whose fields are those lists. */
module Records {
  import opened Common

  /** The canonical movie record returned by `/api/movies`. */
  datatype Movie = Movie(id: int, title: string, rating: real, posterPath: Option<string>, overview: string)

  datatype Action = WatchNow | WatchLater

  /** An entry of the "selectedMovies" shortlist. */
  datatype SelectedMovie = SelectedMovie(movie: Movie, selectedAt: int, action: Action, watched: bool)

  /** An entry of the "want to watch" pile built by right swipes. */
  datatype CandidateMovie = CandidateMovie(movie: Movie, addedAt: int)

  /** An entry of "favoriteMovies", built by up swipes. */
  datatype FavoriteMovie = FavoriteMovie(movie: Movie, addedAt: int)

  datatype Direction = Left | Right | Down | Up

  /** An entry of "swipeStats". */
  datatype SwipeStat = SwipeStat(movieId: int, timestamp: int, direction: Direction)

  /** Capacity of the "shownMovies" ledger. */
  const ShownCapacity: nat := 100
  /** Capacity of the "swipeStats" log. */
  const StatsCapacity: nat := 1000

  predicate HasSelected(list: seq<SelectedMovie>, id: int)
  {
    exists i :: 0 <= i < |list| && list[i].movie.id == id
  }

  predicate HasCandidate(list: seq<CandidateMovie>, id: int)
  {
    exists i :: 0 <= i < |list| && list[i].movie.id == id
  }

  predicate HasFavorite(list: seq<FavoriteMovie>, id: int)
  {
    exists i :: 0 <= i < |list| && list[i].movie.id == id
  }

  /** No two entries share a movie id. */
  predicate SelectedIdsUnique(list: seq<SelectedMovie>)
  {
    forall i, j :: 0 <= i < j < |list| ==> list[i].movie.id != list[j].movie.id
  }

  predicate CandidateIdsUnique(list: seq<CandidateMovie>)
  {
    forall i, j :: 0 <= i < j < |list| ==> list[i].movie.id != list[j].movie.id
  }

  predicate FavoriteIdsUnique(list: seq<FavoriteMovie>)
  {
    forall i, j :: 0 <= i < j < |list| ==> list[i].movie.id != list[j].movie.id
  }

  /** `saveSelectedMovie`: first write wins; a new entry goes to the front,
      not yet watched, and every existing entry is kept behind it. */
  function SaveSelected(list: seq<SelectedMovie>, m: Movie, action: Action, now: int): (r: seq<SelectedMovie>)
    ensures HasSelected(r, m.id)
    ensures HasSelected(list, m.id) ==> r == list
    ensures !HasSelected(list, m.id) ==>
              |r| == |list| + 1 && r[0] == SelectedMovie(m, now, action, false) && r[1..] == list
    ensures SelectedIdsUnique(list) ==> SelectedIdsUnique(r)
  {
    if HasSelected(list, m.id) then list
    else
      var r := [SelectedMovie(m, now, action, false)] + list;
      assert r[0].movie.id == m.id;
      r
  }

  /** `addToCandidate`: append at the end unless the id is already there. */
  function AddToCandidate(list: seq<CandidateMovie>, c: CandidateMovie): (r: seq<CandidateMovie>)
    ensures HasCandidate(r, c.movie.id)
    ensures HasCandidate(list, c.movie.id) ==> r == list
    ensures !HasCandidate(list, c.movie.id) ==> r == list + [c]
    ensures CandidateIdsUnique(list) ==> CandidateIdsUnique(r)
  {
    if HasCandidate(list, c.movie.id) then list
    else
      var r := list + [c];
      assert r[|list|].movie.id == c.movie.id;
      r
  }

  /** `addToFavorites`: prepend unless the id is already there. */
  function AddToFavorites(list: seq<FavoriteMovie>, f: FavoriteMovie): (r: seq<FavoriteMovie>)
    ensures HasFavorite(r, f.movie.id)
    ensures HasFavorite(list, f.movie.id) ==> r == list
    ensures !HasFavorite(list, f.movie.id) ==> r == [f] + list
    ensures FavoriteIdsUnique(list) ==> FavoriteIdsUnique(r)
  {
    if HasFavorite(list, f.movie.id) then list
    else
      var r := [f] + list;
      assert r[0].movie.id == f.movie.id;
      r
  }

  /** `markAsWatched` on the swipe screen: the "watchedMovies" id list grows
      by the id unless it already holds it. */
  function AddWatchedId(list: seq<int>, id: int): (r: seq<int>)
    ensures id in r
    ensures forall x :: x in r <==> x in list || x == id
    ensures id in list ==> r == list
    ensures id !in list ==> r == list + [id]
    ensures NoDup(list) ==> NoDup(r)
  {
    if id in list then list else list + [id]
  }

  /** Push `x` at the end and, when that exceeds `cap`, drop the oldest entry
      (the `push` then `shift` of the "shownMovies" and "swipeStats" lists). */
  function PushCapped<T>(s: seq<T>, x: T, cap: nat): (r: seq<T>)
    ensures |s| <= cap ==> |r| <= cap
    ensures cap > 0 ==> |r| > 0 && r[|r| - 1] == x
    ensures |s| < cap ==> r == s + [x]
    ensures |s| >= cap ==> r == (s + [x])[1..]
  {
    var t := s + [x];
    if |t| > cap then t[1..] else t
  }

  /** The last `n` elements of `t` (all of `t` when it is shorter). */
  function LastN<T>(t: seq<T>, n: nat): (r: seq<T>)
  {
    if |t| <= n then t else t[|t| - n..]
  }

  /** Pushing each of `xs` in turn. */
  function PushAllCapped<T>(s: seq<T>, xs: seq<T>, cap: nat): seq<T>
    decreases |xs|
  {
    if xs == [] then s else PushAllCapped(PushCapped(s, xs[0], cap), xs[1..], cap)
  }

  lemma LastNOfLastN<T>(t: seq<T>, u: seq<T>, n: nat)
    ensures LastN(LastN(t, n) + u, n) == LastN(t + u, n)
  {
    if |t| > n {
      var a := t[|t| - n..];
      assert (t + u)[|t + u| - n..] == (a + u)[|a + u| - n..] || |a + u| <= n;
      if |a + u| <= n {
        assert |u| == 0;
        assert t + u == t;
        assert a + u == a;
      }
    }
  }

  /** FIFO eviction: after any number of pushes onto a ledger within its
      capacity, the ledger holds exactly the newest `cap` ids, oldest first. */
  lemma {:induction false} PushAllKeepsNewest<T>(s: seq<T>, xs: seq<T>, cap: nat)
    requires |s| <= cap
    ensures PushAllCapped(s, xs, cap) == LastN(s + xs, cap)
    ensures |PushAllCapped(s, xs, cap)| <= cap
    decreases |xs|
  {
    if xs == [] {
      assert s + xs == s;
    } else {
      var s' := PushCapped(s, xs[0], cap);
      assert s' == LastN(s + [xs[0]], cap);
      PushAllKeepsNewest(s', xs[1..], cap);
      LastNOfLastN(s + [xs[0]], xs[1..], cap);
      assert s + [xs[0]] + xs[1..] == s + xs;
    }
  }

  /** Saving the same movie twice leaves the shortlist as after the first save,
      whatever disposition and time the second save carries. */
  lemma SaveSelectedIdempotent(list: seq<SelectedMovie>, m: Movie, a1: Action, t1: int, m2: Movie, a2: Action, t2: int)
    requires m2.id == m.id
    ensures SaveSelected(SaveSelected(list, m, a1, t1), m2, a2, t2) == SaveSelected(list, m, a1, t1)
  {
  }

  /** The browser's key/value storage, one field per key the core reads or
      writes. A key that is absent reads as the empty list, except
      "candidates", whose absence the choose screen distinguishes. */
  class LocalStore {
    var selectedMovies: seq<SelectedMovie>
    var shownMovies: seq<int>
    var watchedMovies: seq<int>
    var favoriteMovies: seq<FavoriteMovie>
    var swipeStats: seq<SwipeStat>
    var candidates: Option<seq<CandidateMovie>>

    constructor ()
      ensures selectedMovies == [] && shownMovies == [] && watchedMovies == []
      ensures favoriteMovies == [] && swipeStats == [] && candidates == None
    {
      selectedMovies, shownMovies, watchedMovies := [], [], [];
      favoriteMovies, swipeStats, candidates := [], [], None;
    }

    method SaveSelectedMovie(m: Movie, action: Action, now: int)
      modifies this`selectedMovies
      ensures selectedMovies == SaveSelected(old(selectedMovies), m, action, now)
    {
      selectedMovies := SaveSelected(selectedMovies, m, action, now);
    }

    method MarkAsWatched(id: int)
      modifies this`watchedMovies
      ensures watchedMovies == AddWatchedId(old(watchedMovies), id)
    {
      watchedMovies := AddWatchedId(watchedMovies, id);
    }

    method AddFavorite(m: Movie, now: int)
      modifies this`favoriteMovies
      ensures favoriteMovies == AddToFavorites(old(favoriteMovies), FavoriteMovie(m, now))
    {
      favoriteMovies := AddToFavorites(favoriteMovies, FavoriteMovie(m, now));
    }

    method SaveSwipeStat(id: int, direction: Direction, now: int)
      modifies this`swipeStats
      ensures swipeStats == PushCapped(old(swipeStats), SwipeStat(id, now, direction), StatsCapacity)
      ensures |old(swipeStats)| <= StatsCapacity ==> |swipeStats| <= StatsCapacity
    {
      swipeStats := PushCapped(swipeStats, SwipeStat(id, now, direction), StatsCapacity);
    }

    method RecordShown(id: int)
      modifies this`shownMovies
      ensures shownMovies == PushCapped(old(shownMovies), id, ShownCapacity)
      ensures |old(shownMovies)| <= ShownCapacity ==> |shownMovies| <= ShownCapacity
    {
      shownMovies := PushCapped(shownMovies, id, ShownCapacity);
    }

    method HandOffCandidates(list: seq<CandidateMovie>)
      modifies this`candidates
      ensures candidates == Some(list)
    {
      candidates := Some(list);
    }

    method ClearCandidates()
      modifies this`candidates
      ensures candidates == None
    {
      candidates := None;
    }
  }
}
