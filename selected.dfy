/** The shortlist screen (movie-swipe/app/selected/page.tsx): the stored
    "selectedMovies" list shown by disposition, removal, "watched" marks, the
    per-movie streaming-provider lookups, and bulk sharing of a selection. */
module Selected {
  import opened Common
  import opened Records

  /** Which entries the list shows: all, or those with one disposition. */
  datatype ListFilter = All | Only(action: Action)

  datatype Provider = Provider(id: int, name: string, logoPath: Option<string>)

  /** Where a movie can be streamed, rented or bought. */
  datatype WatchProviders = WatchProviders(link: Option<string>, flatrate: seq<Provider>, rent: seq<Provider>, buy: seq<Provider>)

  /** `filteredMovies`: the whole list, or exactly the entries with the chosen
      disposition, in list order. */
  function FilteredMovies(list: seq<SelectedMovie>, f: ListFilter): (r: seq<SelectedMovie>)
    ensures f == All ==> r == list
    ensures f.Only? ==> forall x :: x in r <==> x in list && x.action == f.action
    ensures f.Only? ==> forall x :: multiset(r)[x] == if x.action == f.action then multiset(list)[x] else 0
    ensures IsSubseq(r, list)
  {
    if f == All then
      assert IsSubseq(list, list) by { SubseqRefl(list); }
      list
    else
      FilterCounts(list, (x: SelectedMovie) => x.action == f.action);
      Filter(list, (x: SelectedMovie) => x.action == f.action)
  }

  /** The two dispositions split the shortlist: every entry is shown under
      exactly one of them. */
  lemma DispositionsPartition(list: seq<SelectedMovie>)
    ensures |FilteredMovies(list, Only(WatchNow))| + |FilteredMovies(list, Only(WatchLater))| == |list|
  {
    FilterPartition(list, (x: SelectedMovie) => x.action == WatchNow, (x: SelectedMovie) => x.action == WatchLater);
  }

  /** `removeMovie`: every entry with the id goes, the rest keep their order. */
  function RemoveMovie(list: seq<SelectedMovie>, id: int): (r: seq<SelectedMovie>)
    ensures forall x :: x in r <==> x in list && x.movie.id != id
    ensures forall x :: multiset(r)[x] == if x.movie.id != id then multiset(list)[x] else 0
    ensures !HasSelected(r, id)
    ensures IsSubseq(r, list)
  {
    FilterCounts(list, (x: SelectedMovie) => x.movie.id != id);
    var r := Filter(list, (x: SelectedMovie) => x.movie.id != id);
    assert forall i :: 0 <= i < |r| ==> r[i] in r;
    r
  }

  /** Removing an id that is not on the list changes nothing. */
  lemma RemoveAbsent(list: seq<SelectedMovie>, id: int)
    requires !HasSelected(list, id)
    ensures RemoveMovie(list, id) == list
  {
    forall x | x in list
      ensures x.movie.id != id
    {
      var i :| 0 <= i < |list| && list[i] == x;
    }
    FilterKeepsAll(list, (x: SelectedMovie) => x.movie.id != id);
  }

  /** Removing a movie undoes saving it: saving and then removing the same id
      gives the list with that id removed, and the original list when the id
      was not there before. */
  lemma RemoveUndoesSave(list: seq<SelectedMovie>, m: Movie, action: Action, now: int)
    ensures RemoveMovie(SaveSelected(list, m, action, now), m.id) == RemoveMovie(list, m.id)
    ensures !HasSelected(list, m.id) ==> RemoveMovie(SaveSelected(list, m, action, now), m.id) == list
  {
    var p := (x: SelectedMovie) => x.movie.id != m.id;
    if !HasSelected(list, m.id) {
      var s := SaveSelected(list, m, action, now);
      assert s[0].movie.id == m.id && s[1..] == list;
      assert Filter(s, p) == Filter(list, p);
      RemoveAbsent(list, m.id);
    }
  }

  /** `markAsWatched`: entries with the id become watched; every other field
      and every other entry stays as it was. */
  function MarkWatched(list: seq<SelectedMovie>, id: int): (r: seq<SelectedMovie>)
    ensures |r| == |list|
    ensures forall i :: 0 <= i < |list| ==>
              r[i].movie == list[i].movie && r[i].selectedAt == list[i].selectedAt && r[i].action == list[i].action
    ensures forall i :: 0 <= i < |list| ==> r[i].watched == (list[i].watched || list[i].movie.id == id)
  {
    seq(|list|, i requires 0 <= i < |list| => if list[i].movie.id == id then list[i].(watched := true) else list[i])
  }

  /** Marking twice is marking once. */
  lemma MarkWatchedIdempotent(list: seq<SelectedMovie>, id: int)
    ensures MarkWatched(MarkWatched(list, id), id) == MarkWatched(list, id)
  {
    var once := MarkWatched(list, id);
    var twice := MarkWatched(once, id);
    assert forall i :: 0 <= i < |list| ==> twice[i] == once[i];
  }

  /** `selectedMovies.find(m => m.id === id)`: the first entry with the id. */
  function FindSelected(list: seq<SelectedMovie>, id: int): (r: Option<SelectedMovie>)
    ensures r.None? <==> !HasSelected(list, id)
    ensures r.Some? ==> exists i :: 0 <= i < |list| && list[i] == r.value && r.value.movie.id == id &&
                          forall j :: 0 <= j < i ==> list[j].movie.id != id
  {
    if list == [] then None
    else if list[0].movie.id == id then Some(list[0])
    else
      var r := FindSelected(list[1..], id);
      if r.Some? then
        var i :| 0 <= i < |list[1..]| && list[1..][i] == r.value && r.value.movie.id == id &&
                 forall j :: 0 <= j < i ==> list[1..][j].movie.id != id;
        assert list[i + 1] == r.value;
        r
      else
        assert forall i :: 1 <= i < |list| ==> list[i] == list[1..][i - 1];
        r
  }

  /** `handleProviderClick`: opening a streaming link marks the movie watched,
      unless it is not on the list or its first entry already is watched. */
  function ProviderClick(list: seq<SelectedMovie>, id: int): (r: seq<SelectedMovie>)
    ensures !HasSelected(list, id) ==> r == list
    ensures HasSelected(list, id) ==> FindSelected(r, id).Some? && FindSelected(r, id).value.watched
    ensures FindSelected(list, id).Some? && FindSelected(list, id).value.watched ==> r == list
    ensures FindSelected(list, id).Some? && !FindSelected(list, id).value.watched ==> r == MarkWatched(list, id)
    ensures |r| == |list|
    ensures forall i :: 0 <= i < |list| ==>
              r[i].movie == list[i].movie && r[i].action == list[i].action && (list[i].watched ==> r[i].watched)
  {
    var found := FindSelected(list, id);
    if found.Some? && !found.value.watched then
      var r := MarkWatched(list, id);
      var i :| 0 <= i < |list| && list[i].movie.id == id;
      assert r[i].movie.id == id;
      r
    else list
  }

  /** A second click on the same link changes nothing. */
  lemma ProviderClickIdempotent(list: seq<SelectedMovie>, id: int)
    ensures ProviderClick(ProviderClick(list, id), id) == ProviderClick(list, id)
  {
  }

  /** `toggleMovieSelection`: the id leaves the set if it was in it and joins
      it otherwise. */
  function ToggleSelection(ids: set<int>, id: int): (r: set<int>)
    ensures id in r <==> id !in ids
    ensures forall x :: x != id ==> (x in r <==> x in ids)
  {
    if id in ids then ids - {id} else ids + {id}
  }

  /** Toggling the same id twice restores the selection. */
  lemma ToggleSelectionTwice(ids: set<int>, id: int)
    ensures ToggleSelection(ToggleSelection(ids, id), id) == ids
  {
  }

  /** The movies a bulk share sends: the shown entries whose ids are
      selected, in list order. */
  function SharedMovies(shown: seq<SelectedMovie>, ids: set<int>): (r: seq<SelectedMovie>)
    ensures forall x :: x in r <==> x in shown && x.movie.id in ids
    ensures forall x :: multiset(r)[x] == if x.movie.id in ids then multiset(shown)[x] else 0
    ensures IsSubseq(r, shown)
  {
    FilterCounts(shown, (x: SelectedMovie) => x.movie.id in ids);
    Filter(shown, (x: SelectedMovie) => x.movie.id in ids)
  }

  /** The ids on a list, as a set. */
  function IdSet(list: seq<SelectedMovie>): (ids: set<int>)
    ensures forall id :: id in ids <==> HasSelected(list, id)
  {
    set i | 0 <= i < |list| :: list[i].movie.id
  }

  /** A list with one more entry has that entry's id as well. */
  lemma IdSetSnoc(list: seq<SelectedMovie>, m: SelectedMovie)
    ensures IdSet(list + [m]) == IdSet(list) + {m.movie.id}
  {
    var l := list + [m];
    assert l[|list|] == m;
    assert forall i :: 0 <= i < |list| ==> l[i] == list[i];
  }

  /** The shortlist screen's state. */
  class SelectedView {
    const store: LocalStore
    var movies: seq<SelectedMovie>
    var filter: ListFilter
    var providersMap: map<int, Option<WatchProviders>>
    var loadingProviders: set<int>
    var isSelectionMode: bool
    var selectedIds: set<int>

    /** The screen's list is the stored list, and no movie is both looked up
        and still loading. */
    predicate Valid()
      reads this, store
    {
      movies == store.selectedMovies && loadingProviders !! providersMap.Keys
    }

    /** The entries on screen. */
    function Visible(): seq<SelectedMovie>
      reads this
    {
      FilteredMovies(movies, filter)
    }

    constructor (s: LocalStore)
      ensures Valid() && store == s && movies == s.selectedMovies && filter == All
      ensures providersMap == map[] && loadingProviders == {} && !isSelectionMode && selectedIds == {}
    {
      store := s;
      movies, filter := s.selectedMovies, All;
      providersMap, loadingProviders := map[], {};
      isSelectionMode, selectedIds := false, {};
    }

    method SetFilter(f: ListFilter)
      modifies this`filter
      ensures filter == f
    {
      filter := f;
    }

    method Remove(id: int)
      requires Valid()
      modifies this`movies, store`selectedMovies
      ensures Valid() && movies == RemoveMovie(old(movies), id)
    {
      movies := RemoveMovie(movies, id);
      store.selectedMovies := movies;
    }

    method MarkAsWatched(id: int)
      requires Valid()
      modifies this`movies, store`selectedMovies
      ensures Valid() && movies == MarkWatched(old(movies), id)
    {
      movies := MarkWatched(movies, id);
      store.selectedMovies := movies;
    }

    method OpenProvider(id: int)
      requires Valid()
      modifies this`movies, store`selectedMovies
      ensures Valid() && movies == ProviderClick(old(movies), id)
    {
      movies := ProviderClick(movies, id);
      store.selectedMovies := movies;
    }

    /** The guard of `fetchProviders`: a lookup starts only for a movie that
        has no answer yet and is not already loading. */
    method BeginFetchProviders(id: int) returns (started: bool)
      requires Valid()
      modifies this`loadingProviders
      ensures Valid()
      ensures started <==> id !in old(providersMap) && id !in old(loadingProviders)
      ensures loadingProviders == if started then old(loadingProviders) + {id} else old(loadingProviders)
    {
      if id in providersMap || id in loadingProviders {
        return false;
      }
      loadingProviders := loadingProviders + {id};
      started := true;
    }

    /** A lookup ended: its answer, or `None` for a failed request, is kept,
        and the movie is no longer loading. */
    method FinishFetchProviders(id: int, answer: Option<WatchProviders>)
      requires Valid()
      modifies this`providersMap, this`loadingProviders
      ensures Valid()
      ensures providersMap == old(providersMap)[id := answer]
      ensures loadingProviders == old(loadingProviders) - {id}
    {
      providersMap := providersMap[id := answer];
      loadingProviders := loadingProviders - {id};
    }

    /** The effect that walks the entries on screen and starts a lookup for
        each one without an answer: exactly the visible ids that had neither
        an answer nor a lookup under way are started, each once. */
    method RequestVisibleProviders() returns (started: seq<int>)
      requires Valid()
      modifies this`loadingProviders
      ensures Valid()
      ensures NoDup(started)
      ensures forall id :: id in started <==>
                HasSelected(Visible(), id) && id !in providersMap && id !in old(loadingProviders)
      ensures loadingProviders == old(loadingProviders) + (set id | id in started)
    {
      var v := Visible();
      started := [];
      ghost var begun: set<int> := {};
      var i := 0;
      while i < |v|
        invariant 0 <= i <= |v|
        invariant Valid()
        invariant NoDup(started)
        invariant forall x :: x in started <==> x in begun
        invariant begun == IdSet(v[..i]) - providersMap.Keys - old(loadingProviders)
        invariant loadingProviders == old(loadingProviders) + begun
      {
        var id := v[i].movie.id;
        IdSetSnoc(v[..i], v[i]);
        assert v[..i + 1] == v[..i] + [v[i]];
        var s := BeginFetchProviders(id);
        if s {
          started, begun := started + [id], begun + {id};
        }
        i := i + 1;
      }
      assert v[..i] == v;
      assert (set x | x in started) == begun;
    }

    method ToggleSelectionMode()
      modifies this`isSelectionMode, this`selectedIds
      ensures isSelectionMode == !old(isSelectionMode) && selectedIds == {}
    {
      isSelectionMode, selectedIds := !isSelectionMode, {};
    }

    method ToggleMovieSelection(id: int)
      modifies this`selectedIds
      ensures selectedIds == ToggleSelection(old(selectedIds), id)
    {
      selectedIds := ToggleSelection(selectedIds, id);
    }

    /** `shareMultipleMovies`: nothing happens without a selection; otherwise
        the selected entries on screen are shared and selection mode ends. */
    method ShareMultiple() returns (shared: Option<seq<SelectedMovie>>)
      modifies this`isSelectionMode, this`selectedIds
      ensures old(selectedIds) == {} ==>
                shared == None && isSelectionMode == old(isSelectionMode) && selectedIds == old(selectedIds)
      ensures old(selectedIds) != {} ==>
                shared == Some(SharedMovies(Visible(), old(selectedIds))) && !isSelectionMode && selectedIds == {}
    {
      if selectedIds == {} {
        return None;
      }
      shared := Some(SharedMovies(FilteredMovies(movies, filter), selectedIds));
      isSelectionMode, selectedIds := false, {};
    }
  }
}
