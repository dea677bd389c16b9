/** The filter conditions the user edits in the filter dialog, the list toggles,
    the mood presets, and the dialog's five editable fields as an object. The
    dialog exists in two copies (movie-swipe/app/components/FilterModal.tsx and
    app/components/FilterModal.tsx) whose toggles, reset, apply and sync are the
    same code; only the first has presets. One class models both. */
module Filters {
  import opened Common

  /** `FilterOptions`: empty lists and `None` mean "no constraint". */
  datatype FilterOptions = FilterOptions(
    genres: seq<int>,
    runtime: Option<int>,
    yearFrom: Option<int>,
    yearTo: Option<int>,
    providers: seq<int>)

  const Unconstrained := FilterOptions([], None, None, None, [])

  predicate IsUnconstrained(f: FilterOptions)
  {
    f.genres == [] && f.runtime == None && f.yearFrom == None && f.yearTo == None && f.providers == []
  }

  /** A genre as the genre list route returns it. */
  datatype Genre = Genre(id: int, name: string)

  datatype Preset = Tired | Bored | WithFriends

  const ComedyName := "コメディ"
  const ActionName := "アクション"

  /** `prev.includes(id) ? prev.filter(g => g !== id) : [...prev, id]`. */
  function Toggle(s: seq<int>, id: int): (r: seq<int>)
  {
    if id in s then Filter(s, x => x != id) else s + [id]
  }

  /** Toggling flips the membership of `id` and of nothing else. */
  lemma ToggleFlipsMembership(s: seq<int>, id: int)
    ensures id in Toggle(s, id) <==> id !in s
    ensures forall x :: x != id ==> (x in Toggle(s, id) <==> x in s)
  {
  }

  /** Toggling keeps a duplicate-free list duplicate-free. */
  lemma {:induction false} ToggleKeepsNoDup(s: seq<int>, id: int)
    requires NoDup(s)
    ensures NoDup(Toggle(s, id))
  {
    if id in s {
      FilterKeepsNoDup(s, id);
    }
  }

  lemma {:induction false} FilterKeepsNoDup(s: seq<int>, id: int)
    requires NoDup(s)
    ensures NoDup(Filter(s, x => x != id))
  {
    if s != [] {
      FilterKeepsNoDup(s[1..], id);
      var rest := Filter(s[1..], x => x != id);
      assert forall y :: y in rest ==> y in s[1..];
      assert s[0] !in s[1..];
    }
  }

  lemma {:induction false} FilterRemovesAbsent(s: seq<int>, id: int)
    requires id !in s
    ensures Filter(s, x => x != id) == s
  {
    if s != [] {
      FilterRemovesAbsent(s[1..], id);
    }
  }

  /** Selecting an id that was not selected and then deselecting it restores
      the list exactly. */
  lemma ToggleTwiceWhenAbsent(s: seq<int>, id: int)
    requires id !in s
    ensures Toggle(Toggle(s, id), id) == s
  {
    FilterRemovesAbsent(s, id);
    FilterAppendedRemoves(s, id);
  }

  lemma {:induction false} FilterAppendedRemoves(s: seq<int>, id: int)
    ensures Filter(s + [id], x => x != id) == Filter(s, x => x != id)
  {
    if s == [] {
      assert Filter([id], x => x != id) == Filter([id][1..], x => x != id);
    } else {
      assert (s + [id])[1..] == s[1..] + [id];
      FilterAppendedRemoves(s[1..], id);
    }
  }

  /** Deselecting a selected id and selecting it again restores the same set
      of ids (the id moves to the end), and on a duplicate-free list the same
      multiset. */
  lemma ToggleTwiceWhenPresent(s: seq<int>, id: int)
    requires id in s && NoDup(s)
    ensures forall x :: x in Toggle(Toggle(s, id), id) <==> x in s
    ensures multiset(Toggle(Toggle(s, id), id)) == multiset(s)
  {
    var t := Filter(s, x => x != id);
    assert id !in t;
    assert Toggle(Toggle(s, id), id) == t + [id];
    FilterRemovesOne(s, id);
  }

  lemma {:induction false} FilterRemovesOne(s: seq<int>, id: int)
    requires NoDup(s)
    ensures id in s ==> multiset(Filter(s, x => x != id)) + multiset{id} == multiset(s)
    ensures id !in s ==> multiset(Filter(s, x => x != id)) == multiset(s)
  {
    if s != [] {
      assert s == [s[0]] + s[1..];
      FilterRemovesOne(s[1..], id);
      if s[0] == id {
        assert id !in s[1..];
      }
    }
  }

  /** `genres.find(g => g.name === name)?.id`: the first genre so named. */
  function FindGenre(catalogue: seq<Genre>, name: string): (r: Option<int>)
    ensures r.None? <==> forall i :: 0 <= i < |catalogue| ==> catalogue[i].name != name
    ensures r.Some? ==> exists i :: 0 <= i < |catalogue| && catalogue[i].name == name && catalogue[i].id == r.value &&
                          forall j :: 0 <= j < i ==> catalogue[j].name != name
  {
    if catalogue == [] then None
    else if catalogue[0].name == name then Some(catalogue[0].id)
    else
      var r := FindGenre(catalogue[1..], name);
      if r.Some? then
        var i :| 0 <= i < |catalogue[1..]| && catalogue[1..][i].name == name && catalogue[1..][i].id == r.value &&
                 forall j :: 0 <= j < i ==> catalogue[1..][j].name != name;
        assert catalogue[i + 1].name == name;
        r
      else r
  }

  function OptionToSeq(o: Option<int>): seq<int>
  {
    if o.Some? then [o.value] else []
  }

  /** `applyPreset`: the fields are cleared first, then the preset sets the
      runtime ceiling and the genres it can find in the loaded genre list. */
  function PresetFilters(p: Preset, catalogue: seq<Genre>): (f: FilterOptions)
    ensures f.yearFrom == None && f.yearTo == None && f.providers == []
    ensures p == Tired ==> f.runtime == Some(90) && f.genres == OptionToSeq(FindGenre(catalogue, ComedyName))
    ensures p == Bored ==> IsUnconstrained(f)
    ensures p == WithFriends ==> f.runtime == Some(120)
    ensures p == WithFriends ==>
              f.genres == OptionToSeq(FindGenre(catalogue, ActionName)) + OptionToSeq(FindGenre(catalogue, ComedyName))
  {
    match p
    case Tired =>
      var comedy := FindGenre(catalogue, ComedyName);
      Unconstrained.(runtime := Some(90), genres := if comedy.Some? then [comedy.value] else [])
    case Bored => Unconstrained
    case WithFriends =>
      var action := FindGenre(catalogue, ActionName);
      var comedy := FindGenre(catalogue, ComedyName);
      var ids := (if action.Some? then [action.value] else []) + (if comedy.Some? then [comedy.value] else []);
      Unconstrained.(runtime := Some(120), genres := ids)
  }

  /** The filter dialog: the genre list it loaded and its five editable fields. */
  class FilterEditor {
    var catalogue: seq<Genre>
    var selectedGenres: seq<int>
    var selectedRuntime: Option<int>
    var selectedYearFrom: Option<int>
    var selectedYearTo: Option<int>
    var selectedProviders: seq<int>

    /** The five edited fields as one filter value. */
    function Edited(): FilterOptions
      reads this
    {
      FilterOptions(selectedGenres, selectedRuntime, selectedYearFrom, selectedYearTo, selectedProviders)
    }

    /** The dialog starts with the current filters and an empty genre list. */
    constructor (current: FilterOptions)
      ensures Edited() == current && catalogue == []
    {
      catalogue := [];
      selectedGenres, selectedRuntime := current.genres, current.runtime;
      selectedYearFrom, selectedYearTo := current.yearFrom, current.yearTo;
      selectedProviders := current.providers;
    }

    /** The genre list arrived. */
    method GenresLoaded(genres: seq<Genre>)
      modifies this`catalogue
      ensures catalogue == genres
    {
      catalogue := genres;
    }

    /** The current filters changed: every edited field is resynchronised. */
    method Sync(current: FilterOptions)
      modifies this
      ensures Edited() == current && catalogue == old(catalogue)
    {
      selectedGenres, selectedRuntime := current.genres, current.runtime;
      selectedYearFrom, selectedYearTo := current.yearFrom, current.yearTo;
      selectedProviders := current.providers;
    }

    method ToggleGenre(id: int)
      modifies this`selectedGenres
      ensures selectedGenres == Toggle(old(selectedGenres), id)
      ensures id in selectedGenres <==> id !in old(selectedGenres)
    {
      ToggleFlipsMembership(selectedGenres, id);
      selectedGenres := Toggle(selectedGenres, id);
    }

    method ToggleProvider(id: int)
      modifies this`selectedProviders
      ensures selectedProviders == Toggle(old(selectedProviders), id)
      ensures id in selectedProviders <==> id !in old(selectedProviders)
    {
      ToggleFlipsMembership(selectedProviders, id);
      selectedProviders := Toggle(selectedProviders, id);
    }

    method ApplyPreset(p: Preset)
      modifies this
      ensures Edited() == PresetFilters(p, catalogue) && catalogue == old(catalogue)
    {
      selectedGenres, selectedRuntime, selectedYearFrom, selectedYearTo, selectedProviders := [], None, None, None, [];
      match p {
        case Tired =>
          selectedRuntime := Some(90);
          var comedy := FindGenre(catalogue, ComedyName);
          if comedy.Some? {
            selectedGenres := [comedy.value];
          }
        case Bored =>
          selectedRuntime := None;
        case WithFriends =>
          selectedRuntime := Some(120);
          var action := FindGenre(catalogue, ActionName);
          var comedy := FindGenre(catalogue, ComedyName);
          var ids := [];
          if action.Some? { ids := ids + [action.value]; }
          if comedy.Some? { ids := ids + [comedy.value]; }
          selectedGenres := ids;
      }
    }

    method Reset()
      modifies this
      ensures IsUnconstrained(Edited()) && catalogue == old(catalogue)
    {
      selectedGenres, selectedRuntime, selectedYearFrom, selectedYearTo, selectedProviders := [], None, None, None, [];
    }

    /** `handleApply`: hands exactly the five edited fields to the caller. */
    method Apply() returns (f: FilterOptions)
      ensures f.genres == selectedGenres && f.runtime == selectedRuntime && f.providers == selectedProviders
      ensures f.yearFrom == selectedYearFrom && f.yearTo == selectedYearTo
    {
      f := FilterOptions(selectedGenres, selectedRuntime, selectedYearFrom, selectedYearTo, selectedProviders);
    }
  }
}
