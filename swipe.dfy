/** The two swipe screens as objects whose fields the pointer handlers update:
    the four-direction screen of movie-swipe/app/page.tsx with its swipe
    counter, "want to watch" pile and prefetched next movie, and the older
    horizontal-only screen of app/page.tsx. The 100 ms and 250 ms animation
    delays are collapsed: what the delayed callback does happens at once. */
module Swipe {
  import opened Common
  import opened Records
  import opened Filters
  import opened Query
  import opened Gesture
  import opened Catalog

  /** Decisive swipes after which the session moves on to the choose screen. */
  const MaxSwipes: nat := 20

  /** What the page does next, outside the handler. */
  datatype FollowUp =
    | NoFollowUp
    | OpenDetails   // the card was clicked: show the details dialog
    | LoadMovie     // call `fetchMovie()`
    | ShowPrefetched  // the prefetched movie is shown: call `prefetchNextMovie()`
    | GoToChoose    // navigate to the choose screen

  /** The statistics direction of a decisive swipe. */
  function DirectionOf(d: Decision): (dir: Direction)
    requires d != Revert
    ensures dir == Down <==> d == MarkWatched
    ensures dir == Up <==> d == AddFavorite
    ensures dir == Right <==> d == AddCandidate
    ensures dir == Left <==> d == Skip
  {
    match d
    case MarkWatched => Down
    case AddFavorite => Up
    case AddCandidate => Right
    case Skip => Left
  }

  /** "swipeStats" after a swipe: one entry for a decisive swipe on a movie. */
  function StatsAfter(stats: seq<SwipeStat>, d: Decision, movie: Option<Movie>, now: int): seq<SwipeStat>
  {
    if d == Revert || movie.None? then stats
    else PushCapped(stats, SwipeStat(movie.value.id, now, DirectionOf(d)), StatsCapacity)
  }

  /** The pile after a swipe: only a right swipe on a movie adds to it. */
  function CandidatesAfter(cands: seq<CandidateMovie>, d: Decision, movie: Option<Movie>, now: int): seq<CandidateMovie>
  {
    if d == AddCandidate && movie.Some? then AddToCandidate(cands, CandidateMovie(movie.value, now)) else cands
  }

  /** The pile handed to the choose screen on a twentieth swipe that goes
      right, as written: the pile before the swipe with the movie appended,
      without the id check `addToCandidate` makes. */
  function HandOffAsWritten(cands: seq<CandidateMovie>, c: CandidateMovie): (r: seq<CandidateMovie>)
    ensures |r| == |cands| + 1 && r[|cands|] == c
  {
    cands + [c]
  }

  /** When the movie is already on the pile, the list handed over as written
      holds its id twice and differs from the pile the session keeps. */
  lemma HandOffAsWrittenDuplicates(cands: seq<CandidateMovie>, c: CandidateMovie)
    requires HasCandidate(cands, c.movie.id)
    ensures !CandidateIdsUnique(HandOffAsWritten(cands, c))
    ensures HandOffAsWritten(cands, c) != AddToCandidate(cands, c)
  {
    var i :| 0 <= i < |cands| && cands[i].movie.id == c.movie.id;
    var r := HandOffAsWritten(cands, c);
    assert r[i].movie.id == r[|cands|].movie.id;
    assert |r| != |AddToCandidate(cands, c)|;
  }

  /** A concrete input: the 20th swipe goes right on a movie whose id (7) is
      already on the pile; the hand-off as written lists it twice. */
  lemma HandOffDuplicateExample()
    ensures var m := Movie(7, "M", 7.5, None, "");
      var pile := [CandidateMovie(m, 1)];
      HandOffAsWritten(pile, CandidateMovie(m, 2)) == [CandidateMovie(m, 1), CandidateMovie(m, 2)] &&
      AddToCandidate(pile, CandidateMovie(m, 2)) == pile
  {
    var m := Movie(7, "M", 7.5, None, "");
    assert HasCandidate([CandidateMovie(m, 1)], 7) by {
      assert [CandidateMovie(m, 1)][0].movie.id == 7;
    }
  }

  /** Stored lists only ever written by the rules of this screen. */
  predicate StoreWellFormed(store: LocalStore)
    reads store
  {
    |store.shownMovies| <= ShownCapacity && |store.swipeStats| <= StatsCapacity &&
    NoDup(store.watchedMovies) && FavoriteIdsUnique(store.favoriteMovies)
  }

  /** The four-direction swipe screen (movie-swipe/app/page.tsx). */
  class SwipeSession {
    const store: LocalStore
    var filters: FilterOptions
    var movie: Option<Movie>
    var nextMovie: Option<Movie>
    var loading: bool
    var error: Option<string>
    var isDragging: bool
    var startX: Option<int>
    var startY: Option<int>
    var currentX: int
    var currentY: int
    var isDragged: bool
    var swipeCount: nat
    var candidates: seq<CandidateMovie>
    var showDetails: bool
    /** Set once the pile is handed to the choose screen. */
    var finished: bool

    /** The stored lists stay within their caps and free of duplicate ids, the
        pile holds each id once, and after the hand-off the stored pile is the
        session's pile. */
    predicate Valid()
      reads this, store
    {
      StoreWellFormed(store) && CandidateIdsUnique(candidates) &&
      (finished ==> swipeCount >= MaxSwipes && store.candidates == Some(candidates))
    }

    constructor (s: LocalStore)
      requires StoreWellFormed(s)
      ensures Valid() && store == s
      ensures filters == Unconstrained && movie == None && nextMovie == None && !loading && error == None
      ensures !isDragging && startX == None && startY == None && currentX == 0 && currentY == 0 && !isDragged
      ensures swipeCount == 0 && candidates == [] && !showDetails && !finished
    {
      store := s;
      filters, movie, nextMovie, loading, error := Unconstrained, None, None, false, None;
      isDragging, startX, startY, currentX, currentY, isDragged := false, None, None, 0, 0, false;
      swipeCount, candidates, showDetails, finished := 0, [], false, false;
    }

    /** `handleMouseDown` / `handleTouchStart`. */
    method PointerDown(x: int, y: int)
      modifies this`isDragging, this`startX, this`startY, this`isDragged
      ensures isDragging && startX == Some(x) && startY == Some(y) && !isDragged
    {
      isDragging, startX, startY, isDragged := true, Some(x), Some(y), false;
    }

    /** `handleMouseMove` / `handleTouchMove`: ignored unless a drag is under
        way from a known start point; a move beyond 5 pixels makes the press
        a drag, and it stays one until the next press. */
    method PointerMove(x: int, y: int)
      modifies this`currentX, this`currentY, this`isDragged
      ensures !isDragging || startX.None? || startY.None? ==>
                currentX == old(currentX) && currentY == old(currentY) && isDragged == old(isDragged)
      ensures isDragging && startX.Some? && startY.Some? ==>
                currentX == x - startX.value && currentY == y - startY.value &&
                isDragged == (old(isDragged) || MovedBeyondSlop(currentX, currentY))
    {
      if !isDragging || startX.None? || startY.None? {
        return;
      }
      currentX, currentY := x - startX.value, y - startY.value;
      if MovedBeyondSlop(currentX, currentY) {
        isDragged := true;
      }
    }

    /** The lasting effect of a decisive swipe on `m`: down marks it watched,
        up makes it a favourite, right puts it on the pile, and each records a
        statistic (a left swipe only when a movie is shown). */
    method RecordSwipe(d: Decision, m: Option<Movie>, now: int)
      requires d != Revert && (d != Skip ==> m.Some?)
      requires StoreWellFormed(store) && CandidateIdsUnique(candidates)
      modifies this`candidates, store`watchedMovies, store`favoriteMovies, store`swipeStats
      ensures StoreWellFormed(store) && CandidateIdsUnique(candidates)
      ensures candidates == CandidatesAfter(old(candidates), d, m, now)
      ensures store.swipeStats == StatsAfter(old(store.swipeStats), d, m, now)
      ensures store.watchedMovies == (if d == MarkWatched then AddWatchedId(old(store.watchedMovies), m.value.id)
                                      else old(store.watchedMovies))
      ensures store.favoriteMovies == (if d == AddFavorite then AddToFavorites(old(store.favoriteMovies), FavoriteMovie(m.value, now))
                                       else old(store.favoriteMovies))
    {
      match d {
        case MarkWatched =>
          store.MarkAsWatched(m.value.id);
          store.SaveSwipeStat(m.value.id, Down, now);
        case AddFavorite =>
          store.AddFavorite(m.value, now);
          store.SaveSwipeStat(m.value.id, Up, now);
        case AddCandidate =>
          candidates := AddToCandidate(candidates, CandidateMovie(m.value, now));
          store.SaveSwipeStat(m.value.id, Right, now);
        case Skip =>
          if m.Some? {
            store.SaveSwipeStat(m.value.id, Left, now);
          }
      }
    }

    /** After a decisive swipe: count it; at the twentieth, hand the pile to
        the choose screen; otherwise reset the card and show the prefetched
        movie, or ask for a fetch when there is none. */
    method Advance() returns (next: FollowUp)
      requires finished ==> swipeCount >= MaxSwipes
      modifies this`swipeCount, this`finished, this`startX, this`startY, this`currentX, this`currentY,
               this`movie, this`nextMovie, store`candidates
      ensures swipeCount == old(swipeCount) + 1
      ensures finished ==> swipeCount >= MaxSwipes && store.candidates == Some(candidates)
      ensures next == GoToChoose <==> old(swipeCount) + 1 >= MaxSwipes
      ensures next == GoToChoose ==> finished && store.candidates == Some(candidates) && movie == old(movie)
      ensures next == ShowPrefetched ==> old(nextMovie).Some? && movie == old(nextMovie) && nextMovie == None
      ensures next == LoadMovie ==> old(nextMovie).None? && movie == old(movie) && nextMovie == None
      ensures next == GoToChoose || next == ShowPrefetched || next == LoadMovie
      ensures next != GoToChoose ==>
                startX == None && startY == None && currentX == 0 && currentY == 0 &&
                store.candidates == old(store.candidates) && finished == old(finished)
    {
      swipeCount := swipeCount + 1;
      if swipeCount >= MaxSwipes {
        store.HandOffCandidates(candidates);
        finished := true;
        next := GoToChoose;
      } else {
        startX, startY, currentX, currentY := None, None, 0, 0;
        if nextMovie.Some? {
          movie, nextMovie := nextMovie, None;
          next := ShowPrefetched;
        } else {
          next := LoadMovie;
        }
      }
    }

    /** A decisive swipe `d` on the current movie: record it, count it, and
        hand the pile over or bring up the next movie. */
    method Commit(d: Decision, now: int) returns (next: FollowUp)
      requires Valid() && d != Revert && (d != Skip ==> movie.Some?)
      modifies this`isDragging, this`candidates, this`swipeCount, this`finished, this`startX, this`startY,
               this`currentX, this`currentY, this`movie, this`nextMovie,
               store`watchedMovies, store`favoriteMovies, store`swipeStats, store`candidates
      ensures Valid()
      ensures !isDragging
      ensures candidates == CandidatesAfter(old(candidates), d, old(movie), now)
      ensures store.swipeStats == StatsAfter(old(store.swipeStats), d, old(movie), now)
      ensures store.watchedMovies == (if d == MarkWatched then AddWatchedId(old(store.watchedMovies), old(movie).value.id)
                                      else old(store.watchedMovies))
      ensures store.favoriteMovies == (if d == AddFavorite then AddToFavorites(old(store.favoriteMovies), FavoriteMovie(old(movie).value, now))
                                       else old(store.favoriteMovies))
      ensures swipeCount == old(swipeCount) + 1
      ensures next == GoToChoose <==> old(swipeCount) + 1 >= MaxSwipes
      ensures next == GoToChoose ==> finished && store.candidates == Some(candidates) && movie == old(movie)
      ensures next == ShowPrefetched ==> old(nextMovie).Some? && movie == old(nextMovie) && nextMovie == None
      ensures next == LoadMovie ==> old(nextMovie).None? && movie == old(movie) && nextMovie == None
      ensures next == ShowPrefetched || next == LoadMovie ==>
                startX == None && startY == None && currentX == 0 && currentY == 0 &&
                store.candidates == old(store.candidates) && finished == old(finished)
      ensures next != OpenDetails && next != NoFollowUp
    {
      isDragging := false;
      RecordSwipe(d, movie, now);
      next := Advance();
    }

    /** What finishing a swipe does, between the state when the drag ended
        and the state after: the drag is classified by its offsets and by
        whether a movie is shown; the pile, the swipe log, the seen ids and
        the favourites change as that decision says; a decisive swipe is
        counted and either hands the pile over (the twentieth) or brings up
        the prefetched movie or a fetch; a revert springs the card back. */
    twostate predicate SwipeFinished(now: int, next: FollowUp)
      reads this, store
    {
      var d := Classify(old(currentX), old(currentY), old(movie).Some?);
      && !isDragging
      && candidates == CandidatesAfter(old(candidates), d, old(movie), now)
      && store.swipeStats == StatsAfter(old(store.swipeStats), d, old(movie), now)
      && store.watchedMovies == (if d == MarkWatched then AddWatchedId(old(store.watchedMovies), old(movie).value.id)
                                 else old(store.watchedMovies))
      && store.favoriteMovies == (if d == AddFavorite then AddToFavorites(old(store.favoriteMovies), FavoriteMovie(old(movie).value, now))
                                  else old(store.favoriteMovies))
      && swipeCount == (if d == Revert then old(swipeCount) else old(swipeCount) + 1)
      && (d == Revert ==>
            next == NoFollowUp && movie == old(movie) && nextMovie == old(nextMovie) &&
            startX == None && startY == None && currentX == 0 && currentY == 0 &&
            store.candidates == old(store.candidates) && finished == old(finished))
      && (next == GoToChoose <==> d != Revert && old(swipeCount) + 1 >= MaxSwipes)
      && (next == GoToChoose ==> finished && store.candidates == Some(candidates) && movie == old(movie))
      && (next == ShowPrefetched ==> old(nextMovie).Some? && movie == old(nextMovie) && nextMovie == None)
      && (next == LoadMovie ==> old(nextMovie).None? && movie == old(movie) && nextMovie == None)
      && (next == ShowPrefetched || next == LoadMovie ==>
            startX == None && startY == None && currentX == 0 && currentY == 0 &&
            store.candidates == old(store.candidates) && finished == old(finished))
      && next != OpenDetails
    }

    /** `finishSwipe`: classify the drag, record its effect, count it, and
        either hand the pile over or bring up the next movie. */
    method FinishSwipe(now: int) returns (next: FollowUp)
      requires Valid()
      modifies this`isDragging, this`candidates, this`swipeCount, this`finished, this`startX, this`startY,
               this`currentX, this`currentY, this`movie, this`nextMovie,
               store`watchedMovies, store`favoriteMovies, store`swipeStats, store`candidates
      ensures Valid()
      ensures SwipeFinished(now, next)
    {
      var d := Classify(currentX, currentY, movie.Some?);
      if d == Revert {
        isDragging, startX, startY, currentX, currentY := false, None, None, 0, 0;
        return NoFollowUp;
      }
      next := Commit(d, now);
    }

    /** `handleMouseUp`: a press that never became a drag, on a movie, is a
        click that opens the details (the drag flag stays set); anything else
        finishes the swipe. */
    method MouseUp(now: int) returns (next: FollowUp)
      requires Valid()
      modifies this`isDragging, this`candidates, this`swipeCount, this`finished, this`startX, this`startY,
               this`currentX, this`currentY, this`movie, this`nextMovie, this`showDetails,
               store`watchedMovies, store`favoriteMovies, store`swipeStats, store`candidates
      ensures Valid()
      ensures !old(isDragging) ==> next == NoFollowUp && unchanged(this) && unchanged(store)
      ensures old(isDragging) && !old(isDragged) && old(movie).Some? ==>
                next == OpenDetails && showDetails && isDragging && unchanged(store) &&
                swipeCount == old(swipeCount) && candidates == old(candidates) &&
                movie == old(movie) && nextMovie == old(nextMovie) &&
                startX == old(startX) && startY == old(startY) &&
                currentX == old(currentX) && currentY == old(currentY) && finished == old(finished)
      ensures old(isDragging) && (old(isDragged) || old(movie).None?) ==>
                SwipeFinished(now, next) && showDetails == old(showDetails)
    {
      if !isDragging {
        return NoFollowUp;
      }
      if !isDragged && movie.Some? {
        showDetails := true;
        next := OpenDetails;
      } else {
        next := FinishSwipe(now);
      }
    }

    /** `handleMouseLeave` / `handleTouchEnd`: finish the swipe if one is under way. */
    method PointerEnd(now: int) returns (next: FollowUp)
      requires Valid()
      modifies this`isDragging, this`candidates, this`swipeCount, this`finished, this`startX, this`startY,
               this`currentX, this`currentY, this`movie, this`nextMovie,
               store`watchedMovies, store`favoriteMovies, store`swipeStats, store`candidates
      ensures Valid()
      ensures !old(isDragging) ==> next == NoFollowUp && unchanged(this) && unchanged(store)
      ensures old(isDragging) ==> SwipeFinished(now, next)
    {
      if !isDragging {
        return NoFollowUp;
      }
      next := FinishSwipe(now);
    }

    /** The page state once `fetchMovie` has come to `o`; `answered` says
        whether any reply arrived, after which the drag state is reset. While
        a request is still out, its attempt has cleared the error, and the
        loading flag is set unless the attempt is a duplicate re-fetch, whose
        caller's `finally` clears the flag as soon as the re-fetch starts. */
    method Settle(o: FetchOutcome, answered: bool)
      modifies this`filters, this`movie, this`error, this`loading,
               this`isDragging, this`startX, this`startY, this`currentX, this`currentY
      ensures filters == (if o.relaxed then Unconstrained else old(filters))
      ensures o.result.Shown? ==> movie == Some(o.result.movie) && error == None && !loading
      ensures o.result.Failed? ==> movie == old(movie) && error == Some(o.result.message) && !loading
      ensures o.result.Waiting? ==> movie == old(movie) && error == None && loading == (o.retries == 0)
      ensures answered ==> !isDragging && startX == None && startY == None && currentX == 0 && currentY == 0
      ensures !answered ==> isDragging == old(isDragging) && startX == old(startX) && startY == old(startY) &&
                            currentX == old(currentX) && currentY == old(currentY)
    {
      if o.relaxed {
        filters := Unconstrained;
      }
      match o.result {
        case Shown(m) =>
          movie, error, loading := Some(m), None, false;
        case Failed(msg) =>
          error, loading := Some(msg), false;
        case Waiting =>
          loading, error := o.retries == 0, None;
      }
      if answered {
        isDragging, startX, startY, currentX, currentY := false, None, None, 0, 0;
      }
    }

    /** `fetchMovie()` run to its end against the given replies: the shown
        ledger gains the movie finally shown, a first "not found" clears the
        filters, and the drag state is reset once a reply has arrived. */
    method Fetch(replies: seq<Reply>) returns (o: FetchOutcome, prefetch: bool)
      requires Valid()
      modifies this, store`shownMovies
      ensures Valid()
      ensures o == FetchMovie(old(filters), false, 0, old(store.shownMovies), old(store.watchedMovies), replies)
      ensures store.shownMovies == o.shown
      ensures filters == (if o.relaxed then Unconstrained else old(filters))
      ensures o.result.Shown? ==> movie == Some(o.result.movie) && error == None && !loading
      ensures o.result.Failed? ==> movie == old(movie) && error == Some(o.result.message) && !loading
      ensures o.result.Waiting? ==> movie == old(movie) && error == None && loading == (o.retries == 0)
      ensures prefetch == (o.result.Shown? && old(nextMovie).None?)
      ensures replies != [] ==> !isDragging && startX == None && startY == None && currentX == 0 && currentY == 0
      ensures nextMovie == old(nextMovie) && swipeCount == old(swipeCount) && candidates == old(candidates)
      ensures finished == old(finished) && isDragged == old(isDragged) && showDetails == old(showDetails)
    {
      o := FetchMovie(filters, false, 0, store.shownMovies, store.watchedMovies, replies);
      store.shownMovies := o.shown;
      Settle(o, replies != []);
      prefetch := o.result.Shown? && nextMovie.None?;
    }

    /** `prefetchNextMovie`: unless a movie is already prefetched or a fetch
        is under way, request one with the current filters and every watched
        or shown id excluded; a failed request leaves nothing prefetched. */
    method Prefetch(reply: Reply) returns (request: Option<seq<Param>>)
      modifies this`nextMovie
      ensures old(nextMovie).Some? || loading ==> request == None && nextMovie == old(nextMovie)
      ensures old(nextMovie).None? && !loading ==>
                request == Some(PrefetchParams(filters, store.watchedMovies, store.shownMovies)) &&
                nextMovie == (if reply.Found? then Some(reply.movie) else None)
    {
      if nextMovie.Some? || loading {
        return None;
      }
      request := Some(PrefetchParams(filters, store.watchedMovies, store.shownMovies));
      if reply.Found? {
        nextMovie := Some(reply.movie);
      }
    }

    /** `handleApplyFilters`: the new filters replace the old; the page then
        fetches again. */
    method ApplyFilters(f: FilterOptions) returns (next: FollowUp)
      modifies this`filters
      ensures filters == f && next == LoadMovie
    {
      filters := f;
      next := LoadMovie;
    }
  }

  /** The horizontal-only swipe screen (app/page.tsx): a right swipe opens the
      "watch now / watch later" dialog, anything else decisive loads another
      movie. It fetches without filters or retries. */
  class LegacySwipe {
    const store: LocalStore
    var movie: Option<Movie>
    var loading: bool
    var error: Option<string>
    var isDragging: bool
    var startX: Option<int>
    var currentX: int
    var selectedMovie: Option<Movie>
    var showModal: bool

    constructor (s: LocalStore)
      ensures store == s && movie == None && !loading && error == None
      ensures !isDragging && startX == None && currentX == 0 && selectedMovie == None && !showModal
    {
      store := s;
      movie, loading, error := None, false, None;
      isDragging, startX, currentX := false, None, 0;
      selectedMovie, showModal := None, false;
    }

    method PointerDown(x: int)
      modifies this`isDragging, this`startX
      ensures isDragging && startX == Some(x)
    {
      isDragging, startX := true, Some(x);
    }

    /** Moves count only while dragging from a known start point. */
    method PointerMove(x: int)
      modifies this`currentX
      ensures !isDragging || startX.None? ==> currentX == old(currentX)
      ensures isDragging && startX.Some? ==> currentX == x - startX.value
    {
      if !isDragging || startX.None? {
        return;
      }
      currentX := x - startX.value;
    }

    /** `handleMouseUp` / `handleMouseLeave` / `handleTouchEnd` and `finishSwipe`. */
    method PointerEnd() returns (next: FollowUp)
      modifies this
      ensures movie == old(movie) && loading == old(loading) && error == old(error)
      ensures !old(isDragging) ==> next == NoFollowUp && unchanged(this)
      ensures old(isDragging) ==> !isDragging
      ensures old(isDragging) && ClassifyHorizontal(old(currentX), old(movie).Some?) == OpenSelection ==>
                next == NoFollowUp && selectedMovie == old(movie) && showModal && startX == None && currentX == 0
      ensures old(isDragging) && ClassifyHorizontal(old(currentX), old(movie).Some?) == FetchNext ==>
                next == LoadMovie && selectedMovie == old(selectedMovie) && showModal == old(showModal)
      ensures old(isDragging) && ClassifyHorizontal(old(currentX), old(movie).Some?) == SpringBack ==>
                next == NoFollowUp && startX == None && currentX == 0 &&
                selectedMovie == old(selectedMovie) && showModal == old(showModal)
    {
      if !isDragging {
        return NoFollowUp;
      }
      isDragging := false;
      match ClassifyHorizontal(currentX, movie.Some?) {
        case OpenSelection =>
          selectedMovie, showModal := movie, true;
          startX, currentX := None, 0;
          next := NoFollowUp;
        case FetchNext =>
          next := LoadMovie;
        case SpringBack =>
          startX, currentX := None, 0;
          next := NoFollowUp;
      }
    }

    /** `fetchMovie` of this screen: any failed request is an error. */
    method Fetch(reply: Reply)
      modifies this
      ensures selectedMovie == old(selectedMovie) && showModal == old(showModal)
      ensures reply.Found? ==> movie == Some(reply.movie) && error == None
      ensures reply.NotOk? ==> movie == old(movie) && error == Some(ErrorMessage(reply.bodyError))
      ensures !loading && !isDragging && startX == None && currentX == 0
    {
      match reply {
        case Found(m) =>
          movie, error := Some(m), None;
        case NotOk(_, bodyError) =>
          error := Some(ErrorMessage(bodyError));
      }
      loading, isDragging, startX, currentX := false, false, None, 0;
    }

    /** `handleModalClose`: close the dialog, forget its movie, load another. */
    method CloseModal() returns (next: FollowUp)
      modifies this`selectedMovie, this`showModal
      ensures selectedMovie == None && !showModal && next == LoadMovie
    {
      selectedMovie, showModal := None, false;
      next := LoadMovie;
    }

    /** `handleWatchNow` / `handleWatchLater`: save the movie in the dialog to
        the shortlist, close the dialog and load another movie. */
    method Choose(action: Action, now: int) returns (next: FollowUp)
      modifies this`selectedMovie, this`showModal, store`selectedMovies
      ensures old(selectedMovie).None? ==> next == NoFollowUp && unchanged(this) && unchanged(store)
      ensures old(selectedMovie).Some? ==>
                store.selectedMovies == SaveSelected(old(store.selectedMovies), old(selectedMovie).value, action, now) &&
                selectedMovie == None && !showModal && next == LoadMovie
    {
      if selectedMovie.None? {
        return NoFollowUp;
      }
      store.SaveSelectedMovie(selectedMovie.value, action, now);
      selectedMovie, showModal := None, false;
      next := LoadMovie;
    }
  }
}
