/** The choose screen (movie-swipe/app/choose/page.tsx): the pile handed over
    by the swipe screen, a ten-tick roulette that picks from it, and the
    buttons that save the pick to the shortlist and end the round. The
    roulette's random draws are an input, one per tick. */
module Choose {
  import opened Common
  import opened Records
  import opened Selected

  /** Ticks of the roulette before it stops on a movie. */
  const RouletteTicks: nat := 10

  /** The roulette's ticks: tick k lands on `Math.floor(rolls[k] * n)`. Every
      index it lands on is a position of the pile. */
  method Roulette(n: nat, rolls: seq<real>) returns (picks: seq<nat>)
    requires n > 0 && |rolls| == RouletteTicks
    requires forall k :: 0 <= k < |rolls| ==> 0.0 <= rolls[k] < 1.0
    ensures |picks| == RouletteTicks
    ensures forall k :: 0 <= k < RouletteTicks ==> picks[k] < n && picks[k] == RandomIndex(rolls[k], n)
  {
    picks := [];
    var count := 0;
    while count < RouletteTicks
      invariant 0 <= count <= RouletteTicks
      invariant |picks| == count
      invariant forall k :: 0 <= k < count ==> picks[k] < n && picks[k] == RandomIndex(rolls[k], n)
    {
      picks := picks + [RandomIndex(rolls[count], n)];
      count := count + 1;
    }
  }

  /** No subscription service streams the movie: no lookup answer, or an
      empty flat-rate list. */
  predicate NoStreaming(p: Option<WatchProviders>)
  {
    p.None? || p.value.flatrate == []
  }

  /** Whether `handleWatchNow` saves the pick and leaves, as written: it tests
      the `providers` value the handler closed over, which is the value from
      before its own lookup (`before`), and never the answer it awaited
      (`after`). */
  function LeavesAsWritten(before: Option<WatchProviders>, after: Option<WatchProviders>): bool
  {
    NoStreaming(before)
  }

  /** The screen starts with no providers, so its first "watch now" always
      saves and leaves, even when the lookup finds a subscription service
      that streams the pick; deciding on the answer would keep the dialog
      open. */
  lemma WatchNowIgnoresLookup(after: Option<WatchProviders>)
    ensures LeavesAsWritten(None, after)
    ensures var netflix := Some(WatchProviders(None, [Provider(8, "Netflix", None)], [], []));
      LeavesAsWritten(None, netflix) && !NoStreaming(netflix)
  {
  }

  /** The choose screen's state. */
  class ChooseView {
    const store: LocalStore
    var candidates: seq<CandidateMovie>
    var selectedMovie: Option<CandidateMovie>
    var showModal: bool
    var isRandomSelecting: bool
    /** The last streaming lookup's answer. */
    var providers: Option<WatchProviders>
    /** Set when the screen navigates back to the swipe screen. */
    var leftPage: bool

    /** The pile is read from storage; no stored pile reads as an empty one. */
    constructor (s: LocalStore)
      ensures store == s && candidates == (if s.candidates.Some? then s.candidates.value else [])
      ensures selectedMovie == None && !showModal && !isRandomSelecting && !leftPage && providers == None
    {
      store := s;
      candidates := if s.candidates.Some? then s.candidates.value else [];
      selectedMovie, showModal, isRandomSelecting, leftPage := None, false, false, false;
      providers := None;
    }

    /** `handleRandomSelect`: nothing happens on an empty pile; otherwise the
        roulette runs its ten ticks, stays on the last movie it landed on,
        and opens the dialog. */
    method RandomSelect(rolls: seq<real>) returns (picks: seq<nat>)
      requires |rolls| == RouletteTicks && forall k :: 0 <= k < |rolls| ==> 0.0 <= rolls[k] < 1.0
      modifies this`selectedMovie, this`showModal, this`isRandomSelecting
      ensures candidates == [] ==> picks == [] && unchanged(this)
      ensures candidates != [] ==>
                |picks| == RouletteTicks &&
                (forall k :: 0 <= k < RouletteTicks ==> picks[k] < |candidates| && picks[k] == RandomIndex(rolls[k], |candidates|)) &&
                selectedMovie == Some(candidates[picks[RouletteTicks - 1]]) &&
                selectedMovie.value in candidates && showModal && !isRandomSelecting
    {
      if candidates == [] {
        return [];
      }
      isRandomSelecting := true;
      picks := Roulette(|candidates|, rolls);
      selectedMovie := Some(candidates[picks[RouletteTicks - 1]]);
      isRandomSelecting, showModal := false, true;
    }

    /** `handleManualSelect`. */
    method ManualSelect(c: CandidateMovie)
      modifies this`selectedMovie, this`showModal
      ensures selectedMovie == Some(c) && showModal
    {
      selectedMovie, showModal := Some(c), true;
    }

    method CloseModal()
      modifies this`selectedMovie, this`showModal
      ensures selectedMovie == None && !showModal
    {
      selectedMovie, showModal := None, false;
    }

    /** `handleWatchNow`, deciding on the lookup it awaited: `answer` is the
        lookup's answer (`None` when the request fails, which keeps the
        previous answer). With no subscription service the pick is saved as
        "watch now", the stored pile is discarded and the round ends;
        otherwise the dialog stays open on the streaming links. */
    method WatchNow(now: int, answer: Option<WatchProviders>) returns (leave: bool)
      modifies this`providers, this`leftPage, store`selectedMovies, store`candidates
      ensures old(selectedMovie).None? ==>
                !leave && providers == old(providers) && unchanged(store) && leftPage == old(leftPage)
      ensures old(selectedMovie).Some? ==> providers == (if answer.Some? then answer else old(providers))
      ensures old(selectedMovie).Some? ==> (leave <==> NoStreaming(providers))
      ensures leave ==>
                store.selectedMovies == SaveSelected(old(store.selectedMovies), selectedMovie.value.movie, Action.WatchNow, now) &&
                store.candidates == None && leftPage
      ensures !leave ==> unchanged(store) && leftPage == old(leftPage)
    {
      if selectedMovie.None? {
        return false;
      }
      if answer.Some? {
        providers := answer;
      }
      leave := NoStreaming(providers);
      if leave {
        store.SaveSelectedMovie(selectedMovie.value.movie, Action.WatchNow, now);
        store.ClearCandidates();
        leftPage := true;
      }
    }

    /** A click on one of the streaming links the open dialog lists when a
        subscription service streams the pick: the pick is saved as "watch
        now" and the stored pile is discarded. The link opens in a new tab,
        so the screen stays where it is. */
    method OpenStreamingLink(now: int)
      requires showModal && selectedMovie.Some? && !NoStreaming(providers)
      modifies store`selectedMovies, store`candidates
      ensures store.selectedMovies == SaveSelected(old(store.selectedMovies), selectedMovie.value.movie, Action.WatchNow, now)
      ensures store.candidates == None
    {
      store.SaveSelectedMovie(selectedMovie.value.movie, Action.WatchNow, now);
      store.ClearCandidates();
    }

    /** `handleWatchLater`: the pick is saved to the shortlist as "watch
        later", the stored pile is discarded and the round ends. Without a
        pick nothing happens. */
    method WatchLater(now: int)
      modifies store`selectedMovies, store`candidates, this`leftPage
      ensures old(selectedMovie).None? ==> unchanged(store) && leftPage == old(leftPage)
      ensures old(selectedMovie).Some? ==>
                store.selectedMovies == SaveSelected(old(store.selectedMovies), selectedMovie.value.movie, Action.WatchLater, now) &&
                store.candidates == None && leftPage
    {
      if selectedMovie.None? {
        return;
      }
      store.SaveSelectedMovie(selectedMovie.value.movie, Action.WatchLater, now);
      store.ClearCandidates();
      leftPage := true;
    }

    /** `handleReset`: the stored pile is discarded without saving anything. */
    method Reset()
      modifies store`candidates, this`leftPage
      ensures store.candidates == None && leftPage
    {
      store.ClearCandidates();
      leftPage := true;
    }
  }
}
