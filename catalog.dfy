/** `fetchMovie` of the swipe screen (movie-swipe/app/page.tsx): one request to
    `/api/movies` per attempt, a re-fetch while the movie was already shown or
    marked watched (at most ten times), and one retry with every filter
    cleared when the first attempt finds nothing (status 404). The answers of
    `/api/movies` are an input: `replies[k]` answers the k-th request. */
module Catalog {
  import opened Common
  import opened Records
  import opened Filters
  import opened Query

  /** What `/api/movies` answered to one request. */
  datatype Reply =
    | Found(movie: Movie)
    | NotOk(status: int, bodyError: Option<string>)

  /** Re-fetches allowed for a movie that was shown or watched before. */
  const MaxDuplicateRetries: nat := 10
  const NotFoundStatus := 404
  const FetchFailedMessage := "映画の取得に失敗しました。"

  datatype FetchResult =
    | Shown(movie: Movie)     // the movie to display
    | Failed(message: string) // the error shown to the user
    | Waiting                 // the replies ran out before a decision

  /** The result, every request made (as its query parameters), the new
      "shownMovies" ledger, whether the filters were cleared, and the
      duplicate re-fetch count of the last attempt. */
  datatype FetchOutcome = FetchOutcome(
    result: FetchResult,
    requests: seq<seq<Param>>,
    shown: seq<int>,
    relaxed: bool,
    retries: nat)

  /** The message of a failed request: the body's `error`, or a default. */
  function ErrorMessage(bodyError: Option<string>): (msg: string)
    ensures |msg| > 0
  {
    if bodyError.Some? && bodyError.value != "" then bodyError.value else FetchFailedMessage
  }

  function RequestBound(relax: bool, retryCount: nat): nat
    requires retryCount <= MaxDuplicateRetries
  {
    (MaxDuplicateRetries - retryCount + 1) + (if relax then 0 else MaxDuplicateRetries + 1)
  }

  /** `fetchMovie(retryWithoutFilters, retryCount)` against the stored
      "shownMovies" and "watchedMovies" lists. Its contract gives what the
      page relies on; the lemmas below state the retry rules. */
  function FetchMovie(filters: FilterOptions, relax: bool, retryCount: nat,
                      shown: seq<int>, watched: seq<int>, replies: seq<Reply>): (o: FetchOutcome)
    requires retryCount <= MaxDuplicateRetries
    ensures |o.requests| <= |replies|
    ensures replies != [] ==> |o.requests| > 0
    ensures relax ==> o.relaxed
    ensures o.result.Shown? ==> o.shown == PushCapped(shown, o.result.movie.id, ShownCapacity)
    ensures !o.result.Shown? ==> o.shown == shown
    decreases |replies|
  {
    if replies == [] then FetchOutcome(Waiting, [], shown, relax, retryCount)
    else
      var q := QueryParams(if relax then Unconstrained else filters);
      match replies[0]
      case NotOk(status, bodyError) =>
        if status == NotFoundStatus && !relax then
          var rest := FetchMovie(filters, true, 0, shown, watched, replies[1..]);
          rest.(requests := [q] + rest.requests)
        else
          FetchOutcome(Failed(ErrorMessage(bodyError)), [q], shown, relax, retryCount)
      case Found(m) =>
        if (m.id in shown || m.id in watched) && retryCount < MaxDuplicateRetries then
          var rest := FetchMovie(filters, relax, retryCount + 1, shown, watched, replies[1..]);
          rest.(requests := [q] + rest.requests)
        else
          FetchOutcome(Shown(m), [q], PushCapped(shown, m.id, ShownCapacity), relax, retryCount)
  }

  predicate IsNotFound(r: Reply)
  {
    r.NotOk? && r.status == NotFoundStatus
  }

  /** A reply carrying a movie that was already shown or marked watched. */
  predicate IsRepeat(r: Reply, shown: seq<int>, watched: seq<int>)
  {
    r.Found? && (r.movie.id in shown || r.movie.id in watched)
  }

  /** Whether a reply leads to another request: the first "not found"
      before the filters are cleared, or a repeat with re-fetches left. */
  predicate Continues(r: Reply, relax: bool, retryCount: nat, shown: seq<int>, watched: seq<int>)
  {
    (IsNotFound(r) && !relax) || (IsRepeat(r, shown, watched) && retryCount < MaxDuplicateRetries)
  }

  /** The filter state and retry count of the request that follows `r`. */
  function NextRelax(r: Reply, relax: bool): bool
  {
    if IsNotFound(r) then true else relax
  }

  function NextCount(r: Reply, retryCount: nat): nat
  {
    if IsNotFound(r) then 0 else retryCount + 1
  }

  /** One step of `fetchMovie`: a reply that leads to another request
      leaves the decision to the rest of the replies; any other reply
      decides the fetch after one request. */
  lemma FetchStep(filters: FilterOptions, relax: bool, retryCount: nat,
                  shown: seq<int>, watched: seq<int>, replies: seq<Reply>)
    requires retryCount <= MaxDuplicateRetries && replies != []
    ensures var o := FetchMovie(filters, relax, retryCount, shown, watched, replies);
      Continues(replies[0], relax, retryCount, shown, watched) ==>
        NextCount(replies[0], retryCount) <= MaxDuplicateRetries &&
        var rest := FetchMovie(filters, NextRelax(replies[0], relax), NextCount(replies[0], retryCount),
                               shown, watched, replies[1..]);
        && o.result == rest.result && o.relaxed == rest.relaxed && o.retries == rest.retries
        && |o.requests| == |rest.requests| + 1 && o.requests[1..] == rest.requests
        && o.requests[0] == QueryParams(if relax then Unconstrained else filters)
    ensures var o := FetchMovie(filters, relax, retryCount, shown, watched, replies);
      !Continues(replies[0], relax, retryCount, shown, watched) ==>
        && |o.requests| == 1 && o.relaxed == relax && o.retries == retryCount
        && o.requests[0] == QueryParams(if relax then Unconstrained else filters)
        && (replies[0].Found? ==> o.result == Shown(replies[0].movie))
        && (replies[0].NotOk? ==> o.result == Failed(ErrorMessage(replies[0].bodyError)))
  {
    var o := FetchMovie(filters, relax, retryCount, shown, watched, replies);
    if Continues(replies[0], relax, retryCount, shown, watched) {
      var rest := FetchMovie(filters, NextRelax(replies[0], relax), NextCount(replies[0], retryCount),
                             shown, watched, replies[1..]);
      assert o.requests[1..] == rest.requests;
    }
  }

  /** Each filter state allows one first attempt and ten re-fetches; before
      the filters are cleared a second such run may follow. */
  lemma {:induction false} FetchRequestsBounded(filters: FilterOptions, relax: bool, retryCount: nat,
                                                shown: seq<int>, watched: seq<int>, replies: seq<Reply>)
    requires retryCount <= MaxDuplicateRetries
    ensures |FetchMovie(filters, relax, retryCount, shown, watched, replies).requests| <= RequestBound(relax, retryCount)
    decreases |replies|
  {
    if replies != [] {
      FetchStep(filters, relax, retryCount, shown, watched, replies);
      if Continues(replies[0], relax, retryCount, shown, watched) {
        FetchRequestsBounded(filters, NextRelax(replies[0], relax), NextCount(replies[0], retryCount),
                             shown, watched, replies[1..]);
      }
    }
  }

  /** Every request carries the filters until a "not found" clears them, and
      none carries a filter once they are cleared. */
  lemma {:induction false} FetchRequestParams(filters: FilterOptions, relax: bool, retryCount: nat,
                                              shown: seq<int>, watched: seq<int>, replies: seq<Reply>)
    requires retryCount <= MaxDuplicateRetries
    ensures var o := FetchMovie(filters, relax, retryCount, shown, watched, replies);
      && (relax ==> forall i :: 0 <= i < |o.requests| ==> o.requests[i] == [])
      && (!o.relaxed ==> forall i :: 0 <= i < |o.requests| ==> o.requests[i] == QueryParams(filters))
    decreases |replies|
  {
    if replies != [] {
      FetchStep(filters, relax, retryCount, shown, watched, replies);
      if Continues(replies[0], relax, retryCount, shown, watched) {
        var o := FetchMovie(filters, relax, retryCount, shown, watched, replies);
        FetchRequestParams(filters, NextRelax(replies[0], relax), NextCount(replies[0], retryCount),
                           shown, watched, replies[1..]);
        assert forall i :: 1 <= i < |o.requests| ==> o.requests[i] == o.requests[1..][i - 1];
      }
    }
  }

  /** The fetch ends on the reply to its last request: a movie shown is that
      reply's movie, a failure carries that reply's message, and a fetch
      still waiting has used every reply. */
  lemma {:induction false} FetchEndsOnLastReply(filters: FilterOptions, relax: bool, retryCount: nat,
                                                shown: seq<int>, watched: seq<int>, replies: seq<Reply>)
    requires retryCount <= MaxDuplicateRetries
    ensures var o := FetchMovie(filters, relax, retryCount, shown, watched, replies);
      && (o.result.Shown? ==> 0 < |o.requests| && replies[|o.requests| - 1] == Found(o.result.movie))
      && (o.result.Failed? ==>
            0 < |o.requests| && replies[|o.requests| - 1].NotOk? &&
            o.result.message == ErrorMessage(replies[|o.requests| - 1].bodyError))
      && (o.result.Waiting? ==> |o.requests| == |replies|)
    decreases |replies|
  {
    if replies != [] {
      FetchStep(filters, relax, retryCount, shown, watched, replies);
      if Continues(replies[0], relax, retryCount, shown, watched) {
        var o := FetchMovie(filters, relax, retryCount, shown, watched, replies);
        FetchEndsOnLastReply(filters, NextRelax(replies[0], relax), NextCount(replies[0], retryCount),
                             shown, watched, replies[1..]);
        if !o.result.Waiting? {
          assert replies[|o.requests| - 1] == replies[1..][|o.requests| - 2];
        }
      }
    }
  }

  /** A first reply that is neither a repeat nor a "not found" to retry
      decides the fetch after one request: a fresh movie is shown at once, a
      failure ends it with the reply's message. */
  lemma FirstReplyDecides(filters: FilterOptions, relax: bool, retryCount: nat,
                          shown: seq<int>, watched: seq<int>, replies: seq<Reply>)
    requires retryCount <= MaxDuplicateRetries
    ensures var o := FetchMovie(filters, relax, retryCount, shown, watched, replies);
      && (replies != [] && replies[0].Found? && !IsRepeat(replies[0], shown, watched) ==>
            o.result == Shown(replies[0].movie) && |o.requests| == 1)
      && (replies != [] && replies[0].NotOk? && (replies[0].status != NotFoundStatus || relax) ==>
            o.result == Failed(ErrorMessage(replies[0].bodyError)) && |o.requests| == 1)
  {
    if replies != [] {
      FetchStep(filters, relax, retryCount, shown, watched, replies);
    }
  }

  /** Only a repeat, or the one "not found" before the filters are cleared,
      leads to another request: every request before the last was answered
      by one of the two. */
  lemma {:induction false} SkippedRepliesAreRepeats(filters: FilterOptions, relax: bool, retryCount: nat,
                                                    shown: seq<int>, watched: seq<int>, replies: seq<Reply>)
    requires retryCount <= MaxDuplicateRetries
    ensures var o := FetchMovie(filters, relax, retryCount, shown, watched, replies);
      forall i :: 0 <= i < |o.requests| - 1 ==>
        IsRepeat(replies[i], shown, watched) || (!relax && IsNotFound(replies[i]))
    decreases |replies|
  {
    if replies != [] {
      FetchStep(filters, relax, retryCount, shown, watched, replies);
      if Continues(replies[0], relax, retryCount, shown, watched) {
        var o := FetchMovie(filters, relax, retryCount, shown, watched, replies);
        SkippedRepliesAreRepeats(filters, NextRelax(replies[0], relax), NextCount(replies[0], retryCount),
                                 shown, watched, replies[1..]);
        assert forall i :: 1 <= i < |o.requests| - 1 ==> replies[i] == replies[1..][i - 1];
      }
    }
  }

  /** While the filters stay as they are, every reply but the deciding one
      was a re-fetched repeat: the retry count grows by one per request. */
  lemma {:induction false} FetchRetriesCount(filters: FilterOptions, relax: bool, retryCount: nat,
                                             shown: seq<int>, watched: seq<int>, replies: seq<Reply>)
    requires retryCount <= MaxDuplicateRetries
    ensures var o := FetchMovie(filters, relax, retryCount, shown, watched, replies);
      && o.retries <= MaxDuplicateRetries
      && (relax || !o.relaxed ==>
            o.retries == retryCount + |o.requests| - (if o.result.Waiting? then 0 else 1))
    decreases |replies|
  {
    if replies != [] {
      FetchStep(filters, relax, retryCount, shown, watched, replies);
      if Continues(replies[0], relax, retryCount, shown, watched) {
        FetchRetriesCount(filters, NextRelax(replies[0], relax), NextCount(replies[0], retryCount),
                          shown, watched, replies[1..]);
      }
    }
  }

  /** A repeat is shown only after the full run of re-fetches: the last
      `n` replies all repeat, where `n` is the first attempt plus the
      re-fetches left (all eleven once the filters were cleared here), and
      the retry count has reached ten. */
  lemma {:induction false} RepeatShownAfterFullRun(filters: FilterOptions, relax: bool, retryCount: nat,
                                                   shown: seq<int>, watched: seq<int>, replies: seq<Reply>)
    requires retryCount <= MaxDuplicateRetries
    ensures var o := FetchMovie(filters, relax, retryCount, shown, watched, replies);
      var n := if o.relaxed && !relax then MaxDuplicateRetries + 1 else MaxDuplicateRetries - retryCount + 1;
      o.result.Shown? && IsRepeat(Found(o.result.movie), shown, watched) ==>
        && o.retries == MaxDuplicateRetries
        && n <= |o.requests|
        && ((o.relaxed && !relax) || n == |o.requests|)
        && forall i :: |o.requests| - n <= i < |o.requests| ==> IsRepeat(replies[i], shown, watched)
    decreases |replies|
  {
    if replies != [] {
      FetchStep(filters, relax, retryCount, shown, watched, replies);
      if Continues(replies[0], relax, retryCount, shown, watched) {
        var o := FetchMovie(filters, relax, retryCount, shown, watched, replies);
        RepeatShownAfterFullRun(filters, NextRelax(replies[0], relax), NextCount(replies[0], retryCount),
                                shown, watched, replies[1..]);
        assert forall i :: 1 <= i < |o.requests| ==> replies[i] == replies[1..][i - 1];
      }
    }
  }

  /** A first attempt that finds nothing is retried once with every filter
      cleared; every later request carries no filter, and a second "not found"
      ends the fetch with an error after exactly two requests. */
  lemma {:induction false} NotFoundRelaxesOnce(filters: FilterOptions, shown: seq<int>, watched: seq<int>, replies: seq<Reply>)
    requires |replies| > 0 && IsNotFound(replies[0])
    ensures var o := FetchMovie(filters, false, 0, shown, watched, replies);
      && o.relaxed
      && o.requests[0] == QueryParams(filters)
      && (forall i :: 1 <= i < |o.requests| ==> o.requests[i] == [])
      && (|replies| > 1 && IsNotFound(replies[1]) ==>
            o.result == Failed(ErrorMessage(replies[1].bodyError)) && |o.requests| == 2)
  {
    var o := FetchMovie(filters, false, 0, shown, watched, replies);
    var rest := FetchMovie(filters, true, 0, shown, watched, replies[1..]);
    FetchRequestParams(filters, true, 0, shown, watched, replies[1..]);
    assert o.requests == [QueryParams(filters)] + rest.requests;
    if |replies| > 1 && IsNotFound(replies[1]) {
      assert replies[1..][0] == replies[1];
    }
  }

  /** Whatever the replies, one call of `fetchMovie` makes at most 22 requests:
      eleven attempts with the filters and eleven without. */
  lemma FetchIsBounded(filters: FilterOptions, shown: seq<int>, watched: seq<int>, replies: seq<Reply>)
    ensures |FetchMovie(filters, false, 0, shown, watched, replies).requests| <= 2 * (MaxDuplicateRetries + 1)
  {
    FetchRequestsBounded(filters, false, 0, shown, watched, replies);
  }

  /** A movie already shown keeps being re-fetched while every reply repeats
      it: after the first request and ten re-fetches it is accepted anyway. */
  lemma {:induction false} RepeatsAcceptedAfterTenRetries(filters: FilterOptions, relax: bool, k: nat,
                                                          shown: seq<int>, watched: seq<int>, m: Movie, replies: seq<Reply>)
    requires k <= MaxDuplicateRetries
    requires m.id in shown
    requires |replies| == MaxDuplicateRetries - k + 1 && forall i :: 0 <= i < |replies| ==> replies[i] == Found(m)
    ensures FetchMovie(filters, relax, k, shown, watched, replies).result == Shown(m)
    ensures |FetchMovie(filters, relax, k, shown, watched, replies).requests| == MaxDuplicateRetries - k + 1
    decreases MaxDuplicateRetries - k
  {
    if k < MaxDuplicateRetries {
      RepeatsAcceptedAfterTenRetries(filters, relax, k + 1, shown, watched, m, replies[1..]);
    }
  }

  /** A fresh first fetch shows the movie it gets and records its id. */
  lemma FreshFetchRecordsShown(filters: FilterOptions, m: Movie, rest: seq<Reply>)
    ensures var o := FetchMovie(filters, false, 0, [], [], [Found(m)] + rest);
      o.result == Shown(m) && o.shown == [m.id] && |o.requests| == 1
  {
  }
}
