/** The two server routes in the model: the random popular movie of
    app/api/movies/route.ts and the streaming-service list of
    movie-swipe/app/api/providers/route.ts. The API key, the upstream
    service's replies and the random draws are inputs. */
module Routes {
  import opened Common
  import opened Records

  /** What the upstream movie database answered. */
  datatype Upstream<T> =
    | UpstreamOk(body: T)
    | UpstreamError(status: int)  // a reply whose status is not 2xx
    | UpstreamFailure             // no reply, or a body that is not JSON

  const ServerErrorStatus := 500
  const NotFoundStatus := 404
  /** Pages of popular movies the movie route draws from. */
  const PageCount: nat := 10
  const UntitledTitle := "Untitled"

  /** A movie as the upstream service lists it; any of the three titles may
      be missing. */
  datatype RawMovie = RawMovie(
    id: int,
    title: Option<string>,
    name: Option<string>,
    originalTitle: Option<string>,
    voteAverage: real,
    posterPath: Option<string>,
    overview: string)

  /** One page of popular movies; `results` may be missing. */
  datatype PopularPage = PopularPage(results: Option<seq<RawMovie>>)

  predicate NonEmpty(o: Option<string>)
  {
    o.Some? && o.value != ""
  }

  /** `a || b || ... || fallback` over optional strings: the first non-empty
      candidate, else the fallback. */
  function FirstNonEmpty(candidates: seq<Option<string>>, fallback: string): (r: string)
    ensures (exists i :: 0 <= i < |candidates| && NonEmpty(candidates[i]) && candidates[i].value == r &&
               forall j :: 0 <= j < i ==> !NonEmpty(candidates[j]))
            || ((forall j :: 0 <= j < |candidates| ==> !NonEmpty(candidates[j])) && r == fallback)
    ensures (forall j :: 0 <= j < |candidates| ==> !NonEmpty(candidates[j])) ==> r == fallback
  {
    if candidates == [] then fallback
    else if NonEmpty(candidates[0]) then candidates[0].value
    else
      var r := FirstNonEmpty(candidates[1..], fallback);
      if exists i :: 0 <= i < |candidates[1..]| && NonEmpty(candidates[1..][i]) && candidates[1..][i].value == r &&
                     forall j :: 0 <= j < i ==> !NonEmpty(candidates[1..][j]) then
        var i :| 0 <= i < |candidates[1..]| && NonEmpty(candidates[1..][i]) && candidates[1..][i].value == r &&
                 forall j :: 0 <= j < i ==> !NonEmpty(candidates[1..][j]);
        assert candidates[i + 1] == candidates[1..][i];
        r
      else
        assert forall j :: 1 <= j < |candidates| ==> candidates[j] == candidates[1..][j - 1];
        r
  }

  /** The title shown: title, else name, else original title, else "Untitled". */
  function DisplayTitle(m: RawMovie): string
  {
    FirstNonEmpty([m.title, m.name, m.originalTitle], UntitledTitle)
  }

  /** The canonical record: id, poster and overview copied, the title by the
      fallback chain, the rating from the vote average. */
  function Normalize(m: RawMovie): (r: Movie)
    ensures r.id == m.id && r.posterPath == m.posterPath && r.overview == m.overview && r.rating == m.voteAverage
    ensures NonEmpty(m.title) ==> r.title == m.title.value
    ensures !NonEmpty(m.title) && NonEmpty(m.name) ==> r.title == m.name.value
    ensures !NonEmpty(m.title) && !NonEmpty(m.name) && NonEmpty(m.originalTitle) ==> r.title == m.originalTitle.value
    ensures !NonEmpty(m.title) && !NonEmpty(m.name) && !NonEmpty(m.originalTitle) ==> r.title == UntitledTitle
    ensures r.title != ""
  {
    var cs := [m.title, m.name, m.originalTitle];
    assert cs[0] == m.title && cs[1] == m.name && cs[2] == m.originalTitle;
    Movie(m.id, DisplayTitle(m), m.voteAverage, m.posterPath, m.overview)
  }

  /** `GET /api/movies`: with a key, one random page of 1..10 is requested and
      one random movie of it returned, normalised. Missing key, upstream
      error and failure give 500 (an upstream error's status is passed on);
      a page without movies gives 404. Returns the page requested, if any. */
  function GetRandomMovie(apiKey: Option<string>, pageRoll: real, indexRoll: real,
                          fetchPage: nat -> Upstream<PopularPage>): (out: (Response<Movie>, Option<nat>))
    requires 0.0 <= pageRoll < 1.0 && 0.0 <= indexRoll < 1.0
    ensures !NonEmpty(apiKey) ==> out == (ErrorStatus(ServerErrorStatus, None), None)
    ensures NonEmpty(apiKey) ==> out.1.Some? && 1 <= out.1.value <= PageCount
    ensures NonEmpty(apiKey) ==>
              (out.0.Success? <==>
                 fetchPage(out.1.value).UpstreamOk? && fetchPage(out.1.value).body.results.Some? &&
                 fetchPage(out.1.value).body.results.value != [])
    ensures out.0.Success? ==>
              NonEmpty(apiKey) && fetchPage(out.1.value).UpstreamOk? &&
              var results := fetchPage(out.1.value).body.results;
              results.Some? && exists i :: 0 <= i < |results.value| && out.0.body == Normalize(results.value[i])
    ensures NonEmpty(apiKey) ==>
              (out.0 == ErrorStatus(NotFoundStatus, None) <==>
                 fetchPage(out.1.value).UpstreamOk? &&
                 (fetchPage(out.1.value).body.results.None? || fetchPage(out.1.value).body.results.value == []))
    ensures NonEmpty(apiKey) && fetchPage(out.1.value).UpstreamError? ==>
              out.0 == ErrorStatus(ServerErrorStatus, Some(fetchPage(out.1.value).status))
    ensures NonEmpty(apiKey) && fetchPage(out.1.value).UpstreamFailure? ==>
              out.0 == ErrorStatus(ServerErrorStatus, None)
  {
    if !NonEmpty(apiKey) then (ErrorStatus(ServerErrorStatus, None), None)
    else
      var page := RandomIndex(pageRoll, PageCount) + 1;
      var reply := fetchPage(page);
      match reply
      case UpstreamError(status) => (ErrorStatus(ServerErrorStatus, Some(status)), Some(page))
      case UpstreamFailure => (ErrorStatus(ServerErrorStatus, None), Some(page))
      case UpstreamOk(body) =>
        if body.results.None? || body.results.value == [] then (ErrorStatus(NotFoundStatus, None), Some(page))
        else
          var i := RandomIndex(indexRoll, |body.results.value|);
          (Success(Normalize(body.results.value[i])), Some(page))
  }

  /** A streaming service as the upstream service lists it. */
  datatype TmdbProvider = TmdbProvider(providerId: int, providerName: string, logoPath: string)

  /** Netflix, Prime Video, Disney+, Apple TV+ and Hulu. */
  const MajorProviders: seq<int> := [8, 9, 337, 350, 119]

  predicate IsMajor(p: TmdbProvider)
  {
    p.providerId in MajorProviders
  }

  /** The major services in upstream order, or every service when none of
      them is major. */
  function ProviderList(results: seq<TmdbProvider>): (r: seq<TmdbProvider>)
    ensures IsSubseq(r, results)
    ensures (exists p :: p in results && IsMajor(p)) ==> forall p :: p in r <==> p in results && IsMajor(p)
    ensures (exists p :: p in results && IsMajor(p)) ==>
              forall p :: multiset(r)[p] == if IsMajor(p) then multiset(results)[p] else 0
    ensures (forall p :: p in results ==> !IsMajor(p)) ==> r == results
  {
    var majors := Filter(results, IsMajor);
    FilterCounts(results, IsMajor);
    if |majors| > 0 then
      assert majors[0] in majors;
      majors
    else
      SubseqRefl(results);
      results
  }

  /** Filtering to the major services is idempotent. */
  lemma ProviderListIdempotent(results: seq<TmdbProvider>)
    ensures ProviderList(ProviderList(results)) == ProviderList(results)
  {
    var majors := Filter(results, IsMajor);
    if |majors| > 0 {
      FilterKeepsAll(majors, IsMajor);
      assert majors[0] in majors;
    }
  }

  /** `GET /api/providers`: 500 without a key or when the upstream fails
      (an upstream error's status is passed on), the provider list otherwise. */
  function GetProviders(apiKey: Option<string>, reply: Upstream<seq<TmdbProvider>>): (r: Response<seq<TmdbProvider>>)
    ensures !NonEmpty(apiKey) ==> r == ErrorStatus(ServerErrorStatus, None)
    ensures NonEmpty(apiKey) && reply.UpstreamError? ==> r == ErrorStatus(ServerErrorStatus, Some(reply.status))
    ensures NonEmpty(apiKey) && reply.UpstreamFailure? ==> r == ErrorStatus(ServerErrorStatus, None)
    ensures r.Success? <==> NonEmpty(apiKey) && reply.UpstreamOk?
    ensures r.Success? ==> r.body == ProviderList(reply.body) && IsSubseq(r.body, reply.body)
  {
    if !NonEmpty(apiKey) then ErrorStatus(ServerErrorStatus, None)
    else
      match reply
      case UpstreamError(status) => ErrorStatus(ServerErrorStatus, Some(status))
      case UpstreamFailure => ErrorStatus(ServerErrorStatus, None)
      case UpstreamOk(results) => Success(ProviderList(results))
  }
}
