/** The TMDB catalog adapter: a mood label chooses genre ids and a sort order,
    one discover request is built, and the first results are reshaped into
    movies. */
module Tmdb {
  import opened Wrappers
  import opened Text
  import opened Http
  import JsObject

  /** Genres: 28 Action, 35 Comedy, 18 Drama, 53 Thriller, 10749 Romance,
      99 Documentary, 16 Animation. `keywords` is never sent. */
  datatype MovieParams = MovieParams(genreIds: Option<seq<nat>>, keywords: Option<string>, sortBy: Option<string>)

  const ParamTable: map<string, MovieParams> := map[
    "happy" := MovieParams(Some([35, 16]), Some("uplifting, feel-good, comedy"), Some("popularity.desc")),
    "sad" := MovieParams(Some([18, 10749]), Some("emotional, drama, heartwarming"), Some("popularity.desc")),
    "angry" := MovieParams(Some([28, 53]), Some("action, intense, adrenaline"), Some("popularity.desc")),
    "stressed" := MovieParams(Some([35, 99]), Some("light-hearted, relaxing, calm"), Some("popularity.desc")),
    "calm" := MovieParams(Some([99, 18]), Some("peaceful, nature, mindfulness"), Some("popularity.desc")),
    "neutral" := MovieParams(None, None, Some("popularity.desc"))
  ]

  /** `getMoodMovieParams`: the entry of the lower-cased label, or the `neutral`
      entry for any other label. The category is unused. */
  function MoodMovieParams(moodLabel: string, moodCategory: string): (p: MovieParams)
    ensures ToLower(moodLabel) in ParamTable ==> p == ParamTable[ToLower(moodLabel)]
    ensures ToLower(moodLabel) !in ParamTable ==> p == ParamTable["neutral"]
  {
    JsObject.GetOwnOr(ParamTable, ToLower(moodLabel), ParamTable["neutral"])
  }

  /** The label is matched without regard to ASCII case, and the category never matters. */
  lemma ParamsIgnoreCaseAndCategory(moodLabel: string, c1: string, c2: string)
    ensures MoodMovieParams(moodLabel, c1) == MoodMovieParams(ToLower(moodLabel), c2)
  {
    ToLowerIdempotent(moodLabel);
  }

  // ----- the discover request -----

  const DiscoverEndpoint := "https://api.themoviedb.org/3/discover/movie"
  const MissingKeyMessage := "TMDB_API_KEY is not set in environment variables"
  const ApiErrorPrefix := "TMDB API error: "
  const DefaultSort := "popularity.desc"
  const DefaultMaxResults := 10

  function IdStrings(ids: seq<nat>): seq<string> {
    seq(|ids|, k requires 0 <= k < |ids| => NatToString(ids[k]))
  }

  /** `genreIds.join(",")`. */
  function JoinIds(ids: seq<nat>): string {
    Join(IdStrings(ids), ",")
  }

  /** The ids can be read back from the joined list. */
  lemma JoinIdsRoundTrip(ids: seq<nat>)
    requires |ids| >= 1
    ensures var parts := Split(JoinIds(ids), ',');
      && |parts| == |ids|
      && forall k :: 0 <= k < |ids| ==> AllDigits(parts[k]) && ParseNat(parts[k]) == ids[k]
  {
    var strs := IdStrings(ids);
    forall k | 0 <= k < |strs| ensures ',' !in strs[k] {
      assert forall i :: 0 <= i < |strs[k]| ==> IsDigit(strs[k][i]);
    }
    SplitJoin(strs, ',');
    forall k | 0 <= k < |ids| ensures ParseNat(strs[k]) == ids[k] {
      ParseNatToString(ids[k]);
    }
  }

  /** The parameters `getMoviesByMood` appends, in order. */
  function DiscoverParams(p: MovieParams, apiKey: string): (params: seq<Param>)
    ensures |params| == (if p.genreIds.Some? && |p.genreIds.value| > 0 then 5 else 4)
  {
    var sortBy := if Truthy(p.sortBy) then p.sortBy.value else DefaultSort;
    [Param("api_key", apiKey), Param("language", "en-US"), Param("sort_by", sortBy), Param("page", "1")]
    + if p.genreIds.Some? && |p.genreIds.value| > 0 then [Param("with_genres", JoinIds(p.genreIds.value))] else []
  }

  /** For every label: the key, `language=en-US`, `sort_by=popularity.desc` and
      `page=1` come first; `with_genres` follows exactly when the table entry
      lists genres, so never for `neutral` or an unknown label, and then it
      carries that entry's ids joined by commas. */
  lemma DiscoverParamsForLabel(moodLabel: string, moodCategory: string, apiKey: string)
    ensures var params := DiscoverParams(MoodMovieParams(moodLabel, moodCategory), apiKey);
      && Names(params)[..4] == ["api_key", "language", "sort_by", "page"]
      && Get(params, "api_key") == Some(apiKey)
      && Get(params, "language") == Some("en-US")
      && Get(params, "sort_by") == Some(DefaultSort)
      && Get(params, "page") == Some("1")
      && (Get(params, "with_genres").Some? <==> ToLower(moodLabel) in ParamTable && ToLower(moodLabel) != "neutral")
      && (ToLower(moodLabel) in ParamTable && ToLower(moodLabel) != "neutral" ==>
            Get(params, "with_genres") == Some(JoinIds(ParamTable[ToLower(moodLabel)].genreIds.value)))
  {
    TableSortsByPopularity();
    DiscoverParamsCarry(MoodMovieParams(moodLabel, moodCategory), apiKey);
  }

  /** Every entry sorts by popularity, and every entry but `neutral` lists
      genres. */
  lemma TableSortsByPopularity()
    ensures forall m :: m in ParamTable ==> ParamTable[m].sortBy == Some(DefaultSort)
    ensures forall m :: m in ParamTable ==>
      (ParamTable[m].genreIds.Some? && |ParamTable[m].genreIds.value| > 0 <==> m != "neutral")
  {
  }

  /** The request's parameters for any entry: four fixed ones, then
      `with_genres` exactly when the entry lists genres, carrying the
      comma-joined ids (which `JoinIdsRoundTrip` reads back). */
  lemma DiscoverParamsCarry(p: MovieParams, apiKey: string)
    ensures var params := DiscoverParams(p, apiKey);
      && Names(params)[..4] == ["api_key", "language", "sort_by", "page"]
      && Get(params, "api_key") == Some(apiKey)
      && Get(params, "language") == Some("en-US")
      && Get(params, "sort_by") == Some(if Truthy(p.sortBy) then p.sortBy.value else DefaultSort)
      && Get(params, "page") == Some("1")
      && (Get(params, "with_genres").Some? <==> p.genreIds.Some? && |p.genreIds.value| > 0)
      && (p.genreIds.Some? && |p.genreIds.value| > 0 ==>
            Get(params, "with_genres") == Some(JoinIds(p.genreIds.value)))
  {
    var params := DiscoverParams(p, apiKey);
    GetFirst(params, 0, "api_key");
    GetFirst(params, 1, "language");
    GetFirst(params, 2, "sort_by");
    GetFirst(params, 3, "page");
    GetNone(params, "with_genres");
    if |params| == 5 {
      GetFirst(params, 4, "with_genres");
    }
  }


  // ----- the reply -----

  /** One element of `data.results`. */
  datatype RawMovie = RawMovie(
    id: nat, title: string, overview: string, posterPath: Option<string>,
    releaseDate: string, voteAverage: real, genreIds: seq<nat>)

  datatype Movie = Movie(
    id: nat, title: string, overview: string, posterPath: Option<string>,
    releaseDate: string, voteAverage: real, genreIds: seq<nat>)

  const PosterBase := "https://image.tmdb.org/t/p/w500"

  function ToMovie(m: RawMovie): (r: Movie)
    ensures Truthy(m.posterPath) ==> r.posterPath == Some(PosterBase + m.posterPath.value)
    ensures !Truthy(m.posterPath) ==> r.posterPath == None
  {
    Movie(m.id, m.title, m.overview,
          if Truthy(m.posterPath) then Some(PosterBase + m.posterPath.value) else None,
          m.releaseDate, m.voteAverage, m.genreIds)
  }

  /** The end index of `slice(0, end)` on a list of length `len`; a negative end
      counts from the back. */
  function SliceEnd(len: nat, end: int): (e: nat)
    ensures e <= len
    ensures end >= 0 ==> e == if end < len then end else len
    ensures end < 0 ==> e == if len + end > 0 then len + end else 0
  {
    if end >= 0 then (if end < len then end else len)
    else if len + end > 0 then len + end else 0
  }

  /** `results.slice(0, maxResults).map(...)`. */
  function ToMovies(results: seq<RawMovie>, maxResults: int): (movies: seq<Movie>)
    ensures |movies| == SliceEnd(|results|, maxResults) && |movies| <= |results|
  {
    var n := SliceEnd(|results|, maxResults);
    seq(n, k requires 0 <= k < n => ToMovie(results[k]))
  }

  /** The movies are the first `min(maxResults, |results|)` results, in order,
      with every field but the poster copied. */
  lemma ToMoviesPrefix(results: seq<RawMovie>, maxResults: nat)
    ensures |ToMovies(results, maxResults)| == if maxResults < |results| then maxResults else |results|
    ensures forall k :: 0 <= k < |ToMovies(results, maxResults)| ==>
      var m, raw := ToMovies(results, maxResults)[k], results[k];
      && m.id == raw.id && m.title == raw.title && m.overview == raw.overview
      && m.releaseDate == raw.releaseDate && m.voteAverage == raw.voteAverage
      && m.genreIds == raw.genreIds
      && (m.posterPath.Some? <==> Truthy(raw.posterPath))
    ensures forall k :: 0 <= k < |ToMovies(results, maxResults)| ==> ToMovies(results, maxResults)[k] == ToMovie(results[k])
  {
  }

  function DiscoverOutcome(reply: Reply<seq<RawMovie>>, maxResults: int): (r: Result<seq<Movie>, string>)
    ensures reply.Ok? <==> r.Success?
    ensures reply.NotOk? ==> r == Failure(ApiErrorPrefix + reply.statusText)
    ensures reply.Rejected? ==> r == Failure(reply.reason)
  {
    match reply
    case Rejected(reason) => Failure(reason)
    case NotOk(statusText) => Failure(ApiErrorPrefix + statusText)
    case Ok(results) => Success(ToMovies(results, maxResults))
  }

  /** `getMoviesByMood(moodLabel, moodCategory, maxResults)`: no request when
      the key is missing, otherwise exactly one discover request, whose reply
      decides the outcome. */
  function ByMood(moodLabel: string, moodCategory: string, maxResults: int, tmdb: Service<seq<RawMovie>>)
    : (t: Traced<seq<Movie>>)
    ensures t.sent == [] <==> KeyMissing(tmdb.apiKey)
    ensures |t.sent| <= 1
  {
    if KeyMissing(tmdb.apiKey) then Traced(Failure(MissingKeyMessage), [])
    else
      var request := Request(DiscoverEndpoint, DiscoverParams(MoodMovieParams(moodLabel, moodCategory), tmdb.apiKey.value));
      Traced(DiscoverOutcome(tmdb.fetch(request), maxResults), [request])
  }

  /** The key and request promise: without a key the adapter fails with the
      key error and sends nothing; with one it sends exactly the discover
      request built from the label's parameters, and that reply decides the
      outcome. */
  lemma ByMoodRequest(moodLabel: string, moodCategory: string, maxResults: int, tmdb: Service<seq<RawMovie>>)
    ensures KeyMissing(tmdb.apiKey) ==>
      ByMood(moodLabel, moodCategory, maxResults, tmdb) == Traced(Failure(MissingKeyMessage), [])
    ensures !KeyMissing(tmdb.apiKey) ==>
      var request := Request(DiscoverEndpoint, DiscoverParams(MoodMovieParams(moodLabel, moodCategory), tmdb.apiKey.value));
      ByMood(moodLabel, moodCategory, maxResults, tmdb) == Traced(DiscoverOutcome(tmdb.fetch(request), maxResults), [request])
  {
  }

  /** Every request the adapter sends goes to the discover endpoint, and there
      is at most one. */
  lemma ByMoodOnlyDiscovers(moodLabel: string, moodCategory: string, maxResults: int, tmdb: Service<seq<RawMovie>>)
    ensures |ByMood(moodLabel, moodCategory, maxResults, tmdb).sent| <= 1
    ensures forall k :: 0 <= k < |ByMood(moodLabel, moodCategory, maxResults, tmdb).sent| ==>
      ByMood(moodLabel, moodCategory, maxResults, tmdb).sent[k].endpoint == DiscoverEndpoint
  {
  }

  /** `getMoviesByMood`, building the URL with successive `append` calls, the
      genre list only when there is one. */
  method MoviesByMood(moodLabel: string, moodCategory: string, maxResults: int, tmdb: Service<seq<RawMovie>>)
    returns (t: Traced<seq<Movie>>)
    ensures t == ByMood(moodLabel, moodCategory, maxResults, tmdb)
  {
    if KeyMissing(tmdb.apiKey) {
      return Traced(Failure(MissingKeyMessage), []);
    }
    var apiKey := tmdb.apiKey.value;
    var params := MoodMovieParams(moodLabel, moodCategory);
    var sortBy := if Truthy(params.sortBy) then params.sortBy.value else DefaultSort;
    var url := new SearchParams();
    url.Append("api_key", apiKey);
    url.Append("language", "en-US");
    url.Append("sort_by", sortBy);
    url.Append("page", "1");
    assert url.entries == [Param("api_key", apiKey), Param("language", "en-US"), Param("sort_by", sortBy), Param("page", "1")];
    if params.genreIds.Some? && |params.genreIds.value| > 0 {
      url.Append("with_genres", JoinIds(params.genreIds.value));
    }
    assert url.entries == DiscoverParams(params, apiKey);
    var request := Request(DiscoverEndpoint, url.entries);
    t := Traced(DiscoverOutcome(tmdb.fetch(request), maxResults), [request]);
  }

  // ----- the table lookup as written -----

  /** `params[moodLower] || params.neutral` as written: an `Object.prototype`
      member is found for "constructor" and "__proto__", and it has neither
      `sortBy` nor `genreIds`. */
  function MoodMovieParamsAsWritten(moodLabel: string): (p: MovieParams)
    ensures ToLower(moodLabel) !in JsObject.PrototypeMembers ==> p == MoodMovieParams(moodLabel, "")
    ensures ToLower(moodLabel) in JsObject.PrototypeMembers ==> p.genreIds.None? && p.sortBy.None?
  {
    match JsObject.GetOrAsWritten(ParamTable, ToLower(moodLabel), ParamTable["neutral"])
    case Own(p) => p
    case _ => MovieParams(None, None, None)
  }

  /** Unlike the YouTube table, the slip is harmless here: the request built
      from the lookup as written is the one built from the own-key lookup. */
  lemma AsWrittenSendsSameRequest(moodLabel: string, moodCategory: string, apiKey: string)
    ensures DiscoverParams(MoodMovieParamsAsWritten(moodLabel), apiKey)
         == DiscoverParams(MoodMovieParams(moodLabel, moodCategory), apiKey)
  {
  }
}
