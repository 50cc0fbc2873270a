/** The YouTube catalog adapter: a mood label chooses a fixed set of search
    phrases, one search request is built per phrase, and the returned items are
    reshaped into videos. */
module YouTube {
  import opened Wrappers
  import opened Text
  import opened Http
  import JsObject

  datatype MoodQueries = MoodQueries(videos: seq<string>, songs: seq<string>)

  /** The search phrases per lower-case mood label; `neutral` is the default. */
  const QueryTable: map<string, MoodQueries> := map[
    "happy" := MoodQueries(
      ["motivational videos", "uplifting content", "funny videos", "positive energy"],
      ["happy songs", "uplifting music", "feel good songs", "upbeat music"]),
    "sad" := MoodQueries(
      ["comforting videos", "emotional support", "calming nature videos", "healing content"],
      ["calming music", "sad songs", "emotional music", "peaceful songs"]),
    "angry" := MoodQueries(
      ["stress relief", "anger management", "workout motivation", "calming exercises"],
      ["energetic music", "workout songs", "pump up music", "intense music"]),
    "stressed" := MoodQueries(
      ["meditation", "relaxation techniques", "stress relief", "mindfulness"],
      ["relaxing music", "meditation music", "calm music", "peaceful instrumental"]),
    "calm" := MoodQueries(
      ["nature documentaries", "peaceful scenes", "mindfulness", "zen content"],
      ["ambient music", "chill music", "lo-fi", "soft music"]),
    "neutral" := MoodQueries(
      ["trending videos", "popular content", "entertainment", "educational videos"],
      ["popular music", "trending songs", "top hits", "chart music"])
  ]

  /** Every entry of the table has four video phrases and four song phrases, so
      the first of each always exists. */
  lemma TableEntriesHaveFourPhrases()
    ensures "neutral" in QueryTable
    ensures forall m :: m in QueryTable ==> |QueryTable[m].videos| == 4 && |QueryTable[m].songs| == 4
  {
  }

  /** `getMoodSearchQueries`: the entry of the lower-cased label, or the
      `neutral` entry for any other label. The category is accepted and unused. */
  function MoodSearchQueries(moodLabel: string, moodCategory: string): (q: MoodQueries)
    ensures ToLower(moodLabel) in QueryTable ==> q == QueryTable[ToLower(moodLabel)]
    ensures ToLower(moodLabel) !in QueryTable ==> q == QueryTable["neutral"]
    ensures |q.videos| == 4 && |q.songs| == 4
  {
    TableEntriesHaveFourPhrases();
    JsObject.GetOwnOr(QueryTable, ToLower(moodLabel), QueryTable["neutral"])
  }

  /** The label is matched without regard to ASCII case. */
  lemma QueriesIgnoreCase(moodLabel: string, moodCategory: string)
    ensures MoodSearchQueries(moodLabel, moodCategory) == MoodSearchQueries(ToLower(moodLabel), moodCategory)
  {
    ToLowerIdempotent(moodLabel);
  }

  /** The category never influences the phrases. */
  lemma QueriesIgnoreCategory(moodLabel: string, c1: string, c2: string)
    ensures MoodSearchQueries(moodLabel, c1) == MoodSearchQueries(moodLabel, c2)
  {
  }

  // ----- the search request -----

  const SearchEndpoint := "https://www.googleapis.com/youtube/v3/search"
  const MissingKeyMessage := "YOUTUBE_API_KEY is not set in environment variables"
  const ApiErrorPrefix := "YouTube API error: "

  /** The request `searchYouTubeVideos` sends for a phrase. */
  function SearchRequest(query: string, maxResults: int, apiKey: string): (r: Request)
    ensures r.endpoint == SearchEndpoint && |r.params| == 6
  {
    Request(SearchEndpoint, [
      Param("part", "snippet"), Param("q", query), Param("type", "video"),
      Param("maxResults", IntToString(maxResults)), Param("key", apiKey),
      Param("order", "relevance")])
  }

  /** What the request carries: six parameters in a fixed order, the phrase as
      `q`, the key as `key`, and a `maxResults` numeral that reads back as the
      requested count. */
  lemma SearchRequestCarries(query: string, maxResults: nat, apiKey: string)
    ensures Names(SearchRequest(query, maxResults, apiKey).params)
         == ["part", "q", "type", "maxResults", "key", "order"]
    ensures Get(SearchRequest(query, maxResults, apiKey).params, "q") == Some(query)
    ensures Get(SearchRequest(query, maxResults, apiKey).params, "key") == Some(apiKey)
    ensures Get(SearchRequest(query, maxResults, apiKey).params, "part") == Some("snippet")
    ensures Get(SearchRequest(query, maxResults, apiKey).params, "type") == Some("video")
    ensures Get(SearchRequest(query, maxResults, apiKey).params, "order") == Some("relevance")
    ensures var n := Get(SearchRequest(query, maxResults, apiKey).params, "maxResults");
            n.Some? && AllDigits(n.value) && ParseNat(n.value) == maxResults
  {
    var params := SearchRequest(query, maxResults, apiKey).params;
    GetFirst(params, 0, "part");
    GetFirst(params, 1, "q");
    GetFirst(params, 2, "type");
    GetFirst(params, 3, "maxResults");
    GetFirst(params, 4, "key");
    GetFirst(params, 5, "order");
    ParseNatToString(maxResults);
  }

  // ----- the reply -----

  datatype Thumbnails = Thumbnails(high: Option<string>, medium: Option<string>, default: string)

  /** One element of `data.items`. */
  datatype RawItem = RawItem(
    videoId: string, title: string, description: string, thumbnails: Thumbnails,
    channelTitle: string, publishedAt: string)

  datatype Video = Video(
    videoId: string, title: string, description: string, thumbnail: string,
    channelTitle: string, publishedAt: string)

  /** `high?.url || medium?.url || default.url`. */
  function PickThumbnail(t: Thumbnails): (url: string)
    ensures Truthy(t.high) ==> url == t.high.value
    ensures !Truthy(t.high) && Truthy(t.medium) ==> url == t.medium.value
    ensures !Truthy(t.high) && !Truthy(t.medium) ==> url == t.default
  {
    if Truthy(t.high) then t.high.value
    else if Truthy(t.medium) then t.medium.value
    else t.default
  }

  function ToVideo(item: RawItem): Video {
    Video(item.videoId, item.title, item.description, PickThumbnail(item.thumbnails),
          item.channelTitle, item.publishedAt)
  }

  function ToVideos(items: seq<RawItem>): (videos: seq<Video>)
    ensures |videos| == |items|
  {
    seq(|items|, k requires 0 <= k < |items| => ToVideo(items[k]))
  }

  /** The mapping keeps the number and order of the items and copies every
      field but the thumbnail, which is one of the item's own thumbnail URLs. */
  lemma ToVideosPreserves(items: seq<RawItem>)
    ensures |ToVideos(items)| == |items|
    ensures forall k :: 0 <= k < |items| ==>
      var v, it := ToVideos(items)[k], items[k];
      && v.videoId == it.videoId && v.title == it.title && v.description == it.description
      && v.channelTitle == it.channelTitle && v.publishedAt == it.publishedAt
      && (Some(v.thumbnail) == it.thumbnails.high || Some(v.thumbnail) == it.thumbnails.medium
          || v.thumbnail == it.thumbnails.default)
    ensures forall k :: 0 <= k < |items| ==> ToVideos(items)[k] == ToVideo(items[k])
  {
  }

  /** What `searchYouTubeVideos` returns or throws once a reply is in. */
  function SearchOutcome(reply: Reply<seq<RawItem>>): (r: Result<seq<Video>, string>)
    ensures reply.Ok? <==> r.Success?
    ensures reply.NotOk? ==> r == Failure(ApiErrorPrefix + reply.statusText)
    ensures reply.Rejected? ==> r == Failure(reply.reason)
  {
    match reply
    case Rejected(reason) => Failure(reason)
    case NotOk(statusText) => Failure(ApiErrorPrefix + statusText)
    case Ok(items) => Success(ToVideos(items))
  }

  /** `searchYouTubeVideos(query, maxResults)`: no request when the key is
      missing, otherwise exactly one, whose reply decides the outcome. */
  function Search(query: string, maxResults: int, youtube: Service<seq<RawItem>>): (t: Traced<seq<Video>>)
    ensures KeyMissing(youtube.apiKey) ==> t == Traced(Failure(MissingKeyMessage), [])
    ensures !KeyMissing(youtube.apiKey) ==> |t.sent| == 1 && t.sent[0].endpoint == SearchEndpoint
  {
    if KeyMissing(youtube.apiKey) then Traced(Failure(MissingKeyMessage), [])
    else
      var request := SearchRequest(query, maxResults, youtube.apiKey.value);
      Traced(SearchOutcome(youtube.fetch(request)), [request])
  }

  /** `searchYouTubeVideos`, building the URL with successive `append` calls. */
  method SearchVideos(query: string, maxResults: int, youtube: Service<seq<RawItem>>)
    returns (t: Traced<seq<Video>>)
    ensures t == Search(query, maxResults, youtube)
  {
    if KeyMissing(youtube.apiKey) {
      return Traced(Failure(MissingKeyMessage), []);
    }
    var apiKey := youtube.apiKey.value;
    var url := new SearchParams();
    url.Append("part", "snippet");
    url.Append("q", query);
    url.Append("type", "video");
    url.Append("maxResults", IntToString(maxResults));
    url.Append("key", apiKey);
    url.Append("order", "relevance");
    assert url.entries == SearchRequest(query, maxResults, apiKey).params;
    var request := Request(SearchEndpoint, url.entries);
    t := Traced(SearchOutcome(youtube.fetch(request)), [request]);
  }

  datatype Recommendations = Recommendations(videos: seq<Video>, songs: seq<Video>)

  /** `getYouTubeRecommendationsByMood`: a search for the first video phrase,
      then, if it succeeded, one for the first song phrase, five results each. */
  function ByMood(moodLabel: string, moodCategory: string, youtube: Service<seq<RawItem>>): (t: Traced<Recommendations>)
    ensures |t.sent| <= 2
    ensures t.result.Success? ==> |t.sent| == 2
  {
    var q := MoodSearchQueries(moodLabel, moodCategory);
    SearchBoth(q.videos[0], q.songs[0], youtube)
  }

  /** The two searches, given the first video and song phrase. */
  function SearchBoth(video: string, song: string, youtube: Service<seq<RawItem>>): (t: Traced<Recommendations>)
    ensures |t.sent| <= 2
    ensures t.result.Success? ==> |t.sent| == 2
  {
    var videos := Search(video, 5, youtube);
    if videos.result.Failure? then Traced(Failure(videos.result.error), videos.sent)
    else
      var songs := Search(song, 5, youtube);
      Traced(if songs.result.Failure? then Failure(songs.result.error)
             else Success(Recommendations(videos.result.value, songs.result.value)),
             videos.sent + songs.sent)
  }

  /** Without a key nothing is sent. With one, the first request searches the
      first video phrase; a second request, for the first song phrase, is sent
      exactly when the first succeeded; both ask for five results. The first
      failure is the outcome, and the lists are the two searches' videos. */
  lemma ByMoodRequests(moodLabel: string, moodCategory: string, youtube: Service<seq<RawItem>>)
    ensures var t := ByMood(moodLabel, moodCategory, youtube);
      KeyMissing(youtube.apiKey) ==> t == Traced(Failure(MissingKeyMessage), [])
    ensures var t, q := ByMood(moodLabel, moodCategory, youtube), MoodSearchQueries(moodLabel, moodCategory);
      !KeyMissing(youtube.apiKey) ==>
        var key := youtube.apiKey.value;
        var first := SearchOutcome(youtube.fetch(SearchRequest(q.videos[0], 5, key)));
        var second := SearchOutcome(youtube.fetch(SearchRequest(q.songs[0], 5, key)));
        && (first.Failure? ==> t == Traced(Failure(first.error), [SearchRequest(q.videos[0], 5, key)]))
        && (first.Success? ==>
              && t.sent == [SearchRequest(q.videos[0], 5, key), SearchRequest(q.songs[0], 5, key)]
              && (second.Failure? ==> t.result == Failure(second.error))
              && (second.Success? ==> t.result == Success(Recommendations(first.value, second.value))))
  {
  }

  /** Every request the adapter sends goes to the search endpoint. */
  lemma ByMoodOnlySearches(moodLabel: string, moodCategory: string, youtube: Service<seq<RawItem>>)
    ensures forall k :: 0 <= k < |ByMood(moodLabel, moodCategory, youtube).sent| ==>
      ByMood(moodLabel, moodCategory, youtube).sent[k].endpoint == SearchEndpoint
  {
  }

  /** `getYouTubeRecommendationsByMood`. */
  method RecommendationsByMood(moodLabel: string, moodCategory: string, youtube: Service<seq<RawItem>>)
    returns (t: Traced<Recommendations>)
    ensures t == ByMood(moodLabel, moodCategory, youtube)
  {
    var q := MoodSearchQueries(moodLabel, moodCategory);
    var videos := SearchVideos(q.videos[0], 5, youtube);
    if videos.result.Failure? {
      return Traced(Failure(videos.result.error), videos.sent);
    }
    var songs := SearchVideos(q.songs[0], 5, youtube);
    if songs.result.Failure? {
      return Traced(Failure(songs.result.error), videos.sent + songs.sent);
    }
    t := Traced(Success(Recommendations(videos.result.value, songs.result.value)), videos.sent + songs.sent);
  }

  // ----- the table lookup as written -----

  const UndefinedIndexError := "TypeError: Cannot read properties of undefined (reading '0')"

  /** The first video and song phrase as the source computes them:
      `queries[moodLower] || queries.neutral` also finds the members of
      `Object.prototype`, whose `videos` is undefined, so indexing it throws. */
  function FirstPhrasesAsWritten(moodLabel: string): (r: Result<(string, string), string>)
    ensures ToLower(moodLabel) !in JsObject.PrototypeMembers ==>
      var q := MoodSearchQueries(moodLabel, "");
      r == Success((q.videos[0], q.songs[0]))
  {
    TableEntriesHaveFourPhrases();
    match JsObject.GetOrAsWritten(QueryTable, ToLower(moodLabel), QueryTable["neutral"])
    case Own(q) => if |q.videos| > 0 && |q.songs| > 0 then Success((q.videos[0], q.songs[0])) else Failure(UndefinedIndexError)
    case _ => Failure(UndefinedIndexError)
  }

  /** `getYouTubeRecommendationsByMood` as written: the phrases are looked up,
      and indexing them can throw, before the key is checked or any search is
      sent. */
  function ByMoodAsWritten(moodLabel: string, moodCategory: string, youtube: Service<seq<RawItem>>)
    : (t: Traced<Recommendations>)
    ensures ToLower(moodLabel) !in JsObject.PrototypeMembers ==> t == ByMood(moodLabel, moodCategory, youtube)
  {
    match FirstPhrasesAsWritten(moodLabel)
    case Failure(e) => Traced(Failure(e), [])
    case Success(phrases) => SearchBoth(phrases.0, phrases.1, youtube)
  }

  /** A classifier label "Constructor" (any case) makes the source throw before
      any request, with or without a key, where the neutral phrases are
      evidently intended. */
  lemma ConstructorLabelThrows(moodCategory: string, youtube: Service<seq<RawItem>>)
    ensures FirstPhrasesAsWritten("Constructor") == Failure(UndefinedIndexError)
    ensures ByMoodAsWritten("Constructor", moodCategory, youtube) == Traced(Failure(UndefinedIndexError), [])
    ensures MoodSearchQueries("Constructor", "") == QueryTable["neutral"]
  {
    var lower := ToLower("Constructor");
    assert lower == "constructor";
    assert lower !in QueryTable;
    assert lower in JsObject.PrototypeMembers;
  }
}
