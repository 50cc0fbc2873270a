/** The recommendation resolvers: listing stored recommendations, assembling
    media for a user's latest mood from the two catalog adapters (optionally
    storing the result), and storing canned suggestions for one mood record. */
module RecommendationResolver {
  import opened Wrappers
  import opened Http
  import opened Store
  import JsObject
  import Text
  import YouTube
  import Tmdb

  function RecommendationOwner(r: Recommendation): UserId { r.userId }
  function RecommendationCreatedAt(r: Recommendation): int { r.createdAt }
  function MoodOwner(m: MoodRecord): UserId { m.userId }
  function MoodCreatedAt(m: MoodRecord): int { m.createdAt }

  /** `getRecommendations(userId)`: exactly the user's stored recommendations,
      newest first. */
  function Recommendations(db: Database, userId: UserId): (r: seq<Recommendation>)
    reads db
    ensures multiset(r) == multiset(OfUser(db.recommendations, RecommendationOwner, userId))
    ensures forall x :: x in r <==> x in db.recommendations && x.userId == userId
    ensures forall i, k :: 0 <= i < k < |r| ==> r[i].createdAt >= r[k].createdAt
  {
    NewestFirstSpec(db.recommendations, RecommendationOwner, RecommendationCreatedAt, userId);
    NewestFirst(db.recommendations, RecommendationOwner, RecommendationCreatedAt, userId)
  }

  /** `moodRecord.findFirst({ where: { userId }, orderBy: { createdAt: "desc" } })`:
      none exactly when the user has no mood record, otherwise one of theirs
      with the greatest timestamp. */
  function LatestMoodRecord(db: Database, userId: UserId): (r: Option<MoodRecord>)
    reads db
    ensures r.None? <==> forall m :: m in db.moodRecords ==> m.userId != userId
    ensures r.Some? ==>
      && r.value in db.moodRecords && r.value.userId == userId
      && forall m :: m in db.moodRecords && m.userId == userId ==> m.createdAt <= r.value.createdAt
  {
    var history := NewestFirst(db.moodRecords, MoodOwner, MoodCreatedAt, userId);
    NewestFirstSpec(db.moodRecords, MoodOwner, MoodCreatedAt, userId);
    if |history| == 0 then
      assert forall m :: m in db.moodRecords && m.userId == userId ==> m in history;
      None
    else
      var latest := history[0];
      assert latest in history;
      assert forall m :: m in history ==> exists k :: 0 <= k < |history| && history[k] == m;
      Some(latest)
  }

  const NoMoodRecords := "No mood records found. Please create a journal entry and analyze your mood first."

  /** The value both media resolvers return. */
  datatype MoodMedia = MoodMedia(
    moodLabel: string, moodCategory: Option<string>, moodScore: Option<real>,
    youtubeVideos: seq<YouTube.Video>, youtubeSongs: seq<YouTube.Video>, movies: seq<Tmdb.Movie>)

  /** `moodCategory || ""`. */
  function CategoryArg(moodCategory: Option<string>): (c: string)
    ensures Truthy(moodCategory) ==> c == moodCategory.value
    ensures !Truthy(moodCategory) ==> c == ""
  {
    moodCategory.GetOr("")
  }

  /** The media for one mood record: YouTube first, then TMDB with ten
      results; neither adapter's error is caught, so the first error ends the
      call. */
  function MediaFor(m: MoodRecord, youtube: Service<seq<YouTube.RawItem>>, tmdb: Service<seq<Tmdb.RawMovie>>)
    : (t: Traced<MoodMedia>)
    ensures |t.sent| <= 3
    ensures t.result.Success? ==> |t.sent| == 3
  {
    MediaAfter(m, YouTube.ByMood(m.moodLabel, CategoryArg(m.moodCategory), youtube), tmdb)
  }

  /** The rest of the call once the YouTube adapter has answered `yt`: its
      error ends the call, otherwise TMDB is asked once. */
  function MediaAfter(m: MoodRecord, yt: Traced<YouTube.Recommendations>, tmdb: Service<seq<Tmdb.RawMovie>>)
    : (t: Traced<MoodMedia>)
    ensures |t.sent| <= |yt.sent| + 1
    ensures t.result.Success? ==> yt.result.Success? && |t.sent| == |yt.sent| + 1
  {
    if yt.result.Failure? then Traced(Failure(yt.result.error), yt.sent)
    else
      var tm := Tmdb.ByMood(m.moodLabel, CategoryArg(m.moodCategory), Tmdb.DefaultMaxResults, tmdb);
      Traced(
        if tm.result.Failure? then Failure(tm.result.error)
        else Success(MoodMedia(m.moodLabel, m.moodCategory, m.moodScore,
                               yt.result.value.videos, yt.result.value.songs, tm.result.value)),
        yt.sent + tm.sent)
  }

  /** The media lookup as written, on the YouTube adapter as written: for a
      label that is not an `Object.prototype` name it is `MediaFor`; for one
      that is, the adapter's TypeError ends the call before any request. */
  function MediaForAsWritten(m: MoodRecord, youtube: Service<seq<YouTube.RawItem>>, tmdb: Service<seq<Tmdb.RawMovie>>)
    : (t: Traced<MoodMedia>)
    ensures Text.ToLower(m.moodLabel) !in JsObject.PrototypeMembers ==> t == MediaFor(m, youtube, tmdb)
    ensures Text.ToLower(m.moodLabel) in JsObject.PrototypeMembers ==>
      t == Traced(Failure(YouTube.UndefinedIndexError), [])
  {
    MediaAfter(m, YouTube.ByMoodAsWritten(m.moodLabel, CategoryArg(m.moodCategory), youtube), tmdb)
  }

  /** A YouTube failure ends the call before TMDB is asked anything; on
      success the result copies the record's label, category and score and the
      adapters' lists unchanged. */
  lemma MediaForOutcome(m: MoodRecord, youtube: Service<seq<YouTube.RawItem>>, tmdb: Service<seq<Tmdb.RawMovie>>)
    ensures var t, yt := MediaFor(m, youtube, tmdb), YouTube.ByMood(m.moodLabel, CategoryArg(m.moodCategory), youtube);
      yt.result.Failure? ==>
        && t.result == Failure(yt.result.error)
        && forall k :: 0 <= k < |t.sent| ==> t.sent[k].endpoint == YouTube.SearchEndpoint
    ensures var t := MediaFor(m, youtube, tmdb);
      t.result.Success? ==>
        var yt := YouTube.ByMood(m.moodLabel, CategoryArg(m.moodCategory), youtube).result;
        var tm := Tmdb.ByMood(m.moodLabel, CategoryArg(m.moodCategory), 10, tmdb).result;
        && yt.Success? && tm.Success?
        && t.result.value.moodLabel == m.moodLabel
        && t.result.value.moodCategory == m.moodCategory
        && t.result.value.moodScore == m.moodScore
        && t.result.value.youtubeVideos == yt.value.videos
        && t.result.value.youtubeSongs == yt.value.songs
        && t.result.value.movies == tm.value
    ensures var t, yt := MediaFor(m, youtube, tmdb), YouTube.ByMood(m.moodLabel, CategoryArg(m.moodCategory), youtube);
      var tm := Tmdb.ByMood(m.moodLabel, CategoryArg(m.moodCategory), Tmdb.DefaultMaxResults, tmdb);
      yt.result.Success? ==>
        && t.sent == yt.sent + tm.sent
        && (tm.result.Failure? ==> t.result == Failure(tm.result.error))
        && (tm.result.Success? ==> t.result.Success?)
  {
    YouTube.ByMoodOnlySearches(m.moodLabel, CategoryArg(m.moodCategory), youtube);
  }

  /** `getMoodBasedRecommendations(userId)`: reads the store and changes
      nothing. Without a mood record it fails before any adapter is called. */
  method MoodBasedRecommendations(
    db: Database, userId: UserId,
    youtube: Service<seq<YouTube.RawItem>>, tmdb: Service<seq<Tmdb.RawMovie>>)
    returns (t: Traced<MoodMedia>)
    ensures LatestMoodRecord(db, userId).None? ==> t == Traced(Failure(NoMoodRecords), [])
    ensures LatestMoodRecord(db, userId).Some? ==> t == MediaFor(LatestMoodRecord(db, userId).value, youtube, tmdb)
  {
    var latest := LatestMoodRecord(db, userId);
    if latest.None? {
      return Traced(Failure(NoMoodRecords), []);
    }
    var m := latest.value;
    var yt := YouTube.RecommendationsByMood(m.moodLabel, CategoryArg(m.moodCategory), youtube);
    if yt.result.Failure? {
      return Traced(Failure(yt.result.error), yt.sent);
    }
    var movies := Tmdb.MoviesByMood(m.moodLabel, CategoryArg(m.moodCategory), Tmdb.DefaultMaxResults, tmdb);
    if movies.result.Failure? {
      return Traced(Failure(movies.result.error), yt.sent + movies.sent);
    }
    t := Traced(Success(MoodMedia(m.moodLabel, m.moodCategory, m.moodScore,
                                  yt.result.value.videos, yt.result.value.songs, movies.result.value)),
                yt.sent + movies.sent);
  }

  /** The `generateMoodBasedRecommendations(userId)` mutation: as above, and on
      success exactly one "Mood-Based-Media" record is stored whose content is
      the returned lists; on any failure nothing is stored. */
  method GenerateMoodBasedRecommendations(
    db: Database, userId: UserId, now: int,
    youtube: Service<seq<YouTube.RawItem>>, tmdb: Service<seq<Tmdb.RawMovie>>)
    returns (t: Traced<MoodMedia>)
    requires db.Valid()
    modifies db
    ensures db.Valid()
    ensures db.journals == old(db.journals) && db.moodRecords == old(db.moodRecords) && db.vectors == old(db.vectors)
    ensures old(LatestMoodRecord(db, userId)).None? ==>
      t == Traced(Failure(NoMoodRecords), []) && db.recommendations == old(db.recommendations)
    ensures old(LatestMoodRecord(db, userId)).Some? ==>
      var m := old(LatestMoodRecord(db, userId)).value;
      && t == MediaFor(m, youtube, tmdb)
      && (t.result.Failure? ==> db.recommendations == old(db.recommendations) && db.nextId == old(db.nextId))
      && (t.result.Success? ==>
            var media := t.result.value;
            db.recommendations == old(db.recommendations) + [Recommendation(
              old(db.nextId), userId, Some(m.id), "Mood-Based-Media",
              Media(media.youtubeVideos, media.youtubeSongs, media.movies), now)])
  {
    t := MoodBasedRecommendations(db, userId, youtube, tmdb);
    if t.result.Success? {
      var m := LatestMoodRecord(db, userId).value;
      var media := t.result.value;
      var stored := db.CreateRecommendation(
        userId, Some(m.id), "Mood-Based-Media",
        Media(media.youtubeVideos, media.youtubeSongs, media.movies), now);
    }
  }

  // ----- canned suggestions -----

  /** Suggestions per mood label, matched with exact case. */
  const SuggestionTable: map<string, seq<string>> := map[
    "Happy" := ["Keep a gratitude journal", "Share positivity with others"],
    "Sad" := ["Go for a walk", "Listen to calm music"],
    "Angry" := ["Try deep breathing", "Write about your feelings"],
    "Stressed" := ["Do a short meditation", "Avoid screens before sleep"],
    "Neutral" := ["Reflect on your goals", "Plan your next day"]
  ]

  const DefaultSuggestions := ["Take a break", "Smile :)"]

  /** `suggestions[moodLabel] || ["Take a break", "Smile :)"]`, own entries only. */
  function SuggestionsFor(moodLabel: string): (s: seq<string>)
    ensures moodLabel in SuggestionTable ==> s == SuggestionTable[moodLabel]
    ensures moodLabel !in SuggestionTable ==> s == DefaultSuggestions
    ensures |s| == 2
  {
    JsObject.GetOwnOr(SuggestionTable, moodLabel, DefaultSuggestions)
  }

  /** Matching is case-sensitive, and "Calm", a label the classifier is told to
      use, has no entry: both get the default pair. */
  lemma SuggestionsCaseSensitive()
    ensures SuggestionsFor("happy") == DefaultSuggestions
    ensures SuggestionsFor("Calm") == DefaultSuggestions
    ensures SuggestionsFor("Happy") != DefaultSuggestions
  {
    assert SuggestionTable["Happy"][0] != DefaultSuggestions[0];
  }

  /** The lookup as written also finds the members of `Object.prototype`,
      which are not suggestion lists. */
  function SuggestionsAsWritten(moodLabel: string): (p: JsObject.Property<seq<string>>)
    ensures moodLabel !in JsObject.PrototypeMembers ==> p == JsObject.Own(SuggestionsFor(moodLabel))
    ensures moodLabel in JsObject.PrototypeMembers ==> p == JsObject.Inherited(moodLabel)
  {
    JsObject.GetOrAsWritten(SuggestionTable, moodLabel, DefaultSuggestions)
  }

  /** A mood label "toString" stores `Object.prototype.toString` as the
      suggestions, where the default pair is evidently intended. */
  lemma ToStringLabelStoresNoList()
    ensures SuggestionsAsWritten("toString") == JsObject.Inherited("toString")
    ensures SuggestionsFor("toString") == DefaultSuggestions
  {
    assert "toString" in JsObject.PrototypeMembers;
  }

  const MoodRecordNotFound := "Mood record not found"

  /** The `generateRecommendation(moodRecordId)` mutation: an unknown record
      writes nothing; otherwise exactly one "Mood-based" recommendation is
      stored for the record's user, holding the suggestions for its label. */
  method GenerateRecommendation(db: Database, moodRecordId: Id, now: int)
    returns (r: Result<Recommendation, string>)
    requires db.Valid()
    modifies db
    ensures db.Valid()
    ensures db.journals == old(db.journals) && db.moodRecords == old(db.moodRecords) && db.vectors == old(db.vectors)
    ensures FindById(old(db.moodRecords), MoodRecordId, moodRecordId).None? ==>
      r == Failure(MoodRecordNotFound) && db.recommendations == old(db.recommendations) && db.nextId == old(db.nextId)
    ensures FindById(old(db.moodRecords), MoodRecordId, moodRecordId).Some? ==>
      var m := old(db.moodRecords)[FindById(old(db.moodRecords), MoodRecordId, moodRecordId).value];
      var rec := Recommendation(old(db.nextId), m.userId, Some(moodRecordId), "Mood-based",
                                Suggestions(SuggestionsFor(m.moodLabel)), now);
      r == Success(rec) && db.recommendations == old(db.recommendations) + [rec]
  {
    var found := FindById(db.moodRecords, MoodRecordId, moodRecordId);
    if found.None? {
      return Failure(MoodRecordNotFound);
    }
    var m := db.moodRecords[found.value];
    var content := SuggestionsFor(m.moodLabel);
    var rec := db.CreateRecommendation(m.userId, Some(moodRecordId), "Mood-based", Suggestions(content), now);
    r := Success(rec);
  }
}
