/** The persistence the resolvers use, held in memory: the journal, mood-record
    and recommendation tables of the relational store, and the vector index
    keyed by journal id. Ids come from a counter and timestamps are given by
    the caller, standing for the store's generated ids and clock. */
module Store {
  import opened Wrappers
  import opened Ordering
  import YouTube
  import Tmdb

  type Id = nat
  type UserId = string

  datatype Journal = Journal(
    id: Id, userId: UserId, content: string, mood: Option<string>, vectorId: Option<Id>, createdAt: int)

  datatype MoodRecord = MoodRecord(
    id: Id, userId: UserId, journalId: Option<Id>, moodLabel: string,
    moodScore: Option<real>, moodCategory: Option<string>, createdAt: int)

  /** The JSON `content` column of a recommendation. */
  datatype RecommendationContent =
    | Suggestions(suggestions: seq<string>)
    | Media(youtubeVideos: seq<YouTube.Video>, youtubeSongs: seq<YouTube.Video>, movies: seq<Tmdb.Movie>)

  datatype Recommendation = Recommendation(
    id: Id, userId: UserId, moodRecordId: Option<Id>, kind: string,
    content: RecommendationContent, createdAt: int)

  datatype VectorMetadata = VectorMetadata(userId: UserId, content: string, createdAt: string)

  datatype VectorRecord = VectorRecord(id: Id, values: seq<real>, metadata: VectorMetadata)

  // ----- queries shared by the tables -----

  /** `findUnique({ where: { id } })`: the position of the row with that id. */
  function FindById<T>(rows: seq<T>, idOf: T -> Id, id: Id): (k: Option<nat>)
    ensures k.Some? ==> k.value < |rows| && idOf(rows[k.value]) == id
    ensures k.None? <==> forall i :: 0 <= i < |rows| ==> idOf(rows[i]) != id
    decreases |rows|
  {
    if rows == [] then None
    else if idOf(rows[|rows| - 1]) == id then Some(|rows| - 1)
    else FindById(rows[..|rows| - 1], idOf, id)
  }

  /** `where: { userId }`: the rows of one user, in table order. */
  function OfUser<T>(rows: seq<T>, ownerOf: T -> UserId, u: UserId): seq<T>
    decreases |rows|
  {
    if rows == [] then []
    else OfUser(rows[..|rows| - 1], ownerOf, u)
         + if ownerOf(rows[|rows| - 1]) == u then [rows[|rows| - 1]] else []
  }

  lemma {:induction false} OfUserMembers<T>(rows: seq<T>, ownerOf: T -> UserId, u: UserId)
    ensures forall x :: x in OfUser(rows, ownerOf, u) <==> x in rows && ownerOf(x) == u
    decreases |rows|
  {
    if rows != [] {
      var init := rows[..|rows| - 1];
      OfUserMembers(init, ownerOf, u);
      assert rows == init + [rows[|rows| - 1]];
    }
  }

  /** `findMany({ where: { userId }, orderBy: { createdAt: "desc" } })`. Rows
      with equal timestamps keep table order (the store leaves it open). */
  function NewestFirst<T>(rows: seq<T>, ownerOf: T -> UserId, createdAt: T -> int, u: UserId): seq<T> {
    SortBy(OfUser(rows, ownerOf, u), (x: T) => -createdAt(x))
  }

  /** The newest-first list holds exactly the user's rows, each as often as in
      the table, from the latest timestamp down. */
  lemma NewestFirstSpec<T>(rows: seq<T>, ownerOf: T -> UserId, createdAt: T -> int, u: UserId)
    ensures var r := NewestFirst(rows, ownerOf, createdAt, u);
      && multiset(r) == multiset(OfUser(rows, ownerOf, u))
      && (forall x :: x in r <==> x in rows && ownerOf(x) == u)
      && (forall i, j :: 0 <= i < j < |r| ==> createdAt(r[i]) >= createdAt(r[j]))
  {
    var key := (x: T) => -createdAt(x);
    var mine := OfUser(rows, ownerOf, u);
    SortBySortedPermutation(mine, key);
    OfUserMembers(rows, ownerOf, u);
    var r := NewestFirst(rows, ownerOf, createdAt, u);
    forall x ensures x in r <==> x in mine {
      assert x in r <==> x in multiset(r);
      assert x in mine <==> x in multiset(mine);
    }
  }

  // ----- the tables -----

  function JournalId(j: Journal): Id { j.id }
  function MoodRecordId(m: MoodRecord): Id { m.id }
  function RecommendationId(r: Recommendation): Id { r.id }

  ghost predicate FreshIds<T>(rows: seq<T>, idOf: T -> Id, next: Id) {
    && (forall k :: 0 <= k < |rows| ==> idOf(rows[k]) < next)
    && (forall i, j :: 0 <= i < j < |rows| ==> idOf(rows[i]) != idOf(rows[j]))
  }

  lemma AppendKeepsFreshIds<T>(rows: seq<T>, idOf: T -> Id, next: Id, row: T)
    requires FreshIds(rows, idOf, next) && idOf(row) == next
    ensures FreshIds(rows + [row], idOf, next + 1)
  {
  }

  class Database {
    var journals: seq<Journal>
    var moodRecords: seq<MoodRecord>
    var recommendations: seq<Recommendation>
    /** The vector index: one record per id; an upsert replaces. */
    var vectors: map<Id, VectorRecord>
    var nextId: Id

    /** Every row id was issued by the counter and ids are unique per table. */
    ghost predicate Valid()
      reads this
    {
      && FreshIds(journals, JournalId, nextId)
      && FreshIds(moodRecords, MoodRecordId, nextId)
      && FreshIds(recommendations, RecommendationId, nextId)
    }

    constructor ()
      ensures Valid()
      ensures journals == [] && moodRecords == [] && recommendations == [] && vectors == map[]
    {
      journals, moodRecords, recommendations, vectors, nextId := [], [], [], map[], 0;
    }

    /** `journal.create({ data: { userId, content } })`. */
    method CreateJournal(userId: UserId, content: string, now: int) returns (j: Journal)
      requires Valid()
      modifies this
      ensures Valid()
      ensures j == Journal(old(nextId), userId, content, None, None, now)
      ensures journals == old(journals) + [j] && nextId == old(nextId) + 1
      ensures moodRecords == old(moodRecords) && recommendations == old(recommendations) && vectors == old(vectors)
    {
      j := Journal(nextId, userId, content, None, None, now);
      AppendKeepsFreshIds(journals, JournalId, nextId, j);
      journals := journals + [j];
      nextId := nextId + 1;
    }

    /** `journal.update` of the row at position `k`; the id is kept. */
    method UpdateJournal(k: nat, j: Journal)
      requires Valid() && k < |journals| && j.id == journals[k].id
      modifies this
      ensures Valid()
      ensures journals == old(journals)[k := j]
      ensures nextId == old(nextId) && moodRecords == old(moodRecords)
      ensures recommendations == old(recommendations) && vectors == old(vectors)
    {
      journals := journals[k := j];
      assert forall i :: 0 <= i < |journals| ==> JournalId(journals[i]) == JournalId(old(journals)[i]);
    }

    /** `moodRecord.create`. */
    method CreateMoodRecord(
      userId: UserId, journalId: Option<Id>, moodLabel: string, moodScore: Option<real>,
      moodCategory: Option<string>, now: int)
      returns (m: MoodRecord)
      requires Valid()
      modifies this
      ensures Valid()
      ensures m == MoodRecord(old(nextId), userId, journalId, moodLabel, moodScore, moodCategory, now)
      ensures moodRecords == old(moodRecords) + [m] && nextId == old(nextId) + 1
      ensures journals == old(journals) && recommendations == old(recommendations) && vectors == old(vectors)
    {
      m := MoodRecord(nextId, userId, journalId, moodLabel, moodScore, moodCategory, now);
      AppendKeepsFreshIds(moodRecords, MoodRecordId, nextId, m);
      moodRecords := moodRecords + [m];
      nextId := nextId + 1;
    }

    /** `recommendation.create`. */
    method CreateRecommendation(
      userId: UserId, moodRecordId: Option<Id>, kind: string, content: RecommendationContent, now: int)
      returns (r: Recommendation)
      requires Valid()
      modifies this
      ensures Valid()
      ensures r == Recommendation(old(nextId), userId, moodRecordId, kind, content, now)
      ensures recommendations == old(recommendations) + [r] && nextId == old(nextId) + 1
      ensures journals == old(journals) && moodRecords == old(moodRecords) && vectors == old(vectors)
    {
      r := Recommendation(nextId, userId, moodRecordId, kind, content, now);
      AppendKeepsFreshIds(recommendations, RecommendationId, nextId, r);
      recommendations := recommendations + [r];
      nextId := nextId + 1;
    }

    /** The index's `upsert` of one record. */
    method UpsertVector(v: VectorRecord)
      modifies this
      ensures vectors == old(vectors)[v.id := v]
      ensures journals == old(journals) && moodRecords == old(moodRecords)
      ensures recommendations == old(recommendations) && nextId == old(nextId)
    {
      vectors := vectors[v.id := v];
    }
  }
}
