/** The mood resolvers: a user's mood history, and classifying a journal into a
    new mood record whose label is copied onto the journal. The classifier is
    the Gemini client, with its model call and parser as parameters. */
module MoodResolver {
  import opened Wrappers
  import opened Store
  import MoodJson
  import Gemini

  function MoodOwner(m: MoodRecord): UserId { m.userId }
  function MoodCreatedAt(m: MoodRecord): int { m.createdAt }

  /** `getMoodHistory(userId)`: exactly the user's mood records, newest first. */
  function MoodHistory(db: Database, userId: UserId): (r: seq<MoodRecord>)
    reads db
    ensures multiset(r) == multiset(OfUser(db.moodRecords, MoodOwner, userId))
    ensures forall m :: m in r <==> m in db.moodRecords && m.userId == userId
    ensures forall i, k :: 0 <= i < k < |r| ==> r[i].createdAt >= r[k].createdAt
  {
    NewestFirstSpec(db.moodRecords, MoodOwner, MoodCreatedAt, userId);
    NewestFirst(db.moodRecords, MoodOwner, MoodCreatedAt, userId)
  }

  const JournalNotFound := "Journal not found"

  /** The `analyzeMood(journalId)` mutation. An unknown journal or a failed
      classification writes nothing. Otherwise exactly one mood record is
      added, carrying the journal's user and id and the classifier's triple;
      the journal's `mood` becomes the new label, no other journal changes, and
      the new record is returned. */
  method AnalyzeMood(
    db: Database, journalId: Id, now: int,
    generate: string -> Result<string, string>, parse: string -> MoodJson.Parsed)
    returns (r: Result<MoodRecord, string>)
    requires db.Valid()
    modifies db
    ensures db.Valid()
    ensures db.recommendations == old(db.recommendations) && db.vectors == old(db.vectors)
    ensures FindById(old(db.journals), JournalId, journalId).None? ==>
      && r == Failure(JournalNotFound)
      && db.journals == old(db.journals) && db.moodRecords == old(db.moodRecords) && db.nextId == old(db.nextId)
    ensures FindById(old(db.journals), JournalId, journalId).Some? ==>
      var k := FindById(old(db.journals), JournalId, journalId).value;
      var j := old(db.journals)[k];
      match Gemini.AnalyzeMood(j.content, generate, parse)
      case Failure(e) =>
        && r == Failure(e)
        && db.journals == old(db.journals) && db.moodRecords == old(db.moodRecords) && db.nextId == old(db.nextId)
      case Success(t) =>
        var m := MoodRecord(old(db.nextId), j.userId, Some(j.id), t.moodLabel, Some(t.moodScore), Some(t.moodCategory), now);
        && r == Success(m)
        && db.moodRecords == old(db.moodRecords) + [m]
        && db.journals == old(db.journals)[k := j.(mood := Some(m.moodLabel))]
  {
    var found := FindById(db.journals, JournalId, journalId);
    if found.None? {
      return Failure(JournalNotFound);
    }
    var k := found.value;
    var journal := db.journals[k];
    var triple := Gemini.AnalyzeMood(journal.content, generate, parse);
    if triple.Failure? {
      return Failure(triple.error);
    }
    var t := triple.value;
    var m := db.CreateMoodRecord(journal.userId, Some(journal.id), t.moodLabel, Some(t.moodScore), Some(t.moodCategory), now);
    db.UpdateJournal(k, journal.(mood := Some(t.moodLabel)));
    r := Success(m);
  }
}
