/** The journal resolvers: listing a user's journals, and creating a journal
    together with its vector record. The embedding call, the index's answer to
    the upsert and the ISO rendering of a timestamp are parameters. */
module JournalResolver {
  import opened Wrappers
  import opened Store

  function JournalOwner(j: Journal): UserId { j.userId }
  function JournalCreatedAt(j: Journal): int { j.createdAt }

  /** `getJournalsByUser(userId)`: exactly the user's journals, newest first. */
  function JournalsByUser(db: Database, userId: UserId): (r: seq<Journal>)
    reads db
    ensures multiset(r) == multiset(OfUser(db.journals, JournalOwner, userId))
    ensures forall j :: j in r <==> j in db.journals && j.userId == userId
    ensures forall i, k :: 0 <= i < k < |r| ==> r[i].createdAt >= r[k].createdAt
  {
    NewestFirstSpec(db.journals, JournalOwner, JournalCreatedAt, userId);
    NewestFirst(db.journals, JournalOwner, JournalCreatedAt, userId)
  }

  /** `createJournal(userId, content)`. The journal row is written first; if
      embedding or the upsert then fails, the row stays without a vector id and
      the error is returned. On success the vector record has the journal's id
      and the journal's `vectorId` is set to its own id, while the value
      returned is the row as first created. */
  method CreateJournal(
    db: Database, userId: UserId, content: string, now: int,
    embed: string -> Result<seq<real>, string>,
    upsert: VectorRecord -> Option<string>,
    isoString: int -> string)
    returns (r: Result<Journal, string>)
    requires db.Valid()
    modifies db
    ensures db.Valid()
    ensures db.moodRecords == old(db.moodRecords) && db.recommendations == old(db.recommendations)
    ensures db.nextId == old(db.nextId) + 1
    ensures var j := Journal(old(db.nextId), userId, content, None, None, now);
      match embed(content)
      case Failure(e) =>
        r == Failure(e) && db.journals == old(db.journals) + [j] && db.vectors == old(db.vectors)
      case Success(values) =>
        var v := VectorRecord(j.id, values, VectorMetadata(userId, content, isoString(now)));
        if upsert(v).Some? then
          r == Failure(upsert(v).value) && db.journals == old(db.journals) + [j] && db.vectors == old(db.vectors)
        else
          && r == Success(j)
          && db.journals == old(db.journals) + [j.(vectorId := Some(j.id))]
          && db.vectors == old(db.vectors)[j.id := v]
  {
    var journal := db.CreateJournal(userId, content, now);
    var embedding := embed(content);
    if embedding.Failure? {
      return Failure(embedding.error);
    }
    var v := VectorRecord(journal.id, embedding.value, VectorMetadata(userId, content, isoString(now)));
    var refused := upsert(v);
    if refused.Some? {
      return Failure(refused.value);
    }
    db.UpsertVector(v);
    db.UpdateJournal(|db.journals| - 1, journal.(vectorId := Some(journal.id)));
    r := Success(journal);
  }
}
