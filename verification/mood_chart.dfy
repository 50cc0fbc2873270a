/** The data transform of the mood chart: the GraphQL reply is turned into
    chart points, sorted by time in place and cut to the latest thirty. */
module MoodChart {
  import opened Wrappers
  import opened Ordering

  /** One mood record as the history query returns it; `createdAt` is the
      record's time in milliseconds since the epoch. */
  datatype RawMoodRecord = RawMoodRecord(moodLabel: string, moodScore: Option<real>, createdAt: int)

  /** A record before the time is dropped: `fullDate` is the sort key. */
  datatype Row = Row(date: string, moodScore: real, moodLabel: string, fullDate: int)

  /** What the chart draws. */
  datatype ChartPoint = ChartPoint(date: string, moodScore: real, moodLabel: string)

  datatype GqlError = GqlError(message: Option<string>)

  /** The outcome of the request: it failed with a message, or a body came
      back with an optional `errors` array and an optional history list. */
  datatype Reply =
    | FetchFailed(message: string)
    | Answered(errors: Option<seq<GqlError>>, history: Option<seq<RawMoodRecord>>)

  const Window: nat := 30
  const FetchFailedMessage := "Failed to fetch mood records"

  /** `record.moodScore || 0`: an absent score and a zero score both read 0. */
  function ScoreOrZero(s: Option<real>): (r: real)
    ensures s.None? ==> r == 0.0
    ensures s.Some? ==> r == s.value
  {
    if s.Some? && s.value != 0.0 then s.value else 0.0
  }

  function ToRow(rec: RawMoodRecord, formatDate: int -> string): (w: Row)
    ensures w.fullDate == rec.createdAt && w.moodLabel == rec.moodLabel
    ensures w.moodScore == ScoreOrZero(rec.moodScore) && w.date == formatDate(rec.createdAt)
  {
    Row(formatDate(rec.createdAt), ScoreOrZero(rec.moodScore), rec.moodLabel, rec.createdAt)
  }

  function ToRows(history: seq<RawMoodRecord>, formatDate: int -> string): (rows: seq<Row>)
    ensures |rows| == |history|
    ensures forall i :: 0 <= i < |history| ==> rows[i] == ToRow(history[i], formatDate)
  {
    seq(|history|, i requires 0 <= i < |history| => ToRow(history[i], formatDate))
  }

  function FullDate(w: Row): int { w.fullDate }

  function ToPoint(w: Row): ChartPoint { ChartPoint(w.date, w.moodScore, w.moodLabel) }

  function ToPoints(rows: seq<Row>): (p: seq<ChartPoint>)
    ensures |p| == |rows|
    ensures forall i :: 0 <= i < |rows| ==> p[i] == ToPoint(rows[i])
  {
    seq(|rows|, i requires 0 <= i < |rows| => ToPoint(rows[i]))
  }

  /** Rows sorted ascending by time, last thirty kept. */
  function Latest(rows: seq<Row>): (w: seq<Row>)
    ensures |w| == if |rows| <= Window then |rows| else Window
    ensures SortedBy(w, FullDate)
  {
    SortBySortedPermutation(rows, FullDate);
    TakeLastKeepsLargest(SortBy(rows, FullDate), FullDate, Window);
    TakeLast(SortBy(rows, FullDate), Window)
  }

  /** The error message: the first error's message when it is a non-empty
      string, otherwise the fixed text (an empty `errors` array included). */
  function ErrorMessage(errors: seq<GqlError>): (m: string)
    ensures |errors| > 0 && Truthy(errors[0].message) ==> m == errors[0].message.value
    ensures !(|errors| > 0 && Truthy(errors[0].message)) ==> m == FetchFailedMessage
  {
    if |errors| > 0 && Truthy(errors[0].message) then errors[0].message.value else FetchFailedMessage
  }

  /** What the chart ends up showing, or the error it shows. A reply without
      errors and without a history list fails as `data.map` on null does,
      with the engine's TypeError message. */
  function Chart(reply: Reply, formatDate: int -> string, typeErrorMessage: string): (r: Result<seq<ChartPoint>, string>)
    ensures reply.FetchFailed? ==> r == Failure(reply.message)
    ensures reply.Answered? && reply.errors.Some? ==> r == Failure(ErrorMessage(reply.errors.value))
    ensures r.Success? ==>
      && reply.Answered? && reply.errors.None? && reply.history.Some?
      && |r.value| == if |reply.history.value| <= Window then |reply.history.value| else Window
    ensures reply.Answered? && reply.errors.None? && reply.history.Some? ==>
      r == Success(ToPoints(Latest(ToRows(reply.history.value, formatDate))))
  {
    match reply
    case FetchFailed(message) => Failure(message)
    case Answered(errors, history) =>
      if errors.Some? then Failure(ErrorMessage(errors.value))
      else if history.None? then Failure(typeErrorMessage)
      else Success(ToPoints(Latest(ToRows(history.value, formatDate))))
  }

  /** The window holds min(30, n) rows, ascending by time; it is the tail of
      the sorted rows, so no dropped row is later than a kept one. */
  lemma LatestWindow(rows: seq<Row>)
    ensures |Latest(rows)| == if |rows| <= Window then |rows| else Window
    ensures SortedBy(Latest(rows), FullDate)
    ensures var sorted := SortBy(rows, FullDate);
      && sorted == sorted[..|sorted| - |Latest(rows)|] + Latest(rows)
      && multiset(sorted) == multiset(rows)
      && forall i, j :: 0 <= i < |sorted| - |Latest(rows)| <= j < |sorted| ==>
           sorted[i].fullDate <= sorted[j].fullDate
  {
    SortBySortedPermutation(rows, FullDate);
    TakeLastKeepsLargest(SortBy(rows, FullDate), FullDate, Window);
  }

  /** The sort behind the window is stable: rows with equal time keep their
      input order. */
  lemma LatestStable(rows: seq<Row>)
    ensures forall k :: WithKey(SortBy(rows, FullDate), FullDate, k) == WithKey(rows, FullDate, k)
  {
    forall k ensures WithKey(SortBy(rows, FullDate), FullDate, k) == WithKey(rows, FullDate, k) {
      SortByStable(rows, FullDate, k);
    }
  }

  /** With thirty records or fewer nothing is dropped: the window is all of
      them, sorted. */
  lemma ShortHistoryKeepsAll(rows: seq<Row>)
    requires |rows| <= Window
    ensures Latest(rows) == SortBy(rows, FullDate)
  {
    SortBySortedPermutation(rows, FullDate);
  }

  /** `fetchMoodRecords`: the rows are built into an array, sorted there in
      place, and the last thirty are projected to chart points. */
  method FetchMoodRecords(reply: Reply, formatDate: int -> string, typeErrorMessage: string)
    returns (r: Result<seq<ChartPoint>, string>)
    ensures r == Chart(reply, formatDate, typeErrorMessage)
  {
    match reply {
      case FetchFailed(message) =>
        return Failure(message);
      case Answered(errors, history) =>
        if errors.Some? {
          return Failure(ErrorMessage(errors.value));
        }
        if history.None? {
          return Failure(typeErrorMessage);
        }
        var transformed := new Row[|history.value|](i requires 0 <= i < |history.value| => ToRow(history.value[i], formatDate));
        assert transformed[..] == ToRows(history.value, formatDate);
        SortInPlace(transformed, FullDate);
        var kept := TakeLast(transformed[..], Window);
        var points := new ChartPoint[|kept|](i requires 0 <= i < |kept| => ToPoint(kept[i]));
        assert points[..] == ToPoints(kept);
        return Success(points[..]);
    }
  }
}
