/** The shaping of a classifier reply into a mood triple, written identically in
    both classifier clients: `??` defaults for each field, a category derived
    from the raw score when the reply has none, and a fixed triple when the
    reply cannot be read. */
module MoodJson {
  import opened Wrappers

  /** The value `JSON.parse` gives for the reply text. A field that is absent
      or `null` is `None` (the two are alike for `??` and for `> 0.6`). */
  datatype Parsed =
    | Malformed   // JSON.parse threw
    | Null        // the text was `null`: reading a field of it throws
    | Scalar      // a number, string, boolean or array: every field reads as undefined
    | Object(moodLabel: Option<string>, moodScore: Option<real>, moodCategory: Option<string>)

  datatype MoodTriple = MoodTriple(moodLabel: string, moodScore: real, moodCategory: string)

  /** The triple of the `catch` branch. */
  const Fallback := MoodTriple("Neutral", 0.5, "Neutral")

  /** `json.moodScore > 0.6 ? "Positive" : "Negative"`. */
  function CategoryFromScore(rawScore: Option<real>): (c: string)
    ensures c == "Positive" <==> rawScore.Some? && rawScore.value > 0.6
    ensures c == "Positive" || c == "Negative"
  {
    if rawScore.Some? && rawScore.value > 0.6 then "Positive" else "Negative"
  }

  /** The `try`/`catch` around the parsed reply. */
  function Normalise(p: Parsed): (t: MoodTriple)
    ensures p.Malformed? || p.Null? ==> t == Fallback
    ensures p.Scalar? ==> t == MoodTriple("Neutral", 0.5, "Negative")
    ensures p.Object? ==>
      && (p.moodLabel.Some? ==> t.moodLabel == p.moodLabel.value)
      && (p.moodLabel.None? ==> t.moodLabel == "Neutral")
      && (p.moodScore.Some? ==> t.moodScore == p.moodScore.value)
      && (p.moodScore.None? ==> t.moodScore == 0.5)
      && (p.moodCategory.Some? ==> t.moodCategory == p.moodCategory.value)
      && (p.moodCategory.None? ==> t.moodCategory == CategoryFromScore(p.moodScore))
  {
    match p
    case Malformed => Fallback
    case Null => Fallback
    case Scalar => MoodTriple("Neutral", 0.5, CategoryFromScore(None))
    case Object(moodLabel, moodScore, moodCategory) =>
      MoodTriple(moodLabel.GetOr("Neutral"), moodScore.GetOr(0.5), moodCategory.GetOr(CategoryFromScore(moodScore)))
  }

  /** A reply without score or category reads as a negative mood of score 0.5:
      the category is derived from the raw score, not from the defaulted one. */
  lemma MissingScoreReadsNegative(moodLabel: Option<string>)
    ensures Normalise(Object(moodLabel, None, None)).moodScore == 0.5
    ensures Normalise(Object(moodLabel, None, None)).moodCategory == "Negative"
  {
  }

  /** A present label is kept even when it is empty; `??` only replaces
      absent or null values. */
  lemma EmptyLabelKept()
    ensures Normalise(Object(Some(""), None, None)).moodLabel == ""
  {
  }

  /** The category "Neutral" comes only from the fallback or from the reply
      itself: the derived category is never "Neutral". */
  lemma NeutralCategoryOrigin(p: Parsed)
    requires Normalise(p).moodCategory == "Neutral"
    ensures p.Malformed? || p.Null? || (p.Object? && p.moodCategory == Some("Neutral"))
  {
  }
}
