/** The OpenAI classifier client: the journal text is sent as the user message,
    the first choice's content (or `"{}"` when it is null) is parsed and
    normalised. The chat call and `JSON.parse` are parameters. */
module OpenAI {
  import opened Wrappers
  import opened MoodJson

  const SystemPrompt :=
    "You are a mood analysis assistant. Analyze the text and output a concise mood label "
    + "(like Happy, Sad, Angry, Calm, Stressed) and a mood score (0–1). Respond in JSON format."

  /** The reply: the `message.content` of each choice, `None` for null. */
  datatype Completion = Completion(choices: seq<Option<string>>)

  /** `analyzeMood(text)`. A failed chat call propagates; everything after it
      is inside the `try`, so a reply without choices takes the fallback. */
  function AnalyzeMood(text: string, complete: (string, string) -> Result<Completion, string>, parse: string -> Parsed)
    : (r: Result<MoodTriple, string>)
    ensures complete(SystemPrompt, text).Failure? ==> r == Failure(complete(SystemPrompt, text).error)
    ensures complete(SystemPrompt, text).Success? ==>
      var choices := complete(SystemPrompt, text).value.choices;
      && (|choices| == 0 ==> r == Success(Fallback))
      && (|choices| > 0 ==> r == Success(Normalise(parse(choices[0].GetOr("{}")))))
  {
    match complete(SystemPrompt, text)
    case Failure(e) => Failure(e)
    case Success(c) =>
      if |c.choices| == 0 then Success(Fallback)
      else Success(Normalise(parse(c.choices[0].GetOr("{}"))))
  }

  /** A null message content is parsed as `"{}"`, an object without fields, so
      the triple is Neutral, 0.5, Negative. */
  lemma NullContentReadsNegative(
    text: string, complete: (string, string) -> Result<Completion, string>, parse: string -> Parsed)
    requires parse("{}") == Object(None, None, None)
    requires complete(SystemPrompt, text) == Success(Completion([None]))
    ensures AnalyzeMood(text, complete, parse) == Success(MoodTriple("Neutral", 0.5, "Negative"))
  {
  }
}
