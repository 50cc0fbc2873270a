/** The Gemini classifier client: the journal text is embedded in a fixed
    prompt, the model's reply text is parsed and normalised. The model call
    and `JSON.parse` are parameters. */
module Gemini {
  import opened Wrappers
  import opened MoodJson

  const PromptHead :=
    "\nYou are a mood analysis assistant.\n"
    + "Analyze the user's journal text and output a short JSON object like:\n"
    + "{\n"
    + "  \"moodLabel\": \"Happy\",\n"
    + "  \"moodScore\": 0.87,\n"
    + "  \"moodCategory\": \"Positive\"\n"
    + "}\n"
    + "\n"
    + "Rules:\n"
    + "- moodLabel should be one of [\"Happy\", \"Sad\", \"Angry\", \"Calm\", \"Stressed\", \"Neutral\"]\n"
    + "- moodScore should be a number between 0 and 1.\n"
    + "- moodCategory should be \"Positive\", \"Negative\", or \"Neutral\".\n"
    + "\n"
    + "Text: "

  const TripleQuote := "\"\"\""

  /** The prompt: the fixed instructions, then the text between triple quotes. */
  function Prompt(text: string): (p: string)
    ensures |p| == |PromptHead| + |text| + 7
    ensures p[..|PromptHead|] == PromptHead
  {
    PromptHead + TripleQuote + text + TripleQuote + "\n"
  }

  /** The text appears verbatim, unescaped, right after the instructions and
      between two triple quotes; the instructions are the same for every text. */
  lemma PromptEmbedsText(text: string)
    ensures var p, i := Prompt(text), |PromptHead| + 3;
      && p[..|PromptHead|] == PromptHead
      && p[i - 3..i] == TripleQuote
      && p[i..i + |text|] == text
      && p[i + |text|..i + |text| + 3] == TripleQuote
      && |p| == i + |text| + 4
  {
    var p, i := Prompt(text), |PromptHead| + 3;
    assert p == PromptHead + TripleQuote + text + TripleQuote + "\n";
  }

  /** `analyzeMood(text)`: a failed model call propagates (it is outside the
      `try`); a reply is parsed and normalised. */
  function AnalyzeMood(text: string, generate: string -> Result<string, string>, parse: string -> Parsed)
    : (r: Result<MoodTriple, string>)
    ensures generate(Prompt(text)).Failure? ==> r == Failure(generate(Prompt(text)).error)
    ensures generate(Prompt(text)).Success? ==> r == Success(Normalise(parse(generate(Prompt(text)).value)))
  {
    match generate(Prompt(text))
    case Failure(e) => Failure(e)
    case Success(reply) => Success(Normalise(parse(reply)))
  }
}
