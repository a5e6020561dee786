/** The completion request built for each turn: a fixed persona-and-flow
    instruction text with the sender's transcript interpolated into it. The
    wording of the instructions is not modelled, only where the transcript
    goes. */
module TurnPrompt {
  import opened Text

  /** Instruction text before the transcript (persona, conversation flow,
      rules, and the transcript heading). Its wording is left unspecified. */
  const TurnPrefix: string

  /** Instruction text after the transcript (the request for a short, friendly
      answer). Its wording is left unspecified. */
  const TurnSuffix: string

  /** The prompt for a transcript `h`: the transcript sits, unchanged, right
      after the instruction text. */
  function Prompt(h: string): (p: string)
    ensures |p| == |TurnPrefix| + |h| + |TurnSuffix|
    ensures p[|TurnPrefix|..|TurnPrefix| + |h|] == h
  {
    TurnPrefix + h + TurnSuffix
  }

  /** The whole transcript appears in the prompt, whatever the template says. */
  lemma PromptContainsTranscript(h: string)
    ensures Contains(Prompt(h), h)
  {
    ContainsInside(TurnPrefix, h, TurnSuffix);
  }

  /** Every piece of the transcript, in particular its last line, appears in
      the prompt, whatever the template says. */
  lemma PromptContainsLine(before: string, line: string, after: string)
    ensures Contains(Prompt(before + line + after), line)
  {
    var p := Prompt(before + line + after);
    assert p == (TurnPrefix + before) + line + (after + TurnSuffix);
    ContainsInside(TurnPrefix + before, line, after + TurnSuffix);
  }
}
