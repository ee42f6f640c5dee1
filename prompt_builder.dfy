/** The prompt builder: a fixed table of tone descriptions and the template
    that splices a tone, its description and the user's original message into
    the instruction text sent to the text-generation service. */
module PromptBuilder {
  import opened Text

  datatype Option<T> = None | Some(value: T)

  /** The five recognised tones and their human-readable descriptions. */
  const ToneOptions: map<string, string> := map[
    "professional" := "Clear, formal, and respectful",
    "friendly" := "Warm, conversational, and upbeat",
    "casual" := "Relaxed, everyday tone",
    "assertive" := "Direct and confident",
    "apologetic" := "Humble and empathetic"
  ]

  /** Fixed text of the template, in the order it appears. */
  const Opening: string := "Rewrite the following message in a "
  const ToneOpen: string := " tone ("
  const HeadingClose: string := ")."
  const Instructions: string :=
    " \n    Keep the original meaning, correct grammar, and avoid unnecessary embellishments.\n\n    Message:\n    "
  const Quote: string := "\""

  /** The fixed text between the description and the original message. */
  const Middle: string := HeadingClose + Instructions + Quote

  /** Number of characters the template contributes on its own. */
  const TemplateLength: nat := |Opening| + |ToneOpen| + |Middle| + |Quote|

  /** The description of `tone`: the table entry for a recognised tone,
      otherwise the tone itself. The description differs from the tone
      exactly when the tone is recognised. */
  function ToneDesc(tone: string): (d: string)
    ensures d == tone <==> tone !in ToneOptions
    ensures tone in ToneOptions ==> d in ToneOptions.Values
  {
    if tone in ToneOptions then ToneOptions[tone] else tone
  }

  /** The first line of the prompt, up to and including the ")." that closes
      the description. */
  function Heading(tone: string): string {
    Opening + tone + ToneOpen + ToneDesc(tone) + HeadingClose
  }

  /** Everything in the prompt before the original message. */
  function Lead(tone: string): string {
    Opening + tone + ToneOpen + ToneDesc(tone) + Middle
  }

  /** The instruction text for rewriting `original` in `tone`. Defined for
      every pair of strings, empty ones included. */
  function BuildPrompt(original: string, tone: string): (p: string)
    ensures |p| == TemplateLength + |tone| + |ToneDesc(tone)| + |original|
  {
    Opening + tone + ToneOpen + ToneDesc(tone) + Middle + original + Quote
  }

  /** Recovers the original message from a prompt built for `tone`, or None
      when `p` does not have the shape BuildPrompt gives for that tone. */
  function ExtractOriginal(p: string, tone: string): (r: Option<string>)
    ensures r.Some? ==> |r.value| + |Lead(tone)| + |Quote| == |p|
  {
    var lead := Lead(tone);
    if |lead| + |Quote| <= |p| && IsPrefix(lead, p) && IsSuffix(Quote, p)
    then Some(p[|lead|..|p| - |Quote|])
    else None
  }

  /** The prompt is the lead, then the original, then the closing quote. */
  lemma PromptShape(original: string, tone: string)
    ensures BuildPrompt(original, tone) == Lead(tone) + original + Quote
  {
  }

  /** Each recognised tone is described by its table entry. */
  lemma KnownToneDescriptions()
    ensures ToneDesc("professional") == "Clear, formal, and respectful"
    ensures ToneDesc("friendly") == "Warm, conversational, and upbeat"
    ensures ToneDesc("casual") == "Relaxed, everyday tone"
    ensures ToneDesc("assertive") == "Direct and confident"
    ensures ToneDesc("apologetic") == "Humble and empathetic"
  {
  }

  /** An unrecognised tone is its own description; no error is raised. */
  lemma UnknownToneFallback(original: string, tone: string)
    requires tone !in ToneOptions
    ensures ToneDesc(tone) == tone
    ensures BuildPrompt(original, tone)
         == Opening + tone + ToneOpen + tone + Middle + original + Quote
  {
  }

  /** The prompt contains the tone verbatim. */
  lemma ContainsTone(original: string, tone: string)
    ensures IsSubstring(tone, BuildPrompt(original, tone))
  {
    var rest := ToneOpen + ToneDesc(tone) + Middle + original + Quote;
    assert BuildPrompt(original, tone) == Opening + tone + rest;
    SubstringOfConcat(Opening, tone, rest);
  }

  /** The prompt contains the description of the tone verbatim. */
  lemma ContainsDescription(original: string, tone: string)
    ensures IsSubstring(ToneDesc(tone), BuildPrompt(original, tone))
  {
    SubstringOfConcat(Opening + tone + ToneOpen, ToneDesc(tone), Middle + original + Quote);
    assert BuildPrompt(original, tone)
        == (Opening + tone + ToneOpen) + ToneDesc(tone) + (Middle + original + Quote);
  }

  /** The prompt contains the original message verbatim: quotes, newlines and
      every other character are copied without escaping. */
  lemma ContainsOriginal(original: string, tone: string)
    ensures IsSubstring(original, BuildPrompt(original, tone))
  {
    SubstringOfConcat(Lead(tone), original, Quote);
    PromptShape(original, tone);
  }

  /** The prompt opens with the fixed instruction, the tone, and the
      parenthesised description. */
  lemma StartsWithHeading(original: string, tone: string)
    ensures IsPrefix(Heading(tone), BuildPrompt(original, tone))
  {
  }

  /** The whole first line, heading and description, occurs in the prompt. */
  lemma HeadingOccurs(original: string, tone: string)
    ensures IsSubstring(Heading(tone), BuildPrompt(original, tone))
  {
    StartsWithHeading(original, tone);
    PrefixIsSubstring(Heading(tone), BuildPrompt(original, tone));
  }

  /** The prompt ends with the original message wrapped in double quotes. */
  lemma EndsWithQuotedOriginal(original: string, tone: string)
    ensures IsSuffix(Quote + original + Quote, BuildPrompt(original, tone))
  {
  }

  /** The template contributes 152 characters of its own. */
  lemma TemplateLengthValue()
    ensures TemplateLength == 152
  {
  }

  /** The prompt is strictly longer than both the original and the tone. */
  lemma LongerThanInputs(original: string, tone: string)
    ensures |BuildPrompt(original, tone)| > |original|
    ensures |BuildPrompt(original, tone)| > |tone|
    ensures |BuildPrompt(original, tone)| >= TemplateLength
  {
  }

  /** ExtractOriginal inverts BuildPrompt: it succeeds on `p` with result
      `original` exactly when `p` is the prompt built from `original`. */
  lemma ExtractOriginalInverse(p: string, original: string, tone: string)
    ensures ExtractOriginal(p, tone) == Some(original) <==> p == BuildPrompt(original, tone)
  {
  }

  /** Prompts for one tone that are equal were built from the same original. */
  lemma OriginalDeterminesPrompt(o1: string, o2: string, tone: string)
    ensures BuildPrompt(o1, tone) == BuildPrompt(o2, tone) <==> o1 == o2
  {
    if BuildPrompt(o1, tone) == BuildPrompt(o2, tone) {
      ExtractOriginalInverse(BuildPrompt(o1, tone), o1, tone);
      ExtractOriginalInverse(BuildPrompt(o1, tone), o2, tone);
    }
  }

  /** The prompt for a recognised tone names both the tone and the original;
      the example is a known tone and a message with an apostrophe. */
  lemma AssertiveExample()
    ensures IsSubstring("assertive", BuildPrompt("Let's meet at 3pm", "assertive"))
    ensures IsSubstring("Let's meet at 3pm", BuildPrompt("Let's meet at 3pm", "assertive"))
  {
    ContainsTone("Let's meet at 3pm", "assertive");
    ContainsOriginal("Let's meet at 3pm", "assertive");
  }

  /** An unrecognised tone still appears in the prompt, in the tone slot and
      again as its own description. */
  lemma UnknownToneExample()
    ensures ToneDesc("weird") == "weird"
    ensures IsSubstring("weird", BuildPrompt("Check this out", "weird"))
  {
    ContainsTone("Check this out", "weird");
  }
}
