# Tone changer prompt builder

A Dafny model of the prompt builder of the tone-changer web application.
Given the user's original message and a tone label, the builder looks up a
description of the tone in a fixed five-entry table. An unrecognised tone is
used as its own description. The builder then splices the tone, the
description and the original message into a fixed instruction template, which
is sent to a text-generation service.

- `text.dfy` (module `Text`): prefix, suffix and substring relations on strings.
- `prompt_builder.dfy` (module `PromptBuilder`): the tone table, the
  description lookup with its fallback, the template, an inverse that recovers
  the original message from a prompt, and the properties of the output.

The template text is copied character for character. That includes the space
after `).` at the end of the first line, the blank line, and the four-space
indents of the continuation lines. Dafny functions are total and
deterministic, so the builder is defined for every pair of strings, empty ones
included, and equal inputs give equal prompts.

## Model

| member | source | states |
|---|---|---|
| PromptBuilder.ToneDesc | utils/promptBuilder.ts:1-10 | the description equals the tone exactly when the tone is not one of the five table keys; a recognised tone gets a value from the table |
| PromptBuilder.KnownToneDescriptions | utils/promptBuilder.ts:1-7 | each of professional, friendly, casual, assertive and apologetic is described by its table text |
| PromptBuilder.UnknownToneFallback | utils/promptBuilder.ts:10-15 | an unrecognised tone is its own description, raises no error, and appears twice in the prompt |
| PromptBuilder.BuildPrompt | utils/promptBuilder.ts:9-16 | the prompt length is the template length plus the lengths of tone, description and original |
| PromptBuilder.TemplateLengthValue | utils/promptBuilder.ts:11-15 | the fixed text of the template, without the tone, description and original, is 152 characters long |
| PromptBuilder.ContainsTone | utils/promptBuilder.ts:11 | the tone occurs verbatim in the prompt |
| PromptBuilder.ContainsDescription | utils/promptBuilder.ts:10-11 | the tone's description occurs verbatim in the prompt |
| PromptBuilder.ContainsOriginal | utils/promptBuilder.ts:15 | the original message occurs verbatim and unescaped in the prompt |
| PromptBuilder.StartsWithHeading | utils/promptBuilder.ts:11 | the prompt starts with "Rewrite the following message in a ", the tone, " tone (", the description and ")." |
| PromptBuilder.HeadingOccurs | utils/promptBuilder.ts:11 | the whole first line, from "Rewrite the following message in a " up to the ")." after the description, occurs in the prompt |
| PromptBuilder.EndsWithQuotedOriginal | utils/promptBuilder.ts:15 | the prompt ends with the original message between two double quotes |
| PromptBuilder.LongerThanInputs | utils/promptBuilder.ts:11-15 | the prompt is strictly longer than the original and than the tone |
| PromptBuilder.ExtractOriginal | utils/promptBuilder.ts:11-15 | a recovered original has the prompt's length minus the fixed text around it |
| PromptBuilder.ExtractOriginalInverse | utils/promptBuilder.ts:11-15 | recovering the original from a prompt yields `original` if and only if the prompt was built from `original` |
| PromptBuilder.OriginalDeterminesPrompt | utils/promptBuilder.ts:15 | for a fixed tone, two prompts are equal if and only if their originals are equal |
| PromptBuilder.AssertiveExample | __tests__/promptBuilder.test.ts:4-8 | the prompt for "Let's meet at 3pm" in the assertive tone contains both the tone and the message |
| PromptBuilder.UnknownToneExample | __tests__/promptBuilder.test.ts:10-13 | the unknown tone "weird" is its own description and appears in the prompt |
| Text.SubstringOfConcat | utils/promptBuilder.ts:11-15 | a string placed between any two strings is a substring of the result |
| Text.PrefixIsSubstring | utils/promptBuilder.ts:11 | a prefix of a string is a substring of it; HeadingOccurs applies it to the first line of the prompt |

## Left out

- JavaScript prototype lookup: indexing the object literal with a key such as "toString" or "constructor" returns an inherited member, so the fallback does not fire for those keys. The table is modelled as exactly its five declared keys.
- lib/generateToneResponse.ts: a single asynchronous call to an external completion service whose client is built from the process environment. The call cannot be modelled; its only local logic is a "No output." fallback for missing content.
- app/api/tone/route.ts: request parsing and the external call. It does not use the prompt builder and has its own inline template. Its only validation is a presence check answering 400 "Missing input". It has no error translation, so no 500 response is modelled.
- app/page.tsx and app/layout.tsx: user interface state, a 300 ms debounce, network fetches and static markup.
- Text encoding: strings are sequences of Dafny characters. JavaScript UTF-16 code units and their lengths are not modelled separately.
