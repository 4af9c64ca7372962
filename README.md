# Voice generator: request shaping and error mapping

This project models the pure layer of the voice generator's speech service
(`services/geminiService.ts`). That layer sits around the single call to the
hosted text-to-speech provider. It has four parts:

- **Pace wording.** `getSpeedDescription` turns a playback speed multiplier
  into one of five pace labels (`Speed`).
- **Persona lookup.** The persona table maps a voice id to a prebuilt
  provider voice and a tone sentence. An unknown id falls back to
  `motivational_male` (`Voices`).
- **Prompt assembly.** The service rejects an empty text, builds the accent
  clause and the style clause, keeps the non-empty parts joined by one
  space, and wraps the user text in the prompt template (`Prompt`).
- **Failure mapping.** The service lower-cases a caught error's message and
  tests it against an ordered list of substring rules. The first match
  picks one of six fixed user messages (`Errors`).

`Speech.GenerateSpeech` puts these together as the whole
`generateMotivationalSpeech` call. The provider's `generateContent` is a
function parameter: it receives the model name, the prompt and the prebuilt
voice, and it either answers (with or without audio) or throws. `Text`
holds the two string primitives the service uses, `toLowerCase` and
`includes`. `Wrappers` holds `Option` and `Result`.

Base64 decoding, PCM decoding and the WAV header live in `utils/audio`
(imported at `App.tsx:4`), whose source is not in this repository; they
are not modelled.

## Model

| member | source | states |
|---|---|---|
| Text.LowerChar | services/geminiService.ts:88 | a folded character is never an upper-case letter; only upper-case letters change, each by the fixed ASCII offset 32 |
| Text.ToLower | services/geminiService.ts:88 | lower-casing keeps the length and folds each character on its own |
| Text.ToLowerIdempotent | services/geminiService.ts:88 | lower-casing a lower-cased string changes nothing |
| Text.ToLowerHasNoUpper | services/geminiService.ts:88 | a lower-cased string holds no upper-case letter |
| Text.Contains | services/geminiService.ts:90-102 | the substring test needs the pattern to be no longer than the message, holds for a prefix, and holds for the empty pattern |
| Text.ContainsIffOccurs | services/geminiService.ts:90-102 | the substring test holds exactly when the pattern occurs at some position of the message |
| Speed.SpeedDescription | services/geminiService.ts:36-42 | the label is one of the five; each label holds exactly on its interval: below 0.75, [0.75, 0.9), [0.9, 1.1], (1.1, 1.5), from 1.5 up |
| Speed.LabelsDistinct | services/geminiService.ts:36-42 | the five labels differ, so every speed gets exactly one |
| Speed.SpeedMonotone | services/geminiService.ts:36-42 | a larger speed never gets a slower label |
| Speed.Boundaries | services/geminiService.ts:36-42 | 0.75 is slow, 0.9 and 1.1 are normal, 1.5 is very fast |
| Speed.UiSpeedLabels | App.tsx:49-54 | the offered speeds 0.75, 1.0, 1.25 and 1.5 are described as slow, normal, fast and very fast |
| Voices.TableWellFormed | services/geminiService.ts:12-33 | the fallback id is in the table; every entry names Charon, Kore, Fenrir or Puck and has a tone sentence |
| Voices.ResolveVoice | services/geminiService.ts:49-50 | a known id gets its own entry, an unknown id the motivational male entry (Charon); the voice is always one of the four |
| Voices.UiVoicesKnown | App.tsx:9-30 | every id the voice selector offers is in the table, so it resolves to its own entry |
| Voices.UiVoicesCoverTable | App.tsx:9-30 | the selector offers exactly the table's ids |
| Prompt.AccentInstruction | services/geminiService.ts:53 | the accent clause is empty exactly for an empty or "Default" accent; otherwise it names the lower-cased accent |
| Prompt.UiAccentClauses | App.tsx:32-38 | the default accent adds no clause, and each other offered accent adds its own |
| Prompt.StyleInstruction | services/geminiService.ts:56 | the style clause is "Adopt a ", the lower-cased style, then " voice style" (20 characters besides the style) |
| Prompt.FilterNonEmpty | services/geminiService.ts:59 | the filter keeps exactly the non-empty parts, each as often as it occurs, and never lengthens the list |
| Prompt.FilterNonEmptyAppend | services/geminiService.ts:59 | filtering a concatenation concatenates the filtered halves, so the kept parts stay in input order |
| Prompt.FilterNonEmptySingle | services/geminiService.ts:59 | a single part is kept exactly when it is not empty |
| Prompt.Join | services/geminiService.ts:59 | joining no parts gives the empty string, one part gives that part, and the result starts with the first part |
| Prompt.JoinPair | services/geminiService.ts:59 | two parts are joined with exactly one separator between them |
| Prompt.MainInstruction | services/geminiService.ts:55-59 | the style clause alone, or the style clause, one space and the accent clause; it starts with the style clause and does not end in a space |
| Prompt.PromptTemplate | services/geminiService.ts:61 | the prompt is its four ingredients plus 78 fixed characters, and ends with a double quote |
| Prompt.BuildPrompt | services/geminiService.ts:44-61 | fails with the empty-text message exactly for an empty text; otherwise gives the resolved voice and the templated prompt |
| Prompt.TemplateLayout | services/geminiService.ts:61 | the prompt opens with the main instruction; the tone sentence starts 2 characters after it and the pace label 35 characters after main and tone together; it ends with the text in double quotes |
| Prompt.PromptLayout | services/geminiService.ts:49-61 | a built prompt opens with the style clause; the resolved persona's tone sentence and the pace label sit at their fixed offsets after the main instruction; it ends with the text quoted verbatim |
| Prompt.AccentFollowsStyle | services/geminiService.ts:55-59 | a non-default accent clause follows the style clause after one space |
| Prompt.PromptCarriesAccent | services/geminiService.ts:53-61 | a non-default accent appears in the prompt as its lower-cased clause |
| Prompt.PromptDeterminesText | services/geminiService.ts:61 | with the other inputs fixed, equal prompts come from equal texts |
| Errors.ClassifyError | services/geminiService.ts:87-108 | the result is always one of the six fixed user messages; a thrown value that is not an Error gives the generic one |
| Errors.ClassifyLowerCased | services/geminiService.ts:90-108 | the chain of substring tests on the lower-cased message always gives one of the six user messages |
| Errors.FirstMatch | services/geminiService.ts:90-104 | the index found is that of a matching rule with no matching rule before it, or past the end when none matches |
| Errors.ClassifyIsFirstMatch | services/geminiService.ts:88-108 | the chain of tests equals first-match-wins over the rule table on the lower-cased message, with the generic fallback |
| Errors.RuleMessagesDistinct | services/geminiService.ts:90-108 | the five rule messages differ from each other and from the generic one |
| Errors.ClassifyPrecedence | services/geminiService.ts:90-104 | a rule's message comes out exactly when that rule matches and no earlier rule does |
| Errors.ClassifyFallback | services/geminiService.ts:105-108 | the generic message comes out exactly when no rule matches |
| Errors.ClassifyIgnoresCase | services/geminiService.ts:88 | messages that agree up to letter case are mapped alike |
| Errors.ClassifyLowered | services/geminiService.ts:88 | lower-casing a message first does not change how it is mapped |
| Errors.NoAudioIsGeneric | services/geminiService.ts:79-108 | the no-audio error matches no rule and surfaces as the generic message |
| Speech.GenerateSpeech | services/geminiService.ts:44-109 | an empty text fails with its own message; success happens exactly when the answer carries non-empty audio, and the result is that audio unchanged; any other failure is one of the six user messages |
| Speech.EmptyTextSkipsProvider | services/geminiService.ts:45-47 | for an empty text, the provider's behaviour makes no difference |
| Speech.OnlyEmptyTextRejected | services/geminiService.ts:45-47 | no other text, blank ones included, gets the empty-text failure |
| Speech.MissingAudioIsGeneric | services/geminiService.ts:77-81 | an answer with no audio or with empty audio gives the generic failure |
| Speech.ThrownIsClassified | services/geminiService.ts:84-108 | a thrown Error gets its classified message; any other thrown value gets the generic message |
| Speech.CallFor | services/geminiService.ts:64-75 | the provider is asked for the TTS model, the built prompt and the resolved prebuilt voice, which is one of the four |
| Speech.HasAudio | services/geminiService.ts:77-81 | an answer is accepted exactly when it carries an audio string that is not empty |

## Left out

- The provider client and the `generateContent` network call (services/geminiService.ts:2, 10, 63-77). They are a foreign asynchronous library; the call is a function parameter here, and its answer is reduced to the optional audio string at `candidates[0].content.parts[0].inlineData.data`.
- The `API_KEY` check at module load (services/geminiService.ts:4-8): it reads the process environment.
- The `console.error` logging (services/geminiService.ts:85): output only, with no effect on the result.
- Text.ToLower: only ASCII letters are folded. JavaScript's `toLowerCase` also folds non-ASCII letters, so the accent, style and error messages are modelled exactly only when their letters are ASCII.
- Voices.ResolveVoice: the table is a plain dictionary. In JavaScript, `voiceMap[id]` also finds names inherited from `Object.prototype` (such as `toString` or `constructor`). Those are truthy, so the fallback would not fire for them. That path is not modelled.
- The speed as a real number: `parseFloat` of the selector value (App.tsx:81) and floating-point rounding are not modelled; only comparisons are made on the speed.
- Speed.SpeedDescription: a real number has no NaN. In the source, a NaN speed fails every comparison and is described as "very fast"; the model has no such input.
- All of `App.tsx` except its option lists: React state, the Web Audio playback, and the download through object URLs are UI and platform I/O.
- `components/Icons.tsx`: static SVG markup with no logic.
- Base64 decoding, PCM decoding and the WAV header: they live in `utils/audio`, which is not part of this model.
