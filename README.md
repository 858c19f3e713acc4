# Call-screening assistant: verified model of its decision and formatting logic

This project is a Dafny model of the logic in an AI call-screening assistant. The model covers four areas:

- **Formatting helpers** (common package): formatting of phone numbers and call durations, the spam heuristic, slugs and text truncation.
- **Screening verdicts**, from both language-model clients:
  - TypeScript voice package: configuration merge, provider dispatch, the JSON span cut out of the reply, required-field validation, and case-insensitive normalisation of the recommended action.
  - Rust backend: Markdown fence and whitespace stripping, the clamp of the spam likelihood, and defaulting of missing content.
- **Call routing** (Rust backend): the action → status mapping of `route_call`, the rows and responses of `start_call` and `route_call`, and the not-found outcome. The `calls` table is a map from id to row.
- **Speech request construction** (voice package): config merge and provider dispatch for speech-to-text and text-to-speech, the key checks, the Whisper form built field by field, and the ElevenLabs body with its `||` fallbacks.

Modules and files:

| file | module | contents |
|---|---|---|
| `wrappers.dfy` | `Wrappers` | `Option`, `Result` |
| `text.dfy` | `Text` | JS/Rust string primitives: `trim`, `toLowerCase`, `indexOf`, `lastIndexOf`, `substring`, `slice`, `split`, decimal `toString`, `padStart` |
| `partial.dfy` | `Partial` | `Partial<Config>` keys (absent / `undefined` / given), spread merge, `||` and `??` |
| `utils.dfy` | `Utils` | `packages/common/src/utils.ts` |
| `nlp.dfy` | `Nlp` | `packages/voice/src/nlp.ts` |
| `openai.dfy` | `OpenAiService` | `apps/backend/src/services/openai.rs` (with the `IntentAnalysisResponse` type) |
| `call_models.dfy` | `CallModels` | `apps/backend/src/models/call.rs` |
| `call_handlers.dfy` | `CallHandlers` | `apps/backend/src/handlers/call.rs` |
| `stt.dfy` | `Stt` | `packages/voice/src/stt.ts` |
| `tts.dfy` | `Tts` | `packages/voice/src/tts.ts` |

Modelling conventions:

- **Foreign and effectful inputs are parameters.** The HTTP calls are function parameters named `upstream`; `JSON.parse` and serde's struct decoding are `parse` / `decode`. The fresh call id, the clock and the outcome of the Redis write are plain parameters too.
- **Methods where the source mutates.** Where a source function builds a value by mutation, the model is a method. The Whisper form is appended to field by field. The Rust analysis record has its spam likelihood overwritten in place (`OpenAiService.ParseAnalysisReply`, called by `OpenAiService.AnalyzeIntent`). The speech-to-text entry points `Stt.TranscribeWithWhisper` and `Stt.Transcribe` are methods too, because they build and send that form. Everything else is a function.
- **Characters** are ASCII. Whitespace means space and `\t`..`\r`.
- **Numbers.** Scores, temperatures and voice settings are reals. Durations are naturals.

The classification prompt asks the model for scores between 0 and 1 (packages/voice/src/nlp.ts:87-88). The TypeScript client never bounds `confidence` or `spamLikelihood` in the reply (`Nlp.ScoresNotClamped`). Only the Rust service clamps, and only `spam_likelihood` (apps/backend/src/services/openai.rs:55-56).

## Model

| member | source | states |
|---|---|---|
| Text.ToLower | packages/common/src/utils.ts:63 | `toLowerCase` keeps the length, maps each character by ToLowerChar and leaves no upper-case letter |
| Text.ToLowerChar | packages/common/src/utils.ts:63 | 'A'..'Z' become the letter 32 code points later ('a'..'z'); every other character is unchanged |
| Text.Trim | packages/common/src/utils.ts:64 | `trim` leaves no whitespace at either end and keeps a lower-case string lower-case |
| Text.TrimSurrounded | packages/voice/src/nlp.ts:219 | trimming a trimmed core padded with whitespace gives back exactly the core |
| Text.IndexOf | packages/voice/src/nlp.ts:123 | -1 exactly when the character is absent, else the position of its first occurrence |
| Text.LastIndexOf | packages/voice/src/nlp.ts:124 | -1 exactly when the character is absent, else the position of its last occurrence |
| Text.JsSubstring | packages/voice/src/nlp.ts:125 | `substring` on in-range ordered indices is the plain slice |
| Text.JsSlice | packages/common/src/utils.ts:79 | `slice` on in-range ordered indices is the plain slice |
| Text.NatToString | packages/common/src/utils.ts:24 | a non-empty digit string with no leading zero (it starts with `0` only for 0), of one digit below 10 and two digits from 10 to 99 |
| Text.DecimalValueOfNatToString | packages/common/src/utils.ts:24 | the decimal numeral of n reads back as n |
| Text.PadStart | packages/common/src/utils.ts:31 | `padStart` gives at least the width and keeps the string as its suffix |
| Text.TwoDigits | packages/common/src/utils.ts:31 | `padStart(2, '0')` of a number below 100 is two digits with that value |
| Partial.Spread | packages/voice/src/nlp.ts:60 | an absent key keeps the default, an `undefined` key clears it, a given key wins |
| Partial.Nullish | packages/voice/src/nlp.ts:183-184 | `??` keeps any given value and falls back only on absent or `undefined` |
| Partial.OrString | packages/voice/src/tts.ts:63 | `\|\|` on a string keeps it unless undefined or empty |
| Partial.OrNumber | packages/voice/src/tts.ts:73-74 | `\|\|` on a number keeps it unless undefined or 0 |
| Utils.StripNonDigits | packages/common/src/utils.ts:6 | the result is all digits and no longer than the input |
| Utils.StripNonDigitsConcat | packages/common/src/utils.ts:6 | digit stripping distributes over concatenation |
| Utils.StripNonDigitsOfDigits | packages/common/src/utils.ts:6 | a digit string is kept whole |
| Utils.StripNonDigitsOfPunctuation | packages/common/src/utils.ts:6 | a string without digits strips to empty |
| Utils.DigitsOfLayout | packages/common/src/utils.ts:10-12 | the digits of `lead a) b-c` are the digits of `lead` followed by a, b, c |
| Utils.FormatPhoneNumber | packages/common/src/utils.ts:4-17 | `formatPhoneNumber` on the cleaned digits; its behaviour is stated by FormatPhoneNumberTen, FormatPhoneNumberEleven, FormatPhoneNumberOther, FormatPhoneNumberKeepsDigits and FormatPhoneNumberIdempotent below |
| Utils.FormatPhoneNumberTen | packages/common/src/utils.ts:9-10 | ten digits give `(ddd) ddd-dddd`, 14 characters whose digits are the cleaned digits in order |
| Utils.FormatPhoneNumberEleven | packages/common/src/utils.ts:11-12 | eleven digits with a leading 1 give `+1 ` followed by the US layout of digits 1..10, 17 characters |
| Utils.FormatPhoneNumberOther | packages/common/src/utils.ts:13-16 | any other digit count, 11 digits without a leading 1 included, returns the original input, not the cleaned digits |
| Utils.FormatPhoneNumberKeepsDigits | packages/common/src/utils.ts:4-17 | formatting never changes the digits of a number |
| Utils.FormatPhoneNumberIdempotent | packages/common/src/utils.ts:4-17 | formatting a formatted number changes nothing |
| Utils.FormatDuration | packages/common/src/utils.ts:22-38 | `formatDuration`; its three forms are stated by FormatDurationSeconds, FormatDurationMinutes and FormatDurationHours, and FormatDurationRoundTrip proves an independent parser inverts it |
| Utils.NoColonInDigits | packages/common/src/utils.ts:31 | proof step of FormatDurationRoundTrip: a digit field holds no colon, so the colon forms split into their fields |
| Utils.FormatDurationSeconds | packages/common/src/utils.ts:23-25 | under a minute the result is the numeral followed by ` sec` |
| Utils.FormatDurationMinutes | packages/common/src/utils.ts:27-32 | under an hour the result is `M:SS`: minutes, then two digits for the seconds, which are below 60 |
| Utils.FormatDurationHours | packages/common/src/utils.ts:34-37 | otherwise `H:MM:SS`, with minutes and seconds each two digits below 60 |
| Utils.FormatDurationColonForm | packages/common/src/utils.ts:27-37 | the colon forms never end in ` sec`, so the three forms cannot be confused |
| Utils.ParseTwoFields | packages/common/src/utils.ts:27-32 | proof step of RoundTripMinutes: two numeric colon fields m and s read back as 60m + s seconds |
| Utils.ParseThreeFields | packages/common/src/utils.ts:27-37 | proof step of RoundTripHours: three numeric colon fields h, m and s read back as 3600h + 60m + s seconds |
| Utils.RoundTripMinutes | packages/common/src/utils.ts:27-32 | from one minute up to an hour, `m:ss` reads back as the number of seconds |
| Utils.RoundTripHours | packages/common/src/utils.ts:27-37 | from one hour up, `h:mm:ss` reads back as the number of seconds |
| Utils.FormatDurationRoundTrip | packages/common/src/utils.ts:22-38 | reading the fields back reconstructs the number of seconds in every form |
| Utils.MatchesSome | packages/common/src/utils.ts:54 | `knownSpamPatterns.some(...)` over literal prefixes; MatchesSomeExists states it is true iff some prefix matches |
| Utils.MatchesSomeExists | packages/common/src/utils.ts:54 | `.some` over prefix tests holds iff some pattern is a prefix of the number |
| Utils.IsLikelySpam | packages/common/src/utils.ts:49-51 | with a score present the verdict is exactly `score > 0.7`, whatever the number |
| Utils.IsLikelySpamDefaultPrefixes | packages/common/src/utils.ts:46-54 | with no score and the default patterns, spam iff the number starts with `+1800`, `+1888` or `+1877` |
| Utils.IsLikelySpamThresholdExclusive | packages/common/src/utils.ts:49-51 | a score of exactly 0.7 is not spam, even for a toll-free number that the patterns flag |
| Utils.ReplaceSpaceRuns | packages/common/src/utils.ts:65 | no whitespace remains after replacing whitespace runs with `-`; what each run becomes is stated by ReplaceSpaceRunsStep |
| Utils.ReplaceSpaceRunsPrefix | packages/common/src/utils.ts:65 | a leading stretch without whitespace is kept as it is |
| Utils.ReplaceSpaceRunsStep | packages/common/src/utils.ts:65 | a whole non-empty whitespace run between non-space text becomes exactly one `-`, and the text on both sides is kept |
| Utils.RemoveNonWord | packages/common/src/utils.ts:66 | only word characters and `-` remain; which characters are kept and dropped is stated by RemoveNonWordKeeps, RemoveNonWordDrops and RemoveNonWordConcat |
| Utils.RemoveNonWordDrops | packages/common/src/utils.ts:66 | a string of characters that are neither word characters nor `-` is removed entirely |
| Utils.RemoveNonWordConcat | packages/common/src/utils.ts:66 | removal acts on each character on its own: the result for a concatenation is the concatenation of the results |
| Utils.TrimStartDashes | packages/common/src/utils.ts:68 | the result is a suffix not starting with `-` and every removed character is a `-`, keeping the slug-character and no-`--` properties |
| Utils.TrimEndDashes | packages/common/src/utils.ts:69 | the result is a prefix not ending with `-` and every removed character is a `-`, keeping the start condition and the slug properties |
| Utils.CollapseDashRuns | packages/common/src/utils.ts:67 | no `--` remains; empty iff the input is; the first character is a dash iff it was; what each run becomes is stated by CollapseDashRunsStep |
| Utils.CollapseDashRunsStep | packages/common/src/utils.ts:67 | a whole non-empty run of dashes between dash-free text becomes exactly one `-`, and the text on both sides is kept |
| Utils.Slugify | packages/common/src/utils.ts:60-70 | the output has only `[a-z0-9_-]`, no `--`, and neither starts nor ends with `-` |
| Utils.ReplaceSpaceRunsWithoutSpace | packages/common/src/utils.ts:65 | a string without whitespace is unchanged |
| Utils.RemoveNonWordKeeps | packages/common/src/utils.ts:66 | a string of word characters and dashes is kept whole |
| Utils.CollapseDashRunsWithoutRuns | packages/common/src/utils.ts:67 | a string without `--` is unchanged |
| Utils.SlugifyOfSlug | packages/common/src/utils.ts:60-70 | a slug is its own slug |
| Utils.SlugifyIdempotent | packages/common/src/utils.ts:60-70 | `slugify(slugify(s)) == slugify(s)` |
| Utils.TruncateText | packages/common/src/utils.ts:75-80 | unchanged when no longer than maxLength, else the first maxLength characters and `...` (length maxLength+3); a negative maxLength counts from the end |
| Nlp.MergeConfig | packages/voice/src/nlp.ts:46-60 | each field is the caller's when given, the default (openai, gpt-4o, 0, no key) when absent, undefined when passed as `undefined` |
| Nlp.MergeNoOverrides | packages/voice/src/nlp.ts:46-60 | with no argument the merged config is the default one |
| Nlp.MapActionRecommendation | packages/voice/src/nlp.ts:156-169 | `mapActionRecommendation`; stated by MapActionRecommendationSpec, Canonical, Idempotent and IgnoresCase |
| Nlp.MapActionRecommendationSpec | packages/voice/src/nlp.ts:156-169 | a string equal to a canonical value ignoring case maps to that value; every other string maps to TakeMessage |
| Nlp.MapActionRecommendationCanonical | packages/voice/src/nlp.ts:156-169 | each of the four canonical strings maps to its own value |
| Nlp.MapActionRecommendationIdempotent | packages/voice/src/nlp.ts:156-169 | mapping the value of a mapped action gives the same action |
| Nlp.MapActionRecommendationIgnoresCase | packages/voice/src/nlp.ts:157 | only the lower-cased string matters |
| Nlp.ValuesAreLowerCase | packages/voice/src/nlp.ts:36-41 | proof step of MapActionRecommendationCanonical: the enum's string values are lower case |
| Nlp.ExtractJsonSpan | packages/voice/src/nlp.ts:122-125 | the `indexOf`/`lastIndexOf`/`substring` cut; stated by ExtractJsonSpanCases, ExtractJsonSpanDropsProse and ExtractJsonSpanOfObject |
| Nlp.ExtractJsonSpanCases | packages/voice/src/nlp.ts:122-125 | first `{` through last `}` inclusive when the `{` comes first; with either missing or in the wrong order, the cut that `substring`'s clamping and swapping produce |
| Nlp.ExtractJsonSpanDropsProse | packages/voice/src/nlp.ts:122-125 | prose without braces before and after an object is dropped exactly |
| Nlp.ExtractJsonSpanOfObject | packages/voice/src/nlp.ts:122-125 | a reply that is exactly one braced object is kept whole |
| Nlp.ValidateAnalysis | packages/voice/src/nlp.ts:131-144 | null is a TypeError; a missing or falsy required field, or a non-number score, is rejected; a non-string action is a TypeError; on acceptance every field is copied unchanged, no clamping, and only the action is normalised |
| Nlp.ValidateAnalysisAccepts | packages/voice/src/nlp.ts:131-144 | a reply is accepted iff it is non-null, has the required fields and a string action |
| Nlp.InterpretReply | packages/voice/src/nlp.ts:122-144 | parse the cut span and validate it; the parse failure is InvalidJson, the rest is ValidateAnalysis; InterpretReplyDropsProse states that surrounding prose is ignored |
| Nlp.InterpretReplyDropsProse | packages/voice/src/nlp.ts:122-144 | prose without braces around the object does not change the verdict: the reply is judged on the object alone |
| Nlp.AnalysisRequest | packages/voice/src/nlp.ts:83-113 | the request's model is the caller's unless empty or undefined, else gpt-4o; the temperature is the caller's unless undefined, else 0; no token cap; system prompt then the transcript prompt |
| Nlp.AnalyzeIntentWithOpenAi | packages/voice/src/nlp.ts:75-150 | `analyzeIntentWithOpenAI`: the key check, the request, the reply interpretation; its outcomes are stated through Nlp.AnalyzeIntent and AnalyzeIntentEmbeddedObject |
| Nlp.AnalyzeIntent | packages/voice/src/nlp.ts:55-150 | huggingface is not implemented; any other non-openai provider is unsupported; a missing key fails before any request; otherwise the reply is interpreted or the API error is reported |
| Nlp.AnalyzeIntentEmbeddedObject | packages/voice/src/nlp.ts:122-144 | whatever prose wraps the object, the verdict is the one parsed from the object alone, and the action is canonical |
| Nlp.BusinessInquiryExample | packages/voice/src/nlp.ts:122-144 | a callback-recommending reply wrapped in prose yields spam likelihood 0.05, confidence 0.82, OfferCallback and no suggested response |
| Nlp.BusinessInquiryAccepted | packages/voice/src/nlp.ts:131-144 | the example object passes validation with its fields copied |
| Nlp.ScoresNotClamped | packages/voice/src/nlp.ts:137-141 | any confidence and spam likelihood, in range or not, are passed through unchanged |
| Nlp.ResponseConfig | packages/voice/src/nlp.ts:179-185 | temperature is the caller's unless absent or undefined (0 kept), else 0.7; model is the caller's unless absent or undefined, else gpt-4o |
| Nlp.GenerateResponse | packages/voice/src/nlp.ts:174-219 | a missing key fails; a reply is always trimmed |
| Nlp.ResponseRequest | packages/voice/src/nlp.ts:193-210 | the reply-generation body; its model, temperature, token cap and prompt are stated by GenerateResponseRequest |
| Nlp.GenerateResponseRequest | packages/voice/src/nlp.ts:179-219 | the request carries the resolved temperature and model, at most 100 tokens and the prompt verbatim; the answer is the trimmed content |
| Nlp.GenerateResponseIgnoresProvider | packages/voice/src/nlp.ts:174-189 | the provider field never affects reply generation |
| Nlp.EmptyModelAndZeroTemperature | packages/voice/src/nlp.ts:100-184 | an empty model is replaced for classification but sent as it is for replies; an explicit temperature of 0 is kept by both |
| OpenAiService.TrimStartMatches | apps/backend/src/services/openai.rs:48 | the result is no longer than the input and no longer starts with the pattern |
| OpenAiService.TrimStartMatchesIsSuffix | apps/backend/src/services/openai.rs:48 | the result is a suffix of the input |
| OpenAiService.TrimEndMatches | apps/backend/src/services/openai.rs:49 | the result is no longer than the input and no longer ends with the pattern |
| OpenAiService.TrimEndMatchesIsPrefix | apps/backend/src/services/openai.rs:49 | the result is a prefix of the input |
| OpenAiService.TrimStartMatchesRepeat | apps/backend/src/services/openai.rs:48 | any number of leading copies of the pattern are removed, not just one |
| OpenAiService.TrimEndMatchesRepeat | apps/backend/src/services/openai.rs:49 | any number of trailing copies of the pattern are removed, not just one |
| OpenAiService.StripFences | apps/backend/src/services/openai.rs:46-50 | the stripped string never has leading or trailing whitespace |
| OpenAiService.StripFencesUnfenced | apps/backend/src/services/openai.rs:46-50 | a reply with no fences and no surrounding whitespace is returned unchanged |
| OpenAiService.StripFencesRecoversBody | apps/backend/src/services/openai.rs:46-50 | a body fenced by ```` ```json ```` and ```` ``` ````, with any whitespace inside and outside, comes out exactly, provided it is trimmed and does not itself start or end with a fence |
| OpenAiService.StripFencesRepeated | apps/backend/src/services/openai.rs:48-49 | repeated opening and closing fences are all removed |
| OpenAiService.NoJsonFencePrefix | apps/backend/src/services/openai.rs:48 | proof step of StripFencesRecoversBody: after the opening fence, whitespace, a fence-free body and whitespace or backticks never start another opening fence |
| OpenAiService.NoFenceSuffix | apps/backend/src/services/openai.rs:49 | proof step of StripFencesRecoversBody: a body not ending in a fence, padded with whitespace, does not end in one |
| OpenAiService.DecodeAction | apps/backend/src/models/voice.rs:39-45 | an action decodes iff it is exactly one of the four variant names |
| OpenAiService.DecodeActionRoundTrip | apps/backend/src/models/voice.rs:39-45 | each variant's name decodes to that variant |
| OpenAiService.Decode | apps/backend/src/services/openai.rs:53 | parsing succeeds iff the struct decodes and its action is a variant name |
| OpenAiService.Clamp01 | apps/backend/src/services/openai.rs:56 | the result is in [0, 1], equal to the input when it already is, and the nearer bound otherwise |
| OpenAiService.ContentOrDefault | apps/backend/src/services/openai.rs:43-86 | missing content is the empty string, present content is kept |
| OpenAiService.ReplyJson | apps/backend/src/services/openai.rs:43-50 | the text handed to serde (content or empty, fences stripped) never has surrounding whitespace |
| OpenAiService.ParseAnalysisReply | apps/backend/src/services/openai.rs:43-58 | an API failure is an error; a decode failure is an error; otherwise the cleaned, decoded record is returned with its spam likelihood clamped to [0, 1] (the nearer bound when out of range, unchanged when in range) and every other field as decoded |
| OpenAiService.AnalyzeIntent | apps/backend/src/services/openai.rs:13-59 | an API failure is an error; a decode failure is an error; otherwise the cleaned, decoded record is returned with its spam likelihood clamped to [0, 1] (the nearer bound when out of range, unchanged when in range) and every other field as decoded |
| OpenAiService.GenerateResponse | apps/backend/src/services/openai.rs:61-89 | an API failure is an error; missing content is the empty string; present content is returned verbatim, untrimmed |
| OpenAiService.AnalysisRequest | apps/backend/src/services/openai.rs:16-40 | the classification request; its model, temperature, missing token cap and its two messages (the system prompt, then the prompt head, the transcript and a closing quote) are stated by RequestParameters |
| OpenAiService.ResponseRequest | apps/backend/src/services/openai.rs:64-83 | the reply request; its model, temperature, 100-token cap and verbatim prompt are stated by RequestParameters |
| OpenAiService.RequestParameters | apps/backend/src/services/openai.rs:16-83 | both requests use gpt-4o; classification at temperature 0 without a token cap, with exactly the system prompt and the transcript wrapped in the prompt head and a closing quote; replies at 0.7 with at most 100 tokens, the reply system prompt and the prompt verbatim |
| CallHandlers.RouteStatus | apps/backend/src/handlers/call.rs:96-101 | Accept and Voicemail give InProgress; Decline and ScheduleCallback give Missed; both directions |
| CallHandlers.RouteStatusRange | apps/backend/src/handlers/call.rs:96-101 | routing never produces Ringing, Completed, Blocked or Failed |
| CallHandlers.NewCall | apps/backend/src/handlers/call.rs:23-35 | the inserted row rings, carries the request's caller fields, has all three timestamps equal to now, and no end, duration, transcription, score or intent |
| CallHandlers.StartCall | apps/backend/src/handlers/call.rs:12-74 | a fresh id inserts the ringing row; the response is the id, Ringing and three `None`s; a taken id is a 500 with the table unchanged; a failed SID store is a 500 after the insert |
| CallHandlers.RouteCall | apps/backend/src/handlers/call.rs:76-127 | an unknown id is 404 "Call not found" with no update; otherwise only status and updated_at change, and the response echoes id, transcription, spam score and intent |
| CallHandlers.GetCall | apps/backend/src/handlers/call.rs:129-147 | the stored row when present, else 404 "Call not found" |
| CallHandlers.HandlersKeepTableWellKeyed | apps/backend/src/handlers/call.rs:23-117 | starting and routing keep each row under its own id; routing keeps the key set, starting only adds |
| CallHandlers.RouteCallFrame | apps/backend/src/handlers/call.rs:104-117 | routing changes no other row, and nothing but status and updated_at of the routed one |
| CallHandlers.StartThenRoute | apps/backend/src/handlers/call.rs:32-126 | a started call is ringing; routing it yields the action's status with empty analysis fields, and a fetch sees the routed row |
| CallHandlers.RouteCallIdempotentStatus | apps/backend/src/handlers/call.rs:96-126 | routing twice with the same action gives the same response and differs only in updated_at |
| Stt.MergeConfig | packages/voice/src/stt.ts:34-48 | each field is the caller's when given, the default (whisper, en, whisper-1, no key) when absent, undefined when passed as `undefined` |
| Stt.AsBlob | packages/voice/src/stt.ts:75-80 | a Blob is uploaded as given; an ArrayBuffer is wrapped as an audio/wav Blob with the same bytes |
| Stt.BuildWhisperForm | packages/voice/src/stt.ts:71-85 | the form holds the model (the caller's if non-empty, else whisper-1), then the file named audio.wav, then the language only when non-empty, in that order and nothing else |
| Stt.TranscriptionOf | packages/voice/src/stt.ts:99-110 | the text comes from the reply; confidence is always 0.9 and the language is the configured one, never a detected one; an API failure is an error |
| Stt.TranscribeWithWhisper | packages/voice/src/stt.ts:63-111 | with no key nothing is built or sent and the call fails; otherwise the Whisper form is sent and the reply interpreted |
| Stt.Transcribe | packages/voice/src/stt.ts:43-58 | google is not implemented and any other non-whisper provider is unsupported, with nothing sent; whisper proceeds as above on the merged config |
| Stt.DefaultWhisperForm | packages/voice/src/stt.ts:34-85 | with only a key given the form is whisper-1, the file, and language en |
| Stt.EmptyFieldsFallBack | packages/voice/src/stt.ts:72-85 | an empty model falls back to whisper-1; an empty or undefined language is left out |
| Tts.MergeConfig | packages/voice/src/tts.ts:25-40 | each field is the caller's when given, the default (elevenlabs, Rachel, 0.5, 0.5, no key) when absent, undefined when passed as `undefined` |
| Tts.SpeechRequestFor | packages/voice/src/tts.ts:63-76 | the URL is the fixed prefix and the voice (Rachel when empty or undefined); text verbatim; model eleven_monolingual_v1; stability and similarity boost fall back to 0.5 when falsy, an explicit 0 included |
| Tts.GenerateElevenLabsSpeech | packages/voice/src/tts.ts:55-93 | a missing key fails before any request; otherwise the response bytes are returned unmodified, or the API error |
| Tts.GenerateSpeech | packages/voice/src/tts.ts:35-50 | aws_polly is not implemented; any other non-elevenlabs provider is unsupported; elevenlabs proceeds on the merged config |
| Tts.NoKeyNoRequest | packages/voice/src/tts.ts:59-61 | without a key the outcome does not depend on what the service would answer |
| Tts.FalsyOverridesFallBack | packages/voice/src/tts.ts:63-74 | an empty voice and settings of 0 are replaced by the defaults; a non-empty voice and non-zero settings are sent |
| Tts.UrlDeterminesVoice | packages/voice/src/tts.ts:63-64 | distinct non-empty voices give distinct URLs |

## Left out

- HTTP, headers and authorisation: the axios and async_openai calls, their headers and the bearer / `xi-api-key` values. These are foreign network calls, so each is an abstract `upstream` function. Only error versus success of a call is kept. The wording of error messages (`OpenAI API error: <status> <text>` and the like) is not modelled.
- Reading `choices[0]` from an empty choices array, and a `null` TypeScript content, are not modelled. The TypeScript reply is taken to be a string.
- `JSON.parse` and serde's struct decoding are abstract parameters. Only what the code does around them is modelled: the JSON span, the field checks, and the enum variant match.
- Characters are ASCII only. Unicode `toLowerCase`, `\s` and `trim` differ outside ASCII (for example, non-ASCII spaces are trimmed by both runtimes). `\w` and `\d` without the `u` flag are ASCII classes, so `Utils.StripNonDigits` and `Utils.RemoveNonWord` are exact for every input.
- Utils.FormatDuration: defined on naturals only. Fractional and negative JS numbers, and the exponent notation of `toString` at 1e21 and above, are not modelled.
- Utils.TruncateText: maxLength is an integer. Fractional and NaN lengths are not modelled.
- Utils.IsLikelySpam: patterns are literal prefixes, which is what the default anchored patterns are. Custom `RegExp` patterns are not modelled.
- Floating point: scores, thresholds, temperatures, stability and the clamp are reals. NaN and f32 rounding are excluded.
- OpenAiService.AnalyzeIntent: `.build()?` failures of the request builders are not modelled, because they cannot occur with the fixed arguments.
- CallHandlers.StartCall: the only insert failure modelled is an id already present, which leaves the table unchanged. Other insert failures are not modelled. A failed Redis connection or SET is folded into `sidStored == false`, a 500 after the row is inserted. The 500 message omits the appended error text.
- CallHandlers.RouteCall: a database error other than a missing row, and a failure of the update itself, are not modelled.
- The `info!` logging in `start_call` and `route_call` (apps/backend/src/handlers/call.rs:16 and :80) is not modelled. It has no effect on any result.
- Redis SID storage is kept only as a success flag. `get_call_history`'s SQL is not modelled.
- The callback, voice and health handlers, the ElevenLabs service, routing and start-up code, and all UI code are not part of this model. They are SQL queries, environment lookups, byte streaming, router wiring or presentation.
