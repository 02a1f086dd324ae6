# ClearCue analysis core, modelled in Dafny

ClearCue is a browser client that asks a generative model to score a
YouTube video's metadata and thumbnail for policy compliance and SEO, and
keeps the analyses as "sessions". This project models the deterministic
rules underneath the client:

- the browser's session store: a newest-first list capped at ten, with
  delete by id (`session_service.dfy`, a class over the stored entry);
- API-configuration resolution: the default record, the overlay of a
  stored partial record, the mapping of a hosted-table row with its
  per-column fallbacks, the not-found and error fallbacks, and saving to
  either store (`api_config_service.dfy`, pure functions plus a class
  holding both stores);
- the analysis request: the provider and key guards, the instruction text
  with the video fields interpolated verbatim, the order of the request
  parts, trimming and parsing of the answer (`gemini_service.dfy`);
- the configuration dialog: the `MODELS` table, the provider switch that
  resets the model, the one-field edit, and save
  (`api_config_modal.dfy`, a class over the working copy);
- score presentation: the rounded mean of the five scores, the "safe"
  verdict above 80, the recommendation items, and the three-band colour
  classifier with its neutral "no score" case (`results_section.dfy`,
  `score_card.dfy`, `thumbnail_section.dfy`).

`types.dfy` holds the records: video data, the analysis result in the
shape of the model's response schema, the configuration, the session, and
`Option`, `Result`, `Outcome` and `Slot` (a local-storage entry that is
missing, unparseable or holds a parsed value).

Outside code is passed in as parameters: the model call is a function
from a request to either the answer text or an error message; `JSON.parse`
is a partial function from text to an analysis result; a fresh UUID and
the current time are plain arguments; whether the browser accepts a
storage write is a boolean; an error from the hosted database is an
optional argument. The hosted configuration table is a map from user id
to row, and a lookup of an absent user reaches the code as the database's
"no rows" error code `PGRST116`, so the code's test of that code is
modelled as written.

Behaviour of the code worth knowing:

- the answer is only parsed, then used as a result without any check of
  its shape; a payload that parses but has the wrong fields is not
  rejected;
- a row from the hosted table whose transcript key is null or empty maps
  to an empty key, not to the default key that the default record and a
  missing row give (`ApiConfigService.NullRowIsNotDefault`);
- a failure of the model call propagates with its own message, unwrapped;
- nothing checks that a stored or hosted record's model belongs to its
  provider's list; only the dialog's provider switch and its model
  selector keep it there, so the model states it as a property of those
  edits (`ApiConfigModal.EditKeepsModelFit`) rather than as an object
  invariant.

## Model

| member | source | states |
|---|---|---|
| SessionService.ReadSessions | services/sessionService.ts:11-19 | a stored list reads as itself; a missing or unparseable entry reads as the empty list |
| SessionService.NewLocalSession | services/sessionService.ts:62-66 | the new record has the given id and creation time, no owner, and exactly the caller's data (`DataOf` gives it back) |
| SessionService.Pushed | services/sessionService.ts:67-68 | `unshift` then `slice(0, 10)`: the list is one longer up to the cap of ten, the new session is first and each earlier one sits one place further back |
| SessionService.PushedShape | services/sessionService.ts:67-68 | after a save the list is the new session followed by the first min(n, 9) earlier ones, in order; its length is between 1 and 10 and the new session is first |
| SessionService.PushedShiftsByOne | services/sessionService.ts:67-68 | every earlier session within the cap moves exactly one place back |
| SessionService.PushedIntoFullEvictsOldest | services/sessionService.ts:67-68 | saving into a full list of ten drops exactly its last (oldest) entry and keeps the length at ten |
| SessionService.PushedBelowCapKeepsAll | services/sessionService.ts:67-68 | saving into a list of fewer than ten drops nothing |
| SessionService.Without | services/sessionService.ts:80 | the filtered list is no longer than the original and holds exactly the original sessions whose id differs |
| SessionService.WithoutAbsentId | services/sessionService.ts:80 | deleting an id no session has leaves the list unchanged |
| SessionService.WithoutDistributes | services/sessionService.ts:80 | filtering a concatenation is concatenating the filtered parts, so relative order is kept |
| SessionService.WithoutPresentIdShrinks | services/sessionService.ts:79-81 | deleting an id that is present makes the list strictly shorter |
| SessionService.BoundKept | services/sessionService.ts:67-81 | from a list within the cap of ten, both save and delete give a list within the cap |
| SessionService.LocalSessionStore.GetLocalSessions | services/sessionService.ts:11-19 | returns the stored list, or the empty list when the entry is missing or unparseable |
| SessionService.LocalSessionStore.SaveLocalSessions | services/sessionService.ts:21-27 | an accepted write stores the list; a refused write is swallowed and changes nothing |
| SessionService.LocalSessionStore.SaveSession | services/sessionService.ts:48-70 | signed out and accepted: the entry becomes the pushed list, at most ten long, headed by the new session with the given id, time and data, followed by the earlier first nine; signed in or refused: the browser entry is unchanged |
| SessionService.LocalSessionStore.DeleteSession | services/sessionService.ts:72-83 | signed out and accepted: the entry becomes the old list filtered by id, with no session of that id and no more entries than before; otherwise unchanged |
| ApiConfigService.Overlay | services/apiConfigService.ts:20-22 | each key the stored record has wins, even when empty; each missing key takes its default value |
| ApiConfigService.LocalConfig | services/apiConfigService.ts:17-29 | a missing or unparseable entry gives the default record; a stored record is laid over the defaults |
| ApiConfigService.EmptyRecordIsDefault | services/apiConfigService.ts:17-24 | a stored record with no keys reads as the default record |
| ApiConfigService.FullRecord | services/apiConfigService.ts:33 | the stringified record carries every key of the configuration |
| ApiConfigService.LocalRoundTrip | services/apiConfigService.ts:17-37 | a full configuration written to the browser reads back unchanged |
| ApiConfigService.OrElse | services/apiConfigService.ts:56-61 | JavaScript logical or on a nullable string: a non-empty value is kept, null and empty give the fallback |
| ApiConfigService.RowToConfig | services/apiConfigService.ts:53-62 | empty or null provider becomes `gemini`, model `gemini-2.5-flash`, every key column the empty string; the result never has an empty provider or model |
| ApiConfigService.ResolveRemote | services/apiConfigService.ts:48-64 | an error other than `PGRST116` gives the defaults; no row gives the defaults; a row with no error (or the no-rows error) is mapped |
| ApiConfigService.ConfigToRow | services/apiConfigService.ts:72-81 | the upserted row carries every field of the configuration in its column |
| ApiConfigService.RemoteRoundTrip | services/apiConfigService.ts:53-81 | a configuration with a provider and a model, upserted and read back, is unchanged |
| ApiConfigService.RemoteRoundTripReplacesEmpty | services/apiConfigService.ts:56-57 | a saved empty provider does not read back: it comes back as `gemini` |
| ApiConfigService.NullRowIsNotDefault | services/apiConfigService.ts:55-62 | an all-null row maps to an empty transcript key, so it differs from the default record |
| ApiConfigService.ConfigStore.GetApiConfig | services/apiConfigService.ts:40-68 | signed out: the local resolution; signed in: the defaults on a database error or a missing row, otherwise the mapped row of that user |
| ApiConfigService.ConfigStore.SaveLocalConfig | services/apiConfigService.ts:31-37 | an accepted write stores the full record; a refused write is swallowed; the hosted table is untouched |
| ApiConfigService.ConfigStore.SaveApiConfig | services/apiConfigService.ts:70-90 | signed in: replaces the user's whole row and passes, or on a database error fails with its message and changes nothing; signed out: writes the browser record and always passes |
| ApiConfigService.LocalSaveThenLoad | services/apiConfigService.ts:17-37 | a signed-out save followed by a load returns the saved configuration |
| ApiConfigService.RemoteSaveThenLoad | services/apiConfigService.ts:40-88 | a signed-in save followed by a load returns the saved configuration when its provider and model are set |
| GeminiService.Guard | services/geminiService.ts:93-99 | the OpenAI provider fails as not implemented whatever the key; any other provider fails for an empty Gemini key exactly when it is empty; otherwise the guards pass |
| GeminiService.Message | services/geminiService.ts:94-171 | the three fixed error texts of the guards and the parse failure, and the model call's own message for a service error |
| GeminiService.ThumbnailMarker | services/geminiService.ts:115 | the marker says an image is provided exactly when the thumbnail is present and non-empty, and that none is otherwise |
| GeminiService.Prompt | services/geminiService.ts:103-140 | the instruction text: the fixed template with the four video fields and the thumbnail marker interpolated, unescaped |
| GeminiService.PromptQuotesVideoData | services/geminiService.ts:103-140 | title, description, tags and transcript each occur verbatim in the instruction text |
| GeminiService.ThumbnailOnlyChangesMarker | services/geminiService.ts:114-115 | the instruction texts for two thumbnails differ only in the marker at one shared position |
| GeminiService.PartsFor | services/geminiService.ts:142-153 | one text part without a thumbnail; with one, two parts: the JPEG image with the thumbnail data first, the text last |
| GeminiService.BuildParts | services/geminiService.ts:142-153 | push of the text then unshift of the image gives exactly the parts of `PartsFor` |
| GeminiService.RequestFor | services/geminiService.ts:155-162 | the request uses the configured model unchanged, asks for JSON and carries the parts in order |
| GeminiService.TrimStart | services/geminiService.ts:164 | drops leading ECMAScript white space and line terminators; its shape is `TrimStartShape` |
| GeminiService.TrimStartShape | services/geminiService.ts:164 | the result is a suffix of the text preceded only by white space and does not start with white space |
| GeminiService.TrimEnd | services/geminiService.ts:164 | drops trailing ECMAScript white space and line terminators; its shape is `TrimEndShape` |
| GeminiService.TrimEndShape | services/geminiService.ts:164 | the result is a prefix of the text followed only by white space and does not end with white space |
| GeminiService.Trim | services/geminiService.ts:164 | `String.prototype.trim`: both ends trimmed; its shape is `TrimShape` |
| GeminiService.TrimShape | services/geminiService.ts:164 | trimming yields a slice of the text with only white space cut from both ends, and neither end of it is white space |
| GeminiService.ParseResponse | services/geminiService.ts:164-172 | success exactly when the trimmed text parses, with the parsed value; otherwise the invalid-JSON error, never a partial result |
| GeminiService.Answer | services/geminiService.ts:155-172 | a failed model call propagates its message; an answer is trimmed and parsed |
| GeminiService.AnalyzeVideoContent | services/geminiService.ts:92-173 | OpenAI fails as not implemented; an empty key fails as missing; both without consulting the model call or the parser; otherwise the result is the answer to the request for this video and configuration |
| ApiConfigModal.Models | components/ApiConfigModal.tsx:12-15 | each provider has at least one model |
| ApiConfigModal.WithProvider | components/ApiConfigModal.tsx:20-27 | the provider is set, the model becomes its first model and so belongs to its list, and all four keys are unchanged |
| ApiConfigModal.WithField | components/ApiConfigModal.tsx:29-32 | the named field takes the value and every other field is unchanged |
| ApiConfigModal.DefaultsFit | services/apiConfigService.ts:7-14 | the default record, and the fallbacks of an all-null hosted row, name a known provider and one of its models |
| ApiConfigModal.WithFieldDetermined | components/ApiConfigModal.tsx:29-32 | any record with the value in the named field and the old values in the others is exactly `WithField`'s result |
| ApiConfigModal.WithProviderIdempotent | components/ApiConfigModal.tsx:22-26 | choosing the same provider twice equals choosing it once |
| ApiConfigModal.ProviderSwitchExamples | components/ApiConfigModal.tsx:12-26 | switching to OpenAI gives `gpt-4o` and switching to Gemini gives `gemini-2.5-flash`, whatever the previous model |
| ApiConfigModal.EditKeepsModelFit | components/ApiConfigModal.tsx:61-65 | from a fitting configuration, editing a key, or the model to one of the offered options, keeps the model in the provider's list |
| ApiConfigModal.ConfigModal.ModelOptions | components/ApiConfigModal.tsx:61-65 | the selector offers a non-empty list, and the model fits exactly when it is among the offered options |
| ApiConfigModal.ConfigModal.HandleProviderChange | components/ApiConfigModal.tsx:20-27 | the working copy becomes the provider switch of the old one, with the provider's first model |
| ApiConfigModal.ConfigModal.HandleChange | components/ApiConfigModal.tsx:29-32 | the working copy changes in the named field only |
| ApiConfigModal.ConfigModal.HandleSave | components/ApiConfigModal.tsx:34-36 | the working copy is handed on unchanged |
| ResultsSection.Round | components/ResultsSection.tsx:46-52 | `Math.round`: the integer within one half of the value, halves going up |
| ResultsSection.OverallScore | components/ResultsSection.tsx:46-52 | five times the overall score is within two of the sum of the five scores, i.e. it is the mean rounded to the nearest integer |
| ResultsSection.RoundFifth | components/ResultsSection.tsx:46-52 | `Math.round` of a whole number over five equals `(sum + 2) / 5` in integer division |
| ResultsSection.OverallScoreIsIntegerMean | components/ResultsSection.tsx:46-52 | the overall score is `(sum of the five scores + 2) / 5` |
| ResultsSection.OverallScoreWithin | components/ResultsSection.tsx:46-52 | when all five scores lie in a range, the overall score lies in it too |
| ResultsSection.OverallScoreBounds | components/ResultsSection.tsx:46-52 | scores in 0..100 give an overall score in 0..100 |
| ResultsSection.IsSafe | components/ResultsSection.tsx:58-63 | the green safe badge, icon and heading are shown exactly when the overall score is above 80 |
| ResultsSection.SampleIsSafe | components/ResultsSection.tsx:46-63 | the sample scores 95, 78, 84, 81, 73 give 82, which is safe, while 80 is not |
| ResultsSection.TitleItems | components/ResultsSection.tsx:78 | one title item per title, same length and order |
| ResultsSection.DescriptionItems | components/ResultsSection.tsx:79 | a single description item carrying the suggested description unchanged |
| ResultsSection.Join | components/ResultsSection.tsx:80 | `join(', ')`: the empty string for no parts, the part itself for one, parts separated by a comma and a space otherwise |
| ResultsSection.JoinLength | components/ResultsSection.tsx:80 | the joined hashtags are as long as the hashtags plus two characters per separator |
| ResultsSection.JoinSnoc | components/ResultsSection.tsx:80 | joining one more hashtag appends `, ` and that hashtag |
| ResultsSection.TagItems | components/ResultsSection.tsx:80 | a single tags item whose content is the hashtags joined with `, ` |
| ScoreCard.GetScoreColor | components/ScoreCard.tsx:10-14 | success exactly from 85, warning exactly from 60 below 85, danger exactly below 60; never the neutral class |
| ScoreCard.GetScoreColorMonotone | components/ScoreCard.tsx:10-14 | a higher score never gets a worse band |
| ScoreCard.ClassNamesDistinct | components/ScoreCard.tsx:11-13 | the class names of different bands differ |
| ThumbnailSection.ScoreProgress | components/ThumbnailSection.tsx:16-17 | the compliance score when there is a result, 0 otherwise |
| ThumbnailSection.GetScoreColorClass | components/ThumbnailSection.tsx:19-24 | the neutral class exactly when there is no score; otherwise the bands at 85 and 60 |
| ThumbnailSection.AgreesWithScoreCard | components/ThumbnailSection.tsx:19-24 | for a score, the gauge's class is the score card's class |

## Left out

- The hosted (signed-in) session operations: listing, insert and owner-scoped delete are calls into the hosted database whose behaviour is not visible; for a signed-in user the model only states that the browser entry is left alone. Errors there are only logged.
- Logging (`console.error`) on every swallowed failure.
- JSON encoding: storage entries hold parsed values, and stringify followed by parse is taken to give the value back. Stored text that parses to the wrong shape (a non-array session list, a config object with non-string or null values or extra keys, a non-object) is not modelled.
- The response schema sent with the request is represented only by the `AnalysisResult` datatype; the model call's honouring of it is outside code.
- A model answer whose text is undefined, and the construction of the client object, are outside code.
- The `updated_at` timestamp written with a hosted configuration row; the table is taken to be keyed by user id for the upsert.
- Non-integer scores and the score ring geometry (floating point); scores are whole numbers.
- `App.tsx` is not part of this model: it calls the analysis but never saves a session; no file of the code calls `saveSession`, skips untitled sessions or drops the thumbnail preview.
- `services/youtubeService.ts`, `services/transcriptService.ts`, `utils/fileUtils.ts` and all markup and styling: fetch plumbing and presentation.
- ApiConfigModal.ModelOptions: requires a known provider. With any other provider string, which a stored or hosted record can carry, the dialog's `MODELS[provider].map` throws a TypeError and the dialog fails to render; that crash is not modelled.
- ApiConfigModal.Models: requires a known provider for the same reason; `MODELS` indexed by any other string gives undefined.
- Asynchrony and concurrent calls: every operation is modelled as one sequential step.
