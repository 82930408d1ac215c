# Brand profile generator: a Dafny model

This project models the brand-profile generator web app. The app has two parts:

- **The generation pipeline** (`services/gemini.ts`). It takes a website URL and does these steps in order:
  - scrapes the page through a reader service and truncates it to 15000 characters;
  - rejects pages shorter than 100 characters;
  - asks a language model to fill in a brand profile;
  - forces the profile's `data_source` marker to `"real_content"`;
  - when the profile names no competitor but has a brand name and a sector, back-fills the four competitor fields from a second, search-grounded model call, and appends a provenance note to `warnings`;
  - maps every failure to one error message, turning quota exhaustion into a fixed "credits" text.
- **The page** (`App.tsx`). It holds the URL, the chosen model, the webhook endpoint, the profile on screen, the page status and the error banner. Its handlers generate a profile, edit its fields, remove keywords, publish the profile to the webhook, and reset the form.

Modules:

- `Wrappers` holds `Option` and `Result`.
- `Text` models the JavaScript string operations the pipeline uses:
  - `trim`, with the full ECMAScript whitespace set;
  - `startsWith`;
  - `includes`;
  - the global regex deletions `/```json\n?/g` and `/```\n?/g`;
  - the decimal rendering of a status code.
- `Profile` is the `BrandProfileData` record, with one optional field per property. It also has a `Key` enumeration, so that the page's `{ ...profile, [field]: value }` update can be stated field by field.
- `Gemini` is the pipeline.
- `App` is the page. It is a `class Page` whose fields are the component's state variables and whose methods are its handlers.

The three outside services are modelled as data, in `Gemini.Services`:

- the reader's reply;
- the analysis call's reply, together with the `JSON.parse` it goes through;
- the search call's reply, together with its parse.

A run returns its outcome and the trace of calls it made. This lets the model state which calls happen, with which arguments, and when none happen. `GenerateBrandProfile` and `FindCompetitors` are imperative methods, like the source. Each is proved equal to a specification function (`Generation` and `CompetitorLookup`), and the properties are proved as lemmas about those functions.

Every async handler of the page is split at its `await`:

- `Start…` is the part that runs when the user acts;
- `Finish…` is the part that runs when the awaited call settles;
- `Handle…` runs both halves with nothing in between.

Details the model follows exactly:

- The back-fill always overwrites all four competitor fields with what the lookup returned, empty strings included (`services/gemini.ts:290-293`).
- The provenance note is appended only when the lookup found a *first* competitor name (`services/gemini.ts:296`). It is not appended when only the second name was found.
- `keywords` is not defaulted to an empty list. A profile without keywords keeps the field absent.
- Every failure is a plain message. There are no distinct error kinds.

## Model

| member | source | states |
|---|---|---|
| Text.TrimStart | services/gemini.ts:100 | the result is a suffix of the input, does not start with whitespace, and everything cut off is whitespace |
| Text.TrimEnd | services/gemini.ts:100 | the result is a prefix of the input, does not end with whitespace, and everything cut off is whitespace |
| Text.Trim | services/gemini.ts:100 | the result is no longer than the input and has no whitespace at either end |
| Text.TrimCutsOnlyWhitespace | services/gemini.ts:100 | `trim()` returns a slice of its input, and everything cut from either end is whitespace |
| Text.TrimEmptyIffWhitespace | services/gemini.ts:277 | `trim()` gives the empty string exactly when the input is all whitespace |
| Text.TrimIdempotent | services/gemini.ts:109 | trimming twice is the same as trimming once |
| Text.TrimUnchanged | services/gemini.ts:100 | a string with no whitespace at either end is left as it is |
| Text.TrimDropsFinalNewline | services/gemini.ts:109 | a trailing line feed makes no difference to the trimmed result |
| Text.TrimKeepsCharacters | services/gemini.ts:100 | trimming introduces no character that was not there |
| Text.StartsWith | services/gemini.ts:103-105 | `startsWith`: the string begins with the given prefix (a definition; its uses are stated by the fence lemmas) |
| Text.Contains | services/gemini.ts:314-316 | `includes`: the searched text occurs at some position (a definition; see the two lemmas below) |
| Text.ContainsMiddle | services/gemini.ts:314-316 | `includes` finds any string placed between two others |
| Text.ContainsTransitive | services/gemini.ts:314-316 | `includes` is transitive |
| Text.DeleteTag | services/gemini.ts:104-106 | deleting every fence (and its optional line feed) never lengthens the string |
| Text.DeleteTagSkips | services/gemini.ts:104-106 | a prefix without the fence's first character passes through the deletion untouched |
| Text.NatToString | services/gemini.ts:26 | a status renders as a non-empty run of digits with no leading zero |
| Text.NatToStringRoundTrip | services/gemini.ts:26 | reading the rendered digits back gives the status |
| Profile.Get | services/gemini.ts:172-197 | reading a field gives a value of that field's type |
| Profile.Set | App.tsx:147 | after writing a field, reading it gives the written value |
| Profile.SetOnlyChangesKey | App.tsx:147 | writing one field leaves every other field as it was |
| Gemini.Truncate | services/gemini.ts:32 | `slice(0, 15000)`: a prefix of at most 15000 characters, equal to the input when the input is short enough |
| Gemini.ScrapeWebsite | services/gemini.ts:12-40 | succeeds exactly on a 2xx response; the content is a prefix of the body of at most 15000 characters, in fact exactly `Truncate` of the body, so the whole body when short; every failure message starts with the scraping-failure text, and a bad status appears in it in decimal |
| Gemini.IsOkStatus | services/gemini.ts:25 | `response.ok`: a status from 200 to 299 (a definition, used by `ScrapeWebsite`'s success condition) |
| Gemini.FenceStripped | services/gemini.ts:100-109 | the text handed to `JSON.parse` (a definition; its meaning is stated by the fence lemmas below) |
| Gemini.CompetitorLookup | services/gemini.ts:46-129 | findCompetitors as a value (the specification of `FindCompetitors`; its properties are the lemmas below) |
| Gemini.FindCompetitors | services/gemini.ts:46-129 | the step-by-step cleaning and fallbacks compute exactly `CompetitorLookup` |
| Gemini.DeleteTagShort | services/gemini.ts:104 | the fence deletion leaves a string shorter than the fence unchanged |
| Gemini.UnfencedStripsToTrim | services/gemini.ts:100-109 | an answer without backticks reaches `JSON.parse` only trimmed |
| Gemini.DeleteClosingFence | services/gemini.ts:104-106 | the closing fence is deleted and nothing before it is touched |
| Gemini.DeleteJsonOpening | services/gemini.ts:104 | the opening "```json" fence goes together with its line feed |
| Gemini.JsonFenceStripsToBody | services/gemini.ts:100-109 | a body in a "```json" block reaches the parser as the bare body does |
| Gemini.PlainFenceStripsToBody | services/gemini.ts:100-109 | a body in a plain "```" block reaches the parser as the bare body does |
| Gemini.FencedAnswerSameCompetitors | services/gemini.ts:99-117 | a fenced search answer gives the same competitors as the bare JSON |
| Gemini.SameStrippedSameLookup | services/gemini.ts:86-117 | two non-empty answers that strip to the same text give the same competitors |
| Gemini.LookupFailuresGiveNoCompetitors | services/gemini.ts:86-95 | a thrown call, an empty answer, or an answer that does not parse all give four empty strings |
| Gemini.IsQuotaMessage | services/gemini.ts:314-316 | the three quota tests (a definition; `ClassifyErrorCases` shows the third is subsumed) |
| Gemini.ClassifyError | services/gemini.ts:313-320 | the run's error message is never empty and is either the original message, the credits text or the unknown-error text |
| Gemini.MissingCharacterNotContained | services/gemini.ts:314-316 | a message lacking a character of the searched text does not include it |
| Gemini.ClassifyErrorCases | services/gemini.ts:314-320 | quota exhaustion is decided by "quota" or "RESOURCE_EXHAUSTED" alone, since the third test is subsumed; otherwise the message is kept, or replaced by the unknown-error text when empty |
| Gemini.PlainMessageKept | services/gemini.ts:313-320 | a non-empty message with no 'q' and no '_' passes through unchanged |
| Gemini.TooShortMessageKept | services/gemini.ts:210 | the too-short message reaches the caller exactly as written |
| Gemini.NoResponseMessageKept | services/gemini.ts:266 | the no-response message reaches the caller exactly as written |
| Gemini.ForceRealContent | services/gemini.ts:271-274 | the marker becomes "real_content" and every other field is unchanged |
| Gemini.HasCompetitors | services/gemini.ts:277 | `hasCompetitors` (a definition; its meaning is stated by `NeedsCompetitorSearchMeaning`) |
| Gemini.NeedsCompetitorSearch | services/gemini.ts:279 | the back-fill trigger (a definition; its meaning is stated by `NeedsCompetitorSearchMeaning`) |
| Gemini.NeedsCompetitorSearchMeaning | services/gemini.ts:277-279 | the search fires exactly when the first competitor name is missing or blank and both the brand name and the sector are non-empty |
| Gemini.MergeCompetitors | services/gemini.ts:289-298 | the merge changes no field other than the four competitor fields and `warnings` |
| Gemini.MergeCompetitorsWrites | services/gemini.ts:289-298 | the four competitor fields take the lookup's values, empty ones included; the note is appended to `warnings` exactly when a first name was found, and `warnings` is untouched otherwise |
| Gemini.AnalysisResult | services/gemini.ts:264-269 | the analysis answer as a result: what was thrown, the no-response error, or the parse (a definition; see `EmptyAnswerFails`) |
| Gemini.Generation | services/gemini.ts:199-322 | generateBrandProfile as a value with its call trace (the specification of `GenerateBrandProfile`; its properties are the run lemmas below) |
| Gemini.GenerateBrandProfile | services/gemini.ts:199-322 | the imperative pipeline produces exactly the outcome and call trace of `Generation` |
| Gemini.MissingKeyStopsEverything | services/gemini.ts:199-202 | without an API key the run fails with the missing-key message and makes no call; with one, the page is read first |
| Gemini.AnalyzedContentBounded | services/gemini.ts:207-233 | whatever the analysis call receives is a prefix of the page body between 100 and 15000 characters long |
| Gemini.ShortContentStopsBeforeAnalysis | services/gemini.ts:209-211 | a page shorter than 100 characters fails with the too-short message after reading the page only |
| Gemini.ReaderFailureStopsBeforeAnalysis | services/gemini.ts:25-38 | a reader failure fails the run with the classified scraping message after reading the page only |
| Gemini.EmptyAnswerFails | services/gemini.ts:264-267 | an empty analysis answer fails with the no-response message after exactly two calls |
| Gemini.AnalysisFailureStops | services/gemini.ts:215-269 | when the analysis call throws or its answer does not parse, the run fails with the classified message after exactly the page read and the analysis call, and no search is made |
| Gemini.SuccessIsRealContent | services/gemini.ts:271-274 | every profile a run returns carries the "real_content" marker |
| Gemini.SearchExactlyWhenNeeded | services/gemini.ts:276-305 | once the analysis parses, the run succeeds; its calls are exactly the page read and the analysis call, followed by one search with the profile's brand and sector when the trigger holds and by nothing otherwise; with the search it returns the merge, without it only the marker changes |
| Gemini.SearchingRun | services/gemini.ts:276-298 | a run whose parsed profile fires the trigger, spelled out: three calls ending with the search, and the merge as its profile |
| Gemini.FailedLookupStillSucceeds | services/gemini.ts:282-302 | a failed search (a thrown call, an empty answer, or an answer that does not parse) never fails the run: four empty competitor fields, `warnings` untouched |
| Gemini.ExampleScenario | services/gemini.ts:199-308 | for a 150-character page, an "Acme"/"Retail" profile with a fake marker and a search naming two rivals, the run searches once and returns the marker forced, both rivals filled in and the provenance note in `warnings` |
| Gemini.ExampleRun | services/gemini.ts:276-298 | the example run makes three calls, the last a search for "Acme" in "Retail", and returns the merge of the found rivals |
| Gemini.ExampleMerge | services/gemini.ts:271-298 | the merge of the example profile has the marker forced, both rival names and the provenance note as its only warning |
| Gemini.ExampleNeedsSearch | services/gemini.ts:277-279 | the example profile triggers the search |
| Gemini.ExampleLookup | services/gemini.ts:109-117 | the example search answer resolves to the two rivals |
| App.WithoutKeyword | App.tsx:153 | the filter removes every occurrence of the keyword and keeps every other keyword as many times as it occurred |
| App.WithoutKeywordSplits | App.tsx:153 | filtering works piecewise over a concatenation, so the kept keywords keep their order |
| App.WithoutAbsentKeyword | App.tsx:153 | removing a keyword that is not there changes nothing |
| App.PublishPayload | App.tsx:161-164 | the payload has every field of the profile, except that `website` is the URL typed on the page |
| App.Page.constructor | App.tsx:110-122 | the initial state: the default webhook, the first model, an empty URL, no profile, idle, no error, no toast |
| App.Page.EnterUrl | App.tsx:271 | typing sets the URL and nothing else |
| App.Page.SetWebhookUrl | App.tsx:240 | editing the endpoint sets it and nothing else |
| App.Page.SelectModel | App.tsx:247 | choosing a model sets it and nothing else |
| App.Page.ShowError | App.tsx:181-184 | the banner shows the message and nothing else changes |
| App.Page.GenerateDisabled | App.tsx:280 | the Generate button is disabled while generating or with no URL (a definition, used by `StartGenerate`'s contract) |
| App.Page.PublishDisabled | App.tsx:491 | the Deploy button is disabled while publishing (a definition, used by `StartPublish`'s contract) |
| App.Page.StartGenerate | App.tsx:124-130 | with no URL only the banner changes; otherwise the page is generating with no profile, error or toast; an enabled Generate button always starts |
| App.Page.FinishGenerate | App.tsx:133-141 | the page returns to idle; a profile is shown, or the failure is reported with the "Errore AI: " prefix |
| App.Page.HandleGenerate | App.tsx:124-142 | without a URL no outside call is made and only the banner changes; with one, the calls are exactly the pipeline's on the page's URL and model, and the page ends idle showing its result, any profile carrying the "real_content" marker |
| App.Page.HandleUpdate | App.tsx:145-149 | with a profile on screen, the field takes the value and every other field stays; with none, nothing happens |
| App.Page.RemoveKeyword | App.tsx:151-155 | the keyword list becomes the filtered list, every other field stays, and without a profile or keyword list nothing happens |
| App.Page.StartPublish | App.tsx:157-164 | with no profile only the banner changes; otherwise the page is publishing, Deploy is disabled, and the request goes to the configured webhook with the profile and the page's URL |
| App.Page.FinishPublish | App.tsx:166-178 | a 2xx response means success; any other status, or a failed request, means error with the delivery message |
| App.Page.HandlePublish | App.tsx:157-179 | the combined handler: no profile means only the banner; otherwise the request goes to the configured webhook, the status follows the delivery, and the banner is kept on success and set to the delivery message on error |
| App.Page.Reset | App.tsx:186-191 | empty URL, no profile, idle, no toast; the banner, webhook and model stay |

## Left out

- Timers are not modelled: the delayed toast (500 ms), the toast's auto-close, and the banner clearing after 8000 ms. The model keeps the state as it is right after each handler.
- The model does not capture asynchronous interleaving. A user acting while a call is in flight is not modelled. Each `Handle…` runs both halves together, and the `Start…`/`Finish…` halves can be sequenced by a caller.
- The model makes no network calls: neither the reader service, the model calls, nor the webhook POST. Their replies are inputs.
- `JSON.parse` and `JSON.stringify` are not modelled. The parse is an input function, so a reply that does not parse is an `Err` or `None` of that function. Prompt texts, the response schema and console logging are left out.
- Numbers are modelled as reals. Non-string values in the string fields, and the open `[key: string]: any` extra properties, are not modelled.
- String lengths count characters. JavaScript counts UTF-16 code units, so a page with characters outside the basic plane would truncate and compare differently.
- App.Page.HandleUpdate: requires that the value has the field's type. The source's `any` accepts every value, but every call site passes the field's own type.
- The `catch` around the competitor search (`services/gemini.ts:299-302`) is not modelled as a path. The lookup never throws, so that branch cannot run.
- `components/SpotlightCard.tsx`, the configuration-panel toggle (`isConfigOpen`), the rendering and the edit toast's contents are presentation and are not part of this model.
