# Buscador de Series — a Dafny model of its lookup service and view state

Buscador de Series is a small web app. The user types a TV series name. The app asks a
search-grounded generative model (Gemini) for a JSON description of the series and shows it.
Clicking a cast member opens a modal with a second lookup, for that actor.
This project models the two parts of the app that have behaviour of their own:

- **The lookup service** (`services/geminiService.ts`). It builds the two prompt templates. It
  refuses to run without an API key. It cuts the JSON object out of the model's answer by trimming
  it and keeping the span from the first `{` to the last `}`. It parses that span and turns a parse
  failure into a fixed message. The series lookup also returns the answer's grounding citations.
- **The view state** (`App.tsx`). It has nine `useState` variables in two groups: series and actor.
  Four handlers update them in a fixed order.

Modules, one per concern:

| file | module | models |
|---|---|---|
| `wrappers.dfy` | `Wrappers` | `Option` / `Result` |
| `types.dfy` | `Types` | the records of `types.ts` |
| `jsstring.dfy` | `JsString` | `trim`, `indexOf`, `lastIndexOf`, and a substring predicate used to state the lemmas |
| `extraction.dfy` | `Extraction` | the extraction block, shared by both fetch operations |
| `prompts.dfy` | `Prompts` | the two prompt templates |
| `service.dfy` | `GeminiService` | `fetchSeriesInfo`, `fetchActorInfo` |
| `app.dfy` | `App` | the `App` component's state and handlers as the class `AppState` |

Things outside the model become parameters:

- The API key, read from the environment, is an `Option<string>`. It counts as missing when it is
  unset or empty, which is what `!process.env.API_KEY` tests.
- The model call is a function from a `Request` to either a `Response` or the message it threw.
- `JSON.parse` is a function that yields `None` when it throws, `Some(None)` when the text is JSON
  `null`, and `Some(Some(record))` otherwise.
- Each fetch returns a `Call`: the list of requests it sent and its outcome. "No network call" means
  that list is empty.

The prompt templates are rebuilt character for character from an introduction, the quoted name,
the instructions, the example JSON object (one `SchemaField` per key) and the closing rules.

Two behaviours of the code worth stating:

- `sources` is the first candidate's chunk list exactly as the answer returns it
  (`services/geminiService.ts:51`). The service drops nothing. The citation list skips an
  entry without a web record only when it renders (`components/SourceList.tsx:19`), and
  rendering is outside this model. types.ts declares `web` as required, so the model's
  `GroundingChunk` always has one.
- A parse result of JSON `null` is not an error. The series lookup then succeeds with no series
  record, and afterwards the idle prompt is shown instead of a card.

## Model

| member | source | states |
|---|---|---|
| JsString.TrimStartShape | services/geminiService.ts:56 | leading part of `trim`: the result is a suffix of the input, only whitespace was dropped, and it does not start with whitespace |
| JsString.TrimEndShape | services/geminiService.ts:56 | trailing part of `trim`: the result is a prefix, only whitespace was dropped, and it does not end with whitespace |
| JsString.Trim | services/geminiService.ts:56 | `text.trim()` has no whitespace at either edge |
| JsString.TrimNoLonger | services/geminiService.ts:56 | `text.trim()` is no longer than its input |
| JsString.TrimDropsOnlyWhitespace | services/geminiService.ts:56 | the trimmed text occurs in the input, and everything before and after that occurrence is whitespace |
| JsString.TrimUnique | services/geminiService.ts:56 | any whitespace-dropping infix with no whitespace at its edges equals `Trim`: `Trim` is fully characterised |
| JsString.TrimFixesNoEdgeWhitespace | services/geminiService.ts:56 | a text with no whitespace at its edges trims to itself |
| JsString.TrimIdempotent | services/geminiService.ts:56 | trimming twice is trimming once |
| JsString.IndexOf | services/geminiService.ts:57 | `indexOf('{')`: -1 or a position of the text that holds `{` |
| JsString.IndexOfIsFirst | services/geminiService.ts:57 | every `{` of the text is at or after the result of `indexOf('{')`, so the result is -1 only when the text has no `{` |
| JsString.LastIndexOf | services/geminiService.ts:58 | `lastIndexOf('}')`: -1 or a position of the text that holds `}` |
| JsString.LastIndexOfIsLast | services/geminiService.ts:58 | every `}` of the text is at or before the result of `lastIndexOf('}')`, so the result is -1 only when the text has no `}` |
| Extraction.ExtractJson | services/geminiService.ts:56-61 | the text handed to the parser is no longer than the raw answer, and is either the trimmed answer or starts with `{` and ends with `}` |
| Extraction.SliceOutermostBraces | services/geminiService.ts:57-61 | the slicing step alone: the text itself, or a piece of at least two characters from `{` to `}` |
| Extraction.SliceGuardIff | services/geminiService.ts:59 | the guard `start !== -1 && end !== -1 && end > start` holds exactly when the text has some `{` strictly before some `}` |
| Extraction.SliceSpan | services/geminiService.ts:57-60 | when a `{` precedes a `}`, the guard holds and the slice runs from the first `{` to the last `}`, inclusive |
| Extraction.SliceIsOutermostSpan | services/geminiService.ts:57-60 | if a is the first `{`, b the last `}` and a < b, the slice is exactly the inclusive span from a to b |
| Extraction.ExtractIsOutermostSpan | services/geminiService.ts:56-60 | the same for the trimmed raw answer: the result is the trimmed text from the first `{` to the last `}`, inclusive |
| Extraction.SliceShape | services/geminiService.ts:59-60 | when a `{` precedes a `}`, the slice starts with `{`, ends with `}`, occurs in the text and is no longer than it |
| Extraction.ExtractSliceShape | services/geminiService.ts:56-60 | when slicing happens, the extracted text starts with `{`, ends with `}`, occurs in the trimmed answer and is no longer than it |
| Extraction.ExtractPassThrough | services/geminiService.ts:59 | with no `{`, no `}`, or no `}` after the first `{` (as in `}{`), the trimmed answer is parsed unchanged |
| Extraction.SliceIdempotent | services/geminiService.ts:57-61 | slicing a slice returns it unchanged |
| Extraction.ExtractIdempotent | services/geminiService.ts:56-61 | trim plus slice applied to its own output returns that output |
| Extraction.SliceBetweenProse | services/geminiService.ts:57-60 | an object preceded by text with no `{` and followed by text with no `}` is cut out exactly |
| Extraction.ExtractFromProse | services/geminiService.ts:56-61 | `noise {"a":1} trailing` extracts to `{"a":1}` |
| Extraction.ExtractEmptyObject | services/geminiService.ts:56-61 | `  {}` followed by a newline extracts to `{}` |
| Extraction.ExtractReversedBraces | services/geminiService.ts:59 | `}{` passes through unchanged |
| Extraction.ExtractNoBraces | services/geminiService.ts:59 | `not json at all` passes through unchanged |
| Prompts.SeriesPrompt | services/geminiService.ts:11-41 | the series template literal, character for character: introduction, the quoted name, instructions, the example object with its 13 keys, and the closing rules. No contract; its properties are the lemmas below |
| Prompts.ActorPrompt | services/geminiService.ts:78-87 | the actor template literal, character for character: introduction, the quoted name, instructions, the example object with its two keys, and the closing rule. No contract; its properties are the lemmas below |
| Prompts.SeriesPromptQuotesName | services/geminiService.ts:11-41 | the series prompt contains the series name verbatim, in double quotes |
| Prompts.ActorPromptQuotesName | services/geminiService.ts:78-87 | the actor prompt contains the actor name verbatim, in double quotes |
| Prompts.RenderFieldsListsKeys | services/geminiService.ts:16-39 | every key of an example object appears, in double quotes, in its rendering |
| Prompts.SeriesPromptListsSeriesInfoKeys | services/geminiService.ts:15-39 | every key of `SeriesInfo` appears, in double quotes, in every series prompt |
| Prompts.ActorPromptListsActorInfoKeys | services/geminiService.ts:81-85 | both keys of `ActorInfo` appear, in double quotes, in every actor prompt |
| Prompts.QuotedNameRoundTrip | services/geminiService.ts:12 | the name inserted between a template's quotes can be read back unchanged: it is inserted without escaping |
| Prompts.SeriesPromptRoundTrip | services/geminiService.ts:11-41 | reading the name back from a series prompt gives the series name |
| Prompts.ActorPromptRoundTrip | services/geminiService.ts:78-87 | reading the name back from an actor prompt gives the actor name |
| Prompts.SeriesPromptInjective | services/geminiService.ts:11-41 | different series names give different prompts |
| Prompts.ActorPromptInjective | services/geminiService.ts:78-87 | different actor names give different prompts |
| GeminiService.KeyMissing | services/geminiService.ts:5-7 | `!process.env.API_KEY`: the key is unset or the empty string; the same test guards `fetchActorInfo` at lines 73-75. No contract: the fetch contracts state what follows from it |
| GeminiService.Sources | services/geminiService.ts:51 | the first candidate's grounding chunks when the whole optional path is present, and the empty list otherwise |
| GeminiService.ParseAnswer | services/geminiService.ts:53-69 | extract and parse succeed exactly when the text is present and the parse of its extraction succeeds; every failure is the fixed message |
| GeminiService.FetchSeriesInfo | services/geminiService.ts:4-70 | missing key: the fixed error and no request. Otherwise: one grounded request with the series prompt; a thrown call's message is passed through; missing or unparsable text gives the fixed format error; the outcome is a success exactly when the text is present and its extraction parses, and then it holds the parsed record and the sources of the answer |
| GeminiService.FetchActorInfo | services/geminiService.ts:72-111 | the same contract for actors, with the actor prompt and the actor's fixed format error: success exactly when the text is present and its extraction parses, holding the parsed record; no sources |
| App.OrDefault | App.tsx:35 | `message \|\| fallback`: the message when it is non-empty, else the fallback; never empty |
| App.AppState.constructor | App.tsx:11-20 | the initial values of the nine state variables |
| App.AppState.BeginSearch | App.tsx:23-28 | a term that trims to nothing changes nothing; otherwise loading starts, and error, result and sources are cleared; query and the actor group are untouched |
| App.AppState.CompleteSearchSuccess | App.tsx:31-33 | the result and sources take the fetched values and loading ends; the actor group is untouched |
| App.AppState.CompleteSearchFailure | App.tsx:34-38 | the error takes the message, or 'An unknown error occurred.' when it is empty, and loading ends |
| App.AppState.HandleSearch | App.tsx:23-39 | a term that trims to nothing sends no model request and changes nothing; otherwise the requests sent are those of the series fetch, and the series group after the search is a function of the fetch outcome; the spinner is off afterwards; the actor group is untouched; error and result are never both set |
| App.AppState.BeginActorLookup | App.tsx:41-45 | the actor is selected and loading; the actor's error and information are cleared; no series field changes |
| App.AppState.CompleteActorLookupSuccess | App.tsx:47-53 | the actor information is stored and loading ends; no series field changes |
| App.AppState.CompleteActorLookupFailure | App.tsx:49-53 | the actor error takes the message, or 'No se pudo obtener la información del actor.', and loading ends |
| App.AppState.HandleActorClick | App.tsx:41-54 | the requests sent are those of the actor fetch; the actor group after the lookup is as a function of the fetch outcome; the series group is untouched |
| App.AppState.HandleCloseModal | App.tsx:56-60 | the selected actor, information and error are cleared; `isActorLoading` and the whole series group are unchanged; the modal is hidden |
| App.AppState.HandleSeriesSelect | App.tsx:62-66 | close the modal, set the query to the name, then begin a search for that name |
| App.DisplayExactlyOne | App.tsx:96-99 | over the render conditions `ShowsSpinner`, `ShowsError`, `ShowsSeriesCard` and `ShowsIdlePrompt` (lines 96-99; `ShowsActorModal` is line 107): in every state the handlers keep, the spinner excludes the other three views; when not loading, exactly one of error banner, series card and idle prompt is shown |

## Left out

- The `GoogleGenAI` client, the `generateContent` network call and `process.env` are left out: they are I/O and a foreign library. Their results are parameters of the fetch operations.
- `console.error` logging of failed parses is left out: it is I/O.
- The internals of `JSON.parse`, i.e. JSON validity as defined by RFC 8259, are left out. The model's parser returns a record, JSON `null`, or a failure. Other JSON values (numbers, strings, booleans, arrays) cannot be represented, so their truthiness in the view is not modelled. Like the code, the model does no schema validation after parsing.
- The cast `as GroundingChunk[]` is taken on trust: chunks arrive already typed.
- `JsString.IndexOf` and `JsString.LastIndexOf` count Unicode scalar values, while JavaScript counts UTF-16 code units. The positions differ after astral characters. The extracted text is the same, because `{`, `}` and every whitespace character are single code units.
- `JsString.IsWhitespace` lists the Unicode space separators as of Unicode 15. A later Unicode version may add more.
- JSON numbers in `Season` are modelled as integers.
- Asynchrony is left out. The model does not capture overlapping requests, such as a stale actor result arriving after a newer lookup or after the modal was closed. Each handler runs as a begin step and then a completion step, and the `Complete…` methods require the loading flag that their `Begin…` step set.
- Rendering is left out: the React components (series card, actor modal, search box, error banner, spinner, source list), image placeholder swapping, and `new URL(...).hostname`.
- `App.AppState.HandleSeriesSelect` models only the synchronous part of `handleSeriesSelect`. Its `handleSearch` call is not awaited, so the search completes later through `CompleteSearchSuccess` or `CompleteSearchFailure`.
- Two wiring steps are left out: the search box's `onChange` (`setQuery`) and its `onSearch={() => handleSearch(query)}`. They are plain setter and handler calls from the view.
