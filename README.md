# Global trend radar: reply normalisation, article prompt and view state

This project models the logic core of a browser front-end that sends a free-text
"trend signal" to a hosted language model, turns the reply into a structured
report, and can ask for a follow-up long-form article about it.

- `types.dfy` (module `Types`) holds the record shapes: the five driving forces
  with their names, the force details, stock suggestions, citations and the
  report record.
- `strings.dfy` (module `Strings`) holds the JavaScript string primitives the
  code relies on. `Trim` is `String.prototype.trim`, with the ECMAScript
  whitespace and line-terminator set written out. `Join` is `Array.prototype.join`.
- `gemini.dfy` (module `Gemini`) models the reply normalisation of
  `services/geminiService.ts` as pure functions:
  - the code-fence stripping regex and trim of `cleanJsonResponse`;
  - `extractThought`;
  - the grounding-citation map and filter;
  - the spread-and-override assembly of the report;
  - `analyzeTrend` after its reply has arrived;
  - the article prompt and its fallback text.
  The service's reply is a datatype of candidates, parts and grounding chunks.
  Every optional link is an `Option`, and JavaScript truthiness is `Truthy`:
  an absent string and "" are both falsy.
- `radar.dfy` (module `Radar`) models the page state of `App.tsx`. Each
  `setState(prev => ({ ...prev, ... }))` updater is a function on the
  `ViewState` record. Its contract says which fields it sets and, through
  `OnlyChanged`, that no other field changes. Class `App` holds the record and
  runs the handlers, and each `await` is split into two methods. The first
  (`HandleScan`, `HandleGenerateFullArticle`) applies the guards and the
  "begin" update, and returns what would be sent. The second (`CompleteScan`,
  `CompleteArticle`) applies the success or failure update once the request
  settles. `Valid()` is kept by every method: stored citations are normalised,
  a stored article is never empty, and any error is one of the two fixed
  messages.

`JSON.parse` is the parameter `parse: string -> Option<Payload>`, where `None`
means it throws. The clock's ISO timestamp is the parameter `now`. A network
reply is a value passed in, with `None` for a rejected request.

Facts about the code that the model keeps:

- `analyzeTrend` never sets `id`, so the report's `id` is whatever the parsed
  payload held (`Option`).
- The state record declares `history`, but no code reads, caps or stores it.
- The scan's own outcomes never leave both a report and an error
  (`ScanOutcomesExclusive`). A failed article generation, however, sets its
  error while the report stays (`ArticleFailureKeepsReport`).
- The download file name ends in `.txt`.
- `Valid()` is the invariant every `App` method keeps. Two contracts depend on
  it. Under it, `HandleGenerateFullArticle` uses its cached article exactly
  when one is stored, and `DownloadArticle` offers a file exactly when one is
  stored.

## Model

| member | source | states |
|---|---|---|
| Types.AllForcesEnumerates | types.ts:2-8 | the force list has the five members, every force is in it, and the five names are pairwise distinct |
| Strings.Trim | services/geminiService.ts:6 | the result has no whitespace at either end, is the slice of the input between two all-whitespace runs, and is empty exactly when the input is all whitespace |
| Strings.TrimIdempotent | services/geminiService.ts:6 | trimming twice is trimming once |
| Strings.Join | services/geminiService.ts:17 | `Array.prototype.join`: no parts give "", a single part gives itself, and every part occurs in the joined text |
| Strings.JoinEmptyIff | services/geminiService.ts:17 | a join of non-empty parts is "" exactly when there are no parts |
| Gemini.StripFences | services/geminiService.ts:6 | the global replace of "```json" (with an optional newline) and "```", scanning left to right and deleting each marker; never longer than its input |
| Gemini.StripFencesNoFence | services/geminiService.ts:6 | after the global replace, no run of three backticks is left anywhere in the text |
| Gemini.CleanJsonResponse | services/geminiService.ts:5-7 | the cleaned text has no leading or trailing whitespace and contains no run of three backticks |
| Gemini.StripFencesNoBacktick | services/geminiService.ts:6 | text without a backtick passes through the replace unchanged |
| Gemini.StripFencesClosing | services/geminiService.ts:6 | a closing fence after backtick-free text is removed and nothing else is |
| Gemini.CleanNoBacktick | services/geminiService.ts:6 | cleaning text that has no backtick is just trimming it |
| Gemini.CleanFencedBlock | services/geminiService.ts:6 | "```json\n" + body + "```" cleans to the trimmed body when the body has no backtick |
| Gemini.FirstCandidate | services/geminiService.ts:13 | `response.candidates?.[0]`: the first candidate exactly when the list is present and non-empty |
| Gemini.ReplyParts | services/geminiService.ts:13 | the first candidate's content parts, or []: no candidate gives no parts, a part list present on the first candidate is returned as it is, and any non-empty result is that list |
| Gemini.ThoughtTexts | services/geminiService.ts:14-16 | the extracted thoughts are all non-empty and no more numerous than the parts |
| Gemini.ExtractThought | services/geminiService.ts:12-18 | a reply without a first candidate yields the empty trace |
| Gemini.ThoughtTextsAppend | services/geminiService.ts:14-16 | thought extraction keeps part order: the thoughts of a concatenation are the concatenated thoughts |
| Gemini.ThoughtTextsSingle | services/geminiService.ts:15-16 | a single part contributes its own thought exactly when that thought is a non-empty string; with ThoughtTextsAppend this fixes the extracted thoughts as the non-empty ones, in part order |
| Gemini.ThoughtTextsMember | services/geminiService.ts:15-16 | a string is among the thoughts exactly when some part carries it as a non-empty thought |
| Gemini.ExtractThoughtEmptyIff | services/geminiService.ts:12-18 | the trace is "" exactly when no part of the first candidate has a non-empty thought, which covers no candidates, no content and no parts |
| Gemini.GroundingChunks | services/geminiService.ts:159 | the first candidate's grounding chunks, or []: no candidate gives no chunks, a chunk list present on the first candidate's grounding metadata is returned as it is, and any non-empty result is that list |
| Gemini.MapChunks | services/geminiService.ts:161-164 | one citation per chunk, in order, each the chunk's mapped citation |
| Gemini.KeepWithUri | services/geminiService.ts:165 | `.filter(s => s.uri)`: no more citations than given, each with a non-empty uri and taken from the input |
| Gemini.ChunkSource | services/geminiService.ts:161-164 | every mapped citation has a non-empty title |
| Gemini.KeepWithUriMember | services/geminiService.ts:165 | the filter keeps exactly the citations whose uri is a non-empty string |
| Gemini.NormaliseSources | services/geminiService.ts:160-165 | there are no more citations than chunks, and every citation has a non-empty title and a non-empty uri |
| Gemini.ReplySources | services/geminiService.ts:159-165 | a reply without grounding chunks gives no citations; otherwise the same bounds and non-emptiness hold |
| Gemini.NormaliseSourcesAppend | services/geminiService.ts:160-165 | normalisation keeps chunk order: it distributes over concatenation |
| Gemini.NormaliseSourcesSingle | services/geminiService.ts:161-165 | one chunk gives one citation exactly when its uri is non-empty; the citation keeps the chunk's own non-empty title, and otherwise gets "即時參考來源" |
| Gemini.NormaliseSourcesMember | services/geminiService.ts:160-165 | a citation is in the output exactly when some chunk maps to it and its uri is non-empty |
| Gemini.Assemble | services/geminiService.ts:167-172 | the report's thought, sources and timestamp are the derived values; id, title, summary, forces, inversion, investments and data freshness are the payload's |
| Gemini.AssembleKeepsExactlyPayloadFields | services/geminiService.ts:167-172 | two payloads give the same report exactly when they agree on every field except thought, sources and timestamp, so those three payload fields never reach the report |
| Gemini.RawText | services/geminiService.ts:154 | the reply text or "{}": the reply text when it is non-empty, otherwise "{}", so never empty |
| Gemini.AnalyzeTrend | services/geminiService.ts:153-172 | the call fails exactly when parsing the cleaned reply text (or "{}" if there is none) fails; on success the report is the assembly of the parsed payload with the extracted trace, the normalised citations and the given timestamp |
| Gemini.ForceListText | services/geminiService.ts:185 | `Object.values(DrivingForce).join('、')`: every force name occurs in the text |
| Gemini.ForceListTextValue | services/geminiService.ts:185 | the five force names, joined by "、", in declaration order |
| Gemini.ArticlePrompt | services/geminiService.ts:177-197 | the prompt starts with the fixed header and contains the title, the joined force names, the summary, the strategic summary, the falsification and the physical limits |
| Gemini.ArticleText | services/geminiService.ts:210 | the article is never empty: it is the reply text when that is non-empty and exactly "深度文章生成中斷，請重試。" otherwise |
| Radar.IsBlank | App.tsx:38 | the scan guard fires exactly for queries made only of whitespace, including the empty one |
| Radar.ScanBegun | App.tsx:39 | scanning on; error, report and article cleared; reasoning panel closed; no other field changes |
| Radar.ScanSucceeded | App.tsx:42 | the report is stored and scanning is off; no other field changes |
| Radar.ScanFailed | App.tsx:44-48 | scanning is off and the fixed scan error is set; no other field changes |
| Radar.ArticleReopened | App.tsx:55 | only the article modal is opened |
| Radar.ArticleBegun | App.tsx:59 | generating on, modal open, article cleared; no other field changes |
| Radar.ArticleSucceeded | App.tsx:62 | the article is stored and generating is off; no other field changes |
| Radar.ArticleFailed | App.tsx:64 | generating is off and the error "文章生成失敗。" is set; no other field changes |
| Radar.Escaped | App.tsx:30 | the force selection is cleared and the article modal closed; no other field changes |
| Radar.ForceModalClosed | App.tsx:79 | only the force selection is cleared |
| Radar.ArticleModalClosed | App.tsx:80 | only the article modal is closed |
| Radar.ThoughtToggled | App.tsx:185 | only the reasoning-panel flag changes, and it flips |
| Radar.QueryEdited | App.tsx:126 | only the query changes, to the typed text |
| Radar.ForceSelected | App.tsx:225 | only the force selection changes, to the clicked force |
| Radar.SelectedForce | App.tsx:82 | a force detail is shown exactly when there is both a report and a selected key, and it is that report's detail for that key |
| Radar.DownloadFileName | App.tsx:73 | "【深度專題】" + title + ".txt", or "【深度專題】趨勢分析.txt" when there is no report or its title is empty |
| Radar.DownloadFileNameShape | App.tsx:73 | every file name starts with the prefix, has a non-empty title part and ends in ".txt" |
| Radar.ScanOutcomesExclusive | App.tsx:39-48 | a begun scan ends either with the report and no error, or with the scan error and no report, and scanning is off in both cases |
| Radar.ArticleFailureKeepsReport | App.tsx:64 | a failed article generation keeps the report and sets the article error beside it |
| Radar.ThoughtToggleTwice | App.tsx:185 | toggling the reasoning panel twice restores the state |
| Radar.EscapeClosesBoth | App.tsx:30 | Escape equals both close functions, in either order, and is idempotent |
| Radar.ScanHidesSelectedForce | App.tsx:82 | while a new scan runs no force detail is shown, whatever key stays selected |
| Radar.SelectingShowsForce | App.tsx:82 | picking a card shows that force of the current report, if there is one; closing the force modal shows none |
| Radar.App.constructor | App.tsx:8-23 | the page starts idle: no report, no error, no selection, no article, modals and panel closed, empty query |
| Radar.App.HandleScan | App.tsx:37-39 | a blank query changes nothing and sends nothing; otherwise the scan begins and the query is sent |
| Radar.App.CompleteScan | App.tsx:40-49 | a settled scan stores the report when the reply parses, and applies the scan failure when the request failed or the text did not parse |
| Radar.App.HandleGenerateFullArticle | App.tsx:52-61 | without a report, a no-op; with a cached non-empty article, only reopens the modal and sends nothing; otherwise begins generation and sends the prompt built from the current report; under the invariant, with a report the cache is used exactly when an article is stored |
| Radar.App.CompleteArticle | App.tsx:61-65 | a reply stores its text or the fallback text; a failed request applies the article failure |
| Radar.App.HandleKeyDown | App.tsx:28-31 | Escape applies the Escape update; any other key changes nothing |
| Radar.App.CloseForceModal | App.tsx:79 | applies the close-force update |
| Radar.App.CloseArticleModal | App.tsx:80 | applies the close-article update |
| Radar.App.ToggleThought | App.tsx:185 | applies the toggle update |
| Radar.App.EditQuery | App.tsx:126 | applies the query update |
| Radar.App.SelectForce | App.tsx:225 | applies the force-selection update |
| Radar.App.DownloadArticle | App.tsx:68-77 | offers a download exactly when the article is a non-empty string: a text/plain file of the article under the file name above; under the invariant, exactly when an article is stored |

## Left out

- The calls to the generative-AI SDK, with their model names, sampling settings, system instruction and response schema: foreign code and remote I/O. A reply is a value passed in.
- `JSON.parse` is an opaque parameter; JSON itself is not re-verified.
- Gemini.AnalyzeTrend: assumes the parser yields the schema's shape or fails; a parsed object with missing required fields, or with extra keys that the spread would carry along, is not represented.
- Gemini.RawText: an empty or missing reply text becomes "{}". `JSON.parse("{}")` does not throw, so in the code that reply is a successful scan whose report has no title, forces, investments or freshness. Here `parse` can only return a complete `Payload`, so it cannot produce such a report.
- Gemini.ExtractThought: treats `part.thought` as an optional string, as the code does. The SDK's declaration of that field is not part of this model.
- The clock and the locale (`new Date().toLocaleDateString()`, `toISOString()`): the timestamp is a parameter, and the date text of the request is not modelled.
- Rendering, CSS classes, `getForceTextColor`, the market tab switch and the scroll-to-top button: presentation only.
- Registering and removing the window key listener: UI plumbing. Only the listener's effect is modelled, as `HandleKeyDown`.
- The Blob, object URL and anchor element of the download: browser I/O. Only the file name, the contents and the media type are modelled.
- components/RadarVisual.tsx: a chart wrapper with no logic.
- Overlapping in-flight requests: events are modelled one at a time, with no ordering claims. A preset button can start a scan while one is running, and a stale completion still updates the state.
- Radar.App.ToggleThought: the toggle button is rendered only when the report has a non-empty trace. The transition itself is unconditional and is modelled that way.
- History capping and persistence: no such code exists in the modelled files.
- The 1-10 range of the freshness score and the 1-5 range of the risk level: they are comments, not checks, so they are not invariants here.
- Strings are sequences of Unicode scalar values (`seq<char>`), not the UTF-16 code units of JavaScript strings. No property here depends on lengths or indices in code units.
