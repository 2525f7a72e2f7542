# for_news: caching and extraction core, in Dafny

for_news is a news aggregator. A crawler fills a database with trending
articles from several platforms. An Express server asks a Gemini model
to analyse them, and a React dashboard shows the articles and the
analyses. This project models the caching and extraction layer that sits
between the articles, the model and the HTTP handlers, plus the small
pure and stateful pieces of the client. It proves what each piece
promises.

- **Server**
  - `NewsCache` (server/cache.ts): the single news-snapshot slot.
  - `Chat` (server/routes/chat.ts): the compact per-section summary, the snapshot refresh, and the ten-minute staleness rule of `POST /chat`.
  - `Analysis` (server/routes/analysis.ts): the per-locale cache of analysis bundles behind `/run`, `/all` and `/refresh`, the `{…}` extraction and the localised task names.
  - `Trace` (server/routes/trace.ts):
    - `callWithRetry`, a bounded retry loop with linear backoff on HTTP 503;
    - the three-tier JSON extraction (whole text, fenced block, brace span);
    - the rule that every failure becomes a complete default report.
  - `AutoAnalysis` (server/routes/webhook.ts): the automatic-analysis slot, overwritten only by a successful run.
  - `TracePrompt` (server/i18n.ts): template choice and first-occurrence placeholder substitution.
  - `PromptTable` (server/routes/prompts.ts): the prompt document and its guarded single-entry update.
- **Client**
  - `Store` (src/store.ts): the application store, with its newest-first history capped at 20 and its append-only chat log.
  - `NewsFeed` (src/components/NewsFeed.tsx): trend icons, the heat guard, and grouping, sorting, partitioning and merging of sections.
  - `ClientLocale` (src/i18n.ts): locale detection.
  - `TraceModal` (src/components/TraceModal.tsx): the credibility badge and the score ring.
- **Shared modules**
  - `Wrappers`: `Option`.
  - `Text`: the JavaScript string operations the core relies on (`indexOf`, `lastIndexOf`, `replace` with a string pattern, `trim`, `slice`, `||` on strings).
  - `JsonValue`: parsed JSON values and JavaScript truthiness.

State that the source keeps in module variables or store fields becomes
a Dafny `class`: `NewsCache.Slot`, `Analysis.AnalysisCache`,
`AutoAnalysis.Slot`, `PromptTable.PromptStore` and `Store.AppStore`.
Loops become methods proved against specification functions:
`Chat.BuildCompactSummary`, `Trace.CallWithRetry`,
`NewsFeed.GroupBySection`, `NewsFeed.Partition` and
`NewsFeed.MergeSmallSections`.

**Parameters instead of effects**
- The clock: milliseconds for the chat snapshot, and display strings for `toLocaleString`.
- Database reads: an `Option` of rows, with `None` meaning the query threw.
- The model:
  - For the trace route, a function from prompt and attempt number to outcome.
  - For the other routes, an optional reply.
- `JSON.parse`: a partial function `string -> Option<Json>`, with `None` meaning it throws.

**Behaviour worth knowing**
- `callWithRetry` with three attempts waits twice, 2 s and then 4 s. A 503 on the third attempt is rethrown.
- In the trace route, a fenced block or a brace span that does not parse throws. The answer is then the default report with "Analysis temporarily unavailable"; an unparseable fence never reaches the brace tier.
- The trace route's 100-character preview is used only when no tier applies, or when the parsed value is falsy.
- A whitespace-only reply gives the default report with the ordinary default summary.

## Model

| member | source | states |
|---|---|---|
| NewsCache.Slot.constructor | server/cache.ts:10 | the slot starts empty |
| NewsCache.Slot.Set | server/cache.ts:12-15 | after a write the slot holds exactly the new snapshot, nothing of the old one |
| NewsCache.Slot.Get | server/cache.ts:17-19 | a read returns the slot's content and changes nothing |
| NewsCache.Slot.Clear | server/cache.ts:21-23 | after a clear the slot is empty |
| Chat.BuildCompactSummary | server/routes/chat.ts:10-25 | the two loops compute the specification summary: one `[section]` line per distinct section (empty sections filed under `其他`), in order of first appearance, each with the section's first 20 titles in input order joined by `\|`, lines joined by newlines |
| Chat.GroupsPartitionArticles | server/routes/chat.ts:13-17 | every article is filed in exactly one section group: the group sizes over the summary's sections add up to the number of articles |
| Chat.OneLinePerSection | server/routes/chat.ts:20-23 | there is exactly one line per distinct section key, the sections have no duplicates, and a section appears iff some article is filed under it |
| Chat.CompactSummaryEmptyIff | server/routes/chat.ts:20-24 | the summary is `""` iff there are no articles |
| Chat.DedupSpec | server/routes/chat.ts:30 | order-preserving de-duplication, as a `Set` built by insertion, yields distinct elements, exactly the input's |
| Chat.DistinctSections | server/routes/chat.ts:30 | the stored section list has no duplicates and holds exactly the non-empty `s` values of the rows |
| Chat.RefreshCache | server/routes/chat.ts:28-42 | a failed read leaves the slot alone; otherwise the slot holds the summary, the row count, the distinct sections, the time and the requested hours, and the summary and count are returned |
| Chat.HandleChat | server/routes/chat.ts:44-82 | a missing question gives 400 without touching the cache or the database; the database is queried iff there is no snapshot, it is more than 10 minutes old, or it is for other hours; the answer reports the snapshot's count and the request's hours, which the cached snapshot then has too; a database or model error gives 500 |
| Chat.AskTwiceWithinTenMinutes | server/routes/chat.ts:59-67 | two questions for the same window at most ten minutes apart query the database once (an age of exactly 10 minutes reuses the snapshot) |
| Analysis.PromptLocale | server/routes/analysis.ts:74 | the prompt is the locale's own iff the locale has one, else the `zh` prompt |
| Analysis.BraceMatch | server/routes/analysis.ts:84-87 | `/\{[\s\S]*\}/` matches iff some `}` follows some `{`; the match runs from the first `{` to the last `}` |
| Analysis.BraceMatchDelimited | server/routes/analysis.ts:84-89 | the text handed to `JSON.parse` starts with `{` and ends with `}` |
| Analysis.TaskContent | server/routes/analysis.ts:100 | the content is `results[taskId]` when it is present and truthy, else `'Analysis failed'`; it is always truthy |
| Analysis.TaskName | server/routes/analysis.ts:155-180 | the localised name when the locale has one for `taskId`, else `taskId` itself |
| Analysis.AnalysisCache.constructor | server/routes/analysis.ts:9-12 | the cache starts with no bundle |
| Analysis.AnalysisCache.Run | server/routes/analysis.ts:58-110 | answers from the cache without a model call iff a bundle exists for the locale, `taskId` is non-empty and the bundle's result for it is truthy; otherwise the model is asked, a failed call, a reply without braces or an unparseable extract gives 500 and leaves the cache unchanged, and a success replaces only that locale's bundle and returns the content for `taskId`, or the whole bundle when no `taskId` was given |
| Analysis.AnalysisCache.All | server/routes/analysis.ts:113-146 | any cached bundle for the locale (default `zh`, also for an empty locale) is returned whatever its age, without a model call; otherwise a recompute stores and returns the bundle, or fails with the cache unchanged |
| Analysis.AnalysisCache.Refresh | server/routes/analysis.ts:149-153 | removes exactly the requested locale's bundle (default `zh`) and no other |
| Analysis.RunThenHit | server/routes/analysis.ts:58-110 | after a recompute that yields a result for `taskId`, the next `/run` for the same `taskId` and locale is a cache hit with truthy content, and other locales' bundles are untouched |
| JsonValue.Get | server/routes/analysis.ts:63 | property access is defined exactly on objects that hold the key, and yields that key's value |
| Trace.CallWithRetry | server/routes/trace.ts:30-68 | the loop's result, call count and recorded waits are those of the specification `Retry` |
| Trace.RetryShape | server/routes/trace.ts:31-65 | no call iff no attempt is allowed, at most `maxRetries` calls, one wait between consecutive calls, the k-th wait being `2000*(k+1)` ms, and every call but the last got a 503 |
| Trace.RetryLastCall | server/routes/trace.ts:55-64 | the last call decides: a reply returns its text (`''` when absent), an error is rethrown, and a 503 is rethrown only from the last allowed attempt |
| Trace.BusyTwiceThenAnswer | server/routes/trace.ts:59-62 | busy, busy, answer: three calls, waits of 2000 and 4000 ms, the answer returned |
| Trace.BusyThroughout | server/routes/trace.ts:59-64 | a model that is always busy is called three times and its 503 is rethrown |
| Trace.OtherErrorNotRetried | server/routes/trace.ts:56-64 | any error other than 503 ends the run after one call, without waiting |
| Text.TrimSpec | server/routes/trace.ts:91 | `trim` keeps a stretch of the input with only whitespace outside it, which neither starts nor ends with whitespace |
| Text.TrimEmptyIffBlank | server/routes/trace.ts:91 | a text trims to `""` iff every character is whitespace |
| Text.IndexOf | server/routes/trace.ts:101-103 | the index found is an occurrence and no earlier index is; none is found iff there is no occurrence |
| Trace.FenceContent | server/routes/trace.ts:101-103 | the fence pattern fails iff the text has no two non-overlapping fences; when it matches, the trimmed capture holds no fence |
| Trace.NoLaterFence | server/routes/trace.ts:101 | when no fence follows the first one's body, the pattern matches nowhere |
| Trace.FenceContentOf | server/routes/trace.ts:101-103 | with `p` the first fence and `q` the first fence at or after the body start (after an optional `json` tag), the capture is the trimmed text between them; stray backticks elsewhere do not matter |
| Trace.FencedBodyIsExtracted | server/routes/trace.ts:101-103 | for a fence, an optional `json` tag, a body without backticks and a closing fence, after prose without backticks, the capture is the trimmed body |
| Text.FirstIndexOfChar | server/routes/trace.ts:105 | `indexOf('{')` is the first `{`, and `-1` iff there is none |
| Text.FirstIndexOfCharAgrees | server/routes/trace.ts:105 | the one-character search is the general `indexOf` with a one-character pattern |
| Text.LastIndexOfChar | server/routes/trace.ts:106 | `lastIndexOf('}')` is the last `}`, and `-1` iff there is none |
| Trace.BraceSlice | server/routes/trace.ts:105-109 | the brace tier applies iff the text has both a `{` and a `}` |
| Trace.BraceSliceMatchesPattern | server/routes/trace.ts:105-109 | the brace slice is the analysis routes' `/\{[\s\S]*\}/` match whenever that matches; otherwise, with both braces present, it is `""` |
| Trace.BraceSpanInProse | server/routes/trace.ts:105-109 | an object in prose without backticks is found exactly by the brace tier |
| Trace.Extract | server/routes/trace.ts:97-111 | a whole-text parse wins; nothing to parse iff the whole parse fails and neither a fence nor a brace pair exists; with a fence, only the fenced body is parsed; without one, the brace span is parsed; a failed parse of either throws rather than falling through |
| Trace.DefaultResponse | server/routes/trace.ts:16-27 | score 5, level `Unknown`, every list empty (distortion examples included), no distortion at level `None`, origin time and type `Unknown` with detail `Could not determine origin`, spread speed and scope `Unknown` with detail `No spread data available`; the summary is the message and the origin the source when those are non-empty, else `Unable to trace this news source` and `Unknown` |
| Trace.Respond | server/routes/trace.ts:87-131 | never a missing-title error; a traced answer is the extracted value itself, which is truthy, and the route answers with one iff the call returned non-blank text that extracts to a truthy value; a thrown call gives the default with the busy message for 503 and `Analysis temporarily unavailable` otherwise; a blank reply gives the default with its own summary; an extraction that throws gives `Analysis temporarily unavailable`; nothing to parse or a falsy value gives the first 100 characters as the summary; every default carries the caller's source |
| Trace.HandleTrace | server/routes/trace.ts:70-132 | the answer is 400 iff the title is missing or empty, and then no model call is made; otherwise the answer is `Respond` of three-attempt `callWithRetry` on the locale's prompt (default `en`, source `Unknown` when empty) |
| Trace.BlankReplyGivesDefault | server/routes/trace.ts:91-94 | a blank reply gives the default report with the default summary |
| Trace.BusyModelGivesBusyDefault | server/routes/trace.ts:127-130 | a model busy on every attempt ends in the default report whose summary is the busy message |
| Trace.PlainTextGivesPreview | server/routes/trace.ts:113-120 | a reply with no backtick or brace that does not parse gives the default with its first 100 characters as summary |
| AutoAnalysis.Slot.constructor | server/routes/webhook.ts:8-11 | the slot starts empty |
| AutoAnalysis.Slot.RunAutoAnalysis | server/routes/webhook.ts:37-69 | a successful run overwrites the slot with its text and time; a failed one leaves it as it was |
| AutoAnalysis.Slot.Read | server/routes/webhook.ts:29-35 | the stored text and time, or two nulls when nothing is stored |
| AutoAnalysis.Slot.CrawlComplete | server/routes/webhook.ts:14-26 | the acknowledgement is `received` / `Analysis started` whatever the run does, and the run then updates the slot as above |
| AutoAnalysis.NullsUntilSuccess | server/routes/webhook.ts:29-35 | however many runs fail, reads give two nulls until one succeeds |
| AutoAnalysis.FailureKeepsPrevious | server/routes/webhook.ts:66-68 | a failure after a success leaves the successful run's text and time |
| AutoAnalysis.LaterSuccessOverwrites | server/routes/webhook.ts:60-63 | of two successes only the later is kept |
| TracePrompt.TemplatesWellFormed | server/i18n.ts:4-28 | the `zh` fallback exists, and in every template no placeholder can start before its own `{title}` and `{source}` |
| TracePrompt.ZhWellFormed | server/i18n.ts:5-11 | the zh intro and middle hold no `{`, and the middle starts a new line |
| TracePrompt.EnWellFormed | server/i18n.ts:13-19 | the same for the en template |
| TracePrompt.JaWellFormed | server/i18n.ts:21-27 | the same for the ja template |
| TracePrompt.TemplateFor | server/i18n.ts:71 | the locale's own template when there is one, else the zh template; always well formed |
| Text.ReplaceFirstSkipping | server/i18n.ts:72 | `replace` with a string pattern replaces the first occurrence, found after parts that cannot hold one |
| Text.ReplaceFirstInside | server/i18n.ts:72 | when an inner part holds the pattern, `replace` replaces it there and leaves the rest |
| TracePrompt.FillTitle | server/i18n.ts:72 | the title takes the template's `{title}` |
| TracePrompt.FillFillsBothPlaceholders | server/i18n.ts:72 | for a title without `{source}`, the prompt is the template with both placeholders filled, each with its own value |
| TracePrompt.FillSourceInTitle | server/i18n.ts:72 | a title holding `{source}` takes the source itself, and the template's `{source}` is left in the prompt |
| TracePrompt.PromptFillsBothPlaceholders | server/i18n.ts:70-73 | the same for `getTracePrompt`, with the zh template for an unknown locale |
| PromptTable.SetEntry | server/routes/prompts.ts:42 | the locale gets the new text, or no entry when `content` is absent; every other locale keeps its text |
| PromptTable.PromptStore.ReadAll | server/routes/prompts.ts:9-17 | `GET /prompts` returns the whole document |
| PromptTable.PromptStore.ReplaceAll | server/routes/prompts.ts:20-29 | `PUT /prompts` makes the body the whole document |
| PromptTable.PromptStore.UpdateOne | server/routes/prompts.ts:32-49 | 404 iff the type is unknown, with the document unchanged; otherwise only that type's entry for the locale changes |
| PromptTable.UpdateIsLocal | server/routes/prompts.ts:42 | a successful update keeps the set of types, every other type, and every other locale of the same type |
| PromptTable.AddsNewLocale | server/routes/prompts.ts:42 | a locale the type did not have is added, since the locale is not validated |
| PromptTable.UnknownTypeRefused | server/routes/prompts.ts:38-40 | an update of an unknown type is refused and the document reads as before |
| Store.PushCapped | src/store.ts:38 | the new result is first, the history has 1 to 20 entries, and the rest is the previous history's first 19 in order |
| Store.AppStore.constructor | src/store.ts:25-32 | empty lists, no selected platform, a one-hour chat range, not loading, never updated; the history bound of 20 (`Valid`) holds from the start and every setter keeps it |
| Store.AppStore.SetArticles | src/store.ts:34 | only `articles` changes |
| Store.AppStore.SetPlatforms | src/store.ts:35 | only `platforms` changes |
| Store.AppStore.SetSelectedPlatform | src/store.ts:36 | only `selectedPlatform` changes |
| Store.AppStore.AddAnalysisResult | src/store.ts:37-39 | only the history changes, to the capped push; it then holds at most 20 results |
| Store.AppStore.AddChatMessage | src/store.ts:40-42 | only the chat log changes: the message is appended and earlier messages stay |
| Store.AppStore.SetChatTimeRange | src/store.ts:43 | only `chatTimeRange` changes |
| Store.AppStore.SetIsLoading | src/store.ts:44 | only `isLoading` changes |
| Store.AppStore.SetLastUpdated | src/store.ts:45 | only `lastUpdated` changes |
| Store.HistoryIsNewestTwenty | src/store.ts:37-39 | results added one by one to an empty history leave the last 20 of them, newest first |
| Store.ReplayResults | src/store.ts:37-39 | a fresh store fed a run of results through `addAnalysisResult` holds the last 20, newest first |
| Store.ReplayChat | src/store.ts:40-42 | a fresh store fed a run of messages holds exactly them, in order |
| NewsFeed.TrendIcon | src/components/NewsFeed.tsx:6-15 | `new`, `rising`, `falling` and `returning` get their icons; the icon is empty iff the trend is none of those (`stable`, null or unknown) |
| NewsFeed.FormatHeat | src/components/NewsFeed.tsx:17-23 | nothing iff `heat ?? score` is null or 0; otherwise a label of that value, in millions iff it is at least 1000000, in thousands iff between 1000 and 1000000 |
| NewsFeed.ZeroHeatHidesScore | src/components/NewsFeed.tsx:18-19 | a zero heat hides the score, since `??` falls back only on null |
| NewsFeed.SortByRank | src/components/NewsFeed.tsx:177 | the sort is a permutation of its input |
| NewsFeed.SortByRankSorted | src/components/NewsFeed.tsx:176-178 | the sorted list is ascending by rank, a missing rank counting as 999 |
| NewsFeed.SortByRankStable | src/components/NewsFeed.tsx:176-178 | articles of equal rank keep their input order |
| NewsFeed.GroupMembership | src/components/NewsFeed.tsx:169-174 | an article is in the group of its own section (`未分类` when missing or empty) and in no other |
| NewsFeed.GroupSizeCounts | src/components/NewsFeed.tsx:169-174 | a group's size is the number of articles of its section, so every article is counted once |
| NewsFeed.GroupBySection | src/components/NewsFeed.tsx:169-178 | one list per section present, holding that section's articles sorted by rank |
| NewsFeed.PartitionSpec | src/components/NewsFeed.tsx:185-193 | a platform with no article is in neither list; any other is small iff it has fewer than 4 articles and large iff it has at least 4 |
| NewsFeed.Partition | src/components/NewsFeed.tsx:181-193 | the loop builds both lists in platform order |
| NewsFeed.Relabel | src/components/NewsFeed.tsx:199 | each article is kept and given the platform as section |
| NewsFeed.CollectedLabels | src/components/NewsFeed.tsx:196-201 | every merged article carries the name of a small section |
| NewsFeed.MergeSmallSections | src/components/NewsFeed.tsx:196-203 | the merged list is the small sections' articles, relabelled section by section, then sorted by rank |
| NewsFeed.DisplaySections | src/components/NewsFeed.tsx:205-207 | the selected platform alone when one is selected, else the large sections |
| NewsFeed.CardArticles | src/components/NewsFeed.tsx:106 | a card shows exactly the first 15 articles of its list, or the whole list when it is shorter |
| NewsFeed.Layout | src/components/NewsFeed.tsx:168-207 | the groups, the two lists, the merged list and the displayed sections are those specified above |
| ClientLocale.Supported | src/i18n.ts:3-7 | a string names a supported locale iff it is the code of one |
| ClientLocale.DetectLocale | src/i18n.ts:197-205 | a supported saved locale wins; otherwise a lower-cased browser language starting with `zh` gives zh, with `ja` gives ja, anything else en |
| ClientLocale.SavedLocaleHonoured | src/i18n.ts:198-199 | a saved locale is returned iff it is one of the three codes |
| ClientLocale.BrowserTagCaseInsensitive | src/i18n.ts:201-203 | upper- and mixed-case browser tags are recognised |
| TraceModal.CredibilityVariant | src/components/TraceModal.tsx:142-146 | success iff the level is `高` or `High`, warning iff `中` or `Medium`, error otherwise |
| TraceModal.ScoreColor | src/components/TraceModal.tsx:51 | green iff the score is at least 7, yellow iff from 4 to below 7, red iff below 4 |
| TraceModal.ScoreColorMonotone | src/components/TraceModal.tsx:51 | a higher score never gets a worse colour |
| TraceModal.Percentage | src/components/TraceModal.tsx:50 | scores from 0 to 10 fill the ring from 0 to 100 percent |
| TraceModal.DefaultReportRendering | src/components/TraceModal.tsx:49-51 | the trace route's default report shows a yellow ring at 50 percent and the error badge |

## Left out

- Text.ToLower: lower-cases ASCII letters only, whereas `toLowerCase` covers all of Unicode; the locale checks only compare against `zh` and `ja`.
- Strings are sequences of code points, whereas JavaScript counts UTF-16 code units, so `substring(0, 100)` of text outside the Basic Multilingual Plane is not modelled exactly.
- The special `$` patterns of `String.prototype.replace` are not modelled: replacement strings are taken literally.
- Object key order is not modelled: JavaScript lists integer-like keys before the others, so the summary's section order is exact only for non-numeric section names.
- Inherited keys such as `constructor` on plain objects are not modelled. They affect `bySection`, `groupedBySection`, `cachedAnalysis`, `tracePromptTemplate` and `data`.
- TracePrompt.TemplatesWellFormed: states that no placeholder can start before each template's own `{title}` and `{source}`. It does not state that the JSON schema after `{source}` holds no further placeholder: a search over the long schema literals is too costly to prove. The substitution lemmas do not need it, since only first occurrences are replaced.
- Chat.HandleChat: the prompt sent to the model is not built, so the model's answer is a parameter. The chat system prompt (`getChatPrompt`) is imported by the route but not defined in server/i18n.ts, and the prompt text carries no logic.
- Chat staleness: the age is computed as a millisecond difference. The route computes it in fractional minutes from an ISO timestamp, and both agree on "more than 10 minutes".
- `POST /chat/refresh` (server/routes/chat.ts:85-89) is not a separate member: it is `RefreshCache` followed by a read of the slot.
- `getArticlesForAI` returns `title`/`section` columns, while the chat route reads `t`/`s`. The model follows the chat route as written and does not reconcile the two.
- The clock, `toLocaleString`, the database and the model client are parameters, as described above. `setTimeout` waits are recorded as delays, not slept.
- Chat.HandleChat: one `now` serves as both the age check's time and the new snapshot's stamp; the source stamps with `new Date()` after the database query returns, which is never earlier.
- `JSON.parse` is an uninterpreted partial function, and the cast of its result to `Record<string, string>` is not checked: results are any JSON value.
- File I/O of the prompt document is left out, so the 500 answers for read, parse or write errors are not modelled. The document is a map from type to locale to text; non-string contents are not modelled.
- The webhook's run is fire-and-forget, and concurrent recomputes of the analysis cache can overlap. Both are modelled as sequential steps.
- Console output and token-usage logging are left out.
- `formatHeat`'s `toFixed(1)` text is left out: the label keeps the magnitude class and the value. The ring's SVG dash arithmetic is also left out.
- Rank, heat and score are integers in the model, while the source's numbers may be fractional. The trace score is a real, and NaN is not modelled.
- `getTranslation` and the translation tables are text content: a lookup by locale with no further logic.
- Article fields other than id, title, section, rank, heat, score and trend are left out: the feed logic does not read them.
- The analysis prompts and the auto-analysis prompt are text content. Their article context is `JSON.stringify` of the rows, which is not modelled.
