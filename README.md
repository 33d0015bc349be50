# doc-agent newsletter core in Dafny

This project models the deterministic core of the doc-agent newsletter service. The service works in three stages:

- **Request.** It accepts a newsletter request, validates it, and asks a language-model planner to call content tools.
- **Result.** It picks the HTML the planner produced. If there is none, it runs two guardrails: a direct writer, then a fetch → summarize → render fallback.
- **Delivery and logging.** It may send the result by e-mail. Every step is logged in a per-request, capacity-bounded log cache.

The browser side filters and copies those logs, and its form builds and validates the request.

Modules, one per source file (plus two shared helper modules):

| module | file | models |
|---|---|---|
| `Strings` | strings.dfy | JavaScript string operations used throughout: `trim` with the ECMAScript white-space set, ASCII `toLowerCase`, `indexOf`, `includes`, `split`/`join`, `String.prototype.replace` with a string pattern, string `<` |
| `Json` | json.dfy | JSON values, truthiness, `JSON.stringify` compact and indented |
| `LogTypes` | logtypes.dfy | log levels, log lines and the entries the viewer receives |
| `Logger` | logger.dfy | the request logger: LRU cache of per-request line lists, TTL timers, in-flight tool-call table, redaction, truncated stringification |
| `ContentTools` | tools.dfy | the mock content tools: HTML escaping, the date window, keyword-first selection of posts, sentence summaries |
| `EmailTools` | email_tools.dfy | the mock e-mail renderer, the footer settings store and its renderer |
| `FooterTheme` | footer_theme.dfy | the themed footer builder and the theme style injection |
| `Agent` | agent.dfy | the `POST` endpoint: schema and date-order refinement, writer prompt, HTML extraction, result picking, guardrail chain, delivery gate, log statistics |
| `LogView` | logview.dfy | the log card's filter predicate and its plain-text copy |
| `Toolbar` | toolbar.dfy | the filter toolbar's state transitions |
| `AgentForm` | agent_form.dfy | the request form: chip lists, presets, sections clamp, payload, client schema, error map |

Each external effect becomes an input:

- **Tools and model.** The planner returns an arbitrary sequence of steps or throws. The writer model, the fetch, summarize and render tools and the mail transport are oracles answering `Ok(value)` or `Throws` (`Agent.World`).
- **Clock and identifiers.** Clocks, generated identifiers and the current year are parameters.
- **Validators.** The e-mail and URL validators of the schema library are predicates passed in. So is the URL normalisation of the form.

Imperative source code is modelled imperatively:

- The logger's cache and call table are `class`es with `seq`/`map` fields.
- The form state is a class whose methods replace its record.
- Prompt and footer strings are grown by methods that append clause after clause.
- The endpoint is a method whose new state and reply equal a specification function.

Every such method is proved equal to a function, and the properties are proved about that function.

## Model

| member | source | states |
|---|---|---|
| Agent.Validate | src/app/api/agent/route.ts:22-52 | a body is accepted iff no field check fails and the dates are not out of string order; an accepted body is the normalised request; a rejection carries at least one issue |
| Agent.FieldIssuesEmpty | src/app/api/agent/route.ts:22-44 | no field check fails iff the topic is given with at least 2 UTF-16 units after trimming, given dates have the `YYYY-MM-DD` shape, a given title has at least 2 units, sections is in 2..8, `to` is an e-mail, the provider is "gemini" and the article URL is a URL |
| Agent.ValidateAccepts | src/app/api/agent/route.ts:22-52 | the schema accepts exactly the bodies whose fields all pass and whose start date is not after the end date as strings |
| Agent.AcceptedBodyFacts | src/app/api/agent/route.ts:22-44 | an accepted body has topic and title of at least 2 UTF-16 units, `YYYY-MM-DD` dates and sections in 2..8 |
| Agent.StringOrderIsNumeric | src/app/api/agent/route.ts:46 | for strings of the same digit/separator shape, string order is the order of their digit values |
| Agent.DateStringOrder | src/app/api/agent/route.ts:46 | for `YYYY-MM-DD` strings the refinement's string comparison is the order of year, month and day; for days of the calendar it is the order of the time values the fetch tool's window reads |
| Agent.AcceptedWindowOrdered | src/app/api/agent/route.ts:45-52 | an accepted request whose dates are days of the calendar never has an end date before its start date |
| Agent.RolledOverWindowAccepted | src/app/api/agent/route.ts:45-52 | as written: start "2025-02-30" with end "2025-03-01" is accepted, though as dates the end is the day before the start, so the date window holds no dated post |
| Agent.ValidateByDate | src/app/api/agent/route.ts:45-52 | corrected refinement: a body is accepted iff no field check fails and the end is not before the start as dates |
| Agent.ByDateWindowHoldsStart | src/utils/tools.ts:143-154 | under the corrected refinement a post dated on the start day is in the window, so no accepted window is empty; on days of the calendar it decides exactly as the string comparison |
| Agent.Or | src/app/api/agent/route.ts:212-264 | `a ?? b` yields the argument when given, the request's value otherwise |
| Agent.ListClause | src/app/api/agent/route.ts:233-238 | a list clause is present iff the list is given and non-empty |
| Agent.AddClause | src/app/api/agent/route.ts:217-231 | `prompt += ...` appends exactly the clause of a truthy value and nothing otherwise |
| Agent.AddList | src/app/api/agent/route.ts:233-257 | appends exactly the list clause |
| Agent.BuildPrompt | src/app/api/agent/route.ts:211-265 | the prompt accumulated clause by clause equals the writer prompt specification |
| Agent.PromptOpeningText | src/app/api/agent/route.ts:215-238 | the first half of the prompt, grown step by step, equals its specification |
| Agent.PromptClauses | src/app/api/agent/route.ts:215-265 | the prompt opens with the title/topic head and is exactly the head iff none of the eleven optional fields (argument, else request) is truthy |
| Agent.MatchSpanSpec | src/app/api/agent/route.ts:276-278 | a case-insensitive match starts at the leftmost opening tag and ends at the last `</html>`; no match means no closing tag after any opening tag |
| Agent.SpanFacts | src/app/api/agent/route.ts:276-279 | a matched span is a piece of the model's text that starts with the opening tag and ends with `</html>`, ignoring case, and trimming leaves it unchanged |
| Agent.ExtractHtmlShape | src/app/api/agent/route.ts:276-279 | the extracted HTML is the doctype span, else the `<html>` span, else the trimmed text, and always a piece of the text |
| Agent.FindFirst | src/app/api/agent/route.ts:386-388 | `find` returns the first result of the tool whose html is truthy, and none when there is no such result |
| Agent.ExtractPriority | src/app/api/agent/route.ts:384-391 | a writer result with truthy html beats every render result; within a tool the first in step order wins; empty html is passed over; otherwise there is no html |
| Agent.AsEmailItems | src/app/api/agent/route.ts:455 | one render item per summary, in order |
| Agent.RunFallback | src/app/api/agent/route.ts:431-466 | the fallback tier, reassigning the items on an empty first fetch, equals its specification function |
| Agent.HandlePost | src/app/api/agent/route.ts:54-81 | the endpoint method's reply and call trace equal the specification `Handle` |
| Agent.Respond | src/app/api/agent/route.ts:336-499 | for an accepted request the planner, extraction, guardrails and delivery give the reply and trace of `Run` with the prompt built from the request; a throwing planner ends the request with the unhandled 500 after the planner call |
| Agent.SendStep | src/app/api/agent/route.ts:486-499 | the last step sends when allowed and answers 200 with the html and delivery outcome |
| Agent.RejectedBeforeAnyCall | src/app/api/agent/route.ts:58-81 | bad JSON, an invalid or out-of-order body, or a model that fails to start answers 400 or 500 with no tool or model call |
| Agent.HandleRuns | src/app/api/agent/route.ts:68-81 | an accepted request with a working model runs the chain with the request's own writer prompt |
| Agent.PlannerHtmlWins | src/app/api/agent/route.ts:390-403 | with truthy planner html neither guardrail runs and that html is the answer |
| Agent.GuardrailOrder | src/app/api/agent/route.ts:337-466 | the direct writer runs at most once, right after the planner, exactly when the planner returned without html; the fallback runs exactly when the writer also produced no truthy html; a throwing planner is the only call |
| Agent.FallbackCalls | src/app/api/agent/route.ts:431-457 | the first fetch uses the request's topic and dates; a second fetch with topic "" and the same dates happens iff the first returned no items, and no fetch follows; summarize is called exactly once, right after the last fetch, iff that fetch returned, with its items and max 400; render comes last iff summarize succeeded, with its summaries; an Ok outcome means render ran |
| Agent.BadGatewayOnlyFromFallback | src/app/api/agent/route.ts:337-465 | the status is 502 exactly when the fallback ran and a call in it threw, and the 502 reply carries the planner steps; it is 500 exactly when the planner threw; every other reply is 200 |
| Agent.SendGate | src/app/api/agent/route.ts:486-496 | the send call is made iff the reply succeeds, the request is not a dry run, has a recipient and the html is truthy; a failed send still answers 200 with the html |
| Agent.MockToolsSucceed | src/utils/tools.ts:158-341 | the mock fetch, summarize and render tools never throw and render a non-empty page |
| Agent.PageNotEmpty | src/utils/tools.ts:289-339 | every rendered mock page is non-empty |
| Agent.ReliableToolsNeverBadGateway | src/app/api/agent/route.ts:337-466 | with tools that cannot fail, a planner that returns leads to 200 with truthy html; only a throwing planner answers 500 |
| Agent.ByLevelCounts | src/app/api/agent/route.ts:478-481 | the `byLevel` reduce has a key for each level that occurs, holding its count, and no other key |
| Agent.LevelCountsSum | src/app/api/agent/route.ts:476-483 | the per-level counts add up to the total; tool-call and tool-result counts never exceed it |
| Logger.RedactedTextIsClean | src/utils/logger.ts:59 | the replacement text does not itself look like a secret |
| Logger.RedactPreservesShape | src/utils/logger.ts:57-72 | redaction keeps keys, array lengths and non-string leaves |
| Logger.RedactRemovesSecrets | src/utils/logger.ts:57-72 | after redaction no string at any depth matches `sk-[A-Za-z0-9]`, and every string under an API-key-named property is "[redacted]" |
| Logger.RedactIdempotent | src/utils/logger.ts:57-72 | redacting twice is redacting once |
| Logger.Truncate | src/utils/logger.ts:79 | a string of at most 1500 characters is unchanged; a longer one becomes its first 1500 characters plus the marker |
| Logger.TouchKeepsRelativeOrder | src/utils/logger.ts:31-35 | touching an id keeps the relative order of every other pair of keys and puts the id after all of them |
| Logger.FirstWhere | src/utils/logger.ts:202-208 | the scan returns the first key whose call satisfies the test, or none when no key does |
| Logger.FallbackNeverMatches | src/utils/logger.ts:201-208 | the name-based fallback compares a call's request id with its own map key and therefore never finds a call |
| Logger.CacheEntry.constructor | src/utils/logger.ts:106 | a new entry has no lines, the given time and no timer |
| Logger.LogStore.constructor | src/utils/logger.ts:8 | the cache, its key order, the call table and the timers start empty |
| Logger.LogStore.Touch | src/utils/logger.ts:31-35 | the id becomes the most recent key bound to the entry; nothing else changes |
| Logger.LogStore.EvictIfNeeded | src/utils/logger.ts:37-46 | at most 200 entries: nothing changes; above: exactly the oldest key is removed and its timer cleared |
| Logger.LogStore.Expire | src/utils/logger.ts:109 | a pending TTL timer firing deletes its request id from the cache and key order |
| Logger.LogStore.GetCachedLogs | src/utils/logger.ts:48-53 | a miss returns nothing and changes nothing; a hit returns the lines and promotes the id |
| Logger.LogStore.SetCall | src/utils/logger.ts:182 | the call is bound under its key; a new key goes last in insertion order |
| Logger.ScanCalls | src/utils/logger.ts:202-207 | the loop over the call table, in insertion order, stops at exactly the first key whose call passes the test |
| Logger.LogStore.ReleaseWhere | src/utils/logger.ts:202-208 | the loop deletes the first matching call and returns its elapsed time, or 0 when none matches |
| Logger.LogStore.Release | src/utils/logger.ts:193-209 | a registered tool id is removed with duration end − start; otherwise the duration is 0 and the table unchanged |
| Logger.LogStore.EntryFor | src/utils/logger.ts:106-110 | an existing id keeps its entry and gets no timer; a new id gets an empty entry and one new TTL timer |
| Logger.LogStore.CreateLogger | src/utils/logger.ts:102-112 | the logger's id is the given or generated one, it is the most recent key bound to its entry, the cache stays within 200 if it was, and an existing id keeps its lines; the new key order, cache and timers are the touched ones, less the oldest key and its timer when the cache grew past 200 |
| Logger.StoredDataIsRedacted | src/utils/logger.ts:117 | the stored `data` of a line holds no secret-looking string and has the shape of the given data |
| Logger.ToolCallLineRedaction | src/utils/logger.ts:179-186 | a tool-call line keeps the given input unredacted in `toolCall` while its `data` is redacted |
| Logger.RequestLogger.constructor | src/utils/logger.ts:161-162 | the logger holds its store, id, start time and entry |
| Logger.RequestLogger.Push | src/utils/logger.ts:114-129 | exactly one line is appended, earlier lines untouched, the entry's time updated and the id made most recent |
| Logger.RequestLogger.Step | src/utils/logger.ts:170-176 | appends one info line `step:<label>` carrying the elapsed time; the entry's time becomes now, its id moves to the end of the key order bound to the entry, timers unchanged; active calls unchanged |
| Logger.RequestLogger.ToolCall | src/utils/logger.ts:179-189 | registers the call under `id-name-now`, returns that key and appends one debug line; a new key joins the end of the call order; the entry's time becomes now, its id moves to the end of the key order bound to the entry, timers unchanged |
| Logger.RequestLogger.ToolResult | src/utils/logger.ts:191-214 | a registered tool id is removed and its duration recorded, else duration 0; one debug line with the result is appended; a registered key leaves the call order; the entry's time becomes now, its id moves to the end of the key order bound to the entry, timers unchanged |
| Logger.RequestLogger.ToolError | src/utils/logger.ts:216-237 | like ToolResult, at level error with success false |
| Logger.RequestLogger.ModelCall | src/utils/logger.ts:239-242 | appends one debug line `model:<what>` with the elapsed time; the entry's time becomes now, its id moves to the end of the key order bound to the entry, timers unchanged; active calls unchanged |
| Logger.RequestLogger.Done | src/utils/logger.ts:244-247 | appends one info line `done` with the elapsed time; the entry's time becomes now, its id moves to the end of the key order bound to the entry, timers unchanged; active calls unchanged |
| Logger.RequestLogger.Dump | src/utils/logger.ts:250 | returns the lines |
| Logger.RequestLogger.DumpPlain | src/utils/logger.ts:251-257 | one text line per stored line, each starting with its stamp, upper-case level, request id and message |
| ContentTools.EscapeHtmlAppend | src/utils/tools.ts:399-406 | escaping distributes over concatenation |
| ContentTools.EscapeHtmlChar | src/utils/tools.ts:399-406 | on one character the five passes give exactly that character's entity: no entity is escaped again |
| ContentTools.EscapeHtmlIsPerChar | src/utils/tools.ts:399-406 | the chain of `replaceAll` passes, `&` first, equals escaping each character once |
| ContentTools.EscapeHtmlNoSpecials | src/utils/tools.ts:399-406 | escaped text holds no raw `<`, `>`, `"` or `'` |
| ContentTools.UnescapeEscapeHtml | src/utils/tools.ts:399-406 | decoding the five entities gives the original text back |
| ContentTools.ParseDate | src/utils/tools.ts:143-151 | a time value exists iff the string has the `YYYY-MM-DD` shape with month 01-12 and day 01-31; any other string is an invalid date |
| ContentTools.DaysBeforeYearClosed | src/utils/tools.ts:143-151 | the days before a year are 365 per year plus one per Gregorian leap year |
| ContentTools.DayNumberOrder | src/utils/tools.ts:143-151 | for days of the calendar the order of year, month and day is the order of their time values |
| ContentTools.DayRollsOver | src/utils/tools.ts:143-151 | a day past its month's end has the time value of the day it runs on to in the next month |
| ContentTools.ParseDateRollsOver | src/utils/tools.ts:143-151 | "2025-02-30" reads as "2025-03-02", a day after "2025-03-01" |
| ContentTools.ParseDateEpoch | src/utils/tools.ts:143-151 | "1970-01-01" is the epoch day, time value 0 |
| ContentTools.EmptyWindow | src/utils/tools.ts:143-154 | a window whose end is before its start as dates holds no post with a valid date |
| ContentTools.Filter | src/utils/tools.ts:176-185 | `filter` keeps exactly the elements satisfying the predicate |
| ContentTools.FilterIsSubsequence | src/utils/tools.ts:176-185 | `filter` keeps the order of what it keeps |
| ContentTools.Keywords | src/utils/tools.ts:164-165 | keywords are non-empty words without white space |
| ContentTools.InsertByDate | src/utils/tools.ts:186 | inserting keeps every post and adds exactly one |
| ContentTools.SortByDateDesc | src/utils/tools.ts:186 | the sort is a permutation |
| ContentTools.InsertByDateSorted | src/utils/tools.ts:186 | inserting into a newest-first list keeps it newest first |
| ContentTools.SortByDateDescSorted | src/utils/tools.ts:186 | the sort yields newest first |
| ContentTools.InsertByDateStable | src/utils/tools.ts:186 | inserting a post puts it before every post of its own date already in the list |
| ContentTools.SortByDateDescStable | src/utils/tools.ts:186 | the sort is stable: the posts of each date keep their relative order |
| ContentTools.FetchBounded | src/utils/tools.ts:166-188 | at most five items, each a corpus post within the date window |
| ContentTools.RestDoesNotMatch | src/utils/tools.ts:184-185 | no post used for the fill matches a keyword |
| ContentTools.FetchMatchesFirst | src/utils/tools.ts:180-188 | keyword matches come first; after the first non-match no item matches and the non-matches are newest first |
| ContentTools.FetchDistinctIds | src/utils/tools.ts:184-188 | over a corpus with distinct ids the items have distinct ids |
| ContentTools.BlankTopicKeywords | src/utils/tools.ts:164-165 | an empty or white-space topic has no keywords |
| ContentTools.FetchBlankTopic | src/utils/tools.ts:164-188 | with a blank topic every in-range post matches and the result is the first five in corpus order |
| ContentTools.MockPostsDistinctIds | src/utils/tools.ts:60-141 | the built-in posts have distinct ids |
| ContentTools.TrimAll | src/utils/tools.ts:211 | each part trimmed, in order |
| ContentTools.Sentences | src/utils/tools.ts:211 | every sentence is non-empty and holds no period |
| ContentTools.BaseText | src/utils/tools.ts:212 | the base text ends with a period |
| ContentTools.Shorten | src/utils/tools.ts:213-214 | text within the limit is unchanged; longer text ends in "…" and fits the limit |
| ContentTools.SummaryEllipsisIff | src/utils/tools.ts:213-214 | a summary ends in "…" iff its base text exceeded the limit |
| ContentTools.Summarize | src/utils/tools.ts:207-224 | one summary per item, in order, copying id, title, url and published, at most `max_chars` (default 400) long |
| EmailTools.Merge | src/utils/tools.ts:389 | each of the nine settings is the passed value when the patch has it and the current value otherwise |
| EmailTools.MergeIdempotent | src/utils/tools.ts:389 | merging a patch twice is merging it once; an empty patch changes nothing |
| EmailTools.FooterHtml | src/utils/tools.ts:37-59 | custom markup is returned verbatim; otherwise the standard footer |
| EmailTools.FooterLinesEscaped | src/utils/tools.ts:39-42 | the organisation line and the given address lines, escaped, with no raw tag characters in the address lines |
| EmailTools.FooterLinksIff | src/utils/tools.ts:43-47 | one anchor per given URL, and the links row is empty iff no URL is given |
| EmailTools.Clause | src/utils/tools.ts:273-287 | a clause is empty for a falsy field and contains the field otherwise |
| EmailTools.EnhancedIntro | src/utils/tools.ts:257-287 | the intro (default only when missing) opens the text, and with no truthy clause field it is the whole text |
| EmailTools.ItemBlocks | src/utils/tools.ts:309-331 | one block per item, in order |
| EmailTools.SectionFacts | src/utils/tools.ts:318-322 | a section block opens with `<section`, holds the escaped title and the body as given |
| EmailTools.SummaryFacts | src/utils/tools.ts:325-330 | a summary block opens with `<div` and holds the escaped title and summary |
| EmailTools.ItemBlockKind | src/utils/tools.ts:309-331 | an item with truthy body becomes a section holding the body raw, any other item a summary block; both hold the escaped title |
| EmailTools.CtaBlockIff | src/utils/tools.ts:332-337 | the call-to-action block is present iff there are calls to action, and holds each one |
| EmailTools.EmailStartsWithDoctype | src/utils/tools.ts:289 | the page starts with the doctype |
| EmailTools.EmailEndsWithFooter | src/utils/tools.ts:338-339 | the page always ends with the rendered footer and the closing tags |
| EmailTools.EmailNamesTitle | src/utils/tools.ts:290-292 | the page names the escaped title, which cannot open or close a tag |
| EmailTools.EmailHoldsItems | src/utils/tools.ts:309-331 | every item's block is in the page |
| EmailTools.FooterStore.constructor | src/utils/tools.ts:26-35 | the store starts with the built-in settings |
| EmailTools.FooterStore.SetFooter | src/utils/tools.ts:373-392 | reset installs the defaults without style, otherwise the passed fields are merged; the reply carries the new settings and their footer |
| EmailTools.FooterStore.GetFooter | src/utils/tools.ts:394-396 | returns the settings and their footer |
| EmailTools.BuildIntro | src/utils/tools.ts:272-287 | the intro grown by one `+=` per truthy field, in the order type, location, tone, key details, content, equals the enhanced intro |
| EmailTools.FooterStore.GenerateEmail | src/utils/tools.ts:254-340 | the intro grown clause by clause and the rendered page equal the page specification with the stored footer |
| EmailTools.RenderFooterHtml | src/utils/tools.ts:37-59 | the footer built by pushing lines and links equals the footer specification |
| FooterTheme.OrElse | src/utils/footer-theme.ts:17-19 | the logical-or default falls back for a missing or empty value |
| FooterTheme.IfMissing | src/utils/footer-theme.ts:101-107 | a destructuring default falls back only for a missing value |
| FooterTheme.PaletteOf | src/utils/footer-theme.ts:17-19 | primary, foreground and background default to #3b82f6, #0f172a and #ffffff |
| FooterTheme.AddressHtml | src/utils/footer-theme.ts:38 | the address with every line break replaced holds no newline |
| FooterTheme.AnchorIf | src/utils/footer-theme.ts:54-65 | one anchor iff the link is set |
| FooterTheme.SocialAnchors | src/utils/footer-theme.ts:54-65 | one anchor per set link, in the order Twitter, LinkedIn, Facebook, Instagram |
| FooterTheme.SocialRow | src/utils/footer-theme.ts:54-65 | the anchors appended one by one equal the anchors of the set links |
| FooterTheme.GenerateFooterHtml | src/utils/footer-theme.ts:2-96 | the footer accumulated block by block equals the footer specification |
| FooterTheme.ClosingRows | src/utils/footer-theme.ts:78-84 | the copyright paragraph then the unsubscribe paragraph, each appended only when set, equal their specification |
| FooterTheme.OpenColumns | src/utils/footer-theme.ts:21-71 | the opening and the columns, appended step by step, equal their specification |
| FooterTheme.ContactBlockIff | src/utils/footer-theme.ts:34-44 | the contact column is present iff one of its five fields is set, and a set address appears with `<br>` for line breaks |
| FooterTheme.SocialBlockIff | src/utils/footer-theme.ts:47-71 | the social column is present iff a link is set, and holds each set link's anchor |
| FooterTheme.ClosingParagraphs | src/utils/footer-theme.ts:78-84 | copyright and unsubscribe paragraphs each present iff set; the copyright names the year |
| FooterTheme.FooterEndsWithNote | src/utils/footer-theme.ts:3-95 | no details gives ""; otherwise the AI-assistance note closes the footer |
| FooterTheme.FullPaletteOf | src/utils/footer-theme.ts:101-107 | the five colours default only when missing, to #3b82f6, #64748b, #f59e0b, #ffffff, #0f172a |
| FooterTheme.ApplyThemeColors | src/utils/footer-theme.ts:98-152 | no theme returns the html unchanged; otherwise the theme style is inserted |
| FooterTheme.StyleInsertedOnce | src/utils/footer-theme.ts:143-149 | the style goes right after the first `<head>`, else in a new head after the first `<html>`, else into a new document around the input, exactly once |
| LogView.FilteredLogs | src/components/enhanced-logs.tsx:110-149 | the shown entries are exactly the kept entries of the logs, never more than the logs |
| LogView.KeptPositions | src/components/enhanced-logs.tsx:110-149 | the kept positions are increasing and are exactly the positions whose entry is kept |
| LogView.FilteredIsSubsequence | src/components/enhanced-logs.tsx:110-149 | the shown list is the entries at the kept positions, in order |
| LogView.TextEntries | src/components/enhanced-logs.tsx:111-120 | a string entry is shown iff regular logs are shown and the search is empty or found in it ignoring case |
| LogView.LevelGate | src/components/enhanced-logs.tsx:124 | a structured entry without a level, or with an unlisted level, is never shown |
| LogView.KindGates | src/components/enhanced-logs.tsx:126-129 | tool calls, tool results and other entries are hidden by their own switch |
| LogView.SearchGate | src/components/enhanced-logs.tsx:131-146 | with a search, a shown structured entry has the term in its message, tool name or serialised data, ignoring case |
| LogView.SearchNarrows | src/components/enhanced-logs.tsx:131-146 | a search only removes entries |
| LogView.InitialShowsLevelled | src/components/enhanced-logs.tsx:101-107 | the initial filter shows every string entry and every entry with a level, in order |
| LogView.EntryLine | src/components/enhanced-logs.tsx:154-159 | a string entry is its own line; a structured one contains `LEVEL: msg` with the level defaulting to info |
| LogView.EntryLines | src/components/enhanced-logs.tsx:153-160 | one line per shown entry, in order |
| LogView.BlobLines | src/components/enhanced-logs.tsx:152-162 | splitting the copy at newlines gives back one line per shown entry when no line holds a newline |
| Toolbar.ToggleLevel | src/components/toolbar.tsx:28-36 | the level is dropped if listed and added otherwise; other levels and fields unchanged |
| Toolbar.SetShowToolCalls | src/components/toolbar.tsx:71-76 | sets only the tool-calls switch |
| Toolbar.SetShowToolResults | src/components/toolbar.tsx:86-91 | sets only the tool-results switch |
| Toolbar.SetShowRegularLogs | src/components/toolbar.tsx:101-106 | sets only the regular-logs switch |
| Toolbar.SetSearch | src/components/toolbar.tsx:121-126 | sets only the search term |
| Toolbar.ShowAll | src/components/toolbar.tsx:138-146 | every level listed, every switch on, no search |
| Toolbar.ErrorsOnly | src/components/toolbar.tsx:155-163 | levels exactly error and warn, tool entries hidden, regular logs shown, no search |
| Toolbar.ToggleTwice | src/components/toolbar.tsx:28-36 | toggling a level twice restores the filter |
| Toolbar.ToggleCommutes | src/components/toolbar.tsx:28-36 | toggling two levels commutes |
| Toolbar.ShowAllShows | src/components/toolbar.tsx:138-146 | after Show All every string entry and every entry with a level is shown, in order |
| Toolbar.ErrorsOnlyShows | src/components/toolbar.tsx:155-163 | after Errors Only exactly the string entries and the non-tool error and warning entries are shown |
| Toolbar.HideToolCalls | src/components/toolbar.tsx:71-76 | switching tool calls off hides exactly the tool calls among the shown entries |
| AgentForm.Added | src/components/agent-form.tsx:305-320 | a trimmed-empty input changes nothing; otherwise the trimmed value is in the list, added at the end only when absent; a duplicate-free list stays duplicate-free |
| AgentForm.Remove | src/components/agent-form.tsx:312-313 | every equal element dropped, all others kept; duplicate-freedom kept |
| AgentForm.RemoveAppend | src/components/agent-form.tsx:312-313 | removal distributes over concatenation, so the rest keeps its order |
| AgentForm.Clamp | src/components/agent-form.tsx:538-544 | the sections value lands in 2..8, unchanged when already there |
| AgentForm.PresetApplied | src/components/agent-form.tsx:290-302 | a preset sets its seven fields and `preset = key`, keeping dates, links, location, content and key details |
| AgentForm.FormState.constructor | src/components/agent-form.tsx:204-238 | the form starts with the initial record, empty chip inputs and no error |
| AgentForm.FormState.AddFeature | src/components/agent-form.tsx:305-311 | features become `Added(features, input)`; the input clears unless it was blank; nothing else changes |
| AgentForm.FormState.AddTone | src/components/agent-form.tsx:314-320 | the same for tones |
| AgentForm.FormState.AddLink | src/components/agent-form.tsx:324-336 | a blank input changes nothing; a valid URL's normal form is added unless listed and the input clears; an invalid URL sets the URL error and keeps the input |
| AgentForm.FormState.RemoveFeature | src/components/agent-form.tsx:312-313 | features become `Remove(features, v)`; nothing else changes |
| AgentForm.FormState.RemoveTone | src/components/agent-form.tsx:321-322 | tones become `Remove(tone, v)`; nothing else changes |
| AgentForm.FormState.RemoveLink | src/components/agent-form.tsx:337-338 | links become `Remove(links, v)`; nothing else changes |
| AgentForm.FormState.ClearAll | src/components/agent-form.tsx:340-358 | the initial record and no error |
| AgentForm.FormState.ApplyPreset | src/components/agent-form.tsx:290-303 | as written: the preset laid over the record captured at first render, whatever the current record |
| AgentForm.FormState.ApplyPresetToCurrent | src/components/agent-form.tsx:290-302 | the preset laid over the current record |
| AgentForm.FormState.SetSections | src/components/agent-form.tsx:538-544 | an empty input stays empty, a number is clamped to 2..8 |
| AgentForm.PresetListsDistinct | src/components/agent-form.tsx:52-89 | the presets' feature and tone lists hold no value twice |
| AgentForm.StalePresetDropsEdits | src/components/agent-form.tsx:290-303 | applying a preset as written discards an edited location |
| AgentForm.PresetKeepsOtherFields | src/components/agent-form.tsx:290-302 | over the current record a preset keeps every field it does not set, and applying it twice is applying it once |
| AgentForm.TextOrNone | src/components/agent-form.tsx:253-258 | an empty text becomes undefined, any other text passes through |
| AgentForm.ListOrNone | src/components/agent-form.tsx:251-256 | a list is undefined iff it is empty |
| AgentForm.PayloadRoundTrip | src/components/agent-form.tsx:243-259 | reading the payload back gives the form record: no field is lost |
| AgentForm.LinkIssues | src/components/agent-form.tsx:38 | one issue per rejected link, none iff every link is a URL |
| AgentForm.SectionIssues | src/components/agent-form.tsx:43 | no issue iff the sections value is an integer in 2..8 |
| AgentForm.SchemaAccepts | src/components/agent-form.tsx:24-45 | the payload parses iff topic and title have at least 2 UTF-16 units, given dates have the `YYYY-MM-DD` shape, links are URLs and sections is an integer in 2..8 |
| AgentForm.InitialFormSubmits | src/components/agent-form.tsx:204-219 | the form as first shown parses |
| AgentForm.NoClientDateOrder | src/components/agent-form.tsx:24-45 | a start date after the end date still parses on the client |
| AgentForm.ClampedSectionsPass | src/components/agent-form.tsx:538-544 | an integer entered for sections never produces a sections issue |
| AgentForm.PresetsSubmit | src/components/agent-form.tsx:52-89 | every preset, applied as written, leaves a form that parses |
| AgentForm.ParseErrors | src/components/agent-form.tsx:280-288 | no issues gives the empty map |
| AgentForm.LastWithKey | src/components/agent-form.tsx:283-286 | the position of the last issue with the key, none when no issue has it |
| AgentForm.ParseErrorsLastWins | src/components/agent-form.tsx:280-288 | a key is in the error map iff some issue has it, holding the message of the last such issue |
| AgentForm.SectionsErrorKey | src/components/agent-form.tsx:43 | a fractional value below 2 reports under `sections` with the range message, which overwrites the integer message |

Notes on the code as written:

- **Identical render lookups.** `fromBuilder` and `fromGenerateEmail` (src/app/api/agent/route.ts:387-388) are the same lookup. `Agent.Extract` therefore has two tiers, not three.
- **Fallback scan never matches.** The name-based fallback of `toolResult`/`toolError` (src/utils/logger.ts:202-203, 225-226) compares `call.reqId` with the loop's own key `id`, which shadows the logger's id. `Logger.FallbackNeverMatches` shows it never finds a call. The invariant behind this is that every key is longer than the request id stored under it.
- **No eviction check in push.** `push` re-inserts its id with `touch` but never calls `evictIfNeeded` (src/utils/logger.ts:129). `Logger.RequestLogger.Push` therefore states the new key order and makes no size bound. The 200 cap is only kept by `createLogger`.
- **Tool inputs are not redacted.** Only the `data` of a line is redacted. The `input` and `output` kept in `toolCall`/`toolResult` are stored as given (`Logger.ToolCallLineRedaction`).

## Left out

- Language model and planner: what `generateText` returns and which tools the planner calls. The planner is an oracle that returns an arbitrary sequence of steps or throws, and the writer is an oracle. A throwing planner is the framework's unhandled 500 (`Agent.Unhandled`); the framework's error page is not modelled. The tool wrappers the planner uses (src/app/api/agent/route.ts:85-333, including their logging) are not part of this model; their output is what the steps contain.
- src/utils/writer.ts, src/utils/ai-provider.ts, src/utils/email.ts and src/app/api/agent/send/route.ts are not part of this model; the transport is the `send` oracle.
- The Flask branches of the tools: `USE_MOCK` is always true, so they are unreachable.
- Console colouring and `console.log` output of the logger and the tools: side effects only.
- The endpoint's own logging calls (steps, warnings, `planner:step` records): the model keeps the trace of tool, model and send calls, not the log lines.
- Clocks, `crypto.randomUUID` and the footer's current year are parameters. The TTL `setTimeout` is the explicit `Logger.LogStore.Expire` operation.
- Concurrency between requests sharing the cache: the cache is modelled sequentially.
- Zod's e-mail and URL checks and `new URL` normalisation are predicates and functions passed in.
- Agent.Validate: an issue records the field that failed, not zod's message text or path. The client schema keeps zod 3's default wording for `regex` and `int`.
- Agent.Validate: JSON type mismatches (a number where a string is expected) are not represented: the raw body has the declared field types.
- Agent.Validate: `sections` is an integer in the raw body, so a non-integral number such as 3.5, which the source's `.int()` rejects with 400, is not represented.
- Case-insensitive matching (the log search, HTML extraction, the API-key key test) folds ASCII letters only. String order is by code point, which agrees with JavaScript's UTF-16 order on the BMP.
- ContentTools.Keywords: `toLowerCase` applies full Unicode case mapping; the model lowercases ASCII letters only, so a topic such as the Kelvin sign U+212A, which JavaScript lowers to "k", stays unchanged here and its keyword never matches a post containing "k".
- ContentTools.ParseDate: only `YYYY-MM-DD` strings with month 01-12 and day 01-31 are read as dates, a day past its month's end running on into the next month as V8's parser does. Other formats the engine accepts are invalid dates (NaN) here, and a post with an invalid date sorts as 0. The time value is the day count, not milliseconds (`ContentTools.ParseDateEpoch` fixes the offset).
- Logger.Truncate: the length test and the slice count code points, where JavaScript counts UTF-16 units; they agree on text without characters above U+FFFF, and a JavaScript slice can split a surrogate pair where this one cannot.
- ContentTools.Shorten: the limit and the slice count code points, not UTF-16 units; the same caveat as `Logger.Truncate`.
- ContentTools.SummaryEllipsisIff: states the ellipsis rule in code points; it is JavaScript's rule only on text without characters above U+FFFF.
- ContentTools.Summarize: `max_chars` is counted in code points; it is JavaScript's bound only on text without characters above U+FFFF.
- Json.JNum: JSON numbers are integers. Fractions, exponents and JavaScript's number-to-string rules are not modelled, so `Logger.Truncate`, `LogView.DataText` and `LogView.EntryLine` see only integer data.
- Logger.Spread: object spread keeps insertion order; JavaScript would list integer-like keys first, in numeric order.
- Logger.RequestLogger.ToolCall: one clock reading `now` serves both the call key and its start time; the source reads `Date.now()` twice (src/utils/logger.ts:180-181), which may differ by a millisecond.
- AgentForm.FormState.SetSections: `Number(v)` parsing is abstracted to an optional real. NaN and infinities are not represented.
- LogView.EntryLine: the locale time formatting is the `fmt` parameter, and `stringifyData`'s catch path is not modelled because JSON values always serialise.
- The `sections` and `preset` arguments of `toolGenerateEmail` are accepted and unused, as in the source.
- Submission and keyboard shortcuts of the form (`handleSubmit`, async callbacks) and all JSX.
- The mock fetch tool reads its corpus as a parameter in the lemmas (`ContentTools.FetchFrom`). `ContentTools.FetchSources` uses the built-in posts.
- The theme presets of src/data/presets.ts belong to the theme customiser and are not part of this model.

## Findings

| source | as written | input that shows it | evidently intended | confidence | as-written member | corrected member |
|---|---|---|---|---|---|---|
| src/components/agent-form.tsx:290-303 | `applyPreset` is memoised with empty dependencies, so it spreads the form record captured at first render | edit the location to "Berlin", then apply any preset: the location is back to "" | lay the preset over the current record (`...object` of the latest render), keeping user edits to fields the preset does not set | medium, not executed | AgentForm.StalePresetDropsEdits | AgentForm.PresetKeepsOtherFields |
| src/app/api/agent/route.ts:46 | the refinement compares the date strings, while the fetch tool's window (src/utils/tools.ts:143-154) compares the dates the engine reads, and V8 runs a day past its month's end on into the next month | `start_date` "2025-02-30", `end_date` "2025-03-01": accepted, yet the window starts on 2 March and ends on 1 March, so no dated post is returned | reject a start that is after the end as dates (`ValidateByDate`) | low, not executed | Agent.RolledOverWindowAccepted | Agent.ByDateWindowHoldsStart |
