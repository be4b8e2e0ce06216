# Tee-time agent and Edulink agent, modelled in Dafny

This project models the deterministic core of two small Python agents and proves
properties of that model.

**The tee-time agent** works through one run as follows:
- It picks the day exactly ten days ahead, but only when that day is a Friday, Saturday or Sunday. A forced ISO date overrides this.
- It logs into the BRS golf member site and captures each target date's tee sheet.
- It asks an Ollama model to turn each sheet into a structured analysis, parsing the reply defensively. Unusable replies get a deterministic fallback summary.
- It formats one Telegram message per date and posts it.
- It ends with a single final event: a delivery summary that lists the delivered dates (sorted) and the failures (in recorded order).

**The Edulink agent** does the following:
- It reads the homework, behaviour and communicator tables of a school portal.
- It keeps the outstanding homework and yesterday's behaviour and mail entries.
- It writes a daily summary message.
- It answers questions by routing on keywords.

## How the model is organised

There is one module per source file of the core, plus a few modules for the Python
built-ins the core relies on.

**Core modules:**
- `DateWindow` is `date_window.py`.
- `TeeMain` is `resolve_targets` and `_extract_event_text` of the tee-time `main.py`.
- `TeeConfig` is the URL builders of `config.py`.
- `OllamaClient` is `ollama_client.py`.
- `Telegram` is `telegram.py`.
- `AdkAgent` is `_run_async_impl` of `adk_agent.py`, with the Playwright session's outcomes from `playwright_client.py`.
- `EduUtils` is `utils.py`.
- `EduScraper` is the table logic of `scraper.py`.
- `EduSummariser` is `summariser.py`.
- `EduConversation` is `conversation.py`.
- `EduModels` and `TeeModels` hold the records.

**Built-in modules:**
- `Text` covers `str.strip`, ASCII `lower`, `split`, `join`, `str(int)` and `int(str)`.
- `Calendar` covers proleptic Gregorian ordinals, `isoformat`, `fromisoformat` and the `strftime` pieces used.
- `PyJson` covers decoded JSON values, truthiness, `dict.get`, `str()` and `repr()`.
- `Sorting` covers `sorted()` on strings.
- `Comprehension` covers list comprehensions.
- `Wrappers` holds `Option` and `Result`.

**How Python features are represented:**
- A date is a Python proleptic ordinal (1 is 0001-01-01), so `weekday()` is `(n + 6) % 7`.
- Exceptions are `Failure` values of a `Result`.
- The outside world enters as parameters:
  - the browser's landing URL, fetch outcomes and closing error;
  - the Ollama generate call (per attempt number);
  - `json.loads`;
  - the Telegram HTTP call;
  - the dateutil parser;
  - the clock's date.
- Code that appends to lists in loops is written as methods with loops, each proved equal to a specification function. The properties are proved as lemmas about those functions. This applies to `format_message`, `format_slot`, `_run_async_impl`, `_map_table_headers`, `_value_for_header`, the `_collect_*` row loops, `build_summary`, `_describe_*`, `first_non_empty` and `_invoke_generate`.
- The expression-shaped code is written as functions: `compute_target_dates`, the URL builders, `_parse_response`, `_coerce_int`, `_fallback_summary`, `normalise_whitespace` and `answer_question`.

**Behaviour of the code that the model keeps:**
- Analysis errors are not wrapped. `_invoke_generate` runs tenacity with `reraise=True`, so when all three attempts fail the last attempt's own exception propagates. The `RetryError` handler in `analyse_snapshot` therefore never runs. `OllamaClient.AnalyseSnapshot` returns the last attempt's error unchanged.
- A run can stop before its report. `format_message` is called outside any `try` in the delivery loop. A slot whose truthy `notes` value is not a string makes `" — ".join` raise `TypeError`, and that error escapes the run with no final event. `AdkAgent.Run.crash` records it; `AdkAgent.DeliverStops` and `AdkAgent.FinalEventLast` state the consequences.
- Homework items never name a teacher. `HomeworkItem.set_by` is declared with the alias `teacher` and without population by field name, so the `set_by=` keyword that `_collect_homework` passes is ignored as an unknown field. The teacher column is looked up and then dropped, so `set_by` stays None and neither the summary nor the conversation prints a teacher. `EduScraper.HomeworkRow` and `EduScraper.HomeworkOutstanding` state this.
- The delivery summary's dash is the three characters U+00E2 U+20AC U+201D, as `adk_agent.py` spells it: an em dash whose UTF-8 bytes were decoded as Windows-1252.

## Model

| member | source | states |
|---|---|---|
| DateWindow.TargetDate.Iso | tee-time-agent/src/tee_time_agent/date_window.py:28-30 | the ISO text is 10 characters and parses back (YYYY-MM-DD) to the same date |
| DateWindow.TargetDate.DayName | tee-time-agent/src/tee_time_agent/date_window.py:36-38 | the `WEEKDAY_NAMES` lookup never misses and agrees with the English day name of the date's weekday |
| DateWindow.WeekendByName | tee-time-agent/src/tee_time_agent/date_window.py:40-42 | `is_weekend` holds exactly when the day name is Friday, Saturday or Sunday |
| DateWindow.ComputeTargetDates | tee-time-agent/src/tee_time_agent/date_window.py:45-55 | fails only when the date arithmetic leaves the calendar; otherwise at most one date, equal to today + lookahead, present iff its weekday index is 4, 5 or 6 |
| DateWindow.DefaultTargetDates | tee-time-agent/src/tee_time_agent/date_window.py:45-55 | with no arguments the candidate is the clock's date + 10; it fails only past the last representable date, and is otherwise empty or exactly that date |
| DateWindow.WeeklyPeriod | tee-time-agent/src/tee_time_agent/date_window.py:53-55 | lookaheads n and n + 7, forward or backward, give results of the same length whenever both targets are valid dates |
| DateWindow.HasTarget | tee-time-agent/src/tee_time_agent/date_window.py:53-55 | a lookahead yields one date exactly when the target's weekday is a weekend index |
| DateWindow.TargetCount | tee-time-agent/src/tee_time_agent/date_window.py:53-55 | counting dates over `len` consecutive lookaheads gives at most `len` |
| DateWindow.ThreeInEveryWeek | tee-time-agent/src/tee_time_agent/date_window.py:53-55 | of any seven consecutive lookaheads exactly three yield a date |
| TeeMain.ResolveTargets | tee-time-agent/src/tee_time_agent/main.py:90-98 | a non-empty forced date that parses is the only target (no weekday filter); one that does not parse fails with "Invalid --force-date: <input>"; a missing or empty one falls back to the ten-day rule |
| TeeMain.ForcedDateSelected | tee-time-agent/src/tee_time_agent/main.py:92-97 | forcing any date by its ISO text selects exactly that date |
| TeeMain.ForcedDateEchoed | tee-time-agent/src/tee_time_agent/main.py:94-97 | an accepted forced date is reported back with the same ISO text |
| TeeMain.Fragments | tee-time-agent/src/tee_time_agent/main.py:124 | the kept part texts are no more than the parts and none is empty |
| TeeMain.FragmentsConcat | tee-time-agent/src/tee_time_agent/main.py:124 | keeping text parts distributes over concatenation of part lists |
| TeeMain.FragmentsAllText | tee-time-agent/src/tee_time_agent/main.py:124 | when every part has text, all are kept, in order |
| TeeMain.ExtractEventText | tee-time-agent/src/tee_time_agent/main.py:121-126 | "" without content or parts; otherwise the non-empty part texts joined by single spaces |
| TeeMain.ExtractEventTextSplits | tee-time-agent/src/tee_time_agent/main.py:125 | when no kept text holds a space, splitting the result on spaces recovers the texts in order |
| TeeConfig.Get | tee-time-agent/src/tee_time_agent/config.py:43-44 | `values.get(key)` is present iff the key is, with the stored value |
| TeeConfig.BaseRoot | tee-time-agent/src/tee_time_agent/config.py:43 | `rstrip("/")` leaves a prefix of the base that does not end in "/" |
| TeeConfig.BaseRootSlash | tee-time-agent/src/tee_time_agent/config.py:43 | a trailing slash on the base makes no difference |
| TeeConfig.DefaultLoginUrl | tee-time-agent/src/tee_time_agent/config.py:39-47 | a truthy supplied URL is kept; otherwise a missing or empty club slug is the `ValueError`, and a present one gives base-without-trailing-slash + "/" + slug + "/login", with the BRS site as default base |
| TeeConfig.LoginUrlShape | tee-time-agent/src/tee_time_agent/config.py:43-47 | with a slug and no URL, the result ends in "/<slug>/login" with no doubled slash before it |
| TeeConfig.LoginUrlIgnoresTrailingSlash | tee-time-agent/src/tee_time_agent/config.py:43-47 | base URLs "x" and "x/" give the same login URL |
| TeeConfig.DatePath | tee-time-agent/src/tee_time_agent/config.py:54 | the `%Y/%m/%d` path ends with the zero-padded day of the month |
| TeeConfig.DatePathIso | tee-time-agent/src/tee_time_agent/config.py:54 | for four-digit years the path is the ISO date with "/" in place of "-" |
| TeeConfig.TeeSheetUrl | tee-time-agent/src/tee_time_agent/config.py:49-55 | the URL is base-without-trailing-slash + "/" + slug + "/tee-sheet/", then exactly the course id, then "/" + the date path |
| TeeConfig.TeeSheetUrlPerCourse | tee-time-agent/src/tee_time_agent/config.py:53 | different course ids of the same club and date give different URLs |
| TeeConfig.TeeSheetUrlIgnoresTrailingSlash | tee-time-agent/src/tee_time_agent/config.py:52 | base URLs "x" and "x/" give the same tee-sheet URL |
| TeeConfig.TelegramApiEndpoint | tee-time-agent/src/tee_time_agent/config.py:57-60 | the endpoint is "https://api.telegram.org/bot" followed by exactly the token |
| OllamaClient.CoerceInt | tee-time-agent/src/tee_time_agent/ollama_client.py:158-166 | None and "" give None; ints are kept, bools count as 0/1, strings go through `int()`, and lists or dicts give None instead of raising |
| OllamaClient.CoerceIntText | tee-time-agent/src/tee_time_agent/ollama_client.py:164 | a count written as decimal text reads back as that number |
| OllamaClient.FenceBody | tee-time-agent/src/tee_time_agent/ollama_client.py:175-180 | text without a fence is left alone |
| OllamaClient.FenceBodyBetween | tee-time-agent/src/tee_time_agent/ollama_client.py:176-178 | with two or more fences the candidate is the text between the first and second |
| OllamaClient.FenceBodyAfter | tee-time-agent/src/tee_time_agent/ollama_client.py:179-180 | with exactly one fence the candidate is the text after it |
| OllamaClient.DropJsonTag | tee-time-agent/src/tee_time_agent/ollama_client.py:183-184 | a candidate starting with "json" in any case loses those 4 characters and is re-stripped; others are unchanged |
| OllamaClient.Candidate | tee-time-agent/src/tee_time_agent/ollama_client.py:171-184 | nothing is decoded iff the reply is blank; otherwise the decoder gets strip, fence body, strip, tag drop, in that order |
| OllamaClient.ParseResponse | tee-time-agent/src/tee_time_agent/ollama_client.py:168-190 | never fails: a blank reply gives {} without decoding, an undecodable candidate gives {}, anything else is the decoded value |
| OllamaClient.FencedReply | tee-time-agent/src/tee_time_agent/ollama_client.py:175-187 | a reply in a "```json ... ```" fence is decoded from the stripped text inside |
| OllamaClient.JsonTagStrip | tee-time-agent/src/tee_time_agent/ollama_client.py:183-184 | "json" + body, stripped and untagged, is the stripped body |
| OllamaClient.MakeSlot | tee-time-agent/src/tee_time_agent/ollama_client.py:59-65 | time and status are stripped; a missing `is_bookable` is false; missing count and notes are None; kept notes are truthy |
| OllamaClient.SlotsFromFails | tee-time-agent/src/tee_time_agent/ollama_client.py:58-68 | the comprehension succeeds iff every item is a dict, and otherwise raises `AttributeError` naming the first item that is not |
| OllamaClient.SlotsFromAllTimed | tee-time-agent/src/tee_time_agent/ollama_client.py:58-68 | dicts that all have a truthy time become one slot each, in order |
| OllamaClient.SlotsFromUntimed | tee-time-agent/src/tee_time_agent/ollama_client.py:67 | dicts without a truthy time give no slots |
| OllamaClient.SlotsFromConcat | tee-time-agent/src/tee_time_agent/ollama_client.py:58-68 | slot filtering distributes over concatenation, so order is kept |
| OllamaClient.WarningsFrom | tee-time-agent/src/tee_time_agent/ollama_client.py:70-74 | warnings are at most the items, each stripped and non-blank |
| OllamaClient.WarningsFromClean | tee-time-agent/src/tee_time_agent/ollama_client.py:70-74 | warnings that are already clean strings are kept unchanged and in order |
| OllamaClient.WarningsFromConcat | tee-time-agent/src/tee_time_agent/ollama_client.py:70-74 | warning filtering distributes over concatenation, so order is kept and blanks vanish wherever they stand |
| OllamaClient.TeeTimes | tee-time-agent/src/tee_time_agent/ollama_client.py:58-68 | a non-dict reply raises `AttributeError`; a missing `tee_times` gives no slots; a value that cannot be iterated raises `TypeError`; otherwise the slots are `SlotsFrom` of its items |
| OllamaClient.Warnings | tee-time-agent/src/tee_time_agent/ollama_client.py:70-74 | a non-dict reply raises; a missing `warnings` gives none; a value that cannot be iterated raises `TypeError`; otherwise the warnings are `WarningsFrom` of its items, all clean |
| OllamaClient.BookableCount | tee-time-agent/src/tee_time_agent/ollama_client.py:203 | the count is at most the slots, and zero iff no slot is bookable |
| OllamaClient.FallbackSummary | tee-time-agent/src/tee_time_agent/ollama_client.py:192-206 | the fallback is never empty and never starts with whitespace |
| OllamaClient.FallbackFirstWarning | tee-time-agent/src/tee_time_agent/ollama_client.py:199-201 | no slots but some warnings: names the day and date and ends with the first warning |
| OllamaClient.FallbackNothing | tee-time-agent/src/tee_time_agent/ollama_client.py:202 | no slots and no warnings: "No tee times parsed for <day> <date>." |
| OllamaClient.FallbackBookable | tee-time-agent/src/tee_time_agent/ollama_client.py:203-205 | with bookable slots: starts with their count and ends with the day and date |
| OllamaClient.FallbackNoneBookable | tee-time-agent/src/tee_time_agent/ollama_client.py:206 | with slots of which none is bookable: says no bookable slots were identified |
| OllamaClient.FallbackIgnoresWarnings | tee-time-agent/src/tee_time_agent/ollama_client.py:199-206 | the warnings only matter when there are no slots |
| OllamaClient.ChooseSummary | tee-time-agent/src/tee_time_agent/ollama_client.py:76-83 | the model's summary, stripped, is used iff it is a non-blank string, else the stripped fallback; never empty |
| OllamaClient.Analysis | tee-time-agent/src/tee_time_agent/ollama_client.py:56-89 | a non-dict reply raises; a dict reply succeeds iff its slots and warnings can be read, and otherwise fails with the slots' error first; a built analysis has those slots and warnings, the summary `ChooseSummary` picks from them, the snapshot's date, day and URL, the model label "ollama:<model>" and the raw reply |
| OllamaClient.Assemble | tee-time-agent/src/tee_time_agent/ollama_client.py:49-89 | a non-dict response raises; otherwise the `response` text, converted with `str()` and stripped, is parsed leniently and assembled by `Analysis`; a built analysis has a non-empty stripped summary and a stripped raw response |
| OllamaClient.EmptyAnalysis | tee-time-agent/src/tee_time_agent/ollama_client.py:58-85 | the empty dict gives no slots, no warnings and the empty-sheet fallback summary |
| OllamaClient.UndecodableReply | tee-time-agent/src/tee_time_agent/ollama_client.py:186-190 | a reply the decoder refuses still yields an analysis, with no slots, no warnings and the fallback summary |
| OllamaClient.UndecodableParsesEmpty | tee-time-agent/src/tee_time_agent/ollama_client.py:171-190 | a blank or undecodable reply parses to {} |
| OllamaClient.EmptyDictReads | tee-time-agent/src/tee_time_agent/ollama_client.py:66-76 | {} gives no slots and no warnings |
| OllamaClient.NullTeeTimesFails | tee-time-agent/src/tee_time_agent/ollama_client.py:66 | a reply dict whose `tee_times` is null makes the analysis raise the `TypeError` of iterating None |
| OllamaClient.Truncate | tee-time-agent/src/tee_time_agent/ollama_client.py:110-116 | the result is the prefix of length min(len, limit) |
| OllamaClient.BuildPrompt | tee-time-agent/src/tee_time_agent/ollama_client.py:108-156 | the values spliced into the prompt template are the snapshot's date, day and URL and prefixes of the HTML (at most 30000 characters) and text (at most 20000), each whole when it fits |
| OllamaClient.WaitAfter | tee-time-agent/src/tee_time_agent/ollama_client.py:94 | every back-off lies in [1, 8] |
| OllamaClient.InvokeGenerate | tee-time-agent/src/tee_time_agent/ollama_client.py:91-106 | 1 to 3 attempts; the result is the outcome of the last attempt made; every earlier attempt failed; a failure means all 3 were used; the waits between attempts are 1 then 2 |
| OllamaClient.DecisiveAttempt | tee-time-agent/src/tee_time_agent/ollama_client.py:93-105 | the attempt whose outcome counts is the first success, or the third when all fail |
| OllamaClient.AnalyseSnapshot | tee-time-agent/src/tee_time_agent/ollama_client.py:26-89 | the prompt goes to up to 3 attempts; a final failure propagates unchanged; a success is assembled into the analysis |
| Telegram.StrJoin | tee-time-agent/src/tee_time_agent/telegram.py:52 | `str.join` succeeds iff every piece is a string, and then joins their texts |
| Telegram.CountPiece | tee-time-agent/src/tee_time_agent/telegram.py:45-47 | the count piece starts with the number and says "slot" iff the number is 1 |
| Telegram.SlotPieces | tee-time-agent/src/tee_time_agent/telegram.py:44-51 | time and status always, plus one piece each for a present count and truthy notes |
| Telegram.SlotPiecesOrder | tee-time-agent/src/tee_time_agent/telegram.py:44-51 | the pieces are time, status, [count], [notes], ["Bookable"], where "Bookable" is added for bookable slots whose status lacks "book" |
| Telegram.SlotText | tee-time-agent/src/tee_time_agent/telegram.py:42-52 | formatting fails only for truthy notes that are not a string, with the `TypeError` for that piece |
| Telegram.SlotTextStart | tee-time-agent/src/tee_time_agent/telegram.py:44-52 | a formatted slot starts with time — status |
| Telegram.FormatSlot | tee-time-agent/src/tee_time_agent/telegram.py:42-52 | the appending method computes `SlotText` |
| Telegram.SlotLines | tee-time-agent/src/tee_time_agent/telegram.py:24-25 | one line per slot iff every slot formats; otherwise the error of the first that does not |
| Telegram.Bullets | tee-time-agent/src/tee_time_agent/telegram.py:32-33 | one "- " line per warning, in order |
| Telegram.TimesBlock | tee-time-agent/src/tee_time_agent/telegram.py:22-27 | "Tee times:" then the slot lines, or the single line "No tee times parsed." |
| Telegram.WarningsBlock | tee-time-agent/src/tee_time_agent/telegram.py:29-33 | empty iff there are no warnings; otherwise a blank line, "Warnings:" and one line each |
| Telegram.MessageFails | tee-time-agent/src/tee_time_agent/telegram.py:14-39 | a message is built iff every slot formats; otherwise the first unformattable slot's error |
| Telegram.MessageOfLines | tee-time-agent/src/tee_time_agent/telegram.py:39 | the message is the stripped newline join of the lines |
| Telegram.LinesOfMessage | tee-time-agent/src/tee_time_agent/telegram.py:16-37 | the lines are header, summary, blank, tee-times block, warnings block, footer |
| Telegram.FormatMessage | tee-time-agent/src/tee_time_agent/telegram.py:14-39 | the appending method computes the message |
| Telegram.AppendTeeTimes | tee-time-agent/src/tee_time_agent/telegram.py:22-27 | the slot loop appends exactly the tee-times block, or fails as `SlotLines` does |
| Telegram.TeeTimesBlockOf | tee-time-agent/src/tee_time_agent/telegram.py:22-25 | lines built one per slot after the heading are the tee-times block |
| Telegram.AppendWarnings | tee-time-agent/src/tee_time_agent/telegram.py:29-33 | the warnings loop appends exactly the warnings block |
| Telegram.WarningsBlockOf | tee-time-agent/src/tee_time_agent/telegram.py:29-33 | lines built one per warning after a blank line and heading are the warnings block |
| Telegram.MessageLinesShape | tee-time-agent/src/tee_time_agent/telegram.py:16-37 | where each block sits: 3 opening lines, the tee-times block, the warnings block, then the 3 footer lines |
| Telegram.MessageEnd | tee-time-agent/src/tee_time_agent/telegram.py:35-39 | the message always ends with "Source: <url>" then "(Model: <model>)" |
| Telegram.MessageStart | tee-time-agent/src/tee_time_agent/telegram.py:16-20 | when the day name starts with a visible character, nothing is stripped and the message opens with "<day> (<date>)", the summary and a blank line |
| Telegram.SendUrl | tee-time-agent/src/tee_time_agent/telegram.py:63 | messages go to the endpoint + "/sendMessage" |
| Telegram.SendFailed | tee-time-agent/src/tee_time_agent/telegram.py:72 | the error names the status code and ends with the response body |
| Telegram.PostToTelegram | tee-time-agent/src/tee_time_agent/telegram.py:55-72 | a transport error propagates; a response succeeds iff its status is 2xx, and otherwise fails with the status-and-body error |
| AdkAgent.Enter | tee-time-agent/src/tee_time_agent/playwright_client.py:36-72 | entering succeeds iff the browser reached a landing URL that does not contain "login" (case-insensitive); a launch or navigation error propagates unchanged, and a landing on a login URL is the login-failed error |
| AdkAgent.Views | tee-time-agent/src/tee_time_agent/adk_agent.py:58-59 | one view per target, in order |
| AdkAgent.SnapshotOf | tee-time-agent/src/tee_time_agent/playwright_client.py:100-106 | a snapshot carries its target's URL, ISO date and day name |
| AdkAgent.FetchAll | tee-time-agent/src/tee_time_agent/adk_agent.py:57-80 | one non-final event per target, in order; records only for successful fetches, each with its own target |
| AdkAgent.FetchedInOrder | tee-time-agent/src/tee_time_agent/adk_agent.py:58-66 | the records are those of the targets whose fetch succeeded, in target order |
| AdkAgent.FetchSheets | tee-time-agent/src/tee_time_agent/adk_agent.py:57-80 | the fetch loop computes `FetchAll` over the targets' views |
| AdkAgent.FetchEach | tee-time-agent/src/tee_time_agent/adk_agent.py:58-80 | the loop over views computes `FetchAll` |
| AdkAgent.FetchOne | tee-time-agent/src/tee_time_agent/adk_agent.py:59-80 | one pass logs the fetched or failed event and keeps a record only on success |
| AdkAgent.OutcomeEvents | tee-time-agent/src/tee_time_agent/adk_agent.py:104-142 | one event per snapshot when the analysis fails or formatting raises, two otherwise; none final |
| AdkAgent.DeliverAll | tee-time-agent/src/tee_time_agent/adk_agent.py:98-142 | no final events; delivered ≤ posts ≤ analyses ≤ snapshots; when nothing escapes, one analysis per snapshot and delivered + failures = snapshots |
| AdkAgent.DeliverStops | tee-time-agent/src/tee_time_agent/adk_agent.py:123 | once formatting a message raises, no later snapshot is handled |
| AdkAgent.DeliveredInOrder | tee-time-agent/src/tee_time_agent/adk_agent.py:101-142 | delivered dates are exactly those whose post went through, and failures exactly those whose analysis or post failed, both in snapshot order |
| AdkAgent.HandleSnapshot | tee-time-agent/src/tee_time_agent/adk_agent.py:102-126 | the outcome of one snapshot: the analysis error, or the formatting error, or the post's result, where formatting and posting happen only after a successful analysis |
| AdkAgent.Record | tee-time-agent/src/tee_time_agent/adk_agent.py:110-142 | the bookkeeping for one snapshot is one loop step |
| AdkAgent.DeliverSnapshots | tee-time-agent/src/tee_time_agent/adk_agent.py:98-142 | the delivery loop computes `DeliverAll` |
| AdkAgent.SummaryLines | tee-time-agent/src/tee_time_agent/adk_agent.py:144-151 | 1 line, plus 1 with deliveries, plus a heading and one per failure with failures |
| AdkAgent.SummaryShape | tee-time-agent/src/tee_time_agent/adk_agent.py:144-151 | counts first; the dates line second when there are deliveries; "Failures:" then one "- " line per failure, in order, at the end |
| AdkAgent.DatesSorted | tee-time-agent/src/tee_time_agent/adk_agent.py:148 | the dates line lists the delivered dates as the unique sorted permutation |
| AdkAgent.BuildSummaryLines | tee-time-agent/src/tee_time_agent/adk_agent.py:144-151 | the appending code builds `SummaryLines` |
| AdkAgent.AppendFailures | tee-time-agent/src/tee_time_agent/adk_agent.py:150-151 | the failures part is a heading and one bullet per failure |
| AdkAgent.RunAgent | tee-time-agent/src/tee_time_agent/adk_agent.py:42-153 | the whole run computes `RunSpec`: events, delivered, failures, call counts and escaped error |
| AdkAgent.NoTargetsRun | tee-time-agent/src/tee_time_agent/adk_agent.py:46-52 | no targets: exactly one event, final, and no browser, analysis or post |
| AdkAgent.SessionFailureRun | tee-time-agent/src/tee_time_agent/adk_agent.py:81-88 | a failed entry or exit ends with one final "Playwright session failed" event after any fetch events; nothing analysed, posted, delivered or failed |
| AdkAgent.NoSnapshotsRun | tee-time-agent/src/tee_time_agent/adk_agent.py:90-96 | no successful fetch: one event per target, then a final "No tee sheets captured" event; nothing analysed or posted |
| AdkAgent.FinalEventLast | tee-time-agent/src/tee_time_agent/adk_agent.py:42-153 | a run no error escapes has exactly one final event, its last; a run an error escapes has none |
| AdkAgent.RunCounts | tee-time-agent/src/tee_time_agent/adk_agent.py:98-142 | delivered ≤ posts ≤ analyses ≤ targets |
| AdkAgent.DeliveredRun | tee-time-agent/src/tee_time_agent/adk_agent.py:98-153 | a completed run ends with the summary event; delivered + failed = snapshots = analyses; delivered and failures are those of the succeeded and failed snapshots, in fetch order |
| EduUtils.Collapse | edulink-agent/src/edulink_agent/utils.py:54 | collapsing never lengthens, keeps the first character (a space for whitespace) and leaves a single-spaced string |
| EduUtils.NormaliseWhitespace | edulink-agent/src/edulink_agent/utils.py:52-54 | the result has no surrounding whitespace, only plain spaces and never two in a row |
| EduUtils.CollapseFixed | edulink-agent/src/edulink_agent/utils.py:54 | a single-spaced string is left alone by the substitution |
| EduUtils.NormaliseIdempotent | edulink-agent/src/edulink_agent/utils.py:54 | normalising twice is normalising once |
| EduUtils.NormaliseKeepsText | edulink-agent/src/edulink_agent/utils.py:54 | the non-whitespace characters survive, in order |
| EduUtils.NormaliseBlank | edulink-agent/src/edulink_agent/utils.py:54 | the result is "" iff the input is None or all whitespace |
| EduUtils.ParseDate | edulink-agent/src/edulink_agent/utils.py:36-49 | a missing or blank text gives None without calling the parser; otherwise the parser's verdict on the stripped text |
| EduUtils.FirstNonEmpty | edulink-agent/src/edulink_agent/utils.py:57-64 | None iff every value is blank; otherwise the stripped first non-blank value, itself non-empty and stripped |
| EduScraper.Put | edulink-agent/src/edulink_agent/scraper.py:267 | assignment keeps an existing key's place or appends a new key, maps the key to the new index and changes no other key |
| EduScraper.HeaderKeys | edulink-agent/src/edulink_agent/scraper.py:264 | one normalised lowercase key per header cell |
| EduScraper.MapTableHeaders | edulink-agent/src/edulink_agent/scraper.py:255-268 | the loop builds the header dict of `thead th`, or of `tr th` when there are none |
| EduScraper.MapKeysLookup | edulink-agent/src/edulink_agent/scraper.py:263-267 | a key maps to the last column carrying it; empty keys and absent keys are not in the dict |
| EduScraper.FirstAppearancesOrder | edulink-agent/src/edulink_agent/scraper.py:267 | dict keys are distinct and in order of first appearance |
| EduScraper.MapKeysOrder | edulink-agent/src/edulink_agent/scraper.py:263-267 | the dict's keys are the non-empty keys in first-appearance order |
| EduScraper.HeaderMapFacts | edulink-agent/src/edulink_agent/scraper.py:255-268 | keys in first-appearance order, each mapped to its last column; a key is missing iff empty or on no header |
| EduScraper.FindFrom | edulink-agent/src/edulink_agent/scraper.py:248-252 | the scan returns a position at or after its start |
| EduScraper.FindTable | edulink-agent/src/edulink_agent/scraper.py:244-252 | the found table is one of the tables |
| EduScraper.FindFromFirst | edulink-agent/src/edulink_agent/scraper.py:248-252 | the scan stops at the first table covering every required header, or none covers them |
| EduScraper.FindTableFirst | edulink-agent/src/edulink_agent/scraper.py:244-252 | the first table whose keys include every lowercased required header, or None when no table has them |
| EduScraper.FindTableWithHeader | edulink-agent/src/edulink_agent/scraper.py:244-252 | the search loop computes `FindTable` |
| EduScraper.MatchesIsSubstring | edulink-agent/src/edulink_agent/scraper.py:277 | a header matches iff the lowercased alias occurs in it (the equality test is subsumed) |
| EduScraper.Cell | edulink-agent/src/edulink_agent/scraper.py:278-281 | a value only from an in-range column, stripped and non-empty |
| EduScraper.ForAlias | edulink-agent/src/edulink_agent/scraper.py:276-281 | any value found is non-empty and stripped |
| EduScraper.ValueFor | edulink-agent/src/edulink_agent/scraper.py:271-282 | any value found is non-empty and stripped |
| EduScraper.ForAliasFirstHit | edulink-agent/src/edulink_agent/scraper.py:276-281 | within one alias, headers are tried in dict order and the first usable one wins |
| EduScraper.ForAliasNone | edulink-agent/src/edulink_agent/scraper.py:276-282 | an alias finds nothing iff no header matches it with a usable value |
| EduScraper.ValueForFirstAlias | edulink-agent/src/edulink_agent/scraper.py:274-281 | aliases are tried in order and the first that finds a value wins |
| EduScraper.ValueForNone | edulink-agent/src/edulink_agent/scraper.py:274-282 | None iff no alias finds a value |
| EduScraper.ValueForHeader | edulink-agent/src/edulink_agent/scraper.py:271-282 | the nested loop computes `ValueFor` |
| EduScraper.RowValues | edulink-agent/src/edulink_agent/scraper.py:127 | one normalised value per cell |
| EduScraper.Kept | edulink-agent/src/edulink_agent/scraper.py:123-138 | a row loop keeps at most one item per row |
| EduScraper.HomeworkRow | edulink-agent/src/edulink_agent/scraper.py:124-137 | a row yields an item iff it has cells and its submission value exists and contains "not" in lower case; the item keeps that value, and its `set_by` is None because the keyword is ignored by the alias-only field |
| EduScraper.Points | edulink-agent/src/edulink_agent/scraper.py:173-177 | points are present iff the text is present and is an integer |
| EduScraper.BehaviourRow | edulink-agent/src/edulink_agent/scraper.py:166-185 | a row yields an entry iff it has cells and its parsed date is the target; the entry has that date and the integer points |
| EduScraper.MailRow | edulink-agent/src/edulink_agent/scraper.py:217-229 | a row yields an entry iff it has cells and its date/received value parses to the target |
| EduScraper.HomeworkOutstanding | edulink-agent/src/edulink_agent/scraper.py:123-138 | every homework item collected is outstanding and names no teacher |
| EduScraper.BehaviourOnTarget | edulink-agent/src/edulink_agent/scraper.py:165-186 | every behaviour entry collected is dated the target |
| EduScraper.MailOnTarget | edulink-agent/src/edulink_agent/scraper.py:216-230 | every mail entry collected is dated the target |
| EduScraper.HomeworkFromRow | edulink-agent/src/edulink_agent/scraper.py:124-138 | one pass of the homework loop computes `HomeworkRow` |
| EduScraper.CollectHomework | edulink-agent/src/edulink_agent/scraper.py:104-141 | no table with "submission" gives []; otherwise the rows' items in order |
| EduScraper.HomeworkRows | edulink-agent/src/edulink_agent/scraper.py:123-138 | the homework row loop keeps each row's item, in row order |
| EduScraper.BehaviourFromRow | edulink-agent/src/edulink_agent/scraper.py:166-186 | one pass of the behaviour loop computes `BehaviourRow` |
| EduScraper.CollectBehaviour | edulink-agent/src/edulink_agent/scraper.py:144-189 | no table with "date" and "points" gives []; otherwise the rows' entries in order |
| EduScraper.BehaviourRows | edulink-agent/src/edulink_agent/scraper.py:165-186 | the behaviour row loop keeps each row's entry, in row order |
| EduScraper.MailFromRow | edulink-agent/src/edulink_agent/scraper.py:217-230 | one pass of the mail loop computes `MailRow` |
| EduScraper.CollectMail | edulink-agent/src/edulink_agent/scraper.py:192-233 | no table with "date" and "subject" gives []; otherwise the rows' entries in order |
| EduScraper.MailRows | edulink-agent/src/edulink_agent/scraper.py:216-230 | the mail row loop keeps each row's entry, in row order |
| EduSummariser.Fallback | edulink-agent/src/edulink_agent/summariser.py:68-70 | the default for None or all-whitespace values, else the normalised value, which is non-empty |
| EduSummariser.PointsText | edulink-agent/src/edulink_agent/summariser.py:43 | "N/A" iff unknown; otherwise it starts with "+" for non-negative points and "-" for negative ones |
| EduSummariser.SummarySuffix | edulink-agent/src/edulink_agent/summariser.py:57-58 | the mail suffix is present iff the summary is non-blank, and is then " – " + the normalised summary |
| EduSummariser.HeadingNamesChild | edulink-agent/src/edulink_agent/summariser.py:16-17 | the heading says "for <name>" iff the child's name is a non-empty string, and ends with " — " + the long date |
| EduSummariser.PointsUnavailable | edulink-agent/src/edulink_agent/summariser.py:34-37 | the achievement line says "unavailable" iff the total is unknown |
| EduSummariser.LayoutShape | edulink-agent/src/edulink_agent/summariser.py:15-65 | heading and blank line first, sections in order separated by blank lines, then a blank line and the sign-off |
| EduSummariser.LayoutText | edulink-agent/src/edulink_agent/summariser.py:63-65 | the text starts with the heading line and ends with "Have a great day!" |
| EduSummariser.HomeworkBullets | edulink-agent/src/edulink_agent/summariser.py:21-30 | one bullet per item in order after the header, or the single no-homework line |
| EduSummariser.BehaviourBullets | edulink-agent/src/edulink_agent/summariser.py:34-48 | the points line first; then the header and one bullet per entry in order, or the no-entries line |
| EduSummariser.MailBullets | edulink-agent/src/edulink_agent/summariser.py:52-61 | one bullet per message in order after the header, or the single no-messages line |
| EduSummariser.AppendHomework | edulink-agent/src/edulink_agent/summariser.py:21-30 | the homework appends add exactly the homework section |
| EduSummariser.AppendBehaviour | edulink-agent/src/edulink_agent/summariser.py:34-48 | the behaviour appends add exactly the behaviour section |
| EduSummariser.AppendMail | edulink-agent/src/edulink_agent/summariser.py:52-61 | the mailbox appends add exactly the mailbox section |
| EduSummariser.BuildSummary | edulink-agent/src/edulink_agent/summariser.py:12-65 | the appending method computes the laid-out summary text |
| EduSummariser.SummaryHeading | edulink-agent/src/edulink_agent/summariser.py:16-17 | the first line written is the heading |
| EduConversation.Or | edulink-agent/src/edulink_agent/conversation.py:41-42 | Python's `value or default`: the value when truthy, else the default |
| EduConversation.DescribeHomework | edulink-agent/src/edulink_agent/conversation.py:36-46 | the appending method computes the homework reply |
| EduConversation.DescribeBehaviour | edulink-agent/src/edulink_agent/conversation.py:49-67 | the appending method computes the behaviour reply |
| EduConversation.DescribeMail | edulink-agent/src/edulink_agent/conversation.py:70-79 | the appending method computes the mailbox reply |
| EduConversation.AnswerIgnoresCase | edulink-agent/src/edulink_agent/conversation.py:16 | lower-casing the question never changes the answer |
| EduConversation.HomeworkComesFirst | edulink-agent/src/edulink_agent/conversation.py:18-19 | a question mentioning a homework keyword gets the homework reply, whatever surrounds it |
| EduConversation.AnswerNonEmpty | edulink-agent/src/edulink_agent/conversation.py:10-33 | every answer is non-empty unless it is the stored summary and that is empty |
| EduConversation.HomeworkReplyShape | edulink-agent/src/edulink_agent/conversation.py:36-46 | the fixed line iff nothing is outstanding; otherwise the intro on its own line first |
| EduConversation.MailReplyShape | edulink-agent/src/edulink_agent/conversation.py:70-79 | the fixed line iff no messages; otherwise the intro on its own line first |
| EduConversation.BehaviourReplyShape | edulink-agent/src/edulink_agent/conversation.py:49-67 | "couldn't retrieve" iff no total and no entries; the total line first iff known; the entries intro otherwise; the no-entries line when there are none |
| EduConversation.MailBulletSummary | edulink-agent/src/edulink_agent/conversation.py:77-78 | a bullet ends with " — " + the summary iff there is one, else with the subject |
| Calendar.Weekday | tee-time-agent/src/tee_time_agent/date_window.py:38 | `weekday()` is in 0..6, with 0001-01-01 a Monday |
| Calendar.WeekdayShift | tee-time-agent/src/tee_time_agent/date_window.py:53 | k days later the weekday moves on by k modulo 7 |
| Calendar.AddDays | tee-time-agent/src/tee_time_agent/date_window.py:53 | `date + timedelta(days=k)` succeeds iff the days are in range and the result is a valid date, and is then n + k |
| Calendar.Iso | tee-time-agent/src/tee_time_agent/date_window.py:30 | `isoformat()` is 10 characters with "-" at positions 4 and 7 |
| Calendar.ParseIso | tee-time-agent/src/tee_time_agent/main.py:94 | an accepted text has 10 characters |
| Calendar.ParseIsoIso | tee-time-agent/src/tee_time_agent/main.py:94 | parsing a date's ISO text gives the date back |
| Calendar.IsoParseIso | tee-time-agent/src/tee_time_agent/main.py:94 | an accepted text is the ISO text of the date it parses to |
| Calendar.FromToOrdinal | tee-time-agent/src/tee_time_agent/date_window.py:26 | every valid year/month/day survives the trip through the ordinal |
| Calendar.FromOrdinalInjective | tee-time-agent/src/tee_time_agent/date_window.py:26 | distinct ordinals are distinct dates |
| Calendar.LongDate | edulink-agent/src/edulink_agent/summariser.py:17 | `%A %d %B %Y` starts with the weekday's name |
| Calendar.ShortDate | edulink-agent/src/edulink_agent/summariser.py:26 | `%d %b %Y` has spaces at positions 2 and 6 |
| Text.Strip | edulink-agent/src/edulink_agent/utils.py:61 | `str.strip()` never lengthens, leaves no surrounding whitespace, and gives "" iff all whitespace |
| Text.Lower | edulink-agent/src/edulink_agent/conversation.py:16 | lower-casing keeps the length and maps each character |
| Text.Find | tee-time-agent/src/tee_time_agent/ollama_client.py:175 | the first occurrence, or none at all |
| Text.Split | tee-time-agent/src/tee_time_agent/ollama_client.py:176 | the parts join back to the text, none contains the separator, and there is one part iff the separator is absent |
| Text.ParseIntToStr | edulink-agent/src/edulink_agent/scraper.py:175 | `int(str(n)) == n` |
| PyJson.Lookup | tee-time-agent/src/tee_time_agent/ollama_client.py:60 | a key's value is present iff some member has that key |
| PyJson.Get | tee-time-agent/src/tee_time_agent/ollama_client.py:49 | `.get` succeeds iff on a dict, returns the default for an absent key, and otherwise raises `AttributeError` |
| PyJson.Iterate | tee-time-agent/src/tee_time_agent/ollama_client.py:66 | iteration succeeds exactly for lists, strings and dicts, otherwise raises `TypeError`; a list yields its items and a string its characters |
| PyJson.Str | tee-time-agent/src/tee_time_agent/ollama_client.py:49 | `str()` of a string is itself; of anything else it is non-empty |
| PyJson.ToInt | tee-time-agent/src/tee_time_agent/ollama_client.py:164 | `int()` of ints, bools and decimal strings; None for the rest |
| Sorting.Sort | tee-time-agent/src/tee_time_agent/adk_agent.py:148 | `sorted()` is a permutation |
| Sorting.SortSorted | tee-time-agent/src/tee_time_agent/adk_agent.py:148 | `sorted()` is ascending |
| Sorting.SortedUnique | tee-time-agent/src/tee_time_agent/adk_agent.py:148 | an ascending permutation is unique |

## Left out

- Playwright I/O in `playwright_client.py`: browser launch, page navigation, waits and table capture. These are inputs: a landing URL or launch error, a fetch outcome per URL, and an optional closing error.
- BeautifulSoup DOM selection in `scraper.py`: a table is its header-cell texts and its body rows' cell texts.
- `_extract_total_achievement_points` uses regular expressions and DOM heuristics over page text, so the total points are an input of the report.
- The edulink `collect_report` and page-level plumbing (`_login`, `_launch_browser`, `_stabilise`, navigation) are not part of this model.
- HTTP calls (httpx), `json.loads` and the Telegram request are parameters:
  - the generate call returns a decoded JSON value or an error for each attempt number;
  - the decoder is a partial function;
  - the Telegram post returns a status and body or a transport error.
- Real-time waits: the tenacity back-offs are recorded as whole seconds, and no time passes.
- JSON floats are not modelled (floating point). `_coerce_int` on a float and `str()` of a float are outside the value model.
- The fixed text of the prompt around the embedded fields is not modelled. `OllamaClient.BuildPrompt` keeps only what the prompt carries from the snapshot.
- OllamaClient.BuildPrompt: the `textwrap.dedent(...).strip()` applied to the finished prompt is not modelled. Dedent empties every whitespace-only line, including those inside the embedded HTML and text. When all non-blank lines share a margin it also removes that margin from the embedded lines. So the fragments reach the model whole only up to that rewriting.
- EduScraper.BehaviourRow and EduScraper.MailRow: the model assumes that the pydantic field `date: Optional[date]` accepts a calendar date. That annotation is a string under `from __future__ import annotations`, and the field's own name `date` shadows the imported type inside the class body, with the default None. How pydantic resolves that name is not modelled. If it resolves to the default, the field accepts only None, and building an entry for every row dated the target raises a validation error.
- The request temperature and the HTTP timeouts are not modelled.
- `repr()` of nested values uses a simplified string escaping. Non-ASCII escapes (`\x..`, `\u....`) are not modelled.
- `str.lower()` is modelled for ASCII letters only.
- `date.fromisoformat` is modelled for the `YYYY-MM-DD` form only. The extra forms Python 3.11 accepts (`YYYYMMDD`, week dates) are not modelled.
- The dateutil parser (`dayfirst=True, fuzzy=True`) is a parameter of `EduUtils.ParseDate`.
- `strftime` uses the English C locale.
- The clock, time zones and `yesterday` are inputs: the clock's date and the report's generation date.
- `int()` is modelled on ASCII digits with optional sign, surrounding whitespace and single underscores between digits. Unicode digits are not modelled.
- The ADK runner, the construction of `Event` objects, `cli`, `run`, `configure_logging` and `parse_args` are not modelled. An event is its text and its end-of-agent flag.
- Pydantic settings loading is not modelled, nor whether pydantic passes the validator a mapping. `TeeConfig.DefaultLoginUrl` works over a string map as written.
- The edulink `api.py`, `main.py` and `config.py`, and the package `__init__.py`, are not part of this model.
- Logging is not modelled.
- `TargetDate.verbose` is not modelled: nothing in the core reads it.
- Async code is modelled as sequential steps; every await in the core is sequential.
- EduConversation.AnswerQuestion: a function without its own postcondition. Its routing is stated by `AnswerIgnoresCase`, `HomeworkComesFirst` and `AnswerNonEmpty`.
