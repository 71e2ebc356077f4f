# Dental cavity analyser: the rules behind the screen

`app.py` is a Streamlit page. It sends a tooth photo to a hosted vision model, reads back a JSON analysis, and shows the result. It also offers a narration script and a plain-text report for download. Around the UI and network code sit a few pure rules, and this Dafny project models those rules and proves properties about them:

- **Reply handling** (`analyze_tooth_image`): turns the HTTP status, the response body and the model's reply text into either the decoded analysis or one of three error records. It takes the text from the first `{` through the last `}` with Python slice semantics. `json.loads` is a parameter: a partial decoder `string -> Option<Object>`.
- **Error-key dispatch**: every later step treats a dictionary holding an `"error"` key as a failure. That includes a reply that decoded successfully but carries such a key itself.
- **Results panel** (`display_analysis_results`): the error banner, the one-character `stage-N` CSS class derived from the free-text cavity stage, and the emergency alert.
- **Narration** (`generate_audio_summary`): the apology for an error record. Otherwise a fixed sequence of sentences, each present under its own condition.
- **Report** (written inline in `main`): a fixed template filled from the same dictionary plus a timestamp. The timestamp is a parameter, because the source reads the clock.
- **Flow** (`main`): the panel is always shown. The script and report are produced only for an analysis without an `"error"` key.

Modules:

| module | file | contents |
|---|---|---|
| `Wrappers` | `wrappers.dfy` | `Option` |
| `Text` | `text.dfy` | `str.find`/`rfind`, slicing, substring test, `str.split()`, `str.join`, splitting at a character, decimal text |
| `Json` | `json.dfy` | decoded values, the dictionary, typed `.get` with defaults |
| `Analysis` | `analysis.dfy` | the reply handling |
| `Display` | `display.dfy` | the results panel |
| `Narration` | `narration.dfy` | the narration script |
| `Report` | `report.dfy` | the report text |
| `App` | `app.dfy` | one pass of the flow |

Where one might expect otherwise, the model follows the code:

- The narration reads out every entry of each list. It does not stop after the first three issues or the first two treatments and steps.
- The report has no placeholder text ("None identified", "Not specified") for an empty list. The line under the title is simply empty.
- The report has no immediate-concerns section.

The report's bullet is the three characters U+201A U+00C4 U+00A2 followed by a space, as the source file spells it: a bullet sign decoded with the wrong character set. The template opens with a line break. It closes with a line break and the 24 spaces that indent the closing quotes.

## Model

| member | source | states |
|---|---|---|
| Text.Find | app.py:147 | `find` gives -1 exactly when the character is absent, and otherwise the index of its first occurrence |
| Text.RFind | app.py:148 | `rfind` gives -1 exactly when the character is absent, and otherwise the index of its last occurrence |
| Text.PySlice | app.py:150 | a Python slice is empty when the end comes before the start, and otherwise holds the characters between them |
| Text.Contains | app.py:176 | the `in` test on strings holds exactly when the pattern occurs at some position |
| Text.Tokens | app.py:177 | `split()` yields only non-empty runs of non-whitespace |
| Text.Join | app.py:289 | `sep.join` gives the empty text for no entries and the entry itself for one; with more, the text is at least as long as the first entry, a separator and the last entry |
| Text.JoinEntry | app.py:289 | every entry occurs whole in the joined text, right after the earlier entries and their separators, so joining drops nothing |
| Text.ParseIntToString | app.py:157 | the status code written into the error message is a sign and decimal digits, and reads back as that same code |
| Json.GetText | app.py:172-173 | `.get(key, default)` on a text field is the default exactly when the key is missing, and otherwise the stored string |
| Json.GetList | app.py:287 | `.get(key, [])` on a list field is empty when the key is missing, and otherwise holds the stored strings, one for one and in order |
| Analysis.StatusMessage | app.py:157 | the failed-status message starts with the fixed prefix "API request failed with status " and goes on with the code |
| Analysis.JsonSlice | app.py:147-150 | no candidate exactly when `{` or `}` is missing; otherwise the text from the first `{` through the last `}`, or empty when the last `}` comes first |
| Analysis.AnalyzeReply | app.py:140-157 | only status 200 is a success; a missing brace gives "no JSON" with the reply text; otherwise the result is the decoder's result on exactly that slice, and a parse failure keeps the reply text |
| Analysis.Record | app.py:151-157 | a decoded object passes through unchanged; a missing brace gives exactly the "No valid JSON found in response" record and a decoding failure exactly the "Failed to parse JSON response" record, each with the reply text as `raw_response`; a failed status gives exactly the status-message record with the body as `details` |
| Analysis.AnalyzeToothImage | app.py:140-157 | a failed status gives an error whose `details` is the body; a reply without both braces gives exactly the "No valid JSON found in response" record carrying the reply text unchanged |
| Analysis.FailureDispatch | app.py:165 | downstream failure holds exactly for an error record or a decoded object that holds an `"error"` key |
| Analysis.SliceShape | app.py:147-150 | a non-empty slice starts with `{` and ends with `}`, sits at the first `{`, and leaves no `{` before it and no `}` after it |
| Analysis.UndecodableSliceFails | app.py:145-155 | a slice the decoder rejects gives exactly the "Failed to parse JSON response" record with the whole reply text |
| Analysis.ReversedBracesFail | app.py:147-155 | when the last `}` comes before the first `{`, the slice is empty and the result is the parse-failure record with the reply text, never a success |
| Analysis.StatusFailureCarriesCode | app.py:140-157 | a status other than 200 gives exactly the status-message error with the body as `details`, and the code in the message reads back as the status |
| Analysis.DecodedVerbatim | app.py:149-151 | a successful decode of the slice is the result, with no key added, removed or changed |
| Analysis.WholeReplyDecoded | app.py:147-150 | a reply that is exactly one object is passed to the decoder whole |
| Analysis.ProseIgnored | app.py:147-150 | text around an object that holds no `{` before it and no `}` after it is dropped before decoding |
| Display.StageClass | app.py:175-177 | the class has one character; anything but "0" requires "Stage" in the text and is a non-space character of the text |
| Display.ScanStageClass | app.py:175-177 | a single left-to-right scan gives the same class as the token-based rule on every input |
| Display.ShowResults | app.py:165-187 | the error banner appears exactly for an error record, with the raw reply when there is one; otherwise the stage and severity (with defaults), the CSS class given by the stage rule, and the alert exactly for "High" or "Critical"; the raw reply shown is the record's own |
| Display.IsEmergency | app.py:186-187 | the alert test is membership of the level in the list "High", "Critical" |
| Display.EmergencyCaseSensitive | app.py:284 | the test is exact and case-sensitive: "High" and "Critical" raise it; "high", "HIGH", "critical", the default "None" and "Medium" do not |
| Display.UnknownHasNoStage | app.py:172-177 | the default stage "Unknown" gives class "0" |
| Display.EarlyStageGivesS | app.py:175-177 | "Early Stage 2" gives class "S", not a digit |
| Display.StageThreeGivesThree | app.py:175-177 | "Stage 3" gives class "3" |
| Narration.Narrate | app.py:273-302 | an error record gets the apology; otherwise the script opens with the summary sentence (default "Unknown" stage and severity) and ends with the visit sentence (default "As soon as possible") |
| Narration.Candidates | app.py:278-300 | the six possible sentences, one of each kind, in the fixed order |
| Narration.Filter | app.py:284-297 | a sentence is kept exactly when it is a candidate and its condition holds |
| Narration.FilterOrdered | app.py:282-300 | keeping sentences preserves their order |
| Narration.Plan | app.py:278-300 | the sentences spoken: two to six of them, in the fixed order, summary first and visit last, each kept exactly when its condition holds |
| Narration.NarrateFollowsPlan | app.py:273-302 | a non-error script is exactly the planned sentences spoken one after another |
| Narration.ApologyOnlyForErrors | app.py:275-276 | the script is the apology exactly when the dictionary holds an `"error"` key |
| Narration.PlanClauses | app.py:284-297 | the emergency sentence is present exactly for "High" or "Critical" (case-sensitive, default "None"), and each list sentence exactly for a non-empty list |
| Narration.PlanContents | app.py:284-297 | each spoken sentence carries the dictionary's own level or list |
| Narration.ClauseSpoken | app.py:282-300 | every planned sentence occurs whole in the script |
| Narration.EveryEntrySpoken | app.py:287-297 | every entry of the issues, treatments and home-care lists occurs in the script, so no list is cut short |
| Report.Render | app.py:446-470 | the report opens with the top block (title, timestamp, stage, severity, emergency level with their defaults) and ends with the visit line and the closing indentation |
| Report.RenderIsLines | app.py:446-470 | the report is its lines joined by line breaks: the top block, the five titled blocks with a blank line between them, and the closing lines |
| Report.SectionJoin | app.py:454-467 | a titled block is its title and one bullet line per entry, with a single empty line for an empty list |
| Report.ReportLinesRoundTrip | app.py:446-470 | when no value holds a line break, splitting the report at line breaks gives back exactly its lines |
| Report.EntryInReport | app.py:454-467 | for any values, every entry of every printed list occurs in the report right behind the bullet |
| Report.EntryIsBulletLine | app.py:454-467 | when no printed value holds a line break, every entry of every printed list is a report line of its own, behind the bullet |
| Report.FieldsOnTheirOwnLines | app.py:447-470 | when no printed value holds a line break, the title, timestamp, stage, severity, emergency level and visit advice each stand on their own line at a fixed place |
| App.Run | app.py:380-446 | the panel is always shown; the script and the report exist exactly when there is no `"error"` key, and the error banner appears exactly when there is one |
| App.FailedStatusOffersNothing | app.py:140-169 | a status other than 200 shows the status-message banner with no raw reply and offers nothing for download |
| App.DecodedErrorIsFailure | app.py:151-169 | a decoded reply that holds an `"error"` key shows that value as the error and offers nothing for download |
| App.DecodedAnalysisShown | app.py:380-446 | a decoded reply without an `"error"` key shows its own stage and gets the script and report built from it |

## Left out

- The HTTP request, its headers and body, and `response.json()` with the indexing into `choices`: the status, the body text and the reply text are inputs.
- The catch-all exception path ("Request failed: ...", with no `raw_response`): it covers network and indexing exceptions, and also any exception `json.loads` raises other than `JSONDecodeError`, such as a `RecursionError` on a deeply nested slice. The `Decoder` parameter sends every rejection to the "Failed to parse JSON response" record instead.
- The internals of `json.loads`: it is a parameter. Any success is an object, because the slice starts with `{`. That `json.loads("")` fails is a hypothesis (`RejectsEmpty`) of `Analysis.ReversedBracesFail`.
- `encode_image`: JPEG and base64 encoding of binary image data.
- `generate_edge_tts_audio`, `asyncio.run`, temporary files and the MP3 download: an external speech service and file I/O.
- The Streamlit UI: CSS, layout, widgets, the download and save buttons, session state, and the cavity-stage guide table. `App.Run` computes the script and the report whenever the flow would offer them.
- The rest of the results panel (app.py:195-271): the bullet lists of issues, causes, treatments, prevention tips and home care; the "No specific issues identified" line for an empty issue list; the affected-teeth and immediate-concerns blocks shown only when non-empty; the visit timeline; the estimated timeline with default "Not specified"; the Yes/No cavity-present line; the prognosis shown unless it is "Not provided"; and the additional notes shown when non-empty. These are display of fields and are not modelled.
- Clock readings: the report's timestamp is a parameter, and file names are not modelled.
- The duplicated fragment after the first `main()` call (app.py:503-632). It uses undefined names and makes the file invalid Python, so it describes no reachable behaviour.
- Fields of the wrong type, such as a string where a list is expected, or a number where text is expected: `Conforms` assumes text fields hold strings and list fields hold lists of strings. Python would iterate characters or raise.
- Floating-point JSON numbers: `Json.Value` has integers only. None of the modelled rules reads a number.
- Report.ReportLinesRoundTrip: holds only when no printed value contains a line break, because a value with a line break spreads over several report lines.
- Report.EntryIsBulletLine: holds only when no printed value contains a line break; an entry such as "a\nb" puts "b" on a line without a bullet. `Report.EntryInReport` states what holds for every input.
- Report.FieldsOnTheirOwnLines: holds only when no printed value contains a line break, because such a value moves every later line down.
- Text.Tokens: its contract states only that every token is non-empty and free of whitespace. That the tokens are the maximal runs, in order, is stated by `Text.TokensWord` and `Text.TokensSkipSpace`. Whitespace is the set of characters `str.isspace` accepts.
- Text.Join: its contract states the empty and single-entry cases and a length bound. What the joined text holds is stated by `Text.JoinEntry`, `Text.JoinAppend` and `Text.SplitJoin`.
