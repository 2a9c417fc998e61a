# Malware-analysis upload site: verified model of its deterministic core

This project models, in Dafny, the deterministic rules of a small malware-analysis web site. A
user uploads a Python script, bytecode file or Windows executable, and a backend reports URLs,
commands, behaviour patterns, Discord webhooks and a score. The model covers two groups of rules.

- **The browser front-ends.**
  - `frontend/script.js`, modules `Uploader` and `HtmlEscape`. The pre-upload checks: a 35 MiB
    ceiling first, then an extension allow-list. Also the folding of every failure into one
    escaped error message, the `abortController` slot, and `escapeHtml`.
  - `script.js`, module `Presenter`. The Low/Medium/High risk rule, the detection and summary
    texts, display-only truncation to 500 strings, 50 URLs and 100 behaviour entries, the
    `uploadAndAnalyze` outcome chain, and the rule that only the first dropped file is analysed.
  - `js/script.js`, module `LegacyPresenter`. The older page: default risk `medium` and its
    capitalisation, the summary built sentence by sentence, and the strings tab cut at 200 with
    an `...and K more` line. URLs are cut at 50.
- **The Python backends.**
  - `app.py`, module `ExecutableAnalysis`: the string filter, the first-success pycdc loop, and
    the per-string scan. It also covers the final filter, prefix, de-duplicate, sort and cap of
    the URL, command and behaviour lists.
  - `ripanalyzer.py`, module `RipAnalyzer`. The `RattersRipAnalyzer` object's detections, webhooks
    and indicators of compromise (IOCs), its score, webhook de-duplication, registry severity,
    suffix dispatch and URL partition.
  - `app/main.py`, module `UploadGate`: `allowed_file` and the validation cascade of `upload_file`.
  - `backend/pybit.py`, module `PyBit`: magic-byte file-type detection, the dispatch on it, and the
    record `analyze_exe` builds.
  - `app/utils/pyinstaller/pyinstaller.py`, module `PyInstaller`: the `PYZ\0` trailer and the
    table-of-contents loop.
  - `app/utils/pyaes.py`, module `PyAes`: the repeating-key XOR fallback.
  - `app/methods/notobf.py` and `app/methods/luna.py`, modules `NotObf` and `Luna`: the two
    webhook finders.

Shared helpers are in three modules. `Common` holds `Option`, `Result` and the browser's file
handle. `Text` holds the string predicates of JavaScript and Python (`startsWith`, `includes`,
`lower`, `join`, `rsplit`, decimal printing). `PyOrder` holds Python's ordering of `str` and
`sorted(set(xs))`.

Objects that the source updates in place are classes: `MalwareAnalyzer`, both pages,
`AnalysisResult`, `RattersRipAnalyzer` and `PyInstArchive`. Loops in the source are loops here,
each proved against a function that states what it computes. Oracles stand in for regular
expressions, subprocesses, file reads, `pefile`, `marshal`, JSON parsing and float formatting.
Each oracle is a parameter or a field of an environment record.

Where the design description and the code disagree, the model follows the code:

- The code has no `Cancelled` outcome, no `Timeout` error kind and no `Malformed` error kind. A
  timeout is an ordinary error with the message `Server took too long to respond`. Nothing calls
  `abort()`.
- The size ceiling is the literal 35 MiB in `frontend/script.js`. It is not configuration.
- `script.js` and `js/script.js` write results with `textContent`, so only `frontend/script.js`
  escapes HTML.
- In `ripanalyzer.py`, `_analyze_pe` passes the parsed PE object, not text, to
  `_scan_for_registry_operations` (line 126). `re.search` then raises a `TypeError`, which the
  surrounding `except` turns into a `PE Analysis Error` detection. `AnalyzePeStructure` models
  this as written: after a successful parse the block always ends with that detection.

## Model

| member | source | states |
|---|---|---|
| `UploadGate.AllowedFileIff` | app/main.py:33-37 | a name is accepted exactly when it contains a dot and the lower-cased text after its last dot is one of `exe`, `pyc`, `jar`, `dll` |
| `UploadGate.AllowedFileExtension` | app/main.py:35-37 | for a stem and an extension without dots, `stem.ext` is accepted if and only if the lower-cased extension is in the allow-list |
| `UploadGate.AllowedUpperCase` | app/main.py:37 | the extension check ignores case: `x.tar.EXE` is accepted |
| `UploadGate.TrailingDotRejected` | app/main.py:36-37 | a name ending in a dot has an empty extension and is rejected |
| `UploadGate.LastExtensionDecides` | app/main.py:37 | only the last extension counts: `x.exe.txt` is rejected |
| `UploadGate.UploadCascade` | app/main.py:43-79 | a missing part gives 400 `No file part`; an empty name gives 400 `No selected file`; a disallowed name gives 400 `File type not allowed`. A 400 happens exactly in those three cases. The simulated analysis is returned exactly when the name is allowed and processing succeeds, and it reports the processed size and completion |
| `Uploader.SomeEndsWith` | frontend/script.js:82-84 | true exactly when the name ends with one of the listed extensions |
| `Uploader.IsValidFileIff` | frontend/script.js:81-85 | a file is valid exactly when its lower-cased name ends with `.py`, `.pyc`, `.pyz` or `.exe` |
| `Uploader.CheckFile` | frontend/script.js:19-31 | too large exactly when the size exceeds 35 MiB; unsupported exactly when within the limit but of an invalid type; accepted exactly when both checks pass |
| `Uploader.UploadResult` | frontend/script.js:73-78 | an OK response yields its parsed body; a non-OK one yields an error carrying the body's non-empty message when there is one, and `Server error (<status>)` otherwise |
| `Uploader.DisplayedError` | frontend/script.js:46-51 | a message containing `Failed to fetch` is replaced by the connection notice; any other message is shown unchanged |
| `Uploader.SizeLimitBoundary` | frontend/script.js:19-26 | a file of 35 MiB + 1 byte is rejected as too large before anything is sent, whatever the server would do; a file of exactly 35 MiB passes the size check |
| `Uploader.RejectionPrecedence` | frontend/script.js:17-42 | a file that fails validation has the same outcome whatever the network does, and an oversized file reports the size error even when its type is also wrong |
| `Uploader.NonOkMessage` | frontend/script.js:73-76 | every non-OK response is an error; a non-empty server message is passed through; an unparsable body gives `Server error (<status>)` |
| `Uploader.FetchFailureShownAsConnection` | frontend/script.js:46-51 | a valid file whose fetch fails with `Failed to fetch` ends on the error panel showing the escaped connection notice |
| `Uploader.SuccessNoticeEscaped` | frontend/script.js:124-131 | the success notice has no markup characters and is shown verbatim after escaping |
| `Uploader.ErrorPanelSafe` | frontend/script.js:113-143 | whatever the outcome, the text placed in the error panel or the results panel is free of raw markup |
| `Uploader.MalwareAnalyzer.constructor` | frontend/script.js:2-14 | a new analyzer holds no abort controller, shows no progress, has a blank results panel and has sent nothing |
| `Uploader.MalwareAnalyzer.ProcessFile` | frontend/script.js:16-57 | afterwards the abort controller is cleared and progress hidden; the file is sent exactly when it passes both checks; the panel shows the outcome of the validation, the race and the response |
| `Uploader.MalwareAnalyzer.ShowOutcome` | frontend/script.js:44-51 | a successful upload leaves the results panel with the escaped JSON; any failure leaves the error panel with the escaped message, where a `Failed to fetch` message becomes the connection notice |
| `Uploader.MalwareAnalyzer.DisplayResults` | frontend/script.js:133-143 | the results panel holds the pretty-printed JSON, HTML-escaped |
| `Uploader.MalwareAnalyzer.ShowError` | frontend/script.js:113-122 | the results panel is replaced by an error box holding the HTML-escaped message |
| `HtmlEscape.ReplaceChainIsEscapeEach` | frontend/script.js:147-152 | the five chained `replace` calls, `&` first, equal escaping each character independently, so no entity is escaped twice |
| `HtmlEscape.UnescapeEscapeEach` | frontend/script.js:145-153 | decoding the five entities undoes character-wise escaping |
| `HtmlEscape.EscapeHtmlRoundTrip` | frontend/script.js:145-153 | decoding the entities recovers any escaped text exactly |
| `HtmlEscape.EscapeHtmlSafe` | frontend/script.js:145-153 | escaped text, including the empty string returned for a missing value, has no `<`, `>`, quote or apostrophe, and every `&` in it starts one of the five entities |
| `HtmlEscape.EscapePlainText` | frontend/script.js:145-153 | text without any of the five special characters is left unchanged |
| `Presenter.AnyHighSeverity` | script.js:227 | true exactly when some behaviour entry contains `keylog` or `inject` |
| `Presenter.RiskLowIff` | script.js:219-222 | the risk is Low exactly when there are no URLs and no commands |
| `Presenter.RiskHighIff` | script.js:219-231 | the risk is High exactly when URLs or commands exist and at least two of the three signs hold: more than 3 URLs, more than 2 commands, a behaviour entry mentioning `keylog` or `inject` |
| `Presenter.RiskOrderIndependent` | script.js:224-230 | reordering the behaviour list does not change the risk |
| `Presenter.DetectionMatchesRisk` | script.js:164-168 | the detection line reads `Suspicious activity found` exactly when the risk is not Low, and `No threats detected` exactly when it is |
| `Presenter.SummaryOrder` | script.js:177-183 | with nothing to report the summary is `No obvious malicious indicators`; a Python file with URLs and commands gets the Python, URL-count and command-count parts in that order, joined by ` • ` |
| `Presenter.PartsDistinct` | script.js:178-180 | the Python, URL-count and command-count parts can never be equal to each other |
| `Presenter.SummaryPartsOrder` | script.js:177-183 | for every report, each part is present exactly when its data is; the parts present come in the order Python, URL count, command count; there are none exactly when there is nothing to report; otherwise the summary is the parts joined by ` • ` |
| `Presenter.ShownStrings` | script.js:186-187 | the strings tab shows the first 500 strings, or all of them when there are fewer |
| `Presenter.ShownBehavior` | script.js:211-216 | the behaviour tab shows the first 100 entries, or all of them when there are fewer |
| `Presenter.UrlItemsArePrefix` | script.js:190-208 | the URL list links the first 50 URLs in order and never has more than 50 items |
| `Presenter.OutcomeCases` | script.js:134-151 | a non-OK answer fails with `Analysis failed`; an OK body with a non-empty `error` fails with that error; any other OK body is shown |
| `Presenter.AnalysisPage.constructor` | script.js:1-4 | a fresh page has nothing loading, the analysis section hidden and no upload sent |
| `Presenter.AnalysisPage.SetLoadingState` | script.js:98-116 | the loading marker is added to, or removed from, every element that shows it and no other |
| `Presenter.AnalysisPage.ResetAnalysisUI` | script.js:87-96 | every result field shows its placeholder text and the URL list is empty |
| `Presenter.AnalysisPage.DisplayAnalysisResults` | script.js:154-217 | every result field is set from the report: name, size, type, detection, risk and its CSS class, summary, strings, URL list and behaviour |
| `Presenter.AnalysisPage.ShowVerdict` | script.js:159-174 | the type, detection and risk fields follow the report and the risk rule |
| `Presenter.AnalysisPage.ShowFindings` | script.js:176-216 | the summary, strings, URL list and behaviour fields follow the report |
| `Presenter.AnalysisPage.BuildSummaryParts` | script.js:177-180 | the loop builds exactly the sentence list that the summary rule describes |
| `Presenter.AnalysisPage.RenderUrlList` | script.js:189-208 | the URL list becomes the items for the given URLs |
| `Presenter.AnalysisPage.DisplayError` | script.js:233-242 | every field shows the error state, and the message becomes the summary |
| `Presenter.AnalysisPage.UploadAndAnalyze` | script.js:126-152 | the file is sent once, loading ends in both outcomes, and the page shows either the results, with the report's name and size, or the error, with the name and size line left as it was |
| `Presenter.AnalysisPage.OnFiles` | script.js:51-85 | no files leaves the page unchanged; otherwise only the first file is sent, the section is shown, and loading is switched on and then off; after success the size line shows the server's size, and after an error the file's own name and size stay |
| `LegacyPresenter.Risk` | js/script.js:137 | the risk text is never empty, since a missing or empty risk becomes `medium` |
| `LegacyPresenter.RiskDisplay` | js/script.js:137-139 | a missing risk is displayed as `Medium` with class `risk-level medium`; a present risk is shown with its first letter upper-cased and the rest unchanged |
| `LegacyPresenter.Opening` | js/script.js:142 | the opening sentence names the lower-cased type, or `an unknown executable` when that is empty |
| `LegacyPresenter.SummaryOpening` | js/script.js:141-156 | the summary starts with the opening sentence; with no detections and no URLs it is that sentence alone, or that sentence plus the PE sentence; a PE file's summary ends with its section count; the `Detected as:` sentence follows the opening exactly when there are detections |
| `LegacyPresenter.SummaryUrlSentence` | js/script.js:144-150 | the `Found N potential URLs.` sentence comes right after the detection sentence, or after the opening when there is none, exactly when there are URLs |
| `LegacyPresenter.SummaryEnding` | js/script.js:144-154 | the summary ends with the last sentence whose data is present: the PE sentence after the URL count, the URL count, or the detection sentence, with nothing between |
| `LegacyPresenter.StringsTabRemainder` | js/script.js:158-163 | up to 200 strings are shown joined by newlines; beyond that the text starts with the first 200 joined by newlines and then `\n...and `, and ends with `...and K more`, where K reads back as the number hidden |
| `LegacyPresenter.UrlLinks` | js/script.js:165-177 | the links are a prefix of the URLs: all of them when there are at most 50, else exactly the first 50 |
| `LegacyPresenter.OutcomeCases` | js/script.js:106-125 | a non-OK answer fails with `Analysis failed`; a body with a truthy `error` fails with it; otherwise the body is displayed |
| `LegacyPresenter.LegacyPage.constructor` | js/script.js:1-4 | a fresh page has its section hidden, no upload sent and no links |
| `LegacyPresenter.LegacyPage.DisplayAnalysisResults` | js/script.js:128-182 | type, detection and risk are always set. A missing type raises at the summary and leaves the later fields unchanged; otherwise summary, strings, links and deobfuscated text are all set |
| `LegacyPresenter.LegacyPage.BuildSummary` | js/script.js:141-156 | the summary field holds the sentence-by-sentence summary |
| `LegacyPresenter.LegacyPage.ShowStringsAndLinks` | js/script.js:158-177 | the strings tab and the link list follow the truncation rules |
| `LegacyPresenter.LegacyPage.ShowError` | js/script.js:118-125 | the error state is shown, with the message as summary |
| `LegacyPresenter.LegacyPage.UploadAndAnalyze` | js/script.js:98-126 | the file is sent once; a failure, including the exception a missing type raises while results are displayed, ends in the error state |
| `LegacyPresenter.LegacyPage.OnFiles` | js/script.js:51-88 | no files leaves the page unchanged; otherwise only the first file is sent, its name and size are shown and the section is revealed |
| `ExecutableAnalysis.Prefixed` | app.py:213 | the result always starts with `http://` or `https://`, and a URL that already does is unchanged |
| `ExecutableAnalysis.LongPrefixedMembers` | app.py:212-215 | the kept URLs are exactly the prefixed forms of the candidates longer than 8 characters |
| `ExecutableAnalysis.LongCommandsMembers` | app.py:218-220 | the kept commands are exactly those longer than 10 characters |
| `ExecutableAnalysis.FinalUrlsShape` | app.py:211-216 | the final URL list is strictly sorted, so free of duplicates, has at most 100 entries, and each entry is a prefixed candidate longer than 8 characters |
| `ExecutableAnalysis.FinalUrlsCap` | app.py:211-216 | when at most 100 distinct URLs remain, none is lost; when the cap drops one, every URL kept sorts before it |
| `ExecutableAnalysis.CapKeepsLeast` | app.py:216 | cutting a sorted list at 100 keeps exactly the least entries |
| `ExecutableAnalysis.FinalCommandsShape` | app.py:218-221 | the final command list is strictly sorted, has at most 100 entries, and holds only found commands longer than 10 characters |
| `ExecutableAnalysis.FinalBehaviorShape` | app.py:223-225 | the final behaviour list is strictly sorted, has at most 100 entries, and holds only found entries |
| `ExecutableAnalysis.NormalisationIdempotent` | app.py:211-225 | applying the final filter, sort and cap twice gives the same lists as applying it once |
| `ExecutableAnalysis.KeptUrlsMembers` | app.py:185-188 | a candidate URL is kept exactly when it matches none of the excluded hosts |
| `ExecutableAnalysis.UrlsFoundShape` | app.py:183-188 | each URL found comes from some string and is not an excluded host |
| `ExecutableAnalysis.CommandsFoundShape` | app.py:190-192 | each command found is the first 300 characters of a string the command pattern matched |
| `ExecutableAnalysis.PatternHitsShape` | app.py:194-197 | each behaviour hit is a description followed by `: ` and the first 300 characters of the string, for a pattern found in the lower-cased string |
| `ExecutableAnalysis.BehaviorFoundShape` | app.py:194-197 | the same holds for every behaviour entry found across all strings |
| `ExecutableAnalysis.MatchStarts` | app.py:205-209 | the case-insensitive matches of a keyword in the decompiled code are real occurrences, in text order, and never overlap |
| `ExecutableAnalysis.MatchStartsLeftmost` | app.py:205-209 | the search finds a keyword exactly when it occurs, and its first match is the leftmost occurrence |
| `ExecutableAnalysis.MatchEntriesSound` | app.py:205-209 | each entry for a keyword is its description, `: ` and the decompiled text where the keyword occurs, in its own case |
| `ExecutableAnalysis.MatchEntriesLeftmost` | app.py:205-209 | a keyword yields an entry exactly when it occurs, and its first entry is for its leftmost occurrence |
| `ExecutableAnalysis.DecompiledHitsMembers` | app.py:205-209 | the behaviour entries from the decompiled code are exactly the entries of the keywords, taken pattern by pattern |
| `ExecutableAnalysis.ExtractedStrings` | app.py:146-149 | at most 2000 strings are kept, in order, and all of them when fewer pass the filter |
| `ExecutableAnalysis.ExtractedStringsFilter` | app.py:146-149 | each kept string is an output line that is empty or has a letter; a non-empty line made only of digits, punctuation and underscores is never kept |
| `ExecutableAnalysis.RecordedFilesMembers` | app.py:93-97 | the recorded files are exactly the walked paths ending in `.pyc`, `.py`, `.dll`, `.pyd` or `.json` |
| `ExecutableAnalysis.DecompileFirstSuccess` | app.py:104-134 | decompiled text exists exactly when some `.pyc` file decompiles; it is the first such file's output, cut to 10000 characters |
| `ExecutableAnalysis.AnalysisResult.constructor` | app.py:44-57 | a new result has the name and size given and every list empty |
| `ExecutableAnalysis.AnalysisResult.ExtractPyInstaller` | app.py:80-102 | a successful extraction records the walked files with a kept extension; a timeout or failure records its warning and nothing else |
| `ExecutableAnalysis.AnalysisResult.DecompilePycFiles` | app.py:104-134 | the loop's warnings and decompiled text are those of the first-success scan |
| `ExecutableAnalysis.AnalysisResult.UnpackPyInstaller` | app.py:60-63 | the file is marked Python; the recorded files are exactly the kept walked files of a successful extraction; the decompiled text is the first-success scan's; the warnings grow by the extraction's warning and the scan's warnings, in that order |
| `ExecutableAnalysis.AnalysisResult.Prepare` | app.py:59-66 | the Python flag follows the PyInstaller marker; files, decompiled text and their warnings come only from unpacking a marked file; strings are the filtered output of a `strings` run that exits with 0; the warnings grow by the unpacking warnings, then the `strings` warning |
| `ExecutableAnalysis.AnalysisResult.ExtractStrings` | app.py:136-151 | exit code 0 stores the filtered lines; any other exit code changes nothing; a raised error adds its warning |
| `ExecutableAnalysis.AnalysisResult.BehaviorHits` | app.py:195-197 | the loop collects the pattern hits for one string |
| `ExecutableAnalysis.AnalysisResult.ScanStrings` | app.py:182-197 | each indicator list grows by exactly what the per-string scan finds |
| `ExecutableAnalysis.AnalysisResult.FindUrlsAndCommands` | app.py:153-225 | the indicator lists end as the normalised union of prior, string and decompiled findings, each strictly sorted and at most 100 long |
| `ExecutableAnalysis.AnalysisResult.AddDecompiledFindings` | app.py:199-209 | the decompiled text's findings are appended when that text is present |
| `ExecutableAnalysis.AnalysisResult.Normalise` | app.py:211-225 | each list is replaced by its final filtered, sorted and capped form |
| `ExecutableAnalysis.AnalyzeExecutable` | app.py:42-69 | the returned result carries the name and size, the Python flag, exactly the strings, files, decompiled text and warnings the tools' outcomes determine, and the normalised indicators of those strings and that text |
| `ExecutableAnalysis.PreparedResult` | app.py:44-66 | a new result with the name and size given, unpacked when marked and holding its strings, files, decompiled text and warnings as the tools' outcomes determine, with no indicators yet |
| `ExecutableAnalysis.AnalysisFacts` | app.py:59-69 | at most 2000 strings are kept; decompiled text exists only for a marked file whose extraction succeeded, and is the first decompiled `.pyc` output cut to 10000 characters; an unmarked file yields no files and only the `strings` warning, and its indicators come from its strings alone; a timed-out extraction warns first and decompiles nothing; each indicator list is strictly sorted and at most 100 long |
| `PyOrder.SortUniqueMembers` | app.py:216 | `sorted(set(xs))` holds exactly the members of `xs` |
| `PyOrder.SortUniqueOfSorted` | app.py:216 | a list that is already strictly sorted is returned unchanged |
| `PyOrder.StrictlySortedUnique` | app.py:216 | two strictly sorted lists with the same members are equal |
| `PyOrder.LessTotal` | app.py:216 | string order is total on distinct strings |
| `PyOrder.LessTransitive` | app.py:216 | string order is transitive |
| `RipAnalyzer.TotalPointsFormula` | ripanalyzer.py:365-371 | the detection points are 30 per critical, 15 per warning and 5 per other detection |
| `RipAnalyzer.ScoreFormula` | ripanalyzer.py:361-377 | the score is those points plus 20 per webhook, capped at 100, and lies in 0..100 |
| `RipAnalyzer.ScoreMonotone` | ripanalyzer.py:361-377 | adding a detection or a webhook never lowers the score |
| `RipAnalyzer.WebhookDetections` | ripanalyzer.py:296-300 | one detection per new webhook |
| `RipAnalyzer.WebhookDetectionsEach` | ripanalyzer.py:296-300 | the detection at each position is the webhook detection of the URL at that position, with `critical` severity and a description ending with the URL |
| `RipAnalyzer.NewWebhooksShape` | ripanalyzer.py:291-300 | newly recorded webhooks are distinct matches not seen before, and every match ends up recorded |
| `RipAnalyzer.FoundKeysMembers` | ripanalyzer.py:302-314 | a key is reported exactly when it occurs in the content |
| `RipAnalyzer.RegistrySeverity` | ripanalyzer.py:302-321 | at most one registry detection. None exactly when no listed key occurs. It is critical exactly when a malicious key occurs, and a warning otherwise |
| `RipAnalyzer.ItemDetectionsCount` | ripanalyzer.py:225-262 | one detection per listed item found, in list order |
| `RipAnalyzer.PartitionExact` | ripanalyzer.py:264-270 | the URLs split exactly into webhooks and other IOC URLs, with none lost or duplicated |
| `RipAnalyzer.KindOf` | ripanalyzer.py:69-74 | `.exe` selects the PE analysis; `.py` and `.pyc` select the Python analysis, unless the name also ends with `.exe`; anything else is generic |
| `RipAnalyzer.RattersRipAnalyzer.constructor` | ripanalyzer.py:19-58 | a new analyzer has no detections, webhooks or IOCs and empty hashes |
| `RipAnalyzer.RattersRipAnalyzer.FoundIn` | ripanalyzer.py:310-314 | the loop returns exactly the keys found in the content |
| `RipAnalyzer.RattersRipAnalyzer.Hits` | ripanalyzer.py:339-342 | the loop returns exactly the obfuscation patterns that match |
| `RipAnalyzer.RattersRipAnalyzer.AddDetection` | ripanalyzer.py:353-359 | exactly one detection is appended |
| `RipAnalyzer.RattersRipAnalyzer.CalculateMaliciousScore` | ripanalyzer.py:361-377 | the loop computes the score function, which lies in 0..100 |
| `RipAnalyzer.RattersRipAnalyzer.FindWebhooks` | ripanalyzer.py:283-300 | new webhooks are appended once each, with one critical detection per new webhook |
| `RipAnalyzer.RattersRipAnalyzer.ScanForRegistryOperations` | ripanalyzer.py:302-321 | appends the registry detection, if any |
| `RipAnalyzer.RattersRipAnalyzer.ScanItems` | ripanalyzer.py:225-262 | appends one detection per listed item found |
| `RipAnalyzer.RattersRipAnalyzer.ScanBrowserPaths` | ripanalyzer.py:246-253 | appends one detection per browser path found |
| `RipAnalyzer.RattersRipAnalyzer.PartitionUrls` | ripanalyzer.py:264-270 | webhook URLs go to the webhooks and all other URLs to the IOC list |
| `RipAnalyzer.RattersRipAnalyzer.ScanDetections` | ripanalyzer.py:225-262 | the content checks run in source order: constants, registry, functions, browser paths, directories |
| `RipAnalyzer.RattersRipAnalyzer.ScanFileStrings` | ripanalyzer.py:216-274 | webhooks, then content checks, then the URL partition, then the IPs, each appended as the source orders them |
| `RipAnalyzer.RattersRipAnalyzer.AnalyzePython` | ripanalyzer.py:138-174 | keyword detection, then webhooks, then the obfuscation and stealer hints, and no IOC changes |
| `RipAnalyzer.RattersRipAnalyzer.AddKeywordDetection` | ripanalyzer.py:144-155 | appends the keyword detection when some keyword occurs |
| `RipAnalyzer.RattersRipAnalyzer.AddObfuscationHint` | ripanalyzer.py:160-166 | appends the obfuscation hint when its markers occur |
| `RipAnalyzer.RattersRipAnalyzer.AddStealerHint` | ripanalyzer.py:168-174 | appends the stealer hint when its markers occur |
| `RipAnalyzer.RattersRipAnalyzer.AnalyzeZip` | ripanalyzer.py:189-214 | a readable archive adds its entry detections; an unreadable one adds an info-level `Zip Analysis Error` |
| `RipAnalyzer.RattersRipAnalyzer.AddZipDetections` | ripanalyzer.py:193-208 | appends the detections of every entry in order |
| `RipAnalyzer.RattersRipAnalyzer.AddZipEntryDetections` | ripanalyzer.py:194-208 | appends the detections for one entry name |
| `RipAnalyzer.RattersRipAnalyzer.AnalyzePe` | ripanalyzer.py:95-136 | the structure detections, then everything the strings scan of the decoded content adds, in that order |
| `RipAnalyzer.RattersRipAnalyzer.AnalyzePeStructure` | ripanalyzer.py:97-133 | a parse failure adds only its error; a parsed PE adds section, then import, then the registry-call error detections |
| `RipAnalyzer.RattersRipAnalyzer.CheckObfuscation` | ripanalyzer.py:323-351 | one warning listing the matched patterns when some match, otherwise nothing |
| `RipAnalyzer.KindFacts` | ripanalyzer.py:69-74 | only the strings scan touches the IOC lists; a Python file's webhooks are its new pattern matches; a zip records no webhooks; a parsed PE file always gets the `PE Analysis Error` detection |
| `RipAnalyzer.TotalPointsFloor` | ripanalyzer.py:365-371 | every detection is worth at least 5 points |
| `RipAnalyzer.ParsedPeScoreFloor` | ripanalyzer.py:95-136 | because of that error detection, every parsed PE file scores at least 5, even one with no other finding |
| `RipAnalyzer.RattersRipAnalyzer.Dispatch` | ripanalyzer.py:68-74 | the detections, webhooks, URLs and IPs appended are exactly those of the analysis the suffix selects |
| `RipAnalyzer.RattersRipAnalyzer.AnalyzeFile` | ripanalyzer.py:60-84 | detections and webhooks restart from empty and end as the suffix's analysis followed by the obfuscation check. The IOC lists, which are not cleared, grow by that analysis's URLs and IPs. The report carries this state, the hashes and a score in 0..100 |
| `PyBit.MagicPrefix` | backend/pybit.py:30-33 | testing a signature of at most 4 bytes on the first 4 bytes is the same as testing it on the whole file |
| `PyBit.DetectFileTypeCases` | backend/pybit.py:28-45 | `exe` exactly for an `MZ` start; `pyc` exactly for one of the two bytecode magics without `MZ`; `py` exactly when no magic matches and the first line mentions `python`; otherwise `unknown` |
| `PyBit.DispatchDetected` | backend/pybit.py:15-26 | only `unknown` is refused, with the message `Unsupported file type: unknown`, and the executable analysis runs exactly for an `MZ` start |
| `PyBit.AppendExtracted` | backend/pybit.py:63-70 | one `pyc` record and one decompiled text per extracted file, in order |
| `PyBit.PycFilesMembers` | backend/pybit.py:102-106 | the extractor keeps exactly the walked paths ending in `.pyc` |
| `PyBit.ExtractPyInstaller` | backend/pybit.py:88-110 | a failing extractor yields no files; otherwise the walked `.pyc` paths, in walk order, and only `.pyc` paths |
| `PyBit.AnalyzeExecutable` | backend/pybit.py:47-86 | the name is the base name, the type `exe`, Python is embedded exactly when a compiler is found, the records match the extracted files, and a PyInstaller bundle records only `.pyc` paths |
| `PyInstaller.BigEndian32` | app/utils/pyinstaller/pyinstaller.py:34 | four bytes read as a big-endian unsigned value below 2^32 |
| `PyInstaller.CompressionTag` | app/utils/pyinstaller/pyinstaller.py:52-57 | `s` exactly for 0, `z` exactly for 1, `?` otherwise |
| `PyInstaller.OpenSucceedsIff` | app/utils/pyinstaller/pyinstaller.py:30-42 | opening succeeds exactly when the file has the `PYZ\0` trailer and the overlay fits; the overlay position plus size plus 8 is the file length; failures read `Error opening file: ...` |
| `PyInstaller.TocNamesAll` | app/utils/pyinstaller/pyinstaller.py:48-50 | a well-formed table records every entry's name in order |
| `PyInstaller.PyInstArchive.constructor` | app/utils/pyinstaller/pyinstaller.py:20-28 | a new archive has its path, zero overlay and no entries |
| `PyInstaller.PyInstArchive.Open` | app/utils/pyinstaller/pyinstaller.py:30-42 | the overlay size is read from the last 4 bytes, and the position is set exactly when the trailer checks pass |
| `PyInstaller.PyInstArchive.ParseTOC` | app/utils/pyinstaller/pyinstaller.py:44-59 | names are appended up to the first malformed entry, and every failure reads `Error parsing TOC: ...` |
| `PyInstaller.ExtractPYInstaller` | app/utils/pyinstaller/pyinstaller.py:76-83 | an archive is returned exactly when open and parse both succeed; otherwise the error is the open or parse message |
| `PyAes.XorWithKey` | app/utils/pyaes.py:17-23 | the output has the input's length |
| `PyAes.XorInvolution` | app/utils/pyaes.py:17-23 | applying the XOR fallback twice with the same key returns the data |
| `PyAes.AESModeOfOperationGCM.constructor` | app/utils/pyaes.py:2-4 | the key and nonce are stored |
| `PyAes.AESModeOfOperationGCM.FallbackDecrypt` | app/utils/pyaes.py:17-23 | the loop computes the XOR with the repeating key, and fails with `integer modulo by zero` exactly for an empty key with non-empty data |
| `PyAes.AESModeOfOperationGCM.Decrypt` | app/utils/pyaes.py:6-15 | the library's result or error is passed through; only a missing library falls back to the XOR |
| `NotObf.DigitRunMaximal` | app/methods/notobf.py:23 | the digit run is as long as possible |
| `NotObf.TokenRunMaximal` | app/methods/notobf.py:23 | the token run over `[a-zA-Z0-9_-]` is as long as possible |
| `NotObf.MatchAtShape` | app/methods/notobf.py:23 | a match is the webhook prefix, at least one digit, `/`, and a maximal non-empty token |
| `NotObf.FindFromLeftmost` | app/methods/notobf.py:23-25 | the search returns the leftmost match, and nothing exactly when no position matches |
| `NotObf.FindWebhookSpec` | app/methods/notobf.py:22-26 | the first webhook in the content is found, with the shape above and not followed by a token character |
| `NotObf.FirstWebhookSpec` | app/methods/notobf.py:9-20 | the result is the webhook of the first readable `.py` or `.pyc` entry that has one, and nothing exactly when none has |
| `NotObf.NotObfuscated.constructor` | app/methods/notobf.py:5-7 | the directory and entries are stored |
| `NotObf.NotObfuscated.Deobfuscate` | app/methods/notobf.py:9-20 | the loop returns the first entry's webhook as specified |
| `Luna.AsciiRunAll` | app/methods/luna.py:29 | the run is made of ASCII bytes |
| `Luna.ChunksShape` | app/methods/luna.py:29-30 | every chunk is a contiguous ASCII slice of 30 to 100 bytes from the content |
| `Luna.AsciiRunEnd` | app/methods/luna.py:29 | an ASCII run stops only at the end of the content or at a byte of 0x80 or more |
| `Luna.ChunksAtStarts` | app/methods/luna.py:29-30 | there is one chunk per match start; each start begins an ASCII run of at least 30 bytes, and its chunk is the run cut to at most 100 bytes |
| `Luna.ChunkEnd` | app/methods/luna.py:29-30 | a match shorter than 100 bytes is maximal: it ends at the end of the content or just before a non-ASCII byte |
| `Luna.ChunksOrdered` | app/methods/luna.py:29-30 | the matches come in content order and never overlap: each ends at or before the next one starts |
| `Luna.ChunksCover` | app/methods/luna.py:29-30 | the scan misses nothing: every position that starts an ASCII run of 30 bytes or more lies inside some match |
| `Luna.Decode` | app/methods/luna.py:34 | decoding ASCII bytes keeps one character per byte |
| `Luna.HitIsMarker` | app/methods/luna.py:33-35 | a chunk is accepted exactly when its text contains `discord.com/api/webhooks` |
| `Luna.FirstHitSpec` | app/methods/luna.py:31-38 | the result is the first accepted chunk's text, and nothing exactly when no chunk is accepted |
| `Luna.WebhookFromContent` | app/methods/luna.py:27-39 | a returned webhook is 30 to 100 characters long, contains the marker and occurs in the content |
| `Luna.MainScriptFirst` | app/methods/luna.py:11-16 | the main script is the first entry whose lower-cased name contains `main`, and there is none exactly when no entry does |
| `Luna.LunaDeobf.constructor` | app/methods/luna.py:7-9 | the directory and entries are stored |
| `Luna.LunaDeobf.ExtractLunaWebhook` | app/methods/luna.py:27-39 | the loop returns the first accepted chunk |
| `Luna.LunaDeobf.Deobfuscate` | app/methods/luna.py:11-25 | no main script or an unreadable one gives nothing; otherwise the result is that file's first accepted chunk |
| `Text.NatToStringValue` | js/script.js:149 | the decimal text of a count reads back as the same number |
| `Text.AfterLastUnique` | app/main.py:37 | the text after the last separator contains no separator |

## Left out

- Rendering, the DOM and CSS are not modelled. Each page is a class whose fields hold the text each element would show. Scrolling, `classList`, `console` output and event wiring are left out.
- `formatFileSize` and the `toFixed` size texts are not modelled. Float formatting is outside the model, so the size text is a parameter.
- Timing is not modelled. `Promise.race`, `setTimeout` and the 30-second deadline become a `Settlement` parameter naming who won the race. Nothing in the code ever aborts a request.
- Regular expressions are oracles, except where the pattern's meaning is what the property states. The exceptions are:
  - the webhook pattern in `notobf.py`;
  - the ASCII run in `luna.py`;
  - the `strings` filter in `app.py`;
  - the behaviour keywords in `app.py`, both the per-string search (lines 195-197) and the `findall` over the decompiled code (lines 205-209);
  - the registry-key search in `ripanalyzer.py` (lines 312-313), whose keys hold no regular-expression syntax once their backslashes are escaped;
  - the suffix tests.

  The oracles are the URL, IP, command and webhook extraction in `app.py` and `ripanalyzer.py`, and the obfuscation patterns.
- Hashing, `pefile`, `marshal`, `zipfile`, the PyCryptodome AES cipher, and the base64 and zlib decoders are not modelled. They are foreign code, so their results arrive as parameters.
- Subprocesses (`strings`, `pycdc`, PyInstaller extraction), the file system and temporary directories are outside the model. Their outcomes are parameters.
- `extractFiles` in `pyinstaller.py` is not modelled. It only copies bytes to disk.
- Flask routing, the other HTTP endpoints and the Telegram and webhook clients are outside the model.
- Case folding and character classes are ASCII-only. `lower()`, `toLowerCase()` and `re.IGNORECASE` are modelled on ASCII letters. In the `strings` filter, `\d` and `\W` are modelled on ASCII, whereas Python's `\W` also treats non-ASCII letters as word characters.
- The order of `suspicious_imports` is not modelled. `ripanalyzer.py` builds it as a Python `set`, whose iteration order is unspecified; the model keeps first-occurrence order.
- Some `ripanalyzer.py` error paths are not modelled. The `Strings Analysis Error` path of `_scan_file_strings` is one: the file contents are a parameter, so the read cannot fail. The `UnicodeDecodeError` branch of `_analyze_python` is another, and it cannot run anyway because the file is decoded with `errors='ignore'`.
- Version-dependent parsing is not modelled. `ripanalyzer.py:319` puts a backslash inside an f-string expression, which Python releases before 3.12 refuse to parse. The model follows the code as if it parses.
- `Uploader.MalwareAnalyzer.constructor`: it states the fields that `frontend/script.js:2-12` sets. As written, line 13 calls `this.initEventListeners()`, which the class does not define. So `new MalwareAnalyzer()` at line 162 throws a `TypeError`, and the page never holds an analyzer. The methods are modelled as they would act on an analyzer in the constructed state.
- `showProgress` and `hideProgress` in `frontend/script.js` only touch the DOM. They are modelled by their effect on the progress flag.
- `PyBit.AnalyzeExecutable`: `is_pyinstaller`, `is_py2exe`, `extract_py2exe` and `analyze_pyc` are not defined in `backend/pybit.py`. Their answers are a probe parameter, and the contract states the record built from them. `extract_pyinstaller` (lines 88-110) is modelled as `PyBit.ExtractPyInstaller`, on the outcome of its extractor subprocess.
- `ExecutableAnalysis.AnalysisResult.FindUrlsAndCommands`: the oracles `urlsIn`, `decompiledUrls` and `decompiledCommands` stand for the whole text each pattern match covers. The code as written differs. `url_pattern` has one group, so `findall` yields that group's text (`app.py:186-187`, `app.py:202`). For an `http` match the group is empty, and `url[0]` raises `IndexError`, which `app.py:33-37` turns into a 500 response. For a domain match, `url[0]` is a single character. `cmd_pattern` has seven groups, so `findall` yields 7-tuples (`app.py:204`). The length filters at `app.py:213-219` drop the single characters, the top-level-domain strings and the 7-tuples. So, as written, the decompiled code adds no URLs or commands, and the strings add no URLs. The model states the lists the patterns are evidently meant to produce.
- `Presenter.AnalysisPage.UploadAndAnalyze`: after a successful analysis it states the name, the size, the risk, the summary and the URL list, not every field. `DisplayAnalysisResults` states the rest.
- `LegacyPresenter.LegacyPage.UploadAndAnalyze`: it states the risk, summary, strings and links after success, and the risk and summary after an error. It does not state every field. `DisplayAnalysisResults` and `ShowError` state the rest.
- `PyAes.XorWithKey`: it states only the output length. The decryption property is `XorInvolution`.
