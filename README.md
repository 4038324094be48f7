# md-to-schematic in Dafny

A model of the deterministic cores of md-to-schematic, an AI-assisted toolchain. It turns markdown PCB requirements into EasyEDA schematics, fetching component datasheets along the way.

- Each module models one source file of the core, or one part of one. datasheet-downloader.js is split into `DatasheetSearch`, `DatasheetText` and `DatasheetDownload`. The two automatic designers share `ComponentExtraction` (name extraction, memo, batches, retry) and `PcbDesigner` (scans, history, index, outputs).
- A program part that changes state step by step is a class or a method with loops, proved against a specification function.
- Everything else is functions and lemmas.
- Four helper modules hold shared definitions: `Wrappers` (Option, Result), `Strings` (ASCII case, search, trim, split, join), `Seqs` (filter, order-preserving de-duplication) and `NatText` (decimal rendering).

| module | models |
|---|---|
| `DatasheetSearch` | candidate datasheet URLs, from the manufacturer guess to the de-duplicated search (ai-easyeda-compiler/datasheet-downloader.js) |
| `DatasheetText` | file-name sanitising, HTML cleaning, word wrapping and the lenient AI-answer parser (same file) |
| `DatasheetDownload` | response classification, redirects, skip-if-exists and the top-ten download loop with its statistics (same file) |
| `ComponentExtraction` | component-name post-processing of both automatic designers, the FIFO memo, download batches and the retry counter |
| `PcbDesigner` | the designers' scan and processed-file sets, project history, master index, schematic layout and pin table |
| `KnowledgeLoader` | the `_specs.json` knowledge map, its three-step lookup and the prompt context (component-knowledge-loader.js) |
| `PcbParser` | pipe tables, the three PCB sections, the parse order and the India Standard Time file stamp (parser.js) |
| `LearningEngine` | the 100-point quality score, grades, metrics counters, failure rules, trend and suggestions (learning-engine.js) |
| `TrainingData` | design validation, signal classification, connection checks, the power budget and the dataset count (training-data-generator.js) |
| `DesignAssistant` | protocol extraction, MCU suggestion, questions, netlist, calculation and best-practice checks (ai-design-assistant.js) |
| `CompilerMvp` | prompt builder, AI-response parser, EasyEDA converter, net colours, BOM, report and compile guard (compiler-mvp.js) |
| `EasyedaConvert` | the Standard, Professional and text exports with their gge numbering (convert-to-easyeda.js) |
| `EasyedaImport` | the compiler's editor extension: validation, component import counters, consecutive-pair wiring, labels, BOM grouping, the net check (ai-easyeda-compiler/easyeda-extension/main.js) |
| `SchematicLayout` | the markdown extension's grid placement and guarded wiring (easyeda-extension/main.js) |
| `SmartLearning` | input classification and dispatch, datasheet-link extraction, spec scraping, rule storage and the JSON file name (smart-learning-system.js) |
| `NexarApi` | the `.env` line parser, credential reading and the token choice of the part search (nexar-api.js) |

Calls into the outside world are parameters of the operations that make them:

- the network and the language model;
- `JSON.parse` and `JSON.stringify`;
- the file system;
- the clock and UUIDs;
- the EasyEDA editor's API.

## Model

| member | source | states |
|---|---|---|
| DatasheetSearch.MatchesPatternSpec | md-to-schematic/ai-easyeda-compiler/datasheet-downloader.js:688-698 | a manufacturer's prefix pattern matches a name exactly when one of its literal prefixes starts the name |
| DatasheetSearch.GuessManufacturer | md-to-schematic/ai-easyeda-compiler/datasheet-downloader.js:684-711 | the loop over the pattern table returns exactly the guessed list |
| DatasheetSearch.GuessedManufacturersSpec | md-to-schematic/ai-easyeda-compiler/datasheet-downloader.js:684-711 | the guess holds at least one and at most nine manufacturers (the table size); with no matching pattern it is exactly ti, analog, st; otherwise a manufacturer is in it exactly when one of its prefixes starts the lower-cased name |
| DatasheetSearch.GuessedHaveSites | md-to-schematic/ai-easyeda-compiler/datasheet-downloader.js:39-54 | every guessed manufacturer has a datasheet site and a dork domain |
| DatasheetSearch.SearchAllDataSheet | md-to-schematic/ai-easyeda-compiler/datasheet-downloader.js:292-340 | the pushes of searchAllDataSheet build exactly the AllDataSheet URL list |
| DatasheetSearch.AllDataSheetUrlCount | md-to-schematic/ai-easyeda-compiler/datasheet-downloader.js:292-340 | 9 fixed URLs, 2 per guessed manufacturer up to three, 2 for a type and 2 for a hyphenated name: between 11 and 19 |
| DatasheetSearch.AllDataSheetUrlsFirst | md-to-schematic/ai-easyeda-compiler/datasheet-downloader.js:298-299 | the first AllDataSheet URL is the search page for the name as given |
| DatasheetSearch.SearchManufacturerSites | md-to-schematic/ai-easyeda-compiler/datasheet-downloader.js:592-610 | the loop pushes the site URLs of every guessed manufacturer, in order |
| DatasheetSearch.ManufacturerUrlCount | md-to-schematic/ai-easyeda-compiler/datasheet-downloader.js:592-610 | exactly two URLs per guessed manufacturer, with no cap at three |
| DatasheetSearch.VariationsAtLeastTwo | md-to-schematic/ai-easyeda-compiler/datasheet-downloader.js:434-445 | the variations always hold the name and the name followed by " datasheet", so the variations dork is always emitted |
| DatasheetSearch.BuildGoogleDorks | md-to-schematic/ai-easyeda-compiler/datasheet-downloader.js:368-431 | the pushes of buildGoogleDorks build exactly the dork list |
| DatasheetSearch.GoogleDorkCount | md-to-schematic/ai-easyeda-compiler/datasheet-downloader.js:368-431 | seven fixed dorks, one `site:` dork per top-three manufacturer, one for a type and one for a known part family: between 8 and 12 |
| DatasheetSearch.SiteDorkDomain | md-to-schematic/ai-easyeda-compiler/datasheet-downloader.js:510-515 | the domain read back from a manufacturer's `site:` dork is that manufacturer's domain |
| DatasheetSearch.DorkUrlsShape | md-to-schematic/ai-easyeda-compiler/datasheet-downloader.js:505-545 | every dork yields its domain's patterns followed by the ten common URLs; a manufacturer dork yields that manufacturer's patterns |
| DatasheetSearch.GoogleDorkSearch | md-to-schematic/ai-easyeda-compiler/datasheet-downloader.js:346-361 | the dork strategy is the URLs of every dork, dork by dork |
| DatasheetSearch.CollectDorkUrls | md-to-schematic/ai-easyeda-compiler/datasheet-downloader.js:352-358 | the loop over the dork queries concatenates exactly their URL lists |
| DatasheetSearch.AllDorkUrlsAtLeast | md-to-schematic/ai-easyeda-compiler/datasheet-downloader.js:505-545 | every dork yields at least ten URLs |
| DatasheetSearch.Utf8 | md-to-schematic/ai-easyeda-compiler/datasheet-downloader.js:643 | a code point is one to four bytes of UTF-8 before `encodeURIComponent` escapes them |
| DatasheetSearch.HostingSiteUrls | md-to-schematic/ai-easyeda-compiler/datasheet-downloader.js:615-654 | the hosting-site strategy is always thirteen URLs |
| DatasheetSearch.SearchByType | md-to-schematic/ai-easyeda-compiler/datasheet-downloader.js:659-679 | the loop over the type's keywords builds exactly the by-type URL list |
| DatasheetSearch.TypeUrlCount | md-to-schematic/ai-easyeda-compiler/datasheet-downloader.js:659-679 | two URLs for IC, MOSFET, LED, Sensor and Regulator; none for any other type |
| DatasheetSearch.GatherCandidates | md-to-schematic/ai-easyeda-compiler/datasheet-downloader.js:198-264 | each strategy's URLs are appended in turn, the type search only for a non-empty type |
| DatasheetSearch.SearchDatasheets | md-to-schematic/ai-easyeda-compiler/datasheet-downloader.js:188-286 | the result is the candidates without repeats, first occurrences in order, and the count of repeats dropped |
| DatasheetSearch.SearchDatasheetsOrder | md-to-schematic/ai-easyeda-compiler/datasheet-downloader.js:266-267 | the de-duplicated candidates are the de-duplicated AllDataSheet URLs, then the later strategies' new URLs in order |
| DatasheetSearch.SearchDatasheetsFirst | md-to-schematic/ai-easyeda-compiler/datasheet-downloader.js:198-212 | the first URL returned is the plain AllDataSheet search page |
| DatasheetSearch.SearchDatasheetsUnique | md-to-schematic/ai-easyeda-compiler/datasheet-downloader.js:266-268 | every candidate appears exactly once, nothing else appears, and de-duplicating again changes nothing |
| DatasheetText.SanitizeFilenameSpec | md-to-schematic/ai-easyeda-compiler/datasheet-downloader.js:995-997 | a sanitised name has the same length; allowed characters are kept lower-cased in place, every other one becomes `_` |
| DatasheetText.SanitizeFilenameIdempotent | md-to-schematic/ai-easyeda-compiler/datasheet-downloader.js:995-997 | sanitising twice is sanitising once |
| DatasheetText.FindCi | md-to-schematic/ai-easyeda-compiler/datasheet-downloader.js:936-939 | the case-insensitive search returns the first match at or after the start, and none exactly when there is none |
| DatasheetText.CollapseSpacesSpec | md-to-schematic/ai-easyeda-compiler/datasheet-downloader.js:955 | collapsing white space keeps the text non-empty exactly when it was, keeps a leading non-space character and leaves no two white-space characters in a row |
| DatasheetText.TrimKeepsNoDoubleSpace | md-to-schematic/ai-easyeda-compiler/datasheet-downloader.js:956 | trimming keeps the no-double-white-space property |
| DatasheetText.CleanHtml | md-to-schematic/ai-easyeda-compiler/datasheet-downloader.js:932-959 | cleanHTML's replacement chain yields the cleaned text, which has no white space at its ends and no two white-space characters in a row |
| DatasheetText.PlainTextKept | md-to-schematic/ai-easyeda-compiler/datasheet-downloader.js:932-959 | text without `<` or `&` only has its white space collapsed and trimmed |
| DatasheetText.EscapedBracketSurvives | md-to-schematic/ai-easyeda-compiler/datasheet-downloader.js:945-950 | tags are removed before entities are decoded, so `&lt;` comes out as `<` |
| DatasheetText.RemoveElementsPlain | md-to-schematic/ai-easyeda-compiler/datasheet-downloader.js:936-939 | the script and style removal leaves text without `<` unchanged |
| DatasheetText.RemoveCommentsPlain | md-to-schematic/ai-easyeda-compiler/datasheet-downloader.js:942 | the comment removal leaves text without `<` unchanged |
| DatasheetText.TagsToSpacesPlain | md-to-schematic/ai-easyeda-compiler/datasheet-downloader.js:945 | the tag replacement leaves text without `<` unchanged |
| DatasheetText.ReplaceAllAbsent | md-to-schematic/ai-easyeda-compiler/datasheet-downloader.js:948-952 | an entity whose first character does not occur is not replaced |
| DatasheetText.WordWrap | md-to-schematic/ai-easyeda-compiler/datasheet-downloader.js:964-980 | the wrapping loop yields the lines of the as-written step joined by newlines |
| DatasheetText.WrapWordsBound | md-to-schematic/ai-easyeda-compiler/datasheet-downloader.js:970-971 | as written, a line that joins several words is at most one character longer than the width |
| DatasheetText.WrapWordsFixedBound | md-to-schematic/ai-easyeda-compiler/datasheet-downloader.js:970-971 | with the separating space counted, every multi-word line fits the width |
| DatasheetText.WrapLinesBound | md-to-schematic/ai-easyeda-compiler/datasheet-downloader.js:964-980 | as written every joined line is within width + 1; corrected, within the width |
| DatasheetText.WordWrapOverflow | md-to-schematic/ai-easyeda-compiler/datasheet-downloader.js:970-971 | "aa bb" at width 4 stays one line of five characters as written, and is two lines when corrected |
| DatasheetText.JsonBounds | md-to-schematic/ai-easyeda-compiler/datasheet-downloader.js:1077 | `/\{[\s\S]*\}/` matches from the first `{` to the last `}`, and there is no match exactly when no `}` follows a `{` |
| DatasheetText.JsonSlice | md-to-schematic/ai-easyeda-compiler/datasheet-downloader.js:1077-1079 | the text given to `JSON.parse` starts with `{` and ends with `}`, and exists exactly when the match does |
| DatasheetText.LeftmostSpec | md-to-schematic/ai-easyeda-compiler/datasheet-downloader.js:1119 | a regex search returns the match at the first position that has one, and none exactly when no position has one |
| DatasheetText.MatchWordsAtSpec | md-to-schematic/ai-easyeda-compiler/datasheet-downloader.js:1093-1105 | a labelled-field match's value is trimmed and holds no newline and no comma |
| DatasheetText.ExtractValueSpec | md-to-schematic/ai-easyeda-compiler/datasheet-downloader.js:1118-1121 | extractValue returns a trimmed single-line value without commas, or null |
| DatasheetText.LabelledValueRead | md-to-schematic/ai-easyeda-compiler/datasheet-downloader.js:1093-1121 | a `key:value` line is read back as exactly the value |
| DatasheetText.ParseAIResponse | md-to-schematic/ai-easyeda-compiler/datasheet-downloader.js:1074-1115 | the answer is parsed JSON exactly when the brace slice exists and parses; otherwise the scraped fields keep the raw answer |
| DatasheetDownload.ExtractSpecs | md-to-schematic/ai-easyeda-compiler/datasheet-downloader.js:817-930 | extractSpecsFromHTML gives specs exactly when the model answers the cleaned-page prompt |
| DatasheetDownload.DownloadFile | md-to-schematic/ai-easyeda-compiler/datasheet-downloader.js:717-812 | a download resolves only to the component's `_<index>.pdf` or `_specs.json` file, and writes the PDF exactly when it was not there yet |
| DatasheetDownload.Classify | md-to-schematic/ai-easyeda-compiler/datasheet-downloader.js:736-805 | `pdf` is matched before `html`; a PDF already in the directory resolves without a write, and a new one resolves with `wrote` when the stream finishes and is rejected with the stream's error; an HTML page resolves to the specs file exactly when the model answers and `writeFileSync` succeeds, and is rejected with the write error when the write throws; any other type is rejected naming the type |
| DatasheetDownload.RedirectChainFollowed | md-to-schematic/ai-easyeda-compiler/datasheet-downloader.js:726-734 | a chain of 301/302 redirects is followed to its end, whatever its length |
| DatasheetDownload.SelfRedirectNeverSettles | md-to-schematic/ai-easyeda-compiler/datasheet-downloader.js:726-734 | a URL redirecting to itself never settles: there is no redirect cap |
| DatasheetDownload.SpecsNotPdf | md-to-schematic/ai-easyeda-compiler/datasheet-downloader.js:740-785 | the specs file is never one of the PDF files |
| DatasheetDownload.PdfFileInjective | md-to-schematic/ai-easyeda-compiler/datasheet-downloader.js:740 | different attempt indexes store different PDF files |
| DatasheetDownload.UrlShort | md-to-schematic/ai-easyeda-compiler/datasheet-downloader.js:101 | a URL longer than 60 characters is shown as its first 57 and `...`, 60 in all; a shorter one unchanged |
| DatasheetDownload.AttemptAllAccounted | md-to-schematic/ai-easyeda-compiler/datasheet-downloader.js:99-137 | every attempted URL ends in the results or the failures unless an attempt never settles; results keep their URL, index order and own files; failures hold URLs of at most 60 characters; only the component's files are added |
| DatasheetDownload.AttemptAllFailures | md-to-schematic/ai-easyeda-compiler/datasheet-downloader.js:99-137 | the k-th failure is `{url: urlShort, error}` of the k-th rejected attempt, with the error that download rejected with; the failures keep URL order and every rejected attempt has one |
| DatasheetDownload.AttemptAllResults | md-to-schematic/ai-easyeda-compiler/datasheet-downloader.js:99-137 | each result is an attempt that resolved, with the path it resolved to, and every resolved attempt has its result |
| DatasheetDownload.AttemptAllSettles | md-to-schematic/ai-easyeda-compiler/datasheet-downloader.js:99-137 | unless the loop stalls, every attempt either resolved or was rejected |
| DatasheetDownload.AttemptAllPartition | md-to-schematic/ai-easyeda-compiler/datasheet-downloader.js:99-137 | the results and the failures split the attempts: an attempt is a failure exactly when no result carries its index |
| DatasheetDownload.AverageOfEqualTimes | md-to-schematic/ai-easyeda-compiler/datasheet-downloader.js:142 | the rounded mean of equal times is that time, and 0 for no results |
| DatasheetDownload.AverageAtMostMax | md-to-schematic/ai-easyeda-compiler/datasheet-downloader.js:142 | the rounded mean never exceeds the largest time |
| DatasheetDownload.Downloader.DownloadAll | md-to-schematic/ai-easyeda-compiler/datasheet-downloader.js:87-137 | the loop attempts the first min(10, n) candidates and its results, failures and files are the attempt fold's |
| DatasheetDownload.Downloader.SearchAndDownload | md-to-schematic/ai-easyeda-compiler/datasheet-downloader.js:56-182 | search, download the first ten and summarise the successes, failures, total size and rounded mean time; no results and no change when the directory cannot be made |
| DatasheetDownload.AttemptedCount | md-to-schematic/ai-easyeda-compiler/datasheet-downloader.js:74-84 | the search always yields a candidate, so the "no results" branch is never taken and 1 to 10 downloads are attempted |
| DatasheetDownload.Downloader.constructor | md-to-schematic/ai-easyeda-compiler/datasheet-downloader.js:26-34 | a new downloader has its download directory and the files already in it |
| ComponentExtraction.GatherSpec | md-to-schematic/ai-easyeda-compiler/auto-pcb-designer-optimized.js:312-332 | the match loop keeps its list upper-case, duplicate-free, at least 4 characters and not blacklisted; it extends the list, takes every acceptable upper-cased match and nothing else |
| ComponentExtraction.RemovePartialsSpec | md-to-schematic/ai-easyeda-compiler/auto-pcb-designer-optimized.js:335-337 | the partial-match filter keeps only candidates, keeps every one no longer candidate contains, leaves no partial match and adds no repeat |
| ComponentExtraction.OrGeneric | md-to-schematic/ai-easyeda-compiler/auto-pcb-designer-optimized.js:339 | the result is never empty, and is the list itself when that is not empty |
| ComponentExtraction.ExtractComponentsOptimized | md-to-schematic/ai-easyeda-compiler/auto-pcb-designer-optimized.js:286-340 | the loops with the `components` list and `seen` set compute exactly the optimized result |
| ComponentExtraction.OptimizedComponentsSpec | md-to-schematic/ai-easyeda-compiler/auto-pcb-designer-optimized.js:286-340 | the optimized result is never empty, is upper-case, duplicate-free, at least 4 characters and not blacklisted per entry, and no entry is a proper substring of another |
| ComponentExtraction.PriorityFirst | md-to-schematic/ai-easyeda-compiler/auto-pcb-designer-optimized.js:322-333 | once a priority pattern found something, the standard matches do not matter |
| ComponentExtraction.RemovePartialsWellFormed | md-to-schematic/ai-easyeda-compiler/auto-pcb-designer-optimized.js:335-337 | removing partial matches keeps a well-formed list well-formed |
| ComponentExtraction.FilterPartsSpec | md-to-schematic/ai-easyeda-compiler/auto-pcb-designer-original.js:297-304 | the original's filter keeps exactly the candidates that look like part numbers |
| ComponentExtraction.ExtractComponentsOriginal | md-to-schematic/ai-easyeda-compiler/auto-pcb-designer-original.js:240-314 | the original's loops push into `components` and compute exactly the original result |
| ComponentExtraction.FilteredSpec | md-to-schematic/ai-easyeda-compiler/auto-pcb-designer-original.js:297-313 | what the two filters leave looks like part numbers, is upper-case, not blacklisted, has no repeats and no partial matches; every part-like candidate that no longer part-like candidate contains survives |
| ComponentExtraction.OriginalComponentsSpec | md-to-schematic/ai-easyeda-compiler/auto-pcb-designer-original.js:240-314 | the original result is never empty; apart from the fallback each entry looks like a part number, is upper-case and not blacklisted; no entry repeats and none is a proper substring of another; priority matches come first; every acceptable upper-cased match of either phase is a candidate, and every part-like candidate that no longer part-like candidate contains is in the result |
| ComponentExtraction.CacheKey | md-to-schematic/ai-easyeda-compiler/auto-pcb-designer-optimized.js:263 | the cache key is the first 500 characters, the whole text when it is shorter |
| ComponentExtraction.ComponentCache.ExtractCached | md-to-schematic/ai-easyeda-compiler/auto-pcb-designer-optimized.js:261-281 | a hit returns the stored list and changes nothing; a miss computes the list, stores it, and past 100 entries evicts the oldest key |
| ComponentExtraction.Retry | md-to-schematic/ai-easyeda-compiler/auto-pcb-designer-optimized.js:363-374 | one call plus a retry per remaining attempt, waits of 1000 times the attempt number, success exactly when the last call does not throw, and the error never passed on |
| ComponentExtraction.RetryFromStart | md-to-schematic/ai-easyeda-compiler/auto-pcb-designer-optimized.js:363-374 | from the first attempt: at most three calls, waits of 1 s then 2 s, and failure exactly when all three calls throw |
| ComponentExtraction.SettleBatch | md-to-schematic/ai-easyeda-compiler/auto-pcb-designer-optimized.js:354-356 | every member of a batch runs its retries to the end, whatever the others meet |
| ComponentExtraction.DownloadDatasheetsParallel | md-to-schematic/ai-easyeda-compiler/auto-pcb-designer-optimized.js:346-358 | the batches of three cover the list in order and every component gets its retry outcome |
| ComponentExtraction.ComponentCache.constructor | md-to-schematic/ai-easyeda-compiler/auto-pcb-designer-optimized.js:35-38 | a new memoisation cache is empty and well formed |
| PcbDesigner.PathJoinInjective | md-to-schematic/ai-easyeda-compiler/auto-pcb-designer-original.js:113-115 | joining different names to the inputs directory gives different paths |
| PcbDesigner.NewNamesSpec | md-to-schematic/ai-easyeda-compiler/auto-pcb-designer-original.js:113-117 | a scan offers exactly the listed `.md` names whose path was not yet processed |
| PcbDesigner.ProjectName | md-to-schematic/ai-easyeda-compiler/auto-pcb-designer-original.js:141 | the evidently intended project name: a `.md` file name without its extension; other names unchanged |
| PcbDesigner.ProjectNameAsWrittenDropsInner | md-to-schematic/ai-easyeda-compiler/auto-pcb-designer-original.js:141 | `replace('.md', '')` removes the first `.md`: "v1.md-draft.md" becomes "v1-draft.md" |
| PcbDesigner.ProjectNameAgrees | md-to-schematic/ai-easyeda-compiler/auto-pcb-designer-original.js:141 | where `.md` occurs only as the extension, the as-written and the intended name agree |
| PcbDesigner.Stamp | md-to-schematic/ai-easyeda-compiler/auto-pcb-designer-original.js:140 | the time stamp keeps the ISO string's length and has no `:` or `.` left |
| PcbDesigner.ProjectOfSpec | md-to-schematic/ai-easyeda-compiler/auto-pcb-designer-original.js:141-226 | the history record `ProjectOf` keeps the input file, the component count and the stamp; its name is the as-written `replace('.md', '')`, three characters shorter than a `.md` file name and the whole name when it holds no `.md` |
| PcbDesigner.ProjectOfInnerMd | md-to-schematic/ai-easyeda-compiler/auto-pcb-designer-original.js:141-215 | "v1.md-draft.md" is recorded as project "v1-draft.md" and its pin table is "v1-draft.md_pins_<stamp>.md" |
| PcbDesigner.OutputsDistinct | md-to-schematic/ai-easyeda-compiler/auto-pcb-designer-original.js:215-226 | the four output files of one project never collide |
| PcbDesigner.SucceededSpec | md-to-schematic/ai-easyeda-compiler/auto-pcb-designer-optimized.js:163-170 | the optimized scan marks exactly the new paths whose processing succeeded |
| PcbDesigner.FailedFileRetried | md-to-schematic/ai-easyeda-compiler/auto-pcb-designer-optimized.js:163-170 | optimized: a file whose processing threw is not marked, so the next scan offers it again |
| PcbDesigner.SucceededNotRetried | md-to-schematic/ai-easyeda-compiler/auto-pcb-designer-optimized.js:163-170 | optimized: a file processed successfully is not offered again |
| PcbDesigner.NeverRetried | md-to-schematic/ai-easyeda-compiler/auto-pcb-designer-original.js:126-129 | original: every new file is marked, failed or not, so a second scan finds nothing new |
| PcbDesigner.OptimizedTotal | md-to-schematic/ai-easyeda-compiler/auto-pcb-designer-optimized.js:465 | the Total line of the optimized index reads back as the history length |
| PcbDesigner.IndexRowNumber | md-to-schematic/ai-easyeda-compiler/auto-pcb-designer-optimized.js:469-471 | index row `i` carries the number `i + 1` |
| PcbDesigner.IndexRowsDistinct | md-to-schematic/ai-easyeda-compiler/auto-pcb-designer-optimized.js:469-471 | index rows of different positions differ |
| PcbDesigner.Slug | md-to-schematic/ai-easyeda-compiler/auto-pcb-designer-original.js:480 | the anchor slug has no white space, and is the lower-cased name when the name has none |
| PcbDesigner.OriginalTotal | md-to-schematic/ai-easyeda-compiler/auto-pcb-designer-original.js:471 | the Total Projects line of the original index reads back as the number of projects |
| PcbDesigner.OverviewRowNumber | md-to-schematic/ai-easyeda-compiler/auto-pcb-designer-original.js:478-481 | overview row `i` carries the number `i + 1` |
| PcbDesigner.DetailNumber | md-to-schematic/ai-easyeda-compiler/auto-pcb-designer-original.js:487-489 | detail section `i` is headed by the number `i + 1` |
| PcbDesigner.OverviewDistinct | md-to-schematic/ai-easyeda-compiler/auto-pcb-designer-original.js:478-481 | overview rows of different positions differ |
| PcbDesigner.DetailsDistinct | md-to-schematic/ai-easyeda-compiler/auto-pcb-designer-original.js:487-502 | detail sections of different positions differ |
| PcbDesigner.OptimizedDesigner.ProcessRequirement | md-to-schematic/ai-easyeda-compiler/auto-pcb-designer-optimized.js:183-256 | the result is a success exactly when the pipeline succeeded, and only a success is added to the history |
| PcbDesigner.OptimizedDesigner.ScanAndProcess | md-to-schematic/ai-easyeda-compiler/auto-pcb-designer-optimized.js:135-179 | the new files are processed, only the successes marked and recorded, and the index rewritten when there was a new file |
| PcbDesigner.OptimizedDesigner.ProcessNew | md-to-schematic/ai-easyeda-compiler/auto-pcb-designer-optimized.js:162-170 | the loop marks exactly the succeeded files and records their projects in order |
| PcbDesigner.OptimizedDesigner.UpdateMasterIndex | md-to-schematic/ai-easyeda-compiler/auto-pcb-designer-optimized.js:460-482 | the optimized index is written from the whole history |
| PcbDesigner.OriginalDesigner.ProcessRequirement | md-to-schematic/ai-easyeda-compiler/auto-pcb-designer-original.js:138-236 | a failed step is caught; only a success is added to the history |
| PcbDesigner.OriginalDesigner.ScanAndProcess | md-to-schematic/ai-easyeda-compiler/auto-pcb-designer-original.js:104-132 | every new file is processed and marked, successes recorded, and the index rewritten when there was a new file |
| PcbDesigner.OriginalDesigner.ProcessNew | md-to-schematic/ai-easyeda-compiler/auto-pcb-designer-original.js:126-129 | the loop marks every new file whatever its outcome and records the successes in order |
| PcbDesigner.OriginalDesigner.UpdateMasterIndex | md-to-schematic/ai-easyeda-compiler/auto-pcb-designer-original.js:466-510 | the original index is the overview rows followed by the detailed sections |
| PcbDesigner.OriginalDesigner.GeneratePinTable | md-to-schematic/ai-easyeda-compiler/auto-pcb-designer-original.js:336-387 | the pin-table text is the header, one section per component from the knowledge base, and the fixed connection tables |
| PcbDesigner.BuildIndexRows | md-to-schematic/ai-easyeda-compiler/auto-pcb-designer-optimized.js:469-471 | the `forEach` appends exactly the index rows |
| PcbDesigner.BuildOverviewRows | md-to-schematic/ai-easyeda-compiler/auto-pcb-designer-original.js:478-481 | the `forEach` appends exactly the overview rows |
| PcbDesigner.BuildDetails | md-to-schematic/ai-easyeda-compiler/auto-pcb-designer-original.js:487-502 | the `forEach` appends exactly the detail sections |
| PcbDesigner.BuildPinSections | md-to-schematic/ai-easyeda-compiler/auto-pcb-designer-original.js:345-366 | the component loop appends exactly one pin section per component, in order |
| PcbDesigner.PinRowCountBound | md-to-schematic/ai-easyeda-compiler/auto-pcb-designer-original.js:361-362 | no component gets more than 10 pin rows |
| PcbDesigner.PinRowCountDefault | md-to-schematic/ai-easyeda-compiler/auto-pcb-designer-original.js:361 | a missing or empty pin count stands for 8 pins |
| PcbDesigner.PinRowCountNumeric | md-to-schematic/ai-easyeda-compiler/auto-pcb-designer-original.js:361-362 | a printed pin count `n` gives `min(n, 10)` rows |
| PcbDesigner.PinRowCountNaN | md-to-schematic/ai-easyeda-compiler/auto-pcb-designer-original.js:361-362 | a pin count that does not parse gives no rows |
| PcbDesigner.PinRowsLines | md-to-schematic/ai-easyeda-compiler/auto-pcb-designer-original.js:362-364 | `k` pin rows are exactly `k` lines |
| PcbDesigner.EmitPinRows | md-to-schematic/ai-easyeda-compiler/auto-pcb-designer-original.js:362-364 | the row loop emits exactly the pin rows |
| PcbDesigner.SchematicLayout | md-to-schematic/ai-easyeda-compiler/auto-pcb-designer-optimized.js:415-439 | component `i` is `U{i+1}` at (100 + 200 i, 100); the VCC and GND nets list its pins at position `i` |
| PcbDesigner.PartsDistinct | md-to-schematic/ai-easyeda-compiler/auto-pcb-designer-optimized.js:424-430 | no two parts share an id or a position |
| PcbDesigner.PartDefaults | md-to-schematic/ai-easyeda-compiler/auto-pcb-designer-optimized.js:424-429 | a component without specs gets DIP-8 and 5V; a stored non-empty package is used as is |
| PcbDesigner.OriginalSchematicSpec | md-to-schematic/ai-easyeda-compiler/auto-pcb-designer-original.js:390-427 | the original schematic has the same parts and nets, and its metadata are prefixes of at most 500 characters of the requirement and the knowledge context |
| PcbDesigner.OptimizedDesigner.constructor | md-to-schematic/ai-easyeda-compiler/auto-pcb-designer-optimized.js:20-32 | a new designer has its inputs directory, no processed files, no project history and no master index |
| PcbDesigner.OriginalDesigner.constructor | md-to-schematic/ai-easyeda-compiler/auto-pcb-designer-original.js:21-31 | a new designer has its inputs directory, no processed files, no project history and no master index |
| KnowledgeLoader.LoadOrder | md-to-schematic/ai-easyeda-compiler/component-knowledge-loader.js:30-46 | loading keeps the Map's key order consistent with its contents, keys in first-appearance order, existing keys first |
| KnowledgeLoader.LoadLastWins | md-to-schematic/ai-easyeda-compiler/component-knowledge-loader.js:35-42 | a key holds the specs of the last loaded file that produced it |
| KnowledgeLoader.LoadKeepsOthers | md-to-schematic/ai-easyeda-compiler/component-knowledge-loader.js:35-42 | a key that no file produces keeps its old value |
| KnowledgeLoader.FirstOverlap | md-to-schematic/ai-easyeda-compiler/component-knowledge-loader.js:68-72 | the partial search returns the first key in insertion order that contains, or is contained in, the normalized name, and none exactly when there is none |
| KnowledgeLoader.EmptyNameMatchesFirst | md-to-schematic/ai-easyeda-compiler/component-knowledge-loader.js:57-72 | a name with no letters or digits gets the first loaded entry whenever neither it nor the empty key is stored |
| KnowledgeLoader.LookupNone | md-to-schematic/ai-easyeda-compiler/component-knowledge-loader.js:56-75 | getSpecs answers null exactly when the name is stored neither upper-cased nor normalized and no key overlaps the normalized name |
| KnowledgeLoader.LookupStored | md-to-schematic/ai-easyeda-compiler/component-knowledge-loader.js:56-75 | whatever getSpecs answers is the value of a stored key |
| KnowledgeLoader.SectionShape | md-to-schematic/ai-easyeda-compiler/component-knowledge-loader.js:93-146 | each context section starts with a `### ` heading, the requested name when nothing was found, and ends with the `---` rule |
| KnowledgeLoader.ComponentKnowledgeLoader.LoadAll | md-to-schematic/ai-easyeda-compiler/component-knowledge-loader.js:22-51 | nothing changes without the directory; otherwise each `_specs.json` file in listing order is parsed and set under its upper-cased key; the Map's size is returned |
| KnowledgeLoader.ComponentKnowledgeLoader.GetSpecs | md-to-schematic/ai-easyeda-compiler/component-knowledge-loader.js:56-75 | the three-step lookup loop returns exactly the specified lookup |
| KnowledgeLoader.ComponentKnowledgeLoader.ComponentList | md-to-schematic/ai-easyeda-compiler/component-knowledge-loader.js:80-82 | the key list has no repeats and holds exactly the stored keys |
| KnowledgeLoader.ComponentKnowledgeLoader.GenerateComponentContext | md-to-schematic/ai-easyeda-compiler/component-knowledge-loader.js:87-150 | the context is the header then one section per requested name, in order |
| KnowledgeLoader.ComponentKnowledgeLoader.constructor | md-to-schematic/ai-easyeda-compiler/component-knowledge-loader.js:14-17 | a new loader holds an empty, well-formed knowledge map |
| PcbParser.CellsSpec | md-to-schematic/parser.js:32-34 | every cell is a non-blank trimmed `|` part, and every part that does not trim to nothing is a cell |
| PcbParser.PairsSpec | md-to-schematic/parser.js:38-40 | the row's assignments are the header/cell pairs in index order |
| PcbParser.LastValueSpec | md-to-schematic/parser.js:38-40 | reading a key finds its last assignment, and nothing when it was never assigned |
| PcbParser.RowOfSpec | md-to-schematic/parser.js:36-41 | every header is a key of the row and nothing else is; a header that does not recur later reads as the cell at its own index |
| PcbParser.RowsAreFittingLines | md-to-schematic/parser.js:31-43 | the rows are exactly the data lines whose cell count equals the header count, in order, each turned into its row |
| PcbParser.TableOfNone | md-to-schematic/parser.js:21-22 | a table exists exactly when the trimmed text has at least three lines |
| PcbParser.SeparatorUnread | md-to-schematic/parser.js:31 | line 1 is never read: texts differing only there give the same table |
| PcbParser.BlankCellDropsRow | md-to-schematic/parser.js:32-36 | a framed data line with one blank cell has too few cells and yields no row |
| PcbParser.SectionBodySpec | md-to-schematic/parser.js:51 | the section body lies between an occurrence of the heading and a `---` and holds no `---`; when the regular expression can match, a body is found |
| PcbParser.SectionWithTableSpec | md-to-schematic/parser.js:85-106 | the matched control or MOSFET section starts with the heading, ends with `---` and has a `|` after the heading |
| PcbParser.OneLineNoTable | md-to-schematic/parser.js:21-22 | text without a line break is no table |
| PcbParser.IrTableAsWrittenCut | md-to-schematic/parser.js:54-58 | as written, when the first three pipes share a line the text handed to parseTable is one line and no receiver is found |
| PcbParser.IrTableAsWrittenExample | md-to-schematic/parser.js:54-58 | for "\|a\|b\|", "\|-\|-\|", "\|1\|2\|" on three lines, only the header line is handed on, which is no table |
| PcbParser.IrTableExample | md-to-schematic/parser.js:54 | read as intended, the same section hands on the whole table |
| PcbParser.IrTableSpec | md-to-schematic/parser.js:54 | the intended table runs from a `|` to a `|` with no pipe of the section outside it, and exists whenever the section has a pipe |
| PcbParser.IrTableWhole | md-to-schematic/parser.js:54 | a table framed by pipe-free text is handed over whole |
| PcbParser.IrRowsCut | md-to-schematic/parser.js:51-58 | as written, a receiver section whose first three pipes share a line yields no receiver rows |
| PcbParser.IrRowsFixedWhole | md-to-schematic/parser.js:51-58 | read as intended, a receiver table framed by pipe-free text gives that table's rows |
| PcbParser.Title | md-to-schematic/parser.js:146-149 | the title is the text after the first `# ` up to the end of its line |
| PcbParser.IrComponentsSpec | md-to-schematic/parser.js:60-78 | one receiver and one OUT wire per receiver row, in row order |
| PcbParser.ControlConnectionsSpec | md-to-schematic/parser.js:91-99 | one control signal per row, in row order |
| PcbParser.MosfetComponentsSpec | md-to-schematic/parser.js:112-127 | n rows give 2n components, Q1..Qn each followed by its IR LED on channel k + 1 |
| PcbParser.MosfetConnectionsSpec | md-to-schematic/parser.js:128-137 | n rows give 2n connections, each gate wire from the shift register followed by its drain-to-cathode wire |
| PcbParser.MosfetNamesDistinct | md-to-schematic/parser.js:116 | the MOSFET names are pairwise distinct |
| PcbParser.PCBSpecParser.constructor | md-to-schematic/parser.js:10-15 | a new parser holds the content and no components, connections or title |
| PcbParser.PCBSpecParser.ParseTable | md-to-schematic/parser.js:20-45 | parseTable returns exactly the specified table |
| PcbParser.PCBSpecParser.ParseIRReceivers | md-to-schematic/parser.js:50-79 | the receivers and their wires from the receiver section's table, as the lazy three-pipe regex cuts it, are appended |
| PcbParser.PCBSpecParser.ParseShiftRegisterInterface | md-to-schematic/parser.js:84-100 | the control signals of the control-signal section are appended |
| PcbParser.PCBSpecParser.ParseMOSFETMapping | md-to-schematic/parser.js:105-139 | the MOSFETs, LEDs and their wires of the mapping section are appended |
| PcbParser.PCBSpecParser.Parse | md-to-schematic/parser.js:144-167 | the title first, then the three sections in order (the receivers read through the lazy three-pipe regex), then the MCU `U1` and the shift register `U2` are appended, and the result reports that state |
| PcbParser.BuildIrParts | md-to-schematic/parser.js:60-78 | the receiver `forEach` builds exactly the receiver components and wires |
| PcbParser.BuildControlSignals | md-to-schematic/parser.js:91-99 | the control `forEach` builds exactly the control signals |
| PcbParser.BuildMosfetParts | md-to-schematic/parser.js:112-138 | the MOSFET `forEach` builds exactly the MOSFET components and wires |
| PcbParser.BuildRows | md-to-schematic/parser.js:30-43 | the data-line loop builds exactly the fitting rows |
| PcbParser.BuildRow | md-to-schematic/parser.js:37-40 | the header `forEach` builds exactly the row |
| PcbParser.ParsedLayout | md-to-schematic/parser.js:152-160 | receivers come first in row order, then each MOSFET with its LED, and the last two components are the MCU and the shift register |
| PcbParser.ClockAt | md-to-schematic/parser.js:188-193 | the UTC hour, minute and second fields are in range |
| PcbParser.GenerateFilename | md-to-schematic/parser.js:201-204 | the file name starts with the prefix, `pcb-data` when none is passed, and an underscore, and ends with `.json` |
| PcbParser.IstShift | md-to-schematic/parser.js:185-193 | the IST clock keeps the seconds, shifts the minutes by 30 and the hours by 5 with the half-hour carry, and takes the shifted day's date |
| PcbParser.StampShape | md-to-schematic/parser.js:189-195 | for four-digit years the stamp is fifteen characters, `YYYYMMDD_HHMMSS` |
| PcbParser.StampInjective | md-to-schematic/parser.js:189-195 | different in-range clocks give different stamps |
| PcbParser.PCBSpecParser.IrTableRows | md-to-schematic/parser.js:51-57 | the receiver rows are those of the text the lazy `\|[\s\S]*?\|[\s\S]*?\|` match hands on, none when the section, the match or its three lines are missing |
| PcbParser.PCBSpecParser.SectionTableRows | md-to-schematic/parser.js:85-88 | the rows of the table matched after the heading, none without a match or with fewer than three lines |
| LearningEngine.DecouplingWithoutIcs | md-to-schematic/ai-easyeda-compiler/learning-engine.js:257-265 | a schematic without ICs passes the decoupling check, even with no components; only a missing component list fails outright |
| LearningEngine.DecouplingStep | md-to-schematic/ai-easyeda-compiler/learning-engine.js:261-264 | adding a non-IC capacitor keeps a passing design passing; adding a non-capacitor IC to a design with as many capacitors as ICs makes it fail |
| LearningEngine.AnyPresentSpec | md-to-schematic/ai-easyeda-compiler/learning-engine.js:294-339 | the EMI, ESD and scalability checks pass exactly when some component is of the kind |
| LearningEngine.GradeMonotone | md-to-schematic/ai-easyeda-compiler/learning-engine.js:208-244 | a higher percentage never earns a worse grade, and a design counts as successful exactly when its grade is A or B |
| LearningEngine.EvaluateSpec | md-to-schematic/ai-easyeda-compiler/learning-engine.js:67-198 | maxScore is 100; the score is a multiple of 5 between 0 and 100, is 100 exactly when every check passes, and each failing check leaves one issue or recommendation |
| LearningEngine.PlaceholdersPass | md-to-schematic/ai-easyeda-compiler/learning-engine.js:270-330 | the placeholder checks always pass, so the score is at least 60 and only the decoupling check can raise an issue |
| LearningEngine.RecordedAllBalanced | md-to-schematic/ai-easyeda-compiler/learning-engine.js:242-248 | from fresh metrics, totalDesigns counts the evaluations and equals successful plus failed |
| LearningEngine.RecordedAllCounts | md-to-schematic/ai-easyeda-compiler/learning-engine.js:244-248 | successfulDesigns counts the evaluations at or above 80 and failedDesigns the ones below |
| LearningEngine.ReasonOf | md-to-schematic/ai-easyeda-compiler/learning-engine.js:350 | a missing or empty reason counts as the non-empty 'Unknown' |
| LearningEngine.CountsOfSpec | md-to-schematic/ai-easyeda-compiler/learning-engine.js:347-353 | the failure Map holds exactly the reasons seen, each with its number of occurrences |
| LearningEngine.RepeatedSpec | md-to-schematic/ai-easyeda-compiler/learning-engine.js:355-363 | the reasons that get a rule are exactly the distinct reasons occurring at least three times, each once with its count |
| LearningEngine.RulesAppendOnly | md-to-schematic/ai-easyeda-compiler/learning-engine.js:374-410 | generating rules only appends: the old file, or the header the first rule writes, stays at the front |
| LearningEngine.RuleEntryShape | md-to-schematic/ai-easyeda-compiler/learning-engine.js:382-386 | the severity is CRITICAL exactly from five occurrences on, and the entry opens with its rule number and reason |
| LearningEngine.Recent | md-to-schematic/ai-easyeda-compiler/learning-engine.js:428 | `slice(-5)` keeps five evaluations, or all when there are fewer |
| LearningEngine.TrendWindow | md-to-schematic/ai-easyeda-compiler/learning-engine.js:420-450 | only the last five evaluations matter, and the trend is improving exactly when the newest beats the fifth newest by more than 10 |
| LearningEngine.SuggestionsWithinMissing | md-to-schematic/ai-easyeda-compiler/learning-engine.js:457-515 | the suggestions never promise more points than the design is missing, the derating fix never appears, and the decoupling fix alone appears exactly for a failing decoupling check below 80 |
| LearningEngine.LearningEngine.EvaluateDesign | md-to-schematic/ai-easyeda-compiler/learning-engine.js:67-251 | the evaluation is the nine-check score, it is stored, and the metrics record it |
| LearningEngine.LearningEngine.GenerateRuleFromFailure | md-to-schematic/ai-easyeda-compiler/learning-engine.js:369-414 | the rule entry numbered after the rules so far is appended to the file or its header, and counted |
| LearningEngine.LearningEngine.IdentifyRepeatedFailures | md-to-schematic/ai-easyeda-compiler/learning-engine.js:343-364 | one rule per repeated reason, in the Map's order, is appended and counted |
| LearningEngine.LearningEngine.GenerateRepeatedRules | md-to-schematic/ai-easyeda-compiler/learning-engine.js:357-363 | the loop over the counted reasons appends a rule for each count of 3 or more, in order |
| LearningEngine.CountFailures | md-to-schematic/ai-easyeda-compiler/learning-engine.js:347-353 | the counting pass yields the distinct reasons in first-appearance order, each mapped to its occurrence count |
| LearningEngine.LearningEngine.constructor | md-to-schematic/ai-easyeda-compiler/learning-engine.js:24-55 | a new engine starts from the stored metrics when there are some and the zero metrics otherwise, with no quality scores |
| TrainingData.SignalTypeFirstMatch | md-to-schematic/ai-training/training-data-generator.js:283-292 | the signal type is the first rule in order whose condition holds: it applies and no earlier one does |
| TrainingData.ControlSignalWins | md-to-schematic/ai-training/training-data-generator.js:284 | a control-signal connection is always "Digital Control", whatever its signal and pins |
| TrainingData.ValidateConnectionSpec | md-to-schematic/ai-training/training-data-generator.js:306-324 | one issue exactly for a gate without gate resistor, one warning exactly for a Pico driving the 74HC595, and nothing else |
| TrainingData.GetConnectionRecommendations | md-to-schematic/ai-training/training-data-generator.js:326-350 | the pushes build exactly the recommendation list |
| TrainingData.RecommendationCount | md-to-schematic/ai-training/training-data-generator.js:326-350 | three for a clock, two for data, three more for a gate: at most six, the gate advice last |
| TrainingData.RequiredPassiveCount | md-to-schematic/ai-training/training-data-generator.js:242-268 | two passives for an MCU, shift register or MOSFET, one for an IR receiver or IR LED, none otherwise |
| TrainingData.AnalyzeComponents | md-to-schematic/ai-training/training-data-generator.js:197-211 | one analysis per component, in order, with its knowledge entry, and requirements exactly when that entry has best practices |
| TrainingData.AnalyzeConnections | md-to-schematic/ai-training/training-data-generator.js:270-281 | one analysis per connection, in order, with at most one issue and six recommendations |
| TrainingData.AnalyzeConnectionsAppend | md-to-schematic/ai-training/training-data-generator.js:270-281 | analysing a longer list extends the analysis of its prefix |
| TrainingData.ValidateDesign | md-to-schematic/ai-training/training-data-generator.js:352-390 | start at 100; no capacitor is an error costing 20, no bulk capacitor a warning costing 5; MOSFETs and IR LEDs each add a warning; PASS exactly when there is no error |
| TrainingData.PowerBudgetOf | md-to-schematic/ai-training/training-data-generator.js:461-476 | the draw in tenths of a milliamp is 4 per IR receiver, 1000 per IR LED and 200 per IC, and the 1 A supply is advised exactly above 500 mA |
| TrainingData.CountsDisjoint | md-to-schematic/ai-training/training-data-generator.js:462-464 | the three counted groups together count each component at most once |
| TrainingData.SixLedsNeedAnAmp | md-to-schematic/ai-training/training-data-generator.js:466-475 | six IR LEDs already need the 1 A supply |
| TrainingData.PowerBudgetMonotone | md-to-schematic/ai-training/training-data-generator.js:466 | adding a component never lowers the budget |
| TrainingData.PerformCalculations | md-to-schematic/ai-training/training-data-generator.js:438-490 | the LED resistor value is given exactly when there is an IR LED, and the power budget is always given |
| TrainingData.GenerateTrainingDataset | md-to-schematic/ai-training/training-data-generator.js:651-672 | one example per file in order and a count equal to the number of files; a file that does not parse makes the whole call throw |
| DesignAssistant.ExtractCommunication | md-to-schematic/ai-training/ai-design-assistant.js:58-62 | a protocol is listed exactly when the lower-cased input names it, in list order |
| DesignAssistant.SuggestMcu | md-to-schematic/ai-training/ai-design-assistant.js:90-127 | one to three options in Pico, ATmega, ESP32 order, each present exactly when its keywords occur, and the general-purpose Pico exactly when none does |
| DesignAssistant.GenerateClarifyingQuestions | md-to-schematic/ai-training/ai-design-assistant.js:335-361 | the questions are the voltage, rate, range (IR designs only) and environment questions the input leaves open, in that order, then the size and layer questions: 2 to 6 in all |
| DesignAssistant.QuestionAskedIff | md-to-schematic/ai-training/ai-design-assistant.js:335-361 | a topic's question is asked exactly when the input does not mention the topic (the range question only for an IR design), and the size and layer questions always are |
| DesignAssistant.GenerateNetlist | md-to-schematic/ai-training/ai-design-assistant.js:595-613 | net `i + 1` for connection `i`, in order, named by its signal or a generated name, with its two endpoints as nodes |
| DesignAssistant.UnnamedNetsDistinct | md-to-schematic/ai-training/ai-design-assistant.js:598-601 | connections without a signal get distinct generated net names |
| DesignAssistant.VerifyCalculations | md-to-schematic/ai-training/ai-design-assistant.js:412-436 | each check is present exactly when its calculation is; the supply is OK below 1000 mA and warns above 500 mA |
| DesignAssistant.WarningAgreesWithSupply | md-to-schematic/ai-training/ai-design-assistant.js:412-436 | the supply check warns exactly when the training-data generator recommended the 1 A supply |
| DesignAssistant.CheckBestPractices | md-to-schematic/ai-training/ai-design-assistant.js:438-476 | each capacitor check passes or adds a suggestion, a missing decoupling capacitor also fails, and the test-point and labelling suggestions close the list |
| DesignAssistant.PracticeOutcomes | md-to-schematic/ai-training/ai-design-assistant.js:438-476 | each check's outcome is read back from the lists, and the report has 2 to 4 suggestions |
| DesignAssistant.PushPassiveIssues | md-to-schematic/ai-training/ai-design-assistant.js:380-392 | the inner loop appends exactly one warning per required passive of the component |
| DesignAssistant.PushConnectionIssues | md-to-schematic/ai-training/ai-design-assistant.js:395-407 | the inner loop appends exactly one error per issue of the connection |
| DesignAssistant.FindDetailedIssues | md-to-schematic/ai-training/ai-design-assistant.js:375-410 | the component issues, then the connection issues |
| DesignAssistant.PassiveIssuesAreWarnings | md-to-schematic/ai-training/ai-design-assistant.js:380-392 | every component issue is a warning |
| DesignAssistant.ConnectionIssuesAreErrors | md-to-schematic/ai-training/ai-design-assistant.js:395-407 | every connection issue is an error |
| DesignAssistant.WarningsBeforeErrors | md-to-schematic/ai-training/ai-design-assistant.js:375-410 | all warnings come before all errors |
| DesignAssistant.ErrorCount | md-to-schematic/ai-training/ai-design-assistant.js:395-407 | the error count is the number of connections into a MOSFET gate without a gate resistor |
| CompilerMvp.Excerpt | md-to-schematic/ai-easyeda-compiler/compiler-mvp.js:73-78 | an excerpt is the content's first 500 characters, the whole content when shorter |
| CompilerMvp.ExcerptIdempotent | md-to-schematic/ai-easyeda-compiler/compiler-mvp.js:73-78 | excerpting an excerpt changes nothing, and keeps a file whole exactly when it has at most 500 characters |
| CompilerMvp.BuildSystemPrompt | md-to-schematic/ai-easyeda-compiler/compiler-mvp.js:67-123 | the rule and example loops build exactly the system prompt |
| CompilerMvp.SystemPromptHasEveryFile | md-to-schematic/ai-easyeda-compiler/compiler-mvp.js:72-79 | every rule and example file has its section in the system prompt, none holding more than 500 characters of its file |
| CompilerMvp.BuildUserPrompt | md-to-schematic/ai-easyeda-compiler/compiler-mvp.js:126-134 | the requirement loop builds exactly the user prompt |
| CompilerMvp.FencedBody | md-to-schematic/ai-easyeda-compiler/compiler-mvp.js:192 | the fenced capture lies between the first opening fence and the first closing fence after it, and there is no capture when no closing fence follows |
| CompilerMvp.ParseAIResponse | md-to-schematic/ai-easyeda-compiler/compiler-mvp.js:186-211 | the design is the parse of the chosen JSON text exactly when that parses; otherwise the error says the AI did not give valid JSON |
| CompilerMvp.FencedBlockPreferred | md-to-schematic/ai-easyeda-compiler/compiler-mvp.js:192-194 | a response opening with a fenced JSON block yields that block, whatever follows it |
| CompilerMvp.UnfencedFallbacks | md-to-schematic/ai-easyeda-compiler/compiler-mvp.js:195-201 | without a fenced block the braces span is parsed, and without braces the whole response |
| CompilerMvp.ConvertComponent | md-to-schematic/ai-easyeda-compiler/compiler-mvp.js:236-251 | a converted component keeps its designator, value and package and always has a type |
| CompilerMvp.BareComponentDefaults | md-to-schematic/ai-easyeda-compiler/compiler-mvp.js:238-250 | a component with only a designator gets type Component, the origin, no rotation and empty LCSC and manufacturer |
| CompilerMvp.GivenFieldsKept | md-to-schematic/ai-easyeda-compiler/compiler-mvp.js:238-250 | a component that states every field keeps them all |
| CompilerMvp.NetColor | md-to-schematic/ai-easyeda-compiler/compiler-mvp.js:258-259 | GND is black, any other name containing VCC red, the rest green |
| CompilerMvp.ConvertNet | md-to-schematic/ai-easyeda-compiler/compiler-mvp.js:255-262 | a converted net keeps its name and connections, none when missing, with width 1 |
| CompilerMvp.ConvertToEasyEDA | md-to-schematic/ai-easyeda-compiler/compiler-mvp.js:226-286 | the schematic has the document type and version, one converted component and net per design entry in order, and the two fixed power ports |
| CompilerMvp.GenerateBom | md-to-schematic/ai-easyeda-compiler/compiler-mvp.js:292-316 | the row loop builds exactly the BOM text |
| CompilerMvp.BomRowDefaults | md-to-schematic/ai-easyeda-compiler/compiler-mvp.js:306-307 | a missing LCSC number prints as TBD and a missing or zero quantity as 1 |
| CompilerMvp.BomRowsAreLines | md-to-schematic/ai-easyeda-compiler/compiler-mvp.js:302-309 | each BOM item is one table line when no field holds a line break |
| CompilerMvp.GenerateReport | md-to-schematic/ai-easyeda-compiler/compiler-mvp.js:366-395 | the report loops build exactly the report text |
| CompilerMvp.ReportCountsDesign | md-to-schematic/ai-easyeda-compiler/compiler-mvp.js:366-395 | the report summary of a converted design counts its components, nets and BOM items |
| CompilerMvp.ReportListsComponent | md-to-schematic/ai-easyeda-compiler/compiler-mvp.js:366-395 | the report lists every component of the schematic |
| CompilerMvp.ReportListsNet | md-to-schematic/ai-easyeda-compiler/compiler-mvp.js:366-395 | the report gives every net of the schematic with its connection count |
| CompilerMvp.Compile | md-to-schematic/ai-easyeda-compiler/compiler-mvp.js:402-464 | compilation succeeds exactly when there are requirement files, the model answers, the answer parses and the outputs are saved; without requirements it fails with no error; the BOM and the report each print their own clock reading |
| CompilerMvp.SaveErrorFails | md-to-schematic/ai-easyeda-compiler/compiler-mvp.js:432-456 | an error thrown while saving a valid design's outputs is caught and returned as the failure |
| CompilerMvp.NoRequirementsNoModel | md-to-schematic/ai-easyeda-compiler/compiler-mvp.js:409-414 | without requirement files the model is never consulted |
| CompilerMvp.UnparsableResponseFails | md-to-schematic/ai-easyeda-compiler/compiler-mvp.js:402-464 | a response the parser rejects fails with the parser's message |
| EasyedaConvert.Numbered | md-to-schematic/ai-easyeda-compiler/convert-to-easyeda.js:39-104 | shape i of the document carries the identifier gge(i+1) and the i-th shape body, and there are as many shapes as bodies |
| EasyedaConvert.NumberedDistinct | md-to-schematic/ai-easyeda-compiler/convert-to-easyeda.js:158 | no two shapes of a document share a gge identifier |
| EasyedaConvert.FlagBody | md-to-schematic/ai-easyeda-compiler/convert-to-easyeda.js:189-197 | a power flag sits at the symbol's position and is a GND flag exactly when the symbol's type is GND, a VCC flag otherwise |
| EasyedaConvert.FlagBodies | md-to-schematic/ai-easyeda-compiler/convert-to-easyeda.js:84-92 | one power flag per power symbol |
| EasyedaConvert.LabelBodies | md-to-schematic/ai-easyeda-compiler/convert-to-easyeda.js:95-104 | one text shape per label |
| EasyedaConvert.NumberedSnoc | md-to-schematic/ai-easyeda-compiler/convert-to-easyeda.js:39 | appending a body to the document numbers it one past the shapes already there, leaving those unchanged |
| EasyedaConvert.Push | md-to-schematic/ai-easyeda-compiler/convert-to-easyeda.js:46-47 | pushing a shape with the running counter keeps the document equal to the numbered bodies so far and the counter one past their count |
| EasyedaConvert.ToStandard | md-to-schematic/ai-easyeda-compiler/convert-to-easyeda.js:17-107 | the title defaults to "AI Generated Schematic" and the description to empty, and the shapes are the component, wire, power-flag and label bodies numbered gge1, gge2, … in that order |
| EasyedaConvert.PushPart | md-to-schematic/ai-easyeda-compiler/convert-to-easyeda.js:45-65 | a component adds its symbol, its designator text and its value text under the next three identifiers |
| EasyedaConvert.EmitComponents | md-to-schematic/ai-easyeda-compiler/convert-to-easyeda.js:38-66 | the component loop adds exactly the bodies of the components that are not notes, numbered on from the shapes already there |
| EasyedaConvert.EmitWires | md-to-schematic/ai-easyeda-compiler/convert-to-easyeda.js:69-81 | the net loop adds one wire for each net with more than one connection, numbered on |
| EasyedaConvert.EmitFlags | md-to-schematic/ai-easyeda-compiler/convert-to-easyeda.js:84-92 | the power-symbol loop adds one flag per symbol, numbered on |
| EasyedaConvert.EmitLabels | md-to-schematic/ai-easyeda-compiler/convert-to-easyeda.js:95-104 | the label loop adds one text per label, numbered on |
| EasyedaConvert.ComponentBodiesCount | md-to-schematic/ai-easyeda-compiler/convert-to-easyeda.js:41-66 | there are three shapes per component that is not a note |
| EasyedaConvert.NetBodiesCount | md-to-schematic/ai-easyeda-compiler/convert-to-easyeda.js:70-81 | there is one wire per net with at least two connections |
| EasyedaConvert.StandardShapeCount | md-to-schematic/ai-easyeda-compiler/convert-to-easyeda.js:17-107 | the Standard document has 3 shapes per non-note component, 1 per wired net, 1 per power symbol and 1 per label |
| EasyedaConvert.TextsFollowTheirSymbol | md-to-schematic/ai-easyeda-compiler/convert-to-easyeda.js:46-65 | each symbol is followed by its designator text at (x-20, y-30) and its value text at (x-20, y+40), both 10 high |
| EasyedaConvert.LabelSizeDefault | md-to-schematic/ai-easyeda-compiler/convert-to-easyeda.js:97-103 | a label without a size is drawn 12 high at its own position |
| EasyedaConvert.ProNets | md-to-schematic/ai-easyeda-compiler/convert-to-easyeda.js:143-147 | one Professional net per net |
| EasyedaConvert.ToProfessional | md-to-schematic/ai-easyeda-compiler/convert-to-easyeda.js:112-150 | the Professional shapes are the non-note components in order followed by one net shape per net |
| EasyedaConvert.ProComponentsAreParts | md-to-schematic/ai-easyeda-compiler/convert-to-easyeda.js:134-140 | the Professional components are exactly the non-note components, in order, each carried over by createProComponent |
| EasyedaConvert.ProfessionalShapeCount | md-to-schematic/ai-easyeda-compiler/convert-to-easyeda.js:112-150 | the Professional document has one shape per non-note component plus one per net |
| EasyedaConvert.TextLines | md-to-schematic/ai-easyeda-compiler/convert-to-easyeda.js:258-269 | the text export has the header line, one line per shape and the closing line |
| EasyedaConvert.ToEasyEDAText | md-to-schematic/ai-easyeda-compiler/convert-to-easyeda.js:255-272 | the text is the header, each shape's JSON with a comma after all but the last, and `]}`, joined by newlines |
| EasyedaConvert.TextLineCount | md-to-schematic/ai-easyeda-compiler/convert-to-easyeda.js:255-272 | when no shape's JSON holds a newline, splitting the text at newlines gives back exactly those lines, one per shape plus two |
| EasyedaConvert.CompilerPowerPortsDropped | md-to-schematic/ai-easyeda-compiler/convert-to-easyeda.js:293-299 | converting the compiler's schematic.json yields no power flag and the default title, since the compiler writes neither power_symbols nor title |
| EasyedaConvert.NoFlagsAmongParts | md-to-schematic/ai-easyeda-compiler/convert-to-easyeda.js:41-66 | component shapes are never power flags |
| EasyedaConvert.NoFlagsAmongWires | md-to-schematic/ai-easyeda-compiler/convert-to-easyeda.js:70-81 | wire shapes are never power flags |
| EasyedaImport.ValidateSchematicJson | md-to-schematic/ai-easyeda-compiler/easyeda-extension/main.js:172-191 | a document is accepted exactly when it was loaded, its docType, version, components and nets are all present and truthy, and the docType is exactly "EasyEDA Schematic" |
| EasyedaImport.CompiledSchematicIsValid | md-to-schematic/ai-easyeda-compiler/easyeda-extension/main.js:172-191 | every schematic the compiler writes passes the extension's check |
| EasyedaImport.FixedTermsIgnoreValue | md-to-schematic/ai-easyeda-compiler/easyeda-extension/main.js:265-279 | diodes, resistors, capacitors and connectors are searched for by their type's fixed keyword, whatever their value |
| EasyedaImport.ModuleHeight | md-to-schematic/ai-easyeda-compiler/easyeda-extension/main.js:344-346 | a custom module is at least 300 high and at least 20 per pin, and is exactly one of the two |
| EasyedaImport.SymbolFor | md-to-schematic/ai-easyeda-compiler/easyeda-extension/main.js:250-290 | a component gets the library hit when the search finds one, a custom module symbol when it is a module and the search fails, and the placeholder otherwise; a custom module is tall enough for its pins |
| EasyedaImport.EveryComponentAccounted | md-to-schematic/ai-easyeda-compiler/easyeda-extension/main.js:215-245 | every component is counted once: imported, skipped, or written as a note |
| EasyedaImport.PartsAccounted | md-to-schematic/ai-easyeda-compiler/easyeda-extension/main.js:222-242 | when every component has a position, notes are neither imported nor skipped, and every other component is exactly one of the two |
| EasyedaImport.PlacedKeys | md-to-schematic/ai-easyeda-compiler/easyeda-extension/main.js:230-233 | a designator is in the component map afterwards exactly when it was before or a component under it was placed |
| EasyedaImport.PlacedKeepsEarlierEntries | md-to-schematic/ai-easyeda-compiler/easyeda-extension/main.js:148-158 | an update never drops a designator from the component map, so parts of the cleared drawing are still looked up |
| EasyedaImport.Pairs | md-to-schematic/ai-easyeda-compiler/easyeda-extension/main.js:407-413 | the pairs connected are connection i and connection i+1, one fewer than the connections |
| EasyedaImport.NetWiresBound | md-to-schematic/ai-easyeda-compiler/easyeda-extension/main.js:406-414 | a net draws at most one wire per consecutive pair |
| EasyedaImport.FullyPlacedNetIsWired | md-to-schematic/ai-easyeda-compiler/easyeda-extension/main.js:407-445 | when every endpoint is a placed part whose pin resolves, each consecutive pair gets its wire: k-1 wires for k connections |
| EasyedaImport.TextEndpointsDrawNothing | md-to-schematic/ai-easyeda-compiler/easyeda-extension/main.js:420-428 | endpoints that are not component/pin objects look up an undefined designator, so no wire is drawn unless a part was placed without a designator |
| EasyedaImport.TextOnlyNetDrawsNothing | md-to-schematic/ai-easyeda-compiler/easyeda-extension/main.js:396-428 | a net whose connections are all text draws no wire |
| EasyedaImport.TextOnlyNetsDrawNothing | md-to-schematic/ai-easyeda-compiler/easyeda-extension/main.js:375-415 | a list of such nets draws no wire |
| EasyedaImport.CompiledNetsDrawNoWire | md-to-schematic/ai-easyeda-compiler/easyeda-extension/main.js:420-428 | the compiler writes its connections as "U1.8" text, so whichever of its nets the editor creates, importing its output draws no wire at all |
| EasyedaImport.ReadEndpoint | md-to-schematic/ai-easyeda-compiler/easyeda-extension/main.js:422-423 | the evidently intended reading of a compiler connection splits at the first '.' into designator and pin, and anything without a '.' stays text |
| EasyedaImport.ReadEndpointOfPin | md-to-schematic/ai-easyeda-compiler/easyeda-extension/main.js:422-423 | reading "designator.pin" recovers both halves |
| EasyedaImport.ReadConnectionsAreWired | md-to-schematic/ai-easyeda-compiler/easyeda-extension/main.js:420-445 | with that reading, two consecutive connections between placed parts whose pins resolve do get their wire |
| EasyedaImport.PowerSymbolKind | md-to-schematic/ai-easyeda-compiler/easyeda-extension/main.js:472 | a symbol is placed as ground exactly when its type is GND, and as power otherwise |
| EasyedaImport.PowerCallsSpec | md-to-schematic/ai-easyeda-compiler/easyeda-extension/main.js:454-482 | when every symbol has a position, each is placed, in order, as ground exactly when its type is GND |
| EasyedaImport.LabelSize | md-to-schematic/ai-easyeda-compiler/easyeda-extension/main.js:498 | a label's size is its own when given and non-zero, 12 otherwise |
| EasyedaImport.LabelCallsCount | md-to-schematic/ai-easyeda-compiler/easyeda-extension/main.js:490-504 | at most one text per label, and exactly one each when every label has a position |
| EasyedaImport.NoteTextsSpec | md-to-schematic/ai-easyeda-compiler/easyeda-extension/main.js:506-516 | the notes written are the positioned notes at the front of the list, in order, each 10 high in grey; the first note without a position stops the rest |
| EasyedaImport.FindGroup | md-to-schematic/ai-easyeda-compiler/easyeda-extension/main.js:591-595 | the group found has the key asked for, and no group has it when none is found |
| EasyedaImport.GroupSizesSum | md-to-schematic/ai-easyeda-compiler/easyeda-extension/main.js:585-599 | the group sizes add up to the number of components |
| EasyedaImport.GroupsOfSpec | md-to-schematic/ai-easyeda-compiler/easyeda-extension/main.js:585-599 | the groups' keys are the distinct component_value_package keys in order of first appearance, and each group holds exactly the components with its key, in input order, and is never empty |
| EasyedaImport.WithKeySnoc | md-to-schematic/ai-easyeda-compiler/easyeda-extension/main.js:588-596 | one more component under a key adds it to that key's components only |
| EasyedaImport.BomListsEveryGroup | md-to-schematic/ai-easyeda-compiler/easyeda-extension/main.js:565-580 | the BOM table has a row for every group |
| EasyedaImport.NetIssuesSpec | md-to-schematic/ai-easyeda-compiler/easyeda-extension/main.js:614-622 | there is one issue per net with fewer than two connections, and issue i names the i-th such net |
| EasyedaImport.CleanReportIffConnected | md-to-schematic/ai-easyeda-compiler/easyeda-extension/main.js:632-637 | the design is reported clean exactly when no net has fewer than two connections |
| EasyedaImport.Importer.constructor | md-to-schematic/ai-easyeda-compiler/easyeda-extension/main.js:24-29 | a new importer has empty component and net maps and has drawn nothing |
| EasyedaImport.Importer.ImportComponents | md-to-schematic/ai-easyeda-compiler/easyeda-extension/main.js:215-245 | the imported and skipped counters, the component map and the note texts follow the per-component outcome in order |
| EasyedaImport.Importer.ConnectComponents | md-to-schematic/ai-easyeda-compiler/easyeda-extension/main.js:420-449 | at most one wire is added, and only between placed parts whose pins resolve |
| EasyedaImport.Importer.CreateNet | md-to-schematic/ai-easyeda-compiler/easyeda-extension/main.js:396-415 | when the editor creates the net, its object is recorded under the net's name and the wires of the consecutive connection pairs are added; when `api.createNet` throws, nothing is recorded or wired |
| EasyedaImport.Importer.CreateNets | md-to-schematic/ai-easyeda-compiler/easyeda-extension/main.js:375-391 | every net is tried in order, each in its own try; the count is the number of nets the editor created, and only those are recorded and wired |
| EasyedaImport.CreatedNets | md-to-schematic/ai-easyeda-compiler/easyeda-extension/main.js:381-388 | the created nets are nets of the list, each one the editor created, and every net the editor creates is among them |
| EasyedaImport.CreatedNetsAll | md-to-schematic/ai-easyeda-compiler/easyeda-extension/main.js:381-388 | when the editor creates every net, every net is created and counted |
| EasyedaImport.FailedNetSkipped | md-to-schematic/ai-easyeda-compiler/easyeda-extension/main.js:381-388 | a net whose `api.createNet` throws adds no net, no wire and no count |
| EasyedaImport.Importer.AddPowerSymbols | md-to-schematic/ai-easyeda-compiler/easyeda-extension/main.js:454-466 | the power symbols placed are those with a position, in order |
| EasyedaImport.Importer.AddLabels | md-to-schematic/ai-easyeda-compiler/easyeda-extension/main.js:487-517 | the positioned labels are written, then the front run of positioned notes |
| EasyedaImport.Importer.Populate | md-to-schematic/ai-easyeda-compiler/easyeda-extension/main.js:63-73 | components, nets, power symbols, labels and notes are imported in that order |
| EasyedaImport.Importer.ImportSchematic | md-to-schematic/ai-easyeda-compiler/easyeda-extension/main.js:34-85 | a document that fails validation changes nothing; a valid one is imported in full |
| EasyedaImport.Importer.ImportFromCompiler | md-to-schematic/ai-easyeda-compiler/easyeda-extension/main.js:90-117 | without compiler output nothing changes; otherwise the output is imported without the check, with no power symbols or labels |
| EasyedaImport.Importer.UpdateSchematic | md-to-schematic/ai-easyeda-compiler/easyeda-extension/main.js:122-167 | only with a schematic open, a compiler output file present and the first button chosen is the drawing cleared; it is then imported again when the file reads and parses, and stays cleared otherwise; the designator and net maps keep their earlier entries |
| EasyedaImport.Importer.GroupComponents | md-to-schematic/ai-easyeda-compiler/easyeda-extension/main.js:585-599 | the loop's groups are the grouping by component_value_package |
| EasyedaImport.Importer.CreateBomTable | md-to-schematic/ai-easyeda-compiler/easyeda-extension/main.js:565-580 | the BOM is the heading followed by one row per group |
| EasyedaImport.Importer.ValidateDesign | md-to-schematic/ai-easyeda-compiler/easyeda-extension/main.js:604-643 | without a document only the warning is shown; otherwise the issues of the underconnected nets, or the all-clear |
| SchematicLayout.QueryFor | md-to-schematic/easyeda-extension/main.js:59-96 | a component has a library query exactly when its type is IR_RECEIVER, SHIFT_REGISTER, MOSFET or IR_LED, or it is an MCU whose model is the Raspberry Pi Pico |
| SchematicLayout.PlacedKeys | md-to-schematic/easyeda-extension/main.js:98-107 | a name is in the component map afterwards exactly when it was before or some attempt under that name found its library part |
| SchematicLayout.MosfetAttemptsCount | md-to-schematic/easyeda-extension/main.js:186-196 | n MOSFETs give n MOSFET attempts plus one LED attempt for each of them that has an LED of the same index |
| SchematicLayout.MosfetAttemptsAt | md-to-schematic/easyeda-extension/main.js:186-196 | MOSFET i is attempted at its grid slot, and LED i, when there is one, one spacing below it |
| SchematicLayout.ReceiverSlotsDistinct | md-to-schematic/easyeda-extension/main.js:166-176 | every IR receiver gets its own grid point, five to a row |
| SchematicLayout.ReceiversOverlapMosfets | md-to-schematic/easyeda-extension/main.js:170-187 | the fifth receiver lands on the first MOSFET and the tenth on the first LED, since the MOSFET columns start on the last receiver column |
| SchematicLayout.SeparateColumnsDoNotOverlap | md-to-schematic/easyeda-extension/main.js:179 | with the MOSFET columns starting one spacing further right, no receiver shares a point with a MOSFET or an LED |
| SchematicLayout.WireForIff | md-to-schematic/easyeda-extension/main.js:116-135 | a link is wired exactly when both its components are placed and both pins resolve |
| SchematicLayout.WiresBound | md-to-schematic/easyeda-extension/main.js:199-201 | at most one wire per link |
| SchematicLayout.UnnamedLinksDrawNothing | md-to-schematic/easyeda-extension/main.js:117-120 | links naming a component that no part is named after draw nothing; the parser names the Pico and the 74HC595 U1 and U2 while its links name them by model |
| SchematicLayout.LayoutFromParts | md-to-schematic/easyeda-extension/main.js:153-196 | every laid-out part is one of the components |
| SchematicLayout.MosfetAttemptsFrom | md-to-schematic/easyeda-extension/main.js:183-196 | every MOSFET-stage attempt is one of the MOSFETs or one of the LEDs |
| SchematicLayout.FoundEndpointsAreWired | md-to-schematic/easyeda-extension/main.js:116-135 | a link between two components whose library parts were found is wired whenever the editor resolves both pins |
| SchematicLayout.ModelNamesMatchLinks | md-to-schematic/easyeda-extension/main.js:117-118 | named after their models, the MCU and the shift register carry the names the links use and are still laid out as main parts |
| SchematicLayout.ParsedMainPartsNamedByDesignator | md-to-schematic/easyeda-extension/main.js:103 | the parser's MCU and shift register are named U1 and U2, not after their models |
| SchematicLayout.Converter.constructor | md-to-schematic/easyeda-extension/main.js:16-19 | a new converter has no data, an empty component map and has asked the editor for nothing |
| SchematicLayout.Converter.LoadPcbData | md-to-schematic/easyeda-extension/main.js:24-38 | data is loaded exactly when a file was picked; no pick changes nothing |
| SchematicLayout.Converter.PlaceComponent | md-to-schematic/easyeda-extension/main.js:55-111 | a component is placed, and recorded under its name, exactly when the library has its part |
| SchematicLayout.Converter.PlaceMain | md-to-schematic/easyeda-extension/main.js:153-160 | the MCU and shift register are attempted two spacings apart along the top row |
| SchematicLayout.Converter.PlaceReceivers | md-to-schematic/easyeda-extension/main.js:163-176 | the receivers are attempted five to a row on their grid slots |
| SchematicLayout.Converter.PlaceMosfets | md-to-schematic/easyeda-extension/main.js:179-196 | the MOSFETs are attempted five to a row, each with the LED of the same index below it |
| SchematicLayout.Converter.PlacePair | md-to-schematic/easyeda-extension/main.js:187-190 | one MOSFET and, when there is one, the LED of the same index |
| SchematicLayout.Converter.PlaceAll | md-to-schematic/easyeda-extension/main.js:150-196 | the three layout stages together are the whole layout |
| SchematicLayout.Converter.CreateConnections | md-to-schematic/easyeda-extension/main.js:199-201 | every link is drawn in order, each by createConnection |
| SchematicLayout.Converter.GenerateSchematic | md-to-schematic/easyeda-extension/main.js:140-207 | without data only the message is shown and nothing changes; otherwise one new document, the whole layout and every wire |
| SchematicLayout.LayoutPlaced | md-to-schematic/easyeda-extension/main.js:150-196 | placing the main parts, then the receivers, then the MOSFETs equals placing the whole layout |
| SchematicLayout.ColumnStep | md-to-schematic/easyeda-extension/main.js:171-175 | the column wraps to 0 and the row advances after the fifth component |
| SmartLearning.AiValidation | md-to-schematic/ai-easyeda-compiler/smart-learning-system.js:108-141 | the type and confidence are the parsed answer's; only the type "component" leads to a datasheet search; a failed call or an answer that does not parse gives "unknown" with no action |
| SmartLearning.ValidateComponent | md-to-schematic/ai-easyeda-compiler/smart-learning-system.js:60-103 | an instruction pattern wins over the IC patterns, an IC pattern alone makes a component, and the model is asked only when neither list matches |
| SmartLearning.RoutesOfInput | md-to-schematic/ai-easyeda-compiler/smart-learning-system.js:532-552 | an instruction is stored as given, a pattern-matched or model-confirmed component is searched under the input's own name, a failed model call stores the input as reference text, and any other answer stores it as a rule |
| SmartLearning.RouteKeepsInput | md-to-schematic/ai-easyeda-compiler/smart-learning-system.js:539-551 | every route searches for, stores, or stores behind the "[Reference] " prefix the input itself |
| SmartLearning.QuoteFrom | md-to-schematic/ai-easyeda-compiler/smart-learning-system.js:381-390 | the position returned holds the first quote at or after the start, and none is returned exactly when no quote follows the start |
| SmartLearning.NextHref | md-to-schematic/ai-easyeda-compiler/smart-learning-system.js:381-390 | a match found lies after its `href="` and ends before the end of the page |
| SmartLearning.NextHrefFirst | md-to-schematic/ai-easyeda-compiler/smart-learning-system.js:381-390 | the scan returns the first position at or after the start where `href="` is followed by an accepted quoted part, ending at the next quote, and returns nothing exactly when no such position remains |
| SmartLearning.NextHrefSound | md-to-schematic/ai-easyeda-compiler/smart-learning-system.js:381-390 | a match starts right after `href="` in any letter case, ends at the next quote, holds no quote and its captured part is accepted by the pattern |
| SmartLearning.HrefsSound | md-to-schematic/ai-easyeda-compiler/smart-learning-system.js:381-390 | every capture of the global regex is accepted by its pattern and holds no quote |
| SmartLearning.Prefixed | md-to-schematic/ai-easyeda-compiler/smart-learning-system.js:388-390 | each captured path is kept, behind the host prefix |
| SmartLearning.PushedAppends | md-to-schematic/ai-easyeda-compiler/smart-learning-system.js:381-390 | the exec loop appends the prefixed captures, in page order, to the links it started with |
| SmartLearning.PrefixedEmpty | md-to-schematic/ai-easyeda-compiler/smart-learning-system.js:385-387 | with no prefix the captures are pushed unchanged |
| SmartLearning.ExecLoop | md-to-schematic/ai-easyeda-compiler/smart-learning-system.js:381-390 | the `while (regex.exec)` loop pushes every capture of the page behind the prefix, in order |
| SmartLearning.ExtractDatasheetLinks | md-to-schematic/ai-easyeda-compiler/smart-learning-system.js:379-393 | the links are the quoted document links followed by the hosted page links, without repeats |
| SmartLearning.DatasheetLinksSpec | md-to-schematic/ai-easyeda-compiler/smart-learning-system.js:379-393 | the links have no repeats; a link is among them exactly when it is a quoted .pdf link or a /datasheet-pdf/ link behind the host; there are no more of them than captures |
| SmartLearning.PdfLinksFirst | md-to-schematic/ai-easyeda-compiler/smart-learning-system.js:381-392 | when the page has a .pdf link its first one comes first |
| SmartLearning.NoHrefNoLinks | md-to-schematic/ai-easyeda-compiler/smart-learning-system.js:381-390 | a page without `href="` in any letter case gives no links |
| SmartLearning.ExtractSpecsFromHtml | md-to-schematic/ai-easyeda-compiler/smart-learning-system.js:416-435 | the specs are one entry per spec key whose pattern matches, in key order |
| SmartLearning.SpecsOfEntries | md-to-schematic/ai-easyeda-compiler/smart-learning-system.js:416-435 | a key has an entry exactly when its pattern matches, and the entry holds the trimmed capture |
| SmartLearning.SearchAllDataSheet | md-to-schematic/ai-easyeda-compiler/smart-learning-system.js:237-267 | the search URL is the AllDataSheet search for the encoded name; detailed specs are fetched exactly when the page has a link, and then from its first link |
| SmartLearning.QueryPublicApis | md-to-schematic/ai-easyeda-compiler/smart-learning-system.js:311-334 | the result names the component and holds exactly one hit, the SnapEDA search for the encoded name |
| SmartLearning.AiSynthesize | md-to-schematic/ai-easyeda-compiler/smart-learning-system.js:351-374 | a profile results exactly when the model answers and its answer parses; every other outcome is the failure record |
| SmartLearning.CompleteFileName | md-to-schematic/ai-easyeda-compiler/smart-learning-system.js:474 | the file name keeps the name's ASCII letters and digits, turns every other character into '_', and ends in _complete.json |
| SmartLearning.PunctuationCollides | md-to-schematic/ai-easyeda-compiler/smart-learning-system.js:474 | names differing only in punctuation share one file, while letter case keeps names apart |
| SmartLearning.SaveAsJson | md-to-schematic/ai-easyeda-compiler/smart-learning-system.js:473-486 | the path written is returned exactly when the write succeeds, null otherwise |
| SmartLearning.StoreRule | md-to-schematic/ai-easyeda-compiler/smart-learning-system.js:440-468 | when the write succeeds, the rules file is its old content (or the default header) followed by `## Rule added <time>`, the text and a rule separator; a failed write gives its error |
| SmartLearning.GatherComponentData | md-to-schematic/ai-easyeda-compiler/smart-learning-system.js:146-232 | the result names the component and is stamped with the clock; each of the four sources keeps its own outcome or error; the synthesis is over all of them; the JSON file is saved |
| SmartLearning.ProcessInput | md-to-schematic/ai-easyeda-compiler/smart-learning-system.js:532-552 | the input is classified, then a rule stored or its data gathered along the route the classification picks; a gathered record holds the four sources, the synthesis of them, the clock reading and the saved path of that component |
| NexarApi.StripQuotes | md-to-schematic/ai-easyeda-compiler/nexar-api.js:24 | one leading and one trailing quote are removed, each on its own, so at most two characters go, and a value not starting or ending in a quote is kept as it is |
| NexarApi.ParseLine | md-to-schematic/ai-easyeda-compiler/nexar-api.js:23-24 | a line assigns only if it holds an '=', and the key it assigns is trimmed and holds no '=' and no '#' |
| NexarApi.LoadEnv | md-to-schematic/ai-easyeda-compiler/nexar-api.js:18-27 | the environment is the old one updated by every assigning line of the file, in order; with no file it is unchanged |
| NexarApi.TrimWithin | md-to-schematic/ai-easyeda-compiler/nexar-api.js:24 | trimming keeps only characters of the text |
| NexarApi.ParseAssignment | md-to-schematic/ai-easyeda-compiler/nexar-api.js:23-24 | a key=value line sets the trimmed key to the trimmed, unquoted value, split at the first '=' so the value may hold more of them |
| NexarApi.CommentLineIgnored | md-to-schematic/ai-easyeda-compiler/nexar-api.js:23 | a line whose first non-blank character is '#' sets nothing, even when it holds an '=' |
| NexarApi.PlainLineIgnored | md-to-schematic/ai-easyeda-compiler/nexar-api.js:23 | a line without '=' sets nothing |
| NexarApi.LastAssignmentWins | md-to-schematic/ai-easyeda-compiler/nexar-api.js:22-25 | a key holds the value of the last line that assigns it |
| NexarApi.UnassignedKept | md-to-schematic/ai-easyeda-compiler/nexar-api.js:22-25 | a key no line assigns keeps what the environment held, and stays unset if it was |
| NexarApi.CrlfLineIgnored | md-to-schematic/ai-easyeda-compiler/nexar-api.js:22-23 | as written, a line that keeps the '\r' of a CRLF file fails the match and sets nothing |
| NexarApi.CrlfLineFixed | md-to-schematic/ai-easyeda-compiler/nexar-api.js:22-24 | corrected, a CRLF line sets what the same line ending in a plain LF sets |
| NexarApi.Read | md-to-schematic/ai-easyeda-compiler/nexar-api.js:32-34 | a set variable reads as its value and an unset one as the empty string |
| NexarApi.GetCredentials | md-to-schematic/ai-easyeda-compiler/nexar-api.js:29-36 | the environment is loaded, then the client id, the client secret and the access token are read from it |
| NexarApi.SearchParts | md-to-schematic/ai-easyeda-compiler/nexar-api.js:131-141 | a stored token is used as it is; without one, a token is fetched only when both the id and the secret are set; with neither, the error is raised before any query; the default limit is 15 |

## Left out

- Network transport is not modelled. HTTP(S) requests, sockets, timeouts and stream piping become an abstract fetch that returns a status, headers and a body, or an error.
- Language-model calls to Ollama are not modelled. Each becomes a function parameter returning a text or an error. This covers their request and response envelopes, including `callOllama`'s `json.response \|\| ''`, and `pdf-parse`.
- `JSON.parse` and `JSON.stringify` are parameters, since JSON syntax is not part of the core. The GitHub search of the smart learning system is an abstract outcome for the same reason.
- File-system access (`existsSync`, `readFileSync`, `writeFile`, `mkdir`, `readdir`) becomes parameters: a read result, a write error, or a set of file names. The designers' own output files are written inside `processRequirement`, whose whole run is one abstract outcome per file.
- Regular expressions are modelled exactly only where they are literal alternations, prefix tests or simple character classes. The component-name tokenisation of the designers is a given list of matches. The smart-learning patterns and the spec-scraping patterns of `extractSpecsFromHTML` are given predicates or match functions.
- The clock (`Date.now`, `toISOString`, `toLocaleDateString`) and `generateUUID` are parameters. The date of the original designer's master index is an abstract `dateOf` parameter, because the source's `new Date(...)` of a rewritten time stamp needs the JavaScript date parser.
- Concurrency is not modelled: `Promise.allSettled`, `setInterval` watchers and `await` ordering. Batches of downloads run one after the other, in order.
- Floating point is replaced by integers. Percentages are whole numbers, which is exact because the maximum score is always 100. The power budget is kept in tenths of a milliamp. `toFixed` formatting is not modelled.
- Strings are sequences of characters. Lengths count characters, not UTF-16 code units. Upper and lower case are ASCII only.
- `encodeURIComponent` throws a URIError on a lone surrogate. That is not modelled: the encoder is a parameter, or works on code points.
- Console output is not modelled, and neither are the editor's `showMessage` texts, except where an operation returns them.
- The EasyEDA editor API (`api.*`) becomes functions for library search, placement, pin lookup and net creation. In the compiler's extension a failing search, placement or net creation is the `None` result of its function. The markdown extension's library lookup can return `None`, but its placement always returns a part.
- SchematicLayout.Converter.PlaceComponent: a placement that comes back null makes the source's `placedComponent.id` throw and abort generateSchematic (easyeda-extension/main.js:106). The model's placement always returns a part, so it does not capture that abort.
- DatasheetSearch.GuessedManufacturersSpec: the bound proved is the table's nine rows. The real maximum is three: only a name starting with "ads" matches two rows, ti and analog, and the fallback has three. That tighter bound is not proved.
- `exportToMarkdown` of the knowledge loader only writes a file, so it is not modelled.
- `generateBOM` and `exportManufacturing` of the compiler's extension are not modelled, because they only write files and call the editor. The table they write is `EasyedaImport.Importer.CreateBomTable`.
- `createSchematicDocument` of the compiler's extension is not modelled: it only creates an editor document. `fitView` is not modelled either.
- The markdown extension's `addPowerSymbols` is not modelled: it only looks up the VCC and GND symbols and places nothing. The extension reads its title from `metadata.title`, which the model takes as an optional title. A data file without `metadata` throws, and the model does not capture that.
- `getToken` and `graphql` of the Nexar client are parameters: they are request plumbing with no logic of their own.
- The command-line bodies are not modelled: parser.js's script, the smart learning system's CLI with its default input, and convert-to-easyeda.js's `main`. They only read and write files.
- `scrapeDetailedSpecs` is a stub in the source that returns an empty specs record. It is modelled as that record.
- CompilerMvp.Compile: a design that parses but has no `schematic` field makes the source throw a TypeError. The model does not capture this: its parsed design always has a schematic.
- DatasheetDownload.DownloadFile: redirects have no depth cap in the source, but the model follows them for a given amount of fuel. `SelfRedirectNeverSettles` shows that a redirect to itself reaches no verdict for any fuel.
- The comment above `identifyRepeatedFailures` says "more than three", but the code's test is `>= 3`. The model follows the code.
- The retry comment says the backoff is exponential, but the code waits `1000 * (attempt + 1)` ms, which is linear. The model follows the code.
- The "as written" behaviour is kept for the findings below wherever the same file uses it: `LoadEnv` uses `ParseLine`, `SchematicLayout` uses `MosfetStartX` and the parser's names, `EasyedaImport` reads connections as the extension does, `WordWrap` uses the as-written step, `PcbDesigner.ProjectOf` uses `ProjectNameAsWritten`, and the parser's receiver rows use `IrTableAsWritten`. The corrected definitions (`ParseLineFixed`, `ProjectName`, `IrTable` with `IrRowsFixed`, and the others named under Findings) stand beside them.
- EasyedaImport.Importer.UpdateSchematic: `clearDocument` is modelled as emptying the wires, texts, power symbols and labels drawn so far. The editor's own document is not modelled.
- DatasheetSearch.TypeKeywords: a type naming an `Object.prototype` member, such as "constructor", makes `typeKeywords[type]` a function, and the `for...of` over it throws. The model treats every type outside the table as having no keywords.
- KnowledgeLoader.TemperaturePart: a temperature bound that is JSON `null` prints as "null" in the source; the model has one absent value and prints it as "undefined".
- EasyedaConvert.LibBody: the rotation is kept as a number in the source's shape object; the model renders it as text.
- CompilerMvp.NetColor: a net without a `name` makes `.includes` throw in the source; the model's nets always have a name.
- DesignAssistant.IsBulkCapacitor: the case-insensitive `/µf/i` also accepts the Greek letters U+03BC and U+039C for `µ`; the model accepts only U+00B5.
- DatasheetSearch.Utf8: states only that a code point takes one to four bytes, each below 256, not the bit layout of each byte.

## Findings

| source | as written | input that shows it | evidently intended | confidence | as-written member | corrected member |
|---|---|---|---|---|---|---|
| md-to-schematic/ai-easyeda-compiler/datasheet-downloader.js:970-971 | `wordWrap` tests `currentLine.length + word.length > width` without counting the separating space | "aa bb" at width 4 stays one line of 5 characters | no wrapped line longer than the width | not executed | DatasheetText.WordWrapOverflow | DatasheetText.WrapWordsFixedBound |
| md-to-schematic/parser.js:54 | the lazy `/\|[\s\S]*?\|[\s\S]*?\|/` stops at the third pipe, which is the end of a two-column header line | a receiver section holding "\|a\|b\|", "\|-\|-\|", "\|1\|2\|" hands one line to `parseTable`, which returns null | the whole table, from its first to its last pipe | not executed | PcbParser.IrTableAsWrittenExample | PcbParser.IrTableExample |
| md-to-schematic/ai-easyeda-compiler/auto-pcb-designer-original.js:141 | `.replace('.md', '')` removes the first ".md" anywhere in the name | "v1.md-draft.md" gives the project name "v1-draft.md" | remove only the trailing extension | not executed | PcbDesigner.ProjectNameAsWrittenDropsInner | PcbDesigner.ProjectNameAgrees |
| md-to-schematic/easyeda-extension/main.js:179 | the MOSFET columns start at x = 100 + 300·4 = 1300, the last IR receiver column | the fifth receiver and the first MOSFET are both placed at (1300, 400) | separate columns | not executed | SchematicLayout.ReceiversOverlapMosfets | SchematicLayout.SeparateColumnsDoNotOverlap |
| md-to-schematic/easyeda-extension/main.js:117-118 | parts are mapped under `component.name`, which the parser sets to U1 and U2, while the links name the Pico and the 74HC595 by model | every link from the MCU or to the shift register draws no wire | main parts named as the links name them | not executed | SchematicLayout.UnnamedLinksDrawNothing | SchematicLayout.ModelNamesMatchLinks |
| md-to-schematic/ai-easyeda-compiler/easyeda-extension/main.js:422-423 | connections are read as `{component, pin}` objects, while the compiler writes them as "U1.8" text | a compiled schematic imports with no wire at all | split "designator.pin" at the first '.' | not executed | EasyedaImport.CompiledNetsDrawNoWire | EasyedaImport.ReadConnectionsAreWired |
| md-to-schematic/ai-easyeda-compiler/nexar-api.js:23 | `(.*)$` cannot match the '\r' that a CRLF `.env` leaves on each line after `split('\n')` | "NEXAR_ACCESS_TOKEN=abc\r" sets nothing | CRLF lines set what LF lines set | not executed | NexarApi.CrlfLineIgnored | NexarApi.CrlfLineFixed |
