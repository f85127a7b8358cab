# Accessibility report generator — a Dafny model

`xls_generator.py` reads the page-result documents of accessibility test runs and
turns them into the tables of an Excel workbook.

- **Structure recorder.** `TemplateAnalyzer` records, for each test, every dotted path
  that appears in its results, and keeps the first result object seen for each test.
- **Label resolver.** `AccessibilityReportGenerator` first gathers test documentation
  from run metadata and from the page results. It then gives each true `has…` issue
  flag a label: from the documentation when a check matches the flag, otherwise a
  fallback built from the test and flag names.
- **Report tables.** The label resolver then feeds these tables:
  - the summary (total pages, pages with tests, total issues, issues by type);
  - issues by URL and issues by site;
  - the detailed-results table, keyed by flattened result path with one column per
    page and per page breakpoint;
  - the documentation sheet;
  - the responsive pivots: the breakpoint matrix with its `Pass` / `Issues Found` /
    `Not Tested` status, the breakpoint summary with its per-breakpoint and per-type
    totals, the domain-by-breakpoint heatmap, the trend table by test type, and the
    mobile/desktop split.

`add_documentation_template.py` inserts a filled-in `TEST_DOCUMENTATION` template into a
test file. It derives the test name from the file name, fills in the name and the date,
and places the template after the first triple-quoted block that starts a line (usually
the module docstring), else after the last import, else at the top of the file. A file that already holds the marker is left alone.

## Structure of the model

- **Python values and containers.**
  - Python values are a `Json` datatype (`json.dfy`).
  - Dictionaries are insertion-ordered association lists `Dict<K, V>` (`dicts.dfy`). Key
    order matters to the report, so the model keeps it.
  - Python's string operations are in `strs.dfy`: `split`, `join`, `replace`, `title`,
    `capitalize` and `lower`.
- **How each operation is written.**
  - Each computation is a function that folds over its input from the end.
  - The source's loops are methods with `while` loops. Each loop carries the invariant
    that its accumulators equal that function on the prefix seen so far.
  - The two classes whose fields the source updates in place are Dafny classes: the
    analyzer's `structures`/`examples` and the generator's `test_documentation`.
- **Where the properties live.**
  - Each method's `ensures` ties it to its specification function.
  - The lemmas state what those functions promise: totals conserved, keys present
    exactly when a witness exists, first-found-wins registration, sortedness and
    permutation, round trips.
- **Outside inputs.**
  - Database queries, the clock and the regular-expression searches of the template
    script are parameters: the page results and runs as sequences, `now`/`today` as
    strings, and the match ends as `Option<nat>`.

Some behaviours of the code that the model keeps:

- **Structure recorder.** `_record_structure` records an entry for every key, including
  keys whose value is an object, not for leaves only (`xls_generator.py:39-46`).
- **Summary: where the counts come from.** The summary reads an issue's counts from
  `pageFlags.details` (`xls_generator.py:406`), not from a field beside `pageFlags`.
- **Summary: how many counts.** Every qualifying detail entry adds its own count, not
  only the first one (`xls_generator.py:406-419`). The default `count = 1` is never
  read on its own.
- **Documentation lookup: the example branch.** The `https://example.com` branch of
  `collect_test_documentation` (`xls_generator.py:196-209`) can never register
  anything. It repeats a nested lookup that the branch before it has already handled.
- **Documentation lookup: name variants.** Collection registers a test's documentation
  under its exact name only (`xls_generator.py:141-145`, `:181`, `:245`), so the lookup
  is not closed under name variants. `format_issue_name` then tries exactly five
  variants of the test name (`xls_generator.py:306-312`): the name itself, hyphens to
  underscores, underscores to hyphens, lower case, and no separators. None of them is
  upper case.
- **Flags without `has`.** A flag name that does not start with `has` is not an error:
  `format_issue_name` keeps it whole (`xls_generator.py:285`, `IssueLabels.StripHas`).
  Only the `startswith('has')` guards of the tables that call it keep such flags out
  (`xls_generator.py:403`, `:742`, `:799`).
- **Loading pass.** The loading pass in `generate_excel_report` overwrites existing
  entries, at `xls_generator.py:657` and `:667`. It is not first-found-wins.

## Model

All source paths but the last block are in `xls_generator.py`.

| member | source | states |
|---|---|---|
| StructureRecorder.TemplateAnalyzer.constructor | xls_generator.py:12-15 | the analyzer starts with no structures and no examples |
| StructureRecorder.TemplateAnalyzer.RecordStructure | xls_generator.py:36-46 | returns the given set extended by exactly the entries `Structure(data, path)` of the recursive walk |
| StructureRecorder.StructureUnderPath | xls_generator.py:40-46 | every entry recorded below a non-empty path starts with that path |
| StructureRecorder.TopLevelEntries | xls_generator.py:39-41 | every top-level key of an object is recorded as `key (type)` |
| StructureRecorder.LeafRecordsNothing | xls_generator.py:43-46 | a scalar, or a list whose first item is not an object, records nothing |
| StructureRecorder.TemplateAnalyzer.AnalyzeTestStructures | xls_generator.py:17-34 | the new `structures` and `examples` are the folds `Analyzed` and `FirstExamples` of the old ones over all page results |
| StructureRecorder.TemplateAnalyzer.AnalyzePage | xls_generator.py:26-32 | one page's tests update `structures` and `examples` as `AnalyzeTests` and `ExampleTests` say |
| StructureRecorder.AnalyzedGrows | xls_generator.py:26-28 | analysing more results never removes a test or an entry already recorded |
| StructureRecorder.AnalyzeTestsGrows | xls_generator.py:26-28 | the same for the tests of one page |
| StructureRecorder.FirstExampleKept | xls_generator.py:31-32 | once a test has an example, later results never replace it |
| StructureRecorder.ExampleTestsKept | xls_generator.py:31-32 | the same within one page |
| StructureRecorder.ExamplesHaveStructures | xls_generator.py:26-32 | every test with an example also has a structure entry, and its example is an object |
| StructureRecorder.ExampleTestsOrigin | xls_generator.py:26-32 | a newly kept example comes from a test that was analysed and is an object |
| Flattener.FlattenKeys | xls_generator.py:571-582 | a key is in the flattened dict if and only if it is the dotted path of a leaf |
| Flattener.Flatten | xls_generator.py:571-582 | the flattened dict: dotted paths to leaves, lists as `json.dumps` text and scalars as `str`; `FlattenKeys`, `FlattenUnique`, `FlattenPrefixed` and `FlattenGet` state its keys and values |
| Flattener.FlattenUnique | xls_generator.py:571-582 | flattening never produces the same key twice |
| Flattener.FlattenPrefixed | xls_generator.py:575 | with a prefix, every flattened key starts with `prefix.` |
| Flattener.FlattenGet | xls_generator.py:571-582 | for objects whose keys, at every level, are non-empty, unique and free of dots: a non-object value is stored under its dotted path as its cell text (JSON for a list, `str` otherwise); below an object, each path holds what flattening that object alone gives |
| Flattener.FlattenFlat | xls_generator.py:571-582 | flattening an already flat dict of strings gives it back unchanged |
| Flattener.FlattenTwice | xls_generator.py:571-582 | flattening is idempotent |
| JsonValue.DumpsPrintable | xls_generator.py:579 | `json.dumps` with ASCII escaping yields printable ASCII only |
| TableFormat.FormatIsRender | xls_generator.py:344-366 | the table text is its rendered lines joined by newlines |
| TableFormat.FormatTable | xls_generator.py:344-366 | the indented `key: value` / `- item` text of a value, `str` of a scalar; `FormatIsRender` and `SplitFormat` state its lines |
| TableFormat.ObjIsRender | xls_generator.py:352-358 | an object's text equals its line-by-line rendering: a `key:` line followed by the value's lines one level deeper for a container, `key: value` for a scalar; there are no lines exactly when the object is empty |
| TableFormat.ListIsRender | xls_generator.py:359-364 | the same for a list: `- item` for a scalar, a container at the list's own level; there are no lines exactly when the list is empty |
| TableFormat.RenderLinesFree | xls_generator.py:344-366 | when no string holds a newline, no rendered line holds one |
| TableFormat.SplitFormat | xls_generator.py:344-366 | splitting the table text at newlines recovers exactly the rendered lines |
| DocRegistry.Register | xls_generator.py:141-145 | a name already present is left alone (first found wins); otherwise the record is appended and found under that name |
| DocRegistry.RegisterExtends | xls_generator.py:141-145 | registering keeps every earlier entry unchanged and keeps the keys unique |
| DocRegistry.PhaseAExtends | xls_generator.py:134-157 | the pass over run documentation keeps every earlier entry and the keys unique |
| DocRegistry.PhaseBExtends | xls_generator.py:160-209 | the same for the pass over documentation stored with the page results |
| DocRegistry.PhaseCExtends | xls_generator.py:211-277 | the same for the nested-field pass |
| DocRegistry.PageCAsWrittenAgrees | xls_generator.py:237-277 | on a page where the scan as written finishes, it registers what the guarded scan registers |
| DocRegistry.PhaseCAsWrittenAgrees | xls_generator.py:233-277 | the same over all page results |
| DocRegistry.ScanOfNumberTest | xls_generator.py:260-277 | a test whose value is the number 1, with nothing registered, makes the scan as written fail, while the guarded scan registers nothing |
| DocRegistry.CollectedExtends | xls_generator.py:120-280 | collecting documentation never overwrites or loses an entry, and keys stay unique |
| DocRegistry.CollectedRegisters | xls_generator.py:170-180 | every test of a page result that carries documentation ends up registered |
| DocRegistry.OutputFieldIsName | xls_generator.py:232-250 | the field-name table maps every name to itself |
| DocRegistry.FirstDocFieldIs | xls_generator.py:271-277 | the search for a documented nested field finds the first such field, or none when there is none |
| DocRegistry.FindDocumentedField | xls_generator.py:271-277 | the loop returns the position of the first documented field |
| DocRegistry.LoadEntryEffect | xls_generator.py:642-658 | loading a run entry registers its lower-cased name; when one of its three keys is free, that key and the lower-cased name hold the record; keys outside the three are unchanged |
| DocRegistry.LoadOverwrites | xls_generator.py:654-657 | unlike collection, loading overwrites an entry already stored under the lower-cased name |
| DocRegistry.LoadInlineEffect | xls_generator.py:661-667 | inline documentation is stored under the lower-cased test name, overwriting, and nothing else changes |
| DocRegistry.AccessibilityReportGenerator.constructor | xls_generator.py:113-118 | the generator starts with no documentation |
| DocRegistry.AccessibilityReportGenerator.LoadRunDocumentation | xls_generator.py:622-667 | `test_documentation` becomes the loading pass `LoadPass` over the runs |
| DocRegistry.AccessibilityReportGenerator.LoadOneRun | xls_generator.py:624-667 | one run updates the documentation as `LoadRun` says and reports whether it held documentation |
| DocRegistry.AccessibilityReportGenerator.LoadDocumentationEntries | xls_generator.py:642-658 | the loop over a run's `documentation` entries applies `LoadEntry` to each in order |
| DocRegistry.AccessibilityReportGenerator.LoadDocumentationEntry | xls_generator.py:644-658 | the key loop stores the record under the first free key, and then under the lower-cased name; with no free key nothing changes |
| DocRegistry.AccessibilityReportGenerator.LoadInlineDocumentation | xls_generator.py:661-667 | the loop over a run's `tests` stores inline documentation as `LoadInline` says |
| DocRegistry.AccessibilityReportGenerator.CollectTestDocumentation | xls_generator.py:120-280 | `test_documentation` becomes `Collected` of the old one and is returned |
| DocRegistry.AccessibilityReportGenerator.CollectRuns | xls_generator.py:134-157 | the loop over the runs updates the documentation as `PhaseA` says; once a run raises, the rest are skipped, as the surrounding `try` does |
| DocRegistry.AccessibilityReportGenerator.CollectPages | xls_generator.py:160-209 | the loop over the page results updates the documentation as `PhaseB` says |
| DocRegistry.AccessibilityReportGenerator.ScanPages | xls_generator.py:211-277 | the nested-field loop updates the documentation as `PhaseC` says |
| DocRegistry.AccessibilityReportGenerator.CollectRun | xls_generator.py:134-157 | one run updates the documentation as `RunStep` says |
| DocRegistry.AccessibilityReportGenerator.CollectRunEntries | xls_generator.py:142-146 | the entries of a run's `documentation` are registered in order as `RunDocEntries` says |
| DocRegistry.AccessibilityReportGenerator.CollectRunTests | xls_generator.py:149-155 | the documented tests of a run's `tests` are registered in order as `RunTestEntries` says |
| DocRegistry.AccessibilityReportGenerator.CollectPage | xls_generator.py:160-209 | one page's tests update the documentation as `PageB` says |
| DocRegistry.AccessibilityReportGenerator.ScanPage | xls_generator.py:211-277 | one page's tests update the documentation as `PageC` says |
| DocRegistry.AccessibilityReportGenerator.ScanTest | xls_generator.py:213-277 | one test updates the documentation as `StepC` says |
| IssueLabels.StripHas | xls_generator.py:285 | a flag starting with `has` loses exactly that prefix; any other flag is kept |
| IssueLabels.CamelWordsSpec | xls_generator.py:287-297 | the words put back together give the text; each word holds an upper-case letter only at its start; every word after the first starts with one; no word is empty |
| IssueLabels.SplitCamelCase | xls_generator.py:287-297 | the character loop yields exactly those words |
| IssueLabels.CamelWordsOfConcat | xls_generator.py:287-297 | non-empty camel words written one after the other split back into exactly those words |
| IssueLabels.IssueTypeOfWords | xls_generator.py:284-299 | a flag `has` followed by capitalized words gets those words joined by spaces as its issue type |
| IssueLabels.TitleCasedJoin | xls_generator.py:299 | capitalized words joined by spaces are already in title case |
| Strs.TitleFixed | xls_generator.py:299 | `title()` leaves text already in title case unchanged |
| Strs.ParseIntDigits | xls_generator.py:1013 | `int()` on plain digits gives their value, the value the `isdigit()`-guarded keys at 448 and 561 use |
| Strs.ParseIntSigned | xls_generator.py:1013 | a leading `-` or `+` gives the negated or plain value |
| Strs.ParseIntPadded | xls_generator.py:1013 | whitespace around the text does not change the number |
| Strs.ParseIntGrouped | xls_generator.py:1013 | an `_` between two digit runs is skipped, so `int("3_000") == 3000` |
| Strs.ParseIntOfString | xls_generator.py:1013 | `int(str(i)) == i` for every integer |
| Strs.ParseIntNeedsDigit | xls_generator.py:1013 | text without a digit raises |
| IssueLabels.FormattedNameOfWord | xls_generator.py:300-303 | a one-word lower-case test name is shown with its first letter upper-cased |
| IssueLabels.FallbackOfWords | xls_generator.py:282-342 | with no documentation, such a test name and such a flag give `Name: Words Spaced`, as `forms` and `hasInputsWithoutLabels` give `Forms: Inputs Without Labels` |
| IssueLabels.Variants | xls_generator.py:306-312 | five name variants, the first the name itself and the fourth its lower case |
| IssueLabels.FirstDocumented | xls_generator.py:315-316 | the first variant with documentation, or none when no variant has any |
| IssueLabels.FirstVariantDecides | xls_generator.py:314-339 | the label comes from the documentation of the first documented variant |
| IssueLabels.FormatIssueName | xls_generator.py:282-342 | the issue label: the label of the first documented name variant's documentation, else `<Formatted Test>: <Issue Type>`; its properties are in `FirstVariantDecides`, `FallbackLabel` and `FallbackOfWords`, and the forms examples in `FormsFallback` and `FormsDocumented` |
| IssueLabels.DocLabel | xls_generator.py:317-339 | the label from one documentation entry: `<testName> - <check name>` for the first check whose results fields refer to the flag, else `<testName>: <Issue Type>`; `FirstMatch` and `MatchIsSuffix` state which check is used |
| IssueLabels.MatchIsSuffix | xls_generator.py:321-333 | a results field matches the flag's four patterns if and only if it ends with the flag name |
| IssueLabels.FirstMatch | xls_generator.py:321-336 | the first check with a matching results field, or none |
| IssueLabels.FallbackLabel | xls_generator.py:341-342 | with no documented variant the label is `<Formatted Test>: <Issue Type>` |
| IssueLabels.FallbackOfThree | xls_generator.py:282-342 | with no documentation, a one-word lower-case test name and a flag `has` followed by three capitalized words give `Name: A B C` |
| IssueLabels.FormsFallback | xls_generator.py:282-342 | with no documentation, test `forms` and flag `hasInputsWithoutLabels` give exactly "Forms: Inputs Without Labels" |
| IssueLabels.FirstMatchAt | xls_generator.py:321-336 | a check whose results fields refer to the flag, with none before it that does, is the one the label uses |
| IssueLabels.Check3Matches | xls_generator.py:321-336 | a check with three results fields refers to the flag if and only if one of those fields ends with the flag name |
| IssueLabels.DocOfLabel | xls_generator.py:317-336 | a documentation entry whose first matching check is check `i` gives `<testName> - <name of check i>` |
| IssueLabels.DocumentedLabel | xls_generator.py:314-336 | documentation registered under the test's own name decides the label through its first matching check |
| IssueLabels.ThirdCheckLabel | xls_generator.py:314-336 | when the first two checks miss the flag and the third names it, the third check's name is the label, whatever checks follow |
| IssueLabels.FormsDocumented | xls_generator.py:282-342 | with the forms documentation (`add_direct_documentation.py:164-254`, its first three checks and any that follow) registered under `forms`, the flag `hasInputsWithoutLabels` gives exactly "Form Accessibility Analysis - Input Field Labeling" |
| Summary.SummaryConsistent | xls_generator.py:384-424 | total issues equals the sum of issues by type; every by-type count is positive; pages with tests never exceed total pages |
| Summary.TallySum | xls_generator.py:415-419 | tallying issues adds exactly their total to the sum of the counts |
| Summary.TallyLabel | xls_generator.py:415-419 | the count under a label is the total of that label's issues |
| Summary.TallyPositive | xls_generator.py:416-419 | tallying keeps every count positive |
| Summary.QuietFlagsNoIssues | xls_generator.py:403 | with no true issue flag, a test yields no issues |
| Summary.CalculateSummary | xls_generator.py:384-426 | the loops compute exactly `SummaryOf` |
| Summary.CountPagesWithTests | xls_generator.py:421-424 | counts the results with a non-empty tests dict |
| Summary.TallyPage | xls_generator.py:392-419 | one page adds its issues to the total and to the tally by type |
| Summary.TallyTest | xls_generator.py:396-419 | the same for one test |
| Summary.TallyFlags | xls_generator.py:402-419 | the flag loop adds the flags' issues to the total and to the tally by type |
| Summary.TallyFlag | xls_generator.py:403-419 | a true `has…` flag adds its details' issues to the total and the tally; any other flag adds nothing |
| Summary.TallyDetails | xls_generator.py:406-419 | the same for the details of one flag |
| Summary.IssuesByUrlKeys | xls_generator.py:729-761 | a URL is listed if and only if some page with that URL had issues |
| Summary.IssuesByUrlLast | xls_generator.py:760-761 | the issues of the last such page are the ones listed |
| Summary.IssueRows | xls_generator.py:752-772 | one row per issue, carrying the URL, the issue's type, the Count cell as the code keeps it (`True` for a boolean detail, the integer otherwise) and the Details cell `Found <count> issue(s)` of that same value |
| Summary.IssueRowCells | xls_generator.py:749-757 | the Count and Details cells are the integer size and `Found <n> issue(s)`, or `True` and `Found True issue(s)` when the detail is the boolean `True` |
| Summary.TrueDetailRow | xls_generator.py:749-757 | a single `True` detail gives one row with Count `True` and Details `Found True issue(s)` |
| Summary.IssuesByUrlTable | xls_generator.py:729-772 | the block fails (`None`) exactly when some page with accessibility results has no `tests` key, where line 733 raises; otherwise it gives the rows of `IssuesByUrl` |
| Summary.CollectIssuesByUrl | xls_generator.py:729-761 | the page loop fails exactly when some page's direct `tests` lookup fails; otherwise it computes exactly `IssuesByUrl` |
| Summary.BuildUrlRows | xls_generator.py:763-772 | the row loop gives the URL rows in order, with the same Count and Details cells |
| Summary.AppendIssueRows | xls_generator.py:766-772 | the inner loop appends one URL's rows, in issue order |
| Summary.CollectPageIssues | xls_generator.py:736-758 | one page's loop collects exactly `PageIssues` |
| Summary.CollectTestIssues | xls_generator.py:736-758 | one test's loop collects exactly `TestIssues` |
| Summary.CollectDetailIssues | xls_generator.py:746-758 | one flag's detail loop collects exactly `DetailIssues` |
| Summary.NetlocEnd | xls_generator.py:782-783 | the network location ends at the first `/`, `?` or `#` |
| Summary.StripLeadingC0 | xls_generator.py:782 | `urlsplit` drops a prefix made only of C0 controls and spaces, and keeps the rest from the first other character |
| Summary.RemoveUnsafe | xls_generator.py:782 | `urlsplit` deletes every tab and line break and leaves text without them alone |
| Summary.StripLeadingPad | xls_generator.py:781-785 | leading C0 controls and spaces change neither the stripped URL nor the site |
| Summary.SchemeAndNetlocOfUrl | xls_generator.py:782-783 | `scheme://host` then a path, query or fragment parses into that scheme and that host |
| Summary.SiteUrlOfUrl | xls_generator.py:781-785 | such a URL whose host has no square brackets belongs to the site `scheme://host` |
| Summary.SiteUrl | xls_generator.py:781-785 | the site of a page URL, `scheme://netloc` or `Unknown Site`; `SiteUrlOfUrl`, `SiteUrlUnmatchedBracket`, `SiteUrlNotText` and `StripLeadingPad` state its cases |
| Summary.SiteUrlUnmatchedBracket | xls_generator.py:781-785 | such a URL whose host has a `[` without a `]`, or the reverse, makes parsing raise and counts under `Unknown Site` |
| Summary.SiteUrlNotText | xls_generator.py:781-785 | a falsy value that is not text gives the site `b''://b''`; a truthy one gives `Unknown Site` |
| Summary.SomeTestsMissingSnoc | xls_generator.py:730-733 | a prefix of the pages has a failing `tests` lookup exactly when a shorter prefix or the new page has one |
| Summary.SiteCountsCoverPages | xls_generator.py:811-817 | each site's tally has count at least pages affected, and pages affected at least 1 |
| Summary.BumpAllSums | xls_generator.py:811-817 | bumping adds the issues' total to the counts and one page per issue to the pages affected |
| Summary.IssuesBySiteTable | xls_generator.py:778-817 | the block fails (`None`) exactly when some page with accessibility results has no `tests` key, where line 788 raises; otherwise it computes exactly `IssuesBySite` |
| Summary.BumpIssues | xls_generator.py:798-817 | the bump loop computes `BumpAll` |
| Summary.SitePutTwice | xls_generator.py:790-791 | creating the site's empty entry first and then storing it is the same as storing it directly |
| DetailedResults.Urls | xls_generator.py:436-438 | one URL per page result, in order |
| DetailedResults.Texts | xls_generator.py:444-445 | each breakpoint as its text |
| DetailedResults.AddTexts | xls_generator.py:444-445 | the breakpoint loop adds the texts to the seen set |
| DetailedResults.SortedBreakpointsSpec | xls_generator.py:434-448 | each breakpoint seen appears exactly once, and the list is sorted numerically |
| DetailedResults.ColumnMapKeys | xls_generator.py:451-458 | a key is mapped if and only if it is a URL or a `url:breakpoint` key |
| DetailedResults.ColumnMapValues | xls_generator.py:451-458 | every mapped key maps to its URL column or its breakpoint column |
| DetailedResults.ColumnOfUrl | xls_generator.py:454 | with no collision, a URL maps to itself |
| DetailedResults.ColumnOfBreakpoint | xls_generator.py:458 | with no collision, `url:bp` maps to the column `url @ bppx` |
| DetailedResults.BpKeyInjective | xls_generator.py:458 | different URL and breakpoint pairs give different keys |
| DetailedResults.SetCellsGet | xls_generator.py:478-481 | each flattened key's value lands in that row of the page's column |
| DetailedResults.Pass1TestLeaf | xls_generator.py:475-481 | an object test result appears under its flattened paths |
| DetailedResults.Pass1TestScalar | xls_generator.py:482-484 | a scalar test result appears under the test's own name |
| DetailedResults.FormattedDataColumns | xls_generator.py:461-550 | every cell of the table is in a URL column or a breakpoint column |
| DetailedResults.NoIssuesIff | xls_generator.py:531-550 | the summary is `No issues` if and only if the issue list is empty |
| DetailedResults.IssueSummaryShape | xls_generator.py:534-547 | a non-empty list gives `N issue(s): …`, ending with `… more` if and only if there are more than two issues |
| DetailedResults.DetailsTextShape | xls_generator.py:544-546 | more than two details end the text with a `… more` note; otherwise it ends with the last detail's `)` |
| DetailedResults.UrlColumnKey | xls_generator.py:557-564 | a URL column sorts as (url, 0) |
| DetailedResults.BreakpointColumnKey | xls_generator.py:557-564 | `url @ Npx` sorts as (url, N) |
| DetailedResults.ColumnOrder | xls_generator.py:557-564 | a page's URL column comes before its breakpoint columns, and those come in ascending numeric order |
| DetailedResults.SortColumnsSpec | xls_generator.py:557-564 | the column sort fails exactly when some title's key fails; otherwise it is a permutation of the titles in key order |
| DetailedResults.SortColumns | xls_generator.py:557-564 | the columns sorted by `column_sort_key`, or `None` where a key raises; `SortColumnsSpec` and `ColumnOrder` state the order |
| DetailedResults.FormatDetailedResults | xls_generator.py:428-551 | the two passes compute exactly `FormattedData` |
| DetailedResults.FirstPass | xls_generator.py:464-484 | the first loop computes `Pass1` |
| DetailedResults.SecondPass | xls_generator.py:487-550 | the second loop computes `Pass2` |
| DetailedResults.DiscoverBreakpoints | xls_generator.py:433-445 | collects the URLs and the distinct breakpoints seen |
| DetailedResults.BuildColumnMap | xls_generator.py:451-458 | the column map loop computes `ColumnMap` |
| DetailedResults.FillPage | xls_generator.py:467-484 | one page of the first pass |
| DetailedResults.FillTest | xls_generator.py:475-484 | one test of the first pass |
| DetailedResults.FillCells | xls_generator.py:478-481 | writes each flattened entry into the column |
| DetailedResults.FillResponsivePage | xls_generator.py:489-550 | one page of the second pass |
| DetailedResults.FillBreakpoints | xls_generator.py:513-550 | the breakpoint loop writes the cells `BreakpointCells` says, skipping breakpoints without a column |
| DetailedResults.FillSummary | xls_generator.py:504-510 | writes the consolidated summary cells |
| DetailedResults.FillResponsiveTests | xls_generator.py:524-550 | writes one summary cell per responsive test |
| DetailedResults.SummarizeIssues | xls_generator.py:531-550 | computes the issue summary text |
| DetailedResults.SummaryText | xls_generator.py:543-547 | `N issue(s): ` followed by the details text |
| DetailedResults.DescribeIssues | xls_generator.py:536-541 | one description per issue |
| ResponsiveMatrix.DomainPageSplit | xls_generator.py:918-920 | the domain holds no `/`; domain, then `/` and the page when there is one, rebuilds the URL with `https://` and `http://` removed |
| ResponsiveMatrix.TestTypesSpec | xls_generator.py:902-913 | every test type seen appears exactly once, and the list is sorted |
| ResponsiveMatrix.ResultTestNamesHas | xls_generator.py:910-913 | a test present at some breakpoint is collected from that page |
| ResponsiveMatrix.AllTestNamesHas | xls_generator.py:905-913 | a name collected from some page is among all the names |
| ResponsiveMatrix.TypeRowsSpec | xls_generator.py:941-979 | one row per test type; a type absent at the breakpoint is `Not Tested`; a present one is `Issues Found` exactly when it has issues, otherwise `Pass` |
| ResponsiveMatrix.BreakpointRowsCount | xls_generator.py:930-939 | a breakpoint with results gives one row per test type, any other none |
| ResponsiveMatrix.BreakpointsRowsCount | xls_generator.py:927-982 | a page gives (test types) × (breakpoints with results) rows |
| ResponsiveMatrix.RunTestIsType | xls_generator.py:904-941 | every test run at any breakpoint is among the matrix's test types |
| ResponsiveMatrix.MatrixSorted | xls_generator.py:987 | the matrix is sorted by (domain, page, breakpoint, test) and is a permutation of the built rows |
| RowSort.SortBySorted | xls_generator.py:987 | the sorted rows are in key order; `SortBy`'s own contract keeps every row (the same multiset) |
| RowSort.SortByStable | xls_generator.py:987 | the sort is stable: the rows with any one key come out in the order they went in, as Python's `list.sort` guarantees |
| ResponsiveMatrix.CollectTestTypes | xls_generator.py:904-913 | the discovery loops compute `TestTypes` |
| ResponsiveMatrix.AddPageNames | xls_generator.py:906-913 | one page adds the test names found at its breakpoints |
| ResponsiveMatrix.AddNames | xls_generator.py:910-913 | adds names not yet seen, in order |
| ResponsiveMatrix.BuildMatrix | xls_generator.py:901-987 | the loops compute exactly `Matrix` |
| ResponsiveMatrix.PageMatrixRows | xls_generator.py:927-982 | one page's breakpoint loop |
| ResponsiveMatrix.TestTypeRows | xls_generator.py:941-982 | one breakpoint's test-type loop |
| ResponsiveTallies.TestsTotalDetails | xls_generator.py:1052-1061 | the tests' total is zero if and only if no test contributes a detail, and there is at most one detail per test |
| ResponsiveTallies.CountTests | xls_generator.py:1052-1061 | the loop computes the total and the details |
| ResponsiveTallies.BreakpointCountsSum | xls_generator.py:1047-1065 | the by-breakpoint counts grow by exactly the total of the page's breakpoint rows |
| ResponsiveTallies.BreakpointConservation | xls_generator.py:1000-1078 | the issues by breakpoint sum to the total of the breakpoint rows |
| ResponsiveTallies.TypeConservation | xls_generator.py:1016-1038 | the issues by type sum to the total of the summary type rows |
| ResponsiveTallies.AddCountersSum | xls_generator.py:1020-1026 | adding the counters adds their values to the sum |
| ResponsiveTallies.NoCounters | xls_generator.py:1020-1026 | an empty summary contributes nothing |
| ResponsiveTallies.PageTypeTotal | xls_generator.py:1020-1038 | a page's type rows total its summary counters, and are zero without a summary |
| ResponsiveTallies.IssueByBreakpointPositive | xls_generator.py:1064-1065 | every breakpoint listed has a positive count |
| ResponsiveTallies.SummaryBreakpointRows | xls_generator.py:1064-1078 | every breakpoint row has issues and a non-empty details text |
| ResponsiveTallies.BreakpointRowsShape | xls_generator.py:1064-1078 | the same for one page's rows |
| ResponsiveTallies.DomainsWithIssuesSpec | xls_generator.py:1042-1044 | a domain is listed if and only if some page of it reports issues |
| ResponsiveTallies.DomainStepSpec | xls_generator.py:1042-1044 | one page adds its domain exactly when it reports issues |
| ResponsiveTallies.AllBreakpointsSpec | xls_generator.py:1011-1013 | every listed breakpoint appears exactly once |
| ResponsiveTallies.AddBreakpoints | xls_generator.py:1011-1013 | adds the page's breakpoints not yet seen |
| ResponsiveTallies.CountTypes | xls_generator.py:1020-1026 | the loop adds the summary counters by type |
| ResponsiveTallies.BuildBreakpointSummary | xls_generator.py:992-1078 | the loops compute the rows, the breakpoints, both tallies and the domains |
| ResponsiveTallies.SummarizePage | xls_generator.py:1000-1078 | one page's step of each of them |
| ResponsiveTallies.SummarizeBreakpoints | xls_generator.py:1047-1078 | one page's breakpoint rows and counts |
| ResponsiveCharts.HeatmapTotal | xls_generator.py:1203-1235 | the heatmap's cells sum to the responsive issues of all pages |
| ResponsiveCharts.HeatStepTotal | xls_generator.py:1206-1235 | one page adds exactly its responsive issues |
| ResponsiveCharts.HeatmapRows | xls_generator.py:1213-1218 | a domain has a row if and only if some responsive page belongs to it |
| ResponsiveCharts.HeatStepKeys | xls_generator.py:1213-1218 | one page adds its domain's row exactly when it has responsive data |
| ResponsiveCharts.HeatmapCoversChart | xls_generator.py:1203-1235 | the breakpoint chart never counts more than the heatmap, and counts the same when every page is consolidated |
| ResponsiveCharts.ConsolidatedWithin | xls_generator.py:1203-1235 | consolidated issues never exceed responsive issues, and equal them when every page is consolidated |
| ResponsiveCharts.IssueByBreakpointTotal | xls_generator.py:1047-1065 | the issues by breakpoint sum to the consolidated issues |
| ResponsiveCharts.BreakpointCountsTotal | xls_generator.py:1047-1065 | the counts grow by the breakpoints' total |
| ResponsiveCharts.BuildHeatmap | xls_generator.py:1203-1235 | the loops compute exactly `Heatmap` |
| ResponsiveCharts.CountBreakpoints | xls_generator.py:1221-1235 | one page's breakpoint loop |
| ResponsiveCharts.TrendTotal | xls_generator.py:1341-1357 | the trend table sums to the pages' trend issues, which never exceed their responsive issues |
| ResponsiveCharts.TrendWithinHeatmap | xls_generator.py:1341-1357 | the trend table never counts more than the heatmap |
| ResponsiveCharts.TrendRows | xls_generator.py:1341-1343 | the trend has exactly the fixed test-type rows |
| ResponsiveCharts.TrendBreakpointsKeys | xls_generator.py:1351-1357 | one page keeps those rows |
| ResponsiveCharts.TrendBreakpointsTotal | xls_generator.py:1351-1357 | one page adds its trend issues, within its breakpoints' total |
| ResponsiveCharts.TrendTestsKeys | xls_generator.py:1355-1357 | one breakpoint keeps the rows |
| ResponsiveCharts.TrendIssuesWithin | xls_generator.py:1355-1357 | the trend counts of one breakpoint never exceed its tests' total |
| ResponsiveCharts.TrendTestsTotal | xls_generator.py:1355-1357 | one breakpoint adds exactly its trend issues |
| ResponsiveCharts.BuildTrend | xls_generator.py:1341-1357 | the loops compute exactly `Trend` |
| ResponsiveCharts.TrendOfBreakpoints | xls_generator.py:1351-1357 | one page's breakpoint loop |
| ResponsiveCharts.TrendOfTests | xls_generator.py:1355-1357 | one breakpoint's test loop |
| ResponsiveCharts.MobileDesktopSplit | xls_generator.py:1491-1499 | mobile (at most 768 px) plus desktop issues equal all issues |
| ResponsiveCharts.ComparisonSpec | xls_generator.py:1491-1499 | one row per test type, whose mobile and desktop issues add up to that type's trend row |
| ResponsiveCharts.Comparison | xls_generator.py:1491-1499 | one `(type, mobile, desktop)` row per test type, in the order of the types |
| ResponsiveCharts.CompareMobileDesktop | xls_generator.py:1491-1499 | the loop computes the comparison rows |
| ResponsiveCharts.SplitCounts | xls_generator.py:1495-1499 | the loop splits the counts at 768 px, and the two parts add up to the whole |
| DocumentationSheet.CheckRowsSpec | xls_generator.py:856-871 | one Check row per named check, each built from one of the checks |
| DocumentationSheet.CheckRowsComplete | xls_generator.py:856-871 | every named check has its row |
| DocumentationSheet.ListChecks | xls_generator.py:856-871 | the check loop computes those rows |
| DocumentationSheet.DocBlockSpec | xls_generator.py:837-871 | a test gives its Test row first, then a row for each named check |
| DocumentationSheet.TestBeforeCheck | xls_generator.py:874-884 | a test's row key is smaller than each of its checks' keys |
| DocumentationSheet.DocumentationSheetSpec | xls_generator.py:873-884 | the sheet is sorted by (name, type order) and is a permutation of the built rows |
| DocumentationSheet.TestAheadOfChecks | xls_generator.py:874-884 | on the sheet, a test's row precedes each of its check rows |
| DocumentationSheet.BuildDocumentationSheet | xls_generator.py:834-887 | the loops compute exactly the sheet |
| DocTemplate.TestNameSpec | add_documentation_template.py:63-64 | for a `.py` file the name is the file name minus `test_` and `.py` (or minus `.py` alone) |
| DocTemplate.FormattedNameSpec | add_documentation_template.py:67 | the formatted name has no underscores, is 9 characters longer than the test name, and ends with ` Analysis` |
| DocTemplate.FillSpec | add_documentation_template.py:84-85 | each replacement cuts the template at its placeholder and joins with the value; no piece holds a placeholder |
| DocTemplate.FillHead | add_documentation_template.py:21-22 | the filled template still starts with its header lines |
| DocTemplate.FillHasMarker | add_documentation_template.py:21-22 | the filled template holds `TEST_DOCUMENTATION` right after its first line |
| DocTemplate.AddDocumentationCases | add_documentation_template.py:58-76 | a missing file or one not ending in `.py` gives NotPython; a file already holding the marker is skipped; any other file is written |
| DocTemplate.AddDocumentation | add_documentation_template.py:51-118 | the outcome of one run on a file: NotPython, AlreadyDocumented, or the new content with the filled template spliced in; `AddDocumentationCases`, `WrittenAt`, `SpliceRecovers` and `SecondRunSkips` state it |
| DocTemplate.SpliceRecovers | add_documentation_template.py:102-110 | removing the inserted block, blank lines included, recovers the original content |
| DocTemplate.WrittenAt | add_documentation_template.py:99-110 | the template goes after the docstring if there is one, else after the last import, else at the top |
| DocTemplate.SecondRunSkips | add_documentation_template.py:74-110 | running the insertion on its own output is skipped as already documented |

## Left out

- **Storage and output.**
  - Database access (`AccessibilityDB`, the MongoDB queries): page results and test runs
    are passed in as sequences.
  - Workbook writing: openpyxl sheets, styles, fills, column widths, the severity
    colouring and the chart objects. The model builds the rows and tallies those sheets
    are filled from.
  - `print_analysis`, the `print` diagnostics, `target_tests`, `main` and the command
    line of both scripts.
- **Other scripts.** `add_direct_documentation.py` and `generate_documentation_report.py`
  are not part of this model.
- **File, clock and regex.**
  - The template script's file I/O, `os.path.exists` and the `.bak` backup write: the
    file's existence and content are parameters.
  - The two regular-expression searches are not modelled: their match ends are
    parameters.
  - `datetime.now()`: the date and time strings are parameters.
- **Numbers.** Floating point is not modelled; counts are integers.
  - `int()` on text follows Python for ASCII text (`Strs.ParseInt`). It accepts
    surrounding whitespace, a sign, and `_` between digits, so `"-5"`, `" 320"`, `"+3"`
    and `"3_000"` give -5, 320, 3 and 3000. Text on which Python raises `ValueError` is
    read as 0 (`ResponsiveTallies.IntText`): a bare `int(bp)` at `xls_generator.py:1013`,
    `:1065`, `:1235` or `:1357` on such a breakpoint would end the report.
  - `ParseInt` does not accept non-ASCII digits or non-ASCII whitespace, which Python
    does. It also has no limit on the digit count, where Python refuses more than 4300
    digits.
  - Counter values that are not integers count as 0 (a `bool` as 1 or 0).
- **Text handling.**
  - Case functions (`lower`, `title`, `capitalize`, `isupper`, `isdigit`) are ASCII only.
  - Strs.Strip removes ASCII whitespace only, where `.strip()` at `xls_generator.py:963`
    and in the issue details at `:536-541` also removes Unicode whitespace.
  - `urlparse` is reduced to scheme and network location: text up to the first `/`, `?`
    or `#` after `//`. The model follows the `urlsplit` of current Python 3: leading C0
    controls and spaces are stripped, tabs and line breaks deleted, and a network
    location with an unmatched `[` or `]` raises. Older Python versions strip less. The
    check of the text inside the brackets as an IPv6 address, and the NFKC check of
    non-ASCII network locations, are not modelled.
  - `repr` (`JsonValue.ReprPrintable`) takes every character above U+00FF as printable.
    Python escapes the non-printable ones among them, such as U+200B and U+2028.
- **Python failures.** Where the code would raise and end the report, the model is mostly
  total. The cases, one per line:
  - Lookups that would raise on a non-dict value find no keys.
  - ResponsiveTallies.IntOf: a `null`, list or object breakpoint reads as 0, where
    `int(bp)` at `xls_generator.py:1013` raises `TypeError`.
  - IssueLabels.FieldNames, IssueLabels.ListStrings: `resultsFields` elements that are
    not text are skipped, where `field.endswith(...)` at `xls_generator.py:334` raises
    `AttributeError`.
  - `sorted()` of mixed types is not modelled.
  - IssueLabels.FormatIssueName, IssueLabels.DocLabel, IssueLabels.FieldNames: a
    documentation `tests` or a check `resultsFields` that is `null`, a number or a
    boolean reads as empty, so the label falls back to `<testName>: <Issue Type>`. The
    code raises `TypeError` at `for` (`xls_generator.py:321` and `:333`). No handler
    inside `generate_excel_report` covers it; `main`'s handler at `:1887` catches it and
    no report is written. A `tests` that is an object or text also reads as empty here,
    where iterating its keys or characters makes `test.get` raise at `:322`; a text
    `resultsFields` is iterated by character, which never ends with a `has` flag, so
    the model agrees there.
  - DocumentationSheet.CheckRowsSpec, DocumentationSheet.Checks: a documentation `tests`
    that is `null`, a number or a boolean gives no Check rows, where `for` at
    `xls_generator.py:856` raises `TypeError`; an object or text `tests` gives no rows
    where `test.get` at `:857` raises.
  - DocRegistry.AccessibilityReportGenerator.CollectTestDocumentation,
    DocRegistry.AccessibilityReportGenerator.LoadRunDocumentation: the `len()` of a
    registered `tests` in the diagnostics at `xls_generator.py:177`, `:183`, `:194`,
    `:209` and `:697` raises `TypeError` for a `null`, numeric or boolean `tests`
    (none of these lines is inside a `try`), so such documentation ends the report
    before any label is built. The diagnostics are not modelled and the model goes on.
  - DocumentationSheet.CheckRowOf: a `wcagCriteria` element that is not text becomes its
    `str` (through `DetailedResults.Texts`), where `', '.join` raises `TypeError` at
    `xls_generator.py:868`.
  - Summary.PageUrl: a page URL that is not text becomes its `str`. Where the code calls
    `url.replace` on it (`xls_generator.py:918` for `ResponsiveMatrix.PageRows`, `:1002`
    for `ResponsiveTallies.DomainStep`, and the other domain splits of the responsive
    sheets), it raises `AttributeError`. A `None` or numeric URL fails earlier: it
    becomes a Detailed Results column, and `column_sort_key` at `xls_generator.py:559-562`
    raises `TypeError` on `' @ ' in col`. That sort runs from `:897`, before `:918`.
  - DetailedResults.Iterate, DetailedResults.AddTexts, ResponsiveMatrix.PageMatrixRows,
    ResponsiveTallies.AddBreakpoints, DocumentationSheet.CheckRowOf: a `null`, numeric or
    boolean value iterates as empty. The code raises `TypeError` at four sites:
    - `for bp in resp_testing['breakpoints']` at `xls_generator.py:444`
      (`DetailedResults.DiscoverBreakpoints`);
    - `for bp in breakpoints` at `:930` (`ResponsiveMatrix.PageMatrixRows`, through
      `ResponsiveMatrix.ListedBreakpoints`);
    - `for bp in breakpoints` at `:1012` (`ResponsiveTallies.AddBreakpoints`);
    - `', '.join(test.get('wcagCriteria', []))` at `:868`, when the whole `wcagCriteria`
      value is not iterable.
    For example, `responsive_testing` equal to `{"breakpoints": null}` raises at `:444`.
    None of the `try` blocks of `generate_excel_report` (`:613-669`, `:781-785` and
    four after `:1600`) encloses these lines or the call at `:897`. So `main`'s handler
    at `:1887` ends the run and no report is written.
  - JsonValue.Len: an `issues` value with no length (a number, a boolean, `None`) counts
    0, where `len()` raises `TypeError`. This affects `ResponsiveTallies.IssueCount`
    (`xls_generator.py:1058`), the totals at `:1231` and `:1357`, and the issue counts
    at `:532` and `:954`.
  - DocRegistry.StepC: a test value that is not an object and whose name is not yet
    registered is skipped. The code raises at `xls_generator.py:262-263` or `:272`. No
    handler inside `generate_excel_report` covers the call at `:675`, so the exception
    reaches `main`'s handler at `:1887` and no report is written. See "## Findings";
    `DocRegistry.PhaseCAsWritten` models the code as written.
  - Summary.IssuesByUrl, Summary.IssuesBySite: these functions treat a page with
    accessibility results but no `tests` key as having no tests. The code raises
    `KeyError` at `xls_generator.py:733` and `:788`. The methods
    `Summary.IssuesByUrlTable`, `Summary.CollectIssuesByUrl` and
    `Summary.IssuesBySiteTable` model this: they return `None` exactly when some page
    fails the lookup.
- **Sorting.** pandas `sort_values` is modelled as a stable insertion sort.
- DetailedResults.FormatDetailedResults: stops at the `formatted_data` dict. The
  DataFrame step of `xls_generator.py:552-568` is not modelled: `from_dict(...,
  orient='index')`, which drops rows without cells and fills missing cells with NaN,
  and `sort_index()` on the rows. The column order is modelled separately by
  `DetailedResults.SortColumns`.
- **Guards and bookkeeping.**
  - The guards that only choose whether a chart is drawn (`all_breakpoints and (...)`, an
    empty `domains_with_issues`) are not modelled as conditions.
  - The zero entries that `defaultdict` reads insert into the trend table are not
    modelled separately.
  - The `test_type_labels` display names are not modelled.
- **Column-map collisions.** In the column map, a URL that equals another page's
  `url:breakpoint` key overwrites that key. The column lemmas assume no such collision.
- **Breakpoint order.** The code collects breakpoint texts into a Python set
  (`xls_generator.py:434`). It then sorts them with the key at `:448`: texts that are
  not all digits map to 0, and texts such as `"320"` and `"0320"` both map to 320. Ties
  under that key come out in the set's hash order, which can differ between runs. The
  model keeps first-seen order instead and then applies the same stable sort, so its
  ties come out in first-seen order.
- **Concrete instances.** The count of `INSERT_TEST_NAME_HERE` occurrences in the
  template (two) is not proved as a separate lemma, because unfolding the string
  functions over the template literal exceeds the verifier's resource limit. The
  general fact is proved: `DocTemplate.FillSpec` cuts the template at every occurrence
  and puts the formatted name in each cut. The two forms labels are proved
  (`IssueLabels.FormsFallback`, `IssueLabels.FormsDocumented`); there the forms
  documentation is abridged to the check names and results fields that the label reads.
- DocRegistry.AccessibilityReportGenerator.LoadRunDocumentation: models the
  documentation loading of `generate_excel_report` only; the remaining sheet-writing
  code of that method is left out as above.

## Findings

| source | as written | input that shows it | evidently intended | confidence | as-written member | corrected member |
|---|---|---|---|---|---|---|
| xls_generator.py:260-277 | strategies 3 and 4 of the documentation scan use `test_data` as a dict (`test_name in test_data`, `test_data.items()`) without the `isinstance` check of strategies 1 and 2, and no handler inside `generate_excel_report` covers the call at line 675; the exception reaches `main`'s handler at line 1887 and no report is written | a page whose `tests` are `{"x": 1}`, with no documentation registered for `x` | a test value that is not an object is skipped, as strategies 1 and 2 skip it | not executed | DocRegistry.PhaseCAsWritten, with DocRegistry.ScanOfNumberTest | DocRegistry.PhaseC, with DocRegistry.PhaseCExtends and DocRegistry.PhaseCAsWrittenAgrees |
