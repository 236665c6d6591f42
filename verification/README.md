# Loan-application test reporter, modelled in Dafny

The repository is a pair of Playwright suites that fill in a loan application
on a staging site. Besides the scripted browser steps, each suite carries a
small `TestReporter` class and some per-test data handling, and that is what
this project models:

- **The reporter** (`reporter.dfy`, on top of `records.dfy`, `csv.dfy`,
  `decimal.dfy` and `jsstrings.dfy`):
  - `addTestData` spreads the caller's object and adds `timestamp` and
    `testId` with JavaScript object-spread semantics. An existing key keeps
    its place and takes the new value; a new key goes last.
  - `generateReport` returns `{summary: {totalTests, generatedAt}, test}` and
    names the JSON and CSV files.
  - `generateCSV` writes nothing for an empty list. Otherwise it writes a
    header of the first record's keys, then one line of quoted cells per
    record.
- **The two copies of the reporter differ**, and the model keeps both
  (`Copy = Staging | HappyPath`):
  - the staging copy cuts the random part of a test id with
    `substring(2, 9)`, the happy-path copy with `substr(2, 9)`;
  - the staging copy names both report files after one clock reading, the
    happy-path copy reads the clock once per file.
- **The data-driven staging suite** (`staging_run.dfy`). Each parsed row goes
  through:
  - the URL guard and its 1-based row diagnostic;
  - the test title with its `'User'` fallback;
  - the row-numbered screenshot path;
  - the `started`/`completed` records.

  The whole suite is run row after row.
- **The single happy-path test** (`happy_path_data.dfy`,
  `happy_path_run.dfy`):
  - the synthetic e-mail and employee number;
  - the nested `testData` object;
  - the `completedTestData` object built from it by spread and override;
  - the two records the test reports.

JavaScript objects are modelled as ordered field lists (`Records.Rec`).
`String(val)` is `Records.CellText`: numbers in decimal, `undefined`,
`true`/`false`, and `[object Object]` for nested objects. Every clock reading,
ISO time text and `Math.random()` text is an input (`Reporter.Stamp`), and so
is the outcome of a test's browser steps (one boolean). As the partner of the
CSV writer, the model defines a reader for quoted cells (`Csv.ReadCsv`), and
it also gives a decimal reader (`Decimal.ParseNat`) for the numbers the
reporter prints.

## Model

| member | source | states |
|---|---|---|
| Reporter.AddTestData | tests/reactive-borrow-staging-happypath.spec.ts:42-48 | the list grows by exactly one, every earlier record is unchanged, and the new record (last) is the caller's object stamped |
| Reporter.StampedKeys | tests/reactive-borrow-staging-happypath.spec.ts:43-47 | the stamped record keeps the caller's keys in order; `timestamp` and `testId` are appended only when absent, and a caller's own `timestamp`/`testId` keeps its position |
| Reporter.StampedValues | tests/reactive-borrow-staging-happypath.spec.ts:43-47 | `timestamp` reads the ISO time and `testId` the generated id, overriding any caller value; every other key reads the caller's value |
| Reporter.StampedDistinct | tests/reactive-borrow-staging-happypath.spec.ts:43-47 | stamping a record with distinct keys yields distinct keys |
| Reporter.RandomSuffix | tests/reactive-borrow-staging-happypath.spec.ts:46 | the random part of a test id has at most 7 characters in the staging copy (`substring(2, 9)`) and at most 9 in the happy-path copy (`substr(2, 9)`) |
| Reporter.TestId | tests/happy-path.spec.ts:11 | a test id is at most 6 characters longer than the printed time plus the suffix bound of its copy |
| Reporter.TestIdRecordsTime | tests/reactive-borrow-staging-happypath.spec.ts:46 | two equal test ids were made at the same `Date.now()`, whichever copy and random text made them |
| Reporter.ReplayRecordsEveryCall | tests/reactive-borrow-staging-happypath.spec.ts:42-48 | after any sequence of `addTestData` calls from a fresh reporter, the list is exactly the stamped payloads in call order |
| Reporter.StampAllAt | tests/happy-path.spec.ts:7-13 | the i-th record held is the i-th call's payload stamped with the i-th call's observations |
| Reporter.ReplayRecordsStamped | tests/happy-path.spec.ts:7-13 | every record held has a `timestamp` and a `testId` key |
| Reporter.BuildReport | tests/happy-path.spec.ts:16-22 | `summary.totalTests` equals the length of `test`, `test` is the reporter's list itself, and `generatedAt` is the given time |
| Reporter.TotalTestsCountsCalls | tests/reactive-borrow-staging-happypath.spec.ts:50-54 | `summary.totalTests` equals the number of `addTestData` calls made, and `test` lists their records in call order |
| Reporter.StagingGenerateReport | tests/reactive-borrow-staging-happypath.spec.ts:50-67 | the report is the summary of the list; the JSON file is `<cwd>/test-results/test-report-<t>.json`; the CSV file is written exactly when the list is not empty, is `<cwd>/test-results/test-report-<t>.csv` for the same `t`, and holds the CSV text |
| Reporter.HappyPathGenerateReport | tests/happy-path.spec.ts:15-48 | the report is the summary of the list; the CSV file is written exactly when the list is not empty and holds the CSV text; the JSON name uses the first clock reading and the CSV name the second |
| Reporter.HappyPathStemsAgreeIff | tests/happy-path.spec.ts:26-47 | in the happy-path copy the two file names share a stem if and only if the two clock readings are equal |
| Reporter.StagingCsvReadsBack | tests/reactive-borrow-staging-happypath.spec.ts:61-67 | after any calls, reading the staging CSV back gives the first record's keys as the header and every record's cell texts in call order, provided those keys contain no `,` or line break |
| Csv.EscapeCell | tests/reactive-borrow-staging-happypath.spec.ts:65 | a cell starts and ends with `"`, and between them is the text with every quote doubled |
| Csv.EscapeRoundTrip | tests/reactive-borrow-staging-happypath.spec.ts:65 | stripping the outer quotes of an escaped cell and collapsing doubled quotes gives back the text exactly |
| Csv.EscapeCanonical | tests/happy-path.spec.ts:42 | a cell that unescapes to a text is that text's escaping, so escaping is onto the readable cells |
| Records.CellText | tests/reactive-borrow-staging-happypath.spec.ts:65 | `String(val)`: a string is itself, `undefined` is `undefined`, a boolean is `true`/`false`, a nested object is `[object Object]`, and a number is its decimal digits (after `-` when negative), which read back as the number |
| Csv.Cells | tests/reactive-borrow-staging-happypath.spec.ts:64-65 | a data line has one cell per key of its own record, the cell text of that key's value, in key order |
| Csv.CsvText | tests/reactive-borrow-staging-happypath.spec.ts:62-67 | no CSV for an empty list; otherwise the text starts with the first record's keys joined by `,`, followed by a line break |
| Csv.ReadRowsEncoded | tests/reactive-borrow-staging-happypath.spec.ts:64-66 | data lines joined by line breaks read back as the same rows of cells, provided no row is empty |
| Csv.CsvRoundTrip | tests/happy-path.spec.ts:37-48 | the whole CSV text reads back as the first record's keys and every record's cell texts, in list order, provided those keys hold no `,` or line break and no record is empty |
| JsStrings.SplitJoin | tests/reactive-borrow-staging-happypath.spec.ts:63 | splitting a header at `,` recovers the key list when no key contains `,` |
| Records.PutKeys | tests/reactive-borrow-staging-happypath.spec.ts:43-47 | after a spread and one more property, an existing key keeps its position and a new key is appended |
| Records.PutGet | tests/happy-path.spec.ts:8-12 | after a spread and one more property, that property reads its new value and every other key reads as before |
| Decimal.ParseNatToString | tests/happy-path.spec.ts:59-61 | reading back the decimal text of a number gives the number |
| Decimal.NatToStringInjective | tests/happy-path.spec.ts:59-61 | two numbers print the same exactly when they are equal |
| StagingRun.CheckUrl | tests/reactive-borrow-staging-happypath.spec.ts:104-109 | a row is rejected exactly when its `url` is absent or empty, with the message `Row <index+1> is missing a URL value...`; otherwise it yields the URL |
| StagingRun.MissingUrlNamesRow | tests/reactive-borrow-staging-happypath.spec.ts:108 | the diagnostic starts with `Row `, the number after it reads back as index + 1, and different rows get different messages |
| StagingRun.TitleProperties | tests/reactive-borrow-staging-happypath.spec.ts:101 | the title ends in the first name, or in `User` when it is absent or empty, and titles of different rows differ |
| StagingRun.ScreenshotPathsDistinct | tests/reactive-borrow-staging-happypath.spec.ts:204 | two rows' screenshot paths are equal if and only if the rows are the same |
| StagingRun.RunRow | tests/reactive-borrow-staging-happypath.spec.ts:104-207 | a row without URL throws its diagnostic and appends nothing; otherwise it appends the `started` record, then, if the browser steps pass, the `completed` record with the row's screenshot path; earlier records are untouched |
| StagingRun.CompletedRowRecordsCorrelate | tests/reactive-borrow-staging-happypath.spec.ts:114-207 | a completed row appends `started` then `completed` with the same `user`, and the second record carries the row's screenshot path |
| StagingRun.CompletedRowShapes | tests/reactive-borrow-staging-happypath.spec.ts:207 | for the first row, the `started` record (the CSV header) has four keys and the `completed` record has five |
| StagingRun.RunRowCounts | tests/reactive-borrow-staging-happypath.spec.ts:104-114 | one row adds a `started` record exactly when it has a URL, and a `completed` one exactly when it also passes |
| StagingRun.RunAllCounts | tests/reactive-borrow-staging-happypath.spec.ts:100-114 | over a run of all rows, `started` records number the rows with a URL, and `completed` records the rows with a URL whose steps passed |
| HappyPathData.RandomBelow100000 | tests/happy-path.spec.ts:58 | `Math.floor(Math.random() * 100000)` is a natural number below 100000, the integer part of the scaled draw |
| HappyPathData.RandomBelowReachesAll | tests/happy-path.spec.ts:58 | every number below 100000 is the result for some draw in `[0, 1)` |
| HappyPathRun.SyntheticValues | tests/happy-path.spec.ts:58-61 | the e-mail has at most 14 characters and the employee number at most 7, and each one determines the number it was made from |
| HappyPathRun.InputsAgree | tests/happy-path.spec.ts:77-82 | the form's `email` and `confirmEmail` are both the synthetic e-mail, and `employeeId` is the synthetic employee number |
| HappyPathRun.GeneratedValuesAgree | tests/happy-path.spec.ts:77-120 | in the started object, the `inputs` object's `email` and `confirmEmail` equal the `generatedValues` object's `email`, and its `employeeId` equals the generated `employeeNumber` |
| HappyPathRun.TestDataShape | tests/happy-path.spec.ts:64-123 | the started object has keys `testName, url, inputs, generatedValues, status, startTime` in that order, with status `started` |
| HappyPathRun.CompletedKeys | tests/happy-path.spec.ts:228-238 | the completed object keeps every key of the test data in place, `status` included, and appends `completedAt`, `screenshot`, `verification` |
| HappyPathRun.CompletedValues | tests/happy-path.spec.ts:228-238 | `status` reads `completed`, the three new keys read their new values, and every other key keeps the test data's value |
| HappyPathRun.ScreenshotNamesEmployee | tests/happy-path.spec.ts:224 | two equal screenshot paths were taken for the same employee number |
| HappyPathRun.RunHappyPath | tests/happy-path.spec.ts:126-241 | the test appends the stamped test data, then, if every step passes, the stamped completed object with the employee's screenshot path; earlier records are untouched |
| HappyPathRun.HappyPathRecordShapes | tests/happy-path.spec.ts:126-241 | from a fresh reporter a passing run holds two records: the started one has eight keys (the CSV header) and the completed one eleven |

## Left out

- HappyPathData.RandomBelow100000: takes the product `Math.random() * 100000` exactly, over the reals, and does not model its rounding to an IEEE double. At some draws that rounding lifts the product onto the next integer: the draw 2951659195778623 · 2^-52, printed as 0.6554, gives 65540 in JavaScript and 65539 here. The result is below 100000 in both, and both reach every number below 100000; nothing else in the model depends on the difference.
- Playwright browser steps: navigation, locators, form filling, clicks, waits and visibility checks. A test's steps become one boolean, "every step and check passed". A failing step is modelled as the test ending there.
- File system I/O: `fs.writeFileSync`, `mkdirSync`, `existsSync`, and the `test-results`/`screenshots` directory creation. A generated report is returned as the file names and contents it would write.
- The missing-data-file exit (`process.exit(1)`): no rows are read when the file is missing.
- `csv-parse`: its code is not part of this model. The rows it yields are taken as given maps from column name to trimmed text.
- `JSON.stringify` formatting of the JSON report. Only its name and the report object are modelled.
- `console.log` and `console.error` output.
- `Date.now()`, `new Date().toISOString()` and `Math.random()`: their results are inputs, including the base-36 text of the random number.
- The staging suite's per-row random e-mail and employee number: they are only typed into the form and never reported.
- The JavaScript rule that integer-like keys come first in an object's key order: every key the reporter sees is a name.
- `path.join` normalisation (`..`, repeated or trailing separators): paths are joined with `/` as given.
- Numbers are integers: `String(n)` for fractions, exponent notation and integers of 10^21 or more is not modelled.
- `fullyParallel` execution: rows are run one after another, in file order.
- StagingRun.RunAll: keeps one reporter for the whole run, and this is stronger than what the suite does. After any failing row, the URL guard's throw included, the test runner starts a new worker. That worker evaluates the module again, so a new reporter is created, and each worker's `afterAll` writes its own report. `RunAll`'s list is the per-worker lists joined in order. `StagingRun.RunAllCounts` therefore counts totals across all reports written, not the contents of any one report.
- Reporter.TestId: states only a length bound. Its decimal time is pinned by `Reporter.TestIdRecordsTime` and its suffix by `Reporter.RandomSuffix`.
- Csv.CsvText: states the header line and the empty case. The data lines are pinned by `Csv.CsvRoundTrip` through the reader.
