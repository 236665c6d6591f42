/** The `TestReporter` class, present in two near-identical copies: it appends
    stamped outcome records to an in-memory list and, at the end of the run,
    builds a summary report plus the tabular report.
    The clock and the random source are inputs: `Stamp` carries what one call
    observes of `new Date().toISOString()`, `Date.now()` and
    `Math.random().toString(36)`. */
module Reporter {
  import opened Results
  import opened Decimal
  import opened JsStrings
  import opened Records
  import Csv

  /** Which copy of the class: the staging data-driven suite or the single
      happy-path test. They differ in how the random suffix of `testId` is cut
      and in how report files are named. */
  datatype Copy = Staging | HappyPath

  /** What one call observes of the clock and of `Math.random().toString(36)`. */
  datatype Stamp = Stamp(iso: string, now: nat, random: string)

  /** The random part of `testId`: `substring(2, 9)` in the staging copy,
      `substr(2, 9)` in the happy-path copy. */
  function RandomSuffix(copy: Copy, random: string): (r: string)
    ensures copy == Staging ==> |r| <= 7
    ensures copy == HappyPath ==> |r| <= 9
    ensures r == Substring(random, 2, 9) || r == Substr(random, 2, 9)
    ensures |random| >= 11 ==> |r| == (if copy == Staging then 7 else 9)
  {
    RandomSuffixCuts(random);
    match copy
    case Staging => Substring(random, 2, 9)
    case HappyPath => Substr(random, 2, 9)
  }

  /** `test_${Date.now()}_${suffix}`. */
  function TestId(copy: Copy, now: nat, random: string): (id: string)
    ensures |id| <= 6 + |NatToString(now)| + (if copy == Staging then 7 else 9)
  {
    "test_" + NatToString(now) + "_" + RandomSuffix(copy, random)
  }

  /** A test id is the prefix, the decimal time, then `_` and the suffix. */
  lemma TestIdParts(copy: Copy, now: nat, random: string)
    ensures var tail := "_" + RandomSuffix(copy, random);
      && TestId(copy, now, random) == "test_" + (NatToString(now) + tail)
      && |tail| > 0 && !IsDigit(tail[0])
  {
  }

  /** The decimal time inside a test id determines the time it was made at. */
  lemma TestIdRecordsTime(copy: Copy, now: nat, random: string, copy': Copy, now': nat, random': string)
    requires TestId(copy, now, random) == TestId(copy', now', random')
    ensures now == now'
  {
    var s := "_" + RandomSuffix(copy, random);
    var t := "_" + RandomSuffix(copy', random');
    TestIdParts(copy, now, random);
    TestIdParts(copy', now', random');
    CancelPrefix("test_", NatToString(now) + s, NatToString(now') + t);
    LeadingNumber(now, s, now', t);
  }

  /** `{...data, timestamp: ..., testId: ...}`. */
  function Stamped(data: Rec, copy: Copy, st: Stamp): Rec {
    Put(Put(data, "timestamp", Str(st.iso)), "testId", Str(TestId(copy, st.now, st.random)))
  }

  /** The stamped record keeps the caller's keys in order (a caller's own
      `timestamp` or `testId` stays where it was) and appends `timestamp` then
      `testId` when absent. */
  lemma StampedKeys(data: Rec, copy: Copy, st: Stamp)
    ensures Keys(Stamped(data, copy, st)) ==
      Keys(data) + (if "timestamp" in Keys(data) then [] else ["timestamp"])
                 + (if "testId" in Keys(data) then [] else ["testId"])
  {
    var once := Put(data, "timestamp", Str(st.iso));
    PutKeys(data, "timestamp", Str(st.iso));
    PutKeys(once, "testId", Str(TestId(copy, st.now, st.random)));
    assert "testId" in Keys(once) <==> "testId" in Keys(data);
  }

  /** A caller's object without `timestamp` or `testId` gains both, last. */
  lemma StampedFreshKeys(data: Rec, copy: Copy, st: Stamp)
    requires "timestamp" !in Keys(data) && "testId" !in Keys(data)
    ensures Keys(Stamped(data, copy, st)) == Keys(data) + ["timestamp", "testId"]
  {
    StampedKeys(data, copy, st);
  }

  /** `timestamp` and `testId` take the stamp's values; every other key keeps
      the caller's value. */
  lemma StampedValues(data: Rec, copy: Copy, st: Stamp, k: string)
    ensures Get(Stamped(data, copy, st), k) ==
      if k == "testId" then Some(Str(TestId(copy, st.now, st.random)))
      else if k == "timestamp" then Some(Str(st.iso))
      else Get(data, k)
  {
    var once := Put(data, "timestamp", Str(st.iso));
    PutGet(once, "testId", Str(TestId(copy, st.now, st.random)), k);
    PutGet(data, "timestamp", Str(st.iso), k);
  }

  /** Stamping keeps keys distinct. */
  lemma StampedDistinct(data: Rec, copy: Copy, st: Stamp)
    requires DistinctKeys(data)
    ensures DistinctKeys(Stamped(data, copy, st))
  {
    var once := Put(data, "timestamp", Str(st.iso));
    PutDistinct(data, "timestamp", Str(st.iso));
    PutDistinct(once, "testId", Str(TestId(copy, st.now, st.random)));
  }

  /** The reporter's state: the records appended so far, oldest first. */
  datatype TestReporter = TestReporter(data: seq<Rec>)

  const Fresh := TestReporter([])

  /** `addTestData(payload)`: appends exactly one record, last, leaving every
      earlier record as it was. */
  function AddTestData(rep: TestReporter, copy: Copy, payload: Rec, st: Stamp): (rep': TestReporter)
    ensures |rep'.data| == |rep.data| + 1
    ensures rep'.data[..|rep.data|] == rep.data
    ensures rep'.data[|rep.data|] == Stamped(payload, copy, st)
  {
    var next := rep.data + [Stamped(payload, copy, st)];
    assert next[..|rep.data|] == rep.data;
    TestReporter(next)
  }

  /** One `addTestData` call: the caller's payload and what the call observed. */
  datatype Call = Call(payload: Rec, stamp: Stamp)

  /** A fresh reporter after the given calls, in order. */
  function Replay(copy: Copy, calls: seq<Call>): TestReporter
    decreases |calls|
  {
    if |calls| == 0 then Fresh
    else
      var last := calls[|calls| - 1];
      AddTestData(Replay(copy, calls[..|calls| - 1]), copy, last.payload, last.stamp)
  }

  /** The records the given calls append, in call order. */
  function StampAll(copy: Copy, calls: seq<Call>): (rs: seq<Rec>)
    ensures |rs| == |calls|
    decreases |calls|
  {
    if |calls| == 0 then []
    else
      var last := calls[|calls| - 1];
      StampAll(copy, calls[..|calls| - 1]) + [Stamped(last.payload, copy, last.stamp)]
  }

  /** After any sequence of calls the list holds exactly one stamped record
      per call, in call order. */
  lemma {:induction false} ReplayRecordsEveryCall(copy: Copy, calls: seq<Call>)
    ensures Replay(copy, calls).data == StampAll(copy, calls)
    decreases |calls|
  {
    if |calls| > 0 {
      ReplayRecordsEveryCall(copy, calls[..|calls| - 1]);
    }
  }

  /** The `i`-th record is the `i`-th call's payload, stamped. */
  lemma {:induction false} StampAllAt(copy: Copy, calls: seq<Call>, i: nat)
    requires i < |calls|
    ensures StampAll(copy, calls)[i] == Stamped(calls[i].payload, copy, calls[i].stamp)
    decreases |calls|
  {
    if i < |calls| - 1 {
      var prefix := calls[..|calls| - 1];
      StampAllAt(copy, prefix, i);
      assert prefix[i] == calls[i];
    }
  }

  datatype Summary = Summary(totalTests: nat, generatedAt: string)

  /** `{ summary: { totalTests, generatedAt }, test: data }`. */
  datatype Report = Report(summary: Summary, test: seq<Rec>)

  function BuildReport(rep: TestReporter, generatedAt: string): (r: Report)
    ensures r.summary.totalTests == |r.test|
    ensures r.test == rep.data
    ensures r.summary.generatedAt == generatedAt
  {
    Report(Summary(|rep.data|, generatedAt), rep.data)
  }

  /** `summary.totalTests` is the number of `addTestData` calls made, and the
      report lists the stamped records in call order. */
  lemma {:induction false} TotalTestsCountsCalls(copy: Copy, calls: seq<Call>, generatedAt: string)
    ensures BuildReport(Replay(copy, calls), generatedAt).summary.totalTests == |calls|
    ensures BuildReport(Replay(copy, calls), generatedAt).test == StampAll(copy, calls)
  {
    ReplayRecordsEveryCall(copy, calls);
  }

  /** Every record the reporter holds has a `timestamp` and a `testId`, so no
      record is empty. */
  lemma {:induction false} ReplayRecordsStamped(copy: Copy, calls: seq<Call>)
    ensures |Replay(copy, calls).data| == |calls|
    ensures forall i :: 0 <= i < |calls| ==>
      "timestamp" in Keys(Replay(copy, calls).data[i]) && "testId" in Keys(Replay(copy, calls).data[i])
  {
    ReplayRecordsEveryCall(copy, calls);
    forall i | 0 <= i < |calls|
      ensures "timestamp" in Keys(Replay(copy, calls).data[i]) && "testId" in Keys(Replay(copy, calls).data[i])
    {
      StampAllAt(copy, calls, i);
      StampedKeys(calls[i].payload, copy, calls[i].stamp);
    }
  }

  // ---- Files written by generateReport -------------------------------------

  /** `path.join(...)` over already-clean segments. */
  function PathJoin(segments: seq<string>): string {
    Join(segments, "/")
  }

  /** `test-report-<t>`. */
  function ReportStem(t: nat): string {
    "test-report-" + NatToString(t)
  }

  /** Whether `a` ends in `extA`, `b` ends in `extB`, and what comes before is
      the same. */
  predicate ShareStem(a: string, extA: string, b: string, extB: string) {
    && |a| >= |extA| && a[|a| - |extA|..] == extA
    && |b| >= |extB| && b[|b| - |extB|..] == extB
    && a[..|a| - |extA|] == b[..|b| - |extB|]
  }

  datatype CsvFile = CsvFile(path: string, content: string)

  /** What one `generateReport()` call produces: the returned report, the
      path of the JSON file, and the CSV file when one is written. */
  datatype Flushed = Flushed(report: Report, jsonPath: string, csv: Option<CsvFile>)

  /** Two files named `<stem>.json` and `<stem>.csv` in one directory share
      that stem. */
  lemma SiblingsShareStem(dir: string, stem: string)
    ensures ShareStem(PathJoin([dir, stem + ".json"]), ".json", PathJoin([dir, stem + ".csv"]), ".csv")
  {
    var json := PathJoin([dir, stem + ".json"]);
    var csv := PathJoin([dir, stem + ".csv"]);
    JoinPair(dir, stem + ".json", "/");
    JoinPair(dir, stem + ".csv", "/");
    assert json[..|json| - 5] == dir + "/" + stem;
    assert csv[..|csv| - 4] == dir + "/" + stem;
  }

  /** The staging copy: one `Date.now()` reading `t` names both files, which go
      to `<cwd>/test-results`. */
  function StagingGenerateReport(rep: TestReporter, cwd: string, generatedAt: string, t: nat): (f: Flushed)
    ensures f.report == BuildReport(rep, generatedAt)
    ensures f.csv.None? <==> |rep.data| == 0
    ensures f.csv.Some? ==> Some(f.csv.value.content) == Csv.CsvText(rep.data)
    ensures f.jsonPath == PathJoin([PathJoin([cwd, "test-results"]), ReportStem(t) + ".json"])
    ensures f.csv.Some? ==> f.csv.value.path == PathJoin([PathJoin([cwd, "test-results"]), ReportStem(t) + ".csv"])
    ensures f.csv.Some? ==> ShareStem(f.jsonPath, ".json", f.csv.value.path, ".csv")
  {
    var dir := PathJoin([cwd, "test-results"]);
    var json := PathJoin([dir, ReportStem(t) + ".json"]);
    var csv := PathJoin([dir, ReportStem(t) + ".csv"]);
    SiblingsShareStem(dir, ReportStem(t));
    var written := match Csv.CsvText(rep.data)
      case None => None
      case Some(content) => Some(CsvFile(csv, content));
    Flushed(BuildReport(rep, generatedAt), json, written)
  }

  /** The happy-path copy: the JSON file and the CSV file each read
      `Date.now()` separately (`tJson`, then `tCsv`) and go to the working
      directory. */
  function HappyPathGenerateReport(rep: TestReporter, generatedAt: string, tJson: nat, tCsv: nat): (f: Flushed)
    ensures f.report == BuildReport(rep, generatedAt)
    ensures f.csv.None? <==> |rep.data| == 0
    ensures f.csv.Some? ==> Some(f.csv.value.content) == Csv.CsvText(rep.data)
    ensures f.jsonPath == ReportStem(tJson) + ".json"
    ensures f.csv.Some? ==> f.csv.value.path == ReportStem(tCsv) + ".csv"
  {
    var written := match Csv.CsvText(rep.data)
      case None => None
      case Some(content) => Some(CsvFile(ReportStem(tCsv) + ".csv", content));
    Flushed(BuildReport(rep, generatedAt), ReportStem(tJson) + ".json", written)
  }

  /** In the happy-path copy the two file names share a stem exactly when the
      two clock readings agree. */
  lemma HappyPathStemsAgreeIff(rep: TestReporter, generatedAt: string, tJson: nat, tCsv: nat)
    requires |rep.data| > 0
    ensures var f := HappyPathGenerateReport(rep, generatedAt, tJson, tCsv);
      ShareStem(f.jsonPath, ".json", f.csv.value.path, ".csv") <==> tJson == tCsv
  {
    var f := HappyPathGenerateReport(rep, generatedAt, tJson, tCsv);
    var a := f.jsonPath;
    var b := f.csv.value.path;
    assert a[..|a| - 5] == ReportStem(tJson);
    assert b[..|b| - 4] == ReportStem(tCsv);
    if ReportStem(tJson) == ReportStem(tCsv) {
      assert NatToString(tJson) == ReportStem(tJson)[12..];
      assert NatToString(tCsv) == ReportStem(tCsv)[12..];
    }
    NatToStringInjective(tJson, tCsv);
  }

  /** Whatever was recorded, the staging report's CSV reads back as the first
      record's keys and every record's cell texts, provided those keys hold no
      `,` or line break. */
  lemma StagingCsvReadsBack(calls: seq<Call>, cwd: string, generatedAt: string, t: nat)
    requires |calls| > 0
    requires var first := Replay(Staging, calls).data[0];
      forall i :: 0 <= i < |first| ==> ',' !in first[i].key && '\n' !in first[i].key
    ensures var rep := Replay(Staging, calls);
      var f := StagingGenerateReport(rep, cwd, generatedAt, t);
      f.csv.Some? && Csv.ReadCsv(f.csv.value.content) == Some((Keys(rep.data[0]), Csv.CellRows(rep.data)))
  {
    var rep := Replay(Staging, calls);
    ReplayRecordsEveryCall(Staging, calls);
    ReplayRecordsStamped(Staging, calls);
    assert forall i :: 0 <= i < |rep.data| ==> |rep.data[i]| >= 1 by {
      forall i | 0 <= i < |rep.data|
        ensures |rep.data[i]| >= 1
      {
        assert "testId" in Keys(rep.data[i]);
      }
    }
    Csv.CsvRoundTrip(rep.data);
  }
}
