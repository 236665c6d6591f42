/** The per-row logic of the data-driven staging suite: one test per parsed
    data row, guarded by a URL check, reporting a `started` record before the
    browser steps and a `completed` record after them. The browser steps are
    one input: whether every step and the confirmation check passed. */
module StagingRun {
  import opened Results
  import opened Decimal
  import opened JsStrings
  import opened Records
  import opened Reporter

  /** One parsed data row: column name to trimmed text. A column that a short
      line does not reach is absent, as `undefined` is in the source. */
  type Row = map<string, string>

  /** Falsiness of a string-valued column: absent or empty. */
  predicate Falsy(row: Row, column: string) {
    column !in row || row[column] == ""
  }

  /** The 1-based row number the diagnostics and titles print. */
  function RowNumber(index: nat): string {
    NatToString(index + 1)
  }

  /** What follows the row number in the diagnostic. The leading space is a
      literal of its own so that the verifier can see the first character: it
      does not look inside long string literals. */
  const MissingUrlTail := " " + "is missing a URL value. Check your CSV headers!"

  function MissingUrlMessage(index: nat): string {
    "Row " + RowNumber(index) + MissingUrlTail
  }

  /** The guard at the top of each row's test: a row without a usable `url`
      throws, naming its 1-based row number; otherwise the URL is used. */
  function CheckUrl(row: Row, index: nat): (r: Result<string>)
    ensures r.Ok? <==> !Falsy(row, "url")
    ensures r.Ok? ==> r.value == row["url"] && r.value != ""
    ensures r.Err? ==> r.message == MissingUrlMessage(index)
  {
    if Falsy(row, "url") then Err(MissingUrlMessage(index)) else Ok(row["url"])
  }

  /** The diagnostic identifies the row: different rows get different
      messages, and the number after `Row ` reads back as `index + 1`. */
  lemma MissingUrlNamesRow(i: nat, j: nat)
    ensures MissingUrlMessage(i) == MissingUrlMessage(j) <==> i == j
    ensures MissingUrlMessage(i)[..4] == "Row "
    ensures var n := |RowNumber(i)|;
      && 4 + n <= |MissingUrlMessage(i)|
      && AllDigits(MissingUrlMessage(i)[4..4 + n])
      && ParseNat(MissingUrlMessage(i)[4..4 + n]) == i + 1
  {
    if MissingUrlMessage(i) == MissingUrlMessage(j) {
      assert MissingUrlTail[0] == ' ';
      NumberAfterPrefix("Row ", i + 1, MissingUrlTail, j + 1, MissingUrlTail);
    }
    assert MissingUrlMessage(i)[4..4 + |RowNumber(i)|] == RowNumber(i);
    ParseNatToString(i + 1);
  }

  /** `record.firstName || 'User'`. */
  function DisplayName(row: Row): string {
    if Falsy(row, "firstName") then "User" else row["firstName"]
  }

  /** The test title `Row <n>: Happy Path - <name>`. */
  function TestTitle(row: Row, index: nat): string {
    "Row " + RowNumber(index) + (": Happy Path - " + DisplayName(row))
  }

  /** The title ends in the first name, or in `User` when there is none; and
      it differs from row to row whatever the names are, as the test runner
      needs of titles in one file. */
  lemma TitleProperties(row: Row, index: nat, row': Row, index': nat)
    ensures var t := TestTitle(row, index);
      var name := if Falsy(row, "firstName") then "User" else row["firstName"];
      |name| <= |t| && t[|t| - |name|..] == name
    ensures index != index' ==> TestTitle(row, index) != TestTitle(row', index')
  {
    var s := ": Happy Path - " + DisplayName(row);
    var s' := ": Happy Path - " + DisplayName(row');
    if TestTitle(row, index) == TestTitle(row', index') {
      assert s[0] == ':' && s'[0] == ':';
      NumberAfterPrefix("Row ", index + 1, s, index' + 1, s');
    }
  }

  /** `record.firstName` as a property value: `undefined` when the column is
      absent, the (possibly empty) text otherwise. */
  function UserValue(row: Row): Value {
    if "firstName" in row then Str(row["firstName"]) else Undefined
  }

  /** `path.join(cwd, 'test-results', 'screenshots', 'row-<n>.png')`. */
  function ScreenshotPath(cwd: string, index: nat): string {
    PathJoin([cwd, "test-results", "screenshots", "row-" + RowNumber(index) + ".png"])
  }

  /** Different rows write their screenshots to different files. */
  lemma ScreenshotPathsDistinct(cwd: string, i: nat, j: nat)
    ensures ScreenshotPath(cwd, i) == ScreenshotPath(cwd, j) <==> i == j
  {
    var dir := cwd + "/" + "test-results" + "/" + "screenshots" + "/" + "row-";
    ScreenshotPathShape(cwd, i);
    ScreenshotPathShape(cwd, j);
    if ScreenshotPath(cwd, i) == ScreenshotPath(cwd, j) {
      CancelPrefix(dir, RowNumber(i) + ".png", RowNumber(j) + ".png");
      assert ".png"[0] == '.';
      LeadingNumber(i + 1, ".png", j + 1, ".png");
    }
  }

  lemma ScreenshotPathShape(cwd: string, i: nat)
    ensures ScreenshotPath(cwd, i) ==
      (cwd + "/" + "test-results" + "/" + "screenshots" + "/" + "row-") + (RowNumber(i) + ".png")
  {
    var name := "row-" + RowNumber(i) + ".png";
    var parts := [cwd, "test-results", "screenshots", name];
    assert parts[1..] == ["test-results", "screenshots", name];
    assert parts[1..][1..] == ["screenshots", name];
    JoinPair("screenshots", name, "/");
    assert Join(parts[1..], "/") == "test-results" + "/" + ("screenshots" + "/" + name);
    assert Join(parts, "/") == cwd + "/" + ("test-results" + "/" + ("screenshots" + "/" + name));
  }

  function StartedPayload(row: Row): Rec {
    [Field("user", UserValue(row)), Field("status", Str("started"))]
  }

  function CompletedPayload(row: Row, screenshot: string): Rec {
    [Field("user", UserValue(row)), Field("status", Str("completed")), Field("screenshot", Str(screenshot))]
  }

  /** What one row's test observes: the stamps of its two `addTestData`
      calls, and whether every browser step and the confirmation check passed. */
  datatype RowEnv = RowEnv(started: Stamp, completed: Stamp, passed: bool)

  /** How one row's test ends: thrown by the URL guard, failed in the browser
      steps, or completed with a screenshot. */
  datatype RowOutcome = Rejected(message: string) | Failed | Completed(screenshot: string)

  /** One row's test. */
  function RunRow(rep: TestReporter, row: Row, index: nat, cwd: string, env: RowEnv): (res: (TestReporter, RowOutcome))
    ensures res.1.Rejected? <==> Falsy(row, "url")
    ensures res.1.Rejected? ==> res.0 == rep && res.1.message == MissingUrlMessage(index)
    ensures res.1.Completed? <==> !Falsy(row, "url") && env.passed
    ensures !res.1.Rejected? ==>
      && |res.0.data| == |rep.data| + (if env.passed then 2 else 1)
      && res.0.data[..|rep.data|] == rep.data
      && res.0.data[|rep.data|] == Stamped(StartedPayload(row), Staging, env.started)
    ensures res.1.Completed? ==>
      && res.1.screenshot == ScreenshotPath(cwd, index)
      && res.0.data[|rep.data| + 1] == Stamped(CompletedPayload(row, res.1.screenshot), Staging, env.completed)
  {
    match CheckUrl(row, index)
    case Err(message) => (rep, Rejected(message))
    case Ok(_) =>
      var started := AddTestData(rep, Staging, StartedPayload(row), env.started);
      if !env.passed then (started, Failed)
      else
        var shot := ScreenshotPath(cwd, index);
        var done := AddTestData(started, Staging, CompletedPayload(row, shot), env.completed);
        assert done.data[..|rep.data|] == started.data[..|rep.data|];
        (done, Completed(shot))
  }

  /** For a completed row, the two records it appends carry the same `user`,
      with status `started` then `completed`. */
  lemma CompletedRowRecordsCorrelate(rep: TestReporter, row: Row, index: nat, cwd: string, env: RowEnv)
    requires !Falsy(row, "url") && env.passed
    ensures var data := RunRow(rep, row, index, cwd, env).0.data;
      var n := |rep.data|;
      && Get(data[n], "user") == Some(UserValue(row)) == Get(data[n + 1], "user")
      && Get(data[n], "status") == Some(Str("started"))
      && Get(data[n + 1], "status") == Some(Str("completed"))
      && Get(data[n + 1], "screenshot") == Some(Str(ScreenshotPath(cwd, index)))
  {
    var shot := ScreenshotPath(cwd, index);
    var res := RunRow(rep, row, index, cwd, env);
    assert res.1 == Completed(shot);
    PayloadsAgree(row, shot, env.started, env.completed);
  }

  lemma PayloadsAgree(row: Row, shot: string, st: Stamp, st': Stamp)
    ensures var first := Stamped(StartedPayload(row), Staging, st);
      var second := Stamped(CompletedPayload(row, shot), Staging, st');
      && Get(first, "user") == Some(UserValue(row)) == Get(second, "user")
      && Get(first, "status") == Some(Str("started"))
      && Get(second, "status") == Some(Str("completed"))
      && Get(second, "screenshot") == Some(Str(shot))
  {
    var p := StartedPayload(row);
    var q := CompletedPayload(row, shot);
    GetAt(p, 0);
    GetAt(p, 1);
    GetAt(q, 0);
    GetAt(q, 1);
    GetAt(q, 2);
    StampedGet(p, st, "user", UserValue(row));
    StampedGet(p, st, "status", Str("started"));
    StampedGet(q, st', "user", UserValue(row));
    StampedGet(q, st', "status", Str("completed"));
    StampedGet(q, st', "screenshot", Str(shot));
  }

  lemma StampedGet(payload: Rec, st: Stamp, k: string, v: Value)
    requires k != "timestamp" && k != "testId"
    requires Get(payload, k) == Some(v)
    ensures Get(Stamped(payload, Staging, st), k) == Some(v)
  {
    StampedValues(payload, Staging, st, k);
  }

  /** The two records of a completed row have different key lists: the
      `started` record (listed first when the row is the first one run) gives
      the header four columns, while the `completed` record's data line has
      five cells. */
  lemma CompletedRowShapes(row: Row, cwd: string, env: RowEnv)
    requires !Falsy(row, "url") && env.passed
    ensures var data := RunRow(Fresh, row, 0, cwd, env).0.data;
      && Keys(data[0]) == ["user", "status", "timestamp", "testId"]
      && Keys(data[1]) == ["user", "status", "screenshot", "timestamp", "testId"]
  {
    var shot := ScreenshotPath(cwd, 0);
    var data := RunRow(Fresh, row, 0, cwd, env).0.data;
    assert data[0] == Stamped(StartedPayload(row), Staging, env.started);
    assert data[1] == Stamped(CompletedPayload(row, shot), Staging, env.completed);
    assert Keys(StartedPayload(row)) == ["user", "status"];
    assert Keys(CompletedPayload(row, shot)) == ["user", "status", "screenshot"];
    StampedFreshKeys(StartedPayload(row), Staging, env.started);
    StampedFreshKeys(CompletedPayload(row, shot), Staging, env.completed);
  }

  /** The whole suite, run one row after another in file order (the `i`-th
      row gets index `i`); `envs[i]` is what row `i` observes. The records of
      all rows go to one list: the per-reporter lists the runner produces,
      joined in order. */
  function RunAll(rows: seq<Row>, envs: seq<RowEnv>, cwd: string): TestReporter
    requires |envs| == |rows|
    decreases |rows|
  {
    if |rows| == 0 then Fresh
    else
      var n := |rows| - 1;
      RunRow(RunAll(rows[..n], envs[..n], cwd), rows[n], n, cwd, envs[n]).0
  }

  /** How many records of the list carry the given status. */
  function CountStatus(data: seq<Rec>, status: string): nat
    decreases |data|
  {
    if |data| == 0 then 0
    else
      CountStatus(data[..|data| - 1], status)
        + (if Get(data[|data| - 1], "status") == Some(Str(status)) then 1 else 0)
  }

  function CountValid(rows: seq<Row>): nat
    decreases |rows|
  {
    if |rows| == 0 then 0
    else CountValid(rows[..|rows| - 1]) + (if Falsy(rows[|rows| - 1], "url") then 0 else 1)
  }

  function CountPassed(rows: seq<Row>, envs: seq<RowEnv>): nat
    requires |envs| == |rows|
    decreases |rows|
  {
    if |rows| == 0 then 0
    else
      var n := |rows| - 1;
      CountPassed(rows[..n], envs[..n]) + (if !Falsy(rows[n], "url") && envs[n].passed then 1 else 0)
  }

  lemma CountStatusAppend(data: seq<Rec>, r: Rec, status: string)
    ensures CountStatus(data + [r], status) ==
      CountStatus(data, status) + (if Get(r, "status") == Some(Str(status)) then 1 else 0)
  {
    assert (data + [r])[..|data|] == data;
  }

  /** One row adds a `started` record when it has a URL, and a `completed`
      record when it also passed. */
  lemma RunRowCounts(rep: TestReporter, row: Row, index: nat, cwd: string, env: RowEnv)
    ensures var data := RunRow(rep, row, index, cwd, env).0.data;
      && CountStatus(data, "started") == CountStatus(rep.data, "started") + (if Falsy(row, "url") then 0 else 1)
      && CountStatus(data, "completed") ==
           CountStatus(rep.data, "completed") + (if !Falsy(row, "url") && env.passed then 1 else 0)
  {
    if !Falsy(row, "url") {
      var res := RunRow(rep, row, index, cwd, env);
      var shot := ScreenshotPath(cwd, index);
      var first := Stamped(StartedPayload(row), Staging, env.started);
      PayloadsAgree(row, shot, env.started, env.completed);
      CountStatusAppend(rep.data, first, "started");
      CountStatusAppend(rep.data, first, "completed");
      if env.passed {
        var second := Stamped(CompletedPayload(row, shot), Staging, env.completed);
        assert res.0.data == rep.data + [first] + [second];
        CountStatusAppend(rep.data + [first], second, "started");
        CountStatusAppend(rep.data + [first], second, "completed");
      } else {
        assert res.0.data == rep.data + [first];
      }
    }
  }

  /** Over the rows of a run, there is one `started` record per row with a
      URL and one `completed` record per such row whose browser steps passed;
      a row without a URL adds nothing. `RunAll` keeps one list for all rows,
      so these are totals over every report the run writes, however the test
      runner splits the rows between reporters. */
  lemma {:induction false} RunAllCounts(rows: seq<Row>, envs: seq<RowEnv>, cwd: string)
    requires |envs| == |rows|
    ensures CountStatus(RunAll(rows, envs, cwd).data, "started") == CountValid(rows)
    ensures CountStatus(RunAll(rows, envs, cwd).data, "completed") == CountPassed(rows, envs)
    decreases |rows|
  {
    if |rows| > 0 {
      var n := |rows| - 1;
      var before := RunAll(rows[..n], envs[..n], cwd);
      assert RunAll(rows, envs, cwd) == RunRow(before, rows[n], n, cwd, envs[n]).0;
      assert CountValid(rows) == CountValid(rows[..n]) + (if Falsy(rows[n], "url") then 0 else 1);
      RunAllCounts(rows[..n], envs[..n], cwd);
      RunRowCounts(before, rows[n], n, cwd, envs[n]);
    }
  }
}
