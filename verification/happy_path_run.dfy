/** The single scripted happy-path test: synthetic e-mail and employee
    number, the nested test-data object it reports as `started`, and the
    `completed` object built from it by spreading and overriding. The browser
    steps are one input: whether every step and every confirmation check
    passed. */
module HappyPathRun {
  import opened Results
  import opened Decimal
  import opened Records
  import opened Reporter
  import opened HappyPathData

  /** The synthetic values are short and determine the numbers they were
      made from. */
  lemma SyntheticValues(n: nat, m: nat, n': nat, m': nat)
    requires n < 100000 && m < 100000
    ensures |Email(n)| <= 14 && |EmployeeNumber(m)| <= 7
    ensures Email(n) == Email(n') <==> n == n'
    ensures EmployeeNumber(m) == EmployeeNumber(m') <==> m == m'
  {
    assert Pow10(5) == 100000;
    NatToStringLength(n, 5);
    NatToStringLength(m, 5);
    if Email(n) == Email(n') {
      NumberAfterPrefix("jt", n, "@sf.com", n', "@sf.com");
    }
    if EmployeeNumber(m) == EmployeeNumber(m') {
      assert EmployeeNumber(m)[2..] == NatToString(m);
      assert EmployeeNumber(m')[2..] == NatToString(m');
      NatToStringInjective(m, m');
    }
  }

  /** The one e-mail address fills both e-mail inputs, and the employee
      number is the one typed as employee id. */
  lemma InputsAgree(email: string, employeeNumber: string)
    ensures Get(Inputs(email, employeeNumber), "email") == Some(Str(email))
    ensures Get(Inputs(email, employeeNumber), "confirmEmail") == Some(Str(email))
    ensures Get(Inputs(email, employeeNumber), "employeeId") == Some(Str(employeeNumber))
  {
    InputEmployeeId(email, employeeNumber);
    InputEmail(email, employeeNumber);
  }

  /** The personal-details page is where the employee number is typed. */
  lemma EmployeeIdOnPersonalPage(employeeNumber: string)
    ensures Get(PersonalDetails(employeeNumber), "employeeId") == Some(Str(employeeNumber))
  {
    var personal := PersonalDetails(employeeNumber);
    assert forall j :: 0 <= j < 4 ==> personal[j].key != personal[4].key;
    GetFirstAt(personal, 4);
  }

  /** The account-creation page takes the e-mail address twice. */
  lemma EmailOnAccountPage(email: string)
    ensures Get(AccountCreation(email), "email") == Some(Str(email))
    ensures Get(AccountCreation(email), "confirmEmail") == Some(Str(email))
  {
    GetFirstAt(AccountCreation(email), 0);
    GetFirstAt(AccountCreation(email), 1);
  }

  lemma InputEmployeeId(email: string, employeeNumber: string)
    ensures Get(Inputs(email, employeeNumber), "employeeId") == Some(Str(employeeNumber))
  {
    var personal := PersonalDetails(employeeNumber);
    var rest := AccountCreation(email) + LaterPages;
    GetSkip(LoanDetails, personal + rest, "employeeId");
    assert personal[4].key == "employeeId";
    GetFront(personal, rest, "employeeId");
    EmployeeIdOnPersonalPage(employeeNumber);
  }

  lemma FirstPagesKeys(employeeNumber: string)
    ensures Keys(LoanDetails) == ["loanAmount", "loanReason"]
    ensures Keys(PersonalDetails(employeeNumber)) == ["title", "firstName", "lastName", "dob", "employeeId", "phone"]
  {
  }

  /** Both e-mail inputs sit past the loan and personal-details pages. */
  lemma PastFirstPages(email: string, employeeNumber: string, k: string)
    requires k == "email" || k == "confirmEmail"
    ensures Get(Inputs(email, employeeNumber), k) == Get(AccountCreation(email) + LaterPages, k)
  {
    var personal := PersonalDetails(employeeNumber);
    var rest := AccountCreation(email) + LaterPages;
    FirstPagesKeys(employeeNumber);
    assert k !in Keys(LoanDetails) && k !in Keys(personal);
    GetSkip(LoanDetails, personal + rest, k);
    GetSkip(personal, rest, k);
  }

  lemma InputEmail(email: string, employeeNumber: string)
    ensures Get(Inputs(email, employeeNumber), "email") == Some(Str(email))
    ensures Get(Inputs(email, employeeNumber), "confirmEmail") == Some(Str(email))
  {
    var account := AccountCreation(email);
    PastFirstPages(email, employeeNumber, "email");
    PastFirstPages(email, employeeNumber, "confirmEmail");
    assert account[0].key == "email" && account[1].key == "confirmEmail";
    GetFront(account, LaterPages, "email");
    GetFront(account, LaterPages, "confirmEmail");
    EmailOnAccountPage(email);
  }

  /** In the started object, the form inputs and the generated values agree:
      both e-mail inputs hold the generated e-mail, and the employee id input
      holds the generated employee number. */
  lemma GeneratedValuesAgree(n: nat, m: nat, startTime: string)
    ensures var data := TestData(n, m, startTime);
      && Get(data, "inputs").Some? && Get(data, "inputs").value.Obj?
      && Get(data, "generatedValues").Some? && Get(data, "generatedValues").value.Obj?
      && var inputs := Get(data, "inputs").value.fields;
         var generated := Get(data, "generatedValues").value.fields;
         && Get(generated, "email").Some? && Get(generated, "employeeNumber").Some?
         && Get(inputs, "email") == Get(generated, "email")
         && Get(inputs, "confirmEmail") == Get(generated, "email")
         && Get(inputs, "employeeId") == Get(generated, "employeeNumber")
  {
    TestDataParts(n, m, startTime);
    GeneratedLookups(n, m);
    InputsAgree(Email(n), EmployeeNumber(m));
  }

  /** Where the started object keeps the form inputs and generated values. */
  lemma TestDataParts(n: nat, m: nat, startTime: string)
    ensures Get(TestData(n, m, startTime), "inputs") == Some(Obj(Inputs(Email(n), EmployeeNumber(m))))
    ensures Get(TestData(n, m, startTime), "generatedValues") == Some(Obj(GeneratedValues(n, m)))
  {
    var data := TestData(n, m, startTime);
    assert forall j :: 0 <= j < 2 ==> data[j].key != data[2].key;
    GetFirstAt(data, 2);
    assert forall j :: 0 <= j < 3 ==> data[j].key != data[3].key;
    GetFirstAt(data, 3);
  }

  lemma GeneratedLookups(n: nat, m: nat)
    ensures Get(GeneratedValues(n, m), "email") == Some(Str(Email(n)))
    ensures Get(GeneratedValues(n, m), "employeeNumber") == Some(Str(EmployeeNumber(m)))
  {
    GetFirstAt(GeneratedValues(n, m), 1);
  }

  /** The started object's keys, in order, and its status. */
  lemma TestDataShape(n: nat, m: nat, startTime: string)
    ensures Keys(TestData(n, m, startTime)) == StartedKeys
    ensures Get(TestData(n, m, startTime), "status") == Some(Str("started"))
  {
    TestDataKeys(n, m, startTime);
    TestDataStatus(n, m, startTime);
  }

  lemma TestDataKeys(n: nat, m: nat, startTime: string)
    ensures Keys(TestData(n, m, startTime)) == StartedKeys
  {
  }

  lemma TestDataStatus(n: nat, m: nat, startTime: string)
    ensures Get(TestData(n, m, startTime), "status") == Some(Str("started"))
  {
    var data := TestData(n, m, startTime);
    assert data[4].key == "status";
    assert forall j :: 0 <= j < 4 ==> data[j].key != "status";
    GetFirstAt(data, 4);
  }

  /** The completed object keeps every key of the test data in its place
      (`status` included) and appends `completedAt`, `screenshot` and
      `verification`. */
  lemma CompletedKeys(testData: Rec, completedAt: string, screenshot: string)
    requires "status" in Keys(testData)
    requires "completedAt" !in Keys(testData) && "screenshot" !in Keys(testData) && "verification" !in Keys(testData)
    ensures Keys(Completed(testData, completedAt, screenshot)) ==
      Keys(testData) + ["completedAt", "screenshot", "verification"]
  {
    var r1 := Put(testData, "status", Str("completed"));
    PutKeys(testData, "status", Str("completed"));
    AppendedKeys(r1, completedAt, screenshot);
  }

  /** Adding the three completion keys to an object that has none of them. */
  lemma AppendedKeys(r1: Rec, completedAt: string, screenshot: string)
    requires "completedAt" !in Keys(r1) && "screenshot" !in Keys(r1) && "verification" !in Keys(r1)
    ensures var r2 := Put(r1, "completedAt", Str(completedAt));
      var r3 := Put(r2, "screenshot", Str(screenshot));
      Keys(Put(r3, "verification", Verification)) == Keys(r1) + ["completedAt", "screenshot", "verification"]
  {
    var ks := Keys(r1);
    var r2 := PutNew(r1, "completedAt", Str(completedAt));
    assert Keys(r2) == ks + ["completedAt"];
    var r3 := PutNew(r2, "screenshot", Str(screenshot));
    assert Keys(r3) == ks + ["completedAt", "screenshot"];
    var r4 := PutNew(r3, "verification", Verification);
    assert Keys(r4) == ks + ["completedAt", "screenshot", "verification"];
  }

  /** `Put` of a key the object lacks, with the resulting key list. */
  lemma PutNew(r: Rec, k: string, v: Value) returns (r': Rec)
    requires k !in Keys(r)
    ensures r' == Put(r, k, v)
    ensures Keys(r') == Keys(r) + [k]
  {
    PutKeys(r, k, v);
    r' := Put(r, k, v);
  }

  /** `status` reads `completed`, the three new keys read their new values,
      and every other key keeps the test data's value. */
  lemma CompletedValues(testData: Rec, completedAt: string, screenshot: string, k: string)
    ensures Get(Completed(testData, completedAt, screenshot), k) ==
      if k == "status" then Some(Str("completed"))
      else if k == "completedAt" then Some(Str(completedAt))
      else if k == "screenshot" then Some(Str(screenshot))
      else if k == "verification" then Some(Verification)
      else Get(testData, k)
  {
    var r1 := Put(testData, "status", Str("completed"));
    var r2 := Put(r1, "completedAt", Str(completedAt));
    var r3 := Put(r2, "screenshot", Str(screenshot));
    PutGet(testData, "status", Str("completed"), k);
    PutGet(r1, "completedAt", Str(completedAt), k);
    PutGet(r2, "screenshot", Str(screenshot), k);
    PutGet(r3, "verification", Verification, k);
  }

  /** The screenshot path names the employee number it was taken for. */
  lemma ScreenshotNamesEmployee(m: nat, now: nat, m': nat, now': nat)
    requires ScreenshotPath(EmployeeNumber(m), now) == ScreenshotPath(EmployeeNumber(m'), now')
    ensures m == m'
  {
    ScreenshotPathParts(m, now);
    ScreenshotPathParts(m', now');
    NumberAfterPrefix("screenshots/application-JT", m, "-" + NatToString(now) + ".png",
                      m', "-" + NatToString(now') + ".png");
  }

  lemma ScreenshotPathParts(m: nat, now: nat)
    ensures ScreenshotPath(EmployeeNumber(m), now) ==
      "screenshots/application-JT" + NatToString(m) + ("-" + NatToString(now) + ".png")
  {
  }

  /** What the test observes: the two random draws, the clock readings, the
      stamps of its two `addTestData` calls, and whether every browser step
      and confirmation check passed. */
  datatype HappyEnv = HappyEnv(
    emailDraw: real, employeeDraw: real,
    startTime: string, started: Stamp,
    completedAt: string, shotTime: nat, completed: Stamp,
    passed: bool)

  predicate ValidDraws(env: HappyEnv) {
    0.0 <= env.emailDraw < 1.0 && 0.0 <= env.employeeDraw < 1.0
  }

  /** The test body, as far as it reports. */
  function RunHappyPath(rep: TestReporter, env: HappyEnv): (rep': TestReporter)
    requires ValidDraws(env)
    ensures var n := RandomBelow100000(env.emailDraw);
      var m := RandomBelow100000(env.employeeDraw);
      var data := TestData(n, m, env.startTime);
      && |rep'.data| == |rep.data| + (if env.passed then 2 else 1)
      && rep'.data[..|rep.data|] == rep.data
      && rep'.data[|rep.data|] == Stamped(data, HappyPath, env.started)
      && (env.passed ==>
            rep'.data[|rep.data| + 1] ==
              Stamped(Completed(data, env.completedAt, ScreenshotPath(EmployeeNumber(m), env.shotTime)),
                      HappyPath, env.completed))
  {
    var n := RandomBelow100000(env.emailDraw);
    var m := RandomBelow100000(env.employeeDraw);
    var data := TestData(n, m, env.startTime);
    var started := AddTestData(rep, HappyPath, data, env.started);
    if !env.passed then started
    else
      var shot := ScreenshotPath(EmployeeNumber(m), env.shotTime);
      var done := AddTestData(started, HappyPath, Completed(data, env.completedAt, shot), env.completed);
      assert done.data[..|rep.data|] == started.data[..|rep.data|];
      done
  }

  /** From a fresh reporter, a passing run records two objects: the header
      of the tabular report has the started object's eight keys, while the
      completed object's data line has eleven cells. */
  lemma HappyPathRecordShapes(env: HappyEnv)
    requires ValidDraws(env) && env.passed
    ensures var data := RunHappyPath(Fresh, env).data;
      && |data| == 2
      && Keys(data[0]) == StartedKeys + ["timestamp", "testId"]
      && Keys(data[1]) == CompletedKeyList + ["timestamp", "testId"]
  {
    var n := RandomBelow100000(env.emailDraw);
    var m := RandomBelow100000(env.employeeDraw);
    var shot := ScreenshotPath(EmployeeNumber(m), env.shotTime);
    var started := TestData(n, m, env.startTime);
    var data := RunHappyPath(Fresh, env).data;
    assert data[0] == Stamped(started, HappyPath, env.started);
    assert data[1] == Stamped(Completed(started, env.completedAt, shot), HappyPath, env.completed);
    StartedRecordKeys(n, m, env.startTime, env.started);
    TestDataKeys(n, m, env.startTime);
    CompletedRecordKeys(started, env.completedAt, shot, env.completed);
  }

  lemma StartedRecordKeys(n: nat, m: nat, startTime: string, st: Stamp)
    ensures Keys(Stamped(TestData(n, m, startTime), HappyPath, st)) == StartedKeys + ["timestamp", "testId"]
  {
    TestDataKeys(n, m, startTime);
    assert "timestamp" !in StartedKeys && "testId" !in StartedKeys;
    StampedFreshKeys(TestData(n, m, startTime), HappyPath, st);
  }

  /** The started object has a `status` and none of the completion keys, and
      the completed object's keys follow its own. */
  lemma StartedKeysFacts()
    ensures "status" in StartedKeys
    ensures "completedAt" !in StartedKeys && "screenshot" !in StartedKeys && "verification" !in StartedKeys
    ensures CompletedKeyList == StartedKeys + ["completedAt", "screenshot", "verification"]
  {
    assert StartedKeys[4] == "status";
    assert forall j :: 0 <= j < |StartedKeys| ==> !(10 <= |StartedKeys[j]| <= 12);
  }

  lemma CompletedObjectKeys(data: Rec, completedAt: string, shot: string)
    requires Keys(data) == StartedKeys
    ensures Keys(Completed(data, completedAt, shot)) == CompletedKeyList
  {
    StartedKeysFacts();
    CompletedKeys(data, completedAt, shot);
  }

  lemma StampedCompletedKeys(done: Rec, st: Stamp)
    requires Keys(done) == CompletedKeyList
    ensures Keys(Stamped(done, HappyPath, st)) == CompletedKeyList + ["timestamp", "testId"]
  {
    assert "timestamp" !in Keys(done) && "testId" !in Keys(done);
    StampedFreshKeys(done, HappyPath, st);
  }

  lemma CompletedRecordKeys(data: Rec, completedAt: string, shot: string, st: Stamp)
    requires Keys(data) == StartedKeys
    ensures Keys(Stamped(Completed(data, completedAt, shot), HappyPath, st)) ==
      CompletedKeyList + ["timestamp", "testId"]
  {
    CompletedObjectKeys(data, completedAt, shot);
    StampedCompletedKeys(Completed(data, completedAt, shot), st);
  }
}
