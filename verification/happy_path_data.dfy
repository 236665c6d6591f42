/** The literal data of the scripted happy-path test: the synthetic e-mail
    and employee number, the nested test-data object it reports as
    `started`, and the `completed` object built from it by spreading and
    overriding. */
module HappyPathData {
  import opened Decimal
  import opened Records
  /** `Math.floor(Math.random() * 100000)` for a draw `r` in `[0, 1)`, with
      the product taken exactly: the floor of the exact `r * 100000`. The
      double-precision product can round up to the next integer, so at some
      draws JavaScript gets one more than this; the bound holds either way. */
  function RandomBelow100000(r: real): (n: nat)
    requires 0.0 <= r < 1.0
    ensures n < 100000
    ensures n as real <= r * 100000.0 < n as real + 1.0
  {
    (r * 100000.0).Floor
  }

  /** Every employee number the test can draw is drawn by some `r`. */
  lemma RandomBelowReachesAll(n: nat)
    requires n < 100000
    ensures 0.0 <= n as real / 100000.0 < 1.0
    ensures RandomBelow100000(n as real / 100000.0) == n
  {
    assert n as real / 100000.0 * 100000.0 == n as real;
  }

  /** `jt${n}@sf.com`. */
  function Email(n: nat): string {
    "jt" + NatToString(n) + "@sf.com"
  }

  /** `JT${m}`. */
  function EmployeeNumber(m: nat): string {
    "JT" + NatToString(m)
  }

  /** The form inputs, page by page. */
  function Inputs(email: string, employeeNumber: string): Rec {
    LoanDetails + (PersonalDetails(employeeNumber) + (AccountCreation(email) + LaterPages))
  }

  const LoanDetails: Rec :=
    [ Field("loanAmount", Str("2000")),
      Field("loanReason", Str("rent deposit")) ]

  function PersonalDetails(employeeNumber: string): Rec {
    [ Field("title", Str("Ms")),
      Field("firstName", Str("JoTest")),
      Field("lastName", Str("TheWater")),
      Field("dob", Str("01/01/1980")),
      Field("employeeId", Str(employeeNumber)),
      Field("phone", Str("07452856254")) ]
  }

  function AccountCreation(email: string): Rec {
    [ Field("email", Str(email)),
      Field("confirmEmail", Str(email)),
      Field("password", Str("Klopklop900-")) ]
  }

  /** Employment, address, housing, marital status, court orders and the
      four agreements. */
  const LaterPages: Rec :=
    [ Field("employmentStatus", Str("Employed Full Time")),
      Field("jobTitle", Str("TheBoss")),
      Field("employmentStartDate", Str("01/2000")),
      Field("grossAnnualIncome", Str("61000")),
      Field("netMonthlyIncome", Str("0")),
      Field("otherIncome", Str("0")),
      Field("postcode", Str("E16AN")),
      Field("selectedAddress", Str("12A Brushfield Street, London")),
      Field("moveInDate", Str("01/2000")),
      Field("housingStatus", Str("Owner (mortgage)")),
      Field("mortgageAmount", Str("200")),
      Field("maritalStatus", Str("Widowed")),
      Field("dependents", Str("0")),
      Field("courtOrders", Str("No")),
      Field("agreement1", Bool(true)),
      Field("agreement2", Bool(true)),
      Field("agreement3", Bool(true)),
      Field("agreement4", Bool(true)) ]

  function GeneratedValues(n: nat, m: nat): Rec {
    [ Field("email", Str(Email(n))),
      Field("employeeNumber", Str(EmployeeNumber(m))),
      Field("randomNumber", Num(n)),
      Field("randomEmployeeNumber", Num(m)) ]
  }

  /** The `testData` object reported when the test starts. */
  function TestData(n: nat, m: nat, startTime: string): Rec {
    [ Field("testName", Str("Complete Loan Application Test")),
      Field("url", Str("https://rc-borrowui.saldev.net/app-rec/BorrowHome")),
      Field("inputs", Obj(Inputs(Email(n), EmployeeNumber(m)))),
      Field("generatedValues", Obj(GeneratedValues(n, m))),
      Field("status", Str("started")),
      Field("startTime", Str(startTime)) ]
  }

  const Verification: Value :=
    Obj([ Field("applicationSubmitted", Bool(true)),
          Field("confirmationVisible", Bool(true)),
          Field("allElementsVerified", Bool(true)) ])

  /** `{...testData, status: 'completed', completedAt, screenshot, verification}`. */
  function Completed(testData: Rec, completedAt: string, screenshot: string): Rec {
    var r1 := Put(testData, "status", Str("completed"));
    var r2 := Put(r1, "completedAt", Str(completedAt));
    var r3 := Put(r2, "screenshot", Str(screenshot));
    Put(r3, "verification", Verification)
  }

  /** `screenshots/application-${employeeNumber}-${Date.now()}.png`. */
  function ScreenshotPath(employeeNumber: string, now: nat): string {
    "screenshots/application-" + employeeNumber + "-" + NatToString(now) + ".png"
  }

  const StartedKeys := ["testName", "url", "inputs", "generatedValues", "status", "startTime"]

  const CompletedKeyList :=
    ["testName", "url", "inputs", "generatedValues", "status", "startTime", "completedAt", "screenshot", "verification"]
}
