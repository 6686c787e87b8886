/** The Checks API client: request URLs, status-code errors, resource-name
    helpers and the report evaluation `validateReport`. The HTTP exchange
    itself is not modelled; its outcomes reach the model as values. */
module ChecksApi {
  import opened Wrappers
  import opened Severity
  import opened Models
  import opened JavaText

  // ---------------------------------------------------------------------
  // Report evaluation
  // ---------------------------------------------------------------------

  const FAILED_STATE: string := "FAILED"
  /** The format of one reported line, `"Type: %s. Details. %s"`, written
      as its literal pieces around the two conversions. */
  const DESCRIPTION_FORMAT: string := "Type: " + "%s" + ". Details. " + "%s" + ""

  /** A check counts against the report when the threshold includes its
      severity and its state is exactly "FAILED". */
  predicate IsFailing(threshold: SeverityThreshold, check: Check) {
    Includes(threshold, check.severity) && check.state == FAILED_STATE
  }

  /** The line reported for one failing check. */
  function Describe(check: Check): (line: string)
    ensures line == "Type: " + check.checkType + ". Details. " + check.details
  {
    FormatTwo("Type: ", ". Details. ", "", check.checkType, check.details);
    Format(DESCRIPTION_FORMAT, [check.checkType, check.details]).value
  }

  /** What `validateReport` returns, defined over the checks seen so far. */
  function FailingChecks(checks: seq<Check>, threshold: SeverityThreshold): (lines: seq<string>)
    ensures |lines| <= |checks|
    decreases |checks|
  {
    if checks == [] then []
    else
      var last := checks[|checks| - 1];
      FailingChecks(checks[..|checks| - 1], threshold)
        + (if IsFailing(threshold, last) then [Describe(last)] else [])
  }

  /** The positions of the failing checks, in increasing order. */
  function FailingIndices(checks: seq<Check>, threshold: SeverityThreshold): (idx: seq<nat>)
    ensures forall j :: 0 <= j < |idx| ==> idx[j] < |checks|
    ensures forall j, k :: 0 <= j < k < |idx| ==> idx[j] < idx[k]
    decreases |checks|
  {
    if checks == [] then []
    else
      FailingIndices(checks[..|checks| - 1], threshold)
        + (if IsFailing(threshold, checks[|checks| - 1]) then [|checks| - 1] else [])
  }

  /** One failing position per reported line. */
  lemma {:induction false} FailingCount(checks: seq<Check>, threshold: SeverityThreshold)
    ensures |FailingIndices(checks, threshold)| == |FailingChecks(checks, threshold)|
    decreases |checks|
  {
    if checks != [] {
      FailingCount(checks[..|checks| - 1], threshold);
    }
  }

  /** The j-th line describes the check at the j-th failing position. */
  lemma {:induction false} FailingLines(checks: seq<Check>, threshold: SeverityThreshold)
    ensures |FailingIndices(checks, threshold)| == |FailingChecks(checks, threshold)|
    ensures forall j :: 0 <= j < |FailingChecks(checks, threshold)| ==>
      FailingChecks(checks, threshold)[j] == Describe(checks[FailingIndices(checks, threshold)[j]])
    decreases |checks|
  {
    FailingCount(checks, threshold);
    if checks != [] {
      var n := |checks| - 1;
      var init := checks[..n];
      FailingLines(init, threshold);
      var lines, idx := FailingChecks(checks, threshold), FailingIndices(checks, threshold);
      var lines0, idx0 := FailingChecks(init, threshold), FailingIndices(init, threshold);
      assert lines[..|lines0|] == lines0 && idx[..|idx0|] == idx0;
      forall j | 0 <= j < |lines|
        ensures lines[j] == Describe(checks[idx[j]])
      {
        if j < |lines0| {
          assert lines[j] == lines0[j] && idx[j] == idx0[j];
          assert init[idx0[j]] == checks[idx0[j]];
        } else {
          assert lines[j] == Describe(checks[n]) && idx[j] == n;
        }
      }
    }
  }

  /** A position is failing exactly when its check is. */
  lemma {:induction false} FailingPositions(checks: seq<Check>, threshold: SeverityThreshold)
    ensures forall i :: 0 <= i < |checks| ==>
      (IsFailing(threshold, checks[i]) <==> i in FailingIndices(checks, threshold))
    decreases |checks|
  {
    if checks != [] {
      var n := |checks| - 1;
      var init := checks[..n];
      FailingPositions(init, threshold);
      var idx, idx0 := FailingIndices(checks, threshold), FailingIndices(init, threshold);
      assert idx[..|idx0|] == idx0;
      forall i | 0 <= i < |checks|
        ensures IsFailing(threshold, checks[i]) <==> i in idx
      {
        if i < n {
          assert init[i] == checks[i];
          assert i in idx0 <==> i in idx;
        } else {
          assert n !in idx0;
        }
      }
    }
  }

  /** `validateReport` keeps exactly the failing checks, in input order: the
      i-th line describes the check at the i-th failing position, and a
      position is failing exactly when its check is. */
  lemma FailingChecksExact(checks: seq<Check>, threshold: SeverityThreshold)
    ensures |FailingIndices(checks, threshold)| == |FailingChecks(checks, threshold)|
    ensures forall j :: 0 <= j < |FailingChecks(checks, threshold)| ==>
      FailingChecks(checks, threshold)[j] == Describe(checks[FailingIndices(checks, threshold)[j]])
    ensures forall i :: 0 <= i < |checks| ==>
      (IsFailing(threshold, checks[i]) <==> i in FailingIndices(checks, threshold))
  {
    FailingLines(checks, threshold);
    FailingPositions(checks, threshold);
  }

  /** No failing check is possible exactly when the result is empty. */
  lemma FailingChecksEmpty(checks: seq<Check>, threshold: SeverityThreshold)
    ensures FailingChecks(checks, threshold) == [] <==>
      forall i :: 0 <= i < |checks| ==> !IsFailing(threshold, checks[i])
  {
    FailingChecksExact(checks, threshold);
    var idx := FailingIndices(checks, threshold);
    if idx != [] {
      assert IsFailing(threshold, checks[idx[0]]);
    }
  }

  lemma {:induction false} FailingChecksAppend(a: seq<Check>, b: seq<Check>, threshold: SeverityThreshold)
    ensures FailingChecks(a + b, threshold) == FailingChecks(a, threshold) + FailingChecks(b, threshold)
    decreases |b|
  {
    if b == [] {
      assert a + b == a;
    } else {
      assert (a + b)[..|a + b| - 1] == a + b[..|b| - 1];
      FailingChecksAppend(a, b[..|b| - 1], threshold);
    }
  }

  /** Widening the threshold can only add lines: every check failing at
      the narrower threshold fails at the wider one, and the wider list is
      at least as long. */
  lemma {:induction false} FailingChecksWiden(checks: seq<Check>, t1: SeverityThreshold, t2: SeverityThreshold)
    requires Rank(t1) <= Rank(t2)
    ensures forall i :: 0 <= i < |checks| && IsFailing(t1, checks[i]) ==> IsFailing(t2, checks[i])
    ensures |FailingChecks(checks, t1)| <= |FailingChecks(checks, t2)|
    decreases |checks|
  {
    forall i | 0 <= i < |checks| && IsFailing(t1, checks[i]) ensures IsFailing(t2, checks[i]) {
      IncludesMonotonic(t1, t2, checks[i].severity);
    }
    if checks != [] {
      FailingChecksWiden(checks[..|checks| - 1], t1, t2);
    }
  }

  /** `validateReport`: walks the checks once, appending the description of
      each failing one. */
  method ValidateReport(checks: seq<Check>, threshold: SeverityThreshold) returns (failing: seq<string>)
    ensures failing == FailingChecks(checks, threshold)
  {
    failing := [];
    for i := 0 to |checks|
      invariant failing == FailingChecks(checks[..i], threshold)
    {
      assert checks[..i + 1][..i] == checks[..i];
      if IsFailing(threshold, checks[i]) {
        failing := failing + [Describe(checks[i])];
      }
    }
    assert checks[..|checks|] == checks;
  }

  /** The three checks of one severity used by the plugin's test: one
      failed, one passed, one unchecked, each named after its severity. */
  function FixtureGroup(severity: SeverityThreshold): seq<Check> {
    var level := match severity
      case PRIORITY => "Priority"
      case POTENTIAL => "Potential"
      case OPPORTUNITY => "Opportunity";
    [Check(level + " Check (failed)", "FAILED", severity, ""),
     Check(level + " Check (passed)", "PASSED", severity, ""),
     Check(level + " Check (unchecked)", "UNCHECKED", severity, "")]
  }

  function Fixture(): seq<Check> {
    FixtureGroup(PRIORITY) + FixtureGroup(POTENTIAL) + FixtureGroup(OPPORTUNITY)
  }

  lemma FixtureGroupFailing(severity: SeverityThreshold, threshold: SeverityThreshold)
    ensures |FailingChecks(FixtureGroup(severity), threshold)| == if Includes(threshold, severity) then 1 else 0
  {
    var g := FixtureGroup(severity);
    assert IsFailing(threshold, g[0]) == Includes(threshold, severity);
    assert !IsFailing(threshold, g[1]) && !IsFailing(threshold, g[2]);
    assert g[..1][..0] == [];
    assert |FailingChecks(g[..1], threshold)| == if Includes(threshold, severity) then 1 else 0;
    assert g[..2][..1] == g[..1];
    assert FailingChecks(g[..2], threshold) == FailingChecks(g[..1], threshold);
    assert g[..2] == g[..|g| - 1];
  }

  /** On the nine-check fixture the threshold PRIORITY finds one failing
      check, POTENTIAL two and OPPORTUNITY three. */
  lemma FixtureCounts()
    ensures |FailingChecks(Fixture(), PRIORITY)| == 1
    ensures |FailingChecks(Fixture(), POTENTIAL)| == 2
    ensures |FailingChecks(Fixture(), OPPORTUNITY)| == 3
  {
    forall t | true
      ensures |FailingChecks(Fixture(), t)| ==
        (if Includes(t, PRIORITY) then 1 else 0) + (if Includes(t, POTENTIAL) then 1 else 0)
        + (if Includes(t, OPPORTUNITY) then 1 else 0)
    {
      FailingChecksAppend(FixtureGroup(PRIORITY) + FixtureGroup(POTENTIAL), FixtureGroup(OPPORTUNITY), t);
      FailingChecksAppend(FixtureGroup(PRIORITY), FixtureGroup(POTENTIAL), t);
      FixtureGroupFailing(PRIORITY, t);
      FixtureGroupFailing(POTENTIAL, t);
      FixtureGroupFailing(OPPORTUNITY, t);
    }
  }

  // ---------------------------------------------------------------------
  // Resource names
  // ---------------------------------------------------------------------

  /** `getOperationIdFromName`: the last element of `name.split("/")`.
      `None` stands for the index-out-of-bounds exception Java throws when
      the split is empty. */
  function GetOperationIdFromName(name: string): Option<string> {
    var parts := Split(name, '/');
    if |parts| == 0 then None else Some(parts[|parts| - 1])
  }

  /** `getReportIdFromName`: the same computation for report names. */
  function GetReportIdFromName(name: string): Option<string> {
    var parts := Split(name, '/');
    if |parts| == 0 then None else Some(parts[|parts| - 1])
  }

  /** What the id of a resource name is: the text after its last slash,
      once trailing slashes are ignored; a name without slashes is its own
      id; only a name made of slashes alone has none (the exception). The
      id holds no slash, and is never empty when the name has a slash. */
  lemma IdFromName(name: string)
    ensures GetOperationIdFromName(name).None? <==> (name != [] && TrimTrailing(name, '/') == [])
    ensures GetOperationIdFromName(name).Some? ==>
      GetOperationIdFromName(name).value == AfterLast(TrimTrailing(name, '/'), '/')
    ensures GetOperationIdFromName(name).Some? ==> '/' !in GetOperationIdFromName(name).value
    ensures '/' !in name ==> GetOperationIdFromName(name) == Some(name)
    ensures GetOperationIdFromName(name).Some? && '/' in name ==> GetOperationIdFromName(name).value != []
  {
    SplitLast(name, '/');
  }

  /** Report names and operation names yield their ids alike. */
  lemma ReportIdLikeOperationId(name: string)
    ensures GetReportIdFromName(name) == GetOperationIdFromName(name)
  {
  }

  /** A name ending in a slash and a non-empty slash-free id yields that id,
      whatever comes before. */
  lemma NameEndingInId(prefix: string, id: string)
    requires id != [] && '/' !in id
    ensures GetOperationIdFromName(prefix + "/" + id) == Some(id)
    ensures GetReportIdFromName(prefix + "/" + id) == Some(id)
  {
    var name := prefix + "/" + id;
    IdFromName(name);
    ReportIdLikeOperationId(name);
    assert name[|name| - 1] == id[|id| - 1];
    assert id[|id| - 1] in id;
    assert TrimTrailing(name, '/') == name;
    assert name == prefix + ['/'] + id;
    AfterLastOfSuffix(prefix, id, '/');
  }

  lemma OperationIdExample()
    ensures GetOperationIdFromName("accounts/1/apps/12/operations/123") == Some("123")
  {
    NameEndingInId("accounts/1/apps/12/operations", "123");
    assert "accounts/1/apps/12/operations" + "/" + "123" == "accounts/1/apps/12/operations/123";
  }

  // ---------------------------------------------------------------------
  // Status codes
  // ---------------------------------------------------------------------

  /** The exceptions `handleNotOKStatusCode` throws: `BadRequest` and
      `Forbidden` are IllegalArgumentExceptions, `ApiStatus` a
      RuntimeException naming the code. */
  datatype ApiError = BadRequest | Forbidden | ApiStatus(statusCode: int)

  /** Anything a remote call can end with instead of a value: an
      IOException (missing file, transport failure) or an API error. */
  datatype RemoteError = Io(message: string) | Api(apiError: ApiError)

  const API_ERROR_PREFIX: string := "API Error returned with status code="

  function HandleNotOKStatusCode(statusCode: int): (e: ApiError)
    ensures statusCode == 400 <==> e == BadRequest
    ensures statusCode == 403 <==> e == Forbidden
    ensures e.ApiStatus? ==> e.statusCode == statusCode
  {
    match statusCode
    case 400 => BadRequest
    case 403 => Forbidden
    case _ => ApiStatus(statusCode)
  }

  function ErrorMessage(e: ApiError): string {
    match e
    case BadRequest => "Bad Request"
    case Forbidden => "Forbidden"
    case ApiStatus(code) => API_ERROR_PREFIX + IntToString(code)
  }

  /** Every other code can be read back from the message. */
  lemma StatusCodeInMessage(statusCode: int)
    requires statusCode != 400 && statusCode != 403
    ensures var m := ErrorMessage(HandleNotOKStatusCode(statusCode));
      |m| > |API_ERROR_PREFIX| && m[..|API_ERROR_PREFIX|] == API_ERROR_PREFIX
      && ParseInt(m[|API_ERROR_PREFIX|..]) == Some(statusCode)
  {
    var m := ErrorMessage(HandleNotOKStatusCode(statusCode));
    assert m[|API_ERROR_PREFIX|..] == IntToString(statusCode);
    IntToStringRoundTrip(statusCode);
  }

  /** Different errors never share a message. */
  lemma ErrorMessageInjective(e1: ApiError, e2: ApiError)
    ensures ErrorMessage(e1) == ErrorMessage(e2) ==> e1 == e2
  {
    if e1.ApiStatus? && e2.ApiStatus? {
      assert ErrorMessage(e1)[|API_ERROR_PREFIX|..] == IntToString(e1.statusCode);
      assert ErrorMessage(e2)[|API_ERROR_PREFIX|..] == IntToString(e2.statusCode);
      IntToStringRoundTrip(e1.statusCode);
      IntToStringRoundTrip(e2.statusCode);
    } else if e1.ApiStatus? {
      assert |ErrorMessage(e1)| > 11 >= |ErrorMessage(e2)|;
    } else if e2.ApiStatus? {
      assert |ErrorMessage(e2)| > 11 >= |ErrorMessage(e1)|;
    } else if e1 != e2 {
      assert |ErrorMessage(e1)| != |ErrorMessage(e2)|;
    }
  }

  predicate IsSuccessStatusCode(statusCode: int) { 200 <= statusCode < 300 }

  /** `executeAndParse`: the body is parsed only on a 2xx status; any other
      status becomes the error `handleNotOKStatusCode` throws. */
  function ExecuteAndParse<T>(statusCode: int, body: T): (r: Result<T, ApiError>)
    ensures r.Ok? <==> IsSuccessStatusCode(statusCode)
    ensures r.Ok? ==> r.value == body
    ensures r.Err? ==> r.error == HandleNotOKStatusCode(statusCode)
  {
    if !IsSuccessStatusCode(statusCode) then Err(HandleNotOKStatusCode(statusCode)) else Ok(body)
  }

  // ---------------------------------------------------------------------
  // Request URLs
  // ---------------------------------------------------------------------

  const DEFAULT_BASE_URL: string := "https://checks.googleapis.com"
  // The endpoint templates, written as their literal pieces around each
  // `%s` conversion.
  const APPS_PATH: string := "/v1alpha/accounts/" + "%s" + "/apps/"
  const UPLOAD_PATH: string :=
    "/upload/v1alpha/accounts/" + "%s" + "/apps/" + "%s" + "/reports:analyzeUpload"
  const OPERATION_PATH: string :=
    "/v1alpha/accounts/" + "%s" + "/apps/" + "%s" + "/operations/" + "%s" + ""
  const REPORT_QUERY: string := "?fields=name,checks(type,state,severity)"
  const REPORT_PATH: string :=
    "/v1alpha/accounts/" + "%s" + "/apps/" + "%s" + "/reports/" + "%s" + REPORT_QUERY

  lemma PrependPrepend(a: string, b: string, r: Result<string, FormatError>)
    ensures Prepend(a, Prepend(b, r)) == Prepend(a + b, r)
  {
    match r
    case Ok(v) => assert a + (b + v) == (a + b) + v;
    case Err(_) =>
  }

  /** One literal piece and one `%s`, then the rest of the template. */
  lemma SubstituteStep(lit: string, rest: string, arg: string, args: seq<string>)
    requires '%' !in lit
    ensures WellFormed(lit + "%s" + rest) == WellFormed(rest)
    ensures Substitute(lit + "%s" + rest, [arg] + args) == Prepend(lit + arg, Substitute(rest, args))
  {
    assert lit + "%s" + rest == lit + ("%s" + rest);
    FormatLiteralPrefix(lit, "%s" + rest, [arg] + args);
    FormatArgPrefix(rest, arg, args);
    PrependPrepend(lit, arg, Substitute(rest, args));
  }

  lemma FormatOne(l0: string, l1: string, a: string)
    requires '%' !in l0 && '%' !in l1
    ensures Format(l0 + "%s" + l1, [a]) == Ok(l0 + a + l1)
  {
    assert [a] == [a] + [];
    SubstituteStep(l0, l1, a, []);
    FormatNoConversions(l1, []);
  }

  lemma FormatTwo(l0: string, l1: string, l2: string, a: string, b: string)
    requires '%' !in l0 && '%' !in l1 && '%' !in l2
    ensures Format(l0 + "%s" + l1 + "%s" + l2, [a, b]) == Ok(l0 + a + l1 + b + l2)
  {
    var rest := l1 + "%s" + l2;
    assert l0 + "%s" + l1 + "%s" + l2 == l0 + "%s" + rest;
    assert [a, b] == [a] + [b];
    SubstituteStep(l0, rest, a, [b]);
    FormatOne(l1, l2, b);
    assert (l0 + a) + (l1 + b + l2) == l0 + a + l1 + b + l2;
  }

  lemma FormatThree(l0: string, l1: string, l2: string, l3: string, a: string, b: string, c: string)
    requires '%' !in l0 && '%' !in l1 && '%' !in l2 && '%' !in l3
    ensures Format(l0 + "%s" + l1 + "%s" + l2 + "%s" + l3, [a, b, c]) == Ok(l0 + a + l1 + b + l2 + c + l3)
  {
    var rest := l1 + "%s" + l2 + "%s" + l3;
    assert l0 + "%s" + l1 + "%s" + l2 + "%s" + l3 == l0 + "%s" + rest;
    assert [a, b, c] == [a] + [b, c];
    SubstituteStep(l0, rest, a, [b, c]);
    FormatTwo(l1, l2, l3, b, c);
    assert (l0 + a) + (l1 + b + l2 + c + l3) == l0 + a + l1 + b + l2 + c + l3;
  }

  lemma ConcatFour(x: string, a: string, b: string, c: string)
    ensures x + (a + b + c) == x + a + b + c
  {
  }

  lemma ConcatSix(x: string, a: string, b: string, c: string, d: string, e: string)
    ensures x + (a + b + c + d + e) == x + a + b + c + d + e
  {
  }

  lemma ConcatEight(x: string, a: string, b: string, c: string, d: string, e: string, f: string, g: string)
    ensures x + (a + b + c + d + e + f + g) == x + a + b + c + d + e + f + g
  {
  }

  lemma ConcatSevenEmpty(x: string, a: string, b: string, c: string, d: string, e: string, f: string)
    ensures x + (a + b + c + d + e + f + "") == x + a + b + c + d + e + f
  {
    assert a + b + c + d + e + f + "" == a + b + c + d + e + f;
  }

  /** The client: configuration plus the token set by `authenticate`. */
  class GoogleChecks {
    var baseUrl: string
    var projectId: string
    var accountId: string
    var appId: string
    var accessTokenValue: Option<string>

    /** A missing base URL keeps the public endpoint. */
    constructor (baseUrl: Option<string>, projectId: string, accountId: string, appId: string)
      ensures this.baseUrl == if baseUrl.Some? then baseUrl.value else DEFAULT_BASE_URL
      ensures this.projectId == projectId && this.accountId == accountId && this.appId == appId
      ensures accessTokenValue == None
    {
      this.baseUrl := DEFAULT_BASE_URL;
      if baseUrl.Some? {
        this.baseUrl := baseUrl.value;
      }
      this.projectId := projectId;
      this.accountId := accountId;
      this.appId := appId;
      this.accessTokenValue := None;
    }

    /** `authenticate`: `answer` is what the credentials helper gives for
        the configured credentials id, a token or the message of the
        exception it throws. A failure leaves the token as it was. */
    method Authenticate(answer: Result<string, string>) returns (r: Result<(), string>)
      modifies this`accessTokenValue
      ensures r.Ok? <==> answer.Ok?
      ensures answer.Ok? ==> accessTokenValue == Some(answer.value)
      ensures answer.Err? ==> accessTokenValue == old(accessTokenValue) && r.error == answer.error
    {
      match answer
      case Ok(token) =>
        accessTokenValue := Some(token);
        r := Ok(());
      case Err(message) =>
        r := Err(message);
    }

    /** `buildUrl`: the base URL and the path are first joined by a
        format of their own, then the result is formatted with the
        arguments. When the base URL holds no `%` only the path's
        conversions matter. */
    function BuildUrl(format: string, args: seq<string>): (r: Result<string, FormatError>)
      reads this
      ensures '%' !in baseUrl ==> r == Prepend(baseUrl, Format(format, args))
    {
      FormatTwo("", "", "", baseUrl, format);
      assert "" + "%s" + "" + "%s" + "" == "%s%s";
      assert "" + baseUrl + "" + format + "" == baseUrl + format;
      assert '%' !in baseUrl ==> Format(baseUrl + format, args) == Prepend(baseUrl, Format(format, args)) by {
        if '%' !in baseUrl {
          FormatLiteralPrefix(baseUrl, format, args);
        }
      }
      match Format("%s%s", [baseUrl, format])
      case Ok(url) => Format(url, args)
      case Err(e) => Err(e)
    }

    function AppsListUrl(): (r: Result<string, FormatError>)
      reads this
      ensures '%' !in baseUrl ==> r == Ok(baseUrl + "/v1alpha/accounts/" + accountId + "/apps/")
    {
      FormatOne("/v1alpha/accounts/", "/apps/", accountId);
      ConcatFour(baseUrl, "/v1alpha/accounts/", accountId, "/apps/");
      BuildUrl(APPS_PATH, [accountId])
    }

    function UploadUrl(): (r: Result<string, FormatError>)
      reads this
      ensures '%' !in baseUrl ==>
        r == Ok(baseUrl + "/upload/v1alpha/accounts/" + accountId + "/apps/" + appId + "/reports:analyzeUpload")
    {
      FormatTwo("/upload/v1alpha/accounts/", "/apps/", "/reports:analyzeUpload", accountId, appId);
      ConcatSix(baseUrl, "/upload/v1alpha/accounts/", accountId, "/apps/", appId, "/reports:analyzeUpload");
      BuildUrl(UPLOAD_PATH, [accountId, appId])
    }

    function OperationUrl(operationId: string): (r: Result<string, FormatError>)
      reads this
      ensures '%' !in baseUrl ==>
        r == Ok(baseUrl + "/v1alpha/accounts/" + accountId + "/apps/" + appId + "/operations/" + operationId)
    {
      FormatThree("/v1alpha/accounts/", "/apps/", "/operations/", "", accountId, appId, operationId);
      ConcatSevenEmpty(baseUrl, "/v1alpha/accounts/", accountId, "/apps/", appId, "/operations/", operationId);
      BuildUrl(OPERATION_PATH, [accountId, appId, operationId])
    }

    function ReportUrl(reportId: string): (r: Result<string, FormatError>)
      reads this
      ensures '%' !in baseUrl ==>
        r == Ok(baseUrl + "/v1alpha/accounts/" + accountId + "/apps/" + appId + "/reports/" + reportId
                + REPORT_QUERY)
    {
      FormatThree("/v1alpha/accounts/", "/apps/", "/reports/", REPORT_QUERY, accountId, appId, reportId);
      ConcatEight(baseUrl, "/v1alpha/accounts/", accountId, "/apps/", appId, "/reports/", reportId, REPORT_QUERY);
      BuildUrl(REPORT_PATH, [accountId, appId, reportId])
    }
  }
}
