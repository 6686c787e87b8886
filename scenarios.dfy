/** Whole runs of the step object against the Checks API fixtures of the
    plugin's integration tests: a server that accepts the upload with
    operation `accounts/1/apps/12/operations/123`, answers that the
    operation is done with report `accounts/1/apps/12/reports/123`, and
    serves a given report. */
module Scenarios {
  import opened Wrappers
  import opened Severity
  import opened Models
  import opened JavaText
  import opened ChecksApi
  import opened StepExecution
  import opened StepProperties

  const MISSING_CREDENTIALS: string := "You must provide initialized credentials id (content of your serviceaccount.json)"
  const OPERATION_PREFIX: string := "accounts/1/apps/12/operations"
  const REPORT_PREFIX: string := "accounts/1/apps/12/reports"
  const MOCK_SERVER: string := "http://localhost:1080"
  const RESULTS_URI: string := "https://checks.area120.google.com/console/dashboard/123?a=12"

  /** The step the tests configure, with the given threshold and policy. */
  function TestStep(credentialsId: Option<string>, threshold: SeverityThreshold, failOn: Option<FailOn>,
                    binaryPath: string): StepConfig
  {
    NewStep("checks-upload", "1", "12", binaryPath, credentialsId)
      .(severityThreshold := threshold, failOn := failOn, baseUrl := Some(MOCK_SERVER))
  }

  /** The finished operation the fixture server returns. */
  function DoneOperation(): Operation {
    Operation(OPERATION_PREFIX + "/" + "123", Some(true), Some(ReportResponse(REPORT_PREFIX + "/" + "123", RESULTS_URI)))
  }

  /** The credentials helper refuses a missing credentials id: the step
      fails with its message after that single call. */
  method MissingServiceAccount(binaryPath: string) returns (outcome: Outcome, calls: seq<RemoteCall>)
    ensures outcome == Failed(AuthFailure(MISSING_CREDENTIALS))
    ensures calls == [Authenticate(None)]
  {
    var step := TestStep(None, POTENTIAL, None, binaryPath);
    var execution := new UploadToChecksStepExecution(step);
    var r := execution.Start(0, Err(MISSING_CREDENTIALS), Ok(UploadResponse(OPERATION_PREFIX + "/" + "123")), Ok(""));
    outcome := execution.outcome;
    calls := execution.calls;
  }

  /** The binary cannot be read: the upload fails with the I/O error and
      the step fails with it, without polling. */
  method InvalidBinaryPath(now: int, problem: string) returns (outcome: Outcome, pending: bool)
    ensures outcome == Failed(RemoteFailure(Io(problem)))
    ensures !pending
  {
    var step := TestStep(Some("checks-service-account-content"), POTENTIAL, None, "./wrong-path-to-binary.apk");
    var execution := new UploadToChecksStepExecution(step);
    var r := execution.Start(now, Ok("fake token"), Err(Io(problem)), Ok(""));
    outcome := execution.outcome;
    pending := execution.taskPending;
  }

  /** Uploads, arms the polling task and checks that it is armed. */
  method StartWaiting(step: StepConfig, now: int, u: UploadResponse, id: string)
    returns (execution: UploadToChecksStepExecution)
    requires step.generateReport && step.waitForReport && GetOperationIdFromName(u.name) == Some(id)
    ensures fresh(execution) && execution.step == step && execution.ClientOfStep()
    ensures execution.taskPending && execution.outcome == Running
    ensures execution.operationId == Some(id) && execution.end == now + 1800000
    ensures execution.calls == [Authenticate(step.credentialsId), Upload(step.binaryPath)]
    ensures execution.log == [Uploading(step.binaryPath)]
  {
    execution := new UploadToChecksStepExecution(step);
    StartUploads(execution.State(), step, now, Ok("fake token"), u, Ok(""), id);
    var r := execution.Start(now, Ok("fake token"), Ok(u), Ok(""));
  }

  /** A waiting run sends its requests to the paths the test's mock
      server answers: the upload, the operation named in the upload
      response, and the report with its field selection. */
  method FixtureRequests(binaryPath: string, now: int)
    returns (upload: Result<string, FormatError>, operation: Result<string, FormatError>,
             report: Result<string, FormatError>)
    ensures upload == Ok(MOCK_SERVER + "/upload/v1alpha/accounts/1/apps/12/reports:analyzeUpload")
    ensures operation == Ok(MOCK_SERVER + "/v1alpha/accounts/1/apps/12/operations/123")
    ensures report == Ok(MOCK_SERVER + "/v1alpha/accounts/1/apps/12/reports/123" + REPORT_QUERY)
  {
    var step := TestStep(Some("checks-service-account-content"), PRIORITY, Some(ALL), binaryPath);
    NameEndingInId(OPERATION_PREFIX, "123");
    var execution := StartWaiting(step, now, UploadResponse(OPERATION_PREFIX + "/" + "123"), "123");
    NameEndingInId(REPORT_PREFIX, "123");
    assert '%' !in MOCK_SERVER;
    upload, operation, report := RequestUrls(execution.checks, "123", "123");
    UploadPath();
    OperationPath();
    ReportPath();
    JoinFive(MOCK_SERVER, "/upload/v1alpha/accounts/", "1", "/apps/", "12", "/reports:analyzeUpload",
             "/upload/v1alpha/accounts/1/apps/12/reports:analyzeUpload");
    JoinSix(MOCK_SERVER, "/v1alpha/accounts/", "1", "/apps/", "12", "/operations/", "123",
            "/v1alpha/accounts/1/apps/12/operations/123", REPORT_QUERY);
    JoinSix(MOCK_SERVER, "/v1alpha/accounts/", "1", "/apps/", "12", "/reports/", "123",
            "/v1alpha/accounts/1/apps/12/reports/123", REPORT_QUERY);
  }

  /** The URLs a client sends its upload, operation and report requests to. */
  method RequestUrls(checks: GoogleChecks, operationId: string, reportId: string)
    returns (upload: Result<string, FormatError>, operation: Result<string, FormatError>,
             report: Result<string, FormatError>)
    requires '%' !in checks.baseUrl
    ensures upload == Ok(checks.baseUrl + "/upload/v1alpha/accounts/" + checks.accountId + "/apps/" + checks.appId
                         + "/reports:analyzeUpload")
    ensures operation == Ok(checks.baseUrl + "/v1alpha/accounts/" + checks.accountId + "/apps/" + checks.appId
                            + "/operations/" + operationId)
    ensures report == Ok(checks.baseUrl + "/v1alpha/accounts/" + checks.accountId + "/apps/" + checks.appId
                         + "/reports/" + reportId + REPORT_QUERY)
  {
    upload := checks.UploadUrl();
    operation := checks.OperationUrl(operationId);
    report := checks.ReportUrl(reportId);
  }

  lemma JoinFive(base: string, a: string, b: string, c: string, d: string, e: string, path: string)
    requires a + b + c + d + e == path
    ensures base + a + b + c + d + e == base + path
  {
    assert base + a + b + c + d + e == base + (a + b + c + d + e);
  }

  lemma JoinSix(base: string, a: string, b: string, c: string, d: string, e: string, f: string, path: string,
                query: string)
    requires a + b + c + d + e + f == path
    ensures base + a + b + c + d + e + f == base + path
    ensures base + a + b + c + d + e + f + query == base + path + query
  {
    assert base + a + b + c + d + e + f == base + (a + b + c + d + e + f);
  }

  /** The paths the test's mock server answers, as the client builds them. */
  lemma UploadPath()
    ensures "/upload/v1alpha/accounts/" + "1" + "/apps/" + "12" + "/reports:analyzeUpload"
      == "/upload/v1alpha/accounts/1/apps/12/reports:analyzeUpload"
  {
  }

  lemma OperationPath()
    ensures "/v1alpha/accounts/" + "1" + "/apps/" + "12" + "/operations/" + "123"
      == "/v1alpha/accounts/1/apps/12/operations/123"
  {
  }

  lemma ReportPath()
    ensures "/v1alpha/accounts/" + "1" + "/apps/" + "12" + "/reports/" + "123"
      == "/v1alpha/accounts/1/apps/12/reports/123"
  {
  }

  /** A run of the polling task that finds the operation finished with a
      fetchable report. */
  method PollFinished(execution: UploadToChecksStepExecution, now: int, o: Operation, response: ReportResponse,
                      reportId: string, report: Report)
    requires execution.taskPending && execution.checks != null && execution.outcome == Running
    requires Finishes(execution.end, now, o)
    requires o.response == Some(response) && GetReportIdFromName(response.name) == Some(reportId)
    modifies execution
    ensures var failing := FailingChecks(report.checks, execution.step.severityThreshold);
      execution.outcome == Verdict(execution.step.failOn, failing == []) &&
      execution.log == old(execution.log) + [CheckingOn(old(execution.operationId)), ConsoleUrl(response.resultsUri)] +
                       ReportLog(failing) &&
      execution.calls == old(execution.calls) + [CheckOperation(IdText(old(execution.operationId))), GetReport(reportId)]
  {
    TickVerdict(execution.State(), execution.step, now, o, response, reportId, report);
    execution.Tick(now, Ok(o), Ok(report));
  }

  /** One FAILED check of PRIORITY severity with `failOn: ALL`: the first
      poll finds the operation done, prints one issue, and fails the step. */
  method OnePriorityIssue(binaryPath: string, now: int, details: string)
    returns (outcome: Outcome, printed: seq<string>, calls: seq<RemoteCall>)
    ensures outcome == Failed(ReportHasErrors)
    ensures "1 issue(s) detected:" in printed
    ensures calls == [Authenticate(Some("checks-service-account-content")), Upload(binaryPath),
                      CheckOperation("123"), GetReport("123")]
  {
    var step := TestStep(Some("checks-service-account-content"), PRIORITY, Some(ALL), binaryPath);
    NameEndingInId(OPERATION_PREFIX, "123");
    var execution := StartWaiting(step, now, UploadResponse(OPERATION_PREFIX + "/" + "123"), "123");
    var report := Report("", [Check("null", "FAILED", PRIORITY, details)]);
    OnePriorityFails(details);
    NameEndingInId(REPORT_PREFIX, "123");
    PollFinished(execution, now, DoneOperation(), DoneOperation().response.value, "123", report);
    outcome := execution.outcome;
    calls := execution.calls;
    printed := Printed(execution.log);
    assert execution.log[3] == IssueCount(1);
    PrintedLine(execution.log, 3);
    OneIssueText();
  }

  /** A FAILED check of POTENTIAL severity only, judged at PRIORITY with
      `failOn: ALL`: the console URL and "No issues detected." are
      printed and the step succeeds. */
  method PotentialIssue(binaryPath: string, now: int, details: string)
    returns (outcome: Outcome, printed: seq<string>)
    ensures outcome == Succeeded
    ensures "Report console URL: " + RESULTS_URI in printed
    ensures "No issues detected." in printed
  {
    var step := TestStep(Some("checks-service-account-content"), PRIORITY, Some(ALL), binaryPath);
    NameEndingInId(OPERATION_PREFIX, "123");
    var execution := StartWaiting(step, now, UploadResponse(OPERATION_PREFIX + "/" + "123"), "123");
    var report := Report("", [Check("null", "PASSED", PRIORITY, details), Check("null", "FAILED", POTENTIAL, details)]);
    OnlyPotentialFails(details);
    NameEndingInId(REPORT_PREFIX, "123");
    PollFinished(execution, now, DoneOperation(), DoneOperation().response.value, "123", report);
    outcome := execution.outcome;
    printed := Printed(execution.log);
    assert execution.log[2] == ConsoleUrl(RESULTS_URI) && execution.log[3] == NoIssues;
    PrintedLine(execution.log, 2);
    PrintedLine(execution.log, 3);
    ConsoleUrlText();
  }

  /** Uploads with `waitForReport: false`: the step is signalled at once. */
  method StartNotWaiting(step: StepConfig, now: int, u: UploadResponse, id: string)
    returns (execution: UploadToChecksStepExecution)
    requires step.generateReport && !step.waitForReport && GetOperationIdFromName(u.name) == Some(id)
    ensures execution.outcome == Succeeded && !execution.taskPending
    ensures execution.calls == [Authenticate(step.credentialsId), Upload(step.binaryPath)]
    ensures execution.log == [Uploading(step.binaryPath), NotWaiting]
  {
    execution := new UploadToChecksStepExecution(step);
    StartUploads(execution.State(), step, now, Ok("fake token"), u, Ok(""), id);
    var r := execution.Start(now, Ok("fake token"), Ok(u), Ok(""));
  }

  /** `waitForReport: false`: the step succeeds right after the upload and
      never asks for the report. */
  method NoWait(binaryPath: string, now: int) returns (outcome: Outcome, printed: seq<string>, calls: seq<RemoteCall>)
    ensures outcome == Succeeded
    ensures "Not waiting for the report to be generated. You'll receive an email once the report is ready." in printed
    ensures calls == [Authenticate(Some("checks-service-account-content")), Upload(binaryPath)]
  {
    var step := TestStep(Some("checks-service-account-content"), PRIORITY, Some(ALL), binaryPath).(waitForReport := false);
    NameEndingInId(OPERATION_PREFIX, "123");
    var execution := StartNotWaiting(step, now, UploadResponse(OPERATION_PREFIX + "/" + "123"), "123");
    outcome := execution.outcome;
    calls := execution.calls;
    printed := Printed(execution.log);
    PrintedLine(execution.log, 1);
    NotWaitingText();
  }

  lemma OnePriorityFails(details: string)
    ensures var checks := [Check("null", "FAILED", PRIORITY, details)];
      FailingChecks(checks, PRIORITY) == [Describe(checks[0])]
  {
    var checks := [Check("null", "FAILED", PRIORITY, details)];
    assert checks == [] + [checks[0]];
  }

  lemma OnlyPotentialFails(details: string)
    ensures FailingChecks([Check("null", "PASSED", PRIORITY, details), Check("null", "FAILED", POTENTIAL, details)],
                          PRIORITY) == []
  {
    var checks := [Check("null", "PASSED", PRIORITY, details), Check("null", "FAILED", POTENTIAL, details)];
    assert checks[..1] == [checks[0]];
    assert checks[..1][..0] == [];
  }

  lemma ConsoleUrlText()
    ensures Text(ConsoleUrl(RESULTS_URI)) == "Report console URL: " + RESULTS_URI
  {
  }

  lemma NotWaitingText()
    ensures Text(NotWaiting) == "Not waiting for the report to be generated. You'll receive an email once the report is ready."
  {
  }

  lemma OneIssueText()
    ensures Text(IssueCount(1)) == "1 issue(s) detected:"
  {
  }

  lemma PrintedLine(log: seq<Line>, i: nat)
    requires i < |log|
    ensures Text(log[i]) in Printed(log)
  {
    PrintedAt(log, i);
  }

  /** The text of the build log. */
  function Printed(log: seq<Line>): (printed: seq<string>)
    ensures |printed| == |log|
    decreases |log|
  {
    if log == [] then [] else Printed(log[..|log| - 1]) + [Text(log[|log| - 1])]
  }

  /** Line `i` of the build log prints as its text. */
  lemma {:induction false} PrintedAt(log: seq<Line>, i: nat)
    requires i < |log|
    ensures Printed(log)[i] == Text(log[i])
    decreases |log|
  {
    if i < |log| - 1 {
      PrintedAt(log[..|log| - 1], i);
    }
  }
}
