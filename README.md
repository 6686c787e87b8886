# google-checks: a Dafny model of the `uploadToChecks` step

The Jenkins plugin adds one pipeline step, `uploadToChecks`. The step
authenticates with a Google service account. It then uploads an app binary
to the Checks API and polls the analysis operation every ten seconds, for
at most thirty minutes. When the report is ready, the step prints the
failing checks at or above a severity threshold. With `failOn: ALL` it
fails the build when there are any.

This project models that core:

- `severity.dfy`: the severity threshold and its inclusion table.
- `java_text.dfy`: the parts of the Java string library the plugin relies
  on. These are `Integer.toString`, `String.split` with one separator
  character, and `String.format` with `%s` and `%%`.
- `models.dfy`: the JSON records the API returns (check, report,
  operation, upload).
- `checks_api.dfy`: the `GoogleChecks` client. It covers report
  validation, id extraction from resource names, status-code handling,
  URL building, and the client object with its constructor and
  `authenticate`.
- `step_execution.dfy`: the `UploadToChecksStepExecution` object as a
  class. Each method is proved equal to a function of the old state:
  `StartSpec`, `TickSpec`, `IsValidReportSpec`, `StopSpec`, `ResumeSpec`.
- `step_properties.dfy`: what the step promises, as lemmas about those
  functions.
- `scenarios.dfy`: whole runs against the fixtures of the plugin's
  integration tests.

The model treats the remote side as inputs. These include the credentials
helper's answer, the upload response, each operation snapshot and the
report. Each run of the scheduled polling task is one call of `Tick`. The
step context's `onSuccess`/`onFailure` callbacks become the `outcome`
field; the context keeps the first outcome it is given. Every line the
step prints is kept in `log`, and every remote call in `calls`.

Inside a polling run, only `IOException` is caught. It cancels the task and
fails the step. Any other exception leaves the `Runnable`; the scheduler
then drops the task and the step is never told. Examples are an API error,
a missing `response`, an id taken from a name made of slashes only, and the
client being null after a restart. The model records such an exception in
`escaped` and leaves `outcome` as it was.

## Model

| member | source | states |
|---|---|---|
| Severity.IncludesIffRank | src/test/java/io/jenkins/plugins/googlechecks/SeverityThresholdTest.java:35-45 | the nine-case inclusion table is exactly "severity ranks at or below the threshold" in PRIORITY < POTENTIAL < OPPORTUNITY |
| Severity.IncludesMonotonic | src/test/java/io/jenkins/plugins/googlechecks/SeverityThresholdTest.java:35-45 | a wider threshold includes every severity a narrower one does |
| Severity.IncludesExtremes | src/test/java/io/jenkins/plugins/googlechecks/SeverityThresholdTest.java:35-45 | PRIORITY includes only PRIORITY; OPPORTUNITY includes everything; each threshold includes its own level |
| ChecksApi.Describe | src/main/java/io/jenkins/plugins/googlechecks/GoogleChecks.java:145 | the line for a failing check is "Type: " + type + ". Details. " + the check's text, obtained through the format template |
| ChecksApi.ValidateReport | src/main/java/io/jenkins/plugins/googlechecks/GoogleChecks.java:141-149 | the loop over the checks returns exactly the failing-check list of the specification function |
| ChecksApi.FailingChecksExact | src/main/java/io/jenkins/plugins/googlechecks/GoogleChecks.java:141-149 | one line per check that is FAILED at an included severity, in the checks' order; the checks described are exactly those, by position |
| ChecksApi.FailingChecksEmpty | src/main/java/io/jenkins/plugins/googlechecks/GoogleChecks.java:141-149 | the list is empty iff no check is FAILED at an included severity |
| ChecksApi.FailingChecksAppend | src/main/java/io/jenkins/plugins/googlechecks/GoogleChecks.java:141-149 | validation of a concatenation is the concatenation of the validations |
| ChecksApi.FailingChecksWiden | src/main/java/io/jenkins/plugins/googlechecks/GoogleChecks.java:141-149 | widening the threshold keeps every failing check and never shortens the list |
| ChecksApi.FixtureGroupFailing | src/test/java/io/jenkins/plugins/googlechecks/SeverityThresholdTest.java:50-59 | in each group of FAILED/PASSED/UNCHECKED checks of one severity, exactly one check fails, and only when the threshold includes that severity |
| ChecksApi.FixtureCounts | src/test/java/io/jenkins/plugins/googlechecks/SeverityThresholdTest.java:49-69 | on the nine-check fixture the PRIORITY, POTENTIAL and OPPORTUNITY thresholds find 1, 2 and 3 failing checks |
| ChecksApi.IdFromName | src/main/java/io/jenkins/plugins/googlechecks/GoogleChecks.java:156-159 | the id is the text after the last "/" once trailing slashes are dropped; it holds no "/"; a name without "/" is its own id; only a non-empty name made of slashes has no id (the array index fails) |
| ChecksApi.ReportIdLikeOperationId | src/main/java/io/jenkins/plugins/googlechecks/GoogleChecks.java:156-164 | the report id is taken from a name exactly as the operation id is |
| ChecksApi.NameEndingInId | src/main/java/io/jenkins/plugins/googlechecks/GoogleChecks.java:156-164 | a resource name "prefix/id" with a non-empty, slash-free id yields that id for both getters |
| ChecksApi.OperationIdExample | src/test/java/io/jenkins/plugins/googlechecks/UploadToChecksStepIntegrationTest.java:253-255 | the fixture upload's operation "accounts/1/apps/12/operations/123" has id "123" |
| ChecksApi.HandleNotOKStatusCode | src/main/java/io/jenkins/plugins/googlechecks/GoogleChecks.java:98-107 | 400 gives Bad Request and 403 gives Forbidden, each iff; every other code gives an API error that carries the code |
| ChecksApi.StatusCodeInMessage | src/main/java/io/jenkins/plugins/googlechecks/GoogleChecks.java:104-105 | the generic message is the fixed prefix followed by the decimal code, which can be read back from it |
| ChecksApi.ErrorMessageInjective | src/main/java/io/jenkins/plugins/googlechecks/GoogleChecks.java:98-107 | different errors have different messages |
| ChecksApi.ExecuteAndParse | src/main/java/io/jenkins/plugins/googlechecks/GoogleChecks.java:86-96 | the body is returned iff the status is 2xx; otherwise the error is the one the status-code handler raises |
| ChecksApi.GoogleChecks.constructor | src/main/java/io/jenkins/plugins/googlechecks/GoogleChecks.java:39-55 | a missing base URL keeps https://checks.googleapis.com; the ids are stored; there is no token yet |
| ChecksApi.GoogleChecks.Authenticate | src/main/java/io/jenkins/plugins/googlechecks/GoogleChecks.java:57-60 | succeeds iff the credentials helper does, and stores its token; a failure passes the helper's message on and keeps the old token |
| ChecksApi.GoogleChecks.BuildUrl | src/main/java/io/jenkins/plugins/googlechecks/GoogleChecks.java:151-154 | for a base URL without "%", the URL is the base URL before the formatted path |
| ChecksApi.GoogleChecks.AppsListUrl | src/main/java/io/jenkins/plugins/googlechecks/GoogleChecks.java:110 | base + "/v1alpha/accounts/" + account + "/apps/" |
| ChecksApi.GoogleChecks.UploadUrl | src/main/java/io/jenkins/plugins/googlechecks/GoogleChecks.java:118 | base + "/upload/v1alpha/accounts/" + account + "/apps/" + app + "/reports:analyzeUpload" |
| ChecksApi.GoogleChecks.OperationUrl | src/main/java/io/jenkins/plugins/googlechecks/GoogleChecks.java:130 | base + "/v1alpha/accounts/" + account + "/apps/" + app + "/operations/" + id |
| ChecksApi.GoogleChecks.ReportUrl | src/main/java/io/jenkins/plugins/googlechecks/GoogleChecks.java:136 | base + the report path + id + "?fields=name,checks(type,state,severity)" |
| JavaText.IntToStringRoundTrip | src/main/java/io/jenkins/plugins/googlechecks/UploadToChecksStepExecution.java:146 | the decimal text of a number reads back to that number |
| JavaText.SegmentsJoin | src/main/java/io/jenkins/plugins/googlechecks/GoogleChecks.java:157 | the pieces the separator cuts out rejoin to the string, and none holds the separator |
| JavaText.SplitLast | src/main/java/io/jenkins/plugins/googlechecks/GoogleChecks.java:157-158 | the split is empty iff the string is non-empty and made of separators; otherwise its last element is the text after the last separator, once trailing separators are dropped |
| JavaText.FormatNoConversions | src/main/java/io/jenkins/plugins/googlechecks/GoogleChecks.java:152-153 | a template without "%" formats to itself |
| StepExecution.UploadToChecksStepExecution.constructor | src/main/java/io/jenkins/plugins/googlechecks/UploadToChecksStepExecution.java:54-58 | a fresh client built from the step's base URL (or the public endpoint), project, account and app, without a token; no deadline, operation, task, outcome, output or call yet |
| StepExecution.UploadToChecksStepExecution.Start | src/main/java/io/jenkins/plugins/googlechecks/UploadToChecksStepExecution.java:60-87 | the new state and the result are those of StartSpec; a fresh client is built from the step's configuration and holds the helper's token exactly when authentication succeeded |
| StepExecution.UploadToChecksStepExecution.StartUpload | src/main/java/io/jenkins/plugins/googlechecks/UploadToChecksStepExecution.java:64-80 | the upload branch of start, as UploadSpec |
| StepExecution.UploadToChecksStepExecution.ListAppsOnly | src/main/java/io/jenkins/plugins/googlechecks/UploadToChecksStepExecution.java:81-86 | the list-apps branch of start, as ListAppsSpec |
| StepExecution.UploadToChecksStepExecution.WaitReport | src/main/java/io/jenkins/plugins/googlechecks/UploadToChecksStepExecution.java:101-134 | arms the task while the deadline is ahead, otherwise succeeds, as WaitReportSpec |
| StepExecution.UploadToChecksStepExecution.Tick | src/main/java/io/jenkins/plugins/googlechecks/UploadToChecksStepExecution.java:106-128 | one run of the polling task, as TickSpec |
| StepExecution.UploadToChecksStepExecution.TickFailed | src/main/java/io/jenkins/plugins/googlechecks/UploadToChecksStepExecution.java:124-128 | an IOException cancels the task, fails the step and is rethrown; any other exception only ends the task |
| StepExecution.UploadToChecksStepExecution.IsValidReport | src/main/java/io/jenkins/plugins/googlechecks/UploadToChecksStepExecution.java:140-154 | prints, fetches and judges as IsValidReportSpec |
| StepExecution.UploadToChecksStepExecution.PrintFailing | src/main/java/io/jenkins/plugins/googlechecks/UploadToChecksStepExecution.java:145-152 | the loop appends the count line and one line per failing check, or "No issues detected." |
| StepExecution.UploadToChecksStepExecution.IsValidReportDefault | src/main/java/io/jenkins/plugins/googlechecks/UploadToChecksStepExecution.java:136-138 | the same as IsValidReport at threshold PRIORITY |
| StepExecution.UploadToChecksStepExecution.Stop | src/main/java/io/jenkins/plugins/googlechecks/UploadToChecksStepExecution.java:156-161 | cancels the task and fails the step with the cause, as StopSpec |
| StepExecution.UploadToChecksStepExecution.Resume | src/main/java/io/jenkins/plugins/googlechecks/UploadToChecksStepExecution.java:163-165 | after a restart the client is gone; waits again from the stored deadline, as ResumeSpec |
| StepExecution.UploadToChecksStepExecution.SignalOutcome | src/main/java/io/jenkins/plugins/googlechecks/UploadToChecksStepExecution.java:78 | the context keeps the first outcome it is given |
| StepProperties.StartAuthenticatesFirst | src/main/java/io/jenkins/plugins/googlechecks/UploadToChecksStepExecution.java:61-62 | start always authenticates first; a failed authentication makes no other call, prints nothing and fails the step with the helper's message |
| StepProperties.StartWithoutReport | src/main/java/io/jenkins/plugins/googlechecks/UploadToChecksStepExecution.java:81-86 | with generateReport off, start lists the apps, prints the answer and succeeds without arming a task; a failing list call fails the step |
| StepProperties.StartUploads | src/main/java/io/jenkins/plugins/googlechecks/UploadToChecksStepExecution.java:64-80 | after an upload the operation id comes from the response name and the deadline is now + 1 800 000 ms; waiting arms the task and returns false; otherwise the notice is printed and the step succeeds |
| StepProperties.StartUploadFails | src/main/java/io/jenkins/plugins/googlechecks/UploadToChecksStepExecution.java:68-69 | a failed upload, or an operation name made of slashes only, throws from start and fails the step without a deadline, operation id or task |
| StepProperties.WaitReportDeadline | src/main/java/io/jenkins/plugins/googlechecks/UploadToChecksStepExecution.java:101-134 | waitReport arms the task iff the deadline is ahead; otherwise it succeeds at once; it prints and calls nothing |
| StepProperties.TickStopsIff | src/main/java/io/jenkins/plugins/googlechecks/UploadToChecksStepExecution.java:106-128 | the task survives a run iff the client exists, the operation was fetched and it is neither done nor past its deadline; the first run after the deadline always ends polling |
| StepProperties.TickKeepsPolling | src/main/java/io/jenkins/plugins/googlechecks/UploadToChecksStepExecution.java:108-111 | an unfinished operation before the deadline: one line, one call, nothing else changes |
| StepProperties.TickVerdict | src/main/java/io/jenkins/plugins/googlechecks/UploadToChecksStepExecution.java:111-123 | a finished operation ends the task; the report is fetched by the id from the response name; the console URL and the failing checks are printed; the step gets the failOn verdict |
| StepProperties.FailOnVerdict | src/main/java/io/jenkins/plugins/googlechecks/UploadToChecksStepExecution.java:113-122 | with failOn ALL the step succeeds iff no check is FAILED at an included severity, and otherwise fails with "Report has errors"; without ALL it always succeeds |
| StepProperties.OutcomeOfVerdict | src/main/java/io/jenkins/plugins/googlechecks/UploadToChecksStepExecution.java:114-122 | the verdict on a report is success or "Report has errors", failing only under failOn ALL with a failing check |
| StepProperties.VerdictMeaning | src/main/java/io/jenkins/plugins/googlechecks/UploadToChecksStepExecution.java:114-122 | the same, stated on the verdict of the failing-check list |
| StepProperties.ReportLogLists | src/main/java/io/jenkins/plugins/googlechecks/UploadToChecksStepExecution.java:144-152 | the lines printed are "No issues detected." when nothing fails, else the count followed by each failing check's description in order |
| StepProperties.PendingOperationAtDeadline | src/main/java/io/jenkins/plugins/googlechecks/UploadToChecksStepExecution.java:111-113 | at the deadline an unfinished operation has no response; reading it throws past the catch, so the task ends and the step is never told |
| StepProperties.TickRemoteFailure | src/main/java/io/jenkins/plugins/googlechecks/UploadToChecksStepExecution.java:109-128 | a failed operation fetch ends the task; only an IOException fails the step |
| StepProperties.TickReportFailure | src/main/java/io/jenkins/plugins/googlechecks/UploadToChecksStepExecution.java:111-128 | a finished operation whose report fetch fails: the console URL is printed and the report requested, the task ends, and only an IOException fails the step |
| StepProperties.PollingEndsOnSchedule | src/main/java/io/jenkins/plugins/googlechecks/UploadToChecksStepExecution.java:101-130 | with runs every CHECK_OPERATION_INTERVAL seconds from the upload, run k is past the deadline iff k > 180, and such a run always ends polling |
| StepProperties.TickOutcomes | src/main/java/io/jenkins/plugins/googlechecks/UploadToChecksStepExecution.java:106-128 | a run leaves the outcome alone or, on a running step, gives success, "Report has errors" or an I/O failure, and then the task has ended |
| StepProperties.IsValidReportFrame | src/main/java/io/jenkins/plugins/googlechecks/UploadToChecksStepExecution.java:140-154 | isValidReport only prints and calls: task, outcome, client, deadline and operation id are untouched |
| StepProperties.StopEndsPolling | src/main/java/io/jenkins/plugins/googlechecks/UploadToChecksStepExecution.java:156-161 | after stop no run is pending and the step has failed with the cause, unless it had already finished |
| StepProperties.ResumeKeepsOperation | src/main/java/io/jenkins/plugins/googlechecks/UploadToChecksStepExecution.java:163-165 | resuming keeps the operation id and deadline, drops the client, and waits iff the deadline is ahead, otherwise succeeds |
| StepProperties.ResumedPollingNeverReports | src/main/java/io/jenkins/plugins/googlechecks/UploadToChecksStepExecution.java:52 | after a restart the client field is null, so the re-armed task fails before any call and the step is never told |
| StepProperties.OutcomeIsFinal | src/main/java/io/jenkins/plugins/googlechecks/UploadToChecksStepExecution.java:60-165 | once the step has an outcome, no transition changes it |
| StepProperties.StartExtends | src/main/java/io/jenkins/plugins/googlechecks/UploadToChecksStepExecution.java:60-87 | start only appends to the output and the call history |
| StepProperties.HistoryOnlyGrows | src/main/java/io/jenkins/plugins/googlechecks/UploadToChecksStepExecution.java:60-165 | no transition takes back a printed line or a call made |
| StepProperties.DefaultStep | src/main/java/io/jenkins/plugins/googlechecks/UploadToChecksStep.java:42-53 | by default the step generates a report, waits for it, judges at PRIORITY, its client uses the public endpoint, and it never fails on findings |
| Scenarios.MissingServiceAccount | src/test/java/io/jenkins/plugins/googlechecks/UploadToChecksStepIntegrationTest.java:70-96 | without a credentials id the helper refuses; the step fails with its message after one authenticate(null) call |
| Scenarios.InvalidBinaryPath | src/test/java/io/jenkins/plugins/googlechecks/UploadToChecksStepIntegrationTest.java:98-117 | an unreadable binary fails the step with the I/O error, and nothing polls |
| Scenarios.RequestUrls | src/main/java/io/jenkins/plugins/googlechecks/GoogleChecks.java:117-139 | a client whose base URL has no "%" sends the upload, operation and report requests to base + the account/app path + the id |
| Scenarios.FixtureRequests | src/test/java/io/jenkins/plugins/googlechecks/UploadToChecksStepIntegrationTest.java:243-265 | the test step's client requests exactly the mock server's upload, operation and report paths (with the field selection) on localhost:1080 |
| Scenarios.OnePriorityIssue | src/test/java/io/jenkins/plugins/googlechecks/UploadToChecksStepIntegrationTest.java:119-146 | one FAILED PRIORITY check under failOn ALL: "1 issue(s) detected:" is printed and the step fails, after authenticate, upload, one operation check and one report fetch for id 123 |
| Scenarios.PotentialIssue | src/test/java/io/jenkins/plugins/googlechecks/UploadToChecksStepIntegrationTest.java:149-178 | a FAILED POTENTIAL check judged at PRIORITY: the console URL and "No issues detected." are printed and the step succeeds |
| Scenarios.NoWait | src/test/java/io/jenkins/plugins/googlechecks/UploadToChecksStepIntegrationTest.java:180-209 | waitForReport false: the notice is printed, the step succeeds, and only authenticate and upload are called |

## Left out

- HTTP transport, request headers, JSON parsing and `response.disconnect()` are not modelled. Every remote answer is an input: a value, or a `RemoteError` that is either an I/O error or an API error.
- Which HTTP failures the client library raises as `IOException`, and which reach `handleNotOKStatusCode`, is library behaviour. The model takes the kind of error as part of the input.
- `GoogleCredentialsHelper` and `GoogleCredentialsHelperFactory` are not part of this model. The helper's token or exception message is an input of `Authenticate` and `Start`.
- The timer is not modelled. The caller decides when `Tick` runs, with the current time as a parameter. The fixed-rate schedule (first run at once, then every `CHECK_OPERATION_INTERVAL` seconds) appears only in `PollingEndsOnSchedule`.
- Concurrency is not modelled. The task runs on another thread, the `task` field is assigned after scheduling, and `stop` can race with a run. Runs are taken to happen one at a time, between other transitions.
- `System.currentTimeMillis()` is a parameter. Timestamps are unbounded integers, so overflow of `long` is not modelled.
- `getListener()` falling back to a null listener is not modelled. Lines are always recorded in the log.
- The `printf` of the binary path and its length inside `uploadBinary` goes to standard output, not the build log, and is not modelled.
- The source files of `GoogleChecksReport`, `GoogleChecksCheck` and `GoogleChecksUpload` are not part of this model. Their shape in `models.dfy` is inferred from the fields the code reads. A report's `checks` is always a list, so a report without a `checks` field (a null list) is not modelled.
- ChecksApi.Describe: the check's `toString()` (the JSON rendering of the record) is kept as the check's `details` text, not computed.
- Severity: `SeverityThreshold.java` is not part of this model. A check's severity is one of the three levels; unknown or missing severity strings are not represented. The inclusion relation comes from the test table.
- JavaText.Format models only the `%s` and `%%` conversions. Any other `%` sequence is a format error. A base URL containing `%` therefore goes through the general path of `BuildUrl`.
- Java `null` strings are modelled only where the code prints or passes them: the operation id (`IdText`) and the credentials id. Other fields are non-null.
- Serialization of the execution is not modelled. `Resume` starts from the state that survives a restart: the persisted deadline and operation id, with no client and no task.
