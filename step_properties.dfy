/** What the upload step promises, stated over the transition functions
    of `StepExecution`. */
module StepProperties {
  import opened Wrappers
  import opened Severity
  import opened Models
  import opened JavaText
  import opened ChecksApi
  import opened StepExecution

  /** `t` keeps everything `s` printed and called, and adds to the end. */
  predicate Extends(s: ExecState, t: ExecState) {
    s.log <= t.log && s.calls <= t.calls
  }

  lemma AppendTwo<T>(a: seq<T>, x: T, y: T)
    ensures a + [x] + [y] == a + [x, y]
  {
  }

  // ---------------------------------------------------------------------
  // start
  // ---------------------------------------------------------------------

  /** Authentication is the first remote call of every start, and a
      failing one ends the start before any other call, failing the step
      with the helper's message. */
  lemma StartAuthenticatesFirst(s: ExecState, step: StepConfig, now: int, auth: Result<string, string>,
                                upload: Result<UploadResponse, RemoteError>, apps: Result<string, RemoteError>)
    ensures var t := StartSpec(s, step, now, auth, upload, apps).0; var r := StartSpec(s, step, now, auth, upload, apps).1;
      |t.calls| > |s.calls| && t.calls[..|s.calls| + 1] == s.calls + [Authenticate(step.credentialsId)] &&
      t.clientSet
    ensures auth.Err? ==>
      var t := StartSpec(s, step, now, auth, upload, apps).0; var r := StartSpec(s, step, now, auth, upload, apps).1;
      r == Threw(AuthFailure(auth.error)) &&
      t.calls == s.calls + [Authenticate(step.credentialsId)] && t.log == s.log &&
      t.outcome == Signal(s, Failed(AuthFailure(auth.error))).outcome
  {
  }

  /** With report generation off, the step only lists the apps (no upload,
      no polling), prints the answer and succeeds. */
  lemma StartWithoutReport(s: ExecState, step: StepConfig, now: int, auth: Result<string, string>,
                           upload: Result<UploadResponse, RemoteError>, apps: Result<string, RemoteError>)
    requires auth.Ok? && !step.generateReport
    ensures var t := StartSpec(s, step, now, auth, upload, apps).0; var r := StartSpec(s, step, now, auth, upload, apps).1;
      t.calls == s.calls + [Authenticate(step.credentialsId), ListApps] &&
      t.taskPending == s.taskPending && t.operationId == s.operationId && t.end == s.end
    ensures apps.Ok? ==>
      var t := StartSpec(s, step, now, auth, upload, apps).0; var r := StartSpec(s, step, now, auth, upload, apps).1;
      r == Returned(true) && t.log == s.log + [NoReport, AppsList(apps.value)] &&
      t.outcome == Signal(s, Succeeded).outcome
    ensures apps.Err? ==>
      var t := StartSpec(s, step, now, auth, upload, apps).0; var r := StartSpec(s, step, now, auth, upload, apps).1;
      r == Threw(RemoteFailure(apps.error)) && t.log == s.log + [NoReport] &&
      t.outcome == Signal(s, Failed(RemoteFailure(apps.error))).outcome
  {
  }

  /** After a successful upload the step remembers the operation id taken
      from the operation's name and a deadline thirty minutes (in
      milliseconds) after `now`; it then either arms the polling task and
      returns `false` (still running), or, when it is not to wait, prints
      a notice and succeeds. */
  lemma StartUploads(s: ExecState, step: StepConfig, now: int, auth: Result<string, string>,
                     u: UploadResponse, apps: Result<string, RemoteError>, id: string)
    requires auth.Ok? && step.generateReport && GetOperationIdFromName(u.name) == Some(id)
    ensures var t := StartSpec(s, step, now, auth, Ok(u), apps).0; var r := StartSpec(s, step, now, auth, Ok(u), apps).1;
      t.operationId == Some(id) && t.end == now + 1800000 &&
      t.calls == s.calls + [Authenticate(step.credentialsId), Upload(step.binaryPath)]
    ensures step.waitForReport ==>
      var t := StartSpec(s, step, now, auth, Ok(u), apps).0; var r := StartSpec(s, step, now, auth, Ok(u), apps).1;
      r == Returned(false) && t.taskPending && t.outcome == s.outcome &&
      t.log == s.log + [Uploading(step.binaryPath)]
    ensures !step.waitForReport ==>
      var t := StartSpec(s, step, now, auth, Ok(u), apps).0; var r := StartSpec(s, step, now, auth, Ok(u), apps).1;
      r == Returned(true) && t.taskPending == s.taskPending &&
      t.outcome == Signal(s, Succeeded).outcome &&
      t.log == s.log + [Uploading(step.binaryPath), NotWaiting]
  {
    AppendTwo(s.calls, Authenticate(step.credentialsId), Upload(step.binaryPath));
    AppendTwo(s.log, Uploading(step.binaryPath), NotWaiting);
  }

  /** An upload that fails, or whose operation name is made of slashes
      only, fails the step from `start` without touching the deadline or
      the operation id, and nothing is polled. */
  lemma StartUploadFails(s: ExecState, step: StepConfig, now: int, auth: Result<string, string>,
                         upload: Result<UploadResponse, RemoteError>, apps: Result<string, RemoteError>)
    requires auth.Ok? && step.generateReport
    requires upload.Err? || GetOperationIdFromName(upload.value.name).None?
    ensures var t := StartSpec(s, step, now, auth, upload, apps).0; var r := StartSpec(s, step, now, auth, upload, apps).1;
      r.Threw? && t.outcome == Signal(s, Failed(r.failure)).outcome &&
      t.taskPending == s.taskPending && t.end == s.end && t.operationId == s.operationId &&
      t.calls == s.calls + [Authenticate(step.credentialsId), Upload(step.binaryPath)]
    ensures upload.Err? ==> StartSpec(s, step, now, auth, upload, apps).1 == Threw(RemoteFailure(upload.error))
    ensures upload.Ok? ==> StartSpec(s, step, now, auth, upload, apps).1 == Threw(IndexOutOfBounds)
  {
  }

  // ---------------------------------------------------------------------
  // waitReport and the polling task
  // ---------------------------------------------------------------------

  /** The task is armed exactly when the deadline is after `now`; otherwise
      the step succeeds at once without asking for the report. */
  lemma WaitReportDeadline(s: ExecState, now: int)
    ensures var t := WaitReportSpec(s, now);
      t.calls == s.calls && t.log == s.log && t.escaped == s.escaped &&
      (t.taskPending <==> s.end > now || s.taskPending)
    ensures s.end > now ==> WaitReportSpec(s, now).outcome == s.outcome
    ensures s.end <= now ==> WaitReportSpec(s, now).outcome == Signal(s, Succeeded).outcome
  {
  }

  /** A run of the task keeps the task alive exactly when the client exists,
      the operation could be fetched, and it is neither done nor past its
      deadline. In particular the first run after the deadline always ends
      the polling. */
  lemma TickStopsIff(s: ExecState, step: StepConfig, now: int, op: Result<Operation, RemoteError>,
                     report: Result<Report, RemoteError>)
    requires s.taskPending
    ensures TickSpec(s, step, now, op, report).taskPending <==>
      s.clientSet && op.Ok? && !Finishes(s.end, now, op.value)
    ensures s.end < now ==> !TickSpec(s, step, now, op, report).taskPending
  {
    if s.clientSet && op.Ok? && Finishes(s.end, now, op.value) {
      var s2 := Call(Log(s, CheckingOn(s.operationId)),
                     CheckOperation(IdText(s.operationId)));
      IsValidReportFrame(s2.(taskPending := false), op.value, step.severityThreshold, report);
    }
  }

  /** A run that finds the operation still in progress before the deadline
      prints one line, makes one call and changes nothing else. */
  lemma TickKeepsPolling(s: ExecState, step: StepConfig, now: int, o: Operation, report: Result<Report, RemoteError>)
    requires s.taskPending && s.clientSet && !Finishes(s.end, now, o)
    ensures TickSpec(s, step, now, Ok(o), report) ==
      s.(log := s.log + [CheckingOn(s.operationId)],
         calls := s.calls + [CheckOperation(IdText(s.operationId))])
  {
  }

  /** A finished operation whose report can be fetched: the task ends, the
      report is fetched by the id at the end of the response's name, the
      console URL and the failing checks are printed, and the step gets
      the verdict. */
  lemma TickVerdict(s: ExecState, step: StepConfig, now: int, o: Operation, response: ReportResponse,
                    reportId: string, r: Report)
    requires s.taskPending && s.clientSet && Finishes(s.end, now, o)
    requires o.response == Some(response) && GetReportIdFromName(response.name) == Some(reportId)
    ensures !TickSpec(s, step, now, Ok(o), Ok(r)).taskPending
    ensures TickSpec(s, step, now, Ok(o), Ok(r)).escaped == s.escaped
    ensures TickSpec(s, step, now, Ok(o), Ok(r)).calls ==
      s.calls + [CheckOperation(IdText(s.operationId)), GetReport(reportId)]
    ensures TickSpec(s, step, now, Ok(o), Ok(r)).log ==
      s.log + [CheckingOn(s.operationId), ConsoleUrl(response.resultsUri)] +
      ReportLog(FailingChecks(r.checks, step.severityThreshold))
    ensures TickSpec(s, step, now, Ok(o), Ok(r)).outcome ==
      Signal(s, Verdict(step.failOn, FailingChecks(r.checks, step.severityThreshold) == [])).outcome
  {
    var check := CheckOperation(IdText(s.operationId));
    var checking := CheckingOn(s.operationId);
    var url := ConsoleUrl(response.resultsUri);
    var failing := FailingChecks(r.checks, step.severityThreshold);
    var polled := Call(Log(s, checking), check).(taskPending := false);
    var fetched := Call(Log(polled, url), GetReport(reportId));
    var judged := fetched.(log := fetched.log + ReportLog(failing));
    assert IsValidReportSpec(polled, o, step.severityThreshold, Ok(r)) == (judged, Ok(failing == []));
    var t := TickSpec(s, step, now, Ok(o), Ok(r));
    assert t == Signal(judged, Verdict(step.failOn, failing == []));
    assert t.calls == s.calls + [check] + [GetReport(reportId)];
    AppendTwo(s.calls, check, GetReport(reportId));
    assert t.log == s.log + [checking] + [url] + ReportLog(failing);
    AppendTwo(s.log, checking, url);
  }

  /** Only `failOn: ALL` can fail the step on its findings, and then it
      fails exactly when some check is FAILED at a severity the threshold
      includes; with `failOn` unset or NONE the step succeeds whatever the
      report says. */
  lemma FailOnVerdict(s: ExecState, step: StepConfig, now: int, o: Operation, response: ReportResponse,
                      reportId: string, r: Report)
    requires s.taskPending && s.clientSet && Finishes(s.end, now, o) && s.outcome.Running?
    requires o.response == Some(response) && GetReportIdFromName(response.name) == Some(reportId)
    ensures step.failOn == Some(ALL) ==>
      (TickSpec(s, step, now, Ok(o), Ok(r)).outcome == Succeeded <==>
         forall i :: 0 <= i < |r.checks| ==> !IsFailing(step.severityThreshold, r.checks[i]))
    ensures TickSpec(s, step, now, Ok(o), Ok(r)).outcome == Succeeded ||
            TickSpec(s, step, now, Ok(o), Ok(r)).outcome == Failed(ReportHasErrors)
    ensures step.failOn != Some(ALL) ==> TickSpec(s, step, now, Ok(o), Ok(r)).outcome == Succeeded
  {
    TickVerdict(s, step, now, o, response, reportId, r);
    OutcomeOfVerdict(TickSpec(s, step, now, Ok(o), Ok(r)).outcome, step.failOn, r.checks, step.severityThreshold);
  }

  lemma OutcomeOfVerdict(outcome: Outcome, failOn: Option<FailOn>, checks: seq<Check>, threshold: SeverityThreshold)
    requires outcome == Verdict(failOn, FailingChecks(checks, threshold) == [])
    ensures failOn == Some(ALL) ==>
      (outcome == Succeeded <==> forall i :: 0 <= i < |checks| ==> !IsFailing(threshold, checks[i]))
    ensures outcome == Succeeded || outcome == Failed(ReportHasErrors)
    ensures failOn != Some(ALL) ==> outcome == Succeeded
  {
    VerdictMeaning(failOn, checks, threshold);
  }

  /** The verdict on a report's checks, by policy. */
  lemma VerdictMeaning(failOn: Option<FailOn>, checks: seq<Check>, threshold: SeverityThreshold)
    ensures var v := Verdict(failOn, FailingChecks(checks, threshold) == []);
      (v == Succeeded || v == Failed(ReportHasErrors)) && (failOn != Some(ALL) ==> v == Succeeded)
    ensures failOn == Some(ALL) ==>
      (Verdict(failOn, FailingChecks(checks, threshold) == []) == Succeeded <==>
         forall i :: 0 <= i < |checks| ==> !IsFailing(threshold, checks[i]))
  {
    FailingChecksEmpty(checks, threshold);
  }

  /** The printed report lists, in the report's order, exactly the failing
      checks, after a line giving their number. */
  lemma ReportLogLists(checks: seq<Check>, threshold: SeverityThreshold)
    ensures var lines := ReportLog(FailingChecks(checks, threshold));
      var idx := FailingIndices(checks, threshold);
      (idx == [] ==> lines == [NoIssues]) &&
      (idx != [] ==>
         |lines| == |idx| + 1 && lines[0] == IssueCount(|idx|) &&
         forall j :: 0 <= j < |idx| ==> lines[j + 1] == Issue(Describe(checks[idx[j]])))
  {
    FailingChecksExact(checks, threshold);
  }

  /** When the deadline passes while the operation is still pending (no
      response yet), reading the response fails: the task ends without the
      step ever being told, so the step stays as it was. */
  lemma PendingOperationAtDeadline(s: ExecState, step: StepConfig, now: int, o: Operation,
                                   report: Result<Report, RemoteError>)
    requires s.taskPending && s.clientSet && s.end < now && o.response.None?
    ensures var t := TickSpec(s, step, now, Ok(o), report);
      t.outcome == s.outcome && !t.taskPending && t.escaped == Some(NullPointer) &&
      t.calls == s.calls + [CheckOperation(IdText(s.operationId))]
  {
  }

  /** A remote failure while polling ends the task. An I/O failure also
      fails the step; an API error does not reach the step at all. */
  lemma TickRemoteFailure(s: ExecState, step: StepConfig, now: int, e: RemoteError,
                          report: Result<Report, RemoteError>)
    requires s.taskPending && s.clientSet
    ensures var t := TickSpec(s, step, now, Err(e), report);
      !t.taskPending && t.escaped == Some(RemoteFailure(e)) &&
      t.outcome == (if e.Io? then Signal(s, Failed(RemoteFailure(e))).outcome else s.outcome)
  {
  }

  /** A finished operation whose report cannot be fetched: the task ends
      with the error after the console URL is printed and the report
      requested. An I/O failure also fails the step; an API error does
      not reach the step at all. */
  lemma TickReportFailure(s: ExecState, step: StepConfig, now: int, o: Operation, response: ReportResponse,
                          reportId: string, e: RemoteError)
    requires s.taskPending && s.clientSet && Finishes(s.end, now, o)
    requires o.response == Some(response) && GetReportIdFromName(response.name) == Some(reportId)
    ensures var t := TickSpec(s, step, now, Ok(o), Err(e));
      !t.taskPending && t.escaped == Some(RemoteFailure(e)) &&
      t.outcome == (if e.Io? then Signal(s, Failed(RemoteFailure(e))).outcome else s.outcome)
    ensures TickSpec(s, step, now, Ok(o), Err(e)).calls ==
      s.calls + [CheckOperation(IdText(s.operationId)), GetReport(reportId)]
    ensures TickSpec(s, step, now, Ok(o), Err(e)).log ==
      s.log + [CheckingOn(s.operationId), ConsoleUrl(response.resultsUri)]
  {
    var check := CheckOperation(IdText(s.operationId));
    var checking := CheckingOn(s.operationId);
    var url := ConsoleUrl(response.resultsUri);
    var polled := Call(Log(s, checking), check).(taskPending := false);
    var fetched := Call(Log(polled, url), GetReport(reportId));
    assert IsValidReportSpec(polled, o, step.severityThreshold, Err(e)) == (fetched, Err(RemoteFailure(e)));
    var t := TickSpec(s, step, now, Ok(o), Err(e));
    assert t == TickFailure(fetched, RemoteFailure(e));
    AppendTwo(s.calls, check, GetReport(reportId));
    AppendTwo(s.log, checking, url);
  }

  /** The task runs at once and then every `CHECK_OPERATION_INTERVAL`
      seconds. Counting from the upload, run `k` finds the deadline passed
      exactly when k exceeds TIMEOUT_AFTER / CHECK_OPERATION_INTERVAL
      (180), so no run after that one keeps polling. */
  lemma PollingEndsOnSchedule(s: ExecState, step: StepConfig, start: int, k: nat,
                              op: Result<Operation, RemoteError>, report: Result<Report, RemoteError>)
    requires s.taskPending && s.end == start + TIMEOUT_AFTER * 1000
    ensures s.end < start + k * (CHECK_OPERATION_INTERVAL * 1000) <==> k > TIMEOUT_AFTER / CHECK_OPERATION_INTERVAL
    ensures k > TIMEOUT_AFTER / CHECK_OPERATION_INTERVAL ==>
      !TickSpec(s, step, start + k * (CHECK_OPERATION_INTERVAL * 1000), op, report).taskPending
  {
    TickStopsIff(s, step, start + k * (CHECK_OPERATION_INTERVAL * 1000), op, report);
  }

  /** The only outcomes a run of the task can give the step: success, the
      failOn failure, or an I/O failure; and whenever it gives one, the
      task has ended. */
  lemma TickOutcomes(s: ExecState, step: StepConfig, now: int, op: Result<Operation, RemoteError>,
                     report: Result<Report, RemoteError>)
    requires s.taskPending
    ensures var t := TickSpec(s, step, now, op, report);
      t.outcome == s.outcome ||
      (s.outcome.Running? && !t.taskPending &&
       (t.outcome == Succeeded || t.outcome == Failed(ReportHasErrors) ||
        (t.outcome.Failed? && t.outcome.failure.RemoteFailure? && t.outcome.failure.error.Io?)))
  {
    if s.clientSet && op.Ok? && Finishes(s.end, now, op.value) {
      var s2 := Call(Log(s, CheckingOn(s.operationId)),
                     CheckOperation(IdText(s.operationId)));
      IsValidReportFrame(s2.(taskPending := false), op.value, step.severityThreshold, report);
    }
  }

  /** `isValidReport` prints and calls but changes nothing else. */
  lemma IsValidReportFrame(s: ExecState, o: Operation, threshold: SeverityThreshold,
                           report: Result<Report, RemoteError>)
    ensures Extends(s, IsValidReportSpec(s, o, threshold, report).0)
    ensures var t := IsValidReportSpec(s, o, threshold, report).0;
      t.taskPending == s.taskPending && t.outcome == s.outcome &&
      t.escaped == s.escaped && t.clientSet == s.clientSet && t.end == s.end &&
      t.operationId == s.operationId
  {
  }

  // ---------------------------------------------------------------------
  // stop and resume
  // ---------------------------------------------------------------------

  /** `stop` ends the polling and fails the step with the given cause. */
  lemma StopEndsPolling(s: ExecState, cause: string)
    ensures var t := StopSpec(s, cause);
      !t.taskPending && t.outcome == Signal(s, Failed(Stopped(cause))).outcome &&
      t.log == s.log && t.calls == s.calls
  {
  }

  /** A resumed step keeps its operation and deadline, uploads nothing and
      makes no call; it waits again only while the deadline is ahead. */
  lemma ResumeKeepsOperation(s: ExecState, now: int)
    ensures var t := ResumeSpec(s, now);
      t.calls == s.calls && t.log == s.log && t.end == s.end && t.operationId == s.operationId &&
      !t.clientSet && (t.taskPending <==> s.end > now)
    ensures s.end > now ==> ResumeSpec(s, now).outcome == s.outcome
    ensures s.end <= now ==> ResumeSpec(s, now).outcome == Signal(s, Succeeded).outcome
  {
  }

  /** The client is not restored on resume, so the first run of the
      re-armed task fails before contacting the service and the step is
      never told anything. */
  lemma ResumedPollingNeverReports(s: ExecState, now: int, step: StepConfig, later: int,
                                   op: Result<Operation, RemoteError>, report: Result<Report, RemoteError>)
    requires ResumeSpec(s, now).taskPending
    ensures var t := TickSpec(ResumeSpec(s, now), step, later, op, report);
      t.outcome == s.outcome && t.calls == s.calls && !t.taskPending && t.escaped == Some(NullPointer)
  {
  }

  // ---------------------------------------------------------------------
  // Across all transitions
  // ---------------------------------------------------------------------

  /** Once the step has an outcome, no transition changes it. */
  lemma OutcomeIsFinal(s: ExecState, step: StepConfig, now: int, auth: Result<string, string>,
                       upload: Result<UploadResponse, RemoteError>, apps: Result<string, RemoteError>,
                       op: Result<Operation, RemoteError>, report: Result<Report, RemoteError>, cause: string)
    requires !s.outcome.Running?
    ensures StartSpec(s, step, now, auth, upload, apps).0.outcome == s.outcome
    ensures WaitReportSpec(s, now).outcome == s.outcome
    ensures s.taskPending ==> TickSpec(s, step, now, op, report).outcome == s.outcome
    ensures StopSpec(s, cause).outcome == s.outcome
    ensures ResumeSpec(s, now).outcome == s.outcome
  {
    if s.taskPending {
      TickOutcomes(s, step, now, op, report);
    }
  }

  /** A state that only appended lines and calls extends the old one. */
  lemma ExtendsBy(s: ExecState, t: ExecState, lines: seq<Line>, made: seq<RemoteCall>)
    requires t.log == s.log + lines && t.calls == s.calls + made
    ensures Extends(s, t)
  {
  }

  lemma StartExtends(s: ExecState, step: StepConfig, now: int, auth: Result<string, string>,
                     upload: Result<UploadResponse, RemoteError>, apps: Result<string, RemoteError>)
    ensures Extends(s, StartSpec(s, step, now, auth, upload, apps).0)
  {
    var t := StartSpec(s, step, now, auth, upload, apps).0;
    var authenticate := Authenticate(step.credentialsId);
    if auth.Err? {
      ExtendsBy(s, t, [], [authenticate]);
    } else if step.generateReport {
      var uploading := Uploading(step.binaryPath);
      AppendTwo(s.calls, authenticate, Upload(step.binaryPath));
      if upload.Ok? && GetOperationIdFromName(upload.value.name).Some? && !step.waitForReport {
        AppendTwo(s.log, uploading, NotWaiting);
        ExtendsBy(s, t, [uploading, NotWaiting], [authenticate, Upload(step.binaryPath)]);
      } else {
        ExtendsBy(s, t, [uploading], [authenticate, Upload(step.binaryPath)]);
      }
    } else {
      AppendTwo(s.calls, authenticate, ListApps);
      if apps.Ok? {
        AppendTwo(s.log, NoReport, AppsList(apps.value));
        ExtendsBy(s, t, [NoReport, AppsList(apps.value)], [authenticate, ListApps]);
      } else {
        ExtendsBy(s, t, [NoReport], [authenticate, ListApps]);
      }
    }
  }

  /** No transition takes back a printed line or a call made. */
  lemma HistoryOnlyGrows(s: ExecState, step: StepConfig, now: int, auth: Result<string, string>,
                         upload: Result<UploadResponse, RemoteError>, apps: Result<string, RemoteError>,
                         op: Result<Operation, RemoteError>, report: Result<Report, RemoteError>, cause: string)
    ensures Extends(s, StartSpec(s, step, now, auth, upload, apps).0)
    ensures Extends(s, WaitReportSpec(s, now))
    ensures s.taskPending ==> Extends(s, TickSpec(s, step, now, op, report))
    ensures Extends(s, StopSpec(s, cause))
    ensures Extends(s, ResumeSpec(s, now))
  {
    StartExtends(s, step, now, auth, upload, apps);
    if s.taskPending {
      var checking := CheckingOn(s.operationId);
      var check := CheckOperation(IdText(s.operationId));
      var polled := Call(Log(s, checking), check);
      ExtendsBy(s, polled, [checking], [check]);
      if s.clientSet && op.Ok? && Finishes(s.end, now, op.value) {
        IsValidReportFrame(polled.(taskPending := false), op.value, step.severityThreshold, report);
      }
    }
  }

  /** A step with only the required fields set generates a report, waits
      for it, judges at PRIORITY, and never fails on its findings. */
  lemma DefaultStep(projectId: string, accountId: string, appId: string, binaryPath: string,
                    credentialsId: Option<string>)
    ensures var step := NewStep(projectId, accountId, appId, binaryPath, credentialsId);
      step.generateReport && step.waitForReport && step.severityThreshold == PRIORITY &&
      BaseUrlOf(step) == DEFAULT_BASE_URL &&
      Verdict(step.failOn, false) == Succeeded && Verdict(step.failOn, true) == Succeeded
  {
  }
}
