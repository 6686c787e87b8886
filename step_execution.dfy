/** The `uploadToChecks` pipeline step: authenticate, upload, then poll the
    analysis until it is done or its deadline has passed, and judge the
    report. Each transition is a method of `UploadToChecksStepExecution`
    that changes the object's fields, proved against a function of the
    old state (`StartSpec`, `TickSpec`, ...); the lemmas state what the
    step promises in terms of those functions.

    Everything remote arrives as a parameter: the credentials helper's
    answer, the upload response, each operation snapshot and report.
    The timer is not modelled as such: every run of the scheduled task is
    a call of `Tick`, allowed only while a task is pending, and the step
    context's success/failure callbacks become the `outcome` field. */
module StepExecution {
  import opened Wrappers
  import opened Severity
  import opened Models
  import opened JavaText
  import opened ChecksApi

  /** Polling gives up after this many seconds. */
  const TIMEOUT_AFTER: int := 30 * 60
  /** Seconds between two runs of the polling task (the spacing of `Tick`
      calls, which the model leaves to its caller). */
  const CHECK_OPERATION_INTERVAL: int := 10


  /** A line the step prints to the build log. */
  datatype Line =
    | Uploading(binaryPath: string)
    | NotWaiting
    | NoReport
    | AppsList(answer: string)
    | CheckingOn(operationId: Option<string>)
    | ConsoleUrl(resultsUri: string)
    | IssueCount(count: nat)
    | Issue(description: string)
    | NoIssues

  /** A Java `String` printed with `%s`: `null` shows as "null". */
  function IdText(id: Option<string>): string {
    match id
    case Some(v) => v
    case None => "null"
  }

  /** The text of a line as it appears in the build log. */
  function Text(line: Line): string {
    match line
    case Uploading(path) => "Uploading " + path
    case NotWaiting => "Not waiting for the report to be generated. You'll receive an email once the report is ready."
    case NoReport => "Generating a report is disabled. Testing authentication by get the list of apps"
    case AppsList(answer) => answer
    case CheckingOn(id) => "Checking on operationId=" + IdText(id)
    case ConsoleUrl(uri) => "Report console URL: " + uri
    case IssueCount(n) => Decimal(n) + " issue(s) detected:"
    case Issue(description) => description
    case NoIssues => "No issues detected."
  }

  /** The base URL of the step's client: the configured one, or the
      public endpoint when the step leaves it unset. */
  function BaseUrlOf(step: StepConfig): string {
    if step.baseUrl.Some? then step.baseUrl.value else DEFAULT_BASE_URL
  }

  /** The `failOn` policy; the step leaves it unset (`None`) by default. */
  datatype FailOn = NONE | ALL

  /** The step's configuration as the pipeline script sets it. */
  datatype StepConfig = StepConfig(
    projectId: string,
    accountId: string,
    appId: string,
    binaryPath: string,
    credentialsId: Option<string>,
    generateReport: bool,
    waitForReport: bool,
    severityThreshold: SeverityThreshold,
    failOn: Option<FailOn>,
    baseUrl: Option<string>)

  /** A step with only the required fields set: report generation and
      waiting on, threshold PRIORITY, no `failOn`, default base URL. */
  function NewStep(projectId: string, accountId: string, appId: string, binaryPath: string,
                   credentialsId: Option<string>): StepConfig
  {
    StepConfig(projectId, accountId, appId, binaryPath, credentialsId,
               true, true, PRIORITY, None, None)
  }

  /** The exceptions that can end a transition. */
  datatype Failure =
    | AuthFailure(message: string)      // thrown by the credentials helper
    | RemoteFailure(error: RemoteError) // an IOException or API error of a remote call
    | IndexOutOfBounds                  // an id taken from a name made of slashes only
    | NullPointer                       // a missing response or client
    | ReportHasErrors                   // the failure raised when failOn is ALL
    | Stopped(cause: string)            // the cause handed to `stop`

  /** What the step context has been told: nothing yet, success or failure. */
  datatype Outcome = Running | Succeeded | Failed(failure: Failure)

  /** The remote calls the step makes, in the order it makes them. */
  datatype RemoteCall =
    | Authenticate(credentialsId: Option<string>)
    | ListApps
    | Upload(binaryPath: string)
    | CheckOperation(operationId: string)
    | GetReport(reportId: string)

  /** How `start` ended: by returning (true when the step finished
      synchronously) or by throwing, in which case the pipeline engine
      fails the step with that exception. */
  datatype StartResult = Returned(completed: bool) | Threw(failure: Failure)

  /** The step's observable state. `clientSet` says whether the transient
      client exists; `taskPending` whether the polling task will run
      again; `escaped` is the last exception that left the polling task
      uncaught (the scheduler then drops the task without telling the
      step context). */
  datatype ExecState = ExecState(
    end: int,
    operationId: Option<string>,
    clientSet: bool,
    taskPending: bool,
    outcome: Outcome,
    log: seq<Line>,
    calls: seq<RemoteCall>,
    escaped: Option<Failure>)

  // ---------------------------------------------------------------------
  // The transitions as functions of the old state
  // ---------------------------------------------------------------------

  /** The step context takes the first outcome it is given and ignores
      later ones. */
  function Signal(s: ExecState, o: Outcome): ExecState {
    s.(outcome := if s.outcome.Running? then o else s.outcome)
  }

  function Log(s: ExecState, line: Line): ExecState {
    s.(log := s.log + [line])
  }

  function Call(s: ExecState, c: RemoteCall): ExecState {
    s.(calls := s.calls + [c])
  }

  /** An exception leaves the polling task: no further runs. */
  function Escape(s: ExecState, f: Failure): ExecState {
    s.(taskPending := false, escaped := Some(f))
  }

  function Throw(s: ExecState, f: Failure): (ExecState, StartResult) {
    (Signal(s, Failed(f)), Threw(f))
  }

  /** `waitReport(now)`: arm the polling task, or succeed at once when the
      deadline is not after `now`. */
  function WaitReportSpec(s: ExecState, now: int): ExecState {
    if s.end > now then s.(taskPending := true) else Signal(s, Succeeded)
  }

  /** `start`: authenticate (the first remote call), then either upload
      the binary and wait, or only list the apps. */
  function StartSpec(s: ExecState, step: StepConfig, now: int, auth: Result<string, string>,
                     upload: Result<UploadResponse, RemoteError>, apps: Result<string, RemoteError>)
    : (ExecState, StartResult)
  {
    var s1 := Call(s.(clientSet := true), Authenticate(step.credentialsId));
    if auth.Err? then Throw(s1, AuthFailure(auth.error))
    else if step.generateReport then UploadSpec(s1, step, now, upload)
    else ListAppsSpec(s1, apps)
  }

  /** The upload branch of `start`: remember the operation and a deadline
      `TIMEOUT_AFTER` seconds after `now` (in milliseconds). */
  function UploadSpec(s: ExecState, step: StepConfig, now: int, upload: Result<UploadResponse, RemoteError>)
    : (ExecState, StartResult)
  {
    var s1 := Call(Log(s, Uploading(step.binaryPath)), Upload(step.binaryPath));
    if upload.Err? then Throw(s1, RemoteFailure(upload.error))
    else
      match GetOperationIdFromName(upload.value.name)
      case None => Throw(s1, IndexOutOfBounds)
      case Some(id) =>
        var s2 := s1.(operationId := Some(id), end := now + TIMEOUT_AFTER * 1000);
        if step.waitForReport then (WaitReportSpec(s2, now), Returned(false))
        else (Signal(Log(s2, NotWaiting), Succeeded), Returned(true))
  }

  /** The branch of `start` taken when no report is to be generated. */
  function ListAppsSpec(s: ExecState, apps: Result<string, RemoteError>): (ExecState, StartResult) {
    var s1 := Call(Log(s, NoReport), ListApps);
    if apps.Err? then Throw(s1, RemoteFailure(apps.error))
    else (Signal(Log(s1, AppsList(apps.value)), Succeeded), Returned(true))
  }

  /** One line per failing check, in order. */
  function Issues(failing: seq<string>): (lines: seq<Line>)
    ensures |lines| == |failing|
    ensures forall i :: 0 <= i < |failing| ==> lines[i] == Issue(failing[i])
    decreases |failing|
  {
    if failing == [] then [] else Issues(failing[..|failing| - 1]) + [Issue(failing[|failing| - 1])]
  }

  lemma IssuesStep(failing: seq<string>, i: nat)
    requires i < |failing|
    ensures Issues(failing[..i + 1]) == Issues(failing[..i]) + [Issue(failing[i])]
  {
    assert failing[..i + 1][..i] == failing[..i];
  }

  lemma AppendAssoc<T>(a: seq<T>, b: seq<T>, c: seq<T>)
    ensures a + b + c == a + (b + c)
  {
  }

  /** The lines `isValidReport` prints for the failing checks. */
  function ReportLog(failing: seq<string>): seq<Line> {
    if failing != [] then [IssueCount(|failing|)] + Issues(failing) else [NoIssues]
  }

  /** `isValidReport`: print the console URL, fetch the report named in
      the operation's response, print the failing checks and say whether
      there are none. */
  function IsValidReportSpec(s: ExecState, o: Operation, threshold: SeverityThreshold,
                             report: Result<Report, RemoteError>): (ExecState, Result<bool, Failure>)
  {
    match o.response
    case None => (s, Err(NullPointer))
    case Some(response) =>
      var s1 := Log(s, ConsoleUrl(response.resultsUri));
      match GetReportIdFromName(response.name)
      case None => (s1, Err(IndexOutOfBounds))
      case Some(reportId) =>
        var s2 := Call(s1, GetReport(reportId));
        match report
        case Err(e) => (s2, Err(RemoteFailure(e)))
        case Ok(r) =>
          var failing := FailingChecks(r.checks, threshold);
          (s2.(log := s2.log + ReportLog(failing)), Ok(failing == []))
  }

  /** The outcome of a finished poll: only `failOn: ALL` with failing
      checks fails the step. */
  function Verdict(failOn: Option<FailOn>, valid: bool): Outcome {
    if failOn == Some(ALL) && !valid then Failed(ReportHasErrors) else Succeeded
  }

  /** An exception inside the polling task: an IOException is caught,
      cancels the task and fails the step (and is then rethrown); any
      other exception leaves the task uncaught. */
  function TickFailure(s: ExecState, f: Failure): ExecState {
    if f.RemoteFailure? && f.error.Io? then Escape(Signal(s.(taskPending := false), Failed(f)), f)
    else Escape(s, f)
  }

  /** The poll is over when the operation says it is done or the deadline
      lies strictly before `now`. */
  predicate Finishes(end: int, now: int, o: Operation) {
    end < now || o.done == Some(true)
  }

  function TickSpec(s: ExecState, step: StepConfig, now: int, op: Result<Operation, RemoteError>,
                    report: Result<Report, RemoteError>): ExecState
  {
    var s1 := Log(s, CheckingOn(s.operationId));
    if !s1.clientSet then Escape(s1, NullPointer)
    else
      var s2 := Call(s1, CheckOperation(IdText(s.operationId)));
      match op
      case Err(e) => TickFailure(s2, RemoteFailure(e))
      case Ok(o) =>
        if !Finishes(s.end, now, o) then s2
        else
          var judged := IsValidReportSpec(s2.(taskPending := false), o, step.severityThreshold, report);
          match judged.1
          case Err(f) => TickFailure(judged.0, f)
          case Ok(v) => Signal(judged.0, Verdict(step.failOn, v))
  }

  /** `stop(cause)`: cancel the task and fail the step with the cause. */
  function StopSpec(s: ExecState, cause: string): ExecState {
    Signal(s.(taskPending := false), Failed(Stopped(cause)))
  }

  /** `onResume` after a restart: the transient client and task are gone;
      the persisted deadline and operation id are used to wait again. */
  function ResumeSpec(s: ExecState, now: int): ExecState {
    WaitReportSpec(s.(clientSet := false, taskPending := false), now)
  }

  // ---------------------------------------------------------------------
  // The step execution object
  // ---------------------------------------------------------------------

  class UploadToChecksStepExecution {
    const step: StepConfig
    var checks: GoogleChecks?
    var taskPending: bool
    var end: int
    var operationId: Option<string>
    var outcome: Outcome
    var log: seq<Line>
    var calls: seq<RemoteCall>
    var escaped: Option<Failure>

    function State(): ExecState
      reads this
    {
      ExecState(end, operationId, checks != null, taskPending, outcome, log, calls, escaped)
    }

    /** The client is the one `new GoogleChecks(step.getBaseUrl(),
        step.getProjectId(), step.getAccountId(), step.getAppId())` builds,
        so every request goes to the step's endpoint, account and app. */
    predicate ClientOfStep()
      reads this, checks
    {
      checks != null && checks.baseUrl == BaseUrlOf(step) && checks.projectId == step.projectId &&
      checks.accountId == step.accountId && checks.appId == step.appId
    }

    constructor (step: StepConfig)
      ensures this.step == step && fresh(checks)
      ensures ClientOfStep() && checks.accessTokenValue == None
      ensures State() == ExecState(0, None, true, false, Running, [], [], None)
    {
      this.step := step;
      checks := new GoogleChecks(step.baseUrl, step.projectId, step.accountId, step.appId);
      taskPending := false;
      end := 0;
      operationId := None;
      outcome := Running;
      log := [];
      calls := [];
      escaped := None;
    }

    method SignalOutcome(o: Outcome)
      modifies this`outcome
      ensures outcome == if old(outcome).Running? then o else old(outcome)
    {
      if outcome.Running? {
        outcome := o;
      }
    }

    method Escape(f: Failure)
      modifies this`taskPending, this`escaped
      ensures !taskPending && escaped == Some(f)
    {
      taskPending := false;
      escaped := Some(f);
    }

    method Start(now: int, auth: Result<string, string>, upload: Result<UploadResponse, RemoteError>,
                 apps: Result<string, RemoteError>) returns (r: StartResult)
      modifies this
      ensures (State(), r) == StartSpec(old(State()), step, now, auth, upload, apps)
      ensures fresh(checks) && ClientOfStep()
      ensures checks.accessTokenValue == if auth.Ok? then Some(auth.value) else None
    {
      checks := new GoogleChecks(step.baseUrl, step.projectId, step.accountId, step.appId);
      calls := calls + [Authenticate(step.credentialsId)];
      var authenticated := checks.Authenticate(auth);
      if authenticated.Err? {
        r := Threw(AuthFailure(authenticated.error));
        SignalOutcome(Failed(r.failure));
      } else if step.generateReport {
        r := StartUpload(now, upload);
      } else {
        r := ListAppsOnly(apps);
      }
    }

    method StartUpload(now: int, upload: Result<UploadResponse, RemoteError>) returns (r: StartResult)
      modifies this
      ensures (State(), r) == UploadSpec(old(State()), step, now, upload)
      ensures checks == old(checks)
    {
      log := log + [Uploading(step.binaryPath)];
      calls := calls + [Upload(step.binaryPath)];
      if upload.Err? {
        r := Threw(RemoteFailure(upload.error));
        SignalOutcome(Failed(r.failure));
        return;
      }
      var id := GetOperationIdFromName(upload.value.name);
      if id.None? {
        r := Threw(IndexOutOfBounds);
        SignalOutcome(Failed(r.failure));
        return;
      }
      operationId := id;
      end := now + TIMEOUT_AFTER * 1000;
      if step.waitForReport {
        WaitReport(now);
        r := Returned(false);
      } else {
        log := log + [NotWaiting];
        SignalOutcome(Succeeded);
        r := Returned(true);
      }
    }

    method ListAppsOnly(apps: Result<string, RemoteError>) returns (r: StartResult)
      modifies this
      ensures (State(), r) == ListAppsSpec(old(State()), apps)
      ensures checks == old(checks)
    {
      log := log + [NoReport];
      calls := calls + [ListApps];
      if apps.Err? {
        r := Threw(RemoteFailure(apps.error));
        SignalOutcome(Failed(r.failure));
        return;
      }
      log := log + [AppsList(apps.value)];
      SignalOutcome(Succeeded);
      r := Returned(true);
    }

    method WaitReport(now: int)
      modifies this
      ensures State() == WaitReportSpec(old(State()), now)
      ensures checks == old(checks)
    {
      if end > now {
        taskPending := true;
      } else {
        SignalOutcome(Succeeded);
      }
    }

    /** One run of the polling task, at time `now`, with the operation
        snapshot (or error) the client returns and the report it would
        return if asked. */
    method Tick(now: int, op: Result<Operation, RemoteError>, report: Result<Report, RemoteError>)
      requires taskPending
      modifies this
      ensures State() == TickSpec(old(State()), step, now, op, report)
      ensures checks == old(checks)
    {
      log := log + [CheckingOn(operationId)];
      if checks == null {
        Escape(NullPointer);
        return;
      }
      calls := calls + [CheckOperation(IdText(operationId))];
      match op {
        case Err(e) =>
          TickFailed(RemoteFailure(e));
        case Ok(o) =>
          if end < now || o.done == Some(true) {
            taskPending := false;
            var valid := IsValidReport(o, step.severityThreshold, report);
            match valid {
              case Err(f) =>
                TickFailed(f);
              case Ok(v) =>
                if step.failOn == Some(ALL) {
                  if v {
                    SignalOutcome(Succeeded);
                  } else {
                    SignalOutcome(Failed(ReportHasErrors));
                  }
                } else {
                  SignalOutcome(Succeeded);
                }
            }
          }
      }
    }

    method TickFailed(f: Failure)
      modifies this
      ensures State() == TickFailure(old(State()), f)
      ensures checks == old(checks)
    {
      if f.RemoteFailure? && f.error.Io? {
        taskPending := false;
        SignalOutcome(Failed(f));
      }
      Escape(f);
    }

    method IsValidReport(o: Operation, threshold: SeverityThreshold, report: Result<Report, RemoteError>)
      returns (valid: Result<bool, Failure>)
      modifies this
      ensures (State(), valid) == IsValidReportSpec(old(State()), o, threshold, report)
      ensures checks == old(checks)
    {
      ghost var s0 := State();
      if o.response.None? {
        valid := Err(NullPointer);
        return;
      }
      var response := o.response.value;
      log := log + [ConsoleUrl(response.resultsUri)];
      var reportId := GetReportIdFromName(response.name);
      if reportId.None? {
        valid := Err(IndexOutOfBounds);
        return;
      }
      calls := calls + [GetReport(reportId.value)];
      if report.Err? {
        valid := Err(RemoteFailure(report.error));
        return;
      }
      ghost var s2 := State();
      assert s2 == s0.(log := s0.log + [ConsoleUrl(response.resultsUri)],
                       calls := s0.calls + [GetReport(reportId.value)]);
      var failing := ValidateReport(report.value.checks, threshold);
      PrintFailing(failing);
      valid := Ok(failing == []);
      assert State() == s2.(log := s2.log + ReportLog(failing));
    }

    /** Prints the count and then each failing check, or that there are none. */
    method PrintFailing(failing: seq<string>)
      modifies this`log
      ensures log == old(log) + ReportLog(failing)
    {
      if failing != [] {
        log := log + [IssueCount(|failing|)];
        ghost var before := log;
        for i := 0 to |failing|
          invariant log == before + Issues(failing[..i])
        {
          IssuesStep(failing, i);
          log := log + [Issue(failing[i])];
        }
        assert failing[..|failing|] == failing;
        AppendAssoc(old(log), [IssueCount(|failing|)], Issues(failing));
      } else {
        log := log + [NoIssues];
      }
    }

    /** The overload without a threshold judges at PRIORITY. */
    method IsValidReportDefault(o: Operation, report: Result<Report, RemoteError>)
      returns (valid: Result<bool, Failure>)
      modifies this
      ensures (State(), valid) == IsValidReportSpec(old(State()), o, PRIORITY, report)
      ensures checks == old(checks)
    {
      valid := IsValidReport(o, PRIORITY, report);
    }

    method Stop(cause: string)
      modifies this
      ensures State() == StopSpec(old(State()), cause)
      ensures checks == old(checks)
    {
      taskPending := false;
      SignalOutcome(Failed(Stopped(cause)));
    }

    /** A restart: the object comes back from its serialized form, without
        its transient client and task, and `onResume` waits again. */
    method Resume(now: int)
      modifies this
      ensures State() == ResumeSpec(old(State()), now)
    {
      checks := null;
      taskPending := false;
      WaitReport(now);
    }
  }
}
