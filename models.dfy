/** The JSON records the Checks API exchanges, as plain values.
    A Java field that may be absent from the JSON is an `Option`. */
module Models {
  import opened Wrappers
  import opened Severity

  /** One finding of a report. `details` stands for the text the JSON
      library renders for the whole check (its `toString`), which is not
      part of this model and is therefore carried as given. */
  datatype Check = Check(checkType: string, state: string, severity: SeverityThreshold, details: string)

  /** A report: its resource name and its checks, in the server's order. */
  datatype Report = Report(name: string, checks: seq<Check>)

  /** The `response` part of a finished operation. */
  datatype ReportResponse = ReportResponse(name: string, resultsUri: string)

  /** A snapshot of the long-running analysis. A pending operation carries
      only its name: `done` and `response` are then absent. */
  datatype Operation = Operation(name: string, done: Option<bool>, response: Option<ReportResponse>)

  /** The answer to an upload: the operation's resource name. */
  datatype UploadResponse = UploadResponse(name: string)
}
