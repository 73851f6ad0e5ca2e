/** The web tools page: analysing a URL (loading flag, metrics, log lines)
    and the health-check monitor. Clock readings are passed in as the
    already-formatted time of day; the 30-second interval is a `Tick` that
    the caller sends. */
module WebTools {
  import opened Common
  import opened WebsiteAnalyzer

  datatype Toast = Toast(title: string, description: string, destructive: bool)

  /** A log line: "[time] text". */
  function LogLine(time: string, text: string): string {
    "[" + time + "] " + text
  }

  function StartLine(time: string, url: string): string {
    LogLine(time, "Starting comprehensive analysis of " + url + "...")
  }

  /** The two lines appended after a successful analysis; each reads the
      clock on its own. */
  function SuccessLines(completed: string, counted: string, results: seq<Metric>): seq<string> {
    [LogLine(completed, "Analysis completed successfully"),
     LogLine(counted, "Found " + NatToString(|results|) + " metrics")]
  }

  /** The line appended after a failure: `${error}` of an Error object is
      "Error: " followed by its message. */
  function ErrorLine(time: string, message: string): string {
    LogLine(time, "Error: " + "Error: " + message)
  }

  const HealthCheck: string := "Health check performed"

  /** The health-check lines of interval firings at the given times. */
  function HealthLines(times: seq<string>): (lines: seq<string>)
    ensures |lines| == |times|
    ensures forall i :: 0 <= i < |times| ==> lines[i] == LogLine(times[i], HealthCheck)
  {
    if times == [] then [] else HealthLines(times[..|times| - 1]) + [LogLine(times[|times| - 1], HealthCheck)]
  }

  /** A successful analysis always reports six metrics. */
  lemma SuccessReportsSix(completed: string, counted: string, url: string, page: PageFacts)
    ensures SuccessLines(completed, counted, Metrics(url, page))[1] == LogLine(counted, "Found 6 metrics")
  {
    MetricsShape(url, page);
    assert NatToString(6) == "6";
  }

  class WebToolsPage {
    var isLoading: bool
    var metrics: seq<Metric>
    var logs: seq<string>
    var isMonitoring: bool
    var toasts: seq<Toast>

    constructor()
      ensures !isLoading && metrics == [] && logs == [] && !isMonitoring && toasts == []
    {
      isLoading := false;
      metrics := [];
      logs := [];
      isMonitoring := false;
      toasts := [];
    }

    /** `handleAnalyze`: an invalid URL only raises a toast. Otherwise the
        log restarts with one start line; success replaces the metrics and
        appends two lines, failure keeps the metrics and appends one error
        line; loading is off at the end. `urlIsValid` is what `isValidUrl`
        answered; `ticks` are the times at which the monitoring interval
        fired while the analysis was awaited, whose lines land between the
        start line and the result lines. */
    method HandleAnalyze(url: string, urlIsValid: bool, fetched: Option<PageFacts>,
                         started: string, ticks: seq<string>, completed: string, counted: string)
      modifies this
      ensures !urlIsValid ==>
                isLoading == old(isLoading) && metrics == old(metrics) && logs == old(logs)
                && toasts == old(toasts) + [Toast("Invalid URL", "Please enter a valid URL including http:// or https://", true)]
      ensures urlIsValid ==> !isLoading
      ensures urlIsValid && fetched.Some? ==>
                metrics == Metrics(url, fetched.value)
                && logs == [StartLine(started, url)] + (if isMonitoring then HealthLines(ticks) else [])
                           + SuccessLines(completed, counted, Metrics(url, fetched.value))
                && toasts == old(toasts) + [Toast("Analysis Complete", "Website metrics have been updated", false)]
      ensures urlIsValid && fetched.None? ==>
                metrics == old(metrics)
                && logs == [StartLine(started, url)] + (if isMonitoring then HealthLines(ticks) else [])
                           + [ErrorLine(completed, AnalyzeFailure)]
                && toasts == old(toasts) + [Toast("Error", "Failed to analyze website. Please try again.", true)]
      ensures isMonitoring == old(isMonitoring)
    {
      if !urlIsValid {
        toasts := toasts + [Toast("Invalid URL", "Please enter a valid URL including http:// or https://", true)];
        return;
      }
      isLoading := true;
      logs := [StartLine(started, url)];
      var i := 0;
      while i < |ticks|
        invariant 0 <= i <= |ticks|
        invariant isMonitoring == old(isMonitoring) && metrics == old(metrics) && toasts == old(toasts)
        invariant logs == [StartLine(started, url)] + (if isMonitoring then HealthLines(ticks[..i]) else [])
      {
        assert ticks[..i + 1][..i] == ticks[..i];
        Tick(ticks[i]);
        i := i + 1;
      }
      assert ticks[..|ticks|] == ticks;
      var result := AnalyzeWebsite(url, fetched);
      match result {
        case Ok(results) =>
          metrics := results;
          logs := logs + SuccessLines(completed, counted, results);
          toasts := toasts + [Toast("Analysis Complete", "Website metrics have been updated", false)];
        case Err(message) =>
          logs := logs + [ErrorLine(completed, message)];
          toasts := toasts + [Toast("Error", "Failed to analyze website. Please try again.", true)];
      }
      isLoading := false;
    }

    /** The monitoring switch flips `isMonitoring` and nothing else. */
    method ToggleMonitoring()
      modifies this
      ensures isMonitoring == !old(isMonitoring)
      ensures isLoading == old(isLoading) && metrics == old(metrics) && logs == old(logs) && toasts == old(toasts)
    {
      isMonitoring := !isMonitoring;
    }

    /** One firing of the 30-second interval: while monitoring, exactly one
        health-check line is appended; with monitoring off there is no
        interval and nothing changes. */
    method Tick(time: string)
      modifies this
      ensures old(isMonitoring) ==> logs == old(logs) + [LogLine(time, HealthCheck)]
      ensures !old(isMonitoring) ==> logs == old(logs)
      ensures isMonitoring == old(isMonitoring) && isLoading == old(isLoading)
      ensures metrics == old(metrics) && toasts == old(toasts)
    {
      if isMonitoring {
        logs := logs + [LogLine(time, HealthCheck)];
      }
    }
  }
}
