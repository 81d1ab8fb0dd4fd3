/** The helpers of the core pytest plugin: markers that pick the browser and the execution mode,
    and the failure gate that takes a screenshot named after the test and attaches it to the report. */
module FailureCapture {
  import opened Wrappers
  import opened Text
  import opened Values
  import opened Driver

  /** A pytest marker found on the test node, with its positional arguments. */
  datatype Marker = Marker(args: seq<Value>)

  /** The outcome of the call phase of a test, as the report hook stores it. */
  datatype Report = Report(failed: bool)

  /** What the failure handler asks of the page and the reporter. */
  datatype FailureAction =
    | Screenshot(path: string)
    | AttachScreenshot(name: string, path: string)

  /** The characters a screenshot name keeps. */
  predicate IsSafeChar(c: char) { IsAlnum(c) || c == '-' || c == '_' }

  function SafeChar(c: char): (r: char)
    ensures IsSafeChar(r)
    ensures IsSafeChar(c) <==> r == c
  {
    if IsSafeChar(c) then c else '_'
  }

  /** The test name with every character other than letters, digits, '-' and '_' replaced by '_'. */
  function SafeName(name: string): string {
    seq(|name|, i requires 0 <= i < |name| => SafeChar(name[i]))
  }

  /** The sanitised name has the test name's length, keeps each safe character in place, puts '_'
      for every other one, uses only safe characters, and is left unchanged by sanitising again. */
  lemma SafeNameProperties(name: string)
    ensures |SafeName(name)| == |name|
    ensures forall i :: 0 <= i < |name| ==> SafeName(name)[i] == if IsSafeChar(name[i]) then name[i] else '_'
    ensures forall i :: 0 <= i < |name| ==> IsSafeChar(SafeName(name)[i])
    ensures SafeName(SafeName(name)) == SafeName(name)
    ensures (forall i :: 0 <= i < |name| ==> IsSafeChar(name[i])) <==> SafeName(name) == name
  {
    if forall i :: 0 <= i < |name| ==> IsSafeChar(name[i]) {
    } else {
      var i :| 0 <= i < |name| && !IsSafeChar(name[i]);
      assert SafeName(name)[i] != name[i];
    }
  }

  /** `f"{safe_name}_{timestamp}.png"` */
  function ScreenshotFileName(testName: string, timestamp: string): string {
    SafeName(testName) + "_" + timestamp + ".png"
  }

  /** The screenshot file is named after the sanitised test name and the timestamp and ends in
      ".png"; with a timestamp made of safe characters, the name holds no '/', so the file lands
      directly in the run directory whatever the test is called. */
  lemma ScreenshotFileNameShape(testName: string, timestamp: string)
    ensures var f := ScreenshotFileName(testName, timestamp);
            SafeName(testName) + "_" <= f && |f| >= 4 && f[|f| - 4..] == ".png" &&
            f[|SafeName(testName)| + 1..|f| - 4] == timestamp
    ensures (forall i :: 0 <= i < |timestamp| ==> IsSafeChar(timestamp[i])) ==> '/' !in ScreenshotFileName(testName, timestamp)
  {
    var f := ScreenshotFileName(testName, timestamp);
    var n := |SafeName(testName)|;
    assert f[n + 1..|f| - 4] == timestamp;
    if forall i :: 0 <= i < |timestamp| ==> IsSafeChar(timestamp[i]) {
      SafeNameProperties(testName);
      forall i | 0 <= i < |f| ensures f[i] != '/' {
        if i < n {
          assert f[i] == SafeName(testName)[i];
        } else if n < i < |f| - 4 {
          assert f[i] == timestamp[i - n - 1];
        }
      }
    }
  }

  /** `_get_browser_from_marker`: the first positional argument of the `browser` marker. */
  function BrowserFromMarker(marker: Option<Marker>): Option<Value> {
    if marker.Some? && |marker.value.args| > 0 then Some(marker.value.args[0]) else None
  }

  /** `_is_remote_execution`: whether the test carries a `remote` marker. */
  predicate IsRemoteExecution(remoteMarker: Option<Marker>) {
    remoteMarker.Some?
  }

  /** The profile the `driver` fixture's factory loads: the marker's browser, or the configured
      default when the marker gives none (`browser_name or get_default_browser()`). */
  function FixtureBrowserName(marker: Option<Marker>, defaultBrowser: Value): Value {
    match BrowserFromMarker(marker)
    case Some(v) => if Truthy(v) then v else defaultBrowser
    case None => defaultBrowser
  }

  /** The `browser` marker picks the profile exactly when it has a first argument that is not empty
      (or otherwise false); a missing marker, a marker without arguments or an empty name all fall
      back to the default. */
  lemma MarkerSelection(marker: Option<Marker>, defaultBrowser: Value, name: string, args: seq<Value>)
    ensures FixtureBrowserName(None, defaultBrowser) == defaultBrowser
    ensures FixtureBrowserName(Some(Marker([])), defaultBrowser) == defaultBrowser
    ensures FixtureBrowserName(Some(Marker([Str("")] + args)), defaultBrowser) == defaultBrowser
    ensures name != "" ==> FixtureBrowserName(Some(Marker([Str(name)] + args)), defaultBrowser) == Str(name)
    ensures FixtureBrowserName(marker, defaultBrowser) != defaultBrowser ==>
              marker.Some? && |marker.value.args| > 0 && Truthy(marker.value.args[0]) &&
              FixtureBrowserName(marker, defaultBrowser) == marker.value.args[0]
    ensures marker.Some? && |marker.value.args| > 0 && Truthy(marker.value.args[0]) ==>
              FixtureBrowserName(marker, defaultBrowser) == marker.value.args[0]
  {
  }

  /** A test marked `remote` gets a factory on which no pass of `get_driver` yields a page; an
      unmarked test gets local attempts. */
  lemma RemoteMarkerNeverYieldsPage(remoteMarker: Option<Marker>, f: DriverFactory,
                                    env: (nat, Step) -> Result<Handle, string>, delay: Value, n: nat)
    requires f.remote == IsRemoteExecution(remoteMarker)
    ensures remoteMarker.Some? ==> f.FirstSuccess(n, env, delay).None?
    ensures remoteMarker.Some? ==> forall k :: f.RetryOutcome(k, env, delay).Err?
    ensures remoteMarker.None? ==>
              forall k :: f.AttemptOutcome(k, env) == LocalAttempt(k, env, f.settings).0
  {
    if remoteMarker.Some? {
      RemoteAlwaysFails(f, env, delay, n);
    }
  }

  /** `_capture_failure_screenshot`: nothing without a page; otherwise the screenshot, and when the
      reporter is initialised and the screenshot succeeded, its attachment as "failure_<name>". */
  function CaptureActions(hasPage: bool, runDir: string, testName: string, timestamp: string,
                          screenshotOk: bool, reporting: bool): seq<FailureAction>
  {
    if !hasPage then []
    else
      var path := runDir + "/" + ScreenshotFileName(testName, timestamp);
      [Screenshot(path)] + (if screenshotOk && reporting then [AttachScreenshot("failure_" + testName, path)] else [])
  }

  /** `_handle_test_failure`: the screenshot step runs only for a call-phase report that failed. */
  function HandleTestFailure(repCall: Option<Report>, hasPage: bool, runDir: string, testName: string,
                             timestamp: string, screenshotOk: bool, reporting: bool): seq<FailureAction>
  {
    if repCall.None? || !repCall.value.failed then []
    else CaptureActions(hasPage, runDir, testName, timestamp, screenshotOk, reporting)
  }

  /** A screenshot is taken exactly when the test's call phase failed and a page exists; an
      attachment only follows a screenshot, under the same path. */
  lemma FailureGate(repCall: Option<Report>, hasPage: bool, runDir: string, testName: string, timestamp: string,
                    screenshotOk: bool, reporting: bool)
    ensures var a := HandleTestFailure(repCall, hasPage, runDir, testName, timestamp, screenshotOk, reporting);
            (|a| > 0 <==> repCall.Some? && repCall.value.failed && hasPage) &&
            (|a| > 0 ==> a[0] == Screenshot(runDir + "/" + ScreenshotFileName(testName, timestamp))) &&
            (forall i :: 0 < i < |a| ==> a[i] == AttachScreenshot("failure_" + testName, a[0].path)) &&
            |a| <= 2
  {
  }
}
