/** `ReportingManager`: the single access point to the active reporter. It is initialised once
    with a reporter type (only "allure" exists), can be reset, and guards access to the reporter.
    Constructing the Allure reporter is outside the model: `allure` is the reporter it yields, or
    the message of the ImportError it raised. */
module Reporting {
  import opened Wrappers
  import opened Text
  import opened Values

  /** An opaque reporter object. */
  type Handle = nat

  /** The reporter calls the manager forwards. */
  datatype ReportCall =
    | LogStep(reporter: Handle, message: string)
    | AttachText(reporter: Handle, name: string, text: string)

  const NotInitialized := "ReportingManager not initialized. Call ReportingManager.init() during test session setup."

  function UnsupportedType(reporterType: string): string {
    "Unsupported reporter type: " + reporterType + ". Currently supported: allure"
  }

  class ReportingManager {
    var instance: Option<Handle>
    var reporterType: Option<string>

    constructor ()
      ensures instance == None && reporterType == None
    {
      instance := None;
      reporterType := None;
    }

    /** `init`: a no-op once initialised; otherwise records the lower-cased type and creates the
        Allure reporter for "allure" in any letter case, and refuses every other type. */
    method Init(requested: string, allure: Result<Handle, string>) returns (raised: Option<Exception>)
      modifies this
      ensures old(instance).Some? ==> raised == None && instance == old(instance) && reporterType == old(reporterType)
      ensures old(instance).None? ==> reporterType == Some(Lower(requested))
      ensures old(instance).None? && Lower(requested) == "allure" ==>
                (allure.Ok? ==> raised == None && instance == Some(allure.value)) &&
                (allure.Err? ==> raised == Some(Foreign(allure.error)) && instance == None)
      ensures old(instance).None? && Lower(requested) != "allure" ==>
                raised == Some(ValueError(UnsupportedType(requested))) && instance == None
    {
      if instance.Some? {
        return None;
      }
      reporterType := Some(Lower(requested));
      if Lower(requested) == "allure" {
        match allure
        case Ok(h) =>
          instance := Some(h);
          raised := None;
        case Err(m) =>
          raised := Some(Foreign(m));
      } else {
        raised := Some(ValueError(UnsupportedType(requested)));
      }
    }

    /** `reporter`: the instance, or RuntimeError exactly when not initialised. */
    method Reporter() returns (r: Result<Handle, Exception>)
      ensures r.Err? <==> instance.None?
      ensures r.Ok? ==> instance == Some(r.value)
      ensures r.Err? ==> r.error == RuntimeError(NotInitialized)
    {
      if instance.None? {
        return Err(RuntimeError(NotInitialized));
      }
      return Ok(instance.value);
    }

    /** `reset` */
    method Reset()
      modifies this
      ensures instance == None && reporterType == None
    {
      instance := None;
      reporterType := None;
    }

    /** `is_initialized` */
    method IsInitialized() returns (b: bool)
      ensures b <==> instance.Some?
    {
      return instance.Some?;
    }

    /** `log_info`: forwards the message when initialised and never raises (a failure inside the
        reporter is swallowed). */
    method LogInfo(message: string) returns (call: Option<ReportCall>)
      ensures call.Some? <==> instance.Some?
      ensures call.Some? ==> call.value == LogStep(instance.value, message)
    {
      var initialized := IsInitialized();
      if !initialized {
        return None;
      }
      var r := Reporter();
      call := Some(LogStep(r.value, message));
    }

    /** `attach_remote_capabilities`: attaches the capabilities, serialised by `dumps`, under
        "Remote Capabilities" when initialised; never raises. */
    method AttachRemoteCapabilities(capabilities: Value, dumps: Value -> string) returns (call: Option<ReportCall>)
      ensures call.Some? <==> instance.Some?
      ensures call.Some? ==> call.value == AttachText(instance.value, "Remote Capabilities", dumps(capabilities))
    {
      var initialized := IsInitialized();
      if !initialized {
        return None;
      }
      var text := dumps(capabilities);
      var r := Reporter();
      call := Some(AttachText(r.value, "Remote Capabilities", text));
    }
  }

  /** Reset followed by init starts over: an unsupported type after a reset leaves the manager
      uninitialised, and the reporter is then refused. */
  method ResetThenRefused(m: ReportingManager, requested: string, allure: Result<Handle, string>)
    returns (r: Result<Handle, Exception>)
    requires Lower(requested) != "allure"
    modifies m
    ensures r == Err(RuntimeError(NotInitialized))
    ensures m.instance == None && m.reporterType == Some(Lower(requested))
  {
    m.Reset();
    var raised := m.Init(requested, allure);
    assert raised == Some(ValueError(UnsupportedType(requested)));
    r := m.Reporter();
  }

  /** The reporter type is matched without regard to letter case: two managers in the same state,
      initialised with a type and with its upper-cased spelling, end in the same state and either
      both succeed or both raise. */
  method InitIgnoresCase(a: ReportingManager, b: ReportingManager, requested: string, allure: Result<Handle, string>)
    returns (raisedA: Option<Exception>, raisedB: Option<Exception>)
    requires a != b && a.instance == b.instance && a.reporterType == b.reporterType
    modifies a, b
    ensures a.instance == b.instance && a.reporterType == b.reporterType
    ensures raisedA.None? <==> raisedB.None?
  {
    LowerIgnoresCase(requested);
    raisedA := a.Init(requested, allure);
    raisedB := b.Init(Upper(requested), allure);
  }
}
