/** The telemetry requester behind dpsl.telemetry.* (src/telemetry_requester.js):
    a gate that looks at the telemetry namespace only, the message of the
    error a missing function gives, and getters that forward to the host. */
module TelemetryRequester {
  import opened Wrappers
  import opened Host
  import Utils

  /** isSupported: `name` is a function of `chrome.os.telemetry`. */
  predicate IsSupported(c: Chrome, name: string)
    ensures IsSupported(c, name) <==> name in Utils.FunctionNames(NamespaceOf(c, TelemetryApi))
  {
    Callable(c, TelemetryApi, name)
  }

  /** This gate is narrower than the shared one: it accepts only what that
      one accepts, and a function present in the diagnostics namespace alone
      passes the shared gate but not this one. */
  lemma TelemetryGateNarrower(c: Chrome, name: string)
    ensures IsSupported(c, name) ==> Utils.IsSupported(c, name)
    ensures !IsSupported(c, name) ==> (Utils.IsSupported(c, name) <==> Callable(c, DiagnosticsApi, name))
  {
  }

  const ErrorPrefix: string := "DPSL: chrome.os.telemetry."
  const ErrorSuffix: string := "() is not found. Consider updating Google Chrome."

  /** getErrorMessage(name). */
  function GetErrorMessage(name: string): (s: string)
    ensures s == "DPSL: chrome.os.telemetry." + name + "() is not found. Consider updating Google Chrome."
    ensures NameInErrorMessage(s) == Some(name)
  {
    var s := ErrorPrefix + name + ErrorSuffix;
    assert s[..|ErrorPrefix|] == ErrorPrefix;
    assert s[|s| - |ErrorSuffix|..] == ErrorSuffix;
    assert s[|ErrorPrefix|..|s| - |ErrorSuffix|] == name;
    s
  }

  /** The function name a getErrorMessage text was built from, if it is one. */
  function NameInErrorMessage(s: string): Option<string> {
    if |s| < |ErrorPrefix| + |ErrorSuffix| || s[..|ErrorPrefix|] != ErrorPrefix || s[|s| - |ErrorSuffix|..] != ErrorSuffix
    then None
    else Some(s[|ErrorPrefix|..|s| - |ErrorSuffix|])
  }

  /** Different functions get different messages. */
  lemma ErrorMessageInjective(n1: string, n2: string)
    requires GetErrorMessage(n1) == GetErrorMessage(n2)
    ensures n1 == n2
  {
    assert NameInErrorMessage(GetErrorMessage(n1)) == Some(n1);
  }

  /** `new Error(getErrorMessage(name))`, the rejection of a gated getter. */
  function NotFound(name: string): (e: JsError)
    ensures e.ErrorObject? && e.name == "Error" && NameInErrorMessage(e.message) == Some(name)
  {
    ErrorObject("Error", GetErrorMessage(name))
  }

  /** DPSLTelemetryRequester. Its getters hold no state: each one checks the
      gate and forwards a call without arguments to the host. */
  class DPSLTelemetryRequester {
    const backend: Backend

    constructor (b: Backend)
      ensures backend == b
    {
      backend := b;
    }

    /** The gate-then-forward every gated getter runs for its own name. */
    method Gated(name: string) returns (r: Result<Json, JsError>)
      modifies backend
      ensures IsSupported(backend.chrome, name) ==>
                backend.log == old(backend.log) + [Call(TelemetryApi, name, NoArgs)] &&
                r == backend.Outcome(old(backend.log), Call(TelemetryApi, name, NoArgs))
      ensures !IsSupported(backend.chrome, name) ==>
                backend.log == old(backend.log) && r == Failure(NotFound(name))
    {
      if !IsSupported(backend.chrome, name) {
        return Failure(NotFound(name));
      }
      r := backend.Invoke(TelemetryApi, name, NoArgs);
    }

    method GetVpdInfo() returns (r: Result<Json, JsError>)
      modifies backend
      ensures IsSupported(backend.chrome, "getVpdInfo") ==>
                backend.log == old(backend.log) + [Call(TelemetryApi, "getVpdInfo", NoArgs)] &&
                r == backend.Outcome(old(backend.log), Call(TelemetryApi, "getVpdInfo", NoArgs))
      ensures !IsSupported(backend.chrome, "getVpdInfo") ==>
                backend.log == old(backend.log) && r == Failure(NotFound("getVpdInfo"))
    {
      r := Gated("getVpdInfo");
    }

    method GetOemData() returns (r: Result<Json, JsError>)
      modifies backend
      ensures IsSupported(backend.chrome, "getOemData") ==>
                backend.log == old(backend.log) + [Call(TelemetryApi, "getOemData", NoArgs)] &&
                r == backend.Outcome(old(backend.log), Call(TelemetryApi, "getOemData", NoArgs))
      ensures !IsSupported(backend.chrome, "getOemData") ==>
                backend.log == old(backend.log) && r == Failure(NotFound("getOemData"))
    {
      r := Gated("getOemData");
    }

    method GetCpuInfo() returns (r: Result<Json, JsError>)
      modifies backend
      ensures IsSupported(backend.chrome, "getCpuInfo") ==>
                backend.log == old(backend.log) + [Call(TelemetryApi, "getCpuInfo", NoArgs)] &&
                r == backend.Outcome(old(backend.log), Call(TelemetryApi, "getCpuInfo", NoArgs))
      ensures !IsSupported(backend.chrome, "getCpuInfo") ==>
                backend.log == old(backend.log) && r == Failure(NotFound("getCpuInfo"))
    {
      r := Gated("getCpuInfo");
    }

    method GetMemoryInfo() returns (r: Result<Json, JsError>)
      modifies backend
      ensures IsSupported(backend.chrome, "getMemoryInfo") ==>
                backend.log == old(backend.log) + [Call(TelemetryApi, "getMemoryInfo", NoArgs)] &&
                r == backend.Outcome(old(backend.log), Call(TelemetryApi, "getMemoryInfo", NoArgs))
      ensures !IsSupported(backend.chrome, "getMemoryInfo") ==>
                backend.log == old(backend.log) && r == Failure(NotFound("getMemoryInfo"))
    {
      r := Gated("getMemoryInfo");
    }

    /** getBatteryInfo has no gate: without the host function the call itself
        fails with a TypeError. */
    method GetBatteryInfo() returns (r: Result<Json, JsError>)
      modifies backend
      ensures Callable(backend.chrome, TelemetryApi, "getBatteryInfo") ==>
                backend.log == old(backend.log) + [Call(TelemetryApi, "getBatteryInfo", NoArgs)] &&
                r == backend.Outcome(old(backend.log), Call(TelemetryApi, "getBatteryInfo", NoArgs))
      ensures !Callable(backend.chrome, TelemetryApi, "getBatteryInfo") ==>
                backend.log == old(backend.log) && r == Failure(TypeError)
    {
      r := backend.Invoke(TelemetryApi, "getBatteryInfo", NoArgs);
    }
  }
}
