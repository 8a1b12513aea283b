/** The capability gate shared by the diagnostics managers, and the error
    they raise when a backend function is missing (src/utils.js). */
module Utils {
  import opened Wrappers
  import opened Decimal
  import opened Host

  /** isSupported: `name` is a function of `chrome.os.telemetry` or of
      `chrome.os.diagnostics`. An absent `chrome.os`, an absent namespace,
      a missing member and a member that is no function all give false. */
  predicate IsSupported(c: Chrome, name: string)
    ensures IsSupported(c, name) <==>
              name in FunctionNames(NamespaceOf(c, TelemetryApi)) + FunctionNames(NamespaceOf(c, DiagnosticsApi))
  {
    Callable(c, TelemetryApi, name) || Callable(c, DiagnosticsApi, name)
  }

  /** The names under which a namespace holds a function. */
  function FunctionNames(ns: Option<Namespace>): set<string> {
    if ns.None? then {} else set k | k in ns.value && ns.value[k] == Function
  }

  /** Without `chrome.os` nothing is supported. */
  lemma NoOsNothingSupported(c: Chrome, name: string)
    requires c.os.None?
    ensures !IsSupported(c, name)
  {
  }

  /** A member that exists but is not a function is not supported. */
  lemma NonFunctionNotSupported(c: Chrome, name: string)
    requires c.os.Some?
    requires forall ns :: ns == c.os.value.telemetry || ns == c.os.value.diagnostics ==>
               ns.Some? ==> name in ns.value && ns.value[name] == NonFunction
    ensures !IsSupported(c, name)
  {
    if c.os.value.telemetry.Some? {
      assert c.os.value.telemetry.value[name] == NonFunction;
    }
    if c.os.value.diagnostics.Some? {
      assert c.os.value.diagnostics.value[name] == NonFunction;
    }
  }

  const MethodNotFoundName: string := "DPSL_MethodNotFoundError"
  const MessagePrefix: string := "chrome.os."
  const NotFoundSuffix: string := "() is not found. Consider updating Google Chrome to M"

  /** The message of MethodNotFoundError(api, name, version). For an API
      name without a dot, the API name, the function name and the version
      can be read back from it. */
  function MethodNotFoundMessage(api: string, name: string, version: nat): (s: string)
    ensures '.' !in api ==> ParseMethodNotFoundMessage(s) == Some((api, name, version))
  {
    var rest := name + NotFoundSuffix + NatToString(version);
    var body := api + "." + rest;
    var s := MessagePrefix + body + ".";
    EnvelopeOf(body);
    SplitVersionOf(name, version);
    if '.' in api then s else SplitApiOf(api, rest); s
  }

  /** new MethodNotFoundError(api, name, version): an Error whose name is
      always DPSL_MethodNotFoundError and whose message names the function
      and the first Chrome milestone that has it. */
  function MethodNotFoundError(api: string, name: string, version: nat): (e: JsError)
    ensures e.ErrorObject? && e.name == "DPSL_MethodNotFoundError"
    ensures e.message == "chrome.os." + api + "." + name + "() is not found. Consider updating Google Chrome to M"
                         + NatToString(version) + "."
  {
    var m := MethodNotFoundMessage(api, name, version);
    assert m == MessagePrefix + (api + "." + (name + NotFoundSuffix + NatToString(version))) + ".";
    ErrorObject(MethodNotFoundName, m)
  }

  /** The index of the first `c` in `s`, or `|s|` when there is none. */
  function IndexOf(s: string, c: char): (k: nat)
    ensures k <= |s|
    ensures forall i :: 0 <= i < k ==> s[i] != c
    ensures k < |s| ==> s[k] == c
  {
    if s == [] || s[0] == c then 0 else 1 + IndexOf(s[1..], c)
  }

  /** The text between the fixed opening and the final dot. */
  function Envelope(s: string): Option<string> {
    if |s| <= |MessagePrefix| || s[..|MessagePrefix|] != MessagePrefix || s[|s| - 1] != '.' then None
    else Some(s[|MessagePrefix|..|s| - 1])
  }

  /** An API name up to the first dot, and the rest after that dot. */
  function SplitApi(body: string): Option<(string, string)> {
    var i := IndexOf(body, '.');
    if i == |body| then None else Some((body[..i], body[i + 1..]))
  }

  /** A function name, the fixed middle text, and a trailing run of digits. */
  function SplitVersion(rest: string): Option<(string, nat)> {
    var d := TrailingDigitCount(rest);
    var head := rest[..|rest| - d];
    if d == 0 || |head| < |NotFoundSuffix| || head[|head| - |NotFoundSuffix|..] != NotFoundSuffix then None
    else Some((head[..|head| - |NotFoundSuffix|], ParseDigits(rest[|rest| - d..])))
  }

  /** Reads an API name, a function name and a version back out of a
      MethodNotFoundError message; the API name ends at the first dot. */
  function ParseMethodNotFoundMessage(s: string): Option<(string, string, nat)> {
    match Envelope(s)
    case None => None
    case Some(body) =>
      match SplitApi(body)
      case None => None
      case Some((api, rest)) =>
        match SplitVersion(rest)
        case None => None
        case Some((name, version)) => Some((api, name, version))
  }

  lemma EnvelopeOf(body: string)
    ensures Envelope(MessagePrefix + body + ".") == Some(body)
  {
    var s := MessagePrefix + body + ".";
    assert s[..|MessagePrefix|] == MessagePrefix;
    assert s[|MessagePrefix|..|s| - 1] == body;
  }

  lemma SplitApiOf(api: string, rest: string)
    requires '.' !in api
    ensures SplitApi(api + "." + rest) == Some((api, rest))
  {
    var body := api + "." + rest;
    assert body[|api|] == '.';
    assert forall k :: 0 <= k < |api| ==> body[k] == api[k];
    assert body[..|api|] == api;
    assert body[|api| + 1..] == rest;
  }

  lemma SplitVersionOf(name: string, version: nat)
    ensures SplitVersion(name + NotFoundSuffix + NatToString(version)) == Some((name, version))
  {
    var v := NatToString(version);
    var rest := name + NotFoundSuffix + v;
    TrailingDigitsOfAppend(name + NotFoundSuffix, v);
    var head := rest[..|rest| - |v|];
    assert head == name + NotFoundSuffix;
    assert head[|head| - |NotFoundSuffix|..] == NotFoundSuffix;
    assert head[..|head| - |NotFoundSuffix|] == name;
    assert rest[|rest| - |v|..] == v;
    ParseNatToString(version);
  }

  /** The message determines the API name (when it has no dot), the
      function name and the version. */
  lemma MethodNotFoundMessageInjective(api1: string, name1: string, v1: nat, api2: string, name2: string, v2: nat)
    requires '.' !in api1 && '.' !in api2
    requires MethodNotFoundMessage(api1, name1, v1) == MethodNotFoundMessage(api2, name2, v2)
    ensures api1 == api2 && name1 == name2 && v1 == v2
  {
    assert ParseMethodNotFoundMessage(MethodNotFoundMessage(api1, name1, v1)) == Some((api1, name1, v1));
  }
}
