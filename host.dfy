/** The host the library runs in: the `chrome` global with its two
    extension namespaces, and the backend that answers calls made into
    them. The library never changes which members exist; it only calls
    them, so a call is modelled as an entry appended to the backend's log
    and the answer as a function of the calls made so far. */
module Host {
  import opened Wrappers

  /** What a namespace holds under a name: a function, or any other value
      (a number, an object, ...). */
  datatype Member = Function | NonFunction

  /** The own members of `chrome.os.telemetry` or `chrome.os.diagnostics`. */
  type Namespace = map<string, Member>

  /** `chrome.os`; an absent namespace is `None`. */
  datatype Os = Os(telemetry: Option<Namespace>, diagnostics: Option<Namespace>)

  /** The `chrome` global; an absent `chrome.os` is `None`. */
  datatype Chrome = Chrome(os: Option<Os>)

  datatype Api = TelemetryApi | DiagnosticsApi

  function ApiName(api: Api): (s: string)
    ensures s == "telemetry" || s == "diagnostics"
  {
    match api
    case TelemetryApi => "telemetry"
    case DiagnosticsApi => "diagnostics"
  }

  function NamespaceOf(c: Chrome, api: Api): Option<Namespace> {
    if c.os.None? then None
    else match api
      case TelemetryApi => c.os.value.telemetry
      case DiagnosticsApi => c.os.value.diagnostics
  }

  /** True when `ns` exists and holds a function under `name`. */
  predicate HasFunction(ns: Option<Namespace>, name: string) {
    ns.Some? && name in ns.value && ns.value[name] == Function
  }

  /** True when `chrome.os.<api>.<name>(...)` reaches a function; otherwise
      evaluating the call raises a TypeError. */
  predicate Callable(c: Chrome, api: Api, name: string) {
    HasFunction(NamespaceOf(c, api), name)
  }

  /** A JSON value, as exchanged with the backend. `JUndefined` is the value
      of a missing property. */
  datatype Json =
    | JUndefined
    | JNull
    | JBool(b: bool)
    | JNum(n: int)
    | JStr(s: string)
    | JArr(items: seq<Json>)
    | JObj(fields: seq<(string, Json)>)

  /** `v[key]`: the value of the last field named `key` of an object (the
      one a JSON parser keeps), else undefined. */
  function Field(v: Json, key: string): (r: Json)
    ensures r != JUndefined ==> v.JObj? && exists i :: 0 <= i < |v.fields| && v.fields[i] == (key, r)
  {
    if v.JObj? then LastValue(v.fields, key) else JUndefined
  }

  function LastValue(fields: seq<(string, Json)>, key: string): (r: Json)
    ensures r != JUndefined ==> exists i :: 0 <= i < |fields| && fields[i] == (key, r)
  {
    if fields == [] then JUndefined
    else if fields[|fields| - 1].0 == key then fields[|fields| - 1].1
    else LastValue(fields[..|fields| - 1], key)
  }

  /** The routine commands of chrome.os.diagnostics.getRoutineUpdate. */
  datatype Command = Cancel | Remove | Resume | GetStatus

  /** The string each command is sent as. */
  function CommandName(c: Command): (s: string)
    ensures c.Cancel? ==> s == "cancel"
    ensures c.Remove? ==> s == "remove"
    ensures c.Resume? ==> s == "resume"
    ensures c.GetStatus? ==> s == "status"
  {
    match c
    case Cancel => "cancel"
    case Remove => "remove"
    case Resume => "resume"
    case GetStatus => "status"
  }

  /** The request object `{id, command}` a routine sends. */
  datatype RoutineRequest = RoutineRequest(id: Json, command: string)

  /** The arguments of a call: none, a parameter object passed on as it is,
      or a routine request. */
  datatype Args = NoArgs | Params(params: Json) | Update(request: RoutineRequest)

  /** One call made into the host. */
  datatype Call = Call(api: Api, name: string, args: Args)

  /** What an awaited call ends in, as the library's caller sees it. */
  datatype JsError =
    | ErrorObject(name: string, message: string)  // an Error the library throws
    | TypeError                                    // a call of what is not a function
    | Rejection(reason: Json)                      // a rejection passed on from the host

  /** The host: which members exist, every call made so far, and the answer
      it gives to a call after a given history of calls (resolving with a
      value or rejecting with a reason). */
  class Backend {
    const chrome: Chrome
    const respond: (seq<Call>, Call) -> Result<Json, Json>
    var log: seq<Call>

    constructor (c: Chrome, answer: (seq<Call>, Call) -> Result<Json, Json>)
      ensures chrome == c && respond == answer && log == []
    {
      chrome, respond, log := c, answer, [];
    }

    /** The outcome of a call made after the calls in `history`. */
    function Outcome(history: seq<Call>, call: Call): (r: Result<Json, JsError>)
      ensures r.Failure? ==> r.error.Rejection?
    {
      match respond(history, call)
      case Success(v) => Success(v)
      case Failure(reason) => Failure(Rejection(reason))
    }

    /** `chrome.os.<api>.<name>(args)`: a TypeError when that is not a
      function, in which case nothing is called; otherwise the call is
      made and its answer returned. */
    method Invoke(api: Api, name: string, args: Args) returns (r: Result<Json, JsError>)
      modifies this
      ensures Callable(chrome, api, name) ==>
                log == old(log) + [Call(api, name, args)] && r == Outcome(old(log), Call(api, name, args))
      ensures !Callable(chrome, api, name) ==> log == old(log) && r == Failure(TypeError)
    {
      if !Callable(chrome, api, name) {
        return Failure(TypeError);
      }
      r := Outcome(log, Call(api, name, args));
      log := log + [Call(api, name, args)];
    }
  }

  /** The wire names of the commands are pairwise distinct. */
  lemma CommandNamesDistinct(c1: Command, c2: Command)
    requires CommandName(c1) == CommandName(c2)
    ensures c1 == c2
  {
  }
}
