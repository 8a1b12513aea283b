/** The diagnostics side of the library (src/diagnostics_manager.js): the
    handle of a started routine, the managers whose run methods start
    routines behind the shared capability gate, and the top-level manager. */
module DiagnosticsManager {
  import opened Wrappers
  import opened Host
  import opened Utils

  /** The API name the diagnostics errors carry. */
  const DiagnosticsApiName: string := "diagnostics"

  /** The call a routine makes for `command`:
      `chrome.os.diagnostics.getRoutineUpdate({id, command})`. */
  function UpdateCall(id: Json, command: Command): (c: Call)
    ensures c.api == DiagnosticsApi && c.name == "getRoutineUpdate"
    ensures c.args.Update? && c.args.request.id == id && c.args.request.command == CommandName(command)
  {
    Call(DiagnosticsApi, "getRoutineUpdate", Update(RoutineRequest(id, CommandName(command))))
  }

  /** Two update calls are the same only for the same routine and command. */
  lemma UpdateCallInjective(id1: Json, c1: Command, id2: Json, c2: Command)
    requires UpdateCall(id1, c1) == UpdateCall(id2, c2)
    ensures id1 == id2 && c1 == c2
  {
    CommandNamesDistinct(c1, c2);
  }

  /** The handle of a started routine. Its id is fixed when it is made. */
  class Routine {
    const id: Json
    const backend: Backend

    constructor (b: Backend, routineId: Json)
      ensures id == routineId && backend == b
    {
      id, backend := routineId, b;
    }

    /** _getRoutineUpdate: sends `{id, command}` and returns the host's
        answer as it is. There is no gate: without the host function the
        call fails with a TypeError. */
    method GetRoutineUpdate(command: Command) returns (r: Result<Json, JsError>)
      modifies backend
      ensures Callable(backend.chrome, DiagnosticsApi, "getRoutineUpdate") ==>
                backend.log == old(backend.log) + [UpdateCall(id, command)] &&
                r == backend.Outcome(old(backend.log), UpdateCall(id, command))
      ensures !Callable(backend.chrome, DiagnosticsApi, "getRoutineUpdate") ==>
                backend.log == old(backend.log) && r == Failure(TypeError)
    {
      var request := RoutineRequest(id, CommandName(command));
      r := backend.Invoke(DiagnosticsApi, "getRoutineUpdate", Update(request));
    }

    /** getStatus: one `status` request; the status record comes back as
        the host gave it, without a status code added. */
    method GetStatus() returns (r: Result<Json, JsError>)
      modifies backend
      ensures Callable(backend.chrome, DiagnosticsApi, "getRoutineUpdate") ==>
                backend.log == old(backend.log) + [UpdateCall(id, Command.GetStatus)] &&
                r == backend.Outcome(old(backend.log), UpdateCall(id, Command.GetStatus))
      ensures !Callable(backend.chrome, DiagnosticsApi, "getRoutineUpdate") ==>
                backend.log == old(backend.log) && r == Failure(TypeError)
    {
      r := GetRoutineUpdate(Command.GetStatus);
    }

    /** resume: one `resume` request. */
    method Resume() returns (r: Result<Json, JsError>)
      modifies backend
      ensures Callable(backend.chrome, DiagnosticsApi, "getRoutineUpdate") ==>
                backend.log == old(backend.log) + [UpdateCall(id, Command.Resume)] &&
                r == backend.Outcome(old(backend.log), UpdateCall(id, Command.Resume))
      ensures !Callable(backend.chrome, DiagnosticsApi, "getRoutineUpdate") ==>
                backend.log == old(backend.log) && r == Failure(TypeError)
    {
      r := GetRoutineUpdate(Command.Resume);
    }

    /** stop: a `cancel` request whose answer is dropped, then a `remove`
        request whose answer is returned. */
    method Stop() returns (r: Result<Json, JsError>)
      modifies backend
      ensures Callable(backend.chrome, DiagnosticsApi, "getRoutineUpdate") ==>
                backend.log == old(backend.log) + [UpdateCall(id, Cancel), UpdateCall(id, Remove)] &&
                r == backend.Outcome(old(backend.log) + [UpdateCall(id, Cancel)], UpdateCall(id, Remove))
      ensures !Callable(backend.chrome, DiagnosticsApi, "getRoutineUpdate") ==>
                backend.log == old(backend.log) && r == Failure(TypeError)
    {
      var _ := GetRoutineUpdate(Cancel);
      r := GetRoutineUpdate(Remove);
    }
  }

  /** The outcome of a run method with the routine replaced by its id. */
  function IdOutcome(r: Result<Routine, JsError>): Result<Json, JsError> {
    match r
    case Success(routine) => Success(routine.id)
    case Failure(e) => Failure(e)
  }

  /** The id a run answer carries: `response.id`, which raises a TypeError
      when the answer is null or undefined. */
  function ResponseId(answer: Result<Json, JsError>): (r: Result<Json, JsError>)
    ensures answer.Failure? ==> r == answer
    ensures r.Success? ==> answer.Success? && (r.value != JUndefined ==> answer.value.JObj?)
    ensures answer.Success? ==> (r.Failure? <==> answer.value == JNull || answer.value == JUndefined)
    ensures answer.Success? && r.Failure? ==> r.error == TypeError
  {
    match answer
    case Success(response) =>
      if response == JNull || response == JUndefined then Failure(TypeError) else Success(Field(response, "id"))
    case Failure(e) => Failure(e)
  }

  /** What a run method for host function `name` (first shipped in Chrome
      milestone `version`) does after the calls in `history`, leaving the
      calls in `log` and returning `r`:
      - not supported by the shared gate: no call, and a MethodNotFoundError;
      - supported, but not a diagnostics function (it is a telemetry one):
        no call, and the TypeError of calling undefined;
      - otherwise one call with `args`, and a routine holding the id of the
        answer, or the answer's rejection (or a TypeError for an answer
        without properties). */
  ghost predicate RunBehaviour(b: Backend, name: string, version: nat, args: Args,
                               history: seq<Call>, log: seq<Call>, r: Result<Routine, JsError>)
  {
    if !IsSupported(b.chrome, name) then
      log == history && r == Failure(MethodNotFoundError(DiagnosticsApiName, name, version))
    else if !Callable(b.chrome, DiagnosticsApi, name) then
      log == history && r == Failure(TypeError)
    else
      log == history + [Call(DiagnosticsApi, name, args)] &&
      IdOutcome(r) == ResponseId(b.Outcome(history, Call(DiagnosticsApi, name, args))) &&
      (r.Success? ==> r.value.backend == b)
  }

  /** The gate-then-wrap every run method performs. */
  method RunRoutine(backend: Backend, name: string, version: nat, args: Args) returns (r: Result<Routine, JsError>)
    modifies backend
    ensures RunBehaviour(backend, name, version, args, old(backend.log), backend.log, r)
    ensures r.Success? ==> fresh(r.value)
  {
    if !IsSupported(backend.chrome, name) {
      return Failure(MethodNotFoundError(DiagnosticsApiName, name, version));
    }
    var answer := backend.Invoke(DiagnosticsApi, name, args);
    match answer
    case Success(response) =>
      if response == JNull || response == JUndefined {
        return Failure(TypeError);
      }
      var routine := new Routine(backend, Field(response, "id"));
      r := Success(routine);
    case Failure(e) =>
      r := Failure(e);
  }

  /** The gate's error names the diagnostics API, the host function and the
      version, and they can be read back from its message. */
  lemma GateErrorNamesFunction(name: string, version: nat)
    ensures MethodNotFoundError(DiagnosticsApiName, name, version).name == "DPSL_MethodNotFoundError"
    ensures ParseMethodNotFoundMessage(MethodNotFoundError(DiagnosticsApiName, name, version).message)
            == Some(("diagnostics", name, version))
  {
  }

  /** A run for a name the diagnostics namespace lacks as a function makes
      no call, and fails with the gate's error or with a TypeError, never
      with an answer of the host. */
  lemma UnsupportedRunMakesNoCall(b: Backend, name: string, version: nat, args: Args,
                                  history: seq<Call>, log: seq<Call>, r: Result<Routine, JsError>)
    requires RunBehaviour(b, name, version, args, history, log, r)
    requires !Callable(b.chrome, DiagnosticsApi, name)
    ensures log == history && r.Failure? && !r.error.Rejection?
    ensures r.error == MethodNotFoundError(DiagnosticsApiName, name, version) <==> !IsSupported(b.chrome, name)
  {
  }

  /** The manager behind dpsl.diagnostics.power.*. */
  class AcPowerManager {
    const backend: Backend

    constructor (b: Backend)
      ensures backend == b
    {
      backend := b;
    }

    method RunAcPowerRoutine(params: Json) returns (r: Result<Routine, JsError>)
      modifies backend
      ensures RunBehaviour(backend, "runAcPowerRoutine", 105, Params(params), old(backend.log), backend.log, r)
      ensures r.Success? ==> fresh(r.value)
    {
      r := RunRoutine(backend, "runAcPowerRoutine", 105, Params(params));
    }
  }

  /** The manager behind dpsl.diagnostics.battery.*. */
  class BatteryManager {
    const backend: Backend

    constructor (b: Backend)
      ensures backend == b
    {
      backend := b;
    }

    method RunCapacityRoutine() returns (r: Result<Routine, JsError>)
      modifies backend
      ensures RunBehaviour(backend, "runBatteryCapacityRoutine", 96, NoArgs, old(backend.log), backend.log, r)
      ensures r.Success? ==> fresh(r.value)
    {
      r := RunRoutine(backend, "runBatteryCapacityRoutine", 96, NoArgs);
    }

    method RunHealthRoutine() returns (r: Result<Routine, JsError>)
      modifies backend
      ensures RunBehaviour(backend, "runBatteryHealthRoutine", 96, NoArgs, old(backend.log), backend.log, r)
      ensures r.Success? ==> fresh(r.value)
    {
      r := RunRoutine(backend, "runBatteryHealthRoutine", 96, NoArgs);
    }

    method RunDischargeRoutine(params: Json) returns (r: Result<Routine, JsError>)
      modifies backend
      ensures RunBehaviour(backend, "runBatteryDischargeRoutine", 96, Params(params), old(backend.log), backend.log, r)
      ensures r.Success? ==> fresh(r.value)
    {
      r := RunRoutine(backend, "runBatteryDischargeRoutine", 96, Params(params));
    }

    method RunChargeRoutine(params: Json) returns (r: Result<Routine, JsError>)
      modifies backend
      ensures RunBehaviour(backend, "runBatteryChargeRoutine", 96, Params(params), old(backend.log), backend.log, r)
      ensures r.Success? ==> fresh(r.value)
    {
      r := RunRoutine(backend, "runBatteryChargeRoutine", 96, Params(params));
    }
  }

  /** The manager behind dpsl.diagnostics.cpu.*. */
  class CpuManager {
    const backend: Backend

    constructor (b: Backend)
      ensures backend == b
    {
      backend := b;
    }

    method RunCacheRoutine(params: Json) returns (r: Result<Routine, JsError>)
      modifies backend
      ensures RunBehaviour(backend, "runCpuCacheRoutine", 96, Params(params), old(backend.log), backend.log, r)
      ensures r.Success? ==> fresh(r.value)
    {
      r := RunRoutine(backend, "runCpuCacheRoutine", 96, Params(params));
    }

    method RunStressRoutine(params: Json) returns (r: Result<Routine, JsError>)
      modifies backend
      ensures RunBehaviour(backend, "runCpuStressRoutine", 96, Params(params), old(backend.log), backend.log, r)
      ensures r.Success? ==> fresh(r.value)
    {
      r := RunRoutine(backend, "runCpuStressRoutine", 96, Params(params));
    }

    method RunFloatingPointAccuracyRoutine(params: Json) returns (r: Result<Routine, JsError>)
      modifies backend
      ensures RunBehaviour(backend, "runCpuFloatingPointAccuracyRoutine", 99, Params(params), old(backend.log), backend.log, r)
      ensures r.Success? ==> fresh(r.value)
    {
      r := RunRoutine(backend, "runCpuFloatingPointAccuracyRoutine", 99, Params(params));
    }

    method RunPrimeSearchRoutine(params: Json) returns (r: Result<Routine, JsError>)
      modifies backend
      ensures RunBehaviour(backend, "runCpuPrimeSearchRoutine", 99, Params(params), old(backend.log), backend.log, r)
      ensures r.Success? ==> fresh(r.value)
    {
      r := RunRoutine(backend, "runCpuPrimeSearchRoutine", 99, Params(params));
    }
  }

  /** The manager behind dpsl.diagnostics.memory.*. */
  class MemoryManager {
    const backend: Backend

    constructor (b: Backend)
      ensures backend == b
    {
      backend := b;
    }

    method RunMemoryRoutine() returns (r: Result<Routine, JsError>)
      modifies backend
      ensures RunBehaviour(backend, "runMemoryRoutine", 96, NoArgs, old(backend.log), backend.log, r)
      ensures r.Success? ==> fresh(r.value)
    {
      r := RunRoutine(backend, "runMemoryRoutine", 96, NoArgs);
    }
  }

  /** The manager behind dpsl.diagnostics.disk.*. */
  class DiskManager {
    const backend: Backend

    constructor (b: Backend)
      ensures backend == b
    {
      backend := b;
    }

    method RunReadRoutine(params: Json) returns (r: Result<Routine, JsError>)
      modifies backend
      ensures RunBehaviour(backend, "runDiskReadRoutine", 101, Params(params), old(backend.log), backend.log, r)
      ensures r.Success? ==> fresh(r.value)
    {
      r := RunRoutine(backend, "runDiskReadRoutine", 101, Params(params));
    }
  }

  /** The manager behind dpsl.diagnostics.nvme.*. */
  class NvmeManager {
    const backend: Backend

    constructor (b: Backend)
      ensures backend == b
    {
      backend := b;
    }

    method RunSmartctlCheckRoutine() returns (r: Result<Routine, JsError>)
      modifies backend
      ensures RunBehaviour(backend, "runSmartctlCheckRoutine", 100, NoArgs, old(backend.log), backend.log, r)
      ensures r.Success? ==> fresh(r.value)
    {
      r := RunRoutine(backend, "runSmartctlCheckRoutine", 100, NoArgs);
    }

    method RunWearLevelRoutine(params: Json) returns (r: Result<Routine, JsError>)
      modifies backend
      ensures RunBehaviour(backend, "runNvmeWearLevelRoutine", 100, Params(params), old(backend.log), backend.log, r)
      ensures r.Success? ==> fresh(r.value)
    {
      r := RunRoutine(backend, "runNvmeWearLevelRoutine", 100, Params(params));
    }
  }

  /** The manager behind dpsl.diagnostics.network.*. */
  class NetworkManager {
    const backend: Backend

    constructor (b: Backend)
      ensures backend == b
    {
      backend := b;
    }

    method RunLanConnectivityRoutine() returns (r: Result<Routine, JsError>)
      modifies backend
      ensures RunBehaviour(backend, "runLanConnectivityRoutine", 102, NoArgs, old(backend.log), backend.log, r)
      ensures r.Success? ==> fresh(r.value)
    {
      r := RunRoutine(backend, "runLanConnectivityRoutine", 102, NoArgs);
    }

    method RunSignalStrengthRoutine() returns (r: Result<Routine, JsError>)
      modifies backend
      ensures RunBehaviour(backend, "runSignalStrengthRoutine", 108, NoArgs, old(backend.log), backend.log, r)
      ensures r.Success? ==> fresh(r.value)
    {
      r := RunRoutine(backend, "runSignalStrengthRoutine", 108, NoArgs);
    }
  }

  /** DPSLDiagnosticsManager: the managers, one per group of routines, and
      the list of routines the device offers. */
  class DPSLDiagnosticsManager {
    const backend: Backend
    const power: AcPowerManager
    const battery: BatteryManager
    const cpu: CpuManager
    const memory: MemoryManager
    const disk: DiskManager
    const nvme: NvmeManager
    const network: NetworkManager

    constructor (b: Backend)
      ensures backend == b
      ensures power.backend == b && battery.backend == b && cpu.backend == b && memory.backend == b
      ensures disk.backend == b && nvme.backend == b && network.backend == b
    {
      backend := b;
      power := new AcPowerManager(b);
      battery := new BatteryManager(b);
      cpu := new CpuManager(b);
      memory := new MemoryManager(b);
      disk := new DiskManager(b);
      nvme := new NvmeManager(b);
      network := new NetworkManager(b);
    }

    /** getAvailableRoutines: behind the shared gate (Chrome 96), the host's
        list as it is, order included. */
    method GetAvailableRoutines() returns (r: Result<Json, JsError>)
      modifies backend
      ensures !IsSupported(backend.chrome, "getAvailableRoutines") ==>
                backend.log == old(backend.log) &&
                r == Failure(MethodNotFoundError(DiagnosticsApiName, "getAvailableRoutines", 96))
      ensures IsSupported(backend.chrome, "getAvailableRoutines") ==>
                if Callable(backend.chrome, DiagnosticsApi, "getAvailableRoutines") then
                  backend.log == old(backend.log) + [Call(DiagnosticsApi, "getAvailableRoutines", NoArgs)] &&
                  r == backend.Outcome(old(backend.log), Call(DiagnosticsApi, "getAvailableRoutines", NoArgs))
                else
                  backend.log == old(backend.log) && r == Failure(TypeError)
    {
      if !IsSupported(backend.chrome, "getAvailableRoutines") {
        return Failure(MethodNotFoundError(DiagnosticsApiName, "getAvailableRoutines", 96));
      }
      r := backend.Invoke(DiagnosticsApi, "getAvailableRoutines", NoArgs);
    }
  }
}
