/**
  The boundary to the host-provided bootstrapper engine: the enumerations and
  event payloads it hands to the user-experience layer, and the engine itself
  as an opaque collaborator whose observable state is its string-variable
  store, its log and the ordered trace of calls issued to it.
*/
module Bootstrapper {

  /** The requested top-level operation. */
  datatype LaunchAction =
    | Unknown | Help | Layout | Uninstall | Install | Modify | Repair
    | UpdateReplace | UpdateReplaceEmbedded

  /** The requested display mode. `OutOfRange` stands for any value outside the enumeration. */
  datatype Display = Unknown | Embedded | None | Passive | Full | OutOfRange(code: int)

  /** Detected state of one package. */
  datatype PackageState = Unknown | Obsolete | Absent | Cached | Present | Superseded

  datatype LogLevel = None | Standard | Verbose | Debug | Error

  /** Payloads of the three completion notifications. */
  datatype DetectPackageCompleteEvent = DetectPackageCompleteEvent(packageId: string, status: int, state: PackageState)
  datatype PlanCompleteEvent = PlanCompleteEvent(status: int)
  datatype ApplyCompleteEvent = ApplyCompleteEvent(status: int)

  /** The three engine phases. */
  datatype Phase = DetectPhase | PlanPhase | ApplyPhase

  /** A call issued to the engine. */
  datatype EngineCall = Detect | Plan(action: LaunchAction) | Apply | Quit(exitCode: int)

  /** An exception thrown by an engine call. */
  datatype Exception = EngineCallFailed(phase: Phase)

  /** What a log entry reports; the exact wording of each message is not modelled. */
  datatype Message =
    | Launching(args: seq<string>)
    | IgnoringArgument(arg: string)
    | ExceptionText(exception: Exception)

  datatype LogEntry = LogEntry(level: LogLevel, message: Message)

  /**
    The engine as seen from the user-experience layer. `faulty` names the
    phases whose engine call throws; the call is still recorded as issued.
  */
  class Engine {
    var variables: map<string, string>
    var log: seq<LogEntry>
    var calls: seq<EngineCall>
    const packageCount: nat
    const faulty: set<Phase>

    constructor (packageCount: nat, faulty: set<Phase>, variables: map<string, string>)
      ensures this.packageCount == packageCount && this.faulty == faulty
      ensures this.variables == variables && log == [] && calls == []
    {
      this.packageCount := packageCount;
      this.faulty := faulty;
      this.variables := variables;
      log := [];
      calls := [];
    }

    method Log(level: LogLevel, message: Message)
      modifies this`log
      ensures log == old(log) + [LogEntry(level, message)]
    {
      log := log + [LogEntry(level, message)];
    }

    /** `Engine.StringVariables[name] = value`: insert or overwrite. */
    method SetStringVariable(name: string, value: string)
      modifies this`variables
      ensures variables == old(variables)[name := value]
    {
      variables := variables[name := value];
    }

    method Detect() returns (ok: bool)
      modifies this`calls
      ensures calls == old(calls) + [EngineCall.Detect]
      ensures ok <==> DetectPhase !in faulty
    {
      calls := calls + [EngineCall.Detect];
      ok := DetectPhase !in faulty;
    }

    method Plan(action: LaunchAction) returns (ok: bool)
      modifies this`calls
      ensures calls == old(calls) + [EngineCall.Plan(action)]
      ensures ok <==> PlanPhase !in faulty
    {
      calls := calls + [EngineCall.Plan(action)];
      ok := PlanPhase !in faulty;
    }

    method Apply() returns (ok: bool)
      modifies this`calls
      ensures calls == old(calls) + [EngineCall.Apply]
      ensures ok <==> ApplyPhase !in faulty
    {
      calls := calls + [EngineCall.Apply];
      ok := ApplyPhase !in faulty;
    }

    method Quit(exitCode: int)
      modifies this`calls
      ensures calls == old(calls) + [EngineCall.Quit(exitCode)]
    {
      calls := calls + [EngineCall.Quit(exitCode)];
    }
  }
}
