/**
  The entry controller: stores the command-line variables in the engine,
  picks headless or windowed execution from the display mode, and drives
  the view model accordingly.
*/
module CustomBootstrapper {
  import opened Wrappers
  import opened Bootstrapper
  import opened CommandLine
  import opened Orchestration
  import opened ViewModel

  datatype RunMode = HeadlessMode | WindowedMode

  datatype LaunchError = ArgumentOutOfRange

  /** The display dispatch: no window for Embedded and None, a window for Unknown, Passive and Full, a fatal error otherwise. */
  function SelectMode(display: Display): (r: Result<RunMode, LaunchError>)
    ensures r == Ok(HeadlessMode) <==> display == Display.Embedded || display == Display.None
    ensures r == Ok(WindowedMode) <==> display == Display.Unknown || display == Display.Passive || display == Display.Full
    ensures r == Err(ArgumentOutOfRange) <==> display.OutOfRange?
  {
    match display
    case Embedded => Ok(HeadlessMode)
    case None => Ok(HeadlessMode)
    case Unknown => Ok(WindowedMode)
    case Passive => Ok(WindowedMode)
    case Full => Ok(WindowedMode)
    case OutOfRange(_) => Err(ArgumentOutOfRange)
  }

  /** The launch command: requested action, display mode and the raw arguments. */
  datatype Command = Command(action: LaunchAction, display: Display, args: seq<string>)

  /** How `Run` ends: rejected display mode, a headless run that exited or waits forever, an open window, or an exception escaping before the window opened. */
  datatype RunOutcome =
    | DisplayRejected
    | HeadlessExited(exitCode: int)
    | HeadlessWaiting
    | WindowOpen
    | LaunchFailed(exception: Exception)

  /** The log entries `Run` writes before any view model exists. */
  function LaunchLog(args: seq<string>): seq<LogEntry>
  {
    [LogEntry(LogLevel.Verbose, Launching(args))] + RejectionLog(args)
  }

  class CustomBA {
    const engine: Engine
    const command: Command
    var viewModel: MainViewModel?
    var windowShown: bool

    constructor (engine: Engine, command: Command)
      ensures this.engine == engine && this.command == command
      ensures viewModel == null && !windowShown
    {
      this.engine := engine;
      this.command := command;
      viewModel := null;
      windowShown := false;
    }

    /** Stores every `name=value` argument in the engine, in order; reports each other argument once. */
    method SetCommandLineVariables(args: seq<string>)
      modifies engine`variables, engine`log
      ensures engine.variables == StoreAll(old(engine.variables), args)
      ensures engine.log == old(engine.log) + RejectionLog(args)
    {
      for i := 0 to |args|
        invariant engine.variables == StoreAll(old(engine.variables), args[..i])
        invariant engine.log == old(engine.log) + RejectionLog(args[..i])
      {
        var arg := args[i];
        var splits := Split(arg, Separator);
        if |splits| > 1 {
          var varname := splits[0];
          var value := Join(splits[1..], Separator);
          engine.SetStringVariable(varname, value);
        } else {
          engine.Log(LogLevel.Error, IgnoringArgument(arg));
        }
        assert args[..i + 1][..i] == args[..i];
      }
      assert args[..|args|] == args;
    }

    /**
      The headless sequence: a view model with auto-apply off, then detect,
      plan(action) and apply, each awaited through its bridge; an exception
      from an engine call is recorded and exit is still requested.
    */
    method RunHeadless(script: Script)
      modifies this`viewModel, engine`calls, engine`log
      ensures viewModel != null && fresh(viewModel)
      ensures viewModel.engine == engine && !viewModel.applyAutomatically
      ensures var r := Headless(command.action, engine.packageCount, engine.faulty, script);
        && engine.calls == old(engine.calls) + r.calls
        && engine.log == old(engine.log) + r.log
        && viewModel.State() == r.state
        && viewModel.shutdownRequested == r.exitRequested
    {
      var vm := new MainViewModel(engine, false);
      viewModel := vm;
      var ok := vm.DetectAsync();
      if !ok {
        vm.SetError(EngineCallFailed(DetectPhase));
        vm.ExitExecute();
        return;
      }
      vm.RaiseDetectPackageCompletes(script.detectEvents);
      CollectorCompletesOnce(engine.packageCount, script.detectEvents);
      if vm.detectBridge.result.None? {
        // the detection await never completes
        return;
      }
      ghost var detected := AfterDetectAll(Begin(Initial), script.detectEvents);
      assert vm.State() == detected;
      ghost var calls := engine.calls;
      ghost var log := engine.log;
      RunHeadlessPlan(vm, script);
      ghost var r := HeadlessPlan(command.action, engine.faulty, script, detected);
      assert engine.calls == calls + r.calls && engine.log == log + r.log;
      assert Headless(command.action, engine.packageCount, engine.faulty, script)
        == r.(calls := [EngineCall.Detect] + r.calls);
    }

    /** The headless sequence once the detection await has completed: plan(action), await, then apply. */
    method RunHeadlessPlan(vm: MainViewModel, script: Script)
      requires vm.engine == engine && !vm.applyAutomatically && !vm.shutdownRequested
      modifies vm, engine`calls, engine`log
      ensures var r := HeadlessPlan(command.action, engine.faulty, script, old(vm.State()));
        && engine.calls == old(engine.calls) + r.calls
        && engine.log == old(engine.log) + r.log
        && vm.State() == r.state
        && vm.shutdownRequested == r.exitRequested
    {
      var ok := vm.PlanAsync(command.action);
      if !ok {
        vm.SetError(EngineCallFailed(PlanPhase));
        vm.ExitExecute();
        return;
      }
      if script.planEvent.Some? {
        vm.RaisePlanComplete(script.planEvent.value);
      }
      if vm.planBridge.result.None? {
        // the plan await never completes
        return;
      }
      RunHeadlessApply(vm, script);
    }

    /** The headless sequence once the plan await has completed: apply, await, then request exit. */
    method RunHeadlessApply(vm: MainViewModel, script: Script)
      requires vm.engine == engine && !vm.shutdownRequested
      modifies vm, engine`calls, engine`log
      ensures var r := HeadlessApply(engine.faulty, script, old(vm.State()));
        && engine.calls == old(engine.calls) + r.calls
        && engine.log == old(engine.log) + r.log
        && vm.State() == r.state
        && vm.shutdownRequested == r.exitRequested
    {
      var ok := vm.ApplyAsync();
      if !ok {
        vm.SetError(EngineCallFailed(ApplyPhase));
        vm.ExitExecute();
        return;
      }
      if script.applyEvent.Some? {
        vm.RaiseApplyComplete(script.applyEvent.value);
      }
      if vm.applyBridge.result.None? {
        // the apply await never completes
        return;
      }
      vm.ExitExecute();
    }

    /** The windowed start: a view model with auto-apply on, detection begun, then the window shown. */
    method RunWithUi() returns (ok: bool)
      modifies this`viewModel, this`windowShown, engine`calls
      ensures viewModel != null && fresh(viewModel)
      ensures viewModel.engine == engine && viewModel.applyAutomatically
      ensures viewModel.State() == Begin(Initial) && !viewModel.shutdownRequested
      ensures engine.calls == old(engine.calls) + [EngineCall.Detect]
      ensures ok <==> DetectPhase !in engine.faulty
      ensures windowShown == (ok || old(windowShown))
    {
      var vm := new MainViewModel(engine, true);
      viewModel := vm;
      ok := vm.DetectExecute();
      if ok {
        windowShown := true;
      }
    }

    /**
      The launch: log, store the variables, then dispatch on the display mode.
      A headless run that requests exit quits the engine with the view model's
      exit code; a windowed run returns with the window open.
    */
    method Run(script: Script) returns (outcome: RunOutcome)
      modifies this`viewModel, this`windowShown, engine`variables, engine`log, engine`calls
      ensures engine.variables == StoreAll(old(engine.variables), command.args)
      ensures SelectMode(command.display).Err? ==>
        && outcome == DisplayRejected
        && engine.calls == old(engine.calls)
        && engine.log == old(engine.log) + LaunchLog(command.args)
        && viewModel == old(viewModel)
      ensures SelectMode(command.display) == Ok(HeadlessMode) ==>
        var r := Headless(command.action, engine.packageCount, engine.faulty, script);
        && viewModel != null && fresh(viewModel) && !viewModel.applyAutomatically
        && viewModel.State() == r.state
        && engine.log == old(engine.log) + LaunchLog(command.args) + r.log
        && engine.calls == old(engine.calls) + r.calls + (if r.exitRequested then [EngineCall.Quit(r.state.exitCode)] else [])
        && outcome == (if r.exitRequested then HeadlessExited(r.state.exitCode) else HeadlessWaiting)
      ensures SelectMode(command.display) == Ok(WindowedMode) ==>
        && viewModel != null && fresh(viewModel) && viewModel.applyAutomatically
        && viewModel.State() == Begin(Initial)
        && engine.log == old(engine.log) + LaunchLog(command.args)
        && engine.calls == old(engine.calls) + [EngineCall.Detect]
        && outcome == (if DetectPhase in engine.faulty then LaunchFailed(EngineCallFailed(DetectPhase)) else WindowOpen)
        && (outcome == WindowOpen ==> windowShown)
    {
      engine.Log(LogLevel.Verbose, Launching(command.args));
      SetCommandLineVariables(command.args);
      assert engine.log == old(engine.log) + LaunchLog(command.args);
      var mode := SelectMode(command.display);
      if mode.Err? {
        outcome := DisplayRejected;
      } else if mode.value == HeadlessMode {
        ghost var r := Headless(command.action, engine.packageCount, engine.faulty, script);
        ghost var launched := engine.log;
        RunHeadless(script);
        assert engine.log == launched + r.log;
        if viewModel.shutdownRequested {
          engine.Quit(viewModel.exitCode);
          outcome := HeadlessExited(viewModel.exitCode);
        } else {
          outcome := HeadlessWaiting;
        }
      } else {
        var ok := RunWithUi();
        outcome := if ok then WindowOpen else LaunchFailed(EngineCallFailed(DetectPhase));
      }
    }

    /** The window closed: the event loop stops and the engine quits with the view model's exit code. */
    method CloseWindow()
      requires viewModel != null
      modifies this`windowShown, engine`calls
      ensures !windowShown
      ensures engine.calls == old(engine.calls) + [EngineCall.Quit(viewModel.exitCode)]
    {
      windowShown := false;
      engine.Quit(viewModel.exitCode);
    }
  }
}
