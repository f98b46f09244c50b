/**
  The view model: four observable fields updated in place by the setters,
  the begin-operations and the three engine-completion handlers, plus the
  one-shot bridges that turn completion notifications into single results.
  Every method is proved against the transition functions of `Orchestration`.
*/
module ViewModel {
  import opened Wrappers
  import opened Bootstrapper
  import opened Orchestration

  /** An observable property; each setter reports its property after the new value is stored. */
  datatype Property = InstallEnabled | UninstallEnabled | IsThinking

  /** The property reported by the per-package handler for one detection result. */
  function DetectNotification(state: PackageState): seq<Property>
  {
    if state == PackageState.Absent then [InstallEnabled]
    else if state == PackageState.Present then [UninstallEnabled] else []
  }

  /** The properties reported for a sequence of detection results, in order. */
  function DetectNotifications(events: seq<DetectPackageCompleteEvent>): seq<Property>
    decreases |events|
  {
    if events == [] then []
    else DetectNotifications(events[..|events| - 1]) + DetectNotification(events[|events| - 1].state)
  }

  class MainViewModel {
    const engine: Engine
    const applyAutomatically: bool

    var installEnabled: bool
    var uninstallEnabled: bool
    var isThinking: bool
    var exitCode: int

    /** Whether `ExitExecute` has asked the event loop to shut down. */
    var shutdownRequested: bool
    /** The property-changed notifications raised so far, in order. */
    var notifications: seq<Property>

    /** The detection collector and the plan and apply result slots of the most recent `*Async` call. */
    var detectBridge: Collector
    var planBridge: Slot<PlanCompleteEvent>
    var applyBridge: Slot<ApplyCompleteEvent>

    function State(): UiState
      reads this
    {
      UiState(installEnabled, uninstallEnabled, isThinking, exitCode)
    }

    /** A fresh view model: idle, nothing enabled, exit code 0, no bridge subscribed. */
    constructor (engine: Engine, applyAutomatically: bool)
      ensures this.engine == engine && this.applyAutomatically == applyAutomatically
      ensures State() == Initial && notifications == [IsThinking] && !shutdownRequested
      ensures detectBridge == Idle && planBridge == Unarmed() && applyBridge == Unarmed()
    {
      this.engine := engine;
      this.applyAutomatically := applyAutomatically;
      isThinking := false;
      notifications := [IsThinking];
      installEnabled, uninstallEnabled, exitCode := false, false, 0;
      shutdownRequested := false;
      detectBridge, planBridge, applyBridge := Idle, Unarmed(), Unarmed();
    }

    method SetInstallEnabled(value: bool)
      modifies this`installEnabled, this`notifications
      ensures installEnabled == value && notifications == old(notifications) + [InstallEnabled]
    {
      installEnabled := value;
      notifications := notifications + [InstallEnabled];
    }

    method SetUninstallEnabled(value: bool)
      modifies this`uninstallEnabled, this`notifications
      ensures uninstallEnabled == value && notifications == old(notifications) + [UninstallEnabled]
    {
      uninstallEnabled := value;
      notifications := notifications + [UninstallEnabled];
    }

    method SetIsThinking(value: bool)
      modifies this`isThinking, this`notifications
      ensures isThinking == value && notifications == old(notifications) + [IsThinking]
    {
      isThinking := value;
      notifications := notifications + [IsThinking];
    }

    /** Marks the view model busy and issues Detect; `ok` is false when the engine call threw. */
    method DetectExecute() returns (ok: bool)
      modifies this`isThinking, this`notifications, engine`calls
      ensures State() == Begin(old(State())) && notifications == old(notifications) + [IsThinking]
      ensures engine.calls == old(engine.calls) + [EngineCall.Detect]
      ensures ok <==> DetectPhase !in engine.faulty
    {
      SetIsThinking(true);
      ok := engine.Detect();
    }

    method PlanExecute(action: LaunchAction) returns (ok: bool)
      modifies this`isThinking, this`notifications, engine`calls
      ensures State() == Begin(old(State())) && notifications == old(notifications) + [IsThinking]
      ensures engine.calls == old(engine.calls) + [EngineCall.Plan(action)]
      ensures ok <==> PlanPhase !in engine.faulty
    {
      SetIsThinking(true);
      ok := engine.Plan(action);
    }

    method ApplyExecute() returns (ok: bool)
      modifies this`isThinking, this`notifications, engine`calls
      ensures State() == Begin(old(State())) && notifications == old(notifications) + [IsThinking]
      ensures engine.calls == old(engine.calls) + [EngineCall.Apply]
      ensures ok <==> ApplyPhase !in engine.faulty
    {
      SetIsThinking(true);
      ok := engine.Apply();
    }

    /** Subscribes a fresh collector for the engine's package count, then begins detection. */
    method DetectAsync() returns (ok: bool)
      modifies this`detectBridge, this`isThinking, this`notifications, engine`calls
      ensures detectBridge == Subscribe(engine.packageCount)
      ensures State() == Begin(old(State())) && notifications == old(notifications) + [IsThinking]
      ensures engine.calls == old(engine.calls) + [EngineCall.Detect]
      ensures ok <==> DetectPhase !in engine.faulty
    {
      detectBridge := Subscribe(engine.packageCount);
      ok := DetectExecute();
    }

    /** Arms the plan slot, then begins planning for `action`. */
    method PlanAsync(action: LaunchAction) returns (ok: bool)
      modifies this`planBridge, this`isThinking, this`notifications, engine`calls
      ensures planBridge == Armed()
      ensures State() == Begin(old(State())) && notifications == old(notifications) + [IsThinking]
      ensures engine.calls == old(engine.calls) + [EngineCall.Plan(action)]
      ensures ok <==> PlanPhase !in engine.faulty
    {
      planBridge := Armed();
      ok := PlanExecute(action);
    }

    /** Arms the apply slot, then begins applying. */
    method ApplyAsync() returns (ok: bool)
      modifies this`applyBridge, this`isThinking, this`notifications, engine`calls
      ensures applyBridge == Armed()
      ensures State() == Begin(old(State())) && notifications == old(notifications) + [IsThinking]
      ensures engine.calls == old(engine.calls) + [EngineCall.Apply]
      ensures ok <==> ApplyPhase !in engine.faulty
    {
      applyBridge := Armed();
      ok := ApplyExecute();
    }

    method ExitExecute()
      modifies this`shutdownRequested
      ensures shutdownRequested
    {
      shutdownRequested := true;
    }

    /** Apply completed: the status becomes the exit code, and the view model is idle with nothing enabled. */
    method OnApplyCompleteUiUpdate(e: ApplyCompleteEvent)
      modifies this`exitCode, this`isThinking, this`installEnabled, this`uninstallEnabled, this`notifications
      ensures State() == AfterApply(old(State()), e.status)
      ensures notifications == old(notifications) + [IsThinking, InstallEnabled, UninstallEnabled]
    {
      exitCode := e.status;
      SetIsThinking(false);
      SetInstallEnabled(false);
      SetUninstallEnabled(false);
    }

    /** One package detected: absent enables install, present enables uninstall, any other state changes nothing. */
    method OnDetectPackageCompleteUiUpdate(e: DetectPackageCompleteEvent)
      modifies this`installEnabled, this`uninstallEnabled, this`notifications
      ensures State() == AfterDetectPackage(old(State()), e.state)
      ensures notifications == old(notifications) +
        (if e.state == PackageState.Absent then [InstallEnabled]
         else if e.state == PackageState.Present then [UninstallEnabled] else [])
    {
      if e.state == PackageState.Absent {
        SetInstallEnabled(true);
      } else if e.state == PackageState.Present {
        SetUninstallEnabled(true);
      }
    }

    /**
      Planning completed: a negative status ends the run with that exit code;
      otherwise, with auto-apply on, Apply is issued. An exception from that
      Apply call is not modelled here.
    */
    method OnPlanCompleteUiUpdate(e: PlanCompleteEvent)
      modifies this`isThinking, this`exitCode, this`notifications, engine`calls
      ensures State() == AfterPlan(old(State()), e.status, applyAutomatically).state
      ensures engine.calls == old(engine.calls) +
        (if AfterPlan(old(State()), e.status, applyAutomatically).applyIssued then [EngineCall.Apply] else [])
      ensures notifications == old(notifications) +
        (if e.status < 0 || applyAutomatically then [IsThinking] else [])
    {
      if e.status >= 0 {
        if applyAutomatically {
          var _ := ApplyExecute();
        }
      } else {
        SetIsThinking(false);
        exitCode := e.status;
      }
    }

    /** The engine raises DetectPackageComplete: the view model's handler runs, then the collector's while it is subscribed. */
    method RaiseDetectPackageComplete(e: DetectPackageCompleteEvent)
      modifies this`installEnabled, this`uninstallEnabled, this`notifications, this`detectBridge
      ensures State() == AfterDetectPackage(old(State()), e.state)
      ensures detectBridge == Feed(old(detectBridge), e)
      ensures notifications == old(notifications) +
        (if e.state == PackageState.Absent then [InstallEnabled]
         else if e.state == PackageState.Present then [UninstallEnabled] else [])
    {
      OnDetectPackageCompleteUiUpdate(e);
      if detectBridge.subscribed {
        var packages := detectBridge.packages + [e];
        if |packages| >= detectBridge.packCount {
          detectBridge := detectBridge.(subscribed := false, packages := packages, result := Some(packages));
        } else {
          detectBridge := detectBridge.(packages := packages);
        }
      }
    }

    /** The engine raises one DetectPackageComplete per entry of `events`, in order. */
    method RaiseDetectPackageCompletes(events: seq<DetectPackageCompleteEvent>)
      modifies this`installEnabled, this`uninstallEnabled, this`notifications, this`detectBridge
      ensures State() == AfterDetectAll(old(State()), events)
      ensures detectBridge == FeedAll(old(detectBridge), events)
      ensures notifications == old(notifications) + DetectNotifications(events)
    {
      for i := 0 to |events|
        invariant State() == AfterDetectAll(old(State()), events[..i])
        invariant detectBridge == FeedAll(old(detectBridge), events[..i])
        invariant notifications == old(notifications) + DetectNotifications(events[..i])
      {
        RaiseDetectPackageComplete(events[i]);
        assert events[..i + 1][..i] == events[..i];
      }
      assert events[..|events|] == events;
    }

    /** The engine raises PlanComplete: the view model's handler runs, then the plan slot's while it is subscribed. */
    method RaisePlanComplete(e: PlanCompleteEvent)
      modifies this`isThinking, this`exitCode, this`notifications, this`planBridge, engine`calls
      ensures State() == AfterPlan(old(State()), e.status, applyAutomatically).state
      ensures engine.calls == old(engine.calls) +
        (if AfterPlan(old(State()), e.status, applyAutomatically).applyIssued then [EngineCall.Apply] else [])
      ensures planBridge == Resolve(old(planBridge), e)
      ensures notifications == old(notifications) +
        (if e.status < 0 || applyAutomatically then [IsThinking] else [])
    {
      OnPlanCompleteUiUpdate(e);
      if planBridge.subscribed {
        planBridge := Slot(false, Some(e));
      }
    }

    /** The engine raises ApplyComplete: the view model's handler runs, then the apply slot's while it is subscribed. */
    method RaiseApplyComplete(e: ApplyCompleteEvent)
      modifies this`exitCode, this`isThinking, this`installEnabled, this`uninstallEnabled, this`notifications, this`applyBridge
      ensures State() == AfterApply(old(State()), e.status)
      ensures applyBridge == Resolve(old(applyBridge), e)
      ensures notifications == old(notifications) + [IsThinking, InstallEnabled, UninstallEnabled]
    {
      OnApplyCompleteUiUpdate(e);
      if applyBridge.subscribed {
        applyBridge := Slot(false, Some(e));
      }
    }

    /** The install command runs only while install is enabled, and then plans an install; `ok` is false when the engine's Plan threw, an exception that escapes the command. */
    method InstallCommand() returns (ran: bool, ok: bool)
      modifies this`isThinking, this`notifications, engine`calls
      ensures ran <==> CanInstall(old(State()))
      ensures ok <==> !ran || PlanPhase !in engine.faulty
      ensures State() == if ran then Begin(old(State())) else old(State())
      ensures engine.calls == old(engine.calls) + (if ran then [EngineCall.Plan(LaunchAction.Install)] else [])
      ensures notifications == old(notifications) + (if ran then [IsThinking] else [])
    {
      ran, ok := installEnabled, true;
      if ran {
        ok := PlanExecute(LaunchAction.Install);
      }
    }

    /** The uninstall command runs only while uninstall is enabled, and then plans an uninstall; `ok` is false when the engine's Plan threw, an exception that escapes the command. */
    method UninstallCommand() returns (ran: bool, ok: bool)
      modifies this`isThinking, this`notifications, engine`calls
      ensures ran <==> CanUninstall(old(State()))
      ensures ok <==> !ran || PlanPhase !in engine.faulty
      ensures State() == if ran then Begin(old(State())) else old(State())
      ensures engine.calls == old(engine.calls) + (if ran then [EngineCall.Plan(LaunchAction.Uninstall)] else [])
      ensures notifications == old(notifications) + (if ran then [IsThinking] else [])
    {
      ran, ok := uninstallEnabled, true;
      if ran {
        ok := PlanExecute(LaunchAction.Uninstall);
      }
    }

    /** The exit command: always available, requests shutdown. */
    method ExitCommand()
      modifies this`shutdownRequested
      ensures shutdownRequested
    {
      ExitExecute();
    }

    /** Logs the exception as an error and sets the exit code to -1; the flags and the busy state are untouched. */
    method SetError(exception: Exception)
      modifies this`exitCode, engine`log
      ensures State() == AfterError(old(State()))
      ensures engine.log == old(engine.log) + [LogEntry(LogLevel.Error, ExceptionText(exception))]
    {
      engine.Log(LogLevel.Error, ExceptionText(exception));
      exitCode := -1;
    }
  }
}
