/**
  The orchestration state of the view model as a value, and the effect of
  each begin-operation and completion notification on it. The imperative
  view model is proved against these functions; the lemmas here state what
  the notifications promise over whole runs.
*/
module Orchestration {
  import opened Wrappers
  import opened Bootstrapper

  /** The four observable fields of the view model. */
  datatype UiState = UiState(installEnabled: bool, uninstallEnabled: bool, isThinking: bool, exitCode: int)

  /** A fresh view model: idle, nothing enabled, exit code 0. */
  const Initial: UiState := UiState(false, false, false, 0)

  /** A begin-operation (detect, plan or apply) marks the view model busy. */
  function Begin(s: UiState): UiState
  {
    s.(isThinking := true)
  }

  /** One per-package detection result: an absent package enables install, a present one uninstall. */
  function AfterDetectPackage(s: UiState, state: PackageState): UiState
  {
    if state == PackageState.Absent then s.(installEnabled := true)
    else if state == PackageState.Present then s.(uninstallEnabled := true)
    else s
  }

  /** The detection results of a sequence of packages, in arrival order. */
  function AfterDetectAll(s: UiState, events: seq<DetectPackageCompleteEvent>): UiState
    decreases |events|
  {
    if events == [] then s
    else AfterDetectPackage(AfterDetectAll(s, events[..|events| - 1]), events[|events| - 1].state)
  }

  /** The state after a plan-complete notification, and whether it issued an Apply. */
  datatype PlanReaction = PlanReaction(state: UiState, applyIssued: bool)

  function AfterPlan(s: UiState, status: int, applyAutomatically: bool): (r: PlanReaction)
    ensures r.applyIssued <==> status >= 0 && applyAutomatically
    ensures status < 0 ==> r.state == s.(isThinking := false, exitCode := status)
    ensures status >= 0 ==> r.state == if applyAutomatically then Begin(s) else s
  {
    if status >= 0 then
      if applyAutomatically then PlanReaction(Begin(s), true) else PlanReaction(s, false)
    else PlanReaction(s.(isThinking := false, exitCode := status), false)
  }

  /** An apply-complete notification ends the run: the status becomes the exit code and everything is disabled. */
  function AfterApply(s: UiState, status: int): UiState
  {
    UiState(false, false, false, status)
  }

  /** A recorded failure sets the exit code to the sentinel -1. */
  function AfterError(s: UiState): UiState
  {
    s.(exitCode := -1)
  }

  /** Gate of the install command. */
  predicate CanInstall(s: UiState) { s.installEnabled }

  /** Gate of the uninstall command. */
  predicate CanUninstall(s: UiState) { s.uninstallEnabled }

  /**
    Detection never clears a flag and never touches the busy flag or the exit
    code: after any sequence of results install is enabled exactly when it was
    before or some package was absent, uninstall when it was before or some
    package was present.
  */
  lemma {:induction false} DetectAllFlags(s: UiState, events: seq<DetectPackageCompleteEvent>)
    ensures AfterDetectAll(s, events) == s.(
      installEnabled := s.installEnabled || exists e :: e in events && e.state == PackageState.Absent,
      uninstallEnabled := s.uninstallEnabled || exists e :: e in events && e.state == PackageState.Present)
    decreases |events|
  {
    if events != [] {
      var init := events[..|events| - 1];
      DetectAllFlags(s, init);
      assert events == init + [events[|events| - 1]];
    }
  }

  /** The order in which per-package results arrive does not matter. */
  lemma DetectOrderIrrelevant(s: UiState, a: seq<DetectPackageCompleteEvent>, b: seq<DetectPackageCompleteEvent>)
    requires multiset(a) == multiset(b)
    ensures AfterDetectAll(s, a) == AfterDetectAll(s, b)
  {
    DetectAllFlags(s, a);
    DetectAllFlags(s, b);
    assert forall e :: e in a <==> e in b by {
      forall e ensures e in a <==> e in b {
        assert e in a <==> e in multiset(a);
        assert e in b <==> e in multiset(b);
      }
    }
  }

  /** Applying the same apply-complete notification twice gives the same state as once. */
  lemma ApplyIdempotent(s: UiState, status: int)
    ensures AfterApply(AfterApply(s, status), status) == AfterApply(s, status)
  {
  }

  /** After apply completes neither command can run, the view model is idle and the exit code is the status. */
  lemma ApplyIsTerminal(s: UiState, status: int)
    ensures !CanInstall(AfterApply(s, status)) && !CanUninstall(AfterApply(s, status))
    ensures !AfterApply(s, status).isThinking && AfterApply(s, status).exitCode == status
  {
  }

  // ---------------------------------------------------------------------------
  // One-shot bridges

  /**
    The detection collector: the per-package results gathered so far, whether
    its handler is still subscribed, and the result slot.
  */
  datatype Collector = Collector(
    packCount: nat,
    packages: seq<DetectPackageCompleteEvent>,
    subscribed: bool,
    result: Option<seq<DetectPackageCompleteEvent>>)

  /** A collector that has not been subscribed (or has been discarded). */
  const Idle: Collector := Collector(0, [], false, Option.None)

  /** A collector just subscribed for `packCount` packages. */
  function Subscribe(packCount: nat): Collector
  {
    Collector(packCount, [], true, Option.None)
  }

  /** One per-package notification: collected while subscribed; the collector completes and unsubscribes once the count reaches `packCount`. */
  function Feed(c: Collector, e: DetectPackageCompleteEvent): Collector
  {
    if !c.subscribed then c
    else
      var packages := c.packages + [e];
      if |packages| >= c.packCount then Collector(c.packCount, packages, false, Some(packages))
      else c.(packages := packages)
  }

  function FeedAll(c: Collector, events: seq<DetectPackageCompleteEvent>): Collector
    decreases |events|
  {
    if events == [] then c else Feed(FeedAll(c, events[..|events| - 1]), events[|events| - 1])
  }

  /** The number of notifications after which the collector completes: the count is checked only after an event is added, so it is at least one. */
  function Needed(packCount: nat): (n: nat)
    ensures n >= 1 && n >= packCount
    ensures n == 1 || n == packCount
  {
    if packCount == 0 then 1 else packCount
  }

  /** One notification to a subscribed collector that still lacks some: it is collected, and the collector completes when it was the last one needed. */
  lemma FeedStep(c: Collector, e: DetectPackageCompleteEvent)
    requires c.subscribed && c.result.None? && |c.packages| < Needed(c.packCount)
    ensures var d := Feed(c, e);
      && d.packCount == c.packCount && d.packages == c.packages + [e]
      && (d.subscribed <==> |d.packages| < Needed(c.packCount))
      && d.result == (if d.subscribed then Option.None else Some(d.packages))
  {
  }

  /**
    The collector completes exactly when `Needed(packCount)` notifications
    have arrived, with those first notifications in arrival order; it ignores
    every later one.
  */
  lemma {:induction false} CollectorCompletesOnce(packCount: nat, events: seq<DetectPackageCompleteEvent>)
    ensures var c := FeedAll(Subscribe(packCount), events);
      && c.packCount == packCount
      && (c.subscribed <==> |events| < Needed(packCount))
      && c.result == (if |events| < Needed(packCount) then Option.None else Some(events[..Needed(packCount)]))
      && c.packages == (if |events| < Needed(packCount) then events else events[..Needed(packCount)])
    decreases |events|
  {
    if events != [] {
      var n := |events| - 1;
      var init := events[..n];
      var k := Needed(packCount);
      CollectorCompletesOnce(packCount, init);
      var c := FeedAll(Subscribe(packCount), init);
      assert FeedAll(Subscribe(packCount), events) == Feed(c, events[n]);
      if n < k {
        FeedStep(c, events[n]);
        assert init + [events[n]] == events;
        if n + 1 == k {
          assert events[..k] == events;
        }
      } else {
        assert init[..k] == events[..k];
      }
    }
  }

  /** A completed collector stays completed with the same result, whatever arrives later. */
  lemma {:induction false} CompletedCollectorIgnores(c: Collector, events: seq<DetectPackageCompleteEvent>)
    requires !c.subscribed
    ensures FeedAll(c, events) == c
    decreases |events|
  {
    if events != [] {
      CompletedCollectorIgnores(c, events[..|events| - 1]);
    }
  }

  /** The result slot of the plan and apply bridges. */
  datatype Slot<T> = Slot(subscribed: bool, result: Option<T>)

  function Armed<T>(): Slot<T>
  {
    Slot(true, Option.None)
  }

  function Unarmed<T>(): Slot<T>
  {
    Slot(false, Option.None)
  }

  /** One completion notification: the first one fills the slot and unsubscribes. */
  function Resolve<T>(s: Slot<T>, e: T): Slot<T>
  {
    if s.subscribed then Slot(false, Some(e)) else s
  }

  function ResolveAll<T>(s: Slot<T>, events: seq<T>): Slot<T>
    decreases |events|
  {
    if events == [] then s else Resolve(ResolveAll(s, events[..|events| - 1]), events[|events| - 1])
  }

  /** An armed slot resolves with the first notification; later ones cannot change the result. */
  lemma {:induction false} FirstEventWins<T>(events: seq<T>)
    ensures ResolveAll(Armed(), events) == if events == [] then Armed() else Slot(false, Some(events[0]))
    decreases |events|
  {
    if |events| > 1 {
      FirstEventWins(events[..|events| - 1]);
    }
  }

  // ---------------------------------------------------------------------------
  // The headless run

  /** How the engine answers in a headless run: the per-package notifications raised after Detect, and the plan and apply notifications, if the engine raises them. */
  datatype Script = Script(
    detectEvents: seq<DetectPackageCompleteEvent>,
    planEvent: Option<PlanCompleteEvent>,
    applyEvent: Option<ApplyCompleteEvent>)

  /** What a headless run leaves behind: calls issued, log entries written, the final state, and whether exit was requested (false when a phase never completes). */
  datatype HeadlessRun = HeadlessRun(calls: seq<EngineCall>, log: seq<LogEntry>, state: UiState, exitRequested: bool)

  /** An engine call of `phase` threw: the exception is logged, the exit code becomes -1 and exit is still requested. */
  function Failed(calls: seq<EngineCall>, s: UiState, phase: Phase): HeadlessRun
  {
    HeadlessRun(calls, [LogEntry(LogLevel.Error, ExceptionText(EngineCallFailed(phase)))], AfterError(s), true)
  }

  /**
    The headless sequence with auto-apply off: detect and wait for the
    collector, plan and wait for the first plan notification, apply and wait
    for the first apply notification, then request exit. Apply is issued
    whatever the plan status was.
  */
  function Headless(action: LaunchAction, packCount: nat, faulty: set<Phase>, script: Script): HeadlessRun
  {
    var s := Begin(Initial);
    if DetectPhase in faulty then Failed([EngineCall.Detect], s, DetectPhase)
    else
      var detected := AfterDetectAll(s, script.detectEvents);
      if |script.detectEvents| < Needed(packCount) then HeadlessRun([EngineCall.Detect], [], detected, false)
      else
        var r := HeadlessPlan(action, faulty, script, detected);
        r.(calls := [EngineCall.Detect] + r.calls)
  }

  /** The rest of a headless run once detection has completed in state `s`. */
  function HeadlessPlan(action: LaunchAction, faulty: set<Phase>, script: Script, s: UiState): HeadlessRun
  {
    var busy := Begin(s);
    if PlanPhase in faulty then Failed([EngineCall.Plan(action)], busy, PlanPhase)
    else if script.planEvent.None? then HeadlessRun([EngineCall.Plan(action)], [], busy, false)
    else
      var r := HeadlessApply(faulty, script, AfterPlan(busy, script.planEvent.value.status, false).state);
      r.(calls := [EngineCall.Plan(action)] + r.calls)
  }

  /** The rest of a headless run once planning has completed in state `s`. */
  function HeadlessApply(faulty: set<Phase>, script: Script, s: UiState): HeadlessRun
  {
    var busy := Begin(s);
    if ApplyPhase in faulty then Failed([EngineCall.Apply], busy, ApplyPhase)
    else if script.applyEvent.None? then HeadlessRun([EngineCall.Apply], [], busy, false)
    else HeadlessRun([EngineCall.Apply], [], AfterApply(busy, script.applyEvent.value.status), true)
  }

  /** The calls of a headless run are always a non-empty prefix of Detect, Plan(action), Apply, in that order. */
  lemma HeadlessCallOrder(action: LaunchAction, packCount: nat, faulty: set<Phase>, script: Script)
    ensures var r := Headless(action, packCount, faulty, script);
      1 <= |r.calls| <= 3 && r.calls == [EngineCall.Detect, EngineCall.Plan(action), EngineCall.Apply][..|r.calls|]
  {
  }

  /**
    When no engine call throws and every notification arrives, the run issues
    Detect, Plan(action) and Apply whatever the plan status, ends idle with
    nothing enabled and the apply status as exit code, logs nothing, and
    requests exit.
  */
  lemma HeadlessSuccess(action: LaunchAction, packCount: nat, script: Script)
    requires |script.detectEvents| >= Needed(packCount)
    requires script.planEvent.Some? && script.applyEvent.Some?
    ensures var r := Headless(action, packCount, {}, script);
      && r.calls == [EngineCall.Detect, EngineCall.Plan(action), EngineCall.Apply]
      && r.state == UiState(false, false, false, script.applyEvent.value.status)
      && r.log == []
      && r.exitRequested
  {
  }

  /**
    A failing plan notification does not stop the headless run: Apply is still
    issued, and the final exit code is the apply status, not the plan status.
  */
  lemma HeadlessAppliesAfterFailedPlan(action: LaunchAction, packCount: nat, script: Script)
    requires |script.detectEvents| >= Needed(packCount)
    requires script.planEvent.Some? && script.planEvent.value.status < 0
    requires script.applyEvent.Some?
    ensures EngineCall.Apply in Headless(action, packCount, {}, script).calls
    ensures Headless(action, packCount, {}, script).state.exitCode == script.applyEvent.value.status
  {
    HeadlessSuccess(action, packCount, script);
  }

  /**
    An engine call that throws ends the sequence at that call: exactly one
    error entry is logged, the exit code is -1 and exit is still requested.
    Every run that logs something is such a run.
  */
  lemma HeadlessFault(action: LaunchAction, packCount: nat, faulty: set<Phase>, script: Script)
    ensures var r := Headless(action, packCount, faulty, script);
      r.log != [] ==> |r.log| == 1 && r.log[0].level == LogLevel.Error && r.state.exitCode == -1 && r.exitRequested
    ensures DetectPhase in faulty ==> Headless(action, packCount, faulty, script).calls == [EngineCall.Detect]
    ensures DetectPhase in faulty ==> Headless(action, packCount, faulty, script).state.exitCode == -1
    ensures var r := Headless(action, packCount, faulty, script);
      DetectPhase in faulty ==> |r.log| == 1 && r.exitRequested
    ensures var r := Headless(action, packCount, faulty, script);
      DetectPhase !in faulty && PlanPhase in faulty && |script.detectEvents| >= Needed(packCount) ==>
        && r.calls == [EngineCall.Detect, EngineCall.Plan(action)]
        && r.state.exitCode == -1 && |r.log| == 1 && r.exitRequested
    ensures var r := Headless(action, packCount, faulty, script);
      DetectPhase !in faulty && PlanPhase !in faulty && ApplyPhase in faulty &&
      |script.detectEvents| >= Needed(packCount) && script.planEvent.Some? ==>
        && r.calls == [EngineCall.Detect, EngineCall.Plan(action), EngineCall.Apply]
        && r.state.exitCode == -1 && |r.log| == 1 && r.exitRequested
  {
  }

  /**
    Exit is requested exactly when the run does not wait forever: a run waits
    forever when fewer than `Needed(packCount)` detection notifications arrive
    or a plan or apply notification never comes.
  */
  lemma HeadlessExitRequested(action: LaunchAction, packCount: nat, faulty: set<Phase>, script: Script)
    ensures Headless(action, packCount, faulty, script).exitRequested <==>
      || DetectPhase in faulty
      || (|script.detectEvents| >= Needed(packCount) &&
          (PlanPhase in faulty || (script.planEvent.Some? && (ApplyPhase in faulty || script.applyEvent.Some?))))
  {
  }

  /** A bundle with no packages raises no detection notification, and then the headless run never gets past detection. */
  lemma HeadlessEmptyBundleWaits(action: LaunchAction, faulty: set<Phase>, script: Script)
    requires DetectPhase !in faulty && script.detectEvents == []
    ensures !Headless(action, 0, faulty, script).exitRequested
    ensures Headless(action, 0, faulty, script).calls == [EngineCall.Detect]
  {
  }
}
