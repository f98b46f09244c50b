# TestBA custom bootstrapper UX — Dafny model

This project models the custom user-experience layer of a WiX Burn bootstrapper
(`CustomBA` and `MainViewModel`). The layer drives a host-provided installation
engine through its detect → plan → apply contract. It has two parts:

- **Entry controller** (`CustomBootstrapper`, from `CustomBA.cs`). It stores every
  `name=value` launch argument in the engine's string variables and reports every
  other argument. It then picks headless or windowed execution from the display
  mode. In headless mode it runs detect, plan(action) and apply one after another
  and then requests exit. In windowed mode it begins detection and shows the window.
- **Orchestration state** (`ViewModel.MainViewModel`, from `MainViewModel.cs`). This
  class has four fields: install-enabled, uninstall-enabled, busy (`IsThinking`)
  and the exit code. The begin-operations, the three completion handlers and
  `SetError` update them in place. One-shot bridges turn the engine's completion
  notifications into single results.

Module layout:

- `Wrappers`: `Option` and `Result`.
- `Bootstrapper`: the engine boundary. It holds the enumerations, the event
  payloads, and an `Engine` class. The class records what the layer can observe
  of the engine: its variable store, its log and the ordered trace of calls issued
  to it. `Engine.faulty` names the phases whose engine call throws.
- `CommandLine`: argument splitting. It is pure. `Split` and `Join` behave like
  .NET `String.Split(char)` and `string.Join`.
- `Orchestration`: the view model's state as a value, together with the
  transition functions the class is proved against. It also holds the bridges as
  values (`Collector`, `Slot`) and `Headless`, a reference definition of the
  whole headless run.
- `ViewModel`: the imperative view model class.
- `CustomBootstrapper`: the display dispatch and the `CustomBA` class.

Engine events are delivered one at a time, by explicit `Raise*` methods. They run
the view model's own handler first and then the bridge's handler, which is the
order in which the handlers subscribe in the source. The foreign engine is never
executed. Its answers in a headless run are given as a `Script`: the per-package
detection notifications it raises, and the plan and apply notifications, if it
raises them. If a notification never arrives, the corresponding await never
completes. That run then ends without requesting exit (`exitRequested == false`,
outcome `HeadlessWaiting`).

Notes on the source:

- In headless mode the view model is built with auto-apply off, and `RunHeadless`
  calls `ApplyAsync` without looking at the plan result
  (TestBA/TestBA/CustomBA.cs:71-72). A negative plan status therefore does not
  stop the run: Apply is still issued, and the final exit code is the apply
  status (`Orchestration.HeadlessAppliesAfterFailedPlan`).
- Ignored arguments are logged at error level (TestBA/TestBA/CustomBA.cs:59).
- The detection bridge checks the count only after adding an event
  (TestBA/TestBA/MainViewModel.cs:98-99). It therefore completes after
  `max(PackageCount, 1)` notifications (`Orchestration.Needed`). With a package
  count of 0 and no notifications, the headless run never gets past detection
  (`Orchestration.HeadlessEmptyBundleWaits`).

## Model

| member | source | states |
|---|---|---|
| `CommandLine.Split` | TestBA/TestBA/CustomBA.cs:50 | `String.Split('=')`: at least one piece; more than one exactly when the argument holds `=`; no piece holds `=`; joining the pieces with `=` gives the argument back |
| `CommandLine.ParseArgument` | TestBA/TestBA/CustomBA.cs:50-55 | an argument yields an assignment exactly when it holds `=`; the name holds no `=`; name + `=` + value is the argument |
| `CommandLine.NameBeforeFirstSeparator` | TestBA/TestBA/CustomBA.cs:53-54 | the stored name is the text before the first `=`, the value everything after it, which may itself hold `=` |
| `CommandLine.ParseRoundTrip` | TestBA/TestBA/CustomBA.cs:50-55 | for any name without `=` and any value, parsing `name=value` gives back exactly that name and value |
| `CommandLine.EdgeCases` | TestBA/TestBA/CustomBA.cs:50-60 | an argument starting with `=` stores the empty name with the rest as value (`=x`); an argument ending in its only `=` stores the name with the empty value (`FOO=`); the empty argument stores nothing |
| `CommandLine.LastValueNone` | TestBA/TestBA/CustomBA.cs:48-55 | there is no last value for a name exactly when no argument assigns that name |
| `CommandLine.LastValueIsLastAssignment` | TestBA/TestBA/CustomBA.cs:48-55 | the last value of a name comes from an argument assigning it that no later argument overrides |
| `CommandLine.LastWriteWins` | TestBA/TestBA/CustomBA.cs:48-55 | after all arguments a name is present exactly when it was present before or some argument assigns it; it holds the last assigned value; names no argument assigns keep their old value |
| `CommandLine.RejectionLogCounts` | TestBA/TestBA/CustomBA.cs:51-60 | every logged entry is an error naming an argument without `=`; each such argument is logged exactly as many times as it occurs, and arguments with `=` are never logged |
| `CommandLine.ThreeArguments` | TestBA/TestBA/CustomBA.cs:48-60 | two assignments and one plain argument (e.g. `FOO=1`, `BAR=a=b`, `bad`) store both variables, the later one winning on a clash, and log exactly the plain argument |
| `CustomBootstrapper.CustomBA.SetCommandLineVariables` | TestBA/TestBA/CustomBA.cs:46-62 | the engine's variables become the old variables updated by every argument in order; the log gains exactly the rejection entries |
| `CustomBootstrapper.SelectMode` | TestBA/TestBA/CustomBA.cs:26-39 | Embedded/None select headless, Unknown/Passive/Full select windowed, and every other display value is the out-of-range error; each in both directions |
| `CustomBootstrapper.CustomBA.constructor` | TestBA/TestBA/CustomBA.cs:13 | before `Run` there is no view model and no window |
| `CustomBootstrapper.CustomBA.Run` | TestBA/TestBA/CustomBA.cs:16-44 | logs the launch and stores the variables before the display check; a rejected display issues no engine call; headless follows `Headless` and then quits with the view model's exit code once exit is requested; windowed issues only Detect and leaves the window open, unless Detect throws |
| `CustomBootstrapper.CustomBA.RunHeadless` | TestBA/TestBA/CustomBA.cs:64-80 | builds a fresh view model with auto-apply off; the engine calls, the log entries, the final state and the exit request are exactly those of the `Headless` reference run |
| `CustomBootstrapper.CustomBA.RunHeadlessPlan` | TestBA/TestBA/CustomBA.cs:71-79 | after detection completed: the calls, log, state and exit request are those of `HeadlessPlan` — Plan(action), its await, then the apply stage, whatever the plan status |
| `CustomBootstrapper.CustomBA.RunHeadlessApply` | TestBA/TestBA/CustomBA.cs:72-79 | after planning completed: the calls, log, state and exit request are those of `HeadlessApply` — Apply, its await, then exit |
| `CustomBootstrapper.CustomBA.RunWithUi` | TestBA/TestBA/CustomBA.cs:82-92 | builds a fresh view model with auto-apply on, begins detection (busy, one Detect) and then shows the window, unless Detect throws |
| `CustomBootstrapper.CustomBA.CloseWindow` | TestBA/TestBA/CustomBA.cs:41-43 | once the event loop stops, the engine quits with the view model's exit code |
| `Orchestration.HeadlessCallOrder` | TestBA/TestBA/CustomBA.cs:70-72 | a headless run issues a non-empty prefix of Detect, Plan(action), Apply, in that order |
| `Orchestration.HeadlessSuccess` | TestBA/TestBA/CustomBA.cs:66-79 | without exceptions and with every notification, whatever the plan status: Detect, Plan(action), Apply; ends idle with nothing enabled, the apply status as exit code, nothing logged, and exit requested |
| `Orchestration.HeadlessAppliesAfterFailedPlan` | TestBA/TestBA/CustomBA.cs:71-72 | a negative plan status still leads to Apply, and the final exit code is the apply status |
| `Orchestration.HeadlessFault` | TestBA/TestBA/CustomBA.cs:68-79 | a thrown engine call ends the sequence at that call: a thrown Detect stops after Detect, a thrown Plan after Detect and Plan(action), a thrown Apply after all three; each time exactly one error entry is logged, the exit code is -1 and exit is still requested; and any run that logs at all logs exactly one error entry, exits with -1 and requests exit |
| `Orchestration.HeadlessExitRequested` | TestBA/TestBA/CustomBA.cs:68-79 | exit is requested exactly when no await waits forever: an exception, or all notifications up to Apply arrived |
| `Orchestration.HeadlessEmptyBundleWaits` | TestBA/TestBA/MainViewModel.cs:94-99 | with a package count of 0 and no detection notification, the headless run issues only Detect and never requests exit |
| `ViewModel.MainViewModel.constructor` | TestBA/TestBA/MainViewModel.cs:13-28 | a fresh view model is idle, with nothing enabled and exit code 0, keeps the auto-apply flag, and has no bridge subscribed |
| `ViewModel.MainViewModel.SetInstallEnabled` | TestBA/TestBA/MainViewModel.cs:32-41 | stores the value, then reports the property |
| `ViewModel.MainViewModel.SetUninstallEnabled` | TestBA/TestBA/MainViewModel.cs:44-53 | stores the value, then reports the property |
| `ViewModel.MainViewModel.SetIsThinking` | TestBA/TestBA/MainViewModel.cs:55-64 | stores the value, then reports the property |
| `ViewModel.MainViewModel.DetectExecute` | TestBA/TestBA/MainViewModel.cs:72-76 | sets busy and appends exactly one Detect to the trace; nothing else changes |
| `ViewModel.MainViewModel.PlanExecute` | TestBA/TestBA/MainViewModel.cs:78-82 | sets busy and appends exactly one Plan(action); nothing else changes |
| `ViewModel.MainViewModel.ApplyExecute` | TestBA/TestBA/MainViewModel.cs:84-88 | sets busy and appends exactly one Apply; nothing else changes |
| `ViewModel.MainViewModel.DetectAsync` | TestBA/TestBA/MainViewModel.cs:90-110 | subscribes a fresh collector for the engine's package count, then begins detection exactly once |
| `ViewModel.MainViewModel.PlanAsync` | TestBA/TestBA/MainViewModel.cs:112-126 | arms the plan slot, then issues exactly one Plan(action) |
| `ViewModel.MainViewModel.ApplyAsync` | TestBA/TestBA/MainViewModel.cs:128-142 | arms the apply slot, then issues exactly one Apply |
| `ViewModel.MainViewModel.ExitExecute` | TestBA/TestBA/MainViewModel.cs:145-148 | requests shutdown of the event loop |
| `ViewModel.MainViewModel.OnApplyCompleteUiUpdate` | TestBA/TestBA/MainViewModel.cs:154-160 | the exit code becomes the status; busy and both enable flags become false |
| `ViewModel.MainViewModel.OnDetectPackageCompleteUiUpdate` | TestBA/TestBA/MainViewModel.cs:168-178 | Absent enables install, Present enables uninstall, any other state changes nothing; the exit code and busy flag are untouched |
| `ViewModel.MainViewModel.OnPlanCompleteUiUpdate` | TestBA/TestBA/MainViewModel.cs:185-199 | a negative status clears busy and becomes the exit code, with no Apply; a non-negative status with auto-apply issues exactly one Apply; without auto-apply it changes nothing |
| `ViewModel.MainViewModel.RaiseDetectPackageComplete` | TestBA/TestBA/MainViewModel.cs:96-104 | the per-package handler runs for every notification, and the collector takes it only while subscribed |
| `ViewModel.MainViewModel.RaiseDetectPackageCompletes` | TestBA/TestBA/MainViewModel.cs:96-104 | a sequence of per-package notifications, in order, updates the state as `AfterDetectAll`, the collector as `FeedAll`, and reports the properties the per-package handler sets |
| `ViewModel.MainViewModel.RaisePlanComplete` | TestBA/TestBA/MainViewModel.cs:116-120 | the plan handler runs, and the slot keeps the first notification after it is armed |
| `ViewModel.MainViewModel.RaiseApplyComplete` | TestBA/TestBA/MainViewModel.cs:132-136 | the apply handler runs, and the slot keeps the first notification after it is armed |
| `ViewModel.MainViewModel.InstallCommand` | TestBA/TestBA/MainViewModel.cs:205-215 | runs exactly when install is enabled, and then issues Plan(Install), sets busy and reports it; `ok` is false exactly when that Plan call threw |
| `ViewModel.MainViewModel.UninstallCommand` | TestBA/TestBA/MainViewModel.cs:217-227 | runs exactly when uninstall is enabled, and then issues Plan(Uninstall), sets busy and reports it; `ok` is false exactly when that Plan call threw |
| `ViewModel.MainViewModel.ExitCommand` | TestBA/TestBA/MainViewModel.cs:229-240 | requests shutdown |
| `ViewModel.MainViewModel.SetError` | TestBA/TestBA/MainViewModel.cs:244-248 | exit code -1 and exactly one error entry for the exception; the flags and busy are unchanged |
| `Orchestration.AfterPlan` | TestBA/TestBA/MainViewModel.cs:185-199 | Apply is issued exactly when the status is non-negative and auto-apply is on; a failure clears busy and records the status |
| `Orchestration.DetectAllFlags` | TestBA/TestBA/MainViewModel.cs:168-178 | after any sequence of package results, install is enabled exactly when it was before or some package was absent, and uninstall likewise with present; nothing is ever cleared |
| `Orchestration.DetectOrderIrrelevant` | TestBA/TestBA/MainViewModel.cs:168-178 | the arrival order of package results does not change the resulting state |
| `Orchestration.ApplyIdempotent` | TestBA/TestBA/MainViewModel.cs:154-160 | handling the same apply-complete status twice gives the same state as once |
| `Orchestration.ApplyIsTerminal` | TestBA/TestBA/MainViewModel.cs:154-160 | after apply completes neither command can run, the view model is idle, and the exit code is the status |
| `Orchestration.Needed` | TestBA/TestBA/MainViewModel.cs:98-99 | the collector needs `max(PackageCount, 1)` notifications: at least one and at least the package count, and equal to one of them |
| `Orchestration.FeedStep` | TestBA/TestBA/MainViewModel.cs:96-104 | a subscribed collector still short of notifications appends the new one, and completes with the collected list exactly when it has enough |
| `Orchestration.CollectorCompletesOnce` | TestBA/TestBA/MainViewModel.cs:90-110 | the collector unsubscribes and completes exactly when `Needed(PackageCount)` notifications have arrived; its result is those first notifications in arrival order |
| `Orchestration.CompletedCollectorIgnores` | TestBA/TestBA/MainViewModel.cs:100-101 | once unsubscribed, the collector ignores all later notifications |
| `Orchestration.FirstEventWins` | TestBA/TestBA/MainViewModel.cs:112-142 | an armed slot resolves with the first notification and later ones never change the result |

## Left out

- The WPF `Dispatcher`, `Dispatcher.Run`, `InvokeShutdown`, `Task.Run`, `async`/`await` and `TaskCompletionSource` are not modelled. Events are a sequential stream, and "exit requested" is a boolean. The headless sequence runs to completion before the engine quits. The race on the `ViewModel` property between the background task and `Run` (TestBA/TestBA/CustomBA.cs:43,67) is not modelled.
- Continuations that run inline when a bridge resolves are not modelled. All detection notifications of a phase are delivered before the detection await is checked.
- The real Detect/Plan/Apply/Quit behaviour of the engine is foreign. It is an abstract call trace, a log, a variable map, a package count, and a set of phases whose call throws.
- The text of log messages is not modelled. A log entry records its level and what it reports: the launch arguments, the ignored argument, or the exception.
- `MainView` (the window) is not modelled; only whether it is shown. The `RelayCommand` class is not part of this model. Its can-execute gate is modelled as a check inside `InstallCommand` and `UninstallCommand`.
- `ViewModel.MainViewModel.OnPlanCompleteUiUpdate`: an exception thrown by the automatic Apply inside this handler is not modelled. It would propagate into the engine's own event dispatch.
- `ViewModel.MainViewModel.DetectAsync`, `PlanAsync`, `ApplyAsync`: only the most recent bridge of each kind is kept. A second overlapping call replaces the first one instead of adding a second subscriber.
- `CustomBootstrapper.CustomBA.RunHeadless`, `RunHeadlessPlan` and `RunHeadlessApply` do not state the property-changed notifications or the bridge contents the headless run leaves in the view model; the calls, log, state and exit request are stated in full.
- `CustomBootstrapper.CustomBA.CloseWindow` also stands for the exit command stopping the event loop in windowed mode. Both end in the same quit with the view model's exit code.
- Property-changed notifications are a list of property names. The null-name failure of the notification helper (TestBA/TestBA/ViewModelBase.cs:16) cannot happen here, because every setter passes its own property.
- The commented-out package-id filter (TestBA/TestBA/MainViewModel.cs:170,177) is not live code.
- Display values outside the enumeration are one constructor, `OutOfRange(code)`.
