# Application container, plugin registry and logger — a Dafny model

This project models the core of a small TypeScript application container
(`core/`). It has three parts.

- **Plugin registry** (`PluginManager`, file `plugin_manager.dfy`). This is a
  JavaScript `Map` from plugin name to plugin. It is modelled as an
  insertion-ordered list of names plus a Dafny `map`. Every plugin carries an
  `enabled` flag and the set of hooks it defines (`onBeforeMount`, `onMount`,
  `onBeforeUnmount`, `onUnmount`, `execute`). `register` inserts or
  overwrites an entry, `getPlugin` only reads, and `enablePlugin`,
  `disablePlugin` and `removePlugin` do nothing for an absent name. A broadcast
  (`executeAll` and the four `on*All`) is a pure function. It returns the
  names whose hook it invokes and whether the joint wait resolves. Which hook
  promises reject is an input.
- **Container lifecycle driver** (`AppContainer`, files `application.dfy` and
  `lifecycle.dfy`). `start` and `unmount` are functions. Each returns the
  container afterwards, an event trace and an outcome. The trace lists the
  context reset, the container's `logger.info` calls, the container hooks and
  the plugin broadcasts. It is cut after the first step that rejects.
  `registerLifecycle`, `registerPlugin`, `registerContext` and `getContext`
  are modelled too. Loggers are shared by reference, so the container and its
  context refer to a logger through an identity (`LoggerRef`).
- **Logger** (`Logger`, file `logger.dfy`). A level plus an append-only list
  of lines. `error`, `warn`, `info` and `debug` append a prefixed line when the
  level gate lets them through. `getLogs` returns the list. `search` filters
  it by substring.

`util.dfy` holds `Option`, `Distinct` and `IsSubsequence`, which the other
modules share.

## Behaviour worth knowing

- In `start`, the before-mount block and the mount block are two independent
  `if`s (core/Application.ts:71 and :81). The mount block does not depend on
  `onBeforeMount`. It runs whenever the container has an `onMount` hook
  (`Lifecycle.MountRunsWithoutBeforeMount`), and then the context is not
  reset.
- The logger gate is `level <= severity` on the enum ordinals
  (ERROR=0 … DEBUG=3). With the default level INFO, `info` and `debug` lines
  are recorded and `error` and `warn` lines are dropped. See "Findings".
- A broadcast issues every eligible hook in one loop (core/PluginManager.ts:102-106)
  before it awaits anything. Which plugins are invoked therefore does not
  depend on which of the returned promises reject.

## Model

| member | source | states |
|---|---|---|
| `PluginManager.GetPlugin` | core/PluginManager.ts:65-67 | returns the stored entry exactly when the name is a key, otherwise `undefined`; it is a lookup and changes nothing |
| `PluginManager.Register` | core/PluginManager.ts:59-63 | afterwards `getPlugin(p.name)` is `p` with `enabled` forced to true, every other name looks up as before, and a new name is appended to the iteration order while an overwritten name keeps its position |
| `PluginManager.RegisterPreservesValid` | core/PluginManager.ts:59-63 | registering keeps one list entry per name, the listed names equal the keys, and each entry is stored under its own name |
| `PluginManager.LaterRegistrationWins` | core/PluginManager.ts:62 | registering two plugins of the same name leaves exactly the second one (enabled), at the first one's position; the result equals registering only the second |
| `PluginManager.SetEnabled` | core/PluginManager.ts:69-81 | on a present name only that entry's flag changes; the order and all other entries are unchanged; on an absent name the registry is unchanged |
| `PluginManager.EnablePlugin` | core/PluginManager.ts:69-74 | a present entry becomes enabled and nothing else changes; an absent name is a no-op |
| `PluginManager.DisablePlugin` | core/PluginManager.ts:76-81 | a present entry becomes disabled and nothing else changes; an absent name is a no-op |
| `PluginManager.Without` | core/PluginManager.ts:86 | deleting a key from the iteration order drops exactly that name and keeps the others in order |
| `PluginManager.RemovePlugin` | core/PluginManager.ts:83-88 | afterwards the name looks up as `undefined`, every other name looks up as before, and the name leaves the iteration order while the remaining names keep their relative order; an absent name is a no-op |
| `PluginManager.UpdatesPreserveValid` | core/PluginManager.ts:69-88 | enabling, disabling and removing keep the registry invariant |
| `PluginManager.SelectFromSpec` | core/PluginManager.ts:100-106 | the selection holds exactly the listed names whose entry is enabled and defines the hook, in iteration order |
| `PluginManager.Broadcast` | core/PluginManager.ts:90-138 | a broadcast invokes exactly the enabled plugins defining the hook, each once, in map iteration order; it fails iff some invoked hook rejects |
| `PluginManager.CollectEligible` | core/PluginManager.ts:101-106 | the loop over `plugins.values()` issues the eligible hooks in iteration order, the same list as the selection |
| `PluginManager.AwaitAll` | core/PluginManager.ts:107 | the joint wait resolves iff none of the issued hooks rejects |
| `PluginManager.BroadcastLoop` | core/PluginManager.ts:100-108 | the loop-then-await form gives the same invocations and outcome as `Broadcast` |
| `PluginManager.RegisteredPluginIsInvoked` | core/PluginManager.ts:59-63 | a just-registered plugin takes part in every broadcast of a hook it defines, even if it was passed in disabled |
| `PluginManager.SkippedPluginsAreNotInvoked` | core/PluginManager.ts:100-106 | a disabled plugin is never invoked; a plugin without the hook is never invoked, whatever its flag |
| `PluginManager.FailureDoesNotStopSiblings` | core/PluginManager.ts:100-107 | which plugins are invoked does not depend on which hooks reject; one rejecting eligible hook makes the broadcast fail |
| `Application.NewContainer` | core/Application.ts:13-35 | a new container has all four lifecycle hooks, no context yet, the shared registry and its own logger |
| `Application.RegisterLifecycle` | core/Application.ts:39-41 | the hook set is replaced as a whole; nothing else changes |
| `Application.RegisterPlugin` | core/Application.ts:46-48 | the registered plugin looks up enabled under its name, other names look up as before, a new name goes last in the broadcast order while a replaced one keeps its place, and the rest of the container is untouched |
| `Application.RegisterContext` | core/Application.ts:53-61 | with a logger: the container adopts it and writes it into the existing context without copying other fields, throwing if no context exists; without a logger: the context is replaced by the argument with the container's logger attached |
| `Application.GetContextAfterRegister` | core/Application.ts:53-65 | `getContext` after `registerContext` shows the donated logger, or exactly the new fields plus the container's logger |
| `Application.Cut` | core/Application.ts:70-106 | awaited steps run in sequence: the call resolves iff every step does, and on failure the last event is the first failing step |
| `Application.CutAppend` | core/Application.ts:70-87 | of two blocks run one after the other, the second runs only if the first resolved |
| `Application.CutTraceIsPrefix` | core/Application.ts:70-106 | the events that happen are a prefix of the planned events |
| `Application.BeforeMountPlan` | core/Application.ts:71-79 | the before-mount block is reset, log "应用准备中", `onBeforeMount`, log "插件准备中", broadcast to the eligible plugins in iteration order; only the hook and the broadcast can reject |
| `Application.MountPlan` | core/Application.ts:81-86 | the mount block is `onMount`, log "应用初始化成功", broadcast to the eligible plugins, log "插件初始化成功"; only the hook and the broadcast can reject |
| `Application.BeforeUnmountPlan` | core/Application.ts:93-98 | the before-unmount block is log "应用准备卸载", `onBeforeUnmount`, log "插件准备卸载", broadcast to the eligible plugins; only the hook and the broadcast can reject |
| `Application.UnmountBlockPlan` | core/Application.ts:100-105 | the unmount block is `onUnmount`, log "应用卸载成功", broadcast to the eligible plugins, log "插件卸载成功"; only the hook and the broadcast can reject |
| `Application.StartPlan` | core/Application.ts:70-87 | `start` plans the before-mount block iff `onBeforeMount` is present, then, independently, the mount block iff `onMount` is present; a hook step rejects iff that hook rejects, a broadcast iff one of its invoked plugins rejects, and the reset and log lines never reject |
| `Application.UnmountPlan` | core/Application.ts:92-106 | `unmount` plans the before-unmount block iff `onBeforeUnmount` is present, then, independently, the unmount block iff `onUnmount` is present, with the same rule for which steps can reject |
| `Application.EventsAppend` | core/Application.ts:70-106 | the events of two step lists run back to back are the first list's events followed by the second's |
| `Application.Start` | core/Application.ts:70-87 | `start` resets the context to a fresh one holding only the logger exactly when `onBeforeMount` is present and changes nothing else in the container; it emits a prefix of its planned events whose last event is the first rejecting step, and it resolves iff no planned step rejects |
| `Application.UnmountContainer` | core/Application.ts:92-106 | `unmount` never changes the container, the context reference included; it emits a prefix of its planned events whose last event is the first rejecting step, and it resolves iff no planned step rejects |
| `Lifecycle.StartRunsGatedBlocksInOrder` | core/Application.ts:70-87 | with nothing rejecting: reset, container `onBeforeMount`, before-mount broadcast iff that hook is present; then container `onMount`, mount broadcast iff that hook is present |
| `Lifecycle.UnmountRunsGatedBlocksInOrder` | core/Application.ts:92-106 | with nothing rejecting: container `onBeforeUnmount` then its broadcast iff present; then container `onUnmount` then its broadcast iff present |
| `Lifecycle.MountRunsWithoutBeforeMount` | core/Application.ts:81-86 | without `onBeforeMount` the mount block still runs when `onMount` is present, and the context is not reset |
| `Lifecycle.StartTouchesOnlyPresentPhases` | core/Application.ts:70-87 | every hook or broadcast in a `start` trace belongs to a mounting phase whose container hook is present |
| `Lifecycle.UnmountTouchesOnlyPresentPhases` | core/Application.ts:92-106 | every hook or broadcast in an `unmount` trace belongs to an unmounting phase whose container hook is present |
| `Lifecycle.MissingHookSkipsPhase` | core/Application.ts:39-41 | after `registerLifecycle` without a phase's hook, neither that container hook nor that phase's broadcast runs |
| `Lifecycle.CutStopsAt` | core/Application.ts:70-106 | when step k is the first to reject, exactly steps 0..k happen and the call rejects |
| `Lifecycle.BeforeMountFailureStopsStart` | core/Application.ts:71-79 | a rejecting `onBeforeMount` ends `start` after it: the context has been reset, no broadcast and no mount block run |
| `Lifecycle.BeforeMountBroadcastRejects` | core/Application.ts:71-79 | an eligible plugin rejecting in the before-mount broadcast makes the before-mount block stop at that broadcast |
| `Lifecycle.PluginFailureSettlesSiblings` | core/Application.ts:71-86 | a rejecting plugin hook in before-mount still lets every eligible plugin be invoked, then `start` rejects and the mount block never runs |
| `Lifecycle.MountFailureStopsStart` | core/Application.ts:70-86 | a rejecting `onMount` ends `start` right after it, without the mount broadcast, both without a before-mount block and after one that resolved |
| `Lifecycle.StartStopsAtFirstRejection` | core/Application.ts:70-87 | when step k of `start`'s plan is the first to reject, the events are exactly the planned ones up to and including step k, and `start` rejects |
| `Lifecycle.StartResolvesWithoutRejection` | core/Application.ts:70-87 | when no planned step rejects, every planned event happens and `start` resolves |
| `Lifecycle.UnmountStopsAtFirstRejection` | core/Application.ts:92-106 | when step k of `unmount`'s plan is the first to reject, the events are exactly the planned ones up to and including step k, and `unmount` rejects |
| `Lifecycle.UnmountResolvesWithoutRejection` | core/Application.ts:92-106 | when no planned step rejects, every planned event happens and `unmount` resolves |
| `Lifecycle.BeforeUnmountFailureStopsUnmount` | core/Application.ts:93-100 | a rejecting `onBeforeUnmount` ends `unmount` after it: no plugin broadcast, no unmount block, and the call rejects |
| `Lifecycle.UnmountFailureStopsUnmount` | core/Application.ts:92-104 | a rejecting `onUnmount` ends `unmount` right after it, without the unmount broadcast, both without a before-unmount block and after one that resolved |
| `Lifecycle.StartAgainRepeats` | core/Application.ts:70-87 | with no re-entry guard, a second `start` repeats the same trace and leaves the same container |
| `Lifecycle.UnmountAgainRepeats` | core/Application.ts:92-106 | a second `unmount` runs its gated blocks again, identically |
| `Lifecycle.MetricsScenario` | core/Application.ts:70-87 | default container, one plugin "metrics" with only a mount hook: `start` resolves, the before-mount broadcast invokes nobody, and the mount broadcast invokes "metrics" once |
| `Logging.NewLogger` | core/Logger.ts:18-25 | the buffer starts empty; the level is the argument when given, INFO otherwise |
| `Logging.SetLevel` | core/Logger.ts:27-29 | only the level changes; the buffer is untouched |
| `Logging.Log` | core/Logger.ts:31-61 | a call appends exactly one line, the severity prefix followed by the message, iff the level's ordinal is at most the severity's; otherwise the logger is unchanged; earlier lines are kept in order |
| `Logging.DefaultLevelGate` | core/Logger.ts:18-53 | at the default level only `info` and `debug` pass the gate; an `error` call records nothing and an `info` call records `[INFO] m` |
| `Logging.EntryRoundTrip` | core/Logger.ts:33-57 | a recorded line is exactly prefix plus message: parsing it gives back the severity and the message |
| `Logging.GetLogsInEmissionOrder` | core/Logger.ts:63-65 | after any run of calls, `getLogs` is the earlier lines followed by the recorded lines in call order |
| `Logging.Includes` | core/Logger.ts:68 | `includes(q)` holds iff `q` occurs at some position of the line |
| `Logging.Filter` | core/Logger.ts:68 | the result holds exactly the lines containing the query, each as often as in the input, as a subsequence of the input |
| `Logging.Search` | core/Logger.ts:67-69 | `search(q)` returns exactly the recorded lines containing `q`, a repeated line as often as it was recorded, in their recorded order |
| `Logging.FilterAppend` | core/Logger.ts:68 | filtering a concatenation is concatenating the filtered parts, so order is preserved |
| `Logging.SearchEmptyQuery` | core/Logger.ts:67-69 | `search("")` returns every line |
| `Logging.SearchAfterLog` | core/Logger.ts:47-69 | after a logging call, `search(q)` is the earlier result plus the new line when it was recorded and contains `q` |
| `Logging.DefaultLevelDropsErrors` | core/Logger.ts:32 | as written, `error` on a logger with the default level leaves it unchanged |
| `Logging.LogIntended` | core/Logger.ts:31-37 | the corrected gate appends a line iff the severity is at least as severe as the level |
| `Logging.IntendedGateIsMonotone` | core/Logger.ts:31-61 | with the corrected gate, errors pass at every level and a more verbose level records everything a less verbose one does |

## Findings

| source | as written | input that shows it | evidently intended | confidence | as-written member | corrected member |
|---|---|---|---|---|---|---|
| core/Logger.ts:32 | the gate `this.level <= LogLevel.ERROR` (and its three siblings) records a call only when the level's ordinal is at most the call's | `new Logger()` (level INFO), then `error("m")`: the buffer stays empty, while `debug("m")` is recorded | record a call when its severity is at least as severe as the level (`severity <= level`), so errors always show and DEBUG is the most verbose | high — the enum order and the "default level INFO" comment fit only the reversed gate; not executed | `Logging.DefaultLevelDropsErrors` | `Logging.IntendedGateIsMonotone` |

The four logging functions (`Logging.Log` and its per-severity wrappers) keep
the gate as written, because that is the code's behaviour. The corrected gate
is `Logging.RecordsIntended`, used by `Logging.LogIntended`. No other part of
the model depends on either gate: the container's `logger.info` calls appear
as trace events, not as buffer contents.

## Left out

- Console output (`console.error`, `warn`, `info`, `debug`) and the variadic
  `...args`. These only reach the console.
- Promise scheduling. `Promise.all` rejects at the first rejection while
  sibling hooks may still be pending. The model records only that the
  broadcast rejects, not when, so it does not tell an early rejection from
  one after every hook has settled. Hook outcomes are inputs (`Faults`) and a broadcast
  is a selection plus an aggregate outcome.
- Hooks that throw synchronously. The model treats every hook outcome as a
  returned promise that resolves or rejects. A plugin hook that is not
  `async` and throws while it is called ends the loop at
  core/PluginManager.ts:102-105 early, so the plugins after it are never
  invoked. `PluginManager.FailureDoesNotStopSiblings` and
  `Lifecycle.PluginFailureSettlesSiblings` hold only for rejected promises.
- Hook bodies and their effects on the context or on the registry. The
  context is an opaque field map with a `logger` field, and plugin hooks are
  not modelled as changing it. core/Context.ts is not part of this model.
- `PluginManager.getInstance`, the lazy singleton. One registry value is
  passed to the container explicitly.
- Aliasing. `register` also sets `enabled` on the caller's own object,
  `getLogs` hands out the live array, and the context object is shared by
  reference. The model passes values.
- The plugin's `config`, `desc` and `namespace` options and its optional
  `enable`/`disable`/`remove` methods. The registry never reads or calls them.
- core/Lifecycle.ts only declares the four optional hooks, which shape the
  lifecycle hook set. core/Plugin.ts declares a second plugin interface and an
  abstract adapter whose constructor only stores its config. Neither the
  registry nor the container uses that adapter, so it is not part of this
  model.
- `export const logger = new Logger()`. This is one default instance, the
  same as `Logging.NewLogger(None)`.
- The container's `logger.info` lines are trace events (`Info`). They are not
  appended to a `Logging.Logger` value, because the container holds its
  logger by reference (`LoggerRef`).
- `Logging.LogError`, `LogWarn`, `LogInfo`, `LogDebug` and `GetLogs`, and
  `Application.GetContext`, have no contracts of their own. Each one is
  `Log` at a fixed severity or a field read. The lemmas above state their
  properties.
