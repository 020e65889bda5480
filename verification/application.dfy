/** The application container of core/Application.ts: a lifecycle hook set,
    a handle on the plugin registry, a context and a logger, driven by
    `start` and `unmount`.

    Awaited steps are modelled as a list of steps with given outcomes; the
    run stops after the first step whose promise rejects. The container's
    `logger.info` calls appear in the trace as `Info` events. */
module Application {
  import opened Util
  import opened PluginManager

  /** Identity of a logger object: loggers are shared by reference between
      the container and its context. */
  datatype LoggerRef = LoggerRef(id: nat)

  /** A context field value; the context is otherwise opaque. */
  datatype Value = Text(text: string) | Number(number: int) | Flag(flag: bool)

  /** The shared context: arbitrary fields plus the `logger` field. */
  datatype Context = Context(fields: map<string, Value>, logger: Option<LoggerRef>)

  /** The `{}` that `registerContext` defaults its argument to. */
  const EmptyContext: Context := Context(map[], None)

  /** The container's state. `context` is `None` until a context is
      registered: the field has no initialiser. */
  datatype Container = Container(
    lifecycle: set<Phase>,
    registry: Registry,
    context: Option<Context>,
    logger: LoggerRef)

  /** Every phase has a hook in the default lifecycle. */
  const AllPhases: set<Phase> := {BeforeMount, Mount, BeforeUnmount, Unmount}

  /** `new AppContainer()`: the default no-op lifecycle, the shared registry,
      no context yet and a fresh logger. */
  function NewContainer(registry: Registry, logger: LoggerRef): (c: Container)
    ensures BeforeMount in c.lifecycle && Mount in c.lifecycle
    ensures BeforeUnmount in c.lifecycle && Unmount in c.lifecycle
    ensures c.context == None
    ensures c.registry == registry && c.logger == logger
  {
    Container(AllPhases, registry, None, logger)
  }

  /** `registerLifecycle`: the new hook set replaces the old one wholesale. */
  function RegisterLifecycle(c: Container, lifecycle: set<Phase>): (c': Container)
    ensures forall p :: p in c'.lifecycle <==> p in lifecycle
    ensures c'.registry == c.registry && c'.context == c.context && c'.logger == c.logger
  {
    c.(lifecycle := lifecycle)
  }

  /** `registerPlugin`: a registry `register` on the shared registry. */
  function RegisterPlugin(c: Container, p: Plugin): (c': Container)
    ensures GetPlugin(c'.registry, p.name) == Some(p.(enabled := true))
    ensures forall n :: n != p.name ==> GetPlugin(c'.registry, n) == GetPlugin(c.registry, n)
    ensures p.name in c.registry.plugins ==> c'.registry.order == c.registry.order
    ensures p.name !in c.registry.plugins ==> c'.registry.order == c.registry.order + [p.name]
    ensures c'.lifecycle == c.lifecycle && c'.context == c.context && c'.logger == c.logger
  {
    c.(registry := Register(c.registry, p))
  }

  /** The container after a call that may throw, and whether it returned. */
  datatype Attempt = Attempt(c: Container, ok: bool)

  /** `registerContext`. A context carrying a logger only donates that logger:
      it becomes the container's logger and is written into the existing
      context. Writing into a context that was never registered throws, after
      the container's logger has already been replaced. A context without a
      logger replaces the container's context and receives its logger. */
  function RegisterContext(c: Container, ctx: Context): (a: Attempt)
    ensures a.c.lifecycle == c.lifecycle && a.c.registry == c.registry
    ensures a.ok ==> a.c.context.Some? && a.c.context.value.logger == Some(a.c.logger)
    ensures ctx.logger.None? ==> a.ok && a.c.logger == c.logger && a.c.context.value.fields == ctx.fields
    ensures ctx.logger.Some? ==> a.c.logger == ctx.logger.value && (a.ok <==> c.context.Some?)
    ensures ctx.logger.Some? && a.ok ==> a.c.context.value.fields == c.context.value.fields
    ensures !a.ok ==> a.c.context == c.context
  {
    match ctx.logger
    case Some(l) =>
      var c1 := c.(logger := l);
      if c.context.None? then Attempt(c1, false)
      else Attempt(c1.(context := Some(c.context.value.(logger := Some(l)))), true)
    case None =>
      Attempt(c.(context := Some(ctx.(logger := Some(c.logger)))), true)
  }

  /** `getContext`: the live context, or `undefined` before one is registered. */
  function GetContext(c: Container): Option<Context> {
    c.context
  }

  /** Registering a context with logger `l` into a container that has a
      context makes `l` the logger seen through `getContext`; registering one
      without a logger makes `getContext` return exactly its fields plus the
      container's logger. */
  lemma GetContextAfterRegister(c: Container, ctx: Context)
    ensures ctx.logger.Some? && c.context.Some? ==>
      GetContext(RegisterContext(c, ctx).c).value.logger == ctx.logger
    ensures ctx.logger.None? ==>
      GetContext(RegisterContext(c, ctx).c) == Some(Context(ctx.fields, Some(c.logger)))
  {
  }

  /** The lines the container logs at INFO level while starting and
      unmounting. */
  const AppPreparing: string := "应用准备中"
  const PluginsPreparing: string := "插件准备中"
  const AppMounted: string := "应用初始化成功"
  const PluginsMounted: string := "插件初始化成功"
  const AppUnmounting: string := "应用准备卸载"
  const PluginsUnmounting: string := "插件准备卸载"
  const AppUnmounted: string := "应用卸载成功"
  const PluginsUnmounted: string := "插件卸载成功"

  /** One observable step of `start` or `unmount`. */
  datatype Event =
    | ResetContext
    | Info(text: string)
    | ContainerHook(phase: Phase)
    | PluginBroadcast(phase: Phase, invoked: seq<string>)

  /** A step paired with whether it completes (for a hook or broadcast,
      whether its promise resolves). */
  datatype Step = Step(event: Event, ok: bool)

  /** The events that happened and whether the whole call resolved. */
  datatype Outcome = Outcome(trace: seq<Event>, ok: bool)

  /** Running awaited steps in sequence: every step up to and including the
      first failing one happens, nothing after it, and the call resolves iff
      every step does. */
  function Cut(steps: seq<Step>): (o: Outcome)
    ensures |o.trace| <= |steps|
    ensures o.ok <==> forall i :: 0 <= i < |steps| ==> steps[i].ok
    ensures o.ok ==> |o.trace| == |steps|
    ensures !o.ok ==> 0 < |o.trace| && !steps[|o.trace| - 1].ok
    ensures forall i :: 0 <= i < |o.trace| - 1 ==> steps[i].ok
    decreases |steps|
  {
    if |steps| == 0 then Outcome([], true)
    else if !steps[0].ok then Outcome([steps[0].event], false)
    else
      var rest := Cut(steps[1..]);
      Outcome([steps[0].event] + rest.trace, rest.ok)
  }

  /** The events of a list of steps. */
  function Events(steps: seq<Step>): (es: seq<Event>)
    ensures |es| == |steps|
    ensures forall i :: 0 <= i < |steps| ==> es[i] == steps[i].event
  {
    seq(|steps|, i requires 0 <= i < |steps| => steps[i].event)
  }

  /** Running two blocks one after the other: the second runs only when the
      first resolved. */
  lemma {:induction false} CutAppend(a: seq<Step>, b: seq<Step>)
    ensures Cut(a + b) == if Cut(a).ok then Outcome(Cut(a).trace + Cut(b).trace, Cut(b).ok) else Cut(a)
    decreases |a|
  {
    if |a| == 0 {
      assert a + b == b;
    } else {
      var ab := a + b;
      assert ab[0] == a[0];
      assert ab[1..] == a[1..] + b;
      if a[0].ok {
        CutAppend(a[1..], b);
        var tail := Cut(a[1..]);
        if tail.ok {
          assert [a[0].event] + (tail.trace + Cut(b).trace) == ([a[0].event] + tail.trace) + Cut(b).trace;
        }
      }
    }
  }

  /** The events that happen are the planned events, from the start. */
  lemma {:induction false} CutTraceIsPrefix(steps: seq<Step>)
    ensures Cut(steps).trace <= Events(steps)
    decreases |steps|
  {
    if |steps| > 0 && steps[0].ok {
      CutTraceIsPrefix(steps[1..]);
      assert Events(steps) == [steps[0].event] + Events(steps[1..]);
    }
  }

  /** Which container hooks and plugin hooks reject, per phase. */
  datatype Faults = Faults(hookRejects: set<Phase>, pluginRejects: map<Phase, set<string>>)

  /** No hook rejects. */
  const NoFaults: Faults := Faults({}, map[])

  /** The plugins whose hook for `phase` rejects. */
  function Rejecting(f: Faults, phase: Phase): set<string> {
    if phase in f.pluginRejects then f.pluginRejects[phase] else {}
  }

  /** Awaiting the container's own hook for `phase`. */
  function HookStep(phase: Phase, f: Faults): Step {
    Step(ContainerHook(phase), phase !in f.hookRejects)
  }

  /** Awaiting the plugin broadcast for `phase`. */
  function BroadcastStep(r: Registry, phase: Phase, f: Faults): Step {
    var b := Broadcast(r, OnPhase(phase), Rejecting(f, phase));
    Step(PluginBroadcast(phase, b.invoked), b.ok)
  }

  /** A block guarded by the presence of a container hook. */
  function Gate(present: bool, block: seq<Step>): seq<Step> {
    if present then block else []
  }

  /** Whether an awaited step with this event resolves: logging and the
      context reset always complete, a container hook resolves unless it is
      among the rejecting ones, and a broadcast resolves iff none of the
      plugins it invokes rejects. */
  predicate Resolves(e: Event, f: Faults) {
    match e
    case ContainerHook(phase) => phase !in f.hookRejects
    case PluginBroadcast(phase, invoked) => forall n :: n in invoked ==> n !in Rejecting(f, phase)
    case _ => true
  }

  /** The before-mount block: reset the context, log, run the container hook,
      log, broadcast. */
  function BeforeMountBlock(c: Container, f: Faults): seq<Step> {
    [ Step(ResetContext, true), Step(Info(AppPreparing), true), HookStep(BeforeMount, f),
      Step(Info(PluginsPreparing), true), BroadcastStep(c.registry, BeforeMount, f) ]
  }

  /** The events of `BeforeMountBlock`, whatever rejects, and which of its steps
      resolve. */
  lemma BeforeMountPlan(c: Container, f: Faults)
    ensures Events(BeforeMountBlock(c, f)) ==
      [ResetContext, Info(AppPreparing), ContainerHook(BeforeMount), Info(PluginsPreparing),
       PluginBroadcast(BeforeMount, SelectFrom(c.registry.order, c.registry.plugins, OnPhase(BeforeMount)))]
    ensures forall i :: 0 <= i < |BeforeMountBlock(c, f)| ==> (BeforeMountBlock(c, f)[i].ok <==> Resolves(BeforeMountBlock(c, f)[i].event, f))
  {
  }

  /** The mount block: container hook, log, broadcast, log. */
  function MountBlock(c: Container, f: Faults): seq<Step> {
    [ HookStep(Mount, f), Step(Info(AppMounted), true),
      BroadcastStep(c.registry, Mount, f), Step(Info(PluginsMounted), true) ]
  }

  /** The events of `MountBlock`, whatever rejects, and which of its steps
      resolve. */
  lemma MountPlan(c: Container, f: Faults)
    ensures Events(MountBlock(c, f)) ==
      [ContainerHook(Mount), Info(AppMounted),
       PluginBroadcast(Mount, SelectFrom(c.registry.order, c.registry.plugins, OnPhase(Mount))),
       Info(PluginsMounted)]
    ensures forall i :: 0 <= i < |MountBlock(c, f)| ==> (MountBlock(c, f)[i].ok <==> Resolves(MountBlock(c, f)[i].event, f))
  {
  }

  /** The before-unmount block: log, container hook, log, broadcast. */
  function BeforeUnmountBlock(c: Container, f: Faults): seq<Step> {
    [ Step(Info(AppUnmounting), true), HookStep(BeforeUnmount, f),
      Step(Info(PluginsUnmounting), true), BroadcastStep(c.registry, BeforeUnmount, f) ]
  }

  /** The events of `BeforeUnmountBlock`, whatever rejects, and which of its steps
      resolve. */
  lemma BeforeUnmountPlan(c: Container, f: Faults)
    ensures Events(BeforeUnmountBlock(c, f)) ==
      [Info(AppUnmounting), ContainerHook(BeforeUnmount), Info(PluginsUnmounting),
       PluginBroadcast(BeforeUnmount, SelectFrom(c.registry.order, c.registry.plugins, OnPhase(BeforeUnmount)))]
    ensures forall i :: 0 <= i < |BeforeUnmountBlock(c, f)| ==> (BeforeUnmountBlock(c, f)[i].ok <==> Resolves(BeforeUnmountBlock(c, f)[i].event, f))
  {
  }

  /** The unmount block: container hook, log, broadcast, log. */
  function UnmountBlock(c: Container, f: Faults): seq<Step> {
    [ HookStep(Unmount, f), Step(Info(AppUnmounted), true),
      BroadcastStep(c.registry, Unmount, f), Step(Info(PluginsUnmounted), true) ]
  }

  /** The events of `UnmountBlock`, whatever rejects, and which of its steps
      resolve. */
  lemma UnmountBlockPlan(c: Container, f: Faults)
    ensures Events(UnmountBlock(c, f)) ==
      [ContainerHook(Unmount), Info(AppUnmounted),
       PluginBroadcast(Unmount, SelectFrom(c.registry.order, c.registry.plugins, OnPhase(Unmount))),
       Info(PluginsUnmounted)]
    ensures forall i :: 0 <= i < |UnmountBlock(c, f)| ==> (UnmountBlock(c, f)[i].ok <==> Resolves(UnmountBlock(c, f)[i].event, f))
  {
  }

  /** The events of two step lists run back to back. */
  lemma EventsAppend(a: seq<Step>, b: seq<Step>)
    ensures Events(a + b) == Events(a) + Events(b)
  {
  }

  /** The steps `start` plans: the before-mount block iff `onBeforeMount` is
      present, then, independently, the mount block iff `onMount` is
      present. */
  function StartSteps(c: Container, f: Faults): seq<Step> {
    Gate(BeforeMount in c.lifecycle, BeforeMountBlock(c, f)) + Gate(Mount in c.lifecycle, MountBlock(c, f))
  }

  /** The steps `unmount` plans: the before-unmount block iff
      `onBeforeUnmount` is present, then, independently, the unmount block
      iff `onUnmount` is present. */
  function UnmountSteps(c: Container, f: Faults): seq<Step> {
    Gate(BeforeUnmount in c.lifecycle, BeforeUnmountBlock(c, f)) + Gate(Unmount in c.lifecycle, UnmountBlock(c, f))
  }

  /** What `start` plans, as core/Application.ts:71-86 orders it: reset, log,
      container hook, log, broadcast iff `onBeforeMount` is present; then
      container hook, log, broadcast, log iff `onMount` is present. Each
      broadcast invokes the eligible plugins in iteration order whatever
      rejects, and a step rejects only as `Resolves` says. */
  lemma StartPlan(c: Container, f: Faults)
    ensures Events(StartSteps(c, f)) ==
      (if BeforeMount in c.lifecycle then
         [ResetContext, Info(AppPreparing), ContainerHook(BeforeMount), Info(PluginsPreparing),
          PluginBroadcast(BeforeMount, SelectFrom(c.registry.order, c.registry.plugins, OnPhase(BeforeMount)))]
       else [])
      + (if Mount in c.lifecycle then
           [ContainerHook(Mount), Info(AppMounted),
            PluginBroadcast(Mount, SelectFrom(c.registry.order, c.registry.plugins, OnPhase(Mount))),
            Info(PluginsMounted)]
         else [])
    ensures forall i :: 0 <= i < |StartSteps(c, f)| ==> (StartSteps(c, f)[i].ok <==> Resolves(StartSteps(c, f)[i].event, f))
  {
    var a := Gate(BeforeMount in c.lifecycle, BeforeMountBlock(c, f));
    var b := Gate(Mount in c.lifecycle, MountBlock(c, f));
    BeforeMountPlan(c, f);
    MountPlan(c, f);
    EventsAppend(a, b);
  }

  /** What `unmount` plans, as core/Application.ts:93-105 orders it: log,
      container hook, log, broadcast iff `onBeforeUnmount` is present; then
      container hook, log, broadcast, log iff `onUnmount` is present. */
  lemma UnmountPlan(c: Container, f: Faults)
    ensures Events(UnmountSteps(c, f)) ==
      (if BeforeUnmount in c.lifecycle then
         [Info(AppUnmounting), ContainerHook(BeforeUnmount), Info(PluginsUnmounting),
          PluginBroadcast(BeforeUnmount, SelectFrom(c.registry.order, c.registry.plugins, OnPhase(BeforeUnmount)))]
       else [])
      + (if Unmount in c.lifecycle then
           [ContainerHook(Unmount), Info(AppUnmounted),
            PluginBroadcast(Unmount, SelectFrom(c.registry.order, c.registry.plugins, OnPhase(Unmount))),
            Info(PluginsUnmounted)]
         else [])
    ensures forall i :: 0 <= i < |UnmountSteps(c, f)| ==> (UnmountSteps(c, f)[i].ok <==> Resolves(UnmountSteps(c, f)[i].event, f))
  {
    var a := Gate(BeforeUnmount in c.lifecycle, BeforeUnmountBlock(c, f));
    var b := Gate(Unmount in c.lifecycle, UnmountBlock(c, f));
    BeforeUnmountPlan(c, f);
    UnmountBlockPlan(c, f);
    EventsAppend(a, b);
  }

  /** A `start` or `unmount` call: the container afterwards, the events and
      whether the returned promise resolved. */
  datatype Run = Run(c: Container, trace: seq<Event>, ok: bool)

  /** `start`. The context is reset (by `registerContext()` with the default
      empty context) exactly when the before-mount hook is present, before
      anything can fail; nothing else in the container changes. The events
      are the planned ones up to the first rejecting step, which is the last
      event, and the call resolves iff no step rejects. */
  function Start(c: Container, f: Faults): (run: Run)
    ensures run.c.lifecycle == c.lifecycle && run.c.registry == c.registry && run.c.logger == c.logger
    ensures BeforeMount in c.lifecycle ==> run.c.context == Some(Context(map[], Some(c.logger)))
    ensures BeforeMount !in c.lifecycle ==> run.c.context == c.context
    ensures ResetContext in run.trace <==> BeforeMount in c.lifecycle
    ensures run.trace <= Events(StartSteps(c, f))
    ensures run.ok <==> forall i :: 0 <= i < |StartSteps(c, f)| ==> StartSteps(c, f)[i].ok
    ensures !run.ok ==> 0 < |run.trace| && !StartSteps(c, f)[|run.trace| - 1].ok
    ensures forall i :: 0 <= i < |run.trace| - 1 ==> StartSteps(c, f)[i].ok
  {
    var c' := if BeforeMount in c.lifecycle then RegisterContext(c, EmptyContext).c else c;
    var steps := StartSteps(c, f);
    var o := Cut(steps);
    CutTraceIsPrefix(steps);
    assert BeforeMount in c.lifecycle ==> o.trace[0] == ResetContext;
    assert ResetContext in o.trace ==> BeforeMount in c.lifecycle by {
      if ResetContext in o.trace {
        var i :| 0 <= i < |o.trace| && o.trace[i] == ResetContext;
        assert steps[i].event == ResetContext;
      }
    }
    Run(c', o.trace, o.ok)
  }

  /** `unmount`: runs its gated blocks up to the first rejecting step, and
      never touches the container. */
  function UnmountContainer(c: Container, f: Faults): (run: Run)
    ensures run.c == c
    ensures run.trace <= Events(UnmountSteps(c, f))
    ensures run.ok <==> forall i :: 0 <= i < |UnmountSteps(c, f)| ==> UnmountSteps(c, f)[i].ok
    ensures !run.ok ==> 0 < |run.trace| && !UnmountSteps(c, f)[|run.trace| - 1].ok
    ensures forall i :: 0 <= i < |run.trace| - 1 ==> UnmountSteps(c, f)[i].ok
  {
    var o := Cut(UnmountSteps(c, f));
    CutTraceIsPrefix(UnmountSteps(c, f));
    Run(c, o.trace, o.ok)
  }
}
