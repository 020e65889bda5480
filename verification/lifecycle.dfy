/** Properties of the container's `start` and `unmount` runs: which steps
    happen, in what order, what a failing step cuts off, and what repeating a
    call does. */
module Lifecycle {
  import opened Util
  import opened PluginManager
  import opened Application

  /** The plugins a broadcast of `phase` invokes (they do not depend on
      which hooks reject). */
  function Selected(r: Registry, phase: Phase): seq<string> {
    SelectFrom(r.order, r.plugins, OnPhase(phase))
  }

  /** Selecting from a one-name list. */
  lemma SelectFromSingle(name: string, plugins: map<string, Plugin>, hook: Hook)
    ensures SelectFrom([name], plugins, hook) == if name in plugins && Eligible(plugins[name], hook) then [name] else []
  {
    assert [name][1..] == [];
  }

  /** The events each block plans, whatever rejects. */
  lemma BlockEvents(c: Container, f: Faults)
    ensures Events(BeforeMountBlock(c, f)) ==
      [ResetContext, Info(AppPreparing), ContainerHook(BeforeMount), Info(PluginsPreparing),
       PluginBroadcast(BeforeMount, Selected(c.registry, BeforeMount))]
    ensures Events(MountBlock(c, f)) ==
      [ContainerHook(Mount), Info(AppMounted), PluginBroadcast(Mount, Selected(c.registry, Mount)),
       Info(PluginsMounted)]
    ensures Events(BeforeUnmountBlock(c, f)) ==
      [Info(AppUnmounting), ContainerHook(BeforeUnmount), Info(PluginsUnmounting),
       PluginBroadcast(BeforeUnmount, Selected(c.registry, BeforeUnmount))]
    ensures Events(UnmountBlock(c, f)) ==
      [ContainerHook(Unmount), Info(AppUnmounted), PluginBroadcast(Unmount, Selected(c.registry, Unmount)),
       Info(PluginsUnmounted)]
  {
    BeforeMountPlan(c, f);
    MountPlan(c, f);
    BeforeUnmountPlan(c, f);
    UnmountBlockPlan(c, f);
  }

  /** The events of two gated blocks run back to back. */
  lemma GatedEvents(p: bool, a: seq<Step>, q: bool, b: seq<Step>)
    ensures Events(Gate(p, a) + Gate(q, b)) == (if p then Events(a) else []) + (if q then Events(b) else [])
  {
    assert Events(Gate(p, a) + Gate(q, b)) == Events(Gate(p, a)) + Events(Gate(q, b));
  }

  /** With no rejections every step of every block resolves. */
  lemma NoFaultsAllOk(c: Container)
    ensures forall i :: 0 <= i < |StartSteps(c, NoFaults)| ==> StartSteps(c, NoFaults)[i].ok
    ensures forall i :: 0 <= i < |UnmountSteps(c, NoFaults)| ==> UnmountSteps(c, NoFaults)[i].ok
  {
    forall phase: Phase ensures Broadcast(c.registry, OnPhase(phase), Rejecting(NoFaults, phase)).ok {
      assert Rejecting(NoFaults, phase) == {};
    }
  }

  /** When every step resolves, every planned event happens. */
  lemma CutAllOk(steps: seq<Step>)
    requires forall i :: 0 <= i < |steps| ==> steps[i].ok
    ensures Cut(steps) == Outcome(Events(steps), true)
  {
    CutTraceIsPrefix(steps);
  }

  /** When step `k` is the first that rejects, exactly the steps up to and
      including it happen. */
  lemma {:induction false} CutStopsAt(steps: seq<Step>, k: nat)
    requires k < |steps| && !steps[k].ok
    requires forall i :: 0 <= i < k ==> steps[i].ok
    ensures Cut(steps) == Outcome(Events(steps[..k + 1]), false)
    decreases k
  {
    if k == 0 {
      assert Events(steps[..1]) == [steps[0].event];
    } else {
      assert steps[0].ok;
      CutStopsAt(steps[1..], k - 1);
      assert steps[1..][..k] == steps[1..k + 1];
      assert Events(steps[..k + 1]) == [steps[0].event] + Events(steps[1..k + 1]);
    }
  }

  /** With no rejections, `start` resolves after running the before-mount
      block iff its hook is present, then the mount block iff its own hook is
      present: the two gates are independent. */
  lemma StartRunsGatedBlocksInOrder(c: Container)
    ensures Start(c, NoFaults).ok
    ensures Start(c, NoFaults).trace ==
      (if BeforeMount in c.lifecycle then
         [ResetContext, Info(AppPreparing), ContainerHook(BeforeMount), Info(PluginsPreparing),
          PluginBroadcast(BeforeMount, Selected(c.registry, BeforeMount))]
       else [])
      + (if Mount in c.lifecycle then
         [ContainerHook(Mount), Info(AppMounted), PluginBroadcast(Mount, Selected(c.registry, Mount)),
          Info(PluginsMounted)]
       else [])
  {
    NoFaultsAllOk(c);
    CutAllOk(StartSteps(c, NoFaults));
    BlockEvents(c, NoFaults);
    GatedEvents(BeforeMount in c.lifecycle, BeforeMountBlock(c, NoFaults), Mount in c.lifecycle, MountBlock(c, NoFaults));
  }

  /** With no rejections, `unmount` runs the before-unmount block iff its hook
      is present, then the unmount block iff its own hook is present. */
  lemma UnmountRunsGatedBlocksInOrder(c: Container)
    ensures UnmountContainer(c, NoFaults).ok
    ensures UnmountContainer(c, NoFaults).trace ==
      (if BeforeUnmount in c.lifecycle then
         [Info(AppUnmounting), ContainerHook(BeforeUnmount), Info(PluginsUnmounting),
          PluginBroadcast(BeforeUnmount, Selected(c.registry, BeforeUnmount))]
       else [])
      + (if Unmount in c.lifecycle then
         [ContainerHook(Unmount), Info(AppUnmounted), PluginBroadcast(Unmount, Selected(c.registry, Unmount)),
          Info(PluginsUnmounted)]
       else [])
  {
    NoFaultsAllOk(c);
    CutAllOk(UnmountSteps(c, NoFaults));
    BlockEvents(c, NoFaults);
    GatedEvents(BeforeUnmount in c.lifecycle, BeforeUnmountBlock(c, NoFaults), Unmount in c.lifecycle, UnmountBlock(c, NoFaults));
  }

  /** Without a before-mount hook the mount block still runs when its hook is
      present, and the context is not reset. */
  lemma MountRunsWithoutBeforeMount(c: Container)
    requires BeforeMount !in c.lifecycle && Mount in c.lifecycle
    ensures Start(c, NoFaults).trace ==
      [ContainerHook(Mount), Info(AppMounted), PluginBroadcast(Mount, Selected(c.registry, Mount)),
       Info(PluginsMounted)]
    ensures Start(c, NoFaults).c == c
  {
    StartRunsGatedBlocksInOrder(c);
  }

  /** `e` is a container hook or plugin broadcast of `phase`. */
  predicate Touches(e: Event, phase: Phase) {
    (e.ContainerHook? || e.PluginBroadcast?) && e.phase == phase
  }

  /** Every hook or broadcast event in `es` belongs to a phase in `allowed`. */
  predicate PhasesWithin(es: seq<Event>, allowed: set<Phase>) {
    forall e, p :: e in es && Touches(e, p) ==> p in allowed
  }

  /** A gated block touches its own phases when its hook is present, and
      nothing otherwise. */
  lemma GatedBlockPhases(present: bool, block: seq<Step>, phases: set<Phase>)
    requires PhasesWithin(Events(block), phases)
    ensures PhasesWithin(Events(Gate(present, block)), if present then phases else {})
  {
  }

  lemma PhasesWithinAppend(a: seq<Step>, b: seq<Step>, s: set<Phase>, t: set<Phase>)
    requires PhasesWithin(Events(a), s) && PhasesWithin(Events(b), t)
    ensures PhasesWithin(Events(a + b), s + t)
  {
    assert Events(a + b) == Events(a) + Events(b);
  }

  lemma PhasesWithinPrefix(trace: seq<Event>, steps: seq<Step>, s: set<Phase>)
    requires trace <= Events(steps) && PhasesWithin(Events(steps), s)
    ensures PhasesWithin(trace, s)
  {
    forall e | e in trace ensures e in Events(steps) {
      var i :| 0 <= i < |trace| && trace[i] == e;
      assert Events(steps)[i] == e;
    }
  }

  /** `start` touches only the mounting phases whose container hook is present. */
  lemma StartTouchesOnlyPresentPhases(c: Container, f: Faults)
    ensures PhasesWithin(Start(c, f).trace, c.lifecycle * {BeforeMount, Mount})
  {
    var bm := BeforeMountBlock(c, f);
    var m := MountBlock(c, f);
    BlockEvents(c, f);
    var present := BeforeMount in c.lifecycle;
    GatedBlockPhases(present, bm, {BeforeMount});
    GatedBlockPhases(Mount in c.lifecycle, m, {Mount});
    PhasesWithinAppend(Gate(present, bm), Gate(Mount in c.lifecycle, m),
      if present then {BeforeMount} else {}, if Mount in c.lifecycle then {Mount} else {});
    PhasesWithinPrefix(Start(c, f).trace, StartSteps(c, f), c.lifecycle * {BeforeMount, Mount});
  }

  /** `unmount` touches only the unmounting phases whose container hook is
      present. */
  lemma UnmountTouchesOnlyPresentPhases(c: Container, f: Faults)
    ensures PhasesWithin(UnmountContainer(c, f).trace, c.lifecycle * {BeforeUnmount, Unmount})
  {
    var bu := BeforeUnmountBlock(c, f);
    var u := UnmountBlock(c, f);
    BlockEvents(c, f);
    var present := BeforeUnmount in c.lifecycle;
    GatedBlockPhases(present, bu, {BeforeUnmount});
    GatedBlockPhases(Unmount in c.lifecycle, u, {Unmount});
    PhasesWithinAppend(Gate(present, bu), Gate(Unmount in c.lifecycle, u),
      if present then {BeforeUnmount} else {}, if Unmount in c.lifecycle then {Unmount} else {});
    PhasesWithinPrefix(UnmountContainer(c, f).trace, UnmountSteps(c, f), c.lifecycle * {BeforeUnmount, Unmount});
  }

  /** After `registerLifecycle` with a hook set lacking a phase, neither the
      container hook nor the plugin broadcast of that phase runs. */
  lemma MissingHookSkipsPhase(c: Container, lifecycle: set<Phase>, f: Faults, phase: Phase, invoked: seq<string>)
    requires phase !in lifecycle
    ensures ContainerHook(phase) !in Start(RegisterLifecycle(c, lifecycle), f).trace
    ensures PluginBroadcast(phase, invoked) !in Start(RegisterLifecycle(c, lifecycle), f).trace
    ensures ContainerHook(phase) !in UnmountContainer(RegisterLifecycle(c, lifecycle), f).trace
    ensures PluginBroadcast(phase, invoked) !in UnmountContainer(RegisterLifecycle(c, lifecycle), f).trace
  {
    StartTouchesOnlyPresentPhases(RegisterLifecycle(c, lifecycle), f);
    UnmountTouchesOnlyPresentPhases(RegisterLifecycle(c, lifecycle), f);
    assert Touches(ContainerHook(phase), phase);
    assert Touches(PluginBroadcast(phase, invoked), phase);
  }

  /** A rejecting before-mount hook ends `start` right after it: the context
      has been reset, the plugin broadcast and the whole mount block are
      skipped, and the call rejects. */
  lemma BeforeMountFailureStopsStart(c: Container, f: Faults)
    requires BeforeMount in c.lifecycle && BeforeMount in f.hookRejects
    ensures Start(c, f).trace == [ResetContext, Info(AppPreparing), ContainerHook(BeforeMount)]
    ensures !Start(c, f).ok
    ensures Start(c, f).c.context == Some(Context(map[], Some(c.logger)))
  {
    var steps := StartSteps(c, f);
    CutStopsAt(steps, 2);
    assert steps[..3] == [Step(ResetContext, true), Step(Info(AppPreparing), true), HookStep(BeforeMount, f)];
  }

  /** A plugin whose before-mount hook rejects does not keep its siblings from
      running: the broadcast still invokes every eligible plugin, then `start`
      rejects and the mount block never runs. */
  lemma PluginFailureSettlesSiblings(c: Container, f: Faults, name: string)
    requires BeforeMount in c.lifecycle && BeforeMount !in f.hookRejects
    requires name in c.registry.order && name in c.registry.plugins
    requires Eligible(c.registry.plugins[name], OnPhase(BeforeMount))
    requires name in Rejecting(f, BeforeMount)
    ensures !Start(c, f).ok
    ensures Start(c, f).trace ==
      [ResetContext, Info(AppPreparing), ContainerHook(BeforeMount), Info(PluginsPreparing),
       PluginBroadcast(BeforeMount, Selected(c.registry, BeforeMount))]
    ensures name in Selected(c.registry, BeforeMount)
    ensures ContainerHook(Mount) !in Start(c, f).trace
  {
    var block := BeforeMountBlock(c, f);
    BeforeMountBroadcastRejects(c, f, name);
    var rest := Gate(Mount in c.lifecycle, MountBlock(c, f));
    assert StartSteps(c, f) == block + rest;
    CutAppend(block, rest);
  }

  /** The before-mount block stops at its broadcast when an eligible plugin
      rejects there. */
  lemma BeforeMountBroadcastRejects(c: Container, f: Faults, name: string)
    requires BeforeMount !in f.hookRejects
    requires name in c.registry.order && name in c.registry.plugins
    requires Eligible(c.registry.plugins[name], OnPhase(BeforeMount))
    requires name in Rejecting(f, BeforeMount)
    ensures name in Selected(c.registry, BeforeMount)
    ensures Cut(BeforeMountBlock(c, f)) ==
      Outcome([ResetContext, Info(AppPreparing), ContainerHook(BeforeMount), Info(PluginsPreparing),
               PluginBroadcast(BeforeMount, Selected(c.registry, BeforeMount))], false)
  {
    var block := BeforeMountBlock(c, f);
    SelectFromSpec(c.registry.order, c.registry.plugins, OnPhase(BeforeMount));
    assert !block[4].ok;
    CutStopsAt(block, 4);
    assert block[..5] == block;
    BlockEvents(c, f);
  }

  /** A rejecting mount hook ends `start` right after it, without a mount
      broadcast, whether or not a before-mount block ran (and resolved)
      first. */
  lemma MountFailureStopsStart(c: Container, f: Faults)
    requires Mount in c.lifecycle && Mount in f.hookRejects
    requires BeforeMount in c.lifecycle ==>
      BeforeMount !in f.hookRejects && Broadcast(c.registry, OnPhase(BeforeMount), Rejecting(f, BeforeMount)).ok
    ensures Start(c, f).trace ==
      (if BeforeMount in c.lifecycle then
         [ResetContext, Info(AppPreparing), ContainerHook(BeforeMount), Info(PluginsPreparing),
          PluginBroadcast(BeforeMount, Selected(c.registry, BeforeMount))]
       else [])
      + [ContainerHook(Mount)]
    ensures !Start(c, f).ok
  {
    var a := Gate(BeforeMount in c.lifecycle, BeforeMountBlock(c, f));
    var b := MountBlock(c, f);
    assert StartSteps(c, f) == a + b;
    CutAppend(a, b);
    CutAllOk(a);
    CutStopsAt(b, 0);
    assert Events(b[..1]) == [ContainerHook(Mount)];
    BlockEvents(c, f);
  }

  /** `start` in general: when step `k` of its plan is the first to reject,
      exactly the planned events up to and including that step happen and
      the call rejects. */
  lemma StartStopsAtFirstRejection(c: Container, f: Faults, k: nat)
    requires k < |StartSteps(c, f)| && !StartSteps(c, f)[k].ok
    requires forall i :: 0 <= i < k ==> StartSteps(c, f)[i].ok
    ensures Start(c, f).trace == Events(StartSteps(c, f)[..k + 1])
    ensures !Start(c, f).ok
  {
    CutStopsAt(StartSteps(c, f), k);
  }

  /** `start` resolves after every planned event when no step rejects. */
  lemma StartResolvesWithoutRejection(c: Container, f: Faults)
    requires forall i :: 0 <= i < |StartSteps(c, f)| ==> StartSteps(c, f)[i].ok
    ensures Start(c, f).trace == Events(StartSteps(c, f))
    ensures Start(c, f).ok
  {
    CutAllOk(StartSteps(c, f));
  }

  /** `unmount` in general: when step `k` of its plan is the first to reject,
      exactly the planned events up to and including that step happen and
      the call rejects. */
  lemma UnmountStopsAtFirstRejection(c: Container, f: Faults, k: nat)
    requires k < |UnmountSteps(c, f)| && !UnmountSteps(c, f)[k].ok
    requires forall i :: 0 <= i < k ==> UnmountSteps(c, f)[i].ok
    ensures UnmountContainer(c, f).trace == Events(UnmountSteps(c, f)[..k + 1])
    ensures !UnmountContainer(c, f).ok
  {
    CutStopsAt(UnmountSteps(c, f), k);
  }

  /** `unmount` resolves after every planned event when no step rejects. */
  lemma UnmountResolvesWithoutRejection(c: Container, f: Faults)
    requires forall i :: 0 <= i < |UnmountSteps(c, f)| ==> UnmountSteps(c, f)[i].ok
    ensures UnmountContainer(c, f).trace == Events(UnmountSteps(c, f))
    ensures UnmountContainer(c, f).ok
  {
    CutAllOk(UnmountSteps(c, f));
  }

  /** A rejecting before-unmount hook ends `unmount` right after it: neither
      the plugin broadcast nor the unmount block runs. */
  lemma BeforeUnmountFailureStopsUnmount(c: Container, f: Faults)
    requires BeforeUnmount in c.lifecycle && BeforeUnmount in f.hookRejects
    ensures UnmountContainer(c, f).trace == [Info(AppUnmounting), ContainerHook(BeforeUnmount)]
    ensures !UnmountContainer(c, f).ok
  {
    var steps := UnmountSteps(c, f);
    CutStopsAt(steps, 1);
    assert steps[..2] == [Step(Info(AppUnmounting), true), HookStep(BeforeUnmount, f)];
  }

  /** A rejecting unmount hook ends `unmount` right after it, without the
      unmount broadcast, whether or not a before-unmount block ran (and
      resolved) first. */
  lemma UnmountFailureStopsUnmount(c: Container, f: Faults)
    requires Unmount in c.lifecycle && Unmount in f.hookRejects
    requires BeforeUnmount in c.lifecycle ==>
      BeforeUnmount !in f.hookRejects && Broadcast(c.registry, OnPhase(BeforeUnmount), Rejecting(f, BeforeUnmount)).ok
    ensures UnmountContainer(c, f).trace ==
      (if BeforeUnmount in c.lifecycle then
         [Info(AppUnmounting), ContainerHook(BeforeUnmount), Info(PluginsUnmounting),
          PluginBroadcast(BeforeUnmount, Selected(c.registry, BeforeUnmount))]
       else [])
      + [ContainerHook(Unmount)]
    ensures !UnmountContainer(c, f).ok
  {
    var a := Gate(BeforeUnmount in c.lifecycle, BeforeUnmountBlock(c, f));
    var b := UnmountBlock(c, f);
    assert UnmountSteps(c, f) == a + b;
    CutAppend(a, b);
    CutAllOk(a);
    CutStopsAt(b, 0);
    assert Events(b[..1]) == [ContainerHook(Unmount)];
    BlockEvents(c, f);
  }

  /** There is no re-entry guard: starting a started container repeats the
      whole run and leaves the container as the first start did. */
  lemma StartAgainRepeats(c: Container, f: Faults)
    ensures Start(Start(c, f).c, f) == Start(c, f)
  {
    var c' := Start(c, f).c;
    assert StartSteps(c', f) == StartSteps(c, f);
  }

  /** Unmounting twice runs the gated blocks twice, identically. */
  lemma UnmountAgainRepeats(c: Container, f: Faults)
    ensures UnmountContainer(UnmountContainer(c, f).c, f) == UnmountContainer(c, f)
  {
  }

  /** A container built with the default lifecycle over a registry holding one
      plugin "metrics" with only a mount hook: `start` resolves, the
      before-mount broadcast invokes nobody, and the mount broadcast invokes
      "metrics" exactly once. */
  lemma MetricsScenario(logger: LoggerRef)
    ensures
      var r := Register(EmptyRegistry, Plugin("metrics", false, {OnPhase(Mount)}));
      var run := Start(NewContainer(r, logger), NoFaults);
      && run.ok
      && run.trace ==
         [ResetContext, Info(AppPreparing), ContainerHook(BeforeMount), Info(PluginsPreparing),
          PluginBroadcast(BeforeMount, []),
          ContainerHook(Mount), Info(AppMounted), PluginBroadcast(Mount, ["metrics"]), Info(PluginsMounted)]
  {
    var p := Plugin("metrics", false, {OnPhase(Mount)});
    var stored := p.(enabled := true);
    var r := Register(EmptyRegistry, p);
    assert r == Registry(["metrics"], map["metrics" := stored]);
    assert !Eligible(stored, OnPhase(BeforeMount)) && Eligible(stored, OnPhase(Mount));
    SelectFromSingle("metrics", r.plugins, OnPhase(BeforeMount));
    SelectFromSingle("metrics", r.plugins, OnPhase(Mount));
    assert Selected(r, BeforeMount) == [];
    assert Selected(r, Mount) == ["metrics"];
    var c := NewContainer(r, logger);
    StartRunsGatedBlocksInOrder(c);
  }
}
