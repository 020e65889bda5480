/** The plugin registry of core/PluginManager.ts: a map from plugin name to
    plugin, iterated in insertion order, with lenient CRUD operations and a
    broadcast that runs one hook of every eligible plugin.

    Hook bodies are not modelled: whether a hook's promise rejects is an
    input, and a broadcast is the selection of plugins it invokes together
    with the aggregate outcome of waiting for all of them. */
module PluginManager {
  import opened Util

  /** The four lifecycle phases shared by the container and its plugins. */
  datatype Phase = BeforeMount | Mount | BeforeUnmount | Unmount

  /** The optional hooks a plugin may define: one per phase, plus `execute`. */
  datatype Hook = OnPhase(phase: Phase) | Execute

  /** A plugin as far as the registry is concerned: its name, its `enabled`
      flag and which hooks it defines. */
  datatype Plugin = Plugin(name: string, enabled: bool, hooks: set<Hook>)

  /** A JavaScript `Map<string, IAppPlugin>`: `order` is the key iteration
      order, `plugins` the entries. */
  datatype Registry = Registry(order: seq<string>, plugins: map<string, Plugin>)

  /** The registry's invariant: each name is listed once, the listed names
      are exactly the keys, and each entry is stored under its own name. */
  ghost predicate Valid(r: Registry) {
    && Distinct(r.order)
    && (forall n :: n in r.order <==> n in r.plugins)
    && (forall n :: n in r.plugins ==> r.plugins[n].name == n)
  }

  /** A registry with no plugins. */
  const EmptyRegistry: Registry := Registry([], map[])

  /** `getPlugin`: the stored entry, or `undefined`. */
  function GetPlugin(r: Registry, name: string): (p: Option<Plugin>)
    ensures p.Some? <==> name in r.plugins
    ensures p.Some? ==> p.value == r.plugins[name]
  {
    if name in r.plugins then Some(r.plugins[name]) else None
  }

  /** `register`: stores the plugin under its name with `enabled` forced to
      true, replacing any plugin of the same name. As with `Map.set`, a
      replaced key keeps its place in iteration order and a new key goes last. */
  function Register(r: Registry, p: Plugin): (r': Registry)
    ensures GetPlugin(r', p.name) == Some(p.(enabled := true))
    ensures forall n :: n != p.name ==> GetPlugin(r', n) == GetPlugin(r, n)
    ensures p.name in r.plugins ==> r'.order == r.order
    ensures p.name !in r.plugins ==> r'.order == r.order + [p.name]
  {
    var order := if p.name in r.plugins then r.order else r.order + [p.name];
    Registry(order, r.plugins[p.name := p.(enabled := true)])
  }

  /** Sets the `enabled` flag of a present entry; absent names are ignored. */
  function SetEnabled(r: Registry, name: string, enabled: bool): (r': Registry)
    ensures r'.order == r.order
    ensures name in r.plugins ==> GetPlugin(r', name) == Some(r.plugins[name].(enabled := enabled))
    ensures forall n :: n != name ==> GetPlugin(r', n) == GetPlugin(r, n)
    ensures name !in r.plugins ==> r' == r
  {
    match GetPlugin(r, name)
    case Some(p) => r.(plugins := r.plugins[name := p.(enabled := enabled)])
    case None => r
  }

  /** `enablePlugin`. */
  function EnablePlugin(r: Registry, name: string): (r': Registry)
    ensures name in r.plugins ==> GetPlugin(r', name) == Some(r.plugins[name].(enabled := true))
    ensures forall n :: n != name ==> GetPlugin(r', n) == GetPlugin(r, n)
    ensures r'.order == r.order
    ensures name !in r.plugins ==> r' == r
  {
    SetEnabled(r, name, true)
  }

  /** `disablePlugin`. */
  function DisablePlugin(r: Registry, name: string): (r': Registry)
    ensures name in r.plugins ==> GetPlugin(r', name) == Some(r.plugins[name].(enabled := false))
    ensures forall n :: n != name ==> GetPlugin(r', n) == GetPlugin(r, n)
    ensures r'.order == r.order
    ensures name !in r.plugins ==> r' == r
  {
    SetEnabled(r, name, false)
  }

  /** `order` with every occurrence of `name` deleted. */
  function Without(order: seq<string>, name: string): (s: seq<string>)
    ensures forall n :: n in s <==> n in order && n != name
    ensures IsSubsequence(s, order)
    decreases |order|
  {
    if |order| == 0 then []
    else
      var rest := Without(order[1..], name);
      assert forall n :: n in order <==> n == order[0] || n in order[1..];
      if order[0] == name then
        assert IsSubsequence(rest, order) by { assert IsSubsequence(rest, order[1..]); }
        rest
      else
        [order[0]] + rest
  }

  /** `removePlugin`: deletes a present entry; absent names are ignored. As
      with `Map.delete`, the remaining keys keep their iteration order. */
  function RemovePlugin(r: Registry, name: string): (r': Registry)
    ensures GetPlugin(r', name) == None
    ensures forall n :: n != name ==> GetPlugin(r', n) == GetPlugin(r, n)
    ensures name in r.plugins ==> forall n :: n in r'.order <==> n in r.order && n != name
    ensures IsSubsequence(r'.order, r.order)
    ensures name !in r.plugins ==> r' == r
  {
    SubsequenceReflexive(r.order);
    if GetPlugin(r, name).Some? then Registry(Without(r.order, name), r.plugins - {name})
    else r
  }

  /** A plugin takes part in a broadcast of `hook` when it is enabled and
      defines that hook. */
  predicate Eligible(p: Plugin, hook: Hook) {
    p.enabled && hook in p.hooks
  }

  /** The names in `order` whose entries are eligible for `hook`, in order. */
  function SelectFrom(order: seq<string>, plugins: map<string, Plugin>, hook: Hook): seq<string>
    decreases |order|
  {
    if |order| == 0 then []
    else
      (if order[0] in plugins && Eligible(plugins[order[0]], hook) then [order[0]] else [])
      + SelectFrom(order[1..], plugins, hook)
  }

  /** The selection holds exactly the eligible listed names, in list order. */
  lemma {:induction false} SelectFromSpec(order: seq<string>, plugins: map<string, Plugin>, hook: Hook)
    ensures forall n :: n in SelectFrom(order, plugins, hook) <==> n in order && n in plugins && Eligible(plugins[n], hook)
    ensures IsSubsequence(SelectFrom(order, plugins, hook), order)
    decreases |order|
  {
    if |order| > 0 {
      SelectFromSpec(order[1..], plugins, hook);
      var rest := SelectFrom(order[1..], plugins, hook);
      assert forall n :: n in order <==> n == order[0] || n in order[1..];
      if !(order[0] in plugins && Eligible(plugins[order[0]], hook)) {
        assert SelectFrom(order, plugins, hook) == rest;
        assert IsSubsequence(rest, order) by { assert IsSubsequence(rest, order[1..]); }
      }
    }
  }

  /** Peeling one name off the front of a suffix of `order`. */
  lemma SelectFromStep(order: seq<string>, i: nat, plugins: map<string, Plugin>, hook: Hook)
    requires i < |order|
    ensures SelectFrom(order[i..], plugins, hook)
         == (if order[i] in plugins && Eligible(plugins[order[i]], hook) then [order[i]] else [])
            + SelectFrom(order[i + 1..], plugins, hook)
  {
    assert order[i..][0] == order[i];
    assert order[i..][1..] == order[i + 1..];
  }

  /** What a broadcast did: the plugins whose hook it invoked, in invocation
      order, and whether the joint wait resolved. */
  datatype Fanout = Fanout(invoked: seq<string>, ok: bool)

  /** One broadcast of `hook` (`executeAll`, `onBeforeMountAll`, `onMountAll`,
      `onBeforeUnmountAll`, `onUnmountAll`). `rejects` names the plugins whose
      hook promise would reject. Every eligible plugin is invoked before any
      promise is awaited, so the invocations do not depend on `rejects`; the
      wait fails iff some invoked hook rejects. */
  function Broadcast(r: Registry, hook: Hook, rejects: set<string>): (b: Fanout)
    ensures forall n :: n in b.invoked <==> n in r.order && n in r.plugins && Eligible(r.plugins[n], hook)
    ensures IsSubsequence(b.invoked, r.order)
    ensures Distinct(r.order) ==> Distinct(b.invoked)
    ensures b.ok <==> forall n :: n in b.invoked ==> n !in rejects
  {
    var invoked := SelectFrom(r.order, r.plugins, hook);
    SelectFromSpec(r.order, r.plugins, hook);
    assert Distinct(r.order) ==> Distinct(invoked) by {
      if Distinct(r.order) {
        SubsequenceDistinct(invoked, r.order);
      }
    }
    Fanout(invoked, forall n | n in invoked :: n !in rejects)
  }

  /** The loop of a broadcast: one pass over the map in iteration order,
      issuing the hook of every eligible plugin. */
  method CollectEligible(r: Registry, hook: Hook) returns (invoked: seq<string>)
    ensures invoked == SelectFrom(r.order, r.plugins, hook)
  {
    invoked := [];
    var i := 0;
    while i < |r.order|
      invariant 0 <= i <= |r.order|
      invariant invoked + SelectFrom(r.order[i..], r.plugins, hook) == SelectFrom(r.order, r.plugins, hook)
    {
      var n := r.order[i];
      ghost var prev := invoked;
      ghost var rest := SelectFrom(r.order[i + 1..], r.plugins, hook);
      SelectFromStep(r.order, i, r.plugins, hook);
      if n in r.plugins && r.plugins[n].enabled && hook in r.plugins[n].hooks {
        invoked := invoked + [n];
        assert prev + ([n] + rest) == invoked + rest;
      } else {
        assert [] + rest == rest;
      }
      i := i + 1;
    }
    assert r.order[i..] == [];
  }

  /** The joint wait of a broadcast: it resolves iff no issued hook rejects. */
  method AwaitAll(invoked: seq<string>, rejects: set<string>) returns (ok: bool)
    ensures ok <==> forall n :: n in invoked ==> n !in rejects
  {
    ok := true;
    var j := 0;
    while j < |invoked|
      invariant 0 <= j <= |invoked|
      invariant ok <==> forall k :: 0 <= k < j ==> invoked[k] !in rejects
    {
      if invoked[j] in rejects {
        ok := false;
      }
      j := j + 1;
    }
  }

  /** The broadcast as core/PluginManager.ts runs it: every eligible hook is issued
      before anything is awaited, then all are awaited together. */
  method BroadcastLoop(r: Registry, hook: Hook, rejects: set<string>) returns (invoked: seq<string>, ok: bool)
    ensures invoked == Broadcast(r, hook, rejects).invoked
    ensures ok == Broadcast(r, hook, rejects).ok
  {
    invoked := CollectEligible(r, hook);
    ok := AwaitAll(invoked, rejects);
  }

  /** `register` keeps the registry's invariant. */
  lemma RegisterPreservesValid(r: Registry, p: Plugin)
    requires Valid(r)
    ensures Valid(Register(r, p))
  {
    var r1 := Register(r, p);
    if p.name !in r.plugins {
      forall i, j | 0 <= i < j < |r1.order| ensures r1.order[i] != r1.order[j] {
        if j == |r.order| {
          assert r1.order[i] == r.order[i];
        }
      }
    }
    assert forall n :: n in r1.order <==> n in r.order || n == p.name;
  }

  /** `enablePlugin`, `disablePlugin` and `removePlugin` keep the registry's
      invariant. */
  lemma UpdatesPreserveValid(r: Registry, name: string, enabled: bool)
    requires Valid(r)
    ensures Valid(SetEnabled(r, name, enabled))
    ensures Valid(RemovePlugin(r, name))
  {
    if name in r.plugins {
      var r3 := RemovePlugin(r, name);
      SubsequenceDistinct(r3.order, r.order);
    }
  }

  /** Registering twice under one name leaves one entry, the later plugin,
      at the position of the first registration. */
  lemma {:induction false} LaterRegistrationWins(r: Registry, p: Plugin, q: Plugin)
    requires Valid(r)
    requires p.name == q.name
    ensures GetPlugin(Register(Register(r, p), q), q.name) == Some(q.(enabled := true))
    ensures Register(Register(r, p), q).order == Register(r, p).order
    ensures Register(Register(r, p), q) == Register(r, q)
  {
    var r1 := Register(r, p);
    assert p.name in r1.plugins;
    assert r.plugins[p.name := p.(enabled := true)][q.name := q.(enabled := true)]
        == r.plugins[q.name := q.(enabled := true)];
  }

  /** A freshly registered plugin takes part in every broadcast of a hook it
      defines, even if it was passed in disabled. */
  lemma RegisteredPluginIsInvoked(r: Registry, p: Plugin, hook: Hook, rejects: set<string>)
    requires Valid(r)
    requires hook in p.hooks
    ensures p.name in Broadcast(Register(r, p), hook, rejects).invoked
  {
    var r1 := Register(r, p);
    assert p.name in r1.order;
  }

  /** A disabled plugin is skipped by every broadcast, and a plugin lacking
      the hook is skipped whatever its flag. */
  lemma SkippedPluginsAreNotInvoked(r: Registry, name: string, hook: Hook, rejects: set<string>)
    ensures name !in Broadcast(DisablePlugin(r, name), hook, rejects).invoked
    ensures name in r.plugins && hook !in r.plugins[name].hooks ==> name !in Broadcast(r, hook, rejects).invoked
  {
  }

  /** The plugins a broadcast invokes do not depend on which hooks reject:
      a failing hook does not keep its siblings from running. */
  lemma FailureDoesNotStopSiblings(r: Registry, hook: Hook, rejects: set<string>, name: string)
    requires Valid(r)
    requires name in r.plugins && Eligible(r.plugins[name], hook)
    ensures name in Broadcast(r, hook, rejects).invoked
    ensures Broadcast(r, hook, rejects).invoked == Broadcast(r, hook, {}).invoked
    ensures Broadcast(r, hook, {}).ok
    ensures name in rejects ==> !Broadcast(r, hook, rejects).ok
  {
  }
}
