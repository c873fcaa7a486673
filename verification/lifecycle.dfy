/** The lifecycle of the active guest: installing a freshly loaded instance,
    the setup-once flag, the per-tick setup, update and drain systems, and
    the scene clear. The guest's `setup` and `update` are not modelled as
    code: each invocation is given as the sequence of host calls the guest
    made before it returned or trapped. Their results are ignored, as in the
    source. */
module Lifecycle {
  import opened Events
  import opened Host
  import opened Replay

  /** An opaque handle on an instantiated guest component. */
  datatype InstanceId = InstanceId(id: nat)

  /** The bindings resource: the guest's entry points and the setup flag. */
  datatype Bindings = Bindings(instance: InstanceId, firstRun: bool)

  /** The store resource: the instance's state, holding the host context. */
  datatype Store = Store(instance: InstanceId, ctx: Ctx)

  /** The resources the systems share, and the guest's part of the scene. */
  datatype World = World(bindings: Option<Bindings>, store: Option<Store>, scene: seq<Primitive>)

  /** The world before any guest has been loaded. */
  const Empty: World := World(None, None, [])

  /** Why a load attempt failed; every such failure happens before the swap. */
  datatype LoadError = TransportError | DecodeError | InstantiateError

  /** The outcome of one background load. */
  datatype LoadOutcome = Loaded(instance: InstanceId) | LoadFailed(error: LoadError)

  /** Bindings and store are present together and belong to the same
      instance; the setup and update systems unwrap the store on this basis. */
  predicate Consistent(w: World)
  {
    && w.bindings.Some? == w.store.Some?
    && (w.bindings.Some? ==> w.bindings.value.instance == w.store.value.instance)
  }

  /** Whether the installed instance still awaits its `setup` call. */
  predicate SetupPending(w: World)
  {
    w.bindings.Some? && w.bindings.value.firstRun
  }

  /** The swap applied on the main thread after a successful load: the
      bindings are replaced or inserted with the flag raised, and the store
      is replaced or inserted by a fresh one with an empty queue. Whatever
      the old instance had queued is discarded. */
  function Install(w: World, inst: InstanceId): (r: World)
    ensures Consistent(r)
    ensures SetupPending(r)
    ensures r.bindings.value.instance == inst
    ensures r.store.value.ctx.queue == []
    ensures r.scene == w.scene
  {
    var bindings :=
      match w.bindings
      case Some(b) => b.(instance := inst, firstRun := true)
      case None => Bindings(inst, true);
    var store :=
      match w.store
      case Some(s) => s.(instance := inst, ctx := Ctx([]))
      case None => Store(inst, Ctx([]));
    w.(bindings := Some(bindings), store := Some(store))
  }

  /** Completion of a background load: a failed load changes nothing, so a
      previously active instance keeps running. */
  function CompleteLoad(w: World, outcome: LoadOutcome): (r: World)
    ensures outcome.LoadFailed? ==> r == w
    ensures outcome.Loaded? ==> r == Install(w, outcome.instance)
  {
    match outcome
    case Loaded(inst) => Install(w, inst)
    case LoadFailed(_) => w
  }

  /** A system's effect on the world, and whether it called into the guest. */
  datatype Invocation = Invocation(world: World, called: bool)

  /** The setup system: calls `setup` exactly when an instance is installed
      and its flag is raised, lowering the flag first. */
  function RunSetup(w: World, calls: seq<HostCall>): (r: Invocation)
    requires Consistent(w)
    ensures Consistent(r.world)
    ensures r.called <==> SetupPending(w)
    ensures !SetupPending(r.world)
    ensures r.world.bindings.Some? == w.bindings.Some?
    ensures r.world.scene == w.scene
    ensures !r.called ==> r.world == w
    ensures r.called ==>
              && r.world.bindings == Some(w.bindings.value.(firstRun := false))
              && r.world.store == Some(w.store.value.(ctx := Record(w.store.value.ctx, calls)))
  {
    match w.bindings
    case None => Invocation(w, false)
    case Some(b) =>
      if b.firstRun then
        var s := w.store.value;
        Invocation(w.(bindings := Some(b.(firstRun := false)),
                      store := Some(s.(ctx := Record(s.ctx, calls)))), true)
      else
        Invocation(w, false)
  }

  /** The update system: calls `update` whenever an instance is installed. */
  function RunUpdate(w: World, calls: seq<HostCall>): (r: Invocation)
    requires Consistent(w)
    ensures Consistent(r.world)
    ensures r.called <==> w.bindings.Some?
    ensures r.world.bindings == w.bindings
    ensures r.world.scene == w.scene
    ensures !r.called ==> r.world == w
    ensures r.called ==> r.world.store.value.ctx == Record(w.store.value.ctx, calls)
  {
    match w.bindings
    case None => Invocation(w, false)
    case Some(_) =>
      var s := w.store.value;
      Invocation(w.(store := Some(s.(ctx := Record(s.ctx, calls)))), true)
  }

  /** The clear system: every guest primitive is removed from the scene. */
  function Clear(w: World): (r: World)
    ensures r.scene == []
    ensures r.bindings == w.bindings && r.store == w.store
  {
    w.(scene := [])
  }

  /** The drain system's effect, and the diagnostics it wrote. */
  datatype Handled = Handled(world: World, log: seq<Diagnostic>)

  /** The drain system: without a store it does nothing; otherwise it
      empties the queue, replays it from a fresh state and adds what it
      emitted to the scene. */
  function HandleGuestEvent(w: World, parse: string -> Color): (r: Handled)
    ensures w.store.None? ==> r.world == w && r.log == []
    ensures w.store.Some? ==>
              && r.world.store.Some?
              && r.world.store.value.instance == w.store.value.instance
              && r.world.store.value.ctx.queue == []
              && r.world.scene == w.scene + Drain(w.store.value.ctx.queue, parse).emitted
              && r.log == Drain(w.store.value.ctx.queue, parse).log
    ensures r.world.bindings == w.bindings
    ensures Consistent(w) ==> Consistent(r.world)
  {
    match w.store
    case None => Handled(w, [])
    case Some(s) =>
      var d := Drain(s.ctx.queue, parse);
      Handled(w.(store := Some(s.(ctx := Ctx([]))), scene := w.scene + d.emitted), d.log)
  }

  /** One system run, or the arrival of a background load. */
  datatype Action =
    | LoadDone(outcome: LoadOutcome)
    | ClearSystem
    | SetupSystem(setupCalls: seq<HostCall>)
    | UpdateSystem(updateCalls: seq<HostCall>)
    | DrainSystem

  /** The world after a run of actions, with how many times the guest's
      `setup` and `update` were called. */
  datatype Trace = Trace(world: World, setups: nat, updates: nat)

  /** One action's effect, counting a call to `setup` or `update`. */
  function Apply(w: World, a: Action, parse: string -> Color): (r: Trace)
    requires Consistent(w)
    ensures Consistent(r.world)
  {
    match a
    case LoadDone(outcome) => Trace(CompleteLoad(w, outcome), 0, 0)
    case ClearSystem => Trace(Clear(w), 0, 0)
    case SetupSystem(calls) =>
      var i := RunSetup(w, calls);
      Trace(i.world, if i.called then 1 else 0, 0)
    case UpdateSystem(calls) =>
      var i := RunUpdate(w, calls);
      Trace(i.world, 0, if i.called then 1 else 0)
    case DrainSystem => Trace(HandleGuestEvent(w, parse).world, 0, 0)
  }

  /** Runs actions in order, summing the guest calls. */
  function Exec(w: World, actions: seq<Action>, parse: string -> Color): (r: Trace)
    requires Consistent(w)
    ensures Consistent(r.world)
    decreases |actions|
  {
    if actions == [] then Trace(w, 0, 0)
    else
      var t := Apply(w, actions[0], parse);
      var rest := Exec(t.world, actions[1..], parse);
      Trace(rest.world, t.setups + rest.setups, t.updates + rest.updates)
  }

  /** No action of the run installs a new instance. */
  predicate NoInstall(actions: seq<Action>)
  {
    forall i :: 0 <= i < |actions| ==> !(actions[i].LoadDone? && actions[i].outcome.Loaded?)
  }

  /** Between two installs, `setup` is called at most once: at most once
      if it was still pending, never if it had already run. */
  lemma {:induction false} SetupAtMostOnce(w: World, actions: seq<Action>, parse: string -> Color)
    requires Consistent(w)
    requires NoInstall(actions)
    ensures Exec(w, actions, parse).setups <= (if SetupPending(w) then 1 else 0)
    ensures !SetupPending(w) ==> !SetupPending(Exec(w, actions, parse).world)
    decreases |actions|
  {
    if actions != [] {
      var t := Apply(w, actions[0], parse);
      assert NoInstall(actions[1..]) by {
        forall i | 0 <= i < |actions[1..]| ensures actions[1..][i] == actions[i + 1] { }
      }
      assert !(actions[0].LoadDone? && actions[0].outcome.Loaded?);
      SetupAtMostOnce(t.world, actions[1..], parse);
    }
  }

  /** Number of update-system runs in a sequence of actions. */
  function UpdateRuns(actions: seq<Action>): nat
  {
    if actions == [] then 0
    else (if actions[0].UpdateSystem? then 1 else 0) + UpdateRuns(actions[1..])
  }

  /** Once an instance is installed it is never removed, and from then on
      every run of the update system calls the guest's `update`. */
  lemma {:induction false} UpdateWhileInstalled(w: World, actions: seq<Action>, parse: string -> Color)
    requires Consistent(w)
    requires w.bindings.Some?
    ensures Exec(w, actions, parse).world.bindings.Some?
    ensures Exec(w, actions, parse).updates == UpdateRuns(actions)
    decreases |actions|
  {
    if actions != [] {
      var t := Apply(w, actions[0], parse);
      UpdateWhileInstalled(t.world, actions[1..], parse);
    }
  }

  /** Only a successful load changes the active instance: setup, update,
      drain and clear never remove or swap it, whatever the guest calls,
      and a failed load keeps it too. */
  lemma {:induction false} InstanceKept(w: World, actions: seq<Action>, parse: string -> Color)
    requires Consistent(w)
    requires w.bindings.Some?
    requires NoInstall(actions)
    ensures Exec(w, actions, parse).world.bindings.Some?
    ensures Exec(w, actions, parse).world.bindings.value.instance == w.bindings.value.instance
    ensures Exec(w, actions, parse).world.store.value.instance == w.bindings.value.instance
    decreases |actions|
  {
    if actions != [] {
      var t := Apply(w, actions[0], parse);
      assert NoInstall(actions[1..]) by {
        forall i | 0 <= i < |actions[1..]| ensures actions[1..][i] == actions[i + 1] { }
      }
      assert !(actions[0].LoadDone? && actions[0].outcome.Loaded?);
      InstanceKept(t.world, actions[1..], parse);
    }
  }

  /** Before any load, neither entry point is ever called. */
  lemma {:induction false} NothingRunsBeforeLoad(w: World, actions: seq<Action>, parse: string -> Color)
    requires Consistent(w)
    requires w.bindings.None?
    requires NoInstall(actions)
    ensures Exec(w, actions, parse).setups == 0
    ensures Exec(w, actions, parse).updates == 0
    ensures Exec(w, actions, parse).world.store.None?
    decreases |actions|
  {
    if actions != [] {
      var t := Apply(w, actions[0], parse);
      assert NoInstall(actions[1..]) by {
        forall i | 0 <= i < |actions[1..]| ensures actions[1..][i] == actions[i + 1] { }
      }
      assert !(actions[0].LoadDone? && actions[0].outcome.Loaded?);
      NothingRunsBeforeLoad(t.world, actions[1..], parse);
    }
  }

  /** Loads applied one after the other: the last one applied wins, with an
      empty queue and setup pending again; a failure applied later changes
      nothing. */
  lemma LastAppliedWins(w: World, a: InstanceId, b: InstanceId, e: LoadError)
    ensures var r := CompleteLoad(CompleteLoad(w, Loaded(a)), Loaded(b));
            && r.bindings == Some(Bindings(b, true))
            && r.store == Some(Store(b, Ctx([])))
    ensures CompleteLoad(CompleteLoad(w, Loaded(a)), LoadFailed(e)).bindings == Some(Bindings(a, true))
  {
  }

  /** The first tick after the first load calls `setup` then `update` and
      lowers the flag; the next tick calls only `update`. The queue then
      holds what setup and both updates recorded, and nothing from the
      second, skipped setup. */
  lemma FirstTicks(inst: InstanceId, s1: seq<HostCall>, u1: seq<HostCall>, s2: seq<HostCall>, u2: seq<HostCall>, parse: string -> Color)
    ensures var t := Exec(Empty, [LoadDone(Loaded(inst)), SetupSystem(s1), UpdateSystem(u1), SetupSystem(s2), UpdateSystem(u2)], parse);
            && t.setups == 1 && t.updates == 2
            && !SetupPending(t.world)
            && t.world.store.Some?
            && t.world.store.value.ctx == Record(Record(Record(Ctx([]), s1), u1), u2)
  {
    var acts := [LoadDone(Loaded(inst)), SetupSystem(s1), UpdateSystem(u1), SetupSystem(s2), UpdateSystem(u2)];
    var w1 := Install(Empty, inst);
    var w2 := RunSetup(w1, s1).world;
    var w3 := RunUpdate(w2, u1).world;
    var w4 := RunSetup(w3, s2).world;
    var w5 := RunUpdate(w4, u2).world;
    assert w4 == w3;
    assert acts[4..][1..] == [];
    assert Exec(w4, acts[4..], parse) == Trace(w5, 0, 1);
    assert acts[3..][1..] == acts[4..];
    assert Exec(w3, acts[3..], parse) == Trace(w5, 0, 1);
    assert acts[2..][1..] == acts[3..];
    assert Exec(w2, acts[2..], parse) == Trace(w5, 0, 2);
    assert acts[1..][1..] == acts[2..];
    assert Exec(w1, acts[1..], parse) == Trace(w5, 1, 2);
    assert Exec(Empty, acts, parse) == Trace(w5, 1, 2);
  }

  /** The scene left by a tick whose clear ran before its drain is exactly
      what that drain emitted from the queue. */
  lemma TickSceneIsDrain(w: World, parse: string -> Color)
    requires w.store.Some?
    ensures HandleGuestEvent(Clear(w), parse).world.scene == Drain(w.store.value.ctx.queue, parse).emitted
  {
    assert [] + Drain(w.store.value.ctx.queue, parse).emitted == Drain(w.store.value.ctx.queue, parse).emitted;
  }
}
