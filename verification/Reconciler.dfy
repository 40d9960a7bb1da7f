/** The LXCMachine controller as the sequential code that it is, running against the transition system.

    Before each of its calls the rest of the system may take any number of steps: other reconciles, the
    users, the server. The methods follow the source function by function and prove that what one
    reconcile does, under any such interference and any outcomes, is a run of the protocol, so every
    theorem about runs is a theorem about this code. */
module Reconciler {
  import opened Common
  import opened Protocol
  import opened Race

  /** What happens around one call: the steps that others take first, and how the call goes. */
  datatype Turn = Turn(others: seq<Action>, outcome: Outcome)

  /** Not a step of this machine's own reconcile: an object is never reconciled twice at once. */
  predicate Foreign(n: Name, a: Action) {
    a.On? && a.name == n ==>
      || a.act.UserDelete? || a.act.BootstrapReady? || a.act.OwnerGone?
      || a.act.OpDone? || a.act.OpFailed? || a.act.AddressAppears?
  }

  predicate AllForeign(n: Name, actions: seq<Action>) { forall a | a in actions :: Foreign(n, a) }

  /** Others neither touch a reconcile in flight nor remove the object it works on. */
  lemma {:induction false} OthersKeepFlight(s: State, n: Name, actions: seq<Action>)
    requires n in s.cells && s.cells[n].flight.Some? && AllForeign(n, actions) && Sound(s) && AllLabelled(s)
    ensures n in Exec(s, actions).cells && Exec(s, actions).cells[n].flight == s.cells[n].flight
    ensures Exec(s, actions).cells[n].machine.Some?
    ensures Sound(Exec(s, actions)) && AllLabelled(Exec(s, actions))
    decreases |actions|
  {
    assert CellSound(s, n, s.cells[n]);
    if actions != [] {
      assert Foreign(n, actions[0]);
      ApplyFrame(s, actions[0], n);
      ApplyKeepsSound(s, actions[0]);
      OthersKeepFlight(Apply(s, actions[0]), n, actions[1..]);
    }
  }

  /** One check of a provisioned machine that nobody deletes, without a fault: whatever others do around its call,
      the LXCMachine is recorded as ready if and only if its instance was there when the call was made. */
  lemma ReadyMeansAlive(s: State, n: Name, before: seq<Action>, after: seq<Action>)
    requires Sound(s) && AllLabelled(s) && s.infraReady && s.lxc.present
    requires AllForeign(n, before) && AllForeign(n, after)
    requires n in s.cells && s.cells[n].flight.None? && s.cells[n].machine.Some?
    requires var m := s.cells[n].machine.value; m.providerID.Some? && m.finalizer && !m.deleting
    ensures var s2 := Exec(Apply(s, On(n, Fetch)), before);
      var t := Apply(Exec(Apply(s2, On(n, Step(Ok))), after), On(n, Patch(true)));
      && n in s2.cells && n in t.cells && t.cells[n].machine.Some?
      && (t.cells[n].machine.value.ready <==> s2.cells[n].inst.Some?)
  {
    var s1 := Apply(s, On(n, Fetch));
    ApplyKeepsSound(s, On(n, Fetch));
    OthersKeepFlight(s1, n, before);
    var s2 := Exec(s1, before);
    assert CellSound(s2, n, s2.cells[n]);
    var s3 := Apply(s2, On(n, Step(Ok)));
    ApplyKeepsSound(s2, On(n, Step(Ok)));
    OthersKeepFlight(s3, n, after);
    var s4 := Exec(s3, after);
    assert CellSound(s4, n, s4.cells[n]);
  }

  class MachineReconciler {
    const name: Name
    const schedule: nat -> Turn
    /** How often a wait polls before its context expires. */
    const polls: nat
    ghost const start: State
    var world: State
    var clock: nat
    /** Every action of the run so far, own and foreign. */
    ghost var trace: seq<Action>

    constructor (name: Name, schedule: nat -> Turn, polls: nat, world: State)
      requires forall i: nat :: AllForeign(name, schedule(i).others)
      requires Sound(world) && AllLabelled(world)
      ensures Valid() && this.world == world && this.start == world && this.name == name && trace == []
    {
      this.name, this.schedule, this.polls := name, schedule, polls;
      this.world, this.start, this.clock, this.trace := world, world, 0, [];
    }

    ghost predicate Valid()
      reads this
    {
      && world == Exec(start, trace)
      && Sound(start) && AllLabelled(start)
      && forall i: nat :: AllForeign(name, schedule(i).others)
    }

    ghost predicate InFlight()
      reads this
    {
      name in world.cells && world.cells[name].flight.Some?
    }

    ghost function Flight(): Flight
      reads this
      requires InFlight()
    {
      world.cells[name].flight.value
    }

    ghost predicate AtPc(pc: Pc, local: Machine)
      reads this
    {
      InFlight() && Flight().pc == pc && Flight().local == local
    }

    /** One own action of the reconcile. */
    method Act(act: CellAction)
      requires Valid() && name in world.cells
      modifies this`world, this`trace
      ensures Valid() && name in world.cells && trace == old(trace) + [On(name, act)]
      ensures world == Apply(old(world), On(name, act))
      ensures world.cells[name] == CellAfter(ViewOf(old(world), name), old(world.cells[name]), act)
    {
      ExecSnoc(start, trace, On(name, act));
      ApplyFrame(world, On(name, act), name);
      world := Apply(world, On(name, act));
      trace := trace + [On(name, act)];
    }

    /** Others take their steps, then this reconcile makes its next call. `seen` is the cell as the call found it. */
    method Call() returns (seen: Cell, outcome: Outcome, ghost v: View)
      requires Valid() && InFlight()
      modifies this
      ensures Valid() && name in world.cells && old(trace) < trace
      ensures seen.flight == old(world.cells[name].flight) && CellSound(world, name, seen)
      ensures v.name == name && v.lb.present == world.lb.present && v.lb.direct == world.lb.direct
      ensures world.cells[name] == CellAfter(v, seen, Step(outcome))
    {
      var turn := schedule(clock);
      clock := clock + 1;
      assert AllForeign(name, turn.others);
      RunKeepsSound(start, trace);
      OthersKeepFlight(world, name, turn.others);
      ExecAppend(start, trace, turn.others);
      world := Exec(world, turn.others);
      trace := trace + turn.others;
      seen, outcome, v := world.cells[name], turn.outcome, ViewOf(world, name);
      assert CellSound(world, name, seen);
      Act(Step(outcome));
    }

    // ---- single calls --------------------------------------------------------------------------

    method GetInstanceState(m: Machine) returns (present: bool)
      requires Valid() && AtPc(Probe, m)
      modifies this
      ensures Valid() && old(trace) < trace && AtPc(if present then Start else FindOp, m)
    {
      var seen, outcome, v := Call();
      present := outcome.Ok? && seen.inst.Some?;
    }

    method TryFindInstanceCreateOperation(m: Machine) returns (found: bool)
      requires Valid() && AtPc(FindOp, m)
      modifies this
      ensures Valid() && old(trace) < trace && AtPc(if found then WaitCreate else Request, m)
    {
      var seen, outcome, v := Call();
      found := outcome.Ok? && seen.op.Some?;
    }

    method CreateInstance(m: Machine) returns (ok: bool)
      requires Valid() && AtPc(Request, m)
      modifies this
      ensures Valid() && old(trace) < trace && AtPc(if ok then WaitCreate else Finish, m)
    {
      var seen, outcome, v := Call();
      ok := outcome.Ok? && seen.inst.None? && seen.op.None?;
    }

    method SetUp(m: Machine) returns (ok: bool)
      requires Valid() && AtPc(Setup, m)
      modifies this
      ensures Valid() && old(trace) < trace && AtPc(if ok then Start else Finish, m)
    {
      var seen, outcome, v := Call();
      ok := outcome.Ok?;
    }

    method StartInstance(m: Machine) returns (ok: bool)
      requires Valid() && AtPc(Start, m)
      modifies this
      ensures Valid() && old(trace) < trace && AtPc(if ok then WaitAddress else Finish, m)
    {
      var seen, outcome, v := Call();
      ok := outcome.Ok? && seen.inst.Some?;
    }

    method ListInstances(m: Machine) returns (ok: bool, ghost list: Backends)
      requires Valid() && AtPc(List, m)
      modifies this
      ensures Valid() && old(trace) < trace && AtPc(if ok then Write(list) else Finish, m)
    {
      var seen, outcome, v := Call();
      ok, list := outcome.Ok?, v.listing;
    }

    method WriteConfiguration(m: Machine, ghost list: Backends) returns (ok: bool)
      requires Valid() && AtPc(Write(list), m)
      modifies this
      ensures Valid() && old(trace) < trace
      ensures if !ok then AtPc(Finish, m)
              else if world.lb.direct then AtPc(Finish, Reconfigured(name, m))
              else AtPc(Reload, m)
    {
      var seen, outcome, v := Call();
      ok := outcome.Ok? && world.lb.present;
    }

    method ReloadProxy(m: Machine) returns (ok: bool)
      requires Valid() && AtPc(Reload, m)
      modifies this
      ensures Valid() && old(trace) < trace && AtPc(Finish, if ok then Reconfigured(name, m) else m)
    {
      var seen, outcome, v := Call();
      ok := outcome.Ok? && world.lb.present;
    }

    /** Stop a running instance; `missing` when there is none. */
    method WaitForStopInstance(m: Machine) returns (ok: bool, missing: bool)
      requires Valid() && AtPc(Stop, m)
      modifies this
      ensures Valid() && old(trace) < trace && InFlight() && Flight().clusterDeleting == old(Flight().clusterDeleting)
      ensures if !ok then AtPc(Finish, m)
              else if !missing then AtPc(Destroy, m)
              else Deleted(m)
    {
      var seen, outcome, v := Call();
      ok, missing := outcome.Ok?, seen.inst.None?;
    }

    method DeleteInstance(m: Machine) returns (ok: bool)
      requires Valid() && AtPc(Destroy, m)
      modifies this
      ensures Valid() && old(trace) < trace && InFlight() && Flight().clusterDeleting == old(Flight().clusterDeleting)
      ensures if ok then Deleted(m) else AtPc(Finish, m)
    {
      var seen, outcome, v := Call();
      ok := outcome.Ok? && seen.inst.Some?;
    }

    /** The instance is gone and the load balancer is next, unless there is nothing to reconfigure. */
    ghost predicate Deleted(m: Machine)
      reads this
    {
      && InFlight() && world.cells[name].inst.None?
      && if m.controlPlane && !Flight().clusterDeleting then AtPc(List, m) else AtPc(Finish, m.(finalizer := false))
    }

    /** The instance has an address and the load balancer is next, unless there is nothing to reconfigure. */
    ghost predicate Launched(m: Machine)
      reads this
    {
      && InFlight() && HasHosts(world.cells[name])
      && if m.controlPlane && !m.lbConfigured then AtPc(List, m) else AtPc(Finish, Provisioned(name, m))
    }

    // ---- the source functions ------------------------------------------------------------------

    method WaitForLaunchInstance(m: Machine) returns (ok: bool)
      requires Valid() && AtPc(Probe, m)
      modifies this
      ensures Valid() && old(trace) < trace
      ensures if ok then Launched(m) else AtPc(Finish, m)
    {
      var present := GetInstanceState(m);
      if present {
        ok := WaitForStartInstance(m);
        return;
      }
      ok := WaitForSetUp(m);
      if ok {
        ok := WaitForStartInstance(m);
      }
    }

    /** Wait for the instance to be created, then write its templates, files and replacements. */
    method WaitForSetUp(m: Machine) returns (ok: bool)
      requires Valid() && AtPc(FindOp, m)
      modifies this
      ensures Valid() && old(trace) < trace && AtPc(if ok then Start else Finish, m)
    {
      ok := WaitForCreate(m);
      if ok {
        ok := SetUp(m);
      }
    }

    /** Wait for a pending create operation, or send a create request and wait for that one. */
    method WaitForCreate(m: Machine) returns (ok: bool)
      requires Valid() && AtPc(FindOp, m)
      modifies this
      ensures Valid() && old(trace) < trace && AtPc(if ok then Setup else Finish, m)
    {
      var found := TryFindInstanceCreateOperation(m);
      if !found {
        ok := CreateInstance(m);
        if !ok {
          return;
        }
      }
      ok := WaitForOperation(m);
    }

    /** The context of a wait expires. */
    method TimeOut(m: Machine)
      requires Valid() && (AtPc(WaitCreate, m) || AtPc(WaitAddress, m))
      modifies this
      ensures Valid() && old(trace) < trace && AtPc(Finish, m)
    {
      Act(Step(Fail(false)));
    }

    /** One poll for the end of the create operation; an operation that is gone has succeeded. */
    method PollOperation(m: Machine) returns (failed: bool, gone: bool)
      requires Valid() && AtPc(WaitCreate, m)
      modifies this
      ensures Valid() && old(trace) < trace && !(failed && gone)
      ensures AtPc(if failed then Finish else if gone then Setup else WaitCreate, m)
    {
      var seen, outcome, v := Call();
      failed := outcome.Fail?;
      gone := !failed && seen.op.None?;
    }

    method WaitForOperation(m: Machine) returns (ok: bool)
      requires Valid() && AtPc(WaitCreate, m)
      modifies this
      ensures Valid() && old(trace) < trace
      ensures AtPc(if ok then Setup else Finish, m)
    {
      for i := 0 to polls
        invariant Valid() && AtPc(WaitCreate, m) && old(trace) <= trace
      {
        var failed;
        failed, ok := PollOperation(m);
        if failed || ok {
          return;
        }
      }
      TimeOut(m);
      return false;
    }

    method WaitForStartInstance(m: Machine) returns (ok: bool)
      requires Valid() && AtPc(Start, m)
      modifies this
      ensures Valid() && old(trace) < trace
      ensures if ok then Launched(m) else AtPc(Finish, m)
    {
      ok := StartInstance(m);
      if ok {
        ok := WaitForInstanceAddress(m);
      }
    }

    /** One poll for an address: it fails, finds one, or neither. */
    method PollAddress(m: Machine) returns (failed: bool, found: bool)
      requires Valid() && AtPc(WaitAddress, m)
      modifies this
      ensures Valid() && old(trace) < trace && !(failed && found)
      ensures if failed then AtPc(Finish, m) else if found then Launched(m) else AtPc(WaitAddress, m)
    {
      var seen, outcome, v := Call();
      failed := outcome.Fail? || seen.inst.None?;
      found := !failed && seen.inst.value.hosts != [];
    }

    method WaitForInstanceAddress(m: Machine) returns (ok: bool)
      requires Valid() && AtPc(WaitAddress, m)
      modifies this
      ensures Valid() && old(trace) < trace
      ensures if ok then Launched(m) else AtPc(Finish, m)
    {
      for i := 0 to polls
        invariant Valid() && AtPc(WaitAddress, m) && old(trace) <= trace
      {
        var failed;
        failed, ok := PollAddress(m);
        if failed || ok {
          return;
        }
      }
      TimeOut(m);
      return false;
    }

    method Reconfigure(m: Machine) returns (ok: bool)
      requires Valid() && AtPc(List, m)
      modifies this
      ensures Valid() && old(trace) < trace
      ensures AtPc(Finish, if ok then Reconfigured(name, m) else m)
    {
      ghost var list;
      ok, list := ListInstances(m);
      if !ok {
        return;
      }
      ok := WriteConfiguration(m, list);
      if !ok || world.lb.direct {
        return;
      }
      ok := ReloadProxy(m);
    }

    /** The normal path. A provisioned machine is recorded as ready exactly when its instance is there; a machine
        without infrastructure or bootstrap data is left as it is; any other is provisioned or left as it is. */
    method ReconcileNormal(m: Machine, infraReady: bool) returns (r: Machine, ghost seen: Cell, ghost called: Outcome)
      requires Valid() && AtPc(Check, m) && Flight().infraReady == infraReady
      modifies this
      ensures Valid() && AtPc(Finish, r) && old(trace) < trace
      ensures infraReady && m.providerID.Some? ==> r == if called.Ok? then m.(ready := seen.inst.Some?) else m
      ensures !infraReady || (m.providerID.None? && !m.bootstrap) ==> r == m
      ensures m.providerID.None? ==>
        || r == m
        || r == m.(providerID := Some("lxc:///" + name), ready := true,
                   lbConfigured := m.lbConfigured || m.controlPlane)
    {
      r := m;
      var found, outcome, v := Call();
      seen, called := found, outcome;
      if !infraReady {
        return;
      }
      if m.providerID.Some? {
        if outcome.Ok? {
          r := r.(ready := found.inst.Some?);
        }
        return;
      }
      if !m.bootstrap || outcome.Fail? {
        return;
      }
      var launched := WaitForLaunchInstance(m);
      if !launched {
        return;
      }
      if m.controlPlane && !m.lbConfigured {
        var ok := Reconfigure(m);
        if !ok {
          return;
        }
        r := r.(lbConfigured := true);
      }
      r := r.(providerID := Some(ExpectedProviderID(name)), ready := true);
    }

    /** Stop the instance if it runs, then delete it; a missing instance is not an error. */
    method WaitForDeleteInstance(m: Machine) returns (ok: bool)
      requires Valid() && AtPc(Stop, m)
      modifies this
      ensures Valid() && old(trace) < trace && InFlight() && Flight().clusterDeleting == old(Flight().clusterDeleting)
      ensures if ok then Deleted(m) else AtPc(Finish, m)
    {
      var missing;
      ok, missing := WaitForStopInstance(m);
      if ok && !missing {
        ok := DeleteInstance(m);
      }
    }

    method MarkDeleting(m: Machine) returns (ok: bool)
      requires Valid() && AtPc(Mark, m)
      modifies this
      ensures Valid() && old(trace) < trace && InFlight() && Flight().clusterDeleting == old(Flight().clusterDeleting)
      ensures AtPc(if ok then Stop else Finish, m)
    {
      var seen, outcome, v := Call();
      ok := outcome.Ok?;
    }

    method ReconcileDelete(m: Machine, clusterDeleting: bool) returns (r: Machine)
      requires Valid() && AtPc(Mark, m) && m.deleting && Flight().clusterDeleting == clusterDeleting
      modifies this
      ensures Valid() && AtPc(Finish, r) && old(trace) < trace
      ensures r == m || r == m.(finalizer := false)
    {
      r := m;
      var marked := MarkDeleting(m);
      if !marked {
        return;
      }
      var deleted := WaitForDeleteInstance(m);
      if !deleted {
        return;
      }
      if m.controlPlane && !clusterDeleting {
        var ok := Reconfigure(m);
        if !ok {
          return;
        }
      }
      r := r.(finalizer := false);
    }

    /** Fetch the objects and take the delete or the normal path. */
    method Dispatch(m: Machine) returns (r: Machine)
      requires Valid() && name in world.cells && world.cells[name].machine
        == Some(m) && m.finalizer && world.lxc.present
      requires world.cells[name].flight.None?
      modifies this
      ensures Valid() && AtPc(Finish, r) && old(trace) < trace
    {
      var infraReady, clusterDeleting := world.infraReady, world.clusterDeleting;
      Act(Fetch);
      if m.deleting {
        r := ReconcileDelete(m, clusterDeleting);
      } else {
        ghost var seen, called;
        r, seen, called := ReconcileNormal(m, infraReady);
      }
    }

    /** The patch that closes every reconcile; it may be lost. */
    method DeferredPatch(r: Machine, kept: bool)
      requires Valid() && AtPc(Finish, r)
      modifies this
      ensures Valid() && old(trace) < trace && Sound(world) && AllLabelled(world)
      ensures name in world.cells && world.cells[name].flight.None?
      ensures kept ==> match world.cells[name].machine
                       case Some(m) => SameStatus(r, m)
                       case None => !r.finalizer
    {
      RunKeepsSound(start, trace);
      assert CellSound(world, name, world.cells[name]);
      Act(Patch(kept));
      RunKeepsSound(start, trace);
    }

    /** One reconcile: fetch, ensure the finalizer, dispatch, and the deferred patch. Whatever happens
        around it, it leaves the world in a state that a run of the protocol reaches, with no reconcile
        of this machine in flight, and the object as the patch left it. */
    method Reconcile() returns (recorded: Option<Machine>, kept: bool)
      requires Valid() && (name in world.cells ==> world.cells[name].flight.None?)
      modifies this
      ensures Valid() && old(trace) <= trace
      ensures name in world.cells ==> world.cells[name].flight.None?
      ensures Sound(world) && AllLabelled(world)
      ensures recorded.Some? && kept ==>
        name in world.cells &&
        match world.cells[name].machine
        case Some(m) => SameStatus(recorded.value, m)
        case None => !recorded.value.finalizer
    {
      recorded, kept := None, false;
      if name !in world.cells || world.cells[name].machine.None? || !world.lxc.present {
        RunKeepsSound(start, trace);
        return;
      }
      var m := world.cells[name].machine.value;
      if !m.finalizer {
        Act(AddFinalizer);
        RunKeepsSound(start, trace);
        return;
      }
      var r := Dispatch(m);
      recorded, kept := Some(r), schedule(clock).outcome.Ok?;
      DeferredPatch(r, kept);
    }
  }
}
