/** The LXCCluster controller as sequential code, running against the transition system in the same way as
    the LXCMachine controller. */
module ClusterReconciler {
  import opened Common
  import opened Protocol
  import opened Race
  import opened Reconciler

  /** Not a step of the cluster's own reconcile. */
  predicate NotCluster(a: Action) { !a.ClusterFetch? && !a.ClusterStep? && !a.ClusterPatch? && !a.ClusterAbandon? }

  predicate NoneCluster(actions: seq<Action>) { forall a | a in actions :: NotCluster(a) }

  /** Others neither touch the cluster reconcile in flight nor remove the object it works on, and nobody else
      creates a load balancer. */
  lemma {:induction false} OthersKeepCluster(s: State, actions: seq<Action>)
    requires NoneCluster(actions) && s.lxc.finalizer
    ensures var t := Exec(s, actions);
      t.lxc.flight == s.lxc.flight && t.lxc.present == s.lxc.present && t.lxc.finalizer == s.lxc.finalizer
      && (s.lxc.deleting ==> t.lxc.deleting) && (!s.lb.present ==> !t.lb.present)
    decreases |actions|
  {
    if actions != [] {
      assert NotCluster(actions[0]);
      OthersKeepCluster(Apply(s, actions[0]), actions[1..]);
    }
  }

  class LxcClusterReconciler {
    const schedule: nat -> Turn
    ghost const start: State
    var world: State
    var clock: nat
    ghost var trace: seq<Action>

    constructor (schedule: nat -> Turn, world: State)
      requires forall i: nat :: NoneCluster(schedule(i).others)
      ensures Valid() && this.world == world && this.start == world && trace == []
    {
      this.schedule, this.world, this.start, this.clock, this.trace := schedule, world, world, 0, [];
    }

    ghost predicate Valid()
      reads this
    {
      world == Exec(start, trace) && forall i: nat :: NoneCluster(schedule(i).others)
    }

    ghost predicate AtPc(pc: ClusterPc)
      reads this
    {
      world.lxc.present && world.lxc.finalizer && world.lxc.flight == Some(pc)
    }

    method Act(a: Action)
      requires Valid()
      modifies this`world, this`trace
      ensures Valid() && trace == old(trace) + [a] && world == Apply(old(world), a)
    {
      ExecSnoc(start, trace, a);
      world, trace := Apply(world, a), trace + [a];
    }

    /** Others take their steps, then the reconcile makes its next call; `seen` is the state it finds. */
    method Call(ghost pc: ClusterPc) returns (seen: State, outcome: Outcome)
      requires Valid() && AtPc(pc)
      modifies this
      ensures Valid() && old(trace) < trace
      ensures seen.lxc.present && seen.lxc.finalizer && seen.lxc.flight == Some(pc)
      ensures world == ClusterStepped(seen, outcome)
      ensures old(world.lxc.deleting) ==> seen.lxc.deleting
      ensures !old(world.lb.present) ==> !seen.lb.present
    {
      var turn := schedule(clock);
      clock := clock + 1;
      OthersKeepCluster(world, turn.others);
      ExecAppend(start, trace, turn.others);
      world := Exec(world, turn.others);
      trace := trace + turn.others;
      seen, outcome := world, turn.outcome;
      Act(ClusterStep(outcome));
    }

    /** reconcileNormal, as far as the load balancer goes: it exists after a success, and one that existed
        before is used as it is. */
    method ReconcileNormal() returns (ok: bool)
      requires Valid() && AtPc(CreateLb)
      modifies this
      ensures Valid() && AtPc(ClusterFinish(false)) && old(trace) < trace
      ensures ok ==> world.lb.present
    {
      var seen, outcome := Call(CreateLb);
      ok := outcome.Ok?;
    }

    /** reconcileDelete: the load balancer goes first; the finalizer is dropped only after that, and only
        when the listing failed or showed no Machine. */
    method ReconcileDelete() returns (drop: bool, ghost listed: Option<State>, ghost failed: bool)
      requires Valid() && AtPc(DeleteLb)
      modifies this
      ensures Valid() && AtPc(ClusterFinish(drop)) && old(trace) < trace
      ensures drop ==> listed.Some? && (failed || !MachinesLeft(listed.value))
      ensures listed.Some? ==> !listed.value.lb.present && !world.lb.present
      ensures !drop && listed.Some? ==> MachinesLeft(listed.value)
    {
      listed, failed := None, false;
      var seen, outcome := Call(DeleteLb);
      if outcome.Fail? {
        return false, listed, failed;
      }
      seen, outcome := Call(ListMachines);
      listed, failed := Some(seen), outcome.Fail?;
      if outcome.Ok? && MachinesLeft(seen) {
        return false, listed, failed;
      }
      drop := true;
    }

    /** One reconcile of the LXCCluster. Whatever happens around it, it leaves the world in a state that a
        run of the protocol reaches and no cluster reconcile in flight, and the object is gone exactly when
        the finalizer was dropped and the closing patch was kept. */
    method Reconcile() returns (drop: bool, kept: bool)
      requires Valid() && world.lxc.flight.None?
      modifies this
      ensures Valid() && old(trace) <= trace && world.lxc.flight.None?
      ensures old(world.lxc.present) ==> (!world.lxc.present <==> drop && kept)
      ensures drop ==> old(world.lxc.deleting) && !world.lb.present
    {
      drop, kept := false, false;
      if !world.lxc.present {
        return;
      }
      if !world.lxc.finalizer {
        Act(ClusterFetch);
        return;
      }
      var deleting := world.lxc.deleting;
      Act(ClusterFetch);
      if deleting {
        ghost var listed, failed;
        drop, listed, failed := ReconcileDelete();
      } else {
        var ok := ReconcileNormal();
      }
      kept := schedule(clock).outcome.Ok?;
      Act(ClusterPatch(kept));
    }
  }
}
