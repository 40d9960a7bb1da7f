/** Teardown of a cluster: it is safe, and it ends. */
module Teardown {
  import opened Common
  import opened Protocol
  import opened Freshness
  import opened Lifecycle
  import opened Race

  // ---- safety ----------------------------------------------------------------------------------

  predicate LxcMachinesLeft(s: State) { exists n | n in s.cells :: s.cells[n].machine.Some? }

  /** Listing the Machines of the Cluster does not fail while an LXCMachine is left. */
  predicate ListingSucceeds(s: State, a: Action) {
    a.ClusterStep? && s.lxc.flight == Some(ListMachines) && LxcMachinesLeft(s) ==> a.outcome.Ok?
  }

  /** An LXCCluster that has no finalizer yet, and so goes at once, is not deleted while an LXCMachine is left. */
  predicate NotRemovedEarly(s: State, a: Action) {
    a.DeleteLxcCluster? && s.clusterDeleting && s.lxc.present && !s.lxc.finalizer ==> !LxcMachinesLeft(s)
  }

  /** The two rules that keep an LXCCluster until its LXCMachines are gone. */
  predicate KeepsCluster(s: State, a: Action) { ListingSucceeds(s, a) && NotRemovedEarly(s, a) }

  /** The LXCCluster goes, or is about to go, only when no LXCMachine and no load balancer is left. */
  ghost predicate OutlivesMachines(s: State) {
    && ClusterSound(s)
    && (!s.lxc.present ==> s.lxc.flight.None? && !s.lxc.finalizer)
    && (!s.lxc.finalizer ==> s.lxc.flight.None? && !s.lb.present)
    && (s.lxc.flight == Some(ListMachines) || s.lxc.flight == Some(ClusterFinish(true)) ==> !s.lb.present)
    && (!s.lxc.present || s.lxc.flight == Some(ClusterFinish(true)) ==> s.clusterDeleting && !LxcMachinesLeft(s))
  }

  lemma OwnersOnlyGo(s: State, a: Action)
    requires s.clusterDeleting && MachinesLeft(Apply(s, a))
    ensures MachinesLeft(s)
  {
  }

  lemma LxcMachinesOnlyGo(s: State, a: Action)
    requires s.clusterDeleting && LxcMachinesLeft(Apply(s, a))
    ensures LxcMachinesLeft(s)
  {
    var n :| n in Apply(s, a).cells && Apply(s, a).cells[n].machine.Some?;
    assert n in s.cells && s.cells[n].machine.Some?;
  }

  /** A Machine outlives its LXCMachine. */
  lemma MachinesOwn(s: State)
    requires Sound(s) && LxcMachinesLeft(s)
    ensures MachinesLeft(s)
  {
    var n :| n in s.cells && s.cells[n].machine.Some?;
    assert CellSound(s, n, s.cells[n]);
  }

  lemma ApplyKeepsOutlives(s: State, a: Action)
    requires Sound(s) && OutlivesMachines(s) && KeepsCluster(s, a)
    ensures OutlivesMachines(Apply(s, a))
  {
    ApplyKeepsClusterSound(s, a);
    if s.clusterDeleting && LxcMachinesLeft(Apply(s, a)) {
      LxcMachinesOnlyGo(s, a);
    }
    if a.On? {
      CellActionFrame(s, a.name, a.act);
    } else if LxcMachinesLeft(s) {
      MachinesOwn(s);
    }
  }

  /** An LXCMachine is left without its LXCCluster. */
  predicate Orphaned(s: State) { !s.lxc.present && LxcMachinesLeft(s) }

  lemma {:induction false} RunKeepsOutlives(s: State, actions: seq<Action>)
    requires Sound(s) && AllLabelled(s) && OutlivesMachines(s) && Along(s, actions, KeepsCluster)
    ensures Sound(Exec(s, actions)) && OutlivesMachines(Exec(s, actions))
    decreases |actions|
  {
    if actions != [] {
      ApplyKeepsOutlives(s, actions[0]);
      ApplyKeepsSound(s, actions[0]);
      RunKeepsOutlives(Apply(s, actions[0]), actions[1..]);
    }
  }

  /** In every run in which no listing of Machines fails while an LXCMachine is left, and no LXCCluster without a
      finalizer is deleted then, no LXCMachine outlives its LXCCluster. */
  lemma NoOrphanedMachine(s: State, actions: seq<Action>)
    requires Sound(s) && AllLabelled(s) && OutlivesMachines(s) && Along(s, actions, KeepsCluster)
    ensures !Orphaned(Exec(s, actions))
  {
    RunKeepsOutlives(s, actions);
  }

  /** Every listing that breaks the first rule falls through, and the closing patch removes the LXCCluster. */
  lemma FailedListingOrphans(s: State, o: Outcome)
    requires OutlivesMachines(s) && !ListingSucceeds(s, ClusterStep(o))
    ensures Orphaned(Apply(Apply(s, ClusterStep(o)), ClusterPatch(true)))
  {
  }

  /** Every deletion that breaks the second rule removes the LXCCluster at once. */
  lemma EarlyRemovalOrphans(s: State)
    requires !NotRemovedEarly(s, DeleteLxcCluster)
    ensures Orphaned(Apply(s, DeleteLxcCluster))
  {
  }

  /** Some run from here that breaks neither rule orphans an LXCMachine. */
  ghost predicate CanOrphan(s: State) {
    exists actions :: Along(s, actions, KeepsCluster) && Orphaned(Exec(s, actions))
  }

  /** The rules are exact: an action can lead to an orphaned LXCMachine, in an otherwise ruled run, if and only if
      it breaks one of them. */
  lemma OrphansExactly(s: State, a: Action)
    requires Sound(s) && AllLabelled(s) && OutlivesMachines(s)
    ensures CanOrphan(Apply(s, a)) <==> !KeepsCluster(s, a)
  {
    var s1 := Apply(s, a);
    if KeepsCluster(s, a) {
      ApplyKeepsOutlives(s, a);
      ApplyKeepsSound(s, a);
      forall actions | Along(s1, actions, KeepsCluster) ensures !Orphaned(Exec(s1, actions)) {
        NoOrphanedMachine(s1, actions);
      }
    } else if !NotRemovedEarly(s, a) {
      EarlyRemovalOrphans(s);
      assert Along(s1, [], KeepsCluster) && Orphaned(Exec(s1, []));
    } else {
      FailedListingOrphans(s, a.outcome);
      var last := [ClusterPatch(true)];
      assert last[1..] == [] && Exec(s1, last) == Apply(s1, ClusterPatch(true));
      assert Along(s1, last, KeepsCluster) && Orphaned(Exec(s1, last));
    }
  }

  /** An idle LXCMachine that was orphaned with its finalizer stays so for ever: its controller waits for the
      LXCCluster. */
  lemma {:induction false} OrphanIsStuck(s: State, actions: seq<Action>, n: Name)
    requires !s.lxc.present && s.lxc.flight.None?
    requires n in s.cells && s.cells[n].machine.Some? && s.cells[n].machine.value.finalizer && s.cells[n].flight.None?
    ensures var t := Exec(s, actions);
      && !t.lxc.present && n in t.cells && t.cells[n].machine.Some? && t.cells[n].machine.value.finalizer
      && t.cells[n].flight.None?
    decreases |actions|
  {
    if actions != [] {
      ApplyFrame(s, actions[0], n);
      OrphanIsStuck(Apply(s, actions[0]), actions[1..], n);
    }
  }

  /** A run from the start of any cluster that orphans an LXCMachine with its finalizer: the LXCCluster is
      deleted before its controller came to it. */
  lemma EarlyRemovalHappens(s: State, n: Name) returns (actions: seq<Action>)
    requires Init(s)
    ensures Calm(actions)
    ensures var t := Exec(s, actions);
      && !t.lxc.present && t.lxc.flight.None? && n in t.cells && t.cells[n].flight.None?
      && t.cells[n].machine.Some? && t.cells[n].machine.value.finalizer
  {
    var x, y := [CreateMachine(n, true, map[]), On(n, AddFinalizer)], [DeleteCluster, DeleteLxcCluster];
    ExecTwo(s, x[0], x[1]);
    ExecTwo(Exec(s, x), y[0], y[1]);
    ExecAppend(s, x, y);
    actions := x + y;
  }

  /** A control plane delete in flight that has not come to its closing patch. */
  predicate MayReconfigure(c: Cell) {
    && c.flight.Some? && c.flight.value.local.deleting
    && c.flight.value.local.controlPlane && !c.flight.value.pc.Finish?
  }

  /** The Cluster is not deleted in the middle of the delete of a control plane machine. */
  predicate NoDeleteInFlight(s: State, a: Action) {
    a.DeleteCluster? && !s.clusterDeleting ==> forall n | n in s.cells :: !MayReconfigure(s.cells[n])
  }

  /** Every such delete in flight knows when the Cluster is being deleted. */
  ghost predicate DeletesKnow(s: State) {
    s.clusterDeleting ==>
      forall n | n in s.cells && MayReconfigure(s.cells[n]) :: s.cells[n].flight.value.clusterDeleting
  }

  lemma ApplyKeepsDeletesKnow(s: State, a: Action)
    requires Sound(s) && DeletesKnow(s) && NoDeleteInFlight(s, a)
    ensures DeletesKnow(Apply(s, a))
  {
    var t := Apply(s, a);
    forall n | t.clusterDeleting && n in t.cells && MayReconfigure(t.cells[n])
      ensures t.cells[n].flight.value.clusterDeleting
    {
      assert n in s.cells;
      ApplyFrame(s, a, n);
      if a.On? && a.name == n {
        FlightKeepsCopies(ViewOf(s, n), s.cells[n], a.act);
      }
    }
  }

  /** What a reconcile fetched at its start does not change under it. */
  lemma FlightKeepsCopies(v: View, c: Cell, a: CellAction)
    ensures var c' := CellAfter(v, c, a);
      c'.flight.Some? ==>
        if c.flight.Some?
        then c'.flight.value.clusterDeleting == c.flight.value.clusterDeleting
          && (MayReconfigure(c') ==> MayReconfigure(c))
        else c'.flight.value.clusterDeleting == v.clusterDeleting
  {
  }

  /** A machine delete that lists, writes or reloads. */
  predicate DeleteReconfigures(c: Cell) {
    c.flight.Some? && c.flight.value.local.deleting && Reconfiguring(c.flight.value.pc)
  }

  /** In every run in which the Cluster is not deleted in the middle of the delete of a control plane machine,
      no machine delete lists, writes or reloads once the load balancer may have been torn down. */
  lemma {:induction false} DeleteLeavesLoadBalancerAlone(s: State, actions: seq<Action>, n: Name)
    requires Sound(s) && AllLabelled(s) && DeletesKnow(s) && ClusterSound(s) && Along(s, actions, NoDeleteInFlight)
    requires Exec(s, actions).lxc.deleting || Exec(s, actions).clusterDeleting
    requires n in Exec(s, actions).cells
    ensures !DeleteReconfigures(Exec(s, actions).cells[n])
    decreases |actions|
  {
    if actions == [] {
      assert CellSound(s, n, s.cells[n]);
    } else {
      ApplyKeepsDeletesKnow(s, actions[0]);
      ApplyKeepsSound(s, actions[0]);
      ApplyKeepsClusterSound(s, actions[0]);
      DeleteLeavesLoadBalancerAlone(Apply(s, actions[0]), actions[1..], n);
    }
  }

  // ---- the rule is exact -----------------------------------------------------------------------

  /** The cluster controller finishes what it is doing and has its finalizer. */
  lemma ClusterSettles(s: State) returns (actions: seq<Action>)
    requires s.clusterDeleting && s.lxc.present && !s.lxc.deleting && ClusterSound(s)
    ensures Calm(actions)
    ensures var t := Exec(s, actions);
      t.lxc == LxcCluster(true, true, false, None) && t.cells == s.cells && t.clusterDeleting
  {
    var last := if s.lxc.finalizer then ClusterPatch(true) else ClusterFetch;
    if s.lxc.flight == Some(CreateLb) {
      var s1 := Apply(s, ClusterStep(Ok));
      assert s1.lxc == s.lxc.(flight := Some(ClusterFinish(false)));
      ExecThree(s, ClusterStep(Ok), ClusterPatch(true), last);
      actions := [ClusterStep(Ok), ClusterPatch(true), last];
    } else {
      ExecTwo(s, ClusterPatch(true), last);
      actions := [ClusterPatch(true), last];
    }
  }

  /** The cluster controller, left to itself, tears the load balancer down. */
  lemma LoadBalancerGoes(s: State) returns (actions: seq<Action>)
    requires s.clusterDeleting && s.lxc.present && !s.lxc.deleting && ClusterSound(s)
    ensures Calm(actions)
    ensures var t := Exec(s, actions);
      t.clusterDeleting && !t.lb.present && t.cells == s.cells
  {
    var x := ClusterSettles(s);
    var y := [DeleteLxcCluster, ClusterFetch, ClusterStep(Ok)];
    ExecThree(Exec(s, x), y[0], y[1], y[2]);
    ExecAppend(s, x, y);
    CalmAppend(x, y);
    actions := x + y;
  }

  /** One successful step of a delete that has not come to its load balancer. */
  lemma DeleteAdvances(s: State, v: View, c: Cell)
    requires CellSound(s, v.name, c) && MayReconfigure(c) && !c.flight.value.clusterDeleting
    requires !Reconfiguring(c.flight.value.pc)
    ensures var c' := CellAfter(v, c, Step(Ok));
      && c'.flight.Some? && c'.flight.value.local == c.flight.value.local && !c'.flight.value.clusterDeleting
      && match c.flight.value.pc
         case Mark => c'.flight.value.pc == Stop
         case Stop => c'.flight.value.pc in {Destroy, List}
         case _ => c'.flight.value.pc == List
  {
  }

  /** Left to itself, a delete that fetched its Cluster before the deletion comes to its load balancer. */
  lemma DeleteComesToLoadBalancer(s: State, n: Name) returns (actions: seq<Action>)
    requires Sound(s) && AllLabelled(s)
    requires n in s.cells && MayReconfigure(s.cells[n]) && !s.cells[n].flight.value.clusterDeleting
    ensures Calm(actions)
    ensures var t := Exec(s, actions);
      n in t.cells && DeleteReconfigures(t.cells[n]) && t.lb == s.lb && t.clusterDeleting == s.clusterDeleting
  {
    actions := [];
    assert CellSound(s, n, s.cells[n]);
    for i := 0 to 3
      invariant Calm(actions)
      invariant var t := Exec(s, actions);
        && Sound(t) && AllLabelled(t) && t.lb == s.lb && t.clusterDeleting == s.clusterDeleting
        && n in t.cells && MayReconfigure(t.cells[n]) && !t.cells[n].flight.value.clusterDeleting
        && (i == 1 ==> !t.cells[n].flight.value.pc.Mark?)
        && (i == 2 ==> t.cells[n].flight.value.pc.Destroy? || Reconfiguring(t.cells[n].flight.value.pc))
        && (i == 3 ==> Reconfiguring(t.cells[n].flight.value.pc))
    {
      var t := Exec(s, actions);
      assert CellSound(t, n, t.cells[n]);
      if !Reconfiguring(t.cells[n].flight.value.pc) {
        DeleteAdvances(t, ViewOf(t, n), t.cells[n]);
        ApplyKeepsSound(t, On(n, Step(Ok)));
        ExecSnoc(s, actions, On(n, Step(Ok)));
        actions := actions + [On(n, Step(Ok))];
      }
    }
  }

  /** A machine delete is at work on a load balancer that is gone. */
  ghost predicate LateReconfigure(s: State) {
    !s.lb.present && exists n | n in s.cells :: DeleteReconfigures(s.cells[n])
  }

  /** Some run from here comes to that. */
  ghost predicate CanReconfigureLate(s: State) { exists actions :: LateReconfigure(Exec(s, actions)) }

  /** Whenever the Cluster is deleted against the rule, a fault-free continuation has a machine delete
      reconfigure a load balancer that is gone. */
  lemma LateClusterDelete(s: State) returns (actions: seq<Action>)
    requires Sound(s) && AllLabelled(s) && OutlivesMachines(s) && !NoDeleteInFlight(s, DeleteCluster)
    ensures Calm(actions)
    ensures LateReconfigure(Exec(Apply(s, DeleteCluster), actions))
  {
    var n :| n in s.cells && MayReconfigure(s.cells[n]);
    assert CellSound(s, n, s.cells[n]);
    var s1 := Apply(s, DeleteCluster);
    ApplyKeepsSound(s, DeleteCluster);
    var x := LoadBalancerGoes(s1);
    var s2 := Exec(s1, x);
    RunKeepsSound(s1, x);
    var y := DeleteComesToLoadBalancer(s2, n);
    ExecAppend(s1, x, y);
    CalmAppend(x, y);
    actions := x + y;
  }

  lemma {:induction false} RuleIsIdleOnceDeleting(s: State, actions: seq<Action>)
    requires s.clusterDeleting
    ensures Along(s, actions, NoDeleteInFlight)
    decreases |actions|
  {
    if actions != [] {
      RuleIsIdleOnceDeleting(Apply(s, actions[0]), actions[1..]);
    }
  }

  /** The rule is exact: deleting the Cluster in this state can lead to a late reconfigure if and only if a
      control plane delete is in flight before its closing patch. */
  lemma LateReconfigureExactly(s: State)
    requires Sound(s) && AllLabelled(s) && OutlivesMachines(s) && !s.clusterDeleting
    ensures CanReconfigureLate(Apply(s, DeleteCluster)) <==> !NoDeleteInFlight(s, DeleteCluster)
  {
    var s1 := Apply(s, DeleteCluster);
    if NoDeleteInFlight(s, DeleteCluster) {
      ApplyKeepsDeletesKnow(s, DeleteCluster);
      ApplyKeepsSound(s, DeleteCluster);
      ApplyKeepsClusterSound(s, DeleteCluster);
      forall actions ensures !LateReconfigure(Exec(s1, actions)) {
        RuleIsIdleOnceDeleting(s1, actions);
        StillDeleting(s1, actions);
        forall n | n in Exec(s1, actions).cells ensures !DeleteReconfigures(Exec(s1, actions).cells[n]) {
          DeleteLeavesLoadBalancerAlone(s1, actions, n);
        }
      }
    } else {
      var actions := LateClusterDelete(s);
      assert LateReconfigure(Exec(s1, actions));
    }
  }

  /** Such a reconfigure fails and the machine keeps its finalizer, so its next delete reconcile knows. */
  lemma LateReconfigureFails(v: View, c: Cell, o: Outcome)
    requires c.flight.Some? && InWindow(c) && !v.lb.present
    ensures var c' := CellAfter(v, c, Step(o));
      c'.flight.Some? && c'.flight.value.pc.Finish? && c'.flight.value.local == c.flight.value.local
    ensures LbAfter(v.lb, c, Step(o)) == v.lb
  {
  }

  // ---- termination -----------------------------------------------------------------------------

  const FAULT_COST := 10

  /** How much work a cell has left. */
  function PcRank(f: Flight): nat {
    match f.pc
    case Check => 43 case Probe => 42 case FindOp => 41 case Request => 40
    case WaitCreate => 30 case Setup => 29 case Start => 28 case WaitAddress => 25
    case Mark => 19 case Stop => 18 case Destroy => 17
    case List => if f.local.deleting then 15 else 24
    case Write(_) => if f.local.deleting then 14 else 23
    case Reload => if f.local.deleting then 13 else 22
    case Finish => if f.local.finalizer then 21 else 12
  }

  function Rank(c: Cell): nat {
    (if c.machine.None? then 0
     else (if c.machine.value.bootstrap then 0 else 1) + (if c.flight.Some? then PcRank(c.flight.value) else 20))
    + (if c.owner then 1 else 0)
    + (if c.op.Some? then 3 else 0)
    + (if c.inst.None? then 0 else if !c.inst.value.running then 1 else if c.inst.value.hosts == [] then 3 else 2)
  }

  predicate Leaving(c: Cell) { c.machine.Some? ==> c.machine.value.deleting && c.machine.value.finalizer }

  predicate Falls(c: Cell, c': Cell, a: CellAction) {
    Leaving(c') && (c' != c ==> Rank(c') < Rank(c) + if CellFault(a) then FAULT_COST else 0)
  }

  lemma CreateFalls(s: State, v: View, c: Cell, o: Outcome)
    requires CellSound(s, v.name, c) && Leaving(c) && c.flight.Some?
    requires c.flight.value.pc in {Check, Probe, FindOp, Request}
    ensures Falls(c, CreateStep(v, c, o), Step(o))
  {
  }

  lemma StartFalls(s: State, v: View, c: Cell, o: Outcome)
    requires CellSound(s, v.name, c) && Leaving(c) && c.flight.Some?
    requires c.flight.value.pc in {WaitCreate, Setup, Start, WaitAddress, Finish}
    ensures Falls(c, StartStep(v, c, o), Step(o))
  {
  }

  lemma DeleteFalls(s: State, n: Name, c: Cell, o: Outcome)
    requires CellSound(s, n, c) && Leaving(c) && c.flight.Some?
    requires c.flight.value.pc in {Mark, Stop, Destroy}
    ensures Falls(c, DeleteStep(c, o), Step(o))
  {
  }

  lemma ReconfigureFalls(s: State, v: View, c: Cell, o: Outcome)
    requires CellSound(s, v.name, c) && Leaving(c) && c.flight.Some?
    requires Reconfiguring(c.flight.value.pc) && !c.flight.value.local.deleting
    ensures Falls(c, ReconfigureStep(v, c, o), Step(o))
  {
  }

  /** The moves of users and of the server. */
  lemma EnvironmentFalls(s: State, v: View, c: Cell, a: CellAction)
    requires CellSound(s, v.name, c) && Leaving(c)
    requires a.UserDelete? || a.BootstrapReady? || a.OwnerGone? || a.OpDone? || a.OpFailed? || a.AddressAppears?
    ensures Falls(c, CellAfter(v, c, a), a)
  {
  }

  /** The start and the end of a reconcile. */
  lemma BoundaryFalls(s: State, v: View, c: Cell, a: CellAction)
    requires CellSound(s, v.name, c) && Leaving(c)
    requires a.AddFinalizer? || a.Fetch? || a.Patch? || a.Abandon?
    ensures Falls(c, CellAfter(v, c, a), a)
  {
  }

  /** One step of a reconcile. */
  lemma StepFalls(s: State, v: View, c: Cell, o: Outcome)
    requires CellSound(s, v.name, c) && Leaving(c) && c.flight.Some?
    requires c.flight.value.local.deleting ==> !Reconfiguring(c.flight.value.pc)
    ensures Falls(c, CellAfter(v, c, Step(o)), Step(o))
  {
    match c.flight.value.pc
    case Mark | Stop | Destroy => DeleteFalls(s, v.name, c, o);
    case List | Write(_) | Reload => ReconfigureFalls(s, v, c, o);
    case Check | Probe | FindOp | Request => CreateFalls(s, v, c, o);
    case _ => StartFalls(s, v, c, o);
  }

  lemma RankFalls(s: State, v: View, c: Cell, a: CellAction)
    requires Sees(v, s) && CellSound(s, v.name, c) && Leaving(c)
    requires a.Step? && c.flight.Some? && c.flight.value.local.deleting ==> !Reconfiguring(c.flight.value.pc)
    ensures Falls(c, CellAfter(v, c, a), a)
  {
    match a
    case Step(o) =>
      if c.flight.Some? {
        StepFalls(s, v, c, o);
      }
    case AddFinalizer | Fetch | Patch(_) | Abandon => BoundaryFalls(s, v, c, a);
    case _ => EnvironmentFalls(s, v, c, a);
  }

  ghost function Total(cells: map<Name, Cell>): nat
    decreases |cells|
  {
    if cells == map[] then 0
    else
      var n :| n in cells;
      Rank(cells[n]) + Total(cells - {n})
  }

  lemma {:induction false} TotalSplit(cells: map<Name, Cell>, n: Name)
    requires n in cells
    ensures Total(cells) == Rank(cells[n]) + Total(cells - {n})
    decreases |cells|
  {
    var k :| k in cells && Total(cells) == Rank(cells[k]) + Total(cells - {k});
    if k != n {
      TotalSplit(cells - {k}, n);
      TotalSplit(cells - {n}, k);
      assert cells - {k} - {n} == cells - {n} - {k};
    }
  }

  lemma TotalUpdate(cells: map<Name, Cell>, n: Name, c: Cell)
    requires n in cells
    ensures Total(cells[n := c]) + Rank(cells[n]) == Total(cells) + Rank(c)
  {
    TotalSplit(cells, n);
    TotalSplit(cells[n := c], n);
    assert cells[n := c] - {n} == cells - {n};
  }

  /** The work left for the cluster controller once no Machine is left. */
  ghost function ClusterRank(s: State): nat {
    if MachinesLeft(s) then 9
    else if !s.lxc.present then 0
    else match s.lxc.flight
      case None => 6
      case Some(CreateLb) => 8
      case Some(DeleteLb) => 5
      case Some(ListMachines) => 4
      case Some(ClusterFinish(drop)) => if drop then 3 else 7
  }

  ghost function Work(s: State): nat {
    Total(s.cells) + ClusterRank(s) + if s.infraReady then 0 else 1
  }

  ghost predicate TearingDown(s: State) {
    && Sound(s) && AllLabelled(s) && AllOwned(s) && OutlivesMachines(s) && DeletesKnow(s)
    && s.clusterDeleting
    && (s.lxc.present ==> s.lxc.finalizer && s.lxc.deleting)
    && (forall n | n in s.cells :: Leaving(s.cells[n]))
  }

  /** The rules of the environment during teardown. */
  predicate Rules(s: State, a: Action) {
    KeepsCluster(s, a) && NoPendingCreate(s, a)
  }

  predicate IsCluster(a: Action) { a.ClusterFetch? || a.ClusterStep? || a.ClusterPatch? || a.ClusterAbandon? }

  /** The cluster controller polling while Machines are left. */
  ghost predicate Poll(s: State, a: Action) { IsCluster(a) && MachinesLeft(s) }

  /** A cell that stays as it is leaves the load balancer as it is. */
  lemma SameCellSameLb(s: State, n: Name, act: CellAction)
    requires Sound(s) && n in s.cells && CellAfter(ViewOf(s, n), s.cells[n], act) == s.cells[n]
    ensures Apply(s, On(n, act)) == s
  {
  }

  lemma CellWorkFalls(s: State, n: Name, act: CellAction)
    requires TearingDown(s) && n in s.cells
    ensures var t := Apply(s, On(n, act));
      && Leaving(t.cells[n])
      && (t != s ==> Work(t) < Work(s) + if CellFault(act) then FAULT_COST else 0)
  {
    var c := s.cells[n];
    var c' := CellAfter(ViewOf(s, n), c, act);
    assert CellSound(s, n, c) && Leaving(c);
    RankFalls(s, ViewOf(s, n), c, act);
    if c' == c {
      SameCellSameLb(s, n, act);
    } else {
      WorkChanges(s, n, act);
    }
  }

  lemma WorkChanges(s: State, n: Name, act: CellAction)
    requires n in s.cells && s.clusterDeleting
    ensures Work(Apply(s, On(n, act))) + Rank(s.cells[n]) <= Work(s) + Rank(CellAfter(ViewOf(s, n), s.cells[n], act))
  {
    var t := Apply(s, On(n, act));
    CellActionFrame(s, n, act);
    TotalUpdate(s.cells, n, CellAfter(ViewOf(s, n), s.cells[n], act));
    if MachinesLeft(t) {
      OwnersOnlyGo(s, On(n, act));
    }
  }

  lemma ClusterWorkFalls(s: State, a: Action)
    requires TearingDown(s) && KeepsCluster(s, a) && !a.On?
    ensures var t := Apply(s, a);
      && t.cells == s.cells
      && (Poll(s, a) ==> Work(t) == Work(s))
      && (t != s && !Poll(s, a) ==> Work(t) < Work(s) + if Fault(a) then FAULT_COST else 0)
  {
  }

  lemma ApplyKeepsTearingDown(s: State, a: Action)
    requires TearingDown(s) && Rules(s, a)
    ensures TearingDown(Apply(s, a))
  {
    var t := Apply(s, a);
    ApplyKeepsSound(s, a);
    ApplyKeepsOutlives(s, a);
    ApplyKeepsDeletesKnow(s, a);
    forall n | n in t.cells ensures Owned(t.cells[n]) && Leaving(t.cells[n]) {
      assert n in s.cells;
      ApplyFrame(s, a, n);
      if a.On? && a.name == n {
        ActionKeepsOwned(s, ViewOf(s, n), s.cells[n], a.act);
        CellWorkFalls(s, n, a.act);
      }
    }
  }

  // ---- every run -------------------------------------------------------------------------------

  function Faults(actions: seq<Action>): nat {
    if actions == [] then 0 else (if Fault(actions[0]) then 1 else 0) + Faults(actions[1..])
  }

  /** How many actions of a run change the state, the polling of the cluster controller aside. */
  ghost function Moves(s: State, actions: seq<Action>): nat
    decreases |actions|
  {
    if actions == [] then 0
    else
      (if Apply(s, actions[0]) != s && !Poll(s, actions[0]) then 1 else 0) + Moves(Apply(s, actions[0]), actions[1..])
  }

  /** However the steps interleave, a teardown makes at most as many moves as its work and its faults
      allow: finitely many faults mean finitely many moves. */
  lemma {:induction false} TeardownIsBounded(s: State, actions: seq<Action>)
    requires TearingDown(s) && Along(s, actions, Rules)
    ensures TearingDown(Exec(s, actions))
    ensures Moves(s, actions) + Work(Exec(s, actions)) <= Work(s) + FAULT_COST * Faults(actions)
    decreases |actions|
  {
    if actions != [] {
      var a := actions[0];
      ApplyKeepsTearingDown(s, a);
      if a.On? && a.name in s.cells {
        CellWorkFalls(s, a.name, a.act);
      } else if !a.On? {
        ClusterWorkFalls(s, a);
      }
      TeardownIsBounded(Apply(s, a), actions[1..]);
    }
  }

  ghost predicate Gone(s: State) {
    && !s.lxc.present && !s.lb.present
    && forall n | n in s.cells :: s.cells[n] == Cell(None, false, None, None, None)
  }

  predicate CanMove(v: View, c: Cell, act: CellAction) {
    !CellFault(act) && CellAfter(v, c, act) != c && (act.Fetch? ==> c.op.None?)
  }

  /** A machine that is still there can always make a move that is not a fault. */
  lemma CellMoves(s: State, v: View, c: Cell) returns (act: CellAction)
    requires CellSound(s, v.name, c) && c.machine.Some? && Leaving(c) && v.lxcPresent
    ensures CanMove(v, c, act)
  {
    if c.op.Some? {
      act := OpDone;
    } else if c.flight.None? {
      act := Fetch;
    } else if c.flight.value.pc.Finish? {
      act := Patch(true);
    } else if c.flight.value.pc.WaitAddress? && c.inst.value.hosts == [] {
      act := AddressAppears(["10.0.0.1"]);
    } else {
      act := Step(Ok);
    }
  }

  lemma NothingLeft(s: State)
    requires TearingDown(s) && !MachinesLeft(s) && !s.lxc.present
    ensures Gone(s)
  {
  }

  /** As long as anything is left, some move that is not a fault is possible. */
  lemma TeardownProgresses(s: State) returns (a: Action)
    requires TearingDown(s) && !Gone(s)
    ensures Rules(s, a) && !Fault(a) && !Poll(s, a) && Apply(s, a) != s
  {
    if n :| n in s.cells && s.cells[n].machine.Some? {
      assert CellSound(s, n, s.cells[n]) && s.cells[n].owner;
      assert MachinesLeft(s);
      var act := CellMoves(s, ViewOf(s, n), s.cells[n]);
      a := On(n, act);
      ApplyFrame(s, a, n);
    } else if n :| n in s.cells && s.cells[n].owner {
      a := On(n, OwnerGone);
      ApplyFrame(s, a, n);
    } else {
      assert !MachinesLeft(s);
      if !s.lxc.present {
        NothingLeft(s);
      }
      match s.lxc.flight
      case None => a := ClusterFetch;
      case Some(ClusterFinish(_)) => a := ClusterPatch(true);
      case _ => a := ClusterStep(Ok);
    }
  }

  predicate AllRules(s: State, a: Action) { Rules(s, a) && NoDeleteInFlight(s, a) }

  /** Every run under the rules that has deleted the Cluster, the LXCCluster and all LXCMachines is a
      teardown to which the two theorems above apply. */
  lemma {:induction false} TeardownStarts(s: State, actions: seq<Action>)
    requires Sound(s) && AllLabelled(s) && AllOwned(s) && OutlivesMachines(s) && DeletesKnow(s)
    requires Along(s, actions, AllRules)
    requires var t := Exec(s, actions);
      && t.clusterDeleting && (t.lxc.present ==> t.lxc.finalizer && t.lxc.deleting)
      && forall n | n in t.cells :: Leaving(t.cells[n])
    ensures TearingDown(Exec(s, actions))
    decreases |actions|
  {
    if actions != [] {
      var a, t := actions[0], Apply(s, actions[0]);
      ApplyKeepsSound(s, a);
      ApplyKeepsOutlives(s, a);
      ApplyKeepsDeletesKnow(s, a);
      ApplyKeepsOwned(s, a);
      TeardownStarts(t, actions[1..]);
    }
  }

  lemma InitMeetsInvariants(s: State)
    requires Init(s)
    ensures Sound(s) && AllLabelled(s) && AllOwned(s) && OutlivesMachines(s) && DeletesKnow(s) && Fresh(s)
  {
  }
}
