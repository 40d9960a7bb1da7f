/** A refresh that is owed gets done: with finitely many faults a machine makes only finitely many moves before it
    is provisioned, or, when it is deleted, before it is gone, and until then a move that is not a fault is
    possible. */
module Progress {
  import opened Protocol
  import opened Freshness
  import opened Lifecycle
  import opened Teardown

  // ---- provisioning ----------------------------------------------------------------------------

  /** Faults of a launch: those of the controllers, and a create operation that the server fails. */
  predicate LaunchFault(a: CellAction) { CellFault(a) || a.OpFailed? }

  const LAUNCH_FAULT_COST := 40

  /** The reconcile in flight fetched what it needs to launch the instance. */
  predicate Informed(f: Flight) { f.infraReady && f.local.bootstrap }

  /** How much is left to be done by the reconcile in flight, given the instance and its pending create. */
  function LaunchPcRank(f: Flight, c: Cell): nat {
    match f.pc
    case Check => if Informed(f) then 29 else 32
    case Probe => 28
    case FindOp => if c.inst.Some? then 33 else 27
    case Request => if c.inst.Some? || c.op.Some? then 32 else 26
    case WaitCreate => if c.inst.Some? || c.op.Some? then 14 else 34
    case Setup => if c.inst.Some? then 13 else 33
    case Start => if c.inst.Some? then 12 else 32
    case WaitAddress => 10
    case List => 8
    case Write(_) => 7
    case Reload => 6
    case Finish => if f.local.providerID.Some? then 5 else 31
    case _ => 0
  }

  function LaunchRank(c: Cell): nat {
    if c.machine.None? || HasProviderID(c) then 0
    else
      (if !c.machine.value.finalizer then 35 else if c.flight.None? then 30 else LaunchPcRank(c.flight.value, c))
      + (if c.op.Some? then 10 else 0)
      + (if c.inst.Some? && c.inst.value.running && c.inst.value.hosts == [] then 1 else 0)
  }

  /** A machine that is to be provisioned: it has its bootstrap data and nobody deletes it. */
  predicate Wanted(c: Cell) { c.machine.Some? && !c.machine.value.deleting && c.machine.value.bootstrap }

  predicate LaunchFalls(c: Cell, c': Cell, a: CellAction) {
    && Wanted(c')
    && (c' != c ==> LaunchRank(c') < LaunchRank(c) + if LaunchFault(a) then LAUNCH_FAULT_COST else 0)
  }

  lemma LaunchCreateFalls(s: State, v: View, c: Cell, o: Outcome)
    requires CellSound(s, v.name, c) && Wanted(c) && !HasProviderID(c) && c.flight.Some?
    requires c.flight.value.pc in {Check, Probe, FindOp, Request}
    ensures LaunchFalls(c, CreateStep(v, c, o), Step(o))
  {
  }

  lemma LaunchStartFalls(s: State, v: View, c: Cell, o: Outcome)
    requires CellSound(s, v.name, c) && Wanted(c) && !HasProviderID(c) && c.flight.Some?
    requires c.flight.value.pc in {WaitCreate, Setup, Start, WaitAddress, Finish}
    ensures LaunchFalls(c, StartStep(v, c, o), Step(o))
  {
  }

  lemma LaunchReconfigureFalls(s: State, v: View, c: Cell, o: Outcome)
    requires CellSound(s, v.name, c) && Wanted(c) && !HasProviderID(c) && c.flight.Some? && v.lb.present
    requires Reconfiguring(c.flight.value.pc)
    ensures LaunchFalls(c, ReconfigureStep(v, c, o), Step(o))
  {
  }

  lemma LaunchBoundaryFalls(s: State, v: View, c: Cell, a: CellAction)
    requires CellSound(s, v.name, c) && Wanted(c) && !HasProviderID(c) && v.infraReady
    requires a.AddFinalizer? || a.Fetch? || a.Patch? || a.Abandon?
    ensures LaunchFalls(c, CellAfter(v, c, a), a)
  {
  }

  lemma LaunchEnvironmentFalls(s: State, v: View, c: Cell, a: CellAction)
    requires CellSound(s, v.name, c) && Wanted(c) && !HasProviderID(c)
    requires a.BootstrapReady? || a.OwnerGone? || a.OpDone? || a.OpFailed? || a.AddressAppears?
    ensures LaunchFalls(c, CellAfter(v, c, a), a)
  {
  }

  lemma LaunchRankFalls(s: State, v: View, c: Cell, a: CellAction)
    requires Sees(v, s) && CellSound(s, v.name, c) && Wanted(c) && !HasProviderID(c) && !a.UserDelete?
    requires v.infraReady && v.lb.present
    ensures LaunchFalls(c, CellAfter(v, c, a), a)
  {
    match a
    case Step(o) =>
      if c.flight.Some? {
        LaunchStepFalls(s, v, c, o);
      }
    case AddFinalizer | Fetch | Patch(_) | Abandon => LaunchBoundaryFalls(s, v, c, a);
    case _ => LaunchEnvironmentFalls(s, v, c, a);
  }

  lemma LaunchStepFalls(s: State, v: View, c: Cell, o: Outcome)
    requires CellSound(s, v.name, c) && Wanted(c) && !HasProviderID(c) && c.flight.Some? && v.lb.present
    ensures LaunchFalls(c, CellAfter(v, c, Step(o)), Step(o))
  {
    match c.flight.value.pc
    case Mark | Stop | Destroy =>
    case List | Write(_) | Reload => LaunchReconfigureFalls(s, v, c, o);
    case Check | Probe | FindOp | Request => LaunchCreateFalls(s, v, c, o);
    case _ => LaunchStartFalls(s, v, c, o);
  }

  /** The cluster serves its machines: its infrastructure and its load balancer are there and nobody deletes it. */
  ghost predicate Serves(s: State) {
    && Sound(s) && AllLabelled(s) && ClusterSound(s)
    && !s.clusterDeleting && s.infraReady && s.lxc.present && s.lb.present
  }

  lemma ServesOn(s: State, a: Action)
    requires Serves(s) && !a.DeleteCluster?
    ensures Serves(Apply(s, a))
  {
    ApplyKeepsSound(s, a);
    ApplyKeepsClusterSound(s, a);
    if a.On? {
      CellActionFrame(s, a.name, a.act);
    }
  }

  /** Nobody deletes the Cluster, or the machine `n`. */
  predicate Spared(a: Action, n: Name) { !a.DeleteCluster? && a != On(n, UserDelete) }

  predicate Launching(s: State, n: Name) { n in s.cells && Wanted(s.cells[n]) && !HasProviderID(s.cells[n]) }

  /** How many actions of a run change the machine `n` before it is provisioned. */
  ghost function LaunchMoves(s: State, actions: seq<Action>, n: Name): nat
    decreases |actions|
  {
    if actions == [] then 0
    else
      var a, t := actions[0], Apply(s, actions[0]);
      Count(Launching(s, n) && n in t.cells && a.On? && a.name == n && t.cells[n] != s.cells[n])
      + LaunchMoves(t, actions[1..], n)
  }

  function LaunchFaults(actions: seq<Action>, n: Name): nat {
    if actions == [] then 0
    else
      Count(actions[0].On? && actions[0].name == n && LaunchFault(actions[0].act)) + LaunchFaults(actions[1..], n)
  }

  lemma ProvisionedStays(s: State, a: Action, n: Name)
    requires Serves(s) && n in s.cells && Wanted(s.cells[n]) && HasProviderID(s.cells[n]) && Spared(a, n)
    ensures n in Apply(s, a).cells && Wanted(Apply(s, a).cells[n]) && HasProviderID(Apply(s, a).cells[n])
  {
    ApplyFrame(s, a, n);
    assert CellSound(s, n, s.cells[n]);
  }

  /** However the steps of all reconciles interleave, a machine that is wanted makes at most as many moves before
      it is provisioned as its work and its faults allow: finitely many faults mean that it is provisioned after
      finitely many moves. */
  lemma {:induction false} ProvisioningIsBounded(s: State, actions: seq<Action>, n: Name)
    requires Serves(s) && n in s.cells && Wanted(s.cells[n]) && forall a | a in actions :: Spared(a, n)
    ensures n in Exec(s, actions).cells && Wanted(Exec(s, actions).cells[n])
    ensures LaunchMoves(s, actions, n) + LaunchRank(Exec(s, actions).cells[n])
      <= LaunchRank(s.cells[n]) + LAUNCH_FAULT_COST * LaunchFaults(actions, n)
    decreases |actions|
  {
    if actions != [] {
      var a, t := actions[0], Apply(s, actions[0]);
      assert a in actions;
      ServesOn(s, a);
      ApplyFrame(s, a, n);
      assert CellSound(s, n, s.cells[n]);
      if HasProviderID(s.cells[n]) {
        ProvisionedStays(s, a, n);
      } else if a.On? && a.name == n {
        LaunchRankFalls(s, ViewOf(s, n), s.cells[n], a.act);
      }
      ProvisioningIsBounded(t, actions[1..], n);
    }
  }

  /** Until the machine is provisioned, some move of it that is not a fault is possible. */
  lemma ProvisioningProgresses(s: State, n: Name) returns (act: CellAction)
    requires Serves(s) && Launching(s, n)
    ensures !LaunchFault(act) && !act.UserDelete? && Apply(s, On(n, act)).cells[n] != s.cells[n]
  {
    var c := s.cells[n];
    assert CellSound(s, n, c);
    ApplyFrame(s, On(n, AddFinalizer), n);
    if !c.machine.value.finalizer {
      act := AddFinalizer;
    } else if c.op.Some? {
      act := OpDone;
    } else if c.flight.None? {
      act := Fetch;
    } else if c.flight.value.pc.Finish? {
      act := Patch(true);
    } else if c.flight.value.pc.WaitAddress? && c.inst.value.hosts == [] {
      act := AddressAppears(["10.0.0.1"]);
    } else {
      act := Step(Ok);
    }
    ApplyFrame(s, On(n, act), n);
  }

  // ---- deleting one machine --------------------------------------------------------------------

  lemma DeleteReconfigureFalls(s: State, v: View, c: Cell, o: Outcome)
    requires CellSound(s, v.name, c) && Leaving(c) && c.flight.Some? && v.lb.present
    requires Reconfiguring(c.flight.value.pc)
    ensures Falls(c, ReconfigureStep(v, c, o), Step(o))
  {
  }

  lemma LeavingFalls(s: State, v: View, c: Cell, a: CellAction)
    requires Sees(v, s) && CellSound(s, v.name, c) && Leaving(c) && v.lb.present
    ensures Falls(c, CellAfter(v, c, a), a)
  {
    if a.Step? && c.flight.Some? && Reconfiguring(c.flight.value.pc) {
      DeleteReconfigureFalls(s, v, c, a.outcome);
    } else {
      RankFalls(s, v, c, a);
    }
  }

  /** How many actions of a run change the cell of `n`. */
  ghost function MovesOf(s: State, actions: seq<Action>, n: Name): nat
    decreases |actions|
  {
    if actions == [] then 0
    else
      var a, t := actions[0], Apply(s, actions[0]);
      Count(n in s.cells && n in t.cells && t.cells[n] != s.cells[n]) + MovesOf(t, actions[1..], n)
  }

  function CellFaults(actions: seq<Action>, n: Name): nat {
    if actions == [] then 0
    else Count(actions[0].On? && actions[0].name == n && CellFault(actions[0].act)) + CellFaults(actions[1..], n)
  }

  /** While the cluster serves, a machine that is being deleted makes at most as many moves as its work and its
      faults allow, its reconfiguring of the load balancer included. */
  lemma {:induction false} DeletionIsBounded(s: State, actions: seq<Action>, n: Name)
    requires Serves(s) && n in s.cells && Leaving(s.cells[n]) && forall a | a in actions :: !a.DeleteCluster?
    ensures n in Exec(s, actions).cells && Leaving(Exec(s, actions).cells[n])
    ensures MovesOf(s, actions, n) + Rank(Exec(s, actions).cells[n])
      <= Rank(s.cells[n]) + FAULT_COST * CellFaults(actions, n)
    decreases |actions|
  {
    if actions != [] {
      var a := actions[0];
      assert a in actions;
      ServesOn(s, a);
      ApplyFrame(s, a, n);
      assert CellSound(s, n, s.cells[n]);
      if a.On? && a.name == n {
        LeavingFalls(s, ViewOf(s, n), s.cells[n], a.act);
      }
      DeletionIsBounded(Apply(s, a), actions[1..], n);
    }
  }

  /** Until it is gone, some move of it that is not a fault is possible. */
  lemma DeletionProgresses(s: State, n: Name) returns (act: CellAction)
    requires Serves(s) && n in s.cells && s.cells[n].machine.Some? && Leaving(s.cells[n])
    ensures !CellFault(act) && Apply(s, On(n, act)).cells[n] != s.cells[n]
  {
    assert CellSound(s, n, s.cells[n]);
    act := CellMoves(s, ViewOf(s, n), s.cells[n]);
    ApplyFrame(s, On(n, act), n);
  }

  // ---- and then the load balancer is fresh -----------------------------------------------------

  /** Every control plane machine that is left has been provisioned, and none is being deleted. */
  predicate AllDone(s: State) {
    forall n | n in s.cells && s.cells[n].machine.Some? && s.cells[n].machine.value.controlPlane ::
      HasProviderID(s.cells[n]) && !s.cells[n].machine.value.deleting
  }

  /** In every orderly run, once every control plane machine has been provisioned or is gone, the proxy serves
      exactly the filtered server listing. */
  lemma AllDoneMeansFresh(s: State, actions: seq<Action>)
    requires Init(s) && Along(s, actions, Orderly) && !Exec(s, actions).clusterDeleting && AllDone(Exec(s, actions))
    ensures Exec(s, actions).lb.active == Exec(s, actions).lb.written == Listing(Exec(s, actions))
  {
    var t := Exec(s, actions);
    RunKeepsSound(s, actions);
    forall n ensures !Owes(t, n) {
      if n in t.cells {
        assert CellSound(t, n, t.cells[n]);
      }
    }
    NothingOwedMeansFresh(s, actions);
  }
}
