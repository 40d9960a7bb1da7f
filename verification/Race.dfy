/** Why Freshness asks that Reconfigure calls are orderly: nothing in the controllers orders them, and a listing
    that is taken while an older one with its machine wrong is still to be written can leave that machine wrong
    for good. */
module Race {
  import opened Common
  import opened Labels
  import opened Protocol
  import opened Freshness

  lemma {:induction false} ExecAppend(s: State, xs: seq<Action>, ys: seq<Action>)
    ensures Exec(s, xs + ys) == Exec(Exec(s, xs), ys)
    decreases |xs|
  {
    if xs == [] {
      assert xs + ys == ys;
    } else {
      assert (xs + ys)[1..] == xs[1..] + ys;
      ExecAppend(Apply(s, xs[0]), xs[1..], ys);
    }
  }

  lemma ExecSnoc(s: State, xs: seq<Action>, a: Action)
    ensures Exec(s, xs + [a]) == Apply(Exec(s, xs), a)
  {
    ExecAppend(s, xs, [a]);
    assert [a][1..] == [];
  }

  lemma ExecTwo(s: State, a: Action, b: Action)
    ensures Exec(s, [a, b]) == Apply(Apply(s, a), b)
  {
    assert [a, b] == [a] + [b] && [a][1..] == [];
    ExecSnoc(s, [a], b);
  }

  lemma ExecThree(s: State, a: Action, b: Action, c: Action)
    ensures Exec(s, [a, b, c]) == Apply(Apply(Apply(s, a), b), c)
  {
    assert [a, b, c] == [a, b] + [c];
    ExecTwo(s, a, b);
    ExecSnoc(s, [a, b], c);
  }

  /** `t` is `s` with another cell at `n`. */
  predicate Put(s: State, n: Name, c: Cell, t: State) { t == s.(cells := s.cells[n := c]) }

  function NewMachine(): Machine { Machine(true, map[], true, false, true, None, false, false) }

  function NewConfig(s: State, n: Name): Config { LaunchConfig(ViewOf(s, n), NewMachine()) }

  function InFlight(s: State, n: Name, pc: Pc, hosts: seq<string>): Cell {
    Cell(Some(NewMachine()), true, Some(Flight(NewMachine(), true, false, pc)), None,
         Some(Instance(NewConfig(s, n), true, hosts)))
  }

  predicate Serving(s: State) {
    s.infraReady && !s.clusterDeleting && s.lxc.present && s.lb.present
  }

  /** The launch of a control plane machine, one action after another. */
  function LaunchAct(i: nat): CellAction {
    if i == 0 then BootstrapReady else if i == 1 then AddFinalizer else if i == 2 then Fetch
    else if i == 7 then OpDone else Step(Ok)
  }

  function LaunchCell(config: Config, i: nat): Cell {
    var m := NewMachine();
    if i == 0 then Cell(Some(m.(bootstrap := false, finalizer := false)), true, None, None, None)
    else if i == 1 then Cell(Some(m.(finalizer := false)), true, None, None, None)
    else if i == 2 then Cell(Some(m), true, None, None, None)
    else
      var pc := if i == 3 then Check else if i == 4 then Probe else if i == 5 then FindOp else if i == 6 then Request
                else if i <= 8 then WaitCreate else if i == 9 then Setup else if i == 10 then Start else WaitAddress;
      Cell(Some(m), true, Some(Flight(m, true, false, pc)),
           if i == 7 then Some(config) else None,
           if i <= 7 then None else Some(Instance(config, i > 10, [])))
  }

  lemma LaunchRow(v: View, i: nat)
    requires v.infraReady && !v.clusterDeleting && v.lxcPresent && i < 11
    ensures CellAfter(v, LaunchCell(LaunchConfig(v, NewMachine()), i), LaunchAct(i))
         == LaunchCell(LaunchConfig(v, NewMachine()), i + 1)
  {
  }

  /** A control plane machine is created, launched and waits for its address. */
  lemma Launches(s: State, n: Name) returns (actions: seq<Action>)
    requires Serving(s) && n !in s.cells
    ensures Calm(actions)
    ensures Put(s, n, InFlight(s, n, WaitAddress, []), Exec(s, actions))
  {
    actions := LaunchesTo(s, n, 11);
  }

  /** A control plane machine is created and its launch comes as far as row `k`. */
  lemma LaunchesTo(s: State, n: Name, k: nat) returns (actions: seq<Action>)
    requires Serving(s) && n !in s.cells && k <= 11
    ensures Calm(actions)
    ensures Put(s, n, LaunchCell(NewConfig(s, n), k), Exec(s, actions))
  {
    actions := [];
    ExecSnoc(s, actions, CreateMachine(n, true, map[]));
    actions := actions + [CreateMachine(n, true, map[])];
    for i := 0 to k
      invariant Put(s, n, LaunchCell(NewConfig(s, n), i), Exec(s, actions)) && Calm(actions)
    {
      ExecSnoc(s, actions, On(n, LaunchAct(i)));
      LaunchRow(ViewOf(s, n), i);
      LaunchTable(
        s, n, Exec(s, actions), LaunchAct(i), LaunchCell(NewConfig(s, n), i), LaunchCell(NewConfig(s, n), i + 1));
      actions := actions + [On(n, LaunchAct(i))];
    }
  }

  /** One row of the launch. */
  lemma LaunchTable(s: State, n: Name, t: State, act: CellAction, c: Cell, c': Cell)
    requires Put(s, n, c, t)
    requires CellAfter(ViewOf(s, n), c, act) == c'
    requires c.flight.Some? && act.Step? ==> !Reconfiguring(c.flight.value.pc)
    ensures Put(s, n, c', Apply(t, On(n, act)))
  {
  }

  predicate Configured(s: State, n: Name) {
    && n in s.cells && s.cells[n].flight.None? && s.cells[n].machine.Some?
    && var m := s.cells[n].machine.value;
    m.lbConfigured && m.ready && m.providerID.Some? && !m.deleting && m.finalizer
  }

  /** A control plane machine that nobody deletes, in a reconcile at `pc`. */
  predicate InReconcile(s: State, n: Name, pc: Pc) {
    && n in s.cells && s.cells[n].machine.Some? && s.cells[n].flight.Some?
    && s.cells[n].machine.value.controlPlane && !s.cells[n].machine.value.deleting
    && s.cells[n].flight.value.pc == pc
  }

  function Ended(n: Name, c: Cell): Cell
    requires c.machine.Some? && c.flight.Some?
  {
    c.(flight := None, machine := PatchedMachine(c.machine.value, Reconfigured(n, c.flight.value.local)))
  }

  /** `s` with another cell at `n` and another load balancer. */
  function Set(s: State, n: Name, c: Cell, lb: LoadBalancer): State { s.(cells := s.cells[n := c], lb := lb) }

  lemma SetStep(s: State, n: Name, c: Cell, lb: LoadBalancer, act: CellAction)
    ensures Apply(Set(s, n, c, lb), On(n, act))
         == Set(s, n, CellAfter(ViewOf(Set(s, n, c, lb), n), c, act), LbAfter(lb, c, act))
  {
    UpdateTwice(s.cells, n, c, CellAfter(ViewOf(Set(s, n, c, lb), n), c, act));
  }

  /** What the steps from a write to the closing patch do to the cell. */
  lemma FinishCell(v: View, c: Cell)
    requires v.lb.present && c.flight.Some? && c.machine.Some?
    ensures c.flight.value.pc.Write? ==>
      CellAfter(v, c, Step(Ok))
        == if v.lb.direct then Done(c, Reconfigured(v.name, c.flight.value.local)) else At(c, Reload)
    ensures c.flight.value.pc.Reload? ==>
      CellAfter(v, c, Step(Ok)) == Done(c, Reconfigured(v.name, c.flight.value.local))
    ensures c.flight.value.pc.Finish? ==>
      CellAfter(v, c, Patch(true))
        == c.(flight := None, machine := PatchedMachine(c.machine.value, c.flight.value.local))
  {
  }

  /** From a listing to the closing patch: the proxy ends up with the list taken at the start. */
  lemma FinishesWith(s: State, n: Name, list: Backends) returns (actions: seq<Action>)
    requires s.lb.present && n in s.cells && s.cells[n].machine.Some?
    requires s.cells[n].flight.Some? && s.cells[n].flight.value.pc == Write(list)
    ensures Calm(actions)
    ensures Exec(s, actions) == Set(s, n, Ended(n, s.cells[n]), s.lb.(written := list, active := list))
    ensures Along(s, actions, Orderly)
  {
    var step, last, c := On(n, Step(Ok)), On(n, Patch(true)), s.cells[n];
    var done, lb := Done(c, Reconfigured(n, c.flight.value.local)), s.lb.(written := list, active := list);
    SetSame(s, n);
    SetStep(s, n, c, s.lb, Step(Ok));
    FinishCell(ViewOf(s, n), c);
    ClosingPatch(s, n, lb);
    if s.lb.direct {
      actions := [step, last];
      ExecTwo(s, step, last);
      assert actions[1..] == [last] && actions[1..][1..] == [];
      assert Along(Apply(s, step), [last], Orderly);
    } else {
      Reloads(s, n, list);
      actions := [step, step, last];
      ExecThree(s, step, step, last);
      assert actions[1..] == [step, last] && actions[1..][1..] == [last] && actions[1..][1..][1..] == [];
      assert Along(Apply(Apply(s, step), step), [last], Orderly);
      assert Along(Apply(s, step), [step, last], Orderly);
    }
  }

  /** A control plane machine that nobody deletes ends configured. */
  lemma EndsConfigured(s: State, n: Name, c: Cell)
    requires CellSound(s, n, c) && Writes(c) && c.machine.value.controlPlane && !c.machine.value.deleting
    ensures var m := Ended(n, c).machine;
      && m.Some? && m.value.lbConfigured && m.value.ready && m.value.providerID.Some?
      && !m.value.deleting && m.value.finalizer
  {
  }

  lemma SetSame(s: State, n: Name)
    requires n in s.cells
    ensures Set(s, n, s.cells[n], s.lb) == s
  {
    assert s.cells[n := s.cells[n]] == s.cells;
  }

  lemma Reloads(s: State, n: Name, list: Backends)
    requires s.lb.present && n in s.cells && s.cells[n].machine.Some? && s.cells[n].flight.Some?
    ensures Apply(Set(s, n, At(s.cells[n], Reload), s.lb.(written := list)), On(n, Step(Ok)))
      == Set(s, n, Done(s.cells[n], Reconfigured(n, s.cells[n].flight.value.local)),
             s.lb.(written := list, active := list))
  {
    var c, lb := At(s.cells[n], Reload), s.lb.(written := list);
    SetStep(s, n, c, lb, Step(Ok));
    FinishCell(ViewOf(Set(s, n, c, lb), n), c);
  }

  lemma ClosingPatch(s: State, n: Name, lb: LoadBalancer)
    requires lb.present && n in s.cells && s.cells[n].machine.Some? && s.cells[n].flight.Some?
    ensures Apply(Set(s, n, Done(s.cells[n], Reconfigured(n, s.cells[n].flight.value.local)), lb), On(n, Patch(true)))
      == Set(s, n, Ended(n, s.cells[n]), lb)
  {
    var done := Done(s.cells[n], Reconfigured(n, s.cells[n].flight.value.local));
    SetStep(s, n, done, lb, Patch(true));
    FinishCell(ViewOf(Set(s, n, done, lb), n), done);
  }

  lemma TakesListing(s: State, n: Name)
    requires n in s.cells && s.cells[n].flight.Some? && s.cells[n].flight.value.pc == List
    ensures Apply(s, On(n, Step(Ok))) == s.(cells := s.cells[n := At(s.cells[n], Write(Listing(s)))])
  {
  }

  function WithHosts(c: Cell, hosts: seq<string>): Cell
    requires c.inst.Some?
  {
    c.(inst := Some(c.inst.value.(hosts := hosts)))
  }

  /** The address appears and the reconcile is about to list. */
  lemma GetsAddress(s: State, n: Name, host: string) returns (actions: seq<Action>)
    requires InReconcile(s, n, WaitAddress) && CellSound(s, n, s.cells[n]) && s.cells[n].inst.value.hosts == []
    ensures Calm(actions)
    ensures Put(s, n, At(WithHosts(s.cells[n], [host]), List), Exec(s, actions))
  {
    var s1 := Apply(s, On(n, AddressAppears([host])));
    assert s1.cells == s.cells[n := WithHosts(s.cells[n], [host])];
    var s2 := Apply(s1, On(n, Step(Ok)));
    assert s2.cells == s.cells[n := At(WithHosts(s.cells[n], [host]), List)];
    actions := [On(n, AddressAppears([host])), On(n, Step(Ok))];
    ExecTwo(s, On(n, AddressAppears([host])), On(n, Step(Ok)));
  }

  /** A machine waits for its address, lists, and finishes with what it listed. */
  lemma ComesIn(s: State, n: Name, host: string) returns (actions: seq<Action>)
    requires Sound(s) && AllLabelled(s) && s.lb.present
    requires InReconcile(s, n, WaitAddress) && s.cells[n].inst.value.hosts == []
    ensures Calm(actions)
    ensures var t := Exec(s, actions);
      Configured(t, n) && BackendAt(t, n) == Some(host) && t == Set(s, n, t.cells[n], t.lb) && t.lb.present
  {
    var x1 := GetsAddress(s, n, host);
    var s1 := Exec(s, x1);
    TakesListing(s1, n);
    var s2 := Apply(s1, On(n, Step(Ok)));
    ExecSnoc(s, x1, On(n, Step(Ok)));
    RunKeepsSound(s, x1 + [On(n, Step(Ok))]);
    var x2 := FinishesWith(s2, n, Listing(s1));
    EndsConfigured(s2, n, s2.cells[n]);
    ExecAppend(s, x1 + [On(n, Step(Ok))], x2);
    CalmAppend(x1, [On(n, Step(Ok))]);
    CalmAppend(x1 + [On(n, Step(Ok))], x2);
    actions := x1 + [On(n, Step(Ok))] + x2;
    assert CellLabelled(s, s.cells[n]);
  }

  /** Whenever one reconcile is about to list and another control plane machine still waits for its address,
      there is a fault-free continuation after which both are configured and idle, owe nothing, and the second
      is in the server listing but not in the load balancer, whichever kind of load balancer it is. */
  lemma OverlapStrands(s: State, a: Name, b: Name, host: string) returns (actions: seq<Action>)
    requires Sound(s) && AllLabelled(s) && s.lb.present && a != b
    requires InReconcile(s, a, List) && InReconcile(s, b, WaitAddress) && s.cells[b].inst.value.hosts == []
    ensures Calm(actions)
    ensures var t := Exec(s, actions);
      && Configured(t, a) && Configured(t, b) && !Owes(t, a) && !Owes(t, b)
      && b !in t.lb.active && b in Listing(t)
      && t.cells == s.cells[b := t.cells[b]][a := t.cells[a]]
      && t.clusterDeleting == s.clusterDeleting && t.lb.present && t.lxc == s.lxc
  {
    var list := Listing(s);
    assert Lookup(list, b) == BackendAt(s, b) == None;
    TakesListing(s, a);
    var s1 := Apply(s, On(a, Step(Ok)));
    ApplyKeepsSound(s, On(a, Step(Ok)));
    var x2 := ComesIn(s1, b, host);
    var s2 := Exec(s1, x2);
    RunKeepsSound(s1, x2);
    var x3 := FinishesWith(s2, a, list);
    EndsConfigured(s2, a, s2.cells[a]);
    var t := Exec(s2, x3);
    var first := [On(a, Step(Ok))];
    assert first[1..] == [] && Exec(s, first) == s1;
    ExecAppend(s, first, x2);
    ExecAppend(s, first + x2, x3);
    CalmAppend(first, x2);
    CalmAppend(first + x2, x3);
    actions := first + x2 + x3;
    UpdatesCommute(s.cells, a, s1.cells[a], b, s2.cells[b]);
    UpdateTwice(s.cells[b := s2.cells[b]], a, s1.cells[a], t.cells[a]);
    assert Lookup(Listing(t), b) == BackendAt(t, b) == Some(host);
  }

  // ---- the order is exact ----------------------------------------------------------------------

  lemma {:induction false} AlongAppend(s: State, xs: seq<Action>, ys: seq<Action>)
    requires Along(s, xs, Orderly) && Along(Exec(s, xs), ys, Orderly)
    ensures Along(s, xs + ys, Orderly)
    decreases |xs|
  {
    if xs == [] {
      assert xs + ys == ys;
    } else {
      assert (xs + ys)[1..] == xs[1..] + ys;
      AlongAppend(Apply(s, xs[0]), xs[1..], ys);
    }
  }

  /** A backend is wrong and nobody owes a refresh of it. */
  predicate Stranded(s: State, n: Name) {
    !s.clusterDeleting && !Owes(s, n) && Lookup(s.lb.active, n) != Lookup(Listing(s), n)
  }

  /** The Reconfigure of a machine that nobody deleted under it leaves nothing owed. */
  lemma EndsOwingNothing(s: State, n: Name, c: Cell)
    requires CellSound(s, n, c) && Writes(c) && Settling(c)
    ensures var m := Ended(n, c).machine; m.Some? ==> !m.value.deleting && m.value.lbConfigured
  {
  }

  /** Whenever a listing is taken out of order, a fault-free and orderly continuation leaves its machine wrong
      in the load balancer with nobody owing a refresh. */
  lemma DisorderStrands(s: State, n: Name) returns (actions: seq<Action>)
    requires Sound(s) && AllLabelled(s) && s.lb.present && !s.clusterDeleting && !Orderly(s, On(n, Step(Ok)))
    ensures Calm(actions)
    ensures var t := Apply(s, On(n, Step(Ok)));
      Along(t, actions, Orderly) && Stranded(Exec(t, actions), n)
  {
    var k :| k in s.cells && k != n && Writes(s.cells[k])
      && Lookup(s.cells[k].flight.value.pc.snapshot, n) != BackendAt(s, n);
    assert CellSound(s, n, s.cells[n]) && CellSound(s, k, s.cells[k]);
    TakesListing(s, n);
    ApplyKeepsSound(s, On(n, Step(Ok)));
    actions := BothFinish(Apply(s, On(n, Step(Ok))), n, k);
  }

  /** Two reconciles have listed; the second finishes, and then the first with the older listing. */
  lemma BothFinish(s: State, n: Name, k: Name) returns (actions: seq<Action>)
    requires Sound(s) && s.lb.present && !s.clusterDeleting && n in s.cells && k in s.cells && k != n
    requires Writes(s.cells[n]) && Settling(s.cells[n]) && Writes(s.cells[k])
    requires Lookup(s.cells[k].flight.value.pc.snapshot, n) != BackendAt(s, n)
    ensures Calm(actions)
    ensures Along(s, actions, Orderly) && Stranded(Exec(s, actions), n)
  {
    var new_, old_ := s.cells[n].flight.value.pc.snapshot, s.cells[k].flight.value.pc.snapshot;
    assert CellSound(s, k, s.cells[k]);
    var x := FinishesWith(s, n, new_);
    var y := FinishesWith(Exec(s, x), k, old_);
    ExecAppend(s, x, y);
    AlongAppend(s, x, y);
    CalmAppend(x, y);
    actions := x + y;
    StrandedAfter(s, n, k, s.lb.(written := new_, active := new_), old_);
  }

  /** Both have finished, the older listing last. */
  lemma StrandedAfter(s: State, n: Name, k: Name, lb: LoadBalancer, list: Backends)
    requires Sound(s) && !s.clusterDeleting && n in s.cells && k in s.cells && k != n
    requires Writes(s.cells[n]) && Settling(s.cells[n]) && Writes(s.cells[k]) && Lookup(list, n) != BackendAt(s, n)
    requires s.cells[k].machine.Some?
    ensures var s2 := Set(s, n, Ended(n, s.cells[n]), lb);
      Stranded(Set(s2, k, Ended(k, s2.cells[k]), lb.(written := list, active := list)), n)
  {
    var s2 := Set(s, n, Ended(n, s.cells[n]), lb);
    var t := Set(s2, k, Ended(k, s2.cells[k]), lb.(written := list, active := list));
    assert CellSound(s, n, s.cells[n]);
    EndsOwingNothing(s, n, s.cells[n]);
    assert t.cells[n] == Ended(n, s.cells[n]);
    assert Lookup(Listing(t), n) == BackendAt(t, n) == BackendAt(s, n);
  }

  /** Some orderly run from here strands `n`. */
  ghost predicate CanStrand(s: State, n: Name) {
    exists actions :: Along(s, actions, Orderly) && Stranded(Exec(s, actions), n)
  }

  /** The order is exact: from a fresh state, taking the listing of `n` now can strand `n` in an otherwise
      orderly run if and only if it is out of order. */
  lemma OrderIsExact(s: State, n: Name)
    requires Sound(s) && AllLabelled(s) && ClusterSound(s) && Fresh(s) && s.lb.present && !s.clusterDeleting
    ensures CanStrand(Apply(s, On(n, Step(Ok))), n) <==> !Orderly(s, On(n, Step(Ok)))
  {
    var a := On(n, Step(Ok));
    var s1 := Apply(s, a);
    ApplyKeepsSound(s, a);
    if Orderly(s, a) {
      ApplyKeepsFresh(s, a);
      ApplyKeepsClusterSound(s, a);
      forall actions | Along(s1, actions, Orderly) ensures !Stranded(Exec(s1, actions), n) {
        NeverStranded(s1, actions, n);
      }
    } else {
      var actions := DisorderStrands(s, n);
      assert Along(s1, actions, Orderly) && Stranded(Exec(s1, actions), n);
    }
  }

  lemma NeverStranded(s: State, actions: seq<Action>, n: Name)
    requires Sound(s) && AllLabelled(s) && ClusterSound(s) && Fresh(s) && Along(s, actions, Orderly)
    ensures !Stranded(Exec(s, actions), n)
  {
    RunKeepsSound(s, actions);
    if !Exec(s, actions).clusterDeleting {
      RunKeepsFresh(s, actions);
      if Lookup(Exec(s, actions).lb.active, n) != Lookup(Listing(Exec(s, actions)), n) {
        FreshMeansOwed(Exec(s, actions), n);
      }
    }
  }

  /** A start state in which the cluster's load balancer is up. */
  function Started(clusterName: string, namespace: string, direct: bool): State {
    State(clusterName, namespace, false, false, LxcCluster(true, false, false, None), map[],
          LoadBalancer(false, direct, map[], map[]))
  }

  lemma ComesUp(clusterName: string, namespace: string, direct: bool) returns (actions: seq<Action>)
    ensures Calm(actions)
    ensures Exec(Started(clusterName, namespace, direct), actions) ==
      State(clusterName, namespace, true, false, LxcCluster(true, true, false, None), map[],
            LoadBalancer(true, direct, map[], map[]))
  {
    var s := Started(clusterName, namespace, direct);
    var up := LxcCluster(true, true, false, None);
    ExecThree(s, ClusterFetch, ClusterFetch, ClusterStep(Ok));
    var s3 := Exec(s, [ClusterFetch, ClusterFetch, ClusterStep(Ok)]);
    assert s3 == s.(lxc := up.(flight := Some(ClusterFinish(false))), lb := s.lb.(present := true));
    ExecTwo(s3, ClusterPatch(true), InfraReady);
    ExecAppend(s, [ClusterFetch, ClusterFetch, ClusterStep(Ok)], [ClusterPatch(true), InfraReady]);
    actions := [ClusterFetch, ClusterFetch, ClusterStep(Ok)] + [ClusterPatch(true), InfraReady];
  }

  /** From the start of any cluster to a machine about to list and another one waiting for its address. */
  lemma TwoMachines(clusterName: string, namespace: string, direct: bool) returns (actions: seq<Action>)
    ensures Calm(actions)
    ensures var t := Exec(Started(clusterName, namespace, direct), actions);
      && Sound(t) && AllLabelled(t) && t.cells.Keys == {"a", "b"} && !t.clusterDeleting && t.lb.present
      && t.lxc == LxcCluster(true, true, false, None)
      && InReconcile(t, "a", List) && InReconcile(t, "b", WaitAddress) && t.cells["b"].inst.value.hosts == []
  {
    var s := Started(clusterName, namespace, direct);
    var x0 := ComesUp(clusterName, namespace, direct);
    var s0 := Exec(s, x0);
    var x1 := Launches(s0, "a");
    var s1 := Exec(s0, x1);
    RunKeepsSound(s0, x1);
    var x2 := GetsAddress(s1, "a", "10.0.0.1");
    var s2 := Exec(s1, x2);
    RunKeepsSound(s1, x2);
    var x3 := Launches(s2, "b");
    RunKeepsSound(s2, x3);
    ExecAppend(s, x0, x1);
    ExecAppend(s, x0 + x1, x2);
    ExecAppend(s, x0 + x1 + x2, x3);
    actions := x0 + x1 + x2 + x3;
  }

  // ---- for good --------------------------------------------------------------------------------

  /** Provisioned, with an address, not deleted, and in no reconcile that could do more than check on it. */
  predicate RestingCell(c: Cell) {
    && c.machine.Some? && c.machine.value.providerID.Some? && c.machine.value.lbConfigured
    && !c.machine.value.deleting && c.machine.value.finalizer
    && c.op.None? && HasHosts(c)
    && (c.flight.Some? ==>
          && (c.flight.value.pc == Check || c.flight.value.pc == Finish)
          && c.flight.value.local.providerID.Some? && c.flight.value.local.lbConfigured
          && c.flight.value.local.finalizer && !c.flight.value.local.deleting)
  }

  /** Nothing is left to do for any machine. */
  ghost predicate Resting(s: State) {
    && !s.clusterDeleting && !s.lxc.deleting && s.lb.present
    && (s.lxc.flight.Some? ==> s.lxc.flight.value == CreateLb || s.lxc.flight.value == ClusterFinish(false))
    && forall n | n in s.cells :: RestingCell(s.cells[n])
  }

  /** Nobody creates or deletes a machine or deletes the Cluster. */
  predicate Undisturbed(a: Action) {
    !a.CreateMachine? && !a.DeleteCluster? && !(a.On? && a.act.UserDelete?)
  }

  lemma RestingCellStays(v: View, c: Cell, act: CellAction)
    requires RestingCell(c) && !act.UserDelete?
    ensures var c' := CellAfter(v, c, act);
      RestingCell(c') && c'.inst == c.inst && LbAfter(v.lb, c, act) == v.lb
  {
  }

  lemma RestingStays(s: State, a: Action)
    requires Resting(s) && Undisturbed(a)
    ensures Resting(Apply(s, a)) && Apply(s, a).lb == s.lb && Apply(s, a).cells.Keys == s.cells.Keys
    ensures forall n | n in s.cells :: Apply(s, a).cells[n].inst == s.cells[n].inst
    ensures Apply(s, a).clusterName == s.clusterName && Apply(s, a).namespace == s.namespace
  {
    if a.On? && a.name in s.cells {
      RestingCellStays(ViewOf(s, a.name), s.cells[a.name], a.act);
    }
  }

  /** As long as nobody creates or deletes a machine or deletes the Cluster, no reconcile, fault or move of the
      server changes the load balancer or the listing again. */
  lemma {:induction false} RestingForGood(s: State, actions: seq<Action>)
    requires Resting(s) && forall a | a in actions :: Undisturbed(a)
    ensures var t := Exec(s, actions); Resting(t) && t.lb == s.lb && forall n :: BackendAt(t, n) == BackendAt(s, n)
    decreases |actions|
  {
    if actions != [] {
      assert actions[0] in actions;
      RestingStays(s, actions[0]);
      RestingForGood(Apply(s, actions[0]), actions[1..]);
    }
  }

  /** In every later state the backend is still wrong and nobody owes a refresh. */
  ghost predicate StrandedForGood(s: State, n: Name) {
    forall more | (forall a | a in more :: Undisturbed(a)) :: Stranded(Exec(s, more), n)
  }

  lemma StrandedStays(s: State, n: Name)
    requires Resting(s) && Stranded(s, n)
    ensures StrandedForGood(s, n)
  {
    forall more | forall a | a in more :: Undisturbed(a) ensures Stranded(Exec(s, more), n) {
      RestingForGood(s, more);
      assert Lookup(Listing(Exec(s, more)), n) == BackendAt(s, n);
    }
  }

  /** The no-stale property fails without order: from the start of any cluster, a run without a single fault ends
      with every machine configured and idle and a backend missing for good. */
  lemma OverlappingReconfiguresCanStrand(clusterName: string, namespace: string, direct: bool)
    returns (actions: seq<Action>)
    ensures Init(Started(clusterName, namespace, direct)) && Calm(actions)
    ensures var t := Exec(Started(clusterName, namespace, direct), actions);
      && !t.clusterDeleting && t.lb.present && t.cells.Keys == {"a", "b"}
      && Configured(t, "a") && Configured(t, "b")
      && (forall n :: !Owes(t, n))
      && "b" !in t.lb.active && "b" in Listing(t) && StrandedForGood(t, "b")
  {
    var s := Started(clusterName, namespace, direct);
    var x := TwoMachines(clusterName, namespace, direct);
    var s1 := Exec(s, x);
    var y := OverlapStrands(s1, "a", "b", "10.0.0.2");
    ExecAppend(s, x, y);
    actions := x + y;
    var t := Exec(s1, y);
    RunKeepsSound(s1, y);
    assert t.cells.Keys == {"a", "b"};
    forall n | n in t.cells ensures RestingCell(t.cells[n]) {
      assert CellSound(t, n, t.cells[n]);
    }
    StrandedStays(t, "b");
  }
}
