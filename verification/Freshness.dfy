/** The load balancer never settles stale.

    The active backend set is a cache of the filtered server listing that only a Reconfigure refreshes.
    This module proves that the cache can differ from the listing at a name only while that machine still
    owes a refresh, for every run in which no Reconfigure lists while an older listing that has its machine
    wrong is still to be written. Race proves that this condition is exact. */
module Freshness {
  import opened Common
  import opened Protocol

  /** The next step lists the instances for a Reconfigure of `n`. */
  predicate Lists(s: State, a: Action) {
    && a.On? && a.name in s.cells && a.act.Step? && a.act.outcome.Ok?
    && s.cells[a.name].flight.Some? && s.cells[a.name].flight.value.pc.List?
  }

  /** The Reconfigure of this reconcile will settle its machine: nobody deleted the machine under it. */
  predicate Settling(c: Cell) {
    c.flight.Some? && c.machine.Some? && (c.flight.value.local.deleting || !c.machine.value.deleting)
  }

  predicate Writes(c: Cell) { c.flight.Some? && c.flight.value.pc.Write? }

  /** When a Reconfigure lists, every older listing that is still to be written has its machine right. */
  predicate Orderly(s: State, a: Action) {
    Lists(s, a) && Settling(s.cells[a.name]) ==>
      forall k | k in s.cells && k != a.name && Writes(s.cells[k]) ::
        Lookup(s.cells[k].flight.value.pc.snapshot, a.name) == BackendAt(s, a.name)
  }

  /** No Reconfigure lists while another one has listed and not yet reloaded. */
  predicate Serialized(s: State, a: Action) {
    Lists(s, a) ==> forall k | k in s.cells :: !InWindow(s.cells[k])
  }

  /** Reconfigure calls that do not overlap are orderly. */
  lemma {:induction false} NoOverlapIsOrderly(s: State, actions: seq<Action>)
    requires Along(s, actions, Serialized)
    ensures Along(s, actions, Orderly)
    decreases |actions|
  {
    if actions != [] {
      NoOverlapIsOrderly(Apply(s, actions[0]), actions[1..]);
    }
  }

  /** The machine does not owe a refresh: whatever its listing entry is, a Reconfigure after the last
      change of that entry has gone through. */
  predicate Settled(c: Cell) {
    c.machine.Some? ==>
      var m := c.machine.value;
      || !m.controlPlane
      || !m.finalizer
      || (c.flight.Some? && c.flight.value.pc.Finish? && !c.flight.value.local.finalizer)
      || (!m.deleting && (m.lbConfigured || (c.flight.Some? && c.flight.value.local.lbConfigured)))
  }

  predicate SettledAt(s: State, n: Name) { n in s.cells ==> Settled(s.cells[n]) }

  /** The machine is settled, or a Reconfigure that has listed is about to settle it. */
  predicate Cares(c: Cell) { Settled(c) || (InWindow(c) && Settling(c)) }

  predicate CaresAt(s: State, n: Name) { n in s.cells ==> Cares(s.cells[n]) }

  ghost predicate Agrees(s: State, b: Backends) {
    forall n :: SettledAt(s, n) ==> Lookup(b, n) == BackendAt(s, n)
  }

  ghost predicate AgreesForAll(s: State, b: Backends) {
    forall n :: CaresAt(s, n) ==> Lookup(b, n) == BackendAt(s, n)
  }

  /** A listing still to be written agrees with the server at every settled machine and every machine with an
      open window; once written, what is to be loaded agrees at the machine that loads it. */
  ghost predicate WindowFresh(s: State, k: Name)
    requires k in s.cells
  {
    && (Writes(s.cells[k]) ==> AgreesForAll(s, s.cells[k].flight.value.pc.snapshot))
    && (InWindow(s.cells[k]) && !Writes(s.cells[k]) && Settling(s.cells[k]) ==>
          Lookup(s.lb.written, k) == BackendAt(s, k))
  }

  ghost predicate Fresh(s: State) {
    && Agrees(s, s.lb.active) && Agrees(s, s.lb.written)
    && (forall k | k in s.cells :: WindowFresh(s, k))
  }

  // ---- one cell --------------------------------------------------------------------------------

  /** The step that completes a Reconfigure. */
  predicate Completes(v: View, c: Cell, a: CellAction) {
    a.Step? && a.outcome.Ok? && v.lb.present && InWindow(c) && (c.flight.value.pc.Reload? || v.lb.direct)
  }

  /** While the Cluster is not being deleted, only a completed Reconfigure settles a machine. */
  lemma SettlesByReconfigure(s: State, v: View, c: Cell, a: CellAction)
    requires Sees(v, s) && CellSound(s, v.name, c) && !s.clusterDeleting
    requires !Settled(c) && Settled(CellAfter(v, c, a))
    ensures Completes(v, c, a) && Settling(c)
  {
  }

  /** The listing entry of a settled machine does not move. */
  lemma SettledEntryStays(s: State, v: View, c: Cell, a: CellAction)
    requires Sees(v, s) && CellSound(s, v.name, c) && CellLabelled(s, c) && Settled(c)
    ensures BackendOf(s.clusterName, s.namespace, CellAfter(v, c, a)) == BackendOf(s.clusterName, s.namespace, c)
  {
  }

  /** Between its listing and its reload a reconcile does not move its own entry either. */
  lemma WindowEntryStays(s: State, v: View, c: Cell, a: CellAction)
    requires Sees(v, s) && CellSound(s, v.name, c) && InWindow(c)
    ensures BackendOf(s.clusterName, s.namespace, CellAfter(v, c, a)) == BackendOf(s.clusterName, s.namespace, c)
  {
  }

  // ---- the cluster controller ------------------------------------------------------------------

  /** The LXCCluster is deleted only with its Cluster, and an absent load balancer has no backends. */
  predicate ClusterSound(s: State) {
    && (s.lxc.deleting ==> s.clusterDeleting)
    && (s.lxc.flight.Some? && s.lxc.flight.value != CreateLb && s.lxc.flight.value != ClusterFinish(false) ==>
          s.lxc.deleting)
    && (!s.lb.present ==> s.lb.written == map[] && s.lb.active == map[])
  }

  lemma ApplyKeepsClusterSound(s: State, a: Action)
    requires ClusterSound(s)
    ensures ClusterSound(Apply(s, a))
  {
  }

  // ---- one action ------------------------------------------------------------------------------

  /** Nothing comes to be cared for, no cared-for entry moves, and the load balancer stays. */
  lemma FreshFrame(s: State, s': State)
    requires Fresh(s)
    requires s'.lb.active == s.lb.active && s'.lb.written == s.lb.written
    requires forall n :: SettledAt(s', n) ==> SettledAt(s, n)
    requires forall n :: CaresAt(s', n) ==> CaresAt(s, n) && BackendAt(s', n) == BackendAt(s, n)
    requires forall n | n in s'.cells && InWindow(s'.cells[n]) ::
      n in s.cells && s'.cells[n].flight == s.cells[n].flight && (Settling(s'.cells[n]) ==> Settling(s.cells[n]))
    ensures Fresh(s')
  {
    assert forall n :: SettledAt(s', n) ==> CaresAt(s', n);
  }

  /** A step inside the window of `n` moves no entry, and settles or keeps caring for `n` only if it was cared
      for. */
  lemma WindowStepOnCell(s: State, v: View, c: Cell, o: Outcome)
    requires Sees(v, s) && CellSound(s, v.name, c) && CellLabelled(s, c) && !s.clusterDeleting && InWindow(c)
    ensures var c' := CellAfter(v, c, Step(o));
      && BackendOf(s.clusterName, s.namespace, c') == BackendOf(s.clusterName, s.namespace, c)
      && (Cares(c') ==> Cares(c)) && (Settling(c') ==> Settling(c))
      && (Settled(c') && !Settled(c) ==> Completes(v, c, Step(o)) && Settling(c))
      && (InWindow(c') ==> c.flight.value.pc.Write? && c'.flight.value.pc.Reload? && o.Ok? && v.lb.present)
  {
    WindowEntryStays(s, v, c, Step(o));
    var c' := CellAfter(v, c, Step(o));
    if Settled(c') && !Settled(c) {
      SettlesByReconfigure(s, v, c, Step(o));
    }
  }

  /** Writing replaces the file by a listing that has every cared-for machine right. */
  lemma WriteKeepsFresh(s: State, n: Name, o: Outcome)
    requires Sound(s) && AllLabelled(s) && Fresh(s) && !s.clusterDeleting && n in s.cells && Writes(s.cells[n])
    ensures Fresh(Apply(s, On(n, Step(o))))
  {
    var s' := Apply(s, On(n, Step(o)));
    var snapshot := s.cells[n].flight.value.pc.snapshot;
    WindowStepOnCell(s, ViewOf(s, n), s.cells[n], o);
    assert WindowFresh(s, n) && AgreesForAll(s, snapshot);
    assert forall m :: CaresAt(s', m) ==> CaresAt(s, m) && BackendAt(s', m) == BackendAt(s, m);
    assert forall m :: SettledAt(s', m) ==> CaresAt(s', m);
    assert forall m | m != n :: SettledAt(s', m) == SettledAt(s, m);
    assert s'.lb.written == snapshot || s'.lb.written == s.lb.written;
    assert s'.lb.active == snapshot || s'.lb.active == s.lb.active;
    forall k | k in s'.cells ensures WindowFresh(s', k) {
      assert WindowFresh(s, k);
    }
  }

  /** Reloading makes active what was written, which has the machine right. */
  lemma ReloadKeepsFresh(s: State, n: Name, o: Outcome)
    requires Sound(s) && AllLabelled(s) && Fresh(s) && !s.clusterDeleting && n in s.cells
    requires InWindow(s.cells[n]) && !Writes(s.cells[n])
    ensures Fresh(Apply(s, On(n, Step(o))))
  {
    var s' := Apply(s, On(n, Step(o)));
    WindowStepOnCell(s, ViewOf(s, n), s.cells[n], o);
    assert WindowFresh(s, n);
    assert forall m :: CaresAt(s', m) ==> CaresAt(s, m) && BackendAt(s', m) == BackendAt(s, m);
    assert forall m :: SettledAt(s', m) ==> CaresAt(s', m);
    assert forall m | m != n :: SettledAt(s', m) == SettledAt(s, m);
    assert s'.lb.written == s.lb.written;
    assert s'.lb.active == s.lb.written || s'.lb.active == s.lb.active;
    forall k | k in s'.cells ensures WindowFresh(s', k) {
      assert WindowFresh(s, k);
    }
  }

  lemma ListKeepsFresh(s: State, n: Name, o: Outcome)
    requires Sound(s) && Fresh(s) && !s.clusterDeleting && Orderly(s, On(n, Step(o)))
    requires n in s.cells && s.cells[n].flight.Some? && s.cells[n].flight.value.pc.List?
    ensures Fresh(Apply(s, On(n, Step(o))))
  {
    var s' := Apply(s, On(n, Step(o)));
    assert CellSound(s, n, s.cells[n]);
    assert forall m :: BackendAt(s', m) == BackendAt(s, m);
    assert forall m :: SettledAt(s', m) ==> SettledAt(s, m);
    assert forall m | m != n :: CaresAt(s', m) == CaresAt(s, m);
    forall k | k in s'.cells ensures WindowFresh(s', k) {
      assert WindowFresh(s, k);
      if k == n {
        assert Writes(s'.cells[n]) ==> s'.cells[n].flight.value.pc.snapshot == Listing(s);
      }
    }
  }

  lemma WindowOpensByListing(v: View, c: Cell, act: CellAction)
    requires act.Step? && c.flight.Some? ==> !Reconfiguring(c.flight.value.pc)
    ensures InWindow(CellAfter(v, c, act)) ==> CellAfter(v, c, act).flight == c.flight
  {
  }

  /** A machine that is deleted stays so, as long as it is there. */
  lemma DeletingStays(v: View, c: Cell, act: CellAction)
    ensures var c' := CellAfter(v, c, act);
      c'.machine.Some? ==> c.machine.Some? && (c.machine.value.deleting ==> c'.machine.value.deleting)
  {
  }

  /** Outside of Reconfigure an action settles nothing and opens no window. */
  lemma QuietStepOnCell(s: State, v: View, c: Cell, act: CellAction)
    requires Sees(v, s) && CellSound(s, v.name, c) && CellLabelled(s, c) && !s.clusterDeleting
    requires act.Step? && c.flight.Some? ==> !Reconfiguring(c.flight.value.pc)
    ensures var c' := CellAfter(v, c, act);
      && (Settled(c') ==> Settled(c))
      && (InWindow(c') ==> c'.flight == c.flight && (Settling(c') ==> Settling(c)))
      && (Cares(c') ==>
            Cares(c) && BackendOf(s.clusterName, s.namespace, c') == BackendOf(s.clusterName, s.namespace, c))
  {
    var c' := CellAfter(v, c, act);
    WindowOpensByListing(v, c, act);
    DeletingStays(v, c, act);
    if Settled(c') && !Settled(c) {
      SettlesByReconfigure(s, v, c, act);
    }
    if Settled(c) {
      SettledEntryStays(s, v, c, act);
    }
    if InWindow(c) {
      WindowEntryStays(s, v, c, act);
    }
  }

  lemma QuietStepKeepsFresh(s: State, n: Name, act: CellAction)
    requires Sound(s) && AllLabelled(s) && Fresh(s) && !s.clusterDeleting
    requires n in s.cells
    requires act.Step? && s.cells[n].flight.Some? ==> !Reconfiguring(s.cells[n].flight.value.pc)
    ensures Fresh(Apply(s, On(n, act)))
  {
    var s' := Apply(s, On(n, act));
    QuietStepOnCell(s, ViewOf(s, n), s.cells[n], act);
    FreshFrame(s, s');
  }

  lemma ApplyKeepsFresh(s: State, a: Action)
    requires Sound(s) && AllLabelled(s) && ClusterSound(s) && Fresh(s)
    requires Orderly(s, a) && !Apply(s, a).clusterDeleting
    ensures Fresh(Apply(s, a))
  {
    if a.On? && a.name in s.cells {
      var f := s.cells[a.name].flight;
      if a.act.Step? && Writes(s.cells[a.name]) {
        WriteKeepsFresh(s, a.name, a.act.outcome);
      } else if a.act.Step? && InWindow(s.cells[a.name]) {
        ReloadKeepsFresh(s, a.name, a.act.outcome);
      } else if a.act.Step? && f.Some? && f.value.pc.List? {
        ListKeepsFresh(s, a.name, a.act.outcome);
      } else {
        QuietStepKeepsFresh(s, a.name, a.act);
      }
    } else {
      FreshFrame(s, Apply(s, a));
    }
  }

  // ---- every run -------------------------------------------------------------------------------

  lemma {:induction false} RunKeepsFresh(s: State, actions: seq<Action>)
    requires Sound(s) && AllLabelled(s) && ClusterSound(s) && Fresh(s)
    requires Along(s, actions, Orderly) && !Exec(s, actions).clusterDeleting
    ensures Fresh(Exec(s, actions))
    decreases |actions|
  {
    if actions != [] {
      var s1 := Apply(s, actions[0]);
      StillDeleting(s1, actions[1..]);
      ApplyKeepsFresh(s, actions[0]);
      ApplyKeepsSound(s, actions[0]);
      ApplyKeepsClusterSound(s, actions[0]);
      RunKeepsFresh(s1, actions[1..]);
    }
  }

  lemma {:induction false} StillDeleting(s: State, actions: seq<Action>)
    ensures s.clusterDeleting ==> Exec(s, actions).clusterDeleting
    decreases |actions|
  {
    if actions != [] {
      StillDeleting(Apply(s, actions[0]), actions[1..]);
    }
  }

  /** Who owes a refresh of its own entry. */
  predicate Owes(s: State, n: Name) {
    && n in s.cells && s.cells[n].machine.Some?
    && var m := s.cells[n].machine.value;
    m.controlPlane && m.finalizer && (m.deleting || !m.lbConfigured)
  }

  /** In every run with any faults, stops, lost patches and interleaving, as long as Reconfigure calls
      are orderly and the Cluster is not being deleted: an entry at which the active or the written
      backends differ from the server listing belongs to a control plane machine that still holds its
      finalizer and is unconfigured or being deleted. */
  lemma StaleEntryIsOwed(s: State, actions: seq<Action>, n: Name)
    requires Init(s) && Along(s, actions, Orderly)
    requires !Exec(s, actions).clusterDeleting
    requires var t := Exec(s, actions);
      Lookup(t.lb.active, n) != Lookup(Listing(t), n) || Lookup(t.lb.written, n) != Lookup(Listing(t), n)
    ensures Owes(Exec(s, actions), n)
  {
    RunKeepsSound(s, actions);
    RunKeepsFresh(s, actions);
    FreshMeansOwed(Exec(s, actions), n);
  }

  lemma FreshMeansOwed(s: State, n: Name)
    requires Sound(s) && Fresh(s)
    requires Lookup(s.lb.active, n) != Lookup(Listing(s), n) || Lookup(s.lb.written, n) != Lookup(Listing(s), n)
    ensures Owes(s, n)
  {
    assert !SettledAt(s, n);
  }

  /** When no machine owes a refresh, the proxy serves exactly the filtered server listing, and would serve it
      after a reload or a restart. */
  lemma NothingOwedMeansFresh(s: State, actions: seq<Action>)
    requires Init(s) && Along(s, actions, Orderly)
    requires !Exec(s, actions).clusterDeleting
    requires forall n :: !Owes(Exec(s, actions), n)
    ensures Exec(s, actions).lb.active == Exec(s, actions).lb.written == Listing(Exec(s, actions))
  {
    var t := Exec(s, actions);
    forall n ensures Lookup(t.lb.active, n) == Lookup(Listing(t), n) == Lookup(t.lb.written, n) {
      if Lookup(t.lb.active, n) != Lookup(Listing(t), n) || Lookup(t.lb.written, n) != Lookup(Listing(t), n) {
        StaleEntryIsOwed(s, actions, n);
      }
    }
    SameLookups(t.lb.active, Listing(t));
    SameLookups(t.lb.written, Listing(t));
  }

  lemma SameLookups(a: Backends, b: Backends)
    requires forall n :: Lookup(a, n) == Lookup(b, n)
    ensures a == b
  {
    forall n ensures (n in a) == (n in b) {
      assert Lookup(a, n) == Lookup(b, n);
    }
    forall n | n in a ensures n in b && a[n] == b[n] {
      assert Lookup(a, n) == Lookup(b, n);
    }
    assert a.Keys == b.Keys;
  }
}
