/** Provisioning status and ownership of instances over whole runs. */
module Lifecycle {
  import opened Common
  import opened Labels
  import opened Protocol
  import opened Race

  // ---- provisioning status ---------------------------------------------------------------------

  /** In every run from the start: a providerID is `lxc:///name`; a ready machine has one; a control
      plane machine has one only after the load balancer was configured for it. */
  lemma StatusIsSound(s: State, actions: seq<Action>, n: Name)
    requires Init(s)
    requires n in Exec(s, actions).cells && Exec(s, actions).cells[n].machine.Some?
    ensures var m := Exec(s, actions).cells[n].machine.value;
      && (m.ready ==> m.providerID == Some("lxc:///" + n))
      && (m.providerID.Some? ==> m.providerID == Some("lxc:///" + n) && (m.controlPlane ==> m.lbConfigured))
  {
    RunKeepsSound(s, actions);
    assert CellSound(Exec(s, actions), n, Exec(s, actions).cells[n]);
  }

  // ---- waiting for bootstrap data --------------------------------------------------------------

  /** What a reconcile in flight fetched is so, and it is past its first check only with bootstrap data and
      infrastructure. */
  predicate FlightWaited(s: State, m: Machine, f: Flight) {
    && (f.infraReady ==> s.infraReady) && (f.local.bootstrap ==> m.bootstrap)
    && (!f.local.deleting && !f.pc.Check? && !f.pc.Finish? ==> f.infraReady && f.local.bootstrap)
  }

  predicate CellWaited(s: State, c: Cell) {
    c.machine.Some? ==>
      && (c.op.Some? || c.inst.Some? ==> s.infraReady && c.machine.value.bootstrap)
      && (c.flight.Some? ==> FlightWaited(s, c.machine.value, c.flight.value))
  }

  ghost predicate AllWaited(s: State) { forall n | n in s.cells :: CellWaited(s, s.cells[n]) }

  lemma ActionKeepsWaited(s: State, v: View, c: Cell, a: CellAction)
    requires v.infraReady == s.infraReady && CellSound(s, v.name, c) && CellWaited(s, c)
    ensures CellWaited(s, CellAfter(v, c, a))
  {
  }

  lemma {:induction false} RunKeepsWaited(s: State, actions: seq<Action>)
    requires Sound(s) && AllLabelled(s) && AllWaited(s)
    ensures AllWaited(Exec(s, actions))
    decreases |actions|
  {
    if actions != [] {
      var a, t := actions[0], Apply(s, actions[0]);
      forall n | n in t.cells ensures CellWaited(t, t.cells[n]) {
        if n in s.cells {
          ApplyFrame(s, a, n);
          if a.On? {
            ActionKeepsWaited(s, ViewOf(s, n), s.cells[n], a.act);
          }
        }
      }
      ApplyKeepsSound(s, a);
      RunKeepsWaited(t, actions[1..]);
    }
  }

  /** In every run from the start: as long as its LXCMachine exists, an instance or a pending create implies that
      the infrastructure of the cluster and the bootstrap data of the machine are there. */
  lemma LaunchWaitsForBootstrap(s: State, actions: seq<Action>, n: Name)
    requires Init(s) && n in Exec(s, actions).cells && Exec(s, actions).cells[n].machine.Some?
    requires Exec(s, actions).cells[n].op.Some? || Exec(s, actions).cells[n].inst.Some?
    ensures Exec(s, actions).infraReady && Exec(s, actions).cells[n].machine.value.bootstrap
  {
    RunKeepsWaited(s, actions);
    assert CellWaited(Exec(s, actions), Exec(s, actions).cells[n]);
  }

  /** Which call a reconcile comes to after which, and on what it then found. An instance is started only when it
      was found there or was set up, and set up only after its create operation is over; one is requested only
      after neither it nor a create was found; it is deleted only after it was stopped. */
  predicate Follows(v: View, c: Cell, now: Pc, o: Outcome)
    requires c.flight.Some?
  {
    var f, was := c.flight.value, c.flight.value.pc;
    now == was ||
    match now
    case Finish => true
    case Check | Mark => false
    case Probe => o.Ok? && was.Check? && f.infraReady && f.local.bootstrap && f.local.providerID.None?
    case FindOp => was.Probe? && !(o.Ok? && c.inst.Some?)
    case Request => was.FindOp? && !(o.Ok? && c.op.Some?)
    case WaitCreate => o.Ok? && ((was.FindOp? && c.op.Some?) || (was.Request? && c.op.None? && c.inst.None?))
    case Setup => o.Ok? && was.WaitCreate? && c.op.None?
    case Start => o.Ok? && ((was.Probe? && c.inst.Some?) || was.Setup?)
    case WaitAddress => o.Ok? && was.Start? && c.inst.Some?
    case Stop => o.Ok? && was.Mark?
    case Destroy => o.Ok? && was.Stop? && c.inst.Some?
    case List =>
      && o.Ok? && f.local.controlPlane
      && (|| (was.WaitAddress? && HasHosts(c) && !f.local.lbConfigured)
          || (((was.Stop? && c.inst.None?) || (was.Destroy? && c.inst.Some?)) && !f.clusterDeleting))
    case Write(snapshot) => o.Ok? && was.List? && snapshot == v.listing
    case Reload => o.Ok? && was.Write? && v.lb.present && !v.lb.direct
  }

  /** What a call does to the instance and to the create operation. */
  predicate Acts(c: Cell, r: Cell, o: Outcome)
    requires c.flight.Some?
  {
    var was, applied := c.flight.value.pc, o.Ok? || o.applied;
    && (if was.Destroy? && applied then r.inst.None?
        else if (was.Start? || was.Stop?) && applied && c.inst.Some? then
          r.inst.Some? && r.inst.value.running == was.Start? && r.inst.value.config == c.inst.value.config
          && r.inst.value.hosts == if was.Start? then c.inst.value.hosts else []
        else r.inst == c.inst)
    && (if was.Request? && applied && c.op.None? && c.inst.None? then r.op.Some? else r.op == c.op)
  }

  /** What a reconcile comes to record: whether the instance of a provisioned machine is there; or, once it has an
      address and, for a control plane machine, the load balancer is configured, the providerID; or, once the
      instance is gone and the load balancer reconfigured without it, that the finalizer may go. */
  predicate Records(v: View, c: Cell, r: Cell, o: Outcome)
    requires c.flight.Some? && r.flight.Some?
  {
    var f, m, m' := c.flight.value, c.flight.value.local, r.flight.value.local;
    var configured := v.lb.present && (f.pc.Reload? || (f.pc.Write? && v.lb.direct));
    if o.Ok? && f.pc.Check? && f.infraReady && m.providerID.Some? then m' == m.(ready := c.inst.Some?)
    else if o.Ok? && f.pc.WaitAddress? && HasHosts(c) && (!m.controlPlane || m.lbConfigured) then
      m' == m.(providerID := Some("lxc:///" + v.name), ready := true)
    else if o.Ok? && configured && !m.deleting then
      m' == m.(providerID := Some("lxc:///" + v.name), ready := true, lbConfigured := true)
    else if o.Ok? && (configured
                      || (((f.pc.Stop? && c.inst.None?) || (f.pc.Destroy? && c.inst.Some?))
                          && (!m.controlPlane || f.clusterDeleting))) then m' == m.(finalizer := false)
    else m' == m
  }

  ghost predicate Goes(v: View, c: Cell, r: Cell, o: Outcome) {
    c.flight.Some? && r.flight.Some?
    && Follows(v, c, r.flight.value.pc, o) && Acts(c, r, o) && Records(v, c, r, o)
  }

  lemma CreateGoes(v: View, c: Cell, o: Outcome)
    requires c.flight.Some?
    requires var pc := c.flight.value.pc; pc.Check? || pc.Probe? || pc.FindOp? || pc.Request?
    ensures Goes(v, c, CreateStep(v, c, o), o)
  {
  }

  lemma StartGoes(v: View, c: Cell, o: Outcome)
    requires c.flight.Some?
    requires var pc := c.flight.value.pc; pc.WaitCreate? || pc.Setup? || pc.Start? || pc.WaitAddress? || pc.Finish?
    ensures Goes(v, c, StartStep(v, c, o), o)
  {
  }

  lemma DeleteGoes(v: View, c: Cell, o: Outcome)
    requires c.flight.Some?
    requires var pc := c.flight.value.pc; pc.Mark? || pc.Stop? || (pc.Destroy? && c.inst.Some?)
    ensures Goes(v, c, DeleteStep(c, o), o)
  {
  }

  lemma ReconfigureRecords(v: View, c: Cell, o: Outcome)
    requires c.flight.Some? && Reconfiguring(c.flight.value.pc)
    ensures Records(v, c, ReconfigureStep(v, c, o), o)
  {
  }

  lemma ReconfigureGoes(v: View, c: Cell, o: Outcome)
    requires c.flight.Some? && Reconfiguring(c.flight.value.pc)
    ensures Goes(v, c, ReconfigureStep(v, c, o), o)
  {
    ReconfigureRecords(v, c, o);
  }

  /** Every call of a reconcile follows the order, does what it is for and records what it found. */
  lemma CallsGoInOrder(s: State, v: View, c: Cell, o: Outcome)
    requires CellSound(s, v.name, c) && c.flight.Some?
    ensures Goes(v, c, CellAfter(v, c, Step(o)), o)
  {
    match c.flight.value.pc
    case Mark | Stop | Destroy => DeleteGoes(v, c, o);
    case List | Write(_) | Reload => ReconfigureGoes(v, c, o);
    case Check | Probe | FindOp | Request => CreateGoes(v, c, o);
    case _ => StartGoes(v, c, o);
  }

  // ---- what a launch configures ----------------------------------------------------------------

  /** The configuration of a launch: the four labels of the machine, and otherwise exactly what the user set. */
  ghost predicate Configures(s: State, n: Name, m: Machine, config: map<string, string>) {
    && Lookup(config, "user.cluster-name") == Some(s.clusterName)
    && Lookup(config, "user.cluster-namespace") == Some(s.namespace)
    && Lookup(config, "user.machine-name") == Some(n)
    && Lookup(config, "user.cluster-role") == Some(if m.controlPlane then "control-plane" else "worker")
    && (forall key :: !Label(key) ==> Lookup(config, key) == Lookup(m.userConfig, key))
  }

  predicate Label(key: string) {
    key in {"user.cluster-name", "user.cluster-namespace", "user.machine-name", "user.cluster-role"}
  }

  lemma LaunchConfigures(s: State, v: View, m: Machine)
    requires v.clusterName == s.clusterName && v.namespace == s.namespace
    ensures Configures(s, v.name, m, LaunchConfig(v, m))
  {
    KeysDiffer();
  }

  ghost predicate CellConfigured(s: State, n: Name, c: Cell) {
    c.machine.Some? ==>
      && (c.inst.Some? ==> Configures(s, n, c.machine.value, c.inst.value.config))
      && (c.op.Some? ==> Configures(s, n, c.machine.value, c.op.value))
  }

  lemma ActionKeepsConfigured(s: State, v: View, c: Cell, a: CellAction)
    requires Sees(v, s) && CellSound(s, v.name, c) && CellConfigured(s, v.name, c)
    ensures CellConfigured(s, v.name, CellAfter(v, c, a))
  {
    ConfigOrigin(v, c, a);
    UserConfigStays(v, c, a);
    if c.flight.Some? {
      LaunchConfigures(s, v, c.flight.value.local);
    }
  }

  lemma UserConfigStays(v: View, c: Cell, a: CellAction)
    ensures var c' := CellAfter(v, c, a);
      c'.machine.Some? ==> c.machine.Some? && c'.machine.value.userConfig == c.machine.value.userConfig
  {
  }

  lemma SameConfigured(s: State, t: State, n: Name, c: Cell)
    requires s.clusterName == t.clusterName && s.namespace == t.namespace && CellConfigured(s, n, c)
    ensures CellConfigured(t, n, c)
  {
  }

  lemma {:induction false} RunKeepsConfigured(s: State, actions: seq<Action>)
    requires Sound(s) && AllLabelled(s) && forall n | n in s.cells :: CellConfigured(s, n, s.cells[n])
    ensures forall n | n in Exec(s, actions).cells :: CellConfigured(Exec(s, actions), n, Exec(s, actions).cells[n])
    decreases |actions|
  {
    if actions != [] {
      var a, t := actions[0], Apply(s, actions[0]);
      forall n | n in t.cells ensures CellConfigured(t, n, t.cells[n]) {
        if n in s.cells {
          ApplyFrame(s, a, n);
          if a.On? {
            ActionKeepsConfigured(s, ViewOf(s, n), s.cells[n], a.act);
          }
          SameConfigured(s, t, n, t.cells[n]);
        }
      }
      ApplyKeepsSound(s, a);
      RunKeepsConfigured(t, actions[1..]);
    }
  }

  /** In every run from the start, an instance carries the four labels of its machine and its cluster, and
      otherwise exactly the configuration that the user gave the machine. */
  lemma InstanceIsConfigured(s: State, actions: seq<Action>, n: Name)
    requires Init(s) && n in Exec(s, actions).cells && Exec(s, actions).cells[n].machine.Some?
    requires Exec(s, actions).cells[n].inst.Some?
    ensures var t := Exec(s, actions); Configures(t, n, t.cells[n].machine.value, t.cells[n].inst.value.config)
  {
    RunKeepsConfigured(s, actions);
    assert CellConfigured(Exec(s, actions), n, Exec(s, actions).cells[n]);
  }

  // ---- after provisioning ----------------------------------------------------------------------

  predicate HasProviderID(c: Cell) { c.machine.Some? && c.machine.value.providerID.Some? }

  /** Once set, a providerID stays until the object goes, and no action asks for an instance or makes one. */
  lemma ActionAfterProvisioning(s: State, v: View, c: Cell, a: CellAction)
    requires Sees(v, s) && CellSound(s, v.name, c) && HasProviderID(c)
    ensures var c' := CellAfter(v, c, a);
      && (c'.machine.Some? ==> c'.machine.value.providerID == c.machine.value.providerID)
      && c'.op.None? && (c'.inst.Some? ==> c.inst.Some?)
  {
  }

  function Count(b: bool): nat { if b then 1 else 0 }

  /** How often a run requests the creation of an instance named `n`. */
  ghost function Requests(s: State, actions: seq<Action>, n: Name): nat
    decreases |actions|
  {
    if actions == [] then 0
    else
      var t := Apply(s, actions[0]);
      Count(n in s.cells && n in t.cells && s.cells[n].op.None? && t.cells[n].op.Some?) + Requests(t, actions[1..], n)
  }

  /** How often an instance named `n` comes into being in a run. */
  ghost function Creations(s: State, actions: seq<Action>, n: Name): nat
    decreases |actions|
  {
    if actions == [] then 0
    else
      var t := Apply(s, actions[0]);
      Count(n in s.cells && n in t.cells && s.cells[n].inst.None? && t.cells[n].inst.Some?)
      + Creations(t, actions[1..], n)
  }

  /** From the moment a machine has its providerID, however the run goes on: the providerID is the same
      in every later state in which the object exists, and no instance is ever requested or created for
      it again. */
  lemma {:induction false} ProvisionedOnce(s: State, actions: seq<Action>, n: Name)
    requires Sound(s) && AllLabelled(s) && n in s.cells && HasProviderID(s.cells[n])
    ensures n in Exec(s, actions).cells
    ensures Exec(s, actions).cells[n].machine.Some?
        ==> Exec(s, actions).cells[n].machine.value.providerID == s.cells[n].machine.value.providerID
    ensures Requests(s, actions, n) == 0 && Creations(s, actions, n) == 0
    decreases |actions|
  {
    if actions != [] {
      var a, t := actions[0], Apply(s, actions[0]);
      ApplyFrame(s, a, n);
      ApplyKeepsSound(s, a);
      assert CellSound(s, n, s.cells[n]);
      if a.On? && a.name == n {
        ActionAfterProvisioning(s, ViewOf(s, n), s.cells[n], a.act);
      }
      if t.cells[n].machine.Some? {
        ProvisionedOnce(t, actions[1..], n);
      } else {
        GoneForGood(t, actions[1..], n);
      }
    }
  }

  /** A deleted LXCMachine does not come back, nothing is requested in its name, and nothing is created
      unless a create was still pending. */
  lemma {:induction false} GoneForGood(s: State, actions: seq<Action>, n: Name)
    requires Sound(s) && AllLabelled(s) && n in s.cells && s.cells[n].machine.None?
    ensures n in Exec(s, actions).cells && Exec(s, actions).cells[n].machine.None?
    ensures Requests(s, actions, n) == 0
    ensures s.cells[n].op.None? ==> Creations(s, actions, n) == 0
    decreases |actions|
  {
    if actions != [] {
      ApplyFrame(s, actions[0], n);
      ApplyKeepsSound(s, actions[0]);
      assert CellSound(s, n, s.cells[n]);
      GoneForGood(Apply(s, actions[0]), actions[1..], n);
    }
  }

  // ---- no leaked instance ----------------------------------------------------------------------

  /** A fetch of this cell starts a delete reconcile. */
  predicate StartsDelete(c: Cell) {
    c.flight.None? && c.machine.Some? && c.machine.value.deleting && c.machine.value.finalizer
  }

  /** A delete reconcile does not start while a create operation is pending. */
  predicate NoPendingCreate(s: State, a: Action) {
    a.On? && a.act.Fetch? && a.name in s.cells && s.lxc.present && StartsDelete(s.cells[a.name])
    ==> s.cells[a.name].op.None?
  }

  predicate Owned(c: Cell) {
    && (c.inst.Some? || c.op.Some? ==> c.machine.Some? && c.machine.value.finalizer)
    && (c.flight.Some? && c.flight.value.local.deleting ==>
          && c.op.None?
          && (Reconfiguring(c.flight.value.pc) || !c.flight.value.local.finalizer ==> c.inst.None?))
  }

  ghost predicate AllOwned(s: State) { forall n | n in s.cells :: Owned(s.cells[n]) }

  lemma ActionKeepsOwned(s: State, v: View, c: Cell, a: CellAction)
    requires Sees(v, s) && CellSound(s, v.name, c) && Owned(c)
    requires a.Fetch? && v.lxcPresent && StartsDelete(c) ==> c.op.None?
    ensures Owned(CellAfter(v, c, a))
  {
  }

  lemma ApplyKeepsOwned(s: State, a: Action)
    requires Sound(s) && AllOwned(s) && NoPendingCreate(s, a)
    ensures AllOwned(Apply(s, a))
  {
    var t := Apply(s, a);
    forall n | n in t.cells ensures Owned(t.cells[n]) {
      if n in s.cells {
        ApplyFrame(s, a, n);
        if a.On? && a.name == n {
          ActionKeepsOwned(s, ViewOf(s, n), s.cells[n], a.act);
        }
      }
    }
  }

  lemma {:induction false} RunKeepsOwned(s: State, actions: seq<Action>)
    requires Sound(s) && AllLabelled(s) && AllOwned(s) && Along(s, actions, NoPendingCreate)
    ensures AllOwned(Exec(s, actions))
    decreases |actions|
  {
    if actions != [] {
      var a, t := actions[0], Apply(s, actions[0]);
      ApplyKeepsOwned(s, a);
      ApplyKeepsSound(s, a);
      RunKeepsOwned(t, actions[1..]);
    }
  }

  /** In every run in which no delete reconcile starts while a create is pending, through retries,
      timeouts, stops and lost patches, an instance or a pending create implies that its LXCMachine
      exists and holds its finalizer. */
  lemma NoLeakedInstance(s: State, actions: seq<Action>, n: Name)
    requires Init(s) && Along(s, actions, NoPendingCreate)
    requires n in Exec(s, actions).cells
    requires Exec(s, actions).cells[n].inst.Some? || Exec(s, actions).cells[n].op.Some?
    ensures Exec(s, actions).cells[n].machine.Some? && Exec(s, actions).cells[n].machine.value.finalizer
  {
    RunKeepsOwned(s, actions);
  }

  /** A state that breaks the rule: a delete reconcile can start while a create is pending. */
  predicate DeletedTooEarly(s: State, n: Name) { !NoPendingCreate(s, On(n, Fetch)) }

  /** The delete of this machine needs no load balancer, or has one. */
  predicate CanFinish(s: State, n: Name)
    requires n in s.cells && s.cells[n].machine.Some?
  {
    s.cells[n].machine.value.controlPlane ==> s.clusterDeleting || s.lb.present
  }

  lemma OnCell(s: State, n: Name, act: CellAction)
    requires n in s.cells
    ensures n in Apply(s, On(n, act)).cells
    ensures Apply(s, On(n, act)).cells[n] == CellAfter(ViewOf(s, n), s.cells[n], act)
    ensures Apply(s, On(n, act)).lxc == s.lxc && Apply(s, On(n, act)).clusterDeleting == s.clusterDeleting
    ensures Apply(s, On(n, act)).lb.present == s.lb.present && Apply(s, On(n, act)).lb.direct == s.lb.direct
  {
  }

  /** The delete reconcile of `n` up to the point where its finalizer is dropped locally. */
  lemma DropsFinalizer(s: State, n: Name) returns (actions: seq<Action>)
    requires Sound(s) && DeletedTooEarly(s, n) && CanFinish(s, n)
    ensures Calm(actions)
    ensures var t := Exec(s, actions);
      && t.clusterDeleting == s.clusterDeleting
      && n in t.cells && t.cells[n] == s.cells[n].(flight := t.cells[n].flight) && t.cells[n].flight.Some?
      && t.cells[n].flight.value.pc.Finish? && !t.cells[n].flight.value.local.finalizer
  {
    assert CellSound(s, n, s.cells[n]);
    OnCell(s, n, Fetch);
    var s1 := Apply(s, On(n, Fetch));
    OnCell(s1, n, Step(Ok));
    var s2 := Apply(s1, On(n, Step(Ok)));
    OnCell(s2, n, Step(Ok));
    var s3 := Apply(s2, On(n, Step(Ok)));
    actions := [] + [On(n, Fetch)] + [On(n, Step(Ok))] + [On(n, Step(Ok))];
    ExecSnoc(s, [], On(n, Fetch));
    ExecSnoc(s, [] + [On(n, Fetch)], On(n, Step(Ok)));
    ExecSnoc(s, [] + [On(n, Fetch)] + [On(n, Step(Ok))], On(n, Step(Ok)));
    if s3.cells[n].flight.value.pc.List? {
      var more := ReconfigureRuns(s3, n);
      ExecAppend(s, actions, more);
      actions := actions + more;
    }
  }

  /** One successful call of a Reconfigure inside a delete reconcile. */
  lemma ReconfigureCall(v: View, c: Cell)
    requires c.flight.Some? && Reconfiguring(c.flight.value.pc) && v.lb.present && c.flight.value.local.deleting
    ensures var c', pc := CellAfter(v, c, Step(Ok)), c.flight.value.pc;
      && c' == c.(flight := c'.flight) && c'.flight.Some? && c'.flight.value.local.deleting
      && (pc.List? ==> c'.flight.value.pc.Write?)
      && (pc.Write? && !v.lb.direct ==> c'.flight.value.pc.Reload?)
      && (pc.Reload? || (pc.Write? && v.lb.direct) ==> c'.flight.value.pc.Finish? && !c'.flight.value.local.finalizer)
  {
  }

  lemma ReconfigureRuns(s: State, n: Name) returns (actions: seq<Action>)
    requires n in s.cells && s.cells[n].flight.Some? && s.cells[n].flight.value.pc.List? && s.lb.present
    requires s.cells[n].flight.value.local.deleting
    ensures Calm(actions)
    ensures var t := Exec(s, actions);
      && t.clusterDeleting == s.clusterDeleting
      && n in t.cells && t.cells[n] == s.cells[n].(flight := t.cells[n].flight) && t.cells[n].flight.Some?
      && t.cells[n].flight.value.pc.Finish? && !t.cells[n].flight.value.local.finalizer
  {
    var a := On(n, Step(Ok));
    var s1 := Apply(s, a);
    OnCell(s, n, Step(Ok));
    ReconfigureCall(ViewOf(s, n), s.cells[n]);
    OnCell(s1, n, Step(Ok));
    ReconfigureCall(ViewOf(s1, n), s1.cells[n]);
    ExecSnoc(s, [], a);
    ExecSnoc(s, [] + [a], a);
    actions := [] + [a] + [a];
    if !s.lb.direct {
      var s2 := Apply(s1, a);
      OnCell(s2, n, Step(Ok));
      ReconfigureCall(ViewOf(s2, n), s2.cells[n]);
      ExecSnoc(s, actions, a);
      actions := actions + [a];
    }
  }

  lemma LeaksFrom(s: State, n: Name) returns (actions: seq<Action>)
    requires Sound(s) && DeletedTooEarly(s, n) && CanFinish(s, n)
    ensures Calm(actions)
    ensures var t := Exec(s, actions);
      n in t.cells && t.cells[n].machine.None? && t.cells[n].inst.Some? && t.clusterDeleting == s.clusterDeleting
  {
    var x := DropsFinalizer(s, n);
    var s1 := Exec(s, x);
    OnCell(s1, n, Patch(true));
    var s2 := Apply(s1, On(n, Patch(true)));
    OnCell(s2, n, OpDone);
    ExecTwo(s1, On(n, Patch(true)), On(n, OpDone));
    ExecAppend(s, x, [On(n, Patch(true)), On(n, OpDone)]);
    actions := x + [On(n, Patch(true)), On(n, OpDone)];
  }

  /** The rule of NoLeakedInstance is exact: from every state that breaks it a fault-free continuation
      leaves an instance behind whose LXCMachine is gone. Only a control plane machine without a load
      balancer needs the Cluster to be deleted for that. */
  lemma EarlyDeleteCanLeak(s: State, n: Name) returns (actions: seq<Action>)
    requires Sound(s) && AllLabelled(s) && DeletedTooEarly(s, n)
    ensures Calm(actions)
    ensures var t := Exec(s, actions);
      && n in t.cells && t.cells[n].machine.None? && t.cells[n].inst.Some?
      && (CanFinish(s, n) ==> t.clusterDeleting == s.clusterDeleting)
  {
    if CanFinish(s, n) {
      actions := LeaksFrom(s, n);
    } else {
      var x := [DeleteCluster];
      assert x[1..] == [] && Exec(s, x) == Apply(s, DeleteCluster);
      ApplyKeepsSound(s, DeleteCluster);
      var y := LeaksFrom(Exec(s, x), n);
      ExecAppend(s, x, y);
      actions := x + y;
    }
  }

  lemma UserDeletes(v: View, c: Cell)
    requires c.machine.Some? && c.machine.value.finalizer
    ensures CellAfter(v, c, UserDelete) == c.(machine := Some(c.machine.value.(deleting := true)))
  {
  }

  lemma WaitFails(v: View, c: Cell)
    requires c.flight.Some? && c.flight.value.pc == WaitCreate
    ensures CellAfter(v, c, Step(Fail(false))) == At(c, Finish)
  {
  }

  /** A machine is deleted while its create is pending, and the reconcile that requested it times out. */
  lemma TimesOut(s: State, n: Name)
    requires s.lxc.present && n in s.cells && s.cells[n].machine.Some? && s.cells[n].machine.value.finalizer
    requires s.cells[n].op.Some? && s.cells[n].flight.Some? && s.cells[n].flight.value.pc == WaitCreate
    requires s.cells[n].flight.value.local.finalizer
    ensures var t := Exec(s, [On(n, UserDelete), On(n, Step(Fail(false))), On(n, Patch(true))]);
      DeletedTooEarly(t, n) && t.lb.present == s.lb.present && t.clusterDeleting == s.clusterDeleting
  {
    var a, b, c := On(n, UserDelete), On(n, Step(Fail(false))), On(n, Patch(true));
    OnCell(s, n, UserDelete);
    UserDeletes(ViewOf(s, n), s.cells[n]);
    var s1 := Apply(s, a);
    OnCell(s1, n, Step(Fail(false)));
    WaitFails(ViewOf(s1, n), s1.cells[n]);
    var s2 := Apply(s1, b);
    OnCell(s2, n, Patch(true));
    ExecThree(s, a, b, c);
  }

  /** Such a state is reached from the start of any cluster. */
  lemma EarlyDeleteHappens(clusterName: string, namespace: string, direct: bool) returns (actions: seq<Action>)
    ensures Init(Started(clusterName, namespace, direct))
    ensures var t := Exec(Started(clusterName, namespace, direct), actions);
      "a" in t.cells && t.cells["a"].machine.None? && t.cells["a"].inst.Some? && !t.clusterDeleting
  {
    var s := Started(clusterName, namespace, direct);
    var x := ComesUp(clusterName, namespace, direct);
    var s0 := Exec(s, x);
    var y := LaunchesTo(s0, "a", 7);
    var s1 := Exec(s0, y);
    var z := [On("a", UserDelete), On("a", Step(Fail(false))), On("a", Patch(true))];
    TimesOut(s1, "a");
    var s2 := Exec(s1, z);
    RunKeepsSound(s0, y);
    RunKeepsSound(s1, z);
    var w := EarlyDeleteCanLeak(s2, "a");
    ExecAppend(s, x, y);
    ExecAppend(s, x + y, z);
    ExecAppend(s, x + y + z, w);
    actions := x + y + z + w;
  }
}
