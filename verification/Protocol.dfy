/** The reconcile protocol of the LXCMachine and LXCCluster controllers as a transition system.

    Every call that a reconcile makes to the Incus server, to the load balancer or to the Kubernetes
    API is one step, and steps of different reconciles interleave freely, as the controllers run
    several workers. A step has an outcome: it succeeds, it fails without effect, or it fails after the
    server applied it. The controller may stop at any step, and the closing patch may be lost. */
module Protocol {
  import opened Common
  import opened Labels
  import opened Order

  type Name = string
  type Backends = map<Name, string>

  /** The fields of an LXCMachine (and of its owner Machine) that the controllers read or write. */
  datatype Machine = Machine(
    controlPlane: bool,
    userConfig: Config,
    bootstrap: bool,
    deleting: bool,
    finalizer: bool,
    providerID: Option<string>,
    ready: bool,
    lbConfigured: bool)

  /** An instance on the server; `hosts` are its sorted host addresses. */
  datatype Instance = Instance(config: Config, running: bool, hosts: seq<string>)

  /** The next call of a machine reconcile. */
  datatype Pc =
    | Check | Probe | FindOp | Request | WaitCreate | Setup | Start | WaitAddress
    | Mark | Stop | Destroy
    | List | Write(snapshot: Backends) | Reload
    | Finish

  /** A machine reconcile in flight, with the copies of the objects that it fetched. */
  datatype Flight = Flight(local: Machine, infraReady: bool, clusterDeleting: bool, pc: Pc)

  /** Everything that carries one machine name: the LXCMachine, whether its owner Machine exists, the
      reconcile in flight, the pending create operation and the instance. */
  datatype Cell = Cell(
    machine: Option<Machine>,
    owner: bool,
    flight: Option<Flight>,
    op: Option<Config>,
    inst: Option<Instance>)

  /** `written` is the configuration file, `active` what the proxy loaded. A `direct` load balancer
      (OVN) takes both in one call. */
  datatype LoadBalancer = LoadBalancer(present: bool, direct: bool, written: Backends, active: Backends)

  datatype ClusterPc = CreateLb | DeleteLb | ListMachines | ClusterFinish(drop: bool)

  datatype LxcCluster = LxcCluster(present: bool, finalizer: bool, deleting: bool, flight: Option<ClusterPc>)

  datatype State = State(
    clusterName: string,
    namespace: string,
    infraReady: bool,
    clusterDeleting: bool,
    lxc: LxcCluster,
    cells: map<Name, Cell>,
    lb: LoadBalancer)

  datatype Outcome = Ok | Fail(applied: bool)

  datatype CellAction =
    | UserDelete | BootstrapReady | OwnerGone
    | OpDone | OpFailed | AddressAppears(hosts: seq<string>)
    | AddFinalizer | Fetch | Step(outcome: Outcome) | Patch(kept: bool) | Abandon

  datatype Action =
    | CreateMachine(newName: Name, controlPlane: bool, userConfig: Config)
    | On(name: Name, act: CellAction)
    | InfraReady | DeleteCluster | DeleteLxcCluster
    | ClusterFetch | ClusterStep(outcome: Outcome) | ClusterPatch(kept: bool) | ClusterAbandon

  /** What a machine reconcile sees of the rest of the system. */
  datatype View = View(
    name: Name, clusterName: string, namespace: string,
    infraReady: bool, clusterDeleting: bool, lxcPresent: bool, lb: LoadBalancer, listing: Backends)

  // ---- the listing -----------------------------------------------------------------------------

  /** The address under which one instance is listed as a backend, if it is. */
  function BackendOf(clusterName: string, namespace: string, c: Cell): Option<string> {
    if c.inst.Some? && c.inst.value.hosts != []
       && Passes(ControlPlaneFilter(clusterName, namespace), c.inst.value.config)
    then Some(c.inst.value.hosts[0]) else None
  }

  function BackendAt(s: State, n: Name): Option<string> {
    if n in s.cells then BackendOf(s.clusterName, s.namespace, s.cells[n]) else None
  }

  /** The filtered server listing: every passing instance with an address, at its least address. */
  function Listing(s: State): (r: Backends)
    ensures forall n :: Lookup(r, n) == BackendAt(s, n)
  {
    map n | n in s.cells && BackendAt(s, n).Some? :: BackendAt(s, n).value
  }

  // ---- one machine -----------------------------------------------------------------------------

  function ExpectedProviderID(n: Name): string { "lxc:///" + n }

  function LaunchConfig(v: View, m: Machine): Config {
    m.userConfig + MachineLabels(v.clusterName, v.namespace, v.name, Role(m.controlPlane))
  }

  function At(c: Cell, pc: Pc): Cell
    requires c.flight.Some?
  {
    c.(flight := Some(c.flight.value.(pc := pc)))
  }

  function Done(c: Cell, local: Machine): Cell
    requires c.flight.Some?
  {
    c.(flight := Some(c.flight.value.(local := local, pc := Finish)))
  }

  function Provisioned(n: Name, m: Machine): Machine {
    m.(providerID := Some(ExpectedProviderID(n)), ready := true)
  }

  /** What a reconcile records once its Reconfigure succeeded. */
  function Reconfigured(n: Name, m: Machine): Machine {
    if m.deleting then m.(finalizer := false) else Provisioned(n, m.(lbConfigured := true))
  }

  function AfterDelete(c: Cell): Cell
    requires c.flight.Some?
  {
    var f := c.flight.value;
    if f.local.controlPlane && !f.clusterDeleting then At(c, List) else Done(c, f.local.(finalizer := false))
  }

  function SetRunning(c: Cell, running: bool): Cell {
    if c.inst.None? then c
    else c.(inst := Some(c.inst.value.(running := running, hosts := if running then c.inst.value.hosts else [])))
  }

  /** A step changes neither the API objects nor what the reconcile fetched of them. */
  predicate SameObjects(c: Cell, r: Cell) {
    && r.machine == c.machine && r.owner == c.owner && c.flight.Some? && r.flight.Some?
    && r.flight.value.infraReady == c.flight.value.infraReady
    && r.flight.value.clusterDeleting == c.flight.value.clusterDeleting
    && r.flight.value.local.deleting == c.flight.value.local.deleting
    && r.flight.value.local.controlPlane == c.flight.value.local.controlPlane
  }

  predicate Applied(o: Outcome) { o.Ok? || o.applied }

  /** The normal reconcile up to the create request: reconcileNormal and the probes of WaitForLaunchInstance. */
  function CreateStep(v: View, c: Cell, o: Outcome): (r: Cell)
    requires c.flight.Some?
    ensures SameObjects(c, r) && r.inst == c.inst
    ensures r.op == c.op || r.op == Some(LaunchConfig(v, c.flight.value.local))
  {
    var f := c.flight.value;
    var m := f.local;
    match f.pc
    case Check =>
      if !f.infraReady then At(c, Finish)
      else if m.providerID.Some? then
        if o.Fail? then At(c, Finish) else Done(c, m.(ready := c.inst.Some?))
      else if !m.bootstrap || o.Fail? then At(c, Finish)
      else At(c, Probe)
    case Probe => At(c, if o.Ok? && c.inst.Some? then Start else FindOp)
    case FindOp => At(c, if o.Ok? && c.op.Some? then WaitCreate else Request)
    case Request =>
      var accepted := c.inst.None? && c.op.None? && Applied(o);
      At(if accepted then c.(op := Some(LaunchConfig(v, m))) else c, if accepted && o.Ok? then WaitCreate else Finish)
    case _ => c
  }

  /** The rest of the launch: wait for the create, set the instance up, start it, wait for an address. */
  function StartStep(v: View, c: Cell, o: Outcome): (r: Cell)
    requires c.flight.Some?
    ensures SameObjects(c, r) && r.op == c.op
    ensures c.inst.Some? == r.inst.Some? && (r.inst.Some? ==> r.inst.value.config == c.inst.value.config)
  {
    var f := c.flight.value;
    var m := f.local;
    match f.pc
    case WaitCreate =>
      if o.Fail? then At(c, Finish) else if c.op.Some? then c else At(c, Setup)
    case Setup => At(c, if o.Ok? then Start else Finish)
    case Start =>
      At(if Applied(o) then SetRunning(c, true) else c, if c.inst.Some? && o.Ok? then WaitAddress else Finish)
    case WaitAddress =>
      if o.Fail? || c.inst.None? then At(c, Finish)
      else if c.inst.value.hosts == [] then c
      else if m.controlPlane && !m.lbConfigured then At(c, List)
      else Done(c, Provisioned(v.name, m))
    case _ => c
  }

  /** The delete reconcile: reconcileDelete, WaitForStopInstance and WaitForDeleteInstance. */
  function DeleteStep(c: Cell, o: Outcome): (r: Cell)
    requires c.flight.Some?
    ensures SameObjects(c, r) && r.op == c.op
    ensures r.inst.Some? ==> c.inst.Some? && r.inst.value.config == c.inst.value.config
  {
    match c.flight.value.pc
    case Mark => At(c, if o.Ok? then Stop else Finish)
    case Stop =>
      if c.inst.None? then (if o.Ok? then AfterDelete(c) else At(c, Finish))
      else At(if Applied(o) then SetRunning(c, false) else c, if o.Ok? then Destroy else Finish)
    case Destroy =>
      if c.inst.None? then At(c, Finish)
      else
        var c1 := if Applied(o) then c.(inst := None) else c;
        if o.Ok? then AfterDelete(c1) else At(c1, Finish)
    case _ => c
  }

  /** Reconfigure: list the instances, write the configuration, reload the proxy. */
  function ReconfigureStep(v: View, c: Cell, o: Outcome): (r: Cell)
    requires c.flight.Some?
    ensures SameObjects(c, r) && r.op == c.op && r.inst == c.inst
  {
    var f := c.flight.value;
    match f.pc
    case List => At(c, if o.Ok? then Write(v.listing) else Finish)
    case Write(_) =>
      if !v.lb.present || o.Fail? then At(c, Finish)
      else if v.lb.direct then Done(c, Reconfigured(v.name, f.local))
      else At(c, Reload)
    case Reload =>
      if !v.lb.present || o.Fail? then At(c, Finish) else Done(c, Reconfigured(v.name, f.local))
    case _ => c
  }

  function ReconfigureLb(lb: LoadBalancer, pc: Pc, o: Outcome): LoadBalancer {
    if !lb.present || !Applied(o) then lb
    else match pc
      case Write(snapshot) => lb.(written := snapshot, active := if lb.direct then snapshot else lb.active)
      case Reload => lb.(active := lb.written)
      case _ => lb
  }

  predicate InWindow(c: Cell) { c.flight.Some? && (c.flight.value.pc.Write? || c.flight.value.pc.Reload?) }

  predicate Reconfiguring(pc: Pc) { pc.List? || pc.Write? || pc.Reload? }

  /** Patch the fields that this controller owns; an object being deleted goes with its last finalizer. */
  function PatchedMachine(m: Machine, local: Machine): Option<Machine> {
    var p := m.(finalizer := local.finalizer, providerID := local.providerID, ready := local.ready,
                lbConfigured := local.lbConfigured);
    if p.deleting && !p.finalizer then None else Some(p)
  }

  /** The effect of an action on its cell; an action that is not enabled leaves the cell as it is. */
  function CellAfter(v: View, c: Cell, a: CellAction): Cell {
    match a
    case UserDelete =>
      if c.machine.None? then c
      else if c.machine.value.finalizer then c.(machine := Some(c.machine.value.(deleting := true)))
      else c.(machine := None)
    case BootstrapReady =>
      if c.machine.None? then c else c.(machine := Some(c.machine.value.(bootstrap := true)))
    case OwnerGone => if c.machine.None? then c.(owner := false) else c
    case OpDone => if c.op.None? then c else c.(op := None, inst := Some(Instance(c.op.value, false, [])))
    case OpFailed => c.(op := None)
    case AddressAppears(hosts) =>
      if c.inst.Some? && c.inst.value.running && c.inst.value.hosts == [] && Sorted(hosts)
      then c.(inst := Some(c.inst.value.(hosts := hosts))) else c
    case AddFinalizer =>
      if c.machine.Some? && !c.machine.value.finalizer && v.lxcPresent
      then c.(machine := Some(c.machine.value.(finalizer := true))) else c
    case Fetch =>
      if c.machine.Some? && c.machine.value.finalizer && c.flight.None? && v.lxcPresent
      then c.(flight := Some(Flight(c.machine.value, v.infraReady, v.clusterDeleting,
                                    if c.machine.value.deleting then Mark else Check)))
      else c
    case Step(o) =>
      if c.flight.None? then c
      else (match c.flight.value.pc
        case Mark | Stop | Destroy => DeleteStep(c, o)
        case List | Write(_) | Reload => ReconfigureStep(v, c, o)
        case Check | Probe | FindOp | Request => CreateStep(v, c, o)
        case _ => StartStep(v, c, o))
    case Patch(kept) =>
      if c.flight.None? || !c.flight.value.pc.Finish? || c.machine.None? then c
      else c.(flight := None,
              machine := if kept then PatchedMachine(c.machine.value, c.flight.value.local) else c.machine)
    case Abandon => c.(flight := None)
  }

  function LbAfter(lb: LoadBalancer, c: Cell, a: CellAction): LoadBalancer {
    if a.Step? && c.flight.Some? then ReconfigureLb(lb, c.flight.value.pc, a.outcome) else lb
  }

  // ---- the cluster -----------------------------------------------------------------------------

  predicate MachinesLeft(s: State) { exists n | n in s.cells :: s.cells[n].owner }

  /** reconcileNormal and reconcileDelete of the LXCCluster. */
  function ClusterStepped(s: State, o: Outcome): State
    requires s.lxc.flight.Some?
  {
    match s.lxc.flight.value
    case CreateLb =>
      var lb := if s.lb.present || !Applied(o) then s.lb else s.lb.(present := true, written := map[], active := map[]);
      s.(lb := lb, lxc := s.lxc.(flight := Some(ClusterFinish(false))))
    case DeleteLb =>
      var lb := if Applied(o) then s.lb.(present := false, written := map[], active := map[]) else s.lb;
      s.(lb := lb, lxc := s.lxc.(flight := Some(if o.Ok? then ListMachines else ClusterFinish(false))))
    case ListMachines =>
      s.(lxc := s.lxc.(flight := Some(ClusterFinish(o.Fail? || !MachinesLeft(s)))))
    case ClusterFinish(_) => s
  }

  function ClusterFetched(s: State): State {
    if !s.lxc.present || s.lxc.flight.Some? then s
    else if !s.lxc.finalizer then (if s.lxc.deleting then s else s.(lxc := s.lxc.(finalizer := true)))
    else s.(lxc := s.lxc.(flight := Some(if s.lxc.deleting then DeleteLb else CreateLb)))
  }

  function ClusterPatched(s: State, kept: bool): State {
    if s.lxc.flight.None? || !s.lxc.flight.value.ClusterFinish? then s
    else if s.lxc.flight.value.drop && kept
    then s.(lxc := LxcCluster(false, false, s.lxc.deleting, None))
    else s.(lxc := s.lxc.(flight := None))
  }

  // ---- the system ------------------------------------------------------------------------------

  function ViewOf(s: State, n: Name): View {
    View(n, s.clusterName, s.namespace, s.infraReady, s.clusterDeleting, s.lxc.present, s.lb, Listing(s))
  }

  function Apply(s: State, a: Action): State {
    match a
    case CreateMachine(n, controlPlane, userConfig) =>
      if n in s.cells || s.clusterDeleting then s
      else
        var m := Machine(controlPlane, userConfig, false, false, false, None, false, false);
        s.(cells := s.cells[n := Cell(Some(m), true, None, None, None)])
    case On(n, act) =>
      if n !in s.cells then s
      else s.(cells := s.cells[n := CellAfter(ViewOf(s, n), s.cells[n], act)], lb := LbAfter(s.lb, s.cells[n], act))
    case InfraReady => s.(infraReady := true)
    case DeleteCluster => s.(clusterDeleting := true)
    case DeleteLxcCluster =>
      if !s.clusterDeleting || !s.lxc.present then s
      else if s.lxc.finalizer then s.(lxc := s.lxc.(deleting := true))
      else s.(lxc := LxcCluster(false, false, s.lxc.deleting, None))
    case ClusterFetch => ClusterFetched(s)
    case ClusterStep(o) => if s.lxc.flight.Some? then ClusterStepped(s, o) else s
    case ClusterPatch(kept) => ClusterPatched(s, kept)
    case ClusterAbandon => s.(lxc := s.lxc.(flight := None))
  }

  function Exec(s: State, actions: seq<Action>): State
    decreases |actions|
  {
    if actions == [] then s else Exec(Apply(s, actions[0]), actions[1..])
  }

  /** Every action of the run meets the rule in the state in which it happens. */
  ghost predicate Along(s: State, actions: seq<Action>, rule: (State, Action) -> bool)
    decreases |actions|
  {
    actions == [] || (rule(s, actions[0]) && Along(Apply(s, actions[0]), actions[1..], rule))
  }

  // ---- faults ----------------------------------------------------------------------------------

  predicate CellFault(a: CellAction) { (a.Step? && a.outcome.Fail?) || a.Abandon? || (a.Patch? && !a.kept) }

  /** A call fails, a patch is lost or a controller stops. */
  predicate Fault(a: Action) {
    match a
    case On(_, act) => CellFault(act)
    case ClusterStep(o) => o.Fail?
    case ClusterPatch(kept) => !kept
    case ClusterAbandon => true
    case _ => false
  }

  /** A run without a fault. */
  predicate Calm(actions: seq<Action>) { forall a | a in actions :: !Fault(a) }

  lemma CalmAppend(xs: seq<Action>, ys: seq<Action>)
    requires Calm(xs) && Calm(ys)
    ensures Calm(xs + ys)
  {
  }

  predicate Init(s: State) {
    && s.cells == map[]
    && !s.clusterDeleting
    && s.lxc == LxcCluster(true, false, false, None)
    && !s.lb.present && s.lb.written == map[] && s.lb.active == map[]
  }

  // ---- what holds of every cell in every run ---------------------------------------------------

  predicate Quiet(c: Cell) { c.inst.Some? ==> !c.inst.value.running }

  predicate HasHosts(c: Cell) { c.inst.Some? && c.inst.value.hosts != [] }

  predicate StatusSound(n: Name, m: Machine) {
    && (m.providerID.Some? ==> m.providerID.value == ExpectedProviderID(n) && (m.controlPlane ==> m.lbConfigured))
    && (m.ready ==> m.providerID.Some?)
    && (m.lbConfigured ==> m.controlPlane)
  }

  predicate SameStatus(m: Machine, local: Machine) {
    && local.finalizer == m.finalizer && local.providerID == m.providerID
    && local.ready == m.ready && local.lbConfigured == m.lbConfigured
  }

  predicate FlightSound(n: Name, c: Cell, m: Machine, f: Flight) {
    var local := f.local;
    && m.finalizer
    && local.controlPlane == m.controlPlane && local.userConfig == m.userConfig
    && (local.deleting ==> m.deleting)
    && StatusSound(n, local)
    && (m.providerID.Some? ==> local.providerID == m.providerID)
    && (local.providerID.Some? ==> c.op.None?)
    && (!f.pc.Finish? ==> SameStatus(m, local))
    && (!local.deleting && local.lbConfigured ==> HasHosts(c))
    && match f.pc
       case Check => !local.deleting
       case Mark | Stop => local.deleting
       case Destroy => local.deleting && c.inst.Some? && Quiet(c)
       case List | Write(_) | Reload =>
         && local.controlPlane
         && (if local.deleting then Quiet(c) && !f.clusterDeleting
             else HasHosts(c) && local.providerID.None? && !local.lbConfigured)
       case Finish => local.finalizer || (local.deleting && Quiet(c))
       case WaitAddress => !local.deleting && local.providerID.None? && c.inst.Some? && c.inst.value.running
       case _ => !local.deleting && local.providerID.None?
  }

  predicate CellSound(s: State, n: Name, c: Cell) {
    && (c.op.Some? ==> c.inst.None?)
    && (c.inst.Some? && !c.inst.value.running ==> c.inst.value.hosts == [])
    && match c.machine
       case None => c.flight.None? && Quiet(c)
       case Some(m) =>
         && c.owner
         && StatusSound(n, m)
         && (!m.finalizer ==> !m.deleting && c.inst.None? && c.op.None? && !m.lbConfigured)
         && (m.lbConfigured && !m.deleting ==> HasHosts(c))
         && (m.providerID.Some? ==> c.op.None?)
         && (c.flight.Some? ==> FlightSound(n, c, m, c.flight.value))
         && (c.flight.Some? && c.flight.value.clusterDeleting ==> s.clusterDeleting)
  }

  ghost predicate Sound(s: State) {
    forall n | n in s.cells :: CellSound(s, n, s.cells[n])
  }

  predicate Sees(v: View, s: State) {
    v.clusterName == s.clusterName && v.namespace == s.namespace && v.clusterDeleting == s.clusterDeleting
  }

  lemma CreateKeepsCell(s: State, v: View, c: Cell, o: Outcome)
    requires Sees(v, s) && CellSound(s, v.name, c) && c.flight.Some?
    ensures CellSound(s, v.name, CreateStep(v, c, o))
  {
  }

  lemma StartKeepsCell(s: State, v: View, c: Cell, o: Outcome)
    requires Sees(v, s) && CellSound(s, v.name, c) && c.flight.Some?
    ensures CellSound(s, v.name, StartStep(v, c, o))
  {
  }

  /** The instance is gone. */
  lemma DeleteCompletes(s: State, n: Name, c: Cell)
    requires CellSound(s, n, c) && c.flight.Some? && (c.flight.value.pc.Stop? || c.flight.value.pc.Destroy?)
    ensures CellSound(s, n, AfterDelete(c.(inst := None)))
  {
  }

  lemma DeleteKeepsCell(s: State, v: View, c: Cell, o: Outcome)
    requires Sees(v, s) && CellSound(s, v.name, c) && c.flight.Some?
    ensures CellSound(s, v.name, DeleteStep(c, o))
  {
    if c.flight.value.pc.Stop? || c.flight.value.pc.Destroy? {
      DeleteCompletes(s, v.name, c);
      assert c.inst.None? ==> c.(inst := None) == c;
    }
  }

  /** A Reconfigure goes on, or fails. */
  lemma ReconfigureGoesOn(s: State, n: Name, c: Cell, pc: Pc)
    requires CellSound(s, n, c) && c.flight.Some? && Reconfiguring(c.flight.value.pc)
    requires pc.Finish? || pc.Write? || pc.Reload?
    ensures CellSound(s, n, At(c, pc))
  {
  }

  /** A Reconfigure completes. */
  lemma ReconfigureCompletes(s: State, n: Name, c: Cell)
    requires CellSound(s, n, c) && c.flight.Some? && Reconfiguring(c.flight.value.pc)
    ensures CellSound(s, n, Done(c, Reconfigured(n, c.flight.value.local)))
  {
  }

  lemma ReconfigureKeepsCell(s: State, v: View, c: Cell, o: Outcome)
    requires Sees(v, s) && CellSound(s, v.name, c) && c.flight.Some?
    ensures CellSound(s, v.name, ReconfigureStep(v, c, o))
  {
    if Reconfiguring(c.flight.value.pc) {
      ReconfigureGoesOn(s, v.name, c, Finish);
      ReconfigureGoesOn(s, v.name, c, Write(v.listing));
      ReconfigureGoesOn(s, v.name, c, Reload);
      ReconfigureCompletes(s, v.name, c);
    }
  }

  lemma StepKeepsCell(s: State, v: View, c: Cell, o: Outcome)
    requires Sees(v, s) && CellSound(s, v.name, c) && c.flight.Some?
    ensures CellSound(s, v.name, CellAfter(v, c, Step(o)))
  {
    match c.flight.value.pc
    case Mark | Stop | Destroy => DeleteKeepsCell(s, v, c, o);
    case List | Write(_) | Reload => ReconfigureKeepsCell(s, v, c, o);
    case Check | Probe | FindOp | Request => CreateKeepsCell(s, v, c, o);
    case _ => StartKeepsCell(s, v, c, o);
  }

  /** The start and the end of a reconcile. */
  lemma BoundaryKeepsCell(s: State, v: View, c: Cell, a: CellAction)
    requires Sees(v, s) && CellSound(s, v.name, c) && (a.AddFinalizer? || a.Fetch? || a.Patch? || a.Abandon?)
    ensures CellSound(s, v.name, CellAfter(v, c, a))
  {
  }

  /** The moves of users and of the server. */
  lemma EnvironmentKeepsCell(s: State, v: View, c: Cell, a: CellAction)
    requires CellSound(s, v.name, c)
    requires a.UserDelete? || a.BootstrapReady? || a.OwnerGone? || a.OpDone? || a.OpFailed? || a.AddressAppears?
    ensures CellSound(s, v.name, CellAfter(v, c, a))
  {
  }

  lemma ActionKeepsCell(s: State, v: View, c: Cell, a: CellAction)
    requires Sees(v, s) && CellSound(s, v.name, c)
    ensures CellSound(s, v.name, CellAfter(v, c, a))
  {
    match a
    case Step(o) =>
      if c.flight.Some? {
        StepKeepsCell(s, v, c, o);
      }
    case AddFinalizer | Fetch | Patch(_) | Abandon => BoundaryKeepsCell(s, v, c, a);
    case _ => EnvironmentKeepsCell(s, v, c, a);
  }

  // ---- labels ----------------------------------------------------------------------------------

  predicate Labelled(s: State, m: Machine, config: Config) {
    Passes(ControlPlaneFilter(s.clusterName, s.namespace), config) == m.controlPlane
  }

  /** As long as the LXCMachine exists, its instance and its pending create operation pass the control
      plane filter exactly when it is a control plane machine. */
  predicate CellLabelled(s: State, c: Cell) {
    c.machine.Some? ==>
      && (c.inst.Some? ==> Labelled(s, c.machine.value, c.inst.value.config))
      && (c.op.Some? ==> Labelled(s, c.machine.value, c.op.value))
  }

  ghost predicate AllLabelled(s: State) {
    forall n | n in s.cells :: CellLabelled(s, s.cells[n])
  }

  /** Which configurations an action can leave on a cell. */
  lemma ConfigOrigin(v: View, c: Cell, a: CellAction)
    requires c.flight.Some? ==> c.machine.Some?
    ensures var c' := CellAfter(v, c, a);
      && (c'.inst.Some? ==>
            || (c.inst.Some? && c'.inst.value.config == c.inst.value.config)
            || (c.op.Some? && c'.inst.value.config == c.op.value))
      && (c'.op.Some? && c'.op != c.op ==>
            c.machine.Some? && c.flight.Some? && c'.op.value == LaunchConfig(v, c.flight.value.local))
      && (c'.machine.Some? ==> c.machine.Some? && c'.machine.value.controlPlane == c.machine.value.controlPlane)
  {
  }

  lemma ActionKeepsLabels(s: State, v: View, c: Cell, a: CellAction)
    requires Sees(v, s) && CellSound(s, v.name, c) && CellLabelled(s, c)
    ensures CellLabelled(s, CellAfter(v, c, a))
  {
    ConfigOrigin(v, c, a);
    if c.flight.Some? {
      var m := c.flight.value.local;
      MachineInstancePasses(
        m.userConfig, s.clusterName, s.namespace, v.name, m.controlPlane, s.clusterName, s.namespace);
    }
  }

  // ---- runs ------------------------------------------------------------------------------------

  /** An action on a machine leaves the cluster's objects alone. */
  lemma CellActionFrame(s: State, n: Name, act: CellAction)
    ensures var t := Apply(s, On(n, act));
      && t.lxc == s.lxc && t.clusterDeleting == s.clusterDeleting && t.infraReady == s.infraReady
      && t.lb.present == s.lb.present && t.cells.Keys == s.cells.Keys
  {
  }

  /** An action changes at most the cell it names. */
  lemma ApplyFrame(s: State, a: Action, n: Name)
    requires n in s.cells
    ensures n in Apply(s, a).cells
    ensures Apply(s, a).clusterName == s.clusterName && Apply(s, a).namespace == s.namespace
    ensures s.clusterDeleting ==> Apply(s, a).clusterDeleting
    ensures Apply(s, a).cells[n]
      == if a.On? && a.name == n then CellAfter(ViewOf(s, n), s.cells[n], a.act) else s.cells[n]
  {
  }

  lemma ApplyKeepsSound(s: State, a: Action)
    requires Sound(s) && AllLabelled(s)
    ensures Sound(Apply(s, a)) && AllLabelled(Apply(s, a))
  {
    var s' := Apply(s, a);
    forall n | n in s'.cells
      ensures CellSound(s', n, s'.cells[n]) && CellLabelled(s', s'.cells[n])
    {
      if n in s.cells {
        ApplyFrame(s, a, n);
        if a.On? {
          ActionKeepsCell(s, ViewOf(s, n), s.cells[n], a.act);
          ActionKeepsLabels(s, ViewOf(s, n), s.cells[n], a.act);
        }
      }
    }
  }

  /** Every run from a sound state stays sound. */
  lemma {:induction false} RunKeepsSound(s: State, actions: seq<Action>)
    requires Sound(s) && AllLabelled(s)
    ensures Sound(Exec(s, actions)) && AllLabelled(Exec(s, actions))
    decreases |actions|
  {
    if actions != [] {
      ApplyKeepsSound(s, actions[0]);
      RunKeepsSound(Apply(s, actions[0]), actions[1..]);
    }
  }
}
