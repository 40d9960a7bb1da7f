/** The control plane endpoint of a cluster: creating the load balancer and publishing its address.

    Models internal/controller/lxccluster/controller_normal.go and the Create methods of the load balancer
    managers. */
module Endpoint {
  import opened Common
  import opened Labels
  import opened Launch
  import opened LaunchOptions

  /** A manager is chosen by the spec; the address of the last three is the endpoint host. */
  datatype Manager = Lxc | Oci(supported: bool) | Ovn(networkName: string) | External | KubeVip

  /** A terminal error is reported and not retried. */
  datatype Created = Addresses(addresses: seq<string>) | Transient | Terminal

  /** What OVN calls answer: whether the server supports load balancers, which networks exist, whether
      reading and creating a load balancer succeed. */
  datatype OvnAnswers = OvnAnswers(supported: bool, networks: set<string>, read: bool, create: bool)

  /** What the cluster's spec asks of a load balancer instance. */
  datatype LoadBalancerSpec = LoadBalancerSpec(profiles: seq<string>, flavor: string, image: Image)

  /** What an OCI image needs to run under Incus. */
  function FilesOf(m: Manager): seq<FileOp> {
    if m.Oci? then [Symlink("/init", "/usr/sbin/haproxy"), CreateFile("/etc/environment", "")] else []
  }

  datatype Listener = Listener(network: string, address: string)

  /** The labels of the cluster are on the load balancer. A missing label reads as empty. */
  predicate OwnedBy(config: Config, clusterName: string, namespace: string) {
    && (if "user.cluster-name" in config then config["user.cluster-name"] else "") == clusterName
    && (if "user.cluster-namespace" in config then config["user.cluster-namespace"] else "") == namespace
  }

  /** What creating the load balancer of a cluster at a host came to. */
  ghost predicate Obtained(
    m: Manager, host: string, name: string, namespace: string, server: Server, instance: string,
    a: OvnAnswers, balancers: map<Listener, Config>, r: Created)
  {
    match m
    case Lxc =>
      && (r.Addresses? ==> Answered(server.polls, r.addresses))
      && (CanLaunch(server, instance, map[], FilesOf(m), map[]) ==> r.Addresses?)
    case Oci(supported) =>
      && (r.Addresses? ==> supported && Answered(server.polls, r.addresses))
      && (supported && CanLaunch(server, instance, map[], FilesOf(m), map[]) ==> r.Addresses?)
      && (!supported ==> r.Terminal?)
    case Ovn(networkName) =>
      && (r.Addresses? <==> CanListen(balancers, networkName, host, name, namespace, a))
      && (r.Addresses? ==> r.addresses == [host])
    case _ => !r.Transient? && (r.Addresses? <==> host != "") && (r.Addresses? ==> r.addresses == [host])
  }

  /** The server can listen at the address for this cluster: the network is there, and the load balancer at the
      address is that of the cluster or can be created. */
  predicate CanListen(
    balancers: map<Listener, Config>, networkName: string, listenAddress: string, clusterName: string,
    namespace: string, a: OvnAnswers)
  {
    var key := Listener(networkName, listenAddress);
    && networkName != "" && a.supported && networkName in a.networks && a.read
    && if key in balancers then OwnedBy(balancers[key], clusterName, namespace) else a.create
  }

  class OvnServer {
    var balancers: map<Listener, Config>

    constructor ()
      ensures balancers == map[]
    {
      balancers := map[];
    }

    /** managerOVN.Create: an existing load balancer is used only if it carries the labels of this cluster,
        and no other load balancer is ever touched. */
    method Create(networkName: string, listenAddress: string, clusterName: string, namespace: string, a: OvnAnswers)
      returns (r: Created)
      modifies this
      ensures r.Addresses? ==> r.addresses == [listenAddress] && networkName != ""
      ensures r.Addresses? ==>
        && Listener(networkName, listenAddress) in balancers
        && OwnedBy(balancers[Listener(networkName, listenAddress)], clusterName, namespace)
      ensures !r.Addresses? ==> balancers == old(balancers)
      ensures forall key | key in old(balancers) :: key in balancers && balancers[key] == old(balancers[key])
      ensures forall key | key in balancers && key != Listener(networkName, listenAddress) :: key in old(balancers)
      ensures networkName != "" && a.supported && networkName in a.networks && a.read ==>
        (r.Terminal? <==> Listener(networkName, listenAddress) in old(balancers)
                          && !OwnedBy(old(balancers[Listener(networkName, listenAddress)]), clusterName, namespace))
      ensures networkName == "" || !a.supported || networkName !in a.networks ==> r.Terminal?
      ensures r.Addresses? <==> CanListen(old(balancers), networkName, listenAddress, clusterName, namespace, a)
    {
      if networkName == "" {
        return Terminal;
      }
      if !a.supported {
        return Terminal;
      }
      if networkName !in a.networks {
        return Terminal;
      }
      if !a.read {
        return Transient;
      }
      var key := Listener(networkName, listenAddress);
      if key in balancers {
        var config := balancers[key];
        if ValueOf(config, CLUSTER_NAME) != clusterName || ValueOf(config, CLUSTER_NAMESPACE) != namespace {
          return Terminal;
        }
        return Addresses([listenAddress]);
      }
      if !a.create {
        return Transient;
      }
      KeysDiffer();
      balancers := balancers[key := map[CLUSTER_NAME := clusterName, CLUSTER_NAMESPACE := namespace]];
      return Addresses([listenAddress]);
    }
  }

  lemma FiledAll(
    files: seq<FileOp>, head: seq<Event>, t: seq<Event>, f: seq<Event>, p: seq<Event>, last: seq<Event>)
    requires f == Filed(files)
    ensures forall op | op in files :: Event(File(op), true) in head + (t + f + p) + last
  {
    forall op | op in files ensures Event(File(op), true) in head + (t + f + p) + last {
      var i :| 0 <= i < |files| && files[i] == op;
      assert f[i] == Event(File(op), true);
    }
  }

  /** The launch of a load balancer instance; whatever went wrong is retried. */
  method LaunchWith(launcher: Launcher, post: Post, files: seq<FileOp>) returns (r: Created)
    modifies launcher
    ensures !r.Terminal? && (r.Addresses? ==> Answered(launcher.server.polls, r.addresses))
    ensures CanLaunch(launcher.server, launcher.name, map[], files, map[]) ==> r.Addresses?
    ensures old(launcher.log) <= launcher.log
    ensures forall e | e in launcher.log[|old(launcher.log)|..] && e.request.Create? :: e.request.post == post
    ensures r.Addresses? && !launcher.server.present ==>
      forall op | op in files :: Event(File(op), true) in launcher.log
  {
    var launched, head, t, f, p, last := launcher.WaitForLaunchInstance(post, map[], files, map[]);
    assert launcher.log[|old(launcher.log)|..] == head + (t + f + p) + last;
    if launched.Success? && !launcher.server.present {
      FiledAll(files, head, t, f, p, last);
    }
    r := if launched.Success? then Addresses(launched.value) else Transient;
  }

  /** managerExternal.Create and managerKubeVIP.Create. */
  method CreateAtAddress(address: string) returns (r: Created)
    ensures r == if address == "" then Terminal else Addresses([address])
  {
    if address == "" {
      return Terminal;
    }
    return Addresses([address]);
  }

  const DEFAULT_SIMPLESTREAMS := "https://d14dnvi2l3tc5t.cloudfront.net"
  const OCI_ENTRYPOINT := "/init -W -db -f /usr/local/etc/haproxy/haproxy.cfg"

  ghost predicate PassesNoFilter(config: Config) { forall n, ns :: !Passes(ControlPlaneFilter(n, ns), config) }

  class Cluster {
    const name: string
    const namespace: string
    const manager: Manager
    const ovn: OvnServer
    const spec: LoadBalancerSpec
    var host: string
    var port: int
    var ready: bool
    var available: bool

    constructor (
      name: string, namespace: string, manager: Manager, ovn: OvnServer, spec: LoadBalancerSpec, host: string,
      port: int)
      ensures this.name == name && this.namespace == namespace && this.manager == manager && this.ovn == ovn
      ensures this.spec == spec
      ensures this.host == host && this.port == port && !ready && !available
    {
      this.name, this.namespace, this.manager, this.ovn, this.spec := name, namespace, manager, ovn, spec;
      this.host, this.port, ready, available := host, port, false, false;
    }

    /** The configuration of a load balancer instance. */
    function InstanceConfig(): Config {
      (if manager.Oci? then map["oci.entrypoint" := OCI_ENTRYPOINT] else map[]) + LoadBalancerLabels(name, namespace)
    }

    /** The labels of the load balancer of this cluster, and what an OCI image runs. */
    ghost predicate Labels(config: Config) {
      && Lookup(config, "user.cluster-name") == Some(name)
      && Lookup(config, "user.cluster-namespace") == Some(namespace)
      && Lookup(config, "user.cluster-role") == Some("loadbalancer")
      && (manager.Oci? ==>
            Lookup(config, "oci.entrypoint") == Some("/init -W -db -f /usr/local/etc/haproxy/haproxy.cfg"))
    }

    /** The image of the manager. */
    function DefaultImage(): Image {
      if manager.Oci? then
        Image("oci", "https://ghcr.io", "lxc/cluster-api-provider-incus/haproxy:v20230606-42a2262b", "")
      else Image("simplestreams", DEFAULT_SIMPLESTREAMS, "haproxy", "")
    }

    function InstancePost(): Post {
      Post(InstanceConfig(), map[], spec.profiles, if Ignored(spec.image) then DefaultImage() else spec.image,
           "container", spec.flavor)
    }

    /** The create request asks for what the spec and the manager say. */
    ghost predicate Asks(post: Post) {
      && Labels(post.config) && post.devices == map[] && post.profiles == spec.profiles && post.flavor == spec.flavor
      && post.instanceType == "container"
      && post.image
         == if spec.image.Image? && spec.image.alias == "" && spec.image.fingerprint == "" then DefaultImage()
            else spec.image
    }

    lemma InstancePassesNone()
      ensures PassesNoFilter(InstanceConfig()) && Labels(InstanceConfig())
    {
      KeysDiffer();
      assert "oci.entrypoint"[0] == 'o';
      assert CLUSTER_NAME[0] == CLUSTER_NAMESPACE[0] == CLUSTER_ROLE[0] == 'u';
      forall other, ns ensures !Passes(ControlPlaneFilter(other, ns), InstanceConfig()) {
        LoadBalancerPassesNone(if manager.Oci? then map["oci.entrypoint" := OCI_ENTRYPOINT] else map[],
                               name, namespace, other, ns);
      }
    }

    /** The load balancer instance of managerLXC and managerOCI. */
    method LaunchInstance(launcher: Launcher) returns (r: Created)
      modifies launcher
      ensures !r.Terminal? && (r.Addresses? ==> Answered(launcher.server.polls, r.addresses))
      ensures CanLaunch(launcher.server, launcher.name, map[], FilesOf(manager), map[]) ==> r.Addresses?
      ensures old(launcher.log) <= launcher.log
      ensures forall e | e in launcher.log[|old(launcher.log)|..] && e.request.Create? ::
        PassesNoFilter(e.request.post.config) && Asks(e.request.post)
      ensures r.Addresses? && !launcher.server.present ==>
        forall op | op in FilesOf(manager) :: Event(File(op), true) in launcher.log
    {
      InstancePassesNone();
      r := LaunchWith(launcher, InstancePost(), FilesOf(manager));
    }

    /** Manager.Create: on success there is always at least one address. An instance that it creates passes no
        control plane filter, so a load balancer is never its own backend. */
    method CreateLoadBalancer(launcher: Launcher, a: OvnAnswers) returns (r: Created)
      modifies launcher, ovn
      ensures r.Addresses? ==> r.addresses != []
      ensures Obtained(manager, host, name, namespace, launcher.server, launcher.name, a, old(ovn.balancers), r)
      ensures r.Addresses? && manager.Ovn? ==>
        && Listener(manager.networkName, host) in ovn.balancers
        && OwnedBy(ovn.balancers[Listener(manager.networkName, host)], name, namespace)
      ensures !manager.Ovn? ==> ovn.balancers == old(ovn.balancers)
      ensures old(launcher.log) <= launcher.log
      ensures forall e | e in launcher.log[|old(launcher.log)|..] && e.request.Create? ::
        PassesNoFilter(e.request.post.config) && Asks(e.request.post)
      ensures (manager.Lxc? || manager.Oci?) && r.Addresses? && !launcher.server.present ==>
        forall op | op in FilesOf(manager) :: Event(File(op), true) in launcher.log
    {
      match manager
      case Ovn(networkName) =>
        r := ovn.Create(networkName, host, name, namespace, a);
      case External =>
        r := CreateAtAddress(host);
      case KubeVip =>
        r := CreateAtAddress(host);
      case _ =>
        if manager == Oci(false) {
          return Terminal;
        }
        r := LaunchInstance(launcher);
    }

    /** reconcileNormal. A host or port that is set is never changed; after a success both the status is
        ready and the port is set, and the host is the first address unless it was set before. */
    method ReconcileNormal(launcher: Launcher, a: OvnAnswers)
      returns (retry: bool, ghost created: Created)
      modifies this, launcher, ovn
      ensures old(host) != "" ==> host == old(host)
      ensures old(port) != 0 ==> port == old(port)
      ensures old(ready) ==> ready
      ensures created.Addresses? ==> created.addresses != []
      ensures Obtained(manager, old(host), name, namespace, launcher.server, launcher.name, a,
                       old(ovn.balancers), created)
      ensures (host, port, ready) == Publish(old((host, port, ready)), created)
      ensures available == created.Addresses?
      ensures retry == created.Transient?
      ensures created.Addresses? && old(host) == "" && host == "" ==> manager.Ovn? || manager.Lxc? || manager.Oci?
    {
      var lbIPs := CreateLoadBalancer(launcher, a);
      created := lbIPs;
      if !lbIPs.Addresses? {
        available := false;
        return lbIPs.Transient?, created;
      }
      if host == "" {
        host := lbIPs.addresses[0];
      }
      if port == 0 {
        port := 6443;
      }
      ready := true;
      available := true;
      retry := false;
    }
  }

  // ---- over many reconciles --------------------------------------------------------------------

  type Published = (string, int, bool)

  function Publish(e: Published, created: Created): Published
    requires created.Addresses? ==> created.addresses != []
  {
    if !created.Addresses? then e
    else (if e.0 == "" then created.addresses[0] else e.0, if e.1 == 0 then 6443 else e.1, true)
  }

  predicate Nonempty(outcomes: seq<Created>) {
    forall i | 0 <= i < |outcomes| :: outcomes[i].Addresses? ==> outcomes[i].addresses != []
  }

  function PublishAll(e: Published, outcomes: seq<Created>): Published
    requires Nonempty(outcomes)
  {
    if outcomes == [] then e else Publish(PublishAll(e, outcomes[..|outcomes| - 1]), outcomes[|outcomes| - 1])
  }

  /** The endpoint that a run of reconciles publishes is fixed by the first one that succeeds: from then on
      the port is set and the status ready, and a host that is not empty never changes. */
  lemma {:induction false} EndpointIsStable(e: Published, outcomes: seq<Created>, later: seq<Created>)
    requires Nonempty(outcomes) && Nonempty(outcomes + later)
    ensures var now, then_ := PublishAll(e, outcomes), PublishAll(e, outcomes + later);
      && (now.0 != "" ==> then_.0 == now.0)
      && (now.1 != 0 ==> then_.1 == now.1)
      && (now.2 ==> then_.2)
  {
    if later == [] {
      assert outcomes + later == outcomes;
    } else {
      var init, all := later[..|later| - 1], outcomes + later;
      assert all[..|all| - 1] == outcomes + init;
      EndpointIsStable(e, outcomes, init);
    }
  }

  /** A success whose first address is not empty. */
  predicate Names(c: Created)
    requires c.Addresses? ==> c.addresses != []
  {
    c.Addresses? && c.addresses[0] != ""
  }

  /** A cluster that starts without an endpoint is ready exactly when some reconcile succeeded, and its host
      is then the first non-empty first address that a reconcile obtained. */
  lemma {:induction false} ReadyMeansPublished(outcomes: seq<Created>)
    requires Nonempty(outcomes)
    ensures var e := PublishAll(("", 0, false), outcomes);
      && (e.2 <==> exists i | 0 <= i < |outcomes| :: outcomes[i].Addresses?)
      && (e.1 == if e.2 then 6443 else 0)
      && (e.0 != "" <==> exists i | 0 <= i < |outcomes| :: Names(outcomes[i]))
      && (forall i | 0 <= i < |outcomes| && Names(outcomes[i]) && (forall j | 0 <= j < i :: !Names(outcomes[j])) ::
            e.0 == outcomes[i].addresses[0])
  {
    if outcomes != [] {
      var init, last := outcomes[..|outcomes| - 1], outcomes[|outcomes| - 1];
      ReadyMeansPublished(init);
      assert forall i | 0 <= i < |init| :: init[i] == outcomes[i];
      if PublishAll(("", 0, false), init).0 == "" {
        assert forall i | 0 <= i < |init| :: !Names(init[i]);
      } else {
        var i :| 0 <= i < |init| && Names(init[i]);
        assert Names(outcomes[i]);
      }
      assert (exists i | 0 <= i < |outcomes| :: outcomes[i].Addresses?)
        <==> last.Addresses? || exists i | 0 <= i < |init| :: init[i].Addresses?;
    }
  }
}
