/** Instance configuration keys and the filter that lists control plane instances.

    Models the label precedence of internal/controller/lxcmachine/controller_util_launch.go and the
    filters of internal/lxc/client_instances_list.go and internal/loadbalancer/util.go. */
module Labels {
  type Config = map<string, string>

  const CLUSTER_NAME := "user.cluster-name"
  const CLUSTER_NAMESPACE := "user.cluster-namespace"
  const MACHINE_NAME := "user.machine-name"
  const CLUSTER_ROLE := "user.cluster-role"

  /** Indexing a Go map: a missing key reads as the empty string. */
  function ValueOf(config: Config, key: string): string {
    if key in config then config[key] else ""
  }

  predicate Passes(filter: Config, config: Config) {
    forall key | key in filter :: ValueOf(config, key) == filter[key]
  }

  function ControlPlaneFilter(clusterName: string, namespace: string): Config {
    map[CLUSTER_NAME := clusterName, CLUSTER_NAMESPACE := namespace, CLUSTER_ROLE := "control-plane"]
  }

  function Role(controlPlane: bool): string {
    if controlPlane then "control-plane" else "worker"
  }

  function MachineLabels(clusterName: string, namespace: string, machine: string, role: string): Config {
    map[CLUSTER_NAME := clusterName, CLUSTER_NAMESPACE := namespace, MACHINE_NAME := machine, CLUSTER_ROLE := role]
  }

  function LoadBalancerLabels(clusterName: string, namespace: string): Config {
    map[CLUSTER_NAME := clusterName, CLUSTER_NAMESPACE := namespace, CLUSTER_ROLE := "loadbalancer"]
  }

  /** Keys distinct from each other, so that no label write hides another. */
  lemma KeysDiffer()
    ensures CLUSTER_NAME != CLUSTER_NAMESPACE && CLUSTER_NAME != MACHINE_NAME && CLUSTER_NAME != CLUSTER_ROLE
    ensures CLUSTER_NAMESPACE != MACHINE_NAME && CLUSTER_NAMESPACE != CLUSTER_ROLE && MACHINE_NAME != CLUSTER_ROLE
  {
  }

  /** Whatever configuration `base` the profile, the cloud-init data and the user supply, an instance
      launched for a machine passes the control plane filter of its own cluster exactly when the
      machine is a control plane machine, and never that of another cluster or namespace. */
  lemma MachineInstancePasses(base: Config, clusterName: string, namespace: string, machine: string, controlPlane: bool,
                              otherName: string, otherNamespace: string)
    ensures Passes(ControlPlaneFilter(otherName, otherNamespace),
                   base + MachineLabels(clusterName, namespace, machine, Role(controlPlane)))
       <==> controlPlane && otherName == clusterName && otherNamespace == namespace
  {
    KeysDiffer();
    var config := base + MachineLabels(clusterName, namespace, machine, Role(controlPlane));
    var filter := ControlPlaneFilter(otherName, otherNamespace);
    assert ValueOf(config, CLUSTER_NAME) == clusterName;
    assert ValueOf(config, CLUSTER_NAMESPACE) == namespace;
    assert ValueOf(config, CLUSTER_ROLE) == Role(controlPlane);
    assert filter[CLUSTER_NAME] == otherName && filter[CLUSTER_NAMESPACE] == otherNamespace;
    assert filter[CLUSTER_ROLE] == "control-plane" && "worker"[0] != "control-plane"[0];
  }

  /** A load balancer instance passes no control plane filter. */
  lemma LoadBalancerPassesNone(base: Config, clusterName: string, namespace: string,
                               otherName: string, otherNamespace: string)
    ensures !Passes(ControlPlaneFilter(otherName, otherNamespace), base + LoadBalancerLabels(clusterName, namespace))
  {
    KeysDiffer();
    var config := base + LoadBalancerLabels(clusterName, namespace);
    assert ValueOf(config, CLUSTER_ROLE) == "loadbalancer" && "loadbalancer"[0] != "control-plane"[0];
    assert CLUSTER_ROLE in ControlPlaneFilter(otherName, otherNamespace);
    assert ControlPlaneFilter(otherName, otherNamespace)[CLUSTER_ROLE] == "control-plane";
  }
}
