# Verified model of cluster-api-provider-incus

A Dafny model of the parts of cluster-api-provider-incus that keep state consistent across failures,
retries and concurrency, with proofs of what they promise. `dafny verify dfyconfig.toml` checks all of it.

## What is modelled

**The reconcile protocol** (`Protocol`, `ServerListing`, `Freshness`, `Race`, `Lifecycle`, `Teardown`, `Progress`,
`Reconciler`, `ClusterReconciler`). The LXCMachine and LXCCluster controllers, the Incus server, the load balancer
and the environment are one transition system. Every call that a reconcile makes is a step of its own; steps of
different reconciles interleave freely; each call may succeed, fail without effect, or fail after the server
applied it; a controller may stop anywhere; a closing patch may be lost. The theorems speak about every run.
`Reconciler` and `ClusterReconciler` hold the controllers as sequential methods, following the source
function by function, and prove that what they do under arbitrary interference is such a run.

**The simplestreams index** (`Tarball`, `Catalog`, `Reading`, `Agreement`, `Commuting`,
`IndexCode`). An import is a plan
computed from the tarball, and carrying a plan out is a sequence of writes that may stop anywhere.
`IndexCode` holds the code over a mutable directory and proves that it carries out exactly that plan.

**Launching** (`LaunchOptions`, `Launches`, `Launch`, `Replacements`, `Devices`, `Labels`, `Backends`,
`Endpoint`, `Order`, `Text`). The builder over shared mutable maps, the launch of one instance with its
requests in order, a kind machine from its spec to its start, the replacement loop over a map in random order,
the device specification parser, labels and the filter that reads them, backends, and the published endpoint.

**The docker shim of kini** (`DockerShim`). Flags of `docker run` become devices and `docker inspect` recovers
the published address from them.

A Go map is iterated in an arbitrary order: loops over maps pick any key that is left.

### Assumptions

- An LXCMachine name is used once and its instance name is unique in the Incus project.
- An operation that is gone has finished; the object it would have created then exists or does not.
- An object is not reconciled twice at once. A closing patch is atomic or lost. Reads are current.
- Instances, addresses and the load balancer change only through the controllers and the modelled server moves;
  an instance keeps the addresses it got until it stops.
- The LXCCluster is deleted only together with its Cluster, a Machine outlives its LXCMachine, and no machine is
  created while the Cluster is being deleted.
- SHA-256 and the tar.gz writer are injective. YAML, tar, gzip, qemu-img, time formatting (fixed zone) and path
  cleaning are functions that the model is given. A write of one file is atomic.

### Where a promise fails

- A backend can go wrong, and stay so while nobody creates or deletes a machine, when a Reconfigure lists while an
  older listing that has its machine wrong is still to be written, which the controllers allow
  (`Race.OverlappingReconfiguresCanStrand`). Otherwise it cannot (`Freshness.StaleEntryIsOwed`), and
  `Race.OrderIsExact` states both halves for each listing.
- An instance leaks when a delete reconcile starts while its create operation is pending
  (`Lifecycle.EarlyDeleteHappens`, and from every such state `Lifecycle.EarlyDeleteCanLeak`); otherwise never
  (`Lifecycle.NoLeakedInstance`).
- An LXCMachine outlives its LXCCluster when a listing of Machines fails while one is left, or when an LXCCluster that
  has no finalizer yet is deleted then (`Teardown.EarlyRemovalHappens`); if it is idle and has its finalizer, it keeps
  it for ever (`Teardown.OrphanIsStuck`). Otherwise it never does; `Teardown.OrphansExactly` states both halves.
- A machine delete can reconfigure a load balancer that is gone if and only if the Cluster is deleted while a
  control plane delete is in flight before its closing patch (`Teardown.LateReconfigureExactly`). The attempt fails
  harmlessly (`Teardown.LateReconfigureFails`).
- A VM import with one server flag can leave the items of the other server describing a file that is gone
  (`Agreement.OneFlagBreaks`); `Agreement.NextRequestAgrees` gives the exact condition.
- A container and a VM import of one product do not commute when both set different aliases;
  `Commuting.ContainerAndVmCommute` gives the exact condition.
- The replacement loop can depend on the iteration order (`Replacements.TwoOrdersTwoTexts`). For patterns with markers
  of their own it does not if and only if no replacement can complete another pattern
  (`Replacements.OrderFreeExactly`).
- The comment on replacements expects them to be idempotent; for such patterns they are if and only if no replacement
  can complete a pattern, its own included (`Replacements.IdempotentExactly`). Those of the kind entrypoint are, and so
  is that of the pod network when the network starts with a digit (`Launches.PodSubnetIsIdempotent`).
- `docker inspect` prints a host and port in lower case whatever their case was (`DockerShim.RunThenInspect`).

## Model

| member | source | states |
|---|---|---|
| `Protocol.Listing` | internal/loadbalancer/util.go:18-38 | for every name the listing has exactly the first of the sorted addresses of a passing instance that has one |
| `ServerListing.RunKeepsSorted` | internal/lxc/client_parse_addresses.go:44-46 | the addresses of every instance are sorted in every run |
| `ServerListing.ListingIsConfiguration` | internal/loadbalancer/util.go:10-38 | in every run the listing equals what the load balancer code computes from the instances and network states of the server: each passing instance at its least address |
| `Protocol.CreateStep` | internal/controller/lxcmachine/controller_normal.go:22-72 | provisioning up to the create request changes no API object and no instance, and requests at most the configuration of this machine; `Lifecycle.CallsGoInOrder` and `Lifecycle.LaunchWaitsForBootstrap` say when |
| `Protocol.StartStep` | internal/lxc/client_instances.go:131-155 | starting and waiting never creates or removes an instance and never changes its configuration |
| `Protocol.DeleteStep` | internal/controller/lxcmachine/controller_delete.go:19-37 | deleting changes no API object, creates no instance and leaves pending operations alone |
| `Protocol.ReconfigureStep` | internal/loadbalancer/manager_lxc.go:71-111 | list, write, reload: only the progress of this reconcile changes |
| `Protocol.ConfigOrigin` | internal/lxc/client_instances.go:30-61 | an instance's configuration comes from its create operation, and that from the launch of the machine |
| `Protocol.ApplyKeepsSound` | internal/controller/lxcmachine/controller_normal.go:22-104 | one action of anyone keeps the invariant of every machine, its reconcile in flight and its labels |
| `Protocol.RunKeepsSound` | internal/controller/lxcmachine/controller.go:67-166 | so does every run |
| `Freshness.ApplyKeepsFresh` | internal/loadbalancer/manager_lxc.go:71-111 | an orderly action keeps the active and the written backends in agreement with the server at every settled machine, and every listing still to be written also at every machine with an open Reconfigure |
| `Freshness.RunKeepsFresh` | internal/controller/lxcmachine/controller_normal.go:87-101 | so does every orderly run |
| `Freshness.NoOverlapIsOrderly` | internal/loadbalancer/manager_lxc.go:71-111 | runs in which Reconfigure calls do not overlap are orderly |
| `Freshness.StaleEntryIsOwed` | internal/controller/lxcmachine/controller_delete.go:35-48 | in every orderly run with faults and lost patches, an active or written backend entry that differs from the server listing belongs to a control plane machine that holds its finalizer and is unconfigured or deleting |
| `Freshness.NothingOwedMeansFresh` | internal/controller/lxcmachine/controller_normal.go:90-98 | when no machine owes a refresh the proxy serves exactly the listing, and would after a restart |
| `Race.OverlapStrands` | internal/loadbalancer/manager_lxc.go:77-108 | from every sound state in which one reconcile is about to list and another control plane machine waits for its address, a fault-free continuation leaves a configured machine out of the load balancer, whichever kind it is |
| `Race.DisorderStrands` | internal/loadbalancer/manager_ovn.go:81-125 | every listing taken while an older listing with its machine wrong is still to be written can strand that machine, without a fault and without further disorder |
| `Race.OrderIsExact` | internal/loadbalancer/manager_lxc.go:71-111 | from a fresh state, taking a listing now can strand its machine in an otherwise orderly run if and only if the listing is out of order |
| `Race.OverlappingReconfiguresCanStrand` | cmd/main.go:289-291 | a fault-free run from the start of any cluster ends with every machine configured and a backend missing, and it stays missing in every continuation in which nobody creates or deletes a machine or deletes the Cluster |
| `Race.RestingForGood` | internal/controller/lxcmachine/controller_normal.go:31-48 | once every machine is provisioned and none deleted, no reconcile, fault or server move changes the load balancer or the listing |
| `Lifecycle.StatusIsSound` | internal/controller/lxcmachine/controller_normal.go:87-101 | in every run a providerID is `lxc:///name`, ready implies it, and a control plane machine has it only after its load balancer was configured |
| `Lifecycle.LaunchWaitsForBootstrap` | internal/controller/lxcmachine/controller_normal.go:22-63 | in every run from the start, while its LXCMachine exists, an instance or a pending create implies that the infrastructure of the cluster and the bootstrap data of the machine are there |
| `Lifecycle.CallsGoInOrder` | internal/controller/lxcmachine/controller_normal.go:22-104 | every call of a reconcile comes after the call and the answer that it must, changes the instance and the create operation as that call does and nothing else, and records readiness, providerID, load balancer and finalizer exactly when it may |
| `Lifecycle.InstanceIsConfigured` | internal/controller/lxcmachine/controller_util_launch.go:81-100 | in every run from the start an instance has the four labels of its machine and cluster, and otherwise exactly the configuration that the user gave the machine |
| `Lifecycle.ProvisionedOnce` | internal/controller/lxcmachine/controller_normal.go:31-48 | once set, the providerID never changes and no instance is requested or created for the machine again |
| `Lifecycle.GoneForGood` | internal/controller/lxcmachine/controller.go:70-77 | a removed LXCMachine stays removed, nothing is requested in its name, and nothing is created unless a create was still pending |
| `Lifecycle.RunKeepsOwned` | internal/controller/lxcmachine/controller.go:140-165 | instances and pending creates keep an owner with a finalizer in every run that starts no delete during a create |
| `Lifecycle.NoLeakedInstance` | internal/controller/lxcmachine/controller_delete.go:35-48 | in every such run an instance or a pending create implies an LXCMachine with its finalizer |
| `Lifecycle.EarlyDeleteCanLeak` | internal/lxc/client_instances.go:181-197 | from every state that breaks the rule a fault-free continuation leaves an instance without an LXCMachine |
| `Lifecycle.EarlyDeleteHappens` | internal/controller/lxcmachine/controller_delete.go:33-37 | a run from the start of any cluster that leaks an instance this way, the Cluster staying |
| `Teardown.NoOrphanedMachine` | internal/controller/lxccluster/controller_delete.go:42-51 | when no listing fails while an LXCMachine is left, and no LXCCluster without a finalizer is deleted then, no LXCMachine outlives its LXCCluster in any run |
| `Teardown.FailedListingOrphans` | internal/controller/lxccluster/controller_delete.go:42-51 | every listing that fails while an LXCMachine is left lets the closing patch remove the LXCCluster with it left |
| `Teardown.EarlyRemovalOrphans` | internal/controller/lxccluster/controller.go:89-92 | every deletion of an LXCCluster that has no finalizer yet, while an LXCMachine is left, orphans it |
| `Teardown.OrphansExactly` | internal/controller/lxccluster/controller.go:89-118 | an action can lead to an orphaned LXCMachine, in a run that keeps both rules otherwise, if and only if it breaks one of them |
| `Teardown.OrphanIsStuck` | internal/controller/lxcmachine/controller.go:118-127 | an idle LXCMachine orphaned with its finalizer keeps it for ever |
| `Teardown.EarlyRemovalHappens` | internal/controller/lxcmachine/controller.go:118-143 | a fault-free run from the start of any cluster that orphans an LXCMachine with its finalizer |
| `Teardown.DeleteLeavesLoadBalancerAlone` | internal/controller/lxcmachine/controller_delete.go:39-45 | when the Cluster is not deleted in the middle of a control plane delete, no machine delete touches the load balancer once the Cluster is being deleted |
| `Teardown.LateClusterDelete` | internal/controller/lxcmachine/controller_delete.go:39-45 | whenever the Cluster is deleted while a control plane delete is before its closing patch, a fault-free continuation has that delete reconfigure a load balancer that is gone |
| `Teardown.LateReconfigureExactly` | internal/controller/lxcmachine/controller_delete.go:39-45 | deleting the Cluster in a state can lead to a late reconfigure if and only if such a delete is in flight |
| `Teardown.LateReconfigureFails` | internal/loadbalancer/manager_lxc.go:94-108 | it then fails, keeps its finalizer and changes nothing |
| `Teardown.RankFalls` | internal/controller/lxcmachine/controller_delete.go:19-51 | every move of a leaving machine lowers its rank, a fault raising it by at most a constant |
| `Teardown.TeardownIsBounded` | internal/controller/lxccluster/controller_delete.go:22-54 | moves made plus work left never exceed the work at the start plus a constant for each fault, however steps interleave |
| `Teardown.TeardownProgresses` | internal/controller/lxccluster/controller_delete.go:22-54 | until everything is gone some move that is not a fault is possible |
| `Teardown.TeardownStarts` | internal/controller/lxccluster/controller_delete.go:22-54 | every run that has deleted the Cluster, the LXCCluster and the LXCMachines under the rules is such a teardown |
| `Teardown.InitMeetsInvariants` | internal/controller/lxcmachine/controller.go:140-143 | the start of a cluster meets every invariant used above |
| `Progress.LaunchRankFalls` | internal/controller/lxcmachine/controller_normal.go:22-104 | every move of a machine that is wanted lowers what is left to its provisioning, a fault raising it by at most a constant |
| `Progress.ProvisioningIsBounded` | internal/controller/lxcmachine/controller_normal.go:22-104 | however steps interleave, a wanted machine makes at most as many moves before it is provisioned as its work at the start and its faults allow |
| `Progress.ProvisioningProgresses` | internal/controller/lxcmachine/controller_normal.go:22-104 | until it is provisioned some move of it that is not a fault is possible |
| `Progress.DeletionIsBounded` | internal/controller/lxcmachine/controller_delete.go:19-51 | so for one deleted machine of a cluster that stays, its reconfiguring included |
| `Progress.DeletionProgresses` | internal/controller/lxcmachine/controller_delete.go:19-51 | until it is gone some move of it that is not a fault is possible |
| `Progress.AllDoneMeansFresh` | internal/controller/lxcmachine/controller_normal.go:87-101 | in every orderly run, once every control plane machine is provisioned or gone the proxy serves exactly the listing |
| `Reconciler.OthersKeepFlight` | internal/controller/lxcmachine/controller.go:67-166 | whatever others do, a reconcile in flight and its object stay |
| `Reconciler.ReadyMeansAlive` | internal/controller/lxcmachine/controller_normal.go:31-47 | for a provisioned machine that is not deleted, in a reconcile with infrastructure, without a fault and with a kept patch, the recorded ready holds if and only if the instance existed when the call was made |
| `Reconciler.MachineReconciler.WaitForLaunchInstance` | internal/lxc/client_instances.go:23-132 | under any interference, ends with an address and the load balancer next, or at the closing patch with the object untouched |
| `Reconciler.MachineReconciler.WaitForOperation` | internal/lxc/client_operations.go:42-62 | waits out the create; a vanished operation counts as done |
| `Reconciler.MachineReconciler.WaitForStartInstance` | internal/lxc/client_instances.go:135-155 | starts the instance and waits for an address |
| `Reconciler.MachineReconciler.WaitForDeleteInstance` | internal/lxc/client_instances.go:157-197 | ends with the instance gone, or at the closing patch with the object untouched; a missing instance is success |
| `Reconciler.MachineReconciler.Reconfigure` | internal/loadbalancer/manager_lxc.go:71-111 | list, write and reload in this order; only success is recorded |
| `Reconciler.MachineReconciler.ReconcileNormal` | internal/controller/lxcmachine/controller_normal.go:22-104 | is a run of the protocol that ends at the closing patch: a provisioned machine is recorded as ready exactly when its instance was there, one without infrastructure or bootstrap data is left as it is, any other is left as it is or recorded with its providerID, ready, and a configured load balancer for a control plane machine |
| `Reconciler.MachineReconciler.ReconcileDelete` | internal/controller/lxcmachine/controller_delete.go:19-51 | the same for the delete path, which at most drops the finalizer |
| `Reconciler.MachineReconciler.Reconcile` | internal/controller/lxcmachine/controller.go:67-166 | one whole reconcile is a run of the protocol, leaves nothing in flight, keeps the invariant, and a kept patch records exactly its result |
| `ClusterReconciler.OthersKeepCluster` | internal/controller/lxccluster/controller.go:56-123 | whatever others do, a cluster reconcile in flight and its object stay, and nobody else creates a load balancer |
| `ClusterReconciler.LxcClusterReconciler.ReconcileDelete` | internal/controller/lxccluster/controller_delete.go:22-54 | the Machines are listed only after the load balancer is gone, it stays gone, and the finalizer is dropped only when that listing failed or showed no Machine |
| `ClusterReconciler.LxcClusterReconciler.Reconcile` | internal/controller/lxccluster/controller.go:56-123 | one cluster reconcile is a run of the protocol; the object goes exactly when the finalizer was dropped and the patch kept, and then the load balancer is gone |
| `Labels.MachineInstancePasses` | internal/controller/lxcmachine/controller_util_launch.go:81-100 | for every other configuration, an instance of a machine passes a control plane filter if and only if the machine is a control plane machine and the filter is that of its cluster and namespace |
| `Labels.LoadBalancerPassesNone` | internal/loadbalancer/manager_lxc.go:37-41 | load balancer instances pass no control plane filter |
| `Order.SortSorts` | internal/lxc/client_parse_addresses.go:44-46 | sorting gives a sorted permutation |
| `Order.SortedIsUnique` | internal/lxc/client_parse_addresses.go:44-46 | there is only one sorted permutation |
| `Order.LeqMeans` | internal/lxc/client_parse_addresses.go:44-46 | the order is the lexicographic one: equal, a proper prefix, or smaller at the first difference, if and only if |
| `Order.SortAscends` | internal/lxc/client_parse_addresses.go:44-46 | in a sorted text list every later entry is equal or greater in that order |
| `Backends.ParseHostAddresses` | internal/lxc/client_parse_addresses.go:12-47 | the result holds exactly the usable addresses, each as often as it occurs, in ascending order, for every iteration order |
| `Backends.HostsAre` | internal/lxc/client_parse_addresses.go:17-42 | the host addresses are exactly those of global scope that are not a /32 or /128, of networks that have a host interface and are no loopback |
| `Backends.AddressesArePicked` | internal/lxc/client_parse_addresses.go:25-41 | no qualifying address of a network is lost, repeated or made up |
| `Backends.HostListIsUnique` | internal/lxc/client_parse_addresses.go:12-47 | so it depends on the server state alone |
| `Backends.MatchesConfig` | internal/lxc/client_instances_list.go:13-23 | the filter accepts exactly the instances whose configuration has every value of the filter |
| `Backends.ListInstances` | internal/lxc/client_instances_list.go:54-73 | the listing is the subsequence of matching instances |
| `Backends.FilteredMembers` | internal/lxc/client_instances_list.go:60-70 | an instance is listed if and only if it exists and matches |
| `Backends.GetLoadBalancerConfiguration` | internal/loadbalancer/util.go:10-38 | exactly the passing instances with a usable address are backends, each at the one that comes before all others |
| `Backends.LeastMeans` | internal/loadbalancer/util.go:30-33 | the least host in the sorting order is the usable address that no other comes before |
| `Backends.ConfigurationIsUnique` | internal/loadbalancer/util.go:18-38 | one server state gives one configuration |
| `Backends.OvnLists` | internal/loadbalancer/manager_ovn.go:105-120 | every backend occurs exactly once in the backend list and once, at the same place, in the target list |
| `Endpoint.OvnServer.Create` | internal/loadbalancer/manager_ovn.go:29-67 | succeeds exactly when the network is there and the load balancer at the address is that of this cluster or can be created; a foreign one is the terminal error, and no other load balancer changes |
| `Endpoint.Cluster.CreateLoadBalancer` | internal/loadbalancer/manager.go:30-93 | LXC and OCI succeed with the addresses of the first poll that has any, and always when the launch can succeed; OVN exactly when it can listen; external and kube-vip exactly with a host, never asking for a retry; a create request asks for the profiles, flavor and image of the spec with the labels of the load balancer, passes no control plane filter, and every file is in place on success |
| `Endpoint.Cluster.ReconcileNormal` | internal/controller/lxccluster/controller_normal.go:16-44 | a set host or port never changes; a success, whose address is the one that was obtained, sets host, port and ready; a failure changes none of them |
| `Endpoint.EndpointIsStable` | internal/controller/lxccluster/controller_normal.go:30-41 | over any further reconciles a non-empty host, a non-zero port and ready stay |
| `Endpoint.ReadyMeansPublished` | internal/controller/lxccluster/controller_normal.go:30-41 | over any run ready holds exactly after some success, the port is 6443 then, and the host is the first non-empty first address that a success had |
| `Launch.TryFindInstanceCreateOperation` | internal/lxc/client_instances_util.go:19-44 | returns an operation exactly when the first listed create of exactly this name can be fetched, and nothing exactly when none is listed |
| `Launch.CreatesOne` | internal/lxc/client_instances_util.go:25-33 | no operation counts for two names |
| `Launch.WaitForInstanceAddress` | internal/lxc/client_instances_util.go:46-61 | succeeds if and only if some poll has an address and every one before it succeeded without, and returns the addresses of that poll |
| `Launch.Launcher.CreateTemplates` | internal/lxc/client_instances.go:63-88 | succeeds exactly when every request does, and then each template was created once and the metadata naming all of them was updated after them |
| `Launch.Launcher.ReplaceText` | internal/lxc/client_instances.go:96-129 | success means each file was read and overwritten with its replaced text unless unchanged; it succeeds when every read and write does |
| `Launch.Launcher.WaitForStartInstance` | internal/lxc/client_instances.go:135-155 | starts the instance unless it runs; succeeds if and only if it runs or starts and some poll has an address, and returns the addresses of the first that has |
| `Launch.Launcher.WaitForLaunchInstance` | internal/lxc/client_instances.go:23-132 | a create with the given options is sent, once and first, exactly when neither the instance nor a pending create was visible and the options are complete; a start, and success, follow only the success of every template, file and replacement; success returns the addresses of the first poll that has any, and when every step can succeed so does the launch |
| `Launch.ReplacedMeans` | internal/lxc/client_instances.go:111-117 | for marked replacements the overwritten text does not depend on the iteration order |
| `Replacements.FirstIsReplaced` | internal/lxc/client_instances.go:114-114 | replacing all occurrences replaces the first one, keeps what is before it and goes on after it |
| `Replacements.NothingIsReplaced` | internal/lxc/client_instances.go:114-117 | a text in which the pattern does not occur stays |
| `Replacements.AnyOrder` | internal/lxc/client_instances.go:111-117 | every order of a marked set of replacements of which none can complete another pattern gives the text of all replacements made at once |
| `Replacements.OrderFreeExactly` | internal/lxc/client_instances.go:111-117 | over all texts the result of the loop over a marked set does not depend on the iteration order if and only if no replacement can complete another pattern that changes anything |
| `Replacements.NotApartDependsOnOrder` | internal/lxc/client_instances.go:111-117 | for every set in which one can, the text and the two orders that show it |
| `Replacements.OwnStartIsApart` | internal/lxc/client_instances.go:111-117 | replacements that start with the markers of their own patterns complete none |
| `Replacements.TwoOrdersTwoTexts` | internal/lxc/client_instances.go:111-117 | a concrete set whose two orders give two texts |
| `Replacements.ReplaceInFile` | internal/lxc/client_instances.go:111-128 | the loop computes that text, and the file is written exactly when it changed |
| `Replacements.CompletingIsNotIdempotent` | internal/lxc/launch_options.go:17-20 | for every marked set in which a replacement can complete a pattern that changes anything, some text changes again in a second pass |
| `Replacements.PrefixIsNotIdempotent` | internal/lxc/launch_options.go:17-20 | so it does when a pattern is a proper prefix of its replacement, or a non-empty replacement one of its pattern |
| `Replacements.IdempotentExactly` | internal/lxc/launch_options.go:17-20 | a second pass over a marked set changes no text if and only if neither is the case |
| `Replacements.SecondPassChangesNothing` | internal/lxc/client_instances.go:111-117 | so for those sets two runs of the loop, in whatever orders, give the text of the first |
| `Replacements.SingleIsIdempotent` | internal/lxc/client_instances.go:111-117 | any single replacement is idempotent if the pattern does not have its first character and it does not have that of the pattern |
| `Replacements.KindEntrypointMarked` | internal/instances/kind.go:33-40 | the entrypoint replacements of kind meet both conditions |
| `Launches.PodSubnetIsIdempotent` | internal/instances/kind.go:88-95 | so is the pod network replacement of kind, for networks that start with a digit |
| `LaunchOptions.LastCallWins` | internal/lxc/launch_options.go:38-116 | after any sequence of calls every configuration key, template, device and replacement has the value of the last call that set it, and no other exists |
| `LaunchOptions.LastSetterWins` | internal/lxc/launch_options.go:126-149 | after any sequence of calls the image is that of the last call with an alias or a fingerprint or an image family, and flavor, type and socket are those of the last call that set them |
| `LaunchOptions.ListsAccumulate` | internal/lxc/launch_options.go:48-122 | file operations and profiles of all calls accumulate in order |
| `LaunchOptions.Options.WithInstanceTemplates` | internal/lxc/launch_options.go:38-45 | merges to the right, into the builder's own map only; the argument is unchanged even if it is that map |
| `LaunchOptions.Options.WithConfig` | internal/lxc/launch_options.go:109-116 | the same for configuration |
| `LaunchOptions.Options.WithDevices` | internal/lxc/launch_options.go:99-106 | the same for devices; nested maps are shared and never written |
| `LaunchOptions.Options.WithReplacements` | internal/lxc/launch_options.go:89-96 | the same for replacements |
| `LaunchOptions.Options.WithFiles` | internal/lxc/launch_options.go:48-78 | appends exactly one operation of its kind, with the path and text or target, for each entry of the map, whatever the iteration order |
| `LaunchOptions.Options.WithDirectories` | internal/lxc/launch_options.go:81-86 | appends one operation per path, in order |
| `LaunchOptions.Build` | internal/lxc/launch_options.go:38-149 | any sequence of calls yields the merge of what each argument contributes and modifies nothing that existed before: no argument, no nested map, no shared profile |
| `Launches.KubeadmLaunchOptions` | internal/instances/kubeadm.go:26-53 | the finished options are given field by field: type, the kubeadm image of the version, the install script unless skipped, and for a container the default profile of the privilege and server, which wins over the cloud-init data; nothing that existed before is modified |
| `Launches.KindLaunchOptions` | internal/instances/kind.go:28-107 | fails exactly when cloud-init is to run by hand and does not parse; otherwise the finished options are given field by field: the image of the version, the symlinks and templates that run cloud-init, the replacements of kind, and the default profile, which wins over the cloud-init data |
| `Launches.LabelsDecide` | internal/controller/lxcmachine/controller_util_launch.go:94-99 | the labels are the four of the machine and its cluster; whatever is configured below them, the result passes exactly the control plane filter of its own cluster, or none for a worker |
| `Launches.ForMachine` | internal/controller/lxcmachine/controller_util_launch.go:81-112 | sets the flavor, appends the profiles, puts devices, user configuration, labels and, for a control plane machine, the load balancer templates over what was there, takes the image unless it has neither alias nor fingerprint, and changes nothing else, even if an argument is one of the maps of the options |
| `Launches.KubeadmMachine` | internal/controller/lxcmachine/controller_util_launch.go:81-112 | the finished options are given field by field from the spec, the default profile and the cloud-init data, the configuration being cloud-init data, profile, user, labels in this order of precedence; it passes exactly its own filter; the shared profile and the user's maps are unmodified |
| `Launches.KindMachine` | internal/controller/lxcmachine/controller_util_launch_kind.go:88-122 | the same for kind, with exactly the replacements of the entrypoint and the pod network, the symlinks and the templates of kind |
| `Launches.LaunchKindMachine` | internal/controller/lxcmachine/controller_util_launch_kind.go:88-124 | from the spec to the server: a create request asks for the flavor, profiles, devices, image and configuration of the spec over the default profile and passes exactly its own filter; a start request is sent last, after the entrypoint holds or was overwritten with all its replacements made at once; success returns the addresses of the first poll that has any, with every template and symlink created; a server that refuses nothing is a success |
| `Devices.ToMap` | api/v1alpha2/lxcmachine_types.go:131-158 | computes the key-wise later-wins merge of the specifications, or fails when one is malformed |
| `Devices.ParseConcat` | api/v1alpha2/lxcmachine_types.go:131-158 | parsing a concatenation merges the parses of the parts and fails exactly when a part fails |
| `Devices.LaterWins` | api/v1alpha2/lxcmachine_types.go:143-154 | of a key that both parts of a list give a device the later decides, and the devices are those of both |
| `Devices.SpecMeans` | api/v1alpha2/lxcmachine_types.go:138-154 | a specification is refused exactly when it has no comma or an argument without an equals sign; otherwise it gives its device the keys of its arguments, each with the value of the last that has it |
| `Devices.RoundTrip` | api/v1alpha2/lxcmachine_types.go:131-158 | printing any device map in any order and parsing it gives the map back |
| `Text.SplitJoin` | api/v1alpha2/lxcmachine_types.go:147-148 | splitting undoes joining of separator-free parts |
| `Text.JoinSplit` | api/v1alpha2/lxcmachine_types.go:147-148 | joining the parts of a split gives the text back, and no part has the separator |
| `Tarball.KeptDecides` | internal/exp/simplestreams/index/import_virtual_machine.go:48-86 | the archive that an import writes determines the metadata that it used |
| `Tarball.CompressRootfs` | internal/exp/image-builder/action/action_image_export_compress.go:103-133 | the output has the entries of the input in order with their names and modes, rootfs.img with compressed data and every other with its own, and every header states the size of its data |
| `Tarball.CompressThenUnpack` | internal/exp/image-builder/action/action_image_export_compress.go:103-133 | importing the compressed tarball collects the same metadata and entries, with the rootfs compressed |
| `Reading.UnpackMeans` | internal/exp/simplestreams/index/import_virtual_machine.go:48-85 | what is collected is exactly the subsequence of entries named metadata.yaml or under templates/, each as often as it occurs, and the data of the last rootfs.img |
| `Reading.UnpackFailsExactly` | internal/exp/simplestreams/index/import_virtual_machine.go:54-62 | collecting fails if and only if some metadata.yaml does not decode over those before it |
| `Reading.FirstMetadataMeans` | internal/exp/simplestreams/index/import_container.go:41-60 | a container import uses the first metadata.yaml, or empty metadata of a complete tarball without one |
| `Reading.ContainerPlanMeans` | internal/exp/simplestreams/index/import_container.go:71-137 | the image is stored under its hash, with one item of that hash and size for each flagged server and the product and version that the metadata name |
| `Reading.VmPlanMeans` | internal/exp/simplestreams/index/import_virtual_machine.go:111-208 | archive and rootfs are stored under the hash of the archive, with two items for each flagged server, the metadata item carrying the hash of both together |
| `Reading.ContainerAccepted` | internal/exp/simplestreams/index/import_container.go:42-64 | a container import is accepted exactly when its metadata decode and have an architecture, and then stores the image so |
| `Reading.VmAccepted` | internal/exp/simplestreams/index/import_virtual_machine.go:42-104 | a VM import is accepted exactly when the tarball is complete, its metadata decode, and archive, rootfs and architecture are there, and then stores the archive of exactly the describing entries |
| `Reading.ProductDescribed` | internal/exp/simplestreams/index/import_container.go:87-108 | a new product is described by the metadata of its first import, and its aliases are those of the last import that had any |
| `Reading.ImportStores` | internal/exp/simplestreams/index/import_virtual_machine.go:210-234 | after an import index.json and images.json hold the index, and a content file has what was last written to it |
| `Reading.WritesInOrder` | internal/exp/simplestreams/index/import_virtual_machine.go:210-234 | index.json changes only after the content files are written, and images.json only after index.json |
| `Commuting.CompressThenPlan` | internal/exp/simplestreams/index/import_virtual_machine.go:48-119 | and plans the import of the original with the compressed rootfs, or is refused in exactly the stated cases |
| `Commuting.CompressKeepsTargets` | internal/exp/simplestreams/index/import_virtual_machine.go:111-119 | product, version, item keys, paths and the metadata file stay the same |
| `Catalog.StopKeepsConsistent` | internal/exp/simplestreams/index/import_virtual_machine.go:127-234 | stopping after any number of writes and reopening keeps the disk consistent |
| `Catalog.InterruptionsKeepConsistent` | internal/exp/simplestreams/index/index.go:37-81 | after any history of interrupted imports every product of images.json is listed once in a sorted index.json and every item path is on disk |
| `Catalog.RequestsWriteTheirPaths` | internal/exp/simplestreams/index/import_container.go:66-143 | every accepted import writes each path that its items mention |
| `Agreement.RootfsPathMeans` | internal/exp/simplestreams/index/import_virtual_machine.go:111-119 | an item at a rootfs path is a rootfs of the product and version that the metadata archive names |
| `Agreement.ContainerImportAgrees` | internal/exp/simplestreams/index/import_container.go:66-143 | a container import keeps size, hash and combined hash of every item in agreement with its file |
| `Agreement.VmImportAgrees` | internal/exp/simplestreams/index/import_virtual_machine.go:111-218 | a VM import does if and only if no unflagged server holds a rootfs item with another hash at the path it writes |
| `Agreement.NextRequestAgrees` | internal/exp/simplestreams/index/import_virtual_machine.go:111-218 | the same for a request on the reopened index, refused requests included |
| `Agreement.AgreementIsExact` | internal/exp/simplestreams/index/util.go:52-75 | the index agrees throughout a run of imports exactly when every request was safe in its turn |
| `Agreement.BothFlagsAlwaysAgree` | internal/exp/simplestreams/index/import_virtual_machine.go:111-218 | with both server flags on every VM import, every item always agrees |
| `Agreement.OneFlagBreaks` | internal/exp/simplestreams/index/import_virtual_machine.go:165-208 | with one flag, whichever it is, re-importing any metadata with another rootfs breaks it |
| `Commuting.ImportFrame` | internal/exp/simplestreams/index/import_container.go:77-143 | an import changes only its own product, version, file-type keys and files |
| `Commuting.ImportTwice` | internal/exp/simplestreams/index/import_virtual_machine.go:127-234 | repeating an import changes nothing |
| `Commuting.ContainerAndVmCommute` | internal/exp/simplestreams/index/import_container.go:77-137 | a container and a VM import commute if and only if they do not clash over aliases or the description of a new product |
| `Commuting.NameDeterminesFields` | internal/exp/simplestreams/index/import_container.go:71-71 | a product name of colon-free fields determines them |
| `Commuting.SameAliasesCommute` | internal/exp/simplestreams/index/import_virtual_machine.go:127-208 | colon-free fields and equal aliases always commute |
| `IndexCode.GetVirtualMachineImageInfo` | internal/exp/simplestreams/index/util.go:52-75 | one reset hash object gives the hashes of the metadata, the rootfs and both together |
| `IndexCode.GetContainerImageInfo` | internal/exp/simplestreams/index/util.go:16-41 | hash and size of the image file |
| `IndexCode.ScanContainer` | internal/exp/simplestreams/index/import_container.go:42-62 | the metadata of the first metadata.yaml, what follows being unread |
| `IndexCode.ScanVirtualMachine` | internal/exp/simplestreams/index/import_virtual_machine.go:42-86 | collects exactly the describing entries and the last rootfs of the whole tarball, or is an error for a broken one |
| `IndexCode.Index.constructor` | internal/exp/simplestreams/index/index.go:21-81 | opening reads both files, or starts empty |
| `IndexCode.Index.CarryOut` | internal/exp/simplestreams/index/import_virtual_machine.go:127-234 | memory first, then the files in order, index.json and images.json, up to the first write that fails |
| `IndexCode.Index.ImportContainer` | internal/exp/simplestreams/index/import_container.go:23-160 | refused without any change, or carries out the planned writes up to the first failure; on success the image is in the file that its hash names |
| `IndexCode.Index.ImportVirtualMachine` | internal/exp/simplestreams/index/import_virtual_machine.go:23-237 | the same for VM images; on success the metadata file is the archive of exactly the describing entries and the rootfs file the last rootfs |
| `DockerShim.NamesDiffer` | cmd/exp/kini/docker/docker_run.go:176-240 | numbered device names never collide, within a kind or across kinds |
| `DockerShim.Run` | cmd/exp/kini/docker/docker_run.go:155-266 | fails exactly on a malformed publish flag; otherwise every publish, volume, tmpfs and device flag that is not skipped is exactly one device, under its numbered name and with the keys of its kind, and beside those there are exactly the devices of the image that no flag hides |
| `DockerShim.PublishMeans` | cmd/exp/kini/docker/docker_run.go:157-182 | a publish flag is well-formed exactly as listen:connect/protocol or host:listen:connect/protocol, in lower case, and gives the proxy that the form says |
| `DockerShim.VolumeMeans` | cmd/exp/kini/docker/docker_run.go:207-246 | a volume of one, two or three parts gives the disk with its source, path, read-only flag and propagation; one of more parts has no paths |
| `DockerShim.ItoaReadsBack` | cmd/exp/kini/docker/docker_run.go:176-240 | the number in a device name reads back as the index of its flag and has no leading zero |
| `DockerShim.Inspect` | cmd/exp/kini/docker/docker_inspect.go:57-76 | prints the listen address of a device that publishes the API server if there is one, and nothing otherwise |
| `DockerShim.PublishesMeans` | cmd/exp/kini/docker/docker_inspect.go:58-74 | a device publishes the API server if and only if it is a host proxy from tcp:host:port to tcp::6443, and prints as that host and port |
| `DockerShim.RunThenInspect` | cmd/exp/kini/docker/docker_inspect.go:57-76 | with one TCP publish of a separator-free host and port to 6443 inspect prints that host and port in lower case, so as given if and only if they are in lower case |

## Left out

- Network, TLS, YAML, JSON, gzip and tar byte formats, qemu-img and template rendering are functions that the model is given, or calls that may fail.
- Conditions, requeue times, pausing, watches, logging, progress handlers and the Inspect methods of the managers: no hard property.
- Machine addresses in the status, and the reason that a failed launch is recorded with: easy members.
- Choosing an image from the machine's spec, OCI tags and digests, and the completion of launch options beyond whether it fails.
- A running instance has all its templates and files over several calls: a retry after a failure past creation goes straight to start, so only the order within one call is claimed.
- Two templates whose paths share a base name: they collide on the server; the model records templates by path.
- The OCI load balancer manager reconfigures in the same shape as the LXC one; only its Create differs in the model.
- A terminal error of a launch inside a load balancer Create is modelled as one that is retried; the endpoint does not change in either case.
- Failures to create directories during an import, and files left half-written.
- Environment, label and sysctl flags of the docker shim, and its second inspect format: easy members.
- `strings.ToLower` is modelled on ASCII letters.
- InterruptionsKeepConsistent: does not claim that hashes agree after an interruption, because an interrupted VM import can overwrite a rootfs before images.json is updated.
