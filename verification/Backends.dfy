/** From server state to load balancer backends.

    Models internal/lxc/client_parse_addresses.go, internal/lxc/client_instances_list.go,
    internal/loadbalancer/util.go and the backend lists of internal/loadbalancer/manager_ovn.go. Go maps
    are iterated in an arbitrary order: each such loop picks any key that is left. */
module Backends {
  import opened Common
  import opened Labels
  import opened Order

  datatype Address = Address(family: string, address: string, netmask: string, scope: string)

  datatype Network = Network(kind: string, hostName: string, addresses: seq<Address>)

  type NetworkState = map<string, Network>

  predicate QualifyingNetwork(n: Network) { n.kind != "loopback" && n.hostName != "" }

  predicate QualifyingAddress(a: Address) {
    && a.scope == "global"
    && !(a.family == "inet" && a.netmask == "32")
    && !(a.family == "inet6" && a.netmask == "128")
  }

  /** The qualifying addresses of one network, as often as they occur. */
  function AddressesOf(addresses: seq<Address>): seq<string> {
    if addresses == [] then []
    else
      var rest := AddressesOf(addresses[..|addresses| - 1]);
      var a := addresses[|addresses| - 1];
      if QualifyingAddress(a) then rest + [a.address] else rest
  }

  function HostsOf(n: Network): multiset<string> {
    if QualifyingNetwork(n) then multiset(AddressesOf(n.addresses)) else multiset{}
  }

  /** All qualifying addresses of an instance, as a multiset. */
  ghost function AllHosts(networks: NetworkState): multiset<string>
    decreases |networks|
  {
    if networks == map[] then multiset{}
    else
      var k :| k in networks;
      HostsOf(networks[k]) + AllHosts(networks - {k})
  }

  lemma SumSwap(x: multiset<string>, y: multiset<string>, z: multiset<string>)
    ensures x + (y + z) == y + (x + z)
  {
  }

  lemma {:induction false} AllHostsSplit(networks: NetworkState, k: string)
    requires k in networks
    ensures AllHosts(networks) == HostsOf(networks[k]) + AllHosts(networks - {k})
    decreases |networks|
  {
    var j :| j in networks && AllHosts(networks) == HostsOf(networks[j]) + AllHosts(networks - {j});
    if j != k {
      var rest := networks - {j} - {k};
      AllHostsSplit(networks - {j}, k);
      AllHostsSplit(networks - {k}, j);
      assert networks - {k} - {j} == rest;
      assert AllHosts(networks - {j}) == HostsOf(networks[k]) + AllHosts(rest);
      assert AllHosts(networks - {k}) == HostsOf(networks[j]) + AllHosts(rest);
      SumSwap(HostsOf(networks[j]), HostsOf(networks[k]), AllHosts(rest));
    }
  }

  // ---- which addresses those are ---------------------------------------------------------------

  /** An address of a network with a host interface, not a loopback, that has global scope and is not a /32 or /128. */
  predicate Usable(n: Network, i: nat) {
    && n.kind != "loopback" && n.hostName != "" && i < |n.addresses|
    && n.addresses[i].scope == "global"
    && (n.addresses[i].family == "inet" ==> n.addresses[i].netmask != "32")
    && (n.addresses[i].family == "inet6" ==> n.addresses[i].netmask != "128")
  }

  ghost predicate IsHost(networks: NetworkState, h: string) {
    exists k, i: nat :: k in networks && Usable(networks[k], i) && networks[k].addresses[i].address == h
  }

  lemma {:induction false} AddressesAre(addresses: seq<Address>, h: string)
    ensures h in AddressesOf(addresses) <==>
      exists i | 0 <= i < |addresses| :: QualifyingAddress(addresses[i]) && addresses[i].address == h
  {
    if addresses != [] {
      var init, last := addresses[..|addresses| - 1], addresses[|addresses| - 1];
      AddressesAre(init, h);
      assert forall i | 0 <= i < |init| :: init[i] == addresses[i];
      if h in AddressesOf(init) {
        var i :| 0 <= i < |init| && QualifyingAddress(init[i]) && init[i].address == h;
        assert QualifyingAddress(addresses[i]);
      }
    }
  }

  /** `at` lists, in order, the positions of exactly the qualifying addresses. */
  predicate Picks(all: seq<Address>, hosts: seq<string>, at: seq<nat>) {
    && |at| == |hosts|
    && (forall j | 0 <= j < |at| :: at[j] < |all| && hosts[j] == all[at[j]].address && QualifyingAddress(all[at[j]]))
    && (forall i, j | 0 <= i < j < |at| :: at[i] < at[j])
    && (forall i | 0 <= i < |all| && QualifyingAddress(all[i]) :: i in at)
  }

  lemma PicksSnoc(all: seq<Address>, hosts: seq<string>, at: seq<nat>, a: Address)
    requires Picks(all, hosts, at)
    ensures if QualifyingAddress(a) then Picks(all + [a], hosts + [a.address], at + [|all|])
            else Picks(all + [a], hosts, at)
  {
  }

  /** No qualifying address of a network is lost, repeated or made up. */
  lemma {:induction false} AddressesArePicked(all: seq<Address>) returns (at: seq<nat>)
    ensures Picks(all, AddressesOf(all), at)
  {
    if all == [] {
      at := [];
    } else {
      var init, last := all[..|all| - 1], all[|all| - 1];
      at := AddressesArePicked(init);
      LastApart(all);
      PicksSnoc(init, AddressesOf(init), at, last);
      if QualifyingAddress(last) {
        at := at + [|init|];
      }
    }
  }

  lemma {:induction false} InSomeNetwork(networks: NetworkState, h: string)
    ensures h in AllHosts(networks) <==> exists k | k in networks :: h in HostsOf(networks[k])
    decreases |networks|
  {
    if networks != map[] {
      var k :| k in networks && AllHosts(networks) == HostsOf(networks[k]) + AllHosts(networks - {k});
      var rest := networks - {k};
      InSomeNetwork(rest, h);
      if j :| j in networks && h in HostsOf(networks[j]) {
        if j != k {
          assert j in rest && rest[j] == networks[j];
        }
      }
      if h in AllHosts(rest) {
        var j :| j in rest && h in HostsOf(rest[j]);
        assert j in networks && h in HostsOf(networks[j]);
      }
    }
  }

  /** The host addresses of an instance are exactly its usable addresses. */
  lemma HostsAre(networks: NetworkState, h: string)
    ensures h in AllHosts(networks) <==> IsHost(networks, h)
  {
    InSomeNetwork(networks, h);
    forall k | k in networks ensures h in HostsOf(networks[k]) <==>
      exists i: nat :: Usable(networks[k], i) && networks[k].addresses[i].address == h
    {
      OneNetwork(networks[k], h);
    }
  }

  lemma OneNetwork(n: Network, h: string)
    ensures h in HostsOf(n) <==> exists i: nat :: Usable(n, i) && n.addresses[i].address == h
  {
    AddressesAre(n.addresses, h);
    if h in HostsOf(n) {
      var i: nat :| i < |n.addresses| && QualifyingAddress(n.addresses[i]) && n.addresses[i].address == h;
      assert Usable(n, i);
    }
    if i: nat :| Usable(n, i) && n.addresses[i].address == h {
      assert QualifyingAddress(n.addresses[i]);
    }
  }

  /** The list holds exactly the usable addresses, in ascending order. */
  ghost predicate ListsHosts(networks: NetworkState, addresses: seq<string>) {
    && (forall h :: h in addresses <==> IsHost(networks, h))
    && (forall i, j | 0 <= i < j < |addresses| :: addresses[i] == addresses[j] || Before(addresses[i], addresses[j]))
  }

  lemma HostListMeans(networks: NetworkState, addresses: seq<string>)
    requires IsHostList(networks, addresses)
    ensures ListsHosts(networks, addresses)
  {
    forall h ensures h in addresses <==> IsHost(networks, h) {
      HostsAre(networks, h);
      assert h in addresses <==> h in multiset(addresses);
    }
    forall i, j | 0 <= i < j < |addresses| ensures addresses[i] == addresses[j] || Before(addresses[i], addresses[j]) {
      LeqMeans(addresses[i], addresses[j]);
    }
  }

  /** What ParseHostAddresses promises, whatever the iteration order. */
  ghost predicate IsHostList(networks: NetworkState, addresses: seq<string>) {
    Sorted(addresses) && multiset(addresses) == AllHosts(networks)
  }

  /** The promise determines the result: two calls on the same state agree. */
  lemma HostListIsUnique(networks: NetworkState, a: seq<string>, b: seq<string>)
    requires IsHostList(networks, a) && IsHostList(networks, b)
    ensures a == b
  {
    SortedIsUnique(a, b);
  }

  /** The inner loop of ParseHostAddresses. */
  method AppendAddresses(before: seq<string>, all: seq<Address>) returns (addresses: seq<string>)
    ensures addresses == before + AddressesOf(all)
    ensures multiset(addresses) == multiset(before) + multiset(AddressesOf(all))
  {
    addresses := before;
    for i := 0 to |all|
      invariant addresses == before + AddressesOf(all[..i])
    {
      var addr := all[i];
      assert all[..i + 1][..i] == all[..i];
      if addr.scope != "global" {
        continue;
      } else if addr.family == "inet" && addr.netmask == "32" {
        continue;
      } else if addr.family == "inet6" && addr.netmask == "128" {
        continue;
      }
      addresses := addresses + [addr.address];
    }
    assert all[..|all|] == all;
  }

  /** ParseHostAddresses. A missing state has no addresses. */
  method ParseHostAddresses(state: Option<NetworkState>) returns (addresses: seq<string>)
    ensures IsHostList(NetworksOf(state), addresses) && ListsHosts(NetworksOf(state), addresses)
  {
    addresses := [];
    if state.None? {
      HostListMeans(map[], addresses);
      return;
    }
    var left := state.value;
    while left != map[]
      invariant AllHosts(state.value) == multiset(addresses) + AllHosts(left)
      decreases |left|
    {
      var k :| k in left;
      var network := left[k];
      AllHostsSplit(left, k);
      left := left - {k};
      if network.kind == "loopback" || network.hostName == "" {
        continue;
      }
      addresses := AppendAddresses(addresses, network.addresses);
    }
    SortSorts(addresses);
    addresses := Sort(addresses);
    HostListMeans(state.value, addresses);
  }

  function NetworksOf(state: Option<NetworkState>): NetworkState { if state.Some? then state.value else map[] }

  // ---- listing ---------------------------------------------------------------------------------

  datatype Instance = Instance(name: string, config: Config, state: Option<NetworkState>)

  /** The filter that WithConfig builds. */
  method MatchesConfig(filter: Config, config: Config) returns (r: bool)
    ensures r == Passes(filter, config)
    ensures r <==> forall key | key in filter ::
      (key in config && config[key] == filter[key]) || (key !in config && filter[key] == "")
  {
    var left := filter.Keys;
    while left != {}
      invariant left <= filter.Keys
      invariant forall key | key in filter && key !in left :: ValueOf(config, key) == filter[key]
    {
      var key :| key in left;
      left := left - {key};
      if ValueOf(config, key) != filter[key] {
        return false;
      }
    }
    return true;
  }

  function Filtered(filter: Config, all: seq<Instance>): seq<Instance> {
    if all == [] then []
    else
      var rest := Filtered(filter, all[..|all| - 1]);
      if Passes(filter, all[|all| - 1].config) then rest + [all[|all| - 1]] else rest
  }

  lemma {:induction false} FilteredMembers(filter: Config, all: seq<Instance>, i: Instance)
    ensures i in Filtered(filter, all) <==> i in all && Passes(filter, i.config)
  {
    if all != [] {
      FilteredMembers(filter, all[..|all| - 1], i);
      assert all == all[..|all| - 1] + [all[|all| - 1]];
    }
  }

  method ListInstances(filter: Config, all: seq<Instance>) returns (instances: seq<Instance>)
    ensures instances == Filtered(filter, all)
  {
    instances := [];
    for i := 0 to |all|
      invariant instances == Filtered(filter, all[..i])
    {
      assert all[..i + 1][..i] == all[..i];
      var matches := MatchesConfig(filter, all[i].config);
      if !matches {
        continue;
      }
      instances := instances + [all[i]];
    }
    assert all[..|all|] == all;
  }

  // ---- load balancer configuration -------------------------------------------------------------

  predicate DistinctNames(all: seq<Instance>) {
    forall i, j | 0 <= i < j < |all| :: all[i].name != all[j].name
  }

  ghost predicate IsLeastHost(i: Instance, address: string) {
    var hosts := AllHosts(if i.state.Some? then i.state.value else map[]);
    address in hosts && forall h | h in hosts :: Leq(address, h)
  }

  ghost predicate HasHost(i: Instance) {
    AllHosts(if i.state.Some? then i.state.value else map[]) != multiset{}
  }

  /** The backend map that the server state determines: exactly the passing instances with a host
      address, each at its least one. */
  ghost predicate IsConfiguration(filter: Config, all: seq<Instance>, servers: map<string, string>) {
    && (forall i | i in all && Passes(filter, i.config) && HasHost(i) ::
          i.name in servers && IsLeastHost(i, servers[i.name]))
    && (forall n | n in servers :: exists i :: i in all && i.name == n && Passes(filter, i.config) && HasHost(i))
  }

  lemma LeastHostIsUnique(i: Instance, a: string, b: string)
    requires IsLeastHost(i, a) && IsLeastHost(i, b)
    ensures a == b
  {
    LeqAntisymmetric(a, b);
  }

  /** Least in the order of the standard: a usable address that no other comes before. */
  ghost predicate IsLeast(networks: NetworkState, address: string) {
    IsHost(networks, address) && forall h | IsHost(networks, h) :: h == address || Before(address, h)
  }

  lemma LeastMeans(i: Instance, address: string)
    ensures IsLeastHost(i, address) <==> IsLeast(NetworksOf(i.state), address)
  {
    forall h ensures h in AllHosts(NetworksOf(i.state)) <==> IsHost(NetworksOf(i.state), h) {
      HostsAre(NetworksOf(i.state), h);
    }
    forall h ensures Leq(address, h) <==> h == address || Before(address, h) {
      LeqMeans(address, h);
    }
  }

  lemma HasHostMeans(i: Instance)
    ensures HasHost(i) <==> exists h :: IsHost(NetworksOf(i.state), h)
  {
    var hosts := AllHosts(NetworksOf(i.state));
    if hosts != multiset{} {
      var h :| h in hosts;
      HostsAre(NetworksOf(i.state), h);
    }
    if h :| IsHost(NetworksOf(i.state), h) {
      HostsAre(NetworksOf(i.state), h);
    }
  }

  /** The backends are exactly the passing instances with a usable address, each at its least one. */
  ghost predicate Backs(filter: Config, all: seq<Instance>, servers: map<string, string>) {
    && (forall i | i in all && Passes(filter, i.config) && (exists h :: IsHost(NetworksOf(i.state), h)) ::
          i.name in servers && IsLeast(NetworksOf(i.state), servers[i.name]))
    && (forall n | n in servers ::
          exists i :: i in all && i.name == n && Passes(filter, i.config) && IsLeast(NetworksOf(i.state), servers[n]))
  }

  lemma ConfigurationMeans(filter: Config, all: seq<Instance>, servers: map<string, string>)
    requires IsConfiguration(filter, all, servers)
    ensures Backs(filter, all, servers)
  {
    forall i | i in all && Passes(filter, i.config) && (exists h :: IsHost(NetworksOf(i.state), h))
      ensures i.name in servers && IsLeast(NetworksOf(i.state), servers[i.name])
    {
      HasHostMeans(i);
      LeastMeans(i, servers[i.name]);
    }
    forall n | n in servers
      ensures exists i ::
        i in all && i.name == n && Passes(filter, i.config) && IsLeast(NetworksOf(i.state), servers[n])
    {
      var i :| i in all && i.name == n && Passes(filter, i.config) && HasHost(i);
      LeastMeans(i, servers[n]);
    }
  }

  /** One server state, one configuration. */
  lemma ConfigurationIsUnique(filter: Config, all: seq<Instance>, a: map<string, string>, b: map<string, string>)
    requires IsConfiguration(filter, all, a) && IsConfiguration(filter, all, b)
    ensures a == b
  {
    forall n | n in a ensures n in b && a[n] == b[n] { SameServer(filter, all, a, b, n); }
    forall n | n in b ensures n in a { SameServer(filter, all, b, a, n); }
    SameEntries(a, b);
  }

  lemma SameEntries(a: map<string, string>, b: map<string, string>)
    requires forall n | n in a :: n in b && a[n] == b[n]
    requires forall n | n in b :: n in a
    ensures a == b
  {
  }

  lemma SameServer(filter: Config, all: seq<Instance>, a: map<string, string>, b: map<string, string>, n: string)
    requires IsConfiguration(filter, all, a) && IsConfiguration(filter, all, b) && n in a
    ensures n in b && a[n] == b[n]
  {
    var i :| i in all && i.name == n && Passes(filter, i.config) && HasHost(i);
    LeastHostIsUnique(i, a[n], b[n]);
  }

  /** getLoadBalancerConfiguration. */
  method GetLoadBalancerConfiguration(clusterName: string, namespace: string, all: seq<Instance>)
    returns (servers: map<string, string>)
    requires DistinctNames(all)
    ensures IsConfiguration(ControlPlaneFilter(clusterName, namespace), all, servers)
    ensures Backs(ControlPlaneFilter(clusterName, namespace), all, servers)
  {
    var filter := ControlPlaneFilter(clusterName, namespace);
    servers := ConfigureServers(filter, all);
    ConfigurationMeans(filter, all, servers);
  }

  /** The loop over the listed instances. */
  method ConfigureServers(filter: Config, all: seq<Instance>) returns (servers: map<string, string>)
    requires DistinctNames(all)
    ensures IsConfiguration(filter, all, servers)
  {
    var instances := ListInstances(filter, all);
    servers := map[];
    ghost var least: seq<Option<string>> := [];
    for k := 0 to |instances|
      invariant |least| == k && SoFar(instances, least, servers)
    {
      var address := LeastHost(instances[k]);
      NextServer(filter, all, instances, least, servers, address);
      if address.Some? {
        servers := servers[instances[k].name := address.value];
      }
      least := least + [address];
    }
    AllConfigured(filter, all, instances, least, servers);
  }

  /** The first instances are configured with their least addresses. */
  ghost predicate SoFar(instances: seq<Instance>, least: seq<Option<string>>, servers: map<string, string>)
    requires |least| <= |instances|
  {
    Configured(instances, least, servers) && forall i | 0 <= i < |least| :: LeastIs(instances[i], least[i])
  }

  lemma NextServer(
    filter: Config, all: seq<Instance>, instances: seq<Instance>, least: seq<Option<string>>,
    servers: map<string, string>, address: Option<string>)
    requires |least| < |instances| && SoFar(instances, least, servers) && LeastIs(instances[|least|], address)
    requires DistinctNames(all) && instances == Filtered(filter, all)
    ensures SoFar(instances, least + [address],
                  if address.Some? then servers[instances[|least|].name := address.value] else servers)
  {
    if address.Some? {
      SameLeast(filter, all, instances, least, address);
      AddServer(instances, least, servers, address.value);
    }
  }

  /** The first of the sorted addresses, if there is one. */
  method LeastHost(instance: Instance) returns (least: Option<string>)
    ensures LeastIs(instance, least)
  {
    var addresses := ParseHostAddresses(instance.state);
    if |addresses| > 0 {
      LeastFirst(instance, addresses);
      return Some(addresses[0]);
    }
    return None;
  }

  /** The least host address of an instance, or None when it has no address. */
  ghost predicate LeastIs(i: Instance, least: Option<string>) {
    if least.Some? then HasHost(i) && IsLeastHost(i, least.value) else !HasHost(i)
  }

  /** The configuration of the first listed instances, given their least addresses. */
  ghost predicate Configured(instances: seq<Instance>, least: seq<Option<string>>, servers: map<string, string>)
    requires |least| <= |instances|
  {
    && (forall i | 0 <= i < |least| && least[i].Some? :: Lookup(servers, instances[i].name) == least[i])
    && (forall n | n in servers :: exists i | 0 <= i < |least| :: instances[i].name == n && least[i].Some?)
  }

  lemma SameLeast(
    filter: Config, all: seq<Instance>, instances: seq<Instance>, least: seq<Option<string>>, last: Option<string>)
    requires |least| < |instances| && DistinctNames(all) && instances == Filtered(filter, all)
    requires LeastIs(instances[|least|], last) && forall i | 0 <= i < |least| :: LeastIs(instances[i], least[i])
    ensures forall i | 0 <= i < |least| && instances[i].name == instances[|least|].name :: least[i] == last
  {
    forall i | 0 <= i < |least| && instances[i].name == instances[|least|].name ensures least[i] == last {
      FilteredMembers(filter, all, instances[i]);
      FilteredMembers(filter, all, instances[|least|]);
      SameName(all, instances[i], instances[|least|]);
      OneLeast(instances[i], least[i], last);
    }
  }

  lemma OneLeast(i: Instance, a: Option<string>, b: Option<string>)
    requires LeastIs(i, a) && LeastIs(i, b)
    ensures a == b
  {
    if a.Some? && b.Some? {
      LeastHostIsUnique(i, a.value, b.value);
    }
  }

  lemma AddServer(instances: seq<Instance>, least: seq<Option<string>>, servers: map<string, string>, address: string)
    requires |least| < |instances| && Configured(instances, least, servers)
    requires forall i | 0 <= i < |least| && instances[i].name == instances[|least|].name :: least[i] == Some(address)
    ensures Configured(instances, least + [Some(address)], servers[instances[|least|].name := address])
  {
  }

  lemma AllConfigured(
    filter: Config, all: seq<Instance>, instances: seq<Instance>, least: seq<Option<string>>,
    servers: map<string, string>)
    requires |least| == |instances| && Configured(instances, least, servers)
    requires forall i | 0 <= i < |least| :: LeastIs(instances[i], least[i])
    requires instances == Filtered(filter, all)
    ensures IsConfiguration(filter, all, servers)
  {
    forall i | i in all && Passes(filter, i.config) && HasHost(i)
      ensures i.name in servers && IsLeastHost(i, servers[i.name])
    {
      FilteredMembers(filter, all, i);
      ListedServer(instances, least, servers, i);
    }
    forall n | n in servers ensures exists i :: i in all && i.name == n && Passes(filter, i.config) && HasHost(i) {
      var i := BackingInstance(instances, least, servers, n);
      FilteredMembers(filter, all, i);
    }
  }

  lemma ListedServer(instances: seq<Instance>, least: seq<Option<string>>, servers: map<string, string>, i: Instance)
    requires |least| == |instances| && Configured(instances, least, servers)
    requires forall k | 0 <= k < |least| :: LeastIs(instances[k], least[k])
    requires i in instances && HasHost(i)
    ensures i.name in servers && IsLeastHost(i, servers[i.name])
  {
    var k :| 0 <= k < |instances| && instances[k] == i;
    assert LeastIs(instances[k], least[k]);
  }

  lemma BackingInstance(instances: seq<Instance>, least: seq<Option<string>>, servers: map<string, string>, n: string)
    returns (i: Instance)
    requires |least| == |instances| && Configured(instances, least, servers)
    requires forall k | 0 <= k < |least| :: LeastIs(instances[k], least[k])
    requires n in servers
    ensures i in instances && i.name == n && HasHost(i)
  {
    var k :| 0 <= k < |instances| && instances[k].name == n && least[k].Some?;
    assert LeastIs(instances[k], least[k]);
    i := instances[k];
  }

  lemma SameName(all: seq<Instance>, i: Instance, j: Instance)
    requires DistinctNames(all) && i in all && j in all && i.name == j.name
    ensures i == j
  {
  }

  lemma LeastFirst(i: Instance, addresses: seq<string>)
    requires IsHostList(if i.state.Some? then i.state.value else map[], addresses) && |addresses| > 0
    ensures HasHost(i) && IsLeastHost(i, addresses[0])
  {
    var hosts := AllHosts(if i.state.Some? then i.state.value else map[]);
    assert addresses[0] in multiset(addresses);
    forall h | h in hosts ensures Leq(addresses[0], h) {
      assert h in multiset(addresses);
      SmallestFirst(addresses, h);
    }
  }

  // ---- the OVN form ----------------------------------------------------------------------------

  datatype OvnBackend = OvnBackend(name: string, targetAddress: string, targetPort: string)

  ghost predicate Enumerates(backends: seq<OvnBackend>, targets: seq<string>, servers: map<string, string>) {
    && |backends| == |targets| == |servers|
    && (forall i | 0 <= i < |targets| ::
          targets[i] in servers && backends[i] == OvnBackend(targets[i], servers[targets[i]], "6443"))
    && (forall i, j | 0 <= i < j < |targets| :: targets[i] != targets[j])
    && (forall n | n in servers :: n in targets)
  }

  /** The loop of managerOVN.Reconfigure: every backend exactly once, in both lists, whatever the order. */
  method OvnLists(servers: map<string, string>) returns (backends: seq<OvnBackend>, targets: seq<string>)
    ensures Enumerates(backends, targets, servers)
  {
    backends, targets := [], [];
    var left := servers;
    while left != map[]
      invariant left.Keys <= servers.Keys && forall n | n in left :: left[n] == servers[n]
      invariant |backends| == |targets| && |targets| + |left| == |servers|
      invariant forall i | 0 <= i < |targets| ::
        && targets[i] in servers && targets[i] !in left
        && backends[i] == OvnBackend(targets[i], servers[targets[i]], "6443")
      invariant forall i, j | 0 <= i < j < |targets| :: targets[i] != targets[j]
      invariant forall n | n in servers && n !in left :: n in targets
      decreases |left|
    {
      var n :| n in left;
      backends := backends + [OvnBackend(n, left[n], "6443")];
      targets := targets + [n];
      left := left - {n};
    }
  }
}
