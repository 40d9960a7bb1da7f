/** The listing of the protocol is the configuration that the load balancer code computes from the server.

    Connects Protocol, where an instance carries its sorted addresses, with Backends, where they are read from
    its network state. */
module ServerListing {
  import opened Common
  import opened Labels
  import opened Order
  import opened Protocol
  import Server = Backends

  // ---- addresses are sorted in every run -------------------------------------------------------

  predicate SortedHosts(c: Cell) { c.inst.Some? ==> Sorted(c.inst.value.hosts) }

  ghost predicate AllSorted(s: State) { forall n | n in s.cells :: SortedHosts(s.cells[n]) }

  lemma ActionKeepsSorted(v: View, c: Cell, a: CellAction)
    requires SortedHosts(c)
    ensures SortedHosts(CellAfter(v, c, a))
  {
    HostsMove(v, c, a);
  }

  /** The addresses of an instance change only by going away or by appearing in order. */
  lemma HostsMove(v: View, c: Cell, a: CellAction)
    ensures var c' := CellAfter(v, c, a);
      c'.inst.Some? ==>
        || c'.inst.value.hosts == []
        || (c.inst.Some? && c'.inst.value.hosts == c.inst.value.hosts)
        || Sorted(c'.inst.value.hosts)
  {
  }

  lemma {:induction false} RunKeepsSorted(s: State, actions: seq<Action>)
    requires AllSorted(s)
    ensures AllSorted(Exec(s, actions))
    decreases |actions|
  {
    if actions != [] {
      var t := Apply(s, actions[0]);
      forall n | n in t.cells ensures SortedHosts(t.cells[n]) {
        if n in s.cells {
          ApplyFrame(s, actions[0], n);
          if actions[0].On? {
            ActionKeepsSorted(ViewOf(s, n), s.cells[n], actions[0].act);
          }
        }
      }
      RunKeepsSorted(t, actions[1..]);
    }
  }

  // ---- the same listing ------------------------------------------------------------------------

  function Networks(i: Server.Instance): Server.NetworkState { if i.state.Some? then i.state.value else map[] }

  /** The server's instance list in this state: every instance of a machine with its configuration and
      addresses, and other instances that the filter of this cluster does not pass. */
  ghost predicate Shows(s: State, all: seq<Server.Instance>) {
    && Server.DistinctNames(all)
    && (forall n | n in s.cells && s.cells[n].inst.Some? :: exists i | i in all :: i.name == n)
    && (forall i | i in all ::
          if i.name in s.cells && s.cells[i.name].inst.Some? then
            && i.config == s.cells[i.name].inst.value.config
            && multiset(s.cells[i.name].inst.value.hosts) == Server.AllHosts(Networks(i))
          else !Passes(ControlPlaneFilter(s.clusterName, s.namespace), i.config))
  }

  lemma ListedAtLeast(s: State, i: Server.Instance, all: seq<Server.Instance>)
    requires AllSorted(s) && Shows(s, all) && i in all
    requires Passes(ControlPlaneFilter(s.clusterName, s.namespace), i.config)
    ensures Server.HasHost(i) <==> BackendAt(s, i.name).Some?
    ensures Server.HasHost(i) ==> Server.IsLeastHost(i, BackendAt(s, i.name).value)
  {
    var hosts := s.cells[i.name].inst.value.hosts;
    assert SortedHosts(s.cells[i.name]);
    if hosts != [] {
      Server.LeastFirst(i, hosts);
    }
  }

  /** In every run, what getLoadBalancerConfiguration computes from the server is the listing of the protocol:
      each passing instance at its least address. */
  lemma ListingIsConfiguration(s: State, actions: seq<Action>, all: seq<Server.Instance>, servers: Backends)
    requires Init(s) && Shows(Exec(s, actions), all)
    requires Server.IsConfiguration(ControlPlaneFilter(s.clusterName, s.namespace), all, servers)
    ensures servers == Listing(Exec(s, actions))
  {
    var t := Exec(s, actions);
    var filter := ControlPlaneFilter(s.clusterName, s.namespace);
    RunKeepsSorted(s, actions);
    RunKeepsNames(s, actions);
    forall i | i in all && Passes(filter, i.config) && Server.HasHost(i)
      ensures i.name in Listing(t) && Server.IsLeastHost(i, Listing(t)[i.name])
    {
      ListedAtLeast(t, i, all);
      assert Lookup(Listing(t), i.name) == BackendAt(t, i.name);
    }
    forall n | n in Listing(t)
      ensures exists i :: i in all && i.name == n && Passes(filter, i.config) && Server.HasHost(i)
    {
      assert Lookup(Listing(t), n) == BackendAt(t, n);
      var i :| i in all && i.name == n;
      ListedAtLeast(t, i, all);
    }
    Server.ConfigurationIsUnique(filter, all, servers, Listing(t));
  }

  lemma {:induction false} RunKeepsNames(s: State, actions: seq<Action>)
    ensures Exec(s, actions).clusterName == s.clusterName && Exec(s, actions).namespace == s.namespace
    decreases |actions|
  {
    if actions != [] {
      RunKeepsNames(Apply(s, actions[0]), actions[1..]);
    }
  }
}
