/** `remote_group_module`: the registry of group tunnels, keyed by origin
    node and then by group name, with its one-way stop flag. The mutex of
    `critical_section` is gone: every method body runs as one atomic step.
    The middleman's lazy connect is recorded in `connectRequests`. */
module RemoteGroups {
  import opened Common

  /** The connection state of a tunnel. */
  datatype TunnelState = Unconnected | Connected(intermediary: Actor)

  /** `group_tunnel`: a proxy for the group `name` hosted on `origin`. */
  class GroupTunnel {
    const origin: NodeId
    const name: string
    var state: TunnelState
    var stopped: bool

    /** A tunnel that waits for the middleman to find an intermediary. */
    constructor Unconnected(origin: NodeId, name: string)
      ensures this.origin == origin && this.name == name
      ensures state == TunnelState.Unconnected && !stopped
    {
      this.origin := origin;
      this.name := name;
      state := TunnelState.Unconnected;
      stopped := false;
    }

    /** A tunnel that already has its intermediary; the origin is the node
        the intermediary runs on. */
    constructor ConnectedTo(intermediary: Actor, name: string)
      ensures origin == intermediary.node && this.name == name
      ensures state == Connected(intermediary) && !stopped
    {
      origin := intermediary.node;
      this.name := name;
      state := Connected(intermediary);
      stopped := false;
    }

    /** `group_tunnel::connect`: the transition from unconnected to
        connected, taken at most once and never after the tunnel stopped. */
    method Connect(intermediary: Actor) returns (ok: bool)
      modifies this
      ensures ok <==> !old(stopped) && old(state).Unconnected?
      ensures state == (if ok then Connected(intermediary) else old(state))
      ensures stopped == old(stopped)
    {
      if !stopped && state.Unconnected? {
        state := Connected(intermediary);
        ok := true;
      } else {
        ok := false;
      }
    }

    /** `group_tunnel::stop`. */
    method Stop()
      modifies this
      ensures stopped && state == old(state)
    {
      stopped := true;
    }
  }

  class RemoteGroupModule {
    /** `stopped_`. */
    var stopped: bool
    /** `nodes_`: origin node -> group name -> tunnel. */
    var nodes: map<NodeId, map<string, GroupTunnel>>
    /** The tunnels handed to the middleman for a lazy connect, in order. */
    var connectRequests: seq<GroupTunnel>

    /** Each tunnel is filed under its own origin and name, and a stopped
        module has an empty registry. */
    predicate Valid()
      reads this
    {
      && (forall n, g :: n in nodes && g in nodes[n] ==> nodes[n][g].origin == n && nodes[n][g].name == g)
      && (stopped ==> nodes == map[])
    }

    /** Every tunnel in the registry. */
    function Tunnels(): set<GroupTunnel>
      reads this
    {
      set n, g | n in nodes && g in nodes[n] :: nodes[n][g]
    }

    /** `lookup(origin, group_name)`: the registered tunnel or null. */
    function Lookup(origin: NodeId, name: string): (r: GroupTunnel?)
      reads this
      ensures r != null <==> origin in nodes && name in nodes[origin]
      ensures r != null ==> r in Tunnels()
      ensures r != null && Valid() ==> r.origin == origin && r.name == name
    {
      if origin in nodes && name in nodes[origin] then nodes[origin][name] else null
    }

    /** The group names registered for `origin`. */
    function InstancesOf(origin: NodeId): map<string, GroupTunnel>
      reads this
    {
      if origin in nodes then nodes[origin] else map[]
    }

    constructor()
      ensures !stopped && nodes == map[] && connectRequests == [] && Valid()
    {
      stopped := false;
      nodes := map[];
      connectRequests := [];
    }

    /** `get_impl(origin, group_name)`: the registered tunnel, or a new
        unconnected tunnel that is registered and handed to the middleman for
        a lazy connect; null once the module stopped. */
    method GetImplOrigin(origin: NodeId, name: string) returns (r: GroupTunnel?)
      requires Valid()
      modifies this
      ensures Valid() && stopped == old(stopped)
      ensures old(stopped) ==> r == null && nodes == old(nodes) && connectRequests == old(connectRequests)
      ensures !old(stopped) && old(Lookup(origin, name)) != null ==>
        r == old(Lookup(origin, name)) && nodes == old(nodes) && connectRequests == old(connectRequests)
      ensures !old(stopped) && old(Lookup(origin, name)) == null ==>
        && r != null && fresh(r)
        && r.origin == origin && r.name == name && r.state == Unconnected && !r.stopped
        && nodes == old(nodes)[origin := old(InstancesOf(origin))[name := r]]
        && connectRequests == old(connectRequests) + [r]
      ensures !old(stopped) ==> r == Lookup(origin, name)
    {
      if stopped {
        return null;
      }
      r := Lookup(origin, name);
      if r == null {
        r := new GroupTunnel.Unconnected(origin, name);
        nodes := nodes[origin := InstancesOf(origin)[name := r]];
        connectRequests := connectRequests + [r];
      }
    }

    /** `get_impl(intermediary, group_name)`: the tunnel registered for the
        intermediary's node, or a new tunnel already connected to
        `intermediary`; null once the module stopped. No lazy connect is
        requested. */
    method GetImplIntermediary(intermediary: Actor, name: string) returns (r: GroupTunnel?)
      requires Valid()
      modifies this
      ensures Valid() && stopped == old(stopped) && connectRequests == old(connectRequests)
      ensures old(stopped) ==> r == null && nodes == old(nodes)
      ensures !old(stopped) && old(Lookup(intermediary.node, name)) != null ==>
        r == old(Lookup(intermediary.node, name)) && nodes == old(nodes)
      ensures !old(stopped) && old(Lookup(intermediary.node, name)) == null ==>
        && r != null && fresh(r)
        && r.origin == intermediary.node && r.name == name
        && r.state == Connected(intermediary) && !r.stopped
        && nodes == old(nodes)[intermediary.node := old(InstancesOf(intermediary.node))[name := r]]
      ensures !old(stopped) ==> r == Lookup(intermediary.node, name)
    {
      if stopped {
        return null;
      }
      r := Lookup(intermediary.node, name);
      if r == null {
        r := new GroupTunnel.ConnectedTo(intermediary, name);
        nodes := nodes[intermediary.node := InstancesOf(intermediary.node)[name := r]];
      }
    }

    /** `drop(instance)`: stops the instance and removes its entry, but only
        while the entry still holds this very instance; a newer tunnel for
        the same key stays. */
    method Drop(instance: GroupTunnel)
      requires Valid()
      modifies this, instance
      ensures Valid() && stopped == old(stopped) && connectRequests == old(connectRequests)
      ensures instance.stopped && instance.state == old(instance.state)
      ensures old(Lookup(instance.origin, instance.name)) == instance ==>
        && Lookup(instance.origin, instance.name) == null
        && nodes == old(nodes)[instance.origin := old(nodes[instance.origin]) - {instance.name}]
      ensures old(Lookup(instance.origin, instance.name)) != instance ==> nodes == old(nodes)
      ensures forall o, g :: (o != instance.origin || g != instance.name) ==> Lookup(o, g) == old(Lookup(o, g))
    {
      if Lookup(instance.origin, instance.name) == instance {
        nodes := nodes[instance.origin := nodes[instance.origin] - {instance.name}];
      }
      instance.Stop();
    }

    /** `connect(instance, intermediary)`: connects the instance only while
        the module runs and the instance is still the registered tunnel for
        its key; the registry itself never changes. */
    method Connect(instance: GroupTunnel, intermediary: Actor)
      requires Valid()
      modifies instance
      ensures nodes == old(nodes) && stopped == old(stopped) && connectRequests == old(connectRequests)
      ensures instance.stopped == old(instance.stopped)
      ensures !old(stopped) && Lookup(instance.origin, instance.name) == instance
              && !old(instance.stopped) && old(instance.state).Unconnected? ==>
        instance.state == Connected(intermediary)
      ensures !(!old(stopped) && Lookup(instance.origin, instance.name) == instance) ==>
        instance.state == old(instance.state)
      ensures old(instance.state).Connected? ==> instance.state == old(instance.state)
      ensures old(instance.stopped) ==> instance.state == old(instance.state)
    {
      if !stopped && Lookup(instance.origin, instance.name) == instance {
        var _ := instance.Connect(intermediary);
      }
    }

    /** `stop()`: the first call sets the flag, stops every registered tunnel
        and empties the registry; later calls do nothing. */
    method Stop()
      requires Valid()
      modifies this, Tunnels()
      ensures stopped && Valid() && connectRequests == old(connectRequests)
      ensures nodes == map[]
      ensures forall t :: t in old(Tunnels()) ==> t.stopped && t.state == old(t.state)
    {
      if !stopped {
        stopped := true;
        StopAll(Tunnels());
        nodes := map[];
      }
    }
  }

  /** Stops each tunnel of `ts` once, in no particular order. */
  method StopAll(ts: set<GroupTunnel>)
    modifies ts
    ensures forall t :: t in ts ==> t.stopped && t.state == old(t.state)
  {
    var todo := ts;
    while todo != {}
      invariant todo <= ts
      invariant forall t :: t in ts - todo ==> t.stopped
      invariant forall t :: t in ts ==> t.state == old(t.state)
      decreases todo
    {
      var t :| t in todo;
      t.Stop();
      todo := todo - {t};
    }
  }

  /** A registered tunnel is filed under exactly one key: two lookups give
      the same tunnel only for the same origin and name. */
  lemma AtMostOneKeyPerTunnel(m: RemoteGroupModule, o1: NodeId, g1: string, o2: NodeId, g2: string)
    requires m.Valid()
    requires m.Lookup(o1, g1) != null && m.Lookup(o1, g1) == m.Lookup(o2, g2)
    ensures o1 == o2 && g1 == g2
  {
  }

  /** Two `get_impl` calls for the same pair give the same tunnel, and only
      the first one asks the middleman for a connect. A later `get_impl`
      through an intermediary on that node gets that tunnel too, whatever
      the intermediary. */
  method SameTunnelTwice(m: RemoteGroupModule, origin: NodeId, name: string, via: Actor)
      returns (first: GroupTunnel?, second: GroupTunnel?, third: GroupTunnel?)
    requires m.Valid() && !m.stopped && m.Lookup(origin, name) == null
    requires via.node == origin
    modifies m
    ensures first != null && first == second && first == third
    ensures first.state == Unconnected
    ensures m.connectRequests == old(m.connectRequests) + [first]
  {
    first := m.GetImplOrigin(origin, name);
    second := m.GetImplOrigin(origin, name);
    third := m.GetImplIntermediary(via, name);
  }

  /** After `stop`, `get_impl` gives null and the registry stays empty: the
      flag is one-way. */
  method NoTunnelsAfterStop(m: RemoteGroupModule, origin: NodeId, name: string, via: Actor)
      returns (r1: GroupTunnel?, r2: GroupTunnel?)
    requires m.Valid()
    modifies m, m.Tunnels()
    ensures r1 == null && r2 == null
    ensures m.stopped && m.nodes == map[]
  {
    m.Stop();
    r1 := m.GetImplOrigin(origin, name);
    r2 := m.GetImplIntermediary(via, name);
  }
}
