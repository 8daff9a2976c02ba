/** The scheduler object itself (scheduler/src/schedulers/basic.rs). */
module Scheduler {
  import opened Shared
  import opened Ledger
  import opened Basic
  import opened Placing

  function Filter<T(!new)>(keep: T -> bool, s: seq<T>): (r: seq<T>)
    ensures forall x :: x in r <==> x in s && keep(x)
    ensures Distinct(s) ==> Distinct(r)
  {
    if s == [] then []
    else if keep(s[0]) then [s[0]] + Filter(keep, s[1..])
    else Filter(keep, s[1..])
  }

  ghost predicate Distinct<T>(s: seq<T>) {
    forall i, j :: 0 <= i < j < |s| ==> s[i] != s[j]
  }

  /** The values of a hash map, in whatever order it yields them. */
  method Values(nodes: map<string, Node>) returns (order: seq<Node>)
    requires forall n :: n in nodes ==> nodes[n].name == n
    ensures forall node :: node in order <==> node.name in nodes && nodes[node.name] == node
    ensures Distinct(order)
  {
    order := [];
    var left := nodes.Keys;
    while left != {}
      invariant left <= nodes.Keys
      invariant forall node :: node in order <==>
                  node.name in nodes && node.name !in left && nodes[node.name] == node
      invariant Distinct(order)
      decreases |left|
    {
      var n :| n in left;
      order := order + [nodes[n]];
      left := left - {n};
    }
  }

  class BasicScheduler {
    var nodes: map<string, Node>
    var claimed: map<string, Resources>
    var claimedPorts: map<string, set<PortKey>>
    var placements: Placements

    function State(): View
      reads this
    {
      View(nodes, claimed, claimedPorts, placements)
    }

    ghost predicate Valid()
      reads this
    {
      Conserved(State())
    }

    constructor ()
      ensures Valid() && State() == EMPTY
    {
      nodes, claimed, claimedPorts, placements := map[], map[], map[], map[];
      new;
      EmptyConserved();
    }

    method UpsertNode(node: Node) returns (shouldRetry: bool)
      requires Valid()
      modifies this
      ensures Valid() && State() == Upsert(old(State()), node)
      ensures nodes == old(nodes)[node.name := node]
      ensures claimed == old(claimed) && claimedPorts == old(claimedPorts) && placements == old(placements)
      ensures shouldRetry == CouldUnblock(old(State()), node)
    {
      ghost var before := State();
      if node.name !in nodes {
        shouldRetry := true;
      } else {
        var existing := nodes[node.name];
        var recovered := node.status == Ready && existing.status != Ready;
        var increased := match (existing.allocatable, node.allocatable)
          case (Some(was), Some(now)) => now.cpu > was.cpu || now.memory > was.memory
          case (None, Some(_)) => true
          case (_, None) => false;
        shouldRetry := recovered || increased;
      }
      nodes := nodes[node.name := node];
      ApplyConserves(before, DoUpsert(node));
    }

    method RemoveNode(name: string)
      requires Valid()
      modifies this
      ensures Valid() && State() == Basic.RemoveNode(old(State()), name)
      ensures nodes == old(nodes) - {name}
      ensures forall k :: k in placements <==> k in old(placements) && old(placements)[k].node != name
      ensures forall k :: k in placements ==> placements[k] == old(placements)[k]
    {
      RemoveNodeConserves(State(), name);
      nodes := nodes - {name};
      claimed := claimed - {name};
      claimedPorts := claimedPorts - {name};
      placements := map k | k in placements && placements[k].node != name :: placements[k];
    }

    method RecordPlacement(key: PodKey, node: string, limits: Resources, ports: seq<Port>)
      requires Valid()
      modifies this
      ensures Valid() && State() == Record(old(State()), key, Placement(node, limits, ports))
      ensures nodes == old(nodes) && placements == old(placements)[key := Placement(node, limits, ports)]
      ensures key in old(placements) && old(placements)[key] == Placement(node, limits, ports) ==>
                claimed == old(claimed) && claimedPorts == old(claimedPorts)
      ensures !(key in old(placements) && old(placements)[key] == Placement(node, limits, ports)) ==>
                forall port :: port in ports ==> PortKey(port.protocol, port.external) in State().PortsOn(node)
    {
      ghost var before := State();
      RecordConserves(before, key, Placement(node, limits, ports));
      RecordMeans(before, key, Placement(node, limits, ports));
      if key in placements {
        var existing := placements[key];
        if existing.node == node && existing.limits == limits && existing.ports == ports {
          return;
        }
        var _ := ReleasePlacement(key);
      }
      claimed := claimed[node := (if node in claimed then claimed[node] else NO_RESOURCES).Plus(limits)];
      claimedPorts := claimedPorts[node := (if node in claimedPorts then claimedPorts[node] else {}) + PortKeys(ports)];
      placements := placements[key := Placement(node, limits, ports)];
    }

    method ReleasePlacement(key: PodKey) returns (released: bool)
      requires Valid()
      modifies this
      ensures Valid() && State() == Release(old(State()), key)
      ensures nodes == old(nodes) && placements == old(placements) - {key}
      ensures released == (key in old(placements))
    {
      ReleaseConserves(State(), key);
      if key !in placements {
        return false;
      }
      var p := placements[key];
      placements := placements - {key};
      if p.node in claimed {
        claimed := claimed[p.node := claimed[p.node].Minus(p.limits)];
      }
      if p.node in claimedPorts {
        claimedPorts := claimedPorts[p.node := claimedPorts[p.node] - PortKeys(p.ports)];
      }
      return true;
    }

    /** The pods on a node, in whatever order the placement map yields them. */
    method PodsOn(name: string) returns (entries: seq<Entry>)
      ensures ListsNode(entries, placements, name)
    {
      entries := [];
      var left := set k | k in placements && placements[k].node == name;
      while left != {}
        invariant forall k :: k in left ==> k in placements && placements[k].node == name
        invariant Lists(entries, placements, name)
        invariant forall k :: k in placements && placements[k].node == name ==>
                    k in left || exists i :: 0 <= i < |entries| && entries[i].0 == k
        invariant forall i :: 0 <= i < |entries| ==> entries[i].0 !in left
        decreases |left|
      {
        var k :| k in left;
        ghost var listed := entries;
        entries := entries + [(k, placements[k])];
        left := left - {k};
        assert entries[|entries| - 1].0 == k;
        assert forall i :: 0 <= i < |listed| ==> entries[i] == listed[i];
      }
    }

    /** Hands back each pod of the node exactly once. */
    method EvictNode(name: string) returns (evicted: seq<Entry>)
      requires Valid()
      modifies this
      ensures Valid() && State() == Evict(old(State()), name)
      ensures ListsNode(evicted, old(placements), name)
    {
      ghost var before := State();
      evicted := PodsOn(name);
      for i := 0 to |evicted|
        invariant Valid() && State() == ReleaseAll(before, evicted[..i])
      {
        assert evicted[..i + 1][..i] == evicted[..i];
        var _ := ReleasePlacement(evicted[i].0);
      }
      assert evicted[..|evicted|] == evicted;
      ReleaseAllIsEvict(before, evicted, name);
    }

    /** Soundness, completeness and the named error are PlaceAllowed; which of the
        nodes that fit is returned is the election over some iteration order. */
    method Place(pod: Pod, ports: seq<Port>) returns (r: Result<string, PlaceError>)
      requires Valid()
      ensures PlaceAllowed(State(), pod, ports, r)
      ensures r.Ok? ==> exists order: seq<Node> ::
                OrdersCandidates(order, State(), pod.limits.value, ports) && order != []
                && r.value == Elect(State(), order).name
      ensures r.Ok? && pod.limits.value.NonNegative()
              && (forall n :: Fits(State(), pod.limits.value, ports, n) ==> Scored(nodes[n])) ==>
                forall n :: Fits(State(), pod.limits.value, ports, n) ==>
                              r.value in nodes && Scored(nodes[r.value])
                              && NoMoreLoaded(State(), nodes[r.value], nodes[n])
    {
      if pod.limits.None? {
        return Err(MissingLimits);
      }
      var limits := pod.limits.value;
      var v := State();
      var all := Values(nodes);
      var ready := Filter(IsReady, all);
      if ready == [] {
        assert forall n :: n in nodes ==> nodes[n] in all;
        return Err(NoReadyNode);
      }
      assert ready[0] in ready;
      var withCapacity := Filter((node: Node) => HasCapacity(v, node, limits), ready);
      if withCapacity == [] {
        assert forall n :: n in nodes && IsReady(nodes[n]) ==> nodes[n] in ready;
        return Err(NoCapacity);
      }
      assert withCapacity[0] in withCapacity;
      var candidates := Filter((node: Node) => PortsAvailable(v, node, ports), withCapacity);
      FilteredAreCandidates(v, limits, ports, all, candidates);
      if candidates == [] {
        return Err(NoFreePort);
      }
      var elected := ElectFrom(v, candidates);
      ElectMember(v, candidates);
      ElectedForPod(v, limits, ports, candidates);
      return Ok(elected.name);
    }
  }

  lemma FilteredAreCandidates(v: View, limits: Resources, ports: seq<Port>, all: seq<Node>, candidates: seq<Node>)
    requires forall n :: n in v.nodes ==> v.nodes[n].name == n
    requires forall node :: node in all <==> node.name in v.nodes && v.nodes[node.name] == node
    requires forall node :: node in candidates <==>
               node in all && IsReady(node) && HasCapacity(v, node, limits) && PortsAvailable(v, node, ports)
    requires Distinct(candidates)
    ensures OrdersCandidates(candidates, v, limits, ports)
    ensures candidates == [] ==> forall n :: !Fits(v, limits, ports, n)
  {
  }

  lemma ElectedForPod(v: View, limits: Resources, ports: seq<Port>, order: seq<Node>)
    requires forall n :: n in v.nodes ==> v.nodes[n].name == n
    requires OrdersCandidates(order, v, limits, ports) && order != []
    ensures limits.NonNegative() && (forall n :: Fits(v, limits, ports, n) ==> Scored(v.nodes[n])) ==>
              forall n :: Fits(v, limits, ports, n) ==>
                            && Elect(v, order).name in v.nodes && v.nodes[Elect(v, order).name] == Elect(v, order)
                            && Scored(Elect(v, order)) && NoMoreLoaded(v, Elect(v, order), v.nodes[n])
  {
    if limits.NonNegative() && (forall n :: Fits(v, limits, ports, n) ==> Scored(v.nodes[n])) {
      ElectMember(v, order);
      forall n | Fits(v, limits, ports, n) ensures NoMoreLoaded(v, Elect(v, order), v.nodes[n]) {
        ElectedIsLeastLoaded(v, limits, ports, order, n);
      }
    }
  }

  /** The election loop of `place`. */
  method ElectFrom(v: View, candidates: seq<Node>) returns (elected: Node)
    requires candidates != []
    ensures elected == Elect(v, candidates)
  {
    elected := candidates[0];
    for i := 0 to |candidates|
      invariant i == 0 ==> elected == candidates[0]
      invariant i > 0 ==> elected == Elect(v, candidates[..i])
    {
      var a, b := Usage(v, elected), Usage(v, candidates[i]);
      assert candidates[..i + 1][..i] == candidates[..i];
      if a.Some? && b.Some? && Greater(a.value, b.value) {
        elected := candidates[i];
      }
    }
    assert candidates[..|candidates|] == candidates;
  }
}
