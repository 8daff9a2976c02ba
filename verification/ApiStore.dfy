/** The API store as the handlers call it (api/src/store.rs, in-memory branch),
    each call running on its own. The interleavings of its lock sections are
    treated in PodWatch and Liveness; every method here is a run of their steps. */
module ApiStore {
  import opened Shared
  import opened PodRecords
  import PodWatch
  import Liveness

  datatype NodeEvent = NodeEvent(eventType: EventType, node: Node)

  class Store {
    var pods: PodWatch.Pods
    var podEvents: seq<PodEvent>
    var nodes: map<string, Node>
    var nodeWatchers: map<string, nat>
    var nodeEvents: seq<NodeEvent>
    // the streams handed out and the teardowns queued by dropping them
    ghost var open: multiset<string>
    ghost var teardowns: multiset<string>

    function Table(): PodWatch.Table
      reads this
    {
      PodWatch.Table(pods, podEvents, multiset{})
    }

    ghost function Streams(): Liveness.Streams
      reads this
    {
      Liveness.Streams(nodes, nodeWatchers, Liveness.Free, open, teardowns)
    }

    ghost predicate Valid()
      reads this
    {
      PodWatch.Keyed(pods) && Liveness.Inv(Streams())
    }

    constructor ()
      ensures Valid()
      ensures Table() == PodWatch.Table(map[], [], multiset{}) && Streams() == Liveness.NO_STREAMS
    {
      pods, podEvents := map[], [];
      nodes, nodeWatchers, nodeEvents := map[], map[], [];
      open, teardowns := multiset{}, multiset{};
    }

    // ----- Pods ---------------------------------------------------------------

    method CreatePod(pod: PodDetail) returns (created: bool)
      requires Valid()
      modifies this`pods, this`podEvents
      ensures Valid()
      ensures created <==> PodWatch.Enabled(old(Table()), PodWatch.CreateInsert(pod))
      ensures !created ==> Table() == old(Table())
      ensures created == (KeyOfDetail(pod) !in old(pods))
      ensures created ==>
                pods == old(pods)[KeyOfDetail(pod) := pod] && podEvents == old(podEvents) + [PodEvent(Added, pod)]
      ensures created ==>
                var steps := [PodWatch.CreateInsert(pod), PodWatch.CreatePublish(pod)];
                PodWatch.RunEnabled(old(Table()), steps) && Table() == PodWatch.Run(old(Table()), steps)
    {
      var key := KeyOfDetail(pod);
      if key in pods {
        return false;
      }
      ghost var start := Table();
      pods := pods[key := pod];
      podEvents := podEvents + [PodEvent(Added, pod)];
      ghost var steps := [PodWatch.CreateInsert(pod), PodWatch.CreatePublish(pod)];
      assert steps[1..] == [PodWatch.CreatePublish(pod)] && steps[1..][1..] == [];
      ghost var inserted := PodWatch.Next(start, steps[0]);
      assert multiset{} + multiset{pod} - multiset{pod} == multiset{};
      assert PodWatch.Next(inserted, steps[1..][0]) == Table();
      assert PodWatch.RunEnabled(inserted, steps[1..]) && PodWatch.Run(inserted, steps[1..]) == Table();
      return true;
    }

    method UpdateAndPublishPod(key: PodKey, eventType: EventType, mutation: Mutation) returns (found: bool)
      requires Valid() && (eventType == Modified || eventType == Scheduled)
      modifies this`pods, this`podEvents
      ensures Valid()
      ensures var step := PodWatch.Update(key, eventType, mutation);
              && (found <==> PodWatch.Enabled(old(Table()), step))
              && Table() == if found then PodWatch.Next(old(Table()), step) else old(Table())
      ensures found == (key in old(pods))
      ensures found ==>
                && pods == old(pods)[key := Mutate(old(pods)[key], mutation)]
                && podEvents == old(podEvents) + [PodEvent(eventType, pods[key])]
    {
      if key !in pods {
        return false;
      }
      MutateKeepsIdentity(pods[key], mutation);
      var pod := Mutate(pods[key], mutation);
      pods := pods[key := pod];
      podEvents := podEvents + [PodEvent(eventType, pod)];
      return true;
    }

    method RemovePod(key: PodKey) returns (removed: Option<PodDetail>)
      requires Valid()
      modifies this`pods, this`podEvents
      ensures Valid()
      ensures removed == if key in old(pods) then Some(old(pods)[key]) else None
      ensures Table()
              == if removed.Some? then PodWatch.Next(old(Table()), PodWatch.Remove(key)) else old(Table())
      ensures pods == old(pods) - {key}
      ensures podEvents == old(podEvents) + if removed.Some? then [PodEvent(Deleted, removed.value)] else []
    {
      if key !in pods {
        return None;
      }
      removed := Some(pods[key]);
      podEvents := podEvents + [PodEvent(Deleted, pods[key])];
      pods := pods - {key};
    }

    /** The snapshot and the position in the event channel from which the receiver
        reads, taken together under the read lock. */
    method SubscribePodEventsWithSnapshot() returns (snapshot: seq<PodDetail>, position: nat)
      requires Valid()
      ensures PodWatch.Snapshots(snapshot, pods) && position == |podEvents|
    {
      var placed, waiting: seq<PodDetail> := [], [];
      var left := pods.Keys;
      while left != {}
        invariant left <= pods.Keys
        invariant Lists(placed, pods, left, true) && Lists(waiting, pods, left, false)
        decreases |left|
      {
        var k :| k in left;
        left := left - {k};
        if pods[k].nodeName == "" {
          waiting := waiting + [pods[k]];
        } else {
          placed := placed + [pods[k]];
        }
      }
      SortedSnapshot(placed, waiting, pods);
      return placed + waiting, |podEvents|;
    }

    // ----- Nodes --------------------------------------------------------------

    method RegisterNode(reported: Node)
      requires Valid()
      modifies this`nodes, this`nodeEvents
      ensures Valid()
      ensures Streams() == Liveness.Next(old(Streams()), Liveness.Register(reported))
      ensures reported.name in nodes
              && nodes[reported.name].capacity == reported.capacity
              && nodes[reported.name].allocatable == reported.allocatable
              && nodes[reported.name].status
                 == if reported.name in old(nodes) then old(nodes)[reported.name].status else NotReady
      ensures forall n :: n != reported.name ==>
                (n in nodes <==> n in old(nodes)) && (n in nodes ==> nodes[n] == old(nodes)[n])
      ensures nodeEvents
              == old(nodeEvents)
                 + [NodeEvent(if reported.name in old(nodes) then Modified else Added, nodes[reported.name])]
    {
      Liveness.StepKeepsInv(Streams(), Liveness.Register(reported));
      var status := if reported.name in nodes then nodes[reported.name].status else NotReady;
      var eventType := if reported.name in nodes then Modified else Added;
      nodes := nodes[reported.name := reported.(status := status)];
      nodeEvents := nodeEvents + [NodeEvent(eventType, nodes[reported.name])];
    }

    /** An event is published just when the status changes. */
    method SetNodeStatus(name: string, status: NodeStatus) returns (changed: bool)
      modifies this`nodes, this`nodeEvents
      ensures changed <==> name in old(nodes) && old(nodes)[name].status != status
      ensures nodes == Liveness.WithStatus(old(nodes), name, status)
      ensures name in old(nodes) ==> nodes == old(nodes)[name := old(nodes)[name].(status := status)]
      ensures name !in old(nodes) ==> nodes == old(nodes)
      ensures nodeEvents == old(nodeEvents) + if changed then [NodeEvent(Modified, nodes[name])] else []
    {
      if name !in nodes || nodes[name].status == status {
        return false;
      }
      nodes := nodes[name := nodes[name].(status := status)];
      nodeEvents := nodeEvents + [NodeEvent(Modified, nodes[name])];
      return true;
    }

    method NodeWatchStarted(name: string) returns (known: bool)
      requires Valid()
      modifies this`nodes, this`nodeWatchers, this`nodeEvents, this`open
      ensures Valid()
      ensures known <==> name in old(nodes)
      ensures !known ==> Streams() == old(Streams()) && nodeEvents == old(nodeEvents)
      ensures known ==>
                && name in nodes && nodes[name].status == Ready
                && Streams().Count(name) == old(Streams()).Count(name) + 1
                && open == old(open) + multiset{name} && teardowns == old(teardowns)
                && (forall n :: n != name ==>
                      Streams().Count(n) == old(Streams()).Count(n)
                      && (n in nodes <==> n in old(nodes)) && (n in nodes ==> nodes[n] == old(nodes)[n]))
      ensures nodeEvents == old(nodeEvents)
              + if known && old(nodes)[name].status != Ready
                then [NodeEvent(Modified, old(nodes)[name].(status := Ready))] else []
    {
      if name !in nodes {
        return false;
      }
      ghost var start := Streams();
      assert Liveness.Accurate(start, name);
      var current := if name in nodeWatchers then nodeWatchers[name] else 0;
      ghost var locked := Liveness.Next(start, Liveness.OpenLock(name));
      Liveness.StepKeepsInv(start, Liveness.OpenLock(name));
      ghost var marked := locked;
      if current == 0 {
        var _ := SetNodeStatus(name, Ready);
        Liveness.StepKeepsInv(locked, Liveness.OpenMark);
        marked := Liveness.Next(locked, Liveness.OpenMark);
      }
      Liveness.StepKeepsInv(marked, Liveness.OpenCount);
      nodeWatchers := nodeWatchers[name := current + 1];
      open := open + multiset{name};
      assert Streams() == Liveness.Next(marked, Liveness.OpenCount);
      assert Liveness.Accurate(Streams(), name);
      return true;
    }

    /** Dropping a stream only queues its teardown. */
    ghost method DropStream(name: string)
      requires Valid() && name in open
      modifies this`open, this`teardowns
      ensures Valid() && Streams() == Liveness.Next(old(Streams()), Liveness.StreamDropped(name))
    {
      Liveness.StepKeepsInv(Streams(), Liveness.StreamDropped(name));
      open := open - multiset{name};
      teardowns := teardowns + multiset{name};
    }

    method NodeWatchEnded(name: string)
      requires Valid() && name in teardowns
      modifies this`nodes, this`nodeWatchers, this`nodeEvents, this`teardowns
      ensures Valid()
      ensures Streams().Count(name) == old(Streams()).Count(name) - 1
      ensures open == old(open) && teardowns == old(teardowns) - multiset{name}
      ensures nodes
              == if Streams().Count(name) == 0 then Liveness.WithStatus(old(nodes), name, NotReady) else old(nodes)
      ensures name in nodes && (nodes[name].status == Ready <==> Streams().Count(name) > 0)
      ensures nodeEvents == old(nodeEvents) + if nodes != old(nodes) then [NodeEvent(Modified, nodes[name])] else []
      ensures forall n :: n != name ==> Streams().Count(n) == old(Streams()).Count(n)
    {
      ghost var start := Streams();
      assert Liveness.Accurate(start, name);
      Liveness.StepKeepsInv(start, Liveness.CloseLock(name));
      ghost var locked := Liveness.Next(start, Liveness.CloseLock(name));
      teardowns := teardowns - multiset{name};
      if name !in nodeWatchers {
        return;
      }
      var count := if nodeWatchers[name] > 0 then nodeWatchers[name] - 1 else 0;
      nodeWatchers := nodeWatchers[name := count];
      if count > 0 {
        assert Streams() == locked;
        return;
      }
      nodeWatchers := nodeWatchers - {name};
      assert nodeWatchers == start.watchers - {name};
      var _ := SetNodeStatus(name, NotReady);
      Liveness.StepKeepsInv(locked, Liveness.CloseMark);
      assert Streams() == Liveness.Next(locked, Liveness.CloseMark);
    }
  }

  /** `list` holds each pod outside `left` that is placed, or is not, once. */
  ghost predicate Lists(list: seq<PodDetail>, pods: PodWatch.Pods, left: set<PodKey>, placed: bool) {
    && (forall k :: k in pods && k !in left && (pods[k].nodeName != "" <==> placed) ==> pods[k] in list)
    && (forall d :: d in list ==>
          && (d.nodeName != "" <==> placed)
          && KeyOfDetail(d) in pods && pods[KeyOfDetail(d)] == d && KeyOfDetail(d) !in left)
    && (forall i, j :: 0 <= i < j < |list| ==> KeyOfDetail(list[i]) != KeyOfDetail(list[j]))
  }

  lemma SortedSnapshot(placed: seq<PodDetail>, waiting: seq<PodDetail>, pods: PodWatch.Pods)
    requires Lists(placed, pods, {}, true) && Lists(waiting, pods, {}, false)
    ensures PodWatch.Snapshots(placed + waiting, pods)
  {
  }
}
