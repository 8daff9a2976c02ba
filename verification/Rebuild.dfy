/** A restarted scheduler and the API server agree on what each node has left:
    the claims rebuilt from the pod watch's snapshot (scheduler/src/main.rs)
    against `live_allocatable` (api/src/handlers/cli.rs). */
module Rebuild {
  import opened Shared
  import opened PodRecords
  import opened Ledger
  import opened Basic
  import opened WakeUp
  import opened SchedulerMain
  import PodWatch

  /** What a stored pod takes from `name`. */
  function Share(d: PodDetail, name: string): Resources {
    if d.nodeName == name && LimitsOf(d).Some? then LimitsOf(d).value else NO_RESOURCES
  }

  /** The limits of the pods stored as running on `name`, summed in list order. */
  function Allocated(pods: seq<PodDetail>, name: string): Resources {
    if pods == [] then NO_RESOURCES
    else Allocated(pods[..|pods| - 1], name).Plus(Share(pods[|pods| - 1], name))
  }

  function LiveAllocatable(node: Node, pods: seq<PodDetail>): Option<Resources> {
    match node.capacity
    case None => None
    case Some(capacity) =>
      var held := Allocated(pods, node.name);
      Some(Resources(Clamp(capacity.cpu - held.cpu), Clamp(capacity.memory - held.memory)))
  }

  /** What HandlePodEvent does to the view for one Added event that names a node
      not known NOT_READY. */
  function ReplayOne(v: View, d: PodDetail): View {
    if PodOf(d).None? || d.nodeName == "" || v.IsConfirmedNotReady(d.nodeName) then v
    else Record(v, KeyOfDetail(d), PlacementFrom(d))
  }

  function Replay(v: View, pods: seq<PodDetail>): View {
    if pods == [] then v else ReplayOne(Replay(v, pods[..|pods| - 1]), pods[|pods| - 1])
  }

  function StoredKeys(pods: seq<PodDetail>): set<PodKey> {
    set d | d in pods :: KeyOfDetail(d)
  }

  predicate DistinctPods(pods: seq<PodDetail>) {
    forall i, j :: 0 <= i < j < |pods| ==> KeyOfDetail(pods[i]) != KeyOfDetail(pods[j])
  }

  predicate NoneNotReady(nodes: map<string, Node>) {
    forall n :: n in nodes ==> nodes[n].status != NotReady
  }

  lemma RecordClaims(v: View, k: PodKey, p: Placement, name: string)
    requires k !in v.placements
    ensures Record(v, k, p).nodes == v.nodes
    ensures Record(v, k, p).ClaimedOn(name)
            == v.ClaimedOn(name).Plus(if p.node == name then p.limits else NO_RESOURCES)
    ensures forall j :: j in Record(v, k, p).placements ==> j in v.placements || j == k
  {
  }

  lemma ReplayOneRecords(v: View, d: PodDetail)
    requires NoneNotReady(v.nodes)
    ensures ReplayOne(v, d)
            == if PodOf(d).None? || d.nodeName == "" then v else Record(v, KeyOfDetail(d), PlacementFrom(d))
  {
  }

  lemma ReplayOneClaims(v: View, d: PodDetail, name: string)
    requires KeyOfDetail(d) !in v.placements && name != "" && NoneNotReady(v.nodes)
    ensures ReplayOne(v, d).nodes == v.nodes
    ensures ReplayOne(v, d).ClaimedOn(name) == v.ClaimedOn(name).Plus(Share(d, name))
    ensures forall k :: k in ReplayOne(v, d).placements ==> k in v.placements || k == KeyOfDetail(d)
  {
    ReplayOneRecords(v, d);
    if PodOf(d).None? || d.nodeName == "" {
      assert Share(d, name) == NO_RESOURCES;
    } else {
      RecordClaims(v, KeyOfDetail(d), PlacementFrom(d), name);
      assert d.nodeName == name ==> LimitsOrDefault(LimitsOf(d)) == Share(d, name);
    }
  }

  lemma StoredKeysSnoc(pods: seq<PodDetail>)
    requires pods != []
    ensures StoredKeys(pods) == StoredKeys(pods[..|pods| - 1]) + {KeyOfDetail(pods[|pods| - 1])}
    ensures DistinctPods(pods) ==>
              DistinctPods(pods[..|pods| - 1])
              && KeyOfDetail(pods[|pods| - 1]) !in StoredKeys(pods[..|pods| - 1])
  {
  }

  lemma {:induction false} ReplayClaims(v: View, pods: seq<PodDetail>, name: string)
    requires DistinctPods(pods) && name != "" && NoneNotReady(v.nodes)
    requires v.ClaimedOn(name) == NO_RESOURCES && forall k :: k !in v.placements
    ensures Replay(v, pods).nodes == v.nodes
    ensures Replay(v, pods).ClaimedOn(name) == Allocated(pods, name)
    ensures forall k :: k in Replay(v, pods).placements ==> k in StoredKeys(pods)
  {
    if pods != [] {
      var rest, last := pods[..|pods| - 1], pods[|pods| - 1];
      StoredKeysSnoc(pods);
      ReplayClaims(v, rest, name);
      ReplayOneClaims(Replay(v, rest), last, name);
      assert Replay(v, pods) == ReplayOne(Replay(v, rest), last);
    }
  }

  /** The ledger a list of stored pods rebuilds. */
  lemma {:induction false} ReplayLedger(v: View, pods: seq<PodDetail>)
    requires DistinctPods(pods) && NoneNotReady(v.nodes) && Conserved(v) && forall k :: k !in v.placements
    ensures Replay(v, pods).nodes == v.nodes && Conserved(Replay(v, pods))
    ensures forall k :: k in Replay(v, pods).placements <==>
              exists d :: d in pods && KeyOfDetail(d) == k && PodOf(d).Some? && d.nodeName != ""
    ensures forall d :: d in pods && KeyOfDetail(d) in Replay(v, pods).placements ==>
              Replay(v, pods).placements[KeyOfDetail(d)] == PlacementFrom(d)
  {
    if pods != [] {
      var rest, last := pods[..|pods| - 1], pods[|pods| - 1];
      StoredKeysSnoc(pods);
      ReplayLedger(v, rest);
      var w := Replay(v, rest);
      ReplayOneRecords(w, last);
      RecordConserves(w, KeyOfDetail(last), PlacementFrom(last));
      assert forall d :: d in pods <==> d in rest || d == last;
      assert forall d :: d in rest ==> KeyOfDetail(d) in StoredKeys(rest);
    }
  }

  lemma SameLedger(a: seq<PodDetail>, b: seq<PodDetail>)
    requires DistinctPods(a) && DistinctPods(b) && forall d :: d in a <==> d in b
    ensures Replay(EMPTY, a).placements == Replay(EMPTY, b).placements
    ensures Conserved(Replay(EMPTY, a)) && Conserved(Replay(EMPTY, b))
  {
    EmptyConserved();
    ReplayLedger(EMPTY, a);
    ReplayLedger(EMPTY, b);
    var v, w := Replay(EMPTY, a).placements, Replay(EMPTY, b).placements;
    forall k | k in v ensures k in w && w[k] == v[k] {
      var d :| d in a && KeyOfDetail(d) == k && PodOf(d).Some? && d.nodeName != "";
      assert d in b;
    }
    forall k | k in w ensures k in v {
      var d :| d in b && KeyOfDetail(d) == k && PodOf(d).Some? && d.nodeName != "";
      assert d in a;
    }
  }

  /** The API sums its pods in the order its own table yields them; the order does
      not matter. */
  lemma AllocatedInAnyOrder(a: seq<PodDetail>, b: seq<PodDetail>, name: string)
    requires DistinctPods(a) && DistinctPods(b) && name != "" && forall d :: d in a <==> d in b
    ensures Allocated(a, name) == Allocated(b, name)
  {
    ReplayClaims(EMPTY, a, name);
    ReplayClaims(EMPTY, b, name);
    SameLedger(a, b);
    var v, w := Replay(EMPTY, a), Replay(EMPTY, b);
    assert v.ClaimedOn(name) == Total(v.placements, name) && w.ClaimedOn(name) == Total(w.placements, name);
  }

  /** From an empty scheduler that has heard of the nodes, none of them NOT_READY
      and each with allocatable equal to capacity, replaying the pods of a watch
      snapshot gives every node exactly what the API reports as live over the same
      pods, in whatever order it lists them. */
  lemma RebuildAgreesWithApi(
    nodes: map<string, Node>, snapshot: seq<PodDetail>, listed: seq<PodDetail>, node: Node)
    requires DistinctPods(snapshot) && DistinctPods(listed) && forall d :: d in snapshot <==> d in listed
    requires NoneNotReady(nodes) && node.name != "" && node.allocatable == node.capacity
    ensures Replay(EMPTY.(nodes := nodes), snapshot).EffectiveAllocatable(node) == LiveAllocatable(node, listed)
  {
    ReplayClaims(EMPTY.(nodes := nodes), snapshot, node.name);
    AllocatedInAnyOrder(snapshot, listed, node.name);
  }

  /** Pods that name no node add nothing. */
  lemma {:induction false} ReplayAssigned(v: View, snapshot: seq<PodDetail>, n: nat)
    requires n <= |snapshot| && forall i :: n <= i < |snapshot| ==> snapshot[i].nodeName == ""
    ensures Replay(v, snapshot[..n]) == Replay(v, snapshot)
    decreases |snapshot| - n
  {
    if n == |snapshot| {
      assert snapshot[..n] == snapshot;
    } else {
      assert snapshot[..n + 1][..n] == snapshot[..n];
      ReplayAssigned(v, snapshot, n + 1);
    }
  }

  lemma NextIsFresh(v: View, snapshot: seq<PodDetail>, n: nat)
    requires n < |snapshot| && DistinctPods(snapshot)
    requires NoneNotReady(v.nodes) && Conserved(v) && forall k :: k !in v.placements
    ensures Replay(v, snapshot[..n]).nodes == v.nodes
    ensures KeyOfDetail(snapshot[n]) !in Replay(v, snapshot[..n]).placements
    ensures Replay(v, snapshot[..n + 1]) == ReplayOne(Replay(v, snapshot[..n]), snapshot[n])
  {
    assert snapshot[..n + 1][..n] == snapshot[..n];
    StoredKeysSnoc(snapshot[..n + 1]);
    ReplayLedger(v, snapshot[..n]);
  }

  lemma SnapshotIsListed(snapshot: seq<PodDetail>, pods: PodWatch.Pods, listed: seq<PodDetail>)
    requires PodWatch.Keyed(pods) && PodWatch.Snapshots(snapshot, pods)
    requires forall d :: d in listed <==> d in pods.Values
    ensures DistinctPods(snapshot) && forall d :: d in snapshot <==> d in listed
    ensures forall k :: k in pods ==> pods[k] in snapshot && KeyOfDetail(pods[k]) == k
  {
  }

  lemma SnapshotTaken(
    nodes: map<string, Node>, snapshot: seq<PodDetail>, taken: nat, pods: PodWatch.Pods, listed: seq<PodDetail>)
    requires PodWatch.Keyed(pods) && PodWatch.Snapshots(snapshot, pods)
    requires DistinctPods(listed) && forall d :: d in listed <==> d in pods.Values
    requires Conserved(EMPTY.(nodes := nodes)) && NoneNotReady(nodes)
    requires taken <= |snapshot| && forall i :: taken <= i < |snapshot| ==> snapshot[i].nodeName == ""
    ensures var v := Replay(EMPTY.(nodes := nodes), snapshot[..taken]);
            && (forall k :: k in pods && PodOf(pods[k]).Some? && pods[k].nodeName != "" ==>
                  k in v.placements && v.placements[k] == PlacementFrom(pods[k]))
            && (forall node: Node :: node.name != "" && node.allocatable == node.capacity ==>
                  v.EffectiveAllocatable(node) == LiveAllocatable(node, listed))
  {
    var start := EMPTY.(nodes := nodes);
    var v := Replay(start, snapshot[..taken]);
    ReplayAssigned(start, snapshot, taken);
    ReplayLedger(start, snapshot);
    SnapshotIsListed(snapshot, pods, listed);
    forall node: Node | node.name != "" && node.allocatable == node.capacity
      ensures v.EffectiveAllocatable(node) == LiveAllocatable(node, listed)
    {
      RebuildAgreesWithApi(nodes, snapshot, listed, node);
    }
  }

  /** The watch's handler does to a stored assignment what ReplayOne says. */
  method TakeOne(state: SchedulerState, d: PodDetail)
    requires state.Valid() && state.pending == map[] && NoneNotReady(state.scheduler.nodes)
    requires d.nodeName != ""
    modifies state, state.scheduler
    ensures state.Valid() && state.State() == Core(ReplayOne(old(state.State()).view, d), map[])
  {
    assert state.State().pending == map[];
    var _, _, _ := state.HandlePodEvent(PodEvent(Added, d), {});
  }

  /** The watch loop up to the first pod that names no node. */
  method TakeAssigned(state: SchedulerState, ghost nodes: map<string, Node>, snapshot: seq<PodDetail>)
    returns (taken: nat)
    requires DistinctPods(snapshot) && NoneNotReady(nodes)
    requires state.State() == Core(EMPTY.(nodes := nodes), map[]) && state.Valid()
    modifies state, state.scheduler
    ensures state.Valid()
    ensures taken <= |snapshot| && (taken < |snapshot| ==> snapshot[taken].nodeName == "")
    ensures forall i :: 0 <= i < taken ==> snapshot[i].nodeName != ""
    ensures state.State() == Core(Replay(EMPTY.(nodes := nodes), snapshot[..taken]), map[])
  {
    ghost var start := EMPTY.(nodes := nodes);
    taken := 0;
    while taken < |snapshot| && snapshot[taken].nodeName != ""
      invariant taken <= |snapshot| && forall i :: 0 <= i < taken ==> snapshot[i].nodeName != ""
      invariant state.Valid() && state.State() == Core(Replay(start, snapshot[..taken]), map[])
    {
      NextIsFresh(start, snapshot, taken);
      TakeOne(state, snapshot[taken]);
      taken := taken + 1;
    }
  }

  /** A restarted scheduler taking in the snapshot its pod watch opens with, after
      it has heard of the nodes, until the first pod that names no node: from there
      on only such pods follow, every stored assignment is recorded, and each node
      has left exactly what the API reports as live over the same table. */
  method TakeSnapshot(
    state: SchedulerState, ghost nodes: map<string, Node>, snapshot: seq<PodDetail>, ghost pods: PodWatch.Pods,
    ghost listed: seq<PodDetail>)
    returns (taken: nat)
    requires PodWatch.Keyed(pods) && PodWatch.Snapshots(snapshot, pods)
    requires DistinctPods(listed) && forall d :: d in listed <==> d in pods.Values
    requires state.State() == Core(EMPTY.(nodes := nodes), map[]) && state.Valid()
    requires NoneNotReady(nodes)
    modifies state, state.scheduler
    ensures taken <= |snapshot| && forall i :: 0 <= i < |snapshot| ==> (snapshot[i].nodeName != "" <==> i < taken)
    ensures state.Valid() && state.pending == map[]
    ensures forall k :: k in pods && PodOf(pods[k]).Some? && pods[k].nodeName != "" ==>
              k in state.scheduler.placements && state.scheduler.placements[k] == PlacementFrom(pods[k])
    ensures forall node: Node :: node.name != "" && node.allocatable == node.capacity ==>
              state.State().view.EffectiveAllocatable(node) == LiveAllocatable(node, listed)
  {
    taken := TakeAssigned(state, nodes, snapshot);
    SnapshotTaken(nodes, snapshot, taken, pods, listed);
    assert state.State().pending == map[];
  }
}
