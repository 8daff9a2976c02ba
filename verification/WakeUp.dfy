/** Which changes of the scheduler's view can make room for a waiting pod: the facts
    behind sweeping `pending` after some events only (scheduler/src/main.rs). */
module WakeUp {
  import opened Shared
  import opened Ledger
  import opened Basic
  import opened Placing

  /** What a task carries for one pod. */
  datatype Waiting = Waiting(pod: Pod, ports: seq<Port>) {
    predicate NonNegative() {
      LimitsOrDefault(pod.limits).NonNegative()
    }
  }

  /** What the mutex guards. */
  datatype Core = Core(view: View, pending: map<PodKey, Waiting>)

  /** `k`, where it waits or is placed, asks for these limits and ports. */
  predicate AsksFor(s: Core, k: PodKey, limits: Resources, ports: seq<Port>) {
    && (k in s.pending ==> s.pending[k].pod.limits == Some(limits) && s.pending[k].ports == ports)
    && (k in s.view.placements ==> s.view.placements[k].limits == limits && s.view.placements[k].ports == ports)
  }

  /** No pod is both waiting and placed. */
  predicate Apart(s: Core) {
    s.pending.Keys !! s.view.placements.Keys
  }

  /** Nobody asks for less than nothing. */
  ghost predicate NonNegative(s: Core) {
    && NonNegativeLimits(s.view.placements)
    && forall k :: k in s.pending ==> s.pending[k].NonNegative()
  }

  /** Every waiting pod is unplaceable now, except those excused. */
  ghost predicate Settled(s: Core, excused: set<PodKey>) {
    forall k :: k in s.pending && k !in excused ==> Unplaceable(s.view, s.pending[k].pod, s.pending[k].ports)
  }

  ghost predicate FitsNowhere(v: View, limits: Resources, ports: seq<Port>) {
    forall n :: !Fits(v, limits, ports, n)
  }

  /** Going from `v` to `w` makes no pod placeable that was not. */
  ghost predicate WakesNobody(v: View, w: View) {
    forall limits: Resources, ports ::
      limits.NonNegative() && FitsNowhere(v, limits, ports) ==> FitsNowhere(w, limits, ports)
  }

  /** A Ready node that reports what it can allocate. */
  predicate Measured(v: View, name: string) {
    name in v.nodes && IsReady(v.nodes[name]) && v.nodes[name].allocatable.Some?
  }

  function FreeOn(v: View, name: string): Resources
    requires Measured(v, name)
  {
    v.EffectiveAllocatable(v.nodes[name]).value
  }

  /** Measured nodes that offer no more than before wake nobody. */
  lemma RoomIsMonotone(v: View, w: View)
    requires forall n :: n in v.nodes ==> v.nodes[n].name == n
    requires forall n :: Measured(w, n) ==>
               && Measured(v, n)
               && w.nodes[n].name == n
               && FreeOn(w, n).AtMost(FreeOn(v, n))
               && v.PortsOn(n) <= w.PortsOn(n)
    ensures WakesNobody(v, w)
  {
    forall limits: Resources, ports | FitsNowhere(v, limits, ports) ensures FitsNowhere(w, limits, ports) {
      forall n | Fits(w, limits, ports, n) ensures Fits(v, limits, ports, n) {
        assert Measured(w, n);
      }
    }
  }

  /** A node report for which `upsert_node` answers false, or of a node that is not
      Ready, wakes nobody. */
  lemma UpsertWakesNobody(v: View, node: Node)
    requires Conserved(v)
    requires !CouldUnblock(v, node) || node.status != Ready
    ensures WakesNobody(v, Upsert(v, node))
  {
    RoomIsMonotone(v, Upsert(v, node));
  }

  lemma EvictWakesNobody(v: View, name: string)
    requires Conserved(v) && !Measured(v, name)
    ensures WakesNobody(v, Evict(v, name))
  {
    EvictBooks(v, name);
    RoomIsMonotone(v, Evict(v, name));
  }

  lemma RemoveNodeWakesNobody(v: View, name: string)
    requires Conserved(v)
    ensures WakesNobody(v, RemoveNode(v, name))
  {
    RoomIsMonotone(v, RemoveNode(v, name));
  }

  // ----- Recording a placement over another -------------------------------------

  /** What recording `p` for `k` leaves free on the node the pod is on now. */
  function FreeAfter(v: View, k: PodKey, p: Placement): Resources
    requires k in v.placements && Measured(v, v.placements[k].node)
  {
    var q := v.placements[k];
    var allocatable := v.nodes[q.node].allocatable.value;
    var claim := v.ClaimedOn(q.node).Minus(q.limits).Plus(if p.node == q.node then p.limits else NO_RESOURCES);
    Resources(Clamp(allocatable.cpu - claim.cpu), Clamp(allocatable.memory - claim.memory))
  }

  /** ... and the ports it leaves claimed there. */
  function PortsAfter(v: View, k: PodKey, p: Placement): set<PortKey>
    requires k in v.placements
  {
    var q := v.placements[k];
    v.PortsOn(q.node) - PortKeys(q.ports) + if p.node == q.node then PortKeys(p.ports) else {}
  }

  /** Recording `p` for `k` leaves the node the pod is on now, a measured one, with
      something free and such that no measured node offers as much already. */
  predicate MissesWakeUp(v: View, k: PodKey, p: Placement) {
    && k in v.placements
    && Measured(v, v.placements[k].node)
    && var free, taken := FreeAfter(v, k, p), PortsAfter(v, k, p);
       && free.Exceeds(NO_RESOURCES)
       && forall m :: m in v.nodes && Measured(v, m) ==> !(free.AtMost(FreeOn(v, m)) && v.PortsOn(m) <= taken)
  }

  lemma RecordElsewhere(v: View, k: PodKey, p: Placement, n: string)
    requires Conserved(v) && p.limits.NonNegative() && Measured(v, n)
    requires k in v.placements ==> v.placements[k].node != n
    ensures Measured(Record(v, k, p), n) && FreeOn(Record(v, k, p), n).AtMost(FreeOn(v, n))
    ensures v.PortsOn(n) <= Record(v, k, p).PortsOn(n)
  {
  }

  lemma RecordHere(v: View, k: PodKey, p: Placement)
    requires Conserved(v) && k in v.placements && v.placements[k] != p && Measured(v, v.placements[k].node)
    ensures var n, w := v.placements[k].node, Record(v, k, p);
            Measured(w, n) && FreeOn(w, n) == FreeAfter(v, k, p) && w.PortsOn(n) == PortsAfter(v, k, p)
  {
    var n := v.placements[k].node;
    assert v.nodes[n].name == n && n in v.claimed && n in v.claimedPorts;
  }

  lemma UnmovedMissesNothing(v: View, k: PodKey)
    requires Conserved(v) && k in v.placements
    ensures !MissesWakeUp(v, k, v.placements[k])
  {
    var n := v.placements[k].node;
    if Measured(v, n) {
      assert v.nodes[n].name == n;
      assert FreeAfter(v, k, v.placements[k]) == FreeOn(v, n);
      assert v.PortsOn(n) <= PortsAfter(v, k, v.placements[k]);
    }
  }

  /** A waiting pod that fits after the record, while the record misses no wake-up,
      fitted somewhere before. */
  lemma FittedBefore(v: View, k: PodKey, p: Placement, limits: Resources, ports: seq<Port>, n: string)
    requires Conserved(v) && p.limits.NonNegative() && limits.NonNegative()
    requires !MissesWakeUp(v, k, p) && Fits(Record(v, k, p), limits, ports, n)
    ensures !FitsNowhere(v, limits, ports)
  {
    assert Measured(v, n) && v.nodes[n].name == n;
    if k in v.placements && v.placements[k] == p {
    } else if k in v.placements && v.placements[k].node == n {
      RecordHere(v, k, p);
      var m :| m in v.nodes && Measured(v, m)
               && FreeAfter(v, k, p).AtMost(FreeOn(v, m)) && v.PortsOn(m) <= PortsAfter(v, k, p);
      assert v.nodes[m].name == m;
      assert Fits(v, limits, ports, m);
    } else {
      RecordElsewhere(v, k, p, n);
      assert Fits(v, limits, ports, n);
    }
  }

  lemma {:induction false} PortsFor(keys: set<PortKey>) returns (ports: seq<Port>)
    ensures PortKeys(ports) == keys
  {
    if keys == {} {
      ports := [];
    } else {
      var q :| q in keys;
      var rest := PortsFor(keys - {q});
      ports := rest + [Port(0, q.external, q.protocol)];
      assert forall port :: port in ports <==> port in rest || port == Port(0, q.external, q.protocol);
      assert KeyOf(Port(0, q.external, q.protocol)) == q;
      assert PortKeys(ports) == PortKeys(rest) + {q};
    }
  }

  /** A pod asking for everything the node will have left, and for every host port
      claimed anywhere but there, fits nowhere before and on that node after. */
  lemma SomebodyWakes(v: View, k: PodKey, p: Placement) returns (limits: Resources, ports: seq<Port>)
    requires Conserved(v) && MissesWakeUp(v, k, p)
    ensures limits.NonNegative() && FitsNowhere(v, limits, ports)
    ensures Fits(Record(v, k, p), limits, ports, v.placements[k].node)
  {
    if v.placements[k] == p {
      UnmovedMissesNothing(v, k);
    }
    var n, free, taken := v.placements[k].node, FreeAfter(v, k, p), PortsAfter(v, k, p);
    var claimed := set m, q | m in v.claimedPorts && q in v.claimedPorts[m] :: q;
    limits := Resources(free.cpu - 1, free.memory - 1);
    ports := PortsFor(claimed - taken);
    RecordHere(v, k, p);
    assert v.nodes[n].name == n;
    forall m ensures !Fits(v, limits, ports, m) {
      if m in v.nodes && Measured(v, m) {
        assert v.nodes[m].name == m;
        if free.AtMost(FreeOn(v, m)) {
          var q :| q in v.PortsOn(m) && q !in taken;
          assert q in claimed - taken;
        }
      }
    }
  }

  /** A record wakes somebody exactly when it leaves the pod's old node offering
      what no Ready node offered. */
  lemma RecordWakesNobodyIff(v: View, k: PodKey, p: Placement)
    requires Conserved(v) && p.limits.NonNegative()
    ensures WakesNobody(v, Record(v, k, p)) <==> !MissesWakeUp(v, k, p)
  {
    if MissesWakeUp(v, k, p) {
      var limits, ports := SomebodyWakes(v, k, p);
      assert !FitsNowhere(Record(v, k, p), limits, ports);
    } else {
      forall limits: Resources, ports | limits.NonNegative() && FitsNowhere(v, limits, ports)
        ensures FitsNowhere(Record(v, k, p), limits, ports)
      {
        if n: string :| Fits(Record(v, k, p), limits, ports, n) {
          FittedBefore(v, k, p, limits, ports, n);
        }
      }
    }
  }

  lemma SettledAfter(s: Core, t: Core, excused: set<PodKey>)
    requires Settled(s, excused) && NonNegative(s) && WakesNobody(s.view, t.view)
    requires forall k :: k in t.pending ==> k in s.pending && t.pending[k] == s.pending[k]
    ensures Settled(t, excused)
  {
    forall k | k in t.pending && k !in excused
      ensures Unplaceable(t.view, t.pending[k].pod, t.pending[k].ports)
    {
      var pod, ports := s.pending[k].pod, s.pending[k].ports;
      assert Unplaceable(s.view, pod, ports) && s.pending[k].NonNegative();
      if pod.limits.Some? {
        assert FitsNowhere(s.view, pod.limits.value, ports);
        assert FitsNowhere(t.view, pod.limits.value, ports);
      }
    }
  }

  lemma FitsUnsettles(s: Core, k: PodKey, limits: Resources, n: string)
    requires k in s.pending && s.pending[k].pod.limits == Some(limits) && Fits(s.view, limits, s.pending[k].ports, n)
    ensures !Settled(s, {})
  {
    assert !Unplaceable(s.view, s.pending[k].pod, s.pending[k].ports);
  }

  function Recorded(v: View, pending: map<PodKey, Waiting>, k: PodKey, p: Placement): Core {
    Core(Record(v, k, p), pending - {k})
  }

  /** The exact condition for a pod event to need no sweep: recording the pod keeps
      every settled waiting set settled if and only if it misses no wake-up. */
  lemma RecordSettledIff(v: View, k: PodKey, p: Placement, newcomer: PodKey)
    requires Conserved(v) && NonNegativeLimits(v.placements) && p.limits.NonNegative()
    requires newcomer != k && newcomer !in v.placements
    ensures (forall pending ::
               var s := Core(v, pending);
               NonNegative(s) && Apart(s) && Settled(s, {}) ==> Settled(Recorded(v, pending, k, p), {}))
            <==> !MissesWakeUp(v, k, p)
  {
    RecordWakesNobodyIff(v, k, p);
    if MissesWakeUp(v, k, p) {
      var limits, ports := SomebodyWakes(v, k, p);
      var pending := map[newcomer := Waiting(Pod("", Pending, Some(limits)), ports)];
      var s := Core(v, pending);
      assert NonNegative(s) && Apart(s) && Settled(s, {});
      FitsUnsettles(Recorded(v, pending, k, p), newcomer, limits, v.placements[k].node);
    } else {
      forall pending | var s := Core(v, pending); NonNegative(s) && Apart(s) && Settled(s, {})
        ensures Settled(Recorded(v, pending, k, p), {})
      {
        SettledAfter(Core(v, pending), Recorded(v, pending, k, p), {});
      }
    }
  }

  /** One Ready node with (10, 10) to give and one pod on it that holds (5, 5). */
  lemma OneNode(key: PodKey, a: string) returns (v: View)
    ensures Conserved(v) && v.placements == map[key := Placement(a, Resources(5, 5), [])]
    ensures v.nodes == map[a := Node(a, Ready, Some(Resources(10, 10)), Some(Resources(10, 10)))]
    ensures v.ClaimedOn(a) == Resources(5, 5) && v.PortsOn(a) == {}
  {
    var node := Node(a, Ready, Some(Resources(10, 10)), Some(Resources(10, 10)));
    EmptyConserved();
    ApplyConserves(EMPTY, DoUpsert(node));
    RecordConserves(Upsert(EMPTY, node), key, Placement(a, Resources(5, 5), []));
    v := Record(Upsert(EMPTY, node), key, Placement(a, Resources(5, 5), []));
  }

  lemma OneNodeMissed(v: View, key: PodKey, a: string, b: string)
    requires a != b && Conserved(v) && v.placements == map[key := Placement(a, Resources(5, 5), [])]
    requires v.nodes == map[a := Node(a, Ready, Some(Resources(10, 10)), Some(Resources(10, 10)))]
    requires v.ClaimedOn(a) == Resources(5, 5) && v.PortsOn(a) == {}
    ensures FitsNowhere(v, Resources(5, 5), [])
    ensures MissesWakeUp(v, key, Placement(b, Resources(5, 5), []))
    ensures Fits(Record(v, key, Placement(b, Resources(5, 5), [])), Resources(5, 5), [], a)
  {
    var moved := Placement(b, Resources(5, 5), []);
    assert FreeOn(v, a) == Resources(5, 5) && FreeAfter(v, key, moved) == Resources(10, 10);
    RecordHere(v, key, moved);
  }

  /** Such records happen: a pod moved off a Ready node frees room there, and a pod
      that waited for that room stays unplaced although it now fits. */
  lemma MovedPlacementMissesWakeUp(key: PodKey, waiting: PodKey, a: string, b: string)
    returns (s: Core, moved: Placement)
    requires key != waiting && a != b
    ensures Conserved(s.view) && NonNegative(s) && Apart(s) && Settled(s, {})
    ensures key in s.view.placements && waiting in s.pending
    ensures MissesWakeUp(s.view, key, moved)
    ensures !Settled(Recorded(s.view, s.pending, key, moved), {})
  {
    var v := OneNode(key, a);
    OneNodeMissed(v, key, a, b);
    moved := Placement(b, Resources(5, 5), []);
    s := Core(v, map[waiting := Waiting(Pod("w", Pending, Some(Resources(5, 5))), [])]);
    assert Settled(s, {}) by {
      assert Unplaceable(v, s.pending[waiting].pod, []);
    }
    FitsUnsettles(Recorded(v, s.pending, key, moved), waiting, Resources(5, 5), a);
  }
}
