/** `BasicScheduler` (scheduler/src/schedulers/basic.rs): four hash maps kept in
    step by hand. `View` is the value of the four maps, each mutating method is
    specified by a function on views, and the lemmas say what those functions
    mean in terms of the ledger alone. */
module Basic {
  import opened Shared
  import opened Ledger

  datatype View = View(
    nodes: map<string, Node>,
    claimed: map<string, Resources>,
    claimedPorts: map<string, set<PortKey>>,
    placements: Placements)
  {
    function ClaimedOn(node: string): Resources {
      if node in claimed then claimed[node] else NO_RESOURCES
    }

    function PortsOn(node: string): set<PortKey> {
      if node in claimedPorts then claimedPorts[node] else {}
    }

    predicate IsConfirmedNotReady(node: string) {
      node in nodes && nodes[node].status == NotReady
    }

    function EffectiveAllocatable(node: Node): Option<Resources> {
      match node.allocatable
      case None => None
      case Some(allocatable) =>
        var claim := ClaimedOn(node.name);
        Some(Resources(Clamp(allocatable.cpu - claim.cpu), Clamp(allocatable.memory - claim.memory)))
    }
  }

  const EMPTY := View(map[], map[], map[], map[])

  function Clamp(x: int): int {
    if x > 0 then x else 0
  }

  // ----- The state changes, as functions ---------------------------------

  function Upsert(v: View, node: Node): View {
    v.(nodes := v.nodes[node.name := node])
  }

  function RemoveNode(v: View, name: string): View {
    View(v.nodes - {name}, v.claimed - {name}, v.claimedPorts - {name}, OffNode(v.placements, name))
  }

  /** Adds to the claims of `node`, creating its entries when it has none. */
  function Charge(v: View, node: string, limits: Resources, ports: set<PortKey>): View {
    v.(claimed := v.claimed[node := v.ClaimedOn(node).Plus(limits)],
    claimedPorts := v.claimedPorts[node := v.PortsOn(node) + ports])
  }

  /** Takes from the claims of `node`, where it has entries. */
  function Refund(v: View, node: string, limits: Resources, ports: set<PortKey>): View {
    v.(claimed := if node in v.claimed then v.claimed[node := v.claimed[node].Minus(limits)] else v.claimed,
    claimedPorts :=
      if node in v.claimedPorts then v.claimedPorts[node := v.claimedPorts[node] - ports] else v.claimedPorts)
  }

  function Release(v: View, k: PodKey): View {
    if k !in v.placements then v
    else
      var p := v.placements[k];
      Refund(v, p.node, p.limits, PortKeys(p.ports)).(placements := v.placements - {k})
  }

  function Record(v: View, k: PodKey, p: Placement): View {
    if k in v.placements && v.placements[k] == p then v
    else
      var w := Release(v, k);
      Charge(w, p.node, p.limits, PortKeys(p.ports)).(placements := w.placements[k := p])
  }

  /** `v` with the pods of `part`, all of them on `node`, taken out in one stroke:
      the node's claim falls by their sum and its claimed ports lose all of theirs. */
  ghost function Without(v: View, node: string, part: Placements): View {
    Refund(v, node, SumLimits(part), PortsHeld(part, node)).(placements := v.placements - part.Keys)
  }

  /** `v` with the pods of `part`, all of them on `node`, put in in one stroke. */
  ghost function With(v: View, node: string, part: Placements): View {
    if part == map[] then v
    else Charge(v, node, SumLimits(part), PortsHeld(part, node)).(placements := v.placements + part)
  }

  /** Eviction takes out all pods of one node and leaves every other node alone. */
  ghost function Evict(v: View, name: string): View {
    Without(v, name, OnNode(v.placements, name))
  }

  /** Whether the change of `node` could unblock a waiting pod. */
  predicate CouldUnblock(v: View, node: Node) {
    node.name !in v.nodes ||
    var existing := v.nodes[node.name];
    || (node.status == Ready && existing.status != Ready)
    || (node.allocatable.Some? &&
        (existing.allocatable.Some? ==>
           || node.allocatable.value.cpu > existing.allocatable.value.cpu
           || node.allocatable.value.memory > existing.allocatable.value.memory))
  }

  /** A report of a known node could unblock a pod exactly when the node becomes
      Ready or what it can allocate rises in some number; one that changes neither
      could not. */
  lemma CouldUnblockMeans(v: View, node: Node)
    ensures node.name !in v.nodes ==> CouldUnblock(v, node)
    ensures node.name in v.nodes ==>
              var was := v.nodes[node.name];
              (CouldUnblock(v, node) <==>
                 || (was.status != Ready && node.status == Ready)
                 || (was.allocatable.None? && node.allocatable.Some?)
                 || (was.allocatable.Some? && node.allocatable.Some?
                     && was.allocatable.value.cpu < node.allocatable.value.cpu)
                 || (was.allocatable.Some? && node.allocatable.Some?
                     && was.allocatable.value.memory < node.allocatable.value.memory))
    ensures node.name in v.nodes && v.nodes[node.name] == node ==> !CouldUnblock(v, node)
  {
  }

  /** What a record does, entry by entry. */
  lemma RecordMeans(v: View, k: PodKey, p: Placement)
    ensures Record(v, k, p).nodes == v.nodes && Record(v, k, p).placements == v.placements[k := p]
    ensures k in v.placements && v.placements[k] == p ==> Record(v, k, p) == v
    ensures !(k in v.placements && v.placements[k] == p) ==>
              forall port :: port in p.ports ==>
                               PortKey(port.protocol, port.external) in Record(v, k, p).PortsOn(p.node)
  {
    PortKeysMean(p.ports);
    forall port | port in p.ports ensures PortKey(port.protocol, port.external) in PortKeys(p.ports) {
    }
  }

  // ----- What the four maps mean -----------------------------------------

  /** The invariant of the four maps. Sums are exact; the claimed ports never
      exceed what the ledger holds (they may fall short, see PortsFallShort). */
  ghost predicate Conserved(v: View) {
    && (forall name :: name in v.nodes ==> v.nodes[name].name == name)
    && (forall k :: k in v.placements ==>
          v.placements[k].node in v.claimed && v.placements[k].node in v.claimedPorts)
    && (forall n :: v.ClaimedOn(n) == Total(v.placements, n))
    && (forall n :: v.PortsOn(n) <= PortsHeld(v.placements, n))
  }

  /** The claimed ports of `node` are exactly those its pods hold. */
  ghost predicate PortsExact(v: View, node: string) {
    v.PortsOn(node) == PortsHeld(v.placements, node)
  }

  lemma EmptyConserved()
    ensures Conserved(EMPTY)
  {
  }

  lemma ReleaseConserves(v: View, k: PodKey)
    requires Conserved(v)
    ensures Conserved(Release(v, k))
  {
    if k in v.placements {
      var w := Release(v, k);
      forall n ensures w.ClaimedOn(n) == Total(w.placements, n) {
        TotalWithout(v.placements, k, n);
        assert v.ClaimedOn(n) == Total(v.placements, n);
      }
      forall n ensures w.PortsOn(n) <= PortsHeld(w.placements, n) {
        forall q | q in w.PortsOn(n) ensures q in PortsHeld(w.placements, n) {
          assert q in v.PortsOn(n) && v.PortsOn(n) <= PortsHeld(v.placements, n);
          var j :| j in v.placements && v.placements[j].node == n && q in PortKeys(v.placements[j].ports);
          assert j != k;
          assert j in w.placements && w.placements[j].node == n;
        }
      }
    }
  }

  lemma RecordConserves(v: View, k: PodKey, p: Placement)
    requires Conserved(v)
    ensures Conserved(Record(v, k, p))
  {
    if !(k in v.placements && v.placements[k] == p) {
      var w := Release(v, k);
      ReleaseConserves(v, k);
      var r := Record(v, k, p);
      forall n ensures r.ClaimedOn(n) == Total(r.placements, n) {
        TotalWith(w.placements, k, p, n);
        assert w.ClaimedOn(n) == Total(w.placements, n);
      }
      forall n ensures r.PortsOn(n) <= PortsHeld(r.placements, n) {
        forall q | q in r.PortsOn(n) ensures q in PortsHeld(r.placements, n) {
          PortsHeldWith(w.placements, k, p, n);
          assert w.PortsOn(n) <= PortsHeld(w.placements, n);
        }
      }
    }
  }

  lemma PortsHeldWith(m: Placements, k: PodKey, p: Placement, node: string)
    requires k !in m
    ensures PortsHeld(m[k := p], node)
            == PortsHeld(m, node) + (if p.node == node then PortKeys(p.ports) else {})
  {
    var grown := m[k := p];
    forall q | q in PortsHeld(m, node) ensures q in PortsHeld(grown, node) {
      var j :| j in m && m[j].node == node && q in PortKeys(m[j].ports);
      assert j in grown && grown[j] == m[j];
    }
    forall q | p.node == node && q in PortKeys(p.ports) ensures q in PortsHeld(grown, node) {
      assert k in grown && grown[k] == p;
    }
    forall q | q in PortsHeld(grown, node)
      ensures q in PortsHeld(m, node) || (p.node == node && q in PortKeys(p.ports))
    {
      var j :| j in grown && grown[j].node == node && q in PortKeys(grown[j].ports);
      assert j == k || j in m;
    }
  }

  lemma OffNodeFacts(m: Placements, name: string, n: string)
    ensures Total(OffNode(m, name), n) == if n == name then NO_RESOURCES else Total(m, n)
    ensures PortsHeld(OffNode(m, name), n) == if n == name then {} else PortsHeld(m, n)
  {
    var rest := OffNode(m, name);
    if n == name {
      assert OnNode(rest, n) == map[];
    } else {
      assert OnNode(rest, n) == OnNode(m, n);
      forall q | q in PortsHeld(m, n) ensures q in PortsHeld(rest, n) {
        var j :| j in m && m[j].node == n && q in PortKeys(m[j].ports);
        assert j in rest && rest[j] == m[j];
      }
    }
  }

  lemma RemoveNodeConserves(v: View, name: string)
    requires Conserved(v)
    ensures Conserved(RemoveNode(v, name))
  {
    var w := RemoveNode(v, name);
    forall n
      ensures w.ClaimedOn(n) == Total(w.placements, n)
      ensures w.PortsOn(n) <= PortsHeld(w.placements, n)
    {
      OffNodeFacts(v.placements, name, n);
      assert v.ClaimedOn(n) == Total(v.placements, n) && v.PortsOn(n) <= PortsHeld(v.placements, n);
    }
  }

  /** Eviction and node removal keep the same books: same placements, same claim
      and same claimed ports for every node, the evicted one included. They
      differ in the node's own entry and in what they hand back. */
  lemma EvictMatchesRemoveNode(v: View, name: string)
    requires Conserved(v)
    ensures Conserved(Evict(v, name))
    ensures Evict(v, name).placements == RemoveNode(v, name).placements
    ensures forall n :: Evict(v, name).ClaimedOn(n) == RemoveNode(v, name).ClaimedOn(n)
    ensures forall n :: Evict(v, name).PortsOn(n) == RemoveNode(v, name).PortsOn(n)
    ensures Evict(v, name).nodes - {name} == RemoveNode(v, name).nodes
  {
    var w := Evict(v, name);
    EvictBooks(v, name);
    forall n
      ensures w.ClaimedOn(n) == RemoveNode(v, name).ClaimedOn(n) == Total(w.placements, n)
      ensures w.PortsOn(n) == RemoveNode(v, name).PortsOn(n) <= PortsHeld(w.placements, n)
    {
      OffNodeFacts(v.placements, name, n);
      assert v.ClaimedOn(n) == Total(v.placements, n) && v.PortsOn(n) <= PortsHeld(v.placements, n);
    }
  }

  // ----- Every run ---------------------------------------------------------

  datatype Op =
    | DoUpsert(node: Node)
    | DoRemove(name: string)
    | DoRecord(key: PodKey, placement: Placement)
    | DoRelease(key: PodKey)
    | DoEvict(name: string)

  ghost function Apply(v: View, op: Op): View {
    match op
    case DoUpsert(node) => Upsert(v, node)
    case DoRemove(name) => RemoveNode(v, name)
    case DoRecord(k, p) => Record(v, k, p)
    case DoRelease(k) => Release(v, k)
    case DoEvict(name) => Evict(v, name)
  }

  ghost function ApplyAll(v: View, ops: seq<Op>): View {
    if ops == [] then v else Apply(ApplyAll(v, ops[..|ops| - 1]), ops[|ops| - 1])
  }

  lemma ApplyConserves(v: View, op: Op)
    requires Conserved(v)
    ensures Conserved(Apply(v, op))
  {
    match op
    case DoUpsert(node) =>
      var w := Upsert(v, node);
      assert forall n :: w.ClaimedOn(n) == v.ClaimedOn(n) && w.PortsOn(n) == v.PortsOn(n);
    case DoRemove(name) => RemoveNodeConserves(v, name);
    case DoRecord(k, p) => RecordConserves(v, k, p);
    case DoRelease(k) => ReleaseConserves(v, k);
    case DoEvict(name) => EvictMatchesRemoveNode(v, name);
  }

  /** Claim conservation: after any sequence of operations each node's claim is
      the sum of the limits placed on it, and no port is claimed that no pod holds. */
  lemma {:induction false} ClaimsConservedInEveryRun(ops: seq<Op>)
    ensures Conserved(ApplyAll(EMPTY, ops))
  {
    if ops == [] {
      EmptyConserved();
    } else {
      ClaimsConservedInEveryRun(ops[..|ops| - 1]);
      ApplyConserves(ApplyAll(EMPTY, ops[..|ops| - 1]), ops[|ops| - 1]);
    }
  }

  // ----- When the claimed ports are exact ----------------------------------

  /** Releasing a pod keeps its node's claimed ports exact just when no other pod
      on the node shares a port with it. */
  lemma ReleaseKeepsPortsExactIff(v: View, k: PodKey)
    requires Conserved(v) && k in v.placements && PortsExact(v, v.placements[k].node)
    ensures PortsExact(Release(v, k), v.placements[k].node) <==> HoldsPortsAlone(v.placements, k)
  {
    var p := v.placements[k];
    var w := Release(v, k);
    assert w.PortsOn(p.node) == v.PortsOn(p.node) - PortKeys(p.ports);
    PortsHeldWith(w.placements, k, p, p.node);
    assert w.placements[k := p] == v.placements;
    if HoldsPortsAlone(v.placements, k) {
      assert PortsHeld(w.placements, p.node) !! PortKeys(p.ports);
    } else {
      var j, q :| j in v.placements && j != k && v.placements[j].node == p.node
                  && q in PortKeys(v.placements[j].ports) && q in PortKeys(p.ports);
      assert j in w.placements && q in PortsHeld(w.placements, p.node);
    }
  }

  lemma ReleaseLeavesOtherPorts(v: View, k: PodKey, n: string)
    requires k in v.placements ==> v.placements[k].node != n
    ensures PortsExact(Release(v, k), n) <==> PortsExact(v, n)
  {
    if k in v.placements {
      PortsHeldWith(v.placements - {k}, k, v.placements[k], n);
      assert (v.placements - {k})[k := v.placements[k]] == v.placements;
    }
  }

  /** `k` sits on `node` and shares a port there that is not in `kept`. */
  ghost predicate SharesPort(m: Placements, k: PodKey, node: string, kept: set<PortKey>) {
    && k in m && m[k].node == node
    && exists j, q :: j in m && j != k && m[j].node == node && q in PortKeys(m[j].ports)
                      && q in PortKeys(m[k].ports) && q !in kept
  }

  /** The operation takes a pod's ports off `node` while another pod there still
      holds one of them, and does not claim it again. */
  ghost predicate ForgetsPort(v: View, op: Op, node: string) {
    match op
    case DoRelease(k) => SharesPort(v.placements, k, node, {})
    case DoRecord(k, p) =>
      k in v.placements && v.placements[k] != p
      && SharesPort(v.placements, k, node, if p.node == node then PortKeys(p.ports) else {})
    case DoUpsert(_) => false
    case DoRemove(_) => false
    case DoEvict(_) => false
  }

  /** The claimed ports of a node once `k` is taken off it and `kept` claimed. */
  lemma MoveKeepsPortsExactIff(v: View, k: PodKey, node: string, kept: set<PortKey>)
    requires Conserved(v) && PortsExact(v, node) && k in v.placements && v.placements[k].node == node
    ensures Release(v, k).PortsOn(node) + kept == PortsHeld(v.placements - {k}, node) + kept
            <==> !SharesPort(v.placements, k, node, kept)
  {
    var p, rest := v.placements[k], v.placements - {k};
    PortsHeldWith(rest, k, p, node);
    assert rest[k := p] == v.placements;
    assert Release(v, k).PortsOn(node) == PortsHeld(v.placements, node) - PortKeys(p.ports);
    if SharesPort(v.placements, k, node, kept) {
      var j, q :| j in v.placements && j != k && v.placements[j].node == node
                  && q in PortKeys(v.placements[j].ports) && q in PortKeys(p.ports) && q !in kept;
      assert j in rest && q in PortsHeld(rest, node) + kept;
    }
  }

  /** From exact claimed ports, recording a pod leaves them exact just when it
      forgets no port that another pod still holds. */
  lemma RecordKeepsPortsExactIff(v: View, k: PodKey, p: Placement, node: string)
    requires Conserved(v) && PortsExact(v, node)
    ensures PortsExact(Record(v, k, p), node) <==> !ForgetsPort(v, DoRecord(k, p), node)
  {
    if !(k in v.placements && v.placements[k] == p) {
      var kept := if p.node == node then PortKeys(p.ports) else {};
      if k in v.placements && v.placements[k].node == node {
        MoveKeepsPortsExactIff(v, k, node, kept);
      } else {
        ReleaseLeavesOtherPorts(v, k, node);
      }
      assert Release(v, k).placements == v.placements - {k};
      PortsHeldWith(v.placements - {k}, k, p, node);
      assert Record(v, k, p).PortsOn(node) == Release(v, k).PortsOn(node) + kept;
    }
  }

  lemma ApplyKeepsPortsExactIff(v: View, op: Op, node: string)
    requires Conserved(v) && PortsExact(v, node)
    ensures PortsExact(Apply(v, op), node) <==> !ForgetsPort(v, op, node)
  {
    match op
    case DoUpsert(_) =>
    case DoRemove(name) => OffNodeFacts(v.placements, name, node);
    case DoRecord(k, p) => RecordKeepsPortsExactIff(v, k, p, node);
    case DoRelease(k) =>
      if k in v.placements && v.placements[k].node == node {
        ReleaseKeepsPortsExactIff(v, k);
      } else {
        ReleaseLeavesOtherPorts(v, k, node);
      }
    case DoEvict(name) =>
      EvictBooks(v, name);
      OffNodeFacts(v.placements, name, node);
  }

  /** The claimed ports of `node` are exact all along a run if and only if no step
      of the run forgets a port there. */
  lemma {:induction false} PortsExactThroughoutIff(ops: seq<Op>, node: string)
    ensures (forall i :: 0 <= i <= |ops| ==> PortsExact(ApplyAll(EMPTY, ops[..i]), node))
            <==> (forall i :: 0 <= i < |ops| ==> !ForgetsPort(ApplyAll(EMPTY, ops[..i]), ops[i], node))
  {
    if ops == [] {
      assert PortsExact(EMPTY, node);
    } else {
      var before, last := ops[..|ops| - 1], ops[|ops| - 1];
      assert forall i :: 0 <= i <= |before| ==> before[..i] == ops[..i];
      assert ops[..|ops|] == ops;
      PortsExactThroughoutIff(before, node);
      ClaimsConservedInEveryRun(before);
      if PortsExact(ApplyAll(EMPTY, before), node) {
        ApplyKeepsPortsExactIff(ApplyAll(EMPTY, before), last, node);
      }
    }
  }

  lemma DisjointForgetsNothing(v: View, op: Op, node: string)
    requires PortDisjoint(v.placements, node)
    ensures !ForgetsPort(v, op, node)
  {
    forall k | k in v.placements && v.placements[k].node == node
      ensures !SharesPort(v.placements, k, node, {})
    {
      assert HoldsPortsAlone(v.placements, k);
    }
  }

  /** In particular in a run in which the pods on `node` never share a port. */
  lemma PortsExactInDisjointRuns(ops: seq<Op>, node: string)
    requires forall i :: 0 <= i < |ops| ==> PortDisjoint(ApplyAll(EMPTY, ops[..i]).placements, node)
    ensures PortsExact(ApplyAll(EMPTY, ops), node)
  {
    forall i | 0 <= i < |ops| ensures !ForgetsPort(ApplyAll(EMPTY, ops[..i]), ops[i], node) {
      DisjointForgetsNothing(ApplyAll(EMPTY, ops[..i]), ops[i], node);
    }
    PortsExactThroughoutIff(ops, node);
    assert ops[..|ops|] == ops;
  }

  /** Disjointness now is not enough: two pods that shared port 80 leave the
      survivor's port unclaimed once the other is released. */
  lemma PortsFallShort(a: PodKey, b: PodKey, n: string, p: Placement, port: Port)
    requires a != b && p.node == n && port in p.ports
    ensures var ops := [DoRecord(a, p), DoRecord(b, p), DoRelease(a)];
            var v := ApplyAll(EMPTY, ops);
            PortDisjoint(v.placements, n) && !PortsExact(v, n)
  {
    var ops := [DoRecord(a, p), DoRecord(b, p), DoRelease(a)];
    var v1, v2 := Record(EMPTY, a, p), Record(Record(EMPTY, a, p), b, p);
    var v := Release(v2, a);
    ApplyThree(EMPTY, ops[0], ops[1], ops[2]);
    assert v2.claimedPorts[n] == PortKeys(p.ports);
    assert v.placements.Keys == {b};
    assert KeyOf(port) in PortKeys(v.placements[b].ports) && KeyOf(port) in PortsHeld(v.placements, n);
    assert KeyOf(port) !in v.PortsOn(n);
  }

  lemma ApplyThree(v: View, x: Op, y: Op, z: Op)
    ensures ApplyAll(v, [x, y, z]) == Apply(Apply(Apply(v, x), y), z)
  {
    assert [x, y, z][..2] == [x, y] && [x, y][..1] == [x] && [x][..0] == [];
    assert ApplyAll(v, [x]) == Apply(v, x);
    assert ApplyAll(v, [x, y]) == Apply(ApplyAll(v, [x]), y);
  }

  // ----- Evict and re-record -------------------------------------------------

  type Entry = (PodKey, Placement)

  /** `entries` lists each pod of `node` exactly once. */
  ghost predicate ListsNode(entries: seq<Entry>, m: Placements, node: string) {
    && (forall i :: 0 <= i < |entries| ==>
          entries[i].0 in m && m[entries[i].0] == entries[i].1 && m[entries[i].0].node == node)
    && (forall k :: k in m && m[k].node == node ==> exists i :: 0 <= i < |entries| && entries[i].0 == k)
    && (forall i, j :: 0 <= i < j < |entries| ==> entries[i].0 != entries[j].0)
  }

  ghost function ReleaseAll(v: View, entries: seq<Entry>): View {
    if entries == [] then v
    else Release(ReleaseAll(v, entries[..|entries| - 1]), entries[|entries| - 1].0)
  }

  ghost function RecordAll(v: View, entries: seq<Entry>): View {
    if entries == [] then v
    else
      var last := entries[|entries| - 1];
      Record(RecordAll(v, entries[..|entries| - 1]), last.0, last.1)
  }

  /** Entries of `m` on `node`, none twice. */
  ghost predicate Lists(entries: seq<Entry>, m: Placements, node: string) {
    && (forall i :: 0 <= i < |entries| ==>
          entries[i].0 in m && m[entries[i].0] == entries[i].1 && m[entries[i].0].node == node)
    && (forall i, j :: 0 <= i < j < |entries| ==> entries[i].0 != entries[j].0)
  }

  /** The ledger an entry list spells out. */
  ghost function Part(entries: seq<Entry>): Placements {
    if entries == [] then map[]
    else
      var last := entries[|entries| - 1];
      Part(entries[..|entries| - 1])[last.0 := last.1]
  }

  lemma {:induction false} PartKeys(entries: seq<Entry>, m: Placements, node: string)
    requires Lists(entries, m, node)
    ensures forall k :: k in Part(entries) <==> exists i :: 0 <= i < |entries| && entries[i].0 == k
    ensures forall k :: k in Part(entries) ==> k in m && m[k] == Part(entries)[k] && m[k].node == node
  {
    if entries != [] {
      var rest := entries[..|entries| - 1];
      PartKeys(rest, m, node);
      forall k ensures k in Part(entries) <==> exists i :: 0 <= i < |entries| && entries[i].0 == k {
        if i :| 0 <= i < |entries| && entries[i].0 == k {
          assert i == |entries| - 1 || rest[i].0 == k;
        }
        if k in Part(rest) {
          var i :| 0 <= i < |rest| && rest[i].0 == k;
          assert entries[i].0 == k;
        }
      }
    }
  }

  lemma ChargeTwice(v: View, node: string, r1: Resources, q1: set<PortKey>, r2: Resources, q2: set<PortKey>)
    ensures Charge(Charge(v, node, r1, q1), node, r2, q2) == Charge(v, node, r1.Plus(r2), q1 + q2)
  {
    assert v.PortsOn(node) + q1 + q2 == v.PortsOn(node) + (q1 + q2);
  }

  lemma RefundTwice(v: View, node: string, r1: Resources, q1: set<PortKey>, r2: Resources, q2: set<PortKey>)
    ensures Refund(Refund(v, node, r1, q1), node, r2, q2) == Refund(v, node, r1.Plus(r2), q1 + q2)
  {
    assert v.PortsOn(node) - q1 - q2 == v.PortsOn(node) - (q1 + q2);
  }

  lemma RefundNothing(v: View, node: string)
    ensures Refund(v, node, NO_RESOURCES, {}) == v
  {
    assert node in v.claimedPorts ==> v.claimedPorts[node] - {} == v.claimedPorts[node];
  }

  /** What one more pod adds to the sums over a part of the ledger. */
  lemma PartGrows(part: Placements, node: string, k: PodKey, p: Placement)
    requires k !in part && p.node == node
    ensures SumLimits(part[k := p]) == SumLimits(part).Plus(p.limits)
    ensures PortsHeld(part[k := p], node) == PortsHeld(part, node) + PortKeys(p.ports)
  {
    SumRemove(part[k := p], k);
    assert part[k := p] - {k} == part;
    PortsHeldWith(part, k, p, node);
  }

  lemma NothingHeld(node: string)
    ensures SumLimits(map[]) == NO_RESOURCES && PortsHeld(map[], node) == {}
  {
  }

  lemma ReleaseOneMore(v: View, node: string, part: Placements, k: PodKey)
    requires k in v.placements && v.placements[k].node == node && k !in part
    ensures Release(Without(v, node, part), k) == Without(v, node, part[k := v.placements[k]])
  {
    var p := v.placements[k];
    PartGrows(part, node, k, p);
    RefundTwice(v, node, SumLimits(part), PortsHeld(part, node), p.limits, PortKeys(p.ports));
    assert v.placements - part.Keys - {k} == v.placements - part[k := p].Keys;
  }

  lemma RecordFresh(v: View, k: PodKey, p: Placement)
    requires k !in v.placements
    ensures Record(v, k, p)
            == Charge(v, p.node, p.limits, PortKeys(p.ports)).(placements := v.placements[k := p])
  {
  }

  /** `With` without its special case: putting in nothing and then charging is
      charging. */
  lemma ChargeAfterWith(
    v: View, node: string, part: Placements, r: Resources, ports: set<PortKey>, placements: Placements)
    ensures Charge(With(v, node, part), node, r, ports).(placements := placements)
            == Charge(v, node, SumLimits(part).Plus(r), PortsHeld(part, node) + ports).(placements := placements)
  {
    if part == map[] {
      NothingHeld(node);
      assert {} + ports == ports;
    } else {
      ChargeTwice(v, node, SumLimits(part), PortsHeld(part, node), r, ports);
    }
  }

  lemma RecordOneMore(v: View, node: string, part: Placements, k: PodKey, p: Placement)
    requires p.node == node && k !in part && k !in v.placements
    ensures Record(With(v, node, part), k, p) == With(v, node, part[k := p])
  {
    var more := part[k := p];
    assert k in more && With(v, node, part).placements[k := p] == v.placements + more;
    RecordFresh(With(v, node, part), k, p);
    ChargeAfterWith(v, node, part, p.limits, PortKeys(p.ports), v.placements + more);
    PartGrows(part, node, k, p);
  }

  lemma {:induction false} ReleaseAllEffect(v: View, entries: seq<Entry>, node: string)
    requires Lists(entries, v.placements, node)
    ensures ReleaseAll(v, entries) == Without(v, node, Part(entries))
  {
    if entries == [] {
      NothingHeld(node);
      RefundNothing(v, node);
      assert v.placements - {} == v.placements;
    } else {
      var last, rest := entries[|entries| - 1], entries[..|entries| - 1];
      ReleaseAllEffect(v, rest, node);
      PartKeys(rest, v.placements, node);
      ReleaseOneMore(v, node, Part(rest), last.0);
    }
  }

  lemma {:induction false} RecordAllEffect(v: View, entries: seq<Entry>, m: Placements, node: string)
    requires Lists(entries, m, node)
    requires forall i :: 0 <= i < |entries| ==> entries[i].0 !in v.placements
    ensures RecordAll(v, entries) == With(v, node, Part(entries))
  {
    if entries != [] {
      var last, rest := entries[|entries| - 1], entries[..|entries| - 1];
      RecordAllEffect(v, rest, m, node);
      PartKeys(rest, m, node);
      RecordOneMore(v, node, Part(rest), last.0, last.1);
    }
  }

  lemma ListingIsWhole(entries: seq<Entry>, m: Placements, node: string)
    requires ListsNode(entries, m, node)
    ensures Lists(entries, m, node) && Part(entries) == OnNode(m, node)
  {
    PartKeys(entries, m, node);
  }

  /** Releasing a node's pods one by one, in any order, is eviction. */
  lemma ReleaseAllIsEvict(v: View, entries: seq<Entry>, name: string)
    requires ListsNode(entries, v.placements, name)
    ensures ReleaseAll(v, entries) == Evict(v, name)
  {
    ListingIsWhole(entries, v.placements, name);
    ReleaseAllEffect(v, entries, name);
  }

  lemma PortsHeldOnNode(m: Placements, node: string)
    ensures PortsHeld(OnNode(m, node), node) == PortsHeld(m, node)
  {
    var part := OnNode(m, node);
    forall q | q in PortsHeld(m, node) ensures q in PortsHeld(part, node) {
      var k :| k in m && m[k].node == node && q in PortKeys(m[k].ports);
      assert k in part && part[k] == m[k];
    }
  }

  /** Eviction as seen from the ledger. */
  lemma EvictBooks(v: View, name: string)
    ensures Evict(v, name).placements == OffNode(v.placements, name)
    ensures forall n :: n != name ==>
              Evict(v, name).ClaimedOn(n) == v.ClaimedOn(n) && Evict(v, name).PortsOn(n) == v.PortsOn(n)
    ensures Evict(v, name).PortsOn(name) == v.PortsOn(name) - PortsHeld(v.placements, name)
  {
    PortsHeldOnNode(v.placements, name);
  }

  lemma RefundThenCharge(v: View, node: string, r: Resources, q: set<PortKey>)
    requires node in v.claimed && node in v.claimedPorts
    ensures Charge(Refund(v, node, r, q), node, r, q)
            == v.(claimedPorts := v.claimedPorts[node := v.claimedPorts[node] + q])
  {
    assert v.claimedPorts[node] - q + q == v.claimedPorts[node] + q;
    assert v.claimed[node := v.claimed[node]] == v.claimed;
  }

  /** Putting a node's pods back is the inverse of taking them out, provided
      every port they hold was claimed, and only then. */
  lemma WithoutThenWith(v: View, name: string)
    requires Conserved(v)
    ensures With(Evict(v, name), name, OnNode(v.placements, name)) == v <==> PortsExact(v, name)
  {
    var m, part := v.placements, OnNode(v.placements, name);
    PortsHeldOnNode(m, name);
    assert v.PortsOn(name) <= PortsHeld(m, name);
    if part == map[] {
      NothingHeld(name);
      RefundNothing(v, name);
      assert m - {} == m;
    } else {
      var k :| k in part;
      assert m[k].node == name && name in v.claimed && name in v.claimedPorts;
      RefundThenCharge(v, name, SumLimits(part), PortsHeld(part, name));
      assert m - part.Keys + part == m;
      assert v.claimedPorts[name] + PortsHeld(m, name) == PortsHeld(m, name);
    }
  }

  /** Re-recording an evicted node's pods, in any order, restores all four maps
      exactly, if and only if every port they hold was claimed before. */
  lemma EvictRecordRoundTrip(v: View, name: string, entries: seq<Entry>)
    requires Conserved(v) && ListsNode(entries, v.placements, name)
    ensures RecordAll(Evict(v, name), entries) == v <==> PortsExact(v, name)
  {
    ListingIsWhole(entries, v.placements, name);
    EvictBooks(v, name);
    RecordAllEffect(Evict(v, name), entries, v.placements, name);
    WithoutThenWith(v, name);
  }
}
