/** Placements as a ledger: which pod sits on which node with which limits and
    ports, the sums taken over it, and how one entry moves those sums. Nothing
    here mentions the scheduler's incremental indexes. */
module Ledger {
  import opened Shared

  datatype Placement = Placement(node: string, limits: Resources, ports: seq<Port>)

  type Placements = map<PodKey, Placement>

  function OnNode(m: Placements, node: string): Placements {
    map k | k in m && m[k].node == node :: m[k]
  }

  function OffNode(m: Placements, node: string): Placements {
    map k | k in m && m[k].node != node :: m[k]
  }

  ghost function SumLimits(m: Placements): Resources {
    if m == map[] then NO_RESOURCES
    else
      var k :| k in m;
      SumLimits(m - {k}).Plus(m[k].limits)
  }

  /** The resources held on `node` according to the ledger. */
  ghost function Total(m: Placements, node: string): Resources {
    SumLimits(OnNode(m, node))
  }

  /** The host ports held on `node` according to the ledger. */
  ghost function PortsHeld(m: Placements, node: string): set<PortKey> {
    set k, q | k in m && m[k].node == node && q in PortKeys(m[k].ports) :: q
  }

  /** The ports `k` holds are held by no other pod on its node. */
  ghost predicate HoldsPortsAlone(m: Placements, k: PodKey)
    requires k in m
  {
    forall j, q :: j in m && j != k && m[j].node == m[k].node && q in PortKeys(m[j].ports)
      ==> q !in PortKeys(m[k].ports)
  }

  /** No two pods on `node` ask for the same host port. */
  ghost predicate PortDisjoint(m: Placements, node: string) {
    forall k :: k in m && m[k].node == node ==> HoldsPortsAlone(m, k)
  }

  ghost predicate NonNegativeLimits(m: Placements) {
    forall k :: k in m ==> m[k].limits.NonNegative()
  }

  /** The sum does not depend on the order in which it picks its entries. */
  lemma {:induction false} SumRemove(m: Placements, k: PodKey)
    requires k in m
    ensures SumLimits(m) == SumLimits(m - {k}).Plus(m[k].limits)
    decreases |m|
  {
    var first :| first in m && SumLimits(m) == SumLimits(m - {first}).Plus(m[first].limits);
    if first != k {
      var rest := m - {first} - {k};
      SumRemove(m - {first}, k);
      SumRemove(m - {k}, first);
      assert rest == m - {k} - {first};
      assert SumLimits(m) == SumLimits(rest).Plus(m[k].limits).Plus(m[first].limits);
      assert SumLimits(m - {k}) == SumLimits(rest).Plus(m[first].limits);
    }
  }

  /** The same, number by number, down to an empty ledger. */
  lemma SumsAdd(m: Placements, k: PodKey)
    ensures SumLimits(map[]).cpu == 0 && SumLimits(map[]).memory == 0
    ensures k in m ==>
              && SumLimits(m).cpu == SumLimits(m - {k}).cpu + m[k].limits.cpu
              && SumLimits(m).memory == SumLimits(m - {k}).memory + m[k].limits.memory
  {
    if k in m {
      SumRemove(m, k);
    }
  }

  /** What is held on a node is summed over exactly the pods placed there. */
  lemma HeldThere(m: Placements, node: string)
    ensures forall k :: k in OnNode(m, node) <==> k in m && m[k].node == node
    ensures forall k :: k in OnNode(m, node) ==> OnNode(m, node)[k] == m[k]
    ensures forall q :: q in PortsHeld(m, node) <==>
              exists k, port :: k in m && m[k].node == node && port in m[k].ports
                                && q == PortKey(port.protocol, port.external)
  {
    forall q | q in PortsHeld(m, node)
      ensures exists k, port :: k in m && m[k].node == node && port in m[k].ports
                                && q == PortKey(port.protocol, port.external)
    {
      var k :| k in m && m[k].node == node && q in PortKeys(m[k].ports);
      var port :| port in m[k].ports && KeyOf(port) == q;
    }
    forall k, port | k in m && m[k].node == node && port in m[k].ports
      ensures PortKey(port.protocol, port.external) in PortsHeld(m, node)
    {
      assert KeyOf(port) in PortKeys(m[k].ports);
    }
  }

  /** Two lists of ports share none just when no two of them agree in protocol and
      external port. */
  lemma SharesNone(a: seq<Port>, b: seq<Port>)
    ensures PortKeys(a) !! PortKeys(b) <==>
              forall p, q :: p in a && q in b ==> p.protocol != q.protocol || p.external != q.external
  {
    PortKeysMean(a);
    PortKeysMean(b);
    if PortKeys(a) !! PortKeys(b) {
      forall p, q | p in a && q in b ensures p.protocol != q.protocol || p.external != q.external {
        assert PortKey(p.protocol, p.external) in PortKeys(a) && PortKey(q.protocol, q.external) in PortKeys(b);
      }
    }
  }

  /** Port-disjoint means that no two pods of the node share a port. */
  lemma PortDisjointMeans(m: Placements, node: string, j: PodKey, k: PodKey)
    requires PortDisjoint(m, node) && j in m && k in m && j != k && m[j].node == node && m[k].node == node
    ensures forall p, q :: p in m[j].ports && q in m[k].ports ==>
              p.protocol != q.protocol || p.external != q.external
  {
    assert HoldsPortsAlone(m, k);
    SharesNone(m[j].ports, m[k].ports);
  }

  lemma TotalWithout(m: Placements, k: PodKey, node: string)
    requires k in m
    ensures Total(m - {k}, node)
            == if m[k].node == node then Total(m, node).Minus(m[k].limits) else Total(m, node)
  {
    if m[k].node == node {
      assert OnNode(m - {k}, node) == OnNode(m, node) - {k};
      SumRemove(OnNode(m, node), k);
    } else {
      assert OnNode(m - {k}, node) == OnNode(m, node);
    }
  }

  lemma TotalWith(m: Placements, k: PodKey, p: Placement, node: string)
    requires k !in m
    ensures Total(m[k := p], node)
            == if p.node == node then Total(m, node).Plus(p.limits) else Total(m, node)
  {
    TotalWithout(m[k := p], k, node);
    assert m[k := p] - {k} == m;
  }
}
