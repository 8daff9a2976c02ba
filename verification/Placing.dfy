/** Which node `place` may return (scheduler/src/schedulers/basic.rs): the filters,
    the usage score and the election, and what a placement so chosen guarantees. */
module Placing {
  import opened Shared
  import opened Ledger
  import opened Basic

  datatype PlaceError = MissingLimits | NoReadyNode | NoCapacity | NoFreePort

  // ----- The filters -------------------------------------------------------

  predicate IsReady(node: Node) {
    node.status == Ready
  }

  predicate HasCapacity(v: View, node: Node, limits: Resources) {
    var effective := v.EffectiveAllocatable(node);
    effective.Some? && effective.value.Exceeds(limits)
  }

  predicate PortsAvailable(v: View, node: Node, ports: seq<Port>) {
    PortKeys(ports) !! v.PortsOn(node.name)
  }

  /** `name` is a Ready node with strictly more effective CPU and memory than the
      limits, and none of `ports` is claimed on it. */
  predicate Fits(v: View, limits: Resources, ports: seq<Port>, name: string) {
    && name in v.nodes
    && IsReady(v.nodes[name])
    && HasCapacity(v, v.nodes[name], limits)
    && PortsAvailable(v, v.nodes[name], ports)
  }

  /** The answers `place` may give: a node that fits when there is one, otherwise
      the first filter that left no node. */
  ghost predicate PlaceAllowed(v: View, pod: Pod, ports: seq<Port>, r: Result<string, PlaceError>) {
    match pod.limits
    case None => r == Err(MissingLimits)
    case Some(limits) =>
      if forall n :: n in v.nodes ==> !IsReady(v.nodes[n]) then r == Err(NoReadyNode)
      else if forall n :: n in v.nodes && IsReady(v.nodes[n]) ==> !HasCapacity(v, v.nodes[n], limits)
      then r == Err(NoCapacity)
      else if forall n :: !Fits(v, limits, ports, n) then r == Err(NoFreePort)
      else r.Ok? && Fits(v, limits, ports, r.value)
  }

  /** What fitting means, spelled out against the ledger: the node is Ready, more of
      each resource than asked for is left of what it can allocate once the pods
      placed on it are counted, and no asked host port is claimed there. */
  lemma FitsMeans(v: View, limits: Resources, ports: seq<Port>, n: string)
    requires Conserved(v)
    ensures Fits(v, limits, ports, n) <==>
              && n in v.nodes && v.nodes[n].status == Ready && v.nodes[n].allocatable.Some?
              && (v.nodes[n].allocatable.value.cpu - Total(v.placements, n).cpu > limits.cpu || 0 > limits.cpu)
              && (v.nodes[n].allocatable.value.memory - Total(v.placements, n).memory > limits.memory
                  || 0 > limits.memory)
              && (forall port :: port in ports ==> PortKey(port.protocol, port.external) !in v.PortsOn(n))
  {
    if n in v.nodes {
      assert v.nodes[n].name == n && v.ClaimedOn(n) == Total(v.placements, n);
    }
    forall port | port in ports ensures PortKey(port.protocol, port.external) in PortKeys(ports) {
      assert KeyOf(port) in PortKeys(ports);
    }
  }

  /** No node fits the pod now. */
  ghost predicate Unplaceable(v: View, pod: Pod, ports: seq<Port>) {
    pod.limits.Some? ==> forall n :: !Fits(v, pod.limits.value, ports, n)
  }

  /** Soundness and completeness: `place` succeeds exactly when some node fits. */
  lemma PlaceSucceedsIff(v: View, pod: Pod, ports: seq<Port>, r: Result<string, PlaceError>)
    requires PlaceAllowed(v, pod, ports, r)
    ensures r.Err? <==> Unplaceable(v, pod, ports)
  {
  }

  /** Each answer, and when it is given. */
  lemma AnswersMean(v: View, pod: Pod, ports: seq<Port>, r: Result<string, PlaceError>)
    requires PlaceAllowed(v, pod, ports, r)
    ensures r == Err(MissingLimits) <==> pod.limits.None?
    ensures r == Err(NoReadyNode) <==> pod.limits.Some? && forall n :: n in v.nodes ==> v.nodes[n].status != Ready
    ensures r == Err(NoCapacity) <==>
              && pod.limits.Some? && (exists n :: n in v.nodes && v.nodes[n].status == Ready)
              && forall n :: !Fits(v, pod.limits.value, [], n)
    ensures r == Err(NoFreePort) <==>
              && pod.limits.Some? && (exists n :: Fits(v, pod.limits.value, [], n))
              && forall n :: !Fits(v, pod.limits.value, ports, n)
    ensures r.Ok? ==> pod.limits.Some? && Fits(v, pod.limits.value, ports, r.value)
  {
    if pod.limits.Some? {
      forall n: string
        ensures Fits(v, pod.limits.value, [], n) <==>
                  n in v.nodes && IsReady(v.nodes[n]) && HasCapacity(v, v.nodes[n], pod.limits.value)
      {
      }
      if n: string :| n in v.nodes && IsReady(v.nodes[n]) && HasCapacity(v, v.nodes[n], pod.limits.value) {
        assert Fits(v, pod.limits.value, [], n);
      }
    }
  }

  // ----- The usage score -----------------------------------------------------

  /** f32 without rounding: reals, the two infinities and NaN. */
  datatype Float = Finite(r: real) | PosInf | NegInf | NaN

  function Quotient(a: int, b: int): Float {
    if b != 0 then Finite(a as real / b as real)
    else if a > 0 then PosInf
    else if a < 0 then NegInf
    else NaN
  }

  function Mean(a: Float, b: Float): Float {
    match (a, b)
    case (Finite(x), Finite(y)) => Finite((x + y) / 2.0)
    case (NaN, _) => NaN
    case (_, NaN) => NaN
    case (PosInf, NegInf) => NaN
    case (NegInf, PosInf) => NaN
    case (PosInf, _) => PosInf
    case (_, PosInf) => PosInf
    case (NegInf, _) => NegInf
    case (_, NegInf) => NegInf
  }

  predicate Greater(a: Float, b: Float) {
    match (a, b)
    case (Finite(x), Finite(y)) => x > y
    case (NaN, _) => false
    case (_, NaN) => false
    case (PosInf, PosInf) => false
    case (PosInf, _) => true
    case (_, NegInf) => !a.NegInf?
    case (_, _) => false
  }

  function Usage(v: View, node: Node): Option<Float> {
    if node.capacity.None? then None
    else
      match v.EffectiveAllocatable(node)
      case None => None
      case Some(free) =>
        var capacity := node.capacity.value;
        Some(Mean(Quotient(capacity.cpu - free.cpu, capacity.cpu),
                  Quotient(capacity.memory - free.memory, capacity.memory)))
  }

  lemma QuotientFalls(c: int, a: int, b: int)
    requires c > 0 && a < b
    ensures (c - b) as real / c as real < (c - a) as real / c as real
  {
  }

  /** What the score means where capacities are positive: of two states of a node
      of which one leaves no more free of either resource, it scores higher just
      when it leaves less of one of them. */
  lemma LessFreeMoreUsed(v: View, w: View, node: Node)
    requires node.capacity.Some? && node.capacity.value.cpu > 0 && node.capacity.value.memory > 0
    requires node.allocatable.Some?
    requires w.EffectiveAllocatable(node).value.AtMost(v.EffectiveAllocatable(node).value)
    ensures Usage(v, node).Some? && Usage(w, node).Some?
    ensures Greater(Usage(w, node).value, Usage(v, node).value)
            <==> w.EffectiveAllocatable(node) != v.EffectiveAllocatable(node)
  {
    var c, was, now := node.capacity.value, v.EffectiveAllocatable(node).value, w.EffectiveAllocatable(node).value;
    if now.cpu < was.cpu {
      QuotientFalls(c.cpu, now.cpu, was.cpu);
    }
    if now.memory < was.memory {
      QuotientFalls(c.memory, now.memory, was.memory);
    }
  }

  /** CPU and memory weigh the same, each in proportion to its capacity: a node
      with the two exchanged scores the same. */
  lemma UsageIsEven(v: View, w: View, node: Node, twin: Node)
    requires node.capacity.Some? && node.allocatable.Some? && twin.capacity.Some? && twin.allocatable.Some?
    requires Swapped(node.capacity.value, twin.capacity.value)
    requires Swapped(v.EffectiveAllocatable(node).value, w.EffectiveAllocatable(twin).value)
    ensures Usage(v, node) == Usage(w, twin)
  {
  }

  predicate Swapped(a: Resources, b: Resources) {
    a.cpu == b.memory && a.memory == b.cpu
  }

  /** The score itself: half the sum of the two shares in use, each in proportion to
      its capacity. */
  lemma UsageIsMeanShare(v: View, node: Node)
    requires node.capacity.Some? && node.capacity.value.cpu > 0 && node.capacity.value.memory > 0
    requires node.allocatable.Some?
    ensures Usage(v, node).Some? && Usage(v, node).value.Finite?
    ensures var u, c, free := Usage(v, node).value.r, node.capacity.value, FreeOf(v, node);
            2.0 * u * c.cpu as real * c.memory as real
            == ((c.cpu - free.cpu) * c.memory + (c.memory - free.memory) * c.cpu) as real
  {
    var c, free := node.capacity.value, v.EffectiveAllocatable(node).value;
    var x, y := (c.cpu - free.cpu) as real / c.cpu as real, (c.memory - free.memory) as real / c.memory as real;
    assert x * c.cpu as real == (c.cpu - free.cpu) as real;
    assert y * c.memory as real == (c.memory - free.memory) as real;
    MeanShare(x, y, (x + y) / 2.0, c.cpu as real, c.memory as real);
  }

  lemma MeanShare(x: real, y: real, u: real, a: real, b: real)
    requires 2.0 * u == x + y
    ensures 2.0 * u * a * b == (x * a) * b + (y * b) * a
  {
  }

  /** What is free on a node that reports what it can allocate. */
  function FreeOf(v: View, node: Node): Resources
    requires node.allocatable.Some?
  {
    var a, claim := node.allocatable.value, v.ClaimedOn(node.name);
    Resources(if a.cpu > claim.cpu then a.cpu - claim.cpu else 0,
              if a.memory > claim.memory then a.memory - claim.memory else 0)
  }

  // ----- The election ------------------------------------------------------

  function Better(v: View, elected: Node, candidate: Node): Node {
    var a, b := Usage(v, elected), Usage(v, candidate);
    if a.Some? && b.Some? && Greater(a.value, b.value) then candidate else elected
  }

  /** The winner of the election when the candidates come in this order. */
  function Elect(v: View, order: seq<Node>): Node
    requires order != []
  {
    if |order| == 1 then order[0]
    else Better(v, Elect(v, order[..|order| - 1]), order[|order| - 1])
  }

  /** `order` lists the nodes that fit, each once. */
  ghost predicate OrdersCandidates(order: seq<Node>, v: View, limits: Resources, ports: seq<Port>) {
    && (forall i :: 0 <= i < |order| ==>
          Fits(v, limits, ports, order[i].name) && v.nodes[order[i].name] == order[i])
    && (forall n :: Fits(v, limits, ports, n) ==> v.nodes[n] in order)
    && (forall i, j :: 0 <= i < j < |order| ==> order[i] != order[j])
  }

  /** No node that fits reports a smaller usage; `node` reports one if any does. */
  ghost predicate LeastLoaded(v: View, limits: Resources, ports: seq<Port>, node: Node) {
    forall n :: Fits(v, limits, ports, n) && Usage(v, v.nodes[n]).Some? ==>
                  && Usage(v, node).Some?
                  && !Greater(Usage(v, node).value, Usage(v, v.nodes[n]).value)
  }

  /** Every node that fits reports its capacity, or none does. */
  ghost predicate EvenlyMeasured(v: View, limits: Resources, ports: seq<Port>) {
    || (forall n :: Fits(v, limits, ports, n) ==> v.nodes[n].capacity.Some?)
    || (forall n :: Fits(v, limits, ports, n) ==> v.nodes[n].capacity.None?)
  }

  /** A node that fits has free resources, so its score is never NaN nor more than
      every number, even at capacity zero. */
  lemma UsageOfFitting(v: View, limits: Resources, ports: seq<Port>, name: string)
    requires limits.NonNegative() && Fits(v, limits, ports, name)
    ensures Usage(v, v.nodes[name]).Some? ==>
              Usage(v, v.nodes[name]).value.Finite? || Usage(v, v.nodes[name]).value.NegInf?
  {
  }

  /** A node that fits and reports no capacity at all of CPU or of memory beats every
      node whose capacities are positive, whichever comes first and however idle. */
  lemma ZeroCapacityWins(v: View, limits: Resources, ports: seq<Port>, name: string, other: Node)
    requires limits.NonNegative() && Fits(v, limits, ports, name) && v.nodes[name].capacity.Some?
    requires v.nodes[name].capacity.value.cpu == 0 || v.nodes[name].capacity.value.memory == 0
    requires other.capacity.Some? && other.capacity.value.cpu > 0 && other.capacity.value.memory > 0
    requires other.allocatable.Some?
    ensures Elect(v, [v.nodes[name], other]) == v.nodes[name] == Elect(v, [other, v.nodes[name]])
  {
    assert [v.nodes[name], other][..1] == [v.nodes[name]] && [other, v.nodes[name]][..1] == [other];
  }

  lemma {:induction false} ElectMinimal(v: View, order: seq<Node>)
    requires order != []
    requires forall i :: 0 <= i < |order| ==> Usage(v, order[i]).Some? && Usage(v, order[i]).value != NaN
    ensures Elect(v, order) in order
    ensures forall i :: 0 <= i < |order| ==>
              !Greater(Usage(v, Elect(v, order)).value, Usage(v, order[i]).value)
  {
    if |order| > 1 {
      var rest := order[..|order| - 1];
      assert forall i :: 0 <= i < |rest| ==> rest[i] == order[i];
      ElectMinimal(v, rest);
    }
  }

  /** And of those with the least usage it is the first. */
  lemma {:induction false} ElectFirstLeast(v: View, order: seq<Node>) returns (i: nat)
    requires order != []
    requires forall i :: 0 <= i < |order| ==> Usage(v, order[i]).Some? && Usage(v, order[i]).value != NaN
    ensures i < |order| && order[i] == Elect(v, order)
    ensures forall j :: 0 <= j < i ==> Greater(Usage(v, order[j]).value, Usage(v, order[i]).value)
  {
    i := 0;
    if |order| > 1 {
      var rest := order[..|order| - 1];
      assert forall i :: 0 <= i < |rest| ==> rest[i] == order[i];
      ElectMinimal(v, rest);
      i := ElectFirstLeast(v, rest);
      if Elect(v, order) != Elect(v, rest) {
        assert Greater(Usage(v, Elect(v, rest)).value, Usage(v, order[|order| - 1]).value);
        i := |order| - 1;
      }
    }
  }

  lemma {:induction false} ElectFirstUnmeasured(v: View, order: seq<Node>)
    requires order != [] && Usage(v, order[0]).None?
    ensures Elect(v, order) == order[0]
  {
    if |order| > 1 {
      ElectFirstUnmeasured(v, order[..|order| - 1]);
    }
  }

  lemma {:induction false} ElectMember(v: View, order: seq<Node>)
    requires order != []
    ensures Elect(v, order) in order
  {
    if |order| > 1 {
      ElectMember(v, order[..|order| - 1]);
    }
  }

  lemma {:induction false} Listing(s: set<Node>) returns (order: seq<Node>)
    ensures forall n :: n in order <==> n in s
    ensures forall i, j :: 0 <= i < j < |order| ==> order[i] != order[j]
  {
    if s == {} {
      order := [];
    } else {
      var n :| n in s;
      var rest := Listing(s - {n});
      order := rest + [n];
    }
  }

  lemma OrderStartingWith(v: View, limits: Resources, ports: seq<Port>, name: string)
    returns (order: seq<Node>)
    requires forall n :: n in v.nodes ==> v.nodes[n].name == n
    requires Fits(v, limits, ports, name)
    ensures OrdersCandidates(order, v, limits, ports) && order != [] && order[0] == v.nodes[name]
  {
    var others := set n | n in v.nodes && n != name && Fits(v, limits, ports, n) :: v.nodes[n];
    var rest := Listing(others);
    order := [v.nodes[name]] + rest;
    forall n | Fits(v, limits, ports, n) ensures v.nodes[n] in order {
      if n != name {
        assert v.nodes[n] in others;
      }
    }
    forall i | 0 <= i < |order|
      ensures Fits(v, limits, ports, order[i].name) && v.nodes[order[i].name] == order[i]
    {
      if i > 0 {
        assert order[i] in rest;
      }
    }
    assert v.nodes[name] !in rest;
  }

  /** The election returns a least-loaded node for every iteration order if and
      only if the nodes that fit are evenly measured: among measured nodes, one
      that reports no capacity wins whenever it comes first. */
  lemma LeastLoadedIffMeasured(v: View, limits: Resources, ports: seq<Port>)
    requires forall n :: n in v.nodes ==> v.nodes[n].name == n
    requires limits.NonNegative()
    ensures (forall order: seq<Node> :: OrdersCandidates(order, v, limits, ports) && order != [] ==>
               LeastLoaded(v, limits, ports, Elect(v, order)))
            <==> EvenlyMeasured(v, limits, ports)
  {
    if !EvenlyMeasured(v, limits, ports) {
      var n: string :| Fits(v, limits, ports, n) && v.nodes[n].capacity.None?;
      var m: string :| Fits(v, limits, ports, m) && v.nodes[m].capacity.Some?;
      var order := OrderStartingWith(v, limits, ports, n);
      ElectFirstUnmeasured(v, order);
      assert Usage(v, v.nodes[m]).Some? && Usage(v, v.nodes[n]).None?;
      assert !LeastLoaded(v, limits, ports, Elect(v, order));
    } else {
      forall order: seq<Node> | OrdersCandidates(order, v, limits, ports) && order != []
        ensures LeastLoaded(v, limits, ports, Elect(v, order))
      {
        if n: string :| Fits(v, limits, ports, n) && v.nodes[n].capacity.Some? {
          forall i | 0 <= i < |order|
            ensures Usage(v, order[i]).Some? && Usage(v, order[i]).value != NaN
          {
            UsageOfFitting(v, limits, ports, order[i].name);
          }
          ElectMinimal(v, order);
        }
      }
    }
  }

  // ----- The election, without division ----------------------------------------

  /** `node` reports what the score needs. */
  predicate Scored(node: Node) {
    && node.capacity.Some? && node.capacity.value.cpu > 0 && node.capacity.value.memory > 0
    && node.allocatable.Some?
  }

  function Load(v: View, node: Node): int
    requires Scored(node)
  {
    var c, free := node.capacity.value, FreeOf(v, node);
    (c.cpu - free.cpu) * c.memory + (c.memory - free.memory) * c.cpu
  }

  /** The mean share in use of `a` is at most that of `b`, multiplied out. */
  predicate NoMoreLoaded(v: View, a: Node, b: Node)
    requires Scored(a) && Scored(b)
  {
    Load(v, a) * (b.capacity.value.cpu * b.capacity.value.memory)
    <= Load(v, b) * (a.capacity.value.cpu * a.capacity.value.memory)
  }

  lemma Product(x: int, y: int)
    ensures x as real * y as real == (x * y) as real
  {
  }

  lemma CrossMultiply(u: real, w: real, a: real, b: real)
    requires a > 0.0 && b > 0.0
    ensures u <= w <==> 2.0 * u * a * b <= 2.0 * w * b * a
  {
    assert a * b > 0.0;
    assert 2.0 * u * a * b == 2.0 * u * (a * b) && 2.0 * w * b * a == 2.0 * w * (a * b);
    if u <= w {
      assert u * (a * b) <= w * (a * b);
    } else {
      assert u * (a * b) > w * (a * b);
    }
  }

  lemma ScaledShare(u: real, c: real, m: real, product: real, load: real)
    requires c * m == product && 2.0 * u * c * m == load
    ensures 2.0 * u * product == load
  {
    assert 2.0 * u * c * m == 2.0 * u * (c * m);
  }

  function Area(node: Node): (r: int)
    requires Scored(node)
    ensures r > 0
  {
    node.capacity.value.cpu * node.capacity.value.memory
  }

  lemma ScoreTimesArea(v: View, node: Node)
    requires Scored(node)
    ensures Usage(v, node).Some? && Usage(v, node).value.Finite?
    ensures 2.0 * Usage(v, node).value.r * Area(node) as real == Load(v, node) as real
  {
    UsageIsMeanShare(v, node);
    var c := node.capacity.value;
    Product(c.cpu, c.memory);
    ScaledShare(Usage(v, node).value.r, c.cpu as real, c.memory as real, Area(node) as real, Load(v, node) as real);
  }

  lemma SharesCompare(u: real, w: real, x: int, y: int, k: int, l: int)
    requires x > 0 && y > 0 && 2.0 * u * x as real == k as real && 2.0 * w * y as real == l as real
    ensures u <= w <==> k * y <= l * x
  {
    CrossMultiply(u, w, x as real, y as real);
    Product(k, y);
    Product(l, x);
  }

  lemma ScoreComparesLoads(v: View, a: Node, b: Node)
    requires Scored(a) && Scored(b)
    ensures Usage(v, a).Some? && Usage(v, b).Some?
    ensures !Greater(Usage(v, a).value, Usage(v, b).value) <==> NoMoreLoaded(v, a, b)
  {
    ScoreTimesArea(v, a);
    ScoreTimesArea(v, b);
    SharesCompare(Usage(v, a).value.r, Usage(v, b).value.r, Area(a), Area(b), Load(v, a), Load(v, b));
  }

  /** Where every node that fits is scored, no node that fits is less loaded than
      the elected one. */
  lemma ElectedIsLeastLoaded(v: View, limits: Resources, ports: seq<Port>, order: seq<Node>, n: string)
    requires forall m :: m in v.nodes ==> v.nodes[m].name == m
    requires limits.NonNegative() && OrdersCandidates(order, v, limits, ports) && order != []
    requires forall m :: Fits(v, limits, ports, m) ==> Scored(v.nodes[m])
    requires Fits(v, limits, ports, n)
    ensures Elect(v, order) in order && Scored(Elect(v, order)) && NoMoreLoaded(v, Elect(v, order), v.nodes[n])
  {
    LeastLoadedIffMeasured(v, limits, ports);
    ElectMember(v, order);
    var i :| 0 <= i < |order| && order[i] == Elect(v, order);
    assert LeastLoaded(v, limits, ports, Elect(v, order));
    ScoreComparesLoads(v, Elect(v, order), v.nodes[n]);
  }

  // ----- No over-commit, no shared host port ---------------------------------

  /** A pod's recorded placement when `place` answered `node`. */
  function PlacementOf(pod: Pod, ports: seq<Port>, node: string): Placement {
    Placement(node, LimitsOrDefault(pod.limits), ports)
  }

  /** The steps of the scheduler when it alone decides placements, so that a record
      repeats the ledger or is what `place` just answered, and no node's
      allocatable is lowered. */
  ghost predicate Disciplined(v: View, op: Op) {
    match op
    case DoUpsert(node) =>
      node.name in v.nodes && v.nodes[node.name].allocatable.Some? ==>
        node.allocatable.Some? && v.nodes[node.name].allocatable.value.AtMost(node.allocatable.value)
    case DoRecord(k, p) =>
      (k in v.placements && v.placements[k] == p)
      || (p.limits.NonNegative() && Fits(v, p.limits, p.ports, p.node))
    case DoRemove(_) => true
    case DoRelease(_) => true
    case DoEvict(_) => true
  }

  /** What such steps maintain, stated on the ledger and the nodes alone. */
  ghost predicate WithinBounds(v: View) {
    && NonNegativeLimits(v.placements)
    && (forall k :: k in v.placements ==>
          var n := v.placements[k].node;
          && n in v.nodes
          && v.nodes[n].allocatable.Some?
          && v.nodes[n].allocatable.value.Exceeds(Total(v.placements, n)))
    && (forall n :: PortDisjoint(v.placements, n) && PortsExact(v, n))
  }

  lemma TotalShrinks(m: Placements, k: PodKey, node: string)
    requires k in m && NonNegativeLimits(m)
    ensures Total(m - {k}, node).AtMost(Total(m, node))
  {
    TotalWithout(m, k, node);
  }

  lemma ReleaseWithinBounds(v: View, k: PodKey)
    requires Conserved(v) && WithinBounds(v)
    ensures WithinBounds(Release(v, k))
  {
    if k in v.placements {
      var w := Release(v, k);
      forall j | j in w.placements
        ensures v.nodes[w.placements[j].node].allocatable.value.Exceeds(Total(w.placements, w.placements[j].node))
      {
        assert j in v.placements;
        TotalShrinks(v.placements, k, w.placements[j].node);
      }
      forall n ensures PortDisjoint(w.placements, n) && PortsExact(w, n) {
        assert PortDisjoint(v.placements, n) && PortsExact(v, n);
        forall j | j in w.placements && w.placements[j].node == n ensures HoldsPortsAlone(w.placements, j) {
          assert HoldsPortsAlone(v.placements, j);
        }
        DisjointForgetsNothing(v, DoRelease(k), n);
        ApplyKeepsPortsExactIff(v, DoRelease(k), n);
      }
    }
  }

  lemma RecordWithinCapacity(v: View, k: PodKey, p: Placement, n: string)
    requires Conserved(v) && WithinBounds(v) && !(k in v.placements && v.placements[k] == p)
    requires p.limits.NonNegative() && Fits(v, p.limits, p.ports, p.node)
    requires n == p.node || exists j :: j in v.placements && v.placements[j].node == n
    ensures n in v.nodes && v.nodes[n].allocatable.Some?
    ensures v.nodes[n].allocatable.value.Exceeds(Total(Record(v, k, p).placements, n))
  {
    TotalWith(Release(v, k).placements, k, p, n);
    if k in v.placements {
      TotalShrinks(v.placements, k, n);
    }
    if n == p.node {
      assert v.ClaimedOn(n) == Total(v.placements, n) && v.nodes[n].name == n;
    }
  }

  lemma RecordWithinBounds(v: View, k: PodKey, p: Placement)
    requires Conserved(v) && WithinBounds(v) && Disciplined(v, DoRecord(k, p))
    ensures WithinBounds(Record(v, k, p))
  {
    if !(k in v.placements && v.placements[k] == p) {
      var w, r := Release(v, k), Record(v, k, p);
      ReleaseWithinBounds(v, k);
      forall j | j in r.placements
        ensures var n := r.placements[j].node;
                n in r.nodes && r.nodes[n].allocatable.Some?
                && r.nodes[n].allocatable.value.Exceeds(Total(r.placements, n))
      {
        assert j != k ==> j in v.placements && r.placements[j] == v.placements[j];
        RecordWithinCapacity(v, k, p, r.placements[j].node);
      }
      forall n ensures PortDisjoint(r.placements, n) && PortsExact(r, n) {
        assert PortDisjoint(w.placements, n) && PortDisjoint(v.placements, n) && PortsExact(v, n);
        DisjointForgetsNothing(v, DoRecord(k, p), n);
        RecordKeepsPortsExactIff(v, k, p, n);
        if n == p.node {
          NewcomerAlone(v, k, p);
        } else {
          forall j | j in r.placements && r.placements[j].node == n ensures HoldsPortsAlone(r.placements, j) {
            assert HoldsPortsAlone(w.placements, j);
          }
        }
      }
    }
  }

  /** A pod placed where its ports were available shares none of them. */
  lemma NewcomerAlone(v: View, k: PodKey, p: Placement)
    requires Conserved(v) && PortsExact(v, p.node)
    requires p.node in v.nodes && PortsAvailable(v, v.nodes[p.node], p.ports)
    requires PortDisjoint(Release(v, k).placements, p.node)
    requires !(k in v.placements && v.placements[k] == p)
    ensures PortDisjoint(Record(v, k, p).placements, p.node)
  {
  }

  lemma OffNodeWithinBounds(v: View, w: View, name: string)
    requires WithinBounds(v) && w.placements == OffNode(v.placements, name)
    requires forall n :: n in v.nodes && n != name ==> n in w.nodes && w.nodes[n] == v.nodes[n]
    requires forall n :: n != name ==> w.PortsOn(n) == v.PortsOn(n)
    requires w.PortsOn(name) == {}
    ensures WithinBounds(w)
  {
    forall j | j in w.placements
      ensures w.nodes[w.placements[j].node].allocatable.value.Exceeds(Total(w.placements, w.placements[j].node))
    {
      assert j in v.placements;
      OffNodeFacts(v.placements, name, w.placements[j].node);
    }
    forall n ensures PortDisjoint(w.placements, n) && PortsExact(w, n) {
      assert PortDisjoint(v.placements, n) && PortsExact(v, n);
      OffNodeFacts(v.placements, name, n);
      forall j | j in w.placements && w.placements[j].node == n ensures HoldsPortsAlone(w.placements, j) {
        assert HoldsPortsAlone(v.placements, j);
      }
    }
  }

  lemma ApplyWithinBounds(v: View, op: Op)
    requires Conserved(v) && WithinBounds(v) && Disciplined(v, op)
    ensures WithinBounds(Apply(v, op))
  {
    match op
    case DoUpsert(node) =>
      var w := Upsert(v, node);
      forall n ensures PortDisjoint(w.placements, n) && PortsExact(w, n) {
        assert PortDisjoint(v.placements, n) && PortsExact(v, n);
      }
    case DoRemove(name) => OffNodeWithinBounds(v, RemoveNode(v, name), name);
    case DoRecord(k, p) => RecordWithinBounds(v, k, p);
    case DoRelease(k) => ReleaseWithinBounds(v, k);
    case DoEvict(name) =>
      EvictBooks(v, name);
      assert PortsExact(v, name);
      OffNodeWithinBounds(v, Evict(v, name), name);
  }

  /** No over-commit and host-port exclusivity, in every run of disciplined
      steps: the limits placed on a node stay strictly below its allocatable, and
      no two of its pods share a host port. */
  lemma {:induction false} NoOverCommitInEveryRun(ops: seq<Op>)
    requires forall i :: 0 <= i < |ops| ==> Disciplined(ApplyAll(EMPTY, ops[..i]), ops[i])
    ensures WithinBounds(ApplyAll(EMPTY, ops))
  {
    if ops != [] {
      var before := ops[..|ops| - 1];
      forall i | 0 <= i < |before| ensures Disciplined(ApplyAll(EMPTY, before[..i]), before[i]) {
        assert before[..i] == ops[..i];
      }
      NoOverCommitInEveryRun(before);
      ClaimsConservedInEveryRun(before);
      ApplyWithinBounds(ApplyAll(EMPTY, before), ops[|ops| - 1]);
    }
  }
}
