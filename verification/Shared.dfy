/** The values the daemons exchange (the messages under proto/shared/v1) and the
    few facts about resources that every accounting proof needs. */
module Shared {

  datatype Option<+T> = None | Some(value: T)

  datatype Result<+T, +E> = Ok(value: T) | Err(error: E)

  /** CPU in milli-cores and memory in MB. The source uses i32 fields; they are
      mathematical integers here (see README.md). */
  datatype Resources = Resources(cpu: int, memory: int) {
    function Plus(r: Resources): Resources {
      Resources(cpu + r.cpu, memory + r.memory)
    }

    function Minus(r: Resources): Resources {
      Resources(cpu - r.cpu, memory - r.memory)
    }

    predicate NonNegative() {
      cpu >= 0 && memory >= 0
    }

    predicate AtMost(r: Resources) {
      cpu <= r.cpu && memory <= r.memory
    }

    predicate Exceeds(r: Resources) {
      cpu > r.cpu && memory > r.memory
    }
  }

  const NO_RESOURCES := Resources(0, 0)

  function LimitsOrDefault(limits: Option<Resources>): Resources {
    match limits
    case None => NO_RESOURCES
    case Some(r) => r
  }

  const TCP := 0
  const UDP := 1

  datatype Port = Port(internal: nat, external: nat, protocol: int)

  /** What must be unique on a host: the protocol and the external port. */
  datatype PortKey = PortKey(protocol: int, external: nat)

  function KeyOf(port: Port): PortKey {
    PortKey(port.protocol, port.external)
  }

  function PortKeys(ports: seq<Port>): set<PortKey> {
    set port | port in ports :: KeyOf(port)
  }

  /** Two ports claim the same on a host just when protocol and external port agree. */
  lemma PortKeysMean(ports: seq<Port>)
    ensures forall q :: q in PortKeys(ports) <==>
              exists port :: port in ports && port.protocol == q.protocol && port.external == q.external
  {
    forall port | port in ports ensures PortKey(port.protocol, port.external) in PortKeys(ports) {
      assert KeyOf(port) in PortKeys(ports);
    }
  }

  /** (namespace, name) */
  datatype PodKey = PodKey(namespace: string, name: string)

  datatype NodeStatus = Ready | Cordon | Drain | NotReady

  datatype Node = Node(
    name: string,
    status: NodeStatus,
    capacity: Option<Resources>,
    allocatable: Option<Resources>)

  datatype Pod = Pod(name: string, status: PodStatus, limits: Option<Resources>)

  datatype PodStatus = Pending | Running | Succeeded | Failed | Unknown | NoNodeAvailable

  // ----- Counting ----------------------------------------------------------

  function Interval(lo: int, hi: int): (r: set<int>)
    requires lo <= hi
    ensures forall x :: x in r <==> lo <= x < hi
    ensures |r| == hi - lo
    decreases hi - lo
  {
    if lo == hi then {} else Interval(lo, hi - 1) + {hi - 1}
  }

  lemma SubsetOfSameSize<T>(a: set<T>, b: set<T>)
    requires a <= b && |a| == |b|
    ensures a == b
  {
    if x :| x in b && x !in a {
      assert a <= b - {x};
      SubsetSize(a, b - {x});
    }
  }

  lemma {:induction false} SubsetSize<T>(a: set<T>, b: set<T>)
    requires a <= b
    ensures |a| <= |b|
    decreases |a|
  {
    if a != {} {
      var x :| x in a;
      SubsetSize(a - {x}, b - {x});
    }
  }
}
