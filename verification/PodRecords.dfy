/** The stored pod record, the ways the API handlers change it and the events it
    is published in (proto/shared/v1/pod.proto, api/src/handlers, api/src/store.rs). */
module PodRecords {
  import opened Shared

  /** The ports of each container; nothing else of a container matters here. */
  datatype PodSpec = PodSpec(namespace: string, containers: seq<seq<Port>>)

  datatype PodCore = PodCore(pod: Option<Pod>, spec: Option<PodSpec>)

  datatype Runtime = Runtime(
    containerStatuses: seq<string>,
    podIp: Option<string>,
    message: Option<string>,
    usage: Option<Resources>)

  datatype PodDetail = PodDetail(
    core: Option<PodCore>,
    nodeName: string,
    unschedulableReason: Option<string>,
    runtime: Runtime)

  function NamespaceOf(d: PodDetail): string {
    if d.core.Some? && d.core.value.spec.Some? then d.core.value.spec.value.namespace else ""
  }

  function PodOf(d: PodDetail): Option<Pod> {
    if d.core.Some? then d.core.value.pod else None
  }

  function LimitsOf(d: PodDetail): Option<Resources> {
    if PodOf(d).Some? then PodOf(d).value.limits else None
  }

  function Flatten(containers: seq<seq<Port>>): seq<Port> {
    if containers == [] then [] else containers[0] + Flatten(containers[1..])
  }

  function PortsOf(d: PodDetail): seq<Port> {
    if d.core.Some? && d.core.value.spec.Some? then Flatten(d.core.value.spec.value.containers) else []
  }

  /** `pod_key`: absent parts default to the empty string. */
  function KeyOfDetail(d: PodDetail): PodKey {
    PodKey(NamespaceOf(d), if PodOf(d).Some? then PodOf(d).value.name else "")
  }

  datatype EventType = Unspecified | Added | Modified | Deleted | Scheduled

  datatype PodEvent = PodEvent(eventType: EventType, pod: PodDetail)

  // ----- The closures passed to the store's update functions ----------------

  datatype Mutation =
    | AssignNode(node: string)
    | MarkUnschedulable(reason: string)
    | MarkOrphaned(reason: string)
    | ReportStatus(status: PodStatus, report: Runtime)

  function WithStatus(core: Option<PodCore>, status: PodStatus): Option<PodCore> {
    if core.Some? && core.value.pod.Some?
    then Some(core.value.(pod := Some(core.value.pod.value.(status := status))))
    else core
  }

  function Overlay<T>(reported: Option<T>, stored: Option<T>): Option<T> {
    if reported.Some? then reported else stored
  }

  function Mutate(d: PodDetail, m: Mutation): PodDetail {
    match m
    case AssignNode(node) =>
      d.(nodeName := node, unschedulableReason := None, core := WithStatus(d.core, Pending))
    case MarkUnschedulable(reason) =>
      d.(nodeName := "", unschedulableReason := Some(reason), core := WithStatus(d.core, NoNodeAvailable))
    case MarkOrphaned(reason) =>
      d.(nodeName := "", unschedulableReason := Some(reason), core := WithStatus(d.core, Unknown))
    case ReportStatus(status, report) =>
      d.(core := WithStatus(d.core, status),
      runtime := Runtime(
        if report.containerStatuses != [] then report.containerStatuses else d.runtime.containerStatuses,
        Overlay(report.podIp, d.runtime.podIp),
        Overlay(report.message, d.runtime.message),
        Overlay(report.usage, d.runtime.usage)))
  }

  /** No handler changes which pod a record is about or what it asks for, and a
      status report leaves the placement to the scheduler. */
  lemma MutateKeepsIdentity(d: PodDetail, m: Mutation)
    ensures KeyOfDetail(Mutate(d, m)) == KeyOfDetail(d)
    ensures LimitsOf(Mutate(d, m)) == LimitsOf(d) && PortsOf(Mutate(d, m)) == PortsOf(d)
    ensures m.ReportStatus? ==>
              Mutate(d, m).nodeName == d.nodeName && Mutate(d, m).unschedulableReason == d.unschedulableReason
  {
  }

  /** A record after a sequence of changes. */
  function Fold(d: PodDetail, ms: seq<Mutation>): PodDetail
    decreases |ms|
  {
    if ms == [] then d else Fold(Mutate(d, ms[0]), ms[1..])
  }

  /** The scheduler's last word in `ms`, if it said anything. */
  function LastDecision(ms: seq<Mutation>): (r: Option<Mutation>)
    ensures r.Some? ==> r.value in ms && !r.value.ReportStatus?
  {
    if ms == [] then None
    else if !ms[|ms| - 1].ReportStatus? then Some(ms[|ms| - 1])
    else LastDecision(ms[..|ms| - 1])
  }

  lemma {:induction false} FoldMore(d: PodDetail, ms: seq<Mutation>, m: Mutation)
    ensures Fold(d, ms + [m]) == Mutate(Fold(d, ms), m)
    decreases |ms|
  {
    if ms == [] {
      assert Fold(Mutate(d, m), []) == Mutate(d, m);
    } else {
      assert (ms + [m])[1..] == ms[1..] + [m];
      FoldMore(Mutate(d, ms[0]), ms[1..], m);
    }
  }

  /** Whatever the interleaving of assignments and status reports, a record is
      placed where the scheduler last said, or nowhere with the reason it last
      gave; status reports never move it, and its status is the last one set. */
  lemma {:induction false} PlacementIsLastDecision(d: PodDetail, ms: seq<Mutation>)
    ensures var r := Fold(d, ms);
            && KeyOfDetail(r) == KeyOfDetail(d) && LimitsOf(r) == LimitsOf(d) && PortsOf(r) == PortsOf(d)
            && (match LastDecision(ms)
                case None => r.nodeName == d.nodeName && r.unschedulableReason == d.unschedulableReason
                case Some(AssignNode(node)) => r.nodeName == node && r.unschedulableReason == None
                case Some(MarkUnschedulable(reason)) => r.nodeName == "" && r.unschedulableReason == Some(reason)
                case Some(MarkOrphaned(reason)) => r.nodeName == "" && r.unschedulableReason == Some(reason))
            && (ms != [] && PodOf(d).Some? ==>
                  && PodOf(r).Some?
                  && PodOf(r).value.status == match ms[|ms| - 1]
                                              case AssignNode(_) => Pending
                                              case MarkUnschedulable(_) => NoNodeAvailable
                                              case MarkOrphaned(_) => Unknown
                                              case ReportStatus(status, _) => status)
  {
    if ms != [] {
      var before, last := ms[..|ms| - 1], ms[|ms| - 1];
      assert before + [last] == ms;
      FoldMore(d, before, last);
      MutateKeepsIdentity(Fold(d, before), last);
      PlacementIsLastDecision(d, before);
      assert PodOf(d).Some? ==> PodOf(Fold(d, before)).Some?;
    }
  }

  // ----- What a record says, spelled out ----------------------------------------

  /** A record with a pod and a spec is keyed by the spec's namespace and the pod's
      name; what is absent counts as empty. */
  lemma KeyMeans(core: PodCore, node: string, reason: Option<string>, runtime: Runtime)
    ensures var key := KeyOfDetail(PodDetail(Some(core), node, reason, runtime));
            && key.namespace == (match core.spec case Some(spec) => spec.namespace case None => "")
            && key.name == (match core.pod case Some(pod) => pod.name case None => "")
    ensures KeyOfDetail(PodDetail(None, node, reason, runtime)) == PodKey("", "")
  {
  }

  /** A record asks for the limits of its pod and the ports of all its containers, in
      order. */
  lemma AsksMean(core: PodCore, node: string, reason: Option<string>, runtime: Runtime)
    ensures var d := PodDetail(Some(core), node, reason, runtime);
            && PodOf(d) == core.pod
            && LimitsOf(d) == (match core.pod case Some(pod) => pod.limits case None => None)
            && PortsOf(d) == (match core.spec case Some(spec) => Flatten(spec.containers) case None => [])
  {
  }

  lemma {:induction false} FlattenMeans(a: seq<seq<Port>>, b: seq<seq<Port>>, container: seq<Port>)
    ensures Flatten(a + [container] + b) == Flatten(a) + container + Flatten(b)
  {
    if a == [] {
      assert (a + [container] + b)[1..] == b;
      assert Flatten(a) + container + Flatten(b) == container + Flatten(b);
    } else {
      FlattenMeans(a[1..], b, container);
      assert (a + [container] + b)[1..] == a[1..] + [container] + b;
    }
  }

  // ----- The runtime fields ------------------------------------------------------------

  function StatusesIn(r: Runtime): Option<seq<string>> {
    if r.containerStatuses == [] then None else Some(r.containerStatuses)
  }

  function PodIpIn(r: Runtime): Option<string> {
    r.podIp
  }

  function MessageIn(r: Runtime): Option<string> {
    r.message
  }

  function UsageIn(r: Runtime): Option<Resources> {
    r.usage
  }

  /** The last value that a status report of `ms` brought for a field. */
  function LastReported<T>(ms: seq<Mutation>, field: Runtime -> Option<T>): Option<T> {
    if ms == [] then None
    else if ms[|ms| - 1].ReportStatus? && field(ms[|ms| - 1].report).Some? then field(ms[|ms| - 1].report)
    else LastReported(ms[..|ms| - 1], field)
  }

  /** Whatever the interleaving of assignments and status reports, each runtime field
      is the last value reported for it, or the one it had if none was. */
  lemma {:induction false} RuntimeIsLastReported(d: PodDetail, ms: seq<Mutation>)
    ensures var was, now := d.runtime, Fold(d, ms).runtime;
            && now.containerStatuses
               == (match LastReported(ms, StatusesIn) case Some(x) => x case None => was.containerStatuses)
            && now.podIp == (match LastReported(ms, PodIpIn) case Some(x) => Some(x) case None => was.podIp)
            && now.message == (match LastReported(ms, MessageIn) case Some(x) => Some(x) case None => was.message)
            && now.usage == (match LastReported(ms, UsageIn) case Some(x) => Some(x) case None => was.usage)
  {
    if ms != [] {
      var before, last := ms[..|ms| - 1], ms[|ms| - 1];
      assert before + [last] == ms;
      FoldMore(d, before, last);
      RuntimeIsLastReported(d, before);
    }
  }
}
