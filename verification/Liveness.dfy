/** Node liveness in the API store (api/src/store.rs, in-memory branch): a node is
    READY while some desired-state stream is open. Streams are counted under one
    lock, node records are changed under another, and a stream's teardown is queued
    when it is dropped (api/src/service.rs), so it may run arbitrarily late. The
    steps are the sections between two lock operations; they interleave freely. */
module Liveness {
  import opened Shared

  /** Who holds the watcher lock: a stream being opened (`marked` once the node's
      status is settled) or the last stream of a node being closed. */
  datatype Lock = Free | Opening(name: string, marked: bool) | Closing(name: string)

  datatype Streams = Streams(
    nodes: map<string, Node>,
    watchers: map<string, nat>,
    lock: Lock,
    open: multiset<string>,
    teardowns: multiset<string>)
  {
    function Count(name: string): nat {
      if name in watchers then watchers[name] else 0
    }
  }

  const NO_STREAMS := Streams(map[], map[], Free, multiset{}, multiset{})

  /** `register_node`: the stored status survives, a new node starts NOT_READY. */
  function Registered(nodes: map<string, Node>, node: Node): map<string, Node> {
    nodes[node.name := node.(status := if node.name in nodes then nodes[node.name].status else NotReady)]
  }

  /** `set_node_status`; unknown nodes are left alone. */
  function WithStatus(nodes: map<string, Node>, name: string, status: NodeStatus): map<string, Node> {
    if name in nodes then nodes[name := nodes[name].(status := status)] else nodes
  }

  datatype Step =
    | Register(node: Node)
    | OpenLock(name: string)      // take the watcher lock and read the count
    | OpenMark                    // first stream: set READY under the node lock
    | OpenCount                   // store the count, release, hand out the stream
    | OpenAbandoned               // the call is dropped while it waits for the node lock
    | StreamDropped(name: string) // the stream goes away; its teardown is queued
    | CloseLock(name: string)     // a teardown takes the watcher lock and counts down
    | CloseMark                   // last stream: set NOT_READY, release

  predicate Enabled(s: Streams, step: Step) {
    match step
    case Register(_) => true
    case OpenLock(name) => s.lock == Free && name in s.nodes
    case OpenMark => s.lock.Opening? && !s.lock.marked
    case OpenCount => s.lock.Opening? && s.lock.marked
    case OpenAbandoned => s.lock.Opening? && !s.lock.marked
    case StreamDropped(name) => name in s.open
    case CloseLock(name) => s.lock == Free && name in s.teardowns
    case CloseMark => s.lock.Closing?
  }

  function Next(s: Streams, step: Step): Streams
    requires Enabled(s, step)
  {
    match step
    case Register(node) => s.(nodes := Registered(s.nodes, node))
    case OpenLock(name) => s.(lock := Opening(name, s.Count(name) > 0))
    case OpenMark =>
      s.(nodes := WithStatus(s.nodes, s.lock.name, Ready), lock := Opening(s.lock.name, true))
    case OpenCount =>
      s.(watchers := s.watchers[s.lock.name := s.Count(s.lock.name) + 1],
      open := s.open + multiset{s.lock.name},
      lock := Free)
    case OpenAbandoned => s.(lock := Free)
    case StreamDropped(name) =>
      s.(open := s.open - multiset{name}, teardowns := s.teardowns + multiset{name})
    case CloseLock(name) =>
      var t := s.(teardowns := s.teardowns - multiset{name});
      if name !in s.watchers then t
      else if s.watchers[name] > 1 then t.(watchers := s.watchers[name := s.watchers[name] - 1])
      else t.(watchers := s.watchers - {name}, lock := Closing(name))
    case CloseMark => s.(nodes := WithStatus(s.nodes, s.lock.name, NotReady), lock := Free)
  }

  /** The law of liveness for one node. */
  predicate ReadyIffWatched(s: Streams, name: string) {
    name in s.nodes ==> (s.nodes[name].status == Ready <==> s.Count(name) > 0)
  }

  /** What holds of every single node: its status is one of two, the count is the
      live streams plus the queued teardowns, and the law holds unless the lock
      holder is working on the node. */
  predicate Accurate(s: Streams, n: string) {
    && (n in s.nodes ==> s.nodes[n].status == Ready || s.nodes[n].status == NotReady)
    && (n in s.watchers ==> n in s.nodes && s.watchers[n] > 0)
    && s.Count(n) == s.open[n] + s.teardowns[n]
    && (ReadyIffWatched(s, n) || (s.lock != Free && n == s.lock.name))
  }

  predicate LockAccurate(s: Streams) {
    match s.lock
    case Free => true
    case Opening(n, marked) =>
      n in s.nodes && (s.nodes[n].status == Ready <==> marked) && (!marked ==> s.Count(n) == 0)
    case Closing(n) => n in s.nodes && s.Count(n) == 0
  }

  ghost predicate Inv(s: Streams) {
    LockAccurate(s) && forall n :: Accurate(s, n)
  }

  lemma OpenAccurate(s: Streams, step: Step, n: string)
    requires Enabled(s, step) && LockAccurate(s) && Accurate(s, n)
    requires step.OpenLock? || step.OpenMark? || step.OpenCount? || step.OpenAbandoned?
    ensures Accurate(Next(s, step), n)
  {
  }

  lemma CloseAccurate(s: Streams, step: Step, n: string)
    requires Enabled(s, step) && LockAccurate(s) && Accurate(s, n)
    requires step.CloseLock? || step.CloseMark?
    ensures Accurate(Next(s, step), n)
  {
    if step.CloseLock? {
      var t := Next(s, step);
      assert t.teardowns[n] == s.teardowns[n] - if n == step.name then 1 else 0;
    }
  }

  /** A step seen from one node. */
  lemma StepAccurate(s: Streams, step: Step, n: string)
    requires Enabled(s, step) && LockAccurate(s) && Accurate(s, n)
    ensures Accurate(Next(s, step), n)
  {
    if step.CloseLock? || step.CloseMark? {
      CloseAccurate(s, step, n);
    } else if !step.Register? && !step.StreamDropped? {
      OpenAccurate(s, step, n);
    }
  }

  lemma StepKeepsInv(s: Streams, step: Step)
    requires Inv(s) && Enabled(s, step)
    ensures Inv(Next(s, step))
  {
    forall n ensures Accurate(Next(s, step), n) {
      assert Accurate(s, n);
      StepAccurate(s, step, n);
    }
    LockStep(s, step);
  }

  lemma LockStep(s: Streams, step: Step)
    requires Inv(s) && Enabled(s, step)
    ensures LockAccurate(Next(s, step))
  {
    if step.OpenLock? || step.CloseLock? {
      assert Accurate(s, step.name);
    }
  }

  predicate RunEnabled(s: Streams, steps: seq<Step>)
    decreases |steps|
  {
    steps == [] || (Enabled(s, steps[0]) && RunEnabled(Next(s, steps[0]), steps[1..]))
  }

  function Run(s: Streams, steps: seq<Step>): Streams
    requires RunEnabled(s, steps)
    decreases |steps|
  {
    if steps == [] then s else Run(Next(s, steps[0]), steps[1..])
  }

  lemma {:induction false} RunKeepsInv(s: Streams, steps: seq<Step>)
    requires Inv(s) && RunEnabled(s, steps)
    ensures Inv(Run(s, steps))
    decreases |steps|
  {
    if steps != [] {
      StepKeepsInv(s, steps[0]);
      RunKeepsInv(Next(s, steps[0]), steps[1..]);
    }
  }

  /** Liveness counting, over every interleaving: whenever the watcher lock is
      free, a known node is READY exactly when its count is positive, and the
      count is the live streams plus the queued teardowns. In particular a late
      teardown never takes down a node whose replacement stream is open. */
  lemma LivenessInEveryRun(steps: seq<Step>, name: string)
    requires RunEnabled(NO_STREAMS, steps)
    requires Run(NO_STREAMS, steps).lock == Free && name in Run(NO_STREAMS, steps).nodes
    ensures var s := Run(NO_STREAMS, steps);
            && (s.nodes[name].status == Ready <==> s.Count(name) > 0)
            && s.Count(name) == s.open[name] + s.teardowns[name]
            && (name in s.open ==> s.nodes[name].status == Ready)
  {
    var s := Run(NO_STREAMS, steps);
    assert Inv(NO_STREAMS);
    RunKeepsInv(NO_STREAMS, steps);
    assert Accurate(s, name);
  }
}
