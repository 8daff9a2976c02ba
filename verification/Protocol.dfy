/** The scheduler process (scheduler/src/main.rs) as a state machine whose steps
    are the sections run under the `SchedulerState` mutex. Two watch loops and any
    number of retry tasks take these steps in any interleaving; a step carries the
    arguments its task captured earlier, so stale snapshots are ordinary steps.
    SchedulerMain shows that each handler, run on its own, takes such steps. */
module Protocol {
  import opened Shared
  import opened Ledger
  import opened Basic
  import opened Placing
  import opened WakeUp

  /** `try_schedule`'s locked section, given the answer of `place`. */
  function AfterTry(s: Core, key: PodKey, w: Waiting, onlyIfPending: bool, r: Result<string, PlaceError>): Core {
    if onlyIfPending && key !in s.pending then s
    else
      match r
      case Ok(node) => Recorded(s.view, s.pending, key, PlacementOf(w.pod, w.ports, node))
      case Err(_) => s.(pending := s.pending[key := w])
  }

  predicate Places(s: Core, key: PodKey, onlyIfPending: bool, r: Result<string, PlaceError>) {
    r.Ok? && !(onlyIfPending && key !in s.pending)
  }

  /** A pod taken off a node that became NOT_READY, on its way to a new one:
      before (`told` false) or after the API accepted the orphan report. */
  datatype Orphan = Orphan(key: PodKey, waiting: Waiting, told: bool)

  /** One task of a retry sweep, with what the sweep's snapshot said of the pod. */
  datatype Task = Task(key: PodKey, waiting: Waiting)

  /** Besides what the mutex guards: the orphans being handled, the node that was
      reported NOT_READY and is about to be evicted, the sweeps that are due but
      have not taken their snapshot, and the tasks of those that have. `excused`
      is history: the waiting pods that no sweep has been told to try although
      they may fit (see Excuses). */
  datatype System = System(
    core: Core,
    orphans: multiset<Orphan>,
    evicting: Option<string>,
    due: nat,
    tasks: multiset<Task>,
    excused: set<PodKey>)

  datatype Answer = Accepted | NotFound | Refused

  datatype Step =
    | NodeReported(node: Node)
    | NodeRemoved(name: string)
    | NodeEvicted
    | PodDeleted(key: PodKey)
    | PodRecorded(key: PodKey, placement: Placement)
    | OrphanFound(key: PodKey, limits: Resources, ports: seq<Port>)
    | OrphanAnswered(orphan: Orphan, answer: Answer)
    | OrphanPlaced(orphan: Orphan, placed: Result<string, PlaceError>)
    | Tried(key: PodKey, waiting: Waiting, outcome: Result<string, PlaceError>)
    | SweepStarted
    | Retried(task: Task, retried: Result<string, PlaceError>)
    | AssignNotFound(key: PodKey)

  /** The pod rebuilt by `reschedule_one_orphaned_pod`. */
  function OrphanOf(key: PodKey, limits: Resources, ports: seq<Port>): Orphan {
    Orphan(key, Waiting(Pod(key.name, Pending, Some(limits)), ports), false)
  }

  function OrphansOf(m: Placements, name: string): set<Orphan> {
    set k | k in m && m[k].node == name :: OrphanOf(k, m[k].limits, m[k].ports)
  }

  /** The snapshot a sweep takes. */
  function TasksOf(pending: map<PodKey, Waiting>): multiset<Task> {
    multiset(set k | k in pending :: Task(k, pending[k]))
  }

  ghost predicate Enabled(s: System, step: Step) {
    match step
    // one loop reports nodes, and evicts before it reports the next
    case NodeReported(_) => s.evicting.None?
    case NodeRemoved(_) => s.evicting.None?
    case NodeEvicted => s.evicting.Some?
    case PodDeleted(_) => true
    case PodRecorded(_, _) => true
    case OrphanFound(_, _, _) => true
    case OrphanAnswered(o, _) => o in s.orphans && !o.told
    case OrphanPlaced(o, r) =>
      o in s.orphans && o.told && PlaceAllowed(s.core.view, o.waiting.pod, o.waiting.ports, r)
    case Tried(_, w, r) => PlaceAllowed(s.core.view, w.pod, w.ports, r)
    case SweepStarted => s.due > 0
    case Retried(t, r) =>
      t in s.tasks
      && (t.key in s.core.pending ==> PlaceAllowed(s.core.view, t.waiting.pod, t.waiting.ports, r))
    case AssignNotFound(_) => true
  }

  /** Who is excused once `p` is recorded for `key` and `pending` still wait. */
  function ExcusedBy(v: View, key: PodKey, p: Placement, pending: set<PodKey>, excused: set<PodKey>): set<PodKey> {
    if MissesWakeUp(v, key, p) then pending else excused - {key}
  }

  function Try(s: System, key: PodKey, w: Waiting, onlyIfPending: bool, r: Result<string, PlaceError>): System {
    var c := s.core;
    s.(core := AfterTry(c, key, w, onlyIfPending, r),
    excused :=
      if onlyIfPending && key !in c.pending then s.excused
      else if r.Ok? then ExcusedBy(c.view, key, PlacementOf(w.pod, w.ports, r.value), c.pending.Keys - {key}, s.excused)
      else s.excused - {key})
  }

  ghost function Next(s: System, step: Step): System
    requires Enabled(s, step)
  {
    var c := s.core;
    match step
    case NodeReported(node) =>
      s.(core := c.(view := Upsert(c.view, node)),
      evicting := if node.status == NotReady then Some(node.name) else None,
      due := if node.status != NotReady && CouldUnblock(c.view, node) then s.due + 1 else s.due)
    case NodeRemoved(name) => s.(core := c.(view := RemoveNode(c.view, name)))
    case NodeEvicted =>
      var name := s.evicting.value;
      s.(core := c.(view := Evict(c.view, name)),
      orphans := s.orphans + multiset(OrphansOf(c.view.placements, name)),
      evicting := None)
    case PodDeleted(key) =>
      s.(core := Core(Release(c.view, key), c.pending - {key}),
      due := if key in c.view.placements then s.due + 1 else s.due)
    case PodRecorded(key, p) =>
      s.(core := Recorded(c.view, c.pending, key, p),
      excused := ExcusedBy(c.view, key, p, c.pending.Keys - {key}, s.excused))
    case OrphanFound(key, limits, ports) =>
      s.(orphans := s.orphans + multiset{OrphanOf(key, limits, ports)})
    case OrphanAnswered(o, Accepted) => s.(orphans := s.orphans - multiset{o} + multiset{o.(told := true)})
    case OrphanAnswered(o, NotFound) => s.(orphans := s.orphans - multiset{o})
    case OrphanAnswered(o, Refused) =>
      s.(core := c.(pending := c.pending[o.key := o.waiting]),
      orphans := s.orphans - multiset{o},
      excused := s.excused + {o.key})
    case OrphanPlaced(o, r) => Try(s.(orphans := s.orphans - multiset{o}), o.key, o.waiting, false, r)
    case Tried(key, w, r) => Try(s, key, w, false, r)
    case SweepStarted => s.(due := s.due - 1, tasks := s.tasks + TasksOf(c.pending), excused := {})
    case Retried(t, r) => Try(s.(tasks := s.tasks - multiset{t}), t.key, t.waiting, true, r)
    case AssignNotFound(key) => s.(core := c.(pending := c.pending - {key}))
  }

  /** `steps` can be taken one after the other from `a` and lead to `b`. */
  ghost predicate Leads(a: System, steps: seq<Step>, b: System)
    decreases |steps|
  {
    if steps == [] then a == b
    else Enabled(a, steps[0]) && Leads(Next(a, steps[0]), steps[1..], b)
  }

  lemma LeadsOne(a: System, step: Step)
    requires Enabled(a, step)
    ensures Leads(a, [step], Next(a, step))
  {
    assert Leads(Next(a, step), [], Next(a, step));
  }

  lemma {:induction false} LeadsOn(a: System, xs: seq<Step>, b: System, ys: seq<Step>, c: System)
    requires Leads(a, xs, b) && Leads(b, ys, c)
    ensures Leads(a, xs + ys, c)
    decreases |xs|
  {
    if xs == [] {
      assert xs + ys == ys;
    } else {
      LeadsOn(Next(a, xs[0]), xs[1..], b, ys, c);
      assert (xs + ys)[1..] == xs[1..] + ys;
    }
  }

  // ----- The view: every step is an operation on the four maps --------------------

  /** The operation of BasicScheduler that a step performs, if any. */
  ghost function OpOf(s: System, step: Step): Option<Op>
    requires Enabled(s, step)
  {
    match step
    case NodeReported(node) => Some(DoUpsert(node))
    case NodeRemoved(name) => Some(DoRemove(name))
    case NodeEvicted => Some(DoEvict(s.evicting.value))
    case PodDeleted(key) => Some(DoRelease(key))
    case PodRecorded(key, p) => Some(DoRecord(key, p))
    case OrphanPlaced(o, Ok(n)) => Some(DoRecord(o.key, PlacementOf(o.waiting.pod, o.waiting.ports, n)))
    case Tried(key, w, Ok(n)) => Some(DoRecord(key, PlacementOf(w.pod, w.ports, n)))
    case Retried(t, Ok(n)) =>
      if t.key in s.core.pending then Some(DoRecord(t.key, PlacementOf(t.waiting.pod, t.waiting.ports, n))) else None
    case _ => None
  }

  lemma TryViews(s: System, key: PodKey, w: Waiting, onlyIfPending: bool, r: Result<string, PlaceError>)
    ensures Try(s, key, w, onlyIfPending, r).core.view
            == if Places(s.core, key, onlyIfPending, r)
               then Record(s.core.view, key, PlacementOf(w.pod, w.ports, r.value)) else s.core.view
  {
  }

  predicate Attempts(step: Step) {
    step.OrphanPlaced? || step.Tried? || step.Retried?
  }

  lemma OtherStepIsOp(s: System, step: Step)
    requires Enabled(s, step) && !Attempts(step)
    ensures Next(s, step).core.view
            == match OpOf(s, step) case None => s.core.view case Some(op) => Apply(s.core.view, op)
  {
  }

  lemma StepIsOp(s: System, step: Step)
    requires Enabled(s, step)
    ensures Next(s, step).core.view
            == match OpOf(s, step) case None => s.core.view case Some(op) => Apply(s.core.view, op)
  {
    match step
    case OrphanPlaced(o, r) => TryViews(s.(orphans := s.orphans - multiset{o}), o.key, o.waiting, false, r);
    case Tried(key, w, r) => TryViews(s, key, w, false, r);
    case Retried(t, r) => TryViews(s.(tasks := s.tasks - multiset{t}), t.key, t.waiting, true, r);
    case _ => OtherStepIsOp(s, step);
  }

  /** Nobody asks for less than nothing, wherever a pod may be. */
  ghost predicate Sane(s: System) {
    && NonNegative(s.core)
    && (forall o :: o in s.orphans ==> o.waiting.NonNegative())
    && (forall t :: t in s.tasks ==> t.waiting.NonNegative())
  }

  /** The limits an event brings in are at least zero. */
  predicate BringsNonNegative(step: Step) {
    match step
    case PodRecorded(_, p) => p.limits.NonNegative()
    case OrphanFound(_, limits, _) => limits.NonNegative()
    case Tried(_, w, _) => w.NonNegative()
    case _ => true
  }

  ghost predicate Inv(s: System) {
    && Conserved(s.core.view)
    && Sane(s)
    && (s.evicting.Some? ==> s.core.view.IsConfirmedNotReady(s.evicting.value))
  }

  lemma ApplyNonNegative(v: View, op: Op)
    requires NonNegativeLimits(v.placements) && (op.DoRecord? ==> op.placement.limits.NonNegative())
    ensures NonNegativeLimits(Apply(v, op).placements)
  {
    if op.DoEvict? {
      EvictBooks(v, op.name);
    }
  }

  /** The operation a step performs records no negative limits. */
  lemma OpNonNegative(s: System, step: Step)
    requires Sane(s) && Enabled(s, step) && BringsNonNegative(step)
    ensures OpOf(s, step).Some? && OpOf(s, step).value.DoRecord? ==> OpOf(s, step).value.placement.limits.NonNegative()
  {
  }

  /** The pod a step is about, with what the step carries for it. */
  function CarriedBy(step: Step): Option<(PodKey, Waiting)> {
    match step
    case OrphanAnswered(o, _) => Some((o.key, o.waiting))
    case OrphanPlaced(o, _) => Some((o.key, o.waiting))
    case Tried(key, w, _) => Some((key, w))
    case Retried(t, _) => Some((t.key, t.waiting))
    case _ => None
  }

  /** A pod that waits after a step waited before, or is the one the step carries. */
  lemma WaitedOrCarried(s: System, step: Step, k: PodKey)
    requires Enabled(s, step) && k in Next(s, step).core.pending
    ensures var w := Next(s, step).core.pending[k];
            (k in s.core.pending && s.core.pending[k] == w) || CarriedBy(step) == Some((k, w))
  {
    match step
    case OrphanPlaced(o, r) => TryWaits(s.(orphans := s.orphans - multiset{o}), o.key, o.waiting, false, r, k);
    case Tried(key, w, r) => TryWaits(s, key, w, false, r, k);
    case Retried(t, r) => TryWaits(s.(tasks := s.tasks - multiset{t}), t.key, t.waiting, true, r, k);
    case _ =>
  }

  lemma TryWaits(
    s: System, key: PodKey, w: Waiting, onlyIfPending: bool, r: Result<string, PlaceError>, k: PodKey)
    ensures var pending := Try(s, key, w, onlyIfPending, r).core.pending;
            k in pending ==> (k in s.core.pending && s.core.pending[k] == pending[k]) || (k == key && pending[k] == w)
  {
  }

  lemma WaitingStaysNonNegative(s: System, step: Step)
    requires Sane(s) && Enabled(s, step) && BringsNonNegative(step)
    ensures forall k :: k in Next(s, step).core.pending ==> Next(s, step).core.pending[k].NonNegative()
  {
    forall k | k in Next(s, step).core.pending ensures Next(s, step).core.pending[k].NonNegative() {
      WaitedOrCarried(s, step, k);
    }
  }

  lemma OrphansStayNonNegative(s: System, step: Step)
    requires Sane(s) && Enabled(s, step) && BringsNonNegative(step)
    ensures forall o :: o in Next(s, step).orphans ==> o.waiting.NonNegative()
  {
    forall o | o in Next(s, step).orphans ensures o.waiting.NonNegative() {
      if o !in s.orphans {
        assert step.NodeEvicted? || step.OrphanFound? || step.OrphanAnswered?;
      }
    }
  }

  lemma TasksStayNonNegative(s: System, step: Step)
    requires Sane(s) && Enabled(s, step)
    ensures forall t :: t in Next(s, step).tasks ==> t.waiting.NonNegative()
  {
    forall t | t in Next(s, step).tasks ensures t.waiting.NonNegative() {
      if t !in s.tasks {
        assert step.SweepStarted? && t in TasksOf(s.core.pending);
      }
    }
  }

  lemma StepKeepsInv(s: System, step: Step)
    requires Inv(s) && Enabled(s, step) && BringsNonNegative(step)
    ensures Inv(Next(s, step))
  {
    StepIsOp(s, step);
    OpNonNegative(s, step);
    WaitingStaysNonNegative(s, step);
    OrphansStayNonNegative(s, step);
    TasksStayNonNegative(s, step);
    if OpOf(s, step).Some? {
      ApplyConserves(s.core.view, OpOf(s, step).value);
      ApplyNonNegative(s.core.view, OpOf(s, step).value);
    }
    EvictingStaysNotReady(s, step);
  }

  /** While a node is being evicted no report is taken. */
  lemma EvictingStaysNotReady(s: System, step: Step)
    requires Enabled(s, step)
    requires s.evicting.Some? ==> s.core.view.IsConfirmedNotReady(s.evicting.value)
    ensures var t := Next(s, step);
            t.evicting.Some? ==> t.core.view.IsConfirmedNotReady(t.evicting.value)
  {
    if !step.NodeReported? && s.evicting.Some? {
      StepIsOp(s, step);
      ApplyKeepsNodes(s.core.view, OpOf(s, step));
    }
  }

  lemma ApplyKeepsNodes(v: View, op: Option<Op>)
    requires op.Some? ==> !op.value.DoUpsert? && !op.value.DoRemove?
    ensures op.Some? ==> Apply(v, op.value).nodes == v.nodes
  {
  }

  // ----- What a pod asks for ----------------------------------------------------------

  predicate Asks(w: Waiting, limits: Resources, ports: seq<Port>) {
    w.pod.limits == Some(limits) && w.ports == ports
  }

  /** Waiting, placed, in flight or about to be tried again, `k` asks for these limits
      and ports. */
  ghost predicate EverywhereAsks(s: System, k: PodKey, limits: Resources, ports: seq<Port>) {
    && AsksFor(s.core, k, limits, ports)
    && (forall o :: o in s.orphans && o.key == k ==> Asks(o.waiting, limits, ports))
    && (forall t :: t in s.tasks && t.key == k ==> Asks(t.waiting, limits, ports))
  }

  /** Only an event says what a pod asks for. */
  predicate BringsNothing(step: Step) {
    !step.PodRecorded? && !step.OrphanFound? && !step.Tried?
  }

  /** An event about `k` asks for the same. */
  predicate BringsSame(step: Step, k: PodKey, limits: Resources, ports: seq<Port>) {
    match step
    case PodRecorded(key, p) => key == k ==> p.limits == limits && p.ports == ports
    case OrphanFound(key, l, ps) => key == k ==> l == limits && ps == ports
    case Tried(key, w, _) => key == k ==> Asks(w, limits, ports)
    case _ => true
  }

  lemma ApplyPlaces(v: View, op: Op, k: PodKey)
    ensures k in Apply(v, op).placements ==>
              || (k in v.placements && v.placements[k] == Apply(v, op).placements[k])
              || (op.DoRecord? && op.key == k && op.placement == Apply(v, op).placements[k])
  {
    match op
    case DoRecord(key, p) => RecordMeans(v, key, p);
    case DoEvict(name) => EvictBooks(v, name);
    case _ =>
  }

  lemma CarriedAsks(s: System, step: Step, k: PodKey, limits: Resources, ports: seq<Port>)
    requires EverywhereAsks(s, k, limits, ports) && Enabled(s, step) && BringsSame(step, k, limits, ports)
    ensures CarriedBy(step).Some? && CarriedBy(step).value.0 == k ==> Asks(CarriedBy(step).value.1, limits, ports)
    ensures OpOf(s, step).Some? && OpOf(s, step).value.DoRecord? && OpOf(s, step).value.key == k ==>
              OpOf(s, step).value.placement.limits == limits && OpOf(s, step).value.placement.ports == ports
  {
  }

  lemma OrphansAsk(s: System, step: Step, k: PodKey, limits: Resources, ports: seq<Port>)
    requires EverywhereAsks(s, k, limits, ports) && Enabled(s, step) && BringsSame(step, k, limits, ports)
    ensures forall o :: o in Next(s, step).orphans && o.key == k ==> Asks(o.waiting, limits, ports)
  {
    forall o | o in Next(s, step).orphans && o.key == k ensures Asks(o.waiting, limits, ports) {
      if o !in s.orphans {
        assert step.NodeEvicted? || step.OrphanFound? || step.OrphanAnswered?;
      }
    }
  }

  lemma TasksAsk(s: System, step: Step, k: PodKey, limits: Resources, ports: seq<Port>)
    requires EverywhereAsks(s, k, limits, ports) && Enabled(s, step)
    ensures forall t :: t in Next(s, step).tasks && t.key == k ==> Asks(t.waiting, limits, ports)
  {
    forall t | t in Next(s, step).tasks && t.key == k ensures Asks(t.waiting, limits, ports) {
      if t !in s.tasks {
        assert step.SweepStarted? && t in TasksOf(s.core.pending);
      }
    }
  }

  lemma StepKeepsAsks(s: System, step: Step, k: PodKey, limits: Resources, ports: seq<Port>)
    requires EverywhereAsks(s, k, limits, ports) && Enabled(s, step) && BringsSame(step, k, limits, ports)
    ensures EverywhereAsks(Next(s, step), k, limits, ports)
  {
    CarriedAsks(s, step, k, limits, ports);
    OrphansAsk(s, step, k, limits, ports);
    TasksAsk(s, step, k, limits, ports);
    StepIsOp(s, step);
    if OpOf(s, step).Some? {
      ApplyPlaces(s.core.view, OpOf(s, step).value, k);
    }
    if k in Next(s, step).core.pending {
      WaitedOrCarried(s, step, k);
    }
  }

  /** Over every interleaving a pod goes on asking for the limits and ports it asked
      for, evicted, reported, parked, retried or placed again, until an event asks for
      others. */
  lemma {:induction false} AsksKept(
    a: System, steps: seq<Step>, b: System, k: PodKey, limits: Resources, ports: seq<Port>)
    requires Leads(a, steps, b) && EverywhereAsks(a, k, limits, ports)
    requires forall i :: 0 <= i < |steps| ==> BringsSame(steps[i], k, limits, ports)
    ensures EverywhereAsks(b, k, limits, ports)
    decreases |steps|
  {
    if steps != [] {
      StepKeepsAsks(a, steps[0], k, limits, ports);
      AsksKept(Next(a, steps[0]), steps[1..], b, k, limits, ports);
    }
  }

  // ----- No missed wake-up ----------------------------------------------------------

  /** Some sweep in progress will still try `k`. */
  ghost predicate Awaited(tasks: multiset<Task>, k: PodKey) {
    exists t :: t in tasks && t.key == k
  }

  ghost predicate Accounted(s: System, k: PodKey)
    requires k in s.core.pending
  {
    || k in s.excused
    || Awaited(s.tasks, k)
    || Unplaceable(s.core.view, s.core.pending[k].pod, s.core.pending[k].ports)
  }

  /** Unless a sweep is due, every waiting pod fits nowhere, or will still be tried,
      or is excused. */
  ghost predicate NothingMissed(s: System) {
    s.due > 0 || forall k :: k in s.core.pending ==> Accounted(s, k)
  }

  lemma StillUnplaceable(v: View, w: View, x: Waiting)
    requires WakesNobody(v, w) && x.NonNegative() && Unplaceable(v, x.pod, x.ports)
    ensures Unplaceable(w, x.pod, x.ports)
  {
    if x.pod.limits.Some? {
      assert FitsNowhere(v, x.pod.limits.value, x.ports);
      assert FitsNowhere(w, x.pod.limits.value, x.ports);
    }
  }

  /** One `try_schedule` settles its pod and, unless it moves a pod and misses a
      wake-up by that, unsettles no other. */
  lemma TryAccounts(
    s: System, key: PodKey, w: Waiting, onlyIfPending: bool, r: Result<string, PlaceError>, k: PodKey)
    requires Conserved(s.core.view) && NonNegative(s.core) && w.NonNegative()
    requires !(onlyIfPending && key !in s.core.pending) ==> PlaceAllowed(s.core.view, w.pod, w.ports, r)
    requires k != key && k in s.core.pending ==> Accounted(s, k)
    requires k in Try(s, key, w, onlyIfPending, r).core.pending
    ensures k != key || !(onlyIfPending && key !in s.core.pending) ==> Accounted(Try(s, key, w, onlyIfPending, r), k)
  {
    if !(onlyIfPending && key !in s.core.pending) {
      if r.Err? {
        PlaceSucceedsIff(s.core.view, w.pod, w.ports, r);
      } else {
        var p := PlacementOf(w.pod, w.ports, r.value);
        RecordWakesNobodyIff(s.core.view, key, p);
        var x := s.core.pending[k];
        if !MissesWakeUp(s.core.view, key, p) && Unplaceable(s.core.view, x.pod, x.ports) {
          StillUnplaceable(s.core.view, Record(s.core.view, key, p), x);
        }
      }
    }
  }

  /** A step that changes the view without sweeping wakes nobody. */
  lemma ViewStepWakesNobody(s: System, step: Step)
    requires Inv(s) && Enabled(s, step) && CarriedBy(step).None? && !step.PodRecorded?
    requires Next(s, step).due <= s.due
    ensures WakesNobody(s.core.view, Next(s, step).core.view)
  {
    match step
    case NodeReported(node) => UpsertWakesNobody(s.core.view, node);
    case NodeRemoved(name) => RemoveNodeWakesNobody(s.core.view, name);
    case NodeEvicted => EvictWakesNobody(s.core.view, s.evicting.value);
    case _ =>
  }

  lemma RetriedAccounts(s: System, t: Task, r: Result<string, PlaceError>, k: PodKey)
    requires Inv(s) && NothingMissed(s) && s.due == 0 && Enabled(s, Retried(t, r))
    requires k in Next(s, Retried(t, r)).core.pending
    ensures Accounted(Next(s, Retried(t, r)), k)
  {
    var rest := s.(tasks := s.tasks - multiset{t});
    if k in s.core.pending && k != t.key && Awaited(s.tasks, k) {
      var x :| x in s.tasks && x.key == k;
      assert x in rest.tasks;
    }
    TryAccounts(rest, t.key, t.waiting, true, r, k);
  }

  lemma RecordedAccounts(s: System, key: PodKey, p: Placement, k: PodKey)
    requires Inv(s) && p.limits.NonNegative() && k in s.core.pending && k != key && Accounted(s, k)
    ensures Accounted(Next(s, PodRecorded(key, p)), k)
  {
    RecordWakesNobodyIff(s.core.view, key, p);
    if !MissesWakeUp(s.core.view, key, p)
       && Unplaceable(s.core.view, s.core.pending[k].pod, s.core.pending[k].ports) {
      StillUnplaceable(s.core.view, Record(s.core.view, key, p), s.core.pending[k]);
    }
  }

  lemma ViewStepAccounts(s: System, step: Step, k: PodKey)
    requires Inv(s) && Enabled(s, step) && CarriedBy(step).None? && !step.PodRecorded? && !step.SweepStarted?
    requires Next(s, step).due <= s.due && k in Next(s, step).core.pending
    requires k in s.core.pending && Accounted(s, k)
    ensures Accounted(Next(s, step), k)
  {
    ViewStepWakesNobody(s, step);
    if Unplaceable(s.core.view, s.core.pending[k].pod, s.core.pending[k].ports) {
      StillUnplaceable(s.core.view, Next(s, step).core.view, s.core.pending[k]);
    }
  }

  lemma CarriedAccounts(s: System, step: Step, k: PodKey)
    requires Inv(s) && NothingMissed(s) && s.due == 0 && Enabled(s, step) && BringsNonNegative(step)
    requires CarriedBy(step).Some? && k in Next(s, step).core.pending
    ensures Accounted(Next(s, step), k)
  {
    match step
    case OrphanPlaced(o, r) => TryAccounts(s.(orphans := s.orphans - multiset{o}), o.key, o.waiting, false, r, k);
    case Tried(key, w, r) => TryAccounts(s, key, w, false, r, k);
    case Retried(t, r) => RetriedAccounts(s, t, r, k);
    case OrphanAnswered(_, _) =>
  }

  lemma SnapshotAccounts(s: System, k: PodKey)
    requires Enabled(s, SweepStarted) && k in s.core.pending
    ensures Accounted(Next(s, SweepStarted), k)
  {
    assert Task(k, s.core.pending[k]) in TasksOf(s.core.pending);
  }

  lemma DueStays(s: System, step: Step)
    requires Enabled(s, step) && !step.SweepStarted?
    ensures Next(s, step).due >= s.due
  {
  }

  lemma StepAccounts(s: System, step: Step, k: PodKey)
    requires Inv(s) && NothingMissed(s) && Enabled(s, step) && BringsNonNegative(step)
    requires Next(s, step).due == 0 && k in Next(s, step).core.pending
    ensures Accounted(Next(s, step), k)
  {
    if step.SweepStarted? {
      SnapshotAccounts(s, k);
    } else {
      DueStays(s, step);
      if CarriedBy(step).Some? {
        CarriedAccounts(s, step, k);
      } else {
        WaitedOrCarried(s, step, k);
        if step.PodRecorded? {
          RecordedAccounts(s, step.key, step.placement, k);
        } else {
          ViewStepAccounts(s, step, k);
        }
      }
    }
  }

  lemma StepMissesNothing(s: System, step: Step)
    requires Inv(s) && NothingMissed(s) && Enabled(s, step) && BringsNonNegative(step)
    ensures NothingMissed(Next(s, step))
  {
    if Next(s, step).due == 0 {
      forall k | k in Next(s, step).core.pending ensures Accounted(Next(s, step), k) {
        StepAccounts(s, step, k);
      }
    }
  }

  /** No missed wake-up, over every interleaving of the two watch loops and any
      number of sweeps: unless a sweep is due, every waiting pod is unplaceable on
      the current view, or a running sweep will still try it, or it is excused.
      Once no sweep is due or running, the waiting pods are settled. */
  lemma {:induction false} NoMissedWakeUp(a: System, steps: seq<Step>, b: System)
    requires Leads(a, steps, b) && Inv(a) && NothingMissed(a)
    requires forall i :: 0 <= i < |steps| ==> BringsNonNegative(steps[i])
    ensures Inv(b) && NothingMissed(b)
    ensures b.due == 0 && b.tasks == multiset{} ==> Settled(b.core, b.excused)
    decreases |steps|
  {
    if steps != [] {
      StepKeepsInv(a, steps[0]);
      StepMissesNothing(a, steps[0]);
      NoMissedWakeUp(Next(a, steps[0]), steps[1..], b);
    } else {
      assert b.tasks == multiset{} ==> forall k :: !Awaited(b.tasks, k);
    }
  }

  /** The only steps after which a pod may be excused: an orphan report the API
      refused, and a placement moved so that its old node offers what none did. */
  predicate Excuses(s: System, step: Step) {
    match step
    case OrphanAnswered(_, Refused) => true
    case PodRecorded(key, p) => MissesWakeUp(s.core.view, key, p)
    case OrphanPlaced(o, Ok(n)) =>
      MissesWakeUp(s.core.view, o.key, PlacementOf(o.waiting.pod, o.waiting.ports, n))
    case Tried(key, w, Ok(n)) => MissesWakeUp(s.core.view, key, PlacementOf(w.pod, w.ports, n))
    case Retried(t, Ok(n)) =>
      t.key in s.core.pending && MissesWakeUp(s.core.view, t.key, PlacementOf(t.waiting.pod, t.waiting.ports, n))
    case _ => false
  }

  ghost predicate ExcusesNobody(a: System, steps: seq<Step>)
    decreases |steps|
  {
    steps == []
    || (Enabled(a, steps[0]) && !Excuses(a, steps[0]) && ExcusesNobody(Next(a, steps[0]), steps[1..]))
  }

  lemma {:induction false} ExcusedOnlyBy(a: System, steps: seq<Step>, b: System)
    requires Leads(a, steps, b) && ExcusesNobody(a, steps)
    ensures b.excused <= a.excused
    decreases |steps|
  {
    if steps != [] {
      ExcusedOnlyBy(Next(a, steps[0]), steps[1..], b);
    }
  }

  /** A sweep lifts every excuse: a run that starts one and then excuses nobody
      ends with nobody excused. */
  lemma SweepLiftsExcuses(a: System, steps: seq<Step>, b: System)
    requires Leads(a, [SweepStarted] + steps, b) && ExcusesNobody(a, [SweepStarted] + steps)
    ensures b.excused == {}
  {
    assert ([SweepStarted] + steps)[1..] == steps;
    ExcusedOnlyBy(Next(a, SweepStarted), steps, b);
  }

  /** The excuse for a refused orphan is exact: among pods otherwise settled, the
      refusal leaves them settled if and only if that pod fits nowhere. */
  lemma RefusedOrphanSettledIff(s: System, o: Orphan)
    requires Enabled(s, OrphanAnswered(o, Refused)) && Settled(s.core, {o.key})
    ensures Settled(Next(s, OrphanAnswered(o, Refused)).core, {})
            <==> Unplaceable(s.core.view, o.waiting.pod, o.waiting.ports)
  {
    assert o.key in Next(s, OrphanAnswered(o, Refused)).core.pending;
  }

  /** Nobody is in flight, no sweep is due or running. */
  predicate AtRest(s: System) {
    s.orphans == multiset{} && s.evicting == None && s.due == 0 && s.tasks == multiset{}
  }

  lemma ThreeSteps(a: System, x: Step, b: System, y: Step, c: System, z: Step, d: System)
    requires Enabled(a, x) && b == Next(a, x) && Enabled(b, y) && c == Next(b, y) && Enabled(c, z) && d == Next(c, z)
    ensures Leads(a, [x, y, z], d)
  {
    LeadsOne(c, z);
    LeadsOne(b, y);
    LeadsOne(a, x);
    LeadsOn(b, [y], c, [z], d);
    LeadsOn(a, [x], b, [y] + [z], d);
    assert [x] + ([y] + [z]) == [x, y, z];
  }

  /** The view of two Ready nodes, with one pod on the first. */
  ghost predicate PodOnFirst(v: View, key: PodKey, a: string, b: string) {
    var big := Some(Resources(10, 10));
    && a != b && Conserved(v)
    && v.placements == map[key := Placement(a, Resources(5, 5), [])]
    && v.nodes == map[a := Node(a, Ready, big, big), b := Node(b, Ready, big, big)]
  }

  lemma TwoNodes(key: PodKey, a: string, b: string) returns (v: View)
    requires a != b
    ensures PodOnFirst(v, key, a, b)
  {
    var big := Some(Resources(10, 10));
    var one := OneNode(key, a);
    ApplyConserves(one, DoUpsert(Node(b, Ready, big, big)));
    v := Upsert(one, Node(b, Ready, big, big));
  }

  /** With the first node lost and emptied, the pod fits on the second. */
  lemma FitsOnSecond(v: View, key: PodKey, a: string, b: string)
    requires PodOnFirst(v, key, a, b)
    ensures var lost := Upsert(v, Node(a, NotReady, Some(Resources(10, 10)), Some(Resources(10, 10))));
            Fits(Evict(lost, a), Resources(5, 5), [], b)
  {
    var lost := Upsert(v, Node(a, NotReady, Some(Resources(10, 10)), Some(Resources(10, 10))));
    OnlyOneHolds(v, key, b);
    EvictBooks(lost, a);
    assert Evict(lost, a).nodes[b] == v.nodes[b];
  }

  /** A node is lost, its one pod evicted, and the report about it refused. */
  lemma LostAndRefused(v: View, key: PodKey, a: string, node: Node) returns (steps: seq<Step>, t: System)
    requires v.placements == map[key := Placement(a, Resources(5, 5), [])]
    requires node.name == a && node.status == NotReady
    ensures Leads(System(Core(v, map[]), multiset{}, None, 0, multiset{}, {}), steps, t) && AtRest(t)
    ensures t.core == Core(Evict(Upsert(v, node), a), map[key := OrphanOf(key, Resources(5, 5), []).waiting])
    ensures t.excused == {key}
  {
    var s := System(Core(v, map[]), multiset{}, None, 0, multiset{}, {});
    var s1 := Next(s, NodeReported(node));
    var s2 := Next(s1, NodeEvicted);
    var o := OrphanOf(key, Resources(5, 5), []);
    assert key in v.placements && o in OrphansOf(v.placements, a);
    assert OrphansOf(v.placements, a) == {o};
    assert s2.orphans == multiset{o};
    t := Next(s2, OrphanAnswered(o, Refused));
    steps := [NodeReported(node), NodeEvicted, OrphanAnswered(o, Refused)];
    ThreeSteps(s, NodeReported(node), s1, NodeEvicted, s2, OrphanAnswered(o, Refused), t);
  }

  /** Such refusals happen: a node is lost, the API refuses the report about the pod
      it ran, and the pod waits at rest although another node would take it. */
  lemma RefusedOrphanWaits(key: PodKey, a: string, b: string) returns (s: System, steps: seq<Step>, t: System)
    requires a != b
    ensures Inv(s) && AtRest(s) && Settled(s.core, {}) && s.excused == {}
    ensures Leads(s, steps, t) && AtRest(t)
    ensures key in t.core.pending && t.excused == {key} && !Settled(t.core, {})
  {
    var v := TwoNodes(key, a, b);
    s := System(Core(v, map[]), multiset{}, None, 0, multiset{}, {});
    steps, t := LostAndRefused(v, key, a, Node(a, NotReady, Some(Resources(10, 10)), Some(Resources(10, 10))));
    FitsOnSecond(v, key, a, b);
    FitsUnsettles(t.core, key, Resources(5, 5), b);
  }

  lemma OnlyOneHolds(v: View, key: PodKey, n: string)
    requires Conserved(v) && v.placements.Keys == {key} && v.placements[key].node != n
    ensures v.ClaimedOn(n) == NO_RESOURCES && v.PortsOn(n) == {}
  {
    assert OnNode(v.placements, n) == map[];
    assert v.ClaimedOn(n) == Total(v.placements, n) && v.PortsOn(n) <= PortsHeld(v.placements, n);
  }

  // ----- No over-commit ---------------------------------------------------------------

  /** Events repeat what the scheduler decided, and no report lowers what a node can
      allocate. */
  predicate Trusting(s: System, step: Step) {
    match step
    case NodeReported(node) =>
      node.name in s.core.view.nodes && s.core.view.nodes[node.name].allocatable.Some? ==>
        node.allocatable.Some?
        && s.core.view.nodes[node.name].allocatable.value.AtMost(node.allocatable.value)
    case PodRecorded(key, p) => key in s.core.view.placements && s.core.view.placements[key] == p
    case _ => true
  }

  ghost predicate TrustingRun(a: System, steps: seq<Step>)
    decreases |steps|
  {
    steps == [] || (Enabled(a, steps[0]) && Trusting(a, steps[0]) && TrustingRun(Next(a, steps[0]), steps[1..]))
  }

  lemma TrustingIsDisciplined(s: System, step: Step)
    requires Inv(s) && Enabled(s, step) && Trusting(s, step) && BringsNonNegative(step)
    ensures OpOf(s, step).Some? ==> Disciplined(s.core.view, OpOf(s, step).value)
  {
    OpNonNegative(s, step);
  }

  /** No over-commit and host-port exclusivity, over every interleaving of the
      process: what `place` answers under the lock stays within bounds. */
  lemma {:induction false} NoOverCommitInProcess(a: System, steps: seq<Step>, b: System)
    requires Leads(a, steps, b) && Inv(a) && WithinBounds(a.core.view) && TrustingRun(a, steps)
    requires forall i :: 0 <= i < |steps| ==> BringsNonNegative(steps[i])
    ensures Conserved(b.core.view) && WithinBounds(b.core.view)
    decreases |steps|
  {
    if steps != [] {
      StepKeepsInv(a, steps[0]);
      StepIsOp(a, steps[0]);
      TrustingIsDisciplined(a, steps[0]);
      if OpOf(a, steps[0]).Some? {
        ApplyWithinBounds(a.core.view, OpOf(a, steps[0]).value);
      }
      NoOverCommitInProcess(Next(a, steps[0]), steps[1..], b);
    }
  }

  // ----- Concurrent retry sweeps -------------------------------------------------------

  /** What sweeps do: take a snapshot, try a pod of one, drop a pod the API answered
      NotFound for. */
  predicate OfSweep(step: Step) {
    step.SweepStarted? || step.Retried? || step.AssignNotFound?
  }

  /** How often a run of sweeps places `key`. */
  ghost function TimesPlaced(a: System, steps: seq<Step>, key: PodKey): nat
    decreases |steps|
  {
    if steps == [] || !Enabled(a, steps[0]) then 0
    else
      (if steps[0].Retried? && steps[0].task.key == key && Places(a.core, key, true, steps[0].retried) then 1 else 0)
      + TimesPlaced(Next(a, steps[0]), steps[1..], key)
  }

  lemma SweepStep(s: System, step: Step)
    requires Enabled(s, step) && OfSweep(step) && Apart(s.core)
    ensures var t := Next(s, step);
            && Apart(t.core) && t.core.pending.Keys <= s.core.pending.Keys
            && (forall k :: k in s.core.view.placements ==>
                  k in t.core.view.placements && t.core.view.placements[k] == s.core.view.placements[k])
            && (forall k :: k in t.core.view.placements && k !in s.core.view.placements ==>
                  step.Retried? && step.task.key == k && Places(s.core, k, true, step.retried))
            && (step.Retried? && Places(s.core, step.task.key, true, step.retried) ==>
                  && step.task.key in s.core.pending && step.task.key !in t.core.pending
                  && step.task.key !in s.core.view.placements && step.task.key in t.core.view.placements)
  {
  }

  /** Any interleaving of any number of sweeps, from any snapshots: pending and
      placed pods stay apart; what was placed stays where it was; a pod is placed
      at most once, only if it was waiting, and then it is no longer waiting. */
  lemma {:induction false} RetrySweepsAreSafe(a: System, steps: seq<Step>, b: System)
    requires Leads(a, steps, b) && Apart(a.core) && forall i :: 0 <= i < |steps| ==> OfSweep(steps[i])
    ensures Apart(b.core) && b.core.pending.Keys <= a.core.pending.Keys
    ensures forall k :: k in a.core.view.placements ==>
              k in b.core.view.placements && b.core.view.placements[k] == a.core.view.placements[k]
    ensures forall k :: k in b.core.view.placements && k !in a.core.view.placements ==> k in a.core.pending
    ensures forall k :: TimesPlaced(a, steps, k)
                        == if k in b.core.view.placements && k !in a.core.view.placements then 1 else 0
    decreases |steps|
  {
    if steps != [] {
      var m := Next(a, steps[0]);
      SweepStep(a, steps[0]);
      RetrySweepsAreSafe(m, steps[1..], b);
    }
  }

  lemma {:induction false} SweepsTrust(a: System, steps: seq<Step>, b: System)
    requires Leads(a, steps, b) && forall i :: 0 <= i < |steps| ==> OfSweep(steps[i])
    ensures TrustingRun(a, steps) && forall i :: 0 <= i < |steps| ==> BringsNonNegative(steps[i])
    decreases |steps|
  {
    if steps != [] {
      SweepsTrust(Next(a, steps[0]), steps[1..], b);
    }
  }

  /** The nodes chosen by such sweeps also respect capacity and host ports. */
  lemma RetrySweepsStayWithinBounds(a: System, steps: seq<Step>, b: System)
    requires Leads(a, steps, b) && forall i :: 0 <= i < |steps| ==> OfSweep(steps[i])
    requires Inv(a) && WithinBounds(a.core.view)
    ensures Conserved(b.core.view) && WithinBounds(b.core.view)
  {
    SweepsTrust(a, steps, b);
    NoOverCommitInProcess(a, steps, b);
  }

  /** The re-check under the lock is needed: with two nodes that fit, a second
      sweep that skipped it could be answered the other node, and would move the
      pod the first sweep placed. With the re-check the pod stays. */
  lemma RecheckIsNeeded(s: Core, key: PodKey, w: Waiting, m: string, n: string)
    requires Conserved(s.view) && key in s.pending && key !in s.view.placements && w.pod.limits.Some?
    requires m != n && Fits(s.view, w.pod.limits.value, w.ports, m) && Fits(s.view, w.pod.limits.value, w.ports, n)
    ensures PlaceAllowed(s.view, w.pod, w.ports, Ok(m))
    ensures var once := AfterTry(s, key, w, true, Ok(m));
            && once.view.placements[key].node == m
            && PlaceAllowed(once.view, w.pod, w.ports, Ok(n))
            && AfterTry(once, key, w, false, Ok(n)).view.placements[key].node == n
            && AfterTry(once, key, w, true, Ok(n)) == once
  {
    var once := AfterTry(s, key, w, true, Ok(m));
    assert once.view.nodes[n].name == n && once.view.nodes[m].name == m;
    assert once.view.EffectiveAllocatable(once.view.nodes[n]) == s.view.EffectiveAllocatable(s.view.nodes[n]);
    assert Fits(once.view, w.pod.limits.value, w.ports, n);
    assert IsReady(once.view.nodes[n]) && HasCapacity(once.view, once.view.nodes[n], w.pod.limits.value);
  }

  /** An attempt keeps waiting and placed pods apart exactly when it places the pod
      or the pod held no placement. */
  lemma TryKeepsApartIff(s: Core, key: PodKey, w: Waiting, r: Result<string, PlaceError>)
    requires Apart(s)
    ensures Apart(AfterTry(s, key, w, false, r)) <==> r.Ok? || key !in s.view.placements
  {
    if r.Err? && key in s.view.placements {
      assert key in AfterTry(s, key, w, false, r).pending.Keys * s.view.placements.Keys;
    }
  }

  // ----- No pod lost ------------------------------------------------------------------

  /** The process still knows the pod: waiting, placed, or in flight. */
  ghost predicate Tracked(s: System, key: PodKey) {
    Known(s.core, key) || exists o :: o in s.orphans && o.key == key
  }

  predicate Known(c: Core, key: PodKey) {
    key in c.pending || key in c.view.placements
  }

  /** The only steps that may forget `key`. Removing a node forgets its pods by
      design; nothing publishes such an event today. */
  predicate Forgets(step: Step, key: PodKey) {
    match step
    case PodDeleted(k) => k == key
    case AssignNotFound(k) => k == key
    case OrphanAnswered(o, NotFound) => o.key == key
    case NodeRemoved(_) => true
    case _ => false
  }

  /** The only steps that may start tracking `key`. */
  predicate Introduces(step: Step, key: PodKey) {
    match step
    case PodRecorded(k, _) => k == key
    case OrphanFound(k, _, _) => k == key
    case Tried(k, _, _) => k == key
    case _ => false
  }

  /** A locked section of `try_schedule` leaves its pod waiting or placed and
      touches no other pod. */
  lemma TryKnows(c: Core, k: PodKey, w: Waiting, onlyIfPending: bool, r: Result<string, PlaceError>, key: PodKey)
    ensures Known(c, key) ==> Known(AfterTry(c, k, w, onlyIfPending, r), key)
    ensures Known(AfterTry(c, k, w, onlyIfPending, r), key) && (key != k || onlyIfPending) ==> Known(c, key)
    ensures !onlyIfPending ==> Known(AfterTry(c, k, w, onlyIfPending, r), k)
  {
  }

  /** A task in flight for `o` is replaced by `more`. */
  lemma InFlightStep(s: multiset<Orphan>, o: Orphan, more: multiset<Orphan>, x: Orphan)
    requires o in s
    ensures x in s && x != o ==> x in s - multiset{o} + more
    ensures x in s - multiset{o} + more ==> x in s || x in more
  {
  }

  function OrphansAdded(step: Step): multiset<Orphan> {
    if step.OrphanAnswered? && step.answer.Accepted? then multiset{step.orphan.(told := true)} else multiset{}
  }

  lemma OrphanStepKeeps(s: System, step: Step, key: PodKey)
    requires Enabled(s, step) && (step.OrphanAnswered? || step.OrphanPlaced?)
    requires Tracked(s, key) && !Forgets(step, key)
    ensures Tracked(Next(s, step), key)
  {
    var o, t := step.orphan, Next(s, step);
    assert t.orphans == s.orphans - multiset{o} + OrphansAdded(step);
    if step.OrphanPlaced? {
      TryKnows(s.core, o.key, o.waiting, false, step.placed, key);
    }
    if !Known(t.core, key) {
      var x :| x in s.orphans && x.key == key;
      InFlightStep(s.orphans, o, OrphansAdded(step), x);
      assert x in t.orphans || o.(told := true) in t.orphans;
    }
  }

  lemma OrphanStepInvents(s: System, step: Step, key: PodKey)
    requires Enabled(s, step) && (step.OrphanAnswered? || step.OrphanPlaced?)
    requires Tracked(Next(s, step), key)
    ensures Tracked(s, key)
  {
    var o, t := step.orphan, Next(s, step);
    assert t.orphans == s.orphans - multiset{o} + OrphansAdded(step);
    if Known(t.core, key) {
      if step.OrphanPlaced? {
        TryKnows(s.core, o.key, o.waiting, false, step.placed, key);
      }
      assert Known(s.core, key) || o.key == key;
    } else {
      var x :| x in t.orphans && x.key == key;
      InFlightStep(s.orphans, o, OrphansAdded(step), x);
      assert x in s.orphans || o.key == key;
    }
  }

  lemma StepTracks(s: System, step: Step, key: PodKey)
    requires Enabled(s, step)
    ensures Tracked(s, key) && !Forgets(step, key) ==> Tracked(Next(s, step), key)
    ensures Tracked(Next(s, step), key) && !Introduces(step, key) ==> Tracked(s, key)
  {
    match step
    case OrphanAnswered(_, _) => OrphanStepTracks(s, step, key);
    case OrphanPlaced(_, _) => OrphanStepTracks(s, step, key);
    case NodeEvicted => EvictedAreInFlight(s, key);
    case Tried(k, w, r) => TryKnows(s.core, k, w, false, r, key);
    case Retried(t, r) => TryKnows(s.core, t.key, t.waiting, true, r, key);
    case OrphanFound(k, limits, ports) =>
      assert forall x :: x in Next(s, step).orphans <==> x in s.orphans || x == OrphanOf(k, limits, ports);
    case _ =>
  }

  lemma OrphanStepTracks(s: System, step: Step, key: PodKey)
    requires Enabled(s, step) && (step.OrphanAnswered? || step.OrphanPlaced?)
    ensures Tracked(s, key) && !Forgets(step, key) ==> Tracked(Next(s, step), key)
    ensures Tracked(Next(s, step), key) ==> Tracked(s, key)
  {
    if Tracked(s, key) && !Forgets(step, key) {
      OrphanStepKeeps(s, step, key);
    }
    if Tracked(Next(s, step), key) {
      OrphanStepInvents(s, step, key);
    }
  }

  lemma EvictedAreInFlight(s: System, key: PodKey)
    requires Enabled(s, NodeEvicted)
    ensures Tracked(s, key) <==> Tracked(Next(s, NodeEvicted), key)
  {
    var m, name := s.core.view.placements, s.evicting.value;
    var t := Next(s, NodeEvicted);
    EvictBooks(s.core.view, name);
    var fleeing := OrphansOf(m, name);
    assert forall o :: o in t.orphans <==> o in s.orphans || o in fleeing;
    if key in m && m[key].node == name {
      assert OrphanOf(key, m[key].limits, m[key].ports) in fleeing;
    }
  }

  /** No pod is silently lost: whatever the interleaving, a tracked pod stays
      tracked until it is deleted or the API answers NotFound for it. */
  lemma {:induction false} NoPodLost(a: System, steps: seq<Step>, b: System, key: PodKey)
    requires Leads(a, steps, b) && Tracked(a, key)
    requires forall i :: 0 <= i < |steps| ==> !Forgets(steps[i], key)
    ensures Tracked(b, key)
    decreases |steps|
  {
    if steps != [] {
      StepTracks(a, steps[0], key);
      NoPodLost(Next(a, steps[0]), steps[1..], b, key);
    }
  }

  /** ... and nothing is tracked out of nowhere. */
  lemma {:induction false} NoPodInvented(a: System, steps: seq<Step>, b: System, key: PodKey)
    requires Leads(a, steps, b) && Tracked(b, key)
    requires forall i :: 0 <= i < |steps| ==> !Introduces(steps[i], key)
    ensures Tracked(a, key)
    decreases |steps|
  {
    if steps != [] {
      NoPodInvented(Next(a, steps[0]), steps[1..], b, key);
      StepTracks(a, steps[0], key);
    }
  }

  /** A Deleted event makes the process forget the pod exactly when no orphan report
      about it is in flight. */
  lemma DeletedForgottenIff(a: System, key: PodKey)
    ensures !Tracked(Next(a, PodDeleted(key)), key) <==> forall o :: o in a.orphans ==> o.key != key
  {
  }

  /** ... and then no run brings it back but one that an event introduces it to. */
  lemma DeletedStaysForgotten(a: System, key: PodKey, steps: seq<Step>, b: System)
    requires Leads(Next(a, PodDeleted(key)), steps, b)
    requires forall o :: o in a.orphans ==> o.key != key
    requires forall i :: 0 <= i < |steps| ==> !Introduces(steps[i], key)
    ensures !Tracked(b, key)
  {
    if Tracked(b, key) {
      NoPodInvented(Next(a, PodDeleted(key)), steps, b, key);
      DeletedForgottenIff(a, key);
    }
  }

  /** Otherwise a deleted pod may keep a placement: an orphan whose report was taken
      is placed after its Deleted event, NOT_FOUND only drops it from `pending`, and
      at rest nothing is left that would release it. */
  lemma DeletedPodKeepsPlacement(a: System, o: Orphan, n: string) returns (b: System)
    requires a.orphans == multiset{o} && o.told && a.evicting.None? && a.due == 0 && a.tasks == multiset{}
    requires o.key !in a.core.view.placements
    requires PlaceAllowed(a.core.view, o.waiting.pod, o.waiting.ports, Ok(n))
    ensures Leads(a, [PodDeleted(o.key), OrphanPlaced(o, Ok(n)), AssignNotFound(o.key)], b) && AtRest(b)
    ensures o.key !in b.core.pending
    ensures o.key in b.core.view.placements && b.core.view.placements[o.key].node == n
  {
    var a1 := Next(a, PodDeleted(o.key));
    var a2 := Next(a1, OrphanPlaced(o, Ok(n)));
    b := Next(a2, AssignNotFound(o.key));
    ThreeSteps(a, PodDeleted(o.key), a1, OrphanPlaced(o, Ok(n)), a2, AssignNotFound(o.key), b);
  }

  // ----- Evicted pods, listed ------------------------------------------------------

  function OrphanOfEntry(entry: Entry): Orphan {
    OrphanOf(entry.0, entry.1.limits, entry.1.ports)
  }

  /** The pods of `entries`, all in flight. */
  function InFlight(entries: seq<Entry>): multiset<Orphan> {
    if entries == [] then multiset{} else multiset{OrphanOfEntry(entries[0])} + InFlight(entries[1..])
  }

  lemma {:induction false} InFlightOnce(entries: seq<Entry>, o: Orphan)
    requires forall i, j :: 0 <= i < j < |entries| ==> entries[i].0 != entries[j].0
    ensures InFlight(entries)[o]
            == if exists i :: 0 <= i < |entries| && OrphanOfEntry(entries[i]) == o then 1 else 0
  {
    if entries != [] {
      InFlightOnce(entries[1..], o);
      assert forall i :: 1 <= i < |entries| ==> entries[i] == entries[1..][i - 1];
    }
  }

  /** The list `evict_node` hands back names exactly the pods put in flight. */
  lemma EvictedAreListed(entries: seq<Entry>, m: Placements, name: string)
    requires ListsNode(entries, m, name)
    ensures InFlight(entries) == multiset(OrphansOf(m, name))
  {
    forall o ensures InFlight(entries)[o] == multiset(OrphansOf(m, name))[o] {
      InFlightOnce(entries, o);
      if o in OrphansOf(m, name) {
        var k :| k in m && m[k].node == name && OrphanOf(k, m[k].limits, m[k].ports) == o;
        var i :| 0 <= i < |entries| && entries[i].0 == k;
        assert OrphanOfEntry(entries[i]) == o;
      }
    }
  }
}
