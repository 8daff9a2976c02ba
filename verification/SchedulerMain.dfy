/** The event handlers of the scheduler process (scheduler/src/main.rs), run one at
    a time. Answers of the API server are arbitrary; each handler returns the log
    of its calls so that its guarantees can speak about them, and the steps of
    Protocol's state machine that it took. */
module SchedulerMain {
  import opened Shared
  import opened PodRecords
  import opened Ledger
  import opened Basic
  import opened Placing
  import opened WakeUp
  import opened Protocol
  import opened Scheduler

  datatype Request = ToNode(node: string) | NoNode(reason: PlaceError) | OrphanedFrom(deadNode: string)

  /** One AssignPod call. */
  datatype Call = Call(key: PodKey, request: Request, answer: Answer)

  function Gone(log: seq<Call>): set<PodKey> {
    set call | call in log && call.answer == NotFound :: call.key
  }

  /** Pods whose orphan report the API did not take. */
  function Refusals(log: seq<Call>): set<PodKey> {
    set call | call in log && call.answer == Refused && call.request.OrphanedFrom? :: call.key
  }

  lemma GoneAppend(log: seq<Call>, more: seq<Call>)
    ensures Gone(log + more) == Gone(log) + Gone(more)
    ensures Refusals(log + more) == Refusals(log) + Refusals(more)
  {
  }

  /** The placement a pod record spells out. */
  function PlacementFrom(d: PodDetail): Placement {
    Placement(d.nodeName, LimitsOrDefault(LimitsOf(d)), PortsOf(d))
  }

  lemma PlacementFromMeans(d: PodDetail)
    ensures PlacementFrom(d).node == d.nodeName && PlacementFrom(d).ports == PortsOf(d)
    ensures LimitsOf(d).Some? ==> PlacementFrom(d).limits == LimitsOf(d).value
    ensures LimitsOf(d).None? ==> PlacementFrom(d).limits.cpu == 0 && PlacementFrom(d).limits.memory == 0
  {
  }

  // ----- What a handler may change ----------------------------------------------

  /** From `s` to `t` no placed pod moved but those that also waited, and no pod
      went missing except those the API no longer knows. */
  ghost predicate Keeps(s: Core, t: Core, gone: set<PodKey>) {
    && (forall k :: k in s.view.placements && k !in s.pending ==>
          k in t.view.placements && t.view.placements[k] == s.view.placements[k])
    && (forall k :: Known(s, k) && k !in gone ==> Known(t, k))
    && (forall k :: Known(t, k) ==> Known(s, k))
    && (forall k :: k in t.pending ==> k in s.pending)
    && s.view.nodes == t.view.nodes
  }

  lemma KeepsAlong(s: Core, t: Core, u: Core, gone: set<PodKey>, more: set<PodKey>)
    requires Keeps(s, t, gone) && Keeps(t, u, more)
    ensures Keeps(s, u, gone + more)
  {
  }

  /** From `s` to `t` nothing about `k` changed. */
  predicate Untouched(s: Core, t: Core, k: PodKey) {
    && (k in s.pending <==> k in t.pending)
    && (k in s.pending ==> s.pending[k] == t.pending[k])
    && (k in s.view.placements <==> k in t.view.placements)
    && (k in s.view.placements ==> s.view.placements[k] == t.view.placements[k])
  }

  /** From `s` to `t` no other pod than `key` moved, unless it also waited, or went
      missing, and no node changed. */
  ghost predicate OthersKept(s: Core, t: Core, key: PodKey, gone: set<PodKey>) {
    && (forall k :: k != key && k in s.view.placements && k !in s.pending ==>
          k in t.view.placements && t.view.placements[k] == s.view.placements[k])
    && (forall k :: k != key && Known(s, k) && k !in gone ==> Known(t, k))
    && (forall k :: k != key && Known(t, k) ==> Known(s, k))
    && t.view.nodes == s.view.nodes
  }

  lemma UntouchedKept(s: Core, t: Core, key: PodKey, gone: set<PodKey>)
    requires t.view.nodes == s.view.nodes
    requires forall k :: k != key ==> Untouched(s, t, k)
    ensures OthersKept(s, t, key, gone)
  {
    forall k | k != key && k in s.view.placements
      ensures k in t.view.placements && t.view.placements[k] == s.view.placements[k]
    {
      assert Untouched(s, t, k);
    }
    forall k | k != key && Known(s, k) ensures Known(t, k) {
      assert Untouched(s, t, k);
    }
    forall k | k != key && Known(t, k) ensures Known(s, k) {
      assert Untouched(s, t, k);
    }
  }

  /** From `s` to `t` no pod went missing and none moved that was on another node
      than `name`, unless it also waited. */
  ghost predicate OtherNodesKept(s: Core, t: Core, name: string, gone: set<PodKey>) {
    && (forall k :: Known(s, k) && k !in gone ==> Known(t, k))
    && (forall k :: k in s.view.placements && k !in s.pending && s.view.placements[k].node != name ==>
          k in t.view.placements && t.view.placements[k] == s.view.placements[k])
  }

  lemma EvictedKept(s: Core, t: Core, name: string, gone: set<PodKey>)
    requires forall k :: k in s.view.placements && s.view.placements[k].node == name ==> k in gone || Known(t, k)
    requires forall k :: !(k in s.view.placements && s.view.placements[k].node == name) ==> Untouched(s, t, k)
    ensures OtherNodesKept(s, t, name, gone)
  {
    forall k | Known(s, k) && k !in gone ensures Known(t, k) {
      assert (k in s.view.placements && s.view.placements[k].node == name) || Untouched(s, t, k);
    }
    forall k | k in s.view.placements && s.view.placements[k].node != name
      ensures k in t.view.placements && t.view.placements[k] == s.view.placements[k]
    {
      assert Untouched(s, t, k);
    }
  }

  /** No pod is left on a node reported NOT_READY. */
  ghost predicate NoneStranded(v: View) {
    forall k :: k in v.placements ==> !v.IsConfirmedNotReady(v.placements[k].node)
  }

  // ----- One attempt ----------------------------------------------------------------

  /** What one `try_schedule` does, the API's answer included. */
  ghost predicate TryDone(
    s: Core, t: Core, key: PodKey, w: Waiting, onlyIfPending: bool, outcome: Option<Result<string, PlaceError>>,
    log: seq<Call>)
  {
    if onlyIfPending && key !in s.pending then outcome.None? && log == [] && t == s
    else
      && outcome.Some? && PlaceAllowed(s.view, w.pod, w.ports, outcome.value)
      && |log| == 1 && log[0].key == key
      && log[0].request == (match outcome.value case Ok(n) => ToNode(n) case Err(e) => NoNode(e))
      && t == Answered(AfterTry(s, key, w, onlyIfPending, outcome.value), key, log[0].answer)
  }

  /** After the API's answer. */
  function Answered(s: Core, key: PodKey, answer: Answer): Core {
    if answer == NotFound then s.(pending := s.pending - {key}) else s
  }

  lemma AfterTryOthers(s: Core, key: PodKey, w: Waiting, onlyIfPending: bool, r: Result<string, PlaceError>)
    ensures var u := AfterTry(s, key, w, onlyIfPending, r);
            u.view.nodes == s.view.nodes && forall k :: k != key ==> Untouched(s, u, k)
  {
  }

  lemma TryDoneOthers(
    s: Core, t: Core, key: PodKey, w: Waiting, onlyIfPending: bool, outcome: Option<Result<string, PlaceError>>,
    log: seq<Call>)
    requires TryDone(s, t, key, w, onlyIfPending, outcome, log)
    ensures forall k :: k != key ==> Untouched(s, t, k)
    ensures t.view.nodes == s.view.nodes
    ensures Refusals(log) == {}
  {
    if log != [] {
      assert forall call :: call in log ==> call == log[0];
      AfterTryOthers(s, key, w, onlyIfPending, outcome.value);
    }
  }

  lemma TryDoneKey(
    s: Core, t: Core, key: PodKey, w: Waiting, onlyIfPending: bool, outcome: Option<Result<string, PlaceError>>,
    log: seq<Call>)
    requires TryDone(s, t, key, w, onlyIfPending, outcome, log)
    ensures onlyIfPending && key !in s.pending ==> t == s
    ensures key in Gone(log) || Known(t, key) || (onlyIfPending && key !in s.pending)
    ensures key in t.view.placements && w.pod.limits.Some? ==>
              || (key in s.view.placements && s.view.placements[key] == t.view.placements[key])
              || Fits(s.view, w.pod.limits.value, w.ports, t.view.placements[key].node)
  {
    if log != [] {
      assert log[0] in log;
    }
  }

  lemma TryDoneKeeps(
    s: Core, t: Core, key: PodKey, w: Waiting, outcome: Option<Result<string, PlaceError>>, log: seq<Call>)
    requires TryDone(s, t, key, w, true, outcome, log)
    ensures Keeps(s, t, Gone(log)) && Refusals(log) == {}
    ensures Apart(s) ==> Apart(t)
  {
    TryDoneOthers(s, t, key, w, true, outcome, log);
    TryDoneKey(s, t, key, w, true, outcome, log);
    forall k | k != key ensures Untouched(s, t, k) {
    }
  }

  lemma TryStrandsNobody(
    s: Core, t: Core, key: PodKey, w: Waiting, onlyIfPending: bool, outcome: Option<Result<string, PlaceError>>,
    log: seq<Call>)
    requires TryDone(s, t, key, w, onlyIfPending, outcome, log) && NoneStranded(s.view)
    ensures NoneStranded(t.view)
  {
  }

  // ----- Handlers as runs of the state machine ---------------------------------

  /** Nobody in flight, nothing due. */
  function Quiet(c: Core, excused: set<PodKey>): System {
    System(c, multiset{}, None, 0, multiset{}, excused)
  }

  ghost predicate RunsTo(s: Core, excused: set<PodKey>, steps: seq<Step>, t: Core, left: set<PodKey>) {
    Leads(Quiet(s, excused), steps, Quiet(t, left))
  }

  predicate BringOnlyNonNegative(steps: seq<Step>) {
    forall i :: 0 <= i < |steps| ==> BringsNonNegative(steps[i])
  }

  predicate BringNothing(steps: seq<Step>) {
    forall i :: 0 <= i < |steps| ==> BringsNothing(steps[i])
  }

  /** Every pod goes on asking for what it asked for. */
  ghost predicate KeepsAsks(s: Core, t: Core) {
    forall k, limits, ports :: AsksFor(s, k, limits, ports) ==> AsksFor(t, k, limits, ports)
  }

  /** Every pod but `key`, and `key` if it asks for what `w` asks for, goes on asking for
      what it asked for. */
  ghost predicate KeepsAsksBut(s: Core, t: Core, key: PodKey, w: Waiting) {
    forall k, limits, ports :: AsksFor(s, k, limits, ports) && (k == key ==> Asks(w, limits, ports)) ==>
                                 AsksFor(t, k, limits, ports)
  }

  /** The first step brings what `w` asks for, about `key`. */
  predicate OpensWith(steps: seq<Step>, key: PodKey, w: Waiting) {
    steps != [] && BringNothing(steps[1..])
    && match steps[0]
       case PodRecorded(k, p) => k == key && Asks(w, p.limits, p.ports)
       case OrphanFound(k, limits, ports) => k == key && Asks(w, limits, ports)
       case Tried(k, v, _) => k == key && v == w
       case _ => false
  }

  lemma OpeningKeepsAsks(
    s: Core, excused: set<PodKey>, steps: seq<Step>, t: Core, left: set<PodKey>, key: PodKey, w: Waiting)
    requires RunsTo(s, excused, steps, t, left) && OpensWith(steps, key, w)
    ensures KeepsAsksBut(s, t, key, w)
  {
    forall k, limits, ports | AsksFor(s, k, limits, ports) && (k == key ==> Asks(w, limits, ports))
      ensures AsksFor(t, k, limits, ports)
    {
      forall i | 0 <= i < |steps| ensures BringsSame(steps[i], k, limits, ports) {
        assert i > 0 ==> steps[1..][i - 1] == steps[i];
      }
      AsksKept(Quiet(s, excused), steps, Quiet(t, left), k, limits, ports);
    }
  }

  lemma RunKeepsAsks(a: System, steps: seq<Step>, b: System)
    requires Leads(a, steps, b) && BringNothing(steps) && a.orphans == multiset{} && a.tasks == multiset{}
    ensures KeepsAsks(a.core, b.core)
  {
    forall k, limits, ports | AsksFor(a.core, k, limits, ports) ensures AsksFor(b.core, k, limits, ports) {
      AsksKept(a, steps, b, k, limits, ports);
    }
  }

  /** What a run between quiet states does for the waiting pods. */
  lemma QuietRunSettles(s: Core, excused: set<PodKey>, steps: seq<Step>, t: Core, left: set<PodKey>)
    requires RunsTo(s, excused, steps, t, left) && BringOnlyNonNegative(steps) && Conserved(s.view)
    ensures NonNegative(s) && Settled(s, excused) ==> NonNegative(t) && Settled(t, left)
  {
    if NonNegative(s) && Settled(s, excused) {
      NoMissedWakeUp(Quiet(s, excused), steps, Quiet(t, left));
    }
  }

  lemma SettlesIf(
    condition: bool, s: Core, excused: set<PodKey>, steps: seq<Step>, t: Core, left: set<PodKey>)
    requires RunsTo(s, excused, steps, t, left) && (condition ==> BringOnlyNonNegative(steps)) && Conserved(s.view)
    ensures condition && NonNegative(s) && Settled(s, excused) ==> NonNegative(t) && Settled(t, left)
  {
    if condition {
      QuietRunSettles(s, excused, steps, t, left);
    }
  }

  lemma AnswerLeads(a: System, key: PodKey, answer: Answer) returns (steps: seq<Step>)
    ensures Leads(a, steps, a.(core := Answered(a.core, key, answer))) && BringNothing(steps)
  {
    if answer == NotFound {
      steps := [AssignNotFound(key)];
      LeadsOne(a, steps[0]);
    } else {
      steps := [];
    }
  }

  /** `key` was moved from `s` to `t` and freed room that no sweep offered. */
  predicate MovedUnnoticed(s: Core, t: Core, key: PodKey) {
    && key in s.view.placements && key in t.view.placements
    && MissesWakeUp(s.view, key, t.view.placements[key])
  }

  lemma ExcusedAfterTry(a: System, t: Core, key: PodKey, w: Waiting, r: Result<string, PlaceError>, answer: Answer)
    requires Conserved(a.core.view) && t == Answered(AfterTry(a.core, key, w, false, r), key, answer)
    ensures Try(a, key, w, false, r).excused
            <= if MovedUnnoticed(a.core, t, key) then t.pending.Keys else a.excused
  {
    if r.Err? && key in a.core.view.placements {
      UnmovedMissesNothing(a.core.view, key);
    }
  }

  lemma TriedLeads(
    a: System, t: Core, key: PodKey, w: Waiting, r: Result<string, PlaceError>, log: seq<Call>)
    returns (steps: seq<Step>, left: set<PodKey>)
    requires Conserved(a.core.view) && TryDone(a.core, t, key, w, false, Some(r), log)
    ensures Leads(a, steps, a.(core := t, excused := left))
    ensures w.NonNegative() ==> BringOnlyNonNegative(steps)
    ensures OpensWith(steps, key, w)
    ensures left <= if MovedUnnoticed(a.core, t, key) then t.pending.Keys else a.excused
  {
    var tried := Tried(key, w, r);
    var b := Next(a, tried);
    LeadsOne(a, tried);
    var rest := AnswerLeads(b, key, log[0].answer);
    LeadsOn(a, [tried], b, rest, b.(core := t));
    ExcusedAfterTry(a, t, key, w, r, log[0].answer);
    steps, left := [tried] + rest, b.excused;
    assert steps[1..] == rest;
  }

  lemma RetriedLeads(
    a: System, t: Core, task: Task, outcome: Option<Result<string, PlaceError>>, log: seq<Call>)
    returns (steps: seq<Step>, left: set<PodKey>)
    requires Conserved(a.core.view)
    requires task in a.tasks && TryDone(a.core, t, task.key, task.waiting, true, outcome, log)
    ensures Leads(a, steps, a.(core := t, tasks := a.tasks - multiset{task}, excused := left))
    ensures BringNothing(steps)
    ensures left <= a.excused || MovedUnnoticed(a.core, t, task.key)
    ensures a.excused <= a.core.pending.Keys ==> left <= t.pending.Keys
  {
    var retried := Retried(task, if outcome.Some? then outcome.value else Err(NoReadyNode));
    var b := Next(a, retried);
    LeadsOne(a, retried);
    left := b.excused;
    if outcome.None? {
      steps := [retried];
    } else {
      var rest := AnswerLeads(b, task.key, log[0].answer);
      LeadsOn(a, [retried], b, rest, b.(core := t));
      steps := [retried] + rest;
      ExcusedAfterRetry(a, t, task, outcome.value, log[0].answer);
    }
  }

  lemma ExcusedAfterRetry(a: System, t: Core, task: Task, r: Result<string, PlaceError>, answer: Answer)
    requires Conserved(a.core.view) && task.key in a.core.pending
    requires t == Answered(AfterTry(a.core, task.key, task.waiting, true, r), task.key, answer)
    ensures var left := Try(a, task.key, task.waiting, true, r).excused;
            && (left <= a.excused || MovedUnnoticed(a.core, t, task.key))
            && (a.excused <= a.core.pending.Keys ==> left <= t.pending.Keys)
  {
  }

  /** What `reschedule_one_orphaned_pod` does for the orphan `o` of `node`. */
  ghost predicate OrphanDone(s: Core, t: Core, o: Orphan, node: string, log: seq<Call>) {
    && log != []
    && log[0].key == o.key && log[0].request == OrphanedFrom(node)
    && match log[0].answer
       case NotFound => |log| == 1 && t == s
       case Refused => |log| == 1 && t == s.(pending := s.pending[o.key := o.waiting])
       case Accepted => exists r :: TryDone(s, t, o.key, o.waiting, false, Some(r), log[1..])
  }

  lemma PlacedLeads(a: System, t: Core, o: Orphan, r: Result<string, PlaceError>, log: seq<Call>)
    returns (steps: seq<Step>, left: set<PodKey>)
    requires Conserved(a.core.view) && o.told && o in a.orphans
    requires TryDone(a.core, t, o.key, o.waiting, false, Some(r), log)
    ensures Leads(a, steps, a.(core := t, orphans := a.orphans - multiset{o}, excused := left))
    ensures BringNothing(steps)
    ensures left <= if MovedUnnoticed(a.core, t, o.key) then t.pending.Keys else a.excused
  {
    var placed := OrphanPlaced(o, r);
    var b := Next(a, placed);
    LeadsOne(a, placed);
    var rest := AnswerLeads(b, o.key, log[0].answer);
    LeadsOn(a, [placed], b, rest, b.(core := t));
    ExcusedAfterTry(a, t, o.key, o.waiting, r, log[0].answer);
    steps, left := [placed] + rest, b.excused;
  }

  lemma ToldAndPlaced(s: multiset<Orphan>, o: Orphan)
    requires o in s && !o.told
    ensures s - multiset{o} + multiset{o.(told := true)} - multiset{o.(told := true)} == s - multiset{o}
  {
  }

  /** Handling one orphan takes it out of flight. */
  lemma OrphanDoneLeads(a: System, t: Core, o: Orphan, node: string, log: seq<Call>)
    returns (steps: seq<Step>, left: set<PodKey>)
    requires Conserved(a.core.view) && OrphanDone(a.core, t, o, node, log) && o in a.orphans && !o.told
    ensures Leads(a, steps, a.(core := t, orphans := a.orphans - multiset{o}, excused := left))
    ensures BringNothing(steps)
    ensures left <= if MovedUnnoticed(a.core, t, o.key) then t.pending.Keys else a.excused + Refusals(log)
  {
    var answered := OrphanAnswered(o, log[0].answer);
    var b := Next(a, answered);
    LeadsOne(a, answered);
    assert log[0] in log;
    if log[0].answer == Accepted {
      var r :| TryDone(a.core, t, o.key, o.waiting, false, Some(r), log[1..]);
      ToldAndPlaced(a.orphans, o);
      var rest;
      rest, left := PlacedLeads(b, t, o.(told := true), r, log[1..]);
      LeadsOn(a, [answered], b, rest, a.(core := t, orphans := a.orphans - multiset{o}, excused := left));
      steps := [answered] + rest;
    } else {
      steps, left := [answered], b.excused;
      if o.key in a.core.view.placements {
        UnmovedMissesNothing(a.core.view, o.key);
      }
    }
  }

  function KeysOf(entries: seq<Entry>): set<PodKey> {
    set e | e in entries :: e.0
  }

  predicate DistinctEntries(entries: seq<Entry>) {
    forall i, j :: 0 <= i < j < |entries| ==> entries[i].0 != entries[j].0
  }

  /** From `start` to `t` the first `i` of the orphans were handled: each is known
      or unknown to the API; the others wait for their turn; no other pod and no
      node was touched. */
  ghost predicate Handled(start: Core, t: Core, orphaned: seq<Entry>, i: nat, gone: set<PodKey>)
    requires i <= |orphaned|
  {
    && (forall j :: 0 <= j < i ==> orphaned[j].0 in gone || Known(t, orphaned[j].0))
    && (forall j :: 0 <= j < i && orphaned[j].0 !in gone ==>
          AsksFor(t, orphaned[j].0, orphaned[j].1.limits, orphaned[j].1.ports))
    && (forall j :: i <= j < |orphaned| ==> orphaned[j].0 !in t.view.placements)
    && (forall k :: k !in KeysOf(orphaned) ==> Untouched(start, t, k))
    && t.view.nodes == start.view.nodes
  }

  lemma HandledOneMore(
    start: Core, before: Core, after: Core, orphaned: seq<Entry>, i: nat, gone: set<PodKey>, more: set<PodKey>)
    requires i < |orphaned| && DistinctEntries(orphaned) && Handled(start, before, orphaned, i, gone)
    requires orphaned[i].0 in more || Known(after, orphaned[i].0)
    requires orphaned[i].0 in more || AsksFor(after, orphaned[i].0, orphaned[i].1.limits, orphaned[i].1.ports)
    requires forall k :: k != orphaned[i].0 ==> Untouched(before, after, k)
    requires after.view.nodes == before.view.nodes
    ensures Handled(start, after, orphaned, i + 1, gone + more)
  {
    assert orphaned[i] in orphaned && orphaned[i].0 in KeysOf(orphaned);
    forall j | 0 <= j < |orphaned| && j != i ensures Untouched(before, after, orphaned[j].0) {
      assert DistinctEntries(orphaned);
    }
    forall k | k !in KeysOf(orphaned) ensures Untouched(start, after, k) {
      assert Untouched(start, before, k) && Untouched(before, after, k);
    }
  }

  /** The next of the listed orphans is handled. */
  lemma EachLeads(
    a: System, orphaned: seq<Entry>, i: nat, steps: seq<Step>, b: System, t: Core, name: string, calls: seq<Call>)
    returns (longer: seq<Step>, c: System)
    requires i < |orphaned| && Leads(a, steps, b) && b.orphans == InFlight(orphaned[i..])
    requires Conserved(b.core.view) && orphaned[i].0 !in b.core.view.placements
    requires OrphanDone(b.core, t, OrphanOfEntry(orphaned[i]), name, calls)
    ensures Leads(a, longer, c) && (BringNothing(steps) ==> BringNothing(longer))
    ensures c == b.(core := t, orphans := InFlight(orphaned[i + 1..]), excused := c.excused)
    ensures c.excused <= b.excused + Refusals(calls)
  {
    assert orphaned[i..][1..] == orphaned[i + 1..];
    var o := OrphanOfEntry(orphaned[i]);
    assert multiset{o} + InFlight(orphaned[i + 1..]) - multiset{o} == InFlight(orphaned[i + 1..]);
    var more, left := OrphanDoneLeads(b, t, o, name, calls);
    c := b.(core := t, orphans := InFlight(orphaned[i + 1..]), excused := left);
    LeadsOn(a, steps, b, more, c);
    longer := steps + more;
  }

  lemma TaskTaken(m: map<PodKey, Waiting>, k: PodKey)
    requires k in m
    ensures Task(k, m[k]) in TasksOf(m) && TasksOf(m) - multiset{Task(k, m[k])} == TasksOf(m - {k})
  {
    var whole := set j | j in m :: Task(j, m[j]);
    var rest := set j | j in m - {k} :: Task(j, (m - {k})[j]);
    assert Task(k, m[k]) in whole;
    forall x | x in whole && x != Task(k, m[k]) ensures x in rest {
      assert x.key in m - {k};
    }
    assert whole - {Task(k, m[k])} == rest;
  }

  /** A sweep between two of its tasks. */
  function Sweeping(c: Core, todo: map<PodKey, Waiting>, excused: set<PodKey>): System {
    Quiet(c, excused).(tasks := TasksOf(todo))
  }

  /** From `s` to `t` a sweep tried `k`, which waited although it was placed, and
      moved it off a node that then offered what no Ready node did. */
  ghost predicate MovedInSweep(s: Core, t: Core, k: PodKey) {
    && k in s.pending && k in s.view.placements && k in t.view.placements
    && exists v: View ::
         && Conserved(v) && v.nodes == t.view.nodes
         && k in v.placements && v.placements[k] == s.view.placements[k]
         && MissesWakeUp(v, k, t.view.placements[k])
  }

  ghost predicate SweepExcuses(s: Core, t: Core) {
    exists k :: MovedInSweep(s, t, k)
  }

  lemma SameSweep(s: Core, u: Core, t: Core)
    requires forall k :: k in u.pending ==> k in s.pending
    requires forall k :: k in u.pending && k in u.view.placements ==>
               k in s.view.placements && s.view.placements[k] == u.view.placements[k]
    ensures SweepExcuses(u, t) ==> SweepExcuses(s, t)
  {
    if k :| MovedInSweep(u, t, k) {
      assert MovedInSweep(s, t, k);
    }
  }

  /** Who a sweep from `s` with still `todo` to try has excused. */
  ghost predicate SweptExcuses(s: Core, t: Core, todo: map<PodKey, Waiting>, left: set<PodKey>) {
    && left <= t.pending.Keys
    && (left == {} || exists k :: k !in todo && MovedInSweep(s, t, k))
    && (forall k :: k in todo ==> k in s.pending && Untouched(s, t, k))
    && t.view.nodes == s.view.nodes
  }

  lemma ExcusesOneMore(
    s: Core, b: Core, t: Core, todo: map<PodKey, Waiting>, key: PodKey, before: set<PodKey>, left: set<PodKey>)
    requires key in todo && SweptExcuses(s, b, todo, before) && Conserved(b.view)
    requires (forall k :: k != key ==> Untouched(b, t, k)) && t.view.nodes == b.view.nodes
    requires left <= t.pending.Keys && (left <= before || MovedUnnoticed(b, t, key))
    ensures SweptExcuses(s, t, todo - {key}, left)
  {
    assert Untouched(s, b, key);
    forall k | k in todo - {key} ensures Untouched(s, t, k) {
      assert Untouched(s, b, k) && Untouched(b, t, k);
    }
    if left != {} {
      if left <= before {
        var k :| k !in todo && MovedInSweep(s, b, k);
        assert Untouched(b, t, k);
        var v: View :| Conserved(v) && v.nodes == b.view.nodes && k in v.placements
                       && v.placements[k] == s.view.placements[k] && MissesWakeUp(v, k, b.view.placements[k]);
        assert MissesWakeUp(v, k, t.view.placements[k]);
        assert MovedInSweep(s, t, k);
      } else {
        assert MissesWakeUp(b.view, key, t.view.placements[key]);
        assert MovedInSweep(s, t, key);
      }
    }
  }

  // ----- Where placements come from ---------------------------------------------------

  /** The last call of `log` that assigned `k` to a node. */
  function LastToNode(log: seq<Call>, k: PodKey): (r: Option<Call>)
    ensures r.Some? ==> r.value in log && r.value.key == k && r.value.request.ToNode?
  {
    if log == [] then None
    else if log[|log| - 1].key == k && log[|log| - 1].request.ToNode? then Some(log[|log| - 1])
    else LastToNode(log[..|log| - 1], k)
  }

  /** Every pod placed in `t` is where the last call that assigned it said, or where
      it was in `s` if no call did. */
  ghost predicate Grounded(s: Core, t: Core, log: seq<Call>) {
    forall k :: k in t.view.placements ==>
      match LastToNode(log, k)
      case None => k in s.view.placements && s.view.placements[k] == t.view.placements[k]
      case Some(call) => call.request == ToNode(t.view.placements[k].node)
  }

  lemma {:induction false} LastToNodeOn(log: seq<Call>, more: seq<Call>, k: PodKey)
    ensures LastToNode(log + more, k)
            == if LastToNode(more, k).Some? then LastToNode(more, k) else LastToNode(log, k)
  {
    if more == [] {
      assert log + more == log;
    } else {
      assert (log + more)[..|log + more| - 1] == log + more[..|more| - 1];
      LastToNodeOn(log, more[..|more| - 1], k);
    }
  }

  lemma GroundedOn(s: Core, m: Core, t: Core, log: seq<Call>, more: seq<Call>)
    requires Grounded(s, m, log) && Grounded(m, t, more)
    ensures Grounded(s, t, log + more)
  {
    forall k | k in t.view.placements
      ensures match LastToNode(log + more, k)
              case None => k in s.view.placements && s.view.placements[k] == t.view.placements[k]
              case Some(call) => call.request == ToNode(t.view.placements[k].node)
    {
      LastToNodeOn(log, more, k);
    }
  }

  lemma GroundedFromFewer(s: Core, m: Core, t: Core, log: seq<Call>)
    requires Grounded(m, t, log)
    requires forall k :: k in m.view.placements ==>
               k in s.view.placements && s.view.placements[k] == m.view.placements[k]
    ensures Grounded(s, t, log)
  {
  }

  lemma LastToNodeOne(call: Call, k: PodKey)
    ensures LastToNode([call], k) == if call.key == k && call.request.ToNode? then Some(call) else None
  {
    assert [call][..0] == [];
  }

  lemma TryGrounded(
    s: Core, t: Core, key: PodKey, w: Waiting, onlyIfPending: bool, outcome: Option<Result<string, PlaceError>>,
    log: seq<Call>)
    requires TryDone(s, t, key, w, onlyIfPending, outcome, log)
    ensures Grounded(s, t, log)
  {
    if log != [] {
      assert log == [log[0]];
      forall k ensures LastToNode(log, k) == if log[0].key == k && log[0].request.ToNode? then Some(log[0]) else None {
        LastToNodeOne(log[0], k);
      }
    }
  }

  lemma OrphanGrounded(s: Core, t: Core, o: Orphan, node: string, log: seq<Call>)
    requires OrphanDone(s, t, o, node, log)
    ensures Grounded(s, t, log)
  {
    forall k ensures LastToNode([log[0]], k) == None {
      LastToNodeOne(log[0], k);
    }
    assert log == [log[0]] + log[1..];
    if log[0].answer == Accepted {
      var r :| TryDone(s, t, o.key, o.waiting, false, Some(r), log[1..]);
      TryGrounded(s, t, o.key, o.waiting, false, Some(r), log[1..]);
      GroundedOn(s, s, t, [log[0]], log[1..]);
    }
  }

  /** Whatever the API answers, the books keep the placement an attempt chose and the
      pod waits no longer: a refused assignment is in no sweep's way. */
  lemma AnswerIgnored(
    s: Core, t: Core, key: PodKey, w: Waiting, onlyIfPending: bool, n: string, log: seq<Call>)
    requires TryDone(s, t, key, w, onlyIfPending, Some(Ok(n)), log)
    ensures log[0].request == ToNode(n)
    ensures key in t.view.placements && t.view.placements[key].node == n && key !in t.pending
  {
  }

  // ----- One sweep ------------------------------------------------------------------------

  /** A sweep from `s` that has still to try `todo`. */
  ghost predicate Swept(
    s: Core, excused: set<PodKey>, steps: seq<Step>, t: Core, todo: map<PodKey, Waiting>, left: set<PodKey>,
    log: seq<Call>)
  {
    && Leads(Quiet(s, excused).(due := 1), steps, Sweeping(t, todo, left)) && BringNothing(steps)
    && SweptExcuses(s, t, todo, left)
    && (Apart(s) ==> Apart(t))
    && Keeps(s, t, Gone(log)) && Refusals(log) == {}
    && Grounded(s, t, log)
  }

  lemma SweepBegins(s: Core, excused: set<PodKey>)
    ensures Swept(s, excused, [SweepStarted], s, s.pending, {}, [])
  {
    LeadsOne(Quiet(s, excused).(due := 1), SweepStarted);
  }

  lemma SweptOneMore(
    s: Core, excused: set<PodKey>, steps: seq<Step>, b: Core, todo: map<PodKey, Waiting>, before: set<PodKey>,
    log: seq<Call>, key: PodKey, t: Core, outcome: Option<Result<string, PlaceError>>, calls: seq<Call>)
    returns (longer: seq<Step>, left: set<PodKey>)
    requires key in todo && Swept(s, excused, steps, b, todo, before, log) && Conserved(b.view)
    requires TryDone(b, t, key, todo[key], true, outcome, calls)
    ensures Swept(s, excused, longer, t, todo - {key}, left, log + calls)
  {
    var more;
    more, left := OneAttempt(b, t, todo, key, before, outcome, calls);
    TryDoneOthers(b, t, key, todo[key], true, outcome, calls);
    ExcusesOneMore(s, b, t, todo, key, before, left);
    TryDoneKeeps(b, t, key, todo[key], outcome, calls);
    KeepsAlong(s, b, t, Gone(log), Gone(calls));
    GoneAppend(log, calls);
    TryGrounded(b, t, key, todo[key], true, outcome, calls);
    GroundedOn(s, b, t, log, calls);
    LeadsOn(Quiet(s, excused).(due := 1), steps, Sweeping(b, todo, before), more, Sweeping(t, todo - {key}, left));
    longer := steps + more;
  }

  lemma OneAttempt(
    b: Core, t: Core, todo: map<PodKey, Waiting>, key: PodKey, before: set<PodKey>,
    outcome: Option<Result<string, PlaceError>>, calls: seq<Call>)
    returns (steps: seq<Step>, left: set<PodKey>)
    requires key in todo && Conserved(b.view) && TryDone(b, t, key, todo[key], true, outcome, calls)
    requires before <= b.pending.Keys
    ensures Leads(Sweeping(b, todo, before), steps, Sweeping(t, todo - {key}, left)) && BringNothing(steps)
    ensures left <= t.pending.Keys && (left <= before || MovedUnnoticed(b, t, key))
  {
    TaskTaken(todo, key);
    steps, left := RetriedLeads(Sweeping(b, todo, before), t, Task(key, todo[key]), outcome, calls);
  }

  lemma SweepEnds(s: Core, excused: set<PodKey>, steps: seq<Step>, t: Core, left: set<PodKey>)
    requires Conserved(s.view) && BringNothing(steps)
    requires Leads(Quiet(s, excused).(due := 1), steps, Sweeping(t, map[], left))
    ensures Leads(Quiet(s, excused).(due := 1), steps, Quiet(t, left))
    ensures NonNegative(s) ==> Settled(t, left)
  {
    assert TasksOf(map[]) == multiset{};
    if NonNegative(s) {
      NoMissedWakeUp(Quiet(s, excused).(due := 1), steps, Quiet(t, left));
    }
  }

  lemma RunsOn(
    s: Core, excused: set<PodKey>, step: Step, m: System, steps: seq<Step>, t: Core, left: set<PodKey>)
    requires Enabled(Quiet(s, excused), step) && m == Next(Quiet(s, excused), step)
    requires Leads(m, steps, Quiet(t, left))
    ensures RunsTo(s, excused, [step] + steps, t, left)
  {
    LeadsOne(Quiet(s, excused), step);
    LeadsOn(Quiet(s, excused), [step], m, steps, Quiet(t, left));
  }

  lemma ReportedThen(
    s: Core, excused: set<PodKey>, node: Node, u: Core, steps: seq<Step>, t: Core, left: set<PodKey>)
    requires u == s.(view := Upsert(s.view, node))
    requires if node.status == NotReady
             then Leads(Quiet(u, excused).(evicting := Some(node.name)), steps, Quiet(t, left))
             else if CouldUnblock(s.view, node) then Leads(Quiet(u, excused).(due := 1), steps, Quiet(t, left))
             else steps == [] && t == u && left == excused
    ensures RunsTo(s, excused, [NodeReported(node)] + steps, t, left)
  {
    RunsOn(s, excused, NodeReported(node), Next(Quiet(s, excused), NodeReported(node)), steps, t, left);
  }

  lemma RemovedRuns(s: Core, excused: set<PodKey>, name: string)
    ensures RunsTo(s, excused, [NodeRemoved(name)], s.(view := Basic.RemoveNode(s.view, name)), excused)
  {
    LeadsOne(Quiet(s, excused), NodeRemoved(name));
  }

  lemma DeletedThen(
    s: Core, excused: set<PodKey>, key: PodKey, u: Core, steps: seq<Step>, t: Core, left: set<PodKey>)
    requires u == Core(Release(s.view, key), s.pending - {key})
    requires if key in s.view.placements then Leads(Quiet(u, excused).(due := 1), steps, Quiet(t, left))
             else steps == [] && t == u && left == excused
    ensures RunsTo(s, excused, [PodDeleted(key)] + steps, t, left)
  {
    RunsOn(s, excused, PodDeleted(key), Next(Quiet(s, excused), PodDeleted(key)), steps, t, left);
  }

  lemma RecordedRuns(s: Core, excused: set<PodKey>, key: PodKey, p: Placement)
    returns (left: set<PodKey>)
    requires Conserved(s.view)
    ensures RunsTo(s, excused, [PodRecorded(key, p)], Recorded(s.view, s.pending, key, p), left)
    ensures left <= if MovedUnnoticed(s, Recorded(s.view, s.pending, key, p), key)
                    then s.pending.Keys - {key} else excused
  {
    LeadsOne(Quiet(s, excused), PodRecorded(key, p));
    left := ExcusedBy(s.view, key, p, s.pending.Keys - {key}, excused);
  }

  // ----- Events and what they leave ------------------------------------------------

  datatype WatchEvent = OfNode(eventType: EventType, node: Node) | OfPod(event: PodEvent)

  /** The event makes its handler sweep. */
  predicate Sweeps(v: View, e: WatchEvent) {
    match e
    case OfNode(eventType, node) => eventType != Deleted && node.status != NotReady && CouldUnblock(v, node)
    case OfPod(event) =>
      PodOf(event.pod).Some? && event.eventType == Deleted && KeyOfDetail(event.pod) in v.placements
  }

  predicate LimitsNonNegative(e: WatchEvent) {
    e.OfPod? ==> LimitsOrDefault(LimitsOf(e.event.pod)).NonNegative()
  }

  /** One event handled. */
  datatype Turn = Turn(before: Core, event: WatchEvent, log: seq<Call>, after: Core)

  /** Who may be excused after a turn, when `excused` were before: if it swept,
      nobody, unless the sweep moved a placed pod and freed room; everybody if the
      event did; otherwise those before and the orphans refused. */
  ghost function LeftBy(turn: Turn, excused: set<PodKey>): set<PodKey> {
    if Sweeps(turn.before.view, turn.event)
    then if SweepExcuses(turn.before, turn.after) then turn.after.pending.Keys else {}
    else if turn.event.OfPod? && MovedUnnoticed(turn.before, turn.after, KeyOfDetail(turn.event.event.pod))
    then turn.after.pending.Keys
    else excused + Refusals(turn.log)
  }

  lemma SweepOfApart(s: Core, t: Core)
    requires Apart(s)
    ensures !SweepExcuses(s, t)
  {
  }

  ghost function Excusable(turns: seq<Turn>): set<PodKey> {
    if turns == [] then {} else LeftBy(turns[|turns| - 1], Excusable(turns[..|turns| - 1]))
  }

  /** Each turn starts where the one before it ended. */
  ghost predicate Chained(s: Core, turns: seq<Turn>, t: Core) {
    if turns == [] then s == t
    else turns[|turns| - 1].after == t && Chained(s, turns[..|turns| - 1], turns[|turns| - 1].before)
  }

  // ----- The origin of every placement --------------------------------------------------

  datatype Origin = ByEvent(node: string) | ByCall(call: Call)

  /** The event makes its handler record `k` on the node it names. */
  predicate NamesNode(turn: Turn, k: PodKey) {
    turn.event.OfPod? &&
    var event := turn.event.event;
    && PodOf(event.pod).Some? && KeyOfDetail(event.pod) == k
    && event.eventType != Deleted && event.pod.nodeName != ""
    && !turn.before.view.IsConfirmedNotReady(event.pod.nodeName)
  }

  function OriginIn(turn: Turn, k: PodKey): Option<Origin> {
    if LastToNode(turn.log, k).Some? then Some(ByCall(LastToNode(turn.log, k).value))
    else if NamesNode(turn, k) then Some(ByEvent(turn.event.event.pod.nodeName))
    else None
  }

  /** What put `k` where it is: the last event that recorded it or the last call that
      assigned it, whichever came later. */
  function OriginOf(turns: seq<Turn>, k: PodKey): Option<Origin> {
    if turns == [] then None
    else if OriginIn(turns[|turns| - 1], k).Some? then OriginIn(turns[|turns| - 1], k)
    else OriginOf(turns[..|turns| - 1], k)
  }

  ghost predicate From(origin: Option<Origin>, k: PodKey, s: Core, t: Core)
    requires k in t.view.placements
  {
    match origin
    case None => k in s.view.placements && s.view.placements[k] == t.view.placements[k]
    case Some(ByEvent(node)) => node == t.view.placements[k].node
    case Some(ByCall(call)) => call.key == k && call.request == ToNode(t.view.placements[k].node)
  }

  ghost predicate TurnGrounded(turn: Turn) {
    forall k :: k in turn.after.view.placements ==> From(OriginIn(turn, k), k, turn.before, turn.after)
  }

  /** If `e` is about `k`, it asks for these limits and ports. */
  predicate AsksInEvent(e: WatchEvent, k: PodKey, limits: Resources, ports: seq<Port>) {
    e.OfPod? && e.event.eventType != Deleted && KeyOfDetail(e.event.pod) == k && PodOf(e.event.pod).Some? ==>
      && LimitsOrDefault(LimitsOf(e.event.pod)) == limits && PortsOf(e.event.pod) == ports
      && (e.event.pod.nodeName == "" ==> LimitsOf(e.event.pod).Some?)
  }

  /** Every pod goes on asking for what it asked for, unless the event says otherwise. */
  ghost predicate TurnAsks(turn: Turn) {
    forall k, limits, ports :: AsksFor(turn.before, k, limits, ports) && AsksInEvent(turn.event, k, limits, ports) ==>
                                 AsksFor(turn.after, k, limits, ports)
  }

  lemma AskedTurn(turn: Turn, w: Waiting)
    requires turn.event.OfPod? && turn.event.event.eventType != Deleted && PodOf(turn.event.event.pod).Some?
    requires var d := turn.event.event.pod;
             KeepsAsksBut(turn.before, turn.after, KeyOfDetail(d), w) && w.ports == PortsOf(d)
             && if d.nodeName == "" then w.pod.limits == LimitsOf(d)
                else w.pod.limits == Some(LimitsOrDefault(LimitsOf(d)))
    ensures TurnAsks(turn)
  {
    forall k, limits, ports | AsksFor(turn.before, k, limits, ports) && AsksInEvent(turn.event, k, limits, ports)
      ensures AsksFor(turn.after, k, limits, ports)
    {
      assert k == KeyOfDetail(turn.event.event.pod) ==> Asks(w, limits, ports);
    }
  }

  /** Over any sequence of turns a pod goes on asking for what it asked for as long as
      no event about it asks for anything else. */
  lemma {:induction false} AsksThroughout(
    s: Core, turns: seq<Turn>, t: Core, k: PodKey, limits: Resources, ports: seq<Port>)
    requires Chained(s, turns, t) && (forall turn :: turn in turns ==> TurnAsks(turn))
    requires AsksFor(s, k, limits, ports)
    requires forall turn :: turn in turns ==> AsksInEvent(turn.event, k, limits, ports)
    ensures AsksFor(t, k, limits, ports)
  {
    if turns != [] {
      var last, before := turns[|turns| - 1], turns[..|turns| - 1];
      AsksThroughout(s, before, last.before, k, limits, ports);
      assert TurnAsks(last);
    }
  }

  lemma GroundedTurn(turn: Turn)
    requires Grounded(turn.before, turn.after, turn.log)
    requires forall k :: !NamesNode(turn, k)
    ensures TurnGrounded(turn)
  {
  }

  lemma NamedTurn(turn: Turn)
    requires turn.event.OfPod? && turn.event.event.eventType != Deleted
    requires var d := turn.event.event.pod;
             if turn.before.view.IsConfirmedNotReady(d.nodeName) then Grounded(turn.before, turn.after, turn.log)
             else PodOf(d).Some? && d.nodeName != "" && turn.log == []
                  && turn.after == Recorded(turn.before.view, turn.before.pending, KeyOfDetail(d), PlacementFrom(d))
    ensures TurnGrounded(turn)
  {
  }

  /** The books hold no placement of their own making: each is the one its origin
      names, or was there from the start. */
  lemma {:induction false} PlacementsHaveOrigins(s: Core, turns: seq<Turn>, t: Core, k: PodKey)
    requires Chained(s, turns, t) && (forall turn :: turn in turns ==> TurnGrounded(turn))
    requires k in t.view.placements
    ensures From(OriginOf(turns, k), k, s, t)
  {
    if turns != [] {
      var last, before := turns[|turns| - 1], turns[..|turns| - 1];
      assert TurnGrounded(last);
      if OriginIn(last, k).None? {
        PlacementsHaveOrigins(s, before, last.before, k);
      }
    }
  }

  lemma LeftByMore(turn: Turn, excused: set<PodKey>, more: set<PodKey>)
    requires excused <= more
    ensures LeftBy(turn, excused) <= LeftBy(turn, more)
  {
  }

  /** What holds from just after a report holds from just before it. */
  lemma ReportKept(s: Core, node: Node, t: Core, gone: set<PodKey>, log: seq<Call>)
    requires var u := s.(view := Upsert(s.view, node));
             Grounded(u, t, log) && (OtherNodesKept(u, t, node.name, gone) || Keeps(u, t, gone) || u == t)
    ensures Grounded(s, t, log) && OtherNodesKept(s, t, node.name, gone)
    ensures SweepExcuses(s.(view := Upsert(s.view, node)), t) ==> SweepExcuses(s, t)
  {
    var u := s.(view := Upsert(s.view, node));
    GroundedFromFewer(s, u, t, log);
    SameSweep(s, u, t);
  }

  lemma RecordedKept(s: Core, key: PodKey, p: Placement, gone: set<PodKey>)
    requires NoneStranded(s.view) && !s.view.IsConfirmedNotReady(p.node)
    ensures var t := Recorded(s.view, s.pending, key, p);
            NoneStranded(t.view) && OthersKept(s, t, key, gone) && Known(t, key)
  {
    UntouchedKept(s, Recorded(s.view, s.pending, key, p), key, gone);
  }

  /** What holds from just after a deletion holds from just before it. */
  lemma DeletedKept(s: Core, key: PodKey, t: Core, gone: set<PodKey>, log: seq<Call>)
    requires var u := Core(Release(s.view, key), s.pending - {key});
             Keeps(u, t, gone) && Grounded(u, t, log)
    ensures OthersKept(s, t, key, gone) && !Known(t, key) && Grounded(s, t, log)
    ensures SweepExcuses(Core(Release(s.view, key), s.pending - {key}), t) ==> SweepExcuses(s, t)
  {
    var u := Core(Release(s.view, key), s.pending - {key});
    assert forall k :: k != key ==> Untouched(s, u, k);
    assert !Known(u, key);
    GroundedFromFewer(s, u, t, log);
    SameSweep(s, u, t);
  }

  /** What a run that no event interrupts does for the pods. */
  lemma QuietRunKeeps(s: Core, excused: set<PodKey>, steps: seq<Step>, t: Core, left: set<PodKey>)
    requires RunsTo(s, excused, steps, t, left) && BringNothing(steps) && Conserved(s.view)
    ensures NonNegative(s) && Settled(s, excused) ==> NonNegative(t) && Settled(t, left)
    ensures KeepsAsks(s, t)
  {
    QuietRunSettles(s, excused, steps, t, left);
    RunKeepsAsks(Quiet(s, excused), steps, Quiet(t, left));
  }

  lemma FoundLeads(
    s: Core, t: Core, node: string, key: PodKey, limits: Resources, ports: seq<Port>, excused: set<PodKey>,
    log: seq<Call>)
    returns (steps: seq<Step>, left: set<PodKey>)
    requires Conserved(s.view) && OrphanDone(s, t, OrphanOf(key, limits, ports), node, log)
    ensures RunsTo(s, excused, steps, t, left)
    ensures limits.NonNegative() ==> BringOnlyNonNegative(steps)
    ensures OpensWith(steps, key, OrphanOf(key, limits, ports).waiting)
    ensures left <= if MovedUnnoticed(s, t, key) then t.pending.Keys else excused + Refusals(log)
  {
    var o, found := OrphanOf(key, limits, ports), OrphanFound(key, limits, ports);
    var m := Next(Quiet(s, excused), found);
    assert m.orphans - multiset{o} == multiset{};
    var rest;
    rest, left := OrphanDoneLeads(m, t, o, node, log);
    RunsOn(s, excused, found, m, rest, t, left);
    steps := [found] + rest;
    assert steps[1..] == rest;
  }

  lemma NothingDone(s: Core, key: PodKey, excused: set<PodKey>)
    ensures RunsTo(s, excused, [], s, excused) && OthersKept(s, s, key, {})
    ensures Conserved(s.view) ==> !MovedUnnoticed(s, s, key)
  {
    if Conserved(s.view) && key in s.view.placements {
      UnmovedMissesNothing(s.view, key);
    }
  }

  /** `turns` handle the first of `events` one after the other and are, together, a
      run of the state machine; who is excused after it is told by the turns. */
  ghost predicate Tells(
    s: Core, events: seq<WatchEvent>, turns: seq<Turn>, steps: seq<Step>, t: Core, left: set<PodKey>)
  {
    && |turns| <= |events| && (forall i :: 0 <= i < |turns| ==> turns[i].event == events[i])
    && Chained(s, turns, t)
    && RunsTo(s, {}, steps, t, left)
    && ((forall e :: e in events ==> LimitsNonNegative(e)) ==> BringOnlyNonNegative(steps))
    && left <= Excusable(turns)
    && (forall turn :: turn in turns ==> TurnGrounded(turn) && TurnAsks(turn))
  }

  lemma TellsMore(
    s: Core, events: seq<WatchEvent>, turns: seq<Turn>, steps: seq<Step>, left: set<PodKey>, turn: Turn,
    more: seq<Step>, after: set<PodKey>)
    returns (longer: seq<Step>)
    requires |turns| < |events| && turn.event == events[|turns|] && Tells(s, events, turns, steps, turn.before, left)
    requires RunsTo(turn.before, left, more, turn.after, after)
    requires LimitsNonNegative(turn.event) ==> BringOnlyNonNegative(more)
    requires after <= LeftBy(turn, left) && TurnGrounded(turn) && TurnAsks(turn)
    ensures Tells(s, events, turns + [turn], longer, turn.after, after)
  {
    assert (turns + [turn])[..|turns|] == turns;
    LeadsOn(Quiet(s, {}), steps, Quiet(turn.before, left), more, Quiet(turn.after, after));
    longer := steps + more;
    LeftByMore(turn, left, Excusable(turns));
  }

  class SchedulerState {
    const scheduler: BasicScheduler
    var pending: map<PodKey, Waiting>

    function State(): Core
      reads this, scheduler
    {
      Core(scheduler.State(), pending)
    }

    ghost predicate Valid()
      reads this, scheduler
    {
      scheduler.Valid() && NoneStranded(State().view)
    }

    constructor ()
      ensures Valid() && fresh(scheduler) && State() == Core(EMPTY, map[])
    {
      scheduler := new BasicScheduler();
      pending := map[];
    }

    /** The section of `try_schedule` under the lock, for a pod still to be placed. */
    method PlaceLocked(key: PodKey, pod: Pod, ports: seq<Port>) returns (r: Result<string, PlaceError>)
      requires scheduler.Valid()
      modifies this, scheduler
      ensures scheduler.Valid() && PlaceAllowed(old(scheduler.State()), pod, ports, r)
      ensures State() == AfterTry(old(State()), key, Waiting(pod, ports), false, r)
      ensures r.Ok? ==>
                && pod.limits.Some? && Fits(old(scheduler.State()), pod.limits.value, ports, r.value)
                && pending == old(pending) - {key} && scheduler.nodes == old(scheduler.nodes)
                && scheduler.placements == old(scheduler.placements)[key := Placement(r.value, pod.limits.value, ports)]
                && (scheduler.placements != old(scheduler.placements) ==>
                      forall port :: port in ports ==>
                                       PortKey(port.protocol, port.external) in scheduler.State().PortsOn(r.value))
      ensures r.Err? ==>
                scheduler.State() == old(scheduler.State()) && pending == old(pending)[key := Waiting(pod, ports)]
    {
      r := scheduler.Place(pod, ports);
      match r {
        case Ok(node) =>
          scheduler.RecordPlacement(key, node, LimitsOrDefault(pod.limits), ports);
          pending := pending - {key};
        case Err(_) =>
          pending := pending[key := Waiting(pod, ports)];
      }
    }

    /** `try_schedule`. No outcome: the re-check found the pod already resolved. */
    method TrySchedule(key: PodKey, pod: Pod, ports: seq<Port>, onlyIfPending: bool)
      returns (outcome: Option<Result<string, PlaceError>>, log: seq<Call>)
      requires Valid()
      modifies this, scheduler
      ensures Valid()
      ensures TryDone(old(State()), State(), key, Waiting(pod, ports), onlyIfPending, outcome, log)
      ensures outcome.None? <==> onlyIfPending && key !in old(pending)
      ensures outcome.None? ==> log == [] && State() == old(State())
      ensures outcome.Some? ==> |log| == 1 && log[0].key == key && scheduler.nodes == old(scheduler.nodes)
      ensures outcome.Some? && outcome.value.Ok? ==>
                var n := outcome.value.value;
                && pod.limits.Some? && Fits(old(scheduler.State()), pod.limits.value, ports, n)
                && log[0].request == ToNode(n)
                && pending == old(pending) - {key}
                && scheduler.placements == old(scheduler.placements)[key := Placement(n, pod.limits.value, ports)]
                && (scheduler.placements != old(scheduler.placements) ==>
                      forall port :: port in ports ==>
                                       PortKey(port.protocol, port.external) in scheduler.State().PortsOn(n))
      ensures outcome.Some? && outcome.value.Err? ==>
                && PlaceAllowed(old(scheduler.State()), pod, ports, outcome.value)
                && log[0].request == NoNode(outcome.value.error)
                && pending == (if log[0].answer == NotFound then old(pending) - {key}
                               else old(pending)[key := Waiting(pod, ports)])
                && scheduler.State() == old(scheduler.State())
    {
      ghost var before := State();
      if onlyIfPending && key !in pending {
        return None, [];
      }
      var r := PlaceLocked(key, pod, ports);
      outcome := Some(r);
      var answer: Answer := *;
      log := [Call(key, match r case Ok(node) => ToNode(node) case Err(reason) => NoNode(reason), answer)];
      if answer == NotFound {
        pending := pending - {key};
      }
      TryStrandsNobody(before, State(), key, Waiting(pod, ports), onlyIfPending, outcome, log);
    }

    /** `retry_pending`: one sweep, in any order. Whoever was excused, afterwards every
        waiting pod is unplaceable, unless the sweep itself moved a placed pod and
        freed room by that. */
    method RetryPending(ghost excused: set<PodKey>)
      returns (log: seq<Call>, ghost steps: seq<Step>, ghost left: set<PodKey>)
      requires Valid()
      modifies this, scheduler
      ensures Valid()
      ensures Leads(Quiet(old(State()), excused).(due := 1), steps, Quiet(State(), left))
      ensures BringNothing(steps)
      ensures left <= State().pending.Keys && (left == {} || SweepExcuses(old(State()), State()))
      ensures Apart(old(State())) ==> left == {} && Apart(State())
      ensures Grounded(old(State()), State(), log)
      ensures KeepsAsks(old(State()), State())
      ensures NonNegative(old(State())) ==> Settled(State(), left)
      ensures Keeps(old(State()), State(), Gone(log)) && Refusals(log) == {}
    {
      ghost var start := State();
      var todo := pending;
      SweepBegins(start, excused);
      log, steps, left := [], [SweepStarted], {};
      while todo != map[]
        invariant Valid()
        invariant Swept(start, excused, steps, State(), todo, left, log)
        decreases |todo|
      {
        ghost var before := State();
        var key :| key in todo;
        var outcome, calls := TrySchedule(key, todo[key].pod, todo[key].ports, true);
        steps, left := SweptOneMore(
          start, excused, steps, before, todo, left, log, key, State(), outcome, calls);
        todo, log := todo - {key}, log + calls;
      }
      SweepEnds(start, excused, steps, State(), left);
      RunKeepsAsks(Quiet(start, excused).(due := 1), steps, Quiet(State(), left));
      if Apart(start) {
        SweepOfApart(start, State());
      }
    }

    /** `reschedule_one_orphaned_pod`. */
    method RescheduleOne(node: string, key: PodKey, limits: Resources, ports: seq<Port>) returns (log: seq<Call>)
      requires Valid()
      modifies this, scheduler
      ensures Valid()
      ensures OrphanDone(old(State()), State(), OrphanOf(key, limits, ports), node, log)
      ensures log != [] && log[0].key == key && log[0].request == OrphanedFrom(node)
      ensures log[0].answer == NotFound ==> |log| == 1 && State() == old(State())
      ensures log[0].answer == Refused ==>
                && |log| == 1 && scheduler.State() == old(scheduler.State())
                && pending == old(pending)[key := Waiting(Pod(key.name, Pending, Some(limits)), ports)]
      ensures log[0].answer == Accepted ==>
                && |log| == 2 && log[1].key == key
                && match log[1].request
                   case ToNode(n) =>
                     && Fits(old(scheduler.State()), limits, ports, n)
                     && pending == old(pending) - {key}
                     && scheduler.placements == old(scheduler.placements)[key := Placement(n, limits, ports)]
                   case NoNode(reason) =>
                     && PlaceAllowed(
                          old(scheduler.State()), Pod(key.name, Pending, Some(limits)), ports, Err(reason))
                     && pending == (if log[1].answer == NotFound then old(pending) - {key}
                                    else old(pending)[key := Waiting(Pod(key.name, Pending, Some(limits)), ports)])
                     && scheduler.State() == old(scheduler.State())
                   case OrphanedFrom(_) => false
      ensures key in Gone(log) || Known(State(), key)
      ensures key in Gone(log) || key in old(scheduler.placements) || AsksFor(State(), key, limits, ports)
      ensures forall k :: k != key ==> Untouched(old(State()), State(), k)
      ensures State().view.nodes == old(State()).view.nodes
    {
      ghost var before := State();
      var pod := Pod(key.name, Pending, Some(limits));
      var answer: Answer := *;
      log := [Call(key, OrphanedFrom(node), answer)];
      assert log[0] in log;
      match answer {
        case NotFound =>
        case Refused =>
          pending := pending[key := Waiting(pod, ports)];
        case Accepted =>
          var outcome, calls := TrySchedule(key, pod, ports, false);
          TryDoneOthers(before, State(), key, Waiting(pod, ports), false, outcome, calls);
          TryDoneKey(before, State(), key, Waiting(pod, ports), false, outcome, calls);
          GoneAppend(log, calls);
          log := log + calls;
          assert log[1..] == calls;
      }
    }

    /** The loop of `reschedule_orphaned_pods` over the evicted pods. */
    method RescheduleEach(name: string, orphaned: seq<Entry>, ghost a: System)
      returns (log: seq<Call>, ghost steps: seq<Step>, ghost left: set<PodKey>)
      requires Valid() && DistinctEntries(orphaned)
      requires forall i :: 0 <= i < |orphaned| ==> orphaned[i].0 !in scheduler.placements
      requires a == Quiet(State(), a.excused).(orphans := InFlight(orphaned))
      modifies this, scheduler
      ensures Valid()
      ensures Leads(a, steps, Quiet(State(), left)) && BringNothing(steps)
      ensures left <= a.excused + Refusals(log)
      ensures Grounded(old(State()), State(), log)
      ensures Handled(old(State()), State(), orphaned, |orphaned|, Gone(log))
    {
      ghost var start, b := State(), a;
      log, steps := [], [];
      assert orphaned[0..] == orphaned;
      for i := 0 to |orphaned|
        invariant Valid()
        invariant b == Quiet(State(), b.excused).(orphans := InFlight(orphaned[i..]))
        invariant Leads(a, steps, b) && BringNothing(steps)
        invariant b.excused <= a.excused + Refusals(log)
        invariant Grounded(start, State(), log)
        invariant Handled(start, State(), orphaned, i, Gone(log))
      {
        ghost var before := State();
        var key, p := orphaned[i].0, orphaned[i].1;
        var calls := RescheduleOne(name, key, p.limits, p.ports);
        steps, b := EachLeads(a, orphaned, i, steps, b, State(), name, calls);
        GoneAppend(log, calls);
        OrphanGrounded(before, State(), OrphanOfEntry(orphaned[i]), name, calls);
        GroundedOn(start, before, State(), log, calls);
        HandledOneMore(start, before, State(), orphaned, i, Gone(log), Gone(calls));
        log := log + calls;
      }
      left := b.excused;
    }

    /** `reschedule_orphaned_pods`: every pod of the node is handled; it ends up
        placed elsewhere, waiting, or unknown to the API. */
    method RescheduleOrphanedPods(name: string, ghost excused: set<PodKey>)
      returns (log: seq<Call>, ghost steps: seq<Step>, ghost left: set<PodKey>)
      requires scheduler.Valid()
      requires forall k :: k in scheduler.placements && scheduler.placements[k].node != name ==>
                 !State().view.IsConfirmedNotReady(scheduler.placements[k].node)
      modifies this, scheduler
      ensures Valid()
      ensures Leads(Quiet(old(State()), excused).(evicting := Some(name)), steps, Quiet(State(), left))
      ensures BringNothing(steps) && left <= excused + Refusals(log)
      ensures Grounded(old(State()), State(), log)
      ensures KeepsAsks(old(State()), State())
      ensures OtherNodesKept(old(State()), State(), name, Gone(log))
      ensures forall k :: k in old(scheduler.placements) && old(scheduler.placements)[k].node == name ==>
                k in Gone(log)
                || AsksFor(State(), k, old(scheduler.placements)[k].limits, old(scheduler.placements)[k].ports)
      ensures State().view.nodes == old(State()).view.nodes
    {
      ghost var start := State();
      ghost var a := Quiet(start, excused).(evicting := Some(name));
      ghost var b := Next(a, NodeEvicted);
      LeadsOne(a, NodeEvicted);
      EvictBooks(start.view, name);
      var orphaned := scheduler.EvictNode(name);
      ghost var evicted := State();
      EvictedAreListed(orphaned, start.view.placements, name);
      assert multiset{} + multiset(OrphansOf(start.view.placements, name)) == InFlight(orphaned);
      log, steps, left := RescheduleEach(name, orphaned, b);
      GroundedFromFewer(start, evicted, State(), log);
      LeadsOn(a, [NodeEvicted], b, steps, Quiet(State(), left));
      steps := [NodeEvicted] + steps;
      RunKeepsAsks(a, steps, Quiet(State(), left));
      forall k | !(k in start.view.placements && start.view.placements[k].node == name)
        ensures Untouched(start, State(), k)
      {
        assert k !in KeysOf(orphaned);
        assert Untouched(start, evicted, k) && Untouched(evicted, State(), k);
      }
      EvictedKept(start, State(), name, Gone(log));
    }

    /** A node report: a NOT_READY node is emptied, and anything that could unblock
        a waiting pod is followed by a sweep. */
    method HandleNodeReported(node: Node, ghost excused: set<PodKey>)
      returns (log: seq<Call>, ghost steps: seq<Step>, ghost left: set<PodKey>)
      requires Valid()
      modifies this, scheduler
      ensures Valid() && scheduler.nodes == old(scheduler.nodes)[node.name := node]
      ensures RunsTo(old(State()), excused, steps, State(), left) && BringNothing(steps)
      ensures node.status != NotReady && CouldUnblock(old(State()).view, node) ==>
                left <= State().pending.Keys && (left == {} || SweepExcuses(old(State()), State()))
      ensures node.status == NotReady || !CouldUnblock(old(State()).view, node) ==> left <= excused + Refusals(log)
      ensures OtherNodesKept(old(State()), State(), node.name, Gone(log))
      ensures Grounded(old(State()), State(), log)
    {
      ghost var start := State();
      log, steps, left := [], [], excused;
      var isNotReady := node.status == NotReady;
      var shouldRetry := scheduler.UpsertNode(node);
      ghost var reported := State();
      if isNotReady {
        log, steps, left := RescheduleOrphanedPods(node.name, excused);
      } else if shouldRetry {
        log, steps, left := RetryPending(excused);
      }
      ReportedThen(start, excused, node, reported, steps, State(), left);
      ReportKept(start, node, State(), Gone(log), log);
      steps := [NodeReported(node)] + steps;
    }

    /** One event of `watch_nodes`. */
    method HandleNodeEvent(eventType: EventType, node: Node, ghost excused: set<PodKey>)
      returns (log: seq<Call>, ghost steps: seq<Step>, ghost left: set<PodKey>)
      requires Valid()
      modifies this, scheduler
      ensures Valid()
      ensures RunsTo(old(State()), excused, steps, State(), left) && BringNothing(steps)
      ensures NonNegative(old(State())) && Settled(old(State()), excused) ==>
                NonNegative(State()) && Settled(State(), left)
      ensures var turn := Turn(old(State()), OfNode(eventType, node), log, State());
              left <= LeftBy(turn, excused) && TurnGrounded(turn) && TurnAsks(turn)
      ensures KeepsAsks(old(State()), State())
      ensures scheduler.nodes
              == if eventType == Deleted then old(scheduler.nodes) - {node.name}
                 else old(scheduler.nodes)[node.name := node]
      ensures if eventType == Deleted
              then State() == old(State()).(view := Basic.RemoveNode(old(State()).view, node.name))
              else OtherNodesKept(old(State()), State(), node.name, Gone(log))
    {
      ghost var start := State();
      if eventType == Deleted {
        scheduler.RemoveNode(node.name);
        assert Grounded(start, State(), []);
        RemovedRuns(start, excused, node.name);
        log, steps, left := [], [NodeRemoved(node.name)], excused;
      } else {
        log, steps, left := HandleNodeReported(node, excused);
      }
      GroundedTurn(Turn(start, OfNode(eventType, node), log, State()));
      QuietRunKeeps(start, excused, steps, State(), left);
    }

    /** The Deleted branch of `watch_pods`. */
    method HandlePodDeleted(key: PodKey, ghost excused: set<PodKey>)
      returns (log: seq<Call>, ghost steps: seq<Step>, ghost left: set<PodKey>)
      requires Valid()
      modifies this, scheduler
      ensures Valid()
      ensures RunsTo(old(State()), excused, steps, State(), left) && BringNothing(steps)
      ensures NonNegative(old(State())) && Settled(old(State()), excused) ==>
                NonNegative(State()) && Settled(State(), left)
      ensures key !in old(scheduler.placements) ==> left == excused
      ensures key in old(scheduler.placements) ==>
                left <= State().pending.Keys && (left == {} || SweepExcuses(old(State()), State()))
      ensures Grounded(old(State()), State(), log)
      ensures KeepsAsks(old(State()), State())
      ensures OthersKept(old(State()), State(), key, Gone(log)) && !Known(State(), key)
    {
      ghost var start := State();
      log, steps, left := [], [], excused;
      pending := pending - {key};
      var released := scheduler.ReleasePlacement(key);
      ghost var dropped := State();
      if released {
        log, steps, left := RetryPending(excused);
      }
      DeletedThen(start, excused, key, dropped, steps, State(), left);
      DeletedKept(start, key, State(), Gone(log), log);
      steps := [PodDeleted(key)] + steps;
      QuietRunKeeps(start, excused, steps, State(), left);
    }

    /** The branch of `watch_pods` for a pod that names its node. */
    method HandlePodAssigned(
      key: PodKey, node: string, limits: Resources, ports: seq<Port>, ghost excused: set<PodKey>)
      returns (log: seq<Call>, ghost steps: seq<Step>, ghost left: set<PodKey>)
      requires Valid()
      modifies this, scheduler
      ensures Valid()
      ensures RunsTo(old(State()), excused, steps, State(), left)
      ensures limits.NonNegative() ==> BringOnlyNonNegative(steps)
      ensures limits.NonNegative() && NonNegative(old(State())) && Settled(old(State()), excused) ==>
                NonNegative(State()) && Settled(State(), left)
      ensures left <= if MovedUnnoticed(old(State()), State(), key) then State().pending.Keys
                      else excused + Refusals(log)
      ensures OthersKept(old(State()), State(), key, Gone(log))
      ensures KeepsAsksBut(old(State()), State(), key, Waiting(Pod(key.name, Pending, Some(limits)), ports))
      ensures key in Gone(log) || Known(State(), key)
      ensures if old(State()).view.IsConfirmedNotReady(node) then Grounded(old(State()), State(), log)
              else log == []
                   && State() == Recorded(old(State()).view, old(pending), key, Placement(node, limits, ports))
      ensures var lost := node in old(scheduler.nodes) && old(scheduler.nodes)[node].status == NotReady;
              if lost
              then log != [] && log[0].key == key && log[0].request == OrphanedFrom(node)
                   && (key in Gone(log) || key in old(scheduler.placements) || AsksFor(State(), key, limits, ports))
              else log == [] && scheduler.nodes == old(scheduler.nodes)
                   && pending == old(pending) - {key}
                   && scheduler.placements == old(scheduler.placements)[key := Placement(node, limits, ports)]
    {
      ghost var start := State();
      if scheduler.State().IsConfirmedNotReady(node) {
        log := RescheduleOne(node, key, limits, ports);
        steps, left := FoundLeads(start, State(), node, key, limits, ports, excused, log);
        UntouchedKept(start, State(), key, Gone(log));
        OrphanGrounded(start, State(), OrphanOf(key, limits, ports), node, log);
        SettlesIf(limits.NonNegative(), start, excused, steps, State(), left);
        OpeningKeepsAsks(start, excused, steps, State(), left, key, OrphanOf(key, limits, ports).waiting);
        return;
      }
      ghost var p := Placement(node, limits, ports);
      log, steps := [], [PodRecorded(key, p)];
      left := RecordedRuns(start, excused, key, p);
      RecordedKept(start, key, p, {});
      pending := pending - {key};
      scheduler.RecordPlacement(key, node, limits, ports);
      SettlesIf(limits.NonNegative(), start, excused, steps, State(), left);
      OpeningKeepsAsks(start, excused, steps, State(), left, key, OrphanOf(key, limits, ports).waiting);
    }

    /** The branch of `watch_pods` for a new pod that names no node. */
    method HandlePodAdded(key: PodKey, pod: Pod, ports: seq<Port>, ghost excused: set<PodKey>)
      returns (log: seq<Call>, ghost steps: seq<Step>, ghost left: set<PodKey>)
      requires Valid()
      modifies this, scheduler
      ensures Valid()
      ensures RunsTo(old(State()), excused, steps, State(), left)
      ensures LimitsOrDefault(pod.limits).NonNegative() ==> BringOnlyNonNegative(steps)
      ensures LimitsOrDefault(pod.limits).NonNegative()
              && NonNegative(old(State())) && Settled(old(State()), excused) ==>
                NonNegative(State()) && Settled(State(), left)
      ensures left <= if MovedUnnoticed(old(State()), State(), key) then State().pending.Keys else excused
      ensures OthersKept(old(State()), State(), key, Gone(log)) && Grounded(old(State()), State(), log)
      ensures key in Gone(log) || Known(State(), key)
      ensures KeepsAsksBut(old(State()), State(), key, Waiting(pod, ports))
      ensures |log| == 1 && log[0].key == key
      ensures match log[0].request
              case ToNode(n) =>
                && pod.limits.Some? && key !in pending
                && scheduler.placements == old(scheduler.placements)[key := Placement(n, pod.limits.value, ports)]
              case NoNode(reason) =>
                && PlaceAllowed(old(scheduler.State()), pod, ports, Err(reason))
                && (key in pending ==> pending[key] == Waiting(pod, ports))
                && scheduler.placements == old(scheduler.placements)
              case OrphanedFrom(_) => false
    {
      ghost var start := State();
      var outcome;
      outcome, log := TrySchedule(key, pod, ports, false);
      TryDoneOthers(start, State(), key, Waiting(pod, ports), false, outcome, log);
      TryDoneKey(start, State(), key, Waiting(pod, ports), false, outcome, log);
      TryGrounded(start, State(), key, Waiting(pod, ports), false, outcome, log);
      UntouchedKept(start, State(), key, Gone(log));
      steps, left := TriedLeads(Quiet(start, excused), State(), key, Waiting(pod, ports), outcome.value, log);
      SettlesIf(LimitsOrDefault(pod.limits).NonNegative(), start, excused, steps, State(), left);
      OpeningKeepsAsks(start, excused, steps, State(), left, key, Waiting(pod, ports));
    }

    /** One event of `watch_pods`. */
    method HandlePodEvent(event: PodEvent, ghost excused: set<PodKey>)
      returns (log: seq<Call>, ghost steps: seq<Step>, ghost left: set<PodKey>)
      requires Valid()
      modifies this, scheduler
      ensures Valid()
      ensures RunsTo(old(State()), excused, steps, State(), left)
      ensures LimitsNonNegative(OfPod(event)) ==> BringOnlyNonNegative(steps)
      ensures LimitsNonNegative(OfPod(event)) && NonNegative(old(State())) && Settled(old(State()), excused) ==>
                NonNegative(State()) && Settled(State(), left)
      ensures var turn := Turn(old(State()), OfPod(event), log, State());
              left <= LeftBy(turn, excused) && TurnGrounded(turn) && TurnAsks(turn)
      ensures OthersKept(old(State()), State(), KeyOfDetail(event.pod), Gone(log))
      ensures PodOf(event.pod).None?
              || (event.eventType != Added && event.eventType != Deleted && event.pod.nodeName == "") ==>
                State() == old(State())
      ensures PodOf(event.pod).Some? ==>
                var key := KeyOfDetail(event.pod);
                && (event.eventType == Deleted ==> !Known(State(), key))
                && (event.eventType == Added ==> key in Gone(log) || Known(State(), key))
                && (event.eventType != Deleted && event.pod.nodeName != ""
                    && !old(State()).view.IsConfirmedNotReady(event.pod.nodeName) ==>
                      State() == Recorded(old(State()).view, old(pending), key, PlacementFrom(event.pod)))
      ensures event.eventType == Added && event.pod.nodeName == "" && PodOf(event.pod).Some? ==>
                var key, pod, ports := KeyOfDetail(event.pod), PodOf(event.pod).value, PortsOf(event.pod);
                && |log| == 1 && log[0].key == key
                && (match log[0].request
                    case ToNode(n) =>
                      && pod.limits.Some? && key !in pending
                      && scheduler.placements
                         == old(scheduler.placements)[key := Placement(n, pod.limits.value, ports)]
                    case NoNode(reason) =>
                      && PlaceAllowed(old(scheduler.State()), pod, ports, Err(reason))
                      && (key in pending ==> pending[key] == Waiting(pod, ports))
                      && scheduler.placements == old(scheduler.placements)
                    case OrphanedFrom(_) => false)
    {
      ghost var start := State();
      log, steps, left := [], [], excused;
      var key, node := KeyOfDetail(event.pod), event.pod.nodeName;
      if PodOf(event.pod).None? {
        NothingDone(start, key, excused);
        GroundedTurn(Turn(start, OfPod(event), log, State()));
        return;
      }
      var pod, ports := PodOf(event.pod).value, PortsOf(event.pod);
      if event.eventType == Deleted {
        log, steps, left := HandlePodDeleted(key, excused);
        GroundedTurn(Turn(start, OfPod(event), log, State()));
      } else if node != "" {
        log, steps, left := HandlePodAssigned(key, node, LimitsOrDefault(pod.limits), ports, excused);
        NamedTurn(Turn(start, OfPod(event), log, State()));
        AskedTurn(
          Turn(start, OfPod(event), log, State()),
          Waiting(Pod(key.name, Pending, Some(LimitsOrDefault(pod.limits))), ports));
      } else if event.eventType == Added {
        log, steps, left := HandlePodAdded(key, pod, ports, excused);
        AskedTurn(Turn(start, OfPod(event), log, State()), Waiting(pod, ports));
        GroundedTurn(Turn(start, OfPod(event), log, State()));
      } else {
        NothingDone(start, key, excused);
        GroundedTurn(Turn(start, OfPod(event), log, State()));
      }
    }

    /** One event of either watch. */
    method HandleEvent(event: WatchEvent, ghost excused: set<PodKey>)
      returns (log: seq<Call>, ghost steps: seq<Step>, ghost left: set<PodKey>)
      requires Valid()
      modifies this, scheduler
      ensures Valid()
      ensures RunsTo(old(State()), excused, steps, State(), left)
      ensures LimitsNonNegative(event) ==> BringOnlyNonNegative(steps)
      ensures var turn := Turn(old(State()), event, log, State());
              left <= LeftBy(turn, excused) && TurnGrounded(turn) && TurnAsks(turn)
    {
      match event {
        case OfNode(eventType, node) => log, steps, left := HandleNodeEvent(eventType, node, excused);
        case OfPod(podEvent) => log, steps, left := HandlePodEvent(podEvent, excused);
      }
    }

    /** Any sequence of events, handled one at a time. If no event asks for less
        than nothing, every waiting pod is at the end unplaceable on the current
        view, except those excused, and at most the pods of `Excusable` are. Every
        placed pod is where the last event that recorded it, or the last call that
        assigned it, put it. */
    method HandleEvents(events: seq<WatchEvent>)
      returns (turns: seq<Turn>, ghost steps: seq<Step>, ghost left: set<PodKey>)
      requires Valid() && NonNegative(State()) && Settled(State(), {})
      modifies this, scheduler
      ensures Valid()
      ensures |turns| == |events| && Tells(old(State()), events, turns, steps, State(), left)
      ensures (forall e :: e in events ==> LimitsNonNegative(e)) ==> Settled(State(), left)
      ensures forall k :: k in scheduler.placements ==> From(OriginOf(turns, k), k, old(State()), State())
      ensures forall k, limits, ports :: AsksFor(old(State()), k, limits, ports)
                                         && (forall e :: e in events ==> AsksInEvent(e, k, limits, ports)) ==>
                                           AsksFor(State(), k, limits, ports)
    {
      ghost var start := State();
      turns, steps, left := [], [], {};
      for i := 0 to |events|
        invariant Valid()
        invariant |turns| == i && Tells(start, events, turns, steps, State(), left)
      {
        var before := State();
        var log;
        ghost var more, after;
        log, more, after := HandleEvent(events[i], left);
        steps := TellsMore(start, events, turns, steps, left, Turn(before, events[i], log, State()), more, after);
        turns, left := turns + [Turn(before, events[i], log, State())], after;
      }
      if BringOnlyNonNegative(steps) {
        QuietRunSettles(start, {}, steps, State(), left);
      }
      forall k | k in scheduler.placements ensures From(OriginOf(turns, k), k, start, State()) {
        PlacementsHaveOrigins(start, turns, State(), k);
      }
      forall k, limits, ports | AsksFor(start, k, limits, ports)
                                && (forall e :: e in events ==> AsksInEvent(e, k, limits, ports))
        ensures AsksFor(State(), k, limits, ports)
      {
        AsksThroughout(start, turns, State(), k, limits, ports);
      }
    }
  }
}
