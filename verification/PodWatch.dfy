/** The pod table of the API store and its event channel (api/src/store.rs,
    in-memory branch). Updates and removals publish while they hold the table's
    lock; a create inserts under the lock and publishes after releasing it. */
module PodWatch {
  import opened Shared
  import opened PodRecords

  type Pods = map<PodKey, PodDetail>

  /** `log` is every event ever published; `unpublished` are the pods inserted by
      creates that have yet to publish. */
  datatype Table = Table(pods: Pods, log: seq<PodEvent>, unpublished: multiset<PodDetail>)

  datatype Step =
    | CreateInsert(pod: PodDetail)
    | CreatePublish(pod: PodDetail)
    | Update(key: PodKey, eventType: EventType, mutation: Mutation)
    | Remove(key: PodKey)

  predicate Enabled(s: Table, step: Step) {
    match step
    case CreateInsert(d) => KeyOfDetail(d) !in s.pods
    case CreatePublish(d) => d in s.unpublished
    case Update(k, t, _) => k in s.pods && (t == Modified || t == Scheduled)
    case Remove(k) => k in s.pods
  }

  function Next(s: Table, step: Step): Table
    requires Enabled(s, step)
  {
    match step
    case CreateInsert(d) =>
      s.(pods := s.pods[KeyOfDetail(d) := d], unpublished := s.unpublished + multiset{d})
    case CreatePublish(d) =>
      s.(log := s.log + [PodEvent(Added, d)], unpublished := s.unpublished - multiset{d})
    case Update(k, t, m) =>
      var d := Mutate(s.pods[k], m);
      s.(pods := s.pods[k := d], log := s.log + [PodEvent(t, d)])
    case Remove(k) =>
      s.(pods := s.pods - {k}, log := s.log + [PodEvent(Deleted, s.pods[k])])
  }

  // ----- What a watcher makes of it -----------------------------------------

  /** A client applying one event to its copy of the table. */
  function Observe(copy: Pods, event: PodEvent): Pods {
    if event.eventType == Deleted then copy - {KeyOfDetail(event.pod)}
    else copy[KeyOfDetail(event.pod) := event.pod]
  }

  function Replay(copy: Pods, events: seq<PodEvent>): Pods {
    if events == [] then copy
    else Observe(Replay(copy, events[..|events| - 1]), events[|events| - 1])
  }

  ghost predicate SameAt(a: Pods, b: Pods, k: PodKey) {
    (k in a <==> k in b) && (k in a ==> a[k] == b[k])
  }

  ghost predicate Keyed(pods: Pods) {
    forall k :: k in pods ==> KeyOfDetail(pods[k]) == k
  }

  predicate RunEnabled(s: Table, steps: seq<Step>)
    decreases |steps|
  {
    steps == [] || (Enabled(s, steps[0]) && RunEnabled(Next(s, steps[0]), steps[1..]))
  }

  function Run(s: Table, steps: seq<Step>): Table
    requires RunEnabled(s, steps)
    decreases |steps|
  {
    if steps == [] then s else Run(Next(s, steps[0]), steps[1..])
  }

  lemma RunFrom(s: Table, step: Step, rest: seq<Step>)
    requires Enabled(s, step) && RunEnabled(Next(s, step), rest)
    ensures RunEnabled(s, [step] + rest) && Run(s, [step] + rest) == Run(Next(s, step), rest)
  {
    assert ([step] + rest)[1..] == rest;
  }

  lemma {:induction false} RunSplit(s: Table, steps: seq<Step>, i: nat)
    requires RunEnabled(s, steps) && i <= |steps|
    ensures RunEnabled(s, steps[..i]) && RunEnabled(Run(s, steps[..i]), steps[i..])
    ensures Run(Run(s, steps[..i]), steps[i..]) == Run(s, steps)
    decreases i
  {
    if i == 0 {
      assert steps[0..] == steps;
    } else {
      RunSplit(Next(s, steps[0]), steps[1..], i - 1);
      assert steps[..i][1..] == steps[1..][..i - 1] && steps[i..] == steps[1..][i - 1..];
    }
  }

  lemma RunLast(s: Table, steps: seq<Step>)
    requires RunEnabled(s, steps) && steps != []
    ensures var before := steps[..|steps| - 1];
            && RunEnabled(s, before) && Enabled(Run(s, before), steps[|steps| - 1])
            && Run(s, steps) == Next(Run(s, before), steps[|steps| - 1])
  {
    RunSplit(s, steps, |steps| - 1);
    assert steps[|steps| - 1..] == [steps[|steps| - 1]];
    assert steps[|steps| - 1..][1..] == [];
  }

  lemma StepKeepsKeyed(s: Table, step: Step)
    requires Enabled(s, step) && Keyed(s.pods)
    ensures Keyed(Next(s, step).pods)
  {
    if step.Update? {
      MutateKeepsIdentity(s.pods[step.key], step.mutation);
    }
  }

  // ----- What a watcher knows about one pod, after any run ----------------------

  function About(step: Step): PodKey {
    match step
    case CreateInsert(d) => KeyOfDetail(d)
    case CreatePublish(d) => KeyOfDetail(d)
    case Update(k, _, _) => k
    case Remove(k) => k
  }

  /** The last step of the run that is about `k`. */
  function LastAbout(steps: seq<Step>, k: PodKey): (r: Option<Step>)
    ensures r.Some? ==> About(r.value) == k
  {
    if steps == [] then None
    else if About(steps[|steps| - 1]) == k then Some(steps[|steps| - 1])
    else LastAbout(steps[..|steps| - 1], k)
  }

  lemma ReplayMore(copy: Pods, events: seq<PodEvent>, event: PodEvent)
    ensures Replay(copy, events + [event]) == Observe(Replay(copy, events), event)
  {
  }

  /** What a step does to a watcher's copy. */
  function Seen(copy: Pods, s: Table, step: Step): Pods
    requires Enabled(s, step)
  {
    if step.CreateInsert? then copy else Observe(copy, Next(s, step).log[|s.log|])
  }

  lemma SeenAt(copy: Pods, s: Table, step: Step, k: PodKey)
    requires Enabled(s, step) && Keyed(s.pods)
    ensures var seen, t := Seen(copy, s, step), Next(s, step);
            if About(step) != k then SameAt(seen, copy, k) && SameAt(t.pods, s.pods, k)
            else
              match step
              case CreateInsert(d) => k in t.pods && t.pods[k] == d && SameAt(seen, copy, k)
              case CreatePublish(d) => k in seen && seen[k] == d && SameAt(t.pods, s.pods, k)
              case Update(_, _, _) => SameAt(seen, t.pods, k)
              case Remove(_) => SameAt(seen, t.pods, k)
  {
    if step.Update? {
      MutateKeepsIdentity(s.pods[step.key], step.mutation);
    }
  }

  /** The copy of a watcher that held `start` when the table was `s`. */
  function Copy(start: Pods, s: Table, t: Table): Pods
    requires |s.log| <= |t.log|
  {
    Replay(start, t.log[|s.log|..])
  }

  lemma CopyStep(start: Pods, s: Table, m: Table, step: Step)
    requires Enabled(m, step) && |s.log| <= |m.log|
    ensures |s.log| <= |Next(m, step).log|
    ensures Copy(start, s, Next(m, step)) == Seen(Copy(start, s, m), m, step)
  {
    var t := Next(m, step);
    if !step.CreateInsert? {
      assert t.log[|s.log|..] == m.log[|s.log|..] + [t.log[|m.log|]];
      ReplayMore(start, m.log[|s.log|..], t.log[|m.log|]);
    }
  }

  /** The law of the watch, for every run and every pod. What a watcher holds for
      `k` is settled by the last step about `k`: nothing was said; an update or a
      removal made it right; a create's publish left it with the created pod,
      which is right if and only if the table holds that pod; a create not yet
      published changed the table alone. */
  lemma {:induction false} WatcherAt(start: Pods, s: Table, steps: seq<Step>, k: PodKey)
    requires RunEnabled(s, steps) && Keyed(s.pods)
    ensures var t := Run(s, steps);
            && Keyed(t.pods) && |s.log| <= |t.log|
            && var copy := Copy(start, s, t);
               match LastAbout(steps, k)
               case None => SameAt(copy, start, k) && SameAt(t.pods, s.pods, k)
               case Some(Update(_, _, _)) => SameAt(copy, t.pods, k)
               case Some(Remove(_)) => SameAt(copy, t.pods, k)
               case Some(CreatePublish(d)) =>
                 && k in copy && copy[k] == d
                 && (SameAt(copy, t.pods, k) <==> k in t.pods && t.pods[k] == d)
               case Some(CreateInsert(d)) =>
                 && k in t.pods && t.pods[k] == d
                 && (SameAt(copy, t.pods, k) <==> k in copy && copy[k] == d)
  {
    if steps == [] {
      assert s.log[|s.log|..] == [];
    } else {
      var before, last := steps[..|steps| - 1], steps[|steps| - 1];
      RunLast(s, steps);
      WatcherAt(start, s, before, k);
      var m := Run(s, before);
      StepKeepsKeyed(m, last);
      CopyStep(start, s, m, last);
      SeenAt(Copy(start, s, m), m, last, k);
    }
  }

  // ----- A snapshot plus the events that follow -----------------------------------

  /** A create of `k` sits between its insert and its publish. */
  ghost predicate InCreation(s: Table, k: PodKey) {
    exists d :: d in s.unpublished && KeyOfDetail(d) == k
  }

  /** A create of `k` in flight, if any, is alone and its pod is as inserted. */
  ghost predicate Undisturbed(s: Table, k: PodKey) {
    forall d :: d in s.unpublished && KeyOfDetail(d) == k ==>
      && k in s.pods && s.pods[k] == d && s.unpublished[d] == 1
  }

  /** The run writes to `k` only when no create of `k` is in flight. */
  ghost predicate Polite(s: Table, steps: seq<Step>, k: PodKey)
    requires RunEnabled(s, steps)
    decreases |steps|
  {
    steps == []
    || (&& (About(steps[0]) == k && (steps[0].Update? || steps[0].Remove?) ==> !InCreation(s, k))
        && Polite(Next(s, steps[0]), steps[1..], k))
  }

  lemma {:induction false} PoliteLast(s: Table, steps: seq<Step>, k: PodKey)
    requires RunEnabled(s, steps) && steps != [] && Polite(s, steps, k)
    ensures var before, last := steps[..|steps| - 1], steps[|steps| - 1];
            && RunEnabled(s, before) && Polite(s, before, k)
            && (About(last) == k && (last.Update? || last.Remove?) ==> !InCreation(Run(s, before), k))
    decreases |steps|
  {
    RunLast(s, steps);
    if |steps| > 1 {
      var before, rest := steps[..|steps| - 1], steps[1..];
      PoliteLast(Next(s, steps[0]), rest, k);
      assert before[0] == steps[0] && before[1..] == rest[..|rest| - 1];
      assert rest[|rest| - 1] == steps[|steps| - 1];
    }
  }

  lemma CreationElsewhere(s: Table, step: Step, k: PodKey)
    requires Enabled(s, step) && Undisturbed(s, k) && About(step) != k
    ensures Undisturbed(Next(s, step), k) && (InCreation(Next(s, step), k) <==> InCreation(s, k))
  {
    assert forall d :: KeyOfDetail(d) == k ==> s.unpublished[d] == Next(s, step).unpublished[d];
  }

  lemma CreationStep(s: Table, step: Step, k: PodKey)
    requires Enabled(s, step) && Undisturbed(s, k) && About(step) == k
    requires step.Update? || step.Remove? ==> !InCreation(s, k)
    ensures var t := Next(s, step);
            && Undisturbed(t, k)
            && (step.CreateInsert? ==> InCreation(t, k))
            && (step.CreatePublish? ==> k in t.pods && t.pods[k] == step.pod)
  {
    if step.CreateInsert? {
      assert step.pod in Next(s, step).unpublished;
    }
  }

  lemma {:induction false} CreationAt(s: Table, steps: seq<Step>, k: PodKey)
    requires RunEnabled(s, steps) && Undisturbed(s, k) && Polite(s, steps, k)
    ensures var t := Run(s, steps);
            && Undisturbed(t, k)
            && match LastAbout(steps, k)
               case None => InCreation(t, k) <==> InCreation(s, k)
               case Some(CreateInsert(_)) => InCreation(t, k)
               case Some(CreatePublish(d)) => k in t.pods && t.pods[k] == d
               case Some(_) => true
  {
    if steps != [] {
      var before, last := steps[..|steps| - 1], steps[|steps| - 1];
      RunLast(s, steps);
      PoliteLast(s, steps, k);
      CreationAt(s, before, k);
      if About(last) == k {
        CreationStep(Run(s, before), last, k);
      } else {
        CreationElsewhere(Run(s, before), last, k);
        SamePodAway(Run(s, before), last, k);
      }
    }
  }

  lemma SamePodAway(s: Table, step: Step, k: PodKey)
    requires Enabled(s, step)
    ensures About(step) != k ==> SameAt(Next(s, step).pods, s.pods, k)
  {
  }

  /** A snapshot taken at any moment plus the events that follow misses nothing
      about `k`: as long as no write to `k` falls between the insert and the
      publish of a create of `k`, whatever happens to other pods, a copy that was
      right stays right at every later moment, unless `k` is in creation. */
  lemma SnapshotPlusStream(start: Pods, s: Table, steps: seq<Step>, k: PodKey)
    requires RunEnabled(s, steps) && Keyed(s.pods) && Undisturbed(s, k) && Polite(s, steps, k)
    requires InCreation(s, k) || SameAt(start, s.pods, k)
    ensures |s.log| <= |Run(s, steps).log|
    ensures InCreation(Run(s, steps), k) || SameAt(Copy(start, s, Run(s, steps)), Run(s, steps).pods, k)
  {
    WatcherAt(start, s, steps, k);
    CreationAt(s, steps, k);
  }

  /** From the moment of subscription, once every create has published, the copy
      is the table. */
  lemma WatchersSeeTheTable(s: Table, steps: seq<Step>)
    requires RunEnabled(s, steps) && Keyed(s.pods)
    requires forall k :: Undisturbed(s, k) && Polite(s, steps, k)
    requires Run(s, steps).unpublished == multiset{}
    ensures |s.log| <= |Run(s, steps).log|
    ensures Copy(s.pods, s, Run(s, steps)) == Run(s, steps).pods
  {
    var t := Run(s, steps);
    WatcherAt(s.pods, s, steps, PodKey("", ""));
    var copy := Copy(s.pods, s, t);
    forall k ensures SameAt(copy, t.pods, k) {
      SnapshotPlusStream(s.pods, s, steps, k);
      assert !InCreation(t, k);
    }
    SameEverywhere(copy, t.pods);
  }

  lemma SameEverywhere(a: Pods, b: Pods)
    requires forall k :: SameAt(a, b, k)
    ensures a == b
  {
    assert forall k :: SameAt(a, b, k) ==> (k in a <==> k in b);
    forall k | k in a ensures a[k] == b[k] {
      assert SameAt(a, b, k);
    }
  }

  /** When a create publishes, watchers end up with the stored pod if and only if
      no write got in between, that is, the table still holds the created pod. */
  lemma PublishFaithfulIff(s: Table, d: PodDetail, copy: Pods)
    requires d in s.unpublished
    ensures var t, k := Next(s, CreatePublish(d)), KeyOfDetail(d);
            SameAt(Observe(copy, t.log[|s.log|]), t.pods, k) <==> k in s.pods && s.pods[k] == d
  {
  }

  /** Any write that gets in between, in any table, leaves every watcher wrong: an
      update with the older pod, a removal with a pod that is gone. */
  lemma OvertakenCreateIsStale(s: Table, start: Pods, d: PodDetail, write: Step)
    requires Keyed(s.pods) && KeyOfDetail(d) !in s.pods
    requires write.Update? || write.Remove?
    requires About(write) == KeyOfDetail(d)
    requires write.Update? ==> write.eventType in {Modified, Scheduled} && Mutate(d, write.mutation) != d
    ensures var k, steps := KeyOfDetail(d), [CreateInsert(d), write, CreatePublish(d)];
            && RunEnabled(s, steps) && |s.log| <= |Run(s, steps).log|
            && var t := Run(s, steps);
               var copy := Copy(start, s, t);
               && k in copy && copy[k] == d && !SameAt(copy, t.pods, k)
               && (k in t.pods <==> write.Update?)
  {
    var k, steps := KeyOfDetail(d), [CreateInsert(d), write, CreatePublish(d)];
    var s1 := Next(s, CreateInsert(d));
    var s2 := Next(s1, write);
    RunFrom(s2, CreatePublish(d), []);
    RunFrom(s1, write, [CreatePublish(d)]);
    RunFrom(s, CreateInsert(d), [write, CreatePublish(d)]);
    WatcherAt(start, s, steps, k);
    assert LastAbout(steps, k) == Some(CreatePublish(d));
  }

  // ----- Each commit is seen once ----------------------------------------------

  lemma {:induction false} LogGrows(s: Table, steps: seq<Step>)
    requires RunEnabled(s, steps)
    ensures s.log <= Run(s, steps).log
    decreases |steps|
  {
    if steps != [] {
      var t := Next(s, steps[0]);
      assert s.log <= t.log;
      LogGrows(t, steps[1..]);
      var u := Run(t, steps[1..]);
      assert forall i :: 0 <= i < |s.log| ==> s.log[i] == t.log[i] && t.log[i] == u.log[i];
    }
  }

  function EventOf(s: Table, step: Step): PodEvent
    requires Enabled(s, step) && !step.CreateInsert?
  {
    match step
    case CreatePublish(d) => PodEvent(Added, d)
    case Update(k, t, m) => PodEvent(t, Mutate(s.pods[k], m))
    case Remove(k) => PodEvent(Deleted, s.pods[k])
  }

  /** Take any run with a step at position `i` and a subscription at position `j`.
      If the step came first, it is in the subscription's snapshot: the snapshot's
      table follows from the state just after it. */
  lemma StepInSnapshot(s: Table, steps: seq<Step>, i: nat, j: nat)
    requires RunEnabled(s, steps) && i < j <= |steps|
    ensures RunEnabled(s, steps[..i]) && RunEnabled(s, steps[..j]) && Enabled(Run(s, steps[..i]), steps[i])
    ensures var after := Next(Run(s, steps[..i]), steps[i]);
            RunEnabled(after, steps[i + 1..j]) && Run(s, steps[..j]) == Run(after, steps[i + 1..j])
  {
    RunSplit(s, steps, j);
    RunSplit(s, steps[..j], i);
    assert steps[..j][..i] == steps[..i] && steps[..j][i..][0] == steps[i];
    assert steps[..j][i..][1..] == steps[i + 1..j];
  }

  /** The event of a step that publishes, with the value committed, is delivered to
      the subscription if and only if the subscription came first; otherwise the
      step is in its snapshot. For an update or a removal, which commit and publish
      in one step, that is exactly once. */
  lemma CommitSeenOnce(s: Table, steps: seq<Step>, i: nat, j: nat)
    requires RunEnabled(s, steps) && i < |steps| && j <= |steps| && !steps[i].CreateInsert?
    ensures RunEnabled(s, steps[..i]) && RunEnabled(s, steps[..j]) && Enabled(Run(s, steps[..i]), steps[i])
    ensures var commit, subscription, final := Run(s, steps[..i]), Run(s, steps[..j]), Run(s, steps);
            && |commit.log| < |final.log| && final.log[|commit.log|] == EventOf(commit, steps[i])
            && (|subscription.log| <= |commit.log| <==> j <= i)
            && (j > i ==>
                  && RunEnabled(Next(commit, steps[i]), steps[i + 1..j])
                  && subscription == Run(Next(commit, steps[i]), steps[i + 1..j]))
  {
    RunSplit(s, steps, i);
    RunSplit(s, steps, j);
    var commit, subscription := Run(s, steps[..i]), Run(s, steps[..j]);
    var after := Next(commit, steps[i]);
    assert steps[i..][1..] == steps[i + 1..];
    LogGrows(after, steps[i + 1..]);
    if j <= i {
      RunSplit(s, steps[..i], j);
      assert steps[..i][..j] == steps[..j];
      LogGrows(subscription, steps[..i][j..]);
    } else {
      StepInSnapshot(s, steps, i, j);
      LogGrows(after, steps[i + 1..j]);
    }
  }

  /** A create, inserted at `i` and published at `q`, is seen at least once: in the
      snapshot of every subscription after the insert, and as an event by every
      subscription up to the publish. */
  lemma CreateSeen(s: Table, steps: seq<Step>, d: PodDetail, i: nat, q: nat, j: nat)
    requires RunEnabled(s, steps) && i < q < |steps| && j <= |steps|
    requires steps[i] == CreateInsert(d) && steps[q] == CreatePublish(d)
    ensures RunEnabled(s, steps[..i]) && RunEnabled(s, steps[..j]) && RunEnabled(s, steps[..q])
    ensures Enabled(Run(s, steps[..i]), steps[i])
    ensures var subscription, final := Run(s, steps[..j]), Run(s, steps);
            && (j > i ==>
                  var inserted := Next(Run(s, steps[..i]), steps[i]);
                  && KeyOfDetail(d) in inserted.pods && inserted.pods[KeyOfDetail(d)] == d
                  && RunEnabled(inserted, steps[i + 1..j]) && subscription == Run(inserted, steps[i + 1..j]))
            && (j <= q ==>
                  var at := |Run(s, steps[..q]).log|;
                  |subscription.log| <= at < |final.log| && final.log[at] == PodEvent(Added, d))
  {
    RunSplit(s, steps, i);
    CommitSeenOnce(s, steps, q, j);
    if j > i {
      StepInSnapshot(s, steps, i, j);
    }
  }

  // ----- The snapshot as the watch stream carries it --------------------------

  function AsAdded(snapshot: seq<PodDetail>): seq<PodEvent> {
    seq(|snapshot|, i requires 0 <= i < |snapshot| => PodEvent(Added, snapshot[i]))
  }

  /** The snapshot lists each stored pod once, assigned pods first. */
  ghost predicate Snapshots(snapshot: seq<PodDetail>, pods: Pods) {
    && (forall k :: k in pods ==> pods[k] in snapshot)
    && (forall d :: d in snapshot ==> KeyOfDetail(d) in pods && pods[KeyOfDetail(d)] == d)
    && (forall i, j :: 0 <= i < j < |snapshot| ==> KeyOfDetail(snapshot[i]) != KeyOfDetail(snapshot[j]))
    && (forall i, j :: 0 <= i < j < |snapshot| && snapshot[i].nodeName == "" ==> snapshot[j].nodeName == "")
  }

  lemma {:induction false} ReplaySnapshot(snapshot: seq<PodDetail>)
    requires forall i, j :: 0 <= i < j < |snapshot| ==> KeyOfDetail(snapshot[i]) != KeyOfDetail(snapshot[j])
    ensures forall k :: k in Replay(map[], AsAdded(snapshot)) <==> exists d :: d in snapshot && KeyOfDetail(d) == k
    ensures forall d :: d in snapshot ==>
              KeyOfDetail(d) in Replay(map[], AsAdded(snapshot))
              && Replay(map[], AsAdded(snapshot))[KeyOfDetail(d)] == d
  {
    if snapshot != [] {
      var rest, last := snapshot[..|snapshot| - 1], snapshot[|snapshot| - 1];
      ReplaySnapshot(rest);
      assert AsAdded(snapshot)[..|snapshot| - 1] == AsAdded(rest);
      assert snapshot == rest + [last];
    }
  }

  /** A client that starts from nothing and applies the whole stream, snapshot
      events first, also ends with exactly the stored pods. */
  lemma StreamFromNothing(snapshot: seq<PodDetail>, s: Table)
    requires Keyed(s.pods) && Snapshots(snapshot, s.pods)
    ensures Replay(map[], AsAdded(snapshot)) == s.pods
  {
    ReplaySnapshot(snapshot);
    var copy := Replay(map[], AsAdded(snapshot));
    forall k ensures k in copy <==> k in s.pods {
      if k in s.pods {
        assert s.pods[k] in snapshot;
      }
    }
    forall k | k in copy ensures copy[k] == s.pods[k] {
      assert s.pods[k] in snapshot;
    }
  }
}
