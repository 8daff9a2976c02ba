/** Optimistic read-modify-write on one etcd key (api/src/store.rs, etcd branch):
    a writer reads the value with its version, changes it, and commits only if the
    version is still the one it read. Creates commit only at version zero. */
module Etcd {
  import opened Shared
  import opened PodRecords

  type Writer = nat

  /** `held` is what each writer holds between its read and its commit. */
  datatype Key = Key(value: Option<PodDetail>, version: nat, held: map<Writer, (PodDetail, nat)>)

  const ABSENT := Key(None, 0, map[])

  datatype Step =
    | Read(writer: Writer)
    | Commit(writer: Writer, mutation: Mutation)
    | Create(pod: PodDetail)
    | Delete

  predicate Enabled(s: Key, step: Step) {
    match step
    case Read(_) => true
    case Commit(w, _) => w in s.held
    case Create(_) => true
    case Delete => true
  }

  /** Whether the step's transaction goes through. */
  predicate Succeeds(s: Key, step: Step)
    requires Enabled(s, step)
  {
    match step
    case Read(_) => false
    case Commit(w, _) => s.held[w].1 == s.version
    case Create(_) => s.version == 0
    case Delete => s.value.Some?
  }

  function Next(s: Key, step: Step): Key
    requires Enabled(s, step)
  {
    match step
    // reading an absent key ends the update with `false`
    case Read(w) => if s.value.None? then s else s.(held := s.held[w := (s.value.value, s.version)])
    case Commit(w, m) =>
      var t := s.(held := s.held - {w});
      if Succeeds(s, step) then t.(value := Some(Mutate(s.held[w].0, m)), version := s.version + 1) else t
    case Create(d) => if Succeeds(s, step) then s.(value := Some(d), version := 1) else s
    case Delete => s.(value := None, version := 0)
  }

  predicate RunEnabled(s: Key, steps: seq<Step>)
    decreases |steps|
  {
    steps == [] || (Enabled(s, steps[0]) && RunEnabled(Next(s, steps[0]), steps[1..]))
  }

  function Run(s: Key, steps: seq<Step>): Key
    requires RunEnabled(s, steps)
    decreases |steps|
  {
    if steps == [] then s else Run(Next(s, steps[0]), steps[1..])
  }

  /** The mutations whose transactions went through, in commit order. */
  function Committed(s: Key, steps: seq<Step>): seq<Mutation>
    requires RunEnabled(s, steps)
    decreases |steps|
  {
    if steps == [] then []
    else
      (if steps[0].Commit? && Succeeds(s, steps[0]) then [steps[0].mutation] else [])
      + Committed(Next(s, steps[0]), steps[1..])
  }

  /** The creates that went through. */
  function Created(s: Key, steps: seq<Step>): seq<PodDetail>
    requires RunEnabled(s, steps)
    decreases |steps|
  {
    if steps == [] then []
    else
      (if steps[0].Create? && Succeeds(s, steps[0]) then [steps[0].pod] else [])
      + Created(Next(s, steps[0]), steps[1..])
  }

  /** An absent key has version zero and nobody reads it. */
  ghost predicate Versioned(s: Key) {
    && (s.version == 0 <==> s.value.None?)
    && forall w :: w in s.held ==> s.held[w].1 > 0
  }

  /** Outside `stale`, a read at the current version saw the current value. */
  ghost predicate CurrentBut(s: Key, stale: set<Writer>) {
    && Versioned(s)
    && forall w :: w in s.held && w !in stale ==>
         && s.held[w].1 <= s.version
         && (s.held[w].1 == s.version ==> Some(s.held[w].0) == s.value)
  }

  ghost predicate Current(s: Key) {
    CurrentBut(s, {})
  }

  /** The writers whose read is older than a delete. */
  function StaleAfter(s: Key, step: Step, stale: set<Writer>): set<Writer> {
    match step
    case Delete => stale + s.held.Keys
    case Read(w) => if s.value.None? then stale else stale - {w}
    case _ => stale
  }

  lemma StepKeepsCurrent(s: Key, step: Step, stale: set<Writer>)
    requires CurrentBut(s, stale) && Enabled(s, step)
    requires step.Commit? && Succeeds(s, step) ==> step.writer !in stale
    ensures CurrentBut(Next(s, step), StaleAfter(s, step, stale))
    ensures step.Commit? && Succeeds(s, step) ==>
              s.value.Some? && Next(s, step).value == Some(Mutate(s.value.value, step.mutation))
    ensures !Succeeds(s, step) ==>
              Next(s, step).value == s.value && Next(s, step).version == s.version
  {
  }

  /** From a stored value, and with no delete: the value is the fold of exactly
      the mutations that went through, in commit order; the version counts them;
      no create goes through. */
  lemma {:induction false} UpdatesSerialise(s: Key, steps: seq<Step>)
    requires Current(s) && s.value.Some? && RunEnabled(s, steps)
    requires forall i :: 0 <= i < |steps| ==> !steps[i].Delete?
    ensures Run(s, steps).value == Some(Fold(s.value.value, Committed(s, steps)))
    ensures Run(s, steps).version == s.version + |Committed(s, steps)|
    ensures Created(s, steps) == []
    decreases |steps|
  {
    if steps != [] {
      StepKeepsCurrent(s, steps[0], {});
      assert StaleAfter(s, steps[0], {}) == {};
      var rest := Committed(Next(s, steps[0]), steps[1..]);
      UpdatesSerialise(Next(s, steps[0]), steps[1..]);
      assert [] + rest == rest;
      assert steps[0].Commit? ==> ([steps[0].mutation] + rest)[1..] == rest;
    }
  }

  /** From an absent key: at most one create goes through, no update does before
      it, and the value is the created pod folded through the later updates. */
  lemma {:induction false} CreateThenUpdatesSerialise(s: Key, steps: seq<Step>)
    requires Current(s) && s.value.None? && RunEnabled(s, steps)
    requires forall i :: 0 <= i < |steps| ==> !steps[i].Delete?
    ensures |Created(s, steps)| <= 1
    ensures Created(s, steps) == [] ==> Run(s, steps).value == None && Committed(s, steps) == []
    ensures Created(s, steps) != [] ==>
              && Run(s, steps).value == Some(Fold(Created(s, steps)[0], Committed(s, steps)))
              && Run(s, steps).version == 1 + |Committed(s, steps)|
    ensures Created(s, steps) == [] <==> forall i :: 0 <= i < |steps| ==> !steps[i].Create?
    decreases |steps|
  {
    if steps != [] {
      var t := Next(s, steps[0]);
      StepKeepsCurrent(s, steps[0], {});
      assert StaleAfter(s, steps[0], {}) == {};
      assert [] + Committed(t, steps[1..]) == Committed(t, steps[1..]);
      assert [] + Created(t, steps[1..]) == Created(t, steps[1..]);
      if steps[0].Create? {
        UpdatesSerialise(t, steps[1..]);
      } else {
        CreateThenUpdatesSerialise(t, steps[1..]);
        assert forall i :: 0 < i < |steps| ==> steps[i] == steps[1..][i - 1];
      }
    }
  }

  /** Steps in which `w` neither reads nor commits. */
  predicate Spectates(w: Writer, steps: seq<Step>) {
    forall i :: 0 <= i < |steps| ==> !((steps[i].Read? || steps[i].Commit?) && steps[i].writer == w)
  }

  lemma {:induction false} HeldKept(s: Key, steps: seq<Step>, w: Writer)
    requires RunEnabled(s, steps) && w in s.held && Spectates(w, steps)
    ensures w in Run(s, steps).held && Run(s, steps).held[w] == s.held[w]
    decreases |steps|
  {
    if steps != [] {
      HeldKept(Next(s, steps[0]), steps[1..], w);
    }
  }

  lemma {:induction false} StaysVersioned(s: Key, steps: seq<Step>)
    requires Versioned(s) && RunEnabled(s, steps)
    ensures Versioned(Run(s, steps))
    decreases |steps|
  {
    if steps != [] {
      StaysVersioned(Next(s, steps[0]), steps[1..]);
    }
  }

  /** With no delete the version counts the create and the commits that went
      through, whatever the writers hold. */
  lemma {:induction false} VersionCounts(s: Key, steps: seq<Step>)
    requires Versioned(s) && RunEnabled(s, steps) && forall i :: 0 <= i < |steps| ==> !steps[i].Delete?
    ensures s.value.Some? ==> Created(s, steps) == []
    ensures s.value.Some? || Created(s, steps) != [] ==>
              Run(s, steps).version == s.version + |Created(s, steps)| + |Committed(s, steps)|
    ensures s.value.None? ==> |Created(s, steps)| <= 1
    ensures s.value.None? && Created(s, steps) == [] ==> Run(s, steps).version == 0
    decreases |steps|
  {
    if steps != [] {
      VersionCounts(Next(s, steps[0]), steps[1..]);
    }
  }

  lemma {:induction false} RunSplit(s: Key, steps: seq<Step>, i: nat)
    requires RunEnabled(s, steps) && i <= |steps|
    ensures RunEnabled(s, steps[..i]) && RunEnabled(Run(s, steps[..i]), steps[i..])
    ensures Run(Run(s, steps[..i]), steps[i..]) == Run(s, steps)
    decreases i
  {
    if i == 0 {
      assert steps[0..] == steps;
    } else {
      RunSplit(Next(s, steps[0]), steps[1..], i - 1);
      assert steps[..i][1..] == steps[1..][..i - 1] && steps[i..] == steps[1..][i - 1..];
    }
  }

  /** The position just after the last delete, 0 if there is none. */
  function AfterLastDelete(steps: seq<Step>): (r: nat)
    ensures r <= |steps| && (r > 0 ==> steps[r - 1].Delete?)
    ensures forall i :: r <= i < |steps| ==> !steps[i].Delete?
  {
    if steps == [] then 0
    else if steps[|steps| - 1].Delete? then |steps|
    else AfterLastDelete(steps[..|steps| - 1])
  }

  lemma DeletedState(s: Key, steps: seq<Step>, i: nat)
    requires RunEnabled(s, steps) && 0 < i <= |steps| && steps[i - 1].Delete?
    ensures RunEnabled(s, steps[..i]) && Run(s, steps[..i]).value == None && Run(s, steps[..i]).version == 0
  {
    RunSplit(s, steps, i);
    RunSplit(s, steps[..i], i - 1);
    assert steps[..i][i - 1..] == [Delete];
    assert [Delete][1..] == [];
  }

  /** When the update that `w` read for goes through, in any run. With no delete
      since the read: exactly when no other one committed. Otherwise: exactly when
      the key was created again since the last delete, and that create and the
      commits after it bring the version to the one read. */
  lemma CommitSucceedsIff(s: Key, w: Writer, between: seq<Step>, m: Mutation)
    requires Versioned(s) && s.value.Some?
    requires RunEnabled(Next(s, Read(w)), between) && Spectates(w, between)
    ensures var r := Next(s, Read(w));
            var t, i := Run(r, between), AfterLastDelete(between);
            && RunEnabled(r, between[..i]) && RunEnabled(Run(r, between[..i]), between[i..])
            && Enabled(t, Commit(w, m))
            && (Succeeds(t, Commit(w, m)) <==>
                  var cut, tail := Run(r, between[..i]), between[i..];
                  if i == 0 then Committed(r, between) == []
                  else Created(cut, tail) != [] && 1 + |Committed(cut, tail)| == s.version)
            && (i == 0 ==> t.value.Some?)
  {
    var r, i := Next(s, Read(w)), AfterLastDelete(between);
    HeldKept(r, between, w);
    RunSplit(r, between, i);
    StaysVersioned(r, between);
    if i == 0 {
      VersionCounts(r, between);
    } else {
      DeletedState(r, between, i);
      StaysVersioned(r, between[..i]);
      VersionCounts(Run(r, between[..i]), between[i..]);
    }
  }

  // ----- Serialisation with deletes -----------------------------------------------

  /** What a step that goes through does to the pod. */
  datatype Effect = Made(pod: PodDetail) | Changed(mutation: Mutation) | Removed

  function EffectOf(s: Key, step: Step): seq<Effect>
    requires Enabled(s, step)
  {
    if !Succeeds(s, step) then []
    else
      match step
      case Read(_) => []
      case Commit(_, m) => [Changed(m)]
      case Create(d) => [Made(d)]
      case Delete => [Removed]
  }

  function Effects(s: Key, steps: seq<Step>): seq<Effect>
    requires RunEnabled(s, steps)
    decreases |steps|
  {
    if steps == [] then [] else EffectOf(s, steps[0]) + Effects(Next(s, steps[0]), steps[1..])
  }

  /** The effects as one caller after the other would have them; `Err` when one
      makes a pod that exists, or changes or removes one that does not. */
  function Serial(value: Option<PodDetail>, effects: seq<Effect>): Result<Option<PodDetail>, ()>
    decreases |effects|
  {
    if effects == [] then Ok(value)
    else
      match effects[0]
      case Made(d) => if value.None? then Serial(Some(d), effects[1..]) else Err(())
      case Changed(m) => if value.Some? then Serial(Some(Mutate(value.value, m)), effects[1..]) else Err(())
      case Removed => if value.Some? then Serial(None, effects[1..]) else Err(())
  }

  /** No update whose read is older than a delete goes through. */
  predicate NoStaleSuccess(s: Key, steps: seq<Step>, stale: set<Writer>)
    requires RunEnabled(s, steps)
    decreases |steps|
  {
    steps == []
    || (&& (steps[0].Commit? && Succeeds(s, steps[0]) ==> steps[0].writer !in stale)
        && NoStaleSuccess(Next(s, steps[0]), steps[1..], StaleAfter(s, steps[0], stale)))
  }

  /** Creates, updates and deletes of any number of writers, however interleaved,
      leave what their effects leave one after the other, as long as no update
      whose read is older than a delete goes through. */
  lemma {:induction false} EverythingSerialises(s: Key, steps: seq<Step>, stale: set<Writer>)
    requires CurrentBut(s, stale) && RunEnabled(s, steps) && NoStaleSuccess(s, steps, stale)
    ensures Serial(s.value, Effects(s, steps)) == Ok(Run(s, steps).value)
    decreases |steps|
  {
    if steps != [] {
      var rest := Effects(Next(s, steps[0]), steps[1..]);
      StepKeepsCurrent(s, steps[0], stale);
      EverythingSerialises(Next(s, steps[0]), steps[1..], StaleAfter(s, steps[0], stale));
      assert [] + rest == rest;
      assert forall e: Effect :: ([e] + rest)[1..] == rest;
    }
  }

  lemma RunFrom(s: Key, step: Step, rest: seq<Step>)
    requires Enabled(s, step) && RunEnabled(Next(s, step), rest)
    ensures RunEnabled(s, [step] + rest) && Run(s, [step] + rest) == Run(Next(s, step), rest)
    ensures Created(s, [step] + rest)
            == (if step.Create? && Succeeds(s, step) then [step.pod] else []) + Created(Next(s, step), rest)
  {
  }

  /** Deletes are excluded for a reason: versions restart, so a read from before a
      delete and re-create can commit over the new pod and bring the old back. */
  lemma RecreateLosesThePod(stale: PodDetail, fresher: PodDetail, m: Mutation, w: Writer)
    ensures var steps := [Create(stale), Read(w), Delete, Create(fresher), Commit(w, m)];
            && RunEnabled(ABSENT, steps)
            && Run(ABSENT, steps).value == Some(Mutate(stale, m))
            && Created(ABSENT, steps) == [stale, fresher]
  {
    var s1 := Next(ABSENT, Create(stale));
    var s2 := Next(s1, Read(w));
    var s3 := Next(s2, Delete);
    var s4 := Next(s3, Create(fresher));
    RunFrom(s4, Commit(w, m), []);
    RunFrom(s3, Create(fresher), [Commit(w, m)]);
    RunFrom(s2, Delete, [Create(fresher), Commit(w, m)]);
    RunFrom(s1, Read(w), [Delete, Create(fresher), Commit(w, m)]);
    RunFrom(ABSENT, Create(stale), [Read(w), Delete, Create(fresher), Commit(w, m)]);
  }
}
