/** Sticky VLAN allocation per pod (agent/src/vlan.rs). */
module Vlan {
  import opened Shared

  const FIRST_VLAN := 2
  const LAST_VLAN := 4094

  datatype VlanError = NoFreeVlan | SaveFailed

  /** Pods hold distinct VLANs, all in range. */
  ghost predicate Sticky(allocations: map<string, nat>) {
    && (forall p :: p in allocations ==> FIRST_VLAN <= allocations[p] <= LAST_VLAN)
    && (forall p, q :: p in allocations && q in allocations && p != q ==> allocations[p] != allocations[q])
  }

  lemma {:induction false} AsManyVlansAsPods(m: map<string, nat>)
    requires forall p, q :: p in m && q in m && p != q ==> m[p] != m[q]
    ensures |m.Values| == |m|
    decreases |m|
  {
    if m == map[] {
      assert m.Values == {};
    } else {
      var p :| p in m;
      var rest := m - {p};
      AsManyVlansAsPods(rest);
      forall v | v in m.Values && v != m[p] ensures v in rest.Values {
        var q :| q in m && m[q] == v;
        assert q in rest;
      }
      assert m.Values == rest.Values + {m[p]};
      assert m[p] !in rest.Values;
      assert |rest| == |m| - 1 by {
        assert rest.Keys == m.Keys - {p};
      }
    }
  }

  /** Every VLAN is taken exactly when 4093 pods hold one. */
  lemma ExhaustedIff4093(m: map<string, nat>)
    requires Sticky(m)
    ensures (forall v: nat :: FIRST_VLAN <= v <= LAST_VLAN ==> v in m.Values) <==> |m| == 4093
  {
    var whole := Interval(FIRST_VLAN, LAST_VLAN + 1);
    AsManyVlansAsPods(m);
    var used := set v: int | v in m.Values;
    assert used <= whole;
    SameSize(m.Values, used);
    if |m| == 4093 {
      SubsetOfSameSize(used, whole);
      forall v: nat | FIRST_VLAN <= v <= LAST_VLAN ensures v in m.Values {
        assert v in whole && v in used;
      }
    }
    if forall v: nat :: FIRST_VLAN <= v <= LAST_VLAN ==> v in m.Values {
      assert used == whole;
    }
  }

  lemma {:induction false} SameSize(a: set<nat>, b: set<int>)
    requires forall x: int :: x in b <==> x >= 0 && x in a
    ensures |a| == |b|
    decreases |a|
  {
    if a == {} {
      assert forall x: int :: x in b ==> x >= 0 && x in a;
      assert b == {} by {
        if x :| x in b {
          assert x in a;
        }
      }
    } else {
      var x :| x in a;
      SameSize(a - {x}, b - {x});
    }
  }

  // ----- The table and its mirror on disk ---------------------------------------

  /** The working table and what the last save that went through left on disk. */
  datatype Table = Table(allocations: map<string, nat>, mirror: map<string, nat>)

  /** `saved` says whether the save that follows a change went through. */
  datatype Step = Allocate(pod: string, vlan: nat, saved: bool) | Free(pod: string, saved: bool) | Restart

  ghost predicate LowestFree(m: map<string, nat>, vlan: nat) {
    && FIRST_VLAN <= vlan <= LAST_VLAN && vlan !in m.Values
    && forall lower: nat :: FIRST_VLAN <= lower < vlan ==> lower in m.Values
  }

  ghost predicate Enabled(t: Table, step: Step) {
    step.Allocate? ==>
      if step.pod in t.allocations then step.vlan == t.allocations[step.pod] else LowestFree(t.allocations, step.vlan)
  }

  function Saved(t: Table, saved: bool): Table {
    if saved then t.(mirror := t.allocations) else t
  }

  function Next(t: Table, step: Step): Table {
    match step
    case Allocate(pod, vlan, saved) =>
      if pod in t.allocations then t else Saved(t.(allocations := t.allocations[pod := vlan]), saved)
    case Free(pod, saved) =>
      if pod !in t.allocations then t else Saved(t.(allocations := t.allocations - {pod}), saved)
    case Restart => t.(allocations := t.mirror)
  }

  ghost predicate Leads(t: Table, steps: seq<Step>, u: Table)
    decreases |steps|
  {
    if steps == [] then t == u else Enabled(t, steps[0]) && Leads(Next(t, steps[0]), steps[1..], u)
  }

  /** The answers of `allocate_for` and `release`: what changes nothing in the table
      is not saved again. */
  predicate AnsweredOk(t: Table, step: Step) {
    match step
    case Allocate(pod, _, saved) => pod in t.allocations || saved
    case Free(pod, saved) => pod !in t.allocations || saved
    case Restart => false
  }

  /** The pod's VLAN is on disk. */
  predicate Durable(t: Table, pod: string) {
    pod in t.allocations && pod in t.mirror && t.mirror[pod] == t.allocations[pod]
  }

  /** In every run, restarts and failed saves included, VLANs stay distinct and in
      range, in the table and on disk. */
  lemma {:induction false} StickyInEveryRun(t: Table, steps: seq<Step>, u: Table)
    requires Sticky(t.allocations) && Sticky(t.mirror) && Leads(t, steps, u)
    ensures Sticky(u.allocations) && Sticky(u.mirror)
    decreases |steps|
  {
    if steps != [] {
      StickyInEveryRun(Next(t, steps[0]), steps[1..], u);
    }
  }

  /** A pod whose VLAN is on disk keeps it, through restarts and whatever other pods
      do, until it is released. */
  lemma {:induction false} DurableUntilFreed(t: Table, steps: seq<Step>, u: Table, pod: string)
    requires Leads(t, steps, u) && Durable(t, pod)
    requires forall i :: 0 <= i < |steps| && steps[i].Free? ==> steps[i].pod != pod
    ensures Durable(u, pod) && u.allocations[pod] == t.allocations[pod]
    decreases |steps|
  {
    if steps != [] {
      DurableUntilFreed(Next(t, steps[0]), steps[1..], u, pod);
    }
  }

  /** An allocation answered `Ok` is on disk if and only if the pod was not in the
      table yet or was on disk already. */
  lemma OkIsDurableIff(t: Table, step: Step)
    requires Enabled(t, step) && AnsweredOk(t, step) && step.Allocate?
    ensures Durable(Next(t, step), step.pod) <==> step.pod !in t.allocations || Durable(t, step.pod)
  {
  }

  /** So an `Ok` may be lost: after a failed save the retry answers `Ok` without
      saving, and a restart gives the VLAN to the next pod that asks. */
  lemma UnsavedOkIsLost(pod: string, other: string)
    requires pod != other
    ensures var t := Next(Table(map[], map[]), Allocate(pod, 2, false));
            && Enabled(Table(map[], map[]), Allocate(pod, 2, false))
            && Enabled(t, Allocate(pod, 2, true)) && AnsweredOk(t, Allocate(pod, 2, true))
            && var u := Next(Next(t, Allocate(pod, 2, true)), Restart);
               Enabled(u, Allocate(other, 2, true)) && Next(u, Allocate(other, 2, true)).allocations == map[other := 2]
  {
    assert LowestFree(map[], 2);
  }

  /** A pod that is neither in the table nor on disk stays away, through restarts,
      until it is allocated a VLAN. */
  lemma {:induction false} GoneUntilAllocated(t: Table, steps: seq<Step>, u: Table, pod: string)
    requires Leads(t, steps, u) && pod !in t.allocations && pod !in t.mirror
    requires forall i :: 0 <= i < |steps| && steps[i].Allocate? ==> steps[i].pod != pod
    ensures pod !in u.allocations && pod !in u.mirror
    decreases |steps|
  {
    if steps != [] {
      GoneUntilAllocated(Next(t, steps[0]), steps[1..], u, pod);
    }
  }

  /** A release answered `Ok` has reached the disk if and only if the pod was still
      in the table or no longer on disk. */
  lemma ReleaseIsDurableIff(t: Table, step: Step)
    requires AnsweredOk(t, step) && step.Free?
    ensures step.pod !in Next(t, step).allocations
    ensures step.pod !in Next(t, step).mirror <==> step.pod in t.allocations || step.pod !in t.mirror
  {
  }

  /** So a release may be undone: after a failed save the retry answers `Ok` without
      saving, and a restart brings the pod's VLAN back. */
  lemma UnsavedReleaseReturns(pod: string, vlan: nat)
    ensures var t := Table(map[pod := vlan], map[pod := vlan]);
            var u := Next(t, Free(pod, false));
            && !AnsweredOk(t, Free(pod, false)) && AnsweredOk(u, Free(pod, true))
            && Next(Next(u, Free(pod, true)), Restart) == t
  {
  }

  class VlanAllocations {
    var allocations: map<string, nat>
    var mirror: map<string, nat>

    function State(): Table
      reads this
    {
      Table(allocations, mirror)
    }

    ghost predicate Valid()
      reads this
    {
      Sticky(allocations) && Sticky(mirror)
    }

    /** A start of the agent: the table is what the disk holds. */
    constructor (mirror: map<string, nat>)
      requires Sticky(mirror)
      ensures Valid() && State() == Table(mirror, mirror)
    {
      allocations, this.mirror := mirror, mirror;
    }

    method Save() returns (saved: bool)
      modifies this`mirror
      ensures State() == Saved(old(State()), saved)
    {
      saved := *;
      if saved {
        mirror := allocations;
      }
    }

    /** A pod keeps the VLAN it has; a new pod gets the lowest free one. The table
        changes even when mirroring it to disk fails. */
    method AllocateFor(pod: string) returns (r: Result<nat, VlanError>)
      requires Valid()
      modifies this
      ensures Valid()
      ensures pod in old(allocations) ==> r == Ok(old(allocations)[pod]) && State() == old(State())
      ensures r == Err(NoFreeVlan) <==> pod !in old(allocations) && |old(allocations)| == 4093
      ensures r == Err(NoFreeVlan) ==> State() == old(State())
      ensures r != Err(NoFreeVlan) ==>
                exists v: nat ::
                  var step := Allocate(pod, v, r.Ok?);
                  && Enabled(old(State()), step) && State() == Next(old(State()), step)
                  && (r == Ok(v) || r == Err(SaveFailed))
      // A new pod's VLAN, in numbers: from 2 to 4094, free, and no lower one is free.
      ensures pod !in old(allocations) && r != Err(NoFreeVlan) ==>
                && pod in allocations && allocations == old(allocations)[pod := allocations[pod]]
                && 2 <= allocations[pod] <= 4094 && allocations[pod] !in old(allocations).Values
                && (forall lower: nat :: 2 <= lower < allocations[pod] ==> lower in old(allocations).Values)
                && mirror == (if r.Ok? then allocations else old(mirror))
                && (r.Ok? ==> r.value == allocations[pod])
    {
      if pod in allocations {
        assert Next(State(), Allocate(pod, allocations[pod], true)) == State();
        return Ok(allocations[pod]);
      }
      ExhaustedIff4093(allocations);
      ghost var before := State();
      var used := allocations.Values;
      var vlan: nat := FIRST_VLAN;
      while vlan <= LAST_VLAN
        invariant FIRST_VLAN <= vlan <= LAST_VLAN + 1
        invariant forall lower: nat :: FIRST_VLAN <= lower < vlan ==> lower in used
      {
        if vlan !in used {
          assert LowestFree(allocations, vlan);
          allocations := allocations[pod := vlan];
          var saved := Save();
          r := if saved then Ok(vlan) else Err(SaveFailed);
          assert Enabled(before, Allocate(pod, vlan, r.Ok?)) && State() == Next(before, Allocate(pod, vlan, r.Ok?));
          return;
        }
        vlan := vlan + 1;
      }
      return Err(NoFreeVlan);
    }

    method Release(pod: string) returns (r: Result<(), VlanError>)
      requires Valid()
      modifies this
      ensures Valid()
      ensures State() == Next(old(State()), Free(pod, r.Ok?))
      ensures allocations == old(allocations) - {pod}
      ensures pod !in old(allocations) ==> r == Ok(())
      ensures mirror == (if pod in old(allocations) && r.Ok? then allocations else old(mirror))
    {
      if pod !in allocations {
        return Ok(());
      }
      allocations := allocations - {pod};
      var saved := Save();
      return if saved then Ok(()) else Err(SaveFailed);
    }
  }
}
