/** The recovery pass at boot (cni/src/network/reconcile.rs) and whole lifetimes of
    the daemon: requests, crashes and restarts. */
module Reconcile {
  import opened Shared
  import opened Addressing
  import opened IpPool
  import opened CniState
  import opened Workload

  type Probes = RecordKey -> Probe

  /** Records whose interface is not known to be gone. */
  function Live(records: Records, probe: Probes): Records {
    map k | k in records && probe(k) != Missing :: records[k]
  }

  function AddressesOn(records: Records, vlan: nat): set<Ip> {
    set k | k in records && records[k].vlan == vlan && records[k].address.Some? :: records[k].address.value
  }

  function VlansOf(records: Records): set<nat> {
    set k | k in records && records[k].address.Some? :: records[k].vlan
  }

  /** The VLANs whose pool the pass rewrites: those with a directory and those a
      live record needs. */
  function PoolVlans(pools: Pools, live: Records): set<nat> {
    pools.Keys + set v | v in VlansOf(live) && v < 256
  }

  function RebuiltPools(pools: Pools, live: Records): Pools {
    map v | v in PoolVlans(pools, live) :: AddressesOn(live, v)
  }

  /** What the pass leaves: exactly the live records, and in each pool exactly
      their addresses, whatever the pools held before. */
  function Recovered(d: Disk, probe: Probes): Disk {
    Disk(RebuiltPools(d.pools, Live(d.records, probe)), Live(d.records, probe))
  }

  /** What the pass leaves, spelled out: a record stays unless its interface is known to
      be gone; a pool is there for each directory and each live VLAN that fits a byte,
      and holds exactly the addresses of the live records on it. */
  lemma RecoveredMeans(d: Disk, probe: Probes)
    ensures var r := Recovered(d, probe);
            && (forall k :: k in r.records <==> k in d.records && (probe(k) == Shown || probe(k) == Unanswered))
            && (forall k :: k in r.records ==> r.records[k] == d.records[k])
            && (forall v :: v in r.pools <==>
                  || v in d.pools
                  || (v < 256 && exists k :: k in r.records && r.records[k].vlan == v && r.records[k].address.Some?))
            && (forall v, ip :: v in r.pools ==>
                  (ip in r.pools[v] <==>
                     exists k :: k in r.records && r.records[k].vlan == v && r.records[k].address == Some(ip)))
  {
    var r := Recovered(d, probe);
    forall v ensures v in VlansOf(r.records) <==>
                       exists k :: k in r.records && r.records[k].vlan == v && r.records[k].address.Some?
    {
    }
    forall v, ip | v in r.pools
      ensures ip in r.pools[v] <==>
                exists k :: k in r.records && r.records[k].vlan == v && r.records[k].address == Some(ip)
    {
      if k :| k in r.records && r.records[k].vlan == v && r.records[k].address == Some(ip) {
        assert ip in AddressesOn(r.records, v);
      }
    }
  }

  lemma RecoveredSafe(d: Disk, probe: Probes, node: Byte)
    requires Safe(d.records)
    ensures Safe(Recovered(d, probe).records) && Accounted(Recovered(d, probe), node)
  {
  }

  /** Recovery is exact, so a second pass with the same answers changes nothing. */
  lemma RecoveryIdempotent(d: Disk, probe: Probes)
    ensures Recovered(Recovered(d, probe), probe) == Recovered(d, probe)
  {
  }

  /** `drop_stale_records`. */
  method DropStaleRecords(state: StateStore, probe: Probes) returns (o: Outcome<()>)
    modifies state
    ensures o.Done? ==> state.records == Live(old(state.records), probe)
    ensures !o.Done? ==> o == Crashed
    ensures forall k :: k in state.records ==> k in old(state.records) && state.records[k] == old(state.records)[k]
  {
    var keys := state.List();
    for i := 0 to |keys|
      invariant forall k :: k in state.records <==>
                  k in old(state.records) && !(exists j :: 0 <= j < i && keys[j] == k && probe(k) == Missing)
      invariant forall k :: k in state.records ==> state.records[k] == old(state.records)[k]
    {
      if probe(keys[i]) == Missing {
        var _ := state.Delete(keys[i]);
        var crash: bool := *;
        if crash {
          return Crashed;
        }
      }
    }
    forall k ensures k in state.records <==> k in old(state.records) && probe(k) != Missing {
      if k in old(state.records) {
        var j :| 0 <= j < |keys| && keys[j] == k;
      }
    }
    return Done(());
  }

  lemma OneMoreRecord(part: Records, k: RecordKey, r: Record, v: nat)
    requires k !in part
    ensures AddressesOn(part[k := r], v)
            == AddressesOn(part, v) + (if r.vlan == v && r.address.Some? then {r.address.value} else {})
    ensures v in VlansOf(part[k := r]) <==> v in VlansOf(part) || (r.vlan == v && r.address.Some?)
  {
    var more := part[k := r];
    forall ip | ip in AddressesOn(part, v) ensures ip in AddressesOn(more, v) {
      var j :| j in part && part[j].vlan == v && part[j].address == Some(ip);
      assert j in more && more[j] == part[j];
    }
    if v in VlansOf(part) {
      var j :| j in part && part[j].address.Some? && part[j].vlan == v;
      assert j in more && more[j] == part[j];
    }
    assert k in more && more[k] == r;
  }

  ghost predicate Grouped(byVlan: Pools, part: Records) {
    && (forall v :: v in byVlan <==> v in VlansOf(part))
    && (forall v :: PoolOf(byVlan, v) == AddressesOn(part, v))
  }

  lemma GroupOneMore(byVlan: Pools, part: Records, k: RecordKey, r: Record)
    requires k !in part && Grouped(byVlan, part)
    ensures Grouped(if r.address.Some? then byVlan[r.vlan := PoolOf(byVlan, r.vlan) + {r.address.value}] else byVlan,
                    part[k := r])
  {
    var after :=
      if r.address.Some? then byVlan[r.vlan := PoolOf(byVlan, r.vlan) + {r.address.value}] else byVlan;
    forall v
      ensures v in after <==> v in VlansOf(part[k := r])
      ensures PoolOf(after, v) == AddressesOn(part[k := r], v)
    {
      OneMoreRecord(part, k, r, v);
      assert v in byVlan <==> v in VlansOf(part);
      assert PoolOf(byVlan, v) == AddressesOn(part, v);
    }
  }

  /** `allocated_by_vlan` of `rebuild_ip_pools`. */
  method GroupByVlan(state: StateStore) returns (byVlan: Pools)
    ensures Grouped(byVlan, state.records)
  {
    var keys := state.List();
    byVlan := map[];
    ghost var part: Records := map[];
    for i := 0 to |keys|
      invariant part.Keys == set j | 0 <= j < i :: keys[j]
      invariant forall k :: k in part ==> k in state.records && part[k] == state.records[k]
      invariant Grouped(byVlan, part)
    {
      assert keys[i] in keys;
      var r := state.records[keys[i]];
      GroupOneMore(byVlan, part, keys[i], r);
      part := part[keys[i] := r];
      if r.address.Some? {
        byVlan := byVlan[r.vlan := PoolOf(byVlan, r.vlan) + {r.address.value}];
      }
    }
    forall k | k in state.records ensures k in part {
      var j :| 0 <= j < |keys| && keys[j] == k;
    }
    assert part == state.records;
  }

  /** `pools` once the VLANs of `done` are rewritten from `byVlan`. */
  function Rewritten(pools: Pools, done: set<nat>, byVlan: Pools): Pools {
    map v | v in pools.Keys + done && (v in pools || v < 256) :: if v in done then PoolOf(byVlan, v) else pools[v]
  }

  lemma RewriteOneMore(pools: Pools, done: set<nat>, byVlan: Pools, v: nat)
    requires forall w :: w in pools ==> w < 256
    ensures Rewritten(pools, done + {v}, byVlan)
            == if v < 256 then Rewritten(pools, done, byVlan)[v := PoolOf(byVlan, v)]
               else Rewritten(pools, done, byVlan)
  {
  }

  lemma RewrittenIsRecovered(pools: Pools, byVlan: Pools, records: Records)
    requires Grouped(byVlan, records) && forall w :: w in pools ==> w < 256
    ensures Rewritten(pools, byVlan.Keys + pools.Keys, byVlan) == RebuiltPools(pools, records)
  {
  }

  /** The reset loop: a VLAN that cannot have a pool is skipped. */
  method RewritePools(pools: IpPoolDirectory, vlans: set<nat>, byVlan: Pools) returns (o: Outcome<()>)
    requires pools.Valid()
    modifies pools
    ensures pools.Valid() && (o.Done? || o.Crashed?)
    ensures o.Done? ==> pools.pools == Rewritten(old(pools.pools), vlans, byVlan)
  {
    ghost var before, done: set<nat> := pools.pools, {};
    var left := vlans;
    assert Rewritten(before, done, byVlan) == before;
    while left != {}
      invariant forall v :: v in vlans <==> v in left || v in done
      invariant pools.Valid() && pools.pools == Rewritten(before, done, byVlan)
      decreases |left|
    {
      var v :| v in left;
      RewriteOneMore(before, done, byVlan, v);
      var _ := pools.Reset(v, PoolOf(byVlan, v));
      left := left - {v};
      done := done + {v};
      var crash: bool := *;
      if crash {
        return Crashed;
      }
    }
    assert done == vlans;
    return Done(());
  }

  /** `rebuild_ip_pools`. */
  method RebuildIpPools(pools: IpPoolDirectory, state: StateStore) returns (o: Outcome<()>)
    requires pools.Valid()
    modifies pools
    ensures pools.Valid() && (o.Done? || o.Crashed?)
    ensures o.Done? ==> pools.pools == RebuiltPools(old(pools.pools), state.records)
  {
    var byVlan := GroupByVlan(state);
    RewrittenIsRecovered(pools.pools, byVlan, state.records);
    o := RewritePools(pools, byVlan.Keys + pools.pools.Keys, byVlan);
  }

  /** The boot pass. It may fail listing the records, or after the rebuild when the
      network commands fail; the daemon serves only after it is done. */
  method Run(pools: IpPoolDirectory, state: StateStore, probe: Probes) returns (o: Outcome<()>)
    requires pools.Valid() && Safe(state.records)
    modifies pools, state
    ensures pools.Valid() && Safe(state.records)
    ensures o.Done? ==> DiskOf(pools, state) == Recovered(old(DiskOf(pools, state)), probe)
    ensures o.Done? ==> Accounted(DiskOf(pools, state), pools.node)
    ensures o.Failure? ==> DiskOf(pools, state) == old(DiskOf(pools, state))
                           || DiskOf(pools, state) == Recovered(old(DiskOf(pools, state)), probe)
  {
    var listed: bool := *;
    if !listed {
      return Failure(CommandFailed);
    }
    ghost var before := DiskOf(pools, state);
    RecoveredSafe(before, probe, pools.node);
    var dropped := DropStaleRecords(state, probe);
    if dropped.Crashed? {
      return Crashed;
    }
    var rebuilt := RebuildIpPools(pools, state);
    if rebuilt.Crashed? {
      return Crashed;
    }
    assert DiskOf(pools, state) == Recovered(before, probe);
    var installed: bool := *;
    return if installed then Done(()) else Failure(CommandFailed);
  }

  // ----- Lifetimes -----------------------------------------------------------

  datatype Event = Add(request: AddRequest, probe: Probe) | Remove(key: RecordKey)

  /** Any sequence of requests against a daemon that may crash inside any of them
      and in between, and that reboots through the recovery pass: at every point
      in `trace`, addresses and host ports are unique, and whenever the daemon is
      up every address in use is marked allocated. */
  method Serve(events: seq<Event>, probes: nat -> Probes, pools: IpPoolDirectory, state: StateStore)
    returns (up: bool, trace: seq<Disk>)
    requires pools.Valid() && Safe(state.records)
    modifies pools, state
    ensures |trace| == 2 * |events| + 1
    ensures trace[0] == old(DiskOf(pools, state)) && trace[|trace| - 1] == DiskOf(pools, state)
    ensures forall i :: 0 <= i < |trace| ==> Safe(trace[i].records)
    ensures up ==> Accounted(DiskOf(pools, state), pools.node)
  {
    up := false;
    trace := [DiskOf(pools, state)];
    for i := 0 to |events|
      invariant pools.Valid() && Safe(state.records)
      invariant up ==> Accounted(DiskOf(pools, state), pools.node)
      invariant |trace| == 2 * i + 1
      invariant trace[0] == old(DiskOf(pools, state)) && trace[|trace| - 1] == DiskOf(pools, state)
      invariant forall j :: 0 <= j < |trace| ==> Safe(trace[j].records)
    {
      var killed: bool := *;
      if killed || !up {
        var boot := Run(pools, state, probes(i));
        up := boot.Done?;
      }
      trace := trace + [DiskOf(pools, state)];
      if up {
        match events[i] {
          case Add(request, probe) =>
            var o := AddWorkloadNetwork(request, probe, pools, state);
            up := !o.Crashed?;
          case Remove(key) =>
            var o := DeleteWorkloadNetwork(key, pools, state);
            up := !o.Crashed?;
        }
      }
      trace := trace + [DiskOf(pools, state)];
    }
  }
}
