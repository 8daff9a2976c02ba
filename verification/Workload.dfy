/** Adding and removing a workload's network (cni/src/network/workload.rs), effect
    by effect. Every external command may succeed or fail, and the process may
    crash after any write; writes themselves are whole or absent. */
module Workload {
  import opened Shared
  import opened Addressing
  import opened IpPool
  import opened CniState
  import opened Firewall

  datatype AddRequest = AddRequest(key: RecordKey, vlan: nat, interfaceName: string, ports: seq<Port>)

  datatype Outcome<+T> = Done(result: T) | Failure(error: IoError) | Crashed

  /** The answer of `ip link show` for a record's host interface. */
  datatype Probe = Shown | Missing | Unanswered

  function InterfaceOf(request: AddRequest): string {
    if request.interfaceName == "" then "eth0" else request.interfaceName
  }

  predicate SameSettings(r: Record, request: AddRequest) {
    r.interfaceName == InterfaceOf(request) && r.vlan == request.vlan && r.ports == request.ports
  }

  function NewRecord(request: AddRequest, node: Byte, ip: Ip): Record
    requires request.vlan < 256
  {
    Record(InterfaceOf(request), Some(ip), Gateway(request.vlan, node), request.vlan, request.ports)
  }

  /** `d` once the request holds `ip`. */
  function Added(d: Disk, node: Byte, request: AddRequest, ip: Ip): Disk
    requires request.vlan < 256
  {
    Disk(d.pools[request.vlan := PoolOf(d.pools, request.vlan) + {ip}],
         d.records[request.key := NewRecord(request, node, ip)])
  }

  /** What the request starts from when its old record's interface is gone. */
  function Base(d: Disk, node: Byte, key: RecordKey): Disk {
    if key in d.records then Freed(d, node, key) else d
  }

  /** None of the request's host ports is used by a record. */
  ghost predicate PortsFree(records: Records, ports: seq<Port>) {
    forall k, q :: k in records && q in PortKeys(ports) ==> q !in PortKeys(records[k].ports)
  }

  lemma AddedKeeps(d: Disk, node: Byte, request: AddRequest, ip: Ip)
    requires request.vlan < 256 && request.key !in d.records
    requires Safe(d.records) && Accounted(d, node) && PortsFree(d.records, request.ports)
    requires LeastFree(PoolOf(d.pools, request.vlan), request.vlan, node, ip)
    ensures Safe(Added(d, node, request, ip).records) && Accounted(Added(d, node, request, ip), node)
  {
  }

  /** Add then delete gives back the records and every pool's addresses. */
  lemma AddDeleteRoundTrip(d: Disk, node: Byte, request: AddRequest, ip: Ip)
    requires request.vlan < 256 && request.key !in d.records
    requires LeastFree(PoolOf(d.pools, request.vlan), request.vlan, node, ip)
    ensures var back := Freed(Added(d, node, request, ip), node, request.key);
            back.records == d.records && SamePools(back.pools, d.pools)
  {
  }

  /** Why a write must not fail short of a crash: an address given back while its
      record file survives is handed out again, to a second record. */
  lemma SurvivingRecordWouldClash(d: Disk, node: Byte, key: RecordKey, request: AddRequest)
    requires key in d.records && Pooled(d.records[key], node) && request.key !in d.records
    requires request.vlan == d.records[key].vlan
    requires forall lower: Ip :: InPool(request.vlan, node, lower) && lower < d.records[key].address.value ==>
               lower in PoolOf(d.pools, request.vlan)
    ensures var kept, ip := Disk(Freed(d, node, key).pools, d.records), d.records[key].address.value;
            && !Accounted(kept, node)
            && LeastFree(PoolOf(kept.pools, request.vlan), request.vlan, node, ip)
            && !UniqueAddresses(Added(kept, node, request, ip).records)
  {
    var ip := d.records[key].address.value;
    var after := Added(Disk(Freed(d, node, key).pools, d.records), node, request, ip).records;
    assert after[key].address == after[request.key].address == Some(ip);
  }

  function DiskOf(pools: IpPoolDirectory, state: StateStore): Disk
    reads pools, state
  {
    Disk(pools.pools, state.records)
  }

  /** `release_record_ip`. */
  method ReleaseRecordIp(pools: IpPoolDirectory, record: Record) returns (r: Result<(), IoError>)
    requires pools.Valid()
    modifies pools
    ensures pools.Valid()
    ensures r.Err? <==> record.address.None?
    ensures pools.pools
            == if Pooled(record, pools.node)
               then old(pools.pools)[record.vlan := PoolOf(old(pools.pools), record.vlan) - {record.address.value}]
               else old(pools.pools)
  {
    if record.address.None? {
      return Err(InvalidData);
    }
    var released := pools.Release(record.vlan, record.address.value);
    match released {
      case Ok(_) => return Ok(());
      case Err(InvalidInput) => return Ok(());
      case Err(e) => return Err(e);
    }
  }

  /** The checks before any effect on a fresh address: the host ports. */
  method AnyPortUsed(state: StateStore, ports: seq<Port>) returns (used: bool)
    ensures used <==> !PortsFree(state.records, ports)
  {
    for i := 0 to |ports|
      invariant forall j, k :: 0 <= j < i && k in state.records ==> KeyOf(ports[j]) !in PortKeys(state.records[k].ports)
    {
      var taken := state.PortIsUsed(ports[i].protocol, ports[i].external);
      if taken {
        assert ports[i] in ports && KeyOf(ports[i]) in PortKeys(ports);
        return true;
      }
    }
    return false;
  }

  /** The stale-record branch of the add: the record's interface is gone. */
  method DropStaleRecord(key: RecordKey, pools: IpPoolDirectory, state: StateStore) returns (o: Outcome<()>)
    requires pools.Valid() && key in state.records
    modifies pools, state
    ensures pools.Valid()
    ensures o.Done? ==> DiskOf(pools, state) == Freed(old(DiskOf(pools, state)), pools.node, key)
    ensures o.Failure? ==> DiskOf(pools, state) == old(DiskOf(pools, state))
    ensures o.Crashed? ==> state.records == old(state.records) || state.records == old(state.records) - {key}
  {
    var record := state.records[key];
    var rulesDeleted: bool := *;
    if !rulesDeleted {
      return Failure(CommandFailed);
    }
    var released := ReleaseRecordIp(pools, record);
    if released.Err? {
      return Failure(released.error);
    }
    var crash: bool := *;
    if crash {
      return Crashed;
    }
    var _ := state.Delete(key);
    crash := *;
    return if crash then Crashed else Done(());
  }

  /** Network setup, port forwarding and saving the record, for an address just
      allocated; any failure gives the address back. */
  method AttachAt(request: AddRequest, ip: Ip, pools: IpPoolDirectory, state: StateStore) returns (o: Outcome<Record>)
    requires pools.Valid() && request.vlan < 256 && request.key !in state.records
    requires InPool(request.vlan, pools.node, ip)
    modifies pools, state
    ensures pools.Valid()
    ensures state.records == old(state.records)
            || state.records == old(state.records)[request.key := NewRecord(request, pools.node, ip)]
    ensures o.Done? ==>
              && o.result == NewRecord(request, pools.node, ip)
              && pools.pools == old(pools.pools)
              && state.records == old(state.records)[request.key := o.result]
    ensures o.Failure? ==>
              && pools.pools == old(pools.pools)[request.vlan := PoolOf(old(pools.pools), request.vlan) - {ip}]
              && state.records == old(state.records)
  {
    var linked: bool, forwarded: bool := *, *;
    var record := NewRecord(request, pools.node, ip);
    var saved := false;
    if linked && forwarded {
      saved := state.Save(request.key, record);
    }
    var crash: bool := *;
    if crash {
      return Crashed;
    }
    if saved {
      return Done(record);
    }
    var _ := pools.Release(request.vlan, ip);
    crash := *;
    return if crash then Crashed else Failure(CommandFailed);
  }

  /** Allocating an address and giving it back leaves the pools as they were. */
  lemma GiveBack(pools: Pools, vlan: nat, ip: Ip)
    requires ip !in PoolOf(pools, vlan)
    ensures var with := pools[vlan := PoolOf(pools, vlan) + {ip}];
            SamePools(with[vlan := PoolOf(with, vlan) - {ip}], pools)
  {
  }

  /** From the port check to the saved record. */
  method AttachFresh(request: AddRequest, pools: IpPoolDirectory, state: StateStore) returns (o: Outcome<Record>)
    requires pools.Valid() && 1 <= request.vlan < 256 && request.key !in state.records
    requires Safe(state.records) && Accounted(DiskOf(pools, state), pools.node)
    modifies pools, state
    ensures pools.Valid() && Safe(state.records)
    ensures !o.Crashed? ==> Accounted(DiskOf(pools, state), pools.node)
    ensures o.Done? ==> exists ip: Ip ::
              && LeastFree(PoolOf(old(pools.pools), request.vlan), request.vlan, pools.node, ip)
              && DiskOf(pools, state) == Added(old(DiskOf(pools, state)), pools.node, request, ip)
              && o.result == NewRecord(request, pools.node, ip)
    ensures o.Done? ==> PortsFree(old(state.records), request.ports)
    ensures !PortsFree(old(state.records), request.ports) ==>
              o.Failure? && DiskOf(pools, state) == old(DiskOf(pools, state))
    ensures o.Failure? ==> state.records == old(state.records) && SamePools(pools.pools, old(pools.pools))
    ensures OthersSame(state.records, old(state.records), request.key)
  {
    var used := AnyPortUsed(state, request.ports);
    if used {
      return Failure(InvalidInput);
    }
    var networkReady: bool := *;
    if !networkReady {
      return Failure(CommandFailed);
    }
    ghost var before := DiskOf(pools, state);
    var allocation := pools.Allocate(request.vlan);
    if allocation.Err? {
      return Failure(allocation.error);
    }
    var ip := allocation.value;
    AddedKeeps(before, pools.node, request, ip);
    GiveBack(before.pools, request.vlan, ip);
    var crash: bool := *;
    if crash {
      return Crashed;
    }
    o := AttachAt(request, ip, pools, state);
    assert o.Done? ==> DiskOf(pools, state) == Added(before, pools.node, request, ip);
  }

  /** `probe` is what `ip link show` answers for an existing record's interface. */
  method AddWorkloadNetwork(request: AddRequest, probe: Probe, pools: IpPoolDirectory, state: StateStore)
    returns (o: Outcome<Record>)
    requires pools.Valid() && Safe(state.records) && Accounted(DiskOf(pools, state), pools.node)
    modifies pools, state
    ensures pools.Valid()
    // Whatever happens, a crash included, addresses and host ports stay unique.
    ensures Safe(state.records)
    ensures OthersSame(state.records, old(state.records), request.key)
    // Unless it crashed, every address in use is marked allocated.
    ensures !o.Crashed? ==> Accounted(DiskOf(pools, state), pools.node)
    // Success is either the record already there or a least free address.
    ensures o.Done? ==> SameSettings(o.result, request) && GoodMappings(request.ports) && 1 <= request.vlan < 256
    ensures o.Done? ==>
              if request.key in old(state.records) && probe == Shown
              then o.result == old(state.records)[request.key]
              else exists ip: Ip ::
                     var base := Base(old(DiskOf(pools, state)), pools.node, request.key);
                     && LeastFree(PoolOf(base.pools, request.vlan), request.vlan, pools.node, ip)
                     && PortsFree(base.records, request.ports)
                     && DiskOf(pools, state) == Added(base, pools.node, request, ip)
                     && o.result == NewRecord(request, pools.node, ip)
    // What is answered is what was asked for, field by field.
    ensures o.Done? ==>
              && o.result.vlan == request.vlan && o.result.ports == request.ports
              && o.result.interfaceName == (if request.interfaceName == "" then "eth0" else request.interfaceName)
              && request.key in state.records && state.records[request.key] == o.result
    // A record with another interface, VLAN or other ports refuses the add.
    ensures request.key in old(state.records)
            && (old(state.records)[request.key].vlan != request.vlan
                || old(state.records)[request.key].ports != request.ports
                || old(state.records)[request.key].interfaceName
                   != (if request.interfaceName == "" then "eth0" else request.interfaceName)) ==>
              o.Failure? && DiskOf(pools, state) == old(DiskOf(pools, state))
    // A new record holds an address of its VLAN's pool and that pool's gateway.
    ensures o.Done? && (request.key !in old(state.records) || probe == Missing) ==>
              && o.result.address.Some? && InPool(request.vlan, pools.node, o.result.address.value)
              && o.result.address.value in PoolOf(pools.pools, request.vlan)
              && o.result.gateway == Address(10, request.vlan, pools.node, 1)
              && forall lower: Ip :: Address(10, request.vlan, pools.node, 2) <= lower < o.result.address.value ==>
                   lower in PoolOf(pools.pools, request.vlan)
    // Repeating an add whose link is there changes nothing, nor does an add with
    // other settings.
    ensures request.key in old(state.records)
            && (probe != Missing || !SameSettings(old(state.records)[request.key], request)) ==>
              !o.Crashed? && DiskOf(pools, state) == old(DiskOf(pools, state))
    // A bad VLAN, bad mappings or a host port in use is refused outright.
    ensures (request.vlan < 1 || request.vlan > 255 || !GoodMappings(request.ports)
             || (request.key !in old(state.records) && !PortsFree(old(state.records), request.ports))) ==>
              o.Failure? && DiskOf(pools, state) == old(DiskOf(pools, state))
    // Failure leaves everything as it was, whichever stage failed, except that a
    // record whose interface was gone may have been dropped.
    ensures o.Failure? ==>
              || (state.records == old(state.records) && SamePools(pools.pools, old(pools.pools)))
              || (var base := Base(old(DiskOf(pools, state)), pools.node, request.key);
                  request.key in old(state.records)
                  && state.records == base.records && SamePools(pools.pools, base.pools))
  {
    var wellFormed: bool := *;
    if !wellFormed || request.vlan < 1 || request.vlan > 255 {
      return Failure(InvalidInput);
    }
    var valid := ValidateMappings(request.ports);
    if valid.Err? {
      return Failure(InvalidInput);
    }
    ghost var before := DiskOf(pools, state);
    if request.key in state.records {
      var record := state.records[request.key];
      if !SameSettings(record, request) {
        return Failure(InvalidInput);
      }
      match probe {
        case Unanswered => return Failure(CommandFailed);
        case Shown =>
          var forwarded: bool := *;
          return if forwarded then Done(record) else Failure(CommandFailed);
        case Missing =>
          FreedKeeps(before, pools.node, request.key);
          var dropped := DropStaleRecord(request.key, pools, state);
          if dropped.Crashed? {
            return Crashed;
          }
          if dropped.Failure? {
            return Failure(dropped.error);
          }
      }
    }
    ghost var base := DiskOf(pools, state);
    assert base == Base(before, pools.node, request.key);
    o := AttachFresh(request, pools, state);
  }

  method DeleteWorkloadNetwork(key: RecordKey, pools: IpPoolDirectory, state: StateStore) returns (o: Outcome<bool>)
    requires pools.Valid() && Safe(state.records) && Accounted(DiskOf(pools, state), pools.node)
    modifies pools, state
    ensures pools.Valid() && Safe(state.records)
    ensures !o.Crashed? ==> Accounted(DiskOf(pools, state), pools.node)
    ensures o.Done? ==> o.result && DiskOf(pools, state) == Base(old(DiskOf(pools, state)), pools.node, key)
    ensures o.Done? ==> state.records == old(state.records) - {key}
    ensures o.Done? && key !in old(state.records) ==> pools.pools == old(pools.pools)
    ensures o.Failure? ==> DiskOf(pools, state) == old(DiskOf(pools, state))
    ensures OthersSame(state.records, old(state.records), key)
  {
    var wellFormed: bool := *;
    if !wellFormed {
      return Failure(InvalidInput);
    }
    if key !in state.records {
      return Done(true);
    }
    FreedKeeps(DiskOf(pools, state), pools.node, key);
    var probe: Probe, removed: bool := *, *;
    if probe == Unanswered || (probe == Shown && !removed) {
      return Failure(CommandFailed);
    }
    var dropped := DropStaleRecord(key, pools, state);
    match dropped {
      case Done(_) => return Done(true);
      case Failure(e) => return Failure(e);
      case Crashed => return Crashed;
    }
  }
}
