/** The stored workload records (cni/src/state.rs) and the invariants that tie them
    to the address pools and the host's ports. */
module CniState {
  import opened Shared
  import opened Addressing
  import opened IpPool

  /** (workload, instance, network); its file name hashes these injectively. */
  datatype RecordKey = RecordKey(workload: string, instance: string, network: string)

  /** No address: the stored text does not parse as one. */
  datatype Record = Record(interfaceName: string, address: Option<Ip>, gateway: Ip, vlan: nat, ports: seq<Port>)

  type Records = map<RecordKey, Record>

  datatype Disk = Disk(pools: Pools, records: Records)

  /** No two records with the same VLAN hold the same address. */
  ghost predicate UniqueAddresses(records: Records) {
    forall j, k :: j in records && k in records && j != k && records[j].vlan == records[k].vlan ==>
                     records[j].address.Some? ==> records[j].address != records[k].address
  }

  /** No two records share a (protocol, external port). */
  ghost predicate UniquePorts(records: Records) {
    forall j, k, q :: j in records && k in records && j != k && q in PortKeys(records[j].ports) ==>
                        q !in PortKeys(records[k].ports)
  }

  /** At most the record of `key` differs. */
  ghost predicate OthersSame(r: Records, s: Records, key: RecordKey) {
    forall k :: k != key ==> (k in r <==> k in s) && (k in r ==> r[k] == s[k])
  }

  /** What every crash leaves intact. */
  ghost predicate Safe(records: Records) {
    UniqueAddresses(records) && UniquePorts(records)
  }

  /** The record's address is one its pool hands out. */
  predicate Pooled(r: Record, node: Byte) {
    r.address.Some? && r.vlan < 256 && InPool(r.vlan, node, r.address.value)
  }

  /** Every address in use is marked allocated. */
  ghost predicate Accounted(d: Disk, node: Byte) {
    forall k :: k in d.records && Pooled(d.records[k], node) ==>
                  d.records[k].address.value in PoolOf(d.pools, d.records[k].vlan)
  }

  /** `d` without the record of `key` and with its address given back. */
  function Freed(d: Disk, node: Byte, key: RecordKey): Disk
    requires key in d.records
  {
    var r := d.records[key];
    Disk(if Pooled(r, node) then d.pools[r.vlan := PoolOf(d.pools, r.vlan) - {r.address.value}] else d.pools,
         d.records - {key})
  }

  /** What the invariants say, spelled out: two records never hold the same address of a
      VLAN, nor the same protocol and external port. */
  lemma SafeMeans(records: Records, j: RecordKey, k: RecordKey)
    requires Safe(records) && j in records && k in records && j != k
    ensures records[j].vlan == records[k].vlan && records[j].address.Some? && records[k].address.Some? ==>
              records[j].address.value != records[k].address.value
    ensures forall p, q :: p in records[j].ports && q in records[k].ports ==>
              p.protocol != q.protocol || p.external != q.external
  {
    PortKeysMean(records[j].ports);
    PortKeysMean(records[k].ports);
    forall p, q | p in records[j].ports && q in records[k].ports
      ensures p.protocol != q.protocol || p.external != q.external
    {
      assert PortKey(p.protocol, p.external) in PortKeys(records[j].ports);
      assert PortKey(q.protocol, q.external) in PortKeys(records[k].ports);
    }
  }

  /** Freeing a record takes it alone out, and its address, when the pool of its VLAN
      hands it out, out of that pool alone. */
  lemma FreedMeans(d: Disk, node: Byte, key: RecordKey)
    requires key in d.records
    ensures var f, r := Freed(d, node, key), d.records[key];
            && (forall k :: k in f.records <==> k in d.records && k != key)
            && (forall k :: k in f.records ==> f.records[k] == d.records[k])
            && (forall v :: PoolOf(f.pools, v)
                            == if v == r.vlan && v < 256 && r.address.Some?
                                  && First(v, node) <= r.address.value <= Last(v, node)
                               then (if v in d.pools then d.pools[v] else {}) - {r.address.value}
                               else if v in d.pools then d.pools[v] else {})
  {
  }

  lemma FreedKeeps(d: Disk, node: Byte, key: RecordKey)
    requires key in d.records && Safe(d.records)
    ensures Safe(d.records - {key})
    ensures Accounted(d, node) ==> Accounted(Freed(d, node, key), node)
  {
  }

  /** Uniqueness per VLAN is uniqueness: across all VLANs of all nodes no two
      records whose addresses come from their pools hold the same one, and none
      holds the address of a gateway. */
  lemma AddressesUniqueInCluster(cluster: map<Byte, Records>, n: Byte, j: RecordKey, m: Byte, k: RecordKey)
    requires n in cluster && m in cluster && UniqueAddresses(cluster[n])
    requires j in cluster[n] && Pooled(cluster[n][j], n) && k in cluster[m] && Pooled(cluster[m][k], m)
    ensures (n, j) != (m, k) ==> cluster[n][j].address != cluster[m][k].address
    ensures forall v: Byte, o: Byte :: cluster[n][j].address.value != Gateway(v, o)
  {
    var a, b := cluster[n][j], cluster[m][k];
    PoolsApart(a.vlan, n, b.vlan, m, a.address.value);
    forall v: Byte, o: Byte ensures a.address.value != Gateway(v, o) {
      PoolsApart(a.vlan, n, v, o, a.address.value);
    }
  }

  class StateStore {
    var records: Records

    constructor ()
      ensures records == map[]
    {
      records := map[];
    }

    /** Writing either happens whole or not at all. */
    method Save(key: RecordKey, record: Record) returns (saved: bool)
      modifies this
      ensures records == if saved then old(records)[key := record] else old(records)
    {
      saved := *;
      if saved {
        records := records[key := record];
      }
    }

    method Delete(key: RecordKey) returns (existed: bool)
      modifies this
      ensures records == old(records) - {key} && existed == (key in old(records))
    {
      existed := key in records;
      records := records - {key};
    }

    /** Every record once, in directory order. */
    method List() returns (keys: seq<RecordKey>)
      ensures forall k :: k in keys <==> k in records
      ensures forall i, j :: 0 <= i < j < |keys| ==> keys[i] != keys[j]
    {
      keys := [];
      var left := records.Keys;
      while left != {}
        invariant left <= records.Keys
        invariant forall k :: k in keys <==> k in records && k !in left
        invariant forall i, j :: 0 <= i < j < |keys| ==> keys[i] != keys[j]
        decreases |left|
      {
        var k :| k in left;
        keys := keys + [k];
        left := left - {k};
      }
    }

    method PortIsUsed(protocol: int, external: nat) returns (used: bool)
      ensures used <==> exists k :: k in records && PortKey(protocol, external) in PortKeys(records[k].ports)
      ensures used <==> exists k, port ::
                k in records && port in records[k].ports && port.protocol == protocol && port.external == external
    {
      var keys := List();
      for i := 0 to |keys|
        invariant forall j :: 0 <= j < i ==> PortKey(protocol, external) !in PortKeys(records[keys[j]].ports)
      {
        assert keys[i] in keys;
        var ports := records[keys[i]].ports;
        if exists port :: port in ports && port.protocol == protocol && port.external == external {
          assert PortKey(protocol, external) in PortKeys(ports);
          return true;
        }
        forall port | port in ports ensures KeyOf(port) != PortKey(protocol, external) {
        }
      }
      return false;
    }
  }
}
