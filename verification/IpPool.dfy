/** The per-VLAN address pools (cni/src/ip_pool.rs). A pool directory holds the set
    of allocated addresses; a missing directory reads as the empty set. Files that
    cannot be read, and writes that fail short of a crash, are not modelled. */
module IpPool {
  import opened Shared
  import opened Addressing

  datatype IoError = InvalidInput | InvalidData | Exhausted | CommandFailed

  type Pools = map<nat, set<Ip>>

  function PoolOf(pools: Pools, vlan: nat): set<Ip> {
    if vlan in pools then pools[vlan] else {}
  }

  /** The same addresses are allocated in both, whatever directories exist. */
  ghost predicate SamePools(p: Pools, q: Pools) {
    forall v :: PoolOf(p, v) == PoolOf(q, v)
  }

  /** `ip` is the least address of its pool that is not taken. */
  ghost predicate LeastFree(taken: set<Ip>, vlan: Byte, node: Byte, ip: Ip) {
    && InPool(vlan, node, ip) && ip !in taken
    && forall lower: Ip :: InPool(vlan, node, lower) && lower < ip ==> lower in taken
  }

  lemma LeastFreeUnique(taken: set<Ip>, vlan: Byte, node: Byte, a: Ip, b: Ip)
    requires LeastFree(taken, vlan, node, a) && LeastFree(taken, vlan, node, b)
    ensures a == b
  {
  }

  class IpPoolDirectory {
    const node: Byte
    var pools: Pools

    ghost predicate Valid()
      reads this
    {
      forall v :: v in pools ==> v < 256
    }

    constructor (node: Byte)
      ensures this.node == node && pools == map[] && Valid()
    {
      this.node := node;
      pools := map[];
    }

    /** The least free address; an error when the VLAN has no pool or all 253 of
        its addresses are taken. */
    method Allocate(vlan: nat) returns (r: Result<Ip, IoError>)
      requires Valid()
      modifies this
      ensures Valid()
      ensures r == Err(InvalidInput) <==> vlan >= 256
      ensures vlan >= 256 ==> pools == old(pools)
      ensures r.Ok? ==> LeastFree(PoolOf(old(pools), vlan), vlan, node, r.value)
      ensures r.Ok? ==> pools == old(pools)[vlan := PoolOf(old(pools), vlan) + {r.value}]
      ensures r.Ok? ==>
                var taken: set<Ip> := if vlan in old(pools) then old(pools)[vlan] else {};
                && Address(10, vlan, node, 2) <= r.value <= Address(10, vlan, node, 254)
                && r.value !in taken
                && (forall lower: Ip :: Address(10, vlan, node, 2) <= lower < r.value ==> lower in taken)
      ensures r.Err? && vlan < 256 ==>
                r == Err(Exhausted) && pools == old(pools)[vlan := PoolOf(old(pools), vlan)]
      ensures r == Err(Exhausted) <==>
                vlan < 256 && |set ip | ip in PoolOf(old(pools), vlan) && InPool(vlan, node, ip)| == 253
    {
      if vlan >= 256 {
        return Err(InvalidInput);
      }
      var taken: set<Ip> := PoolOf(pools, vlan);
      AllTakenIff253(vlan, node, taken);
      pools := pools[vlan := taken];
      var ip: Ip := First(vlan, node);
      while ip <= Last(vlan, node)
        invariant First(vlan, node) <= ip <= Last(vlan, node) + 1
        invariant forall lower: Ip :: InPool(vlan, node, lower) && lower < ip ==> lower in taken
        invariant pools == old(pools)[vlan := taken]
      {
        if ip !in taken {
          pools := pools[vlan := taken + {ip}];
          assert InPool(vlan, node, ip);
          return Ok(ip);
        }
        ip := ip + 1;
      }
      return Err(Exhausted);
    }

    method Release(vlan: nat, ip: Ip) returns (r: Result<bool, IoError>)
      requires Valid()
      modifies this
      ensures Valid()
      ensures r.Err? <==> vlan >= 256 || !InPool(vlan, node, ip)
      ensures r.Err? ==> r == Err(InvalidInput) && pools == old(pools)
      ensures r.Ok? ==> r.value == (ip in PoolOf(old(pools), vlan))
      ensures r.Ok? ==> pools == old(pools)[vlan := PoolOf(old(pools), vlan) - {ip}]
    {
      if vlan >= 256 || ip < First(vlan, node) || ip > Last(vlan, node) {
        return Err(InvalidInput);
      }
      r := Ok(ip in PoolOf(pools, vlan));
      pools := pools[vlan := PoolOf(pools, vlan) - {ip}];
    }

    method Reset(vlan: nat, ips: set<Ip>) returns (r: Result<(), IoError>)
      requires Valid()
      modifies this
      ensures Valid()
      ensures r == if vlan < 256 then Ok(()) else Err(InvalidInput)
      ensures pools == if vlan < 256 then old(pools)[vlan := ips] else old(pools)
    {
      if vlan >= 256 {
        return Err(InvalidInput);
      }
      pools := pools[vlan := ips];
      return Ok(());
    }
  }
}
