/** Addresses of one node's tenant networks (cni/src/addressing.rs) as 32-bit
    numbers, and what being in a pool says about an address. */
module Addressing {
  import opened Shared

  type Byte = b: nat | b < 256

  type Ip = nat

  function Address(a: Byte, b: Byte, c: Byte, d: Byte): Ip {
    0x100_0000 * a + 0x1_0000 * b + 0x100 * c + d
  }

  function Gateway(vlan: Byte, node: Byte): Ip {
    Address(10, vlan, node, 1)
  }

  const FIRST_HOST: Byte := 2
  const LAST_HOST: Byte := 254

  function First(vlan: Byte, node: Byte): Ip {
    Address(10, vlan, node, FIRST_HOST)
  }

  function Last(vlan: Byte, node: Byte): Ip {
    Address(10, vlan, node, LAST_HOST)
  }

  predicate InPool(vlan: Byte, node: Byte, ip: Ip) {
    First(vlan, node) <= ip <= Last(vlan, node)
  }

  /** An address determines the pool it lies in, and no gateway lies in any pool. */
  lemma PoolsApart(v: Byte, n: Byte, w: Byte, m: Byte, ip: Ip)
    requires InPool(v, n, ip)
    ensures ip < 0x1_0000_0000
    ensures InPool(w, m, ip) ==> v == w && n == m
    ensures ip != Gateway(w, m)
  {
  }

  /** Byte `i` of an address, the last one first. */
  function ByteAt(ip: Ip, i: nat): Byte {
    if i == 0 then ip % 256 else ByteAt(ip / 256, i - 1)
  }

  lemma LastByte(rest: nat, last: Byte)
    ensures (256 * rest + last) % 256 == last && (256 * rest + last) / 256 == rest
  {
  }

  lemma BytesOf(a: Byte, b: Byte, c: Byte, d: Byte)
    ensures var ip := Address(a, b, c, d);
            ByteAt(ip, 3) == a && ByteAt(ip, 2) == b && ByteAt(ip, 1) == c && ByteAt(ip, 0) == d
  {
    var abc, ab := 0x1_0000 * a + 0x100 * b + c, 0x100 * a + b;
    LastByte(abc, d);
    LastByte(ab, c);
    LastByte(a, b);
    assert Address(a, b, c, d) == 256 * abc + d && abc == 256 * ab + c && ab == 256 * a + b;
    assert ByteAt(Address(a, b, c, d), 1) == ByteAt(abc, 0);
    assert ByteAt(Address(a, b, c, d), 2) == ByteAt(abc, 1) == ByteAt(ab, 0);
    assert ByteAt(Address(a, b, c, d), 3) == ByteAt(abc, 2) == ByteAt(ab, 1) == ByteAt(a, 0);
  }

  /** The addresses of a pool and its gateway, byte by byte: 10, the VLAN, the node,
      and 1 for the gateway or anything from 2 to 254. */
  lemma AddressesMean(vlan: Byte, node: Byte, ip: Ip)
    ensures var gateway := Gateway(vlan, node);
            ByteAt(gateway, 3) == 10 && ByteAt(gateway, 2) == vlan && ByteAt(gateway, 1) == node
            && ByteAt(gateway, 0) == 1
    ensures InPool(vlan, node, ip) ==>
              ByteAt(ip, 3) == 10 && ByteAt(ip, 2) == vlan && ByteAt(ip, 1) == node && 2 <= ByteAt(ip, 0) <= 254
    ensures forall last: Byte :: 2 <= last <= 254 ==> InPool(vlan, node, Address(10, vlan, node, last))
  {
    BytesOf(10, vlan, node, 1);
    if InPool(vlan, node, ip) {
      BytesOf(10, vlan, node, ip - Address(10, vlan, node, 0));
    }
  }

  /** A pool has 253 addresses: all of them are taken exactly when 253 are. */
  lemma AllTakenIff253(vlan: Byte, node: Byte, taken: set<Ip>)
    ensures (forall ip :: InPool(vlan, node, ip) ==> ip in taken)
            <==> |set ip | ip in taken && InPool(vlan, node, ip)| == 253
  {
    var whole := Interval(First(vlan, node), Last(vlan, node) + 1);
    var inside := set ip: int | ip in taken && InPool(vlan, node, ip);
    assert inside == (set ip | ip in taken && InPool(vlan, node, ip));
    if forall ip :: InPool(vlan, node, ip) ==> ip in taken {
      assert inside == whole;
    }
    if |inside| == 253 {
      SubsetOfSameSize(inside, whole);
      forall ip | InPool(vlan, node, ip) ensures ip in taken {
        assert ip in whole;
      }
    }
  }
}
