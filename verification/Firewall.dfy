/** `validate_mappings` (cni/src/network/firewall.rs). */
module Firewall {
  import opened Shared

  datatype MappingError = BadPort | BadProtocol | DuplicatePort

  predicate GoodPort(p: Port) {
    1 <= p.external <= 65535 && 1 <= p.internal <= 65535
  }

  predicate GoodProtocol(p: Port) {
    p.protocol == TCP || p.protocol == UDP
  }

  /** Position `i` repeats the host port of an earlier mapping. */
  predicate Repeats(mappings: seq<Port>, i: nat)
    requires i < |mappings|
  {
    exists j :: 0 <= j < i && KeyOf(mappings[j]) == KeyOf(mappings[i])
  }

  predicate GoodAt(mappings: seq<Port>, i: nat)
    requires i < |mappings|
  {
    GoodPort(mappings[i]) && GoodProtocol(mappings[i]) && !Repeats(mappings, i)
  }

  predicate GoodMappings(mappings: seq<Port>) {
    forall i :: 0 <= i < |mappings| ==> GoodAt(mappings, i)
  }

  lemma GoodMappingsMean(mappings: seq<Port>)
    ensures GoodMappings(mappings) <==>
              && (forall m :: m in mappings ==>
                    1 <= m.external <= 65535 && 1 <= m.internal <= 65535 && (m.protocol == TCP || m.protocol == UDP))
              && (forall i, j :: 0 <= i < j < |mappings| ==>
                    mappings[i].protocol != mappings[j].protocol || mappings[i].external != mappings[j].external)
  {
    if GoodMappings(mappings) {
      forall i, j | 0 <= i < j < |mappings|
        ensures mappings[i].protocol != mappings[j].protocol || mappings[i].external != mappings[j].external
      {
        assert GoodAt(mappings, j);
      }
      forall m | m in mappings
        ensures 1 <= m.external <= 65535 && 1 <= m.internal <= 65535 && (m.protocol == TCP || m.protocol == UDP)
      {
        var i :| 0 <= i < |mappings| && mappings[i] == m;
        assert GoodAt(mappings, i);
      }
    } else {
      var i :| 0 <= i < |mappings| && !GoodAt(mappings, i);
      assert mappings[i] in mappings;
    }
  }

  /** Accepts exactly the lists with ports in range, known protocols and pairwise
      different host ports; otherwise names the first offence of the first
      offending mapping. */
  method ValidateMappings(mappings: seq<Port>) returns (r: Result<(), MappingError>)
    ensures r.Ok? <==> GoodMappings(mappings)
    ensures r.Ok? <==>
              && (forall m :: m in mappings ==>
                    1 <= m.external <= 65535 && 1 <= m.internal <= 65535 && (m.protocol == TCP || m.protocol == UDP))
              && (forall i, j :: 0 <= i < j < |mappings| ==>
                    mappings[i].protocol != mappings[j].protocol || mappings[i].external != mappings[j].external)
    ensures r.Err? ==> exists i :: 0 <= i < |mappings| && !GoodAt(mappings, i)
                                   && (forall j :: 0 <= j < i ==> GoodAt(mappings, j))
                                   && r.error == if !GoodPort(mappings[i]) then BadPort
                                                 else if !GoodProtocol(mappings[i]) then BadProtocol
                                                 else DuplicatePort
  {
    GoodMappingsMean(mappings);
    var hostPorts: set<PortKey> := {};
    for i := 0 to |mappings|
      invariant forall q :: q in hostPorts <==> exists j :: 0 <= j < i && KeyOf(mappings[j]) == q
      invariant forall j :: 0 <= j < i ==> GoodAt(mappings, j)
    {
      var m := mappings[i];
      if m.external == 0 || m.external > 65535 || m.internal == 0 || m.internal > 65535 {
        assert !GoodAt(mappings, i);
        return Err(BadPort);
      }
      if m.protocol != TCP && m.protocol != UDP {
        assert !GoodAt(mappings, i);
        return Err(BadProtocol);
      }
      if KeyOf(m) in hostPorts {
        assert Repeats(mappings, i) && !GoodAt(mappings, i);
        return Err(DuplicatePort);
      }
      hostPorts := hostPorts + {KeyOf(m)};
      assert !Repeats(mappings, i);
    }
    return Ok(());
  }
}
