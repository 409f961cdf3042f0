/**
 * The port-spec compiler of `App.CreateSandbox` (modal-go/app.go:103-129):
 * three port lists become one ordered sequence of PortSpec messages.
 */
module Ports {
  import opened Wrappers
  import opened Proto
  import opened Units

  /** Which of the three SandboxOptions lists a port came from. */
  datatype PortGroup = Encrypted | H2 | Unencrypted

  /** The PortSpec built for one port of group `g`. */
  function PortSpecFor(port: int, g: PortGroup): (spec: PortSpec)
    ensures spec.port == ToUint32(port)
    ensures spec.unencrypted <==> g == Unencrypted
    ensures spec.tunnelType == (if g == H2 then Some(TunnelTypeH2) else None)
    ensures GroupOf(spec) == g
  {
    match g
    case Encrypted => PortSpec(ToUint32(port), false, None)
    case H2 => PortSpec(ToUint32(port), false, Some(TunnelTypeH2))
    case Unencrypted => PortSpec(ToUint32(port), true, None)
  }

  /** Reads back from its flags which list a PortSpec describes. */
  function GroupOf(spec: PortSpec): PortGroup {
    if spec.unencrypted then Unencrypted
    else if spec.tunnelType == Some(TunnelTypeH2) then H2
    else Encrypted
  }

  /** The specs one of the three loops appends, in the order of its list. */
  function GroupSpecs(ports: seq<int>, g: PortGroup): (specs: seq<PortSpec>)
    ensures |specs| == |ports|
    decreases |ports|
  {
    if ports == [] then []
    else GroupSpecs(ports[..|ports| - 1], g) + [PortSpecFor(ports[|ports| - 1], g)]
  }

  /** One loop's output holds, at each index, the spec of the port at that index. */
  lemma {:induction false} GroupSpecsAt(ports: seq<int>, g: PortGroup, i: nat)
    requires i < |ports|
    ensures GroupSpecs(ports, g)[i] == PortSpecFor(ports[i], g)
    decreases |ports|
  {
    var n := |ports| - 1;
    if i < n {
      GroupSpecsAt(ports[..n], g, i);
    }
  }

  /** The port sequence the three loops build, one group after the other. */
  function OpenPortSpecs(encrypted: seq<int>, h2: seq<int>, unencrypted: seq<int>): seq<PortSpec> {
    GroupSpecs(encrypted, Encrypted) + GroupSpecs(h2, H2) + GroupSpecs(unencrypted, Unencrypted)
  }

  /** The three `for ... append` loops of app.go:103-122. */
  method CompileOpenPorts(encrypted: seq<int>, h2: seq<int>, unencrypted: seq<int>)
    returns (openPorts: seq<PortSpec>)
    ensures openPorts == OpenPortSpecs(encrypted, h2, unencrypted)
  {
    openPorts := [];
    for i := 0 to |encrypted|
      invariant openPorts == GroupSpecs(encrypted[..i], Encrypted)
    {
      assert encrypted[..i + 1][..i] == encrypted[..i];
      openPorts := openPorts + [PortSpec(ToUint32(encrypted[i]), false, None)];
    }
    assert encrypted[..|encrypted|] == encrypted;
    ghost var done := openPorts;
    for i := 0 to |h2|
      invariant openPorts == done + GroupSpecs(h2[..i], H2)
    {
      assert h2[..i + 1][..i] == h2[..i];
      openPorts := openPorts + [PortSpec(ToUint32(h2[i]), false, Some(TunnelTypeH2))];
    }
    assert h2[..|h2|] == h2;
    done := openPorts;
    for i := 0 to |unencrypted|
      invariant openPorts == done + GroupSpecs(unencrypted[..i], Unencrypted)
    {
      assert unencrypted[..i + 1][..i] == unencrypted[..i];
      openPorts := openPorts + [PortSpec(ToUint32(unencrypted[i]), true, None)];
    }
    assert unencrypted[..|unencrypted|] == unencrypted;
  }

  /**
   * All encrypted ports, then all H2 ports, then all unencrypted ports,
   * each in its input order and with its group's flags.
   */
  lemma OpenPortSpecsLayout(encrypted: seq<int>, h2: seq<int>, unencrypted: seq<int>)
    ensures var specs := OpenPortSpecs(encrypted, h2, unencrypted);
      && |specs| == |encrypted| + |h2| + |unencrypted|
      && (forall i :: 0 <= i < |encrypted| ==>
            specs[i] == PortSpec(ToUint32(encrypted[i]), false, None))
      && (forall i :: 0 <= i < |h2| ==>
            specs[|encrypted| + i] == PortSpec(ToUint32(h2[i]), false, Some(TunnelTypeH2)))
      && (forall i :: 0 <= i < |unencrypted| ==>
            specs[|encrypted| + |h2| + i] == PortSpec(ToUint32(unencrypted[i]), true, None))
  {
    forall i | 0 <= i < |encrypted| ensures GroupSpecs(encrypted, Encrypted)[i] == PortSpecFor(encrypted[i], Encrypted) {
      GroupSpecsAt(encrypted, Encrypted, i);
    }
    forall i | 0 <= i < |h2| ensures GroupSpecs(h2, H2)[i] == PortSpecFor(h2[i], H2) {
      GroupSpecsAt(h2, H2, i);
    }
    forall i | 0 <= i < |unencrypted| ensures GroupSpecs(unencrypted, Unencrypted)[i] == PortSpecFor(unencrypted[i], Unencrypted) {
      GroupSpecsAt(unencrypted, Unencrypted, i);
    }
  }

  /** No compiled spec is both unencrypted and tunnel-typed. */
  lemma NoUnencryptedTunnel(encrypted: seq<int>, h2: seq<int>, unencrypted: seq<int>)
    ensures forall spec :: spec in OpenPortSpecs(encrypted, h2, unencrypted) ==>
      !(spec.unencrypted && spec.tunnelType.Some?)
  {
    forall g: PortGroup, ports: seq<int>, spec | ports in [encrypted, h2, unencrypted] && spec in GroupSpecs(ports, g)
      ensures !(spec.unencrypted && spec.tunnelType.Some?)
    {
      var i :| 0 <= i < |GroupSpecs(ports, g)| && GroupSpecs(ports, g)[i] == spec;
      GroupSpecsAt(ports, g, i);
    }
  }

  /** The ports of `specs` whose flags say group `g`, in sequence order. */
  function Select(specs: seq<PortSpec>, g: PortGroup): (ports: seq<Uint32>)
    ensures |ports| <= |specs|
    decreases |specs|
  {
    if specs == [] then []
    else
      var last := specs[|specs| - 1];
      Select(specs[..|specs| - 1], g) + (if GroupOf(last) == g then [last.port] else [])
  }

  /** A port list after `uint32` conversion of each element. */
  function Ports32(ports: seq<int>): seq<Uint32>
    decreases |ports|
  {
    if ports == [] then [] else Ports32(ports[..|ports| - 1]) + [ToUint32(ports[|ports| - 1])]
  }

  lemma {:induction false} SelectAppend(a: seq<PortSpec>, b: seq<PortSpec>, g: PortGroup)
    ensures Select(a + b, g) == Select(a, g) + Select(b, g)
    decreases |b|
  {
    if b == [] {
      assert a + b == a;
    } else {
      assert (a + b)[..|a + b| - 1] == a + b[..|b| - 1];
      SelectAppend(a, b[..|b| - 1], g);
    }
  }

  lemma {:induction false} SelectGroupSpecs(ports: seq<int>, g: PortGroup, g': PortGroup)
    ensures Select(GroupSpecs(ports, g), g') == if g == g' then Ports32(ports) else []
    decreases |ports|
  {
    if ports != [] {
      var n := |ports| - 1;
      SelectGroupSpecs(ports[..n], g, g');
      assert GroupSpecs(ports, g)[..n] == GroupSpecs(ports[..n], g);
    }
  }

  /**
   * Segregation: filtering the compiled sequence by the flags of each group
   * gives back exactly that group's input list, in order.
   */
  lemma OpenPortSpecsSegregated(encrypted: seq<int>, h2: seq<int>, unencrypted: seq<int>)
    ensures Select(OpenPortSpecs(encrypted, h2, unencrypted), Encrypted) == Ports32(encrypted)
    ensures Select(OpenPortSpecs(encrypted, h2, unencrypted), H2) == Ports32(h2)
    ensures Select(OpenPortSpecs(encrypted, h2, unencrypted), Unencrypted) == Ports32(unencrypted)
  {
    SelectOpenPortSpecs(encrypted, h2, unencrypted, Encrypted);
    SelectOpenPortSpecs(encrypted, h2, unencrypted, H2);
    SelectOpenPortSpecs(encrypted, h2, unencrypted, Unencrypted);
  }

  lemma SelectOpenPortSpecs(encrypted: seq<int>, h2: seq<int>, unencrypted: seq<int>, g: PortGroup)
    ensures Select(OpenPortSpecs(encrypted, h2, unencrypted), g) ==
      match g
      case Encrypted => Ports32(encrypted)
      case H2 => Ports32(h2)
      case Unencrypted => Ports32(unencrypted)
  {
    var e, h, u := GroupSpecs(encrypted, Encrypted), GroupSpecs(h2, H2), GroupSpecs(unencrypted, Unencrypted);
    SelectOfThree(e, h, u, g);
    SelectGroupSpecs(encrypted, Encrypted, g);
    SelectGroupSpecs(h2, H2, g);
    SelectGroupSpecs(unencrypted, Unencrypted, g);
    match g
    case Encrypted =>
      assert Select(h, g) == [] && Select(u, g) == [];
      assert Select(e, g) + [] + [] == Ports32(encrypted);
    case H2 =>
      assert Select(e, g) == [] && Select(u, g) == [];
      assert [] + Select(h, g) + [] == Ports32(h2);
    case Unencrypted =>
      assert Select(e, g) == [] && Select(h, g) == [];
      assert [] + [] + Select(u, g) == Ports32(unencrypted);
  }

  lemma SelectOfThree(e: seq<PortSpec>, h: seq<PortSpec>, u: seq<PortSpec>, g: PortGroup)
    ensures Select(e + h + u, g) == Select(e, g) + Select(h, g) + Select(u, g)
  {
    SelectAppend(e + h, u, g);
    SelectAppend(e, h, g);
  }

  /** The merged sequence is empty exactly when all three lists are. */
  lemma OpenPortSpecsEmpty(encrypted: seq<int>, h2: seq<int>, unencrypted: seq<int>)
    ensures OpenPortSpecs(encrypted, h2, unencrypted) == [] <==>
      encrypted == [] && h2 == [] && unencrypted == []
  {
    OpenPortSpecsLayout(encrypted, h2, unencrypted);
  }
}
