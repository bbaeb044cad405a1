/**
 What `create` promises about its output: where each entity's operations sit,
 that setup precedes every circuit operation, which namespaces are created,
 and what each branch of createAdjacency emits.
 */
module Properties {
  import opened Seqs
  import opened Network
  import opened Compiler

  /** Segment i occupies positions 3i .. 3i+2: its namespace, its bridge, the bridge up. */
  lemma SegmentBlock(t: Topology, i: nat)
    requires i < |t.l2Devices|
    ensures 3 * i + 3 <= |Create(t)|
    ensures Create(t)[3 * i .. 3 * i + 3]
         == [CreateNetNS(t.l2Devices[i]), CreateBridge(t.l2Devices[i], "br0"), InterfaceUp(t.l2Devices[i], "br0")]
  {
    FlatMapBlock(t.l2Devices, SegmentOps, 3, i);
    var segments := SegmentPhase(t.l2Devices);
    assert Create(t)[..|segments|] == segments;
  }

  /** Device i occupies the i-th block after all segments: namespace, forwarding on, RPF off. */
  lemma DeviceBlock(t: Topology, i: nat)
    requires i < |t.l3Devices|
    ensures 3 * |t.l2Devices| + 3 * i + 3 <= |Create(t)|
    ensures Create(t)[3 * |t.l2Devices| + 3 * i .. 3 * |t.l2Devices| + 3 * i + 3]
         == [CreateNetNS(t.l3Devices[i]), EnableIPForwarding(t.l3Devices[i]), DisableRPF(t.l3Devices[i])]
  {
    FlatMapLength(t.l2Devices, SegmentOps, 3);
    FlatMapBlock(t.l3Devices, DeviceOps, 3, i);
    SliceOfMiddle(SegmentPhase(t.l2Devices), DevicePhase(t.l3Devices), CircuitPhase(t.circuits), 3 * i, 3 * i + 3);
  }

  /** Circuit k occupies the k-th seven-operation block after all setup operations. */
  lemma CircuitBlock(t: Topology, k: nat)
    requires k < |t.circuits|
    ensures SetupLength(t) + 7 * k + 7 <= |Create(t)|
    ensures Create(t)[SetupLength(t) + 7 * k .. SetupLength(t) + 7 * k + 7] == CircuitOps(t.circuits[k])
  {
    FlatMapLength(t.l2Devices, SegmentOps, 3);
    FlatMapLength(t.l3Devices, DeviceOps, 3);
    FlatMapBlock(t.circuits, CircuitOps, 7, k);
    SliceOfMiddle(SegmentPhase(t.l2Devices) + DevicePhase(t.l3Devices), CircuitPhase(t.circuits), [],
                  7 * k, 7 * k + 7);
    assert Create(t) + [] == Create(t);
  }

  /** Phase ordering: position i holds a setup operation exactly when i lies
      before the first circuit block, so every segment and device operation
      precedes every circuit operation. */
  lemma PhaseOrdering(t: Topology, i: nat)
    requires i < |Create(t)|
    ensures IsSetupOp(Create(t)[i]) <==> i < SetupLength(t)
  {
    if i < 3 * |t.l2Devices| {
      var k := i / 3;
      SegmentBlock(t, k);
      assert Create(t)[i] == Create(t)[3 * k .. 3 * k + 3][i - 3 * k];
    } else if i < SetupLength(t) {
      var k := (i - 3 * |t.l2Devices|) / 3;
      var s := 3 * |t.l2Devices|;
      DeviceBlock(t, k);
      assert Create(t)[i] == Create(t)[s + 3 * k .. s + 3 * k + 3][i - s - 3 * k];
    } else {
      var k := (i - SetupLength(t)) / 7;
      var s := SetupLength(t);
      CircuitBlock(t, k);
      assert Create(t)[i] == CircuitOps(t.circuits[k])[i - s - 7 * k];
    }
  }

  /** Names of the namespaces an operation stream creates, in order. */
  function Namespaces(ops: seq<Op>): seq<string>
  {
    FlatMap(ops, (o: Op) => if o.CreateNetNS? then [o.ns] else [])
  }

  lemma NamespacesAppend(xs: seq<Op>, ys: seq<Op>)
    ensures Namespaces(xs + ys) == Namespaces(xs) + Namespaces(ys)
  {
    FlatMapAppend(xs, ys, (o: Op) => if o.CreateNetNS? then [o.ns] else []);
  }

  lemma NamespacesOfThree(a: Op, b: Op, c: Op)
    ensures Namespaces([a, b, c]) == Namespaces([a]) + Namespaces([b]) + Namespaces([c])
  {
    NamespacesAppend([a], [b]);
    assert [a, b] == [a] + [b];
    NamespacesAppend([a, b], [c]);
    assert [a, b, c] == [a, b] + [c];
  }

  lemma NamespacesOfOne(o: Op)
    ensures Namespaces([o]) == if o.CreateNetNS? then [o.ns] else []
  {
    FlatMapSingle(o, (o: Op) => if o.CreateNetNS? then [o.ns] else []);
  }

  /** Each block contributes its own namespaces; circuit blocks contribute none. */
  lemma {:induction false} NamespacesOfBlocks<T>(xs: seq<T>, block: T -> seq<Op>, name: T -> seq<string>)
    requires forall j :: 0 <= j < |xs| ==> Namespaces(block(xs[j])) == name(xs[j])
    ensures Namespaces(FlatMap(xs, block)) == FlatMap(xs, name)
  {
    if xs != [] {
      NamespacesAppend(block(xs[0]), FlatMap(xs[1..], block));
      assert forall j :: 0 <= j < |xs[1..]| ==> xs[1..][j] == xs[j + 1];
      NamespacesOfBlocks(xs[1..], block, name);
    }
  }

  lemma {:induction false} FlatMapSingletons(xs: seq<string>)
    ensures FlatMap(xs, (n: string) => [n]) == xs
  {
    if xs != [] {
      FlatMapSingletons(xs[1..]);
    }
  }

  lemma {:induction false} FlatMapEmpty<T>(xs: seq<T>)
    ensures FlatMap<T, string>(xs, (x: T) => []) == []
  {
    if xs != [] {
      FlatMapEmpty(xs[1..]);
    }
  }

  lemma CircuitOpsNamespaces(c: Circuit)
    ensures Namespaces(CircuitOps(c)) == []
  {
    var ops := CircuitOps(c);
    var x, y := LocalName(c), PeerName(c);
    var head := [VethAdd(x, y), SetNetns(x, c.a), InterfaceUp(c.a, x), SetNetns(y, c.b), InterfaceUp(c.b, y)];
    var tail := ops[5..];
    assert ops == head + tail;
    NamespacesAppend(head, tail);
    assert head == [VethAdd(x, y), SetNetns(x, c.a), InterfaceUp(c.a, x)] + [SetNetns(y, c.b), InterfaceUp(c.b, y)];
    NamespacesAppend([VethAdd(x, y), SetNetns(x, c.a), InterfaceUp(c.a, x)], [SetNetns(y, c.b), InterfaceUp(c.b, y)]);
    NamespacesOfThree(VethAdd(x, y), SetNetns(x, c.a), InterfaceUp(c.a, x));
    NamespacesAppend([SetNetns(y, c.b)], [InterfaceUp(c.b, y)]);
    assert [SetNetns(y, c.b), InterfaceUp(c.b, y)] == [SetNetns(y, c.b)] + [InterfaceUp(c.b, y)];
    NamespacesAppend([tail[0]], [tail[1]]);
    assert tail == [tail[0]] + [tail[1]];
    NamespacesOfOne(VethAdd(x, y));
    NamespacesOfOne(SetNetns(x, c.a));
    NamespacesOfOne(InterfaceUp(c.a, x));
    NamespacesOfOne(SetNetns(y, c.b));
    NamespacesOfOne(InterfaceUp(c.b, y));
    NamespacesOfOne(tail[0]);
    NamespacesOfOne(tail[1]);
  }

  /** Namespace creation: exactly one CreateNetNS per listed segment and
      device, segments first, each list in order, and none from circuits. */
  lemma NamespacesCreated(t: Topology)
    ensures Namespaces(Create(t)) == t.l2Devices + t.l3Devices
    ensures |Namespaces(Create(t))| == |t.l2Devices| + |t.l3Devices|
  {
    forall n: string
      ensures Namespaces(SegmentOps(n)) == [n]
      ensures Namespaces(DeviceOps(n)) == [n]
    {
      NamespacesOfThree(CreateNetNS(n), CreateBridge(n, BridgeName), InterfaceUp(n, BridgeName));
      NamespacesOfThree(CreateNetNS(n), EnableIPForwarding(n), DisableRPF(n));
      NamespacesOfOne(CreateNetNS(n));
      NamespacesOfOne(CreateBridge(n, BridgeName));
      NamespacesOfOne(InterfaceUp(n, BridgeName));
      NamespacesOfOne(EnableIPForwarding(n));
      NamespacesOfOne(DisableRPF(n));
    }
    forall c: Circuit ensures Namespaces(CircuitOps(c)) == [] {
      CircuitOpsNamespaces(c);
    }
    NamespacesOfBlocks(t.l2Devices, SegmentOps, (n: string) => [n]);
    NamespacesOfBlocks(t.l3Devices, DeviceOps, (n: string) => [n]);
    NamespacesOfBlocks(t.circuits, CircuitOps, (c: Circuit) => []);
    FlatMapSingletons(t.l2Devices);
    FlatMapSingletons(t.l3Devices);
    FlatMapEmpty(t.circuits);
    NamespacesAppend(SegmentPhase(t.l2Devices), DevicePhase(t.l3Devices));
    NamespacesAppend(SegmentPhase(t.l2Devices) + DevicePhase(t.l3Devices), CircuitPhase(t.circuits));
  }
}

/** What each branch of createAdjacency emits, and the address bookkeeping
    over a whole topology. */
module Circuits {
  import opened Seqs
  import opened Network
  import opened Compiler
  import opened Properties

  /** Interface naming and placement: circuit k creates the pair "a-b" /
      "b-a", moves "a-b" into namespace a and "b-a" into namespace b, and
      brings each up where it landed. */
  lemma CircuitEnds(t: Topology, k: nat)
    requires k < |t.circuits|
    ensures SetupLength(t) + 7 * k + 7 <= |Create(t)|
    ensures var c, s := t.circuits[k], SetupLength(t) + 7 * k;
      && Create(t)[s] == VethAdd(c.a + "-" + c.b, c.b + "-" + c.a)
      && Create(t)[s + 1] == SetNetns(c.a + "-" + c.b, c.a)
      && Create(t)[s + 2] == InterfaceUp(c.a, c.a + "-" + c.b)
      && Create(t)[s + 3] == SetNetns(c.b + "-" + c.a, c.b)
      && Create(t)[s + 4] == InterfaceUp(c.b, c.b + "-" + c.a)
  {
    CircuitBlock(t, k);
    var c, s := t.circuits[k], SetupLength(t) + 7 * k;
    var ops := Create(t);
    var block := ops[s .. s + 7];
    assert block == CircuitOps(c);
    assert block[..5] == [VethAdd(LocalName(c), PeerName(c)), SetNetns(LocalName(c), c.a), InterfaceUp(c.a, LocalName(c)),
                          SetNetns(PeerName(c), c.b), InterfaceUp(c.b, PeerName(c))];
    assert forall j :: s <= j < s + 7 ==> ops[j] == block[j - s];
  }

  /** Swapping the endpoints swaps the two end names and mirrors the opening
      of the block: what was done for a is done for b and vice versa. */
  lemma SwapEndpoints(c: Circuit, address: string)
    ensures var d := Circuit(c.b, c.a, address);
      && LocalName(d) == PeerName(c) && PeerName(d) == LocalName(c)
      && CircuitOps(d)[0] == VethAdd(PeerName(c), LocalName(c))
      && CircuitOps(d)[1..3] == CircuitOps(c)[3..5]
      && CircuitOps(d)[3..5] == CircuitOps(c)[1..3]
  {
  }

  /** Address and bridge operations of one circuit block. */
  lemma CircuitOpsCounts(c: Circuit)
    ensures Count(CircuitOps(c), IsSetMaster) == if TowardsLan(c) then 1 else 0
    ensures Count(CircuitOps(c), IsAddrAdd) == if TowardsLan(c) then 1 else 2
  {
    var ops := CircuitOps(c);
    forall p: Op -> bool
      ensures Count(ops, p) == (if p(ops[0]) then 1 else 0) + (if p(ops[1]) then 1 else 0)
                             + (if p(ops[2]) then 1 else 0) + (if p(ops[3]) then 1 else 0)
                             + (if p(ops[4]) then 1 else 0) + (if p(ops[5]) then 1 else 0)
                             + (if p(ops[6]) then 1 else 0)
    {
      CountCons(ops, p);
      CountCons(ops[1..], p);
      CountCons(ops[2..], p);
      CountCons(ops[3..], p);
      CountCons(ops[4..], p);
      CountCons(ops[5..], p);
      CountCons(ops[6..], p);
      assert ops[6..][1..] == [];
    }
  }

  /** Point-to-point branch: when b is neither "LANA" nor "LANB" the block
      ends with a "0/31" address on the a end in namespace a and a "1/31"
      address on the b end in namespace b, and attaches nothing to a bridge. */
  lemma PointToPoint(t: Topology, k: nat)
    requires k < |t.circuits|
    requires !IsLan(t.circuits[k].b)
    ensures SetupLength(t) + 7 * k + 7 <= |Create(t)|
    ensures var c, s := t.circuits[k], SetupLength(t) + 7 * k;
      && Create(t)[s + 5] == AddrAdd(c.a, c.a + "-" + c.b, c.address + "0/31")
      && Create(t)[s + 6] == AddrAdd(c.b, c.b + "-" + c.a, c.address + "1/31")
      && Count(Create(t)[s .. s + 7], IsSetMaster) == 0
      && Count(Create(t)[s .. s + 7], IsAddrAdd) == 2
  {
    CircuitBlock(t, k);
    CircuitOpsCounts(t.circuits[k]);
    var c, s := t.circuits[k], SetupLength(t) + 7 * k;
    assert CircuitOps(c)[5..] == [AddrAdd(c.a, LocalName(c), c.address + LocalSuffix),
                                  AddrAdd(c.b, PeerName(c), c.address + PeerSuffix)];
    var block := Create(t)[s .. s + 7];
    assert Create(t)[s + 5] == block[5] && Create(t)[s + 6] == block[6];
  }

  /** Bridge branch: when b is "LANA" or "LANB" the b end is attached to
      "br0" in namespace b, the a end gets the address verbatim, and that is
      the block's only address assignment. */
  lemma BridgeAttach(t: Topology, k: nat)
    requires k < |t.circuits|
    requires IsLan(t.circuits[k].b)
    ensures SetupLength(t) + 7 * k + 7 <= |Create(t)|
    ensures var c, s := t.circuits[k], SetupLength(t) + 7 * k;
      && Create(t)[s + 5] == SetMaster(c.b, c.b + "-" + c.a, "br0")
      && Create(t)[s + 6] == AddrAdd(c.a, c.a + "-" + c.b, c.address)
      && Count(Create(t)[s .. s + 7], IsSetMaster) == 1
      && Count(Create(t)[s .. s + 7], IsAddrAdd) == 1
      && (forall j :: s <= j < s + 7 && Create(t)[j].AddrAdd? ==> j == s + 6)
  {
    var c, s := t.circuits[k], SetupLength(t) + 7 * k;
    CircuitBlock(t, k);
    CircuitOpsCounts(c);
    BridgeOps(c);
    var ops := Create(t);
    var block := ops[s .. s + 7];
    assert block == CircuitOps(c);
    assert forall j :: s <= j < s + 7 ==> ops[j] == block[j - s];
  }

  /** The tail of a circuit block towards "LANA" or "LANB": the bridge
      attachment of the b end, then the verbatim address of the a end, the
      block's only address assignment. */
  lemma BridgeOps(c: Circuit)
    requires IsLan(c.b)
    ensures CircuitOps(c)[5] == SetMaster(c.b, c.b + "-" + c.a, "br0")
    ensures CircuitOps(c)[6] == AddrAdd(c.a, c.a + "-" + c.b, c.address)
    ensures forall j :: 0 <= j < 7 && CircuitOps(c)[j].AddrAdd? ==> j == 6
  {
    assert CircuitOps(c)[5..] == [SetMaster(c.b, PeerName(c), BridgeName), AddrAdd(c.a, LocalName(c), c.address)];
  }

  /** Over a circuit list: one bridge attachment per circuit towards a
      segment, and two addresses per point-to-point circuit plus one per
      segment circuit. */
  lemma {:induction false} CircuitPhaseCounts(cs: seq<Circuit>)
    ensures Count(CircuitPhase(cs), IsSetMaster) == Count(cs, TowardsLan)
    ensures Count(CircuitPhase(cs), IsAddrAdd) + Count(cs, TowardsLan) == 2 * |cs|
  {
    if cs != [] {
      assert CircuitPhase(cs) == CircuitOps(cs[0]) + CircuitPhase(cs[1..]);
      CountAppend(CircuitOps(cs[0]), CircuitPhase(cs[1..]), IsSetMaster);
      CountAppend(CircuitOps(cs[0]), CircuitPhase(cs[1..]), IsAddrAdd);
      CircuitOpsCounts(cs[0]);
      CountCons(cs, TowardsLan);
      CircuitPhaseCounts(cs[1..]);
    }
  }

  /** Whole-stream bookkeeping: the setup phases assign no address and attach
      nothing, so bridge attachments count the circuits towards "LANA"/"LANB"
      and address assignments are two per circuit minus those. */
  lemma AddressCounts(t: Topology)
    ensures Count(Create(t), IsSetMaster) == Count(t.circuits, TowardsLan)
    ensures Count(Create(t), IsAddrAdd) == 2 * |t.circuits| - Count(t.circuits, TowardsLan)
  {
    FlatMapLength(t.l2Devices, SegmentOps, 3);
    FlatMapLength(t.l3Devices, DeviceOps, 3);
    var s := SetupLength(t);
    var ops := Create(t);
    assert ops[s..] == CircuitPhase(t.circuits);
    assert ops == ops[..s] + ops[s..];
    forall i | 0 <= i < s
      ensures !IsSetMaster(ops[..s][i]) && !IsAddrAdd(ops[..s][i])
    {
      PhaseOrdering(t, i);
    }
    CountNone(ops[..s], IsSetMaster);
    CountNone(ops[..s], IsAddrAdd);
    CountAppend(ops[..s], ops[s..], IsSetMaster);
    CountAppend(ops[..s], ops[s..], IsAddrAdd);
    CircuitPhaseCounts(t.circuits);
  }

  /** Compositionality: compiling circuits1 + circuits2 gives the output for
      circuits1 followed by the circuit blocks of circuits2. */
  lemma AppendCircuits(t: Topology, more: seq<Circuit>)
    ensures Create(t.(circuits := t.circuits + more)) == Create(t) + CircuitPhase(more)
  {
    FlatMapAppend(t.circuits, more, CircuitOps);
  }
}
