/**
 The topology-to-operations compiler: `create` and `createAdjacency` of
 main.go, with each printed command replaced by an `Op`.
 */
module Compiler {
  import opened Seqs
  import opened Network

  /** The three commands set up for one segment (main.go:138-140): all
      setup operations, all run in namespace n, and only the first creates a
      namespace. */
  function SegmentOps(n: string): (r: seq<Op>)
    ensures |r| == 3 && r[0] == CreateNetNS(n)
    ensures forall j :: 0 <= j < |r| ==> IsSetupOp(r[j]) && r[j].ns == n
    ensures forall j :: 1 <= j < |r| ==> !r[j].CreateNetNS?
  {
    [CreateNetNS(n), CreateBridge(n, BridgeName), InterfaceUp(n, BridgeName)]
  }

  /** The three commands set up for one L3 device (main.go:144-146), with
      the same shape as a segment's: setup operations in namespace n, the
      first creating it. */
  function DeviceOps(n: string): (r: seq<Op>)
    ensures |r| == 3 && r[0] == CreateNetNS(n)
    ensures forall j :: 0 <= j < |r| ==> IsSetupOp(r[j]) && r[j].ns == n
    ensures forall j :: 1 <= j < |r| ==> !r[j].CreateNetNS?
  {
    [CreateNetNS(n), EnableIPForwarding(n), DisableRPF(n)]
  }

  /** Name of the veth end that goes into namespace a. */
  function LocalName(c: Circuit): string
  {
    c.a + "-" + c.b
  }

  /** Name of the veth end that goes into namespace b. */
  function PeerName(c: Circuit): string
  {
    c.b + "-" + c.a
  }

  /** A veth end is named "x-y", so it is never the bridge "br0". */
  lemma EndNameIsNotBridge(c: Circuit)
    ensures LocalName(c) != BridgeName && PeerName(c) != BridgeName
  {
    assert LocalName(c)[|c.a|] == '-';
    assert PeerName(c)[|c.b|] == '-';
    assert '-' !in BridgeName;
  }

  /** The suffixes appended to a point-to-point prefix for the two /31 ends. */
  const LocalSuffix: string := "0/31"
  const PeerSuffix: string := "1/31"

  /** createAdjacency: one veth pair, each end moved into its namespace and
      brought up, then either /31 addresses on both ends or, towards a
      segment, a bridge attachment of the b end and the verbatim address on
      the a end. Seven operations, none of them a setup operation, and every
      address lands on the a end in namespace a or on the b end in namespace b. */
  function CircuitOps(c: Circuit): (r: seq<Op>)
    ensures |r| == 7
    ensures forall j :: 0 <= j < |r| ==> !IsSetupOp(r[j])
    ensures forall j :: 0 <= j < |r| && r[j].AddrAdd? ==>
              (r[j].ns == c.a && r[j].name == LocalName(c)) || (r[j].ns == c.b && r[j].name == PeerName(c))
  {
    EndNameIsNotBridge(c);
    var x := LocalName(c);
    var y := PeerName(c);
    [VethAdd(x, y), SetNetns(x, c.a), InterfaceUp(c.a, x), SetNetns(y, c.b), InterfaceUp(c.b, y)]
    + if !IsLan(c.b) then
        [AddrAdd(c.a, x, c.address + LocalSuffix), AddrAdd(c.b, y, c.address + PeerSuffix)]
      else
        [SetMaster(c.b, y, BridgeName), AddrAdd(c.a, x, c.address)]
  }

  function SegmentPhase(names: seq<string>): seq<Op>
  {
    FlatMap(names, SegmentOps)
  }

  function DevicePhase(names: seq<string>): seq<Op>
  {
    FlatMap(names, DeviceOps)
  }

  function CircuitPhase(cs: seq<Circuit>): seq<Op>
  {
    FlatMap(cs, CircuitOps)
  }

  /** create: segments, then L3 devices, then circuits, each in list order;
      three operations per segment, three per device, seven per circuit. */
  function Create(t: Topology): (r: seq<Op>)
    ensures |r| == 3 * |t.l2Devices| + 3 * |t.l3Devices| + 7 * |t.circuits|
  {
    FlatMapLength(t.l2Devices, SegmentOps, 3);
    FlatMapLength(t.l3Devices, DeviceOps, 3);
    FlatMapLength(t.circuits, CircuitOps, 7);
    SegmentPhase(t.l2Devices) + DevicePhase(t.l3Devices) + CircuitPhase(t.circuits)
  }

  /** Number of operations before the first circuit operation. */
  function SetupLength(t: Topology): nat
  {
    3 * |t.l2Devices| + 3 * |t.l3Devices|
  }
}
