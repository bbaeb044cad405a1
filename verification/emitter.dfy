/**
 `create` and `createAdjacency` written the way main.go writes them: loops
 that append each iteration's commands, and straight-line code with the
 literal segment names, bridge name and /31 suffixes.
 */
module Emitter {
  import opened Seqs
  import opened Network
  import opened Compiler
  import opened Decompiler
  import opened Circuits

  /** create: the segment loop, the device loop and the circuit loop in
      turn. The stream built is the one `Create` defines, and from it the
      topology can be read back unchanged. */
  method Emit(t: Topology) returns (ops: seq<Op>)
    ensures ops == Create(t)
    ensures Decompile(ops) == Some(t)
  {
    var segments := EmitSegments(t.l2Devices);
    var devices := EmitDevices(t.l3Devices);
    var circuits := EmitCircuits(t.circuits);
    ops := segments + devices + circuits;
    DecompileCreate(t);
  }

  /** The first loop of create (main.go:137-141): the segment names read
      back from its output are the names given, in order. */
  method EmitSegments(names: seq<string>) returns (ops: seq<Op>)
    ensures ops == SegmentPhase(names)
    ensures DecodeBlocks(ops, SegmentOps) == (names, [])
  {
    ops := [];
    for i := 0 to |names|
      invariant ops == SegmentPhase(names[..i])
    {
      var n := names[i];
      ops := ops + [CreateNetNS(n), CreateBridge(n, BridgeName), InterfaceUp(n, BridgeName)];
      FlatMapSnoc(names[..i], n, SegmentOps);
      assert names[..i + 1] == names[..i] + [n];
    }
    assert names[..|names|] == names;
    assert ops + [] == ops;
    DecodeBlocksOfPhase(names, [], SegmentOps);
  }

  /** The second loop of create (main.go:143-147): likewise for the L3
      device names. */
  method EmitDevices(names: seq<string>) returns (ops: seq<Op>)
    ensures ops == DevicePhase(names)
    ensures DecodeBlocks(ops, DeviceOps) == (names, [])
  {
    ops := [];
    for i := 0 to |names|
      invariant ops == DevicePhase(names[..i])
    {
      var n := names[i];
      ops := ops + [CreateNetNS(n), EnableIPForwarding(n), DisableRPF(n)];
      FlatMapSnoc(names[..i], n, DeviceOps);
      assert names[..i + 1] == names[..i] + [n];
    }
    assert names[..|names|] == names;
    assert ops + [] == ops;
    DecodeBlocksOfPhase(names, [], DeviceOps);
  }

  /** The third loop of create (main.go:149-151): the circuits read back
      from its output are the circuits given, in order. */
  method EmitCircuits(cs: seq<Circuit>) returns (ops: seq<Op>)
    ensures ops == CircuitPhase(cs)
    ensures DecodeCircuits(ops) == Some(cs)
  {
    ops := [];
    for i := 0 to |cs|
      invariant ops == CircuitPhase(cs[..i])
    {
      var c := cs[i];
      var adjacency := CreateAdjacency(c);
      ops := ops + adjacency;
      FlatMapSnoc(cs[..i], c, CircuitOps);
      assert cs[..i + 1] == cs[..i] + [c];
    }
    assert cs[..|cs|] == cs;
    DecodeCircuitsOfPhase(cs);
  }

  /** createAdjacency: seven commands; towards "LANA"/"LANB" one bridge
      attachment and one address, otherwise no attachment and two
      addresses; and the circuit, addresses included, can be read back from
      the commands. */
  method CreateAdjacency(c: Circuit) returns (ops: seq<Op>)
    ensures |ops| == 7
    ensures Count(ops, IsSetMaster) == if IsLan(c.b) then 1 else 0
    ensures Count(ops, IsAddrAdd) == if IsLan(c.b) then 1 else 2
    ensures DecodeCircuit(ops) == Some(c)
  {
    var x := c.a + "-" + c.b;
    var y := c.b + "-" + c.a;
    ops := [VethAdd(x, y)];
    ops := ops + [SetNetns(x, c.a), InterfaceUp(c.a, x)];
    ops := ops + [SetNetns(y, c.b), InterfaceUp(c.b, y)];
    if c.b != "LANA" && c.b != "LANB" {
      var addrA := c.address + "0/31";
      var addrB := c.address + "1/31";
      ops := ops + [AddrAdd(c.a, x, addrA), AddrAdd(c.b, y, addrB)];
    } else {
      ops := ops + [SetMaster(c.b, y, "br0"), AddrAdd(c.a, x, c.address)];
    }
    assert ops == CircuitOps(c);
    CircuitOpsCounts(c);
    DecodeCircuitOfOps(c);
  }
}
