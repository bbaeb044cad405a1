/**
 A parser for compiled operation streams: the inverse of `Create`. It reads
 the segment blocks, then the device blocks, then seven-operation circuit
 blocks, and accepts exactly the streams `Create` can produce. The round
 trip shows the stream keeps every name, address and list order of the
 topology, so two different topologies never compile to the same stream.
 */
module Decompiler {
  import opened Seqs
  import opened Network
  import opened Compiler

  datatype Option<T> = None | Some(value: T)

  /** Does ops start with the block `block` emits for the namespace it creates first? */
  predicate StartsBlock(ops: seq<Op>, block: string -> seq<Op>)
  {
    |ops| >= 3 && ops[0].CreateNetNS? && ops[..3] == block(ops[0].ns)
  }

  /** Greedily reads leading three-operation blocks; returns the names read
      and the unread rest. */
  function DecodeBlocks(ops: seq<Op>, block: string -> seq<Op>): (r: (seq<string>, seq<Op>))
    ensures FlatMap(r.0, block) + r.1 == ops
    ensures !StartsBlock(r.1, block)
    decreases |ops|
  {
    if StartsBlock(ops, block) then
      var (names, rest) := DecodeBlocks(ops[3..], block);
      assert FlatMap([ops[0].ns] + names, block) == block(ops[0].ns) + FlatMap(names, block) by {
        assert ([ops[0].ns] + names)[1..] == names;
      }
      ([ops[0].ns] + names, rest)
    else
      ([], ops)
  }

  /** Point-to-point address prefix recovered from the a end's /31 address. */
  function StripSuffix(s: string, suffix: string): string
  {
    if |suffix| <= |s| then s[..|s| - |suffix|] else s
  }

  /** Reads one seven-operation circuit block. */
  function DecodeCircuit(block: seq<Op>): (r: Option<Circuit>)
    requires |block| == 7
    ensures r.Some? ==> CircuitOps(r.value) == block
  {
    if block[1].SetNetns? && block[3].SetNetns? && block[6].AddrAdd? && block[5].AddrAdd? then
      var c := Circuit(block[1].ns, block[3].ns, StripSuffix(block[5].address, LocalSuffix));
      if CircuitOps(c) == block then Some(c) else None
    else if block[1].SetNetns? && block[3].SetNetns? && block[6].AddrAdd? then
      var c := Circuit(block[1].ns, block[3].ns, block[6].address);
      if CircuitOps(c) == block then Some(c) else None
    else
      None
  }

  /** Reads the circuit phase: the whole rest must be circuit blocks. */
  function DecodeCircuits(ops: seq<Op>): (r: Option<seq<Circuit>>)
    ensures r.Some? ==> CircuitPhase(r.value) == ops
    decreases |ops|
  {
    if ops == [] then Some([])
    else if |ops| < 7 then None
    else
      match DecodeCircuit(ops[..7])
      case None => None
      case Some(c) =>
        match DecodeCircuits(ops[7..])
        case None => None
        case Some(cs) =>
          assert ([c] + cs)[1..] == cs;
          assert ops == ops[..7] + ops[7..];
          Some([c] + cs)
  }

  /** Reconstructs the topology an operation stream was compiled from. */
  function Decompile(ops: seq<Op>): (r: Option<Topology>)
    ensures r.Some? ==> Create(r.value) == ops
  {
    var segments := DecodeBlocks(ops, SegmentOps);
    var devices := DecodeBlocks(segments.1, DeviceOps);
    match DecodeCircuits(devices.1)
    case None => None
    case Some(cs) =>
      StagesCompose(ops, segments.0, segments.1, devices.0, devices.1, cs);
      Some(Topology(devices.0, segments.0, cs))
  }

  /** The three stages of Decompile, read back to back, cover the whole stream. */
  lemma StagesCompose(ops: seq<Op>, segments: seq<string>, afterSegments: seq<Op>,
                      devices: seq<string>, afterDevices: seq<Op>, cs: seq<Circuit>)
    requires SegmentPhase(segments) + afterSegments == ops
    requires DevicePhase(devices) + afterDevices == afterSegments
    requires CircuitPhase(cs) == afterDevices
    ensures Create(Topology(devices, segments, cs)) == ops
  {
  }

  /** A stream that starts with a different block, or with no block at all, is
      left alone by the greedy reader. */
  lemma {:induction false} DecodeBlocksOfPhase(names: seq<string>, rest: seq<Op>, block: string -> seq<Op>)
    requires forall n :: |block(n)| == 3 && block(n)[0] == CreateNetNS(n)
    requires !StartsBlock(rest, block)
    ensures DecodeBlocks(FlatMap(names, block) + rest, block) == (names, rest)
  {
    var ops := FlatMap(names, block) + rest;
    if names == [] {
      assert ops == rest;
    } else {
      var n := names[0];
      assert FlatMap(names, block) == block(n) + FlatMap(names[1..], block);
      assert ops[..3] == block(n);
      assert ops[0] == CreateNetNS(n);
      assert StartsBlock(ops, block);
      assert ops[3..] == FlatMap(names[1..], block) + rest;
      DecodeBlocksOfPhase(names[1..], rest, block);
      assert [n] + names[1..] == names;
    }
  }

  lemma DecodeCircuitOfOps(c: Circuit)
    ensures DecodeCircuit(CircuitOps(c)) == Some(c)
  {
    var block := CircuitOps(c);
    if !IsLan(c.b) {
      assert (c.address + LocalSuffix)[..|c.address|] == c.address;
      assert StripSuffix(block[5].address, LocalSuffix) == c.address;
    }
  }

  lemma {:induction false} DecodeCircuitsOfPhase(cs: seq<Circuit>)
    ensures DecodeCircuits(CircuitPhase(cs)) == Some(cs)
  {
    if cs != [] {
      var ops := CircuitPhase(cs);
      assert ops == CircuitOps(cs[0]) + CircuitPhase(cs[1..]);
      assert ops[..7] == CircuitOps(cs[0]);
      assert ops[7..] == CircuitPhase(cs[1..]);
      DecodeCircuitOfOps(cs[0]);
      DecodeCircuitsOfPhase(cs[1..]);
      assert [cs[0]] + cs[1..] == cs;
    }
  }

  /** The circuit phase never starts with a segment or device block: its
      first operation, if any, is a veth creation. */
  lemma CircuitPhaseStartsWithVeth(cs: seq<Circuit>)
    ensures cs != [] ==> CircuitPhase(cs)[0].VethAdd?
  {
    if cs != [] {
      assert CircuitPhase(cs) == CircuitOps(cs[0]) + CircuitPhase(cs[1..]);
    }
  }

  /** Round trip: decompiling a compiled topology gives the topology back. */
  lemma {:induction false} DecompileCreate(t: Topology)
    ensures Decompile(Create(t)) == Some(t)
  {
    var devicesAndCircuits := DevicePhase(t.l3Devices) + CircuitPhase(t.circuits);
    assert Create(t) == SegmentPhase(t.l2Devices) + devicesAndCircuits;
    CircuitPhaseStartsWithVeth(t.circuits);
    assert !StartsBlock(CircuitPhase(t.circuits), DeviceOps);
    if t.l3Devices != [] {
      assert DevicePhase(t.l3Devices) == DeviceOps(t.l3Devices[0]) + DevicePhase(t.l3Devices[1..]);
      assert devicesAndCircuits[1] == EnableIPForwarding(t.l3Devices[0]);
    } else {
      assert devicesAndCircuits == CircuitPhase(t.circuits);
    }
    assert !StartsBlock(devicesAndCircuits, SegmentOps);
    DecodeBlocksOfPhase(t.l2Devices, devicesAndCircuits, SegmentOps);
    DecodeBlocksOfPhase(t.l3Devices, CircuitPhase(t.circuits), DeviceOps);
    DecodeCircuitsOfPhase(t.circuits);
  }

  /** Decompile accepts a stream exactly when it is the compilation of the
      topology it returns. */
  lemma DecompileIff(ops: seq<Op>, t: Topology)
    ensures Decompile(ops) == Some(t) <==> Create(t) == ops
  {
    if Create(t) == ops {
      DecompileCreate(t);
    }
  }

  /** Compilation loses nothing: distinct topologies give distinct streams. */
  lemma CreateInjective(t1: Topology, t2: Topology)
    ensures Create(t1) == Create(t2) ==> t1 == t2
  {
    DecompileCreate(t1);
    DecompileCreate(t2);
  }
}
