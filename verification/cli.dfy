/**
 The program's entry point (main.go:24-134): the mode switch, and the lab
 topology it compiles.
 */
module Cli {
  import opened Seqs
  import opened Network
  import opened Compiler
  import opened Decompiler
  import opened Properties
  import opened Circuits

  /** The only mode with an implementation; it is also the flag's default. */
  const CreateMode: string := "create"

  /** The mode switch: "create" compiles the topology, and every other mode,
      "destroy" included, emits nothing and reports no error. */
  function Run(mode: string, t: Topology): (r: seq<Op>)
    ensures mode == CreateMode ==> Decompile(r) == Some(t)
    ensures mode != CreateMode ==> r == []
  {
    if mode == CreateMode then
      DecompileCreate(t);
      Create(t)
    else
      []
  }

  /** The lab network hard-coded in main: two hosts S1, S2 on segments LANA
      and LANB, and six routers R1..R6 joined by ten point-to-point circuits.
      Every circuit starts at a listed L3 device and ends at a listed device
      or segment, and it ends at a segment exactly when the segment test
      says so. */
  function Lab(): (r: Topology)
    ensures |r.l3Devices| == 8 && |r.l2Devices| == 2 && |r.circuits| == 16
    ensures forall i :: 0 <= i < |r.circuits| ==> r.circuits[i].a in r.l3Devices
    ensures forall i :: 0 <= i < |r.circuits| ==>
              (r.circuits[i].b in r.l2Devices <==> IsLan(r.circuits[i].b)) &&
              (r.circuits[i].b in r.l2Devices || r.circuits[i].b in r.l3Devices)
  {
    Topology(
      ["S1", "S2", "R1", "R2", "R3", "R4", "R5", "R6"],
      ["LANA", "LANB"],
      [ Circuit("S1", "LANA", "192.168.100.100/24"),
        Circuit("R1", "LANA", "192.168.100.1/24"),
        Circuit("R2", "LANA", "192.168.100.2/24"),
        Circuit("R1", "R2", "192.168.1."),
        Circuit("R1", "R3", "192.168.2."),
        Circuit("R2", "R4", "192.168.3."),
        Circuit("R1", "R4", "192.168.4."),
        Circuit("R2", "R3", "192.168.5."),
        Circuit("R3", "R5", "192.168.6."),
        Circuit("R4", "R6", "192.168.7."),
        Circuit("R3", "R6", "192.168.8."),
        Circuit("R4", "R5", "192.168.9."),
        Circuit("R5", "R6", "192.168.10."),
        Circuit("S2", "LANB", "192.168.200.100/24"),
        Circuit("R5", "LANB", "192.168.200.1/24"),
        Circuit("R6", "LANB", "192.168.200.2/24") ])
  }

  /** The lab's circuits towards a segment: the first three and the last three. */
  lemma LabSegmentCircuits()
    ensures Count(Lab().circuits, TowardsLan) == 6
  {
    var cs := Lab().circuits;
    var first, middle, last := cs[..3], cs[3..13], cs[13..];
    assert cs == first + middle + last;
    CountAll(first, TowardsLan);
    CountNone(middle, TowardsLan);
    CountAll(last, TowardsLan);
    CountAppend(first, middle, TowardsLan);
    CountAppend(first + middle, last, TowardsLan);
  }

  /** What main prints in its default mode: 2 segments x 3 + 8 devices x 3 +
      16 circuits x 7 commands, ten namespaces, six bridge attachments and
      6 + 2 x 10 address assignments. */
  lemma LabOutput()
    ensures |Run(CreateMode, Lab())| == 142
    ensures |Namespaces(Run(CreateMode, Lab()))| == 10
    ensures Count(Run(CreateMode, Lab()), IsSetMaster) == 6
    ensures Count(Run(CreateMode, Lab()), IsAddrAdd) == 26
  {
    var t := Lab();
    NamespacesCreated(t);
    LabSegmentCircuits();
    AddressCounts(t);
  }

  /** A one-segment network: segment `segment`, devices X and Y, a circuit
      from X to the segment and a point-to-point circuit from X to Y. */
  function OneSegment(segment: string): Topology
  {
    Topology(["X", "Y"], [segment], [Circuit("X", segment, "10.0.0.1/24"), Circuit("X", "Y", "10.0.1.")])
  }

  /** The segment test is by name only: when the one segment is called "L",
      the circuit towards it is numbered as a point-to-point link (its
      address gets "0/31" appended, giving "10.0.0.1/240/31"), although "L"
      is listed among the segments. */
  lemma SegmentTestIsByName()
    ensures Create(OneSegment("L"))[SetupLength(OneSegment("L")) + 5] == AddrAdd("X", "X-L", "10.0.0.1/240/31")
  {
    PointToPoint(OneSegment("L"), 0);
    assert "10.0.0.1/24" + LocalSuffix == "10.0.0.1/240/31";
  }

  /** With no circuit towards "LANA" or "LANB", nothing is attached to a
      bridge, whatever the topology lists as segments. */
  lemma NoSegmentNoBridge(t: Topology)
    requires forall i :: 0 <= i < |t.circuits| ==> !IsLan(t.circuits[i].b)
    ensures Count(Create(t), IsSetMaster) == 0
  {
    AddressCounts(t);
    CountNone(t.circuits, TowardsLan);
  }

  /** Named "LANA", the same segment gets the bridge attachment and the
      verbatim address. */
  lemma LanNameAttaches()
    ensures Create(OneSegment("LANA"))[SetupLength(OneSegment("LANA")) + 5] == SetMaster("LANA", "LANA-X", "br0")
    ensures Create(OneSegment("LANA"))[SetupLength(OneSegment("LANA")) + 6] == AddrAdd("X", "X-LANA", "10.0.0.1/24")
  {
    BridgeAttach(OneSegment("LANA"), 0);
  }
}
