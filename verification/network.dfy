/**
 The topology description of a lab network and the configuration operations
 it is compiled into (main.go). A topology lists routing namespaces (L3
 devices), bridged broadcast segments (L2 devices) and circuits between them;
 each operation stands for one `ip` command the program prints.
 */
module Network {

  /** A link between endpoint namespaces `a` and `b`. The address is a full
      address-with-prefix when `b` is "LANA" or "LANB", and a three-octet
      prefix ending in '.' otherwise. */
  datatype Circuit = Circuit(a: string, b: string, address: string)

  datatype Topology = Topology(l3Devices: seq<string>, l2Devices: seq<string>, circuits: seq<Circuit>)

  /** One printed configuration command. `ns` is the namespace it runs in
      (or the namespace an interface is moved to, for `SetNetns`). */
  datatype Op =
    | CreateNetNS(ns: string)                                // ip netns add
    | CreateBridge(ns: string, name: string)                 // ip link add name .. type bridge
    | InterfaceUp(ns: string, name: string)                  // ip link set up dev
    | EnableIPForwarding(ns: string)                         // echo 1 > .../forwarding
    | DisableRPF(ns: string)                                 // echo 0 > .../rp_filter
    | VethAdd(name: string, peer: string)                    // ip link add .. type veth peer name ..
    | SetNetns(name: string, ns: string)                     // ip link set .. netns ..
    | SetMaster(ns: string, name: string, master: string)    // ip link set .. master ..
    | AddrAdd(ns: string, name: string, address: string)     // ip addr add .. dev ..

  /** The bridge every segment namespace hosts. */
  const BridgeName: string := "br0"

  /** The segment test of createAdjacency: a fixed pair of names, not
      membership in the topology's L2 device list. */
  predicate IsLan(name: string)
  {
    name == "LANA" || name == "LANB"
  }

  /** Operations of the first two phases: namespace, bridge and sysctl setup. */
  predicate IsSetupOp(o: Op)
  {
    || o.CreateNetNS?
    || o.CreateBridge?
    || o.EnableIPForwarding?
    || o.DisableRPF?
    || (o.InterfaceUp? && o.name == BridgeName)
  }

  predicate IsAddrAdd(o: Op)
  {
    o.AddrAdd?
  }

  predicate IsSetMaster(o: Op)
  {
    o.SetMaster?
  }

  /** Circuits whose b end is "LANA" or "LANB", the names the segment test
      treats as bridged segments. */
  predicate TowardsLan(c: Circuit)
  {
    IsLan(c.b)
  }
}
