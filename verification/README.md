# Lab topology compiler, modelled in Dafny

The program (`main.go`) stands up a multi-router lab network out of Linux
network namespaces. A `Topology` lists L3 devices (routers and hosts, each
its own namespace), L2 devices (segments: a namespace hosting bridge `br0`)
and `Circuit`s `{A, B, Address}`. `create` prints the `ip` commands in three
passes: one block per segment, then one per L3 device, then `createAdjacency`
per circuit. `createAdjacency` makes the veth pair `A-B` / `B-A`, moves each
end into its namespace and brings it up. It then branches on the literal name
of `B`. If `B` is neither `"LANA"` nor `"LANB"`, the circuit is point-to-point:
the `A` end gets `Address+"0/31"` and the `B` end `Address+"1/31"`. Otherwise
the `B` end is enslaved to `br0` and the `A` end gets `Address` verbatim. The
mode switch in `main` runs `create` for mode `"create"` and does nothing for
any other mode.

Each printed command is an `Op` constructor. `create` is the pure function
`Compiler.Create : Topology -> seq<Op>`.

- `seqs.dfy` (`Seqs`): `FlatMap`, `Filter` and `Count`, with lemmas about
  concatenation and fixed-size blocks.
- `network.dfy` (`Network`): `Circuit`, `Topology`, `Op`, the segment test
  `IsLan`, and the bridge name.
- `compiler.dfy` (`Compiler`): the per-entity blocks, the three phases and
  `Create`.
- `decompiler.dfy` (`Decompiler`): a parser from an operation stream back to
  a topology. It is the inverse of `Create`: its round trip shows that the
  stream keeps every name, address and list order.
- `emitter.dfy` (`Emitter`): the loops of `create` and the straight-line
  `createAdjacency`, written as `main.go` writes them, proved to build the
  stream `Create` defines and to decode back to their input.
- `properties.dfy` (`Properties`, `Circuits`): block layout, phase ordering,
  namespace creation, both branches of `createAdjacency`, address counts and
  compositionality.
- `cli.dfy` (`Cli`): the mode switch, the lab topology hard-coded in `main`,
  and concrete examples.

Three behaviours of the code are worth knowing before reading the lemmas:
- The segment test is by name. The branch in `createAdjacency` checks the
  literal names `"LANA"` / `"LANB"` (main.go:187), not whether `B` is listed
  among the L2 devices. A circuit towards a segment called `L` gets `/31`
  addressing: `AddrAdd(X, X-L, "10.0.0.1/240/31")` (`Cli.SegmentTestIsByName`).
- Circuits are ordered pairs: `A` and `B` play different roles.
- A second run is not detected. The code has no check for namespaces or
  links that already exist.

## Model

| member | source | states |
|---|---|---|
| Compiler.SegmentOps | main.go:137-141 | A segment's block is three setup operations, all in the segment's namespace, of which only the first creates a namespace; its exact contents are `Properties.SegmentBlock` |
| Compiler.DeviceOps | main.go:143-147 | An L3 device's block is three setup operations, all in the device's namespace, of which only the first creates a namespace; its exact contents are `Properties.DeviceBlock` |
| Compiler.EndNameIsNotBridge | main.go:176-177 | A veth end name `X-Y` can never be the bridge name `br0` |
| Compiler.CircuitOps | main.go:175-197 | A circuit's block has seven operations, none a setup operation, and every address lands on `A-B` in A or on `B-A` in B; the branch contents are `Circuits.CircuitEnds`, `Circuits.PointToPoint` and `Circuits.BridgeAttach`, and the inverse is `Decompiler.DecodeCircuit` |
| Compiler.Create | main.go:136-153 | The stream has 3 operations per segment, 3 per L3 device and 7 per circuit; layout, ordering and round trip are the `Properties`, `Circuits` and `Decompiler` rows |
| Emitter.Emit | main.go:136-153 | The three loops of `create` in turn build exactly the stream `Create` defines, and the topology decodes back from it |
| Emitter.EmitSegments | main.go:137-141 | The segment loop's output decodes back to the segment names given, in order |
| Emitter.EmitDevices | main.go:143-147 | The device loop's output decodes back to the L3 device names given, in order |
| Emitter.EmitCircuits | main.go:149-151 | The circuit loop's output decodes back to the circuits given, in order |
| Emitter.CreateAdjacency | main.go:175-197 | The straight-line `createAdjacency` emits seven commands, one bridge attachment and one address towards `LANA`/`LANB` and none and two otherwise, and its circuit, address included, decodes back from them |
| Decompiler.DecodeBlocks | main.go:137-147 | Reading namespace blocks greedily consumes a prefix that re-encodes to exactly the names read; the rest does not start with another such block |
| Decompiler.DecodeCircuit | main.go:175-197 | A seven-operation block is accepted only if it is exactly the `createAdjacency` output of the circuit it returns |
| Decompiler.DecodeCircuits | main.go:149-151 | An accepted circuit phase is exactly the concatenated `createAdjacency` output of the circuits returned |
| Decompiler.Decompile | main.go:136-153 | Any topology recovered from a stream compiles back to that same stream |
| Decompiler.DecompileCreate | main.go:136-153 | Round trip: the stream `create` emits determines the topology, including list order, names and addresses |
| Decompiler.DecompileIff | main.go:136-153 | A stream decompiles to `t` if and only if it is `create(t)` |
| Decompiler.CreateInjective | main.go:136-153 | Two topologies that compile to the same stream are equal |
| Properties.SegmentBlock | main.go:137-141 | Segment i occupies positions 3i..3i+2: create its namespace, create `br0` in it, bring `br0` up |
| Properties.DeviceBlock | main.go:143-147 | L3 device i occupies the i-th 3-block after all segments: create its namespace, enable forwarding, disable RPF |
| Properties.CircuitBlock | main.go:149-151 | Circuit k occupies the k-th 7-block after all segment and device operations, in list order |
| Properties.PhaseOrdering | main.go:136-153 | Position i holds a segment or device setup operation exactly when it lies before the first circuit operation |
| Properties.NamespacesCreated | main.go:137-147 | The namespaces created are exactly the L2 devices then the L3 devices, in list order, one each; circuits create none |
| Circuits.CircuitEnds | main.go:176-185 | Circuit k creates the veth pair `A-B`/`B-A`, moves `A-B` into namespace A and `B-A` into namespace B, and brings each up there |
| Circuits.SwapEndpoints | main.go:176-185 | Swapping A and B swaps the two end names and mirrors the move-and-up operations of the two ends |
| Circuits.CircuitOpsCounts | main.go:187-196 | A circuit emits one bridge attachment and one address towards `LANA`/`LANB`, and none and two otherwise |
| Circuits.PointToPoint | main.go:187-192 | When B is neither `LANA` nor `LANB`, the block ends with `Address+"0/31"` on `A-B` in A and `Address+"1/31"` on `B-A` in B, with no bridge attachment |
| Circuits.BridgeAttach | main.go:193-196 | When B is `LANA` or `LANB`, `B-A` is attached to `br0` in B and `A-B` gets `Address` verbatim; this is the block's only address assignment |
| Circuits.BridgeOps | main.go:193-196 | Towards `LANA`/`LANB`, a circuit block's last two operations attach `B-A` to `br0` in B and give `A-B` the verbatim address, and no earlier operation assigns an address |
| Circuits.CircuitPhaseCounts | main.go:149-196 | Over a circuit list, bridge attachments equal the circuits towards `LANA`/`LANB`, and addresses are two per circuit minus those |
| Circuits.AddressCounts | main.go:136-196 | In the whole stream the setup phases add no address or bridge attachment, so the same counts hold for the complete output |
| Circuits.AppendCircuits | main.go:149-151 | Compiling `circuits1 + circuits2` gives the output for `circuits1` followed by the circuit blocks of `circuits2` |
| Cli.Run | main.go:129-132 | Mode `"create"` emits a stream that decompiles to the topology; every other mode emits nothing and no error |
| Cli.Lab | main.go:27-127 | The lab has 8 L3 devices, 2 segments and 16 circuits; every circuit starts at a listed L3 device and ends at a listed device or segment, and ends at a segment exactly when it ends at `LANA`/`LANB` |
| Cli.LabSegmentCircuits | main.go:42-126 | Six of the lab's sixteen circuits run towards `LANA`/`LANB` |
| Cli.LabOutput | main.go:27-132 | In the default mode the lab yields 142 operations, 10 namespaces, 6 bridge attachments and 26 address assignments |
| Cli.SegmentTestIsByName | main.go:187-192 | A circuit towards a listed segment named `L` gets the point-to-point address `"10.0.0.1/240/31"` |
| Cli.NoSegmentNoBridge | main.go:187-196 | With no circuit towards `LANA`/`LANB`, nothing is attached to a bridge, whatever segments the topology lists |
| Cli.LanNameAttaches | main.go:193-196 | The same circuit towards a segment named `LANA` gets the bridge attachment and the verbatim address |

## Left out

- Rendering: each `fmt.Printf` line (main.go:155-173, 179-195) is an `Op`
  value, not command text. The `bash -c` loops over `/proc` behind forwarding
  and RPF are the opaque operations `EnableIPForwarding` and `DisableRPF`.
- Execution of the `ip` commands. The program only prints them; whether they
  succeed lies outside the code.
- Flag parsing (`flag.String`, `flag.Parse`, main.go:20-25). `Cli.Run` takes
  the resulting mode string as a parameter.
- Validation of dangling endpoints, duplicate names or interface-name
  collisions. The code does none, so the model has none.
- Determinism ("the same topology gives the same stream") is not stated as a
  lemma. `Create` is a function, so it holds by construction.
- `fmt.Sprintf("%s-%s", …)` is modelled as string concatenation. For string
  arguments the two are the same.
