# Fat-tree topology generator, modelled in Dafny

`topogen` takes one integer k and writes the description of a three-level
k-ary fat-tree. The tree has k pods. Each pod holds k/2 edge switches and k/2
aggregation switches, and each edge switch serves k/2 hosts. Above the pods sit
(k/2)^2 core switches. The description lists every device with a header line,
followed by one line per port naming the device and port at the other end of
the cable. Four passes write it, in this order: hosts, edge switches,
aggregation switches and core switches. Each pass computes the far end of every
port on its own, from its loop indices and its counters.

The model has two modules.

- `Wiring` (wiring.dfy) is the closed form of the output.
  - `Device`, `Endpoint` and `Record` are the names and lines of the file.
  - `HostUplink`, `EdgePeer`, `AggrPeer` and `CorePeer` give the far end of a
    port, each as its own pass computes it. `Link` picks one of them by the
    kind of device.
  - `DeviceAt` and `IndexOf` give the order in which a pass visits the devices
    of its level.
  - `Listing` is the lines of one device, and `Section` is the listings of the
    first c devices of a level. `FatTree(k)` is the whole output.
  - The lemmas prove that the passes agree with each other. If port p of
    device d is listed as wired to port q of device e, then e's own listing
    wires q back to p of d. The lemmas also prove the counts, ranges and
    positions of everything written.
- `TopoGen` (topogen.dfy) is the program itself.
  - Class `Topology` has the fields k, numPod, numEdge, numAgre, numHost and
    numPort. Its field `out` holds the records written so far and stands for
    the output file.
  - The four print methods walk the same nested loops as the source, with the
    same counters (`idx` over the whole pass, `idy` restarting for every edge
    switch). Each is proved to append exactly its level's section of
    `FatTree(k)`.
  - The body of each switch pass (one switch header and its k port lines)
    sits in its own method (`PrintEdgeSwitch`, `PrintAgreSwitch`,
    `PrintCoreSwitch`). The outer loops call it.
  - `Generate` is `main`: it checks the legality of k, then runs the four
    passes.

## Model

| member | source | states |
|---|---|---|
| Wiring.DerivedParameters | topogen.cpp:40-45 | For a legal k, k/2 is exact (2*(k/2) == k) and at least 2. There are k*(k/2)^2 hosts, k*(k/2) edge and k*(k/2) aggregation switches, and (k/2)^2 core switches, all positive counts. |
| TopoGen.Topology.constructor | topogen.cpp:38-45 | numPod and numPort are k; numEdge, numAgre and numHost are k/2; numEdge*2 == k and numEdge >= 2; nothing has been written yet. |
| Wiring.DeviceAt | topogen.cpp:69-75 | The x-th device a pass visits is a valid device of that level. Pods are below k, edge slots below k/2, aggregation slots in [k/2, k), and core group and index in [1, k/2]. |
| Wiring.IndexOf | topogen.cpp:144-147 | Every valid device has a visit index below its level's population, and DeviceAt maps that index back to the device. |
| Wiring.EnumerationRoundTrip | topogen.cpp:176-178 | IndexOf(DeviceAt(x)) == x, so no pass visits a device twice. Together with IndexOf, every device is visited exactly once. |
| Wiring.HostCoordinates | topogen.cpp:69-79 | Every host number below k*(k/2)^2 is the idx that the host pass gives at some loop position (i, j, t), with i < k and j, t < k/2. |
| Wiring.GridOrder | topogen.cpp:100-106 | Edge switch (i, j) is the (i*(k/2)+j)-th listed. Aggregation switch (i, k/2+j) is the (i*(k/2)+j)-th of its pass. |
| Wiring.AggrOrder | topogen.cpp:144-150 | With 1-based i and j, aggregation switch (i-1, j+k/2-1) is the ((i-1)*(k/2)+(j-1))-th listed. |
| Wiring.CoreOrder | topogen.cpp:176-180 | Core switch (k, g, c) is the ((g-1)*(k/2)+(c-1))-th listed. |
| Wiring.Listing | topogen.cpp:106-124 | A device's listing has ports+1 records. The first is its header: Hca 1 for a host, Switch k for a switch. |
| Wiring.ListingAt | topogen.cpp:112-124 | Record r (1 <= r <= ports) of a listing is the port line numbered r, and it names the peer Link(k, d, r). |
| Wiring.SectionLength | topogen.cpp:69-82 | The first c devices of a level take c*(ports+1) records. |
| Wiring.SectionAt | topogen.cpp:100-124 | Record r of the x-th device of a level sits at offset x*(ports+1)+r of the level's section. |
| Wiring.SectionNames | topogen.cpp:77-79 | The headers of a section name exactly its first c devices, in visit order. For hosts these are Node(0), Node(1), and so on. |
| Wiring.HostEdgeAgreement | topogen.cpp:66-123 | Host t under edge switch (i, j) gets number (i*(k/2)+j)*(k/2)+t in both passes. Its uplink is edge port 2t+2, which lies in [2, k], and that edge port lists the same host at port 1. |
| Wiring.EdgeAggrAgreement | topogen.cpp:115-156 | Edge (p, e) port 2a+1 goes to aggregation switch (p, k/2+a) at port 2(e+1), and that aggregation port goes back to edge (p, e) at port 2a+1. |
| Wiring.AggrCoreAgreement | topogen.cpp:153-183 | Aggregation switch (p, k/2+a) port 2c+1 goes to core switch (k, a+1, c+1) at port p+1, and that core port goes back at port 2c+1. |
| Wiring.HostReciprocal | topogen.cpp:77-78 | A host's single port leads to an edge switch whose listing leads back to it. |
| Wiring.EdgeReciprocal | topogen.cpp:112-124 | Every port of every edge switch leads to a host or an aggregation switch that lists the same cable back. |
| Wiring.AggrReciprocal | topogen.cpp:151-157 | Every port of every aggregation switch leads to an edge or core switch that lists the same cable back. |
| Wiring.LinkSymmetric | topogen.cpp:64-187 | For every valid device and port, the peer is a valid device and port on an adjacent level (host-edge, edge-aggregation or aggregation-core), and the peer's listing leads back to the same device and port. |
| Wiring.CoreSpansPods | topogen.cpp:181-184 | Port pod+1 of a core switch reaches an aggregation switch of that pod, and no other port of that core switch reaches the same pod. |
| Wiring.FullBisection | topogen.cpp:12 | For any two pods, some core switch has a port into each of them. |
| Wiring.FatTreeAt | topogen.cpp:213-218 | The record for port p of device d (p = 0 for the header) sits at a closed-form position of the whole output: its level's start, plus visit index times listing width, plus p. |
| Wiring.FatTreeAgreement | topogen.cpp:215-218 | In the output itself, the line for port p of d lies inside the output and names Link(d, p), which is some port q of some device e. e's line for port q also lies inside the output and names port p of d. |
| TopoGen.Topology.PrintNode | topogen.cpp:64-83 | Appends exactly the host section: Node(idx) with its single uplink, in pod, edge slot and host order. |
| TopoGen.Topology.PrintEdge | topogen.cpp:96-128 | Appends exactly the edge-switch section. The host counter idx runs across the whole pass. |
| TopoGen.Topology.PrintEdgeSwitch | topogen.cpp:106-124 | Appends one edge switch's listing and advances idx by k/2. The loop invariant keeps idy at k/2 + (t+1)/2, so idy restarts at k/2 and ends at k. |
| TopoGen.Topology.PrintAgre | topogen.cpp:141-161 | Appends exactly the aggregation section, walking 1-based pods and switches. |
| TopoGen.Topology.PrintAgreSwitch | topogen.cpp:150-157 | Appends the listing of aggregation switch (i-1, j+k/2-1): odd ports go up to the cores, even ports down to the edges. |
| TopoGen.Topology.PrintCore | topogen.cpp:174-187 | Appends exactly the core section, group by group. |
| TopoGen.Topology.PrintCoreSwitch | topogen.cpp:180-184 | Appends the listing of core switch (k, i, j), one port per pod. |
| TopoGen.Generate | topogen.cpp:200-229 | Status 0 exactly when an argument is given and it is even and at least 4; the output is then FatTree(k). Otherwise status 1 and nothing is written. |

## Left out

- The output file is modelled as the sequence `out`. Opening, writing and closing `resultat.topo` is not modelled (topogen.cpp:29, 48, 194-196, 220).
- The comment header of the file is not modelled (topogen.cpp:49-53). It carries no wiring, and its host count uses floating-point `pow`.
- Text layout is not modelled: tabs, spaces, quotes and line ends. Records keep the same fields, typed. The constant trailing `1` of every `Edge(...)` and `Aggr(...)` name is dropped.
- Command-line handling is not modelled. `Generate` takes the value `atoi` returns, or `None` when no argument is given; the conversion itself and the two diagnostics printed on `cout` are not modelled, only the exit status.
- C++ `int` overflow for very large k is not modelled: k and all counters are unbounded naturals.
- The `Topology` constructor requires a legal k. The source constructs the object only after `main` has checked k.
