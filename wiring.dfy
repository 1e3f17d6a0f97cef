/**
 * Wiring of a three-level k-ary fat-tree, as computed by the generator's four
 * enumeration passes: every device, the peer of each of its ports, and the
 * ordered records that describe the whole topology.
 *
 * The four `*Peer` functions give the closed form of what each pass writes for
 * one port; `Link` dispatches on the kind of device.  The central result is
 * `LinkSymmetric`: following a link and then following the peer's port back
 * always returns to the starting (device, port) pair, so the listings that the
 * four passes produce independently agree with one another.
 */
module Wiring {

  /** Legality of the parameter: at least 4 and even. */
  predicate Legal(k: int)
  {
    k >= 4 && k % 2 == 0
  }

  /** A device of the fat-tree, identified as in the generated file. */
  datatype Device =
    | Node(idx: nat)                        // a host, "Node(idx)"
    | Edge(pod: nat, slot: nat)             // "Edge(pod slot 1)"
    | Aggr(pod: nat, slot: nat)             // "Aggr(pod slot 1)"
    | Core(k: nat, group: nat, index: nat)  // "Core(k group index)"

  /** One port of one device. */
  datatype Endpoint = Endpoint(dev: Device, port: nat)

  /** One line of the generated description. */
  datatype Record =
    | Hca(ports: nat, name: Device)       // host header
    | Switch(ports: nat, name: Device)    // switch header
    | Port(local: nat, peer: Endpoint)    // "[local] peer.dev[peer.port]"

  /** The four levels, in the order the generator emits them. */
  datatype Level = Hosts | Edges | Aggrs | Cores

  function LevelOf(d: Device): Level
  {
    match d
    case Node(_) => Hosts
    case Edge(_, _) => Edges
    case Aggr(_, _) => Aggrs
    case Core(_, _, _) => Cores
  }

  /** Number of devices of a level: k pods of k/2 edge and k/2 aggregation
      switches, k/2 hosts under each edge switch, and (k/2)^2 core switches. */
  function Population(k: nat, lvl: Level): nat
  {
    match lvl
    case Hosts => k * (k / 2) * (k / 2)
    case Edges => k * (k / 2)
    case Aggrs => k * (k / 2)
    case Cores => (k / 2) * (k / 2)
  }

  /** Number of ports of a device of the level: one for a host, k for a switch. */
  function Ports(k: nat, lvl: Level): nat
  {
    if lvl == Hosts then 1 else k
  }

  /** Number of records in the listing of one device: its header and its ports. */
  function Width(k: nat, lvl: Level): nat
  {
    Ports(k, lvl) + 1
  }

  /** The identities the generator gives to devices of a fat-tree with parameter k. */
  predicate IsDevice(k: nat, d: Device)
  {
    var n := k / 2;
    match d
    case Node(h) => h < k * n * n
    case Edge(p, s) => p < k && s < n
    case Aggr(p, s) => p < k && n <= s < k
    case Core(kk, g, c) => kk == k && 1 <= g <= n && 1 <= c <= n
  }

  predicate IsPort(k: nat, d: Device, p: nat)
  {
    1 <= p <= Ports(k, LevelOf(d))
  }

  /** Levels joined by links: hosts to edge, edge to aggregation, aggregation to core. */
  predicate Adjacent(a: Level, b: Level)
  {
    match a
    case Hosts => b == Edges
    case Edges => b == Hosts || b == Aggrs
    case Aggrs => b == Edges || b == Cores
    case Cores => b == Aggrs
  }

  // ---------------------------------------------------------------------------
  // Closed forms of the four passes
  // ---------------------------------------------------------------------------

  /** The single uplink of host h: host number t under edge switch (i, j) sits on
      its even port (t+1)*2, where h = (i*(k/2) + j)*(k/2) + t. */
  function HostUplink(k: nat, h: nat): Endpoint
    requires Legal(k)
  {
    var n := k / 2;
    Endpoint(Edge(h / n / n, h / n % n), (h % n + 1) * 2)
  }

  /** Port `port` of edge switch (pod, slot).  With t = port - 1, an even t goes to
      the aggregation switch numbered k/2 + t/2 (the running counter that starts
      at k/2 for every switch) at port (slot+1)*2; an odd t goes to the next host
      of the running host counter, which has counted k/2 hosts for every switch
      listed before and t/2 for this one. */
  function EdgePeer(k: nat, pod: nat, slot: nat, port: nat): Endpoint
    requires Legal(k) && 1 <= port
  {
    var n := k / 2;
    var t := port - 1;
    if t % 2 == 0 then Endpoint(Aggr(pod, k / 2 + t / 2), (slot + 1) * 2)
    else Endpoint(Node((pod * n + slot) * n + t / 2), 1)
  }

  /** Port m of aggregation switch (pod, slot), written with the 1-based pod
      i = pod + 1 and switch j = slot - k/2 + 1: odd ports go to core switch
      (k, j, m/2 + 1) at port i, even ports to edge switch (i-1, m/2 - 1) at
      port j*2 - 1. */
  function AggrPeer(k: nat, pod: nat, slot: nat, m: nat): Endpoint
    requires Legal(k) && k / 2 <= slot && 1 <= m
  {
    var i := pod + 1;
    var j := slot - k / 2 + 1;
    if m % 2 == 1 then Endpoint(Core(k, j, m / 2 + 1), i)
    else Endpoint(Edge(i - 1, m / 2 - 1), j * 2 - 1)
  }

  /** Port m of core switch (k, group, index) goes to the aggregation switch
      k/2 + group - 1 of pod m - 1, at port 2*index - 1. */
  function CorePeer(k: nat, group: nat, index: nat, m: nat): Endpoint
    requires Legal(k) && 1 <= group && 1 <= index && 1 <= m
  {
    Endpoint(Aggr(m - 1, k / 2 + group - 1), 2 * index - 1)
  }

  /** The peer of port p of device d, as the pass that lists d computes it. */
  function Link(k: nat, d: Device, p: nat): Endpoint
    requires Legal(k) && IsDevice(k, d) && IsPort(k, d, p)
  {
    match d
    case Node(h) => HostUplink(k, h)
    case Edge(pod, slot) => EdgePeer(k, pod, slot, p)
    case Aggr(pod, slot) => AggrPeer(k, pod, slot, p)
    case Core(_, g, c) => CorePeer(k, g, c, p)
  }

  // ---------------------------------------------------------------------------
  // Listings and the whole output
  // ---------------------------------------------------------------------------

  /** Header line of a device: "Hca 1" for a host, "Switch k" for a switch. */
  function Header(k: nat, d: Device): Record
  {
    if d.Node? then Hca(1, d) else Switch(k, d)
  }

  /** Port lines 1..m of device d. */
  function PortLines(k: nat, d: Device, m: nat): (s: seq<Record>)
    requires Legal(k) && IsDevice(k, d) && m <= Ports(k, LevelOf(d))
    ensures |s| == m
  {
    if m == 0 then [] else PortLines(k, d, m - 1) + [Port(m, Link(k, d, m))]
  }

  /** Everything the generator writes about one device. */
  function Listing(k: nat, d: Device): (s: seq<Record>)
    requires Legal(k) && IsDevice(k, d)
    ensures |s| == Width(k, LevelOf(d)) && s[0] == Header(k, d)
  {
    [Header(k, d)] + PortLines(k, d, Ports(k, LevelOf(d)))
  }

  /** The x-th device of a level in emission order: pod-major, then slot, then
      host (hosts); pod-major, then slot (edge and aggregation switches);
      group-major, then index (core switches). */
  function DeviceAt(k: nat, lvl: Level, x: nat): (d: Device)
    requires Legal(k) && x < Population(k, lvl)
    ensures IsDevice(k, d) && LevelOf(d) == lvl
  {
    var n := k / 2;
    match lvl
    case Hosts => Node(x)
    case Edges => DivBound(x, k, n); Edge(x / n, x % n)
    case Aggrs => DivBound(x, k, n); Aggr(x / n, n + x % n)
    case Cores => DivBound(x, n, n); Core(k, x / n + 1, x % n + 1)
  }

  /** Position of a device in the emission order of its level. */
  function IndexOf(k: nat, d: Device): (x: nat)
    requires Legal(k) && IsDevice(k, d)
    ensures x < Population(k, LevelOf(d)) && DeviceAt(k, LevelOf(d), x) == d
  {
    var n := k / 2;
    match d
    case Node(h) => h
    case Edge(p, s) => Grid(p, s, k, n); p * n + s
    case Aggr(p, s) => Grid(p, s - n, k, n); p * n + (s - n)
    case Core(_, g, c) => Grid(g - 1, c - 1, n, n); (g - 1) * n + (c - 1)
  }

  /** The listings of the first c devices of a level, in emission order. */
  function Section(k: nat, lvl: Level, c: nat): seq<Record>
    requires Legal(k) && c <= Population(k, lvl)
  {
    if c == 0 then [] else Section(k, lvl, c - 1) + Listing(k, DeviceAt(k, lvl, c - 1))
  }

  /** The whole generated description: hosts, then edge, aggregation and core switches. */
  function FatTree(k: nat): seq<Record>
    requires Legal(k)
  {
    Section(k, Hosts, Population(k, Hosts)) + Section(k, Edges, Population(k, Edges))
    + Section(k, Aggrs, Population(k, Aggrs)) + Section(k, Cores, Population(k, Cores))
  }

  /** Offset in FatTree(k) of the first record of a level. */
  function SectionStart(k: nat, lvl: Level): nat
  {
    var hosts := Population(k, Hosts) * Width(k, Hosts);
    var edges := Population(k, Edges) * Width(k, Edges);
    var aggrs := Population(k, Aggrs) * Width(k, Aggrs);
    match lvl
    case Hosts => 0
    case Edges => hosts
    case Aggrs => hosts + edges
    case Cores => hosts + edges + aggrs
  }

  /** Offset in FatTree(k) of the record for port p of device d (p = 0: its header). */
  function Position(k: nat, d: Device, p: nat): nat
    requires Legal(k) && IsDevice(k, d)
  {
    SectionStart(k, LevelOf(d)) + IndexOf(k, d) * Width(k, LevelOf(d)) + p
  }

  /** The devices named by the header records of s, in order. */
  function Names(s: seq<Record>): seq<Device>
  {
    if s == [] then []
    else if s[|s| - 1].Port? then Names(s[..|s| - 1])
    else Names(s[..|s| - 1]) + [s[|s| - 1].name]
  }

  // ---------------------------------------------------------------------------
  // Parameters and pairwise agreement of the passes
  // ---------------------------------------------------------------------------

  /** For a legal k every derived count is exact and positive. */
  lemma DerivedParameters(k: nat)
    requires Legal(k)
    ensures (k / 2) * 2 == k && k / 2 >= 2
    ensures Population(k, Hosts) == k * (k / 2) * (k / 2) > 0
    ensures Population(k, Edges) == Population(k, Aggrs) == k * (k / 2) > 0
    ensures Population(k, Cores) == (k / 2) * (k / 2) > 0
  {
    MulMono(2, k, k / 2);
    MulMono(2, k / 2, k / 2);
    MulMono(1, k * (k / 2), k / 2);
  }

  /** Host number s under edge switch (i, j) gets the global index
      (i*(k/2) + j)*(k/2) + s; its uplink is port 2s+2 of that switch, and that
      port of the switch lists the same host at its port 1. */
  lemma HostEdgeAgreement(k: nat, i: nat, j: nat, s: nat)
    requires Legal(k) && i < k && j < k / 2 && s < k / 2
    ensures var h := (i * (k / 2) + j) * (k / 2) + s;
      IsDevice(k, Node(h)) && IsDevice(k, Edge(i, j)) && 2 <= 2 * s + 2 <= k
      && Link(k, Node(h), 1) == Endpoint(Edge(i, j), 2 * s + 2)
      && Link(k, Edge(i, j), 2 * s + 2) == Endpoint(Node(h), 1)
  {
    var n := k / 2;
    var h := (i * n + j) * n + s;
    Grid(i, j, k, n);
    Grid(i * n + j, s, k * n, n);
    assert h / n == i * n + j;
  }

  /** Every host index is the number the host loop gives to exactly one
      (pod, edge slot, local host) triple. */
  lemma HostCoordinates(k: nat, h: nat) returns (i: nat, j: nat, t: nat)
    requires Legal(k) && h < Population(k, Hosts)
    ensures i < k && j < k / 2 && t < k / 2
    ensures h == (i * (k / 2) + j) * (k / 2) + t
  {
    var n := k / 2;
    DivMod(h, n);
    var q := h / n;
    DivMod(q, n);
    i, j, t := q / n, q % n, h % n;
    DivBound(h, k * n, n);
    DivBound(q, k, n);
  }

  /** Odd port 2a+1 of edge switch (p, e) goes to aggregation switch k/2 + a of
      the same pod at port 2(e+1), and that port lists edge switch (p, e) at 2a+1. */
  lemma EdgeAggrAgreement(k: nat, p: nat, e: nat, a: nat)
    requires Legal(k) && p < k && e < k / 2 && a < k / 2
    ensures IsDevice(k, Edge(p, e)) && IsDevice(k, Aggr(p, k / 2 + a))
    ensures Link(k, Edge(p, e), 2 * a + 1) == Endpoint(Aggr(p, k / 2 + a), 2 * (e + 1))
    ensures Link(k, Aggr(p, k / 2 + a), 2 * (e + 1)) == Endpoint(Edge(p, e), 2 * a + 1)
  {
  }

  /** Odd port 2c+1 of aggregation switch (p, k/2 + a) goes to core switch
      (k, a+1, c+1) at port p+1, and that port of the core switch lists the same
      aggregation switch at 2c+1. */
  lemma AggrCoreAgreement(k: nat, p: nat, a: nat, c: nat)
    requires Legal(k) && p < k && a < k / 2 && c < k / 2
    ensures IsDevice(k, Aggr(p, k / 2 + a)) && IsDevice(k, Core(k, a + 1, c + 1))
    ensures Link(k, Aggr(p, k / 2 + a), 2 * c + 1) == Endpoint(Core(k, a + 1, c + 1), p + 1)
    ensures Link(k, Core(k, a + 1, c + 1), p + 1) == Endpoint(Aggr(p, k / 2 + a), 2 * c + 1)
  {
  }

  /** Port p of d is wired to a port of a device on an adjacent level, and
      that port is wired back to port p of d. */
  ghost predicate Reciprocal(k: nat, d: Device, p: nat)
    requires Legal(k) && IsDevice(k, d) && IsPort(k, d, p)
  {
    var e := Link(k, d, p);
    IsDevice(k, e.dev) && IsPort(k, e.dev, e.port)
    && Adjacent(LevelOf(d), LevelOf(e.dev))
    && Link(k, e.dev, e.port) == Endpoint(d, p)
  }

  /** Bidirectional agreement: every port of every device is linked to a port of
      a device on an adjacent level, and that port is linked back to it. */
  lemma LinkSymmetric(k: nat, d: Device, p: nat)
    requires Legal(k) && IsDevice(k, d) && IsPort(k, d, p)
    ensures Reciprocal(k, d, p)
  {
    match d
    case Node(h) => HostReciprocal(k, h);
    case Edge(i, j) => EdgeReciprocal(k, i, j, p);
    case Aggr(i, s) => AggrReciprocal(k, i, s, p);
    case Core(_, g, c) => AggrCoreAgreement(k, p - 1, g - 1, c - 1);
  }

  lemma HostReciprocal(k: nat, h: nat)
    requires Legal(k) && h < Population(k, Hosts)
    ensures Reciprocal(k, Node(h), 1)
  {
    var i, j, t := HostCoordinates(k, h);
    HostEdgeAgreement(k, i, j, t);
  }

  lemma EdgeReciprocal(k: nat, i: nat, j: nat, p: nat)
    requires Legal(k) && i < k && j < k / 2 && 1 <= p <= k
    ensures Reciprocal(k, Edge(i, j), p)
  {
    DivMod(p - 1, 2);
    if (p - 1) % 2 == 0 {
      EdgeAggrAgreement(k, i, j, (p - 1) / 2);
    } else {
      HostEdgeAgreement(k, i, j, (p - 1) / 2);
    }
  }

  lemma AggrReciprocal(k: nat, i: nat, s: nat, p: nat)
    requires Legal(k) && i < k && k / 2 <= s < k && 1 <= p <= k
    ensures Reciprocal(k, Aggr(i, s), p)
  {
    DivMod(p, 2);
    if p % 2 == 1 {
      AggrCoreAgreement(k, i, s - k / 2, p / 2);
    } else {
      EdgeAggrAgreement(k, i, p / 2 - 1, s - k / 2);
    }
  }

  /** Each core switch reaches every pod through exactly one of its ports. */
  lemma CoreSpansPods(k: nat, g: nat, c: nat, pod: nat)
    requires Legal(k) && IsDevice(k, Core(k, g, c)) && pod < k
    ensures Link(k, Core(k, g, c), pod + 1).dev.Aggr?
    ensures Link(k, Core(k, g, c), pod + 1).dev.pod == pod
    ensures forall m :: 1 <= m <= k && Link(k, Core(k, g, c), m).dev.pod == pod ==> m == pod + 1
  {
  }

  /** Any two pods are joined through core switch (k, 1, 1). */
  lemma FullBisection(k: nat, p1: nat, p2: nat)
    requires Legal(k) && p1 < k && p2 < k
    ensures exists d: Device, m1: nat, m2: nat ::
      IsDevice(k, d) && d.Core? && IsPort(k, d, m1) && IsPort(k, d, m2)
      && Link(k, d, m1).dev.pod == p1 && Link(k, d, m2).dev.pod == p2
  {
    var d := Core(k, 1, 1);
    assert IsPort(k, d, p1 + 1) && Link(k, d, p1 + 1).dev.pod == p1;
    assert IsPort(k, d, p2 + 1) && Link(k, d, p2 + 1).dev.pod == p2;
  }

  // ---------------------------------------------------------------------------
  // Enumeration order
  // ---------------------------------------------------------------------------

  /** DeviceAt and IndexOf are inverse: each level is enumerated without repetition. */
  lemma EnumerationRoundTrip(k: nat, lvl: Level, x: nat)
    requires Legal(k) && x < Population(k, lvl)
    ensures IndexOf(k, DeviceAt(k, lvl, x)) == x
  {
    DivMod(x, k / 2);
  }

  /** Edge and aggregation switch j of pod i are the (i*(k/2) + j)-th ones emitted. */
  lemma GridOrder(k: nat, i: nat, j: nat, e: nat)
    requires Legal(k) && i < k && j < k / 2 && e == i * (k / 2) + j
    ensures e < Population(k, Edges) && DeviceAt(k, Edges, e) == Edge(i, j)
    ensures e < Population(k, Aggrs) && DeviceAt(k, Aggrs, e) == Aggr(i, k / 2 + j)
  {
    Grid(i, j, k, k / 2);
  }

  /** Aggregation switch j of pod i, both counted from 1 as the aggregation
      pass does, is the ((i-1)*(k/2) + (j-1))-th one emitted. */
  lemma AggrOrder(k: nat, i: nat, j: nat, e: nat)
    requires Legal(k) && 1 <= i <= k && 1 <= j <= k / 2
    requires e == (i - 1) * (k / 2) + (j - 1)
    ensures e < Population(k, Aggrs) && DeviceAt(k, Aggrs, e) == Aggr(i - 1, j + k / 2 - 1)
  {
    GridOrder(k, i - 1, j - 1, e);
  }

  /** Core switch (k, g, c) is the ((g-1)*(k/2) + (c-1))-th one emitted. */
  lemma CoreOrder(k: nat, g: nat, c: nat, e: nat)
    requires Legal(k) && 1 <= g <= k / 2 && 1 <= c <= k / 2
    requires e == (g - 1) * (k / 2) + (c - 1)
    ensures e < Population(k, Cores) && DeviceAt(k, Cores, e) == Core(k, g, c)
  {
    Grid(g - 1, c - 1, k / 2, k / 2);
  }

  /** A switch's header followed by its k port lines is its listing. */
  lemma ListingStep(k: nat, d: Device, before: seq<Record>, ports: nat)
    requires Legal(k) && IsDevice(k, d) && LevelOf(d) != Hosts && ports == k
    ensures before + [Switch(k, d)] + PortLines(k, d, ports) == before + Listing(k, d)
  {
  }

  /** Appending the listing of the e-th device of a level extends its section. */
  lemma SectionStep(k: nat, lvl: Level, e: nat, d: Device, start: seq<Record>)
    requires Legal(k) && e < Population(k, lvl) && DeviceAt(k, lvl, e) == d
    ensures start + Section(k, lvl, e) + Listing(k, d) == start + Section(k, lvl, e + 1)
  {
  }

  /** Writing four parts one after the other, starting from nothing, yields
      their concatenation. */
  lemma Assemble(h: seq<Record>, e: seq<Record>, a: seq<Record>, c: seq<Record>)
    ensures [] + h + e + a + c == h + e + a + c
  {
    assert [] + h == h;
  }

  /** Appending the line of port m+1 extends the port lines of d. */
  lemma PortStep(k: nat, d: Device, m: nat, before: seq<Record>)
    requires Legal(k) && IsDevice(k, d) && m < Ports(k, LevelOf(d))
    ensures before + PortLines(k, d, m) + [Port(m + 1, Link(k, d, m + 1))]
            == before + PortLines(k, d, m + 1)
  {
  }

  /** One step of the host loops appends the listing of the next host. */
  lemma HostStep(k: nat, i: nat, j: nat, t: nat, h: nat, before: seq<Record>)
    requires Legal(k) && i < k && j < k / 2 && t < k / 2 && h == (i * (k / 2) + j) * (k / 2) + t
    ensures h < Population(k, Hosts)
    ensures before + Section(k, Hosts, h) + [Hca(1, Node(h))] + [Port(1, Endpoint(Edge(i, j), (t + 1) * 2))]
            == before + Section(k, Hosts, h + 1)
  {
    HostEdgeAgreement(k, i, j, t);
  }

  /** The host counter at the start of edge switch (i, j) and at the start of the
      next one. */
  lemma HostRow(k: nat, i: nat, j: nat)
    requires Legal(k) && i < k && j < k / 2
    ensures (i * (k / 2) + j) * (k / 2) + k / 2 == (i * (k / 2) + (j + 1)) * (k / 2)
    ensures (i * (k / 2) + (j + 1)) * (k / 2) <= Population(k, Hosts)
  {
    var n := k / 2;
    MulSucc(i * n + j, n);
    Grid(i, j, k, n);
    MulMono(i * n + j + 1, k * n, n);
  }

  /** The host counter after the last edge switch of pod i. */
  lemma HostPod(k: nat, i: nat)
    requires Legal(k) && i < k
    ensures (i * (k / 2) + k / 2) * (k / 2) == (i + 1) * (k / 2) * (k / 2)
  {
    MulSucc(i, k / 2);
  }

  // ---------------------------------------------------------------------------
  // Layout of the records
  // ---------------------------------------------------------------------------

  lemma {:induction false} PortLinesAt(k: nat, d: Device, m: nat, r: nat)
    requires Legal(k) && IsDevice(k, d) && m <= Ports(k, LevelOf(d)) && 1 <= r <= m
    ensures |PortLines(k, d, m)| == m
    ensures PortLines(k, d, m)[r - 1] == Port(r, Link(k, d, r))
  {
    if r < m {
      PortLinesAt(k, d, m - 1, r);
    } else if m > 1 {
      PortLinesAt(k, d, m - 1, 1);
    }
  }

  /** A device's listing is its header followed by exactly one line per port,
      numbered 1..ports, each naming the peer given by Link. */
  lemma ListingAt(k: nat, d: Device, r: nat)
    requires Legal(k) && IsDevice(k, d) && r <= Ports(k, LevelOf(d))
    ensures |Listing(k, d)| == Width(k, LevelOf(d))
    ensures Listing(k, d)[0] == Header(k, d)
    ensures r >= 1 ==> Listing(k, d)[r] == Port(r, Link(k, d, r))
  {
    PortLinesAt(k, d, Ports(k, LevelOf(d)), if r >= 1 then r else 1);
  }

  lemma {:induction false} SectionLength(k: nat, lvl: Level, c: nat)
    requires Legal(k) && c <= Population(k, lvl)
    ensures |Section(k, lvl, c)| == c * Width(k, lvl)
  {
    if c > 0 {
      var w := Width(k, lvl);
      SectionLength(k, lvl, c - 1);
      ListingAt(k, DeviceAt(k, lvl, c - 1), 0);
      MulSucc(c - 1, w);
    }
  }

  /** Record r of the x-th listing sits at offset x*width + r of a section. */
  lemma {:induction false} SectionAt(k: nat, lvl: Level, c: nat, x: nat, r: nat)
    requires Legal(k) && c <= Population(k, lvl) && x < c && r < Width(k, lvl)
    ensures 0 <= x * Width(k, lvl) && x * Width(k, lvl) + r < |Section(k, lvl, c)|
    ensures Section(k, lvl, c)[x * Width(k, lvl) + r] == Listing(k, DeviceAt(k, lvl, x))[r]
  {
    var w := Width(k, lvl);
    MulMono(0, x, w);
    MulMono(x, c - 1, w);
    var prev := Section(k, lvl, c - 1);
    var last := Listing(k, DeviceAt(k, lvl, c - 1));
    assert Section(k, lvl, c) == prev + last;
    SectionLength(k, lvl, c - 1);
    ListingAt(k, DeviceAt(k, lvl, c - 1), 0);
    if x < c - 1 {
      SectionAt(k, lvl, c - 1, x, r);
      ConcatAt(prev, last, x * w + r);
      assert (prev + last)[x * w + r] == prev[x * w + r];
    } else {
      ConcatAt(prev, last, x * w + r);
      assert (prev + last)[x * w + r] == last[r];
    }
  }

  lemma ConcatAt(a: seq<Record>, b: seq<Record>, i: nat)
    requires i < |a| + |b|
    ensures (a + b)[i] == if i < |a| then a[i] else b[i - |a|]
  {
  }

  lemma Concat4At(h: seq<Record>, e: seq<Record>, a: seq<Record>, c: seq<Record>, i: int, off: nat)
    ensures i == off < |h| ==> (h + e + a + c)[i] == h[off]
    ensures i == |h| + off && off < |e| ==> (h + e + a + c)[i] == e[off]
    ensures i == |h| + |e| + off && off < |a| ==> (h + e + a + c)[i] == a[off]
    ensures i == |h| + |e| + |a| + off && off < |c| ==> (h + e + a + c)[i] == c[off]
  {
  }

  lemma {:induction false} NamesAppend(a: seq<Record>, b: seq<Record>)
    ensures Names(a + b) == Names(a) + Names(b)
  {
    if b != [] {
      assert (a + b)[..|a + b| - 1] == a + b[..|b| - 1];
      NamesAppend(a, b[..|b| - 1]);
    } else {
      assert a + b == a;
    }
  }

  lemma {:induction false} NamesOfPortLines(k: nat, d: Device, m: nat)
    requires Legal(k) && IsDevice(k, d) && m <= Ports(k, LevelOf(d))
    ensures Names(PortLines(k, d, m)) == []
  {
    if m > 0 {
      var s := PortLines(k, d, m);
      assert s[..|s| - 1] == PortLines(k, d, m - 1);
      NamesOfPortLines(k, d, m - 1);
    }
  }

  /** A section names exactly its c devices, once each, in emission order: for
      the hosts, Node(0), Node(1), ... */
  lemma {:induction false} SectionNames(k: nat, lvl: Level, c: nat)
    requires Legal(k) && c <= Population(k, lvl)
    ensures |Names(Section(k, lvl, c))| == c
    ensures forall x :: 0 <= x < c ==> Names(Section(k, lvl, c))[x] == DeviceAt(k, lvl, x)
  {
    if c > 0 {
      var d := DeviceAt(k, lvl, c - 1);
      SectionNames(k, lvl, c - 1);
      NamesAppend(Section(k, lvl, c - 1), Listing(k, d));
      NamesOfListing(k, d);
      var prev := Names(Section(k, lvl, c - 1));
      var all := Names(Section(k, lvl, c));
      assert all == prev + [d];
      forall x | 0 <= x < c
        ensures all[x] == DeviceAt(k, lvl, x)
      {
        if x < c - 1 {
          assert all[x] == prev[x];
        }
      }
    }
  }

  /** A listing names its own device and nothing else. */
  lemma NamesOfListing(k: nat, d: Device)
    requires Legal(k) && IsDevice(k, d)
    ensures Names(Listing(k, d)) == [d]
  {
    NamesAppend([Header(k, d)], PortLines(k, d, Ports(k, LevelOf(d))));
    NamesOfPortLines(k, d, Ports(k, LevelOf(d)));
    assert [Header(k, d)][..0] == [];
  }

  /** The records of the whole output, level by level. */
  lemma FatTreeAt(k: nat, d: Device, p: nat)
    requires Legal(k) && IsDevice(k, d) && p <= Ports(k, LevelOf(d))
    ensures Position(k, d, p) < |FatTree(k)|
    ensures FatTree(k)[Position(k, d, p)] == Listing(k, d)[p]
  {
    var lvl := LevelOf(d);
    var x := IndexOf(k, d);
    SectionAt(k, lvl, Population(k, lvl), x, p);
    SectionLength(k, lvl, Population(k, lvl));
    SectionInFatTree(k, lvl, x * Width(k, lvl) + p);
  }

  /** Section lvl occupies FatTree(k) from SectionStart(k, lvl) on. */
  lemma SectionInFatTree(k: nat, lvl: Level, j: nat)
    requires Legal(k) && j < |Section(k, lvl, Population(k, lvl))|
    ensures SectionStart(k, lvl) + j < |FatTree(k)|
    ensures FatTree(k)[SectionStart(k, lvl) + j] == Section(k, lvl, Population(k, lvl))[j]
  {
    var h := Section(k, Hosts, Population(k, Hosts));
    var e := Section(k, Edges, Population(k, Edges));
    var a := Section(k, Aggrs, Population(k, Aggrs));
    var c := Section(k, Cores, Population(k, Cores));
    assert FatTree(k) == h + e + a + c;
    SectionLength(k, Hosts, Population(k, Hosts));
    SectionLength(k, Edges, Population(k, Edges));
    SectionLength(k, Aggrs, Population(k, Aggrs));
    var i := SectionStart(k, lvl) + j;
    var s := Section(k, lvl, Population(k, lvl));
    Concat4At(h, e, a, c, i, j);
    match lvl
    case Hosts => assert i == j && s == h;
    case Edges => assert i == |h| + j && s == e;
    case Aggrs => assert i == |h| + |e| + j && s == a;
    case Cores => assert i == |h| + |e| + |a| + j && s == c;
    assert FatTree(k)[i] == s[j];
  }

  /** The correctness criterion stated on the emitted records: if the line for
      port p of d names port q of e, then the line for port q of e names port p
      of d. */
  lemma FatTreeAgreement(k: nat, d: Device, p: nat)
    requires Legal(k) && IsDevice(k, d) && IsPort(k, d, p)
    ensures Position(k, d, p) < |FatTree(k)|
    ensures FatTree(k)[Position(k, d, p)] == Port(p, Link(k, d, p))
    ensures var e := Link(k, d, p);
      IsDevice(k, e.dev) && IsPort(k, e.dev, e.port)
      && Position(k, e.dev, e.port) < |FatTree(k)|
      && FatTree(k)[Position(k, e.dev, e.port)] == Port(e.port, Endpoint(d, p))
  {
    var e := Link(k, d, p);
    LinkSymmetric(k, d, p);
    FatTreeAt(k, d, p);
    ListingAt(k, d, p);
    FatTreeAt(k, e.dev, e.port);
    ListingAt(k, e.dev, e.port);
  }

  // ---------------------------------------------------------------------------
  // Arithmetic helpers
  // ---------------------------------------------------------------------------

  lemma MulMono(a: nat, b: nat, n: nat)
    requires a <= b
    ensures a * n <= b * n
  {
  }

  /** How halving moves when its argument grows by one or two. */
  lemma Halves(t: nat)
    ensures (t + 1) / 2 == t / 2 + t % 2 && (t + 2) / 2 == t / 2 + 1
  {
  }

  lemma MulSucc(c: nat, w: nat)
    ensures (c + 1) * w == c * w + w
  {
  }

  lemma DivMod(x: nat, n: nat)
    requires 0 < n
    ensures 0 <= x / n && 0 <= x % n < n && x == (x / n) * n + x % n
  {
  }

  lemma DivBound(x: nat, a: nat, n: nat)
    requires 0 < n && x < a * n
    ensures x / n < a
  {
    if x / n >= a {
      MulMono(a, x / n, n);
    }
  }

  /** Row-major numbering of an a-by-n grid is a bijection onto [0, a*n). */
  lemma Grid(i: nat, j: nat, a: nat, n: nat)
    requires i < a && j < n
    ensures i * n + j < a * n
    ensures (i * n + j) / n == i && (i * n + j) % n == j
  {
    MulMono(i + 1, a, n);
    var x := i * n + j;
    var q, r := x / n, x % n;
    assert x == q * n + r;
    if q > i {
      MulMono(i + 1, q, n);
    } else if q < i {
      MulMono(q + 1, i, n);
    }
  }
}
