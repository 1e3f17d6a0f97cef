/**
 * The generator itself: an object holding k and the counts derived from it,
 * and an output stream, here the sequence `out` of records written so far.
 * Each print method walks its level with nested loops, as the generator does,
 * and appends exactly the section of the description that the closed forms in
 * module Wiring define.
 */
module TopoGen {
  import opened Wiring

  datatype Option<T> = None | Some(value: T)

  class Topology {
    var k: nat
    var numPod: nat   // pods
    var numEdge: nat  // edge switches per pod
    var numAgre: nat  // aggregation switches per pod
    var numHost: nat  // hosts per edge switch
    var numPort: nat  // ports of a switch
    var out: seq<Record>

    ghost predicate Valid()
      reads this
    {
      Legal(k) && numPod == k && numEdge == k / 2 && numAgre == numEdge
      && numHost == k / 2 && numPort == k
    }

    /** Derives the counts from k; nothing has been written yet. */
    constructor (k: nat)
      requires Legal(k)
      ensures Valid() && this.k == k && out == []
      ensures numPod == numPort == k && numEdge == numAgre == numHost == k / 2
      ensures numEdge * 2 == k && numEdge >= 2
    {
      this.k := k;
      this.numPod := k;
      this.numEdge := k / 2;
      this.numAgre := k / 2;
      this.numHost := k / 2;
      this.numPort := k;
      this.out := [];
    }

    /** Lists every host with its uplink, numbering hosts with a counter that
        runs across all pods and edge switches. */
    method PrintNode()
      requires Valid()
      modifies this`out
      ensures Valid()
      ensures out == old(out) + Section(k, Hosts, Population(k, Hosts))
    {
      var idx := 0;
      var i := 0;
      while i < numPod
        invariant 0 <= i <= numPod
        invariant idx == i * (k / 2) * (k / 2) <= Population(k, Hosts)
        invariant out == old(out) + Section(k, Hosts, idx)
      {
        var j := 0;
        while j < numEdge
          invariant 0 <= j <= numEdge
          invariant idx == (i * (k / 2) + j) * (k / 2) <= Population(k, Hosts)
          invariant out == old(out) + Section(k, Hosts, idx)
        {
          var t := 0;
          while t < numHost
            invariant 0 <= t <= numHost
            invariant idx == (i * (k / 2) + j) * (k / 2) + t <= Population(k, Hosts)
            invariant out == old(out) + Section(k, Hosts, idx)
          {
            HostStep(k, i, j, t, idx, old(out));
            out := out + [Hca(1, Node(idx))];
            out := out + [Port(1, Endpoint(Edge(i, j), (t + 1) * 2))];
            idx := idx + 1;
            t := t + 1;
          }
          HostRow(k, i, j);
          j := j + 1;
        }
        HostPod(k, i);
        i := i + 1;
      }
    }

    /** Lists every edge switch, pod by pod; the host counter idx runs across
        the whole pass. */
    method PrintEdge()
      requires Valid()
      modifies this`out
      ensures Valid()
      ensures out == old(out) + Section(k, Edges, Population(k, Edges))
    {
      var idx := 0;
      ghost var e: nat := 0;  // edge switches listed so far
      var i := 0;
      while i < numPod
        invariant 0 <= i <= numPod && Valid()
        invariant e == i * (k / 2) && e <= Population(k, Edges)
        invariant idx == e * (k / 2)
        invariant out == old(out) + Section(k, Edges, e)
      {
        var j := 0;
        while j < numEdge
          invariant 0 <= j <= numEdge && Valid()
          invariant e == i * (k / 2) + j && e <= Population(k, Edges)
          invariant idx == e * (k / 2)
          invariant out == old(out) + Section(k, Edges, e)
        {
          GridOrder(k, i, j, e);
          idx := PrintEdgeSwitch(i, j, idx);
          SectionStep(k, Edges, e, Edge(i, j), old(out));
          MulSucc(e, k / 2);
          e := e + 1;
          j := j + 1;
        }
        MulSucc(i, k / 2);
        i := i + 1;
      }
    }

    /** The body of the edge pass for switch (i, j): its header and its k ports.
        Odd ports go to aggregation switches, numbered by idy, which restarts at
        k/2 and ends at k; even ports go to hosts, numbered by idx. */
    method PrintEdgeSwitch(i: nat, j: nat, idx0: nat) returns (idx: nat)
      requires Valid() && i < k && j < k / 2 && idx0 == (i * (k / 2) + j) * (k / 2)
      modifies this`out
      ensures Valid()
      ensures idx == idx0 + k / 2
      ensures out == old(out) + Listing(k, Edge(i, j))
    {
      idx := idx0;
      out := out + [Switch(numPort, Edge(i, j))];
      var idy := numPod / 2;
      var t := 0;
      while t < numPort
        invariant 0 <= t <= numPort
        invariant idy == k / 2 + (t + 1) / 2
        invariant idx == idx0 + t / 2
        invariant out == old(out) + [Switch(k, Edge(i, j))] + PortLines(k, Edge(i, j), t)
      {
        PortStep(k, Edge(i, j), t, old(out) + [Switch(k, Edge(i, j))]);
        Halves(t);
        if t % 2 == 0 {
          assert Link(k, Edge(i, j), t + 1) == Endpoint(Aggr(i, idy), (j + 1) * 2);
          out := out + [Port(t + 1, Endpoint(Aggr(i, idy), (j + 1) * 2))];
          idy := idy + 1;
        } else {
          assert Link(k, Edge(i, j), t + 1) == Endpoint(Node(idx), 1);
          out := out + [Port(t + 1, Endpoint(Node(idx), 1))];
          idx := idx + 1;
        }
        t := t + 1;
      }
      assert idy == numPort;
      ListingStep(k, Edge(i, j), old(out), t);
    }

    /** Lists every aggregation switch, with 1-based pod i and switch j. */
    method PrintAgre()
      requires Valid()
      modifies this`out
      ensures Valid()
      ensures out == old(out) + Section(k, Aggrs, Population(k, Aggrs))
    {
      ghost var e: nat := 0;  // aggregation switches listed so far
      var i := 1;
      while i <= k
        invariant 1 <= i <= k + 1 && Valid()
        invariant e == (i - 1) * (k / 2) && e <= Population(k, Aggrs)
        invariant out == old(out) + Section(k, Aggrs, e)
      {
        var j := 1;
        while j <= numAgre
          invariant 1 <= j <= numAgre + 1 && Valid()
          invariant e == (i - 1) * (k / 2) + (j - 1) && e <= Population(k, Aggrs)
          invariant out == old(out) + Section(k, Aggrs, e)
        {
          AggrOrder(k, i, j, e);
          PrintAgreSwitch(i, j);
          SectionStep(k, Aggrs, e, Aggr(i - 1, j + k / 2 - 1), old(out));
          e := e + 1;
          j := j + 1;
        }
        MulSucc(i - 1, k / 2);
        i := i + 1;
      }
    }

    /** The body of the aggregation pass for switch j of pod i (both 1-based):
        odd ports go up to core switch (k, j, m/2 + 1), even ports down to edge
        switch (i-1, m/2 - 1). */
    method PrintAgreSwitch(i: nat, j: nat)
      requires Valid() && 1 <= i <= k && 1 <= j <= k / 2
      modifies this`out
      ensures Valid()
      ensures out == old(out) + Listing(k, Aggr(i - 1, j + k / 2 - 1))
    {
      ghost var d := Aggr(i - 1, j + k / 2 - 1);
      out := out + [Switch(numPort, Aggr(i - 1, j + k / 2 - 1))];
      var m := 1;
      while m <= k
        invariant 1 <= m <= k + 1
        invariant out == old(out) + [Switch(k, d)] + PortLines(k, d, m - 1)
      {
        PortStep(k, d, m - 1, old(out) + [Switch(k, d)]);
        if m % 2 == 1 {
          assert Link(k, d, m) == Endpoint(Core(k, j, m / 2 + 1), i);
          out := out + [Port(m, Endpoint(Core(k, j, m / 2 + 1), i))];
        } else {
          assert Link(k, d, m) == Endpoint(Edge(i - 1, m / 2 - 1), j * 2 - 1);
          out := out + [Port(m, Endpoint(Edge(i - 1, m / 2 - 1), j * 2 - 1))];
        }
        m := m + 1;
      }
      ListingStep(k, d, old(out), m - 1);
    }

    /** Lists the (k/2)^2 core switches, group by group. */
    method PrintCore()
      requires Valid()
      modifies this`out
      ensures Valid()
      ensures out == old(out) + Section(k, Cores, Population(k, Cores))
    {
      ghost var e: nat := 0;  // core switches listed so far
      var i := 1;
      while i <= k / 2
        invariant 1 <= i <= k / 2 + 1 && Valid()
        invariant e == (i - 1) * (k / 2) && e <= Population(k, Cores)
        invariant out == old(out) + Section(k, Cores, e)
      {
        var j := 1;
        while j <= k / 2
          invariant 1 <= j <= k / 2 + 1 && Valid()
          invariant e == (i - 1) * (k / 2) + (j - 1) && e <= Population(k, Cores)
          invariant out == old(out) + Section(k, Cores, e)
        {
          CoreOrder(k, i, j, e);
          PrintCoreSwitch(i, j);
          SectionStep(k, Cores, e, Core(k, i, j), old(out));
          e := e + 1;
          j := j + 1;
        }
        MulSucc(i - 1, k / 2);
        i := i + 1;
      }
    }

    /** The body of the core pass for switch j of group i: port m goes to the
        aggregation switch k/2 + i - 1 of pod m - 1. */
    method PrintCoreSwitch(i: nat, j: nat)
      requires Valid() && 1 <= i <= k / 2 && 1 <= j <= k / 2
      modifies this`out
      ensures Valid()
      ensures out == old(out) + Listing(k, Core(k, i, j))
    {
      out := out + [Switch(numPort, Core(k, i, j))];
      var m := 1;
      while m <= k
        invariant 1 <= m <= k + 1
        invariant out == old(out) + [Switch(k, Core(k, i, j))] + PortLines(k, Core(k, i, j), m - 1)
      {
        PortStep(k, Core(k, i, j), m - 1, old(out) + [Switch(k, Core(k, i, j))]);
        out := out + [Port(m, Endpoint(Aggr(m - 1, k / 2 + i - 1), 2 * j - 1))];
        m := m + 1;
      }
      ListingStep(k, Core(k, i, j), old(out), m - 1);
    }
  }

  /** The program: reject a missing or illegal k with status 1 and no output;
      otherwise write hosts, edge, aggregation and core switches, status 0. */
  method Generate(arg: Option<int>) returns (status: int, output: seq<Record>)
    ensures status == 0 <==> arg.Some? && Legal(arg.value)
    ensures status != 0 ==> status == 1 && output == []
    ensures status == 0 ==> output == FatTree(arg.value)
  {
    if arg.None? {
      return 1, [];
    }
    var k := arg.value;
    if k < 4 || k % 2 == 1 {
      return 1, [];
    }
    var topo := new Topology(k);
    topo.PrintNode();
    topo.PrintEdge();
    topo.PrintAgre();
    topo.PrintCore();
    Assemble(Section(k, Hosts, Population(k, Hosts)), Section(k, Edges, Population(k, Edges)),
             Section(k, Aggrs, Population(k, Aggrs)), Section(k, Cores, Population(k, Cores)));
    return 0, topo.out;
  }
}
