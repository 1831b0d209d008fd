/** Which configurations give a well-formed pipeline. What the theorems about pipelines ask
    for is read off the edges of the configuration; the rest is what the program does. */
module ConfiguredPipelines {
  import opened SenderModel
  import opened Topology
  import opened Config
  import FailedInit
  import Filters
  import Laws = SenderLaws
  import Lifecycle

  // ---------------------------------------------------------------------------------
  // Links and edges

  /** The numbers of the edges of `u`: link i of `u` is edge number `EdgesOf(edges, u)[i]`. */
  function EdgesOf(edges: seq<Edge>, u: Name): (r: seq<nat>)
    ensures |r| == |LinksFrom(edges, u)|
  {
    if edges == [] then []
    else EdgesOf(edges[..|edges| - 1], u) + (if edges[|edges| - 1].from == u then [|edges| - 1] else [])
  }

  lemma {:induction false} EdgeAt(edges: seq<Edge>, u: Name, i: nat)
    requires i < |EdgesOf(edges, u)|
    ensures var k := EdgesOf(edges, u)[i];
            k < |edges| && edges[k].from == u && LinksFrom(edges, u)[i] == Link(edges[k].to, edges[k].Kind())
  {
    var before := edges[..|edges| - 1];
    if i < |EdgesOf(before, u)| { EdgeAt(before, u, i); }
  }

  lemma {:induction false} EdgesIncrease(edges: seq<Edge>, u: Name, i: nat, j: nat)
    requires i < j < |EdgesOf(edges, u)|
    ensures EdgesOf(edges, u)[i] < EdgesOf(edges, u)[j]
  {
    var before := edges[..|edges| - 1];
    EdgeAt(before, u, i);
    if j < |EdgesOf(before, u)| { EdgesIncrease(before, u, i, j); }
  }

  /** Only nodes with an edge are in the map of links. */
  lemma {:induction false} PipesHaveLinks(rs: Registries, nodes: Nodes, edges: seq<Edge>, u: Name)
    requires Build(rs, nodes, edges).Ok? && u in Build(rs, nodes, edges).graph.pipes
    ensures Build(rs, nodes, edges).graph.Links(u) != []
  {
    if edges != [] {
      var g := Build(rs, nodes, edges[..|edges| - 1]).graph;
      if u in g.pipes { PipesHaveLinks(rs, nodes, edges[..|edges| - 1], u); }
    }
  }

  // ---------------------------------------------------------------------------------
  // Suitable configurations

  /** `e` comes from or goes to `u`. */
  predicate Touches(e: Edge, u: Name) {
    e.from == u || e.to == u
  }

  /** No cycle, no edge twice, at most one buffer edge for an output, and no node that is used
      as an input and as an output. */
  ghost predicate WellConnected(rs: Registries, nodes: Nodes, edges: seq<Edge>, rank: Name -> nat, depth: nat) {
    && (forall i | 0 <= i < |edges| :: rank(edges[i].from) < rank(edges[i].to) < depth)
    && (forall i, j | 0 <= i < j < |edges| && edges[i].from == edges[j].from :: edges[i].to != edges[j].to)
    && (forall i, j | 0 <= i < j < |edges| && edges[i].Kind().Buffer? && edges[j].Kind().Buffer? ::
          edges[i].from != edges[j].from)
    && (forall u :: !(UsedAsInput(rs, nodes, edges, u) && UsedAsOutput(rs, nodes, edges, u)))
  }

  /** Whatever is not used as an input is the target of an edge. */
  ghost predicate EverythingFed(rs: Registries, nodes: Nodes, edges: seq<Edge>) {
    forall i | 0 <= i < |edges| ::
      UsedAsInput(rs, nodes, edges, edges[i].from) || exists j | 0 <= j < |edges| :: edges[j].to == edges[i].from
  }

  /** Every output runs the sender of the program, with any send configuration, any results of
      its outputter and any clock; it has a buffer channel if there is an edge for one. */
  ghost predicate RunsSenders(p: Lifecycle.Pipeline, c: Name -> ValidConfig, e: Name -> Env) {
    forall u | u in p.graph.outputs ::
      && p.sender(u) == Laws.OpsOf(c(u), e(u))
      && p.size(u) == c(u).capacity
      && (c(u).hasBuffer <==> p.graph.Links(u) != [])
  }

  /** No node hands on batches that its targets cannot take. */
  predicate SizesFit(p: Lifecycle.Pipeline, edges: seq<Edge>) {
    forall i | 0 <= i < |edges| :: p.size(edges[i].from) <= p.size(edges[i].to)
  }

  /** The pipeline `p` of an accepted configuration. */
  ghost predicate Configured(rs: Registries, nodes: Nodes, edges: seq<Edge>, p: Lifecycle.Pipeline) {
    && rs.Disjoint() && Build(rs, nodes, edges) == Ok(p.graph)
    && WellConnected(rs, nodes, edges, p.rank, p.depth) && SizesFit(p, edges)
  }

  lemma NodeHasEdge(rs: Registries, nodes: Nodes, edges: seq<Edge>, p: Lifecycle.Pipeline, u: Name) returns (i: nat)
    requires Configured(rs, nodes, edges, p) && u in p.graph.Nodes()
    ensures i < |edges| && Touches(edges[i], u)
  {
    BuildExact(rs, nodes, edges);
    i :| 0 <= i < |edges| && Touches(edges[i], u);
  }

  lemma LinksAreOk(rs: Registries, nodes: Nodes, edges: seq<Edge>, p: Lifecycle.Pipeline, u: Name, i: nat)
    requires Configured(rs, nodes, edges, p) && i < |p.graph.Links(u)|
    ensures u in p.graph.Nodes() && Lifecycle.LinkOk(p, u, p.graph.Links(u)[i])
  {
    var l := p.graph.Links(u)[i];
    LinksAreEdges(rs, nodes, edges, u);
    EdgeAt(edges, u, i);
    var k := EdgesOf(edges, u)[i];
    assert l == Link(edges[k].to, edges[k].Kind());
    LinksJoinRightKinds(rs, nodes, edges, u, l);
    OneRoleEach(rs, nodes, edges);
  }

  lemma OneBufferEdge(rs: Registries, nodes: Nodes, edges: seq<Edge>, p: Lifecycle.Pipeline, i: nat, j: nat)
    requires WellConnected(rs, nodes, edges, p.rank, p.depth) && i < |edges| && j < |edges|
    requires edges[i].Kind().Buffer? && edges[j].Kind().Buffer? && edges[i].from == edges[j].from
    ensures i == j
  {
  }

  lemma LinksDiffer(rs: Registries, nodes: Nodes, edges: seq<Edge>, p: Lifecycle.Pipeline, u: Name)
    requires Configured(rs, nodes, edges, p)
    ensures p.graph.NoRepeatedLink(u)
  {
    LinksAreEdges(rs, nodes, edges, u);
    forall i, j | 0 <= i < j < |p.graph.Links(u)| ensures p.graph.Links(u)[i].to != p.graph.Links(u)[j].to {
      EdgeAt(edges, u, i);
      EdgeAt(edges, u, j);
      EdgesIncrease(edges, u, i, j);
    }
  }

  lemma AtMostOneBuffer(rs: Registries, nodes: Nodes, edges: seq<Edge>, p: Lifecycle.Pipeline, u: Name)
    requires Configured(rs, nodes, edges, p) && u in p.graph.outputs
    ensures |p.graph.Links(u)| <= 1
  {
    LinksAreEdges(rs, nodes, edges, u);
    if |p.graph.Links(u)| > 1 {
      var first, second := EdgesOf(edges, u)[0], EdgesOf(edges, u)[1];
      EdgesIncrease(edges, u, 0, 1);
      OutputEdgeIsBuffer(rs, nodes, edges, p, u, 0);
      OutputEdgeIsBuffer(rs, nodes, edges, p, u, 1);
      OneBufferEdge(rs, nodes, edges, p, first, second);
    }
  }

  lemma OutputEdgeIsBuffer(rs: Registries, nodes: Nodes, edges: seq<Edge>, p: Lifecycle.Pipeline, u: Name, i: nat)
    requires Configured(rs, nodes, edges, p) && u in p.graph.outputs && i < |EdgesOf(edges, u)|
    ensures var k := EdgesOf(edges, u)[i]; k < |edges| && edges[k].from == u && edges[k].Kind().Buffer?
  {
    LinksAreEdges(rs, nodes, edges, u);
    LinksAreOk(rs, nodes, edges, p, u, i);
    EdgeAt(edges, u, i);
    OneRoleEach(rs, nodes, edges);
  }

  lemma ConfiguredNode(rs: Registries, nodes: Nodes, edges: seq<Edge>, p: Lifecycle.Pipeline,
                       c: Name -> ValidConfig, e: Name -> Env, u: Name)
    requires Configured(rs, nodes, edges, p) && RunsSenders(p, c, e) && u in p.graph.Nodes()
    ensures Lifecycle.NodeOk(p, u)
  {
    var k := NodeHasEdge(rs, nodes, edges, p, u);
    forall i | 0 <= i < |p.graph.Links(u)| ensures Lifecycle.LinkOk(p, u, p.graph.Links(u)[i]) {
      LinksAreOk(rs, nodes, edges, p, u, i);
    }
    if u in p.graph.outputs {
      AtMostOneBuffer(rs, nodes, edges, p, u);
      Laws.SenderIsHonest(c(u), e(u));
    }
  }

  lemma EdgeGivesSource(rs: Registries, nodes: Nodes, edges: seq<Edge>, g: Graph, k: nat)
    requires Build(rs, nodes, edges) == Ok(g) && k < |edges|
    ensures edges[k].from in g.Sources(edges[k].to)
  {
    var u := edges[k].from;
    LinksAreEdges(rs, nodes, edges, u);
    var i := LinkOfEdge(edges, k);
    assert g.Links(u)[i].to == edges[k].to;
    assert g.Feeds(u, edges[k].to);
  }

  lemma NodeIsFed(rs: Registries, nodes: Nodes, edges: seq<Edge>, p: Lifecycle.Pipeline, v: Name) returns (k: nat)
    requires Configured(rs, nodes, edges, p) && EverythingFed(rs, nodes, edges)
    requires v in p.graph.Nodes() && v !in p.graph.inputs
    ensures k < |edges| && edges[k].to == v
  {
    k := NodeHasEdge(rs, nodes, edges, p, v);
    if edges[k].to != v {
      assert !UsedAsInput(rs, nodes, edges, v) by { BuildExact(rs, nodes, edges); }
      k :| 0 <= k < |edges| && edges[k].to == v;
    }
  }

  /** A node that is not an input is the target of an edge, and so has a source. */
  lemma ConfiguredSource(rs: Registries, nodes: Nodes, edges: seq<Edge>, p: Lifecycle.Pipeline, v: Name)
    requires Configured(rs, nodes, edges, p) && EverythingFed(rs, nodes, edges)
    requires v in p.graph.Nodes() && v !in p.graph.inputs
    ensures p.graph.Sources(v) != {}
  {
    var k := NodeIsFed(rs, nodes, edges, p, v);
    EdgeGivesSource(rs, nodes, edges, p.graph, k);
  }

  /** An accepted configuration whose edges form no cycle, are not repeated, give no output two
      buffers and no node two roles, is a safe pipeline: it never panics. */
  lemma ConfiguredIsSafe(rs: Registries, nodes: Nodes, edges: seq<Edge>, p: Lifecycle.Pipeline,
                         c: Name -> ValidConfig, e: Name -> Env)
    requires Configured(rs, nodes, edges, p) && RunsSenders(p, c, e)
    ensures Lifecycle.Safe(p) && Lifecycle.SingleLinks(p)
  {
    OneRoleEach(rs, nodes, edges);
    forall u | u in p.graph.pipes ensures u in p.graph.Nodes() {
      PipesHaveLinks(rs, nodes, edges, u);
      LinksAreOk(rs, nodes, edges, p, u, 0);
    }
    forall u | u in p.graph.Nodes() ensures Lifecycle.NodeOk(p, u) {
      ConfiguredNode(rs, nodes, edges, p, c, e, u);
    }
    NothingDoubled(rs, nodes, edges, p);
  }

  /** If there is also an edge to every node that is not an input, it is a well-formed pipeline:
      all theorems about pipelines hold of it. */
  lemma ConfiguredIsWellFormed(rs: Registries, nodes: Nodes, edges: seq<Edge>, p: Lifecycle.Pipeline,
                               c: Name -> ValidConfig, e: Name -> Env)
    requires Configured(rs, nodes, edges, p) && EverythingFed(rs, nodes, edges) && RunsSenders(p, c, e)
    ensures Lifecycle.WellFormed(p) && Lifecycle.SingleLinks(p)
  {
    ConfiguredIsSafe(rs, nodes, edges, p, c, e);
    forall v | v in p.graph.Nodes() && v !in p.graph.inputs ensures p.graph.Sources(v) != {} {
      ConfiguredSource(rs, nodes, edges, p, v);
    }
  }

  lemma NothingDoubled(rs: Registries, nodes: Nodes, edges: seq<Edge>, p: Lifecycle.Pipeline)
    requires Configured(rs, nodes, edges, p)
    ensures Lifecycle.SingleLinks(p) && p.graph.NoDoubleClosing()
  {
    forall u ensures p.graph.NoRepeatedLink(u) { LinksDiffer(rs, nodes, edges, p, u); }
    forall u, v ensures !p.graph.Doubled(u, v) { LinksDiffer(rs, nodes, edges, p, u); }
  }

  /** Every input of an accepted configuration has a link, so if its `Init` fails the pipeline
      can panic. */
  lemma AnyFailedInitCanPanic(rs: Registries, nodes: Nodes, edges: seq<Edge>, p: Lifecycle.Pipeline,
                              c: Name -> ValidConfig, e: Name -> Env, u: Name)
    requires Configured(rs, nodes, edges, p) && EverythingFed(rs, nodes, edges)
    requires RunsSenders(p, c, e) && u in p.graph.inputs
    ensures exists trace :: FailedInit.RunFrom(p, FailedInit.FailInit(p, Lifecycle.Init(p), u), trace).Panic?
  {
    ConfiguredIsWellFormed(rs, nodes, edges, p, c, e);
    InputHasLink(rs, nodes, edges, p.graph, u);
    FailedInit.FailedInitPanicsIffLinked(p, u);
  }

  lemma InputHasLink(rs: Registries, nodes: Nodes, edges: seq<Edge>, g: Graph, u: Name)
    requires rs.Disjoint() && Build(rs, nodes, edges) == Ok(g) && u in g.inputs
    ensures g.Links(u) != []
  {
    BuildExact(rs, nodes, edges);
    assert UsedAsInput(rs, nodes, edges, u);
    var k :| 0 <= k < |edges| && edges[k].Kind().Normal? && edges[k].from == u && Known(rs.inputs, nodes, u);
    LinksAreEdges(rs, nodes, edges, u);
    var i := LinkOfEdge(edges, k);
  }

  /** Whenever there is something in its buffer, and the flush interval has passed since its last
      acknowledgement or there is a full batch, the next tick of an idle output settles the whole
      buffer, and the output begins to send it to its buffer channel if it had to be diverted
      there. At any other time a tick does nothing but read the clock. */
  lemma TickSettlesBuffer(p: Lifecycle.Pipeline, c: Name -> ValidConfig, e: Name -> Env, u: Name, n: Lifecycle.Node)
    requires RunsSenders(p, c, e) && u in p.graph.outputs && u !in p.graph.inputs && n.phase.Idle?
    ensures var a := Lifecycle.Act(p, u, n, Lifecycle.Tick(u));
            a.Become? &&
            if n.sender.buffer != []
               && (e(u).clock(n.sender.readings) - n.sender.lastFlush >= c(u).flushInterval
                   || |n.sender.buffer| >= c(u).batchSize) then
              && a.n.sender.buffer == []
              && Settled(a.n.sender.settled) == Settled(n.sender.settled) + n.sender.buffer
              && (a.n.phase.Sending? <==> !a.n.sender.current.Success? && p.graph.Links(u) != [])
              && (a.n.phase.Sending? ==> a.n.phase.batch == n.sender.buffer)
            else a.n == n.(sender := n.sender.(readings := n.sender.readings + 1))
  {
    var t := Flush(c(u), e(u), n.sender, false);
    assert Lifecycle.Act(p, u, n, Lifecycle.Tick(u)) == Lifecycle.Become(Lifecycle.AfterSender(n, t, false));
    Laws.FlushOutcome(c(u), e(u), n.sender, false);
    if GateOpen(c(u), e(u), n.sender, false) && n.sender.buffer != [] {
      Laws.SettledOnceKeepsOrder(c(u), e(u), n.sender, t);
    }
  }

  // ---------------------------------------------------------------------------------
  // There are such configurations

  /** A tcp input, a rate limit, and an output to a file that may divert to a second file. */
  function ChainNodes(i: Name, f: Name, o: Name, b: Name): Nodes {
    map[i := map["type" := "tcp"], f := map["type" := "ratelimit"],
        o := map["type" := "file"], b := map["type" := "file"]]
  }

  function ChainEdges(i: Name, f: Name, o: Name, b: Name): seq<Edge> {
    [Edge(i, f, map[]), Edge(f, o, map[]), Edge(o, b, map["type" := "Buffer"])]
  }

  function ChainRank(i: Name, f: Name, o: Name): Name -> nat {
    (u: Name) => if u == i then 0 else if u == f then 1 else if u == o then 2 else 3
  }

  predicate Distinct(i: Name, f: Name, o: Name, b: Name) {
    i != f && i != o && i != b && f != o && f != b && o != b
  }

  lemma ChainRoles(i: Name, f: Name, o: Name, b: Name, u: Name)
    requires Distinct(i, f, o, b)
    ensures var nodes, edges := ChainNodes(i, f, o, b), ChainEdges(i, f, o, b);
            && (UsedAsInput(BuiltIn(), nodes, edges, u) <==> u == i)
            && (UsedAsOutput(BuiltIn(), nodes, edges, u) <==> u == o || u == b)
  {
    var edges := ChainEdges(i, f, o, b);
    assert edges[0] == Edge(i, f, map[]) && edges[1] == Edge(f, o, map[]) && edges[2].from == o && edges[2].to == b;
  }

  lemma ChainConnected(i: Name, f: Name, o: Name, b: Name)
    requires Distinct(i, f, o, b)
    ensures WellConnected(BuiltIn(), ChainNodes(i, f, o, b), ChainEdges(i, f, o, b), ChainRank(i, f, o), 4)
    ensures EverythingFed(BuiltIn(), ChainNodes(i, f, o, b), ChainEdges(i, f, o, b))
  {
    var edges := ChainEdges(i, f, o, b);
    assert edges[0].to == f && edges[1].to == o && edges[2].from == o;
    forall u { ChainRoles(i, f, o, b, u); }
  }

  lemma ChainBuilds(i: Name, f: Name, o: Name, b: Name)
    requires Distinct(i, f, o, b)
    ensures var r := Build(BuiltIn(), ChainNodes(i, f, o, b), ChainEdges(i, f, o, b));
            && r.Ok? && r.graph.outputs == {o, b}
            && r.graph.Links(o) == [Link(b, Buffer)] && r.graph.Links(b) == []
  {
    var rs, nodes, edges := BuiltIn(), ChainNodes(i, f, o, b), ChainEdges(i, f, o, b);
    assert forall k | 0 <= k < |edges| :: EdgeOk(rs, nodes, edges[k]);
    BuiltInDisjoint();
    BuildExact(rs, nodes, edges);
    forall u { ChainRoles(i, f, o, b, u); }
    LinksAreEdges(rs, nodes, edges, o);
    LinksAreEdges(rs, nodes, edges, b);
    ChainLinks(i, f, o, b);
  }

  lemma ChainLinks(i: Name, f: Name, o: Name, b: Name)
    requires Distinct(i, f, o, b)
    ensures LinksFrom(ChainEdges(i, f, o, b), o) == [Link(b, Buffer)] && LinksFrom(ChainEdges(i, f, o, b), b) == []
  {
    var edges := ChainEdges(i, f, o, b);
    var two, one := edges[..2], edges[..1];
    assert two[..1] == one && one[..0] == [];
    forall u | u != i && u != f ensures LinksFrom(two, u) == [] {
      assert LinksFrom(one, u) == LinksFrom(one[..0], u) + [];
      assert LinksFrom(two, u) == LinksFrom(two[..1], u) + [];
    }
    assert edges[2] == Edge(o, b, map["type" := "Buffer"]) && edges[2].Kind() == Buffer;
  }

  function ChainPipeline(g: Graph, i: Name, f: Name, o: Name, b: Name, filter: Name -> Filters.Filter,
                         c: Name -> ValidConfig, e: Name -> Env): Lifecycle.Pipeline
  {
    Lifecycle.Pipeline(
      g, filter, (u: Name) => Laws.OpsOf(c(u), e(u)),
      (u: Name) => if u == b then c(b).capacity else c(o).capacity, ChainRank(i, f, o), 4)
  }

  lemma ChainRunsSenders(g: Graph, i: Name, f: Name, o: Name, b: Name, filter: Name -> Filters.Filter,
                         c: Name -> ValidConfig, e: Name -> Env)
    requires Distinct(i, f, o, b) && c(o).hasBuffer && !c(b).hasBuffer && c(o).capacity <= c(b).capacity
    requires g.outputs == {o, b} && g.Links(o) == [Link(b, Buffer)] && g.Links(b) == []
    ensures var p := ChainPipeline(g, i, f, o, b, filter, c, e);
            RunsSenders(p, c, e) && SizesFit(p, ChainEdges(i, f, o, b))
  {
  }

  /** Such a chain can be configured, and is a well-formed pipeline whatever its filter does,
      whatever the outputters answer and whatever the clocks say: so the conditions of
      `ConfiguredIsWellFormed` can be met. */
  lemma ChainIsWellFormed(i: Name, f: Name, o: Name, b: Name, filter: Name -> Filters.Filter,
                          c: Name -> ValidConfig, e: Name -> Env)
    requires Distinct(i, f, o, b) && c(o).hasBuffer && !c(b).hasBuffer && c(o).capacity <= c(b).capacity
    ensures var r := Build(BuiltIn(), ChainNodes(i, f, o, b), ChainEdges(i, f, o, b));
            r.Ok? && Lifecycle.WellFormed(ChainPipeline(r.graph, i, f, o, b, filter, c, e))
  {
    ChainBuilds(i, f, o, b);
    var nodes, edges := ChainNodes(i, f, o, b), ChainEdges(i, f, o, b);
    var g := Build(BuiltIn(), nodes, edges).graph;
    var p := ChainPipeline(g, i, f, o, b, filter, c, e);
    ChainRunsSenders(g, i, f, o, b, filter, c, e);
    ChainConnected(i, f, o, b);
    BuiltInDisjoint();
    assert Configured(BuiltIn(), nodes, edges, p);
    ConfiguredIsWellFormed(BuiltIn(), nodes, edges, p, c, e);
  }
}
