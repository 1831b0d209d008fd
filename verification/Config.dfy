/** From the edges of a configuration to the graph of a pipeline. */
module Config {
  import opened Topology

  type Attrs = map<string, string>

  datatype Edge = Edge(from: Name, to: Name, attrs: Attrs)
  {
    function Kind(): LinkType {
      if "type" in attrs && attrs["type"] == "Buffer" then Buffer else Normal
    }
  }

  /** The types that a registry knows, and whether it can construct a node of a type from
      given attributes. */
  datatype Registry = Registry(types: set<string>, constructs: (string, Attrs) -> bool)

  datatype Registries = Registries(inputs: Registry, filters: Registry, outputs: Registry)
  {
    /** A filter type is neither an input type nor an output type. (An input and an output
        type may have the same name: tcp and unix do.) */
    predicate Disjoint() {
      filters.types !! inputs.types && filters.types !! outputs.types
    }
  }

  datatype BuildResult = Ok(graph: Graph) | Err

  /** The nodes of a configuration, with their attributes. */
  type Nodes = map<Name, Attrs>

  predicate HasType(nodes: Nodes, u: Name) {
    u in nodes && "type" in nodes[u]
  }

  /** Node `u` has a type that `r` knows. */
  predicate Known(r: Registry, nodes: Nodes, u: Name) {
    HasType(nodes, u) && nodes[u]["type"] in r.types
  }

  /** Node `u` has a type that `r` knows, and is constructed without error. */
  predicate Makes(r: Registry, nodes: Nodes, u: Name) {
    Known(r, nodes, u) && r.constructs(nodes[u]["type"], nodes[u])
  }

  function AddLink(g: Graph, e: Edge): Graph {
    g.(pipes := g.pipes[e.from := LinksOf(g.pipes, e.from) + [Link(e.to, e.Kind())]])
  }

  /** A buffer edge joins two outputs. */
  function AddBufferEdge(rs: Registries, nodes: Nodes, g: Graph, e: Edge): BuildResult {
    if (e.from in g.outputs || Makes(rs.outputs, nodes, e.from)) && Makes(rs.outputs, nodes, e.to) then
      Ok(AddLink(g.(outputs := g.outputs + {e.from, e.to}), e))
    else Err
  }

  /** The source of any other edge is an input, or else a filter. */
  function AddSource(rs: Registries, nodes: Nodes, g: Graph, u: Name): BuildResult {
    if u in g.filters || u in g.inputs then Ok(g)
    else if Known(rs.inputs, nodes, u) then
      if Makes(rs.inputs, nodes, u) then Ok(g.(inputs := g.inputs + {u})) else Err
    else if Makes(rs.filters, nodes, u) then Ok(g.(filters := g.filters + {u}))
    else Err
  }

  /** Its target is an output, or else a filter. */
  function AddTarget(rs: Registries, nodes: Nodes, g: Graph, v: Name): BuildResult {
    if v in g.outputs then Ok(g)
    else if Known(rs.outputs, nodes, v) then
      if Makes(rs.outputs, nodes, v) then Ok(g.(outputs := g.outputs + {v})) else Err
    else if Makes(rs.filters, nodes, v) then Ok(g.(filters := g.filters + {v}))
    else Err
  }

  function AddEdge(rs: Registries, nodes: Nodes, g: Graph, e: Edge): BuildResult {
    if e.Kind().Buffer? then AddBufferEdge(rs, nodes, g, e)
    else
      match AddSource(rs, nodes, g, e.from)
      case Err => Err
      case Ok(g1) =>
        match AddTarget(rs, nodes, g1, e.to)
        case Err => Err
        case Ok(g2) => Ok(AddLink(g2, e))
  }

  const EMPTY := Graph({}, {}, {}, map[])

  /** The graph of the edges, or an error at the first edge that cannot be added. */
  function Build(rs: Registries, nodes: Nodes, edges: seq<Edge>): BuildResult {
    if edges == [] then Ok(EMPTY)
    else
      match Build(rs, nodes, edges[..|edges| - 1])
      case Err => Err
      case Ok(g) => AddEdge(rs, nodes, g, edges[|edges| - 1])
  }

  /** The loop over the edges, with its tables of what was constructed so far. */
  method ToPipeline(rs: Registries, nodes: Nodes, edges: seq<Edge>) returns (r: BuildResult)
    ensures r == Build(rs, nodes, edges)
  {
    var inputs: set<Name>, outputs: set<Name>, filters: set<Name> := {}, {}, {};
    var pipes: map<Name, seq<Link>> := map[];
    for i := 0 to |edges|
      invariant Build(rs, nodes, edges[..i]) == Ok(Graph(inputs, filters, outputs, pipes))
    {
      var e := edges[i];
      assert edges[..i + 1][..i] == edges[..i];
      assert Build(rs, nodes, edges[..i + 1]) == AddEdge(rs, nodes, Graph(inputs, filters, outputs, pipes), e);
      if e.Kind().Buffer? {
        if e.from !in outputs {
          if !Makes(rs.outputs, nodes, e.from) {
            ErrorStays(rs, nodes, edges, i + 1);
            return Err;
          }
          outputs := outputs + {e.from};
        }
        if !Makes(rs.outputs, nodes, e.to) {
          ErrorStays(rs, nodes, edges, i + 1);
          return Err;
        }
        outputs := outputs + {e.to};
      } else {
        if e.from !in filters && e.from !in inputs {
          if Known(rs.inputs, nodes, e.from) && Makes(rs.inputs, nodes, e.from) {
            inputs := inputs + {e.from};
          } else if !Known(rs.inputs, nodes, e.from) && Makes(rs.filters, nodes, e.from) {
            filters := filters + {e.from};
          } else {
            ErrorStays(rs, nodes, edges, i + 1);
            return Err;
          }
        }
        if e.to !in outputs {
          if Known(rs.outputs, nodes, e.to) && Makes(rs.outputs, nodes, e.to) {
            outputs := outputs + {e.to};
          } else if !Known(rs.outputs, nodes, e.to) && Makes(rs.filters, nodes, e.to) {
            filters := filters + {e.to};
          } else {
            ErrorStays(rs, nodes, edges, i + 1);
            return Err;
          }
        }
      }
      pipes := pipes[e.from := LinksOf(pipes, e.from) + [Link(e.to, e.Kind())]];
    }
    assert edges[..|edges|] == edges;
    return Ok(Graph(inputs, filters, outputs, pipes));
  }

  /** An edge that cannot be added is not made good by later ones. */
  lemma {:induction false} ErrorStays(rs: Registries, nodes: Nodes, edges: seq<Edge>, i: nat)
    requires i <= |edges| && Build(rs, nodes, edges[..i]).Err?
    ensures Build(rs, nodes, edges).Err?
    decreases |edges|
  {
    if i < |edges| {
      assert edges[..|edges| - 1][..i] == edges[..i];
      ErrorStays(rs, nodes, edges[..|edges| - 1], i);
    } else {
      assert edges[..i] == edges;
    }
  }

  // ---------------------------------------------------------------------------------
  // What the graph has to do with the edges

  /** The edges of `u`, as links, in order. */
  function LinksFrom(edges: seq<Edge>, u: Name): seq<Link> {
    if edges == [] then []
    else
      var last := edges[|edges| - 1];
      LinksFrom(edges[..|edges| - 1], u) + (if last.from == u then [Link(last.to, last.Kind())] else [])
  }

  /** Every source has exactly its edges as links, in order and of the right type. */
  lemma {:induction false} LinksAreEdges(rs: Registries, nodes: Nodes, edges: seq<Edge>, u: Name)
    requires Build(rs, nodes, edges).Ok?
    ensures Build(rs, nodes, edges).graph.Links(u) == LinksFrom(edges, u)
  {
    if edges != [] {
      var before, last := edges[..|edges| - 1], edges[|edges| - 1];
      var g := Build(rs, nodes, before).graph;
      LinksAreEdges(rs, nodes, before, u);
      AddEdgeLinks(rs, nodes, g, last, u);
    }
  }

  /** An edge adds one link to its source. */
  lemma AddEdgeLinks(rs: Registries, nodes: Nodes, g: Graph, e: Edge, u: Name)
    requires AddEdge(rs, nodes, g, e).Ok?
    ensures AddEdge(rs, nodes, g, e).graph.Links(u)
         == g.Links(u) + (if e.from == u then [Link(e.to, e.Kind())] else [])
  {
  }

  /** A node that can be the source of an edge that is no buffer edge. */
  predicate SourceOk(rs: Registries, nodes: Nodes, u: Name) {
    Makes(rs.inputs, nodes, u) || Makes(rs.filters, nodes, u)
  }

  predicate TargetOk(rs: Registries, nodes: Nodes, v: Name) {
    Makes(rs.outputs, nodes, v) || Makes(rs.filters, nodes, v)
  }

  predicate EdgeOk(rs: Registries, nodes: Nodes, e: Edge) {
    if e.Kind().Buffer? then Makes(rs.outputs, nodes, e.from) && Makes(rs.outputs, nodes, e.to)
    else SourceOk(rs, nodes, e.from) && TargetOk(rs, nodes, e.to)
  }

  /** `u` is used as an input, a filter, an output, by some edge. */
  predicate UsedAsInput(rs: Registries, nodes: Nodes, edges: seq<Edge>, u: Name) {
    exists i | 0 <= i < |edges| :: edges[i].Kind().Normal? && edges[i].from == u && Known(rs.inputs, nodes, u)
  }

  predicate UsedAsFilter(rs: Registries, nodes: Nodes, edges: seq<Edge>, u: Name) {
    exists i | 0 <= i < |edges| ::
      edges[i].Kind().Normal? && (edges[i].from == u || edges[i].to == u) && Known(rs.filters, nodes, u)
  }

  predicate UsedAsOutput(rs: Registries, nodes: Nodes, edges: seq<Edge>, u: Name) {
    exists i | 0 <= i < |edges| ::
      || (edges[i].Kind().Buffer? && (edges[i].from == u || edges[i].to == u))
      || (edges[i].Kind().Normal? && edges[i].to == u && Known(rs.outputs, nodes, u))
  }

  /** The roles of the nodes of `g` are those that the edges give them. */
  ghost predicate RolesMatch(rs: Registries, nodes: Nodes, edges: seq<Edge>, g: Graph) {
    && (forall u :: u in g.inputs <==> UsedAsInput(rs, nodes, edges, u))
    && (forall u :: u in g.filters <==> UsedAsFilter(rs, nodes, edges, u))
    && (forall u :: u in g.outputs <==> UsedAsOutput(rs, nodes, edges, u))
    && (forall u | u in g.inputs :: Makes(rs.inputs, nodes, u))
    && (forall u | u in g.filters :: Makes(rs.filters, nodes, u))
    && (forall u | u in g.outputs :: Makes(rs.outputs, nodes, u))
  }

  /** One more edge uses the nodes that it joins, and no others. */
  lemma UsesSnoc(rs: Registries, nodes: Nodes, edges: seq<Edge>, e: Edge, u: Name)
    ensures UsedAsInput(rs, nodes, edges + [e], u) <==>
              UsedAsInput(rs, nodes, edges, u) || UsedAsInput(rs, nodes, [e], u)
    ensures UsedAsFilter(rs, nodes, edges + [e], u) <==>
              UsedAsFilter(rs, nodes, edges, u) || UsedAsFilter(rs, nodes, [e], u)
    ensures UsedAsOutput(rs, nodes, edges + [e], u) <==>
              UsedAsOutput(rs, nodes, edges, u) || UsedAsOutput(rs, nodes, [e], u)
  {
    var all := edges + [e];
    assert all[|edges|] == e && [e][0] == e;
    assert forall i | 0 <= i < |edges| :: all[i] == edges[i];
  }

  /** An edge can be added exactly when both its ends can be made into what it needs. */
  lemma AddEdgeExact(rs: Registries, nodes: Nodes, edges: seq<Edge>, g: Graph, e: Edge)
    requires rs.Disjoint() && RolesMatch(rs, nodes, edges, g)
    ensures AddEdge(rs, nodes, g, e).Ok? <==> EdgeOk(rs, nodes, e)
  {
  }

  lemma AddEdgeInputs(rs: Registries, nodes: Nodes, edges: seq<Edge>, g: Graph, e: Edge, u: Name)
    requires rs.Disjoint() && RolesMatch(rs, nodes, edges, g) && AddEdge(rs, nodes, g, e).Ok?
    ensures var g2 := AddEdge(rs, nodes, g, e).graph;
            && (u in g2.inputs <==> UsedAsInput(rs, nodes, edges + [e], u))
            && (u in g2.inputs ==> Makes(rs.inputs, nodes, u))
  {
    assert [e][0] == e;
    UsesSnoc(rs, nodes, edges, e, u);
  }

  lemma AddEdgeFilters(rs: Registries, nodes: Nodes, edges: seq<Edge>, g: Graph, e: Edge, u: Name)
    requires rs.Disjoint() && RolesMatch(rs, nodes, edges, g) && AddEdge(rs, nodes, g, e).Ok?
    ensures var g2 := AddEdge(rs, nodes, g, e).graph;
            && (u in g2.filters <==> UsedAsFilter(rs, nodes, edges + [e], u))
            && (u in g2.filters ==> Makes(rs.filters, nodes, u))
  {
    assert [e][0] == e;
    UsesSnoc(rs, nodes, edges, e, u);
  }

  lemma AddEdgeOutputs(rs: Registries, nodes: Nodes, edges: seq<Edge>, g: Graph, e: Edge, u: Name)
    requires rs.Disjoint() && RolesMatch(rs, nodes, edges, g) && AddEdge(rs, nodes, g, e).Ok?
    ensures var g2 := AddEdge(rs, nodes, g, e).graph;
            && (u in g2.outputs <==> UsedAsOutput(rs, nodes, edges + [e], u))
            && (u in g2.outputs ==> Makes(rs.outputs, nodes, u))
  {
    assert [e][0] == e;
    UsesSnoc(rs, nodes, edges, e, u);
  }

  lemma AddEdgeRoles(rs: Registries, nodes: Nodes, edges: seq<Edge>, g: Graph, e: Edge)
    requires rs.Disjoint() && RolesMatch(rs, nodes, edges, g) && AddEdge(rs, nodes, g, e).Ok?
    ensures RolesMatch(rs, nodes, edges + [e], AddEdge(rs, nodes, g, e).graph)
  {
    forall u { AddEdgeInputs(rs, nodes, edges, g, e, u); }
    forall u { AddEdgeFilters(rs, nodes, edges, g, e, u); }
    forall u { AddEdgeOutputs(rs, nodes, edges, g, e, u); }
  }

  /** One more edge. */
  lemma BuildOneMore(rs: Registries, nodes: Nodes, before: seq<Edge>, g: Graph, e: Edge)
    requires rs.Disjoint() && RolesMatch(rs, nodes, before, g)
    ensures AddEdge(rs, nodes, g, e).Ok? <==> EdgeOk(rs, nodes, e)
    ensures AddEdge(rs, nodes, g, e).Ok? ==> RolesMatch(rs, nodes, before + [e], AddEdge(rs, nodes, g, e).graph)
  {
    AddEdgeExact(rs, nodes, before, g, e);
    if AddEdge(rs, nodes, g, e).Ok? { AddEdgeRoles(rs, nodes, before, g, e); }
  }

  predicate EdgesOk(rs: Registries, nodes: Nodes, edges: seq<Edge>) {
    forall i | 0 <= i < |edges| :: EdgeOk(rs, nodes, edges[i])
  }

  lemma EdgesOkSnoc(rs: Registries, nodes: Nodes, before: seq<Edge>, e: Edge)
    ensures EdgesOk(rs, nodes, before + [e]) <==> EdgesOk(rs, nodes, before) && EdgeOk(rs, nodes, e)
  {
    var all := before + [e];
    assert all[|before|] == e;
    assert forall i | 0 <= i < |before| :: all[i] == before[i];
  }

  /** A configuration is accepted exactly when every edge joins nodes that can be made into
      what it needs; and then every node has the roles that its edges give it. */
  lemma {:induction false} BuildExact(rs: Registries, nodes: Nodes, edges: seq<Edge>)
    requires rs.Disjoint()
    ensures Build(rs, nodes, edges).Ok? <==> EdgesOk(rs, nodes, edges)
    ensures Build(rs, nodes, edges).Ok? ==> RolesMatch(rs, nodes, edges, Build(rs, nodes, edges).graph)
  {
    if edges != [] {
      var before, last := edges[..|edges| - 1], edges[|edges| - 1];
      assert edges == before + [last];
      BuildExact(rs, nodes, before);
      EdgesOkSnoc(rs, nodes, before, last);
      if Build(rs, nodes, before).Ok? { BuildOneMore(rs, nodes, before, Build(rs, nodes, before).graph, last); }
    }
  }

  /** Every link comes from an edge. */
  lemma {:induction false} EdgeOfLink(edges: seq<Edge>, u: Name, l: Link) returns (i: nat)
    requires l in LinksFrom(edges, u)
    ensures i < |edges| && edges[i].from == u && l == Link(edges[i].to, edges[i].Kind())
  {
    var last := edges[|edges| - 1];
    if last.from == u && l == Link(last.to, last.Kind()) { return |edges| - 1; }
    i := EdgeOfLink(edges[..|edges| - 1], u, l);
  }

  /** The links of an accepted configuration join the right kinds of nodes: buffer links go
      from outputs to outputs, all others from inputs or filters to filters or outputs. */
  lemma LinksJoinRightKinds(rs: Registries, nodes: Nodes, edges: seq<Edge>, u: Name, l: Link)
    requires rs.Disjoint() && Build(rs, nodes, edges).Ok?
    requires l in Build(rs, nodes, edges).graph.Links(u)
    ensures var g := Build(rs, nodes, edges).graph;
            if l.kind.Buffer? then u in g.outputs && l.to in g.outputs
            else u in g.inputs + g.filters && l.to in g.filters + g.outputs
  {
    LinksAreEdges(rs, nodes, edges, u);
    BuildExact(rs, nodes, edges);
    var i := EdgeOfLink(edges, u, l);
    assert EdgeOk(rs, nodes, edges[i]);
  }

  /** In an accepted configuration no node has two roles, exactly when no node whose type
      names both an input and an output is used as both. */
  lemma OneRoleEach(rs: Registries, nodes: Nodes, edges: seq<Edge>)
    requires rs.Disjoint() && Build(rs, nodes, edges).Ok?
    ensures var g := Build(rs, nodes, edges).graph;
            && g.filters !! g.inputs && g.filters !! g.outputs
            && (g.inputs !! g.outputs <==>
                  forall u :: !(UsedAsInput(rs, nodes, edges, u) && UsedAsOutput(rs, nodes, edges, u)))
  {
    BuildExact(rs, nodes, edges);
  }

  /** A link that `Run` refuses: an output with a link that is not a buffer link. */
  predicate HasBadLink(g: Graph) {
    exists u | u in g.outputs :: exists i | 0 <= i < |g.Links(u)| :: g.Links(u)[i].kind.Normal?
  }

  lemma BadLinkMakesTwoRoles(rs: Registries, nodes: Nodes, edges: seq<Edge>, u: Name, i: nat)
    requires rs.Disjoint() && Build(rs, nodes, edges).Ok?
    requires var g := Build(rs, nodes, edges).graph;
             u in g.outputs && i < |g.Links(u)| && g.Links(u)[i].kind.Normal?
    ensures UsedAsInput(rs, nodes, edges, u) && UsedAsOutput(rs, nodes, edges, u)
  {
    var g := Build(rs, nodes, edges).graph;
    LinksJoinRightKinds(rs, nodes, edges, u, g.Links(u)[i]);
    OneRoleEach(rs, nodes, edges);
    BuildExact(rs, nodes, edges);
  }

  lemma {:induction false} LinkOfEdge(edges: seq<Edge>, k: nat) returns (i: nat)
    requires k < |edges|
    ensures var links := LinksFrom(edges, edges[k].from);
            i < |links| && links[i] == Link(edges[k].to, edges[k].Kind())
  {
    var last := |edges| - 1;
    if k == last {
      i := |LinksFrom(edges[..last], edges[k].from)|;
    } else {
      i := LinkOfEdge(edges[..last], k);
    }
  }

  /** An accepted configuration makes `Run` panic, over an output with a normal link, if and
      only if some node is used as both an input and an output. */
  lemma BadLinkIffTwoRoles(rs: Registries, nodes: Nodes, edges: seq<Edge>)
    requires rs.Disjoint() && Build(rs, nodes, edges).Ok?
    ensures HasBadLink(Build(rs, nodes, edges).graph)
       <==> exists u :: UsedAsInput(rs, nodes, edges, u) && UsedAsOutput(rs, nodes, edges, u)
  {
    var g := Build(rs, nodes, edges).graph;
    if HasBadLink(g) {
      var u :| u in g.outputs && exists i | 0 <= i < |g.Links(u)| :: g.Links(u)[i].kind.Normal?;
      var i :| 0 <= i < |g.Links(u)| && g.Links(u)[i].kind.Normal?;
      BadLinkMakesTwoRoles(rs, nodes, edges, u, i);
    }
    if u :| UsedAsInput(rs, nodes, edges, u) && UsedAsOutput(rs, nodes, edges, u) {
      var k :| 0 <= k < |edges| && edges[k].Kind().Normal? && edges[k].from == u && Known(rs.inputs, nodes, u);
      assert u in g.outputs by { BuildExact(rs, nodes, edges); }
      LinksAreEdges(rs, nodes, edges, u);
      var i := LinkOfEdge(edges, k);
      assert g.Links(u)[i].kind.Normal?;
    }
  }

  /** The registries of the program, with constructors that never fail. */
  function BuiltIn(): Registries {
    var always := (ty: string, attrs: Attrs) => true;
    Registries(Registry({"unix", "tcp", "journald"}, always),
               Registry({"ratelimit", "tengo"}, always),
               Registry({"stdout", "unix", "tcp", "file"}, always))
  }

  lemma BuiltInDisjoint()
    ensures BuiltIn().Disjoint()
  {
  }

  /** Two roles do occur: a tcp node between two others is made an output and an input. */
  lemma TwoRolesForOneNode(a: Name, b: Name, c: Name)
    requires a != b && b != c && a != c
    ensures var tcp: Attrs := map["type" := "tcp"];
            var r := Build(BuiltIn(), map[a := tcp, b := tcp, c := tcp], [Edge(a, b, map[]), Edge(b, c, map[])]);
            r.Ok? && b in r.graph.inputs && b in r.graph.outputs
  {
    var tcp: Attrs := map["type" := "tcp"];
    var nodes: Nodes := map[a := tcp, b := tcp, c := tcp];
    var edges := [Edge(a, b, map[]), Edge(b, c, map[])];
    BuiltInDisjoint();
    BuildExact(BuiltIn(), nodes, edges);
    assert EdgeOk(BuiltIn(), nodes, edges[0]) && EdgeOk(BuiltIn(), nodes, edges[1]);
    assert UsedAsInput(BuiltIn(), nodes, edges, b) by { assert edges[1].from == b; }
    assert UsedAsOutput(BuiltIn(), nodes, edges, b) by { assert edges[0].to == b; }
  }
}
