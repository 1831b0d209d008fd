/** Which configurations are accepted, and what graph they give, in terms of the attributes and
    the registries alone. */
module ConfigExact {
  import opened Topology
  import opened Config

  /** `u` is present, has a type that the registry has, and is constructed from its attributes
      without error. */
  ghost predicate Constructed(r: Registry, nodes: Nodes, u: Name) {
    u in nodes && "type" in nodes[u] && nodes[u]["type"] in r.types && r.constructs(nodes[u]["type"], nodes[u])
  }

  /** An edge of type "Buffer" needs two outputs; any other needs an input or a filter to come
      from, and a filter or an output to go to. */
  ghost predicate Joins(rs: Registries, nodes: Nodes, e: Edge) {
    if "type" in e.attrs && e.attrs["type"] == "Buffer" then
      Constructed(rs.outputs, nodes, e.from) && Constructed(rs.outputs, nodes, e.to)
    else
      && (Constructed(rs.inputs, nodes, e.from) || Constructed(rs.filters, nodes, e.from))
      && (Constructed(rs.outputs, nodes, e.to) || Constructed(rs.filters, nodes, e.to))
  }

  /** A configuration is accepted exactly when, for every edge, both ends are present, have a type
      that one of the registries in question has, and are constructed without error. */
  lemma AcceptedExactly(rs: Registries, nodes: Nodes, edges: seq<Edge>)
    requires rs.Disjoint()
    ensures Build(rs, nodes, edges).Ok? <==> forall i | 0 <= i < |edges| :: Joins(rs, nodes, edges[i])
  {
    BuildExact(rs, nodes, edges);
    forall e ensures EdgeOk(rs, nodes, e) <==> Joins(rs, nodes, e) { EdgeJoins(rs, nodes, e); }
  }

  lemma EdgeJoins(rs: Registries, nodes: Nodes, e: Edge)
    ensures EdgeOk(rs, nodes, e) <==> Joins(rs, nodes, e)
  {
    forall r, u ensures Makes(r, nodes, u) <==> Constructed(r, nodes, u) {}
  }

  /** A constructor that refuses a node makes the whole configuration an error, wherever an edge
      needs that node: nothing else about the node can make up for it. */
  lemma RefusedNodeIsRefused(rs: Registries, nodes: Nodes, edges: seq<Edge>, i: nat, u: Name)
    requires rs.Disjoint() && i < |edges| && (edges[i].from == u || edges[i].to == u)
    requires u in nodes && "type" in nodes[u]
    requires var ty := nodes[u]["type"];
             && !rs.inputs.constructs(ty, nodes[u]) && !rs.filters.constructs(ty, nodes[u])
             && !rs.outputs.constructs(ty, nodes[u])
    ensures Build(rs, nodes, edges).Err?
  {
    AcceptedExactly(rs, nodes, edges);
    assert !Joins(rs, nodes, edges[i]);
  }

  /** The roles in an accepted configuration. A node with an edge that is no buffer edge is an
      input if its type is an input type, and a filter if it is a filter type; a node to which such
      an edge leads is an output if its type is an output type; both ends of a buffer edge are
      outputs. Nothing else has a role. */
  lemma RolesExactly(rs: Registries, nodes: Nodes, edges: seq<Edge>, u: Name)
    requires rs.Disjoint() && Build(rs, nodes, edges).Ok?
    ensures u in Build(rs, nodes, edges).graph.Nodes() ==> u in nodes && "type" in nodes[u]
    ensures u in nodes && "type" in nodes[u] ==>
      var g, ty := Build(rs, nodes, edges).graph, nodes[u]["type"];
      && (u in g.inputs <==> ty in rs.inputs.types && exists i | 0 <= i < |edges| ::
            edges[i].from == u && !("type" in edges[i].attrs && edges[i].attrs["type"] == "Buffer"))
      && (u in g.filters <==> ty in rs.filters.types && exists i | 0 <= i < |edges| ::
            (edges[i].from == u || edges[i].to == u)
            && !("type" in edges[i].attrs && edges[i].attrs["type"] == "Buffer"))
      && (u in g.outputs <==> ty in rs.outputs.types && exists i | 0 <= i < |edges| ::
            edges[i].to == u
            || (edges[i].from == u && "type" in edges[i].attrs && edges[i].attrs["type"] == "Buffer"))
  {
    var g := Build(rs, nodes, edges).graph;
    BuildExact(rs, nodes, edges);
    if u in nodes && "type" in nodes[u] { InputRole(rs, nodes, edges, u); OutputRole(rs, nodes, edges, u); }
  }

  lemma InputRole(rs: Registries, nodes: Nodes, edges: seq<Edge>, u: Name)
    requires u in nodes && "type" in nodes[u]
    ensures UsedAsInput(rs, nodes, edges, u) <==>
      nodes[u]["type"] in rs.inputs.types && exists i | 0 <= i < |edges| ::
        edges[i].from == u && !("type" in edges[i].attrs && edges[i].attrs["type"] == "Buffer")
    ensures UsedAsFilter(rs, nodes, edges, u) <==>
      nodes[u]["type"] in rs.filters.types && exists i | 0 <= i < |edges| ::
        (edges[i].from == u || edges[i].to == u)
        && !("type" in edges[i].attrs && edges[i].attrs["type"] == "Buffer")
  {
  }

  lemma OutputRole(rs: Registries, nodes: Nodes, edges: seq<Edge>, u: Name)
    requires rs.Disjoint() && Build(rs, nodes, edges).Ok? && u in nodes && "type" in nodes[u]
    ensures UsedAsOutput(rs, nodes, edges, u) <==>
      nodes[u]["type"] in rs.outputs.types && exists i | 0 <= i < |edges| ::
        edges[i].to == u || (edges[i].from == u && "type" in edges[i].attrs && edges[i].attrs["type"] == "Buffer")
  {
    BuildExact(rs, nodes, edges);
    if UsedAsOutput(rs, nodes, edges, u) {
      var i :| 0 <= i < |edges| && ((edges[i].Kind().Buffer? && (edges[i].from == u || edges[i].to == u))
                                    || (edges[i].Kind().Normal? && edges[i].to == u && Known(rs.outputs, nodes, u)));
      assert edges[i].to == u || edges[i].from == u;
      assert EdgeOk(rs, nodes, edges[i]);
    }
  }

  /** The links of a node are its edges, in order; one of type "Buffer" is a buffer link, and any
      other, of whatever type or none, a normal link. */
  lemma LinksExactly(edges: seq<Edge>, e: Edge, u: Name)
    ensures LinksFrom([], u) == []
    ensures LinksFrom(edges + [e], u) == LinksFrom(edges, u) + (if e.from == u then
              [Link(e.to, if "type" in e.attrs && e.attrs["type"] == "Buffer" then Buffer else Normal)] else [])
  {
    assert (edges + [e])[..|edges|] == edges;
  }
}
