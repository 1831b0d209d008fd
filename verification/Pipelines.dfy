/** The pipeline object: its links, the reversed links, and the closing of channels. */
module Pipelines {
  import opened Topology

  /** How often `u` has a link of type `kind` to `v`. */
  function LinkCount(pipes: map<Name, seq<Link>>, u: Name, v: Name, kind: LinkType): nat {
    multiset(LinksOf(pipes, u))[Link(v, kind)]
  }

  /** `rev` has every link of `pipes`, as often as `pipes` has it, the other way round. */
  ghost predicate Transposed(pipes: map<Name, seq<Link>>, rev: map<Name, seq<Link>>) {
    forall u, v, kind :: LinkCount(rev, v, u, kind) == LinkCount(pipes, u, v, kind)
  }

  lemma InMultiset(links: seq<Link>, l: Link)
    ensures l in links <==> multiset(links)[l] > 0
  {
    assert l in links <==> l in multiset(links);
  }

  /** The sources of a node are those that the reversed links name. */
  lemma SourcesByReversedLinks(g: Graph, rev: map<Name, seq<Link>>, v: Name, u: Name)
    requires Transposed(g.pipes, rev)
    ensures u in g.Sources(v) <==> exists k | 0 <= k < |LinksOf(rev, v)| :: LinksOf(rev, v)[k].to == u
  {
    var links, back := LinksOf(g.pipes, u), LinksOf(rev, v);
    if u in g.Sources(v) {
      var i :| 0 <= i < |links| && links[i].to == v;
      InMultiset(links, Link(v, links[i].kind));
      InMultiset(back, Link(u, links[i].kind));
      assert links[i] == Link(v, links[i].kind);
      assert LinkCount(rev, v, u, links[i].kind) == LinkCount(g.pipes, u, v, links[i].kind);
    }
    if k :| 0 <= k < |back| && back[k].to == u {
      InMultiset(back, Link(u, back[k].kind));
      InMultiset(links, Link(v, back[k].kind));
      assert back[k] == Link(u, back[k].kind);
      assert LinkCount(rev, v, u, back[k].kind) == LinkCount(g.pipes, u, v, back[k].kind);
      assert Link(v, back[k].kind) in links;
      var i :| 0 <= i < |links| && links[i] == Link(v, back[k].kind);
      assert g.Links(u)[i].to == v;
    }
  }

  /** `rev` with one more link back to `from`. */
  function WithReversed(rev: map<Name, seq<Link>>, from: Name, to: Link): map<Name, seq<Link>> {
    rev[to.to := LinksOf(rev, to.to) + [Link(from, to.kind)]]
  }

  lemma ReversedCount(rev: map<Name, seq<Link>>, from: Name, to: Link, u: Name, v: Name, kind: LinkType)
    ensures LinkCount(WithReversed(rev, from, to), v, u, kind)
         == LinkCount(rev, v, u, kind) + (if u == from && to == Link(v, kind) then 1 else 0)
  {
  }

  /** `rev` has the links `tos` of `from` reversed. */
  ghost predicate Reversed(rev: map<Name, seq<Link>>, from: Name, tos: seq<Link>) {
    forall v, kind :: LinkCount(rev, v, from, kind) == multiset(tos)[Link(v, kind)]
  }

  /** `after` has what `rev` has of the links of all other nodes. */
  ghost predicate OthersKept(rev: map<Name, seq<Link>>, after: map<Name, seq<Link>>, from: Name) {
    forall u, v, kind | u != from :: LinkCount(after, v, u, kind) == LinkCount(rev, v, u, kind)
  }

  lemma ReverseOneMore(rev: map<Name, seq<Link>>, from: Name, tos: seq<Link>, to: Link)
    requires Reversed(rev, from, tos)
    ensures Reversed(WithReversed(rev, from, to), from, tos + [to])
    ensures OthersKept(rev, WithReversed(rev, from, to), from)
  {
    var after := WithReversed(rev, from, to);
    forall v, kind ensures LinkCount(after, v, from, kind) == multiset(tos + [to])[Link(v, kind)] {
      ReversedCount(rev, from, to, from, v, kind);
    }
    forall u, v, kind | u != from ensures LinkCount(after, v, u, kind) == LinkCount(rev, v, u, kind) {
      ReversedCount(rev, from, to, u, v, kind);
    }
  }

  class Pipeline {
    const graph: Graph
    var revPipes: map<Name, seq<Link>>
    var channels: map<Name, bool>     // for every channel, whether it is closed
    var closed: set<Name>             // the nodes that have called HandleClose

    ghost predicate Valid()
      reads this
    {
      Transposed(graph.pipes, revPipes)
    }

    /** The order in which the sources are visited is arbitrary, and so is the order of the
        reversed links. */
    constructor (graph: Graph)
      ensures Valid() && this.graph == graph && closed == {} && channels == map[]
    {
      this.graph := graph;
      revPipes := map[];
      channels, closed := map[], {};
      new;
      var todo := graph.pipes.Keys;
      while todo != {}
        invariant todo <= graph.pipes.Keys && closed == {} && channels == map[]
        invariant forall u, v, kind :: LinkCount(revPipes, v, u, kind)
                                    == (if u in todo then 0 else LinkCount(graph.pipes, u, v, kind))
        decreases |todo|
      {
        var from :| from in todo;
        todo := todo - {from};
        Reverse(from);
      }
    }

    /** Add the links of `from`, none of which is there yet. */
    method Reverse(from: Name)
      requires from in graph.pipes
      requires forall v, kind :: LinkCount(revPipes, v, from, kind) == 0
      modifies this`revPipes
      ensures Reversed(revPipes, from, graph.pipes[from]) && OthersKept(old(revPipes), revPipes, from)
    {
      var tos := graph.pipes[from];
      for i := 0 to |tos|
        invariant Reversed(revPipes, from, tos[..i]) && OthersKept(old(revPipes), revPipes, from)
      {
        assert tos[..i + 1] == tos[..i] + [tos[i]];
        ReverseOneMore(revPipes, from, tos[..i], tos[i]);
        revPipes := WithReversed(revPipes, from, tos[i]);
      }
      assert tos[..|tos|] == tos;
    }

    /** Have all sources of `v` called HandleClose? */
    method AllSourcesClosed(v: Name) returns (all: bool)
      requires Valid()
      ensures all <==> graph.Sources(v) <= closed
    {
      var srcs := LinksOf(revPipes, v);
      forall u ensures u in graph.Sources(v) <==> exists k | 0 <= k < |srcs| :: srcs[k].to == u {
        SourcesByReversedLinks(graph, revPipes, v, u);
      }
      for i := 0 to |srcs|
        invariant forall k | 0 <= k < i :: srcs[k].to in closed
      {
        if srcs[i].to !in closed {
          assert srcs[i].to in graph.Sources(v);
          return false;
        }
      }
      return true;
    }

    /** Has `dest` not called HandleClose itself, but all of its sources have? */
    method IsLast(dest: Name) returns (yes: bool)
      requires Valid()
      ensures yes <==> dest !in closed && graph.Sources(dest) <= closed
    {
      if dest in closed {
        return false;
      }
      yes := AllSourcesClosed(dest);
    }

    /** One round of the worklist: close the channels of those targets of `x` that have not
        called HandleClose themselves and all of whose sources have. */
    method CloseTargets(x: Name) returns (panicked: bool, ready: seq<Name>)
      requires Valid()
      modifies this`channels
      ensures panicked <==> graph.DoubleClose(old(channels), closed, x)
      ensures !panicked ==>
        && channels == CloseChannels(old(channels), graph.Closable(closed, x))
        && (forall v | v in ready :: v in graph.Closable(closed, x))
        && |ready| <= |graph.Links(x)|
    {
      ready := [];
      var links := graph.Links(x);
      ghost var closing := graph.Closable(closed, x);
      for i := 0 to |links|
        invariant |ready| <= i
        invariant forall v | v in ready :: v in closing && exists j | 0 <= j < i :: links[j].to == v
        invariant forall j | 0 <= j < i && links[j].to in closing :: links[j].to in ready
        invariant channels == CloseChannels(old(channels), set v | v in ready)
        invariant forall v | v in ready && v in old(channels) :: !old(channels)[v]
        invariant forall j, k | 0 <= j < k < i && links[j].to == links[k].to :: links[j].to !in closing * channels.Keys
      {
        var dest := links[i].to;
        var last := IsLast(dest);
        if last {
          assert dest in closing;
          if dest in channels {
            if channels[dest] {
              return true, ready;
            }
            channels := channels[dest := true];
          }
          ready := ready + [dest];
        }
      }
      return false, ready;
    }

    /** The worklist. It closes the channels of those targets of `name` that have lost their last
        source, and no others: the nodes that it puts on the list are themselves sources that
        have not called HandleClose, so taking them off again closes nothing. It panics exactly
        when that would close a channel twice. */
    method HandleClose(name: Name) returns (panicked: bool, ghost pops: nat)
      requires Valid()
      modifies this
      ensures panicked <==> graph.DoubleClose(old(channels), old(closed) + {name}, name)
      ensures !panicked ==>
        && Valid() && revPipes == old(revPipes)
        && closed == old(closed) + {name}
        && channels == CloseChannels(old(channels), graph.Closable(closed, name))
        && pops <= 1 + |graph.Links(name)|
    {
      closed := closed + {name};
      pops := 0;
      ghost var first := true;
      var toHandle := [name];
      while toHandle != []
        invariant Valid() && closed == old(closed) + {name} && revPipes == old(revPipes)
        invariant first ==> toHandle == [name] && channels == old(channels) && pops == 0
        invariant !first ==>
          && !graph.DoubleClose(old(channels), closed, name)
          && channels == CloseChannels(old(channels), graph.Closable(closed, name))
          && (forall x | x in toHandle :: x in graph.Closable(closed, name))
          && pops + |toHandle| <= 1 + |graph.Links(name)|
        decreases first, |toHandle|
      {
        var x := toHandle[|toHandle| - 1];
        assert x in toHandle;
        if !first { NothingToClose(graph, closed, x); }
        toHandle := toHandle[..|toHandle| - 1];
        pops := pops + 1;
        var crashed, ready := CloseTargets(x);
        if crashed {
          return true, pops;
        }
        assert !first ==> ready == [] by { if ready != [] { assert ready[0] in ready; } }
        toHandle := toHandle + ready;
        first := false;
      }
      return false, pops;
    }
  }

  /** `v` has not called HandleClose, and every node with a link to it has. */
  ghost predicate Abandoned(g: Graph, closed: set<Name>, v: Name) {
    v !in closed && forall x, i | 0 <= i < |g.Links(x)| && g.Links(x)[i].to == v :: x in closed
  }

  /** The channels that are closed for `u`, and when that panics, link by link: the targets of `u`
      that have not called HandleClose while everybody who links to them has; and a panic if one
      of them has a channel that is closed already, or is linked twice. */
  lemma ClosesExactly(g: Graph, channels: map<Name, bool>, closed: set<Name>, u: Name)
    ensures forall v :: v in g.Closable(closed, u) <==>
              Abandoned(g, closed, v) && exists i | 0 <= i < |g.Links(u)| :: g.Links(u)[i].to == v
    ensures g.DoubleClose(channels, closed, u) <==>
              exists i | 0 <= i < |g.Links(u)| ::
                var v := g.Links(u)[i].to;
                && v in channels && Abandoned(g, closed, v)
                && (channels[v] || exists j | 0 <= j < |g.Links(u)| && j != i :: g.Links(u)[j].to == v)
  {
    ClosableByLinks(g, closed, u);
    DoubleByLinks(g, channels, closed, u);
  }

  lemma SourcesByLinks(g: Graph, closed: set<Name>, v: Name)
    ensures g.Sources(v) <= closed
       <==> forall x, i | 0 <= i < |g.Links(x)| && g.Links(x)[i].to == v :: x in closed
  {
    forall x ensures x in g.Sources(v) <==> exists i | 0 <= i < |g.Links(x)| :: g.Links(x)[i].to == v {}
  }

  lemma ClosableByLinks(g: Graph, closed: set<Name>, u: Name)
    ensures forall v :: v in g.Closable(closed, u) <==>
              Abandoned(g, closed, v) && exists i | 0 <= i < |g.Links(u)| :: g.Links(u)[i].to == v
  {
    forall v { SourcesByLinks(g, closed, v); }
  }

  lemma DoubleByLinks(g: Graph, channels: map<Name, bool>, closed: set<Name>, u: Name)
    ensures g.DoubleClose(channels, closed, u) <==>
              exists i | 0 <= i < |g.Links(u)| ::
                var v := g.Links(u)[i].to;
                && v in channels && Abandoned(g, closed, v)
                && (channels[v] || exists j | 0 <= j < |g.Links(u)| && j != i :: g.Links(u)[j].to == v)
  {
    ClosableByLinks(g, closed, u);
    var links := g.Links(u);
    if i, j :| 0 <= i < |links| && 0 <= j < |links| && j != i && links[i].to == links[j].to
               && links[i].to in channels && Abandoned(g, closed, links[i].to) {
      var a, b := if i < j then i else j, if i < j then j else i;
      assert links[a].to == links[i].to == links[b].to;
      assert g.Doubled(u, links[i].to);
      assert links[i].to in g.Closable(closed, u) * channels.Keys;
    }
  }

  /** A node that has not called HandleClose is itself a source that keeps its targets open. */
  lemma NothingToClose(g: Graph, closed: set<Name>, x: Name)
    requires x !in closed
    ensures g.Closable(closed, x) == {}
    ensures forall channels :: !g.DoubleClose(channels, closed, x) && CloseChannels(channels, {}) == channels
  {
    forall i | 0 <= i < |g.Links(x)| ensures !(g.Sources(g.Links(x)[i].to) <= closed) {
      assert g.Feeds(x, g.Links(x)[i].to);
      assert x in g.Sources(g.Links(x)[i].to);
    }
  }
}
