/** The graph of a pipeline: who is what, and who sends to whom. */
module Topology {

  datatype Name = Name(text: string)

  datatype LinkType = Normal | Buffer
  datatype Link = Link(to: Name, kind: LinkType)

  function LinksOf(pipes: map<Name, seq<Link>>, u: Name): seq<Link> {
    if u in pipes then pipes[u] else []
  }

  datatype Graph = Graph(inputs: set<Name>, filters: set<Name>, outputs: set<Name>, pipes: map<Name, seq<Link>>)
  {
    function Nodes(): set<Name> { inputs + filters + outputs }

    function Links(u: Name): seq<Link> {
      LinksOf(pipes, u)
    }

    predicate Feeds(u: Name, v: Name) {
      exists i | 0 <= i < |Links(u)| :: Links(u)[i].to == v
    }

    function Sources(v: Name): set<Name> {
      set u | u in pipes && Feeds(u, v)
    }

    /** No two links of `u` have the same target. */
    predicate NoRepeatedLink(u: Name) {
      forall i, j | 0 <= i < j < |Links(u)| :: Links(u)[i].to != Links(u)[j].to
    }

    /** Two links of `u` lead to `v`. */
    predicate Doubled(u: Name, v: Name) {
      exists i, j | 0 <= i < j < |Links(u)| :: Links(u)[i].to == v == Links(u)[j].to
    }

    /** Two links of `u` lead to the same member of `targets`. */
    predicate Repeats(u: Name, targets: set<Name>) {
      exists v | v in targets :: Doubled(u, v)
    }

    /** Every node on the route has a link to the next. */
    predicate Route(route: seq<Name>) {
      |route| >= 1 && forall k | 0 < k < |route| :: route[k - 1] in Sources(route[k])
    }

    ghost predicate Leads(u: Name, w: Name) {
      exists route :: Route(route) && route[0] == u && route[|route| - 1] == w
    }

    /** Whatever leads to `v` starts at an input: nothing above it has its channel open for
        ever. */
    ghost predicate Ends(v: Name) {
      forall y | Leads(y, v) :: y in inputs || Sources(y) != {}
    }

    /** Whenever a node has two links to the same target, and that can end, some other source of
        the target is downstream of the node. */
    ghost predicate NoDoubleClosing() {
      forall u, v | Doubled(u, v) && Ends(v) :: exists w | w in Sources(v) :: w != u && Leads(u, w)
    }

    /** The targets of `u` whose channel closes when the nodes in `exited` have exited. */
    function Closable(exited: set<Name>, u: Name): set<Name> {
      set i | 0 <= i < |Links(u)| && Links(u)[i].to !in exited && Sources(Links(u)[i].to) <= exited
           :: Links(u)[i].to
    }

    /** Closing the channels that `handleClose` closes when `u` exits would close one twice:
        it is closed already, or `u` has two links to it. `channels` says of every channel
        whether it is closed. */
    predicate DoubleClose(channels: map<Name, bool>, exited: set<Name>, u: Name) {
      var closing := Closable(exited, u);
      (exists v | v in closing :: v in channels && channels[v]) || Repeats(u, closing * channels.Keys)
    }
  }

  /** The channels in `closing` are closed; the others stay as they are. */
  function CloseChannels(channels: map<Name, bool>, closing: set<Name>): map<Name, bool> {
    map v | v in channels :: v in closing || channels[v]
  }
}
