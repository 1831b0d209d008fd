/** A running pipeline as a transition system. Every node is a process; its steps are the
    points at which it touches something that another process can see. A step can block, and
    it can panic: on a send on a closed channel, on closing a channel twice, and on a batch
    that does not fit the buffer of an output. */
module Lifecycle {
  import opened Messages
  import opened SenderModel
  import opened Topology
  import Filters
  import Laws = SenderLaws

  const CHANNEL_CAPACITY: nat := 10

  /** A configured pipeline. `sender(u)` are the operations of the sender of output `u`; the
      pipeline relies on no more than that they are honest. `size(u)` bounds the batches that
      node `u` handles: for an input it is the largest batch that `GetBatch` returns, for an
      output the capacity of its buffer. `rank` numbers the nodes below `depth` so that links
      go upwards: it witnesses that the graph has no cycle. */
  datatype Pipeline = Pipeline(
    graph: Graph, filter: Name -> Filters.Filter, sender: Name -> Laws.SenderOps,
    size: Name -> nat, rank: Name -> nat, depth: nat)

  /** What a node is doing: waiting (in `GetBatch`, or at its channel), sending `batch` to its
      links from number `next` on, or gone. `last` marks the forwarding by a final flush. */
  datatype Phase = Idle | Sending(batch: Batch, next: nat, last: bool) | Exited

  datatype Entry = Entry(src: Name, batch: Batch)

  /** A process with its input channel, which holds `queue`; `received` is what was taken out
      of it before. `produced` is everything the node ever began to send. */
  datatype Node = Node(
    phase: Phase, received: seq<Entry>, queue: seq<Entry>, closed: bool,
    produced: seq<Batch>, sender: SenderState, cancelled: bool)
  {
    /** Everything ever sent into the channel. */
    function Arrived(): seq<Entry> { received + queue }
  }

  /** `exited` are the nodes that have called `handleClose`. */
  datatype State = State(nodes: map<Name, Node>, exited: set<Name>)

  datatype Step =
    | Kill(n: Name)                 // the input is told to stop
    | Emit(n: Name, batch: Batch)   // GetBatch returns a batch
    | EmitNothing(n: Name)          // GetBatch returns nil
    | Receive(n: Name)              // a filter or an output takes a batch from its channel
    | Send(n: Name)                 // the next link of the fan-out
    | Finish(n: Name)               // the fan-out is done
    | Tick(n: Name)                 // the ticker of an output
    | Stop(n: Name)                 // a filter or an output finds its channel closed and empty

  datatype Result = Blocked | Panic | Ok(state: State)

  const NO_SENDER := SenderState([], Success, 0, 0, 0, 0, [], [], [])

  function Init(p: Pipeline): State {
    State(map u | u in p.graph.Nodes() ::
            Node(Idle, [], [], false, [], if u in p.graph.outputs then p.sender(u).start else NO_SENDER, false),
          {})
  }

  function Batches(entries: seq<Entry>): (r: seq<Batch>)
    ensures |r| == |entries| && forall i | 0 <= i < |r| :: r[i] == entries[i].batch
  {
    seq(|entries|, i requires 0 <= i < |entries| => entries[i].batch)
  }

  // ---------------------------------------------------------------------------------
  // What a node does in a step: a function of the node alone

  /** A step is not possible, or panics, or the node becomes another, or it also sends a batch,
      or it leaves and calls `handleClose`. */
  datatype Action = None | Crash | Become(n: Node) | Push(n: Node, to: Name, batch: Batch) | Leave(n: Node)

  function Begin(n: Node, batch: Batch, last: bool): Node {
    n.(phase := Sending(batch, 0, last), produced := n.produced + [batch])
  }

  function Moved(n: Node): Node
    requires n.phase.Sending?
  {
    n.(phase := n.phase.(next := n.phase.next + 1))
  }

  function Dequeue(n: Node): Node
    requires n.queue != []
  {
    n.(received := n.received + [n.queue[0]], queue := n.queue[1..])
  }

  function Enqueue(n: Node, entry: Entry): Node {
    n.(queue := n.queue + [entry])
  }

  /** An output whose sender has become `t`: if that forwarded a batch, the output now sends
      it to its buffer channel. */
  function AfterSender(n: Node, t: SenderState, last: bool): Node {
    var m := n.(sender := t, phase := Idle);
    if |t.settled| > |n.sender.settled| && t.settled[|t.settled| - 1].outcome.Forwarded? then
      Begin(m, t.settled[|t.settled| - 1].batch, last)
    else m
  }

  function FilterNext(p: Pipeline, u: Name, n: Node): Node
    requires n.queue != []
  {
    Begin(Dequeue(n), Filters.Kept(p.filter(u), Flatten(Batches(n.received)), n.queue[0].batch), false)
  }

  function OutputNext(p: Pipeline, u: Name, n: Node): Node
    requires n.queue != []
  {
    AfterSender(Dequeue(n), p.sender(u).queue(n.sender, n.queue[0].batch), false)
  }

  function FlushNode(p: Pipeline, u: Name, n: Node, final: bool): Node {
    AfterSender(n, p.sender(u).flush(n.sender, final), final)
  }

  /** GetBatch returned a batch, or nil. Afterwards the input checks whether it was told to
      stop: after a batch, when the fan-out is done. */
  function InputAct(p: Pipeline, u: Name, n: Node, step: Step): Action {
    match step
    case Kill(_) => if n.cancelled || n.phase.Exited? then None else Become(n.(cancelled := true))
    case Emit(_, batch) =>
      if n.phase.Idle? && |batch| <= p.size(u) then Become(Begin(n, batch, false)) else None
    case EmitNothing(_) =>
      if !n.phase.Idle? then None else if n.cancelled then Leave(n) else Become(n)
    case _ => None
  }

  function ReceiveAct(p: Pipeline, u: Name, n: Node): Action {
    if !n.phase.Idle? || n.queue == [] then None
    else if u in p.graph.filters then Become(FilterNext(p, u, n))
    else if |n.queue[0].batch| > p.size(u) then Crash
    else Become(OutputNext(p, u, n))
  }

  function SendAct(p: Pipeline, u: Name, n: Node): Action {
    var links := p.graph.Links(u);
    if n.phase.Sending? && n.phase.next < |links| then Push(Moved(n), links[n.phase.next].to, n.phase.batch)
    else None
  }

  function FinishAct(p: Pipeline, u: Name, n: Node): Action {
    if !n.phase.Sending? || n.phase.next < |p.graph.Links(u)| then None
    else if n.phase.last || n.cancelled then Leave(n)
    else Become(n.(phase := Idle))
  }

  function TickAct(p: Pipeline, u: Name, n: Node): Action {
    if u in p.graph.outputs && n.phase.Idle? then Become(FlushNode(p, u, n, false)) else None
  }

  function StopAct(p: Pipeline, u: Name, n: Node): Action {
    if !n.phase.Idle? || n.queue != [] || !n.closed then None
    else if u in p.graph.filters then Leave(n)
    else
      var m := FlushNode(p, u, n, true);
      if m.phase.Sending? then Become(m) else Leave(m)
  }

  function Act(p: Pipeline, u: Name, n: Node, step: Step): Action {
    match step
    case Send(_) => SendAct(p, u, n)
    case Finish(_) => FinishAct(p, u, n)
    case _ =>
      if u in p.graph.inputs then InputAct(p, u, n, step)
      else
        match step
        case Receive(_) => ReceiveAct(p, u, n)
        case Tick(_) => TickAct(p, u, n)
        case Stop(_) => StopAct(p, u, n)
        case _ => None
  }

  // ---------------------------------------------------------------------------------
  // What that does to the pipeline

  function Update(s: State, u: Name, n: Node): State {
    s.(nodes := s.nodes[u := n])
  }

  function ClosedFlags(nodes: map<Name, Node>): map<Name, bool> {
    map v | v in nodes :: nodes[v].closed
  }

  function CloseAll(nodes: map<Name, Node>, closing: set<Name>): map<Name, Node> {
    map v | v in nodes :: if v in closing then nodes[v].(closed := true) else nodes[v]
  }

  /** Node `u` becomes `n` and calls `handleClose`. */
  function Exit(p: Pipeline, s: State, u: Name, n: Node): Result {
    var exited := s.exited + {u};
    if p.graph.DoubleClose(ClosedFlags(s.nodes), exited, u) then Panic
    else Ok(State(CloseAll(s.nodes[u := n.(phase := Exited)], p.graph.Closable(exited, u)), exited))
  }

  function Delivered(s: State, u: Name, n: Node, v: Name, batch: Batch): State
    requires v in s.nodes
  {
    var moved := Update(s, u, n);
    Update(moved, v, Enqueue(moved.nodes[v], Entry(u, batch)))
  }

  /** A send on a channel that does not exist blocks; on a closed one it panics. */
  function Transmit(s: State, u: Name, n: Node, v: Name, batch: Batch): Result {
    if v !in s.nodes then Blocked
    else if s.nodes[v].closed then Panic
    else if |s.nodes[v].queue| >= CHANNEL_CAPACITY then Blocked
    else Ok(Delivered(s, u, n, v, batch))
  }

  function Perform(p: Pipeline, s: State, u: Name, a: Action): Result {
    match a
    case None => Blocked
    case Crash => Panic
    case Become(n) => Ok(Update(s, u, n))
    case Push(n, v, batch) => Transmit(s, u, n, v, batch)
    case Leave(n) => Exit(p, s, u, n)
  }

  function Apply(p: Pipeline, s: State, step: Step): Result {
    if step.n in s.nodes then Perform(p, s, step.n, Act(p, step.n, s.nodes[step.n], step)) else Blocked
  }

  /** A run from `s`, step by step. */
  function Run(p: Pipeline, s: State, trace: seq<Step>): Result
    decreases |trace|
  {
    if trace == [] then Ok(s)
    else
      match Apply(p, s, trace[0])
      case Ok(t) => Run(p, t, trace[1..])
      case r => r
  }

  // ---------------------------------------------------------------------------------
  // Well-formed pipelines

  /** The link joins the right kinds of nodes, and leads upwards. */
  predicate LinkJoins(p: Pipeline, u: Name, l: Link) {
    && l.to in p.graph.Nodes() && l.to !in p.graph.inputs
    && (if l.kind.Normal? then u !in p.graph.outputs else u in p.graph.outputs && l.to in p.graph.outputs)
    && p.rank(u) < p.rank(l.to)
  }

  predicate LinkOk(p: Pipeline, u: Name, l: Link) {
    LinkJoins(p, u, l) && p.size(u) <= p.size(l.to)
  }

  ghost predicate NodeOk(p: Pipeline, u: Name) {
    var g := p.graph;
    && p.rank(u) < p.depth
    && (forall i | 0 <= i < |g.Links(u)| :: LinkOk(p, u, g.Links(u)[i]))
    && (u in g.outputs ==> OutputOk(p, u))
  }

  ghost predicate OutputOk(p: Pipeline, u: Name) {
    && |p.graph.Links(u)| <= 1
    && Laws.Honest(p.sender(u), p.size(u), |p.graph.Links(u)| == 1)
  }

  predicate Roles(g: Graph) {
    g.inputs !! g.filters && g.inputs !! g.outputs && g.filters !! g.outputs
  }

  ghost predicate WellShaped(p: Pipeline) {
    && Roles(p.graph)
    && p.graph.pipes.Keys <= p.graph.Nodes()
    && (forall u | u in p.graph.Nodes() :: NodeOk(p, u))
  }

  /** Well shaped, and no node closes a channel twice. */
  ghost predicate Safe(p: Pipeline) {
    WellShaped(p) && p.graph.NoDoubleClosing()
  }

  /** Every filter and every output has a source. */
  predicate Sourced(p: Pipeline) {
    forall u | u in p.graph.Nodes() && u !in p.graph.inputs :: p.graph.Sources(u) != {}
  }

  ghost predicate WellFormed(p: Pipeline) {
    Safe(p) && Sourced(p)
  }

  /** No node has two links to the same target. */
  predicate SingleLinks(p: Pipeline) {
    forall u | u in p.graph.Nodes() :: p.graph.NoRepeatedLink(u)
  }
}
