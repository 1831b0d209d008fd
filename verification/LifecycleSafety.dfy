/** No step of a well-formed pipeline ever panics: nothing is sent on a closed channel, no
    channel is closed twice, and no batch overflows an output. */
module LifecycleSafety {
  import opened Messages
  import opened SenderModel
  import opened Topology
  import opened Lifecycle
  import Laws = SenderLaws

  /** The channel is closed and empty, and so is the buffer. */
  predicate Drained(n: Node) {
    n.closed && n.queue == [] && n.sender.buffer == []
  }

  predicate Fit(p: Pipeline, u: Name, queue: seq<Entry>) {
    |queue| <= CHANNEL_CAPACITY && forall k | 0 <= k < |queue| :: |queue[k].batch| <= p.size(u)
  }

  predicate PhaseOk(p: Pipeline, u: Name, n: Node) {
    match n.phase
    case Idle => true
    case Sending(batch, next, last) =>
      next <= |p.graph.Links(u)| && |batch| <= p.size(u) && (last ==> u in p.graph.outputs && Drained(n))
    case Exited => if u in p.graph.inputs then n.cancelled else Drained(n)
  }

  /** What holds of node `u` by itself. */
  predicate Sound(p: Pipeline, u: Name, n: Node) {
    && Fit(p, u, n.queue)
    && (u in p.graph.inputs ==> n.queue == [] && !n.closed)
    && (n.cancelled ==> u in p.graph.inputs)
    && |n.sender.buffer| <= (if u in p.graph.outputs then p.size(u) else 0)
    && PhaseOk(p, u, n)
  }

  /** A channel is closed exactly when its node has sources and all of them have exited. */
  predicate ClosedRight(p: Pipeline, s: State, v: Name)
    requires v in s.nodes
  {
    v !in p.graph.inputs ==>
      (s.nodes[v].closed <==> p.graph.Sources(v) != {} && p.graph.Sources(v) <= s.exited)
  }

  predicate Control(p: Pipeline, s: State) {
    && s.nodes.Keys == p.graph.Nodes()
    && (forall u | u in s.nodes :: Sound(p, u, s.nodes[u]))
    && (forall u | u in s.nodes :: u in s.exited <==> s.nodes[u].phase.Exited?)
    && (forall v | v in s.nodes :: ClosedRight(p, s, v))
  }

  /** Under control, unless it is a panic. */
  predicate Steady(p: Pipeline, r: Result) {
    r.Ok? ==> Control(p, r.state)
  }

  /** Not a panic, and under control. */
  predicate Good(p: Pipeline, r: Result) {
    match r
    case Blocked => true
    case Panic => false
    case Ok(t) => Control(p, t)
  }

  lemma InitControl(p: Pipeline)
    requires WellShaped(p)
    ensures Control(p, Init(p))
  {
    forall v | v in p.graph.Nodes() ensures ClosedRight(p, Init(p), v) {
      assert NodeOk(p, v);
    }
  }

  /** What an action of `u` in state `n` may do. */
  predicate Allowed(p: Pipeline, u: Name, n: Node, a: Action) {
    match a
    case None => true
    case Crash => false
    case Become(m) => !n.phase.Exited? && !m.phase.Exited? && Sound(p, u, m) && m.closed == n.closed
    case Push(m, v, batch) =>
      && n.phase.Sending? && n.phase.next < |p.graph.Links(u)| && p.graph.Links(u)[n.phase.next].to == v
      && !m.phase.Exited? && Sound(p, u, m) && m.closed == n.closed && |batch| <= p.size(u)
    case Leave(m) => !n.phase.Exited? && Sound(p, u, m.(phase := Exited)) && m.closed == n.closed
  }

  // ---------------------------------------------------------------------------------
  // Every node does only what is allowed

  /** After its sender has moved on, an output is sound. */
  lemma AfterSenderSound(p: Pipeline, u: Name, n: Node, t: SenderState, arrived: Batch, last: bool)
    requires NodeOk(p, u) && u in p.graph.outputs && Sound(p, u, n) && n.phase.Idle?
    requires Laws.Advances(p.size(u), |p.graph.Links(u)| == 1, n.sender, t, arrived)
    requires last ==> t.buffer == [] && n.closed && n.queue == []
    ensures var m := AfterSender(n, t, last);
            Sound(p, u, m) && !m.phase.Exited? && m.closed == n.closed && (last ==> Drained(m))
  {
  }

  lemma DequeueSound(p: Pipeline, u: Name, n: Node)
    requires Sound(p, u, n) && n.phase.Idle? && n.queue != []
    ensures Sound(p, u, Dequeue(n))
  {
  }

  lemma ReceiveAllowed(p: Pipeline, u: Name, n: Node)
    requires Roles(p.graph) && NodeOk(p, u) && Sound(p, u, n) && u in p.graph.Nodes() && u !in p.graph.inputs
    ensures Allowed(p, u, n, ReceiveAct(p, u, n))
  {
    if n.phase.Idle? && n.queue != [] {
      DequeueSound(p, u, n);
      var batch := n.queue[0].batch;
      assert |batch| <= p.size(u);
      if u !in p.graph.filters {
        AfterSenderSound(p, u, Dequeue(n), p.sender(u).queue(n.sender, batch), batch, false);
      }
    }
  }

  lemma FlushSound(p: Pipeline, u: Name, n: Node, final: bool)
    requires NodeOk(p, u) && u in p.graph.outputs && Sound(p, u, n) && n.phase.Idle?
    requires final ==> n.closed && n.queue == []
    ensures var m := FlushNode(p, u, n, final);
            Sound(p, u, m) && !m.phase.Exited? && m.closed == n.closed && (final ==> Drained(m))
  {
    AfterSenderSound(p, u, n, p.sender(u).flush(n.sender, final), [], final);
  }

  lemma TickAllowed(p: Pipeline, u: Name, n: Node)
    requires NodeOk(p, u) && Sound(p, u, n)
    ensures Allowed(p, u, n, TickAct(p, u, n))
  {
    if u in p.graph.outputs && n.phase.Idle? { FlushSound(p, u, n, false); }
  }

  lemma StopAllowed(p: Pipeline, u: Name, n: Node)
    requires Roles(p.graph) && NodeOk(p, u) && Sound(p, u, n) && u in p.graph.Nodes() && u !in p.graph.inputs
    ensures Allowed(p, u, n, StopAct(p, u, n))
  {
    if n.phase.Idle? && n.queue == [] && n.closed && u !in p.graph.filters { FlushSound(p, u, n, true); }
  }

  lemma SendAllowed(p: Pipeline, u: Name, n: Node)
    requires Sound(p, u, n)
    ensures Allowed(p, u, n, SendAct(p, u, n))
  {
  }

  lemma FinishAllowed(p: Pipeline, u: Name, n: Node)
    requires Roles(p.graph) && Sound(p, u, n)
    ensures Allowed(p, u, n, FinishAct(p, u, n))
  {
  }

  lemma InputAllowed(p: Pipeline, u: Name, n: Node, step: Step)
    requires Sound(p, u, n) && u in p.graph.inputs
    ensures Allowed(p, u, n, InputAct(p, u, n, step))
  {
  }

  lemma ActAllowed(p: Pipeline, u: Name, n: Node, step: Step)
    requires Roles(p.graph) && NodeOk(p, u) && Sound(p, u, n) && u in p.graph.Nodes()
    ensures Allowed(p, u, n, Act(p, u, n, step))
  {
    if step.Send? { SendAllowed(p, u, n); }
    else if step.Finish? { FinishAllowed(p, u, n); }
    else if u in p.graph.inputs { InputAllowed(p, u, n, step); }
    else if step.Receive? { ReceiveAllowed(p, u, n); }
    else if step.Tick? { TickAllowed(p, u, n); }
    else if step.Stop? { StopAllowed(p, u, n); }
  }

  // ---------------------------------------------------------------------------------
  // What is allowed keeps control of the pipeline

  /** A change to one node that other nodes cannot see. */
  lemma LocalControl(p: Pipeline, s: State, u: Name, n: Node)
    requires Control(p, s) && u in s.nodes && Sound(p, u, n)
    requires n.closed == s.nodes[u].closed && (n.phase.Exited? <==> s.nodes[u].phase.Exited?)
    ensures Control(p, Update(s, u, n))
  {
    var t := Update(s, u, n);
    forall v | v in t.nodes ensures ClosedRight(p, t, v) {
      assert ClosedRight(p, s, v);
    }
  }

  /** The target of a link of a live node is open. */
  lemma TargetOpen(p: Pipeline, s: State, u: Name, i: nat)
    requires WellShaped(p) && Control(p, s) && u in s.nodes && u !in s.exited
    requires i < |p.graph.Links(u)|
    ensures var v := p.graph.Links(u)[i].to;
            LinkOk(p, u, p.graph.Links(u)[i]) && v in s.nodes && v != u && !s.nodes[v].closed && u in p.graph.Sources(v)
  {
    var v := p.graph.Links(u)[i].to;
    assert NodeOk(p, u) && LinkOk(p, u, p.graph.Links(u)[i]);
    assert p.graph.Feeds(u, v);
    assert ClosedRight(p, s, v);
  }

  /** A node that exits closes only channels that are open. */
  lemma ClosableOpen(p: Pipeline, s: State, u: Name)
    requires WellShaped(p) && Control(p, s) && u in s.nodes && u !in s.exited
    ensures forall v | v in p.graph.Closable(s.exited + {u}, u) ::
              v in s.nodes && v != u && v !in p.graph.inputs && !s.nodes[v].closed
  {
    forall v | v in p.graph.Closable(s.exited + {u}, u)
      ensures v in s.nodes && v != u && v !in p.graph.inputs && !s.nodes[v].closed
    {
      var i :| 0 <= i < |p.graph.Links(u)| && p.graph.Links(u)[i].to == v;
      TargetOpen(p, s, u, i);
    }
  }

  /** The sources of a node that has exited have exited before it. */
  lemma SourcesExitFirst(p: Pipeline, s: State, x: Name, w: Name)
    requires WellShaped(p) && Control(p, s) && w in s.exited && w in s.nodes && x in p.graph.Sources(w)
    ensures x in s.exited && x in s.nodes
  {
    NoSourceOfInput(p, x, w);
    assert Sound(p, w, s.nodes[w]) && ClosedRight(p, s, w);
  }

  /** A node that has a source is not an input. */
  lemma NoSourceOfInput(p: Pipeline, u: Name, v: Name)
    requires WellShaped(p) && u in p.graph.Sources(v)
    ensures u in p.graph.Nodes() && v in p.graph.Nodes() && v !in p.graph.inputs && p.rank(u) < p.rank(v)
  {
    var i :| 0 <= i < |p.graph.Links(u)| && p.graph.Links(u)[i].to == v;
    assert NodeOk(p, u) && LinkOk(p, u, p.graph.Links(u)[i]);
  }

  /** Along a route, nodes exit in order. */
  lemma {:induction false} ExitInOrder(p: Pipeline, s: State, route: seq<Name>)
    requires WellShaped(p) && Control(p, s) && p.graph.Route(route)
    requires route[|route| - 1] in s.exited && route[|route| - 1] in s.nodes
    ensures route[0] in s.exited && route[0] in s.nodes
  {
    if |route| > 1 {
      var front := route[..|route| - 1];
      SourcesExitFirst(p, s, front[|front| - 1], route[|route| - 1]);
      ExitInOrder(p, s, front);
    }
  }

  /** What leads to a node that has exited can end. */
  lemma ExitedEnds(p: Pipeline, s: State, y: Name, x: Name)
    requires WellShaped(p) && Control(p, s) && x in s.exited && x in s.nodes && p.graph.Leads(y, x)
    ensures y in p.graph.inputs || p.graph.Sources(y) != {}
  {
    var route :| p.graph.Route(route) && route[0] == y && route[|route| - 1] == x;
    ExitInOrder(p, s, route);
    assert Sound(p, y, s.nodes[y]) && ClosedRight(p, s, y);
  }

  /** So can what leads to a channel that closes when `u` exits. */
  lemma ClosableEnds(p: Pipeline, s: State, u: Name, v: Name)
    requires WellShaped(p) && Control(p, s) && u in s.nodes && (u in p.graph.inputs || s.nodes[u].closed)
    requires v in s.nodes && p.graph.Sources(v) != {} && p.graph.Sources(v) <= s.exited + {u}
    ensures p.graph.Ends(v)
  {
    forall y | p.graph.Leads(y, v) ensures y in p.graph.inputs || p.graph.Sources(y) != {} {
      if y != v {
        var x := LeadsThrough(p, y, v);
        NoSourceOfInput(p, x, v);
        if x != u { ExitedEnds(p, s, y, x); } else { LeavingEnds(p, s, y, u); }
      }
    }
  }

  lemma LeavingEnds(p: Pipeline, s: State, y: Name, u: Name)
    requires WellShaped(p) && Control(p, s) && u in s.nodes && (u in p.graph.inputs || s.nodes[u].closed)
    requires p.graph.Leads(y, u)
    ensures y in p.graph.inputs || p.graph.Sources(y) != {}
  {
    if u !in p.graph.inputs { assert ClosedRight(p, s, u); }
    if y != u {
      var x := LeadsThrough(p, y, u);
      NoSourceOfInput(p, x, u);
      ExitedEnds(p, s, y, x);
    }
  }

  /** A route to another node comes in through one of its sources. */
  lemma LeadsThrough(p: Pipeline, y: Name, v: Name) returns (x: Name)
    requires p.graph.Leads(y, v) && y != v
    ensures x in p.graph.Sources(v) && p.graph.Leads(y, x)
  {
    var route :| p.graph.Route(route) && route[0] == y && route[|route| - 1] == v;
    var front := route[..|route| - 1];
    x := front[|front| - 1];
    assert p.graph.Route(front) && front[0] == y;
  }

  /** A node never closes a channel twice: if it has two links to the same target, some other
      source of that target is downstream of it, and will exit later. */
  lemma ExitClean(p: Pipeline, s: State, u: Name)
    requires Safe(p) && Control(p, s) && u in s.nodes && u !in s.exited
    requires u in p.graph.inputs || s.nodes[u].closed
    ensures !p.graph.DoubleClose(ClosedFlags(s.nodes), s.exited + {u}, u)
  {
    ClosableOpen(p, s, u);
    forall v | v in p.graph.Closable(s.exited + {u}, u) && p.graph.Doubled(u, v) ensures false {
      ClosesOnce(p, s, u, v);
    }
  }

  /** A way from `u` to another source of a target that it has two links to. */
  lemma AnotherSource(g: Graph, u: Name, v: Name) returns (route: seq<Name>)
    requires g.NoDoubleClosing() && g.Doubled(u, v) && g.Ends(v)
    ensures g.Route(route) && route[0] == u
    ensures route[|route| - 1] in g.Sources(v) && route[|route| - 1] != u
  {
    var w :| w in g.Sources(v) && w != u && g.Leads(u, w);
    route :| g.Route(route) && route[0] == u && route[|route| - 1] == w;
  }

  lemma ClosesOnce(p: Pipeline, s: State, u: Name, v: Name)
    requires Safe(p) && Control(p, s) && u in s.nodes && u !in s.exited && (u in p.graph.inputs || s.nodes[u].closed)
    requires v in s.nodes && p.graph.Doubled(u, v)
    ensures !(p.graph.Sources(v) <= s.exited + {u})
  {
    if p.graph.Sources(v) <= s.exited + {u} {
      assert p.graph.Sources(v) != {} by { assert p.graph.Feeds(u, v) && u in p.graph.Sources(v); }
      ClosableEnds(p, s, u, v);
      var route := AnotherSource(p.graph, u, v);
      NoSourceOfInput(p, route[|route| - 1], v);
      ExitInOrder(p, s, route);
    }
  }

  /** A channel that loses its last source is closed by that source. */
  lemma LastSourceCloses(p: Pipeline, s: State, u: Name, v: Name)
    requires WellShaped(p) && Control(p, s) && u in s.nodes && u !in s.exited
    requires v in s.nodes && v !in p.graph.inputs && !s.nodes[v].closed
    requires p.graph.Sources(v) != {} && p.graph.Sources(v) <= s.exited + {u}
    ensures v in p.graph.Closable(s.exited + {u}, u)
  {
    LastSource(p, s, u, v);
    var i :| 0 <= i < |p.graph.Links(u)| && p.graph.Links(u)[i].to == v;
    TargetOpen(p, s, u, i);
    assert p.graph.Links(u)[i].to in p.graph.Closable(s.exited + {u}, u);
  }

  /** If a channel is open and all other sources have exited, `u` is a source; and its node
      has not exited. */
  lemma LastSource(p: Pipeline, s: State, u: Name, v: Name)
    requires Control(p, s) && v in s.nodes && v !in p.graph.inputs && !s.nodes[v].closed
    requires p.graph.Sources(v) != {} && p.graph.Sources(v) <= s.exited + {u}
    ensures p.graph.Feeds(u, v) && v !in s.exited
  {
    assert ClosedRight(p, s, v);
    assert u in p.graph.Sources(v);
    assert Sound(p, v, s.nodes[v]);
  }

  /** `handleClose` closes exactly the channels that have lost their last source. */
  lemma ExitCloses(p: Pipeline, s: State, u: Name, v: Name)
    requires WellShaped(p) && Control(p, s) && u in s.nodes && u !in s.exited
    requires v in s.nodes && v !in p.graph.inputs
    ensures p.graph.Sources(v) != {} && p.graph.Sources(v) <= s.exited + {u}
       <==> (s.nodes[v].closed || v in p.graph.Closable(s.exited + {u}, u))
  {
    if s.nodes[v].closed {
      assert ClosedRight(p, s, v);
    } else if v in p.graph.Closable(s.exited + {u}, u) {
      var i :| 0 <= i < |p.graph.Links(u)| && p.graph.Links(u)[i].to == v;
      assert p.graph.Feeds(u, v) && u in p.graph.Sources(v);
    } else if p.graph.Sources(v) != {} && p.graph.Sources(v) <= s.exited + {u} {
      LastSourceCloses(p, s, u, v);
    }
  }

  /** An exit does to the channels what `Pipelines.Pipeline.HandleClose` does. */
  lemma ExitClosesChannels(p: Pipeline, s: State, u: Name, n: Node)
    requires u in s.nodes && n.closed == s.nodes[u].closed
    ensures var flags := ClosedFlags(s.nodes);
            match Exit(p, s, u, n)
            case Ok(t) =>
              && !p.graph.DoubleClose(flags, s.exited + {u}, u)
              && t.exited == s.exited + {u}
              && ClosedFlags(t.nodes) == CloseChannels(flags, p.graph.Closable(s.exited + {u}, u))
            case r => r.Panic? && p.graph.DoubleClose(flags, s.exited + {u}, u)
  {
  }

  /** The nodes of a state from which `u` has left as `n`. */
  lemma ExitSound(p: Pipeline, s: State, u: Name, n: Node, v: Name)
    requires WellShaped(p) && Control(p, s) && u in s.nodes && u !in s.exited && v in s.nodes
    requires Sound(p, u, n.(phase := Exited)) && n.closed == s.nodes[u].closed
    ensures var m := CloseAll(s.nodes[u := n.(phase := Exited)], p.graph.Closable(s.exited + {u}, u))[v];
            && Sound(p, v, m) && (m.phase.Exited? <==> v in s.exited + {u})
            && m.closed == (s.nodes[v].closed || v in p.graph.Closable(s.exited + {u}, u))
  {
    ClosableOpen(p, s, u);
    assert Sound(p, v, s.nodes[v]);
  }

  lemma ExitControl(p: Pipeline, s: State, u: Name, n: Node)
    requires WellShaped(p) && Control(p, s) && u in s.nodes && u !in s.exited
    requires Sound(p, u, n.(phase := Exited)) && n.closed == s.nodes[u].closed
    requires Exit(p, s, u, n).Ok?
    ensures Control(p, Exit(p, s, u, n).state)
  {
    var t := Exit(p, s, u, n).state;
    forall v | v in t.nodes
      ensures Sound(p, v, t.nodes[v]) && (v in t.exited <==> t.nodes[v].phase.Exited?) && ClosedRight(p, t, v)
    {
      ExitSound(p, s, u, n, v);
      ExitClosedRight(p, s, u, n, v);
    }
  }

  lemma ExitClosedRight(p: Pipeline, s: State, u: Name, n: Node, v: Name)
    requires WellShaped(p) && Control(p, s) && u in s.nodes && u !in s.exited && v in s.nodes
    requires n.closed == s.nodes[u].closed && Exit(p, s, u, n).Ok?
    ensures ClosedRight(p, Exit(p, s, u, n).state, v)
  {
    if v !in p.graph.inputs { ExitCloses(p, s, u, v); }
  }

  lemma EnqueueSound(p: Pipeline, v: Name, m: Node, entry: Entry)
    requires Sound(p, v, m) && !m.closed && v !in p.graph.inputs
    requires |m.queue| < CHANNEL_CAPACITY && |entry.batch| <= p.size(v)
    ensures Sound(p, v, Enqueue(m, entry))
  {
  }

  lemma DeliveredControl(p: Pipeline, s: State, u: Name, m: Node, v: Name, batch: Batch)
    requires Control(p, s) && u in s.nodes && v in s.nodes && v != u && v !in p.graph.inputs
    requires Sound(p, u, m) && m.closed == s.nodes[u].closed && !m.phase.Exited? && !s.nodes[u].phase.Exited?
    requires !s.nodes[v].closed && |s.nodes[v].queue| < CHANNEL_CAPACITY && |batch| <= p.size(v)
    ensures Control(p, Delivered(s, u, m, v, batch))
  {
    LocalControl(p, s, u, m);
    EnqueueSound(p, v, s.nodes[v], Entry(u, batch));
    LocalControl(p, Update(s, u, m), v, Enqueue(s.nodes[v], Entry(u, batch)));
  }

  lemma PushControl(p: Pipeline, s: State, u: Name, m: Node, v: Name, batch: Batch)
    requires WellShaped(p) && Control(p, s) && u in s.nodes
    requires Allowed(p, u, s.nodes[u], Push(m, v, batch))
    ensures v in s.nodes && v != u && Good(p, Transmit(s, u, m, v, batch))
  {
    assert u !in s.exited;
    TargetOpen(p, s, u, s.nodes[u].phase.next);
    assert v in s.nodes && !s.nodes[v].closed && |batch| <= p.size(v);
    if |s.nodes[v].queue| < CHANNEL_CAPACITY {
      DeliveredControl(p, s, u, m, v, batch);
      assert Transmit(s, u, m, v, batch) == Ok(Delivered(s, u, m, v, batch));
    }
  }

  /** Whatever is allowed keeps control; only leaving can panic, by closing a channel twice. */
  lemma PerformControl(p: Pipeline, s: State, u: Name, a: Action)
    requires WellShaped(p) && Control(p, s) && u in s.nodes && Allowed(p, u, s.nodes[u], a)
    ensures Steady(p, Perform(p, s, u, a))
    ensures Perform(p, s, u, a).Panic? ==> a.Leave? && p.graph.DoubleClose(ClosedFlags(s.nodes), s.exited + {u}, u)
  {
    match a
    case None =>
    case Become(m) => LocalControl(p, s, u, m);
    case Push(m, v, batch) => PushControl(p, s, u, m, v, batch);
    case Leave(m) => if Exit(p, s, u, m).Ok? { ExitControl(p, s, u, m); }
  }

  /** Every step of a well-formed pipeline keeps control, and none panics. */
  lemma StepControl(p: Pipeline, s: State, step: Step)
    requires Safe(p) && Control(p, s)
    ensures Good(p, Apply(p, s, step))
  {
    if step.n in s.nodes {
      var u, n := step.n, s.nodes[step.n];
      assert Sound(p, u, n) && NodeOk(p, u);
      ActAllowed(p, u, n, step);
      PerformControl(p, s, u, Act(p, u, n, step));
      var a := Act(p, u, n, step);
      if a.Leave? { ExitClean(p, s, u); }
    }
  }

  lemma {:induction false} RunControl(p: Pipeline, s: State, trace: seq<Step>)
    requires Safe(p) && Control(p, s)
    ensures Good(p, Run(p, s, trace))
    decreases |trace|
  {
    if trace != [] {
      StepControl(p, s, trace[0]);
      var r := Apply(p, s, trace[0]);
      if r.Ok? { RunControl(p, r.state, trace[1..]); }
    }
  }

  /** No run of a pipeline panics that is well shaped and closes no channel twice. */
  lemma NeverPanics(p: Pipeline, trace: seq<Step>)
    requires Safe(p)
    ensures !Run(p, Init(p), trace).Panic?
  {
    InitControl(p);
    RunControl(p, Init(p), trace);
  }

  predicate Reaches(p: Pipeline, trace: seq<Step>, s: State) {
    Run(p, Init(p), trace) == Ok(s)
  }

  lemma ReachableControl(p: Pipeline, trace: seq<Step>, s: State)
    requires Safe(p) && Reaches(p, trace, s)
    ensures Control(p, s)
  {
    InitControl(p);
    RunControl(p, Init(p), trace);
  }

  /** In every reachable state a channel is closed exactly when its node has sources and all of
      them have exited, a node that has exited has drained its channel and its buffer, and no channel
      holds more than ten batches. */
  lemma ClosedExactlyWhenSourcesExited(p: Pipeline, trace: seq<Step>, s: State, v: Name)
    requires Safe(p) && Reaches(p, trace, s)
    requires v in p.graph.Nodes() && v !in p.graph.inputs
    ensures s.nodes.Keys == p.graph.Nodes() && p.graph.Sources(v) <= s.nodes.Keys
    ensures s.nodes[v].closed
       <==> p.graph.Sources(v) != {} && forall u | u in p.graph.Sources(v) :: s.nodes[u].phase.Exited?
    ensures s.nodes[v].phase.Exited? ==> Drained(s.nodes[v])
    ensures |s.nodes[v].queue| <= 10
  {
    ReachableControl(p, trace, s);
    assert ClosedRight(p, s, v) && Sound(p, v, s.nodes[v]);
    assert p.graph.Sources(v) <= p.graph.Nodes();
  }
}
