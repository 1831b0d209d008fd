/** What becomes of a pipeline one of whose inputs fails to start. `Run` calls `handleClose` for
    such an input and starts it all the same, so that it may go on to send to channels that it
    has helped to close. */
module FailedInit {
  import opened Messages
  import opened Topology
  import opened Lifecycle
  import opened LifecycleSafety
  import opened LifecycleLimits

  /** The `Init` of input `u` fails in state `s`: `u` calls `handleClose`, and is started. */
  function FailInit(p: Pipeline, s: State, u: Name): Result
    requires u in s.nodes
  {
    match Exit(p, s, u, s.nodes[u])
    case Ok(t) => Ok(Update(t, u, s.nodes[u]))
    case r => r
  }

  /** Go on from `r`, unless that is a panic. */
  function RunFrom(p: Pipeline, r: Result, trace: seq<Step>): Result {
    match r
    case Ok(s) => Run(p, s, trace)
    case _ => r
  }

  // ---------------------------------------------------------------------------------
  // An input without links

  /** `marked` is `s`, but for the mark that `u` has called `handleClose`. */
  predicate Marked(u: Name, marked: Result, r: Result) {
    match r
    case Ok(s) => marked == Ok(State(s.nodes, s.exited + {u}))
    case _ => marked == r
  }

  /** The mark of a node without links closes nothing earlier or later. */
  lemma MarkClosesNothing(p: Pipeline, u: Name, exited: set<Name>, x: Name)
    requires WellShaped(p) && u in p.graph.inputs && p.graph.Links(u) == [] && x in p.graph.Nodes()
    ensures p.graph.Closable(exited + {u}, x) == p.graph.Closable(exited, x)
  {
    assert NodeOk(p, x);
    forall i | 0 <= i < |p.graph.Links(x)|
      ensures p.graph.Links(x)[i].to != u && u !in p.graph.Sources(p.graph.Links(x)[i].to)
    {
      assert LinkOk(p, x, p.graph.Links(x)[i]);
    }
  }

  lemma MarkedExit(p: Pipeline, u: Name, s: State, x: Name, m: Node)
    requires WellShaped(p) && u in p.graph.inputs && p.graph.Links(u) == [] && x in p.graph.Nodes()
    ensures Marked(u, Exit(p, State(s.nodes, s.exited + {u}), x, m), Exit(p, s, x, m))
  {
    MarkClosesNothing(p, u, s.exited + {x}, x);
    assert s.exited + {u} + {x} == s.exited + {x} + {u};
  }

  lemma MarkedPerform(p: Pipeline, u: Name, s: State, x: Name, a: Action)
    requires WellShaped(p) && u in p.graph.inputs && p.graph.Links(u) == [] && x in p.graph.Nodes()
    ensures Marked(u, Perform(p, State(s.nodes, s.exited + {u}), x, a), Perform(p, s, x, a))
  {
    if a.Leave? { MarkedExit(p, u, s, x, a.n); }
  }

  lemma MarkedStep(p: Pipeline, u: Name, s: State, step: Step)
    requires WellShaped(p) && u in p.graph.inputs && p.graph.Links(u) == [] && s.nodes.Keys == p.graph.Nodes()
    ensures Marked(u, Apply(p, State(s.nodes, s.exited + {u}), step), Apply(p, s, step))
  {
    var x := step.n;
    if x in s.nodes { MarkedPerform(p, u, s, x, Act(p, x, s.nodes[x], step)); }
  }

  lemma {:induction false} MarkedRun(p: Pipeline, u: Name, s: State, trace: seq<Step>)
    requires Safe(p) && Control(p, s) && u in p.graph.inputs && p.graph.Links(u) == []
    ensures Marked(u, Run(p, State(s.nodes, s.exited + {u}), trace), Run(p, s, trace))
    decreases |trace|
  {
    if trace != [] {
      MarkedStep(p, u, s, trace[0]);
      StepControl(p, s, trace[0]);
      var r := Apply(p, s, trace[0]);
      if r.Ok? { MarkedRun(p, u, r.state, trace[1..]); }
    }
  }

  /** An input without links does no harm, whenever its `Init` fails. */
  lemma HarmlessWithoutLinks(p: Pipeline, before: seq<Step>, s: State, u: Name, trace: seq<Step>)
    requires Safe(p) && Reaches(p, before, s) && u in p.graph.inputs && p.graph.Links(u) == []
    ensures u in s.nodes && !RunFrom(p, FailInit(p, s, u), trace).Panic?
  {
    ReachableControl(p, before, s);
    FailureOnlyMarks(p, s, u);
    MarkedRun(p, u, s, trace);
    RunControl(p, s, trace);
  }

  lemma FailureOnlyMarks(p: Pipeline, s: State, u: Name)
    requires u in s.nodes && p.graph.Links(u) == []
    ensures FailInit(p, s, u) == Ok(State(s.nodes, s.exited + {u}))
  {
    assert p.graph.Closable(s.exited + {u}, u) == {};
    assert FailInit(p, s, u).state.nodes == s.nodes;
  }

  // ---------------------------------------------------------------------------------
  // An input with links

  /** `r` is `s`, but that `u`, which has left in `s`, is still `n`. */
  predicate Twins(p: Pipeline, u: Name, n: Node, r: State, s: State) {
    && s.nodes.Keys == p.graph.Nodes() && u in s.nodes && n.closed == s.nodes[u].closed
    && r.exited == s.exited && r.nodes == s.nodes[u := n]
  }

  predicate TwinResults(p: Pipeline, u: Name, n: Node, r: Result, q: Result) {
    match q
    case Ok(s) => r.Ok? && Twins(p, u, n, r.state, s)
    case _ => r == q
  }

  lemma InputNotClosable(p: Pipeline, u: Name, exited: set<Name>, x: Name)
    requires WellShaped(p) && u in p.graph.inputs && x in p.graph.Nodes()
    ensures u !in p.graph.Closable(exited, x)
  {
    assert NodeOk(p, x);
    forall i | 0 <= i < |p.graph.Links(x)| ensures p.graph.Links(x)[i].to != u {
      assert LinkOk(p, x, p.graph.Links(x)[i]);
    }
  }

  lemma TwinClosing(s: map<Name, Node>, u: Name, n: Node, closing: set<Name>)
    requires u in s && u !in closing
    ensures CloseAll(s[u := n], closing) == CloseAll(s, closing)[u := n]
  {
  }

  lemma TwinFlags(p: Pipeline, u: Name, n: Node, r: State, s: State)
    requires Twins(p, u, n, r, s)
    ensures ClosedFlags(r.nodes) == ClosedFlags(s.nodes)
  {
  }

  /** Both leave, and the same channels are closed. */
  lemma TwinLeave(p: Pipeline, u: Name, n: Node, r: State, s: State, x: Name, left: Node, closing: set<Name>,
                  exited: set<Name>)
    requires Twins(p, u, n, r, s) && x in s.nodes && x != u && u !in closing
    ensures Twins(p, u, n, State(CloseAll(r.nodes[x := left], closing), exited),
                  State(CloseAll(s.nodes[x := left], closing), exited))
  {
    TwinClosing(s.nodes[x := left], u, n, closing);
    assert r.nodes[x := left] == s.nodes[x := left][u := n];
  }

  lemma TwinExit(p: Pipeline, u: Name, n: Node, r: State, s: State, x: Name, m: Node)
    requires WellShaped(p) && u in p.graph.inputs && Twins(p, u, n, r, s) && x in s.nodes && x != u
    ensures TwinResults(p, u, n, Exit(p, r, x, m), Exit(p, s, x, m))
  {
    var exited := s.exited + {x};
    TwinFlags(p, u, n, r, s);
    InputNotClosable(p, u, exited, x);
    TwinLeave(p, u, n, r, s, x, m.(phase := Exited), p.graph.Closable(exited, x), exited);
  }

  lemma TwinTransmit(p: Pipeline, u: Name, n: Node, r: State, s: State, x: Name, m: Node, v: Name, batch: Batch)
    requires Twins(p, u, n, r, s) && x in s.nodes && x != u && v != u && v != x
    ensures TwinResults(p, u, n, Transmit(r, x, m, v, batch), Transmit(s, x, m, v, batch))
  {
    if Transmit(s, x, m, v, batch).Ok? {
      assert Delivered(r, x, m, v, batch).nodes == Delivered(s, x, m, v, batch).nodes[u := n];
    }
  }

  lemma TwinUpdate(p: Pipeline, u: Name, n: Node, r: State, s: State, x: Name, m: Node)
    requires Twins(p, u, n, r, s) && x in s.nodes && x != u
    ensures Twins(p, u, n, Update(r, x, m), Update(s, x, m))
  {
    assert Update(r, x, m).nodes == Update(s, x, m).nodes[u := n];
  }

  lemma TwinPerform(p: Pipeline, u: Name, n: Node, r: State, s: State, x: Name, a: Action)
    requires WellShaped(p) && u in p.graph.inputs && Twins(p, u, n, r, s) && x in s.nodes && x != u
    requires a.Push? ==> a.to != u && a.to != x
    ensures TwinResults(p, u, n, Perform(p, r, x, a), Perform(p, s, x, a))
  {
    match a
    case None =>
    case Crash =>
    case Become(m) => TwinUpdate(p, u, n, r, s, x, m);
    case Push(m, v, batch) => TwinTransmit(p, u, n, r, s, x, m, v, batch);
    case Leave(m) => TwinExit(p, u, n, r, s, x, m);
  }

  lemma TwinStep(p: Pipeline, u: Name, n: Node, r: State, s: State, step: Step)
    requires WellShaped(p) && u in p.graph.inputs && Twins(p, u, n, r, s) && step.n != u
    ensures TwinResults(p, u, n, Apply(p, r, step), Apply(p, s, step))
  {
    var x := step.n;
    if x in s.nodes {
      var a := Act(p, x, s.nodes[x], step);
      if a.Push? { PushTargets(p, x, s.nodes[x], step); }
      TwinPerform(p, u, n, r, s, x, a);
    }
  }

  /** Nothing is sent to an input, or by a node to itself. */
  lemma PushTargets(p: Pipeline, x: Name, n: Node, step: Step)
    requires WellShaped(p) && x in p.graph.Nodes() && Act(p, x, n, step).Push?
    ensures var v := Act(p, x, n, step).to; v !in p.graph.inputs && v != x
  {
    assert NodeOk(p, x) && LinkOk(p, x, p.graph.Links(x)[n.phase.next]);
  }

  lemma {:induction false} TwinRun(p: Pipeline, u: Name, n: Node, r: State, s: State, trace: seq<Step>)
    requires WellShaped(p) && u in p.graph.inputs && Twins(p, u, n, r, s)
    requires forall i | 0 <= i < |trace| :: trace[i].n != u
    ensures TwinResults(p, u, n, Run(p, r, trace), Run(p, s, trace))
    decreases |trace|
  {
    if trace != [] {
      TwinStep(p, u, n, r, s, trace[0]);
      var q := Apply(p, s, trace[0]);
      if q.Ok? { TwinRun(p, u, n, Apply(p, r, trace[0]).state, q.state, trace[1..]); }
    }
  }

  /** An idle input whose first channel is closed panics with its next batch, whatever that
      is. */
  lemma NextBatchPanics(p: Pipeline, s: State, u: Name, batch: Batch)
    requires |batch| <= p.size(u)
    requires u in s.nodes && u in p.graph.inputs && s.nodes[u].phase.Idle? && p.graph.Links(u) != []
    requires var v := p.graph.Links(u)[0].to; v in s.nodes && v != u && s.nodes[v].closed
    ensures Run(p, s, [Emit(u, batch), Send(u)]).Panic?
  {
    var n := Begin(s.nodes[u], batch, false);
    assert Apply(p, s, Emit(u, batch)) == Ok(Update(s, u, n));
    assert Apply(p, Update(s, u, n), Send(u)).Panic?;
    RunTwoSteps(p, s, Emit(u, batch), Send(u));
  }

  /** If `u` had left, everybody else could leave too, and every channel would be closed. */
  lemma OthersLeave(p: Pipeline, s: State, u: Name) returns (trace: seq<Step>)
    requires WellShaped(p) && Sourced(p) && Silent(p, s) && s.exited == {u} && u in p.graph.inputs
    ensures forall i | 0 <= i < |trace| :: trace[i].n != u
    ensures var r := Run(p, s, trace);
            || r.Panic?
            || (r.Ok? && r.state.nodes.Keys == p.graph.Nodes()
                && forall v | v in p.graph.Nodes() && v !in p.graph.inputs :: r.state.nodes[v].closed)
  {
    var others := p.graph.Nodes() - {u};
    assert s.exited + others == p.graph.Nodes() by { assert u in p.graph.Nodes(); }
    forall x, y | x in others && y in p.graph.Sources(x) ensures y in p.graph.Nodes() { NoSourceOfInput(p, y, x); }
    trace := ExitAll(p, s, others);
    var r := Run(p, s, trace);
    if r.Ok? {
      forall v | v in p.graph.Nodes() && v !in p.graph.inputs ensures r.state.nodes[v].closed {
        forall y | y in p.graph.Sources(v) ensures y in r.state.exited { NoSourceOfInput(p, y, v); }
        assert ClosedRight(p, r.state, v);
      }
    }
  }

  /** The state in which `u` has left instead of having failed to start. */
  lemma FailureHasTwin(p: Pipeline, u: Name) returns (s: State)
    requires WellShaped(p) && Sourced(p) && u in p.graph.inputs && FailInit(p, Init(p), u).Ok?
    ensures Silent(p, s) && s.exited == {u}
    ensures Twins(p, u, Init(p).nodes[u], FailInit(p, Init(p), u).state, s)
  {
    var start := Init(p);
    InitSilent(p);
    var n := start.nodes[u].(cancelled := true);
    SilentExit(p, start, u, n);
    s := Exit(p, start, u, n).state;
    assert start.exited + {u} == {u};
    FailureTwins(p, start, u, n);
  }

  lemma FailureTwins(p: Pipeline, start: State, u: Name, n: Node)
    requires WellShaped(p) && u in p.graph.inputs && start.nodes.Keys == p.graph.Nodes()
    requires n.closed == start.nodes[u].closed && Exit(p, start, u, n).Ok? && FailInit(p, start, u).Ok?
    ensures Twins(p, u, start.nodes[u], FailInit(p, start, u).state, Exit(p, start, u, n).state)
  {
    InputNotClosable(p, u, start.exited + {u}, u);
    assert FailInit(p, start, u).state.nodes == Exit(p, start, u, n).state.nodes[u := start.nodes[u]];
  }

  /** An input with links whose `Init` fails can make the pipeline panic: when all other nodes
      have stopped, its next batch, whatever it is, goes to a closed channel. */
  lemma PanicsWithLinks(p: Pipeline, u: Name, batch: Batch) returns (trace: seq<Step>)
    requires WellShaped(p) && Sourced(p) && u in p.graph.inputs && p.graph.Links(u) != []
    requires |batch| <= p.size(u)
    ensures RunFrom(p, FailInit(p, Init(p), u), trace).Panic?
  {
    if !FailInit(p, Init(p), u).Ok? { return []; }
    var s := FailureHasTwin(p, u);
    trace := PanicsFrom(p, u, batch, Init(p).nodes[u], FailInit(p, Init(p), u).state, s);
  }

  lemma PanicsFrom(p: Pipeline, u: Name, batch: Batch, n: Node, r: State, s: State) returns (trace: seq<Step>)
    requires WellShaped(p) && Sourced(p) && u in p.graph.inputs && p.graph.Links(u) != []
    requires Silent(p, s) && s.exited == {u} && Twins(p, u, n, r, s) && n.phase.Idle? && |batch| <= p.size(u)
    ensures Run(p, r, trace).Panic?
  {
    trace := OthersLeave(p, s, u);
    TwinRun(p, u, n, r, s, trace);
    var q := Run(p, r, trace);
    if !q.Panic? {
      assert NodeOk(p, u) && LinkOk(p, u, p.graph.Links(u)[0]);
      NextBatchPanics(p, q.state, u, batch);
      RunTwice(p, r, trace, [Emit(u, batch), Send(u)]);
      trace := trace + [Emit(u, batch), Send(u)];
    }
  }

  /** The failed `Init` of an input of a well-formed pipeline can make it panic if and only if
      the input has a link. */
  lemma FailedInitPanicsIffLinked(p: Pipeline, u: Name)
    requires WellFormed(p) && u in p.graph.inputs
    ensures (exists trace :: RunFrom(p, FailInit(p, Init(p), u), trace).Panic?) <==> p.graph.Links(u) != []
  {
    if p.graph.Links(u) == [] {
      forall trace ensures !RunFrom(p, FailInit(p, Init(p), u), trace).Panic? {
        HarmlessWithoutLinks(p, [], Init(p), u, trace);
      }
    } else {
      var trace := PanicsWithLinks(p, u, []);
    }
  }
}
