/** What the conditions on a pipeline are worth: exactly when a pipeline that is otherwise in
    order can panic, and exactly when it can be shut down. */
module LifecycleLimits {
  import opened Topology
  import opened Lifecycle
  import opened LifecycleSafety
  import opened LifecycleProgress
  import opened LifecycleDraining
  import Laws = SenderLaws

  // ---------------------------------------------------------------------------------
  // Nodes without a source

  /** The channel of `v` is open, and `v` is not about to leave. */
  predicate Waiting(s: State, v: Name) {
    && v in s.nodes && !s.nodes[v].closed && !s.nodes[v].cancelled
    && match s.nodes[v].phase
       case Idle => true
       case Sending(_, _, last) => !last
       case Exited => false
  }

  ghost predicate StillWaiting(r: Result, v: Name) {
    r.Ok? ==> Waiting(r.state, v)
  }

  /** Whatever a waiting node does, it does not leave. */
  lemma ActKeepsWaiting(p: Pipeline, s: State, v: Name, step: Step)
    requires Waiting(s, v) && v !in p.graph.inputs
    ensures var a := Act(p, v, s.nodes[v], step);
            && !a.Leave?
            && (a.Become? || a.Push? ==> Waiting(Update(s, v, a.n), v))
  {
  }

  lemma ExitLeavesWaiting(p: Pipeline, s: State, u: Name, n: Node, v: Name)
    requires Waiting(s, v) && u != v && p.graph.Sources(v) == {}
    ensures StillWaiting(Exit(p, s, u, n), v)
  {
    forall i | 0 <= i < |p.graph.Links(u)| ensures p.graph.Links(u)[i].to != v {
      assert u in p.graph.Sources(p.graph.Links(u)[i].to);
    }
  }

  lemma PerformLeavesWaiting(p: Pipeline, s: State, u: Name, a: Action, v: Name)
    requires Waiting(s, v) && p.graph.Sources(v) == {}
    requires u == v ==> !a.Leave? && (a.Become? || a.Push? ==> Waiting(Update(s, v, a.n), v))
    ensures StillWaiting(Perform(p, s, u, a), v)
  {
    if a.Leave? { ExitLeavesWaiting(p, s, u, a.n, v); }
  }

  lemma StepLeavesWaiting(p: Pipeline, s: State, step: Step, v: Name)
    requires Waiting(s, v) && v !in p.graph.inputs && p.graph.Sources(v) == {}
    ensures StillWaiting(Apply(p, s, step), v)
  {
    if step.n in s.nodes {
      ActKeepsWaiting(p, s, v, step);
      PerformLeavesWaiting(p, s, step.n, Act(p, step.n, s.nodes[step.n], step), v);
    }
  }

  lemma {:induction false} RunLeavesWaiting(p: Pipeline, s: State, trace: seq<Step>, v: Name)
    requires Waiting(s, v) && v !in p.graph.inputs && p.graph.Sources(v) == {}
    ensures StillWaiting(Run(p, s, trace), v)
    decreases |trace|
  {
    if trace != [] {
      StepLeavesWaiting(p, s, trace[0], v);
      var r := Apply(p, s, trace[0]);
      if r.Ok? { RunLeavesWaiting(p, r.state, trace[1..], v); }
    }
  }

  /** A filter or an output that has no source never exits: nobody ever closes its channel. */
  lemma SourcelessNeverExits(p: Pipeline, trace: seq<Step>, s: State, v: Name)
    requires Reaches(p, trace, s)
    requires v in p.graph.Nodes() && v !in p.graph.inputs && p.graph.Sources(v) == {}
    ensures v in s.nodes && !s.nodes[v].phase.Exited?
  {
    RunLeavesWaiting(p, Init(p), trace, v);
  }

  // ---------------------------------------------------------------------------------
  // Shutting down

  lemma {:induction false} RunTwice(p: Pipeline, s: State, a: seq<Step>, b: seq<Step>)
    requires Run(p, s, a).Ok?
    ensures Run(p, s, a + b) == Run(p, Run(p, s, a).state, b)
    decreases |a|
  {
    if a == [] {
      assert a + b == b;
    } else {
      assert (a + b)[1..] == a[1..] + b;
      RunTwice(p, Apply(p, s, a[0]).state, a[1..], b);
    }
  }

  lemma RunOn(p: Pipeline, trace: seq<Step>, s: State, step: Step) returns (longer: seq<Step>)
    requires Reaches(p, trace, s) && Enabled(p, s, step)
    ensures Reaches(p, longer, Apply(p, s, step).state)
  {
    longer := trace + [step];
    RunTwice(p, Init(p), trace, [step]);
    assert Run(p, Apply(p, s, step).state, [step][1..]) == Apply(p, s, step);
  }

  function Running(p: Pipeline, s: State): set<Name> {
    set u | u in p.graph.inputs && u in s.nodes && !s.nodes[u].cancelled
  }

  lemma CanKillOne(p: Pipeline, trace: seq<Step>, s: State, u: Name)
    requires WellFormed(p) && Reaches(p, trace, s) && u in Running(p, s)
    ensures Apply(p, s, Kill(u)) == Ok(Update(s, u, s.nodes[u].(cancelled := true)))
  {
    ReachableControl(p, trace, s);
    assert Sound(p, u, s.nodes[u]);
  }

  /** All inputs can be told to stop. */
  lemma {:induction false} CanKill(p: Pipeline, trace: seq<Step>, s: State) returns (longer: seq<Step>, t: State)
    requires WellFormed(p) && Reaches(p, trace, s)
    ensures Reaches(p, longer, t) && AllCancelled(p, t)
    decreases Running(p, s)
  {
    if Running(p, s) == {} {
      assert forall u | u in p.graph.inputs && u in s.nodes && !s.nodes[u].cancelled :: u in Running(p, s);
      return trace, s;
    }
    var u :| u in Running(p, s);
    CanKillOne(p, trace, s, u);
    var next := Apply(p, s, Kill(u)).state;
    longer := RunOn(p, trace, s, Kill(u));
    assert Running(p, next) == Running(p, s) - {u};
    longer, t := CanKill(p, longer, next);
  }

  lemma {:induction false} CanDrain(p: Pipeline, trace: seq<Step>, s: State) returns (longer: seq<Step>, t: State)
    requires WellFormed(p) && Reaches(p, trace, s) && AllCancelled(p, s)
    ensures Reaches(p, longer, t) && Over(p, t)
    decreases Potential(p, s)
  {
    DrainingTerminates(p, trace, s);
    if Over(p, s) { return trace, s; }
    var step :| Progress(p, s, step);
    ReachableControl(p, trace, s);
    StepLowersPotential(p, s, step);
    StaysCancelled(p, s, step);
    longer := RunOn(p, trace, s, step);
    longer, t := CanDrain(p, longer, Apply(p, s, step).state);
  }

  /** A pipeline that is otherwise in order can be shut down, so that everything is drained
      and gone, exactly when every filter and every output has a source. */
  lemma CanShutDownIffSourced(p: Pipeline)
    requires WellShaped(p) && p.graph.NoDoubleClosing()
    ensures Sourced(p) <==> exists trace, s :: Reaches(p, trace, s) && Over(p, s)
  {
    if Sourced(p) {
      var killed, s := CanKill(p, [], Init(p));
      var trace, t := CanDrain(p, killed, s);
    }
    if trace, s :| Reaches(p, trace, s) && Over(p, s) {
      forall v | v in p.graph.Nodes() && v !in p.graph.inputs ensures p.graph.Sources(v) != {} {
        if p.graph.Sources(v) == {} { SourcelessNeverExits(p, trace, s, v); }
      }
    }
  }

  // ---------------------------------------------------------------------------------
  // Repeated links

  /** Nothing is in flight, and no live input was told to stop. */
  predicate Hushed(s: State) {
    && (forall x | x in s.nodes ::
          !s.nodes[x].phase.Sending? && s.nodes[x].queue == [] && s.nodes[x].sender.buffer == [])
    && (forall x | x in s.nodes && x !in s.exited :: !s.nodes[x].cancelled)
  }

  predicate Silent(p: Pipeline, s: State) {
    Control(p, s) && Hushed(s)
  }

  /** What is expected of the exit of `x` in a silent state: it panics if it closes a channel
      twice, and otherwise leaves a silent state. */
  predicate ExitsSilently(p: Pipeline, s: State, x: Name, r: Result) {
    if p.graph.DoubleClose(ClosedFlags(s.nodes), s.exited + {x}, x) then r.Panic?
    else r.Ok? && Silent(p, r.state) && r.state.exited == s.exited + {x}
  }

  lemma SilentExit(p: Pipeline, s: State, x: Name, n: Node)
    requires WellShaped(p) && Silent(p, s) && x in s.nodes && x !in s.exited
    requires Sound(p, x, n.(phase := Exited)) && n.closed == s.nodes[x].closed && n.queue == [] && n.sender.buffer == []
    ensures ExitsSilently(p, s, x, Exit(p, s, x, n))
  {
    if Exit(p, s, x, n).Ok? {
      ExitControl(p, s, x, n);
      ExitHushed(p, s, x, n);
    }
  }

  lemma ExitHushed(p: Pipeline, s: State, x: Name, n: Node)
    requires Hushed(s) && x in s.nodes && n.queue == [] && n.sender.buffer == [] && Exit(p, s, x, n).Ok?
    ensures Hushed(Exit(p, s, x, n).state)
  {
    var t := Exit(p, s, x, n).state;
    forall y | y in t.nodes && y != x ensures t.nodes[y] == s.nodes[y] || t.nodes[y] == s.nodes[y].(closed := true) {
    }
  }

  lemma SilentInputExits(p: Pipeline, s: State, x: Name)
    requires WellShaped(p) && Silent(p, s) && x in s.nodes && x !in s.exited && x in p.graph.inputs
    ensures ExitsSilently(p, s, x, Run(p, s, [Kill(x), EmitNothing(x)]))
  {
    var n := s.nodes[x].(cancelled := true);
    var t := Update(s, x, n);
    assert Sound(p, x, s.nodes[x]);
    SilentExit(p, s, x, n);
    KillSteps(p, s, x, n);
    SameExit(p, s, x, n);
    RunTwoSteps(p, s, Kill(x), EmitNothing(x));
  }

  /** An idle input that is told to stop leaves when it is next asked for a batch. */
  lemma KillSteps(p: Pipeline, s: State, x: Name, n: Node)
    requires x in s.nodes && x in p.graph.inputs && s.nodes[x].phase.Idle? && !s.nodes[x].cancelled
    requires n == s.nodes[x].(cancelled := true)
    ensures Apply(p, s, Kill(x)) == Ok(Update(s, x, n))
    ensures Apply(p, Update(s, x, n), EmitNothing(x)) == Exit(p, Update(s, x, n), x, n)
  {
  }

  lemma SameExit(p: Pipeline, s: State, x: Name, n: Node)
    requires x in s.nodes && n.closed == s.nodes[x].closed
    ensures Exit(p, Update(s, x, n), x, n) == Exit(p, s, x, n)
  {
    assert ClosedFlags(Update(s, x, n).nodes) == ClosedFlags(s.nodes);
    assert Update(s, x, n).nodes[x := n.(phase := Exited)] == s.nodes[x := n.(phase := Exited)];
  }

  lemma RunTwoSteps(p: Pipeline, s: State, a: Step, b: Step)
    requires Apply(p, s, a).Ok?
    ensures Run(p, s, [a, b]) == Apply(p, Apply(p, s, a).state, b)
  {
    assert [a, b][1..] == [b];
    RunOne(p, Apply(p, s, a).state, b);
  }

  lemma RunOne(p: Pipeline, s: State, step: Step)
    ensures Run(p, s, [step]) == Apply(p, s, step)
  {
    var r := Apply(p, s, step);
    assert [step][1..] == [];
    if r.Ok? { assert Run(p, r.state, []) == r; }
  }

  /** A sender that has nothing settles nothing. */
  lemma NothingToFlush(p: Pipeline, x: Name, n: Node)
    requires NodeOk(p, x) && x in p.graph.outputs && n.phase.Idle? && n.sender.buffer == []
    ensures var m := FlushNode(p, x, n, true);
            !m.phase.Sending? && m.closed == n.closed && m.queue == n.queue
            && m.sender.buffer == [] && m.cancelled == n.cancelled
  {
    var t := p.sender(x).flush(n.sender, true);
    assert Laws.Advances(p.size(x), |p.graph.Links(x)| == 1, n.sender, t, []);
  }

  /** A node that stops leaves as a filter does, or as an output does that has nothing to
      forward. */
  function AtStop(p: Pipeline, x: Name, n: Node): Node {
    if x in p.graph.filters then n else FlushNode(p, x, n, true)
  }

  lemma StopSteps(p: Pipeline, s: State, x: Name)
    requires x in s.nodes && x !in p.graph.inputs && !AtStop(p, x, s.nodes[x]).phase.Sending?
    requires s.nodes[x].phase.Idle? && s.nodes[x].queue == [] && s.nodes[x].closed
    ensures Apply(p, s, Stop(x)) == Exit(p, s, x, AtStop(p, x, s.nodes[x]))
  {
    assert Act(p, x, s.nodes[x], Stop(x)) == StopAct(p, x, s.nodes[x]);
  }

  lemma StopSound(p: Pipeline, x: Name, n: Node)
    requires Roles(p.graph) && NodeOk(p, x) && x in p.graph.Nodes() && x !in p.graph.inputs && Sound(p, x, n)
    requires n.phase.Idle? && n.queue == [] && n.closed && n.sender.buffer == []
    ensures var m := AtStop(p, x, n);
            !m.phase.Sending? && m.closed == n.closed && m.queue == []
            && m.sender.buffer == [] && Sound(p, x, m.(phase := Exited))
  {
    if x !in p.graph.filters { NothingToFlush(p, x, n); }
  }

  lemma SilentOtherExits(p: Pipeline, s: State, x: Name)
    requires WellShaped(p) && Silent(p, s) && x in s.nodes && x !in s.exited && x !in p.graph.inputs
    requires p.graph.Sources(x) != {} && p.graph.Sources(x) <= s.exited
    ensures ExitsSilently(p, s, x, Run(p, s, [Stop(x)]))
  {
    var n := s.nodes[x];
    assert NodeOk(p, x) && Sound(p, x, n);
    assert n.closed by { assert ClosedRight(p, s, x); }
    StopSound(p, x, n);
    StopSteps(p, s, x);
    RunOne(p, s, Stop(x));
    SilentExit(p, s, x, AtStop(p, x, n));
  }

  /** In silence, a node whose sources have exited can exit. */
  lemma ExitSteps(p: Pipeline, s: State, x: Name) returns (steps: seq<Step>)
    requires WellShaped(p) && Silent(p, s) && x in s.nodes && x !in s.exited
    requires (x in p.graph.inputs || p.graph.Sources(x) != {}) && p.graph.Sources(x) <= s.exited
    ensures ExitsSilently(p, s, x, Run(p, s, steps)) && forall i | 0 <= i < |steps| :: steps[i].n == x
  {
    if x in p.graph.inputs {
      SilentInputExits(p, s, x);
      return [Kill(x), EmitNothing(x)];
    }
    SilentOtherExits(p, s, x);
    return [Stop(x)];
  }

  /** In silence, a set of nodes that have sources, and none outside, can exit, lowest first, unless one of
      them panics. */
  lemma {:induction false} ExitAll(p: Pipeline, s: State, todo: set<Name>) returns (trace: seq<Step>)
    requires WellShaped(p) && Silent(p, s) && todo <= s.nodes.Keys && todo !! s.exited
    requires forall x | x in todo ::
      (x in p.graph.inputs || p.graph.Sources(x) != {}) && p.graph.Sources(x) <= s.exited + todo
    ensures var r := Run(p, s, trace); r.Panic? || (r.Ok? && Silent(p, r.state) && r.state.exited == s.exited + todo)
    ensures forall i | 0 <= i < |trace| :: trace[i].n in todo
    decreases todo
  {
    if todo == {} { return []; }
    var x := Lowest(p, todo);
    LowestReady(p, s, todo, x);
    var first := ExitSteps(p, s, x);
    var r := Run(p, s, first);
    if r.Panic? { return first; }
    var rest := ExitAll(p, r.state, todo - {x});
    RunTwice(p, s, first, rest);
    return first + rest;
  }

  /** The lowest of the nodes that are to exit can exit, and then the others can. */
  lemma LowestReady(p: Pipeline, s: State, todo: set<Name>, x: Name)
    requires WellShaped(p) && x in todo && forall y | y in todo :: p.rank(x) <= p.rank(y)
    requires forall y | y in todo :: p.graph.Sources(y) <= s.exited + todo
    ensures p.graph.Sources(x) <= s.exited
    ensures s.exited + {x} + (todo - {x}) == s.exited + todo
  {
    forall y | y in p.graph.Sources(x) ensures y in s.exited { NoSourceOfInput(p, y, x); }
  }

  /** A route leads upwards. */
  lemma {:induction false} RouteUp(p: Pipeline, route: seq<Name>)
    requires WellShaped(p) && p.graph.Route(route)
    ensures p.rank(route[0]) <= p.rank(route[|route| - 1])
  {
    if |route| > 1 {
      RouteUp(p, route[..|route| - 1]);
      NoSourceOfInput(p, route[|route| - 2], route[|route| - 1]);
    }
  }

  lemma LeadsOn(p: Pipeline, u: Name, x: Name, y: Name)
    requires p.graph.Leads(u, x) && x in p.graph.Sources(y)
    ensures p.graph.Leads(u, y)
  {
    var route :| p.graph.Route(route) && route[0] == u && route[|route| - 1] == x;
    var longer := route + [y];
    assert p.graph.Route(longer) && longer[0] == u && longer[|longer| - 1] == y;
  }

  lemma LeadsFrom(p: Pipeline, y: Name, x: Name, v: Name)
    requires y in p.graph.Sources(x) && p.graph.Leads(x, v)
    ensures p.graph.Leads(y, v)
  {
    var route :| p.graph.Route(route) && route[0] == x && route[|route| - 1] == v;
    var longer := [y] + route;
    assert p.graph.Route(longer) && longer[0] == y && longer[|longer| - 1] == v;
  }

  /** The nodes that lead to `v` but are not downstream of `u`. */
  ghost function Before(p: Pipeline, u: Name, v: Name): set<Name> {
    set x | x in p.graph.Nodes() && p.graph.Leads(x, v) && !p.graph.Leads(u, x)
  }

  lemma LeadsToItself(p: Pipeline, u: Name)
    ensures p.graph.Leads(u, u)
  {
    assert p.graph.Route([u]);
  }

  lemma SourceBefore(p: Pipeline, u: Name, v: Name, x: Name, y: Name)
    requires WellShaped(p) && (x in Before(p, u, v) || (x == u && p.graph.Leads(u, v))) && y in p.graph.Sources(x)
    ensures y in Before(p, u, v)
  {
    NoSourceOfInput(p, y, x);
    LeadsFrom(p, y, x, v);
    if p.graph.Leads(u, y) {
      LeadsOn(p, u, y, x);
      var route :| p.graph.Route(route) && route[0] == u && route[|route| - 1] == y;
      RouteUp(p, route);
    }
  }

  /** Two links from `u` to `v`, which can end, and no other source of `v` downstream of `u`. */
  ghost predicate ClosedTwice(p: Pipeline, u: Name, v: Name) {
    && p.graph.Doubled(u, v) && p.graph.Ends(v)
    && forall w | w in p.graph.Sources(v) && w != u :: !p.graph.Leads(u, w)
  }

  lemma DoubledFeeds(p: Pipeline, u: Name, v: Name)
    requires WellShaped(p) && p.graph.Doubled(u, v)
    ensures u in p.graph.Sources(v) && u in p.graph.Nodes() && v in p.graph.Nodes() && v != u
    ensures p.graph.Leads(u, u) && p.graph.Leads(u, v)
  {
    assert p.graph.Feeds(u, v);
    NoSourceOfInput(p, u, v);
    LeadsToItself(p, u);
    LeadsOn(p, u, u, v);
  }

  /** Then all other sources of `v` are among the nodes before, and so are those of `u`. */
  lemma SourcesBefore(p: Pipeline, u: Name, v: Name)
    requires WellShaped(p) && ClosedTwice(p, u, v)
    ensures u !in Before(p, u, v) && v !in Before(p, u, v)
    ensures p.graph.Sources(u) <= Before(p, u, v) && p.graph.Sources(v) <= Before(p, u, v) + {u}
  {
    DoubledFeeds(p, u, v);
    forall y | y in p.graph.Sources(u) ensures y in Before(p, u, v) { SourceBefore(p, u, v, u, y); }
    forall w | w in p.graph.Sources(v) ensures w in Before(p, u, v) + {u} {
      NoSourceOfInput(p, w, v);
      LeadsToItself(p, v);
      LeadsFrom(p, w, v, v);
    }
  }

  /** When all sources of `v` but `u` have exited, `u` exits and closes `v`, twice. */
  lemma ClosesTwice(p: Pipeline, s: State, u: Name, v: Name)
    requires p.graph.Doubled(u, v) && v in s.nodes && v !in s.exited && v != u
    requires p.graph.Sources(v) <= s.exited + {u}
    ensures p.graph.DoubleClose(ClosedFlags(s.nodes), s.exited + {u}, u)
  {
    var closing := p.graph.Closable(s.exited + {u}, u);
    var i, j :| 0 <= i < j < |p.graph.Links(u)| && p.graph.Links(u)[i].to == v == p.graph.Links(u)[j].to;
    assert p.graph.Links(u)[i].to in closing;
    assert v in closing * ClosedFlags(s.nodes).Keys;
  }

  /** Stopping an idle pipeline, in a suitable order, then panics. */
  lemma DoubledLinkPanics(p: Pipeline, u: Name, v: Name) returns (trace: seq<Step>)
    requires WellShaped(p) && ClosedTwice(p, u, v)
    ensures Run(p, Init(p), trace).Panic?
  {
    DoubledFeeds(p, u, v);
    trace := ExitBefore(p, u, v);
    var r := Run(p, Init(p), trace);
    if !r.Panic? {
      var last := ExitLast(p, r.state, u, v);
      RunTwice(p, Init(p), trace, last);
      trace := trace + last;
    }
  }

  lemma ExitBefore(p: Pipeline, u: Name, v: Name) returns (trace: seq<Step>)
    requires WellShaped(p) && ClosedTwice(p, u, v)
    ensures var r := Run(p, Init(p), trace);
            r.Panic? || (r.Ok? && Silent(p, r.state) && r.state.exited == Before(p, u, v))
  {
    InitSilent(p);
    forall x, y | x in Before(p, u, v) && y in p.graph.Sources(x) ensures y in Before(p, u, v) {
      SourceBefore(p, u, v, x, y);
    }
    assert {} + Before(p, u, v) == Before(p, u, v);
    trace := ExitAll(p, Init(p), Before(p, u, v));
  }

  lemma ExitLast(p: Pipeline, s: State, u: Name, v: Name) returns (last: seq<Step>)
    requires WellShaped(p) && Silent(p, s) && s.exited == Before(p, u, v) && ClosedTwice(p, u, v)
    ensures Run(p, s, last).Panic?
  {
    DoubledFeeds(p, u, v);
    SourcesBefore(p, u, v);
    ClosesTwice(p, s, u, v);
    last := ExitSteps(p, s, u);
  }

  lemma InitSilent(p: Pipeline)
    requires WellShaped(p)
    ensures Silent(p, Init(p)) && Init(p).exited == {} && Init(p).nodes.Keys == p.graph.Nodes()
  {
    InitControl(p);
    forall x | x in p.graph.outputs ensures p.sender(x).start.buffer == [] { assert NodeOk(p, x); }
  }

  /** A well-shaped pipeline can panic if and only if some node has two links to the same
      target, everything that leads to the target comes from inputs, and no other source of
      the target is downstream of the node. */
  lemma PanicsIffDoubleClosing(p: Pipeline)
    requires WellShaped(p)
    ensures (exists trace :: Run(p, Init(p), trace).Panic?) <==> !p.graph.NoDoubleClosing()
  {
    if p.graph.NoDoubleClosing() {
      forall trace ensures !Run(p, Init(p), trace).Panic? { NeverPanics(p, trace); }
    } else {
      var u, v :| p.graph.Doubled(u, v) && p.graph.Ends(v)
                  && forall w | w in p.graph.Sources(v) && w != u :: !p.graph.Leads(u, w);
      var trace := DoubledLinkPanics(p, u, v);
    }
  }
}
