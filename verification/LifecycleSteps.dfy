/** When exactly each step of a pipeline is possible, and what the steps of an input do over
    whole runs. */
module LifecycleSteps {
  import opened Messages
  import opened Topology
  import opened Lifecycle
  import opened LifecycleSafety

  // ---------------------------------------------------------------------------------
  // What is possible

  /** A send is possible exactly when fewer than ten batches wait at its target. */
  lemma SendPossible(p: Pipeline, s: State, u: Name)
    requires Safe(p) && Control(p, s) && u in s.nodes
    ensures var n, links := s.nodes[u], p.graph.Links(u);
            Apply(p, s, Send(u)).Ok?
            <==> n.phase.Sending? && n.phase.next < |links| && links[n.phase.next].to in s.nodes
                 && |s.nodes[links[n.phase.next].to].queue| < 10
  {
    StepControl(p, s, Send(u));
    var n, links := s.nodes[u], p.graph.Links(u);
    if n.phase.Sending? && n.phase.next < |links| {
      assert Act(p, u, n, Send(u)) == Push(Moved(n), links[n.phase.next].to, n.phase.batch);
    }
  }

  /** Inputs: the one who stops them, and `GetBatch`, may act at any time. */
  lemma InputStepPossible(p: Pipeline, s: State, u: Name, step: Step)
    requires Safe(p) && Control(p, s) && u in s.nodes && step.n == u
    requires step.Kill? || step.Emit? || step.EmitNothing?
    ensures var n := s.nodes[u];
            Apply(p, s, step).Ok? <==>
              match step
              case Kill(_) => u in p.graph.inputs && !n.cancelled && !n.phase.Exited?
              case Emit(_, batch) => u in p.graph.inputs && n.phase.Idle? && |batch| <= p.size(u)
              case _ => u in p.graph.inputs && n.phase.Idle?
  {
    StepControl(p, s, step);
  }

  lemma TakeStepPossible(p: Pipeline, s: State, u: Name, step: Step)
    requires Safe(p) && Control(p, s) && u in s.nodes && step.n == u && (step.Receive? || step.Stop?)
    ensures var n := s.nodes[u];
            Apply(p, s, step).Ok?
            <==> u !in p.graph.inputs && n.phase.Idle?
                 && (if step.Receive? then n.queue != [] else n.queue == [] && n.closed)
  {
    StepControl(p, s, step);
  }

  lemma OtherStepPossible(p: Pipeline, s: State, u: Name, step: Step)
    requires Safe(p) && Control(p, s) && u in s.nodes && step.n == u && (step.Tick? || step.Finish?)
    ensures var n := s.nodes[u];
            Apply(p, s, step).Ok?
            <==> if step.Tick? then u in p.graph.outputs && n.phase.Idle?
                 else n.phase.Sending? && n.phase.next >= |p.graph.Links(u)|
  {
    StepControl(p, s, step);
  }

  /** In every reachable state, exactly these steps of node `u` are possible. An input that waits
      can be given a batch or nothing; every other node takes what is in its channel, and stops
      when it is closed and empty; an output that waits takes ticks; whoever has something to
      send sends it as long as there is room at the next target, and is done when there is no
      further target. */
  lemma PossibleExactly(p: Pipeline, trace: seq<Step>, s: State, step: Step)
    requires Safe(p) && Reaches(p, trace, s) && step.n in s.nodes
    ensures var u, input := step.n, step.n in p.graph.inputs;
            var n, links := s.nodes[u], p.graph.Links(u);
            Apply(p, s, step).Ok? <==>
              match step
              case Kill(_) => input && !n.cancelled && !n.phase.Exited?
              case Emit(_, batch) => input && n.phase.Idle? && |batch| <= p.size(u)
              case EmitNothing(_) => input && n.phase.Idle?
              case Receive(_) => !input && n.phase.Idle? && n.queue != []
              case Send(_) =>
                && n.phase.Sending? && n.phase.next < |links|
                && links[n.phase.next].to in s.nodes && |s.nodes[links[n.phase.next].to].queue| < 10
              case Finish(_) => n.phase.Sending? && n.phase.next >= |links|
              case Tick(_) => u in p.graph.outputs && n.phase.Idle?
              case Stop(_) => !input && n.phase.Idle? && n.queue == [] && n.closed
  {
    ReachableControl(p, trace, s);
    if step.Send? { SendPossible(p, s, step.n); }
    else if step.Kill? || step.Emit? || step.EmitNothing? { InputStepPossible(p, s, step.n, step); }
    else if step.Receive? || step.Stop? { TakeStepPossible(p, s, step.n, step); }
    else { OtherStepPossible(p, s, step.n, step); }
  }

  /** A node that is done with its fan-out, or an input that `GetBatch` gave nothing, leaves
      exactly if it was told to stop or this was its last batch. If not, it waits again, and
      nothing else changes. */
  lemma LeavesExactly(p: Pipeline, s: State, u: Name, step: Step)
    requires Safe(p) && Control(p, s) && u in s.nodes && Apply(p, s, step).Ok?
    requires step == Finish(u) || step == EmitNothing(u)
    ensures var n, t := s.nodes[u], Apply(p, s, step).state;
            if n.cancelled || (n.phase.Sending? && n.phase.last) then t.exited == s.exited + {u} && u !in s.exited
            else t == s.(nodes := s.nodes[u := n.(phase := Idle)])
  {
  }

  // ---------------------------------------------------------------------------------
  // Inputs over whole runs

  /** The batches that `GetBatch` gave input `u` in a run, in order. */
  function EmittedIn(trace: seq<Step>, u: Name): (r: seq<Batch>) {
    if trace == [] then []
    else
      var last := trace[|trace| - 1];
      EmittedIn(trace[..|trace| - 1], u) + (if last.Emit? && last.n == u then [last.batch] else [])
  }

  lemma {:induction false} RunSnoc(p: Pipeline, s: State, before: seq<Step>, step: Step)
    ensures var r := Run(p, s, before);
            Run(p, s, before + [step]) == if r.Ok? then Apply(p, r.state, step) else r
    decreases |before|
  {
    if before == [] {
      assert [step][1..] == [] && before + [step] == [step];
      var first := Apply(p, s, step);
      assert first.Ok? ==> Run(p, first.state, []) == first;
    } else {
      assert (before + [step])[1..] == before[1..] + [step] && (before + [step])[0] == before[0];
      var first := Apply(p, s, before[0]);
      if first.Ok? { RunSnoc(p, first.state, before[1..], step); }
    }
  }

  lemma Unsnoc(trace: seq<Step>) returns (before: seq<Step>, last: Step)
    requires trace != []
    ensures trace == before + [last] && |before| == |trace| - 1
  {
    before, last := trace[..|trace| - 1], trace[|trace| - 1];
  }

  /** A run without its last step, and the last step. */
  lemma LastStep(p: Pipeline, s: State, before: seq<Step>, last: Step)
    requires Run(p, s, before + [last]).Ok?
    ensures var r := Run(p, s, before); r.Ok? && Apply(p, r.state, last) == Run(p, s, before + [last])
  {
    RunSnoc(p, s, before, last);
  }

  lemma EmittedSnoc(before: seq<Step>, last: Step, u: Name)
    ensures EmittedIn(before + [last], u)
         == EmittedIn(before, u) + (if last.Emit? && last.n == u then [last.batch] else [])
  {
    assert (before + [last])[..|before|] == before;
  }

  /** Closing channels and delivering batches changes neither what a node does nor what it has
      taken in and produced. */
  predicate SameWork(n: Node, m: Node) {
    && m.phase == n.phase && m.produced == n.produced && m.cancelled == n.cancelled && m.sender == n.sender
    && m.received == n.received
  }

  lemma ExitWork(p: Pipeline, s: State, u: Name, n: Node, v: Name)
    requires u in s.nodes && v in s.nodes && Exit(p, s, u, n).Ok?
    ensures v in Exit(p, s, u, n).state.nodes
    ensures SameWork(if v == u then n.(phase := Exited) else s.nodes[v], Exit(p, s, u, n).state.nodes[v])
  {
  }

  lemma DeliveredWork(s: State, u: Name, n: Node, to: Name, batch: Batch, v: Name)
    requires u in s.nodes && v in s.nodes && to in s.nodes
    ensures v in Delivered(s, u, n, to, batch).nodes
    ensures SameWork(if v == u then n else s.nodes[v], Delivered(s, u, n, to, batch).nodes[v])
  {
  }

  /** What a step does to the work of a node: its own step does what it acts; the steps of others
      leave it alone. */
  lemma WorkAfter(p: Pipeline, s: State, step: Step, v: Name)
    requires v in s.nodes && Apply(p, s, step).Ok?
    ensures v in Apply(p, s, step).state.nodes
    ensures var m := Apply(p, s, step).state.nodes[v];
            if step.n != v then SameWork(s.nodes[v], m)
            else
              match Act(p, v, s.nodes[v], step)
              case Become(n) => SameWork(n, m)
              case Push(n, _, _) => SameWork(n, m)
              case Leave(n) => SameWork(n.(phase := Exited), m)
              case _ => false
  {
    var u := step.n;
    match Act(p, u, s.nodes[u], step)
    case Push(n, to, batch) => DeliveredWork(s, u, n, to, batch, v);
    case Leave(n) => ExitWork(p, s, u, n, v);
    case _ =>
  }

  lemma InputStep(p: Pipeline, s: State, step: Step, u: Name)
    requires u in s.nodes && u in p.graph.inputs && Apply(p, s, step).Ok?
    ensures u in Apply(p, s, step).state.nodes
    ensures var n, m := s.nodes[u], Apply(p, s, step).state.nodes[u];
            && m.produced == n.produced + (if step.Emit? && step.n == u then [step.batch] else [])
            && (m.cancelled <==> n.cancelled || step == Kill(u))
  {
    WorkAfter(p, s, step, u);
  }

  /** An input has produced exactly the batches that `GetBatch` gave it in the run, unchanged and
      in order; it knows that it has been told to stop exactly if it has been; and it has not
      exited otherwise. */
  lemma {:induction false} ProducedIsEmitted(p: Pipeline, trace: seq<Step>, s: State, u: Name)
    requires Reaches(p, trace, s) && u in p.graph.inputs
    ensures u in s.nodes && s.nodes[u].produced == EmittedIn(trace, u)
    ensures s.nodes[u].cancelled <==> Kill(u) in trace
    ensures Safe(p) && s.nodes[u].phase.Exited? ==> Kill(u) in trace
    decreases |trace|
  {
    if trace != [] {
      var before, last := Unsnoc(trace);
      LastStep(p, Init(p), before, last);
      var r := Run(p, Init(p), before);
      ProducedIsEmitted(p, before, r.state, u);
      InputStep(p, r.state, last, u);
      EmittedSnoc(before, last, u);
    }
    if Safe(p) {
      ReachableControl(p, trace, s);
      assert Sound(p, u, s.nodes[u]);
    }
  }

  /** How many more batches an input that has been told to stop can emit. */
  function StillToEmit(n: Node): nat {
    if n.phase.Idle? then 1 else 0
  }

  lemma StoppingStep(p: Pipeline, s: State, step: Step, u: Name)
    requires u in s.nodes && u in p.graph.inputs && s.nodes[u].cancelled && Apply(p, s, step).Ok?
    ensures u in Apply(p, s, step).state.nodes && Apply(p, s, step).state.nodes[u].cancelled
    ensures var n, m := s.nodes[u], Apply(p, s, step).state.nodes[u];
            && |m.produced| + StillToEmit(m) <= |n.produced| + StillToEmit(n)
            && n.produced <= m.produced
  {
    WorkAfter(p, s, step, u);
  }

  /** An input that has been told to stop emits at most one more batch, and none if it is busy
      with one: it looks when it is done. */
  lemma {:induction false} AtMostOneMore(p: Pipeline, s: State, trace: seq<Step>, t: State, u: Name)
    requires u in s.nodes && u in p.graph.inputs && s.nodes[u].cancelled && Run(p, s, trace) == Ok(t)
    ensures u in t.nodes && s.nodes[u].produced <= t.nodes[u].produced
    ensures |t.nodes[u].produced| <= |s.nodes[u].produced| + (if s.nodes[u].phase.Idle? then 1 else 0)
    decreases |trace|
  {
    if trace != [] {
      var r := Apply(p, s, trace[0]);
      StoppingStep(p, s, trace[0], u);
      AtMostOneMore(p, r.state, trace[1..], t, u);
    }
  }
}
