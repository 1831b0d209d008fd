/** A well-formed pipeline never gets stuck, in spite of its bounded channels. */
module LifecycleProgress {
  import opened Topology
  import opened Lifecycle
  import opened LifecycleSafety

  /** The steps that wait neither for an input, nor for the clock, nor for the user. */
  predicate Internal(step: Step) {
    step.Receive? || step.Send? || step.Finish? || step.Stop?
  }

  predicate Enabled(p: Pipeline, s: State, step: Step) {
    Apply(p, s, step).Ok?
  }

  ghost predicate Stuck(p: Pipeline, s: State) {
    forall step | Internal(step) :: !Enabled(p, s, step)
  }

  /** Nothing is in flight, and if any node is left, it is for want of input. */
  predicate Quiet(p: Pipeline, s: State) {
    && (forall u | u in s.nodes :: (s.nodes[u].phase.Idle? || s.nodes[u].phase.Exited?) && s.nodes[u].queue == [])
    && ((exists u | u in s.nodes :: !s.nodes[u].phase.Exited?) ==>
          exists u | u in p.graph.inputs :: u in s.nodes && s.nodes[u].phase.Idle?)
  }

  lemma {:induction false} Highest(p: Pipeline, names: set<Name>) returns (top: Name)
    requires names != {}
    ensures top in names && forall u | u in names :: p.rank(u) <= p.rank(top)
  {
    top :| top in names;
    if names != {top} {
      var other := Highest(p, names - {top});
      if p.rank(top) < p.rank(other) { top := other; }
    }
  }

  lemma {:induction false} Lowest(p: Pipeline, names: set<Name>) returns (bottom: Name)
    requires names != {}
    ensures bottom in names && forall u | u in names :: p.rank(bottom) <= p.rank(u)
  {
    bottom :| bottom in names;
    if names != {bottom} {
      var other := Lowest(p, names - {bottom});
      if p.rank(other) < p.rank(bottom) { bottom := other; }
    }
  }

  /** An action that sends nothing never blocks. */
  lemma CanAct(p: Pipeline, s: State, step: Step)
    requires WellFormed(p) && Control(p, s) && step.n in s.nodes
    requires var a := Act(p, step.n, s.nodes[step.n], step); !a.None? && !a.Push?
    ensures Enabled(p, s, step)
  {
    StepControl(p, s, step);
  }

  /** A node that is not sending can take a batch from its channel. */
  lemma CanTake(p: Pipeline, s: State, v: Name)
    requires WellFormed(p) && Control(p, s) && v in s.nodes && s.nodes[v].queue != [] && s.nodes[v].phase.Idle?
    ensures Enabled(p, s, Receive(v))
  {
    assert Sound(p, v, s.nodes[v]);
    assert Act(p, v, s.nodes[v], Receive(v)) == ReceiveAct(p, v, s.nodes[v]);
    CanAct(p, s, Receive(v));
  }

  /** A node whose fan-out is done can go on. */
  lemma CanFinish(p: Pipeline, s: State, u: Name)
    requires WellFormed(p) && Control(p, s) && u in s.nodes && s.nodes[u].phase.Sending?
    requires s.nodes[u].phase.next >= |p.graph.Links(u)|
    ensures Enabled(p, s, Finish(u))
  {
    assert Act(p, u, s.nodes[u], Finish(u)) == FinishAct(p, u, s.nodes[u]);
    CanAct(p, s, Finish(u));
  }

  /** A node can send if there is room. */
  lemma CanSend(p: Pipeline, s: State, u: Name)
    requires WellFormed(p) && Control(p, s) && u in s.nodes && s.nodes[u].phase.Sending?
    requires s.nodes[u].phase.next < |p.graph.Links(u)|
    ensures var v := p.graph.Links(u)[s.nodes[u].phase.next].to;
            && v in s.nodes && v !in p.graph.inputs && p.rank(u) < p.rank(v) && !s.nodes[v].closed
            && (|s.nodes[v].queue| < CHANNEL_CAPACITY ==> Enabled(p, s, Send(u)))
  {
    var n := s.nodes[u];
    var v := p.graph.Links(u)[n.phase.next].to;
    TargetOpen(p, s, u, n.phase.next);
    SendTransmits(p, s, u);
  }

  lemma SendTransmits(p: Pipeline, s: State, u: Name)
    requires u in s.nodes && s.nodes[u].phase.Sending? && s.nodes[u].phase.next < |p.graph.Links(u)|
    ensures var n := s.nodes[u];
            Apply(p, s, Send(u)) == Transmit(s, u, Moved(n), p.graph.Links(u)[n.phase.next].to, n.phase.batch)
  {
  }

  /** In a stuck state nobody is sending: the highest sender could deliver, because the
      node that it sends to is not sending and so would have emptied its channel. */
  lemma NobodySends(p: Pipeline, s: State)
    requires WellFormed(p) && Control(p, s) && Stuck(p, s)
    ensures forall u | u in s.nodes :: !s.nodes[u].phase.Sending?
  {
    var senders := set u | u in s.nodes && s.nodes[u].phase.Sending?;
    if u :| u in s.nodes && s.nodes[u].phase.Sending? {
      assert u in senders;
      var top := Highest(p, senders);
      HighestSenderIsNotStuck(p, s, top);
    }
  }

  /** The highest sender, or the node that it sends to, can take a step. */
  lemma HighestSenderIsNotStuck(p: Pipeline, s: State, u: Name)
    requires WellFormed(p) && Control(p, s)
    requires u in s.nodes && s.nodes[u].phase.Sending?
    requires forall v | v in s.nodes && s.nodes[v].phase.Sending? :: p.rank(v) <= p.rank(u)
    ensures exists step | Internal(step) :: Enabled(p, s, step)
  {
    if s.nodes[u].phase.next >= |p.graph.Links(u)| {
      CanFinish(p, s, u);
      assert Internal(Finish(u));
    } else {
      CanSend(p, s, u);
      var v := p.graph.Links(u)[s.nodes[u].phase.next].to;
      if |s.nodes[v].queue| < CHANNEL_CAPACITY {
        assert Internal(Send(u));
      } else {
        assert Sound(p, v, s.nodes[v]);
        CanTake(p, s, v);
        assert Internal(Receive(v));
      }
    }
  }

  /** A waiting node that finds its channel closed stops, or flushes for the last time. */
  lemma StopActs(p: Pipeline, v: Name, n: Node)
    requires v !in p.graph.inputs && n.phase.Idle? && n.queue == [] && n.closed
    ensures var a := Act(p, v, n, Stop(v)); a.Become? || a.Leave?
  {
    assert Act(p, v, n, Stop(v)) == StopAct(p, v, n);
  }

  /** A waiting node whose sources have all exited can stop. */
  lemma CanStop(p: Pipeline, s: State, v: Name)
    requires WellFormed(p) && Control(p, s) && v in s.nodes && v !in p.graph.inputs
    requires s.nodes[v].phase.Idle? && s.nodes[v].queue == [] && p.graph.Sources(v) <= s.exited
    ensures Enabled(p, s, Stop(v))
  {
    assert s.nodes[v].closed by { assert ClosedRight(p, s, v); }
    StopActs(p, v, s.nodes[v]);
    CanAct(p, s, Stop(v));
  }

  /** When everybody waits at an empty channel, the lowest live node is an input: any other
      would have found its channel closed. */
  lemma SomebodyAwaitsInput(p: Pipeline, s: State)
    requires WellFormed(p) && Control(p, s) && Stuck(p, s)
    requires forall u | u in s.nodes :: (s.nodes[u].phase.Idle? || s.nodes[u].phase.Exited?) && s.nodes[u].queue == []
    requires exists u | u in s.nodes :: !s.nodes[u].phase.Exited?
    ensures exists u | u in p.graph.inputs :: u in s.nodes && s.nodes[u].phase.Idle?
  {
    var live := set u | u in s.nodes && !s.nodes[u].phase.Exited?;
    var some :| some in s.nodes && !s.nodes[some].phase.Exited?;
    assert some in live;
    var v := Lowest(p, live);
    if v !in p.graph.inputs {
      assert p.graph.Sources(v) <= s.exited by { LowerSourcesExited(p, s, v); }
      assert Internal(Stop(v));
      CanStop(p, s, v);
    }
  }

  lemma LowerSourcesExited(p: Pipeline, s: State, v: Name)
    requires WellFormed(p) && Control(p, s)
    requires forall u | u in s.nodes && !s.nodes[u].phase.Exited? :: p.rank(v) <= p.rank(u)
    ensures p.graph.Sources(v) <= s.exited
  {
    forall u | u in p.graph.Sources(v) ensures u in s.exited {
      var i :| 0 <= i < |p.graph.Links(u)| && p.graph.Links(u)[i].to == v;
      assert NodeOk(p, u) && LinkOk(p, u, p.graph.Links(u)[i]);
    }
  }

  /** A state without an internal step is quiet. */
  lemma StuckIsQuiet(p: Pipeline, s: State)
    requires WellFormed(p) && Control(p, s) && Stuck(p, s)
    ensures Quiet(p, s)
  {
    NobodySends(p, s);
    forall u | u in s.nodes ensures s.nodes[u].queue == [] {
      assert Sound(p, u, s.nodes[u]);
      if s.nodes[u].queue != [] && s.nodes[u].phase.Idle? {
        assert Internal(Receive(u));
        CanTake(p, s, u);
      }
    }
    if exists u | u in s.nodes :: !s.nodes[u].phase.Exited? { SomebodyAwaitsInput(p, s); }
  }

  /** Deadlock freedom: in every reachable state some node can take a step by itself, unless
      nothing at all is in flight and the pipeline waits for input or has ended. */
  lemma DeadlockFree(p: Pipeline, trace: seq<Step>, s: State)
    requires WellFormed(p) && Reaches(p, trace, s)
    ensures Quiet(p, s) || exists step :: Internal(step) && Enabled(p, s, step)
  {
    ReachableControl(p, trace, s);
    if Stuck(p, s) { StuckIsQuiet(p, s); }
  }

  predicate AllCancelled(p: Pipeline, s: State) {
    forall u | u in p.graph.inputs && u in s.nodes :: s.nodes[u].cancelled
  }

  /** Once every input has been told to stop, a state in which no node can take a step by
      itself and no input can exit is the end: every node has exited, every channel is
      closed and empty, and no output has anything left in its buffer. */
  lemma StuckAfterKillIsOver(p: Pipeline, trace: seq<Step>, s: State)
    requires WellFormed(p) && Reaches(p, trace, s) && AllCancelled(p, s)
    requires Stuck(p, s) && forall u | u in p.graph.inputs :: !Enabled(p, s, EmitNothing(u))
    ensures forall u | u in s.nodes :: s.nodes[u].phase.Exited? && (u !in p.graph.inputs ==> Drained(s.nodes[u]))
  {
    ReachableControl(p, trace, s);
    StuckIsQuiet(p, s);
    forall u | u in p.graph.inputs && u in s.nodes ensures !s.nodes[u].phase.Idle? {
      if s.nodes[u].phase.Idle? { CancelledInputCanExit(p, s, u); }
    }
    forall u | u in s.nodes ensures u !in p.graph.inputs ==> Drained(s.nodes[u]) {
      assert Sound(p, u, s.nodes[u]);
    }
  }

  lemma CancelledInputCanExit(p: Pipeline, s: State, u: Name)
    requires WellFormed(p) && Control(p, s) && u in p.graph.inputs && u in s.nodes
    requires s.nodes[u].phase.Idle? && s.nodes[u].cancelled
    ensures Enabled(p, s, EmitNothing(u))
  {
    assert Act(p, u, s.nodes[u], EmitNothing(u)) == Leave(s.nodes[u]);
    CanAct(p, s, EmitNothing(u));
  }
}
