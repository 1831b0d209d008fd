/** The senders of a running pipeline: what an output does in any run is its event loop, on its
    ticks and on the batches that it took out of its channel. */
module OutputRuns {
  import opened SenderModel
  import opened Topology
  import opened Lifecycle
  import opened LifecycleSafety
  import opened LifecycleSteps
  import opened ConfiguredPipelines
  import Exact = SenderExact
  import Laws = SenderLaws

  /** What a tick does to an output that runs the sender of the program. If there is something in
      its buffer, and the flush interval has passed since the last acknowledgement or there is a
      full batch, the whole buffer is settled, and sent on exactly if it was to be forwarded.
      Otherwise the output stays as it was. No other node notices. */
  lemma TickFlushesIfDue(p: Pipeline, c: Name -> ValidConfig, e: Name -> Env, s: State, u: Name)
    requires RunsSenders(p, c, e) && u in s.nodes && u in p.graph.outputs && u !in p.graph.inputs
    requires s.nodes[u].phase.Idle?
    ensures var r := Apply(p, s, Tick(u));
            var n := s.nodes[u];
            && r.Ok? && u in r.state.nodes && r.state == s.(nodes := s.nodes[u := r.state.nodes[u]])
            && var m := r.state.nodes[u];
               var due := e(u).clock(n.sender.readings) - n.sender.lastFlush >= c(u).flushInterval
                          || |n.sender.buffer| >= c(u).batchSize;
               if due && n.sender.buffer != [] then
                 && Exact.SettledWhole(n.sender, m.sender)
                 && m.phase == if m.sender.settled[|n.sender.settled|].outcome.Forwarded?
                               then Sending(n.sender.buffer, 0, false) else Idle
               else m == n.(sender := n.sender.(readings := n.sender.readings + 1))
  {
    var n := s.nodes[u];
    var t := Flush(c(u), e(u), n.sender, false);
    assert Act(p, u, n, Tick(u)) == Become(AfterSender(n, t, false));
    Laws.FlushOutcome(c(u), e(u), n.sender, false);
  }

  /** So a tick changes the buffer, what is settled, or what the output is doing, exactly if
      something is to be flushed and it is time, and it calls the outputter only then. */
  lemma TickChangesIfDue(p: Pipeline, c: Name -> ValidConfig, e: Name -> Env, s: State, u: Name)
    requires RunsSenders(p, c, e) && u in s.nodes && u in p.graph.outputs && u !in p.graph.inputs
    requires s.nodes[u].phase.Idle?
    ensures var r := Apply(p, s, Tick(u));
            && r.Ok? && u in r.state.nodes
            && var n, m := s.nodes[u], r.state.nodes[u];
               n.sender.buffer != []
               && (e(u).clock(n.sender.readings) - n.sender.lastFlush >= c(u).flushInterval
                   || |n.sender.buffer| >= c(u).batchSize)
               <==> m.sender.buffer != n.sender.buffer || m.sender.settled != n.sender.settled
                    || m.sender.attempts != n.sender.attempts || m.phase != n.phase
  {
    TickFlushesIfDue(p, c, e, s, u);
  }

  // ---------------------------------------------------------------------------------
  // The event loop inside the pipeline

  /** The events of the loop of output `u` in a run in which it took `received` out of its
      channel. */
  function EventsOf(trace: seq<Step>, u: Name, received: seq<Entry>): (r: seq<Event>) {
    if trace == [] then []
    else
      var before, last := trace[..|trace| - 1], trace[|trace| - 1];
      if last == Tick(u) then EventsOf(before, u, received) + [Ticked]
      else if last == Receive(u) && received != [] then
        EventsOf(before, u, received[..|received| - 1]) + [Arrival(received[|received| - 1].batch)]
      else EventsOf(before, u, received)
  }

  /** The sender of node `n` is that of an event loop that has seen `events`, and that has ended
      if `stopped`. */
  ghost predicate InLoop(c: ValidConfig, e: Env, events: seq<Event>, stopped: bool, n: Node) {
    && Fits(c, events)
    && n.sender == (if stopped then Flush(c, e, RunEvents(c, e, events), true) else RunEvents(c, e, events))
    && (stopped <==> n.phase.Exited? || (n.phase.Sending? && n.phase.last))
  }

  /** The events of one more step of `u`. */
  function EventsNow(events: seq<Event>, step: Step, u: Name, received: seq<Entry>): seq<Event> {
    if step == Tick(u) then events + [Ticked]
    else if step == Receive(u) && received != [] then events + [Arrival(received[|received| - 1].batch)]
    else events
  }

  /** `n` is an output with a real sender. */
  ghost predicate IsOutput(p: Pipeline, c: ValidConfig, e: Env, u: Name, n: Node) {
    && Roles(p.graph) && u in p.graph.outputs && Sound(p, u, n)
    && p.sender(u) == Laws.OpsOf(c, e) && p.size(u) == c.capacity
  }

  lemma ReceiveInLoop(p: Pipeline, c: ValidConfig, e: Env, u: Name, events: seq<Event>, stopped: bool, n: Node)
    requires IsOutput(p, c, e, u, n) && InLoop(c, e, events, stopped, n)
    requires n.phase.Idle? && n.queue != []
    ensures ReceiveAct(p, u, n).Become?
    ensures var m := ReceiveAct(p, u, n).n;
            m.received == n.received + [n.queue[0]] && InLoop(c, e, events + [Arrival(n.queue[0].batch)], false, m)
  {
    var batch := n.queue[0].batch;
    assert |batch| <= c.capacity;
    Exact.RunSnoc(c, e, events, Arrival(batch));
    assert p.sender(u).queue(n.sender, batch) == QueueMessages(c, e, n.sender, batch);
  }

  lemma TickInLoop(p: Pipeline, c: ValidConfig, e: Env, u: Name, events: seq<Event>, stopped: bool, n: Node)
    requires IsOutput(p, c, e, u, n) && InLoop(c, e, events, stopped, n) && n.phase.Idle?
    ensures TickAct(p, u, n).Become?
    ensures var m := TickAct(p, u, n).n; m.received == n.received && InLoop(c, e, events + [Ticked], false, m)
  {
    Exact.RunSnoc(c, e, events, Ticked);
  }

  lemma StopInLoop(p: Pipeline, c: ValidConfig, e: Env, u: Name, events: seq<Event>, stopped: bool, n: Node)
    requires IsOutput(p, c, e, u, n) && InLoop(c, e, events, stopped, n)
    requires n.phase.Idle? && n.queue == [] && n.closed
    ensures match StopAct(p, u, n)
            case Become(m) => m.received == n.received && InLoop(c, e, events, true, m)
            case Leave(m) => m.received == n.received && InLoop(c, e, events, true, m.(phase := Exited))
            case _ => false
  {
  }

  /** What an output acts keeps it in its loop. */
  lemma ActInLoop(p: Pipeline, c: ValidConfig, e: Env, u: Name, events: seq<Event>, stopped: bool, n: Node, step: Step)
    requires IsOutput(p, c, e, u, n) && InLoop(c, e, events, stopped, n) && step.n == u
    ensures var now := stopped || step == Stop(u);
            match Act(p, u, n, step)
            case Become(m) => InLoop(c, e, EventsNow(events, step, u, m.received), now, m)
            case Push(m, _, _) => InLoop(c, e, EventsNow(events, step, u, m.received), now, m)
            case Leave(m) => InLoop(c, e, EventsNow(events, step, u, m.received), now, m.(phase := Exited))
            case _ => true
    ensures match Act(p, u, n, step)
            case Become(m) => step == Receive(u) || m.received == n.received
            case Push(m, _, _) => m.received == n.received
            case Leave(m) => m.received == n.received
            case _ => true
    ensures step == Receive(u) && Act(p, u, n, step).Become? ==>
              var m := Act(p, u, n, step).n;
              m.received != [] && m.received[..|m.received| - 1] == n.received
  {
    match step
    case Receive(_) => if n.phase.Idle? && n.queue != [] { ReceiveInLoop(p, c, e, u, events, stopped, n); }
    case Tick(_) => if n.phase.Idle? { TickInLoop(p, c, e, u, events, stopped, n); }
    case Stop(_) =>
      if n.phase.Idle? && n.queue == [] && n.closed { StopInLoop(p, c, e, u, events, stopped, n); }
    case _ =>
  }

  lemma SameWorkInLoop(c: ValidConfig, e: Env, events: seq<Event>, stopped: bool, n: Node, m: Node)
    requires InLoop(c, e, events, stopped, n) && SameWork(n, m)
    ensures InLoop(c, e, events, stopped, m)
  {
  }

  lemma EventsSnoc(before: seq<Step>, step: Step, u: Name, received: seq<Entry>)
    ensures EventsOf(before + [step], u, received)
         == if step == Receive(u) && received != [] then
              EventsOf(before, u, received[..|received| - 1]) + [Arrival(received[|received| - 1].batch)]
            else if step == Tick(u) then EventsOf(before, u, received) + [Ticked]
            else EventsOf(before, u, received)
  {
    assert (before + [step])[..|before|] == before;
  }

  lemma OwnStepInLoop(p: Pipeline, c: ValidConfig, e: Env, s: State, step: Step, u: Name,
                      events: seq<Event>, stopped: bool)
    requires u in s.nodes && IsOutput(p, c, e, u, s.nodes[u]) && Apply(p, s, step).Ok? && step.n == u
    requires InLoop(c, e, events, stopped, s.nodes[u])
    ensures u in Apply(p, s, step).state.nodes
    ensures var n, m := s.nodes[u], Apply(p, s, step).state.nodes[u];
            && InLoop(c, e, EventsNow(events, step, u, m.received), stopped || step == Stop(u), m)
            && if step == Receive(u) then m.received != [] && m.received[..|m.received| - 1] == n.received
               else m.received == n.received
  {
    var now := stopped || step == Stop(u);
    ActInLoop(p, c, e, u, events, stopped, s.nodes[u], step);
    WorkAfter(p, s, step, u);
    var m := Apply(p, s, step).state.nodes[u];
    match Act(p, u, s.nodes[u], step)
    case Become(n) => SameWorkInLoop(c, e, EventsNow(events, step, u, n.received), now, n, m);
    case Push(n, _, _) => SameWorkInLoop(c, e, EventsNow(events, step, u, n.received), now, n, m);
    case Leave(n) => SameWorkInLoop(c, e, EventsNow(events, step, u, n.received), now, n.(phase := Exited), m);
    case _ =>
  }

  lemma StepInLoop(p: Pipeline, c: ValidConfig, e: Env, s: State, step: Step, u: Name, before: seq<Step>)
    requires u in s.nodes && IsOutput(p, c, e, u, s.nodes[u]) && Apply(p, s, step).Ok?
    requires InLoop(c, e, EventsOf(before, u, s.nodes[u].received), Stop(u) in before, s.nodes[u])
    ensures u in Apply(p, s, step).state.nodes
    ensures var m := Apply(p, s, step).state.nodes[u];
            InLoop(c, e, EventsOf(before + [step], u, m.received), Stop(u) in before + [step], m)
  {
    var events, stopped := EventsOf(before, u, s.nodes[u].received), Stop(u) in before;
    var m := Apply(p, s, step).state.nodes[u];
    EventsSnoc(before, step, u, m.received);
    if step.n != u {
      WorkAfter(p, s, step, u);
      SameWorkInLoop(c, e, events, stopped, s.nodes[u], m);
    } else {
      OwnStepInLoop(p, c, e, s, step, u, events, stopped);
    }
  }

  /** In every reachable state the sender of an output is exactly what its event loop makes of the
      ticks that it took and the batches that it received, in this order; and after that of the
      final flush, if the output has found its channel closed. */
  lemma {:induction false} SenderRunsItsLoop(p: Pipeline, c: Name -> ValidConfig, e: Name -> Env,
                                             trace: seq<Step>, s: State, u: Name)
    requires Safe(p) && RunsSenders(p, c, e) && Reaches(p, trace, s) && u in p.graph.outputs
    ensures u in s.nodes
    ensures var events := EventsOf(trace, u, s.nodes[u].received);
            && Fits(c(u), events)
            && s.nodes[u].sender == if Stop(u) in trace then Flush(c(u), e(u), RunEvents(c(u), e(u), events), true)
                                    else RunEvents(c(u), e(u), events)
    ensures InLoop(c(u), e(u), EventsOf(trace, u, s.nodes[u].received), Stop(u) in trace, s.nodes[u])
    decreases |trace|
  {
    if trace != [] {
      var before, last := Unsnoc(trace);
      LastStep(p, Init(p), before, last);
      var r := Run(p, Init(p), before);
      SenderRunsItsLoop(p, c, e, before, r.state, u);
      ReachableControl(p, before, r.state);
      StepInLoop(p, c(u), e(u), r.state, last, u, before);
    } else {
      assert NewSender(e(u)) == RunEvents(c(u), e(u), []);
    }
  }
}
