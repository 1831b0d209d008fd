/** Draining terminates. Every node carries a potential: what it still costs, in steps, to
    move whatever the node holds through everything downstream of it. Every step that does
    something lowers the sum of the potentials. */
module LifecycleDraining {
  import opened Messages
  import opened SenderModel
  import opened Topology
  import opened Lifecycle
  import opened LifecycleSafety
  import opened LifecycleProgress
  import opened Sums
  import Filters
  import Laws = SenderLaws

  // ---------------------------------------------------------------------------------
  // The cost of batches and messages

  function Height(p: Pipeline, u: Name): nat {
    if p.rank(u) < p.depth then p.depth - p.rank(u) else 0
  }

  /** `v` is above `u` in the numbering. (Every link of a well-formed pipeline goes up.) */
  predicate Above(p: Pipeline, u: Name, v: Name) {
    p.rank(u) < p.rank(v) < p.depth
  }

  /** The cost of a message in the buffer of output `u`: it may have to be forwarded, alone,
      along the whole chain of buffer outputs. */
  function KeepCost(p: Pipeline, u: Name): nat
    decreases Height(p, u)
  {
    var links := p.graph.Links(u);
    4 + if links != [] && Above(p, u, links[0].to) then KeepCost(p, links[0].to) else 0
  }

  /** The cost of a batch of `n` messages in the channel of `v`. */
  function BatchCost(p: Pipeline, v: Name, n: nat): nat
    decreases Height(p, v), 1, 0
  {
    if v in p.graph.outputs then 1 + Times(n, KeepCost(p, v)) else 1 + FanOutCost(p, v, 0, n)
  }

  /** The cost of sending a batch of `n` messages to the links of `u` from number `next` on. */
  function FanOutCost(p: Pipeline, u: Name, next: nat, n: nat): nat
    decreases Height(p, u), 0, |p.graph.Links(u)| - next
  {
    var links := p.graph.Links(u);
    if next >= |links| then 1
    else (if Above(p, u, links[next].to) then 1 + BatchCost(p, links[next].to, n) else 0)
         + FanOutCost(p, u, next + 1, n)
  }

  /** Fewer messages cost no more. */
  lemma {:induction false} BatchCostMonotone(p: Pipeline, v: Name, m: nat, n: nat)
    requires m <= n
    ensures BatchCost(p, v, m) <= BatchCost(p, v, n)
    decreases Height(p, v), 1, 0
  {
    if v in p.graph.outputs { TimesMonotone(m, n, KeepCost(p, v)); } else { FanOutCostMonotone(p, v, 0, m, n); }
  }

  lemma {:induction false} FanOutCostMonotone(p: Pipeline, u: Name, next: nat, m: nat, n: nat)
    requires m <= n
    ensures FanOutCost(p, u, next, m) <= FanOutCost(p, u, next, n)
    decreases Height(p, u), 0, |p.graph.Links(u)| - next
  {
    var links := p.graph.Links(u);
    if next < |links| {
      if Above(p, u, links[next].to) { BatchCostMonotone(p, links[next].to, m, n); }
      FanOutCostMonotone(p, u, next + 1, m, n);
    }
  }

  lemma NoLinkCost(p: Pipeline, u: Name, m: nat)
    requires p.graph.Links(u) == []
    ensures FanOutCost(p, u, 0, m) == 1 && KeepCost(p, u) == 4
  {
  }

  lemma OneLinkCost(p: Pipeline, u: Name, v: Name, m: nat)
    requires |p.graph.Links(u)| == 1 && p.graph.Links(u)[0].to == v && Above(p, u, v) && v in p.graph.outputs
    ensures FanOutCost(p, u, 0, m) == 3 + Times(m, KeepCost(p, v)) && KeepCost(p, u) == 4 + KeepCost(p, v)
  {
    assert FanOutCost(p, u, 1, m) == 1;
    assert BatchCost(p, v, m) == 1 + Times(m, KeepCost(p, v));
  }

  /** Forwarding a block costs less than keeping its messages. */
  lemma ForwardCost(p: Pipeline, u: Name, m: nat)
    requires Safe(p) && u in p.graph.outputs && m >= 1
    ensures FanOutCost(p, u, 0, m) + 1 <= Times(m, KeepCost(p, u))
  {
    var links := p.graph.Links(u);
    assert NodeOk(p, u);
    TimesMonotone(1, m, 4);
    assert Times(1, 4) == 4 + Times(0, 4);
    if links == [] {
      NoLinkCost(p, u, m);
    } else {
      var v := links[0].to;
      assert LinkOk(p, u, links[0]) && NodeOk(p, v);
      OneLinkCost(p, u, v, m);
      TimesSum(m, 4, KeepCost(p, v));
    }
  }

  // ---------------------------------------------------------------------------------
  // The potential of a state

  function QueueCost(p: Pipeline, u: Name, queue: seq<Entry>): nat {
    if queue == [] then 0 else BatchCost(p, u, |queue[0].batch|) + QueueCost(p, u, queue[1..])
  }

  lemma {:induction false} QueueCostSnoc(p: Pipeline, u: Name, queue: seq<Entry>, entry: Entry)
    ensures QueueCost(p, u, queue + [entry]) == QueueCost(p, u, queue) + BatchCost(p, u, |entry.batch|)
  {
    if queue != [] {
      QueueCostSnoc(p, u, queue[1..], entry);
      assert (queue + [entry])[1..] == queue[1..] + [entry];
    }
  }

  /** An input that was told to stop may still emit one batch. */
  function PhaseCost(p: Pipeline, u: Name, n: Node): nat {
    match n.phase
    case Idle => if n.cancelled then 2 + FanOutCost(p, u, 0, p.size(u)) else 1
    case Sending(batch, next, _) => 1 + FanOutCost(p, u, next, |batch|)
    case Exited => 0
  }

  function BufferCost(p: Pipeline, u: Name, s: SenderState): nat {
    Times(|s.buffer|, KeepCost(p, u))
  }

  function NodeCost(p: Pipeline, u: Name, n: Node): nat {
    PhaseCost(p, u, n) + QueueCost(p, u, n.queue) + BufferCost(p, u, n.sender)
  }

  function Costs(p: Pipeline, s: State): map<Name, nat> {
    map u | u in s.nodes :: NodeCost(p, u, s.nodes[u])
  }

  ghost function Potential(p: Pipeline, s: State): nat {
    Sum(s.nodes.Keys, Costs(p, s))
  }

  /** A step that does something: not a tick that settles nothing, not an input that keeps
      working (before it is told to stop, an input may emit forever), and not the user. */
  predicate Counts(p: Pipeline, u: Name, n: Node, step: Step) {
    match step
    case Kill(_) => false
    case Emit(_, _) => n.cancelled
    case EmitNothing(_) => n.cancelled
    case Tick(_) => FlushNode(p, u, n, false).sender.settled != n.sender.settled
    case _ => true
  }

  predicate Effective(p: Pipeline, s: State, step: Step) {
    step.n in s.nodes && Enabled(p, s, step) && Counts(p, step.n, s.nodes[step.n], step)
  }

  // ---------------------------------------------------------------------------------
  // Every action that counts lowers the cost of its node

  /** What the node sends pays for itself, and there is something to spare. */
  predicate Cheaper(p: Pipeline, u: Name, n: Node, a: Action) {
    match a
    case None => true
    case Crash => true
    case Become(m) => NodeCost(p, u, m) < NodeCost(p, u, n)
    case Push(m, v, batch) => NodeCost(p, u, m) + BatchCost(p, v, |batch|) < NodeCost(p, u, n)
    case Leave(m) => NodeCost(p, u, m.(phase := Exited)) < NodeCost(p, u, n)
  }

  lemma MovedCost(p: Pipeline, u: Name, n: Node)
    requires n.phase.Sending? && n.phase.next < |p.graph.Links(u)|
    requires Above(p, u, p.graph.Links(u)[n.phase.next].to)
    ensures NodeCost(p, u, n)
         == NodeCost(p, u, Moved(n)) + 1 + BatchCost(p, p.graph.Links(u)[n.phase.next].to, |n.phase.batch|)
  {
  }

  lemma FilterCost(p: Pipeline, u: Name, n: Node)
    requires u !in p.graph.outputs && n.phase.Idle? && !n.cancelled && n.queue != []
    ensures NodeCost(p, u, FilterNext(p, u, n)) < NodeCost(p, u, n)
  {
    var kept := Filters.Kept(p.filter(u), Flatten(Batches(n.received)), n.queue[0].batch);
    FanOutCostMonotone(p, u, 0, |kept|, |n.queue[0].batch|);
  }

  /** The cost of an output whose sender forwarded nothing. */
  lemma QuietSenderCost(p: Pipeline, u: Name, n: Node, t: SenderState)
    requires n.phase.Idle? && !n.cancelled
    ensures NodeCost(p, u, n.(sender := t, phase := Idle))
         == NodeCost(p, u, n) - BufferCost(p, u, n.sender) + BufferCost(p, u, t)
  {
  }

  /** The cost of an output that has a block to forward. */
  lemma BusySenderCost(p: Pipeline, u: Name, n: Node, t: SenderState, block: Batch, last: bool)
    requires n.phase.Idle? && !n.cancelled
    ensures NodeCost(p, u, Begin(n.(sender := t, phase := Idle), block, last))
         == NodeCost(p, u, n) - BufferCost(p, u, n.sender) + BufferCost(p, u, t) + FanOutCost(p, u, 0, |block|)
  {
  }

  lemma {:induction false} Exchange(block: nat, rest: nat, buffer: nat, arrived: nat, keep: nat)
    requires block + rest == buffer + arrived
    ensures Times(block, keep) + Times(rest, keep) == Times(buffer, keep) + Times(arrived, keep)
  {
    var all := block + rest;
    assert Times(all, keep) == Times(block, keep) + Times(rest, keep) by { TimesAdd(block, rest, keep); }
    assert Times(all, keep) == Times(buffer, keep) + Times(arrived, keep) by { TimesAdd(buffer, arrived, keep); }
  }

  /** The block that a settling sender takes out of the buffer pays for its forwarding. */
  lemma BlockCost(p: Pipeline, u: Name, s: SenderState, t: SenderState, arrived: Batch)
    requires Safe(p) && u in p.graph.outputs && Laws.Advances(p.size(u), |p.graph.Links(u)| == 1, s, t, arrived)
    requires t.settled != s.settled
    ensures FanOutCost(p, u, 0, |t.settled[|s.settled|].batch|) + BufferCost(p, u, t)
          < BufferCost(p, u, s) + Times(|arrived|, KeepCost(p, u))
  {
    var block, keep := t.settled[|s.settled|].batch, KeepCost(p, u);
    ForwardCost(p, u, |block|);
    assert |block + t.buffer| == |s.buffer + arrived|;
    Exchange(|block|, |t.buffer|, |s.buffer|, |arrived|, keep);
  }

  /** A sender that only buffers what arrives. */
  lemma BufferingCost(p: Pipeline, u: Name, n: Node, t: SenderState, arrived: Batch, last: bool)
    requires n.phase.Idle? && !n.cancelled && t.settled == n.sender.settled && t.buffer == n.sender.buffer + arrived
    ensures NodeCost(p, u, AfterSender(n, t, last)) == NodeCost(p, u, n) + Times(|arrived|, KeepCost(p, u))
  {
    QuietSenderCost(p, u, n, t);
    assert AfterSender(n, t, last) == n.(sender := t, phase := Idle);
    TimesAdd(|n.sender.buffer|, |arrived|, KeepCost(p, u));
  }

  /** A sender that settles a block. */
  lemma SettlingCost(p: Pipeline, u: Name, n: Node, t: SenderState, arrived: Batch, last: bool)
    requires Safe(p) && u in p.graph.outputs && n.phase.Idle? && !n.cancelled
    requires Laws.Advances(p.size(u), |p.graph.Links(u)| == 1, n.sender, t, arrived) && t.settled != n.sender.settled
    ensures NodeCost(p, u, AfterSender(n, t, last)) < NodeCost(p, u, n) + Times(|arrived|, KeepCost(p, u))
  {
    var block := t.settled[|n.sender.settled|].batch;
    BlockCost(p, u, n.sender, t, arrived);
    QuietSenderCost(p, u, n, t);
    BusySenderCost(p, u, n, t, block, last);
    assert AfterSender(n, t, last) == n.(sender := t, phase := Idle)
        || AfterSender(n, t, last) == Begin(n.(sender := t, phase := Idle), block, last);
  }

  lemma FlushCost(p: Pipeline, u: Name, n: Node, final: bool)
    requires Safe(p) && u in p.graph.outputs && Sound(p, u, n) && n.phase.Idle?
    ensures var m := FlushNode(p, u, n, final);
            && NodeCost(p, u, m) <= NodeCost(p, u, n)
            && (m.sender.settled != n.sender.settled ==> NodeCost(p, u, m) < NodeCost(p, u, n))
  {
    assert NodeOk(p, u);
    var t := p.sender(u).flush(n.sender, final);
    if t.settled == n.sender.settled {
      BufferingCost(p, u, n, t, [], final);
    } else {
      SettlingCost(p, u, n, t, [], final);
    }
  }

  lemma ReceiveCheaper(p: Pipeline, u: Name, n: Node)
    requires Safe(p) && u in p.graph.Nodes() && u !in p.graph.inputs && Sound(p, u, n)
    ensures Cheaper(p, u, n, ReceiveAct(p, u, n))
  {
    if n.phase.Idle? && n.queue != [] {
      if u in p.graph.filters {
        FilterCost(p, u, n);
      } else {
        OutputCost(p, u, n);
      }
    }
  }

  lemma OutputCost(p: Pipeline, u: Name, n: Node)
    requires Safe(p) && u in p.graph.outputs && Sound(p, u, n) && n.phase.Idle? && n.queue != []
    ensures NodeCost(p, u, OutputNext(p, u, n)) < NodeCost(p, u, n)
  {
    var batch := n.queue[0].batch;
    assert NodeOk(p, u) && |batch| <= p.size(u);
    var t := p.sender(u).queue(n.sender, batch);
    if t.settled == n.sender.settled {
      BufferingCost(p, u, Dequeue(n), t, batch, false);
    } else {
      SettlingCost(p, u, Dequeue(n), t, batch, false);
    }
    assert NodeCost(p, u, Dequeue(n)) == NodeCost(p, u, n) - BatchCost(p, u, |batch|);
  }

  lemma SendCheaper(p: Pipeline, u: Name, n: Node)
    requires Safe(p) && u in p.graph.Nodes()
    ensures Cheaper(p, u, n, SendAct(p, u, n))
  {
    if n.phase.Sending? && n.phase.next < |p.graph.Links(u)| {
      var l := p.graph.Links(u)[n.phase.next];
      assert NodeOk(p, u) && LinkOk(p, u, l) && NodeOk(p, l.to);
      MovedCost(p, u, n);
    }
  }

  lemma FinishCheaper(p: Pipeline, u: Name, n: Node)
    ensures Cheaper(p, u, n, FinishAct(p, u, n))
  {
  }

  lemma StopCheaper(p: Pipeline, u: Name, n: Node)
    requires Safe(p) && u in p.graph.Nodes() && u !in p.graph.inputs && Sound(p, u, n)
    ensures Cheaper(p, u, n, StopAct(p, u, n))
  {
    if n.phase.Idle? && n.queue == [] && n.closed && u !in p.graph.filters { FlushCost(p, u, n, true); }
  }

  lemma InputCheaper(p: Pipeline, u: Name, n: Node, step: Step)
    requires !step.Kill? && n.cancelled
    ensures Cheaper(p, u, n, InputAct(p, u, n, step))
  {
    if step.Emit? && |step.batch| <= p.size(u) { FanOutCostMonotone(p, u, 0, |step.batch|, p.size(u)); }
  }

  lemma ActCheaper(p: Pipeline, u: Name, n: Node, step: Step)
    requires Safe(p) && u in p.graph.Nodes() && Sound(p, u, n) && Counts(p, u, n, step)
    ensures Cheaper(p, u, n, Act(p, u, n, step))
  {
    if step.Send? { SendCheaper(p, u, n); }
    else if step.Finish? { FinishCheaper(p, u, n); }
    else if u in p.graph.inputs { if step.Emit? || step.EmitNothing? { InputCheaper(p, u, n, step); } }
    else if step.Receive? { ReceiveCheaper(p, u, n); }
    else if step.Stop? { StopCheaper(p, u, n); }
    else if step.Tick? && u in p.graph.outputs && n.phase.Idle? { FlushCost(p, u, n, false); }
  }

  // ---------------------------------------------------------------------------------
  // Every effective step lowers the potential

  lemma LocalCost(p: Pipeline, s: State, u: Name, n: Node)
    requires u in s.nodes && NodeCost(p, u, n) < NodeCost(p, u, s.nodes[u])
    ensures Potential(p, Update(s, u, n)) < Potential(p, s)
  {
    var t := Update(s, u, n);
    assert t.nodes.Keys == s.nodes.Keys;
    SumChange(s.nodes.Keys, Costs(p, s), Costs(p, t), u);
  }

  /** Closing channels costs nothing. */
  lemma ExitCost(p: Pipeline, s: State, u: Name, n: Node)
    requires u in s.nodes && Exit(p, s, u, n).Ok?
    requires NodeCost(p, u, n.(phase := Exited)) < NodeCost(p, u, s.nodes[u])
    ensures Potential(p, Exit(p, s, u, n).state) < Potential(p, s)
  {
    var left := Update(s, u, n.(phase := Exited));
    var t := Exit(p, s, u, n).state;
    LocalCost(p, s, u, n.(phase := Exited));
    assert t.nodes.Keys == left.nodes.Keys;
    forall v | v in t.nodes ensures Costs(p, t)[v] == Costs(p, left)[v] {
      assert t.nodes[v] == left.nodes[v] || t.nodes[v] == left.nodes[v].(closed := true);
    }
    SumAgrees(t.nodes.Keys, Costs(p, t), Costs(p, left));
  }

  lemma EnqueueCost(p: Pipeline, v: Name, n: Node, entry: Entry)
    ensures NodeCost(p, v, Enqueue(n, entry)) == NodeCost(p, v, n) + BatchCost(p, v, |entry.batch|)
  {
    QueueCostSnoc(p, v, n.queue, entry);
  }

  /** Two nodes change, and together they cost less. */
  lemma TwoCosts(p: Pipeline, s: State, t: State, u: Name, v: Name)
    requires t.nodes.Keys == s.nodes.Keys && u in s.nodes && v in s.nodes && u != v
    requires forall w | w in s.nodes && w != u && w != v :: t.nodes[w] == s.nodes[w]
    requires NodeCost(p, u, t.nodes[u]) + NodeCost(p, v, t.nodes[v])
           < NodeCost(p, u, s.nodes[u]) + NodeCost(p, v, s.nodes[v])
    ensures Potential(p, t) < Potential(p, s)
  {
    SumChangeTwo(s.nodes.Keys, Costs(p, s), Costs(p, t), u, v);
  }

  lemma DeliveredCost(p: Pipeline, s: State, u: Name, m: Node, v: Name, batch: Batch)
    requires u in s.nodes && v in s.nodes && u != v && Cheaper(p, u, s.nodes[u], Push(m, v, batch))
    ensures Potential(p, Delivered(s, u, m, v, batch)) < Potential(p, s)
  {
    EnqueueCost(p, v, s.nodes[v], Entry(u, batch));
    TwoCosts(p, s, Delivered(s, u, m, v, batch), u, v);
  }

  lemma PerformCost(p: Pipeline, s: State, u: Name, a: Action)
    requires u in s.nodes && Cheaper(p, u, s.nodes[u], a) && (a.Push? ==> a.to != u) && Perform(p, s, u, a).Ok?
    ensures Potential(p, Perform(p, s, u, a).state) < Potential(p, s)
  {
    match a
    case Become(m) => LocalCost(p, s, u, m);
    case Push(m, v, batch) => DeliveredCost(p, s, u, m, v, batch);
    case Leave(m) => ExitCost(p, s, u, m);
  }

  lemma StepLowersPotential(p: Pipeline, s: State, step: Step)
    requires Safe(p) && Control(p, s) && Effective(p, s, step)
    ensures Potential(p, Apply(p, s, step).state) < Potential(p, s)
  {
    var u, n := step.n, s.nodes[step.n];
    assert Sound(p, u, n) && NodeOk(p, u);
    ActCheaper(p, u, n, step);
    ActAllowed(p, u, n, step);
    var a := Act(p, u, n, step);
    if a.Push? { PushControl(p, s, u, a.n, a.to, a.batch); }
    PerformCost(p, s, u, a);
  }

  /** A tick that settles nothing costs nothing. */
  lemma IdleTickCost(p: Pipeline, u: Name, n: Node)
    requires Safe(p) && u in p.graph.outputs && Sound(p, u, n) && n.phase.Idle?
    ensures var a := Act(p, u, n, Tick(u)); a.Become? && NodeCost(p, u, a.n) <= NodeCost(p, u, n)
  {
    FlushCost(p, u, n, false);
    assert Act(p, u, n, Tick(u)) == TickAct(p, u, n);
  }

  /** When all inputs have been told to stop, only such a tick can be a step that does not
      count. */
  lemma OnlyTicksDoNotCount(p: Pipeline, s: State, step: Step)
    requires Safe(p) && Control(p, s) && AllCancelled(p, s) && Enabled(p, s, step) && !Effective(p, s, step)
    ensures step.Tick? && step.n in p.graph.outputs && step.n in s.nodes && s.nodes[step.n].phase.Idle?
  {
    assert Sound(p, step.n, s.nodes[step.n]);
  }

  lemma IdleStepKeepsPotential(p: Pipeline, s: State, step: Step)
    requires Safe(p) && Control(p, s) && AllCancelled(p, s) && Enabled(p, s, step) && !Effective(p, s, step)
    ensures Potential(p, Apply(p, s, step).state) <= Potential(p, s)
  {
    OnlyTicksDoNotCount(p, s, step);
    var u := step.n;
    IdleTickCost(p, u, s.nodes[u]);
    IdleTickStep(p, s, step);
    NoDearer(p, s, u, Act(p, u, s.nodes[u], step).n);
  }

  lemma IdleTickStep(p: Pipeline, s: State, step: Step)
    requires step.Tick? && step.n in s.nodes && Act(p, step.n, s.nodes[step.n], step).Become?
    ensures Apply(p, s, step) == Ok(Update(s, step.n, Act(p, step.n, s.nodes[step.n], step).n))
  {
  }

  lemma NoDearer(p: Pipeline, s: State, u: Name, n: Node)
    requires u in s.nodes && NodeCost(p, u, n) <= NodeCost(p, u, s.nodes[u])
    ensures Potential(p, Update(s, u, n)) <= Potential(p, s)
  {
    var t := Update(s, u, n);
    assert t.nodes.Keys == s.nodes.Keys;
    SumChange(s.nodes.Keys, Costs(p, s), Costs(p, t), u);
  }

  /** No step revives an input. */
  lemma StaysCancelled(p: Pipeline, s: State, step: Step)
    requires AllCancelled(p, s) && Enabled(p, s, step)
    ensures AllCancelled(p, Apply(p, s, step).state)
  {
  }

  /** How many steps of a run from `s` do something. */
  function EffectiveSteps(p: Pipeline, s: State, trace: seq<Step>): nat
    decreases |trace|
  {
    if trace == [] then 0
    else
      (if Effective(p, s, trace[0]) then 1 else 0)
      + (match Apply(p, s, trace[0])
         case Ok(t) => EffectiveSteps(p, t, trace[1..])
         case _ => 0)
  }

  /** When all inputs have been told to stop, the steps that do something in any run, however
      many idle ticks there are between them, are no more than the potential. */
  lemma {:induction false} EffectiveStepsAreBounded(p: Pipeline, s: State, trace: seq<Step>)
    requires Safe(p) && Control(p, s) && AllCancelled(p, s)
    ensures EffectiveSteps(p, s, trace) <= Potential(p, s)
    decreases |trace|
  {
    if trace != [] && Enabled(p, s, trace[0]) {
      StepControl(p, s, trace[0]);
      StaysCancelled(p, s, trace[0]);
      StepCost(p, s, trace[0]);
      EffectiveStepsAreBounded(p, Apply(p, s, trace[0]).state, trace[1..]);
    }
  }

  /** A step lowers the potential if it is effective, and in no case raises it. */
  lemma StepCost(p: Pipeline, s: State, step: Step)
    requires Safe(p) && Control(p, s) && AllCancelled(p, s) && Enabled(p, s, step)
    ensures Potential(p, Apply(p, s, step).state) + (if Effective(p, s, step) then 1 else 0) <= Potential(p, s)
  {
    if Effective(p, s, step) { StepLowersPotential(p, s, step); } else { IdleStepKeepsPotential(p, s, step); }
  }

  /** Everything has exited, every channel is closed and drained, every buffer is empty. */
  predicate Over(p: Pipeline, s: State) {
    forall u | u in s.nodes :: s.nodes[u].phase.Exited? && (u !in p.graph.inputs ==> Drained(s.nodes[u]))
  }

  /** A step that somebody inside the pipeline takes, and that does something. */
  predicate Progress(p: Pipeline, s: State, step: Step) {
    Effective(p, s, step) && (Internal(step) || step.EmitNothing?)
  }

  lemma OverUnlessProgress(p: Pipeline, trace: seq<Step>, s: State)
    requires WellFormed(p) && Reaches(p, trace, s) && AllCancelled(p, s)
    requires forall step :: !Progress(p, s, step)
    ensures Over(p, s)
  {
    forall step | Internal(step) ensures !Enabled(p, s, step) {
      assert !Progress(p, s, step);
    }
    forall u | u in p.graph.inputs ensures !Enabled(p, s, EmitNothing(u)) {
      assert !Progress(p, s, EmitNothing(u));
    }
    StuckAfterKillIsOver(p, trace, s);
  }

  /** Shutting down works. After every input has been told to stop, no run takes more than
      `Potential` effective steps, whatever idle ticks lie between them, and as long as the
      pipeline is not over some effective step is enabled that nobody outside has to cause. So
      every run that goes on as long as it can ends with everything exited and drained. */
  lemma DrainingTerminates(p: Pipeline, trace: seq<Step>, s: State)
    requires WellFormed(p) && Reaches(p, trace, s) && AllCancelled(p, s)
    ensures forall more :: EffectiveSteps(p, s, more) <= Potential(p, s)
    ensures Over(p, s) || exists step :: Progress(p, s, step)
  {
    forall more ensures EffectiveSteps(p, s, more) <= Potential(p, s) {
      ReachableControl(p, trace, s);
      EffectiveStepsAreBounded(p, s, more);
    }
    if forall step :: !Progress(p, s, step) { OverUnlessProgress(p, trace, s); }
  }
}
