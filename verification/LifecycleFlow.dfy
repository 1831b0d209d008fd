/** What travels through a pipeline: every link delivers what its source produced, in order,
    once; every filter sends on exactly the image of what it received; every output settles
    exactly what it received. */
module LifecycleFlow {
  import opened Messages
  import opened SenderModel
  import opened Topology
  import opened Lifecycle
  import opened LifecycleSafety
  import opened LifecycleDraining
  import Filters
  import Laws = SenderLaws

  /** The batches among `entries` that came from `u`. */
  function FromSource(entries: seq<Entry>, u: Name): (r: seq<Batch>) {
    if entries == [] then []
    else
      var last := entries[|entries| - 1];
      FromSource(entries[..|entries| - 1], u) + (if last.src == u then [last.batch] else [])
  }

  lemma FromSourceSnoc(entries: seq<Entry>, entry: Entry, u: Name)
    ensures FromSource(entries + [entry], u)
         == FromSource(entries, u) + (if entry.src == u then [entry.batch] else [])
  {
    assert (entries + [entry])[..|entries|] == entries;
  }

  /** How many of the batches that `n` produced it has sent to its link number `i`. */
  function SentCount(n: Node, i: nat): (r: nat)
    ensures r <= |n.produced|
  {
    if n.phase.Sending? && n.phase.next <= i && n.produced != [] then |n.produced| - 1 else |n.produced|
  }

  /** Through link `i` of `u` went exactly the batches of `u`, in order, up to the one that
      `u` is sending at the moment. */
  predicate Carried(p: Pipeline, s: State, u: Name, i: nat)
    requires u in s.nodes && i < |p.graph.Links(u)|
  {
    var v := p.graph.Links(u)[i].to;
    v in s.nodes && FromSource(s.nodes[v].Arrived(), u) == s.nodes[u].produced[..SentCount(s.nodes[u], i)]
  }

  predicate KnownSources(p: Pipeline, u: Name, arrived: seq<Entry>) {
    forall k | 0 <= k < |arrived| :: arrived[k].src in p.graph.Sources(u)
  }

  predicate SendsLatest(n: Node) {
    n.phase.Sending? ==> n.produced != [] && n.produced[|n.produced| - 1] == n.phase.batch
  }

  /** An output has settled or buffered exactly what it received, and forwarded what it
      settled by forwarding. */
  predicate Account(received: seq<Entry>, sender: SenderState, produced: seq<Batch>) {
    && Settled(sender.settled) + sender.buffer == Flatten(Batches(received))
    && produced == ForwardedBatches(sender.settled)
  }

  /** What node `u` made of what it received. */
  ghost predicate Faithful(p: Pipeline, u: Name, n: Node) {
    && SendsLatest(n)
    && KnownSources(p, u, n.Arrived())
    && (u in p.graph.filters ==> n.produced == Filters.ImageBatches(p.filter(u), Batches(n.received)))
    && (u in p.graph.outputs ==> Account(n.received, n.sender, n.produced))
  }

  ghost predicate Flow(p: Pipeline, s: State) {
    && (forall u | u in s.nodes :: Faithful(p, u, s.nodes[u]))
    && (forall u, i | u in s.nodes && 0 <= i < |p.graph.Links(u)| :: Carried(p, s, u, i))
  }

  lemma InitFlow(p: Pipeline)
    requires Safe(p)
    ensures Flow(p, Init(p))
  {
    forall u, i | u in p.graph.Nodes() && 0 <= i < |p.graph.Links(u)|
      ensures Carried(p, Init(p), u, i)
    {
      assert NodeOk(p, u) && LinkOk(p, u, p.graph.Links(u)[i]);
    }
  }

  /** `m` sent to each link what `n` had sent. */
  predicate SentAlike(p: Pipeline, u: Name, n: Node, m: Node) {
    forall i: nat | i < |p.graph.Links(u)| :: n.produced[..SentCount(n, i)] == m.produced[..SentCount(m, i)]
  }

  /** An action passes on faithfully what its node is given: either nothing is sent, or the
      next batch on the next link. */
  ghost predicate Honours(p: Pipeline, u: Name, n: Node, a: Action) {
    match a
    case None => true
    case Crash => true
    case Become(m) => Faithful(p, u, m) && m.Arrived() == n.Arrived() && SentAlike(p, u, n, m)
    case Push(m, v, batch) =>
      && n.phase.Sending? && n.phase.next < |p.graph.Links(u)|
      && m == Moved(n) && v == p.graph.Links(u)[n.phase.next].to && batch == n.phase.batch
    case Leave(m) => Left(p, u, n, m.(phase := Exited))
  }

  ghost predicate Left(p: Pipeline, u: Name, n: Node, m: Node) {
    Faithful(p, u, m) && m.Arrived() == n.Arrived() && SentAlike(p, u, n, m)
  }

  // ---------------------------------------------------------------------------------
  // Every node passes on faithfully what it receives

  /** Starting to send a new batch sends nothing yet. */
  lemma BeginSentAlike(p: Pipeline, u: Name, n: Node, m: Node, batch: Batch, last: bool)
    requires n.phase.Idle? && m.produced == n.produced
    ensures SentAlike(p, u, n, Begin(m, batch, last))
  {
  }

  lemma DequeueReceives(n: Node)
    requires n.queue != []
    ensures Dequeue(n).Arrived() == n.Arrived()
    ensures Batches(Dequeue(n).received) == Batches(n.received) + [n.queue[0].batch]
  {
    assert n.queue == [n.queue[0]] + n.queue[1..];
  }

  lemma FilterFlow(p: Pipeline, u: Name, n: Node)
    requires u in p.graph.filters && u !in p.graph.outputs && Faithful(p, u, n) && n.phase.Idle? && n.queue != []
    ensures var m := FilterNext(p, u, n);
            Faithful(p, u, m) && m.Arrived() == n.Arrived() && SentAlike(p, u, n, m)
  {
    DequeueReceives(n);
    var before, batch := Batches(n.received), n.queue[0].batch;
    assert (before + [batch])[..|before|] == before;
    BeginSentAlike(p, u, n, Dequeue(n), Filters.Kept(p.filter(u), Flatten(before), batch), false);
  }

  /** A sender that advances keeps the account of its output. */
  lemma AdvanceFaithful(capacity: nat, hasBuffer: bool, n: Node, t: SenderState, arrived: Batch,
                        before: Batch, last: bool)
    requires Laws.Advances(capacity, hasBuffer, n.sender, t, arrived)
    requires Settled(n.sender.settled) + n.sender.buffer == before && n.produced == ForwardedBatches(n.sender.settled)
    ensures var m := AfterSender(n, t, last);
            && Settled(m.sender.settled) + m.sender.buffer == before + arrived
            && m.produced == ForwardedBatches(m.sender.settled)
  {
    var log := n.sender.settled;
    if t.settled != log {
      var x := t.settled[|log|];
      assert t.settled == log + [x];
      SettledSnoc(log, x);
      ForwardedSnoc(log, x);
      assert Settled(log) + x.batch + t.buffer == Settled(log) + (x.batch + t.buffer);
    }
    assert Settled(log) + (n.sender.buffer + arrived) == before + arrived;
  }

  lemma AfterSenderFlow(p: Pipeline, u: Name, n: Node, t: SenderState, arrived: Batch, last: bool)
    requires u !in p.graph.filters && KnownSources(p, u, n.Arrived()) && n.phase.Idle?
    requires Laws.Advances(p.size(u), |p.graph.Links(u)| == 1, n.sender, t, arrived)
    requires Settled(n.sender.settled) + n.sender.buffer + arrived == Flatten(Batches(n.received))
    requires n.produced == ForwardedBatches(n.sender.settled)
    ensures var m := AfterSender(n, t, last);
            Faithful(p, u, m) && m.Arrived() == n.Arrived() && SentAlike(p, u, n, m)
  {
    AdvanceFaithful(p.size(u), |p.graph.Links(u)| == 1, n, t, arrived,
                    Settled(n.sender.settled) + n.sender.buffer, last);
    assert SentAlike(p, u, n, n.(sender := t, phase := Idle));
    if t.settled != n.sender.settled {
      BeginSentAlike(p, u, n, n.(sender := t, phase := Idle), t.settled[|t.settled| - 1].batch, last);
    }
  }

  lemma OutputFlow(p: Pipeline, u: Name, n: Node)
    requires NodeOk(p, u) && u in p.graph.outputs && u !in p.graph.filters
    requires Faithful(p, u, n) && n.phase.Idle? && n.queue != []
    requires |n.queue[0].batch| <= p.size(u) && |n.sender.buffer| <= p.size(u)
    ensures var m := OutputNext(p, u, n);
            Faithful(p, u, m) && m.Arrived() == n.Arrived() && SentAlike(p, u, n, m)
  {
    var batch := n.queue[0].batch;
    DequeueReceives(n);
    FlattenSnoc(Batches(n.received), batch);
    AfterSenderFlow(p, u, Dequeue(n), p.sender(u).queue(n.sender, batch), batch, false);
  }

  lemma FlushFlow(p: Pipeline, u: Name, n: Node, final: bool)
    requires NodeOk(p, u) && u in p.graph.outputs && u !in p.graph.filters && Faithful(p, u, n) && n.phase.Idle?
    requires |n.sender.buffer| <= p.size(u)
    ensures var m := FlushNode(p, u, n, final);
            Faithful(p, u, m) && m.Arrived() == n.Arrived() && SentAlike(p, u, n, m)
  {
    AfterSenderFlow(p, u, n, p.sender(u).flush(n.sender, final), [], final);
  }

  /** A node that is not sending, or has sent to all its links, can go idle or leave. */
  lemma DoneSentAlike(p: Pipeline, u: Name, n: Node, m: Node)
    requires n.phase.Idle? || (n.phase.Sending? && n.phase.next >= |p.graph.Links(u)|)
    requires !m.phase.Sending? && m.produced == n.produced
    ensures SentAlike(p, u, n, m)
  {
  }

  lemma ReceiveHonours(p: Pipeline, u: Name, n: Node)
    requires Roles(p.graph) && NodeOk(p, u) && Sound(p, u, n) && Faithful(p, u, n)
    requires u in p.graph.Nodes() && u !in p.graph.inputs
    ensures Honours(p, u, n, ReceiveAct(p, u, n))
  {
    if n.phase.Idle? && n.queue != [] {
      if u in p.graph.filters { FilterFlow(p, u, n); } else { OutputFlow(p, u, n); }
    }
  }

  lemma FinishHonours(p: Pipeline, u: Name, n: Node)
    requires Faithful(p, u, n)
    ensures Honours(p, u, n, FinishAct(p, u, n))
  {
    if n.phase.Sending? && n.phase.next >= |p.graph.Links(u)| {
      DoneSentAlike(p, u, n, n.(phase := Idle));
      DoneSentAlike(p, u, n, n.(phase := Exited));
    }
  }

  lemma StopHonours(p: Pipeline, u: Name, n: Node)
    requires Roles(p.graph) && NodeOk(p, u) && Sound(p, u, n) && Faithful(p, u, n)
    requires u in p.graph.Nodes() && u !in p.graph.inputs
    ensures Honours(p, u, n, StopAct(p, u, n))
  {
    if n.phase.Idle? && n.queue == [] && n.closed {
      if u in p.graph.filters {
        DoneSentAlike(p, u, n, n.(phase := Exited));
      } else {
        FlushFlow(p, u, n, true);
        var m := FlushNode(p, u, n, true);
        if !m.phase.Sending? { LeavingAfterFlush(p, u, n, m); }
      }
    }
  }

  lemma LeavingAfterFlush(p: Pipeline, u: Name, n: Node, m: Node)
    requires Faithful(p, u, m) && m.Arrived() == n.Arrived() && SentAlike(p, u, n, m) && !m.phase.Sending?
    ensures Left(p, u, n, m.(phase := Exited))
  {
  }

  lemma TickHonours(p: Pipeline, u: Name, n: Node)
    requires Roles(p.graph) && NodeOk(p, u) && Sound(p, u, n) && Faithful(p, u, n)
    ensures Honours(p, u, n, TickAct(p, u, n))
  {
    if u in p.graph.outputs && n.phase.Idle? { FlushFlow(p, u, n, false); }
  }

  lemma InputHonours(p: Pipeline, u: Name, n: Node, step: Step)
    requires Roles(p.graph) && Faithful(p, u, n) && u in p.graph.inputs
    ensures Honours(p, u, n, InputAct(p, u, n, step))
  {
    if step.Emit? && n.phase.Idle? { BeginSentAlike(p, u, n, n, step.batch, false); }
    if step.EmitNothing? && n.phase.Idle? { DoneSentAlike(p, u, n, n.(phase := Exited)); }
  }

  lemma ActHonours(p: Pipeline, u: Name, n: Node, step: Step)
    requires Roles(p.graph) && NodeOk(p, u) && Sound(p, u, n) && Faithful(p, u, n) && u in p.graph.Nodes()
    ensures Honours(p, u, n, Act(p, u, n, step))
  {
    if step.Send? {
    } else if step.Finish? { FinishHonours(p, u, n); }
    else if u in p.graph.inputs { InputHonours(p, u, n, step); }
    else if step.Receive? { ReceiveHonours(p, u, n); }
    else if step.Tick? { TickHonours(p, u, n); }
    else if step.Stop? { StopHonours(p, u, n); }
  }

  // ---------------------------------------------------------------------------------
  // So every step keeps the flow

  /** A change to one node that is not a send. */
  lemma LocalFlow(p: Pipeline, s: State, u: Name, m: Node)
    requires Flow(p, s) && u in s.nodes && Faithful(p, u, m)
    requires m.Arrived() == s.nodes[u].Arrived() && SentAlike(p, u, s.nodes[u], m)
    ensures Flow(p, Update(s, u, m))
  {
    var t := Update(s, u, m);
    forall w, i | w in t.nodes && 0 <= i < |p.graph.Links(w)| ensures Carried(p, t, w, i) {
      assert Carried(p, s, w, i);
    }
  }

  /** Closing channels and leaving changes nothing that was sent. */
  lemma ExitFlow(p: Pipeline, s: State, u: Name, m: Node)
    requires Flow(p, s) && u in s.nodes && Exit(p, s, u, m).Ok?
    requires Faithful(p, u, m.(phase := Exited)) && m.Arrived() == s.nodes[u].Arrived()
    requires SentAlike(p, u, s.nodes[u], m.(phase := Exited))
    ensures Flow(p, Exit(p, s, u, m).state)
  {
    LocalFlow(p, s, u, m.(phase := Exited));
    ClosingFlow(p, Update(s, u, m.(phase := Exited)), p.graph.Closable(s.exited + {u}, u), s.exited + {u});
  }

  lemma ClosingFlow(p: Pipeline, s: State, closing: set<Name>, exited: set<Name>)
    requires Flow(p, s)
    ensures Flow(p, State(CloseAll(s.nodes, closing), exited))
  {
    var t := State(CloseAll(s.nodes, closing), exited);
    forall w | w in t.nodes ensures Faithful(p, w, t.nodes[w]) {
      assert Faithful(p, w, s.nodes[w]);
    }
    forall w, i | w in t.nodes && 0 <= i < |p.graph.Links(w)| ensures Carried(p, t, w, i) {
      assert Carried(p, s, w, i);
      var v := p.graph.Links(w)[i].to;
      assert t.nodes[v].Arrived() == s.nodes[v].Arrived();
      assert SentCount(t.nodes[w], i) == SentCount(s.nodes[w], i);
    }
  }

  lemma MovedFaithful(p: Pipeline, u: Name, n: Node)
    requires Faithful(p, u, n) && n.phase.Sending?
    ensures Faithful(p, u, Moved(n))
  {
  }

  lemma EnqueueFaithful(p: Pipeline, v: Name, n: Node, entry: Entry)
    requires Faithful(p, v, n) && entry.src in p.graph.Sources(v)
    ensures Faithful(p, v, Enqueue(n, entry)) && Enqueue(n, entry).Arrived() == n.Arrived() + [entry]
  {
    var m := Enqueue(n, entry);
    assert m.Arrived() == n.Arrived() + [entry];
    assert KnownSources(p, v, m.Arrived());
  }

  /** The batch that was sent completes what the link it was sent to has carried. */
  lemma MovedSent(n: Node, i: nat)
    requires SendsLatest(n) && n.phase.Sending?
    ensures Moved(n).produced[..SentCount(Moved(n), i)]
         == n.produced[..SentCount(n, i)] + (if i == n.phase.next then [n.phase.batch] else [])
  {
    if i == n.phase.next {
      var k := |n.produced| - 1;
      assert n.produced[..k] + [n.produced[k]] == n.produced[..k + 1];
    }
  }

  /** What a send adds to the channels. */
  lemma ArrivedAfterSend(s: State, u: Name, v: Name, x: Name, w: Name)
    requires u in s.nodes && v in s.nodes && u != v && x in s.nodes && s.nodes[u].phase.Sending?
    ensures var n := s.nodes[u];
            var t := Delivered(s, u, Moved(n), v, n.phase.batch);
            FromSource(t.nodes[x].Arrived(), w)
            == FromSource(s.nodes[x].Arrived(), w) + (if x == v && w == u then [n.phase.batch] else [])
  {
    var n := s.nodes[u];
    var entry, arrived := Entry(u, n.phase.batch), s.nodes[x].Arrived();
    if x == v {
      assert Enqueue(s.nodes[v], entry).Arrived() == arrived + [entry];
      FromSourceSnoc(arrived, entry, w);
    }
  }

  /** What a send adds to what was sent through link `i` of `w`. */
  lemma SentAfterSend(s: State, u: Name, v: Name, w: Name, i: nat)
    requires u in s.nodes && v in s.nodes && u != v && w in s.nodes
    requires s.nodes[u].phase.Sending? && SendsLatest(s.nodes[u])
    ensures var n := s.nodes[u];
            var m := Delivered(s, u, Moved(n), v, n.phase.batch).nodes[w];
            m.produced[..SentCount(m, i)] == s.nodes[w].produced[..SentCount(s.nodes[w], i)]
                                             + (if w == u && i == n.phase.next then [n.phase.batch] else [])
  {
    if w == u {
      MovedSent(s.nodes[u], i);
    }
  }

  /** A send advances the one link that it uses, and no other. */
  lemma SendCarries(p: Pipeline, s: State, u: Name, w: Name, i: nat)
    requires u in s.nodes && SendsLatest(s.nodes[u]) && p.graph.NoRepeatedLink(u)
    requires s.nodes[u].phase.Sending? && s.nodes[u].phase.next < |p.graph.Links(u)|
    requires var v := p.graph.Links(u)[s.nodes[u].phase.next].to; v in s.nodes && v != u
    requires w in s.nodes && i < |p.graph.Links(w)| && Carried(p, s, w, i)
    ensures var n := s.nodes[u];
            Carried(p, Delivered(s, u, Moved(n), p.graph.Links(u)[n.phase.next].to, n.phase.batch), w, i)
  {
    var k := s.nodes[u].phase.next;
    var v, x := p.graph.Links(u)[k].to, p.graph.Links(w)[i].to;
    ArrivedAfterSend(s, u, v, x, w);
    SentAfterSend(s, u, v, w, i);
    assert w == u ==> (x == v <==> i == k);
  }

  lemma DeliveredFlow(p: Pipeline, s: State, u: Name)
    requires Flow(p, s) && u in s.nodes && p.graph.NoRepeatedLink(u)
    requires s.nodes[u].phase.Sending? && s.nodes[u].phase.next < |p.graph.Links(u)|
    requires var v := p.graph.Links(u)[s.nodes[u].phase.next].to; v in s.nodes && v != u && u in p.graph.Sources(v)
    ensures var n := s.nodes[u];
            Flow(p, Delivered(s, u, Moved(n), p.graph.Links(u)[n.phase.next].to, n.phase.batch))
  {
    var n := s.nodes[u];
    var v := p.graph.Links(u)[n.phase.next].to;
    var t := Delivered(s, u, Moved(n), v, n.phase.batch);
    forall w | w in t.nodes ensures Faithful(p, w, t.nodes[w]) {
      assert Faithful(p, w, s.nodes[w]);
      if w == u { MovedFaithful(p, u, n); }
      if w == v { EnqueueFaithful(p, v, s.nodes[v], Entry(u, n.phase.batch)); }
    }
    forall w, i | w in t.nodes && 0 <= i < |p.graph.Links(w)| ensures Carried(p, t, w, i) {
      assert Carried(p, s, w, i) && Faithful(p, u, n);
      SendCarries(p, s, u, w, i);
    }
  }

  ghost predicate Flows(p: Pipeline, r: Result) {
    r.Ok? ==> Flow(p, r.state)
  }

  lemma PushFlow(p: Pipeline, s: State, u: Name, m: Node, v: Name, batch: Batch)
    requires Safe(p) && SingleLinks(p) && Control(p, s) && Flow(p, s) && u in s.nodes
    requires Honours(p, u, s.nodes[u], Push(m, v, batch)) && Allowed(p, u, s.nodes[u], Push(m, v, batch))
    ensures Flows(p, Transmit(s, u, m, v, batch))
  {
    assert u !in s.exited;
    TargetOpen(p, s, u, s.nodes[u].phase.next);
    DeliveredFlow(p, s, u);
  }

  lemma PerformFlow(p: Pipeline, s: State, u: Name, a: Action)
    requires Safe(p) && SingleLinks(p) && Control(p, s) && Flow(p, s) && u in s.nodes
    requires Honours(p, u, s.nodes[u], a) && Allowed(p, u, s.nodes[u], a)
    ensures Flows(p, Perform(p, s, u, a))
  {
    match a
    case None =>
    case Become(m) => LocalFlow(p, s, u, m);
    case Push(m, v, batch) => PushFlow(p, s, u, m, v, batch);
    case Leave(m) => if Exit(p, s, u, m).Ok? { ExitFlow(p, s, u, m); }
  }

  lemma StepFlow(p: Pipeline, s: State, step: Step)
    requires Safe(p) && SingleLinks(p) && Control(p, s) && Flow(p, s)
    ensures Flows(p, Apply(p, s, step))
  {
    if step.n in s.nodes {
      var u, n := step.n, s.nodes[step.n];
      assert Sound(p, u, n) && NodeOk(p, u) && Faithful(p, u, n);
      ActAllowed(p, u, n, step);
      ActHonours(p, u, n, step);
      PerformFlow(p, s, u, Act(p, u, n, step));
    }
  }

  lemma {:induction false} RunFlow(p: Pipeline, s: State, trace: seq<Step>)
    requires Safe(p) && SingleLinks(p) && Control(p, s) && Flow(p, s)
    ensures Flows(p, Run(p, s, trace))
    decreases |trace|
  {
    if trace != [] {
      StepControl(p, s, trace[0]);
      StepFlow(p, s, trace[0]);
      var r := Apply(p, s, trace[0]);
      if r.Ok? { RunFlow(p, r.state, trace[1..]); }
    }
  }

  lemma ReachableFlow(p: Pipeline, trace: seq<Step>, s: State)
    requires Safe(p) && SingleLinks(p) && Reaches(p, trace, s)
    ensures Flow(p, s)
  {
    InitControl(p);
    InitFlow(p);
    RunFlow(p, Init(p), trace);
  }

  // ---------------------------------------------------------------------------------
  // What a reader of the graph may rely on

  /** All links of a node carry the same batches in the same order; they differ by at most
      the batch that the node is sending. */
  lemma FanOutAgreement(p: Pipeline, trace: seq<Step>, s: State, u: Name, i: nat)
    requires Safe(p) && SingleLinks(p) && Reaches(p, trace, s) && u in p.graph.Nodes() && i < |p.graph.Links(u)|
    ensures u in s.nodes && p.graph.Links(u)[i].to in s.nodes
    ensures var n := s.nodes[u];
            var sent := FromSource(s.nodes[p.graph.Links(u)[i].to].Arrived(), u);
            && sent <= n.produced
            && |n.produced| - 1 <= |sent|
            && (|sent| < |n.produced| <==> n.phase.Sending? && n.phase.next <= i)
  {
    ReachableControl(p, trace, s);
    ReachableFlow(p, trace, s);
    assert Carried(p, s, u, i) && Faithful(p, u, s.nodes[u]);
  }

  /** A path from an input through filters, each node being the only source of the next. */
  predicate Path(p: Pipeline, path: seq<Name>) {
    && |path| >= 1 && path[0] in p.graph.inputs
    && (forall k | 0 < k < |path| :: path[k] in p.graph.Nodes() && p.graph.Sources(path[k]) == {path[k - 1]})
    && (forall k | 0 < k < |path| - 1 :: path[k] in p.graph.filters)
  }

  /** What the filters on the path, from the second node on, make of `messages`. */
  function Through(p: Pipeline, path: seq<Name>, messages: Batch): Batch {
    if |path| <= 1 then messages
    else Filters.Image(p.filter(path[|path| - 1]), Through(p, path[..|path| - 1], messages))
  }

  function Emitted(s: State, u: Name): Batch
    requires u in s.nodes
  {
    Flatten(s.nodes[u].produced)
  }

  lemma {:induction false} OnlySource(entries: seq<Entry>, u: Name)
    requires forall k | 0 <= k < |entries| :: entries[k].src == u
    ensures FromSource(entries, u) == Batches(entries)
  {
    if entries != [] {
      OnlySource(entries[..|entries| - 1], u);
    }
  }

  /** The channel of a node with a single source carries what that source sent. */
  lemma ArrivedFromOnlySource(p: Pipeline, s: State, u: Name, v: Name) returns (k: nat)
    requires p.graph.pipes.Keys <= s.nodes.Keys && Flow(p, s)
    requires v in s.nodes && p.graph.Sources(v) == {u}
    ensures u in s.nodes && k < |p.graph.Links(u)| && p.graph.Links(u)[k].to == v
    ensures Batches(s.nodes[v].Arrived()) == s.nodes[u].produced[..SentCount(s.nodes[u], k)]
  {
    assert u in p.graph.Sources(v);
    assert p.graph.Feeds(u, v);
    k :| 0 <= k < |p.graph.Links(u)| && p.graph.Links(u)[k].to == v;
    assert Carried(p, s, u, k) && Faithful(p, v, s.nodes[v]);
    OnlySource(s.nodes[v].Arrived(), u);
  }

  /** The messages that `v` has received. */
  function ReceivedBy(s: State, v: Name): Batch
    requires v in s.nodes
  {
    Flatten(Batches(s.nodes[v].received))
  }

  /** The batch that `u` is sending, if it has not sent it to `v` yet. */
  function Unsent(p: Pipeline, u: Name, n: Node, v: Name): Batch {
    if n.phase.Sending? && forall j | 0 <= j < n.phase.next && j < |p.graph.Links(u)| :: p.graph.Links(u)[j].to != v
    then n.phase.batch else []
  }

  /** The messages on their way from `u` to `v`: in the channel, and in the hands of `u`. */
  function Between(p: Pipeline, s: State, u: Name, v: Name): Batch
    requires u in s.nodes && v in s.nodes
  {
    Flatten(Batches(s.nodes[v].queue)) + Unsent(p, u, s.nodes[u], v)
  }

  /** What a node sent through link `k`, and what it has still to send through it. */
  lemma SentAndUnsent(p: Pipeline, u: Name, n: Node, k: nat)
    requires SendsLatest(n) && p.graph.NoRepeatedLink(u) && k < |p.graph.Links(u)|
    ensures Flatten(n.produced) == Flatten(n.produced[..SentCount(n, k)]) + Unsent(p, u, n, p.graph.Links(u)[k].to)
  {
    if n.phase.Sending? && n.phase.next <= k {
      assert forall j | 0 <= j < n.phase.next && j < |p.graph.Links(u)| ::
          p.graph.Links(u)[j].to != p.graph.Links(u)[k].to;
    } else {
      assert n.produced[..|n.produced|] == n.produced;
    }
  }

  lemma ReceivedThenQueued(n: Node)
    ensures Flatten(Batches(n.Arrived())) == Flatten(Batches(n.received)) + Flatten(Batches(n.queue))
  {
    assert Batches(n.Arrived()) == Batches(n.received) + Batches(n.queue);
    FlattenConcat(Batches(n.received), Batches(n.queue));
  }

  /** From one node to the next on a path nothing is lost. */
  lemma Hop(p: Pipeline, s: State, u: Name, v: Name)
    requires p.graph.pipes.Keys <= s.nodes.Keys && Flow(p, s) && p.graph.NoRepeatedLink(u)
    requires v in s.nodes && p.graph.Sources(v) == {u}
    ensures u in s.nodes && Emitted(s, u) == ReceivedBy(s, v) + Between(p, s, u, v)
  {
    var k := ArrivedFromOnlySource(p, s, u, v);
    assert SendsLatest(s.nodes[u]) by { assert Faithful(p, u, s.nodes[u]); }
    SentAndUnsent(p, u, s.nodes[u], k);
    ReceivedThenQueued(s.nodes[v]);
  }

  /** What a filter has sent on is the image of what it received. */
  lemma FilterEmits(p: Pipeline, s: State, u: Name)
    requires Flow(p, s) && u in s.nodes && u in p.graph.filters
    ensures Emitted(s, u) == Filters.Image(p.filter(u), ReceivedBy(s, u))
  {
    assert Faithful(p, u, s.nodes[u]);
    Filters.ImageOfBatches(p.filter(u), Batches(s.nodes[u].received));
  }

  predicate Present(s: State, path: seq<Name>) {
    forall k | 0 <= k < |path| :: path[k] in s.nodes
  }

  /** What the last node of a path has still to receive: what is on its way from the node
      before it, and what that one will make of the messages that it has still to receive. */
  function UnderWay(p: Pipeline, s: State, path: seq<Name>): Batch
    requires Present(s, path)
  {
    if |path| <= 1 then []
    else
      var u, v := path[|path| - 2], path[|path| - 1];
      Between(p, s, u, v) + Filters.Kept(p.filter(u), ReceivedBy(s, u), UnderWay(p, s, path[..|path| - 1]))
  }

  lemma PathPrefix(p: Pipeline, path: seq<Name>)
    requires Path(p, path) && |path| > 1
    ensures Path(p, path[..|path| - 1])
  {
    var front := path[..|path| - 1];
    assert forall k | 0 <= k < |front| :: front[k] == path[k];
  }

  /** The nodes of a path are nodes of the pipeline, and only the first is an input. */
  lemma PathNodes(p: Pipeline, path: seq<Name>, k: nat)
    requires Safe(p) && Path(p, path) && k < |path|
    ensures path[k] in p.graph.Nodes() && (k > 0 ==> path[k] !in p.graph.inputs)
  {
    if k > 0 {
      assert path[k - 1] in p.graph.Sources(path[k]);
      NoSourceOfInput(p, path[k - 1], path[k]);
    }
  }

  lemma LastHop(p: Pipeline, s: State, path: seq<Name>)
    requires Safe(p) && SingleLinks(p) && s.nodes.Keys == p.graph.Nodes() && Flow(p, s)
    requires Path(p, path) && |path| > 1
    requires Present(s, path)
    ensures var front, u := path[..|path| - 1], path[|path| - 2];
            ReceivedBy(s, path[|path| - 1]) + UnderWay(p, s, path)
            == Emitted(s, u) + Filters.Kept(p.filter(u), ReceivedBy(s, u), UnderWay(p, s, front))
  {
    var u, v := path[|path| - 2], path[|path| - 1];
    assert p.graph.Sources(v) == {u};
    PathNodes(p, path, |path| - 2);
    Hop(p, s, u, v);
    Associative(ReceivedBy(s, v), Between(p, s, u, v),
                Filters.Kept(p.filter(u), ReceivedBy(s, u), UnderWay(p, s, path[..|path| - 1])));
  }

  lemma Associative(a: Batch, b: Batch, c: Batch)
    ensures a + (b + c) == (a + b) + c
  {
  }

  /** What a filter sent on, and what it will make of the rest, is the image of it all. */
  lemma ThroughFilter(p: Pipeline, s: State, u: Name, rest: Batch)
    requires Flow(p, s) && u in s.nodes && u in p.graph.filters
    ensures Emitted(s, u) + Filters.Kept(p.filter(u), ReceivedBy(s, u), rest)
         == Filters.Image(p.filter(u), ReceivedBy(s, u) + rest)
  {
    FilterEmits(p, s, u);
    Filters.ImageSplit(p.filter(u), ReceivedBy(s, u), rest);
  }

  /** What the last node of a path has received, followed by what is under way to it, is what
      the filters on the path make of what the input emitted. */
  lemma {:induction false} ReceivedAlongPath(p: Pipeline, s: State, path: seq<Name>)
    requires Safe(p) && SingleLinks(p) && s.nodes.Keys == p.graph.Nodes() && Flow(p, s)
    requires Path(p, path) && |path| > 1
    requires Present(s, path)
    ensures ReceivedBy(s, path[|path| - 1]) + UnderWay(p, s, path)
         == Through(p, path[..|path| - 1], Emitted(s, path[0]))
    decreases |path|
  {
    var front, u := path[..|path| - 1], path[|path| - 2];
    LastHop(p, s, path);
    if |front| > 1 {
      assert u in p.graph.filters;
      PathPrefix(p, path);
      ReceivedAlongPath(p, s, front);
      ThroughFilter(p, s, u, UnderWay(p, s, front));
      ThroughLast(p, front, Emitted(s, path[0]));
    }
  }

  lemma ThroughLast(p: Pipeline, path: seq<Name>, messages: Batch)
    requires |path| > 1
    ensures Through(p, path, messages)
         == Filters.Image(p.filter(path[|path| - 1]), Through(p, path[..|path| - 1], messages))
  {
  }

  lemma {:induction false} NothingUnderWay(p: Pipeline, s: State, path: seq<Name>)
    requires Safe(p) && Path(p, path) && Over(p, s)
    requires Present(s, path)
    ensures UnderWay(p, s, path) == []
  {
    if |path| > 1 {
      PathPrefix(p, path);
      NothingUnderWay(p, s, path[..|path| - 1]);
      PathNodes(p, path, |path| - 1);
    }
  }

  lemma SettledOrBuffered(p: Pipeline, s: State, o: Name)
    requires Safe(p) && Flow(p, s) && o in s.nodes && o in p.graph.outputs
    ensures Settled(s.nodes[o].sender.settled) + s.nodes[o].sender.buffer == ReceivedBy(s, o)
    ensures Over(p, s) ==> Settled(s.nodes[o].sender.settled) == ReceivedBy(s, o)
  {
    var log := s.nodes[o].sender.settled;
    assert Faithful(p, o, s.nodes[o]);
    assert Settled(log) + [] == Settled(log);
  }

  /** End to end. Along a path from an input through any number of filters to an output, each
      node being the only source of the next, the messages that the output has settled, those
      in its buffer and those under way are, in every reachable state and in this order,
      exactly what the filters make of what the input emitted: nothing is lost, repeated,
      invented or reordered. When the pipeline is over, the settled messages alone are. */
  lemma EndToEnd(p: Pipeline, trace: seq<Step>, s: State, path: seq<Name>)
    requires Safe(p) && SingleLinks(p) && Reaches(p, trace, s)
    requires Path(p, path) && |path| > 1 && path[|path| - 1] in p.graph.outputs
    ensures Present(s, path)
    ensures var all := Through(p, path[..|path| - 1], Emitted(s, path[0]));
            var sender := s.nodes[path[|path| - 1]].sender;
            && Settled(sender.settled) + sender.buffer + UnderWay(p, s, path) == all
            && (Over(p, s) ==> Settled(sender.settled) == all)
  {
    ReachableControl(p, trace, s);
    ReachableFlow(p, trace, s);
    forall k | 0 <= k < |path| ensures path[k] in s.nodes { PathNodes(p, path, k); }
    ReceivedAlongPath(p, s, path);
    var o := path[|path| - 1];
    SettledOrBuffered(p, s, o);
    if Over(p, s) {
      NothingUnderWay(p, s, path);
      assert ReceivedBy(s, o) + [] == ReceivedBy(s, o);
    }
  }

  /** A chain of outputs, each the buffer of the one before and fed by nothing else. */
  predicate BufferChain(p: Pipeline, chain: seq<Name>) {
    && |chain| >= 1 && chain[0] in p.graph.outputs
    && (forall k | 0 < k < |chain| :: chain[k] in p.graph.outputs && p.graph.Sources(chain[k]) == {chain[k - 1]})
  }

  /** Everything that `o` has forwarded. */
  function ForwardedBy(s: State, o: Name): Batch
    requires o in s.nodes
  {
    Flatten(ForwardedBatches(s.nodes[o].sender.settled))
  }

  /** Along a chain of buffer outputs, what an output has settled, what it has in its buffer and
      what is on its way to it are in this order exactly what the one before has forwarded;
      when the pipeline is over, what it has settled alone is. */
  lemma BuffersTakeOver(p: Pipeline, trace: seq<Step>, s: State, chain: seq<Name>, k: nat)
    requires Safe(p) && SingleLinks(p) && Reaches(p, trace, s) && BufferChain(p, chain)
    requires 0 < k < |chain|
    ensures chain[k - 1] in s.nodes && chain[k] in s.nodes
    ensures var sender := s.nodes[chain[k]].sender;
            && Settled(sender.settled) + sender.buffer + Between(p, s, chain[k - 1], chain[k])
               == ForwardedBy(s, chain[k - 1])
            && (Over(p, s) ==> Settled(sender.settled) == ForwardedBy(s, chain[k - 1]))
  {
    var o, next := chain[k - 1], chain[k];
    ReachableControl(p, trace, s);
    ReachableFlow(p, trace, s);
    assert Faithful(p, o, s.nodes[o]);
    Hop(p, s, o, next);
    SettledOrBuffered(p, s, next);
    if Over(p, s) {
      assert next !in p.graph.inputs;
      assert Between(p, s, o, next) == [];
      assert ReceivedBy(s, next) + [] == ReceivedBy(s, next);
    }
  }

  /** When the pipeline is over, every link has delivered everything its source produced. This
      holds of any graph. */
  lemma EveryLinkDelivers(p: Pipeline, trace: seq<Step>, s: State, u: Name, i: nat)
    requires Safe(p) && SingleLinks(p) && Reaches(p, trace, s) && Over(p, s)
    requires u in p.graph.Nodes() && i < |p.graph.Links(u)|
    ensures u in s.nodes && p.graph.Links(u)[i].to in s.nodes
    ensures FromSource(s.nodes[p.graph.Links(u)[i].to].received, u) == s.nodes[u].produced
  {
    ReachableControl(p, trace, s);
    ReachableFlow(p, trace, s);
    assert p.graph.Links(u)[i].to !in p.graph.inputs by {
      assert NodeOk(p, u) && LinkOk(p, u, p.graph.Links(u)[i]);
    }
    DrainedLinkDelivered(p, s, u, i);
  }

  lemma DrainedLinkDelivered(p: Pipeline, s: State, u: Name, i: nat)
    requires u in s.nodes && i < |p.graph.Links(u)| && Carried(p, s, u, i)
    requires s.nodes[u].phase.Exited? && s.nodes[p.graph.Links(u)[i].to].queue == []
    ensures FromSource(s.nodes[p.graph.Links(u)[i].to].received, u) == s.nodes[u].produced
  {
    var n := s.nodes[p.graph.Links(u)[i].to];
    assert n.Arrived() == n.received;
  }

  /** In every reachable state an output has settled or buffered exactly what it received, in
      order; what it forwarded is what it produced; and when the pipeline is over it has
      settled everything. */
  lemma OutputsAccountForEverything(p: Pipeline, trace: seq<Step>, s: State, o: Name)
    requires Safe(p) && SingleLinks(p) && Reaches(p, trace, s) && o in p.graph.outputs
    ensures o in s.nodes
    ensures var sender := s.nodes[o].sender;
            && Settled(sender.settled) + sender.buffer == ReceivedBy(s, o)
            && ForwardedBatches(sender.settled) == s.nodes[o].produced
            && (Over(p, s) ==> Settled(sender.settled) == ReceivedBy(s, o))
  {
    ReachableControl(p, trace, s);
    ReachableFlow(p, trace, s);
    SettledOrBuffered(p, s, o);
    assert Faithful(p, o, s.nodes[o]);
  }
}
