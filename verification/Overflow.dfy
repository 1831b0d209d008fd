/** What the sizes of batches and buffers are worth: an output panics on a batch that is longer
    than its buffer. Nothing in a configuration keeps an input, or an output that diverts, from
    sending such batches. */
module Overflow {
  import opened Messages
  import opened SenderModel
  import opened Topology
  import opened Lifecycle
  import opened LifecycleSafety
  import opened LifecycleLimits
  import Laws = SenderLaws

  /** No link leads to a node that takes less than its source sends. */
  predicate SizesFit(p: Pipeline) {
    forall u, i | u in p.graph.Nodes() && 0 <= i < |p.graph.Links(u)| ::
      p.size(u) <= p.size(p.graph.Links(u)[i].to)
  }

  // ---------------------------------------------------------------------------------
  // From an input to an output

  /** Input `u` has sent `batch` to its first `k` links, and nothing else has happened. */
  predicate SentTo(p: Pipeline, s: State, u: Name, batch: Batch, k: nat) {
    && s.nodes.Keys == p.graph.Nodes() && u in s.nodes && s.nodes[u].phase == Sending(batch, k, false)
    && forall v | v in s.nodes && v != u ::
         && s.nodes[v].phase.Idle? && !s.nodes[v].closed
         && s.nodes[v].queue == if exists j | 0 <= j < k && j < |p.graph.Links(u)| :: p.graph.Links(u)[j].to == v
                                then [Entry(u, batch)] else []
  }

  lemma SendOne(p: Pipeline, s: State, u: Name, batch: Batch, k: nat)
    requires SentTo(p, s, u, batch, k) && k < |p.graph.Links(u)| && p.graph.NoRepeatedLink(u)
    requires LinkJoins(p, u, p.graph.Links(u)[k])
    ensures Apply(p, s, Send(u)).Ok? && SentTo(p, Apply(p, s, Send(u)).state, u, batch, k + 1)
  {
    var v := p.graph.Links(u)[k].to;
    assert Act(p, u, s.nodes[u], Send(u)) == Push(Moved(s.nodes[u]), v, batch);
    assert s.nodes[v].queue == [];
    assert Apply(p, s, Send(u)) == Ok(Delivered(s, u, Moved(s.nodes[u]), v, batch));
  }

  lemma {:induction false} SendUpTo(p: Pipeline, s: State, u: Name, batch: Batch, k: nat, i: nat)
    returns (trace: seq<Step>)
    requires SentTo(p, s, u, batch, k) && k <= i <= |p.graph.Links(u)| && p.graph.NoRepeatedLink(u)
    requires forall j | 0 <= j < |p.graph.Links(u)| :: LinkJoins(p, u, p.graph.Links(u)[j])
    ensures Run(p, s, trace).Ok? && SentTo(p, Run(p, s, trace).state, u, batch, i)
    decreases i - k
  {
    if k == i { return []; }
    SendOne(p, s, u, batch, k);
    var rest := SendUpTo(p, Apply(p, s, Send(u)).state, u, batch, k + 1, i);
    RunOne(p, s, Send(u));
    RunTwice(p, s, [Send(u)], rest);
    trace := [Send(u)] + rest;
  }

  lemma EmitFirst(p: Pipeline, u: Name, batch: Batch)
    requires u in p.graph.inputs && |batch| <= p.size(u)
    ensures var r := Run(p, Init(p), [Emit(u, batch)]); r.Ok? && SentTo(p, r.state, u, batch, 0)
  {
    RunOne(p, Init(p), Emit(u, batch));
    assert Act(p, u, Init(p).nodes[u], Emit(u, batch)) == Become(Begin(Init(p).nodes[u], batch, false));
  }

  /** An output panics when it takes a batch that is longer than its buffer. */
  lemma TakesTooMuch(p: Pipeline, s: State, o: Name)
    requires o in s.nodes && o in p.graph.outputs && o !in p.graph.inputs && o !in p.graph.filters
    requires s.nodes[o].phase.Idle? && s.nodes[o].queue != [] && |s.nodes[o].queue[0].batch| > p.size(o)
    ensures Run(p, s, [Receive(o)]).Panic?
  {
    RunOne(p, s, Receive(o));
    assert Act(p, o, s.nodes[o], Receive(o)) == Crash;
  }

  /** An input that sends more than the output can take that it feeds makes it panic. */
  lemma InputOverflows(p: Pipeline, u: Name, i: nat, batch: Batch) returns (trace: seq<Step>)
    requires Roles(p.graph) && u in p.graph.inputs && i < |p.graph.Links(u)| && p.graph.NoRepeatedLink(u)
    requires forall j | 0 <= j < |p.graph.Links(u)| :: LinkJoins(p, u, p.graph.Links(u)[j])
    requires var o := p.graph.Links(u)[i].to; o in p.graph.outputs && p.size(o) < |batch| <= p.size(u)
    ensures Run(p, Init(p), trace).Panic?
  {
    var o := p.graph.Links(u)[i].to;
    EmitFirst(p, u, batch);
    var s := Run(p, Init(p), [Emit(u, batch)]).state;
    var sends := SendUpTo(p, s, u, batch, 0, i + 1);
    var t := Run(p, s, sends).state;
    assert t.nodes[o].queue == [Entry(u, batch)];
    TakesTooMuch(p, t, o);
    RunTwice(p, Init(p), [Emit(u, batch)], sends);
    RunTwice(p, Init(p), [Emit(u, batch)] + sends, [Receive(o)]);
    trace := [Emit(u, batch)] + sends + [Receive(o)];
  }

  // ---------------------------------------------------------------------------------
  // From an output to its buffer output

  /** The output is down from the start, and its flush interval has passed when the clock is
      read for the second time. */
  ghost predicate Down(c: ValidConfig, e: Env) {
    (forall k: nat :: e.result(k).LongFailure?) && e.clock(1) - e.clock(0) >= c.flushInterval
  }

  function Some(n: nat): (r: Batch)
    ensures |r| == n
  {
    seq(n, _ => Message(0, map[]))
  }

  /** Input `u` feeds output `o`, whose buffer output is `b`. */
  ghost predicate Diverts(p: Pipeline, u: Name, o: Name, b: Name, c: ValidConfig, e: Env) {
    && u in p.graph.inputs && o in p.graph.outputs && b in p.graph.outputs && Roles(p.graph) && o != b
    && p.graph.Links(u) == [Link(o, Normal)] && p.graph.Links(o) == [Link(b, Buffer)]
    && p.sender(o) == Laws.OpsOf(c, e) && c.capacity == p.size(o) && c.hasBuffer && Down(c, e)
  }

  /** `k` messages are in the buffer of `o`, and all else is as it was. */
  predicate Buffered(p: Pipeline, s: State, u: Name, o: Name, b: Name, e: Env, k: nat) {
    && u in s.nodes && o in s.nodes && b in s.nodes
    && s.nodes[u].phase.Idle? && !s.nodes[u].cancelled
    && s.nodes[o].phase.Idle? && s.nodes[o].queue == [] && !s.nodes[o].closed && !s.nodes[o].cancelled
    && s.nodes[o].sender == NewSender(e).(buffer := Some(k))
    && s.nodes[b].phase.Idle? && s.nodes[b].queue == [] && !s.nodes[b].closed
  }

  lemma SomeMore(k: nat)
    ensures Some(k) + Some(1) == Some(k + 1)
  {
  }

  /** One message goes from the input to the buffer of the output. */
  lemma OneMessage(p: Pipeline, s: State, u: Name, o: Name, b: Name, c: ValidConfig, e: Env, k: nat)
    requires Diverts(p, u, o, b, c, e) && Buffered(p, s, u, o, b, e, k) && p.size(u) >= 1 && k < p.size(o)
    ensures var r := Run(p, s, [Emit(u, Some(1)), Send(u), Finish(u), Receive(o)]);
            r.Ok? && Buffered(p, r.state, u, o, b, e, k + 1)
  {
    var one := Some(1);
    var n := Begin(s.nodes[u], one, false);
    var s1 := Update(s, u, n);
    assert Act(p, u, s.nodes[u], Emit(u, one)) == Become(n);
    assert Apply(p, s, Emit(u, one)) == Ok(s1);
    var s2 := Delivered(s1, u, Moved(n), o, one);
    assert Act(p, u, n, Send(u)) == Push(Moved(n), o, one);
    assert Apply(p, s1, Send(u)) == Ok(s2);
    var s3 := Update(s2, u, Moved(n).(phase := Idle));
    assert Act(p, u, s2.nodes[u], Finish(u)) == Become(Moved(n).(phase := Idle));
    assert Apply(p, s2, Finish(u)) == Ok(s3);
    TakesOne(p, s3, u, o, b, c, e, k);
    RunFour(p, s, Emit(u, one), Send(u), Finish(u), Receive(o));
  }

  lemma TakesOne(p: Pipeline, s: State, u: Name, o: Name, b: Name, c: ValidConfig, e: Env, k: nat)
    requires Diverts(p, u, o, b, c, e) && k < p.size(o) && u in s.nodes && o in s.nodes
    requires s.nodes[o].queue == [Entry(u, Some(1))]
    requires Buffered(p, Update(s, o, s.nodes[o].(queue := [])), u, o, b, e, k)
    ensures var r := Apply(p, s, Receive(o)); r.Ok? && Buffered(p, r.state, u, o, b, e, k + 1)
  {
    var n := s.nodes[o];
    var t := p.sender(o).queue(n.sender, Some(1));
    Laws.QueueOutcome(c, e, n.sender, Some(1));
    SomeMore(k);
    assert t == NewSender(e).(buffer := Some(k + 1));
    assert Act(p, o, n, Receive(o)) == Become(OutputNext(p, o, n));
  }

  lemma RunFour(p: Pipeline, s: State, a: Step, b: Step, c: Step, d: Step)
    requires Apply(p, s, a).Ok? && Apply(p, Apply(p, s, a).state, b).Ok?
    requires Apply(p, Apply(p, Apply(p, s, a).state, b).state, c).Ok?
    ensures Run(p, s, [a, b, c, d]) == Apply(p, Apply(p, Apply(p, Apply(p, s, a).state, b).state, c).state, d)
  {
    var s1 := Apply(p, s, a).state;
    var s2 := Apply(p, s1, b).state;
    RunTwoSteps(p, s, a, b);
    RunTwoSteps(p, s2, c, d);
    RunTwice(p, s, [a, b], [c, d]);
    assert [a, b] + [c, d] == [a, b, c, d];
  }

  lemma {:induction false} BufferUpTo(p: Pipeline, s: State, u: Name, o: Name, b: Name,
                                       c: ValidConfig, e: Env, k: nat, n: nat)
    returns (trace: seq<Step>)
    requires Diverts(p, u, o, b, c, e) && Buffered(p, s, u, o, b, e, k) && p.size(u) >= 1 && k <= n <= p.size(o)
    ensures Run(p, s, trace).Ok? && Buffered(p, Run(p, s, trace).state, u, o, b, e, n)
    decreases n - k
  {
    if k == n { return []; }
    var first := [Emit(u, Some(1)), Send(u), Finish(u), Receive(o)];
    OneMessage(p, s, u, o, b, c, e, k);
    var rest := BufferUpTo(p, Run(p, s, first).state, u, o, b, c, e, k + 1, n);
    RunTwice(p, s, first, rest);
    trace := first + rest;
  }

  /** The next tick diverts the whole buffer. */
  lemma TickDiverts(p: Pipeline, n: Node, u: Name, o: Name, b: Name, c: ValidConfig, e: Env, k: nat)
    requires Diverts(p, u, o, b, c, e) && 0 < k && n.phase.Idle? && n.sender == NewSender(e).(buffer := Some(k))
    ensures var a := Act(p, o, n, Tick(o));
            a.Become? && a.n.phase == Sending(Some(k), 0, false) && a.n.closed == n.closed && a.n.queue == n.queue
  {
    var s := n.sender;
    var s1 := s.(readings := s.readings + 1);
    assert Flush(c, e, s, false) == Deliver(c, e, s1);
    DeliveryOutcome(c, e, s1);
    assert FirstDecisive(e, |s1.attempts|, MaxCalls(c)) == 0;
    var t := Deliver(c, e, s1);
    assert t.settled == [Settlement(Forwarded, Some(k))];
    assert Act(p, o, n, Tick(o)) == Become(AfterSender(n, t, false));
  }

  /** The buffer output then gets it all at once. */
  lemma DivertedOverflows(p: Pipeline, s: State, u: Name, o: Name, b: Name, c: ValidConfig, e: Env, k: nat)
    requires Diverts(p, u, o, b, c, e) && Buffered(p, s, u, o, b, e, k) && k > p.size(b)
    ensures Run(p, s, [Tick(o), Send(o), Receive(b)]).Panic?
  {
    TickDiverts(p, s.nodes[o], u, o, b, c, e, k);
    var n := Act(p, o, s.nodes[o], Tick(o)).n;
    var s1 := Update(s, o, n);
    assert Apply(p, s, Tick(o)) == Ok(s1);
    var s2 := Delivered(s1, o, Moved(n), b, Some(k));
    assert Act(p, o, n, Send(o)) == Push(Moved(n), b, Some(k));
    assert Apply(p, s1, Send(o)) == Ok(s2);
    TakesTooMuch(p, s2, b);
    RunTwoSteps(p, s, Tick(o), Send(o));
    RunTwice(p, s, [Tick(o), Send(o)], [Receive(b)]);
    assert [Tick(o), Send(o)] + [Receive(b)] == [Tick(o), Send(o), Receive(b)];
  }

  /** An output that buffers more than its buffer output can take makes that panic when it is
      down for long. */
  lemma BufferOverflows(p: Pipeline, u: Name, o: Name, b: Name, c: ValidConfig, e: Env) returns (trace: seq<Step>)
    requires Diverts(p, u, o, b, c, e) && p.size(u) >= 1 && p.size(o) > p.size(b)
    ensures Run(p, Init(p), trace).Panic?
  {
    var s := Init(p);
    assert Some(0) == [];
    assert Buffered(p, s, u, o, b, e, 0);
    var fill := BufferUpTo(p, s, u, o, b, c, e, 0, p.size(b) + 1);
    var t := Run(p, s, fill).state;
    DivertedOverflows(p, t, u, o, b, c, e, p.size(b) + 1);
    RunTwice(p, s, fill, [Tick(o), Send(o), Receive(b)]);
    trace := fill + [Tick(o), Send(o), Receive(b)];
  }

  // ---------------------------------------------------------------------------------
  // Exactly when

  /** `p` with the senders of the program, in surroundings `e`. */
  function Surrounded(p: Pipeline, c: Name -> ValidConfig, e: Name -> Env): Pipeline {
    p.(sender := (u: Name) => Laws.OpsOf(c(u), e(u)))
  }

  predicate FedByInput(p: Pipeline, o: Name) {
    exists u | u in p.graph.inputs :: p.graph.Links(u) == [Link(o, Normal)]
  }

  predicate DirectNode(p: Pipeline, c: Name -> ValidConfig, u: Name) {
    var links := p.graph.Links(u);
    && p.rank(u) < p.depth && |links| <= 1 && (links != [] ==> LinkJoins(p, u, links[0]))
    && (u in p.graph.inputs ==> p.size(u) >= 1)
    && (u in p.graph.outputs ==>
          && c(u).capacity == p.size(u) && (c(u).hasBuffer <==> links != [])
          && (links != [] ==> FedByInput(p, u)))
  }

  /** A pipeline in which all inputs feed outputs, each of them one, outputs have at most one
      buffer, and those that have one are fed by an input. Sizes are left open, but inputs
      send something. */
  predicate Direct(p: Pipeline, c: Name -> ValidConfig) {
    && Roles(p.graph) && p.graph.filters == {} && p.graph.pipes.Keys <= p.graph.Nodes()
    && forall u {:trigger DirectNode(p, c, u)} | u in p.graph.Nodes() :: DirectNode(p, c, u)
  }

  lemma FittingNode(p: Pipeline, c: Name -> ValidConfig, e: Name -> Env, u: Name)
    requires Direct(p, c) && SizesFit(p) && u in p.graph.Nodes()
    ensures NodeOk(Surrounded(p, c, e), u)
  {
    assert DirectNode(p, c, u);
    if u in p.graph.outputs { Laws.SenderIsHonest(c(u), e(u)); }
  }

  lemma NothingDoubled(p: Pipeline, c: Name -> ValidConfig)
    requires Direct(p, c)
    ensures p.graph.NoDoubleClosing()
  {
    forall u, v ensures !p.graph.Doubled(u, v) {
      if u in p.graph.pipes { assert DirectNode(p, c, u); } else { assert p.graph.Links(u) == []; }
    }
  }

  lemma FittingIsSafe(p: Pipeline, c: Name -> ValidConfig, e: Name -> Env)
    requires Direct(p, c) && SizesFit(p)
    ensures Safe(Surrounded(p, c, e))
  {
    forall u | u in p.graph.Nodes() ensures NodeOk(Surrounded(p, c, e), u) { FittingNode(p, c, e, u); }
    NothingDoubled(p, c);
  }

  /** Surroundings in which every output is down. */
  function AllDown(c: Name -> ValidConfig): Name -> Env {
    (u: Name) => Env((k: nat) => LongFailure, (k: nat) => if k == 0 then 0 else c(u).flushInterval)
  }

  lemma UnfittingInput(p: Pipeline, c: Name -> ValidConfig, e: Name -> Env, u: Name) returns (trace: seq<Step>)
    requires Direct(p, c) && u in p.graph.inputs && p.graph.Links(u) != []
    requires p.size(u) > p.size(p.graph.Links(u)[0].to)
    ensures var q := Surrounded(p, c, e); Run(q, Init(q), trace).Panic?
  {
    var q := Surrounded(p, c, e);
    assert DirectNode(p, c, u) && LinkJoins(q, u, q.graph.Links(u)[0]);
    trace := InputOverflows(q, u, 0, Some(p.size(u)));
  }

  lemma DownDiverts(p: Pipeline, c: Name -> ValidConfig, u: Name, o: Name, b: Name)
    requires Roles(p.graph) && DirectNode(p, c, o) && o in p.graph.outputs && u in p.graph.inputs
    requires p.graph.Links(u) == [Link(o, Normal)] && p.graph.Links(o) != [] && b == p.graph.Links(o)[0].to
    ensures Diverts(Surrounded(p, c, AllDown(c)), u, o, b, c(o), AllDown(c)(o))
  {
    assert p.graph.Links(o) == [p.graph.Links(o)[0]];
  }

  lemma UnfittingOutput(p: Pipeline, c: Name -> ValidConfig, o: Name) returns (trace: seq<Step>)
    requires Direct(p, c) && o in p.graph.outputs && p.graph.Links(o) != []
    requires p.size(o) > p.size(p.graph.Links(o)[0].to)
    ensures var q := Surrounded(p, c, AllDown(c)); Run(q, Init(q), trace).Panic?
  {
    var q, e := Surrounded(p, c, AllDown(c)), AllDown(c)(o);
    var b := p.graph.Links(o)[0].to;
    assert DirectNode(p, c, o);
    var u :| u in p.graph.inputs && p.graph.Links(u) == [Link(o, Normal)];
    assert DirectNode(p, c, u);
    DownDiverts(p, c, u, o, b);
    trace := BufferOverflows(q, u, o, b, c(o), e);
  }

  lemma UnfittingPanics(p: Pipeline, c: Name -> ValidConfig) returns (trace: seq<Step>)
    requires Direct(p, c) && !SizesFit(p)
    ensures var q := Surrounded(p, c, AllDown(c)); Run(q, Init(q), trace).Panic?
  {
    var u, i :| u in p.graph.Nodes() && 0 <= i < |p.graph.Links(u)| && p.size(u) > p.size(p.graph.Links(u)[i].to);
    assert DirectNode(p, c, u);
    if u in p.graph.inputs {
      trace := UnfittingInput(p, c, AllDown(c), u);
    } else {
      trace := UnfittingOutput(p, c, u);
    }
  }

  /** Such a pipeline can panic, for some results of its outputters and some clocks, if and only
      if some node can send batches that are longer than its target can take. */
  lemma PanicsIffUnfitting(p: Pipeline, c: Name -> ValidConfig)
    requires Direct(p, c)
    ensures (exists e, trace :: Run(Surrounded(p, c, e), Init(Surrounded(p, c, e)), trace).Panic?) <==> !SizesFit(p)
  {
    if SizesFit(p) {
      forall e, trace ensures !Run(Surrounded(p, c, e), Init(Surrounded(p, c, e)), trace).Panic? {
        FittingIsSafe(p, c, e);
        NeverPanics(Surrounded(p, c, e), trace);
      }
    } else {
      var trace := UnfittingPanics(p, c);
    }
  }
}
