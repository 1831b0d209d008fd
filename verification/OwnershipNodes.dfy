/** What a node does with the batches in its hands is what `Lifecycle` says it does with their
    messages, and it neither duplicates a batch nor touches one that is in other hands. */
module OwnershipNodes {
  import opened Messages
  import opened SenderModel
  import opened Topology
  import opened BatchStore
  import opened Ownership
  import L = Lifecycle
  import Safety = LifecycleSafety
  import Filters
  import Laws = SenderLaws

  function QueueIds(queue: seq<Slot>): (r: seq<Id>)
    ensures |r| == |queue| && forall i | 0 <= i < |r| :: r[i] == queue[i].id
  {
    seq(|queue|, i requires 0 <= i < |queue| => queue[i].id)
  }

  function HandIds(hand: Hand): seq<Id> {
    match hand
    case Sharing(id, clones, _) => [id] + clones
    case Diverting(clone, taken, _, _) => [clone] + taken
    case Diverted(taken, _, _) => taken
    case _ => []
  }

  /** All the batches that a node has. */
  function Holds(h: Holder): multiset<Id> {
    multiset(QueueIds(h.queue)) + multiset(HandIds(h.hand)) + multiset(h.buffer)
  }

  /** A clone waits, with the same messages, if and only if there is a link left to send it to. */
  predicate CloneWaits(p: L.Pipeline, u: Name, st: Store, hand: Hand)
    requires hand.Sharing?
  {
    if hand.next < |p.graph.Links(u)| then |hand.clones| == 1 && st.At(hand.clones[0]) == st.At(hand.id)
    else hand.clones == []
  }

  /** Only outputs have buffers, and forward; they forward what is on record. */
  predicate Shape(p: L.Pipeline, u: Name, st: Store, h: Holder) {
    if u in p.graph.outputs then
      && !h.hand.Sharing? && |h.buffer| <= 1 && (h.hand.Gone? || |h.buffer| == 1)
      && (h.hand.Diverting? || h.hand.Diverted? ==> |p.graph.Links(u)| == 1 && h.produced != [])
      && (h.hand.Diverting? ==> st.At(h.hand.clone) == h.produced[|h.produced| - 1])
    else
      && h.buffer == [] && !h.hand.Diverting? && !h.hand.Diverted?
      && (h.hand.Sharing? ==> CloneWaits(p, u, st, h.hand))
  }

  /** `after` shows the same messages for the batches in `ids`. */
  ghost predicate Same(st: Store, after: Store, ids: multiset<Id>) {
    forall id | id in ids :: after.At(id) == st.At(id)
  }

  lemma SameQueue(st: Store, after: Store, queue: seq<Slot>)
    requires Same(st, after, multiset(QueueIds(queue)))
    ensures ReadQueue(after, queue) == ReadQueue(st, queue)
  {
    forall i | 0 <= i < |queue| ensures after.At(queue[i].id) == st.At(queue[i].id) {
      assert QueueIds(queue)[i] in multiset(QueueIds(queue));
    }
  }

  lemma SameTaken(st: Store, after: Store, taken: seq<Id>)
    requires Same(st, after, multiset(taken))
    ensures Taken(after, taken) == Taken(st, taken)
  {
    if taken != [] { assert taken[0] in multiset(taken); }
  }

  lemma SameHand(p: L.Pipeline, u: Name, st: Store, after: Store, h: Holder)
    requires Same(st, after, multiset(HandIds(h.hand)))
    ensures ReadPhase(after, h) == ReadPhase(st, h) && Pending(after, h.hand) == Pending(st, h.hand)
    ensures h.hand.Diverting? ==> after.At(h.hand.clone) == st.At(h.hand.clone)
    ensures h.hand.Sharing? ==> (CloneWaits(p, u, st, h.hand) ==> CloneWaits(p, u, after, h.hand))
  {
    match h.hand
    case Sharing(id, clones, _) =>
      assert HandIds(h.hand)[0] in multiset(HandIds(h.hand));
      if clones != [] { assert HandIds(h.hand)[1] in multiset(HandIds(h.hand)); }
    case Diverting(clone, taken, _, _) =>
      assert HandIds(h.hand)[0] in multiset(HandIds(h.hand));
      assert multiset(HandIds(h.hand)) == multiset{clone} + multiset(taken);
      SameTaken(st, after, taken);
    case Diverted(taken, _, _) => SameTaken(st, after, taken);
    case _ =>
  }

  lemma SameBuffer(st: Store, after: Store, h: Holder)
    requires Same(st, after, multiset(h.buffer))
    ensures InBuffer(after, h) == InBuffer(st, h)
  {
    if h.buffer != [] { assert h.buffer[0] in multiset(h.buffer); }
  }

  /** A node looks the same if the batches that it has do. */
  lemma SameRead(p: L.Pipeline, u: Name, st: Store, after: Store, h: Holder)
    requires Same(st, after, Holds(h))
    ensures Read(after, h) == Read(st, h)
    ensures Shape(p, u, st, h) ==> Shape(p, u, after, h)
  {
    assert Same(st, after, multiset(QueueIds(h.queue)));
    assert Same(st, after, multiset(HandIds(h.hand)));
    assert Same(st, after, multiset(h.buffer));
    SameQueue(st, after, h.queue);
    SameHand(p, u, st, after, h);
    SameBuffer(st, after, h);
  }

  // ---------------------------------------------------------------------------------
  // Action by action

  /** The action of a node and that of the node that one sees. */
  ghost predicate Matches(p: L.Pipeline, u: Name, st: Store, h: Holder, a: Action, seen: L.Action) {
    match a
    case None => seen.None?
    case Crash => seen.Crash?
    case Become(st1, h1) =>
      seen == L.Become(Read(st1, h1)) && Handled(st, Holds(h), st1, Holds(h1)) && Shape(p, u, st1, h1)
    case Push(st1, h1, v, id) =>
      && seen == L.Push(Read(st1, h1), v, st1.At(id))
      && Handled(st, Holds(h), st1, Holds(h1) + multiset{id}) && Shape(p, u, st1, h1)
    case Leave(st1, h1) =>
      var gone := h1.(hand := Gone);
      && seen.Leave? && seen.n.(phase := L.Exited) == Read(st1, gone)
      && Handled(st, Holds(h), st1, Holds(gone)) && Shape(p, u, st1, gone)
  }

  /** What is known of a node before its step. */
  ghost predicate Ready(p: L.Pipeline, u: Name, st: Store, h: Holder) {
    && Clean(st, Holds(h)) && Shape(p, u, st, h)
    && u in p.graph.Nodes() && L.Roles(p.graph) && L.NodeOk(p, u) && Safety.Sound(p, u, Read(st, h))
  }

  lemma NothingHandled(st: Store, loose: multiset<Id>)
    requires Clean(st, loose)
    ensures Handled(st, loose, st, loose)
  {
    DropHandled(st, loose, loose);
  }

  lemma GoneReads(p: L.Pipeline, u: Name, st: Store, h: Holder)
    requires !h.hand.Diverting? && !h.hand.Diverted?
    ensures Read(st, h.(hand := Gone)) == Read(st, h).(phase := L.Exited)
    ensures Shape(p, u, st, h) ==> Shape(p, u, st, h.(hand := Gone))
  {
  }

  /** Leaving drops what is in the hands. */
  lemma LeaveMatches(p: L.Pipeline, u: Name, st: Store, h: Holder)
    requires Clean(st, Holds(h)) && Shape(p, u, st, h) && !h.hand.Diverting? && !h.hand.Diverted?
    ensures Matches(p, u, st, h, Leave(st, h), L.Leave(Read(st, h)))
  {
    DropHandled(st, Holds(h), Holds(h.(hand := Gone)));
    GoneReads(p, u, st, h);
  }

  // ---------------------------------------------------------------------------------
  // Cloning

  /** The batch in hand may be replaced by a clone. */
  lemma SourceHandled(st: Store, others: multiset<Id>, id: Id, again: bool, choice: nat)
    requires Clean(st, others + multiset{id})
    ensures var (st1, source) := if again then st.Clone(id, choice) else (st, id);
            && Handled(st, others + multiset{id}, st1, others + multiset{source})
            && st1.At(source) == st.At(id) && Same(st, st1, others)
  {
    var loose := others + multiset{id};
    if again {
      var (st1, source) := st.Clone(id, choice);
      FillHandled(st, loose, st.At(id), choice);
      DropHandled(st1, loose + multiset{source}, others + multiset{source});
      HandledOn(st, loose, st1, loose + multiset{source}, st1, others + multiset{source});
    } else {
      NothingHandled(st, loose);
    }
  }

  /** The batch in hand and the clone that is to be sent. */
  lemma ShareHandled(st: Store, others: multiset<Id>, id: Id, again: bool, first: nat, second: nat)
    requires Clean(st, others + multiset{id})
    ensures var (st2, source, copy) := st.Share(id, again, first, second);
            && Handled(st, others + multiset{id}, st2, others + multiset{source} + multiset{copy})
            && st2.At(source) == st.At(id) && st2.At(copy) == st.At(id) && Same(st, st2, others)
  {
    var (st1, source) := if again then st.Clone(id, first) else (st, id);
    SourceHandled(st, others, id, again, first);
    var kept := others + multiset{source};
    FillHandled(st1, kept, st1.At(source), second);
    var (st2, copy) := st1.Clone(source, second);
    HandledOn(st, others + multiset{id}, st1, kept, st2, kept + multiset{copy});
    assert source in kept;
  }

  /** The turn of link `next` is prepared: a clone waits if there is such a link, and the batch
      in hand, or the clone that replaced it, has the messages it had. */
  lemma PrepareHandled(p: L.Pipeline, u: Name, st: Store, others: multiset<Id>, id: Id, next: nat, m: Move)
    requires Clean(st, others + multiset{id})
    ensures var (st1, hand) := Prepare(p, u, st, id, next, m);
            && hand.Sharing? && hand.next == next && st1.At(hand.id) == st.At(id)
            && CloneWaits(p, u, st1, hand) && Same(st, st1, others)
            && Handled(st, others + multiset{id}, st1, others + multiset(HandIds(hand)))
  {
    if next < |p.graph.Links(u)| {
      ShareHandled(st, others, id, next >= 1, m.second, m.third);
      var (st1, source, copy) := st.Share(id, next >= 1, m.second, m.third);
      assert multiset([source] + [copy]) == multiset{source} + multiset{copy};
      assert others + multiset{source} + multiset{copy} == others + multiset([source] + [copy]);
    } else {
      NothingHandled(st, others + multiset{id});
      assert [id] + [] == [id];
    }
  }

  /** A node that has waited now shares batch `id`, prepared for its first link. */
  lemma BeginMatches(p: L.Pipeline, u: Name, st: Store, h: Holder, id: Id, batch: Batch, m: Move)
    requires u !in p.graph.outputs && h.buffer == [] && h.hand.Waiting?
    requires Clean(st, Holds(h) + multiset{id}) && st.At(id) == batch
    ensures var (st1, hand) := Prepare(p, u, st, id, 0, m);
            var h1 := h.(hand := hand, produced := h.produced + [batch]);
            && Read(st1, h1) == L.Begin(Read(st, h), batch, false)
            && Handled(st, Holds(h) + multiset{id}, st1, Holds(h1)) && Shape(p, u, st1, h1)
  {
    var (st1, hand) := Prepare(p, u, st, id, 0, m);
    PrepareHandled(p, u, st, Holds(h), id, 0, m);
    assert Holds(h.(hand := hand, produced := h.produced + [batch])) == Holds(h) + multiset(HandIds(hand));
    SameQueue(st, st1, h.queue) by { assert Same(st, st1, Holds(h)); }
  }

  // ---------------------------------------------------------------------------------
  // Inputs

  lemma EmitMatches(p: L.Pipeline, u: Name, st: Store, h: Holder, batch: Batch, m: Move)
    requires Ready(p, u, st, h) && u in p.graph.inputs && h.hand.Waiting?
    ensures var (st1, id) := st.Fill(batch, m.first);
            var (st2, hand) := Prepare(p, u, st1, id, 0, m);
            var h1 := h.(hand := hand, produced := h.produced + [batch]);
            Matches(p, u, st, h, Become(st2, h1), L.Become(L.Begin(Read(st, h), batch, false)))
  {
    var (st1, id) := st.Fill(batch, m.first);
    FillHandled(st, Holds(h), batch, m.first);
    SameRead(p, u, st, st1, h);
    BeginMatches(p, u, st1, h, id, batch, m);
    var (st2, hand) := Prepare(p, u, st1, id, 0, m);
    HandledOn(st, Holds(h), st1, Holds(h) + multiset{id}, st2,
              Holds(h.(hand := hand, produced := h.produced + [batch])));
  }

  lemma EmitActs(p: L.Pipeline, u: Name, st: Store, h: Holder, batch: Batch, m: Move)
    requires m.step.Emit? && m.step.batch == batch && h.hand.Waiting? && |batch| <= p.size(u)
    ensures var (st1, id) := st.Fill(batch, m.first);
            var (st2, hand) := Prepare(p, u, st1, id, 0, m);
            InputAct(p, u, st, h, m) == Become(st2, h.(hand := hand, produced := h.produced + [batch]))
    ensures L.InputAct(p, u, Read(st, h), m.step) == L.Become(L.Begin(Read(st, h), batch, false))
  {
  }

  /** A step that is not the emission of a batch. */
  lemma IdleMatches(p: L.Pipeline, u: Name, st: Store, h: Holder, m: Move)
    requires Clean(st, Holds(h)) && Shape(p, u, st, h) && u !in p.graph.outputs
    requires m.step.Emit? ==> !h.hand.Waiting? || |m.step.batch| > p.size(u)
    ensures Matches(p, u, st, h, InputAct(p, u, st, h, m), L.InputAct(p, u, Read(st, h), m.step))
  {
    NothingHandled(st, Holds(h));
    if m.step.EmitNothing? { LeaveMatches(p, u, st, h); }
  }

  lemma InputMatches(p: L.Pipeline, u: Name, st: Store, h: Holder, m: Move)
    requires Ready(p, u, st, h) && u in p.graph.inputs
    ensures Matches(p, u, st, h, InputAct(p, u, st, h, m), L.InputAct(p, u, Read(st, h), m.step))
  {
    if m.step.Emit? && h.hand.Waiting? && |m.step.batch| <= p.size(u) {
      EmitMatches(p, u, st, h, m.step.batch, m);
      EmitActs(p, u, st, h, m.step.batch, m);
    } else {
      IdleMatches(p, u, st, h, m);
    }
  }

  // ---------------------------------------------------------------------------------
  // Receiving

  lemma DequeueHolds(st: Store, h: Holder)
    requires h.queue != []
    ensures Holds(h) == Holds(Dequeue(st, h)) + multiset{h.queue[0].id}
  {
    assert QueueIds(h.queue) == [h.queue[0].id] + QueueIds(h.queue[1..]);
  }

  lemma DequeueReads(st: Store, h: Holder)
    requires h.queue != []
    ensures Read(st, Dequeue(st, h)) == L.Dequeue(Read(st, h)).(phase := ReadPhase(st, h))
    ensures Read(st, h).queue[0].batch == st.At(h.queue[0].id)
  {
    assert ReadQueue(st, h.queue[1..]) == ReadQueue(st, h.queue)[1..];
  }

  /** Rewriting a batch in place shows in nothing else. */
  lemma WriteShowsNowhereElse(st: Store, others: multiset<Id>, id: Id, batch: Batch)
    requires Clean(st, others + multiset{id})
    ensures Same(st, st.Write(id, batch), others)
  {
    assert Uses(st, others + multiset{id}, id) <= 1;
    assert id !in others;
  }

  lemma FilterMatches(p: L.Pipeline, u: Name, st: Store, h: Holder, m: Move)
    requires Ready(p, u, st, h) && u in p.graph.filters && h.hand.Waiting? && h.queue != []
    ensures Matches(p, u, st, h, FilterReceive(p, u, st, h, m), L.Become(L.FilterNext(p, u, Read(st, h))))
  {
    var id, rest := h.queue[0].id, Dequeue(st, h);
    var kept := Filters.Kept(p.filter(u), Flatten(L.Batches(h.received)), st.At(id));
    var st1 := st.Write(id, kept);
    DequeueHolds(st, h);
    DequeueReads(st, h);
    WriteHandled(st, Holds(h), id, kept);
    WriteShowsNowhereElse(st, Holds(rest), id, kept);
    SameRead(p, u, st, st1, rest);
    BeginMatches(p, u, st1, rest, id, kept, m);
    var (st2, hand) := Prepare(p, u, st1, id, 0, m);
    HandledOn(st, Holds(h), st1, Holds(h), st2, Holds(rest.(hand := hand, produced := h.produced + [kept])));
  }

  // ---------------------------------------------------------------------------------
  // The sender of an output

  /** What the sender has settled and what it keeps make up the messages in the buffer and
      those that arrived. */
  lemma SettledAndKept(capacity: nat, hasBuffer: bool, st: Store, h: Holder, t: SenderState, taken: seq<Id>)
    requires h.hand.Waiting? && Laws.Advances(capacity, hasBuffer, SenderOf(st, h), t, Taken(st, taken))
    ensures var n, all := SettledNow(h, t), InBuffer(st, h) + Taken(st, taken);
            && n <= |all| && all[n..] == t.buffer
            && (HasSettled(h, t) ==> t.settled[|t.settled| - 1].batch == all[..n])
            && (Forwards(h, t) ==> hasBuffer)
  {
    assert InBuffer(st, h) + [] == InBuffer(st, h);
  }

  /** What is left in the buffer, and what will follow it. */
  lemma LeftAndPending(held: Batch, arrived: Batch, n: nat)
    requires n <= |held| + |arrived|
    ensures From(held, n) + From(arrived, if n <= |held| then 0 else n - |held|) == (held + arrived)[n..]
  {
  }

  /** Writing the buffer shows in the buffer and nowhere else. */
  lemma WriteBufferHandled(st: Store, h: Holder, loose: multiset<Id>, batch: Batch)
    requires |h.buffer| == 1 && Clean(st, Holds(h) + loose)
    ensures var st1 := WriteBuffer(st, h, batch);
            && Handled(st, Holds(h) + loose, st1, Holds(h) + loose)
            && InBuffer(st1, h) == batch
            && Same(st, st1, multiset(QueueIds(h.queue)) + multiset(HandIds(h.hand)) + loose)
  {
    var id := h.buffer[0];
    var others := multiset(QueueIds(h.queue)) + multiset(HandIds(h.hand)) + loose;
    assert h.buffer == [id];
    assert Holds(h) + loose == others + multiset{id};
    WriteHandled(st, Holds(h) + loose, id, batch);
    WriteShowsNowhereElse(st, others, id, batch);
  }

  /** A clone of the buffer, made when it is filled with `block`; then `buffered` is left in it. */
  lemma BlockCloned(st: Store, h: Holder, loose: multiset<Id>, block: Batch, buffered: Batch, choice: nat)
    requires |h.buffer| == 1 && Clean(st, Holds(h) + loose)
    ensures var (st1, clone) := st.Write(h.buffer[0], block).Clone(h.buffer[0], choice);
            var st2 := st1.Write(h.buffer[0], buffered);
            && Handled(st, Holds(h) + loose, st2, Holds(h) + loose + multiset{clone})
            && InBuffer(st2, h) == buffered && st1.At(clone) == block && st2.At(clone) == block
            && Same(st, st2, multiset(QueueIds(h.queue)) + loose)
  {
    var id, all := h.buffer[0], Holds(h) + loose;
    var filled := WriteBuffer(st, h, block);
    WriteBufferHandled(st, h, loose, block);
    FillHandled(filled, all, block, choice);
    var (st1, clone) := filled.Clone(id, choice);
    HandledOn(st, all, filled, all, st1, all + multiset{clone});
    assert Holds(h) + (loose + multiset{clone}) == all + multiset{clone};
    WriteBufferHandled(st1, h, loose + multiset{clone}, buffered);
    HandledOn(st, all, st1, all + multiset{clone}, WriteBuffer(st1, h, buffered), all + multiset{clone});
    assert clone in loose + multiset{clone};
    BlockUnseen(st, filled, st1, WriteBuffer(st1, h, buffered), multiset(QueueIds(h.queue)) + loose, clone);
  }

  lemma BlockUnseen(st: Store, a: Store, b: Store, c: Store, ids: multiset<Id>, clone: Id)
    requires Same(st, a, ids) && clone !in ids && (forall id | id != clone :: b.At(id) == a.At(id)) && Same(b, c, ids)
    ensures Same(st, c, ids)
  {
  }

  /** The buffer is written, and the batch that was queued is put back. */
  lemma KeepHandled(st: Store, h: Holder, taken: seq<Id>, buffered: Batch)
    requires |h.buffer| == 1 && h.hand.Waiting? && Clean(st, Holds(h) + multiset(taken))
    ensures var st2 := WriteBuffer(st, h, buffered).PutAll(taken);
            && Handled(st, Holds(h) + multiset(taken), st2, Holds(h))
            && InBuffer(st2, h) == buffered
            && ReadQueue(st2, h.queue) == ReadQueue(st, h.queue)
  {
    var loose := Holds(h) + multiset(taken);
    var st1 := WriteBuffer(st, h, buffered);
    WriteBufferHandled(st, h, multiset(taken), buffered);
    PutAllHandled(st1, loose, taken);
    var st2 := st1.PutAll(taken);
    assert loose - multiset(taken) == Holds(h);
    HandledOn(st, loose, st1, loose, st2, Holds(h));
    SameQueue(st, st2, h.queue);
  }

  lemma DivertHandled(st: Store, h: Holder, taken: seq<Id>, n: nat, choice: nat)
    requires |h.buffer| == 1 && h.hand.Waiting? && Clean(st, Holds(h) + multiset(taken))
    requires n <= |InBuffer(st, h) + Taken(st, taken)|
    ensures var (st1, clone) := Divert(st, h, taken, n, choice);
            && Handled(st, Holds(h) + multiset(taken), st1, Holds(h) + multiset(taken) + multiset{clone})
            && InBuffer(st1, h) == From(InBuffer(st, h), n)
            && st1.At(clone) == (InBuffer(st, h) + Taken(st, taken))[..n]
            && Taken(st1, taken) == Taken(st, taken) && ReadQueue(st1, h.queue) == ReadQueue(st, h.queue)
  {
    var held := InBuffer(st, h);
    var (st1, clone) := Divert(st, h, taken, n, choice);
    BlockCloned(st, h, multiset(taken), (held + Taken(st, taken))[..n], From(held, n), choice);
    SameTaken(st, st1, taken);
    SameQueue(st, st1, h.queue);
  }

  lemma DivertHolds(h: Holder, h1: Holder)
    requires h.hand.Waiting? && h1.hand.Diverting? && h1.queue == h.queue && h1.buffer == h.buffer
    ensures Holds(h1) == Holds(h) + multiset(h1.hand.taken) + multiset{h1.hand.clone}
  {
    assert HandIds(h1.hand) == [h1.hand.clone] + h1.hand.taken;
  }

  /** What one sees of an output `h1` whose clone of the forwarded block waits. */
  lemma DivertReads(st: Store, after: Store, h: Holder, h1: Holder, t: SenderState, last: bool)
    requires h.hand.Waiting? && Forwards(h, t) && h1.hand.Diverting? && h1.hand.last == last
    requires h1 == h.(sender := t.(buffer := []), hand := h1.hand,
                      produced := h.produced + [t.settled[|t.settled| - 1].batch])
    requires ReadBuffer(after, h1) == t.buffer && ReadQueue(after, h.queue) == ReadQueue(st, h.queue)
    requires after.At(h1.hand.clone) == t.settled[|t.settled| - 1].batch
    ensures Read(after, h1) == L.AfterSender(Read(st, h), t, last)
  {
  }

  /** The buffer and what is pending are what the sender keeps. */
  lemma DivertPending(st: Store, h: Holder, t: SenderState, taken: seq<Id>, last: bool, choice: nat)
    requires |h.buffer| == 1 && h.hand.Waiting? && Forwards(h, t)
    requires var n, all := SettledNow(h, t), InBuffer(st, h) + Taken(st, taken); n <= |all| && all[n..] == t.buffer
    requires var st1 := Divert(st, h, taken, SettledNow(h, t), choice).0;
             InBuffer(st1, h) == From(InBuffer(st, h), SettledNow(h, t)) && Taken(st1, taken) == Taken(st, taken)
    ensures var (st1, h1) := AfterSender(st, h, t, taken, last, choice);
            ReadBuffer(st1, h1) == t.buffer
  {
    LeftAndPending(InBuffer(st, h), Taken(st, taken), SettledNow(h, t));
    var (st1, h1) := AfterSender(st, h, t, taken, last, choice);
    assert InBuffer(st1, h1) == InBuffer(st1, h);
  }

  lemma AfterDiverting(p: L.Pipeline, u: Name, st: Store, h: Holder, t: SenderState, taken: seq<Id>,
                       last: bool, choice: nat)
    requires u in p.graph.outputs && |h.buffer| == 1 && h.hand.Waiting? && Clean(st, Holds(h) + multiset(taken))
    requires Laws.Advances(p.size(u), |p.graph.Links(u)| == 1, SenderOf(st, h), t, Taken(st, taken)) && Forwards(h, t)
    ensures var (st1, h1) := AfterSender(st, h, t, taken, last, choice);
            && Read(st1, h1) == L.AfterSender(Read(st, h), t, last)
            && Handled(st, Holds(h) + multiset(taken), st1, Holds(h1)) && Shape(p, u, st1, h1) && h1.hand.Diverting?
  {
    var (st1, h1) := AfterSender(st, h, t, taken, last, choice);
    SettledAndKept(p.size(u), |p.graph.Links(u)| == 1, st, h, t, taken);
    DivertHandled(st, h, taken, SettledNow(h, t), choice);
    DivertPending(st, h, t, taken, last, choice);
    DivertHolds(h, h1);
    DivertReads(st, st1, h, h1, t, last);
  }

  lemma AfterKeeping(p: L.Pipeline, u: Name, st: Store, h: Holder, t: SenderState, taken: seq<Id>,
                     last: bool, choice: nat)
    requires u in p.graph.outputs && |h.buffer| == 1 && h.hand.Waiting? && Clean(st, Holds(h) + multiset(taken))
    requires Laws.Advances(p.size(u), |p.graph.Links(u)| == 1, SenderOf(st, h), t, Taken(st, taken)) && !Forwards(h, t)
    ensures var (st1, h1) := AfterSender(st, h, t, taken, last, choice);
            && Read(st1, h1) == L.AfterSender(Read(st, h), t, last)
            && Handled(st, Holds(h) + multiset(taken), st1, Holds(h1)) && Shape(p, u, st1, h1) && h1.hand.Waiting?
  {
    var (st1, h1) := AfterSender(st, h, t, taken, last, choice);
    SettledAndKept(p.size(u), |p.graph.Links(u)| == 1, st, h, t, taken);
    KeepHandled(st, h, taken, t.buffer);
    assert Holds(h1) == Holds(h);
    assert t.buffer + [] == t.buffer;
  }

  /** The sender moves on as it does when one looks at the messages. */
  lemma AfterSenderMatches(p: L.Pipeline, u: Name, st: Store, h: Holder, t: SenderState,
                           taken: seq<Id>, last: bool, choice: nat)
    requires u in p.graph.outputs && Shape(p, u, st, h) && h.hand.Waiting? && Clean(st, Holds(h) + multiset(taken))
    requires Laws.Advances(p.size(u), |p.graph.Links(u)| == 1, SenderOf(st, h), t, Taken(st, taken))
    ensures var (st1, h1) := AfterSender(st, h, t, taken, last, choice);
            && Read(st1, h1) == L.AfterSender(Read(st, h), t, last)
            && Handled(st, Holds(h) + multiset(taken), st1, Holds(h1)) && Shape(p, u, st1, h1)
            && (h1.hand.Diverting? || h1.hand.Waiting?)
  {
    if Forwards(h, t) {
      AfterDiverting(p, u, st, h, t, taken, last, choice);
    } else {
      AfterKeeping(p, u, st, h, t, taken, last, choice);
    }
  }

  lemma OutputMatches(p: L.Pipeline, u: Name, st: Store, h: Holder, choice: nat)
    requires Ready(p, u, st, h) && u in p.graph.outputs && h.hand.Waiting? && h.queue != []
    ensures |st.At(h.queue[0].id)| <= p.size(u)
    ensures Matches(p, u, st, h, OutputReceive(p, u, st, h, choice), L.Become(L.OutputNext(p, u, Read(st, h))))
  {
    var id, rest := h.queue[0].id, Dequeue(st, h);
    DequeueHolds(st, h);
    DequeueReads(st, h);
    assert |Read(st, h).queue[0].batch| <= p.size(u);
    var t := p.sender(u).queue(SenderOf(st, h), st.At(id));
    assert multiset([id]) == multiset{id};
    AfterSenderMatches(p, u, st, rest, t, [id], false, choice);
  }

  lemma ReceiveMatches(p: L.Pipeline, u: Name, st: Store, h: Holder, m: Move)
    requires Ready(p, u, st, h) && u !in p.graph.inputs
    ensures Matches(p, u, st, h, ReceiveAct(p, u, st, h, m), L.ReceiveAct(p, u, Read(st, h)))
  {
    if h.hand.Waiting? && h.queue != [] {
      if u in p.graph.filters { FilterMatches(p, u, st, h, m); } else { OutputMatches(p, u, st, h, m.first); }
    }
  }

  /** What a flush makes of an output. */
  lemma FlushMatches(p: L.Pipeline, u: Name, st: Store, h: Holder, final: bool, choice: nat)
    requires Ready(p, u, st, h) && u in p.graph.outputs && h.hand.Waiting?
    ensures var t := p.sender(u).flush(SenderOf(st, h), final);
            var (st1, h1) := AfterSender(st, h, t, [], final, choice);
            && Read(st1, h1) == L.FlushNode(p, u, Read(st, h), final)
            && Handled(st, Holds(h), st1, Holds(h1)) && Shape(p, u, st1, h1)
            && (h1.hand.Diverting? || h1.hand.Waiting?) && (final ==> ReadBuffer(st1, h1) == [])
  {
    var t := p.sender(u).flush(SenderOf(st, h), final);
    assert Holds(h) + multiset([]) == Holds(h);
    AfterSenderMatches(p, u, st, h, t, [], final, choice);
    var (st1, h1) := AfterSender(st, h, t, [], final, choice);
    assert Read(st1, h1).sender == t;
  }

  lemma TickMatches(p: L.Pipeline, u: Name, st: Store, h: Holder, m: Move)
    requires Ready(p, u, st, h)
    ensures Matches(p, u, st, h, TickAct(p, u, st, h, m), L.TickAct(p, u, Read(st, h)))
  {
    if u in p.graph.outputs && h.hand.Waiting? { FlushMatches(p, u, st, h, false, m.first); }
  }

  /** An output with an empty buffer leaves; it may put the buffer back. */
  lemma PutBufferMatches(p: L.Pipeline, u: Name, st: Store, h: Holder, keeps: bool)
    requires u in p.graph.outputs && Shape(p, u, st, h) && h.hand.Waiting? && ReadBuffer(st, h) == []
    requires Clean(st, Holds(h))
    ensures var (st1, h1) := PutBuffer(st, h, keeps);
            var gone := h1.(hand := Gone);
            && Read(st1, gone) == Read(st, h.(hand := Gone))
            && Handled(st, Holds(h), st1, Holds(gone)) && Shape(p, u, st1, gone)
  {
    var (st1, h1) := PutBuffer(st, h, keeps);
    var gone := h1.(hand := Gone);
    var loose := Holds(h) - if keeps then multiset{} else multiset(h.buffer);
    if keeps {
      assert loose == Holds(h);
      NothingHandled(st, Holds(h));
    } else {
      PutAllHandled(st, Holds(h), h.buffer);
      SameQueue(st, st1, h.queue);
    }
    assert Holds(gone) <= loose;
    DropHandled(st1, loose, Holds(gone));
    HandledOn(st, Holds(h), st1, loose, st1, Holds(gone));
  }

  lemma OutputStops(p: L.Pipeline, u: Name, st: Store, h: Holder, m: Move)
    requires Ready(p, u, st, h) && u in p.graph.outputs && u !in p.graph.filters
    requires h.hand.Waiting? && h.queue == [] && h.closed
    ensures Matches(p, u, st, h, StopAct(p, u, st, h, m), L.StopAct(p, u, Read(st, h)))
  {
    FlushMatches(p, u, st, h, true, m.first);
    var t := p.sender(u).flush(SenderOf(st, h), true);
    var (st1, h1) := AfterSender(st, h, t, [], true, m.first);
    if h1.hand.Waiting? { LastMatches(p, u, st, h, st1, h1, m.keeps); }
  }

  /** After its last flush an output with nothing to forward leaves. */
  lemma LastMatches(p: L.Pipeline, u: Name, st: Store, h: Holder, st1: Store, h1: Holder, keeps: bool)
    requires u in p.graph.outputs && Clean(st, Holds(h)) && Handled(st, Holds(h), st1, Holds(h1))
    requires Shape(p, u, st1, h1) && h1.hand.Waiting? && ReadBuffer(st1, h1) == []
    ensures var (st2, h2) := PutBuffer(st1, h1, keeps);
            Matches(p, u, st, h, Leave(st2, h2), L.Leave(Read(st1, h1)))
  {
    PutBufferMatches(p, u, st1, h1, keeps);
    var (st2, h2) := PutBuffer(st1, h1, keeps);
    HandledOn(st, Holds(h), st1, Holds(h1), st2, Holds(h2.(hand := Gone)));
  }

  lemma StopMatches(p: L.Pipeline, u: Name, st: Store, h: Holder, m: Move)
    requires Ready(p, u, st, h) && u !in p.graph.inputs
    ensures Matches(p, u, st, h, StopAct(p, u, st, h, m), L.StopAct(p, u, Read(st, h)))
  {
    if h.hand.Waiting? && h.queue == [] && h.closed {
      if u in p.graph.filters { LeaveMatches(p, u, st, h); } else { OutputStops(p, u, st, h, m); }
    }
  }

  // ---------------------------------------------------------------------------------
  // Sending

  lemma SharedReads(st: Store, after: Store, h: Holder, hand: Hand)
    requires h.buffer == [] && h.hand.Sharing? && hand.Sharing? && hand.next == h.hand.next + 1
    requires after.At(hand.id) == st.At(h.hand.id) && ReadQueue(after, h.queue) == ReadQueue(st, h.queue)
    ensures Read(after, h.(hand := hand)) == L.Moved(Read(st, h))
  {
  }

  lemma SharingHolds(h: Holder, copy: Id)
    requires h.buffer == [] && h.hand.Sharing? && h.hand.clones == [copy]
    ensures Holds(h) == multiset(QueueIds(h.queue)) + multiset{copy} + multiset{h.hand.id}
  {
    assert HandIds(h.hand) == [h.hand.id, copy];
  }

  lemma SharedHolds(h: Holder, hand: Hand, copy: Id)
    requires h.buffer == []
    ensures Holds(h.(hand := hand)) + multiset{copy}
         == multiset(QueueIds(h.queue)) + multiset{copy} + multiset(HandIds(hand))
  {
  }

  /** The clone is out of the hands, and the next turn is prepared. */
  lemma ShareHandsOut(p: L.Pipeline, u: Name, st: Store, h: Holder, copy: Id, m: Move)
    requires Clean(st, Holds(h)) && h.buffer == [] && h.hand.Sharing? && h.hand.clones == [copy]
    ensures var (st1, hand) := Prepare(p, u, st, h.hand.id, h.hand.next + 1, m);
            && hand.Sharing? && hand.next == h.hand.next + 1 && CloneWaits(p, u, st1, hand)
            && st1.At(hand.id) == st.At(h.hand.id) && st1.At(copy) == st.At(copy)
            && ReadQueue(st1, h.queue) == ReadQueue(st, h.queue)
            && Handled(st, Holds(h), st1, Holds(h.(hand := hand)) + multiset{copy})
  {
    var others := multiset(QueueIds(h.queue)) + multiset{copy};
    SharingHolds(h, copy);
    PrepareHandled(p, u, st, others, h.hand.id, h.hand.next + 1, m);
    var (st1, hand) := Prepare(p, u, st, h.hand.id, h.hand.next + 1, m);
    SharedHolds(h, hand, copy);
    assert st1.At(copy) == st.At(copy) by { assert copy in others; }
    SameQueue(st, st1, h.queue) by { assert Same(st, st1, others); }
  }

  lemma ShareActs(p: L.Pipeline, u: Name, st: Store, h: Holder, m: Move)
    requires h.hand.Sharing? && h.hand.next < |p.graph.Links(u)| && h.hand.clones != []
    ensures var (st1, hand) := Prepare(p, u, st, h.hand.id, h.hand.next + 1, m);
            ShareAct(p, u, st, h, m)
            == Push(st1, h.(hand := hand), p.graph.Links(u)[h.hand.next].to, h.hand.clones[0])
  {
  }

  lemma SendActs(p: L.Pipeline, u: Name, st: Store, h: Holder)
    requires h.hand.Sharing? && h.hand.next < |p.graph.Links(u)|
    ensures L.SendAct(p, u, Read(st, h))
         == L.Push(L.Moved(Read(st, h)), p.graph.Links(u)[h.hand.next].to, st.At(h.hand.id))
  {
  }

  /** The clone that waits is sent, and the next turn is prepared. */
  lemma ShareMatches(p: L.Pipeline, u: Name, st: Store, h: Holder, m: Move)
    requires Clean(st, Holds(h)) && Shape(p, u, st, h) && h.hand.Sharing? && h.hand.next < |p.graph.Links(u)|
    ensures Matches(p, u, st, h, ShareAct(p, u, st, h, m), L.SendAct(p, u, Read(st, h)))
  {
    var copy := h.hand.clones[0];
    assert h.hand.clones == [copy];
    ShareHandsOut(p, u, st, h, copy, m);
    var (st1, hand) := Prepare(p, u, st, h.hand.id, h.hand.next + 1, m);
    SharedReads(st, st1, h, hand);
    ShareActs(p, u, st, h, m);
    SendActs(p, u, st, h);
  }

  lemma DivertingSends(p: L.Pipeline, u: Name, st: Store, h: Holder, m: Move)
    requires h.hand.Diverting? && |p.graph.Links(u)| == 1 && h.produced != []
    requires st.At(h.hand.clone) == h.produced[|h.produced| - 1]
    ensures var h1, v := h.(hand := Diverted(h.hand.taken, h.hand.rest, h.hand.last)), p.graph.Links(u)[0].to;
            && SendAct(p, u, st, h, m) == Push(st, h1, v, h.hand.clone)
            && L.SendAct(p, u, Read(st, h)) == L.Push(Read(st, h1), v, st.At(h.hand.clone))
  {
  }

  lemma DivertingHandled(st: Store, h: Holder)
    requires h.hand.Diverting? && Clean(st, Holds(h))
    ensures var h1 := h.(hand := Diverted(h.hand.taken, h.hand.rest, h.hand.last));
            Handled(st, Holds(h), st, Holds(h1) + multiset{h.hand.clone})
  {
    var h1 := h.(hand := Diverted(h.hand.taken, h.hand.rest, h.hand.last));
    assert HandIds(h.hand) == [h.hand.clone] + h.hand.taken;
    assert Holds(h1) + multiset{h.hand.clone} == Holds(h);
    NothingHandled(st, Holds(h));
  }

  lemma DivertingMatches(p: L.Pipeline, u: Name, st: Store, h: Holder, m: Move)
    requires Clean(st, Holds(h)) && Shape(p, u, st, h) && h.hand.Diverting?
    ensures Matches(p, u, st, h, SendAct(p, u, st, h, m), L.SendAct(p, u, Read(st, h)))
  {
    DivertingHandled(st, h);
    DivertingSends(p, u, st, h, m);
  }

  lemma SendMatches(p: L.Pipeline, u: Name, st: Store, h: Holder, m: Move)
    requires Ready(p, u, st, h)
    ensures Matches(p, u, st, h, SendAct(p, u, st, h, m), L.SendAct(p, u, Read(st, h)))
  {
    if h.hand.Sharing? && h.hand.next < |p.graph.Links(u)| { ShareMatches(p, u, st, h, m); }
    if h.hand.Diverting? { DivertingMatches(p, u, st, h, m); }
  }

  lemma RequeueHandled(st: Store, h: Holder)
    requires h.hand.Diverted? && Clean(st, Holds(h)) && |h.buffer| == 1
    ensures var (st1, h1) := Requeue(st, h);
            && Handled(st, Holds(h), st1, Holds(h1)) && InBuffer(st1, h) == ReadBuffer(st, h)
            && ReadQueue(st1, h.queue) == ReadQueue(st, h.queue)
  {
    var (st1, h1) := Requeue(st, h);
    var filled := WriteBuffer(st, h, ReadBuffer(st, h));
    assert Holds(h) + multiset{} == Holds(h);
    WriteBufferHandled(st, h, multiset{}, ReadBuffer(st, h));
    PutAllHandled(filled, Holds(h), h.hand.taken);
    assert Holds(h) - multiset(h.hand.taken) == Holds(h1);
    HandledOn(st, Holds(h), filled, Holds(h), st1, Holds(h1));
    SameQueue(st, st1, h.queue);
  }

  lemma RequeuedReads(st: Store, after: Store, h: Holder)
    requires h.hand.Diverted? && InBuffer(after, h) == ReadBuffer(st, h)
    requires ReadQueue(after, h.queue) == ReadQueue(st, h.queue)
    ensures Read(after, h.(hand := Waiting)) == Read(st, h).(phase := L.Idle)
  {
    assert InBuffer(after, h) + [] == InBuffer(after, h);
  }

  /** The rest of the batch that was being queued goes into the buffer, and the batch is put
      back. */
  lemma RequeueMatches(p: L.Pipeline, u: Name, st: Store, h: Holder)
    requires h.hand.Diverted? && Clean(st, Holds(h)) && Shape(p, u, st, h)
    ensures var (st1, h1) := Requeue(st, h);
            && Handled(st, Holds(h), st1, Holds(h1)) && Shape(p, u, st1, h1)
            && Read(st1, h1) == Read(st, h).(phase := L.Idle)
  {
    RequeueHandled(st, h);
    RequeuedReads(st, Requeue(st, h).0, h);
  }

  /** After the last forwarding the output leaves, with nothing in its buffer. */
  lemma DivertedLeaves(p: L.Pipeline, u: Name, st: Store, h: Holder, keeps: bool)
    requires u in p.graph.outputs && h.hand.Diverted? && Clean(st, Holds(h)) && Shape(p, u, st, h)
    requires Read(st, h).sender.buffer == []
    ensures var (st1, h1) := Requeue(st, h);
            var (st2, h2) := PutBuffer(st1, h1, keeps);
            Matches(p, u, st, h, Leave(st2, h2), L.Leave(Read(st, h)))
  {
    var (st1, h1) := Requeue(st, h);
    RequeueMatches(p, u, st, h);
    assert ReadBuffer(st1, h1) == Read(st1, h1).sender.buffer;
    LastMatches(p, u, st, h, st1, h1, keeps);
    assert Read(st1, h1).(phase := L.Exited) == Read(st, h).(phase := L.Exited);
  }

  lemma DivertedFinishes(p: L.Pipeline, u: Name, st: Store, h: Holder, m: Move)
    requires Ready(p, u, st, h) && h.hand.Diverted?
    ensures Matches(p, u, st, h, DivertedAct(st, h, m), L.FinishAct(p, u, Read(st, h)))
  {
    RequeueMatches(p, u, st, h);
    if h.hand.last || h.cancelled { DivertedLeaves(p, u, st, h, m.keeps); }
  }

  lemma FinishMatches(p: L.Pipeline, u: Name, st: Store, h: Holder, m: Move)
    requires Ready(p, u, st, h)
    ensures Matches(p, u, st, h, FinishAct(p, u, st, h, m), L.FinishAct(p, u, Read(st, h)))
  {
    if h.hand.Sharing? {
      if h.cancelled { LeaveMatches(p, u, st, h); } else { DropHandled(st, Holds(h), Holds(h.(hand := Waiting))); }
    }
    if h.hand.Diverted? { DivertedFinishes(p, u, st, h, m); }
  }

  /** Which action of a filter or an output it is depends on the step alone. */
  lemma ReactCases(p: L.Pipeline, u: Name, st: Store, h: Holder, m: Move)
    requires u !in p.graph.inputs && !m.step.Send? && !m.step.Finish?
    ensures m.step.Receive? ==>
      && Act(p, u, st, h, m) == ReceiveAct(p, u, st, h, m)
      && L.Act(p, u, Read(st, h), m.step) == L.ReceiveAct(p, u, Read(st, h))
    ensures m.step.Tick? ==>
      Act(p, u, st, h, m) == TickAct(p, u, st, h, m) && L.Act(p, u, Read(st, h), m.step) == L.TickAct(p, u, Read(st, h))
    ensures m.step.Stop? ==>
      Act(p, u, st, h, m) == StopAct(p, u, st, h, m) && L.Act(p, u, Read(st, h), m.step) == L.StopAct(p, u, Read(st, h))
    ensures !m.step.Receive? && !m.step.Tick? && !m.step.Stop? ==>
      Act(p, u, st, h, m) == None && L.Act(p, u, Read(st, h), m.step) == L.None
  {
  }

  /** A filter or an output takes a batch, or its ticker fires, or it finds its channel closed. */
  lemma ReactMatches(p: L.Pipeline, u: Name, st: Store, h: Holder, m: Move)
    requires Ready(p, u, st, h) && u !in p.graph.inputs && !m.step.Send? && !m.step.Finish?
    ensures Matches(p, u, st, h, Act(p, u, st, h, m), L.Act(p, u, Read(st, h), m.step))
  {
    ReactCases(p, u, st, h, m);
    if m.step.Receive? { ReceiveMatches(p, u, st, h, m); }
    else if m.step.Tick? { TickMatches(p, u, st, h, m); }
    else if m.step.Stop? { StopMatches(p, u, st, h, m); }
  }

  /** Which action it is depends on the step in the same way here as there. */
  lemma ActCases(p: L.Pipeline, u: Name, st: Store, h: Holder, m: Move)
    ensures m.step.Send? ==>
      Act(p, u, st, h, m) == SendAct(p, u, st, h, m) && L.Act(p, u, Read(st, h), m.step) == L.SendAct(p, u, Read(st, h))
    ensures m.step.Finish? ==>
      && Act(p, u, st, h, m) == FinishAct(p, u, st, h, m)
      && L.Act(p, u, Read(st, h), m.step) == L.FinishAct(p, u, Read(st, h))
    ensures !m.step.Send? && !m.step.Finish? && u in p.graph.inputs ==>
      && Act(p, u, st, h, m) == InputAct(p, u, st, h, m)
      && L.Act(p, u, Read(st, h), m.step) == L.InputAct(p, u, Read(st, h), m.step)
  {
  }

  /** Every action does to the batches what `Lifecycle` says it does to the messages. */
  lemma ActMatches(p: L.Pipeline, u: Name, st: Store, h: Holder, m: Move)
    requires Ready(p, u, st, h)
    ensures Matches(p, u, st, h, Act(p, u, st, h, m), L.Act(p, u, Read(st, h), m.step))
  {
    ActCases(p, u, st, h, m);
    if m.step.Send? { SendMatches(p, u, st, h, m); }
    else if m.step.Finish? { FinishMatches(p, u, st, h, m); }
    else if u in p.graph.inputs { InputMatches(p, u, st, h, m); }
    else { ReactMatches(p, u, st, h, m); }
  }
}
