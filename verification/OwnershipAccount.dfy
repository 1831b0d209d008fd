/** How often the pool is used: in every reachable state the number of batches taken from the pool
    and the number put back follow from what the nodes have produced and received. Nobody forgets
    to put a batch back, and nobody takes one more than it needs. */
module OwnershipAccount {
  import opened Messages
  import opened SenderModel
  import opened Topology
  import opened BatchStore
  import opened Ownership
  import opened OwnershipNodes
  import Laws = OwnershipLaws
  import opened Sums
  import L = Lifecycle
  import Filters

  function Gots(deeds: seq<Deed>): nat {
    if deeds == [] then 0 else Gots(deeds[..|deeds| - 1]) + (if deeds[|deeds| - 1].Got? then 1 else 0)
  }

  function Puts(deeds: seq<Deed>): nat {
    if deeds == [] then 0 else Puts(deeds[..|deeds| - 1]) + (if deeds[|deeds| - 1].Put? then 1 else 0)
  }

  lemma CountSnoc(deeds: seq<Deed>, d: Deed)
    ensures Gots(deeds + [d]) == Gots(deeds) + (if d.Got? then 1 else 0)
    ensures Puts(deeds + [d]) == Puts(deeds) + (if d.Put? then 1 else 0)
  {
    assert (deeds + [d])[..|deeds|] == deeds;
  }

  /** From `st` to `after`, `got` batches were taken from the pool and `put` were put back. */
  ghost predicate Used(st: Store, after: Store, got: nat, put: nat) {
    Gots(after.deeds) == Gots(st.deeds) + got && Puts(after.deeds) == Puts(st.deeds) + put
  }

  lemma FillUses(st: Store, batch: Batch, choice: nat)
    ensures Used(st, st.Fill(batch, choice).0, 1, 0)
  {
    CountSnoc(st.deeds, Got(st.Get(choice).1));
  }

  lemma ShareUses(st: Store, id: Id, again: bool, first: nat, second: nat)
    ensures Used(st, st.Share(id, again, first, second).0, if again then 2 else 1, 0)
  {
    var (st1, source) := if again then st.Clone(id, first) else (st, id);
    if again { FillUses(st, st.At(id), first); }
    FillUses(st1, st1.At(source), second);
  }

  lemma {:induction false} PutAllUses(st: Store, ids: seq<Id>)
    ensures Used(st, st.PutAll(ids), 0, |ids|)
    decreases |ids|
  {
    if ids != [] {
      CountSnoc(st.deeds, Put(ids[0]));
      PutAllUses(st.PutBack(ids[0]), ids[1..]);
    }
  }

  // ---------------------------------------------------------------------------------
  // What a node has taken and put back

  /** The clones for one fan-out: one for every link, and from the second link on another that
      replaces the batch in hand. */
  function ClonesFor(p: L.Pipeline, u: Name): nat {
    if p.graph.Links(u) == [] then 0 else 2 * |p.graph.Links(u)| - 1
  }

  /** What `u` needs from the pool for all that it has produced: an input a batch for each that it
      emitted, an output a clone for each that it forwarded, all others and inputs clones for
      each fan-out. */
  function Needed(p: L.Pipeline, u: Name, h: Holder): nat {
    if u in p.graph.outputs then |h.produced|
    else Times(|h.produced|, ClonesFor(p, u)) + if u in p.graph.inputs then |h.produced| else 0
  }

  /** The clones that are still to be made for the fan-out that is going on. */
  function ToMake(p: L.Pipeline, u: Name, h: Holder): nat {
    var links := |p.graph.Links(u)|;
    if h.hand.Sharing? && h.hand.next < links then 2 * (links - h.hand.next - 1) else 0
  }

  /** What output `u` is done with: the batches that it received, and its buffer if it gave that
      up. */
  function Done(p: L.Pipeline, u: Name, h: Holder): nat {
    if u in p.graph.outputs then |h.received| + if h.buffer == [] then 1 else 0 else 0
  }

  /** The batches of which it still has to append the rest. */
  function ToPut(h: Holder): nat {
    match h.hand
    case Diverting(_, taken, _, _) => |taken|
    case Diverted(taken, _, _) => |taken|
    case _ => 0
  }

  /** What `u` did between `h` in `st` and `h1` in `st1` is in its account. */
  ghost predicate Booked(p: L.Pipeline, u: Name, st: Store, h: Holder, st1: Store, h1: Holder) {
    && Gots(st1.deeds) + ToMake(p, u, h1) + Needed(p, u, h) == Gots(st.deeds) + ToMake(p, u, h) + Needed(p, u, h1)
    && Puts(st1.deeds) + ToPut(h1) + Done(p, u, h) == Puts(st.deeds) + ToPut(h) + Done(p, u, h1)
  }

  ghost predicate BookedAct(p: L.Pipeline, u: Name, st: Store, h: Holder, a: Action) {
    match a
    case Become(st1, h1) => Booked(p, u, st, h, st1, h1)
    case Push(st1, h1, _, _) => Booked(p, u, st, h, st1, h1)
    case Leave(st1, h1) => Booked(p, u, st, h, st1, h1.(hand := Gone))
    case _ => true
  }

  lemma PrepareUses(p: L.Pipeline, u: Name, st: Store, id: Id, next: nat, m: Move)
    ensures var (st1, hand) := Prepare(p, u, st, id, next, m);
            && hand.Sharing? && hand.next == next
            && Used(st, st1, if next >= |p.graph.Links(u)| then 0 else if next >= 1 then 2 else 1, 0)
  {
    if next < |p.graph.Links(u)| { ShareUses(st, id, next >= 1, m.second, m.third); }
  }

  lemma NeedsOneMore(p: L.Pipeline, u: Name, h: Holder, h1: Holder)
    requires |h1.produced| == |h.produced| + 1
    ensures Needed(p, u, h1) == Needed(p, u, h)
                                + if u in p.graph.outputs then 1
                                  else ClonesFor(p, u) + if u in p.graph.inputs then 1 else 0
  {
  }

  lemma EmitBooked(p: L.Pipeline, u: Name, st: Store, h: Holder, m: Move)
    requires u in p.graph.inputs && u !in p.graph.outputs && h.hand.Waiting?
    ensures BookedAct(p, u, st, h, InputAct(p, u, st, h, m))
  {
    if m.step.Emit? && |m.step.batch| <= p.size(u) {
      var (st1, id) := st.Fill(m.step.batch, m.first);
      FillUses(st, m.step.batch, m.first);
      PrepareUses(p, u, st1, id, 0, m);
      var (st2, hand) := Prepare(p, u, st1, id, 0, m);
      NeedsOneMore(p, u, h, h.(hand := hand, produced := h.produced + [m.step.batch]));
    }
  }

  lemma InputBooked(p: L.Pipeline, u: Name, st: Store, h: Holder, m: Move)
    requires u in p.graph.inputs && u !in p.graph.outputs && Shape(p, u, st, h)
    ensures BookedAct(p, u, st, h, InputAct(p, u, st, h, m))
  {
    if h.hand.Waiting? { EmitBooked(p, u, st, h, m); }
  }

  lemma FilterBooked(p: L.Pipeline, u: Name, st: Store, h: Holder, m: Move)
    requires u !in p.graph.outputs && u !in p.graph.inputs && h.hand.Waiting? && h.queue != []
    ensures BookedAct(p, u, st, h, FilterReceive(p, u, st, h, m))
  {
    var id := h.queue[0].id;
    var kept := Filters.Kept(p.filter(u), Flatten(L.Batches(h.received)), st.At(id));
    PrepareUses(p, u, st.Write(id, kept), id, 0, m);
    var hand := Prepare(p, u, st.Write(id, kept), id, 0, m).1;
    NeedsOneMore(p, u, h, Dequeue(st, h).(hand := hand, produced := h.produced + [kept]));
  }

  lemma OneTurnLess(p: L.Pipeline, u: Name, h: Holder, hand: Hand)
    requires h.hand.Sharing? && hand.Sharing? && hand.next == h.hand.next + 1
    ensures var h1 := h.(hand := hand);
            && ToMake(p, u, h) == ToMake(p, u, h1) + (if hand.next < |p.graph.Links(u)| then 2 else 0)
            && Needed(p, u, h1) == Needed(p, u, h) && Done(p, u, h1) == Done(p, u, h) && ToPut(h1) == ToPut(h)
  {
  }

  lemma SharedBooked(p: L.Pipeline, u: Name, st: Store, h: Holder, st1: Store, hand: Hand)
    requires h.hand.Sharing? && hand.Sharing? && hand.next == h.hand.next + 1
    requires Used(st, st1, if hand.next < |p.graph.Links(u)| then 2 else 0, 0)
    ensures Booked(p, u, st, h, st1, h.(hand := hand))
  {
    OneTurnLess(p, u, h, hand);
  }

  lemma ShareBooked(p: L.Pipeline, u: Name, st: Store, h: Holder, m: Move)
    requires h.hand.Sharing? && h.hand.next < |p.graph.Links(u)| && h.hand.clones != []
    ensures BookedAct(p, u, st, h, ShareAct(p, u, st, h, m))
  {
    var (st1, hand) := Prepare(p, u, st, h.hand.id, h.hand.next + 1, m);
    PrepareUses(p, u, st, h.hand.id, h.hand.next + 1, m);
    SharedBooked(p, u, st, h, st1, hand);
    ShareActs(p, u, st, h, m);
  }

  lemma DivertUses(st: Store, h: Holder, taken: seq<Id>, n: nat, choice: nat)
    requires h.buffer != []
    ensures Used(st, Divert(st, h, taken, n, choice).0, 1, 0)
  {
    var all := InBuffer(st, h) + Taken(st, taken);
    var filled := st.Write(h.buffer[0], if n <= |all| then all[..n] else all);
    FillUses(filled, filled.At(h.buffer[0]), choice);
  }

  lemma KeepUses(st: Store, h: Holder, taken: seq<Id>, batch: Batch)
    ensures Used(st, WriteBuffer(st, h, batch).PutAll(taken), 0, |taken|)
  {
    PutAllUses(WriteBuffer(st, h, batch), taken);
  }

  /** The sender moves on: a batch that was taken is put back, or waits until the forwarding is
      done. */
  lemma AfterSenderBooked(p: L.Pipeline, u: Name, st: Store, h: Holder, t: SenderState,
                          taken: seq<Id>, last: bool, choice: nat)
    requires u in p.graph.outputs && h.hand.Waiting? && |h.buffer| == 1
    ensures var (st1, h1) := AfterSender(st, h, t, taken, last, choice);
            && h1.buffer == h.buffer && h1.received == h.received && (h1.hand.Waiting? || h1.hand.Diverting?)
            && Gots(st1.deeds) + |h.produced| == Gots(st.deeds) + |h1.produced|
            && Puts(st1.deeds) + ToPut(h1) == Puts(st.deeds) + |taken|
  {
    var n := SettledNow(h, t);
    if Forwards(h, t) {
      DivertUses(st, h, taken, n, choice);
    } else {
      KeepUses(st, h, taken, From(InBuffer(st, h) + Taken(st, taken), n));
    }
  }

  lemma OutputBooked(p: L.Pipeline, u: Name, st: Store, h: Holder, choice: nat)
    requires u in p.graph.outputs && h.hand.Waiting? && |h.buffer| == 1 && h.queue != []
    ensures BookedAct(p, u, st, h, OutputReceive(p, u, st, h, choice))
  {
    var id := h.queue[0].id;
    AfterSenderBooked(p, u, st, Dequeue(st, h), p.sender(u).queue(SenderOf(st, h), st.At(id)), [id], false, choice);
  }

  lemma ReceiveBooked(p: L.Pipeline, u: Name, st: Store, h: Holder, m: Move)
    requires Shape(p, u, st, h) && L.Roles(p.graph) && u in p.graph.Nodes() && u !in p.graph.inputs
    ensures BookedAct(p, u, st, h, ReceiveAct(p, u, st, h, m))
  {
    if h.hand.Waiting? && h.queue != [] {
      if u in p.graph.filters { FilterBooked(p, u, st, h, m); } else { OutputBooked(p, u, st, h, m.first); }
    }
  }

  lemma TickBooked(p: L.Pipeline, u: Name, st: Store, h: Holder, m: Move)
    requires Shape(p, u, st, h)
    ensures BookedAct(p, u, st, h, TickAct(p, u, st, h, m))
  {
    if u in p.graph.outputs && h.hand.Waiting? {
      AfterSenderBooked(p, u, st, h, p.sender(u).flush(SenderOf(st, h), false), [], false, m.first);
    }
  }

  /** The buffer is put back, or kept. */
  lemma PutBufferBooked(p: L.Pipeline, u: Name, st: Store, h: Holder, keeps: bool)
    requires u in p.graph.outputs && |h.buffer| == 1
    ensures var (st1, h1) := PutBuffer(st, h, keeps);
            && h1.received == h.received && h1.produced == h.produced
            && Gots(st1.deeds) == Gots(st.deeds)
            && Puts(st1.deeds) + Done(p, u, h) == Puts(st.deeds) + Done(p, u, h1)
  {
    PutAllUses(st, h.buffer);
  }

  /** After its final flush an output with nothing to forward leaves. */
  lemma LastBooked(p: L.Pipeline, u: Name, st: Store, h: Holder, st1: Store, h1: Holder, keeps: bool)
    requires u in p.graph.outputs && h.hand.Waiting? && h1.hand.Waiting? && |h1.buffer| == 1 && h1.buffer == h.buffer
    requires h1.received == h.received && Gots(st1.deeds) + |h.produced| == Gots(st.deeds) + |h1.produced|
    requires Puts(st1.deeds) == Puts(st.deeds)
    ensures var (st2, h2) := PutBuffer(st1, h1, keeps); BookedAct(p, u, st, h, Leave(st2, h2))
  {
    PutBufferBooked(p, u, st1, h1, keeps);
  }

  lemma OutputStopBooked(p: L.Pipeline, u: Name, st: Store, h: Holder, m: Move)
    requires u in p.graph.outputs && u !in p.graph.filters && |h.buffer| == 1
    requires h.hand.Waiting? && h.queue == [] && h.closed
    ensures BookedAct(p, u, st, h, StopAct(p, u, st, h, m))
  {
    var t := p.sender(u).flush(SenderOf(st, h), true);
    AfterSenderBooked(p, u, st, h, t, [], true, m.first);
    var (st1, h1) := AfterSender(st, h, t, [], true, m.first);
    if !h1.hand.Diverting? { LastBooked(p, u, st, h, st1, h1, m.keeps); }
  }

  lemma StopBooked(p: L.Pipeline, u: Name, st: Store, h: Holder, m: Move)
    requires Shape(p, u, st, h) && L.Roles(p.graph) && u in p.graph.Nodes() && u !in p.graph.inputs
    ensures BookedAct(p, u, st, h, StopAct(p, u, st, h, m))
  {
    if h.hand.Waiting? && h.queue == [] && h.closed && u in p.graph.outputs { OutputStopBooked(p, u, st, h, m); }
  }

  lemma DivertedBooked(p: L.Pipeline, u: Name, st: Store, h: Holder, m: Move)
    requires u in p.graph.outputs && |h.buffer| == 1 && h.hand.Diverted?
    ensures BookedAct(p, u, st, h, DivertedAct(st, h, m))
  {
    PutAllUses(WriteBuffer(st, h, ReadBuffer(st, h)), h.hand.taken);
    var (st1, h1) := Requeue(st, h);
    PutBufferBooked(p, u, st1, h1, m.keeps);
  }

  lemma FinishBooked(p: L.Pipeline, u: Name, st: Store, h: Holder, m: Move)
    requires Shape(p, u, st, h)
    ensures BookedAct(p, u, st, h, FinishAct(p, u, st, h, m))
  {
    if h.hand.Diverted? { DivertedBooked(p, u, st, h, m); }
  }

  lemma SendBooked(p: L.Pipeline, u: Name, st: Store, h: Holder, m: Move)
    requires Shape(p, u, st, h)
    ensures BookedAct(p, u, st, h, SendAct(p, u, st, h, m))
  {
    if h.hand.Sharing? && h.hand.next < |p.graph.Links(u)| && h.hand.clones != [] { ShareBooked(p, u, st, h, m); }
  }

  lemma ActBooked(p: L.Pipeline, u: Name, st: Store, h: Holder, m: Move)
    requires Shape(p, u, st, h) && L.Roles(p.graph) && u in p.graph.Nodes()
    ensures BookedAct(p, u, st, h, Act(p, u, st, h, m))
  {
    ActCases(p, u, st, h, m);
    if m.step.Send? { SendBooked(p, u, st, h, m); }
    else if m.step.Finish? { FinishBooked(p, u, st, h, m); }
    else if u in p.graph.inputs { InputBooked(p, u, st, h, m); }
    else {
      ReactCases(p, u, st, h, m);
      if m.step.Receive? { ReceiveBooked(p, u, st, h, m); }
      else if m.step.Tick? { TickBooked(p, u, st, h, m); }
      else if m.step.Stop? { StopBooked(p, u, st, h, m); }
    }
  }

  // ---------------------------------------------------------------------------------
  // Over all nodes

  function AllNeeded(p: L.Pipeline, holders: map<Name, Holder>): map<Name, nat> {
    map u | u in holders :: Needed(p, u, holders[u])
  }

  function AllToMake(p: L.Pipeline, holders: map<Name, Holder>): map<Name, nat> {
    map u | u in holders :: ToMake(p, u, holders[u])
  }

  function AllDone(p: L.Pipeline, holders: map<Name, Holder>): map<Name, nat> {
    map u | u in holders :: Done(p, u, holders[u])
  }

  function AllToPut(holders: map<Name, Holder>): map<Name, nat> {
    map u | u in holders :: ToPut(holders[u])
  }

  ghost function Total(holders: map<Name, Holder>, counts: map<Name, nat>): nat
    requires holders.Keys <= counts.Keys
  {
    Sum(holders.Keys, counts)
  }

  /** The account of the whole pipeline. */
  ghost predicate Balanced(p: L.Pipeline, w: World) {
    && Gots(w.store.deeds) + Total(w.holders, AllToMake(p, w.holders)) == Total(w.holders, AllNeeded(p, w.holders))
    && Puts(w.store.deeds) + Total(w.holders, AllToPut(w.holders)) == Total(w.holders, AllDone(p, w.holders))
  }

  /** Nothing that is in the account has changed. */
  predicate SameBooks(h: Holder, k: Holder) {
    k.hand == h.hand && k.buffer == h.buffer && k.received == h.received && k.produced == h.produced
  }

  /** Only `u` has changed in the account, to what `h` has there. */
  ghost predicate OnlyBooks(holders: map<Name, Holder>, after: map<Name, Holder>, u: Name, h: Holder) {
    && u in holders && after.Keys == holders.Keys && SameBooks(h, after[u])
    && forall v | v in holders && v != u :: SameBooks(holders[v], after[v])
  }

  lemma BooksOfNode(p: L.Pipeline, u: Name, h: Holder, k: Holder)
    requires SameBooks(h, k)
    ensures Needed(p, u, k) == Needed(p, u, h) && ToMake(p, u, k) == ToMake(p, u, h)
    ensures Done(p, u, k) == Done(p, u, h) && ToPut(k) == ToPut(h)
  {
  }

  lemma GotsChange(p: L.Pipeline, holders: map<Name, Holder>, after: map<Name, Holder>, u: Name, h: Holder)
    requires OnlyBooks(holders, after, u, h)
    ensures Total(after, AllNeeded(p, after)) + Needed(p, u, holders[u])
         == Total(holders, AllNeeded(p, holders)) + Needed(p, u, h)
    ensures Total(after, AllToMake(p, after)) + ToMake(p, u, holders[u])
         == Total(holders, AllToMake(p, holders)) + ToMake(p, u, h)
  {
    BooksOfNode(p, u, h, after[u]);
    forall v | v in holders && v != u
      ensures AllNeeded(p, after)[v] == AllNeeded(p, holders)[v] && AllToMake(p, after)[v] == AllToMake(p, holders)[v]
    {
      BooksOfNode(p, v, holders[v], after[v]);
    }
    SumChange(holders.Keys, AllNeeded(p, holders), AllNeeded(p, after), u);
    SumChange(holders.Keys, AllToMake(p, holders), AllToMake(p, after), u);
  }

  lemma PutsChange(p: L.Pipeline, holders: map<Name, Holder>, after: map<Name, Holder>, u: Name, h: Holder)
    requires OnlyBooks(holders, after, u, h)
    ensures Total(after, AllDone(p, after)) + Done(p, u, holders[u])
         == Total(holders, AllDone(p, holders)) + Done(p, u, h)
    ensures Total(after, AllToPut(after)) + ToPut(holders[u]) == Total(holders, AllToPut(holders)) + ToPut(h)
  {
    BooksOfNode(p, u, h, after[u]);
    forall v | v in holders && v != u
      ensures AllDone(p, after)[v] == AllDone(p, holders)[v] && AllToPut(after)[v] == AllToPut(holders)[v]
    {
      BooksOfNode(p, v, holders[v], after[v]);
    }
    SumChange(holders.Keys, AllDone(p, holders), AllDone(p, after), u);
    SumChange(holders.Keys, AllToPut(holders), AllToPut(after), u);
  }

  /** What one node does keeps the account balanced, whatever it does to channels. */
  lemma StaysBalanced(p: L.Pipeline, w: World, t: World, u: Name, h: Holder)
    requires Balanced(p, w) && OnlyBooks(w.holders, t.holders, u, h)
    requires Booked(p, u, w.store, w.holders[u], t.store, h)
    ensures Balanced(p, t)
  {
    GotsChange(p, w.holders, t.holders, u, h);
    PutsChange(p, w.holders, t.holders, u, h);
  }

  lemma DeliveredBooks(w: World, u: Name, st: Store, h: Holder, v: Name, id: Id)
    requires u in w.holders && v in w.holders
    ensures OnlyBooks(w.holders, Ownership.Deliver(w, u, st, h, v, id).holders, u, h)
  {
  }

  lemma ClosedBooks(holders: map<Name, Holder>, u: Name, h: Holder, closing: set<Name>)
    requires u in holders
    ensures OnlyBooks(holders, CloseAll(holders[u := h], closing), u, h)
  {
  }

  lemma PerformBalanced(p: L.Pipeline, w: World, u: Name, a: Action)
    requires Balanced(p, w) && u in w.holders && BookedAct(p, u, w.store, w.holders[u], a)
    requires Perform(p, w, u, a).Ok?
    ensures Balanced(p, Perform(p, w, u, a).world)
  {
    var t := Perform(p, w, u, a).world;
    match a
    case Become(st, h) => StaysBalanced(p, w, t, u, h);
    case Push(st, h, v, id) =>
      DeliveredBooks(w, u, st, h, v, id);
      StaysBalanced(p, w, t, u, h);
    case Leave(st, h) =>
      ClosedBooks(w.holders, u, h.(hand := Gone), p.graph.Closable(w.exited + {u}, u));
      StaysBalanced(p, w, t, u, h.(hand := Gone));
    case _ =>
  }

  lemma MoveBalanced(p: L.Pipeline, w: World, m: Move)
    requires L.Safe(p) && Laws.Owned(p, w) && Balanced(p, w) && Apply(p, w, m).Ok?
    ensures Laws.Owned(p, Apply(p, w, m).world) && Balanced(p, Apply(p, w, m).world)
  {
    var u := m.step.n;
    Laws.MoveAgrees(p, w, m);
    Laws.NodeReady(p, w, u);
    ActBooked(p, u, w.store, w.holders[u], m);
    PerformBalanced(p, w, u, Act(p, u, w.store, w.holders[u], m));
  }

  lemma {:induction false} RunBalanced(p: L.Pipeline, w: World, moves: seq<Move>)
    requires L.Safe(p) && Laws.Owned(p, w) && Balanced(p, w) && Run(p, w, moves).Ok?
    ensures Balanced(p, Run(p, w, moves).world)
    decreases |moves|
  {
    if moves != [] {
      Laws.RunUnfolds(p, w, moves);
      MoveBalanced(p, w, moves[0]);
      RunBalanced(p, Apply(p, w, moves[0]).world, moves[1..]);
    }
  }

  lemma InitBalanced(p: L.Pipeline)
    ensures Balanced(p, Init(p))
  {
    var holders := Init(p).holders;
    NothingPending(p, holders);
    forall u | u in holders ensures Needed(p, u, holders[u]) == 0 && Done(p, u, holders[u]) == 0 {
      assert holders[u] == Start(p, u);
    }
    Laws.SumOfNothing(holders.Keys, AllNeeded(p, holders));
    Laws.SumOfNothing(holders.Keys, AllDone(p, holders));
  }

  /** The account of the pool, in every reachable state, whatever the pool hands out. As many
      batches have been taken as the inputs have emitted, the outputs have forwarded, and the
      fan-outs of inputs and filters need: one for the first link, two for each further one, and
      none for a filter that works in place. As many have been put back as the outputs have
      received, and as they have given up buffers. In both, what is going on is to be added. */
  lemma PoolAccount(p: L.Pipeline, moves: seq<Move>, w: World)
    requires L.Safe(p) && Laws.Reaches(p, moves, w)
    ensures Gots(w.store.deeds) + Total(w.holders, AllToMake(p, w.holders)) == Total(w.holders, AllNeeded(p, w.holders))
    ensures Puts(w.store.deeds) + Total(w.holders, AllToPut(w.holders)) == Total(w.holders, AllDone(p, w.holders))
  {
    Laws.InitOwned(p);
    InitBalanced(p);
    RunBalanced(p, Init(p), moves);
  }

  /** When everybody has exited, every batch that an output ever received has been put back, and
      besides these only the buffers that the outputs gave up. */
  lemma EverythingPutBack(p: L.Pipeline, moves: seq<Move>, w: World)
    requires L.Safe(p) && Laws.Reaches(p, moves, w) && forall u | u in w.holders :: w.holders[u].hand.Gone?
    ensures Gots(w.store.deeds) == Total(w.holders, AllNeeded(p, w.holders))
    ensures Puts(w.store.deeds) == Total(w.holders, AllDone(p, w.holders))
  {
    PoolAccount(p, moves, w);
    NothingPending(p, w.holders);
  }

  lemma NothingPending(p: L.Pipeline, holders: map<Name, Holder>)
    requires forall u | u in holders :: holders[u].hand.Gone? || holders[u].hand.Waiting?
    ensures Total(holders, AllToMake(p, holders)) == 0 && Total(holders, AllToPut(holders)) == 0
  {
    Laws.SumOfNothing(holders.Keys, AllToMake(p, holders));
    Laws.SumOfNothing(holders.Keys, AllToPut(holders));
  }

  /** An output that leaves puts its buffer back exactly if its final flush does not keep it. */
  lemma BufferGivenUp(p: L.Pipeline, u: Name, st: Store, h: Holder, m: Move)
    requires Shape(p, u, st, h) && L.Roles(p.graph) && u in p.graph.outputs && Act(p, u, st, h, m).Leave?
    ensures Act(p, u, st, h, m).h.buffer == [] <==> !m.keeps
  {
    ActCases(p, u, st, h, m);
    if m.step.Finish? {
      FinishGivesUp(p, u, st, h, m);
    } else {
      if !m.step.Send? { ReactCases(p, u, st, h, m); }
      assert m.step.Stop?;
      StopGivesUp(p, u, st, h, m);
    }
  }

  lemma FinishGivesUp(p: L.Pipeline, u: Name, st: Store, h: Holder, m: Move)
    requires Shape(p, u, st, h) && u in p.graph.outputs && FinishAct(p, u, st, h, m).Leave?
    ensures FinishAct(p, u, st, h, m).h.buffer == [] <==> !m.keeps
  {
  }

  lemma StopGivesUp(p: L.Pipeline, u: Name, st: Store, h: Holder, m: Move)
    requires Shape(p, u, st, h) && u in p.graph.outputs && u !in p.graph.filters && StopAct(p, u, st, h, m).Leave?
    ensures StopAct(p, u, st, h, m).h.buffer == [] <==> !m.keeps
  {
    AfterSenderBooked(p, u, st, h, p.sender(u).flush(SenderOf(st, h), true), [], true, m.first);
  }

  // ---------------------------------------------------------------------------------
  // Which batches these are

  /** For its first link a node keeps the batch that it has in hand, and for every further one it
      has a clone instead; what waits to be sent is another clone. Both are batches that nobody
      has held. */
  lemma PrepareClones(p: L.Pipeline, u: Name, st: Store, others: multiset<Id>, id: Id, next: nat, m: Move)
    requires Clean(st, others + multiset{id}) && next < |p.graph.Links(u)|
    ensures var hand := Prepare(p, u, st, id, next, m).1;
            && hand.Sharing? && |hand.clones| == 1 && hand.clones[0] != hand.id
            && hand.clones[0] != id && hand.clones[0] !in others
            && (if next == 0 then hand.id == id else hand.id != id && hand.id !in others)
  {
    var loose := others + multiset{id};
    if next == 0 {
      FillHandled(st, loose, st.At(id), m.third);
    } else {
      var (st1, source) := st.Clone(id, m.second);
      FillHandled(st, loose, st.At(id), m.second);
      FillHandled(st1, loose + multiset{source}, st1.At(source), m.third);
    }
  }

  /** A filter goes on with the batch that it received: it has rewritten that one in place. */
  lemma FilterKeepsBatch(p: L.Pipeline, u: Name, st: Store, h: Holder, m: Move)
    requires Ready(p, u, st, h) && u in p.graph.filters && h.hand.Waiting? && h.queue != []
    ensures var a := FilterReceive(p, u, st, h, m);
            && a.Become? && a.h.hand.Sharing? && a.h.hand.id == h.queue[0].id
            && a.st.At(h.queue[0].id)
               == Filters.Kept(p.filter(u), Flatten(L.Batches(h.received)), st.At(h.queue[0].id))
  {
    var id, rest := h.queue[0].id, Dequeue(st, h);
    var kept := Filters.Kept(p.filter(u), Flatten(L.Batches(h.received)), st.At(id));
    DequeueHolds(st, h);
    WriteHandled(st, Holds(h), id, kept);
    PrepareHandled(p, u, st.Write(id, kept), Holds(rest), id, 0, m);
  }

  /** The buffer of an output after an action is the one before, or none. */
  predicate KeepsBuffer(h: Holder, a: Action) {
    match a
    case Become(_, h1) => h1.buffer == h.buffer
    case Push(_, h1, _, _) => h1.buffer == h.buffer
    case Leave(_, h1) => h1.buffer == h.buffer || h1.buffer == []
    case _ => true
  }

  lemma InputKeepsBuffer(p: L.Pipeline, u: Name, st: Store, h: Holder, m: Move)
    ensures KeepsBuffer(h, InputAct(p, u, st, h, m))
    ensures KeepsBuffer(h, SendAct(p, u, st, h, m)) && KeepsBuffer(h, FinishAct(p, u, st, h, m))
  {
  }

  lemma OutputKeepsBuffer(p: L.Pipeline, u: Name, st: Store, h: Holder, m: Move)
    ensures KeepsBuffer(h, ReceiveAct(p, u, st, h, m)) && KeepsBuffer(h, TickAct(p, u, st, h, m))
    ensures KeepsBuffer(h, StopAct(p, u, st, h, m))
  {
  }

  lemma ActKeepsBuffer(p: L.Pipeline, u: Name, st: Store, h: Holder, m: Move)
    ensures KeepsBuffer(h, Act(p, u, st, h, m))
  {
    ActCases(p, u, st, h, m);
    InputKeepsBuffer(p, u, st, h, m);
    if !m.step.Send? && !m.step.Finish? && u !in p.graph.inputs {
      ReactCases(p, u, st, h, m);
      OutputKeepsBuffer(p, u, st, h, m);
    }
  }

  predicate OwnBuffers(p: L.Pipeline, holders: map<Name, Holder>) {
    forall u | u in holders && u in p.graph.outputs :: holders[u].buffer == [First(u)] || holders[u].buffer == []
  }

  lemma StillOwnBuffers(p: L.Pipeline, holders: map<Name, Holder>, after: map<Name, Holder>, u: Name, h: Holder)
    requires OwnBuffers(p, holders) && OnlyBooks(holders, after, u, h)
    requires h.buffer == holders[u].buffer || h.buffer == []
    ensures OwnBuffers(p, after)
  {
  }

  lemma PerformKeepsBuffers(p: L.Pipeline, w: World, u: Name, a: Action)
    requires OwnBuffers(p, w.holders) && u in w.holders && KeepsBuffer(w.holders[u], a) && Perform(p, w, u, a).Ok?
    ensures OwnBuffers(p, Perform(p, w, u, a).world.holders)
  {
    var after := Perform(p, w, u, a).world.holders;
    match a
    case Become(st, h) => StillOwnBuffers(p, w.holders, after, u, h);
    case Push(st, h, v, id) =>
      DeliveredBooks(w, u, st, h, v, id);
      StillOwnBuffers(p, w.holders, after, u, h);
    case Leave(st, h) =>
      ClosedBooks(w.holders, u, h.(hand := Gone), p.graph.Closable(w.exited + {u}, u));
      StillOwnBuffers(p, w.holders, after, u, h.(hand := Gone));
    case _ =>
  }

  lemma MoveKeepsBuffers(p: L.Pipeline, w: World, m: Move)
    requires OwnBuffers(p, w.holders) && Apply(p, w, m).Ok?
    ensures OwnBuffers(p, Apply(p, w, m).world.holders)
  {
    var u := m.step.n;
    ActKeepsBuffer(p, u, w.store, w.holders[u], m);
    PerformKeepsBuffers(p, w, u, Act(p, u, w.store, w.holders[u], m));
  }

  lemma {:induction false} RunKeepsBuffers(p: L.Pipeline, w: World, moves: seq<Move>)
    requires OwnBuffers(p, w.holders) && Run(p, w, moves).Ok?
    ensures OwnBuffers(p, Run(p, w, moves).world.holders)
    decreases |moves|
  {
    if moves != [] {
      Laws.RunUnfolds(p, w, moves);
      MoveKeepsBuffers(p, w, moves[0]);
      RunKeepsBuffers(p, Apply(p, w, moves[0]).world, moves[1..]);
    }
  }

  /** An output keeps the buffer with which it started, whatever it forwards and whatever it puts
      back, until it gives it up. */
  lemma BufferStays(p: L.Pipeline, moves: seq<Move>, w: World, u: Name)
    requires L.Safe(p) && Laws.Reaches(p, moves, w) && u in w.holders && u in p.graph.outputs
    ensures w.holders[u].buffer == [First(u)] || (w.holders[u].hand.Gone? && w.holders[u].buffer == [])
  {
    Laws.InitOwned(p);
    RunKeepsBuffers(p, Init(p), moves);
    Laws.RunAgrees(p, Init(p), moves);
    assert Shape(p, u, w.store, w.holders[u]);
  }
}
