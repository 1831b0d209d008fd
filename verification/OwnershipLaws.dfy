/** In every run, every batch is in one place at most, none is put back twice, and what one sees
    through the identities is a run of `Lifecycle`. */
module OwnershipLaws {
  import opened Topology
  import opened BatchStore
  import opened Ownership
  import opened OwnershipNodes
  import opened Sums
  import L = Lifecycle
  import Safety = LifecycleSafety

  /** In how many of the nodes' hands `id` is, node by node. */
  function Shares(holders: map<Name, Holder>, id: Id): map<Name, nat> {
    map u | u in holders :: Holds(holders[u])[id]
  }

  ghost function HeldCount(holders: map<Name, Holder>, id: Id): nat {
    Sum(holders.Keys, Shares(holders, id))
  }

  /** In how many places `id` is: in the pool, in channels, hands and buffers. */
  ghost function Places(w: World, id: Id): nat {
    multiset(w.store.free)[id] + HeldCount(w.holders, id)
  }

  ghost predicate Distinct(w: World) {
    && (forall id :: Places(w, id) <= if NotMade(w.store, id) then 0 else 1)
    && Ledger(w.store)
  }

  predicate Shapes(p: L.Pipeline, w: World) {
    forall u | u in w.holders :: Shape(p, u, w.store, w.holders[u])
  }

  ghost predicate Owned(p: L.Pipeline, w: World) {
    Distinct(w) && Shapes(p, w) && Safety.Control(p, Seen(w))
  }

  // ---------------------------------------------------------------------------------
  // One node among the others

  lemma HeldAtLeast(holders: map<Name, Holder>, u: Name, id: Id)
    requires u in holders
    ensures Holds(holders[u])[id] <= HeldCount(holders, id)
  {
    SumSplit(holders.Keys, Shares(holders, id), u);
  }

  lemma HeldByTwo(holders: map<Name, Holder>, u: Name, v: Name, id: Id)
    requires u in holders && v in holders && u != v
    ensures Holds(holders[u])[id] + Holds(holders[v])[id] <= HeldCount(holders, id)
  {
    SumSplit(holders.Keys, Shares(holders, id), u);
    SumSplit(holders.Keys - {u}, Shares(holders, id), v);
  }

  lemma NodeClean(w: World, u: Name)
    requires Distinct(w) && u in w.holders
    ensures Clean(w.store, Holds(w.holders[u]))
  {
    forall id ensures Uses(w.store, Holds(w.holders[u]), id) <= if NotMade(w.store, id) then 0 else 1 {
      HeldAtLeast(w.holders, u, id);
      assert Places(w, id) <= if NotMade(w.store, id) then 0 else 1;
    }
  }

  lemma NodeReady(p: L.Pipeline, w: World, u: Name)
    requires L.Safe(p) && Owned(p, w) && u in w.holders
    ensures Ready(p, u, w.store, w.holders[u])
  {
    NodeClean(w, u);
    assert Seen(w).nodes[u] == Read(w.store, w.holders[u]);
    assert L.NodeOk(p, u) && Safety.Sound(p, u, Seen(w).nodes[u]);
  }

  /** What a node handles is not what others hold. */
  lemma OthersSame(p: L.Pipeline, w: World, u: Name, st: Store, kept: multiset<Id>, v: Name)
    requires Distinct(w) && u in w.holders && v in w.holders && u != v
    requires Handled(w.store, Holds(w.holders[u]), st, kept)
    ensures Read(st, w.holders[v]) == Read(w.store, w.holders[v])
    ensures Shape(p, v, w.store, w.holders[v]) ==> Shape(p, v, st, w.holders[v])
  {
    forall id | id in Holds(w.holders[v]) ensures st.At(id) == w.store.At(id) {
      HeldByTwo(w.holders, u, v, id);
      assert Places(w, id) <= if NotMade(w.store, id) then 0 else 1;
      assert Uses(w.store, Holds(w.holders[u]), id) == 0;
    }
    SameRead(p, v, w.store, st, w.holders[v]);
  }

  // ---------------------------------------------------------------------------------
  // What a step does to the places

  /** If every batch moved only as it was handled, batches stay distinct. */
  lemma StaysDistinct(w: World, u: Name, t: World, kept: multiset<Id>)
    requires Distinct(w) && u in w.holders && Handled(w.store, Holds(w.holders[u]), t.store, kept)
    requires forall id ::
      HeldCount(t.holders, id) + Holds(w.holders[u])[id] == HeldCount(w.holders, id) + kept[id]
    ensures Distinct(t)
  {
    forall id ensures Places(t, id) <= if NotMade(t.store, id) then 0 else 1 {
      assert Places(w, id) <= if NotMade(w.store, id) then 0 else 1;
      assert HeldCount(t.holders, id) + Holds(w.holders[u])[id] == HeldCount(w.holders, id) + kept[id];
      assert Uses(t.store, kept, id) <= Uses(w.store, Holds(w.holders[u]), id)
                                        + if NotMade(w.store, id) && !NotMade(t.store, id) then 1 else 0;
    }
  }

  lemma CountAfterChange(holders: map<Name, Holder>, u: Name, h: Holder, id: Id)
    requires u in holders
    ensures HeldCount(holders[u := h], id) + Holds(holders[u])[id] == HeldCount(holders, id) + Holds(h)[id]
  {
    var after := holders[u := h];
    assert after.Keys == holders.Keys;
    SumChange(holders.Keys, Shares(holders, id), Shares(after, id), u);
  }

  lemma SlotHolds(h: Holder, slot: Slot)
    ensures Holds(h.(queue := h.queue + [slot])) == Holds(h) + multiset{slot.id}
  {
    assert QueueIds(h.queue + [slot]) == QueueIds(h.queue) + [slot.id];
  }

  lemma CountAfterSend(w: World, u: Name, st: Store, h: Holder, v: Name, sent: Id, id: Id)
    requires u in w.holders && v in w.holders && u != v
    ensures HeldCount(Deliver(w, u, st, h, v, sent).holders, id) + Holds(w.holders[u])[id]
         == HeldCount(w.holders, id) + (Holds(h) + multiset{sent})[id]
  {
    var moved := w.holders[u := h];
    SlotHolds(w.holders[v], Slot(u, sent));
    CountAfterChange(w.holders, u, h, id);
    CountAfterChange(moved, v, moved[v].(queue := moved[v].queue + [Slot(u, sent)]), id);
  }

  lemma CountAfterClosing(holders: map<Name, Holder>, closing: set<Name>, id: Id)
    ensures HeldCount(CloseAll(holders, closing), id) == HeldCount(holders, id)
  {
    var after := CloseAll(holders, closing);
    assert after.Keys == holders.Keys;
    forall u | u in holders ensures Holds(after[u]) == Holds(holders[u]) {}
    SumAgrees(holders.Keys, Shares(after, id), Shares(holders, id));
  }

  // ---------------------------------------------------------------------------------
  // What a step shows

  /** The result of a step, and of the step that one sees. */
  ghost predicate Agrees(p: L.Pipeline, r: Result, seen: L.Result) {
    match r
    case Blocked => seen.Blocked?
    case Panic => seen.Panic?
    case Ok(w) => seen == L.Ok(Seen(w)) && Distinct(w) && Shapes(p, w)
  }

  /** In `st` the other nodes look as they did. */
  ghost predicate Undisturbed(p: L.Pipeline, w: World, u: Name, st: Store) {
    forall v | v in w.holders && v != u ::
      Read(st, w.holders[v]) == Read(w.store, w.holders[v]) && Shape(p, v, st, w.holders[v])
  }

  lemma OthersUndisturbed(p: L.Pipeline, w: World, u: Name, st: Store, kept: multiset<Id>)
    requires Distinct(w) && Shapes(p, w) && u in w.holders
    requires Handled(w.store, Holds(w.holders[u]), st, kept)
    ensures Undisturbed(p, w, u, st)
  {
    forall v | v in w.holders && v != u
      ensures Read(st, w.holders[v]) == Read(w.store, w.holders[v]) && Shape(p, v, st, w.holders[v])
    {
      OthersSame(p, w, u, st, kept, v);
    }
  }

  lemma BecomeShapes(p: L.Pipeline, w: World, u: Name, st: Store, h: Holder)
    requires Undisturbed(p, w, u, st) && Shape(p, u, st, h) && u in w.holders
    ensures Shapes(p, World(st, w.holders[u := h], w.exited))
  {
    var t := World(st, w.holders[u := h], w.exited);
    forall v | v in t.holders ensures Shape(p, v, st, t.holders[v]) {}
  }

  lemma NodeSeen(w: World, v: Name)
    requires v in w.holders
    ensures v in Seen(w).nodes && Seen(w).nodes[v] == Read(w.store, w.holders[v])
  {
  }

  lemma BecomeReads(p: L.Pipeline, w: World, u: Name, st: Store, h: Holder, v: Name)
    requires Undisturbed(p, w, u, st) && u in w.holders && v in w.holders
    ensures Seen(World(st, w.holders[u := h], w.exited)).nodes[v] == Seen(w).nodes[u := Read(st, h)][v]
  {
    NodeSeen(w, v);
    NodeSeen(World(st, w.holders[u := h], w.exited), v);
  }

  /** Pipelines look the same if their nodes do. */
  lemma SameSeen(a: map<Name, L.Node>, b: map<Name, L.Node>)
    requires a.Keys == b.Keys && forall v | v in a :: a[v] == b[v]
    ensures a == b
  {
  }

  lemma BecomeShows(p: L.Pipeline, w: World, u: Name, st: Store, h: Holder)
    requires Undisturbed(p, w, u, st) && u in w.holders
    ensures Seen(World(st, w.holders[u := h], w.exited)) == L.Update(Seen(w), u, Read(st, h))
  {
    var a, b := Seen(World(st, w.holders[u := h], w.exited)).nodes, Seen(w).nodes[u := Read(st, h)];
    forall v | v in a ensures a[v] == b[v] { BecomeReads(p, w, u, st, h, v); }
    SameSeen(a, b);
  }

  lemma BecomeSeen(p: L.Pipeline, w: World, u: Name, st: Store, h: Holder)
    requires Undisturbed(p, w, u, st) && Shape(p, u, st, h) && u in w.holders
    ensures var t := World(st, w.holders[u := h], w.exited);
            Shapes(p, t) && Seen(t) == L.Update(Seen(w), u, Read(st, h))
  {
    BecomeShapes(p, w, u, st, h);
    BecomeShows(p, w, u, st, h);
  }

  lemma BecomeDistinct(w: World, u: Name, st: Store, h: Holder)
    requires Distinct(w) && u in w.holders && Handled(w.store, Holds(w.holders[u]), st, Holds(h))
    ensures Distinct(World(st, w.holders[u := h], w.exited))
  {
    forall id { CountAfterChange(w.holders, u, h, id); }
    StaysDistinct(w, u, World(st, w.holders[u := h], w.exited), Holds(h));
  }

  lemma BecomeAgrees(p: L.Pipeline, w: World, u: Name, st: Store, h: Holder)
    requires Distinct(w) && Shapes(p, w) && u in w.holders
    requires Handled(w.store, Holds(w.holders[u]), st, Holds(h)) && Shape(p, u, st, h)
    ensures var t := World(st, w.holders[u := h], w.exited);
            Distinct(t) && Shapes(p, t) && Seen(t) == L.Update(Seen(w), u, Read(st, h))
  {
    OthersUndisturbed(p, w, u, st, Holds(h));
    BecomeDistinct(w, u, st, h);
    BecomeSeen(p, w, u, st, h);
  }

  lemma SlotReads(p: L.Pipeline, v: Name, st: Store, h: Holder, slot: Slot)
    ensures var after := h.(queue := h.queue + [slot]);
            && Read(st, after) == L.Enqueue(Read(st, h), L.Entry(slot.src, st.At(slot.id)))
            && (Shape(p, v, st, h) ==> Shape(p, v, st, after))
  {
    assert ReadQueue(st, h.queue + [slot]) == ReadQueue(st, h.queue) + [L.Entry(slot.src, st.At(slot.id))];
  }

  lemma DeliverSeen(p: L.Pipeline, w: World, u: Name, st: Store, h: Holder, v: Name, id: Id)
    requires Undisturbed(p, w, u, st) && Shape(p, u, st, h) && u in w.holders && v in w.holders && u != v
    ensures var t := Deliver(w, u, st, h, v, id);
            Shapes(p, t) && Seen(t) == L.Delivered(Seen(w), u, Read(st, h), v, st.At(id))
  {
    var t := Deliver(w, u, st, h, v, id);
    var moved := World(st, w.holders[u := h], w.exited);
    var slot := Slot(u, id);
    BecomeSeen(p, w, u, st, h);
    SlotReads(p, v, st, w.holders[v], slot);
    QueueSeen(p, moved, v, w.holders[v].(queue := w.holders[v].queue + [slot]));
  }

  /** A change to one node, with the store as it is. */
  lemma QueueSeen(p: L.Pipeline, w: World, v: Name, h: Holder)
    requires Shapes(p, w) && v in w.holders && Shape(p, v, w.store, h)
    ensures var t := World(w.store, w.holders[v := h], w.exited);
            Shapes(p, t) && Seen(t) == L.Update(Seen(w), v, Read(w.store, h))
  {
    var t := World(w.store, w.holders[v := h], w.exited);
    assert Seen(t).nodes == L.Update(Seen(w), v, Read(w.store, h)).nodes;
  }

  lemma DeliverDistinct(w: World, u: Name, st: Store, h: Holder, v: Name, id: Id)
    requires Distinct(w) && u in w.holders && v in w.holders && u != v
    requires Handled(w.store, Holds(w.holders[u]), st, Holds(h) + multiset{id})
    ensures Distinct(Deliver(w, u, st, h, v, id))
  {
    forall other { CountAfterSend(w, u, st, h, v, id, other); }
    StaysDistinct(w, u, Deliver(w, u, st, h, v, id), Holds(h) + multiset{id});
  }

  lemma DeliverAgrees(p: L.Pipeline, w: World, u: Name, st: Store, h: Holder, v: Name, id: Id)
    requires Distinct(w) && Shapes(p, w) && u in w.holders && v in w.holders && u != v
    requires Handled(w.store, Holds(w.holders[u]), st, Holds(h) + multiset{id}) && Shape(p, u, st, h)
    ensures var t := Deliver(w, u, st, h, v, id);
            Distinct(t) && Shapes(p, t) && Seen(t) == L.Delivered(Seen(w), u, Read(st, h), v, st.At(id))
  {
    OthersUndisturbed(p, w, u, st, Holds(h) + multiset{id});
    DeliverDistinct(w, u, st, h, v, id);
    DeliverSeen(p, w, u, st, h, v, id);
  }

  /** What a send does depends on the channel as one sees it. */
  lemma ChannelSeen(w: World, v: Name)
    requires v in w.holders
    ensures v in Seen(w).nodes && Seen(w).nodes[v].closed == w.holders[v].closed
    ensures |Seen(w).nodes[v].queue| == |w.holders[v].queue|
  {
  }

  lemma PushAgrees(p: L.Pipeline, w: World, u: Name, st: Store, h: Holder, v: Name, id: Id)
    requires Distinct(w) && Shapes(p, w) && u in w.holders && u != v
    requires Handled(w.store, Holds(w.holders[u]), st, Holds(h) + multiset{id}) && Shape(p, u, st, h)
    ensures Agrees(p, Transmit(w, u, st, h, v, id), L.Transmit(Seen(w), u, Read(st, h), v, st.At(id)))
  {
    if v !in w.holders {
      assert Seen(w).nodes.Keys == w.holders.Keys;
    } else {
      ChannelSeen(w, v);
      if !w.holders[v].closed && |w.holders[v].queue| < L.CHANNEL_CAPACITY { PushDelivers(p, w, u, st, h, v, id); }
    }
  }

  lemma PushDelivers(p: L.Pipeline, w: World, u: Name, st: Store, h: Holder, v: Name, id: Id)
    requires Distinct(w) && Shapes(p, w) && u in w.holders && u != v && v in w.holders
    requires Handled(w.store, Holds(w.holders[u]), st, Holds(h) + multiset{id}) && Shape(p, u, st, h)
    requires !w.holders[v].closed && |w.holders[v].queue| < L.CHANNEL_CAPACITY
    ensures Agrees(p, Transmit(w, u, st, h, v, id), L.Transmit(Seen(w), u, Read(st, h), v, st.At(id)))
  {
    ChannelSeen(w, v);
    DeliverAgrees(p, w, u, st, h, v, id);
    var t := Deliver(w, u, st, h, v, id);
    assert Transmit(w, u, st, h, v, id) == Ok(t);
    assert L.Transmit(Seen(w), u, Read(st, h), v, st.At(id)) == L.Ok(Seen(t));
  }

  lemma ClosingDistinct(w: World, closing: set<Name>, exited: set<Name>)
    requires Distinct(w)
    ensures Distinct(World(w.store, CloseAll(w.holders, closing), exited))
  {
    var t := World(w.store, CloseAll(w.holders, closing), exited);
    forall id ensures Places(t, id) == Places(w, id) { CountAfterClosing(w.holders, closing, id); }
  }

  lemma ClosedReads(p: L.Pipeline, u: Name, st: Store, h: Holder)
    ensures Read(st, h.(closed := true)) == Read(st, h).(closed := true)
    ensures Shape(p, u, st, h) ==> Shape(p, u, st, h.(closed := true))
  {
  }

  /** Closing channels shows in nothing else. */
  lemma ClosingAgrees(p: L.Pipeline, w: World, closing: set<Name>, exited: set<Name>)
    requires Distinct(w) && Shapes(p, w)
    ensures var t := World(w.store, CloseAll(w.holders, closing), exited);
            Distinct(t) && Shapes(p, t) && Seen(t) == L.State(L.CloseAll(Seen(w).nodes, closing), exited)
  {
    var t := World(w.store, CloseAll(w.holders, closing), exited);
    ClosingDistinct(w, closing, exited);
    forall u | u in w.holders
      ensures Read(w.store, t.holders[u]) == L.CloseAll(Seen(w).nodes, closing)[u] && Shape(p, u, w.store, t.holders[u])
    {
      ClosedReads(p, u, w.store, w.holders[u]);
    }
    assert Seen(t).nodes == L.CloseAll(Seen(w).nodes, closing);
  }

  lemma FlagsSeen(w: World)
    ensures ClosedFlags(w.holders) == L.ClosedFlags(Seen(w).nodes)
  {
  }

  /** `u` is gone, and channels are closed. */
  lemma GoneAgrees(p: L.Pipeline, w: World, u: Name, st: Store, gone: Holder, closing: set<Name>, exited: set<Name>)
    requires Distinct(w) && Shapes(p, w) && u in w.holders
    requires Handled(w.store, Holds(w.holders[u]), st, Holds(gone)) && Shape(p, u, st, gone)
    ensures var t := World(st, CloseAll(w.holders[u := gone], closing), exited);
            && Distinct(t) && Shapes(p, t)
            && Seen(t) == L.State(L.CloseAll(Seen(w).nodes[u := Read(st, gone)], closing), exited)
  {
    BecomeAgrees(p, w, u, st, gone);
    ClosingAgrees(p, World(st, w.holders[u := gone], w.exited), closing, exited);
  }

  lemma LeaveAgrees(p: L.Pipeline, w: World, u: Name, st: Store, h: Holder, n: L.Node)
    requires Distinct(w) && Shapes(p, w) && u in w.holders
    requires var gone := h.(hand := Gone);
             && Handled(w.store, Holds(w.holders[u]), st, Holds(gone)) && Shape(p, u, st, gone)
             && n.(phase := L.Exited) == Read(st, gone)
    ensures Agrees(p, Exit(p, w, u, st, h), L.Exit(p, Seen(w), u, n))
  {
    var exited := w.exited + {u};
    FlagsSeen(w);
    if !p.graph.DoubleClose(ClosedFlags(w.holders), exited, u) {
      GoneAgrees(p, w, u, st, h.(hand := Gone), p.graph.Closable(exited, u), exited);
    }
  }

  lemma PerformAgrees(p: L.Pipeline, w: World, u: Name, a: Action, seen: L.Action)
    requires Distinct(w) && Shapes(p, w) && u in w.holders
    requires Matches(p, u, w.store, w.holders[u], a, seen) && (a.Push? ==> a.to != u)
    ensures Agrees(p, Perform(p, w, u, a), L.Perform(p, Seen(w), u, seen))
  {
    match a
    case None =>
    case Crash =>
    case Become(st, h) => BecomeAgrees(p, w, u, st, h);
    case Push(st, h, v, id) => PushAgrees(p, w, u, st, h, v, id);
    case Leave(st, h) => LeaveAgrees(p, w, u, st, h, seen.n);
  }

  /** A node sends nothing to itself. */
  lemma SendsElsewhere(p: L.Pipeline, u: Name, n: L.Node, step: L.Step)
    requires L.Safe(p) && u in p.graph.Nodes() && L.Act(p, u, n, step).Push?
    ensures L.Act(p, u, n, step).to != u
  {
    assert L.NodeOk(p, u) && L.LinkOk(p, u, p.graph.Links(u)[n.phase.next]);
  }

  /** Every move, whatever the pool hands out, does what `Lifecycle` says its step does to the
      messages: it blocks, panics or succeeds in the same cases, and every batch stays in one
      place at most. */
  lemma MoveAgrees(p: L.Pipeline, w: World, m: Move)
    requires L.Safe(p) && Owned(p, w)
    ensures Agrees(p, Apply(p, w, m), L.Apply(p, Seen(w), m.step))
    ensures Apply(p, w, m).Ok? ==> Owned(p, Apply(p, w, m).world)
  {
    var u := m.step.n;
    if u in w.holders {
      NodeReady(p, w, u);
      var a, seen := Act(p, u, w.store, w.holders[u], m), L.Act(p, u, Seen(w).nodes[u], m.step);
      ActMatches(p, u, w.store, w.holders[u], m);
      if a.Push? { SendsElsewhere(p, u, Seen(w).nodes[u], m.step); }
      PerformAgrees(p, w, u, a, seen);
      Safety.StepControl(p, Seen(w), m.step);
    }
  }

  // ---------------------------------------------------------------------------------
  // Over every run

  function StepsOf(moves: seq<Move>): (r: seq<L.Step>)
    ensures |r| == |moves| && forall i | 0 <= i < |r| :: r[i] == moves[i].step
  {
    seq(|moves|, i requires 0 <= i < |moves| => moves[i].step)
  }

  /** `r` is a result that agrees with what one sees, and if it is not a panic all is in order. */
  ghost predicate InOrder(p: L.Pipeline, r: Result, seen: L.Result) {
    Agrees(p, r, seen) && (r.Ok? ==> Owned(p, r.world))
  }

  lemma RunUnfolds(p: L.Pipeline, w: World, moves: seq<Move>)
    requires moves != []
    ensures var r := Apply(p, w, moves[0]);
            Run(p, w, moves) == if r.Ok? then Run(p, r.world, moves[1..]) else r
    ensures var q := L.Apply(p, Seen(w), moves[0].step);
            L.Run(p, Seen(w), StepsOf(moves)) == if q.Ok? then L.Run(p, q.state, StepsOf(moves[1..])) else q
  {
    assert StepsOf(moves)[0] == moves[0].step && StepsOf(moves)[1..] == StepsOf(moves[1..]);
  }

  lemma {:induction false} RunAgrees(p: L.Pipeline, w: World, moves: seq<Move>)
    requires L.Safe(p) && Owned(p, w)
    ensures InOrder(p, Run(p, w, moves), L.Run(p, Seen(w), StepsOf(moves)))
    decreases |moves|
  {
    if moves != [] {
      MoveAgrees(p, w, moves[0]);
      RunUnfolds(p, w, moves);
      var r := Apply(p, w, moves[0]);
      if r.Ok? { RunAgrees(p, r.world, moves[1..]); }
    }
  }

  lemma StartHolds(p: L.Pipeline, u: Name, id: Id)
    ensures Holds(Start(p, u))[id] == if u in p.graph.outputs && id == First(u) then 1 else 0
  {
  }

  lemma InitPlaces(p: L.Pipeline, id: Id)
    ensures Places(Init(p), id) <= if id.First? then 1 else 0
  {
    var holders := Init(p).holders;
    forall u | u in holders
      ensures Shares(holders, id)[u] == if u in p.graph.outputs && id == First(u) then 1 else 0
    {
      StartHolds(p, u, id);
    }
    if id.First? && id.owner in holders {
      SumSplit(holders.Keys, Shares(holders, id), id.owner);
      SumOfNothing(holders.Keys - {id.owner}, Shares(holders, id));
    } else {
      SumOfNothing(holders.Keys, Shares(holders, id));
    }
  }

  lemma {:induction false} SumOfNothing(keys: set<Name>, f: map<Name, nat>)
    requires keys <= f.Keys && forall k | k in keys :: f[k] == 0
    ensures Sum(keys, f) == 0
  {
    if keys != {} {
      var k :| k in keys;
      SumSplit(keys, f, k);
      SumOfNothing(keys - {k}, f);
    }
  }

  lemma InitDistinct(p: L.Pipeline)
    ensures Distinct(Init(p))
  {
    forall id { InitPlaces(p, id); }
  }

  lemma StartReads(p: L.Pipeline, u: Name)
    requires u in p.graph.outputs ==> p.sender(u).start.buffer == []
    ensures Read(Init(p).store, Start(p, u))
         == L.Node(L.Idle, [], [], false, [], if u in p.graph.outputs then p.sender(u).start else L.NO_SENDER, false)
    ensures Shape(p, u, Init(p).store, Start(p, u))
  {
  }

  lemma InitSeen(p: L.Pipeline)
    requires L.Safe(p)
    ensures Seen(Init(p)) == L.Init(p) && Shapes(p, Init(p))
  {
    forall u | u in p.graph.Nodes()
      ensures Read(Init(p).store, Start(p, u)) == L.Init(p).nodes[u] && Shape(p, u, Init(p).store, Start(p, u))
    {
      assert L.NodeOk(p, u);
      StartReads(p, u);
    }
    assert Seen(Init(p)).nodes == L.Init(p).nodes;
  }

  lemma InitOwned(p: L.Pipeline)
    requires L.Safe(p)
    ensures Owned(p, Init(p)) && Seen(Init(p)) == L.Init(p)
  {
    InitDistinct(p);
    InitSeen(p);
    Safety.InitControl(p);
  }

  ghost predicate Reaches(p: L.Pipeline, moves: seq<Move>, w: World) {
    Run(p, Init(p), moves) == Ok(w)
  }

  /** A run over batches is, seen through the identities, the run of `Lifecycle` over their
      messages: the one blocks, panics or succeeds exactly when the other does. So whatever is
      proved of the messages in `Lifecycle` holds of the messages of the batches. */
  lemma RunsAgree(p: L.Pipeline, moves: seq<Move>)
    requires L.Safe(p)
    ensures match Run(p, Init(p), moves)
            case Blocked => L.Run(p, L.Init(p), StepsOf(moves)).Blocked?
            case Panic => L.Run(p, L.Init(p), StepsOf(moves)).Panic?
            case Ok(w) => Safety.Reaches(p, StepsOf(moves), Seen(w))
  {
    InitOwned(p);
    RunAgrees(p, Init(p), moves);
  }

  /** The places where a batch can be. */
  datatype Place = InPool(k: nat) | InChannel(u: Name, k: nat) | InHand(u: Name, k: nat) | InBuffer(u: Name)

  predicate Occupied(w: World, a: Place) {
    match a
    case InPool(k) => k < |w.store.free|
    case InChannel(u, k) => u in w.holders && k < |w.holders[u].queue|
    case InHand(u, k) => u in w.holders && k < |HandIds(w.holders[u].hand)|
    case InBuffer(u) => u in w.holders && |w.holders[u].buffer| == 1
  }

  function BatchIn(w: World, a: Place): Id
    requires Occupied(w, a)
  {
    match a
    case InPool(k) => w.store.free[k]
    case InChannel(u, k) => w.holders[u].queue[k].id
    case InHand(u, k) => HandIds(w.holders[u].hand)[k]
    case InBuffer(u) => w.holders[u].buffer[0]
  }

  lemma TwiceInSequence(ids: seq<Id>, i: nat, j: nat)
    requires i < j < |ids| && ids[i] == ids[j]
    ensures multiset(ids)[ids[i]] >= 2
  {
    assert ids == ids[..j] + ids[j..];
    assert ids[..j][i] in multiset(ids[..j]) && ids[j..][0] in multiset(ids[j..]);
  }

  /** The batches of a node in a row: those in its channel, those in its hands, its buffer. */
  function Row(h: Holder): seq<Id> {
    QueueIds(h.queue) + HandIds(h.hand) + h.buffer
  }

  function Position(h: Holder, a: Place): nat {
    match a
    case InPool(k) => k
    case InChannel(_, k) => k
    case InHand(_, k) => |h.queue| + k
    case InBuffer(_) => |h.queue| + |HandIds(h.hand)|
  }

  lemma PlaceInRow(w: World, a: Place)
    requires Occupied(w, a) && !a.InPool?
    ensures var h := w.holders[a.u];
            Position(h, a) < |Row(h)| && Row(h)[Position(h, a)] == BatchIn(w, a) && multiset(Row(h)) == Holds(h)
  {
  }

  /** No batch is in two places: not twice in the pool, in channels, hands and buffers, nor in
      two of them. */
  lemma PlacesDiffer(w: World, a: Place, b: Place)
    requires Distinct(w) && Occupied(w, a) && Occupied(w, b) && a != b
    ensures BatchIn(w, a) != BatchIn(w, b)
  {
    var id := BatchIn(w, a);
    assert Places(w, id) <= 1;
    if BatchIn(w, b) == id {
      if a.InPool? && b.InPool? {
        TwiceInSequence(w.store.free, if a.k < b.k then a.k else b.k, if a.k < b.k then b.k else a.k);
      } else if a.InPool? || b.InPool? {
        var c := if a.InPool? then b else a;
        PlaceInRow(w, c);
        assert id in multiset(Row(w.holders[c.u])) && id in multiset(w.store.free);
        HeldAtLeast(w.holders, c.u, id);
      } else {
        NodePlacesDiffer(w, a, b);
      }
    }
  }

  lemma NodePlacesDiffer(w: World, a: Place, b: Place)
    requires Distinct(w) && Occupied(w, a) && Occupied(w, b) && a != b && !a.InPool? && !b.InPool?
    ensures BatchIn(w, a) != BatchIn(w, b)
  {
    var id := BatchIn(w, a);
    assert HeldCount(w.holders, id) <= 1 by { assert Places(w, id) <= 1; }
    PlaceInRow(w, a);
    PlaceInRow(w, b);
    if BatchIn(w, b) == id {
      if a.u != b.u {
        assert id in multiset(Row(w.holders[a.u])) && id in multiset(Row(w.holders[b.u]));
        HeldByTwo(w.holders, a.u, b.u, id);
      } else {
        TwiceInRow(w, a, b);
        HeldAtLeast(w.holders, a.u, id);
      }
    }
  }

  lemma TwiceInRow(w: World, a: Place, b: Place)
    requires Occupied(w, a) && Occupied(w, b) && a != b && !a.InPool? && !b.InPool? && a.u == b.u
    requires BatchIn(w, a) == BatchIn(w, b)
    ensures Holds(w.holders[a.u])[BatchIn(w, a)] >= 2
  {
    var h := w.holders[a.u];
    var i, j := Position(h, a), Position(h, b);
    PlaceInRow(w, a);
    PlaceInRow(w, b);
    TwiceInSequence(Row(h), if i < j then i else j, if i < j then j else i);
  }

  /** Batch ownership: in every reachable state all batches in the pool, in channels, in hands
      and in buffers are different. */
  lemma EveryBatchInOnePlace(p: L.Pipeline, moves: seq<Move>, w: World, a: Place, b: Place)
    requires L.Safe(p) && Reaches(p, moves, w) && Occupied(w, a) && Occupied(w, b) && a != b
    ensures BatchIn(w, a) != BatchIn(w, b)
  {
    InitOwned(p);
    RunAgrees(p, Init(p), moves);
    PlacesDiffer(w, a, b);
  }

  /** In no run is a batch put back a second time without having been taken from the pool in
      between. */
  lemma NeverPutBackTwice(p: L.Pipeline, moves: seq<Move>, w: World, i: nat, j: nat, id: Id)
    requires L.Safe(p) && Reaches(p, moves, w)
    requires var deeds := w.store.deeds; i < j < |deeds| && deeds[i] == Put(id) && deeds[j] == Put(id)
    ensures exists k | i < k < j :: w.store.deeds[k] == Got(id)
  {
    InitOwned(p);
    RunAgrees(p, Init(p), moves);
    PutAtMostOnce(w.store.deeds, i, j, id);
  }
}
