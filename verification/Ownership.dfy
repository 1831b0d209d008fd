/** The running pipeline once more, now with batches that are objects: channels and nodes hold
    identities, the messages are in the store, filters rewrite them in place, and outputs put
    batches back into the pool, from where they are taken again. `OwnershipLaws` proves that
    this does what `Lifecycle` says. */
module Ownership {
  import opened Messages
  import opened SenderModel
  import opened Topology
  import opened BatchStore
  import L = Lifecycle
  import Filters

  datatype Slot = Slot(src: Name, id: Id)

  /** What a node has in its hands: nothing, while it waits; the batch that it shares among its
      links, as an input or a filter, with the clone that waits to be sent to the next of them;
      or, as an output, the clone of its buffer that waits to be forwarded, or has just been,
      and the batch that it is queueing (`taken`), whose messages from number `rest` on it will
      then append to its buffer. */
  datatype Hand =
    | Waiting
    | Sharing(id: Id, clones: seq<Id>, next: nat)
    | Diverting(clone: Id, taken: seq<Id>, rest: nat, last: bool)
    | Diverted(taken: seq<Id>, rest: nat, last: bool)
    | Gone

  /** A node with its channel and, if it is an output, its buffer. (The messages in the buffer
      are in the store; those in `sender` do not count.) */
  datatype Holder = Holder(
    hand: Hand, queue: seq<Slot>, buffer: seq<Id>, closed: bool, cancelled: bool,
    received: seq<L.Entry>, produced: seq<Batch>, sender: SenderState)

  datatype World = World(store: Store, holders: map<Name, Holder>, exited: set<Name>)

  /** A step, and what is left to chance in it: which batches the pool hands out, and whether
      the final flush keeps the buffer. (It does if it is throttled, and otherwise puts it
      back into the pool.) */
  datatype Move = Move(step: L.Step, first: nat, second: nat, third: nat, keeps: bool)

  datatype Result = Blocked | Panic | Ok(world: World)

  datatype Action =
    | None
    | Crash
    | Become(st: Store, h: Holder)
    | Push(st: Store, h: Holder, to: Name, id: Id)
    | Leave(st: Store, h: Holder)

  // ---------------------------------------------------------------------------------
  // Reading the store

  function ReadQueue(st: Store, queue: seq<Slot>): (r: seq<L.Entry>)
    ensures |r| == |queue| && forall i | 0 <= i < |r| :: r[i] == L.Entry(queue[i].src, st.At(queue[i].id))
  {
    seq(|queue|, i requires 0 <= i < |queue| => L.Entry(queue[i].src, st.At(queue[i].id)))
  }

  function From(batch: Batch, n: nat): Batch {
    if n <= |batch| then batch[n..] else []
  }

  /** The messages of the batch that is being queued, if there is one. */
  function Taken(st: Store, taken: seq<Id>): Batch {
    if taken == [] then [] else st.At(taken[0])
  }

  /** What will be appended to the buffer when forwarding is done. */
  function Pending(st: Store, hand: Hand): Batch {
    match hand
    case Diverting(_, taken, rest, _) => From(Taken(st, taken), rest)
    case Diverted(taken, rest, _) => From(Taken(st, taken), rest)
    case _ => []
  }

  function InBuffer(st: Store, h: Holder): Batch {
    if h.buffer == [] then [] else st.At(h.buffer[0])
  }

  /** The messages in the buffer, and those that follow them. */
  function ReadBuffer(st: Store, h: Holder): Batch {
    InBuffer(st, h) + Pending(st, h.hand)
  }

  /** A clone that was forwarded is no longer in the hands of the output; nobody will look at
      its messages there again, so those on record do. */
  function ReadPhase(st: Store, h: Holder): L.Phase {
    match h.hand
    case Waiting => L.Idle
    case Sharing(id, _, next) => L.Sending(st.At(id), next, false)
    case Diverting(clone, _, _, last) => L.Sending(st.At(clone), 0, last)
    case Diverted(_, _, last) => L.Sending(if h.produced == [] then [] else h.produced[|h.produced| - 1], 1, last)
    case Gone => L.Exited
  }

  function Read(st: Store, h: Holder): L.Node {
    L.Node(ReadPhase(st, h), h.received, ReadQueue(st, h.queue), h.closed, h.produced,
           h.sender.(buffer := ReadBuffer(st, h)), h.cancelled)
  }

  /** The pipeline that one sees by looking through the identities. */
  function Seen(w: World): L.State {
    L.State(map u | u in w.holders :: Read(w.store, w.holders[u]), w.exited)
  }

  // ---------------------------------------------------------------------------------
  // What a node does in a step

  /** Batch `id` is in hand, and its turn to go to link `next` has come: if there is such a
      link, a clone is made for it, after the batch in hand was replaced by another clone if
      it is not the first link. */
  function Prepare(p: L.Pipeline, u: Name, st: Store, id: Id, next: nat, m: Move): (Store, Hand) {
    if next >= |p.graph.Links(u)| then (st, Sharing(id, [], next))
    else
      var (st1, source, copy) := st.Share(id, next >= 1, m.second, m.third);
      (st1, Sharing(source, [copy], next))
  }

  function InputAct(p: L.Pipeline, u: Name, st: Store, h: Holder, m: Move): Action {
    match m.step
    case Kill(_) => if h.cancelled || h.hand.Gone? then None else Become(st, h.(cancelled := true))
    case Emit(_, batch) =>
      if h.hand.Waiting? && |batch| <= p.size(u) then
        var (st1, id) := st.Fill(batch, m.first);
        var (st2, hand) := Prepare(p, u, st1, id, 0, m);
        Become(st2, h.(hand := hand, produced := h.produced + [batch]))
      else None
    case EmitNothing(_) =>
      if !h.hand.Waiting? then None else if h.cancelled then Leave(st, h) else Become(st, h)
    case _ => None
  }

  function Dequeue(st: Store, h: Holder): Holder
    requires h.queue != []
  {
    h.(queue := h.queue[1..], received := h.received + [L.Entry(h.queue[0].src, st.At(h.queue[0].id))])
  }

  /** A filter rewrites the batch in place. */
  function FilterReceive(p: L.Pipeline, u: Name, st: Store, h: Holder, m: Move): Action
    requires h.queue != []
  {
    var id := h.queue[0].id;
    var kept := Filters.Kept(p.filter(u), Flatten(L.Batches(h.received)), st.At(id));
    var (st1, hand) := Prepare(p, u, st.Write(id, kept), id, 0, m);
    Become(st1, Dequeue(st, h).(hand := hand, produced := h.produced + [kept]))
  }

  function WriteBuffer(st: Store, h: Holder, batch: Batch): Store {
    if h.buffer == [] then st else st.Write(h.buffer[0], batch)
  }

  predicate HasSettled(h: Holder, t: SenderState) {
    |t.settled| > |h.sender.settled|
  }

  predicate Forwards(h: Holder, t: SenderState) {
    HasSettled(h, t) && t.settled[|t.settled| - 1].outcome.Forwarded?
  }

  /** How many messages the sender has settled on its way to `t`. */
  function SettledNow(h: Holder, t: SenderState): nat {
    if HasSettled(h, t) then |t.settled[|t.settled| - 1].batch| else 0
  }

  /** The buffer is filled up to `n` messages, is cloned, and keeps what was not among them. */
  function Divert(st: Store, h: Holder, taken: seq<Id>, n: nat, choice: nat): (Store, Id)
    requires h.buffer != []
  {
    var held := InBuffer(st, h);
    var all := held + Taken(st, taken);
    var filled := st.Write(h.buffer[0], if n <= |all| then all[..n] else all);
    var (st1, clone) := filled.Clone(h.buffer[0], choice);
    (st1.Write(h.buffer[0], From(held, n)), clone)
  }

  /** The sender of an output has decided to become `t`. If it forwards a block, a clone of the
      buffer with that block is made, which waits to be sent, and the batch that is being
      queued stays in hand; if not, what is not settled is in the buffer, and that batch is put
      back. */
  function AfterSender(st: Store, h: Holder, t: SenderState, taken: seq<Id>, last: bool, choice: nat): (Store, Holder) {
    var n := SettledNow(h, t);
    var held := InBuffer(st, h);
    var after := h.(sender := t.(buffer := []));
    if Forwards(h, t) && h.buffer != [] then
      var (st1, clone) := Divert(st, h, taken, n, choice);
      var rest := if n <= |held| then 0 else n - |held|;
      (st1, after.(hand := Diverting(clone, taken, rest, last), produced := h.produced + [st1.At(clone)]))
    else
      (WriteBuffer(st, h, From(held + Taken(st, taken), n)).PutAll(taken), after.(hand := Waiting))
  }

  function SenderOf(st: Store, h: Holder): SenderState {
    h.sender.(buffer := ReadBuffer(st, h))
  }

  function OutputReceive(p: L.Pipeline, u: Name, st: Store, h: Holder, choice: nat): Action
    requires h.queue != []
  {
    var id := h.queue[0].id;
    var t := p.sender(u).queue(SenderOf(st, h), st.At(id));
    var (st1, h1) := AfterSender(st, Dequeue(st, h), t, [id], false, choice);
    Become(st1, h1)
  }

  function ReceiveAct(p: L.Pipeline, u: Name, st: Store, h: Holder, m: Move): Action {
    if !h.hand.Waiting? || h.queue == [] then None
    else if u in p.graph.filters then FilterReceive(p, u, st, h, m)
    else if |st.At(h.queue[0].id)| > p.size(u) then Crash
    else OutputReceive(p, u, st, h, m.first)
  }

  /** The clone that waits is sent; then the next is made. */
  function ShareAct(p: L.Pipeline, u: Name, st: Store, h: Holder, m: Move): Action
    requires h.hand.Sharing?
  {
    var links := p.graph.Links(u);
    var next := h.hand.next;
    if next >= |links| || h.hand.clones == [] then None
    else
      var (st1, hand) := Prepare(p, u, st, h.hand.id, next + 1, m);
      Push(st1, h.(hand := hand), links[next].to, h.hand.clones[0])
  }

  function SendAct(p: L.Pipeline, u: Name, st: Store, h: Holder, m: Move): Action {
    match h.hand
    case Sharing(_, _, _) => ShareAct(p, u, st, h, m)
    case Diverting(clone, taken, rest, last) =>
      if p.graph.Links(u) == [] then None
      else Push(st, h.(hand := Diverted(taken, rest, last)), p.graph.Links(u)[0].to, clone)
    case _ => None
  }

  function PutBuffer(st: Store, h: Holder, keeps: bool): (Store, Holder) {
    if keeps then (st, h) else (st.PutAll(h.buffer), h.(buffer := []))
  }

  /** When forwarding is done, the rest of the batch that is being queued goes into the buffer,
      and the batch is put back. */
  function Requeue(st: Store, h: Holder): (Store, Holder)
    requires h.hand.Diverted?
  {
    (WriteBuffer(st, h, ReadBuffer(st, h)).PutAll(h.hand.taken), h.(hand := Waiting))
  }

  function DivertedAct(st: Store, h: Holder, m: Move): Action
    requires h.hand.Diverted?
  {
    var (st1, h1) := Requeue(st, h);
    if h.hand.last || h.cancelled then
      var (st2, h2) := PutBuffer(st1, h1, m.keeps);
      Leave(st2, h2)
    else Become(st1, h1)
  }

  function FinishAct(p: L.Pipeline, u: Name, st: Store, h: Holder, m: Move): Action {
    match h.hand
    case Sharing(_, _, next) =>
      if next < |p.graph.Links(u)| then None
      else if h.cancelled then Leave(st, h)
      else Become(st, h.(hand := Waiting))
    case Diverted(_, _, _) => DivertedAct(st, h, m)
    case _ => None
  }

  function TickAct(p: L.Pipeline, u: Name, st: Store, h: Holder, m: Move): Action {
    if u in p.graph.outputs && h.hand.Waiting? then
      var (st1, h1) := AfterSender(st, h, p.sender(u).flush(SenderOf(st, h), false), [], false, m.first);
      Become(st1, h1)
    else None
  }

  function StopAct(p: L.Pipeline, u: Name, st: Store, h: Holder, m: Move): Action {
    if !h.hand.Waiting? || h.queue != [] || !h.closed then None
    else if u in p.graph.filters then Leave(st, h)
    else
      var (st1, h1) := AfterSender(st, h, p.sender(u).flush(SenderOf(st, h), true), [], true, m.first);
      if h1.hand.Diverting? then Become(st1, h1)
      else
        var (st2, h2) := PutBuffer(st1, h1, m.keeps);
        Leave(st2, h2)
  }

  function Act(p: L.Pipeline, u: Name, st: Store, h: Holder, m: Move): Action {
    match m.step
    case Send(_) => SendAct(p, u, st, h, m)
    case Finish(_) => FinishAct(p, u, st, h, m)
    case _ =>
      if u in p.graph.inputs then InputAct(p, u, st, h, m)
      else
        match m.step
        case Receive(_) => ReceiveAct(p, u, st, h, m)
        case Tick(_) => TickAct(p, u, st, h, m)
        case Stop(_) => StopAct(p, u, st, h, m)
        case _ => None
  }

  // ---------------------------------------------------------------------------------
  // What that does to the pipeline

  function ClosedFlags(holders: map<Name, Holder>): map<Name, bool> {
    map v | v in holders :: holders[v].closed
  }

  function CloseAll(holders: map<Name, Holder>, closing: set<Name>): map<Name, Holder> {
    map v | v in holders :: if v in closing then holders[v].(closed := true) else holders[v]
  }

  function Exit(p: L.Pipeline, w: World, u: Name, st: Store, h: Holder): Result {
    var exited := w.exited + {u};
    if p.graph.DoubleClose(ClosedFlags(w.holders), exited, u) then Panic
    else Ok(World(st, CloseAll(w.holders[u := h.(hand := Gone)], p.graph.Closable(exited, u)), exited))
  }

  function Deliver(w: World, u: Name, st: Store, h: Holder, v: Name, id: Id): World
    requires v in w.holders
  {
    var moved := w.holders[u := h];
    World(st, moved[v := moved[v].(queue := moved[v].queue + [Slot(u, id)])], w.exited)
  }

  function Transmit(w: World, u: Name, st: Store, h: Holder, v: Name, id: Id): Result {
    if v !in w.holders then Blocked
    else if w.holders[v].closed then Panic
    else if |w.holders[v].queue| >= L.CHANNEL_CAPACITY then Blocked
    else Ok(Deliver(w, u, st, h, v, id))
  }

  function Perform(p: L.Pipeline, w: World, u: Name, a: Action): Result {
    match a
    case None => Blocked
    case Crash => Panic
    case Become(st, h) => Ok(World(st, w.holders[u := h], w.exited))
    case Push(st, h, v, id) => Transmit(w, u, st, h, v, id)
    case Leave(st, h) => Exit(p, w, u, st, h)
  }

  function Apply(p: L.Pipeline, w: World, m: Move): Result {
    var u := m.step.n;
    if u in w.holders then Perform(p, w, u, Act(p, u, w.store, w.holders[u], m)) else Blocked
  }

  function Run(p: L.Pipeline, w: World, moves: seq<Move>): Result
    decreases |moves|
  {
    if moves == [] then Ok(w)
    else
      match Apply(p, w, moves[0])
      case Ok(t) => Run(p, t, moves[1..])
      case r => r
  }

  /** Every output starts with a buffer of its own. */
  function Start(p: L.Pipeline, u: Name): Holder {
    if u in p.graph.outputs then
      Holder(Waiting, [], [First(u)], false, false, [], [], p.sender(u).start.(buffer := []))
    else
      Holder(Waiting, [], [], false, false, [], [], L.NO_SENDER)
  }

  function Init(p: L.Pipeline): World {
    World(Store(map[], [], 0, []), map u | u in p.graph.Nodes() :: Start(p, u), {})
  }
}
