/** Batches as objects: their contents, the pool of free ones, and the record of what was taken
    from the pool and given back. */
module BatchStore {
  import opened Messages
  import opened Topology

  /** The identity of a batch: the first buffer of an output, or one that was made later. */
  datatype Id = First(owner: Name) | Made(number: nat)

  /** A batch was taken from the pool, or made because the pool had none; it was put back. */
  datatype Deed = Got(id: Id) | Put(id: Id)

  /** `heap` holds the messages of every batch; `free` are the batches in the pool. */
  datatype Store = Store(heap: map<Id, Batch>, free: seq<Id>, next: nat, deeds: seq<Deed>)
  {
    function At(id: Id): Batch {
      if id in heap then heap[id] else []
    }

    function Write(id: Id, batch: Batch): Store {
      this.(heap := heap[id := batch])
    }

    /** `sync.Pool.Get` returns any free batch or none: `choice` says which. */
    function Get(choice: nat): (Store, Id) {
      if choice < |free| then
        var id := free[choice];
        (this.(free := free[..choice] + free[choice + 1..], deeds := deeds + [Got(id)]), id)
      else
        (this.(next := next + 1, deeds := deeds + [Got(Made(next))]), Made(next))
    }

    /** A batch from the pool, filled with the messages of `batch`. */
    function Fill(batch: Batch, choice: nat): (Store, Id) {
      var (st, id) := Get(choice);
      (st.Write(id, batch), id)
    }

    function Clone(id: Id, choice: nat): (Store, Id) {
      Fill(At(id), choice)
    }

    /** One turn of the fan-out: from the second link on (`again`) the batch `id` in hand is
        replaced by a clone first; then another clone is made, to be sent. The results are the
        batch then in hand and the one to send. */
    function Share(id: Id, again: bool, first: nat, second: nat): (Store, Id, Id) {
      var (st1, source) := if again then Clone(id, first) else (this, id);
      var (st2, copy) := st1.Clone(source, second);
      (st2, source, copy)
    }

    function PutBack(id: Id): Store {
      this.(free := free + [id], deeds := deeds + [Put(id)])
    }

    function PutAll(ids: seq<Id>): Store
      decreases |ids|
    {
      if ids == [] then this else PutBack(ids[0]).PutAll(ids[1..])
    }
  }

  // ---------------------------------------------------------------------------------
  // Who has what

  /** Where `id` is: in the pool, or in the hands of somebody who holds `loose`. */
  function Uses(st: Store, loose: multiset<Id>, id: Id): nat {
    multiset(st.free)[id] + loose[id]
  }

  predicate NotMade(st: Store, id: Id) {
    id.Made? && id.number >= st.next
  }

  /** Was the last deed on `id` to put it back? */
  predicate LastPut(deeds: seq<Deed>, id: Id) {
    deeds != [] &&
    var last := deeds[|deeds| - 1];
    if last.id == id then last.Put? else LastPut(deeds[..|deeds| - 1], id)
  }

  /** No batch was put back that was in the pool. */
  ghost predicate NoDoublePut(deeds: seq<Deed>) {
    forall i | 0 <= i < |deeds| && deeds[i].Put? :: !LastPut(deeds[..i], deeds[i].id)
  }

  /** The record agrees with the pool. */
  ghost predicate Ledger(st: Store) {
    NoDoublePut(st.deeds) && forall id :: id in st.free <==> LastPut(st.deeds, id)
  }

  /** Every batch is in one place at most, and what was not made is nowhere. */
  ghost predicate Clean(st: Store, loose: multiset<Id>) {
    && (forall id :: Uses(st, loose, id) <= if NotMade(st, id) then 0 else 1)
    && Ledger(st)
  }

  /** From `st` with `loose` in hand to `after` with `kept` in hand: batches may be made and
      dropped, but none is duplicated, and no batch changes that was in other hands. */
  ghost predicate Handled(st: Store, loose: multiset<Id>, after: Store, kept: multiset<Id>) {
    && st.next <= after.next
    && (forall id :: Uses(after, kept, id)
                  <= Uses(st, loose, id) + if NotMade(st, id) && !NotMade(after, id) then 1 else 0)
    && (forall id | Uses(st, loose, id) == 0 && !NotMade(st, id) :: after.At(id) == st.At(id))
    && Clean(after, kept)
  }

  lemma HandledOn(st: Store, a: multiset<Id>, st1: Store, b: multiset<Id>, st2: Store, c: multiset<Id>)
    requires Clean(st, a) && Handled(st, a, st1, b) && Handled(st1, b, st2, c)
    ensures Handled(st, a, st2, c)
  {
    forall id ensures Uses(st2, c, id) <= Uses(st, a, id) + if NotMade(st, id) && !NotMade(st2, id) then 1 else 0 {
      assert Uses(st1, b, id) <= Uses(st, a, id) + if NotMade(st, id) && !NotMade(st1, id) then 1 else 0;
    }
    forall id | Uses(st, a, id) == 0 && !NotMade(st, id) ensures st2.At(id) == st.At(id) {
      assert Uses(st1, b, id) <= Uses(st, a, id) + if NotMade(st, id) && !NotMade(st1, id) then 1 else 0;
      assert st1.At(id) == st.At(id);
    }
  }

  // ---------------------------------------------------------------------------------
  // What the operations do

  lemma LastPutSnoc(deeds: seq<Deed>, d: Deed, id: Id)
    ensures LastPut(deeds + [d], id) == if d.id == id then d.Put? else LastPut(deeds, id)
  {
    assert (deeds + [d])[..|deeds|] == deeds;
  }

  lemma NoDoublePutSnoc(deeds: seq<Deed>, d: Deed)
    requires NoDoublePut(deeds) && (d.Put? ==> !LastPut(deeds, d.id))
    ensures NoDoublePut(deeds + [d])
  {
    var all := deeds + [d];
    forall i | 0 <= i < |all| && all[i].Put? ensures !LastPut(all[..i], all[i].id) {
      assert all[..i] == deeds[..i];
      if i == |deeds| { assert deeds[..i] == deeds; }
    }
  }

  /** Taking out element `k`. */
  lemma WithoutOne(ids: seq<Id>, k: nat)
    requires k < |ids|
    ensures multiset(ids) == multiset(ids[..k] + ids[k + 1..]) + multiset{ids[k]}
  {
    assert ids == ids[..k] + [ids[k]] + ids[k + 1..];
  }

  lemma GetUses(st: Store, loose: multiset<Id>, choice: nat, id: Id)
    ensures var (after, got) := st.Get(choice);
            Uses(after, loose + multiset{got}, id)
            == Uses(st, loose, id) + if id == Made(st.next) && choice >= |st.free| then 1 else 0
  {
    if choice < |st.free| { WithoutOne(st.free, choice); }
  }

  lemma GetLedger(st: Store, loose: multiset<Id>, choice: nat)
    requires Clean(st, loose)
    ensures Ledger(st.Get(choice).0)
  {
    var (after, got) := st.Get(choice);
    NoDoublePutSnoc(st.deeds, Got(got));
    forall id ensures id in after.free <==> LastPut(after.deeds, id) {
      LastPutSnoc(st.deeds, Got(got), id);
      GetUses(st, loose, choice, id);
      assert Uses(st, loose, id) <= if NotMade(st, id) then 0 else 1;
      if id != got && choice < |st.free| { WithoutOne(st.free, choice); }
    }
  }

  /** The pool hands out the free batch that was chosen, which is then no longer free, or a new
      one, with a number of its own, and it puts that on record. No message changes. */
  lemma GetTakesOne(st: Store, choice: nat)
    ensures var (after, id) := st.Get(choice);
            && (if choice < |st.free| then
                  && id == st.free[choice] && after.next == st.next
                  && multiset(after.free) + multiset{id} == multiset(st.free)
                else id == Made(st.next) && after.next == st.next + 1 && after.free == st.free)
            && after.heap == st.heap && after.deeds == st.deeds + [Got(id)]
  {
    if choice < |st.free| { WithoutOne(st.free, choice); }
  }

  /** A filled batch is a new one or a free one; no other batch changes. */
  lemma FillHandled(st: Store, loose: multiset<Id>, batch: Batch, choice: nat)
    requires Clean(st, loose)
    ensures var (after, id) := st.Fill(batch, choice);
            && Handled(st, loose, after, loose + multiset{id})
            && id !in loose && after.At(id) == batch
            && forall other | other != id :: after.At(other) == st.At(other)
  {
    var (after, got) := st.Fill(batch, choice);
    GetLedger(st, loose, choice);
    assert Ledger(after);
    forall id
      ensures Uses(after, loose + multiset{got}, id)
           == Uses(st, loose, id) + if id == Made(st.next) && choice >= |st.free| then 1 else 0
    {
      GetUses(st, loose, choice, id);
    }
    assert Uses(st, loose, got) <= if NotMade(st, got) then 0 else 1;
  }

  /** From the second link on a turn of the fan-out takes two batches from the pool, one that
      replaces the batch in hand and one to send; for the first link only the latter. */
  lemma ShareTakes(st: Store, id: Id, again: bool, first: nat, second: nat)
    ensures |st.Share(id, again, first, second).0.deeds| == |st.deeds| + if again then 2 else 1
  {
  }

  lemma WriteHandled(st: Store, loose: multiset<Id>, id: Id, batch: Batch)
    requires Clean(st, loose) && id in loose
    ensures Handled(st, loose, st.Write(id, batch), loose)
  {
    var after := st.Write(id, batch);
    assert Ledger(after);
    forall other ensures Uses(after, loose, other) == Uses(st, loose, other) {}
    assert Uses(st, loose, id) >= 1;
  }

  lemma PutHandled(st: Store, loose: multiset<Id>, id: Id)
    requires Clean(st, loose) && id in loose
    ensures Handled(st, loose, st.PutBack(id), loose - multiset{id})
  {
    var after := st.PutBack(id);
    assert Uses(st, loose, id) <= 1;
    assert id !in st.free;
    NoDoublePutSnoc(st.deeds, Put(id));
    forall other ensures other in after.free <==> LastPut(after.deeds, other) {
      LastPutSnoc(st.deeds, Put(id), other);
    }
    forall other ensures Uses(after, loose - multiset{id}, other) == Uses(st, loose, other) {}
  }

  lemma DropHandled(st: Store, loose: multiset<Id>, kept: multiset<Id>)
    requires Clean(st, loose) && kept <= loose
    ensures Handled(st, loose, st, kept)
  {
    forall id ensures Uses(st, kept, id) <= Uses(st, loose, id) {}
  }

  lemma {:induction false} PutAllHandled(st: Store, loose: multiset<Id>, ids: seq<Id>)
    requires Clean(st, loose) && multiset(ids) <= loose
    ensures Handled(st, loose, st.PutAll(ids), loose - multiset(ids))
    ensures forall id :: st.PutAll(ids).At(id) == st.At(id)
    decreases |ids|
  {
    if ids == [] {
      DropHandled(st, loose, loose);
      assert loose - multiset(ids) == loose;
    } else {
      var rest := loose - multiset{ids[0]};
      assert ids == [ids[0]] + ids[1..];
      PutHandled(st, loose, ids[0]);
      PutAllHandled(st.PutBack(ids[0]), rest, ids[1..]);
      HandledOn(st, loose, st.PutBack(ids[0]), rest, st.PutAll(ids), rest - multiset(ids[1..]));
      assert rest - multiset(ids[1..]) == loose - multiset(ids);
    }
  }

  // ---------------------------------------------------------------------------------
  // What the record says

  lemma {:induction false} PutUntilGot(deeds: seq<Deed>, i: nat, j: nat, id: Id)
    requires i < j <= |deeds| && deeds[i] == Put(id)
    requires forall k | i < k < j :: deeds[k] != Got(id)
    ensures LastPut(deeds[..j], id)
  {
    if i + 1 == j {
      assert deeds[..j][i] == Put(id);
    } else {
      PutUntilGot(deeds, i, j - 1, id);
      assert deeds[..j][..j - 1] == deeds[..j - 1];
      assert deeds[..j][j - 1] == deeds[j - 1];
    }
  }

  /** Between two times that a batch is put back, it is taken from the pool. */
  lemma PutAtMostOnce(deeds: seq<Deed>, i: nat, j: nat, id: Id)
    requires NoDoublePut(deeds) && i < j < |deeds| && deeds[i] == Put(id) && deeds[j] == Put(id)
    ensures exists k | i < k < j :: deeds[k] == Got(id)
  {
    if forall k | i < k < j :: deeds[k] != Got(id) { PutUntilGot(deeds, i, j, id); }
  }
}
