/** The shared pool of message batches in the form the program gives it: slices over arrays, and
    a list of free ones. Each method does to the batches what the function of `BatchStore` says
    that the running pipeline of `Ownership` uses. */
module MessagePool {
  import opened Messages
  import opened BatchStore
  import Filters

  /** A slice `data[..len]` with capacity `data.Length`. */
  class MessageBatch {
    var data: array<Message>
    var len: nat
    ghost const id: Id

    ghost predicate Valid()
      reads this
    {
      len <= data.Length
    }

    ghost function Contents(): Batch
      requires Valid()
      reads this, data
    {
      data[..len]
    }

    constructor (size: nat, ghost id: Id)
      ensures Valid() && fresh(data) && data.Length == size && len == size && this.id == id
    {
      data := new Message[size];
      len := size;
      this.id := id;
    }

    /** Empty the batch and make sure of its capacity. */
    method Reset(size: nat)
      modifies this
      ensures len == 0 && data.Length >= size
      ensures if old(data.Length) >= size then data == old(data) else fresh(data)
    {
      if data.Length < size {
        data := new Message[size];
      }
      len := 0;
    }

    /** Append the messages of `m` to an empty batch. */
    method CopyFrom(m: MessageBatch)
      requires m.Valid() && m != this && m.data != data && m.len <= data.Length
      modifies this`len, data
      ensures Valid() && Contents() == m.Contents()
    {
      forall i | 0 <= i < m.len {
        data[i] := m.data[i];
      }
      len := m.len;
      assert Contents() == m.Contents();
    }
  }

  ghost predicate Apart(batches: set<MessageBatch>)
    reads batches
  {
    && (forall b | b in batches :: b.Valid())
    && forall b, c | b in batches && c in batches && b != c :: b.data != c.data && b.id != c.id
  }

  ghost predicate SameFree(free: seq<MessageBatch>, ids: seq<Id>) {
    |free| == |ids| && forall i | 0 <= i < |free| :: free[i].id == ids[i]
  }

  predicate NoRepeats(batches: seq<MessageBatch>) {
    forall i, j | 0 <= i < j < |batches| :: batches[i] != batches[j]
  }

  lemma RemoveOne(batches: seq<MessageBatch>, k: nat)
    requires NoRepeats(batches) && k < |batches|
    ensures var rest := batches[..k] + batches[k + 1..];
            NoRepeats(rest) && (set b | b in rest) == (set b | b in batches) - {batches[k]}
  {
    var rest := batches[..k] + batches[k + 1..];
    assert batches == batches[..k] + [batches[k]] + batches[k + 1..];
    forall i | 0 <= i < |rest| ensures rest[i] == batches[if i < k then i else i + 1] {}
  }

  lemma AddOne(batches: seq<MessageBatch>, last: MessageBatch)
    requires NoRepeats(batches) && last !in batches
    ensures NoRepeats(batches + [last]) && (set b | b in batches + [last]) == (set b | b in batches) + {last}
  {
  }

  class BatchPool {
    var free: seq<MessageBatch>
    ghost var owned: set<MessageBatch>   // what was handed out and not put back
    ghost var store: Store

    ghost function All(): set<MessageBatch>
      reads this
    {
      owned + (set b | b in free)
    }

    /** A batch is either free, once, or owned, and no two batches share an array or an
        identity. The store has the same free batches, and the messages of those that are
        owned. */
    ghost predicate Valid()
      reads this, free, owned, set b | b in owned :: b.data
    {
      && (forall b | b in owned :: b !in free)
      && NoRepeats(free)
      && Apart(All())
      && SameFree(free, store.free)
      && (forall b | b in All() :: !NotMade(store, b.id))
      && forall b | b in owned :: store.At(b.id) == b.Contents()
    }

    /** The free batches and their arrays. */
    ghost function FreeObjects(): set<object>
      reads this, free
    {
      var batches: set<object> := set b | b in free;
      var arrays: set<object> := set b | b in free :: b.data;
      batches + arrays
    }

    /** Nothing about the batches of `kept` has changed. */
    twostate predicate Untouched(kept: set<MessageBatch>)
      reads kept, set b | b in kept :: b.data
    {
      forall b | b in kept :: b.data == old(b.data) && b.len == old(b.len) && b.data[..] == old(b.data[..])
    }

    constructor ()
      ensures Valid() && free == [] && owned == {}
    {
      free, owned := [], {};
      store := Store(map[], [], 0, []);
    }

    /** `b` is not the pool's, nor is its array. */
    ghost predicate Foreign(b: MessageBatch)
      reads this, free, owned, b
    {
      && b.Valid() && b !in All() && !NotMade(store, b.id)
      && forall c | c in All() :: c.data != b.data && c.id != b.id
    }

    method TakeFree(choice: nat) returns (b: MessageBatch)
      requires Valid() && choice < |free|
      modifies this`free, this`store
      ensures Valid() && (store, b.id) == old(store).Get(choice) && Foreign(b)
      ensures b in old(free) && forall c | c in free :: c in old(free)
    {
      b := free[choice];
      RemoveOne(free, choice);
      assert b in All();
      free := free[..choice] + free[choice + 1..];
      store := store.Get(choice).0;
      assert All() == old(All()) - {b};
    }

    method TakeNew(size: nat, ghost choice: nat) returns (b: MessageBatch)
      requires Valid() && choice >= |free|
      modifies this`store
      ensures Valid() && (store, b.id) == old(store).Get(choice) && Foreign(b)
      ensures fresh(b) && fresh(b.data)
    {
      b := new MessageBatch(size, Made(store.next));
      store := store.Get(choice).0;
    }

    /** `sync.Pool.Get` returns any free batch or, at any time, none, and then a new one is
        made: `choice` says which. Nobody else holds it. */
    method Take(size: nat, choice: nat) returns (b: MessageBatch)
      requires Valid()
      modifies this`free, this`store
      ensures Valid() && (store, b.id) == old(store).Get(choice) && Foreign(b)
      ensures (fresh(b) && fresh(b.data)) || (b in old(free) && unchanged(b))
      ensures forall c | c in free :: c in old(free)
    {
      if choice < |free| {
        b := TakeFree(choice);
      } else {
        b := TakeNew(size, choice);
      }
    }

    /** An empty batch is handed out. */
    ghost method Adopt(b: MessageBatch)
      requires Valid() && Foreign(b) && b.len == 0
      modifies this`owned, this`store
      ensures Valid() && owned == old(owned) + {b} && store == old(store).Write(b.id, [])
    {
      owned := owned + {b};
      store := store.Write(b.id, []);
    }

    /** An empty batch with room for `size` messages, that nobody else holds. */
    method GetMessageBatch(size: nat, choice: nat) returns (b: MessageBatch)
      requires Valid()
      modifies this, free
      ensures Valid() && owned == old(owned) + {b} && b !in old(owned)
      ensures (store, b.id) == old(store).Fill([], choice)
      ensures b.Contents() == [] && b.data.Length >= size
      ensures fresh(b) || b in old(free)
      ensures fresh(b.data) || (b in old(free) && b.data == old(b.data))
      ensures forall c | c in free :: c in old(free) && c.data == old(c.data)
      ensures Untouched(old(owned))
    {
      b := Take(size, choice);
      b.Reset(size);
      Adopt(b);
    }

    /** Only the messages of `batch` have changed, and the store knows. */
    twostate lemma Rewritten(batch: MessageBatch)
      requires old(Valid()) && batch in owned && owned == old(owned) && free == old(free)
      requires batch.Valid() && batch.data == old(batch.data)
      requires store == old(store).Write(batch.id, batch.Contents())
      requires forall c | c in All() && c != batch :: unchanged(c) && unchanged(c.data)
      ensures Valid()
    {
    }

    method CopyInto(b: MessageBatch, m: MessageBatch)
      requires Valid() && m in owned && b in owned && b != m && m.len <= b.data.Length
      modifies b`len, b.data, this`store
      ensures Valid() && b.Contents() == m.Contents() && store == old(store).Write(b.id, m.Contents())
      ensures Untouched(owned - {b})
    {
      assert m in All() && b in All();
      b.CopyFrom(m);
      store := store.Write(b.id, b.Contents());
      Rewritten(b);
    }

    /** The clone is another batch with another array and the same messages. */
    method CloneBatch(m: MessageBatch, choice: nat) returns (b: MessageBatch)
      requires Valid() && m in owned
      modifies this, FreeObjects()
      ensures Valid() && owned == old(owned) + {b} && b !in old(owned)
      ensures (store, b.id) == old(store).Clone(m.id, choice)
      ensures b.Contents() == old(m.Contents())
      ensures fresh(b) || b in old(free)
      ensures FreeObjects() <= old(FreeObjects())
      ensures Untouched(old(owned))
    {
      b := GetMessageBatch(m.len, choice);
      assert m.Contents() == old(m.Contents());
      CopyInto(b, m);
      assert store == old(store).Clone(m.id, choice).0;
    }

    method PutMessageBatch(m: MessageBatch)
      requires Valid() && m in owned
      modifies this
      ensures Valid() && owned == old(owned) - {m} && free == old(free) + [m]
      ensures store == old(store).PutBack(m.id)
    {
      AddOne(free, m);
      owned := owned - {m};
      free := free + [m];
      store := store.PutBack(m.id);
      assert All() == old(All());
    }

    /** One turn of the fan-out loop: from the second link on, the batch is replaced by a clone
        first; then another clone is sent. */
    method SendOne(batch: MessageBatch, again: bool, first: nat, second: nat)
      returns (source: MessageBatch, copy: MessageBatch)
      requires Valid() && batch in owned
      modifies this, FreeObjects()
      ensures Valid() && old(owned) <= owned && source in owned && copy in owned && copy !in old(owned)
      ensures (store, source.id, copy.id) == old(store).Share(batch.id, again, first, second)
      ensures source.Contents() == old(batch.Contents()) && copy.Contents() == old(batch.Contents())
      ensures FreeObjects() <= old(FreeObjects())
      ensures Untouched(old(owned))
    {
      source := batch;
      if again {
        source := CloneBatch(batch, first);
      }
      copy := CloneBatch(source, second);
    }

    /** The batches in `sent` are different ones that are owned but were not in `held`, all with
        these messages. */
    ghost predicate Clones(sent: seq<MessageBatch>, held: set<MessageBatch>, messages: Batch)
      reads this, sent, set b | b in sent :: b.data
    {
      && NoRepeats(sent)
      && forall b | b in sent :: b in owned && b !in held && b.Valid() && b.Contents() == messages
    }

    /** The fan-out of a node to `links` links: what is sent are different batches, none of
        which anybody else holds, all with the messages of `batch`; whatever was owned before
        is not touched. */
    method FanOut(batch: MessageBatch, links: nat, choices: nat -> nat -> nat) returns (sent: seq<MessageBatch>)
      requires Valid() && batch in owned
      modifies this, FreeObjects()
      ensures Valid() && |sent| == links && Clones(sent, old(owned), old(batch.Contents()))
      ensures |store.deeds| == |old(store).deeds| + if links == 0 then 0 else 2 * links - 1
      ensures old(owned) <= owned && Untouched(old(owned))
    {
      sent := [];
      var source := batch;
      ghost var messages := batch.Contents();
      for processedLinks := 0 to links
        invariant Valid() && |sent| == processedLinks && old(owned) <= owned
        invariant source in owned && source.Contents() == messages
        invariant Clones(sent, old(owned), messages)
        invariant |store.deeds| == |old(store).deeds| + if processedLinks == 0 then 0 else 2 * processedLinks - 1
        invariant FreeObjects() <= old(FreeObjects())
        invariant Untouched(old(owned))
      {
        var copy;
        var choice := choices(processedLinks);
        ShareTakes(store, source.id, processedLinks >= 1, choice(0), choice(1));
        source, copy := SendOne(source, processedLinks >= 1, choice(0), choice(1));
        AddOne(sent, copy);
        sent := sent + [copy];
      }
    }

    /** A filter node works on its batch in place; no other batch is touched. */
    method FilterBatch(node: Filters.FilterNode, batch: MessageBatch)
      requires Valid() && batch in owned
      modifies node, this`store, batch`len, batch.data
      ensures Valid() && owned == old(owned) && free == old(free) && batch.data == old(batch.data)
      ensures batch.Contents() == Filters.Kept(node.f, old(node.seen), old(batch.Contents()))
      ensures store == old(store).Write(batch.id, batch.Contents())
      ensures node.seen == old(node.seen) + old(batch.Contents())
      ensures Untouched(owned - {batch})
    {
      assert batch in All();
      var kept := node.CompactInPlace(batch.data, batch.len);
      batch.len := kept;
      store := store.Write(batch.id, batch.Contents());
      Rewritten(batch);
    }
  }
}
