/** Filters, and the in-place compaction that applies one to a batch. */
module Filters {
  import opened Messages

  /** A deterministic filter may keep any state it likes, so its verdict on a message is a
      function of all the messages it has seen, the current one last: what the message
      becomes, and whether it is dropped. */
  type Filter = Batch -> (Message, bool)

  /** What becomes of the last message of `seen`. */
  function Verdict(f: Filter, seen: Batch): (r: Batch)
    ensures |r| <= 1
  {
    var (message, shouldDrop) := f(seen);
    if shouldDrop then [] else [message]
  }

  /** What becomes of a stream of messages. */
  function Image(f: Filter, seen: Batch): (r: Batch)
    ensures |r| <= |seen|
  {
    if |seen| == 0 then [] else Image(f, seen[..|seen| - 1]) + Verdict(f, seen)
  }

  /** What becomes of `batch` when the filter has already seen `seen`. */
  function Kept(f: Filter, seen: Batch, batch: Batch): (r: Batch)
    ensures |r| <= |batch|
  {
    if |batch| == 0 then []
    else Kept(f, seen, batch[..|batch| - 1]) + Verdict(f, seen + batch)
  }

  /** What the filter drops does not go on, and what it does not drop goes on as the filter
      rewrote it, behind what was kept before. */
  lemma ImageOneMore(f: Filter, seen: Batch, m: Message)
    ensures Image(f, []) == []
    ensures Image(f, seen + [m]) == Image(f, seen) + (if f(seen + [m]).1 then [] else [f(seen + [m]).0])
  {
    assert (seen + [m])[..|seen|] == seen;
  }

  /** So it is with the messages of one batch. */
  lemma KeptOneMore(f: Filter, seen: Batch, batch: Batch, m: Message)
    ensures Kept(f, seen, []) == []
    ensures var all := seen + batch + [m];
            Kept(f, seen, batch + [m]) == Kept(f, seen, batch) + (if f(all).1 then [] else [f(all).0])
  {
    assert (batch + [m])[..|batch|] == batch;
    assert seen + (batch + [m]) == seen + batch + [m];
  }

  lemma KeptSnoc(f: Filter, seen: Batch, batch: Batch, i: nat)
    requires i < |batch|
    ensures Kept(f, seen, batch[..i + 1]) == Kept(f, seen, batch[..i]) + Verdict(f, seen + batch[..i + 1])
  {
    assert batch[..i + 1][..i] == batch[..i];
  }

  lemma {:induction false} ImageSplit(f: Filter, seen: Batch, batch: Batch)
    ensures Image(f, seen + batch) == Image(f, seen) + Kept(f, seen, batch)
  {
    if |batch| == 0 {
      assert seen + batch == seen;
    } else {
      var init := batch[..|batch| - 1];
      ImageSplit(f, seen, init);
      assert (seen + batch)[..|seen + batch| - 1] == seen + init;
    }
  }

  /** What a filter sends on, batch by batch. */
  function ImageBatches(f: Filter, batches: seq<Batch>): (r: seq<Batch>)
    ensures |r| == |batches|
  {
    if |batches| == 0 then []
    else
      var before := batches[..|batches| - 1];
      ImageBatches(f, before) + [Kept(f, Flatten(before), batches[|batches| - 1])]
  }

  /** The division into batches does not matter. */
  lemma {:induction false} ImageOfBatches(f: Filter, batches: seq<Batch>)
    ensures Flatten(ImageBatches(f, batches)) == Image(f, Flatten(batches))
  {
    if |batches| > 0 {
      var before, last := batches[..|batches| - 1], batches[|batches| - 1];
      ImageOfBatches(f, before);
      FlattenSnoc(ImageBatches(f, before), Kept(f, Flatten(before), last));
      ImageSplit(f, Flatten(before), last);
    }
  }

  /** A running filter: it remembers what it has seen. */
  class FilterNode {
    const f: Filter
    var seen: Batch

    constructor (f: Filter)
      ensures this.f == f && seen == []
    {
      this.f := f;
      seen := [];
    }

    method Apply(msg: Message) returns (rewritten: Message, shouldDrop: bool)
      modifies this
      ensures seen == old(seen) + [msg]
      ensures (rewritten, shouldDrop) == f(seen)
    {
      seen := seen + [msg];
      var (m, drop) := f(seen);
      return m, drop;
    }

    /** One turn of the loop of a filter node: message `i` of the batch is filtered and, if
        kept, written over position `kept`, which has already been read. */
    method CompactOne(data: array<Message>, i: nat, kept: nat) returns (kept': nat)
      requires kept <= i < data.Length
      modifies this, data
      ensures seen == old(seen) + [old(data[i])]
      ensures kept <= kept' <= i + 1 && data[..kept'] == old(data[..kept]) + Verdict(f, seen)
      ensures forall j | kept' <= j < data.Length :: data[j] == old(data[j])
    {
      var msg, shouldDrop := Apply(data[i]);
      kept' := kept;
      if !shouldDrop {
        data[kept'] := msg;
        kept' := kept' + 1;
      }
    }

    /** The loop of a filter node over the batch `data[..n]`: it writes the messages that it
        keeps over the front of the batch that it is still reading. `data[..kept]` becomes
        the image of the batch and nothing from `kept` on changes. */
    method CompactInPlace(data: array<Message>, n: nat) returns (kept: nat)
      requires n <= data.Length
      modifies this, data
      ensures seen == old(seen) + old(data[..n])
      ensures kept <= n && data[..kept] == Kept(f, old(seen), old(data[..n]))
      ensures data[kept..] == old(data[kept..])
    {
      kept := 0;
      ghost var batch := data[..n];
      for i := 0 to n
        invariant kept <= i && seen == old(seen) + batch[..i]
        invariant data[..kept] == Kept(f, old(seen), batch[..i])
        invariant forall j | kept <= j < data.Length :: data[j] == old(data[j])
      {
        assert data[i] == batch[i];
        kept := CompactOne(data, i, kept);
        assert seen == old(seen) + batch[..i + 1];
        KeptSnoc(f, old(seen), batch, i);
      }
      assert batch[..n] == batch;
    }
  }
}
