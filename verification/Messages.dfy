/** Messages and the batches in which they travel. */
module Messages {

  /** A log message. Field values are represented by their printed form. */
  datatype Message = Message(monoTimestamp: int, parsedFields: map<string, string>)

  type Batch = seq<Message>

  /** The messages of a sequence of batches, in order. */
  function Flatten(batches: seq<Batch>): (r: Batch) {
    if |batches| == 0 then [] else Flatten(batches[..|batches| - 1]) + batches[|batches| - 1]
  }

  lemma FlattenSnoc(batches: seq<Batch>, last: Batch)
    ensures Flatten(batches + [last]) == Flatten(batches) + last
  {
    assert (batches + [last])[..|batches|] == batches;
  }

  lemma {:induction false} FlattenConcat(a: seq<Batch>, b: seq<Batch>)
    ensures Flatten(a + b) == Flatten(a) + Flatten(b)
  {
    if |b| == 0 {
      assert a + b == a;
    } else {
      var init, last := b[..|b| - 1], b[|b| - 1];
      assert a + b == (a + init) + [last];
      FlattenConcat(a, init);
      FlattenSnoc(a + init, last);
    }
  }
}
