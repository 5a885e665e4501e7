/** The job queue: an append-only log of keyed messages. The writer used by
    the gateway sends one message per call and reports success or failure;
    a failed write appends nothing. The log is one sequence: how the broker
    assigns messages to partitions is not part of this model, so the order
    stated here is the order of successful appends of one key. */
module JobQueue {
  import opened Outcomes

  newtype byte = x: int | 0 <= x < 256

  /** A message is keyed by the job id (sent as the id's bytes) and carries
      the serialised job as its value. */
  datatype Message = Message(key: string, value: seq<byte>)

  type Queue = seq<Message>

  /** One `WriteMessages` call with a single message. */
  function Append(q: Queue, m: Message, outcome: Outcome): (q': Queue)
    ensures outcome.Ok? ==> |q'| == |q| + 1 && q'[..|q|] == q && q'[|q|] == m
    ensures outcome.Err? ==> q' == q
  {
    if outcome.Ok? then q + [m] else q
  }

  /** The messages of one key, in append order. */
  function MessagesFor(q: Queue, key: string): (r: Queue)
    ensures |r| <= |q|
    ensures forall i :: 0 <= i < |r| ==> r[i].key == key
  {
    if |q| == 0 then []
    else if q[|q| - 1].key == key then MessagesFor(q[..|q| - 1], key) + [q[|q| - 1]]
    else MessagesFor(q[..|q| - 1], key)
  }

  /** Per-key order is compositional: the messages of a key in a log that was
      extended by `b` are its old messages followed by the new ones. */
  lemma {:induction false} MessagesForConcat(a: Queue, b: Queue, key: string)
    ensures MessagesFor(a + b, key) == MessagesFor(a, key) + MessagesFor(b, key)
    decreases |b|
  {
    if |b| == 0 {
      assert a + b == a;
    } else {
      var b' := b[..|b| - 1];
      assert (a + b)[..|a + b| - 1] == a + b';
      assert b[..|b| - 1] == b';
      MessagesForConcat(a, b', key);
    }
  }

  /** A successful append adds the message at the end of its own key's
      sequence and leaves every other key's sequence as it was. */
  lemma AppendKeepsKeyOrder(q: Queue, m: Message, key: string)
    ensures MessagesFor(Append(q, m, Ok), key)
         == MessagesFor(q, key) + (if m.key == key then [m] else [])
  {
    assert (q + [m])[..|q|] == q;
  }

  /** A log whose messages all carry one key is its own per-key view. */
  lemma {:induction false} MessagesForSameKey(q: Queue, key: string)
    requires forall i :: 0 <= i < |q| ==> q[i].key == key
    ensures MessagesFor(q, key) == q
    decreases |q|
  {
    if |q| > 0 {
      MessagesForSameKey(q[..|q| - 1], key);
      assert q[..|q| - 1] + [q[|q| - 1]] == q;
    }
  }
}
