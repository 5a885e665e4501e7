/** The shared state a handler acts on, and the trace of external calls a
    handler makes. `Apply` replays a trace against a state; it is defined
    call by call, independently of the handlers, so that a handler's result
    state can be checked against the calls it says it made. */
module Effects {
  import opened JobRecord
  import opened StatusStore
  import opened JobQueue

  /** The status store and the job queue, the only state outside a request. */
  datatype State = State(store: Store, queue: Queue)

  const Empty: State := State(map[], [])

  /** One call to a collaborator, with its arguments. */
  datatype Call =
    | OpenUpload                                  // open the multipart upload
    | CreateFile(path: string)                    // create the temporary file
    | CopyUpload(path: string)                    // copy the upload into it
    | StoreSet(key: string, value: string, ttl: int)
    | Marshal(job: Job)                           // serialise the job record
    | QueueWrite(msg: Message)
    | StoreGet(key: string)

  /** A call and whether it succeeded. */
  datatype Effect = Effect(call: Call, ok: bool)

  /** True of the calls that can change the store or the queue. */
  predicate Mutates(c: Call)
  {
    c.StoreSet? || c.QueueWrite?
  }

  /** The state after one call: a successful SET overwrites its key, a
      successful write appends its message, everything else changes nothing. */
  function ApplyOne(s: State, e: Effect): State
  {
    match e.call
    case StoreSet(key, value, ttl) =>
      if e.ok then s.(store := s.store[key := Entry(value, ttl)]) else s
    case QueueWrite(m) =>
      if e.ok then s.(queue := s.queue + [m]) else s
    case _ => s
  }

  /** The state after a whole trace, replayed first call first. */
  function Apply(s: State, t: seq<Effect>): State
    decreases |t|
  {
    if |t| == 0 then s else Apply(ApplyOne(s, t[0]), t[1..])
  }

  /** Replaying two traces one after the other is replaying their
      concatenation. */
  lemma {:induction false} ApplyConcat(s: State, t1: seq<Effect>, t2: seq<Effect>)
    ensures Apply(s, t1 + t2) == Apply(Apply(s, t1), t2)
    decreases |t1|
  {
    if |t1| == 0 {
      assert t1 + t2 == t2;
    } else {
      assert (t1 + t2)[0] == t1[0];
      assert (t1 + t2)[1..] == t1[1..] + t2;
      ApplyConcat(ApplyOne(s, t1[0]), t1[1..], t2);
    }
  }

  /** Replaying the suffix of a trace from position `i` is applying the call
      at `i` and replaying the suffix after it. */
  lemma ApplyUnfold(s: State, t: seq<Effect>, i: nat)
    requires i < |t|
    ensures Apply(s, t[i..]) == Apply(ApplyOne(s, t[i]), t[i + 1..])
  {
    assert t[i..][0] == t[i];
    assert t[i..][1..] == t[i + 1..];
  }

  /** A trace that contains no successful mutating call leaves any state as
      it was. */
  lemma {:induction false} ReplayWithoutWritesKeepsState(s: State, t: seq<Effect>)
    requires forall i :: 0 <= i < |t| ==> !(t[i].ok && Mutates(t[i].call))
    ensures Apply(s, t) == s
    decreases |t|
  {
    if |t| > 0 {
      assert ApplyOne(s, t[0]) == s;
      assert forall i :: 0 <= i < |t[1..]| ==> t[1..][i] == t[i + 1];
      ReplayWithoutWritesKeepsState(s, t[1..]);
    }
  }
}
