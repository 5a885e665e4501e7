/** The status scoreboard: a key-value store with a time-to-live per key.
    Only `SET key value ttl` and `GET key` are used by the gateway. Expiry
    is not modelled: the TTL is kept as an opaque number beside the value. */
module StatusStore {
  import opened Outcomes

  /** A stored value together with the TTL it was written with. */
  datatype Entry = Entry(value: string, ttl: int)

  type Store = map<string, Entry>

  /** What a read reports: the value, the store's "no such key" error, or
      any other error (connection refused, timeout, ...). */
  datatype Reading = Found(value: string) | Nil | ReadError(msg: string)

  /** The text of the store client's "no such key" error. */
  const NilMessage: string := "redis: nil"

  /** SET: on success the key holds the new entry and every other key keeps
      its entry; on failure the store is left as it was. */
  function Set(st: Store, key: string, value: string, ttl: int, outcome: Outcome): (st': Store)
    ensures outcome.Ok? ==> st'.Keys == st.Keys + {key} && st'[key] == Entry(value, ttl)
    ensures outcome.Err? ==> st' == st
    ensures forall k :: k in st && k != key ==> k in st' && st'[k] == st[k]
  {
    if outcome.Ok? then st[key := Entry(value, ttl)] else st
  }

  /** GET: a reachable store answers with the value or Nil; an unreachable
      one answers with its error, whether or not the key exists. */
  function Get(st: Store, key: string, outcome: Outcome): (r: Reading)
    ensures r.Found? <==> outcome.Ok? && key in st
    ensures r.Found? ==> r.value == st[key].value
    ensures r.Nil? <==> outcome.Ok? && key !in st
    ensures r.ReadError? <==> outcome.Err?
    ensures r.ReadError? ==> r.msg == outcome.msg
  {
    match outcome
    case Err(msg) => ReadError(msg)
    case Ok => if key in st then Found(st[key].value) else Nil
  }

  /** Read-over-write, same key: a successful SET is seen by the next GET. */
  lemma GetAfterSet(st: Store, key: string, value: string, ttl: int, read: Outcome)
    requires read.Ok?
    ensures Get(Set(st, key, value, ttl, Ok), key, read) == Found(value)
  {
  }

  /** Read-over-write, other key: a SET never changes what another key reads. */
  lemma GetOtherAfterSet(st: Store, key: string, value: string, ttl: int, write: Outcome,
                         other: string, read: Outcome)
    requires other != key
    ensures Get(Set(st, key, value, ttl, write), other, read) == Get(st, other, read)
  {
  }
}
