/** Many uploads handled one after another against the shared store and
    queue. Each request is one sequential step; concurrency between
    requests is not modelled. Here the per-call guarantees of the upload
    handler are lifted to whole sessions: the queue only grows, messages of
    one job id are appended in call order, the state is the replay of all calls,
    and, as long as every generated id is fresh, every queued job has a
    status entry that reads Pending. */
module Submissions {
  import opened JobRecord
  import opened StatusStore
  import opened JobQueue
  import opened Effects
  import opened DocumentHandler

  /** One upload request with its generated id, clock reading and the
      outcomes its collaborators report. */
  datatype Submission = Submission(form: UploadForm, id: string, now: int, env: Env)

  /** The result of a session: final state, one response per request, and
      all calls in order. */
  datatype Session = Session(state: State, responses: seq<Response>, trace: seq<Effect>)

  function Submit(s: State, sub: Submission): Step
  {
    Upload(s, sub.form, sub.id, sub.now, sub.env)
  }

  /** How many responses accepted their job. */
  function AcceptedCount(rs: seq<Response>): nat
  {
    if |rs| == 0 then 0 else (if rs[0].code == StatusAccepted then 1 else 0) + AcceptedCount(rs[1..])
  }

  /** The requests handled in order, each on the state its predecessor left.
      The queue only grows, by one message per accepted request. */
  function Run(s: State, subs: seq<Submission>): (r: Session)
    ensures |r.responses| == |subs|
    ensures s.queue <= r.state.queue
    ensures |r.state.queue| == |s.queue| + AcceptedCount(r.responses)
    decreases |subs|
  {
    if |subs| == 0 then Session(s, [], [])
    else
      var first := Submit(s, subs[0]);
      var rest := Run(first.state, subs[1..]);
      Session(rest.state, [first.response] + rest.responses, first.trace + rest.trace)
  }

  /** What one request puts on the queue; by `EnqueuedIsStateIndependent`
      this does not depend on the state the request meets. */
  function Enqueued(sub: Submission): Queue
  {
    Submit(Empty, sub).state.queue
  }

  /** Everything a sequence of requests puts on the queue, in call order. */
  function Sent(subs: seq<Submission>): Queue
    decreases |subs|
  {
    if |subs| == 0 then [] else Enqueued(subs[0]) + Sent(subs[1..])
  }

  /** An upload appends the same messages whatever state it meets: the
      handler never reads the store before writing. */
  lemma EnqueuedIsStateIndependent(s: State, sub: Submission)
    ensures Submit(s, sub).state.queue == s.queue + Enqueued(sub)
    ensures |Enqueued(sub)| <= 1
    ensures forall i :: 0 <= i < |Enqueued(sub)| ==> Enqueued(sub)[i].key == sub.id
  {
    assert Submit(s, sub).response == Submit(Empty, sub).response;
  }

  /** One step of `RunQueue`: what follows an upload's messages follows
      the state's old queue and the upload's own messages. */
  lemma QueueGrowsByEnqueued(s: State, sub: Submission, rest: Queue)
    ensures Submit(s, sub).state.queue + rest == s.queue + (Enqueued(sub) + rest)
  {
    EnqueuedIsStateIndependent(s, sub);
  }

  /** A session appends exactly the requests' messages, in call order. */
  lemma {:induction false} RunQueue(s: State, subs: seq<Submission>)
    ensures Run(s, subs).state.queue == s.queue + Sent(subs)
    decreases |subs|
  {
    if |subs| > 0 {
      var s1 := Submit(s, subs[0]).state;
      RunQueue(s1, subs[1..]);
      QueueGrowsByEnqueued(s, subs[0], Sent(subs[1..]));
    }
  }

  /** Per-key order: the messages of any job id after a session are the old
      ones followed by the new ones, in the order the requests were made. */
  lemma PerKeyOrder(s: State, subs: seq<Submission>, key: string)
    ensures MessagesFor(Run(s, subs).state.queue, key) == MessagesFor(s.queue, key) + MessagesFor(Sent(subs), key)
  {
    RunQueue(s, subs);
    MessagesForConcat(s.queue, Sent(subs), key);
  }

  /** Two accepted requests for the same job id (a resubmission) reach that
      id's messages in call order, one message each. */
  lemma ResubmissionsInCallOrder(s: State, a: Submission, b: Submission)
    requires a.id == b.id
    requires Submit(s, a).response.code == StatusAccepted
    requires Submit(Submit(s, a).state, b).response.code == StatusAccepted
    ensures |Enqueued(a)| == 1 && |Enqueued(b)| == 1
    ensures MessagesFor(Run(s, [a, b]).state.queue, a.id) == MessagesFor(s.queue, a.id) + Enqueued(a) + Enqueued(b)
  {
    var s1 := Submit(s, a).state;
    EnqueuedIsStateIndependent(s, a);
    EnqueuedIsStateIndependent(s1, b);
    RunQueue(s, [a, b]);
    assert [a, b][1..] == [b];
    assert [b][1..] == [];
    assert Sent([a, b]) == Enqueued(a) + Enqueued(b);
    var appended := Enqueued(a) + Enqueued(b);
    MessagesForConcat(s.queue, appended, a.id);
    MessagesForSameKey(appended, a.id);
  }

  /** The state after a session is the replay of every call it made. */
  lemma {:induction false} RunReplays(s: State, subs: seq<Submission>)
    ensures Run(s, subs).state == Apply(s, Run(s, subs).trace)
    decreases |subs|
  {
    if |subs| > 0 {
      var sub := subs[0];
      var first := Submit(s, sub);
      UploadReplays(s, sub.form, sub.id, sub.now, sub.env);
      RunReplays(first.state, subs[1..]);
      ApplyConcat(s, first.trace, Run(first.state, subs[1..]).trace);
    }
  }

  /** Store and queue agree: every status the handlers write is Pending or
      Failed, and every queued job has a status entry that reads Pending,
      so no queued job reads "not found" or Failed. */
  ghost predicate Synced(s: State)
  {
    && (forall k :: k in s.store ==> s.store[k].value == Pending || s.store[k].value == Failed)
    && (forall i :: 0 <= i < |s.queue| ==>
          JobKey(s.queue[i].key) in s.store && s.store[JobKey(s.queue[i].key)].value == Pending)
  }

  /** Every request's id is new to the store and to the other requests, as
      generated UUIDs are assumed to be. */
  ghost predicate FreshIds(s: State, subs: seq<Submission>)
  {
    && (forall i :: 0 <= i < |subs| ==> JobKey(subs[i].id) !in s.store)
    && (forall i, j :: 0 <= i < j < |subs| ==> subs[i].id != subs[j].id)
  }

  /** One upload with a fresh id keeps the store and the queue in agreement,
      on every path, including the compensated one. */
  lemma UploadPreservesSynced(s: State, sub: Submission)
    requires Synced(s)
    requires JobKey(sub.id) !in s.store
    ensures Synced(Submit(s, sub).state)
  {
    var s' := Submit(s, sub).state;
    forall i | 0 <= i < |s.queue|
      ensures JobKey(s.queue[i].key) != JobKey(sub.id)
    {
    }
    if s'.queue != s.queue {
      assert s'.queue == s.queue + [s'.queue[|s.queue|]];
      assert s'.store[JobKey(sub.id)].value == Pending;
    }
  }

  /** A whole session of fresh-id uploads keeps the store and the queue in
      agreement. */
  lemma {:induction false} RunPreservesSynced(s: State, subs: seq<Submission>)
    requires Synced(s)
    requires FreshIds(s, subs)
    ensures Synced(Run(s, subs).state)
    decreases |subs|
  {
    if |subs| > 0 {
      var s1 := Submit(s, subs[0]).state;
      UploadPreservesSynced(s, subs[0]);
      forall i | 0 <= i < |subs[1..]|
        ensures JobKey(subs[1..][i].id) !in s1.store
      {
        assert subs[1..][i] == subs[i + 1];
        JobKeyInjective(subs[0].id, subs[i + 1].id);
      }
      assert FreshIds(s1, subs[1..]);
      RunPreservesSynced(s1, subs[1..]);
    }
  }

  /** Fresh ids are needed: a resubmission of an already queued id whose
      queue write fails is compensated to Failed while the earlier message
      is still queued. */
  lemma ReusedIdCanDiverge()
    ensures var s := State(map[JobKey("a") := Entry(Pending, JobTTL)], [Message("a", [])]);
            var env := Env(Outcomes.Ok, Outcomes.Ok, Outcomes.Ok, Outcomes.Ok, _ => Encoded([]),
                           Outcomes.Err("broker unavailable"), Outcomes.Ok);
            Synced(s) && !Synced(Submit(s, Submission(Present("x.pdf"), "a", 0, env)).state)
  {
    var s := State(map[JobKey("a") := Entry(Pending, JobTTL)], [Message("a", [])]);
    var env := Env(Outcomes.Ok, Outcomes.Ok, Outcomes.Ok, Outcomes.Ok, _ => Encoded([]),
                   Outcomes.Err("broker unavailable"), Outcomes.Ok);
    var s' := Submit(s, Submission(Present("x.pdf"), "a", 0, env)).state;
    assert s'.queue[0] == Message("a", []);
    assert s'.store[JobKey("a")].value == Failed;
  }
}
