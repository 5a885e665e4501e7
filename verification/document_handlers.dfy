/** The gateway's two request handlers (src/gateway/internal/handlers/
    document_handlers.go): `Upload` accepts a file, records the job as
    Pending and queues it, compensating with Failed when the queue write
    fails; `Status` reads a job's status back.

    Each handler is a function from the state and the injected outcomes of
    every external call to the new state, the HTTP response and the trace of
    calls made. The generated job id and the clock reading are inputs. */
module DocumentHandler {
  import opened Outcomes
  import opened JobRecord
  import opened StatusStore
  import opened JobQueue
  import opened Effects

  // HTTP status codes the handlers answer with.
  const StatusOK: int := 200
  const StatusAccepted: int := 202
  const StatusBadRequest: int := 400
  const StatusNotFound: int := 404
  const StatusInternalServerError: int := 500

  /** The status the compensating write records. */
  const Failed: string := "Failed"

  /** One hour as a duration in nanoseconds, the unit of the store client's TTL. */
  const Hour: int := 3_600_000_000_000

  /** Every status entry the gateway writes lives for 24 hours. */
  const JobTTL: int := 24 * Hour

  /** The status-store key of a job. */
  function JobKey(id: string): string
  {
    "job:" + id
  }

  /** Where the upload of a job is saved before it is queued. */
  function TempPath(id: string, filename: string): string
  {
    "/tmp/" + id + "_" + filename
  }

  /** The multipart form as the handler sees it: either the "file" field is
      missing (or unreadable), or it carries a client-supplied file name. */
  datatype UploadForm = Missing | Present(filename: string)

  datatype Response = Response(code: int, body: map<string, string>)

  function ErrorResponse(code: int, msg: string): Response
  {
    Response(code, map["error" := msg])
  }

  /** What the JSON encoder returns for a job. */
  datatype Encoding = Encoded(bytes: seq<byte>) | EncodeError(msg: string)

  /** The injected behaviour of every collaborator one upload touches, in
      the order they are called; `marshal` stands for the JSON encoder. */
  datatype Env = Env(open: Outcome, create: Outcome, copy: Outcome, setPending: Outcome,
                     marshal: Job -> Encoding, write: Outcome, setFailed: Outcome)

  /** A handler's result: the state after the request, the response and the
      calls made, in order. */
  datatype Step = Step(state: State, response: Response, trace: seq<Effect>)

  /** The job record an upload builds: its file path is the temporary path. */
  function SubmittedJob(id: string, filename: string, now: int): Job
  {
    New(id, filename, TempPath(id, filename), now)
  }

  /** Some call before position `i` wrote Pending, with the job TTL, under
      the key of job `id`, and succeeded. */
  predicate PendingBefore(t: seq<Effect>, i: int, id: string)
  {
    exists j :: 0 <= j < i && j < |t| && t[j] == Effect(StoreSet(JobKey(id), Pending, JobTTL), true)
  }

  /** Some call before position `i` copied the upload to disk and succeeded. */
  predicate SavedBefore(t: seq<Effect>, i: int)
  {
    exists j :: 0 <= j < i && j < |t| && t[j].call.CopyUpload? && t[j].ok
  }

  /** Write-ahead: every queue write is preceded by a successful SET of
      Pending under the key of the message's job. */
  predicate WriteAhead(t: seq<Effect>)
  {
    forall i :: 0 <= i < |t| && t[i].call.QueueWrite? ==> PendingBefore(t, i, t[i].call.msg.key)
  }

  /** No call reaches the store or the queue before the upload was saved. */
  predicate PersistedFirst(t: seq<Effect>)
  {
    forall i :: 0 <= i < |t| && Mutates(t[i].call) ==> SavedBefore(t, i)
  }

  /** Fail-stop: a failed call is the last call, except a failed queue write,
      which is followed by exactly one compensating SET of Failed under the
      same job's key, whose own outcome ends the trace either way. */
  predicate FailStop(t: seq<Effect>)
  {
    forall i :: 0 <= i < |t| && !t[i].ok ==>
      if t[i].call.QueueWrite? then
        i == |t| - 2 && t[i + 1].call == StoreSet(JobKey(t[i].call.msg.key), Failed, JobTTL)
      else
        i == |t| - 1
  }

  /** Every call of an upload concerns the one job it submits, and none of
      them reads the store. */
  predicate AboutOneJob(t: seq<Effect>, id: string, filename: string)
  {
    forall i :: 0 <= i < |t| ==>
      match t[i].call
      case OpenUpload => true
      case CreateFile(p) => p == TempPath(id, filename)
      case CopyUpload(p) => p == TempPath(id, filename)
      case StoreSet(k, _, ttl) => k == JobKey(id) && ttl == JobTTL
      case Marshal(j) => j.id == id && j.filePath == TempPath(id, filename)
      case QueueWrite(m) => m.key == id
      case StoreGet(_) => false
  }

  /** POST /upload. */
  function Upload(s: State, form: UploadForm, id: string, now: int, env: Env): (r: Step)
    // the response names the failure class: bad input, infrastructure, or accepted
    ensures r.response.code in {StatusBadRequest, StatusInternalServerError, StatusAccepted}
    ensures r.response.code == StatusBadRequest <==> form.Missing?
    ensures r.response.code != StatusAccepted ==> r.response.body.Keys == {"error"}
    ensures r.response.code == StatusAccepted ==>
              "job_id" in r.response.body && r.response.body["job_id"] == id
              && "status" in r.response.body && r.response.body["status"] == Pending
    // the queue gains one message, the serialised job, exactly when the job is accepted
    ensures r.response.code == StatusAccepted <==> |r.state.queue| == |s.queue| + 1
    ensures r.response.code != StatusAccepted ==> r.state.queue == s.queue
    ensures r.response.code == StatusAccepted ==>
              form.Present? && env.marshal(SubmittedJob(id, form.filename, now)).Encoded?
              && r.state.queue == s.queue + [Message(id, env.marshal(SubmittedJob(id, form.filename, now)).bytes)]
    // only the job's own key may change, and only to Pending or Failed
    ensures || r.state.store == s.store
            || r.state.store == s.store[JobKey(id) := Entry(Pending, JobTTL)]
            || r.state.store == s.store[JobKey(id) := Entry(Failed, JobTTL)]
    ensures r.response.code == StatusAccepted ==> r.state.store == s.store[JobKey(id) := Entry(Pending, JobTTL)]
  {
    match form
    case Missing => Step(s, ErrorResponse(StatusBadRequest, "file is required"), [])
    case Present(filename) =>
      var path := TempPath(id, filename);
      var job := SubmittedJob(id, filename, now);
      var key := JobKey(id);
      var openOk := Effect(OpenUpload, true);
      var createOk := Effect(CreateFile(path), true);
      var copyOk := Effect(CopyUpload(path), true);
      if env.open.Err? then
        var t := [Effect(OpenUpload, false)];
        Step(s, ErrorResponse(StatusInternalServerError, "could not open file"), t)
      else if env.create.Err? then
        var t := [openOk, Effect(CreateFile(path), false)];
        Step(s, ErrorResponse(StatusInternalServerError, "server storage error"), t)
      else if env.copy.Err? then
        var t := [openOk, createOk, Effect(CopyUpload(path), false)];
        Step(s, ErrorResponse(StatusInternalServerError, "failed to save file"), t)
      else if env.setPending.Err? then
        var t := [openOk, createOk, copyOk, Effect(StoreSet(key, Pending, JobTTL), false)];
        Step(s, ErrorResponse(StatusInternalServerError, "internal server error: " + env.setPending.msg), t)
      else
        var pending := Effect(StoreSet(key, Pending, JobTTL), true);
        var s1 := s.(store := Set(s.store, key, Pending, JobTTL, env.setPending));
        match env.marshal(job)
        case EncodeError(msg) =>
          Step(s1, ErrorResponse(StatusInternalServerError, "internal server error: " + msg),
               [openOk, createOk, copyOk, pending, Effect(Marshal(job), false)])
        case Encoded(bytes) =>
          var m := Message(id, bytes);
          if env.write.Err? then
            // compensation: its own outcome is ignored
            var s2 := s1.(store := Set(s1.store, key, Failed, JobTTL, env.setFailed));
            Step(s2, ErrorResponse(StatusInternalServerError, "failed to queue job"),
                 [openOk, createOk, copyOk, pending, Effect(Marshal(job), true),
                  Effect(QueueWrite(m), false), Effect(StoreSet(key, Failed, JobTTL), env.setFailed.Ok?)])
          else
            Step(s1.(queue := Append(s1.queue, m, env.write)),
                 Response(StatusAccepted, map["message" := "File accepted for processing",
                                        "job_id" := id,
                                        "status" := Pending]),
                 [openOk, createOk, copyOk, pending, Effect(Marshal(job), true), Effect(QueueWrite(m), true)])
  }

  /** GET /status/:job_id. */
  function Status(s: State, jobId: string, read: Outcome): (r: Step)
    ensures r.state == s
    ensures |r.trace| == 1 && r.trace[0].call == StoreGet(JobKey(jobId))
    ensures r.response.code == StatusNotFound <==> read.Ok? && JobKey(jobId) !in s.store
    ensures r.response.code == StatusInternalServerError <==> read.Err?
    ensures r.response.code == StatusOK <==> read.Ok? && JobKey(jobId) in s.store
    ensures r.response.code == StatusOK ==>
              r.response.body == map["job_id" := jobId, "status" := s.store[JobKey(jobId)].value]
    ensures r.response.code == StatusNotFound ==>
              r.response == ErrorResponse(StatusNotFound, "job not found: " + NilMessage)
    ensures read.Err? ==>
              r.response == ErrorResponse(StatusInternalServerError, "internal server error: " + read.msg)
  {
    var key := JobKey(jobId);
    var t := [Effect(StoreGet(key), read.Ok?)];
    match Get(s.store, key, read)
    case Nil => Step(s, ErrorResponse(StatusNotFound, "job not found: " + NilMessage), t)
    case ReadError(msg) => Step(s, ErrorResponse(StatusInternalServerError, "internal server error: " + msg), t)
    case Found(v) => Step(s, Response(StatusOK, map["job_id" := jobId, "status" := v]), t)
  }

  /** The state an upload leaves behind is exactly what replaying its
      recorded calls does to the state it started from: the handler changes
      the store and the queue only through the calls in its trace. */
  lemma UploadReplays(s: State, form: UploadForm, id: string, now: int, env: Env)
    ensures Upload(s, form, id, now, env).state == Apply(s, Upload(s, form, id, now, env).trace)
  {
    if form.Present? && env.open.Ok? && env.create.Ok? && env.copy.Ok? && env.setPending.Ok? {
      ReplayAfterPending(s, form.filename, id, now, env);
    } else {
      ReplayBeforePending(s, form, id, now, env);
    }
  }

  /** An upload that stops before its Pending write succeeds records no
      successful write and changes nothing. */
  lemma ReplayBeforePending(s: State, form: UploadForm, id: string, now: int, env: Env)
    requires !(form.Present? && env.open.Ok? && env.create.Ok? && env.copy.Ok? && env.setPending.Ok?)
    ensures Upload(s, form, id, now, env).state == s
    ensures Apply(s, Upload(s, form, id, now, env).trace) == s
  {
    var t := Upload(s, form, id, now, env).trace;
    assert forall i :: 0 <= i < |t| ==> !(t[i].ok && Mutates(t[i].call)) by {
      if form.Present? {
        var path := TempPath(id, form.filename);
        if env.open.Err? {
          assert t == [Effect(OpenUpload, false)];
        } else if env.create.Err? {
          assert t == [Effect(OpenUpload, true), Effect(CreateFile(path), false)];
        } else if env.copy.Err? {
          assert t == [Effect(OpenUpload, true), Effect(CreateFile(path), true), Effect(CopyUpload(path), false)];
        } else {
          assert t == [Effect(OpenUpload, true), Effect(CreateFile(path), true), Effect(CopyUpload(path), true),
                       Effect(StoreSet(JobKey(id), Pending, JobTTL), false)];
        }
      }
    }
    ReplayWithoutWritesKeepsState(s, t);
  }

  /** An upload whose Pending write succeeded: replaying its calls gives the
      handler's state on the encoder-failure, queue-failure and accepted paths. */
  lemma ReplayAfterPending(s: State, filename: string, id: string, now: int, env: Env)
    requires env.open.Ok? && env.create.Ok? && env.copy.Ok? && env.setPending.Ok?
    ensures Upload(s, Present(filename), id, now, env).state
         == Apply(s, Upload(s, Present(filename), id, now, env).trace)
  {
    var t := Upload(s, Present(filename), id, now, env).trace;
    var s1 := s.(store := s.store[JobKey(id) := Entry(Pending, JobTTL)]);
    ReplayFilePrefix(s, filename, id, now, env);
    ApplyUnfold(s1, t, 4);
    match env.marshal(SubmittedJob(id, filename, now))
    case EncodeError(_) =>
    case Encoded(bytes) =>
      ApplyUnfold(s1, t, 5);
      if env.write.Err? {
        ApplyUnfold(ApplyOne(s1, t[5]), t, 6);
      }
  }

  /** The first four calls of an upload that got past the Pending write: the
      file calls change nothing and the write records Pending. */
  lemma ReplayFilePrefix(s: State, filename: string, id: string, now: int, env: Env)
    requires env.open.Ok? && env.create.Ok? && env.copy.Ok? && env.setPending.Ok?
    ensures var t := Upload(s, Present(filename), id, now, env).trace;
            && |t| >= 5
            && Apply(s, t) == Apply(s.(store := s.store[JobKey(id) := Entry(Pending, JobTTL)]), t[4..])
  {
    var t := Upload(s, Present(filename), id, now, env).trace;
    assert t == t[..3] + t[3..];
    ReplayWithoutWritesKeepsState(s, t[..3]);
    ApplyConcat(s, t[..3], t[3..]);
    assert t[3] == Effect(StoreSet(JobKey(id), Pending, JobTTL), true);
    ApplyUnfold(s, t, 3);
  }

  /** The calls a fully successful upload makes, each exactly once, in the
      handler's order: open, create, copy, write Pending, serialise, queue. */
  function Protocol(path: string, key: string, job: Job, m: Message): seq<Call>
  {
    [OpenUpload, CreateFile(path), CopyUpload(path), StoreSet(key, Pending, JobTTL), Marshal(job), QueueWrite(m)]
  }

  /** The calls of a trace, without their outcomes. */
  function Calls(t: seq<Effect>): seq<Call>
  {
    seq(|t|, i requires 0 <= i < |t| => t[i].call)
  }

  /** A trace without its trailing compensating SET of Failed, if it has one. */
  function MainCalls(t: seq<Effect>): seq<Effect>
  {
    if |t| > 0 && t[|t| - 1].call.StoreSet? && t[|t| - 1].call.value == Failed then t[..|t| - 1] else t
  }

  /** The shape every upload trace with a file has: apart from a trailing
      compensation, its calls are a prefix of `Protocol`; every call but the
      last succeeded; the last succeeded only when the whole protocol ran;
      and one compensating SET of Failed follows exactly a failed final
      protocol call (the queue write), carrying that SET's own outcome. */
  predicate FollowsProtocol(t: seq<Effect>, proto: seq<Call>, key: string, compensated: bool)
  {
    var main := MainCalls(t);
    && 1 <= |main|
    && Calls(main) <= proto
    && (forall i :: 0 <= i < |main| - 1 ==> main[i].ok)
    && (main[|main| - 1].ok <==> |main| == |proto| && main == t)
    && (main != t <==> |main| == |proto| && !main[|main| - 1].ok)
    && (main != t ==> t == main + [Effect(StoreSet(key, Failed, JobTTL), compensated)])
  }

  /** The exact trace of an upload with a file: it follows `Protocol` for the
      job it submits, so each call is made at most once and in order, and
      the only extra call is the compensation. */
  lemma UploadFollowsProtocol(s: State, filename: string, id: string, now: int, env: Env)
    ensures var job := SubmittedJob(id, filename, now);
            var m := Message(id, if env.marshal(job).Encoded? then env.marshal(job).bytes else []);
            FollowsProtocol(Upload(s, Present(filename), id, now, env).trace,
                            Protocol(TempPath(id, filename), JobKey(id), job, m),
                            JobKey(id), env.setFailed.Ok?)
  {
    var job := SubmittedJob(id, filename, now);
    if env.open.Ok? && env.create.Ok? && env.copy.Ok? && env.setPending.Ok? && env.marshal(job).Encoded? {
      if env.write.Err? {
        ProtocolQueueFailure(s, filename, id, now, env);
      } else {
        ProtocolAccepted(s, filename, id, now, env);
      }
    } else {
      ProtocolEarlyStop(s, filename, id, now, env);
    }
  }

  /** No call is repeated in an upload: in particular there is at most one
      SET of Pending, one queue write and one SET of Failed. */
  lemma UploadCallsDistinct(s: State, form: UploadForm, id: string, now: int, env: Env)
    ensures var t := Upload(s, form, id, now, env).trace;
            forall i, j :: 0 <= i < j < |t| ==> t[i].call != t[j].call
  {
    var t := Upload(s, form, id, now, env).trace;
    if form.Present? {
      var job := SubmittedJob(id, form.filename, now);
      var m := Message(id, if env.marshal(job).Encoded? then env.marshal(job).bytes else []);
      var proto := Protocol(TempPath(id, form.filename), JobKey(id), job, m);
      UploadFollowsProtocol(s, form.filename, id, now, env);
      var main := MainCalls(t);
      assert forall i :: 0 <= i < |main| ==> main[i].call == proto[i];
      assert forall i, j :: 0 <= i < j < |proto| ==> proto[i] != proto[j];
      assert forall i :: 0 <= i < |t| ==> t[i] in main || i == |t| - 1;
    }
  }

  /** `UploadFollowsProtocol` when the upload stops before the queue write. */
  lemma ProtocolEarlyStop(s: State, filename: string, id: string, now: int, env: Env)
    requires !(env.open.Ok? && env.create.Ok? && env.copy.Ok? && env.setPending.Ok?
               && env.marshal(SubmittedJob(id, filename, now)).Encoded?)
    ensures FollowsProtocol(Upload(s, Present(filename), id, now, env).trace,
                            Protocol(TempPath(id, filename), JobKey(id), SubmittedJob(id, filename, now),
                                     Message(id, [])),
                            JobKey(id), env.setFailed.Ok?)
  {
    var t := Upload(s, Present(filename), id, now, env).trace;
    var proto := Protocol(TempPath(id, filename), JobKey(id), SubmittedJob(id, filename, now), Message(id, []));
    assert 1 <= |t| <= 5 && !t[|t| - 1].ok;
    assert MainCalls(t) == t;
    assert Calls(t) == proto[..|t|];
  }

  /** `UploadFollowsProtocol` when the queue write fails. */
  lemma ProtocolQueueFailure(s: State, filename: string, id: string, now: int, env: Env)
    requires env.open.Ok? && env.create.Ok? && env.copy.Ok? && env.setPending.Ok? && env.write.Err?
    requires env.marshal(SubmittedJob(id, filename, now)).Encoded?
    ensures var job := SubmittedJob(id, filename, now);
            FollowsProtocol(Upload(s, Present(filename), id, now, env).trace,
                            Protocol(TempPath(id, filename), JobKey(id), job, Message(id, env.marshal(job).bytes)),
                            JobKey(id), env.setFailed.Ok?)
  {
    var job := SubmittedJob(id, filename, now);
    var t := Upload(s, Present(filename), id, now, env).trace;
    var proto := Protocol(TempPath(id, filename), JobKey(id), job, Message(id, env.marshal(job).bytes));
    assert |t| == 7;
    assert MainCalls(t) == t[..6];
    assert t == t[..6] + [t[6]];
    assert Calls(t[..6]) == proto;
  }

  /** `UploadFollowsProtocol` when every call succeeds. */
  lemma ProtocolAccepted(s: State, filename: string, id: string, now: int, env: Env)
    requires env.open.Ok? && env.create.Ok? && env.copy.Ok? && env.setPending.Ok? && env.write.Ok?
    requires env.marshal(SubmittedJob(id, filename, now)).Encoded?
    ensures var job := SubmittedJob(id, filename, now);
            FollowsProtocol(Upload(s, Present(filename), id, now, env).trace,
                            Protocol(TempPath(id, filename), JobKey(id), job, Message(id, env.marshal(job).bytes)),
                            JobKey(id), env.setFailed.Ok?)
  {
    var job := SubmittedJob(id, filename, now);
    var t := Upload(s, Present(filename), id, now, env).trace;
    var proto := Protocol(TempPath(id, filename), JobKey(id), job, Message(id, env.marshal(job).bytes));
    assert |t| == 6;
    assert MainCalls(t) == t;
    assert Calls(t) == proto;
  }

  /** The calls of an upload come in the protocol's order: the file is saved
      before anything is written, Pending is written ahead of the queue
      write, the first failure ends the upload except that a failed queue
      write is compensated once, and every call is about the submitted job. */
  lemma UploadCallOrder(s: State, form: UploadForm, id: string, now: int, env: Env)
    ensures var t := Upload(s, form, id, now, env).trace;
            && WriteAhead(t) && PersistedFirst(t) && FailStop(t)
            && (form.Present? ==> AboutOneJob(t, id, form.filename))
  {
    var t := Upload(s, form, id, now, env).trace;
    if form.Present? && env.open.Ok? && env.create.Ok? && env.copy.Ok? {
      forall i | 3 <= i < |t|
        ensures SavedBefore(t, i)
      {
        assert t[2] == Effect(CopyUpload(TempPath(id, form.filename)), true);
      }
      if env.setPending.Ok? {
        forall i | 4 <= i < |t|
          ensures PendingBefore(t, i, id)
        {
          assert t[3] == Effect(StoreSet(JobKey(id), Pending, JobTTL), true);
        }
      }
    }
  }

  /** A job key names exactly one job: distinct ids never share a status entry. */
  lemma JobKeyInjective(a: string, b: string)
    ensures JobKey(a) == JobKey(b) <==> a == b
  {
    if JobKey(a) == JobKey(b) {
      assert a == JobKey(a)[4..];
      assert b == JobKey(b)[4..];
    }
  }

  /** For ids of one length (generated UUID strings all have 36 characters),
      the temporary path determines both the id and the file name, so two
      jobs with distinct ids never write to the same file. */
  lemma TempPathInjective(id: string, filename: string, id': string, filename': string)
    requires |id| == |id'|
    ensures TempPath(id, filename) == TempPath(id', filename') <==> id == id' && filename == filename'
  {
    var p, p' := TempPath(id, filename), TempPath(id', filename');
    if p == p' {
      assert id == p[5..5 + |id|];
      assert id' == p'[5..5 + |id'|];
      assert filename == p[6 + |id|..];
      assert filename' == p'[6 + |id'|..];
    }
  }

  /** The equal-length premise above is needed: ids of different lengths
      can produce the same path. */
  lemma TempPathCollidesForUnequalIds()
    ensures TempPath("a", "b_c") == TempPath("a_b", "c")
  {
  }

  /** A request without a file is rejected as bad input before any call. */
  lemma MissingFileRejected(s: State, id: string, now: int, env: Env)
    ensures var r := Upload(s, Missing, id, now, env);
            && r.response == ErrorResponse(StatusBadRequest, "file is required")
            && r.state == s && r.trace == []
  {
  }

  /** When the upload cannot be opened, created on disk or copied, the
      answer is an infrastructure error naming the step, and neither the
      store nor the queue is called. */
  lemma FileFailureTouchesNothing(s: State, filename: string, id: string, now: int, env: Env)
    requires env.open.Err? || env.create.Err? || env.copy.Err?
    ensures var r := Upload(s, Present(filename), id, now, env);
            && r.state == s
            && r.response == ErrorResponse(StatusInternalServerError,
                 if env.open.Err? then "could not open file"
                 else if env.create.Err? then "server storage error"
                 else "failed to save file")
            && forall i :: 0 <= i < |r.trace| ==> !Mutates(r.trace[i].call)
  {
  }

  /** A failed Pending write fails the upload with the store's error and
      nothing reaches the queue. */
  lemma PendingWriteFailureNoEnqueue(s: State, filename: string, id: string, now: int, env: Env)
    requires env.open.Ok? && env.create.Ok? && env.copy.Ok? && env.setPending.Err?
    ensures var r := Upload(s, Present(filename), id, now, env);
            && r.state == s
            && r.response == ErrorResponse(StatusInternalServerError, "internal server error: " + env.setPending.msg)
            && forall i :: 0 <= i < |r.trace| ==> !r.trace[i].call.QueueWrite?
  {
  }

  /** When the job cannot be serialised after the Pending write, the upload
      fails without a queue write and without compensation: the job stays
      Pending. */
  lemma EncodeFailureLeavesPending(s: State, filename: string, id: string, now: int, env: Env)
    requires env.open.Ok? && env.create.Ok? && env.copy.Ok? && env.setPending.Ok?
    requires env.marshal(SubmittedJob(id, filename, now)).EncodeError?
    ensures var r := Upload(s, Present(filename), id, now, env);
            && r.response == ErrorResponse(StatusInternalServerError,
                 "internal server error: " + env.marshal(SubmittedJob(id, filename, now)).msg)
            && r.state == State(s.store[JobKey(id) := Entry(Pending, JobTTL)], s.queue)
            && forall i :: 0 <= i < |r.trace| ==>
                 !r.trace[i].call.QueueWrite? && (r.trace[i].call.StoreSet? ==> r.trace[i].call.value == Pending)
  {
  }

  /** A failed queue write is compensated by one SET of Failed under the
      same key with the same TTL; the answer is "failed to queue job" and
      the job reads Failed if the compensation succeeded, Pending if not. */
  lemma QueueFailureCompensates(s: State, filename: string, id: string, now: int, env: Env)
    requires env.open.Ok? && env.create.Ok? && env.copy.Ok? && env.setPending.Ok?
    requires env.marshal(SubmittedJob(id, filename, now)).Encoded? && env.write.Err?
    ensures var r := Upload(s, Present(filename), id, now, env);
            && r.response == ErrorResponse(StatusInternalServerError, "failed to queue job")
            && r.state.queue == s.queue
            && r.state.store == s.store[JobKey(id) := Entry(if env.setFailed.Ok? then Failed else Pending, JobTTL)]
            && r.trace[|r.trace| - 1].call == StoreSet(JobKey(id), Failed, JobTTL)
  {
  }

  /** The compensating write's outcome never changes the answer. */
  lemma CompensationOutcomeIgnored(s: State, form: UploadForm, id: string, now: int, env: Env, o: Outcome)
    ensures Upload(s, form, id, now, env).response == Upload(s, form, id, now, env.(setFailed := o)).response
  {
  }

  /** A fully successful upload answers 202 with the job id and Pending,
      holds Pending under the job's key and has queued the serialised job,
      keyed by its id, as the last message. */
  lemma AcceptedUpload(s: State, filename: string, id: string, now: int, env: Env)
    requires env.open.Ok? && env.create.Ok? && env.copy.Ok? && env.setPending.Ok? && env.write.Ok?
    requires env.marshal(SubmittedJob(id, filename, now)).Encoded?
    ensures var r := Upload(s, Present(filename), id, now, env);
            && r.response == Response(StatusAccepted, map["message" := "File accepted for processing",
                                                    "job_id" := id, "status" := Pending])
            && r.state.store == s.store[JobKey(id) := Entry(Pending, JobTTL)]
            && r.state.queue == s.queue + [Message(id, env.marshal(SubmittedJob(id, filename, now)).bytes)]
  {
  }

  /** The queued job record carries the submitted id and the temporary path,
      and its id is the suffix of the status key written for it. */
  lemma QueuedJobMatchesStatusKey(s: State, filename: string, id: string, now: int, env: Env)
    ensures var t := Upload(s, Present(filename), id, now, env).trace;
            forall i :: 0 <= i < |t| && t[i].call.Marshal? ==>
              && t[i].call.job.id == id
              && t[i].call.job.filePath == "/tmp/" + id + "_" + filename
              && t[i].call.job.status == Pending
              && JobKey(t[i].call.job.id) == "job:" + id
  {
  }

  /** Status only reads: replaying its trace changes nothing. */
  lemma StatusIsReadOnly(s: State, jobId: string, read: Outcome)
    ensures Apply(s, Status(s, jobId, read).trace) == s
  {
    var t := Status(s, jobId, read).trace;
    ReplayWithoutWritesKeepsState(s, t);
  }

  /** Querying again with no write in between gives the same answer. */
  lemma StatusRepeatable(s: State, jobId: string, read: Outcome)
    ensures Status(Status(s, jobId, read).state, jobId, read) == Status(s, jobId, read)
  {
  }

  /** Submit then query: after an accepted upload the job reads Pending,
      while an id that was never written reads "not found". */
  lemma SubmitThenQuery(s: State, filename: string, id: string, now: int, env: Env, other: string)
    requires Upload(s, Present(filename), id, now, env).response.code == StatusAccepted
    requires other != id && JobKey(other) !in s.store
    ensures var s' := Upload(s, Present(filename), id, now, env).state;
            && Status(s', id, Ok).response == Response(StatusOK, map["job_id" := id, "status" := Pending])
            && Status(s', other, Ok).response == ErrorResponse(StatusNotFound, "job not found: " + NilMessage)
  {
    JobKeyInjective(id, other);
  }

  /** After a failed queue write whose compensation succeeded, the job reads
      Failed, never "not found". */
  lemma CompensatedJobReadsFailed(s: State, filename: string, id: string, now: int, env: Env)
    requires env.open.Ok? && env.create.Ok? && env.copy.Ok? && env.setPending.Ok?
    requires env.marshal(SubmittedJob(id, filename, now)).Encoded? && env.write.Err? && env.setFailed.Ok?
    ensures Status(Upload(s, Present(filename), id, now, env).state, id, Ok).response
         == Response(StatusOK, map["job_id" := id, "status" := Failed])
  {
  }

  /** An upload never changes what another job's status query answers. */
  lemma UploadLeavesOtherJobsAlone(s: State, form: UploadForm, id: string, now: int, env: Env,
                                   other: string, read: Outcome)
    requires other != id
    ensures Status(Upload(s, form, id, now, env).state, other, read).response == Status(s, other, read).response
  {
    JobKeyInjective(id, other);
  }

  /** For a new id, an upload leaves a status entry exactly when its Pending
      write succeeded; entries of other jobs are never removed. */
  lemma StatusEntryIffPendingWritten(s: State, form: UploadForm, id: string, now: int, env: Env)
    requires JobKey(id) !in s.store
    ensures var r := Upload(s, form, id, now, env);
            && (JobKey(id) in r.state.store <==> Effect(StoreSet(JobKey(id), Pending, JobTTL), true) in r.trace)
            && s.store.Keys <= r.state.store.Keys
  {
    var r := Upload(s, form, id, now, env);
    if form.Present? && env.open.Ok? && env.create.Ok? && env.copy.Ok? && env.setPending.Ok? {
      assert r.trace[3] == Effect(StoreSet(JobKey(id), Pending, JobTTL), true);
    } else {
      ReplayBeforePending(s, form, id, now, env);
      UploadCallOrder(s, form, id, now, env);
    }
  }
}
