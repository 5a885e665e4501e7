/** The unit of work the gateway serialises onto the queue
    (internal/job/job.go). */
module JobRecord {

  /** The initial lifecycle value every new job carries. */
  const Pending: string := "Pending"

  /** `createdAt` stands for the clock reading `time.Now()` takes; the clock
      is not part of this model, so the caller supplies the reading. */
  datatype Job = Job(id: string, filename: string, filePath: string, status: string, createdAt: int)

  /** The constructor: every argument is stored unchanged and the status
      starts at Pending whatever the arguments are. */
  function New(id: string, filename: string, filePath: string, now: int): (j: Job)
    ensures j.id == id && j.filename == filename && j.filePath == filePath
    ensures j.createdAt == now
    ensures j.status == Pending
  {
    Job(id, filename, filePath, Pending, now)
  }

  /** The constructor's arguments, read back from a record. */
  function Arguments(j: Job): (string, string, string, int)
  {
    (j.id, j.filename, j.filePath, j.createdAt)
  }

  /** Reading the arguments back from a new job gives what was passed in. */
  lemma NewRoundTrip(id: string, filename: string, filePath: string, now: int)
    ensures Arguments(New(id, filename, filePath, now)) == (id, filename, filePath, now)
  {
  }

  /** Every Pending job is the constructor's result on its own fields, so the
      constructor reaches exactly the records whose status is Pending. */
  lemma NewReachesEveryPendingJob(j: Job)
    ensures j.status == Pending <==> New(j.id, j.filename, j.filePath, j.createdAt) == j
  {
  }

  /** Two constructions agree exactly when their arguments agree. */
  lemma NewInjective(id: string, filename: string, filePath: string, now: int,
                     id': string, filename': string, filePath': string, now': int)
    ensures New(id, filename, filePath, now) == New(id', filename', filePath', now')
        <==> (id, filename, filePath, now) == (id', filename', filePath', now')
  {
  }
}
