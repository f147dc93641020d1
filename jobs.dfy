/** The unit of work that flows from the intake handlers through the queue to a worker. */
module Jobs {
  import opened Wrappers
  import opened Types

  /** The four fields an intake handler fills in when it builds a job. */
  datatype JobRequest = JobRequest(id: string, requestName: string, sourceType: SourceKind, filePath: string)

  /**
   * A job record. Its identity fields are never reassigned once built; the
   * worker that owns it updates status and error in place.
   */
  class Job {
    const id: string
    const requestName: string
    const sourceType: SourceKind
    const filePath: string
    var status: JobStatus
    var error: Option<string>
    var result: Option<TranscriptionResult>
    var createdAt: DateTime

    /** The identity fields, as a value. */
    function Request(): JobRequest {
      JobRequest(id, requestName, sourceType, filePath)
    }

    /** NewJob: a queued job with no error and no result, stamped with the construction time. */
    constructor NewJob(id: string, requestName: string, sourceType: SourceKind, filePath: string, now: DateTime)
      ensures Request() == JobRequest(id, requestName, sourceType, filePath)
      ensures status == Queued && error == None && result == None
      ensures createdAt == now
    {
      this.id := id;
      this.requestName := requestName;
      this.sourceType := sourceType;
      this.filePath := filePath;
      this.status := Queued;
      this.error := None;
      this.result := None;
      this.createdAt := now;
    }
  }
}
