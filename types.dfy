/**
 * The shared vocabulary of the pipeline: job states, source kinds, the
 * recogniser's result and its timestamped segments.
 */
module Types {
  import opened Wrappers

  /** The four job states; a job moves Queued -> Processing -> Completed or Failed. */
  datatype JobStatus = Queued | Processing | Completed | Failed {

    /** The string constant the service stores and reports for this state. */
    function Name(): string {
      match this
      case Queued => "QUEUED"
      case Processing => "PROCESSING"
      case Completed => "COMPLETED"
      case Failed => "FAILED"
    }

    predicate IsTerminal() {
      Completed? || Failed?
    }
  }

  const StatusNames: set<string> := {"QUEUED", "PROCESSING", "COMPLETED", "FAILED"}

  /** Reads a stored status string back; only the four constants are statuses. */
  function ParseStatus(s: string): (r: Option<JobStatus>)
    ensures r.Some? <==> s in StatusNames
    ensures r.Some? ==> r.value.Name() == s
  {
    if s == "QUEUED" then Some(Queued)
    else if s == "PROCESSING" then Some(Processing)
    else if s == "COMPLETED" then Some(Completed)
    else if s == "FAILED" then Some(Failed)
    else None
  }

  /** Every state's name reads back as that state, so the four names are pairwise distinct. */
  lemma StatusNameRoundTrip(st: JobStatus)
    ensures ParseStatus(st.Name()) == Some(st)
    ensures forall other: JobStatus :: other.Name() == st.Name() ==> other == st
  {
  }

  /** Where the audio of a job came from. */
  datatype SourceKind = Upload | GDrive | YouTube | Stream {

    function Name(): string {
      match this
      case Upload => "upload"
      case GDrive => "gdrive"
      case YouTube => "youtube"
      case Stream => "stream"
    }
  }

  const SourceNames: set<string> := {"upload", "gdrive", "youtube", "stream"}

  function ParseSource(s: string): (r: Option<SourceKind>)
    ensures r.Some? <==> s in SourceNames
    ensures r.Some? ==> r.value.Name() == s
  {
    if s == "upload" then Some(Upload)
    else if s == "gdrive" then Some(GDrive)
    else if s == "youtube" then Some(YouTube)
    else if s == "stream" then Some(Stream)
    else None
  }

  lemma SourceNameRoundTrip(k: SourceKind)
    ensures ParseSource(k.Name()) == Some(k)
    ensures forall other: SourceKind :: other.Name() == k.Name() ==> other == k
  {
  }

  /** A wall-clock reading broken into calendar fields (time.Time). */
  datatype DateTime = DateTime(year: nat, month: nat, day: nat, hour: nat, minute: nat, second: nat) {
    predicate Valid() {
      1 <= month <= 12 && 1 <= day <= 31 && hour < 24 && minute < 60 && second < 60
    }
  }

  /** Go's zero time.Time: January 1, year 1, 00:00:00 UTC. */
  const ZeroTime := DateTime(1, 1, 1, 0, 0, 0)

  /**
   * One timestamped piece of the transcript. Times are float64 seconds in the
   * service; the model only copies them, so they are reals here.
   */
  datatype Segment = Segment(start: real, end: real, text: string)

  /** What the recogniser produced, plus the fields the pipeline fills in. */
  datatype TranscriptionResult = TranscriptionResult(
    jobId: string,
    text: string,
    language: string,
    duration: real,
    segments: seq<Segment>,
    wordCount: int,
    processedAt: DateTime,
    localPath: string,
    gdriveUrl: string)
}
