/**
 * The worker pool: a bounded FIFO of jobs and the per-job pipeline a worker
 * runs (normalize, transcribe, save locally, optionally upload to Drive with
 * retries, optionally record metadata, clean up), with panic containment.
 *
 * Each collaborator (ffmpeg, Whisper, local storage, Drive, SQLite) is a
 * scripted `Answer`: what the call returned, the error it reported, or the
 * panic it raised. What a run does is recorded as a sequence of `Effect`s.
 */
module Worker {
  import opened Wrappers
  import opened Types
  import opened Jobs
  import opened TempFiles
  import GoText

  /** Capacity of the job channel. */
  const QueueCapacity: nat := 100

  /** Upload attempts before giving up on Drive. */
  const MaxUploadAttempts: nat := 3

  /** How one call to a collaborator ended. */
  datatype Answer<T> = Returned(value: T) | Errored(error: string) | Panicked(fault: string)

  /** The row handed to the metadata store. */
  datatype MetadataRow = MetadataRow(
    jobId: string,
    requestName: string,
    sourceType: string,
    gdriveUrl: string,
    localPath: string,
    duration: real,
    wordCount: int)

  /** One observable step of a pipeline run. */
  datatype Effect =
    | SetStatus(status: JobStatus)
    | CallNormalize(input: string)
    | CreateFile(path: string)
    | CallTranscribe(audio: string)
    | CallSaveLocal(name: string, result: TranscriptionResult)
    | CallUpload(attempt: nat, name: string, result: TranscriptionResult)
    | Sleep(seconds: nat)
    | CallSaveMetadata(row: MetadataRow)
    | RemoveFile(path: string)

  /** The collaborators' answers for one run of the pipeline, and the clock reading it takes. */
  datatype Collaborators = Collaborators(
    normalize: Answer<string>,
    transcribe: Answer<TranscriptionResult>,
    saveLocal: Answer<string>,
    uploads: seq<Answer<string>>,
    saveMetadata: Answer<()>,
    now: DateTime)
  {
    /** One answer per possible upload attempt. */
    predicate Valid() {
      |uploads| == MaxUploadAttempts
    }
  }

  /** Which optional collaborators exist: the Drive client and the database. */
  datatype Config = Config(driveEnabled: bool, dbEnabled: bool)

  /**
   * What a run ended with: its effects in order, the last status it set, the
   * error it recorded (None when it recorded none) and the panic it let
   * escape (None when it returned normally).
   */
  datatype Run = Run(effects: seq<Effect>, status: JobStatus, error: Option<string>, fault: Option<string>)

  // ---------------------------------------------------------------------------
  // The temp directory as the effects leave it

  /** cleanupTempFile on a set of paths: "" is ignored, an absent path is no error. */
  function Removed(files: set<string>, path: string): set<string> {
    if path == "" then files else files - {path}
  }

  function ApplyEffect(files: set<string>, e: Effect): set<string> {
    match e
    case CreateFile(p) => files + {p}
    case RemoveFile(p) => Removed(files, p)
    case _ => files
  }

  /** The temp directory after `effects`, starting from `files`. */
  function Apply(files: set<string>, effects: seq<Effect>): set<string>
    decreases |effects|
  {
    if effects == [] then files else Apply(ApplyEffect(files, effects[0]), effects[1..])
  }

  lemma {:induction false} ApplyAppend(files: set<string>, a: seq<Effect>, b: seq<Effect>)
    ensures Apply(files, a + b) == Apply(Apply(files, a), b)
    decreases |a|
  {
    if a == [] {
      assert a + b == b;
    } else {
      assert (a + b)[1..] == a[1..] + b;
      ApplyAppend(ApplyEffect(files, a[0]), a[1..], b);
    }
  }

  // ---------------------------------------------------------------------------
  // Upload with retry

  /** What the retry loop ended with. */
  datatype RetryOutcome = RetryOutcome(effects: seq<Effect>, url: Option<string>, fault: Option<string>)

  /**
   * The retry loop from attempt `attempt` on: call Upload; stop at a success
   * or a panic; after a failure pause attempt*attempt seconds unless it was
   * the last attempt.
   */
  function Retry(name: string, r: TranscriptionResult, uploads: seq<Answer<string>>, attempt: nat): RetryOutcome
    requires |uploads| == MaxUploadAttempts && 1 <= attempt <= MaxUploadAttempts
    decreases MaxUploadAttempts - attempt
  {
    var call := [CallUpload(attempt, name, r)];
    match uploads[attempt - 1]
    case Returned(u) => RetryOutcome(call, Some(u), None)
    case Panicked(v) => RetryOutcome(call, None, Some(v))
    case Errored(_) =>
      if attempt < MaxUploadAttempts then
        var rest := Retry(name, r, uploads, attempt + 1);
        RetryOutcome(call + [Sleep(attempt * attempt)] + rest.effects, rest.url, rest.fault)
      else RetryOutcome(call, None, None)
  }

  /** The number of Upload calls the loop makes: up to and including the first that does not fail, at most 3. */
  function Attempts(uploads: seq<Answer<string>>): (k: nat)
    requires |uploads| == MaxUploadAttempts
    ensures 1 <= k <= MaxUploadAttempts
    ensures forall i :: 0 <= i < k - 1 ==> uploads[i].Errored?
    ensures k < MaxUploadAttempts ==> !uploads[k - 1].Errored?
  {
    if !uploads[0].Errored? then 1 else if !uploads[1].Errored? then 2 else 3
  }

  /** Every call and pause the loop can make, in order: attempt 1, 1 s, attempt 2, 4 s, attempt 3. */
  function FullSchedule(name: string, r: TranscriptionResult): seq<Effect> {
    [CallUpload(1, name, r), Sleep(1), CallUpload(2, name, r), Sleep(4), CallUpload(3, name, r)]
  }

  /**
   * The loop makes `Attempts` calls, pausing 1 s then 4 s between failed ones
   * and never after the third; it reports the URL of a success and the value
   * of a panic, and nothing when all three attempts failed.
   */
  lemma RetryBehaviour(name: string, r: TranscriptionResult, uploads: seq<Answer<string>>)
    requires |uploads| == MaxUploadAttempts
    ensures var o := Retry(name, r, uploads, 1);
            var k := Attempts(uploads);
            && o.effects == FullSchedule(name, r)[..2 * k - 1]
            && o.url == (if uploads[k - 1].Returned? then Some(uploads[k - 1].value) else None)
            && o.fault == (if uploads[k - 1].Panicked? then Some(uploads[k - 1].fault) else None)
  {
    var s := FullSchedule(name, r);
    if uploads[0].Errored? {
      if uploads[1].Errored? {
        assert s[..5] == s;
      } else {
        assert s[..3] == [CallUpload(1, name, r), Sleep(1), CallUpload(2, name, r)];
      }
    }
  }

  /** When all three attempts fail, Upload is called three times, with pauses of 1 and 4 seconds, and no URL results. */
  lemma RetryExhausted(name: string, r: TranscriptionResult, uploads: seq<Answer<string>>)
    requires |uploads| == MaxUploadAttempts
    requires forall i :: 0 <= i < |uploads| ==> uploads[i].Errored?
    ensures Retry(name, r, uploads, 1) == RetryOutcome(FullSchedule(name, r), None, None)
  {
    RetryBehaviour(name, r, uploads);
    assert FullSchedule(name, r)[..5] == FullSchedule(name, r);
  }

  /**
   * The retry loop of processJob: at most three Upload calls, a pause of
   * attempt*attempt seconds after each failed attempt but the third, stopping
   * at the first success.
   */
  method UploadWithRetry(name: string, r: TranscriptionResult, uploads: seq<Answer<string>>)
      returns (url: Option<string>, fault: Option<string>, effects: seq<Effect>)
    requires |uploads| == MaxUploadAttempts
    ensures RetryOutcome(effects, url, fault) == Retry(name, r, uploads, 1)
  {
    effects, url, fault := [], None, None;
    var attempt := 1;
    while attempt <= MaxUploadAttempts
      invariant 1 <= attempt <= MaxUploadAttempts + 1
      invariant url == None && fault == None
      invariant attempt <= MaxUploadAttempts ==>
        var rest := Retry(name, r, uploads, attempt);
        Retry(name, r, uploads, 1) == RetryOutcome(effects + rest.effects, rest.url, rest.fault)
      invariant attempt > MaxUploadAttempts ==> Retry(name, r, uploads, 1) == RetryOutcome(effects, None, None)
    {
      ghost var done := effects;
      effects := effects + [CallUpload(attempt, name, r)];
      match uploads[attempt - 1] {
        case Returned(u) =>
          url := Some(u);
          break;
        case Panicked(v) =>
          fault := Some(v);
          break;
        case Errored(_) =>
          if attempt < MaxUploadAttempts {
            RetryAgain(name, r, uploads, attempt, done);
            effects := effects + [Sleep(attempt * attempt)];
          }
          attempt := attempt + 1;
      }
    }
  }

  /** After a failed attempt other than the last, the loop pauses and the rest is the next attempt's run. */
  lemma RetryAgain(name: string, r: TranscriptionResult, uploads: seq<Answer<string>>, attempt: nat, done: seq<Effect>)
    requires |uploads| == MaxUploadAttempts && 1 <= attempt < MaxUploadAttempts && uploads[attempt - 1].Errored?
    ensures var here, next := Retry(name, r, uploads, attempt), Retry(name, r, uploads, attempt + 1);
            && done + here.effects == done + [CallUpload(attempt, name, r)] + [Sleep(attempt * attempt)] + next.effects
            && here.url == next.url && here.fault == next.fault
  {
    var next := Retry(name, r, uploads, attempt + 1);
    assert Retry(name, r, uploads, attempt).effects == [CallUpload(attempt, name, r)] + [Sleep(attempt * attempt)] + next.effects;
  }

  // ---------------------------------------------------------------------------
  // The pipeline of one job

  /** The recogniser's result as the pipeline enriches it: job ID, word count and processing time. */
  function Enrich(raw: TranscriptionResult, jobId: string, now: DateTime): (r: TranscriptionResult)
    ensures r.jobId == jobId && r.wordCount == GoText.WordCount(raw.text) && r.processedAt == now
    ensures r.(jobId := raw.jobId, wordCount := raw.wordCount, processedAt := raw.processedAt) == raw
  {
    raw.(jobId := jobId, wordCount := GoText.WordCount(raw.text), processedAt := now)
  }

  /** The metadata row for job `j` with result `r`. */
  function Row(j: JobRequest, r: TranscriptionResult): MetadataRow {
    MetadataRow(j.id, j.requestName, j.sourceType.Name(), r.gdriveUrl, r.localPath, r.duration, r.wordCount)
  }

  /** A failed stage: mark the job FAILED with `message` and remove its input file. */
  function Fail(j: JobRequest, prefix: seq<Effect>, message: string): Run {
    Run(prefix + [SetStatus(Failed), RemoveFile(j.filePath)], Failed, Some(message), None)
  }

  /**
   * Steps 4 to 6 of processJob, for result `r` already saved locally: upload
   * with retry when a Drive client exists, record metadata when a database
   * exists (its error is only logged), remove the input file, COMPLETED.
   */
  function Publishing(j: JobRequest, cfg: Config, c: Collaborators, r: TranscriptionResult): Run
    requires c.Valid()
  {
    var up := if cfg.driveEnabled then Retry(j.requestName, r, c.uploads, 1) else RetryOutcome([], None, None);
    if up.fault.Some? then Run(up.effects, Processing, None, up.fault)
    else
      var r2 := if up.url.Some? then r.(gdriveUrl := up.url.value) else r;
      var s := if cfg.dbEnabled then up.effects + [CallSaveMetadata(Row(j, r2))] else up.effects;
      if cfg.dbEnabled && c.saveMetadata.Panicked? then Run(s, Processing, None, Some(c.saveMetadata.fault))
      else Run(s + [RemoveFile(j.filePath), SetStatus(Completed)], Completed, None, None)
  }

  /** Step 3 of processJob and what follows it, for the enriched result `r`. */
  function Saving(j: JobRequest, cfg: Config, c: Collaborators, r: TranscriptionResult): Run
    requires c.Valid()
  {
    var s := [CallSaveLocal(j.requestName, r)];
    match c.saveLocal
    case Panicked(v) => Run(s, Processing, None, Some(v))
    case Errored(e) => Fail(j, s, "Local save failed: " + e)
    case Returned(localPath) =>
      var rest := Publishing(j, cfg, c, r.(localPath := localPath));
      rest.(effects := s + rest.effects)
  }

  /**
   * Step 2 of processJob and what follows it, once normalization produced
   * the file `np`; the deferred removal of `np` is not part of this run.
   */
  function Transcribing(j: JobRequest, cfg: Config, c: Collaborators, np: string): Run
    requires c.Valid()
  {
    var s := [CallTranscribe(np)];
    match c.transcribe
    case Panicked(v) => Run(s, Processing, None, Some(v))
    case Errored(e) => Fail(j, s, "Transcription failed: " + e)
    case Returned(raw) =>
      var rest := Saving(j, cfg, c, Enrich(raw, j.id, c.now));
      rest.(effects := s + rest.effects)
  }

  /**
   * processJob: what a run does and how it ends. Once normalization has
   * succeeded, the removal of the normalized file runs on every exit, a panic
   * included. A panic escapes with the status still PROCESSING.
   */
  function Process(j: JobRequest, cfg: Config, c: Collaborators): Run
    requires c.Valid()
  {
    var s := [SetStatus(Processing), CallNormalize(j.filePath)];
    match c.normalize
    case Panicked(v) => Run(s, Processing, None, Some(v))
    case Errored(e) => Fail(j, s, "Audio normalization failed: " + e)
    case Returned(np) =>
      var rest := Transcribing(j, cfg, c, np);
      rest.(effects := s + [CreateFile(np)] + rest.effects + [RemoveFile(np)])
  }

  /**
   * One iteration of the worker loop: processJob, and when it panics, the
   * recovery that marks the job FAILED and removes its input file.
   */
  function Step(j: JobRequest, cfg: Config, c: Collaborators): Run
    requires c.Valid()
  {
    var p := Process(j, cfg, c);
    if p.fault.Some? then Fail(j, p.effects, "Worker panic: " + p.fault.value)
    else p
  }

  // ---------------------------------------------------------------------------
  // Statuses

  /** The statuses a run sets, in order. */
  function StatusesOf(effects: seq<Effect>): seq<JobStatus>
    decreases |effects|
  {
    if effects == [] then []
    else if effects[0].SetStatus? then [effects[0].status] + StatusesOf(effects[1..])
    else StatusesOf(effects[1..])
  }

  predicate SetsNoStatus(effects: seq<Effect>) {
    forall i :: 0 <= i < |effects| ==> !effects[i].SetStatus?
  }

  lemma {:induction false} StatusesOfNone(effects: seq<Effect>)
    requires SetsNoStatus(effects)
    ensures StatusesOf(effects) == []
    decreases |effects|
  {
    if effects != [] {
      StatusesOfNone(effects[1..]);
    }
  }

  lemma {:induction false} StatusesOfAppend(a: seq<Effect>, b: seq<Effect>)
    ensures StatusesOf(a + b) == StatusesOf(a) + StatusesOf(b)
    decreases |a|
  {
    if a == [] {
      assert a + b == b;
    } else {
      var ab := a + b;
      assert ab[0] == a[0];
      assert ab[1..] == a[1..] + b;
      StatusesOfAppend(a[1..], b);
    }
  }

  lemma StatusesOfOne(e: Effect)
    ensures StatusesOf([e]) == if e.SetStatus? then [e.status] else []
  {
    assert [e][1..] == [];
  }

  /** Statusless steps, one status, statusless steps. */
  lemma OneStatus(a: seq<Effect>, st: JobStatus, b: seq<Effect>)
    requires SetsNoStatus(a) && SetsNoStatus(b)
    ensures StatusesOf(a + [SetStatus(st)] + b) == [st]
  {
    StatusesOfNone(a);
    StatusesOfNone(b);
    StatusesOfAppend(a + [SetStatus(st)], b);
    StatusesOfAppend(a, [SetStatus(st)]);
    StatusesOfOne(SetStatus(st));
  }

  /** No status is set in the upload loop. */
  lemma RetrySetsNoStatus(name: string, r: TranscriptionResult, uploads: seq<Answer<string>>)
    requires |uploads| == MaxUploadAttempts
    ensures SetsNoStatus(Retry(name, r, uploads, 1).effects)
  {
    RetryBehaviour(name, r, uploads);
  }

  /**
   * How a stage run ends: a panic leaves PROCESSING in place and sets no
   * status; otherwise exactly one status is set, a terminal one.
   */
  predicate Settled(run: Run) {
    && (run.fault.Some? <==> run.status == Processing)
    && (run.fault.None? ==> run.status.IsTerminal())
    && StatusesOf(run.effects) == if run.fault.Some? then [] else [run.status]
  }

  lemma FailSettled(j: JobRequest, prefix: seq<Effect>, message: string)
    requires SetsNoStatus(prefix)
    ensures Settled(Fail(j, prefix, message))
  {
    OneStatus(prefix, Failed, [RemoveFile(j.filePath)]);
    assert prefix + [SetStatus(Failed), RemoveFile(j.filePath)] == prefix + [SetStatus(Failed)] + [RemoveFile(j.filePath)];
  }

  lemma PublishingSettled(j: JobRequest, cfg: Config, c: Collaborators, r: TranscriptionResult)
    requires c.Valid()
    ensures Settled(Publishing(j, cfg, c, r))
  {
    var up := if cfg.driveEnabled then Retry(j.requestName, r, c.uploads, 1) else RetryOutcome([], None, None);
    if cfg.driveEnabled {
      RetrySetsNoStatus(j.requestName, r, c.uploads);
    }
    if up.fault.Some? {
      StatusesOfNone(up.effects);
    } else {
      var r2 := if up.url.Some? then r.(gdriveUrl := up.url.value) else r;
      var s := if cfg.dbEnabled then up.effects + [CallSaveMetadata(Row(j, r2))] else up.effects;
      assert SetsNoStatus(s);
      if cfg.dbEnabled && c.saveMetadata.Panicked? {
        StatusesOfNone(s);
      } else {
        OneStatus(s + [RemoveFile(j.filePath)], Completed, []);
        assert s + [RemoveFile(j.filePath), SetStatus(Completed)] == s + [RemoveFile(j.filePath)] + [SetStatus(Completed)] + [];
      }
    }
  }

  /** Prepending statusless steps to a settled run keeps it settled. */
  lemma SettledAfterQuiet(a: seq<Effect>, run: Run)
    requires SetsNoStatus(a) && Settled(run)
    ensures Settled(run.(effects := a + run.effects))
  {
    StatusesOfNone(a);
    StatusesOfAppend(a, run.effects);
  }

  lemma SavingSettled(j: JobRequest, cfg: Config, c: Collaborators, r: TranscriptionResult)
    requires c.Valid()
    ensures Settled(Saving(j, cfg, c, r))
  {
    var s := [CallSaveLocal(j.requestName, r)];
    match c.saveLocal
    case Panicked(v) => StatusesOfOne(s[0]);
    case Errored(e) => FailSettled(j, s, "Local save failed: " + e);
    case Returned(localPath) =>
      PublishingSettled(j, cfg, c, r.(localPath := localPath));
      SettledAfterQuiet(s, Publishing(j, cfg, c, r.(localPath := localPath)));
  }

  lemma TranscribingSettled(j: JobRequest, cfg: Config, c: Collaborators, np: string)
    requires c.Valid()
    ensures Settled(Transcribing(j, cfg, c, np))
  {
    var s := [CallTranscribe(np)];
    match c.transcribe
    case Panicked(v) => StatusesOfOne(s[0]);
    case Errored(e) => FailSettled(j, s, "Transcription failed: " + e);
    case Returned(raw) =>
      var r := Enrich(raw, j.id, c.now);
      SavingSettled(j, cfg, c, r);
      SettledAfterQuiet(s, Saving(j, cfg, c, r));
  }

  /**
   * processJob sets PROCESSING before anything else; then, unless a panic
   * escapes, exactly one terminal status, which is the one it ends with.
   */
  lemma ProcessStatuses(j: JobRequest, cfg: Config, c: Collaborators)
    requires c.Valid()
    ensures var p := Process(j, cfg, c);
            && p.effects[0] == SetStatus(Processing)
            && (p.fault.Some? <==> p.status == Processing)
            && (p.fault.None? ==> p.status.IsTerminal())
            && StatusesOf(p.effects) == [Processing] + (if p.fault.Some? then [] else [p.status])
  {
    var p := Process(j, cfg, c);
    NormalizingSettled(j, cfg, c);
    StartedSettled(p.(effects := p.effects[1..]));
    assert [SetStatus(Processing)] + p.effects[1..] == p.effects;
  }

  /** What processJob does after setting PROCESSING is a settled run. */
  lemma NormalizingSettled(j: JobRequest, cfg: Config, c: Collaborators)
    requires c.Valid()
    ensures var p := Process(j, cfg, c);
            p.effects != [] && p.effects[0] == SetStatus(Processing) && Settled(p.(effects := p.effects[1..]))
  {
    var p := Process(j, cfg, c);
    var n := [CallNormalize(j.filePath)];
    assert p.effects == [SetStatus(Processing)] + p.effects[1..];
    match c.normalize
    case Panicked(v) =>
      assert p.effects[1..] == n;
      StatusesOfOne(CallNormalize(j.filePath));
    case Errored(e) =>
      FailSettled(j, n, "Audio normalization failed: " + e);
      assert p.effects[1..] == Fail(j, n, "Audio normalization failed: " + e).effects;
    case Returned(np) =>
      NormalizedSettled(j, cfg, c, np, p.effects[1..]);
  }

  lemma NormalizedSettled(j: JobRequest, cfg: Config, c: Collaborators, np: string, after: seq<Effect>)
    requires c.Valid() && c.normalize == Returned(np) && after == Process(j, cfg, c).effects[1..]
    ensures Settled(Process(j, cfg, c).(effects := after))
  {
    var n := [CallNormalize(j.filePath)];
    var rest := Transcribing(j, cfg, c, np);
    TranscribingSettled(j, cfg, c, np);
    StatusesOfNone(n);
    NormalizedFileStatuses(n, np, rest.effects);
    assert after == n + [CreateFile(np)] + rest.effects + [RemoveFile(np)];
  }

  /** Setting PROCESSING before a settled run. */
  lemma StartedSettled(run: Run)
    requires Settled(run)
    ensures var e := [SetStatus(Processing)] + run.effects;
            StatusesOf(e) == [Processing] + (if run.fault.Some? then [] else [run.status])
  {
    StatusesOfOne(SetStatus(Processing));
    StatusesOfAppend([SetStatus(Processing)], run.effects);
  }

  /** Creating and later removing the normalized file sets no status. */
  lemma NormalizedFileStatuses(n: seq<Effect>, np: string, rest: seq<Effect>)
    ensures StatusesOf(n + [CreateFile(np)] + rest + [RemoveFile(np)]) == StatusesOf(n) + StatusesOf(rest)
  {
    StatusesOfAppend(n + [CreateFile(np)] + rest, [RemoveFile(np)]);
    StatusesOfAppend(n + [CreateFile(np)], rest);
    StatusesOfAppend(n, [CreateFile(np)]);
    StatusesOfOne(CreateFile(np));
    StatusesOfOne(RemoveFile(np));
  }

  /**
   * Status only moves forward: a worker iteration sets PROCESSING first and
   * then exactly one terminal status, FAILED or COMPLETED, where it ends.
   */
  lemma StepStatusMonotonic(j: JobRequest, cfg: Config, c: Collaborators)
    requires c.Valid()
    ensures var s := Step(j, cfg, c);
            && s.effects[0] == SetStatus(Processing)
            && s.status.IsTerminal()
            && s.fault.None?
            && StatusesOf(s.effects) == [Processing, s.status]
  {
    var p := Process(j, cfg, c);
    ProcessStatuses(j, cfg, c);
    if p.fault.Some? {
      var tail := [SetStatus(Failed), RemoveFile(j.filePath)];
      StatusesOfAppend(p.effects, tail);
      OneStatus([], Failed, [RemoveFile(j.filePath)]);
      assert [] + [SetStatus(Failed)] + [RemoveFile(j.filePath)] == tail;
    }
  }

  // ---------------------------------------------------------------------------
  // Which collaborators are called, in which order

  /** The collaborators processJob calls. */
  datatype Stage = Normalize | Transcribe | SaveLocal | DriveUpload | SaveMetadata

  function StageOf(e: Effect): Option<Stage> {
    match e
    case CallNormalize(_) => Some(Normalize)
    case CallTranscribe(_) => Some(Transcribe)
    case CallSaveLocal(_, _) => Some(SaveLocal)
    case CallUpload(_, _, _) => Some(DriveUpload)
    case CallSaveMetadata(_) => Some(SaveMetadata)
    case _ => None
  }

  /** The collaborator calls of a run, in order. */
  function CallsOf(effects: seq<Effect>): seq<Stage>
    decreases |effects|
  {
    if effects == [] then []
    else if StageOf(effects[0]).Some? then [StageOf(effects[0]).value] + CallsOf(effects[1..])
    else CallsOf(effects[1..])
  }

  lemma CallsOfCons(e: Effect, rest: seq<Effect>)
    ensures CallsOf([e] + rest) == (if StageOf(e).Some? then [StageOf(e).value] else []) + CallsOf(rest)
  {
    assert ([e] + rest)[1..] == rest;
  }

  lemma CallsOfOne(e: Effect)
    ensures CallsOf([e]) == if StageOf(e).Some? then [StageOf(e).value] else []
  {
    assert [e][1..] == [];
  }

  lemma {:induction false} CallsOfAppend(a: seq<Effect>, b: seq<Effect>)
    ensures CallsOf(a + b) == CallsOf(a) + CallsOf(b)
    decreases |a|
  {
    if a == [] {
      assert a + b == b;
    } else {
      assert a + b == [a[0]] + (a[1..] + b);
      assert a == [a[0]] + a[1..];
      CallsOfCons(a[0], a[1..] + b);
      CallsOfCons(a[0], a[1..]);
      CallsOfAppend(a[1..], b);
    }
  }

  /** `k` calls to Upload. */
  function Uploads(k: nat): (r: seq<Stage>)
    ensures |r| == k && forall i :: 0 <= i < k ==> r[i] == DriveUpload
  {
    if k == 0 then [] else [DriveUpload] + Uploads(k - 1)
  }

  /** From any attempt on, the retry loop makes `k` Upload calls and a pause between each two of them. */
  lemma {:induction false} RetryCallsFrom(name: string, r: TranscriptionResult, uploads: seq<Answer<string>>, attempt: nat)
      returns (k: nat)
    requires |uploads| == MaxUploadAttempts && 1 <= attempt <= MaxUploadAttempts
    ensures var o := Retry(name, r, uploads, attempt);
            k >= 1 && |o.effects| == 2 * k - 1 && CallsOf(o.effects) == Uploads(k)
    decreases MaxUploadAttempts - attempt
  {
    var o := Retry(name, r, uploads, attempt);
    if uploads[attempt - 1].Errored? && attempt < MaxUploadAttempts {
      var more := RetryCallsFrom(name, r, uploads, attempt + 1);
      RetryCallsStep(name, r, uploads, attempt, more);
      k := more + 1;
    } else {
      CallsOfOne(CallUpload(attempt, name, r));
      assert o.effects == [CallUpload(attempt, name, r)];
      assert Uploads(1) == [DriveUpload];
      k := 1;
    }
  }

  /** After a failed attempt that is not the last, the calls are one Upload and those of the next attempt on. */
  lemma RetryCallsStep(name: string, r: TranscriptionResult, uploads: seq<Answer<string>>, attempt: nat, k: nat)
    requires |uploads| == MaxUploadAttempts && 1 <= attempt < MaxUploadAttempts && uploads[attempt - 1].Errored?
    requires var rest := Retry(name, r, uploads, attempt + 1);
             k >= 1 && |rest.effects| == 2 * k - 1 && CallsOf(rest.effects) == Uploads(k)
    ensures var o := Retry(name, r, uploads, attempt);
            |o.effects| == 2 * (k + 1) - 1 && CallsOf(o.effects) == Uploads(k + 1)
  {
    var call, pause := CallUpload(attempt, name, r), Sleep(attempt * attempt);
    var rest := Retry(name, r, uploads, attempt + 1);
    assert Retry(name, r, uploads, attempt).effects == [call] + ([pause] + rest.effects);
    CallsOfCons(call, [pause] + rest.effects);
    CallsOfCons(pause, rest.effects);
  }

  /** The retry loop calls Upload `Attempts` times and nothing else. */
  lemma RetryCalls(name: string, r: TranscriptionResult, uploads: seq<Answer<string>>)
    requires |uploads| == MaxUploadAttempts
    ensures CallsOf(Retry(name, r, uploads, 1).effects) == Uploads(Attempts(uploads))
  {
    RetryBehaviour(name, r, uploads);
    var k := RetryCallsFrom(name, r, uploads, 1);
  }

  /** Calls from the upload stage on, when the local save succeeded. */
  function PublishCalls(cfg: Config, c: Collaborators): seq<Stage>
    requires c.Valid()
  {
    var uploadPanicked := cfg.driveEnabled && c.uploads[Attempts(c.uploads) - 1].Panicked?;
    Uploads(if cfg.driveEnabled then Attempts(c.uploads) else 0)
    + (if cfg.dbEnabled && !uploadPanicked then [SaveMetadata] else [])
  }

  /** Calls from the local save on, when transcription succeeded. */
  function SaveCalls(cfg: Config, c: Collaborators): seq<Stage>
    requires c.Valid()
  {
    [SaveLocal] + if c.saveLocal.Returned? then PublishCalls(cfg, c) else []
  }

  /** Calls from transcription on, when normalization succeeded. */
  function TranscribeCalls(cfg: Config, c: Collaborators): seq<Stage>
    requires c.Valid()
  {
    [Transcribe] + if c.transcribe.Returned? then SaveCalls(cfg, c) else []
  }

  /**
   * The reference order of collaborator calls: normalize; transcribe if that
   * succeeded; save locally if that succeeded; then, if that succeeded, the
   * upload attempts when a Drive client exists and the metadata save when a
   * database exists and no upload panicked.
   */
  function ExpectedCalls(cfg: Config, c: Collaborators): seq<Stage>
    requires c.Valid()
  {
    [Normalize] + if c.normalize.Returned? then TranscribeCalls(cfg, c) else []
  }

  lemma FailCalls(j: JobRequest, prefix: seq<Effect>, message: string)
    ensures CallsOf(Fail(j, prefix, message).effects) == CallsOf(prefix)
  {
    var tail := [SetStatus(Failed), RemoveFile(j.filePath)];
    CallsOfAppend(prefix, tail);
    CallsOfOne(RemoveFile(j.filePath));
    CallsOfCons(SetStatus(Failed), [RemoveFile(j.filePath)]);
    assert tail == [SetStatus(Failed)] + [RemoveFile(j.filePath)];
  }

  /** The retry loop ends in a panic exactly when its last attempt panicked. */
  lemma RetryFault(name: string, r: TranscriptionResult, uploads: seq<Answer<string>>)
    requires |uploads| == MaxUploadAttempts
    ensures Retry(name, r, uploads, 1).fault.Some? <==> uploads[Attempts(uploads) - 1].Panicked?
  {
    RetryBehaviour(name, r, uploads);
  }

  /** Removing the input file and marking the job COMPLETED calls no collaborator. */
  lemma CompletionCalls(path: string)
    ensures CallsOf([RemoveFile(path), SetStatus(Completed)]) == []
  {
    CallsOfOne(SetStatus(Completed));
    CallsOfCons(RemoveFile(path), [SetStatus(Completed)]);
    assert [RemoveFile(path), SetStatus(Completed)] == [RemoveFile(path)] + [SetStatus(Completed)];
  }

  lemma PublishingCalls(j: JobRequest, cfg: Config, c: Collaborators, r: TranscriptionResult)
    requires c.Valid()
    ensures CallsOf(Publishing(j, cfg, c, r).effects) == PublishCalls(cfg, c)
  {
    var up := if cfg.driveEnabled then Retry(j.requestName, r, c.uploads, 1) else RetryOutcome([], None, None);
    if cfg.driveEnabled {
      RetryCalls(j.requestName, r, c.uploads);
      RetryFault(j.requestName, r, c.uploads);
    }
    assert CallsOf(up.effects) == Uploads(if cfg.driveEnabled then Attempts(c.uploads) else 0);
    if up.fault.None? {
      var r2 := if up.url.Some? then r.(gdriveUrl := up.url.value) else r;
      var meta := if cfg.dbEnabled then [CallSaveMetadata(Row(j, r2))] else [];
      var s := up.effects + meta;
      CallsOfAppend(up.effects, meta);
      CallsOfOne(CallSaveMetadata(Row(j, r2)));
      assert CallsOf(s) == PublishCalls(cfg, c);
      if !(cfg.dbEnabled && c.saveMetadata.Panicked?) {
        var tail := [RemoveFile(j.filePath), SetStatus(Completed)];
        CallsOfAppend(s, tail);
        CompletionCalls(j.filePath);
        assert Publishing(j, cfg, c, r).effects == s + tail;
      }
    }
  }

  lemma SavingCalls(j: JobRequest, cfg: Config, c: Collaborators, r: TranscriptionResult)
    requires c.Valid()
    ensures CallsOf(Saving(j, cfg, c, r).effects) == SaveCalls(cfg, c)
  {
    var sv := [CallSaveLocal(j.requestName, r)];
    CallsOfOne(CallSaveLocal(j.requestName, r));
    match c.saveLocal
    case Panicked(v) =>
    case Errored(e) => FailCalls(j, sv, "Local save failed: " + e);
    case Returned(lp) =>
      PublishingCalls(j, cfg, c, r.(localPath := lp));
      CallsOfAppend(sv, Publishing(j, cfg, c, r.(localPath := lp)).effects);
  }

  lemma TranscribingCalls(j: JobRequest, cfg: Config, c: Collaborators, np: string)
    requires c.Valid()
    ensures CallsOf(Transcribing(j, cfg, c, np).effects) == TranscribeCalls(cfg, c)
  {
    var t := [CallTranscribe(np)];
    CallsOfOne(CallTranscribe(np));
    match c.transcribe
    case Panicked(v) =>
    case Errored(e) => FailCalls(j, t, "Transcription failed: " + e);
    case Returned(raw) =>
      var r := Enrich(raw, j.id, c.now);
      SavingCalls(j, cfg, c, r);
      CallsOfAppend(t, Saving(j, cfg, c, r).effects);
  }

  /** The collaborators a worker iteration calls are exactly the reference order. */
  lemma StepCalls(j: JobRequest, cfg: Config, c: Collaborators)
    requires c.Valid()
    ensures CallsOf(Step(j, cfg, c).effects) == ExpectedCalls(cfg, c)
  {
    var p := Process(j, cfg, c);
    ProcessCalls(j, cfg, c);
    if p.fault.Some? {
      FailCalls(j, p.effects, "Worker panic: " + p.fault.value);
    }
  }

  /** processJob calls the collaborators ExpectedCalls lists, whether or not it panics. */
  lemma ProcessCalls(j: JobRequest, cfg: Config, c: Collaborators)
    requires c.Valid()
    ensures CallsOf(Process(j, cfg, c).effects) == ExpectedCalls(cfg, c)
  {
    var s := [SetStatus(Processing), CallNormalize(j.filePath)];
    StartCalls(j.filePath);
    match c.normalize {
      case Panicked(v) =>
      case Errored(e) => FailCalls(j, s, "Audio normalization failed: " + e);
      case Returned(np) =>
        TranscribingCalls(j, cfg, c, np);
        NormalizedFileCalls(s, np, Transcribing(j, cfg, c, np).effects);
    }
  }

  /** Marking the job PROCESSING and normalizing calls the normalizer only. */
  lemma StartCalls(path: string)
    ensures CallsOf([SetStatus(Processing), CallNormalize(path)]) == [Normalize]
  {
    CallsOfOne(CallNormalize(path));
    CallsOfCons(SetStatus(Processing), [CallNormalize(path)]);
    assert [SetStatus(Processing), CallNormalize(path)] == [SetStatus(Processing)] + [CallNormalize(path)];
  }

  /** Creating and later removing the normalized file calls no collaborator. */
  lemma NormalizedFileCalls(s: seq<Effect>, np: string, rest: seq<Effect>)
    ensures CallsOf(s + [CreateFile(np)] + rest + [RemoveFile(np)]) == CallsOf(s) + CallsOf(rest)
  {
    CallsOfAppend(s + [CreateFile(np)] + rest, [RemoveFile(np)]);
    CallsOfAppend(s + [CreateFile(np)], rest);
    CallsOfAppend(s, [CreateFile(np)]);
    CallsOfOne(CreateFile(np));
    CallsOfOne(RemoveFile(np));
  }

  /**
   * A failing stage ends the run: the job is FAILED with that stage's message
   * and no later collaborator is called. A panic in a stage is recovered as
   * "Worker panic: " followed by the panic value.
   */
  lemma StageFailureStops(j: JobRequest, cfg: Config, c: Collaborators)
    requires c.Valid()
    ensures var s := Step(j, cfg, c);
            && (c.normalize.Errored? ==>
                  s.status == Failed && s.error == Some("Audio normalization failed: " + c.normalize.error)
                  && CallsOf(s.effects) == [Normalize])
            && (c.normalize.Panicked? ==>
                  s.status == Failed && s.error == Some("Worker panic: " + c.normalize.fault)
                  && CallsOf(s.effects) == [Normalize])
            && (c.normalize.Returned? && c.transcribe.Errored? ==>
                  s.status == Failed && s.error == Some("Transcription failed: " + c.transcribe.error)
                  && CallsOf(s.effects) == [Normalize, Transcribe])
            && (c.normalize.Returned? && c.transcribe.Panicked? ==>
                  s.status == Failed && s.error == Some("Worker panic: " + c.transcribe.fault)
                  && CallsOf(s.effects) == [Normalize, Transcribe])
            && (c.normalize.Returned? && c.transcribe.Returned? && c.saveLocal.Errored? ==>
                  s.status == Failed && s.error == Some("Local save failed: " + c.saveLocal.error)
                  && CallsOf(s.effects) == [Normalize, Transcribe, SaveLocal])
            && (c.normalize.Returned? && c.transcribe.Returned? && c.saveLocal.Panicked? ==>
                  s.status == Failed && s.error == Some("Worker panic: " + c.saveLocal.fault)
                  && CallsOf(s.effects) == [Normalize, Transcribe, SaveLocal])
  {
    StepCalls(j, cfg, c);
  }

  lemma {:induction false} UploadsCount(k: nat)
    ensures multiset(Uploads(k))[DriveUpload] == k
    ensures multiset(Uploads(k))[SaveMetadata] == 0
  {
    if k > 0 {
      UploadsCount(k - 1);
    }
  }

  /**
   * Upload is called at most three times, and not at all without a Drive
   * client; the metadata store is called at most once, and not at all
   * without a database.
   */
  lemma ExpectedCallBounds(cfg: Config, c: Collaborators)
    requires c.Valid()
    ensures var m := multiset(ExpectedCalls(cfg, c));
            && m[DriveUpload] <= (if cfg.driveEnabled then MaxUploadAttempts else 0)
            && m[SaveMetadata] <= (if cfg.dbEnabled then 1 else 0)
  {
    PublishCallsBound(cfg, c);
    var p := PublishCalls(cfg, c);
    var sc := SaveCalls(cfg, c);
    var tc := TranscribeCalls(cfg, c);
    assert sc == [SaveLocal] + if c.saveLocal.Returned? then p else [];
    assert tc == [Transcribe] + if c.transcribe.Returned? then sc else [];
    assert ExpectedCalls(cfg, c) == [Normalize] + if c.normalize.Returned? then tc else [];
    GuardedCounts(SaveLocal, c.saveLocal.Returned?, p);
    GuardedCounts(Transcribe, c.transcribe.Returned?, sc);
    GuardedCounts(Normalize, c.normalize.Returned?, tc);
  }

  /** The upload stage calls Upload once per attempt and the metadata store at most once. */
  lemma PublishCallsBound(cfg: Config, c: Collaborators)
    requires c.Valid()
    ensures var m := multiset(PublishCalls(cfg, c));
            && m[DriveUpload] == (if cfg.driveEnabled then Attempts(c.uploads) else 0)
            && m[SaveMetadata] <= (if cfg.dbEnabled then 1 else 0)
  {
    var k := if cfg.driveEnabled then Attempts(c.uploads) else 0;
    var uploadPanicked := cfg.driveEnabled && c.uploads[Attempts(c.uploads) - 1].Panicked?;
    var meta: seq<Stage> := if cfg.dbEnabled && !uploadPanicked then [SaveMetadata] else [];
    assert PublishCalls(cfg, c) == Uploads(k) + meta;
    UploadsThenMeta(k, meta);
  }

  lemma UploadsThenMeta(k: nat, meta: seq<Stage>)
    requires meta == [] || meta == [SaveMetadata]
    ensures multiset(Uploads(k) + meta)[DriveUpload] == k
    ensures multiset(Uploads(k) + meta)[SaveMetadata] == |meta|
  {
    UploadsCount(k);
    assert multiset(Uploads(k) + meta) == multiset(Uploads(k)) + multiset(meta);
  }

  /** A stage that only runs when `ran` holds adds no upload or metadata call of its own. */
  lemma GuardedCounts(first: Stage, ran: bool, rest: seq<Stage>)
    requires first != DriveUpload && first != SaveMetadata
    ensures var m := multiset([first] + if ran then rest else []);
            && m[DriveUpload] == (if ran then multiset(rest)[DriveUpload] else 0)
            && m[SaveMetadata] == (if ran then multiset(rest)[SaveMetadata] else 0)
  {
    assert multiset([first] + if ran then rest else []) == multiset{first} + multiset(if ran then rest else []);
  }

  lemma CallBounds(j: JobRequest, cfg: Config, c: Collaborators)
    requires c.Valid()
    ensures var m := multiset(CallsOf(Step(j, cfg, c).effects));
            && m[DriveUpload] <= (if cfg.driveEnabled then MaxUploadAttempts else 0)
            && m[SaveMetadata] <= (if cfg.dbEnabled then 1 else 0)
  {
    StepCalls(j, cfg, c);
    ExpectedCallBounds(cfg, c);
  }

  /**
   * Publishing when all three uploads fail: three calls with pauses of 1 and
   * 4 seconds, then the metadata row with the result's own (unchanged) Drive
   * URL, then COMPLETED.
   */
  lemma UploadExhaustionNonFatal(j: JobRequest, cfg: Config, c: Collaborators, r: TranscriptionResult)
    requires c.Valid() && cfg.driveEnabled
    requires forall i :: 0 <= i < |c.uploads| ==> c.uploads[i].Errored?
    requires !(cfg.dbEnabled && c.saveMetadata.Panicked?)
    ensures var p := Publishing(j, cfg, c, r);
            && p.status == Completed && p.error == None && p.fault == None
            && p.effects == FullSchedule(j.requestName, r)
                            + (if cfg.dbEnabled then [CallSaveMetadata(Row(j, r))] else [])
                            + [RemoveFile(j.filePath), SetStatus(Completed)]
            && Row(j, r).gdriveUrl == r.gdriveUrl
  {
    RetryExhausted(j.requestName, r, c.uploads);
  }

  /** No step of `effects` records a metadata row. */
  predicate NoMetadataCall(effects: seq<Effect>) {
    forall k :: 0 <= k < |effects| ==> !effects[k].CallSaveMetadata?
  }

  /** With all uploads failed and a database present, publishing records the row of `r` exactly once. */
  lemma PublishingExhaustedRow(j: JobRequest, cfg: Config, c: Collaborators, r: TranscriptionResult) returns (tail: seq<Effect>)
    requires c.Valid() && cfg.driveEnabled && cfg.dbEnabled
    requires forall i :: 0 <= i < |c.uploads| ==> c.uploads[i].Errored?
    ensures Publishing(j, cfg, c, r).effects == FullSchedule(j.requestName, r) + [CallSaveMetadata(Row(j, r))] + tail
    ensures NoMetadataCall(FullSchedule(j.requestName, r)) && NoMetadataCall(tail)
  {
    RetryExhausted(j.requestName, r, c.uploads);
    tail := if c.saveMetadata.Panicked? then [] else [RemoveFile(j.filePath), SetStatus(Completed)];
  }

  /**
   * When the transcriber's result carries no Drive URL, as a Whisper result
   * never does, and all three uploads fail, the one metadata row the job
   * records has an empty Drive URL.
   */
  lemma ExhaustedUploadRecordsNoUrl(j: JobRequest, cfg: Config, c: Collaborators) returns (before: seq<Effect>, row: MetadataRow, after: seq<Effect>)
    requires c.Valid() && cfg.driveEnabled && cfg.dbEnabled
    requires c.normalize.Returned? && c.transcribe.Returned? && c.saveLocal.Returned?
    requires c.transcribe.value.gdriveUrl == ""
    requires forall i :: 0 <= i < |c.uploads| ==> c.uploads[i].Errored?
    ensures Step(j, cfg, c).effects == before + [CallSaveMetadata(row)] + after
    ensures NoMetadataCall(before) && NoMetadataCall(after)
    ensures row.gdriveUrl == "" && row.localPath == c.saveLocal.value && row.jobId == j.id
  {
    var np := c.normalize.value;
    var e := Enrich(c.transcribe.value, j.id, c.now);
    var r := e.(localPath := c.saveLocal.value);
    var tail := PublishingExhaustedRow(j, cfg, c, r);
    row := Row(j, r);
    var front := [SetStatus(Processing), CallNormalize(j.filePath), CreateFile(np), CallTranscribe(np), CallSaveLocal(j.requestName, e)];
    var p := Process(j, cfg, c);
    assert p.effects == front + Publishing(j, cfg, c, r).effects + [RemoveFile(np)];
    before := front + FullSchedule(j.requestName, r);
    var rest := tail + [RemoveFile(np)];
    after := if p.fault.Some? then rest + [SetStatus(Failed), RemoveFile(j.filePath)] else rest;
    assert p.effects == before + [CallSaveMetadata(row)] + rest;
    NoMetadataCallAppend(front, FullSchedule(j.requestName, r));
    NoMetadataCallAppend(tail, [RemoveFile(np)]);
    NoMetadataCallAppend(rest, [SetStatus(Failed), RemoveFile(j.filePath)]);
  }

  lemma NoMetadataCallAppend(a: seq<Effect>, b: seq<Effect>)
    requires NoMetadataCall(a) && NoMetadataCall(b)
    ensures NoMetadataCall(a + b)
  {
    assert forall k :: 0 <= k < |a + b| ==> (a + b)[k] == if k < |a| then a[k] else b[k - |a|];
  }

  /**
   * The URL of the first successful upload is what the metadata row records.
   */
  lemma UploadSuccessRecorded(j: JobRequest, cfg: Config, c: Collaborators, r: TranscriptionResult)
    requires c.Valid() && cfg.driveEnabled && cfg.dbEnabled
    requires c.uploads[Attempts(c.uploads) - 1].Returned?
    ensures CallSaveMetadata(Row(j, r.(gdriveUrl := c.uploads[Attempts(c.uploads) - 1].value)))
            in Publishing(j, cfg, c, r).effects
  {
    RetryBehaviour(j.requestName, r, c.uploads);
    var p := Publishing(j, cfg, c, r);
    var up := Retry(j.requestName, r, c.uploads, 1);
    var row := Row(j, r.(gdriveUrl := c.uploads[Attempts(c.uploads) - 1].value));
    if c.saveMetadata.Panicked? {
      assert p.effects == up.effects + [CallSaveMetadata(row)];
      assert p.effects[|up.effects|] == CallSaveMetadata(row);
    } else {
      assert p.effects == up.effects + [CallSaveMetadata(row)] + [RemoveFile(j.filePath), SetStatus(Completed)];
      assert p.effects[|up.effects|] == CallSaveMetadata(row);
    }
  }

  /** A database error is only logged: the run is the same as when the save succeeds. */
  lemma MetadataErrorIgnored(j: JobRequest, cfg: Config, c: Collaborators, e: string)
    requires c.Valid()
    ensures Step(j, cfg, c.(saveMetadata := Errored(e))) == Step(j, cfg, c.(saveMetadata := Returned(())))
  {
    var ce, cr := c.(saveMetadata := Errored(e)), c.(saveMetadata := Returned(()));
    match c.normalize {
      case Returned(np) =>
        match c.transcribe {
          case Returned(raw) =>
            match c.saveLocal {
              case Returned(lp) =>
                var r := Enrich(raw, j.id, c.now).(localPath := lp);
                assert Publishing(j, cfg, ce, r) == Publishing(j, cfg, cr, r);
              case _ =>
            }
          case _ =>
        }
      case _ =>
    }
  }

  /**
   * COMPLETED is set only as the last step of processJob: after it comes
   * nothing but the deferred removal of the normalized file.
   */
  lemma CompletedIsLast(j: JobRequest, cfg: Config, c: Collaborators)
    requires c.Valid()
    ensures var s := Step(j, cfg, c);
            s.status == Completed ==>
              && c.normalize.Returned?
              && |s.effects| >= 3
              && s.effects[|s.effects| - 3] == RemoveFile(j.filePath)
              && s.effects[|s.effects| - 2] == SetStatus(Completed)
              && s.effects[|s.effects| - 1] == RemoveFile(c.normalize.value)
  {
    var s := Step(j, cfg, c);
    if s.status == Completed {
      var front := CompletedRun(j, cfg, c);
      var t := front + [RemoveFile(j.filePath), SetStatus(Completed)] + [RemoveFile(c.normalize.value)];
      assert |t| == |front| + 3;
    }
  }

  /** A run that ends COMPLETED passed every stage and ends with the completion steps and the deferred removal. */
  lemma CompletedRun(j: JobRequest, cfg: Config, c: Collaborators) returns (front: seq<Effect>)
    requires c.Valid() && Step(j, cfg, c).status == Completed
    ensures c.normalize.Returned?
    ensures Step(j, cfg, c).effects
            == front + [RemoveFile(j.filePath), SetStatus(Completed)] + [RemoveFile(c.normalize.value)]
  {
    var p := Process(j, cfg, c);
    assert p.fault.None? && p.status == Completed;
    var np := c.normalize.value;
    var t := Transcribing(j, cfg, c, np);
    assert p.effects == [SetStatus(Processing), CallNormalize(j.filePath), CreateFile(np)] + t.effects + [RemoveFile(np)];
    var rest := TranscribingCompleted(j, cfg, c, np);
    front := [SetStatus(Processing), CallNormalize(j.filePath), CreateFile(np)] + rest;
  }

  lemma TranscribingCompleted(j: JobRequest, cfg: Config, c: Collaborators, np: string) returns (front: seq<Effect>)
    requires c.Valid() && Transcribing(j, cfg, c, np).status == Completed
    ensures Transcribing(j, cfg, c, np).effects == front + [RemoveFile(j.filePath), SetStatus(Completed)]
  {
    var rest := SavingCompleted(j, cfg, c, Enrich(c.transcribe.value, j.id, c.now));
    front := [CallTranscribe(np)] + rest;
  }

  lemma SavingCompleted(j: JobRequest, cfg: Config, c: Collaborators, r: TranscriptionResult) returns (front: seq<Effect>)
    requires c.Valid() && Saving(j, cfg, c, r).status == Completed
    ensures Saving(j, cfg, c, r).effects == front + [RemoveFile(j.filePath), SetStatus(Completed)]
  {
    var rest := PublishingCompleted(j, cfg, c, r.(localPath := c.saveLocal.value));
    front := [CallSaveLocal(j.requestName, r)] + rest;
  }

  lemma PublishingCompleted(j: JobRequest, cfg: Config, c: Collaborators, r: TranscriptionResult) returns (front: seq<Effect>)
    requires c.Valid() && Publishing(j, cfg, c, r).status == Completed
    ensures Publishing(j, cfg, c, r).effects == front + [RemoveFile(j.filePath), SetStatus(Completed)]
  {
    var e := Publishing(j, cfg, c, r).effects;
    front := e[..|e| - 2];
    assert e == front + [RemoveFile(j.filePath), SetStatus(Completed)];
  }

  // ---------------------------------------------------------------------------
  // Temp files

  predicate TouchesNoFile(effects: seq<Effect>) {
    forall i :: 0 <= i < |effects| ==> !effects[i].CreateFile? && !effects[i].RemoveFile?
  }

  lemma {:induction false} ApplyQuiet(files: set<string>, effects: seq<Effect>)
    requires TouchesNoFile(effects)
    ensures Apply(files, effects) == files
    decreases |effects|
  {
    if effects != [] {
      ApplyQuiet(files, effects[1..]);
    }
  }

  lemma ApplyOne(files: set<string>, e: Effect)
    ensures Apply(files, [e]) == ApplyEffect(files, e)
  {
    assert [e][1..] == [];
  }

  lemma FailFiles(files: set<string>, j: JobRequest, prefix: seq<Effect>, message: string)
    ensures Apply(files, Fail(j, prefix, message).effects) == Removed(Apply(files, prefix), j.filePath)
  {
    var tail := [SetStatus(Failed), RemoveFile(j.filePath)];
    ApplyAppend(files, prefix, tail);
    assert tail[1..] == [RemoveFile(j.filePath)];
    ApplyOne(Apply(files, prefix), RemoveFile(j.filePath));
  }

  lemma PublishingFiles(files: set<string>, j: JobRequest, cfg: Config, c: Collaborators, r: TranscriptionResult)
    requires c.Valid()
    ensures var p := Publishing(j, cfg, c, r);
            Apply(files, p.effects) == if p.fault.Some? then files else Removed(files, j.filePath)
  {
    var up := if cfg.driveEnabled then Retry(j.requestName, r, c.uploads, 1) else RetryOutcome([], None, None);
    if cfg.driveEnabled {
      RetryBehaviour(j.requestName, r, c.uploads);
    }
    assert TouchesNoFile(up.effects);
    if up.fault.Some? {
      ApplyQuiet(files, up.effects);
    } else {
      var r2 := if up.url.Some? then r.(gdriveUrl := up.url.value) else r;
      var s := if cfg.dbEnabled then up.effects + [CallSaveMetadata(Row(j, r2))] else up.effects;
      assert TouchesNoFile(s);
      ApplyQuiet(files, s);
      if !(cfg.dbEnabled && c.saveMetadata.Panicked?) {
        var tail := [RemoveFile(j.filePath), SetStatus(Completed)];
        ApplyAppend(files, s, tail);
        assert tail[1..] == [SetStatus(Completed)];
        ApplyOne(Removed(files, j.filePath), SetStatus(Completed));
      }
    }
  }

  lemma SavingFiles(files: set<string>, j: JobRequest, cfg: Config, c: Collaborators, r: TranscriptionResult)
    requires c.Valid()
    ensures var p := Saving(j, cfg, c, r);
            Apply(files, p.effects) == if p.fault.Some? then files else Removed(files, j.filePath)
  {
    var sv := [CallSaveLocal(j.requestName, r)];
    ApplyOne(files, sv[0]);
    match c.saveLocal
    case Panicked(v) =>
    case Errored(e) => FailFiles(files, j, sv, "Local save failed: " + e);
    case Returned(lp) =>
      PublishingFiles(files, j, cfg, c, r.(localPath := lp));
      ApplyAppend(files, sv, Publishing(j, cfg, c, r.(localPath := lp)).effects);
  }

  lemma TranscribingFiles(files: set<string>, j: JobRequest, cfg: Config, c: Collaborators, np: string)
    requires c.Valid()
    ensures var p := Transcribing(j, cfg, c, np);
            Apply(files, p.effects) == if p.fault.Some? then files else Removed(files, j.filePath)
  {
    var t := [CallTranscribe(np)];
    ApplyOne(files, t[0]);
    match c.transcribe
    case Panicked(v) =>
    case Errored(e) => FailFiles(files, j, t, "Transcription failed: " + e);
    case Returned(raw) =>
      var r := Enrich(raw, j.id, c.now);
      SavingFiles(files, j, cfg, c, r);
      ApplyAppend(files, t, Saving(j, cfg, c, r).effects);
  }

  /**
   * The temp directory after processJob: the input file is removed on every
   * path but a panic; the normalized file exists only between normalization
   * and the deferred removal.
   */
  lemma ProcessFiles(files: set<string>, j: JobRequest, cfg: Config, c: Collaborators)
    requires c.Valid()
    ensures var p := Process(j, cfg, c);
            var after := Apply(files, p.effects);
            && (c.normalize.Panicked? ==> after == files)
            && (c.normalize.Errored? ==> after == Removed(files, j.filePath))
            && (c.normalize.Returned? ==>
                  var np := c.normalize.value;
                  after == Removed(if p.fault.Some? then files + {np} else Removed(files + {np}, j.filePath), np))
  {
    var p := Process(j, cfg, c);
    var s := [SetStatus(Processing), CallNormalize(j.filePath)];
    assert TouchesNoFile(s);
    ApplyQuiet(files, s);
    match c.normalize {
      case Panicked(v) =>
      case Errored(e) => FailFiles(files, j, s, "Audio normalization failed: " + e);
      case Returned(np) =>
        var rest := Transcribing(j, cfg, c, np);
        TranscribingFiles(files + {np}, j, cfg, c, np);
        ApplyAppend(files, s, [CreateFile(np)]);
        ApplyOne(files, CreateFile(np));
        ApplyAppend(files, s + [CreateFile(np)], rest.effects);
        ApplyAppend(files, s + [CreateFile(np)] + rest.effects, [RemoveFile(np)]);
        ApplyOne(Apply(files, s + [CreateFile(np)] + rest.effects), RemoveFile(np));
    }
  }

  /**
   * The temp directory after a worker iteration: the input file is gone on
   * every path, a panic included; the normalized file is gone when
   * normalization succeeded and was never created otherwise; nothing else
   * changes. (The normalizer never names the empty path.)
   */
  lemma StepFiles(files: set<string>, j: JobRequest, cfg: Config, c: Collaborators)
    requires c.Valid()
    ensures var after := Apply(files, Step(j, cfg, c).effects);
            && (c.normalize.Returned? && c.normalize.value != "" ==>
                  after == Removed(files, j.filePath) - {c.normalize.value})
            && (!c.normalize.Returned? ==> after == Removed(files, j.filePath))
  {
    var p := Process(j, cfg, c);
    ProcessFiles(files, j, cfg, c);
    if p.fault.Some? {
      FailFiles(files, j, p.effects, "Worker panic: " + p.fault.value);
    }
  }

  // ---------------------------------------------------------------------------
  // The pool

  /** The temp directory after the runs in `runs`, one after another. */
  function ApplyRuns(files: set<string>, runs: seq<seq<Effect>>): set<string>
    decreases |runs|
  {
    if runs == [] then files else Apply(ApplyRuns(files, runs[..|runs| - 1]), runs[|runs| - 1])
  }

  /** `steps[i]` is the run of `jobs[i]` under the answers `scripts[i]`, for every i. */
  ghost predicate RunsOf(jobs: seq<Job>, cfg: Config, scripts: seq<Collaborators>, steps: seq<Run>) {
    && |scripts| == |jobs| && |steps| == |jobs|
    && (forall i :: 0 <= i < |scripts| ==> scripts[i].Valid())
    && forall i {:trigger Step(jobs[i].Request(), cfg, scripts[i])} :: 0 <= i < |jobs| ==>
         steps[i] == Step(jobs[i].Request(), cfg, scripts[i])
  }

  /** The run of each job in `jobs`, the i-th under the answers `scripts[i]`. */
  lemma StepsOf(jobs: seq<Job>, cfg: Config, scripts: seq<Collaborators>) returns (r: seq<Run>)
    requires |scripts| == |jobs| && forall i :: 0 <= i < |scripts| ==> scripts[i].Valid()
    ensures RunsOf(jobs, cfg, scripts, r)
  {
    r := seq(|jobs|, i requires 0 <= i < |jobs| => Step(jobs[i].Request(), cfg, scripts[i]));
  }

  /** One more run applies to the directory the runs before it left. */
  lemma ApplyRunsSnoc(files: set<string>, runs: seq<seq<Effect>>, e: seq<Effect>)
    ensures ApplyRuns(files, runs + [e]) == Apply(ApplyRuns(files, runs), e)
  {
    assert (runs + [e])[..|runs|] == runs;
  }

  /**
   * The worker pool: the job channel (a FIFO of at most 100 jobs), whether a
   * Drive client and a database exist, and the temp directory the workers
   * clean up.
   */
  class WorkerPool {
    var queue: seq<Job>
    const driveEnabled: bool
    const dbEnabled: bool
    const temp: TempDir

    predicate Valid()
      reads this
    {
      |queue| <= QueueCapacity
    }

    function Cfg(): Config {
      Config(driveEnabled, dbEnabled)
    }

    /** NewWorkerPool: an empty channel. */
    constructor (driveEnabled: bool, dbEnabled: bool, temp: TempDir)
      ensures Valid() && queue == []
      ensures this.driveEnabled == driveEnabled && this.dbEnabled == dbEnabled && this.temp == temp
    {
      this.driveEnabled := driveEnabled;
      this.dbEnabled := dbEnabled;
      this.temp := temp;
      queue := [];
    }

    /**
     * EnqueueJob: mark the job QUEUED, stamp it, and send it on the channel.
     * On a full channel the send would block; here it reports `false` and
     * leaves the channel as it was.
     */
    method EnqueueJob(job: Job, now: DateTime) returns (accepted: bool)
      requires Valid()
      modifies this, job
      ensures Valid()
      ensures job.status == Queued && job.createdAt == now
      ensures job.error == old(job.error) && job.result == old(job.result)
      ensures accepted <==> old(|queue|) < QueueCapacity
      ensures queue == if accepted then old(queue) + [job] else old(queue)
    {
      job.status := Queued;
      job.createdAt := now;
      if |queue| < QueueCapacity {
        queue := queue + [job];
        accepted := true;
      } else {
        accepted := false;
      }
    }

    /**
     * Builds a job from an intake request and enqueues it. The handlers build
     * the job as a literal with no status or creation time; EnqueueJob sets
     * both, so the job that is queued is the one NewJob would have built.
     */
    method Submit(req: JobRequest, now: DateTime) returns (job: Job, accepted: bool)
      requires Valid()
      modifies this
      ensures Valid() && fresh(job)
      ensures job.Request() == req && job.status == Queued && job.error == None && job.result == None
      ensures job.createdAt == now
      ensures accepted <==> old(|queue|) < QueueCapacity
      ensures queue == if accepted then old(queue) + [job] else old(queue)
    {
      job := new Job.NewJob(req.id, req.requestName, req.sourceType, req.filePath, now);
      accepted := EnqueueJob(job, now);
    }

    /** cleanupTempFile: "" is ignored and a missing file is no error. */
    method CleanupTempFile(path: string)
      modifies temp
      ensures temp.files == Removed(old(temp.files), path)
      ensures path != "" ==> path !in temp.files
      ensures temp.files <= old(temp.files)
    {
      if path == "" {
        return;
      }
      temp.files := temp.files - {path};
    }

    /** Steps 4 to 6 of processJob, for the locally saved result `result`. */
    method Publish(job: Job, c: Collaborators, result: TranscriptionResult) returns (effects: seq<Effect>, fault: Option<string>)
      requires c.Valid() && job.status == Processing
      modifies job, temp
      ensures var t := Publishing(job.Request(), Cfg(), c, result);
              && effects == t.effects && fault == t.fault && job.status == t.status
              && job.error == old(job.error) && t.error == None
      ensures job.result == old(job.result) && job.createdAt == old(job.createdAt)
      ensures temp.files == if fault.Some? then old(temp.files) else Removed(old(temp.files), job.filePath)
    {
      var result := result;
      effects, fault := [], None;
      // Step 4: upload to Drive, with retry
      if driveEnabled {
        var url, uploadFault, uploadEffects := UploadWithRetry(job.requestName, result, c.uploads);
        effects := uploadEffects;
        if uploadFault.Some? {
          return effects, uploadFault;
        }
        if url.Some? {
          result := result.(gdriveUrl := url.value);
        }
      }
      // Step 5: record metadata; an error is only logged
      if dbEnabled {
        effects := effects + [CallSaveMetadata(Row(job.Request(), result))];
        if c.saveMetadata.Panicked? {
          return effects, Some(c.saveMetadata.fault);
        }
      }
      // Step 6: clean up
      CleanupTempFile(job.filePath);
      effects := effects + [RemoveFile(job.filePath)];
      job.status := Completed;
      effects := effects + [SetStatus(Completed)];
      assert effects == (effects[..|effects| - 2]) + [RemoveFile(job.filePath), SetStatus(Completed)];
    }

    /** Steps 3 to 6 of processJob, for the enriched recogniser result `result`. */
    method SaveAndPublish(job: Job, c: Collaborators, result: TranscriptionResult) returns (effects: seq<Effect>, fault: Option<string>)
      requires c.Valid() && job.status == Processing
      modifies job, temp
      ensures var t := Saving(job.Request(), Cfg(), c, result);
              && effects == t.effects && fault == t.fault && job.status == t.status
              && job.error == (if t.error.Some? then t.error else old(job.error))
      ensures job.result == old(job.result) && job.createdAt == old(job.createdAt)
      ensures temp.files == if fault.Some? then old(temp.files) else Removed(old(temp.files), job.filePath)
    {
      fault := None;
      // Step 3: save locally
      effects := [CallSaveLocal(job.requestName, result)];
      if c.saveLocal.Panicked? {
        return effects, Some(c.saveLocal.fault);
      }
      if c.saveLocal.Errored? {
        job.status := Failed;
        job.error := Some("Local save failed: " + c.saveLocal.error);
        CleanupTempFile(job.filePath);
        effects := effects + [SetStatus(Failed), RemoveFile(job.filePath)];
        return;
      }
      var localPath := c.saveLocal.value;
      var rest;
      rest, fault := Publish(job, c, result.(localPath := localPath));
      effects := effects + rest;
    }

    /**
     * Steps 2 to 6 of processJob, once the normalized file exists; returning
     * from here is where the deferred removal of that file runs.
     */
    method RunStages(job: Job, c: Collaborators, normalizedPath: string) returns (effects: seq<Effect>, fault: Option<string>)
      requires c.Valid() && job.status == Processing
      modifies job, temp
      ensures var t := Transcribing(job.Request(), Cfg(), c, normalizedPath);
              && effects == t.effects && fault == t.fault && job.status == t.status
              && job.error == (if t.error.Some? then t.error else old(job.error))
      ensures job.result == old(job.result) && job.createdAt == old(job.createdAt)
      ensures temp.files == if fault.Some? then old(temp.files) else Removed(old(temp.files), job.filePath)
    {
      fault := None;
      // Step 2: transcribe
      effects := [CallTranscribe(normalizedPath)];
      if c.transcribe.Panicked? {
        return effects, Some(c.transcribe.fault);
      }
      if c.transcribe.Errored? {
        job.status := Failed;
        job.error := Some("Transcription failed: " + c.transcribe.error);
        CleanupTempFile(job.filePath);
        effects := effects + [SetStatus(Failed), RemoveFile(job.filePath)];
        return;
      }
      var result := c.transcribe.value;
      result := result.(jobId := job.id);
      result := result.(wordCount := GoText.WordCount(result.text));
      result := result.(processedAt := c.now);
      assert result == Enrich(c.transcribe.value, job.id, c.now);
      var rest;
      rest, fault := SaveAndPublish(job, c, result);
      effects := effects + rest;
    }

    /** processJob, proved against `Process`. */
    method ProcessJob(job: Job, c: Collaborators) returns (effects: seq<Effect>, fault: Option<string>)
      requires c.Valid()
      modifies job, temp
      ensures var p := Process(job.Request(), Cfg(), c);
              && effects == p.effects && fault == p.fault && job.status == p.status
              && job.error == (if p.error.Some? then p.error else old(job.error))
      ensures job.result == old(job.result) && job.createdAt == old(job.createdAt)
      ensures temp.files == Apply(old(temp.files), effects)
    {
      ProcessFiles(old(temp.files), job.Request(), Cfg(), c);
      job.status := Processing;
      // Step 1: normalize
      effects := [SetStatus(Processing), CallNormalize(job.filePath)];
      match c.normalize {
        case Panicked(v) =>
          fault := Some(v);
        case Errored(e) =>
          job.status := Failed;
          job.error := Some("Audio normalization failed: " + e);
          CleanupTempFile(job.filePath);
          effects := effects + [SetStatus(Failed), RemoveFile(job.filePath)];
          fault := None;
        case Returned(normalizedPath) =>
          // the converter has written its output
          temp.files := temp.files + {normalizedPath};
          effects := effects + [CreateFile(normalizedPath)];
          var rest;
          rest, fault := RunStages(job, c, normalizedPath);
          effects := effects + rest;
          // deferred
          CleanupTempFile(normalizedPath);
          effects := effects + [RemoveFile(normalizedPath)];
      }
    }

    /** One iteration of the worker loop: processJob under recover. */
    method RunJob(job: Job, c: Collaborators) returns (effects: seq<Effect>)
      requires c.Valid()
      modifies job, temp
      ensures var s := Step(job.Request(), Cfg(), c);
              && effects == s.effects && job.status == s.status
              && job.error == (if s.error.Some? then s.error else old(job.error))
      ensures job.result == old(job.result) && job.createdAt == old(job.createdAt)
      ensures temp.files == Apply(old(temp.files), effects)
    {
      var fault;
      effects, fault := ProcessJob(job, c);
      if fault.Some? {
        FailFiles(old(temp.files), job.Request(), effects, "Worker panic: " + fault.value);
        job.status := Failed;
        job.error := Some("Worker panic: " + fault.value);
        CleanupTempFile(job.filePath);
        effects := effects + [SetStatus(Failed), RemoveFile(job.filePath)];
      }
    }

    /**
     * One receive from the channel, the k-th of a drain whose jobs and runs
     * are `jobs` and `steps`: the job at the head is taken off and run.
     */
    method Receive(scripts: seq<Collaborators>, k: nat, ghost jobs: seq<Job>, ghost steps: seq<Run>) returns (job: Job, effects: seq<Effect>)
      requires RunsOf(jobs, Cfg(), scripts, steps) && k < |jobs| && queue != [] && queue[0] == jobs[k]
      modifies this, temp, queue[0]
      ensures job == jobs[k] && queue == old(queue[1..])
      ensures effects == steps[k].effects && job.status == steps[k].status
      ensures job.error == (if steps[k].error.Some? then steps[k].error else old(job.error))
      ensures temp.files == Apply(old(temp.files), effects)
    {
      job := queue[0];
      queue := queue[1..];
      effects := RunJob(job, scripts[k]);
    }

    /**
     * The worker loop over the channel: jobs are taken in FIFO order and each
     * ends as its own run says, whatever happened to the jobs before it (a
     * panic included). `scripts[i]` holds the collaborators' answers for the
     * i-th job.
     */
    method Drain(scripts: seq<Collaborators>) returns (runs: seq<seq<Effect>>, ghost steps: seq<Run>)
      requires |scripts| == |queue|
      requires forall i :: 0 <= i < |scripts| ==> scripts[i].Valid()
      requires forall i, k :: 0 <= i < k < |queue| ==> queue[i] != queue[k]
      modifies this, temp, queue
      ensures queue == [] && Valid()
      ensures RunsOf(old(queue), Cfg(), scripts, steps) && |runs| == |steps|
      ensures forall i :: 0 <= i < |runs| ==>
                && runs[i] == steps[i].effects
                && old(queue)[i].status == steps[i].status
                && old(queue)[i].error == (if steps[i].error.Some? then steps[i].error else old(queue[i].error))
      ensures temp.files == ApplyRuns(old(temp.files), runs)
    {
      var jobs := queue;
      var cfg := Cfg();
      steps := StepsOf(jobs, cfg, scripts);
      runs := [];
      var k := 0;
      while queue != []
        invariant 0 <= k <= |jobs| && queue == jobs[k..] && |runs| == k
        invariant forall i :: 0 <= i < k ==>
                    && runs[i] == steps[i].effects
                    && jobs[i].status == steps[i].status
                    && jobs[i].error == (if steps[i].error.Some? then steps[i].error else old(jobs[i].error))
        invariant forall i :: k <= i < |jobs| ==> jobs[i].error == old(jobs[i].error)
        invariant temp.files == ApplyRuns(old(temp.files), runs)
        decreases |queue|
      {
        assert queue[0] == jobs[k];
        var job, e := Receive(scripts, k, jobs, steps);
        ApplyRunsSnoc(old(temp.files), runs, e);
        assert (runs + [e])[..k] == runs;
        runs := runs + [e];
        k := k + 1;
      }
    }
  }
}
