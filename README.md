# Audio transcription service: a Dafny model

This project models the core of an audio transcription service written in Go.
Audio comes in four ways:

- a multipart upload;
- a Google Drive link, which the service downloads;
- a WebSocket stream of binary frames;
- a YouTube capture, which is not part of this model.

Each intake handler saves the audio under `temp/` and enqueues a job. It answers the client at once.

A fixed pool of workers takes jobs from a bounded FIFO queue and runs the pipeline:

1. normalise the audio with ffmpeg;
2. transcribe it with Whisper;
3. save the transcript and its metadata under a dated directory;
4. upload to Google Drive, with three attempts;
5. record a metadata row;
6. remove the temporary files.

A janitor sweeps `temp/` for expired files. An in-memory ring of log lines backs the `/logs` endpoint.

The model follows the program's files, one module per Go file:

- Worker for `internal/queue/worker.go`; Jobs and Types for the job record and the shared vocabulary.
- Cleanup for the janitor.
- LocalStorage for the dated paths and `sanitizeFilename`.
- Audio for format checking and ffmpeg normalisation.
- Whisper for model selection, the command line, the JSON path and result conversion.
- GDrive, Upload and Stream for the three intake handlers.
- Server for `main`'s log buffer and its optional Drive client.

Small support modules give the Go library functions the code relies on:

- GoText: `strings.Fields`, `TrimSpace`, `Contains`, ASCII `ToLower`, and `%d`/`%02d` formatting.
- GoPath: `filepath.Base`, `Ext` and `Join` on Unix.
- Uuid: the canonical shape of `uuid.New().String()`.
- TempFiles: the temp directory as a set of paths.
- Replies: the JSON answers of the handlers.
- Wrappers: `Option`.

How the Go code is represented:

- Code that mutates state in place is modelled with classes whose methods say exactly how the state changes. This covers the job record, the worker pool and its queue, the janitor, and the log buffer.
- Loops are methods with invariants, each proved against a specification function: the upload retry loop, the cleanup walk, `sanitizeFilename`, format validation, segment conversion, the WebSocket read loop, and copying the log buffer.
- Pure decision chains are functions: the handlers' guard chains, the URL ID extraction, the Drive download protocol, and the path construction.
- Every collaborator the code cannot see becomes a scripted parameter. This covers ffmpeg, Whisper, the filesystem, HTTP, the Drive client and the database.
- A call that can return, fail or panic is an `Answer`. This lets the model state panic containment in the worker loop.
- A pipeline run is a sequence of effects: status changes, collaborator calls, sleeps, file creation and removal. Lemmas state which statuses, calls and files a run produces.

Behaviour the model keeps as the code has it, where the design notes say otherwise or the comments suggest otherwise:

- `processJob` never stores the result on the job. A COMPLETED job holds no result, although the design says a finished job exposes its full result. The model follows the code.
- The retry pauses are `attempt*attempt` seconds (1 s, then 4 s). They are quadratic, not the exponential the comment says.
- `sanitizeFilename` only reapplies `filepath.Base`. The characters `\ : * ? " < > |` it lists survive.
- A request name of `/` sanitises to `/`. The text path is then `.txt` inside a subdirectory `<YYYYMMDD_HHMMSS>_` of the date directory. `os.MkdirAll` never creates that subdirectory, so writing the text file fails and the job ends FAILED with "Local save failed: ".
- A Google Drive download whose copy fails leaves the created temp file behind with no job to remove it.

## Model

| member | source | states |
|---|---|---|
| Types.ParseStatus | internal/types/types.go:6-11 | a string is a status iff it is one of QUEUED, PROCESSING, COMPLETED, FAILED, and it reads back to the status with that name |
| Types.StatusNameRoundTrip | internal/types/types.go:6-11 | the four status names are pairwise distinct and each parses back to its own status |
| Types.ParseSource | internal/types/types.go:14-19 | a string is a source kind iff it is one of upload, gdrive, youtube, stream, and it reads back to that kind |
| Types.SourceNameRoundTrip | internal/types/types.go:14-19 | the four source names are pairwise distinct and each parses back to its own kind |
| Jobs.Job.NewJob | internal/queue/jobs.go:22-31 | a new job has the given id, name, source and path, status QUEUED, no error, no result, and the construction time |
| Worker.Attempts | internal/queue/worker.go:127-137 | the upload loop makes 1 to 3 calls; every call before the last one failed, and it stops early only on a call that did not fail |
| Worker.RetryBehaviour | internal/queue/worker.go:126-141 | the retry effects are upload 1, sleep 1 s, upload 2, sleep 4 s, upload 3, cut after the last call made; a success yields its URL, a panic its value, exhaustion neither |
| Worker.RetryExhausted | internal/queue/worker.go:127-140 | three failed uploads make all three calls with both pauses and yield no URL |
| Worker.UploadWithRetry | internal/queue/worker.go:127-137 | the `for attempt` loop yields exactly the effects, URL and panic of the retry specification |
| Worker.RetryAgain | internal/queue/worker.go:133-136 | after a failed attempt other than the third, the loop pauses attempt*attempt seconds and goes on exactly as the next attempt's run |
| Worker.RetryCalls | internal/queue/worker.go:126-137 | the loop calls Upload exactly `Attempts` times and calls no other collaborator |
| Worker.RetryFault | internal/queue/worker.go:127-137 | the loop ends in a panic iff its last attempt panicked |
| Worker.Enrich | internal/queue/worker.go:109-111 | the enriched result carries the job's ID, the number of whitespace-separated words of its text, and the processing time; every other field is unchanged |
| GoText.FieldsCoverText | internal/queue/worker.go:110 | the words `strings.Fields` returns, concatenated, are the text with all white space removed |
| GoText.FieldsSplitAtSpace | internal/queue/worker.go:110 | a white-space byte splits the text: the words and the word count of `a c b` are those of `a` followed by those of `b` |
| GoText.SingleWord | internal/queue/worker.go:110 | a non-empty run without white space is exactly one word |
| GoText.HelloWorldHasTwoWords | internal/queue/worker.go:110 | "hello world" has word count 2 |
| Worker.ProcessStatuses | internal/queue/worker.go:83-158 | processJob sets PROCESSING first; then either it ends with exactly one terminal status set, or a panic escapes and no further status was set |
| Worker.StepStatusMonotonic | internal/queue/worker.go:61-80 | with panic recovery a job always ends COMPLETED or FAILED, and the statuses it passes through are exactly PROCESSING then that final one |
| Worker.ProcessCalls | internal/queue/worker.go:83-158 | processJob calls normalise, transcribe, save locally, the uploads and the metadata row in that order, each only if every earlier fatal stage returned, whether or not a stage panics |
| Worker.StepCalls | internal/queue/worker.go:61-80 | the collaborators a job calls, in order, are normalise, transcribe, save locally, the uploads, the metadata row, each only if every earlier fatal stage returned |
| Worker.StageFailureStops | internal/queue/worker.go:88-121 | a normalisation, transcription or local-save error fails the job with "Audio normalization failed: ", "Transcription failed: " or "Local save failed: " and calls no later stage; a panic in a stage fails it with "Worker panic: " |
| Worker.CallBounds | internal/queue/worker.go:126-150 | a job calls Upload at most 3 times, and never without a Drive client; it records metadata at most once, and never without a database |
| Worker.UploadExhaustionNonFatal | internal/queue/worker.go:138-155 | when all three uploads fail, publishing still completes with no error after the three calls and both pauses, records the metadata row when a database exists, and removes the input file |
| Worker.ExhaustedUploadRecordsNoUrl | internal/queue/worker.go:124-150 | for a whole job whose transcriber result has no Drive URL (a Whisper result never has one) and whose three uploads all fail, exactly one metadata row is recorded, and its Drive URL is empty; it also carries the local path and the job's ID |
| Worker.UploadSuccessRecorded | internal/queue/worker.go:128-131 | a successful upload's URL is stored in the result that the metadata row is built from |
| Worker.MetadataErrorIgnored | internal/queue/worker.go:144-150 | a database error changes nothing about the run: the same effects, status and error as a successful save |
| Worker.CompletedIsLast | internal/queue/worker.go:152-155 | COMPLETED is set only after the input file is removed, and only the deferred removal of the normalised file follows it |
| Worker.ProcessFiles | internal/queue/worker.go:83-158 | when processJob returns normally the input file is gone; a normalised file, created only by a successful normalisation, is removed by the deferred call even when a later stage panics |
| Worker.StepFiles | internal/queue/worker.go:61-80 | after a job (panics included) the input file and any normalised file are both gone, and nothing else in the temp directory changed |
| Worker.WorkerPool.constructor | internal/queue/worker.go:27-42 | a new pool has an empty queue and remembers whether a Drive client and a database exist |
| Worker.WorkerPool.EnqueueJob | internal/queue/worker.go:53-58 | the job is marked QUEUED and stamped, then appended at the back of a FIFO of at most 100 jobs; when the queue is full it is left unchanged |
| Worker.WorkerPool.Submit | internal/handlers/upload.go:78-85 | a job built from an intake request is queued with the request's fields, status QUEUED, no error and no result |
| Worker.WorkerPool.CleanupTempFile | internal/queue/worker.go:161-167 | removes the path from the temp directory, ignores "", and is no error when the file is already gone |
| Worker.WorkerPool.Publish | internal/queue/worker.go:124-157 | upload, metadata and cleanup update the job as the publishing specification says, and never record an error |
| Worker.WorkerPool.RunStages | internal/queue/worker.go:98-157 | from transcription on, the job's status, error and temp files change as the specification of those stages says |
| Worker.WorkerPool.SaveAndPublish | internal/queue/worker.go:113-157 | from the local save on, the job's status, error and temp files change as the specification of those stages says |
| Worker.WorkerPool.ProcessJob | internal/queue/worker.go:83-158 | the job's status, error and temp files end as the pipeline specification says; the result and creation time are never touched |
| Worker.WorkerPool.RunJob | internal/queue/worker.go:66-78 | one worker iteration with panic recovery leaves the job as the recovered pipeline specification says |
| Worker.WorkerPool.Receive | internal/queue/worker.go:64-78 | a worker takes the job at the head of the queue, which loses it; the job's status and error and the temp files end as that job's run specifies |
| Worker.WorkerPool.Drain | internal/queue/worker.go:64-79 | the workers take every queued job in FIFO order; each job's status and error end as its own run specifies; the temp files end as all the runs applied in that order; the queue ends empty |
| Cleanup.DeletedIff | internal/cleanup/scheduler.go:67-92 | an entry is deleted iff the walk reached it, its stat succeeded, it is not a directory, its age is strictly over the limit, and its removal succeeded |
| Cleanup.DeletedBounds | internal/cleanup/scheduler.go:64-89 | a sweep deletes no more entries than it visits and frees no negative space |
| Cleanup.Scheduler.constructor | internal/cleanup/scheduler.go:19-26 | a new scheduler is not running, not stopped and has swept nothing |
| Cleanup.Scheduler.CleanOldFiles | internal/cleanup/scheduler.go:60-102 | counts exactly the deleted entries, sums their sizes, removes exactly their paths, and logs a summary iff something was deleted |
| Cleanup.Scheduler.Start | internal/cleanup/scheduler.go:29-51 | one sweep runs before the ticker loop starts |
| Cleanup.Scheduler.Tick | internal/cleanup/scheduler.go:38-41 | every tick of a running scheduler runs one more sweep |
| Cleanup.Scheduler.Stop | internal/cleanup/scheduler.go:54-57 | a stopped scheduler runs no more sweeps; stopping again is outside the contract |
| LocalStorage.Sanitized | internal/storage/local.go:77-88 | the sanitised name has 1 to 100 bytes and contains no '/' unless it is exactly "/" |
| LocalStorage.SanitizeFilename | internal/storage/local.go:77-88 | the loop of nine `filepath.Base` calls followed by byte truncation yields the sanitised name |
| LocalStorage.SanitizedKeepsPlainName | internal/storage/local.go:80-87 | a name without '/' of 1 to 100 bytes is kept unchanged |
| LocalStorage.SanitizedKeepsListedChars | internal/storage/local.go:79-83 | the characters the code lists as invalid (other than '/') are not removed |
| LocalStorage.SanitizedDropsDirectories | internal/storage/local.go:81-83 | directory components before the last '/' are dropped |
| LocalStorage.SanitizedDegenerate | internal/storage/local.go:81-83 | "" sanitises to "." and a run of slashes to "/" |
| LocalStorage.SanitizedIdempotent | internal/storage/local.go:77-88 | sanitising twice is the same as sanitising once |
| LocalStorage.DateDirLayout | internal/storage/local.go:29-32 | the directory is outputDir/YYYY/MM/DD; the year reads back from plain `%d`, and month and day are two digits that read back as themselves |
| LocalStorage.TimestampRoundTrip | internal/storage/local.go:39 | the timestamp is 15 characters, YYYYMMDD_HHMMSS, and every field reads back as the time's own value |
| LocalStorage.PathsShareBase | internal/storage/local.go:40-43 | the text and meta paths share the dated directory and base name; the meta path is the text path with ".txt" replaced by "_meta.json" |
| LocalStorage.SlashNameNestsTextFile | internal/storage/local.go:38-42 | for the request name "/" the text path is the date directory, then a subdirectory named by the timestamp and "_", then ".txt"; its last path element is ".txt" |
| LocalStorage.SaveTranscript | internal/storage/local.go:26-74 | success iff the directory, text, marshal and meta steps all succeed; on success it returns the text path, otherwise ""; files are written text first, so a metadata failure leaves the text file |
| GoText.DecimalRoundTrip | internal/storage/local.go:30 | `%d` of a natural number reads back as that number |
| GoText.ZeroPadRoundTrip | internal/storage/local.go:31-32 | zero-padding with `%02d` does not change the value read back |
| Audio.ValidateAudioFormat | internal/transcription/audio.go:36-46 | the linear search answers true iff the lower-cased extension is whitelisted |
| Audio.SupportedIff | internal/transcription/audio.go:37-45 | a name is accepted iff it ends, case-insensitively, in one of .mp3 .wav .m4a .ogg .flac .webm .aac .wma |
| Audio.AcceptsFoldedSuffix | internal/transcription/audio.go:37-45 | any stem followed by a whitelisted extension in any letter case is accepted |
| Audio.AcceptsUpperCase | internal/transcription/audio.go:37 | "A.MP3" is accepted |
| Audio.RejectsNoExtension | internal/transcription/audio.go:37-45 | a name whose last path element has no dot is rejected |
| Audio.RejectsInnerExtension | internal/transcription/audio.go:37 | only the last extension counts: "x.mp3.txt" is rejected |
| Audio.FormatShape | internal/transcription/audio.go:38 | each whitelisted extension is a dot followed by at least one lower-case letter or digit |
| Audio.NormalizeAudio | internal/transcription/audio.go:13-33 | success yields temp/normalized_&lt;uuid&gt;.wav; failure yields "" and "ffmpeg failed: " with ffmpeg's output |
| Audio.NormalizedPathShape | internal/transcription/audio.go:15 | the normalised file's base name is normalized_&lt;uuid&gt;.wav, its extension is .wav, and it passes format validation |
| Uuid.CanonicalIsPlainName | internal/transcription/audio.go:15 | a canonical UUID string is non-empty and has no '/' and no '.' |
| Whisper.ModelName | internal/transcription/whisper.go:28-40 | the model is the first of tiny, base, small, medium, large that occurs in the path, else "small" |
| Whisper.BasePathSelectsBase | internal/transcription/whisper.go:32-33 | "ggml-base.bin" selects "base" |
| Whisper.UnnamedPathSelectsSmall | internal/transcription/whisper.go:28 | a path that names no model selects "small" |
| Whisper.EarlierNameWins | internal/transcription/whisper.go:30-39 | the order of the checks decides: "large-v2-tiny" selects "tiny" |
| Whisper.NewWhisperTranscriber | internal/transcription/whisper.go:25-51 | construction never fails and records the selected model, "python" and the thread count |
| Whisper.JsonPathOfFile | internal/transcription/whisper.go:91-92 | for dir/stem.ext the output is read from temp/whisper_output/stem.json |
| Whisper.JsonPathOfNormalized | internal/transcription/whisper.go:91-92 | for a normalised file the output is temp/whisper_output/normalized_&lt;uuid&gt;.json |
| Whisper.ConvertOutput | internal/transcription/whisper.go:106-126 | the same segments in the same order with copied times and trimmed text; duration is the last segment's end or 0; trimmed text, copied language, all other fields zero |
| Whisper.ConvertedUnique | internal/transcription/whisper.go:106-126 | the conversion determines the result completely |
| Whisper.ConvertedShape | internal/transcription/whisper.go:111-122 | converted text and segment texts neither start nor end with white space, and the duration is the last segment's end |
| GoText.TrimSpaceIsInfix | internal/transcription/whisper.go:111 | `TrimSpace` removes only white space, and only from the two ends |
| GoText.TrimSpaceIdempotent | internal/transcription/whisper.go:122 | trimming twice is trimming once |
| Whisper.Transcribe | internal/transcription/whisper.go:54-130 | a result iff no error; each failure step has its own message ("failed to get absolute path: ", "whisper transcription failed: ", "failed to read whisper output: ", "failed to parse whisper JSON: "); the command line names the model |
| GDrive.IdRun | internal/handlers/gdrive.go:179 | the greedy `[a-zA-Z0-9_-]+` run: all ID characters, and stopped by a non-ID character or the end |
| GDrive.FirstMatch | internal/handlers/gdrive.go:180 | the leftmost position where the pattern matches, or none when it matches nowhere |
| GDrive.Capture | internal/handlers/gdrive.go:180-181 | the submatch exists iff the pattern matches somewhere; it is non-empty and made of ID characters |
| GDrive.CaptureOccurs | internal/handlers/gdrive.go:180-181 | a submatch, when there is one, occurs in the input |
| GDrive.ExtractFileID | internal/handlers/gdrive.go:177-197 | the result is made of ID characters, occurs in the URL, and is "" iff no /file/d/ form, no ?id=/&amp;id= form and no bare 25-40 character ID is present |
| GDrive.ExtractFromViewLink | internal/handlers/gdrive.go:178-182 | https://drive.google.com/file/d/&lt;id&gt;… yields &lt;id&gt; |
| GDrive.ExtractFromOpenLink | internal/handlers/gdrive.go:184-188 | https://drive.google.com/open?id=&lt;id&gt;… yields &lt;id&gt; |
| GDrive.ExtractBareId | internal/handlers/gdrive.go:190-194 | a bare ID of 25 to 40 ID characters is returned as it is |
| GDrive.FileLinkBeatsEarlierParam | internal/handlers/gdrive.go:179-188 | a /file/d/ form wins even over an earlier ?id= form |
| GDrive.IdCharsHoldNoMarker | internal/handlers/gdrive.go:190-194 | a string of ID characters contains neither URL form, so only the bare-ID rule can accept it |
| GDrive.DownloadGDriveFile | internal/handlers/gdrive.go:101-174 | the first request uses confirm=t; there are at most two requests; success iff the file was created and the copy succeeded; a logged snippet goes only with the no-token error |
| GDrive.SecondRequestIff | internal/handlers/gdrive.go:132-153 | a second request is made iff the first answer is a 200 HTML page that is not a login page and carries a confirm token, and it uses that token |
| GDrive.LoginPageWins | internal/handlers/gdrive.go:126-128 | a login page gives the private-file error before any token search, with one request and no file |
| GDrive.NonHtmlSaved | internal/handlers/gdrive.go:116-117 | a 200 non-HTML answer is saved to the destination with one request |
| GDrive.SnippetBounded | internal/handlers/gdrive.go:154-161 | without a token the error is the no-token one, and the snippet is the body's first min(len, 500) bytes |
| GDrive.Snippet | internal/handlers/gdrive.go:156-159 | the snippet is a prefix of the body of at most 500 bytes, and the whole body when it is shorter |
| GDrive.Handle | internal/handlers/gdrive.go:38-98 | ERR_INVALID_BODY, then ERR_NO_URL, then ERR_INVALID_URL, each before any download; a failed download gives ERR_DOWNLOAD_FAILED and no job; success queues one gdrive job for temp/&lt;id&gt;.mp3 named by the request or "gdrive_file" |
| GDrive.FailedCopyLeavesFile | internal/handlers/gdrive.go:166-173 | a copy failure after the file was created queues no job but leaves the file |
| GoText.SignedDecimal | internal/handlers/upload.go:50 | `%d` of an integer starts with '-' iff it is negative, and is the plain decimal otherwise |
| Upload.Handle | internal/handlers/upload.go:30-93 | ERR_NO_FILE first, then ERR_FILE_TOO_LARGE (size strictly over the limit), then ERR_INVALID_FORMAT, then ERR_SAVE_FAILED; only a saved admissible upload queues one upload job, named by the form or "untitled" |
| Upload.QueuedPathKeepsExtension | internal/handlers/upload.go:64-66 | the queued path is temp/&lt;jobID&gt; plus the original extension, case kept, and it passes format validation |
| Upload.LimitIsInclusive | internal/handlers/upload.go:47-48 | a file of exactly the limit passes; one byte more is too large |
| Upload.SizeCheckedFirst | internal/handlers/upload.go:46-61 | a file both too large and of an unsupported format is reported as too large |
| Stream.FirstStop | internal/handlers/stream.go:40-55 | the loop stops at the first read error or text message "END"; no earlier message stops it |
| Stream.Handle | internal/handlers/stream.go:29-104 | reads up to and including the stopping message; with no audio nothing is written or queued; otherwise the concatenated audio is written to temp/&lt;id&gt;.webm, and unless the write fails one stream job is queued, named by the last name message or "stream_recording", and confirmed |
| Stream.LaterFramesIgnored | internal/handlers/stream.go:40-55 | messages after the stopping one change neither where the loop stops nor what it collected |
| Stream.AudioAppend | internal/handlers/stream.go:66-68 | binary payloads are concatenated in arrival order |
| Stream.NameIsLastNaming | internal/handlers/stream.go:57-61 | the name is the last text message of 1 to 199 bytes, and is "" iff there is none |
| Stream.InterleavedMessages | internal/handlers/stream.go:47-68 | text between binary frames does not break the audio; other message types and texts of 200 bytes or more are ignored |
| Server.KeepLast | cmd/server/main.go:266-269 | keeps the min(len, k) most recent elements, in order |
| Server.KeepLastAppend | cmd/server/main.go:263-269 | trimming after each append keeps the same lines as trimming once at the end |
| Server.AfterWritesKeepsLast | cmd/server/main.go:259-272 | after any sequence of writes the buffer holds the last 1000 lines written, oldest first |
| Server.LogBuffer.constructor | cmd/server/main.go:83-85 | the buffer starts empty |
| Server.LogBuffer.Write | cmd/server/main.go:259-272 | appends the payload as the newest line and drops the oldest beyond 1000; returns len(p) and no error |
| Server.LogBuffer.GetLogs | cmd/server/main.go:274-282 | returns a fresh copy equal to the lines, in order, without changing the buffer |
| Server.SetUpDrive | cmd/server/main.go:105-122 | the Drive client is built iff the credentials file exists, and kept iff building it did not fail |
| Server.NoDriveNoUploads | cmd/server/main.go:105-138 | without credentials, or when the client cannot be built, no job ever calls the Drive upload; otherwise a job calls it at most three times |

## Left out

- Goroutines, channels and mutexes are not modelled. The worker goroutines, the blocking channel send and receive, the ticker goroutine, and the `LogBuffer` and Whisper locks are absent. The queue and the sweeps are modelled as sequential operations.
- Worker.WorkerPool.EnqueueJob: on a full queue Go blocks until a worker takes a job. The model reports `accepted == false` and leaves the queue as it was.
- Worker.WorkerPool.CleanupTempFile: every removal of an existing path is assumed to succeed. In Go, an `os.Remove` error other than not-exist (permissions, a directory at that path) is only logged, and the file stays.
- Worker.ProcessFiles: assumes that a failed normalisation writes no file. ffmpeg runs with `-y` on `temp/normalized_<uuid>.wav`, and the code returns without removing that path. Any partial output ffmpeg wrote before it failed stays in `temp/`. The model also assumes that every removal succeeds, as CleanupTempFile does.
- Worker.StepFiles: "the input and normalised files are gone and nothing else changed" rests on the same two assumptions: every `os.Remove` succeeds, and a failed ffmpeg run leaves no output file.
- Worker.WorkerPool.Drain: requires the queued jobs to be distinct objects. The handlers always enqueue freshly built jobs, which meets this.
- Worker.WorkerPool.Submit: the handlers build the job as a struct literal, and EnqueueJob then sets its status and creation time. The model builds it with NewJob. The queued job is the same.
- Calls into code the model cannot see are parameters fixed in advance:
  - ffmpeg, the Whisper subprocess, `filepath.Abs` and `os.ReadFile`;
  - JSON (un)marshalling, `os.MkdirAll`, `os.WriteFile`, `os.Create` and `io.Copy`;
  - `http.Get`, the Drive client's `Upload` and the database's `SaveTranscript`;
  - `uuid.New()` and `time.Now()`.
  Log output is not modelled.
- Whisper.Transcribe: creating and removing the `temp/whisper_output` directory is not modelled.
- Time values are calendar fields or whole nanoseconds. Durations and segment times are reals, because the code only copies them. The float64 "MB freed" in the janitor's log line is left out.
- Cleanup.MaxAge: `time.Duration` overflow for very large hour counts is not modelled.
- Upload.MaxBytes: int64 overflow of `maxSizeMB*1024*1024` is not modelled.
- Cleanup.Scheduler.Stop: a second call closes a closed channel and panics in Go. The model requires the scheduler not yet stopped.
- Characters of a Go string stand for its bytes. `IsSpace`, `Fields` and `TrimSpace` recognise only ASCII white space; the Unicode spaces Go also strips are left out.
- `ToLower` folds only ASCII letters.
- `filepath.Join` and `Base` are modelled for clean paths only. `Clean`'s handling of "." and ".." elements, doubled '/' and a trailing '/' is not modelled.
- LocalStorage.DateDirLayout: the configured `output_dir` comes from the YAML config and is assumed clean. For "./outputs" or "outputs/" Go's `filepath.Join` gives "outputs/YYYY/MM/DD", while the model keeps the directory as written.
- GDrive.ExtractFromOpenLink: proved for links whose tail after the ID has no '/'. A later "/file/d/" would win over the "?id=" form, as GDrive.FileLinkBeatsEarlierParam shows.
- The handlers' HTTP framing is left out: Fiber routing, middleware, form parsing and body parsing. A parsed body is modelled as an optional request, and an answer as a status, message and code.
- `main` passes a third argument to `NewWhisperTranscriber`, which takes two. The model uses the two-argument constructor.
- The YouTube handler is not part of this model. It drives headless Chrome and a yt-dlp subprocess.
- The diarization placeholder is not part of this model. It always returns an empty result.
- The Drive client (OAuth, REST calls, folders) is not part of this model.
- The SQLite metadata store is not part of this model.
- `loadConfig`, YAML parsing, signal handling and the `/transcripts` and `/health` routes are left out.
