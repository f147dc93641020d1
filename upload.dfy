/** The multipart upload intake: the guard chain, the temp file name and the queued job. */
module Upload {
  import opened Wrappers
  import opened Types
  import opened Jobs
  import opened Replies
  import GoText
  import GoPath
  import Audio

  /** The uploaded part's file name and size in bytes. */
  datatype FormFile = FormFile(filename: string, size: int)

  /** The form: the "file" part (None when it is missing) and the "name" field. */
  datatype UploadForm = UploadForm(file: Option<FormFile>, name: string)

  /** The answer, the job to enqueue, and the path the upload was saved to (or was being saved to). */
  datatype UploadOutcome = UploadOutcome(reply: Reply, job: Option<JobRequest>, saveTo: Option<string>)

  const DefaultName: string := "untitled"

  /** maxSizeMB megabytes in bytes. */
  function MaxBytes(maxSizeMB: int): int {
    maxSizeMB * 1024 * 1024
  }

  /** temp/<jobID><extension>, the extension as uploaded. */
  function TempPath(jobId: string, filename: string): string {
    GoPath.Join("temp", jobId + GoPath.Ext(filename))
  }

  /** The checks a form must pass before it is saved: a file, within the size limit, with a whitelisted extension. */
  predicate Admissible(maxSizeMB: int, form: UploadForm) {
    form.file.Some? && form.file.value.size <= MaxBytes(maxSizeMB) && Audio.Supported(form.file.value.filename)
  }

  /**
   * UploadHandler.Handle with `jobId` the fresh identifier and `saveError`
   * what saving the part reports: the first failed check answers its error,
   * and only a saved upload is queued.
   */
  function Handle(maxSizeMB: int, form: UploadForm, jobId: string, saveError: Option<string>): (o: UploadOutcome)
    ensures o.job.Some? <==> o.reply.Accepted?
    ensures o.reply.Accepted? <==> Admissible(maxSizeMB, form) && saveError.None?
    ensures o.saveTo.Some? <==> Admissible(maxSizeMB, form)
    ensures form.file.None? ==> o.reply == Rejected(400, "No file uploaded", "ERR_NO_FILE")
    ensures form.file.Some? && form.file.value.size > MaxBytes(maxSizeMB) ==>
              o.reply == Rejected(400, "File too large (max " + GoText.SignedDecimal(maxSizeMB) + "MB)", "ERR_FILE_TOO_LARGE")
    ensures form.file.Some? && form.file.value.size <= MaxBytes(maxSizeMB) && !Audio.Supported(form.file.value.filename) ==>
              o.reply == Rejected(400, "Unsupported audio format", "ERR_INVALID_FORMAT")
    ensures Admissible(maxSizeMB, form) ==> o.saveTo == Some(TempPath(jobId, form.file.value.filename))
    ensures Admissible(maxSizeMB, form) && saveError.Some? ==> o.reply == Rejected(500, "Failed to save file", "ERR_SAVE_FAILED")
    ensures o.job.Some? ==>
              && o.job.value == JobRequest(jobId, if form.name == "" then DefaultName else form.name, Upload, o.saveTo.value)
              && o.reply == Accepted(jobId, "File uploaded successfully, processing started")
  {
    if form.file.None? then UploadOutcome(Rejected(400, "No file uploaded", "ERR_NO_FILE"), None, None)
    else
      var file := form.file.value;
      var requestName := if form.name == "" then DefaultName else form.name;
      if file.size > MaxBytes(maxSizeMB) then
        UploadOutcome(Rejected(400, "File too large (max " + GoText.SignedDecimal(maxSizeMB) + "MB)", "ERR_FILE_TOO_LARGE"), None, None)
      else if !Audio.Supported(file.filename) then
        UploadOutcome(Rejected(400, "Unsupported audio format", "ERR_INVALID_FORMAT"), None, None)
      else
        var tempPath := TempPath(jobId, file.filename);
        if saveError.Some? then UploadOutcome(Rejected(500, "Failed to save file", "ERR_SAVE_FAILED"), None, Some(tempPath))
        else
          UploadOutcome(Accepted(jobId, "File uploaded successfully, processing started"),
                        Some(JobRequest(jobId, requestName, Upload, tempPath)), Some(tempPath))
  }

  /** The temp path of a whitelisted upload keeps its extension, and so passes the whitelist again. */
  lemma TempPathKeepsExtension(jobId: string, filename: string)
    requires Audio.Supported(filename)
    ensures TempPath(jobId, filename) == "temp/" + jobId + GoPath.Ext(filename)
    ensures GoPath.Ext(TempPath(jobId, filename)) == GoPath.Ext(filename)
    ensures Audio.Supported(TempPath(jobId, filename))
  {
    var ext := GoPath.Ext(filename);
    var prefix := "temp/" + jobId;
    assert ext != [] by {
      if ext == [] {
        assert GoText.ToLower(ext) == [];
        Audio.ShortNotListed([]);
      }
    }
    assert TempPath(jobId, filename) == prefix + ext;
    GoPath.ExtOfSuffix(prefix, ext);
  }

  /**
   * A queued upload is stored as temp/<jobID><ext> with the extension exactly
   * as uploaded (case kept), and the stored file passes the whitelist again.
   */
  lemma QueuedPathKeepsExtension(maxSizeMB: int, form: UploadForm, jobId: string)
    requires Handle(maxSizeMB, form, jobId, None).job.Some?
    ensures var path := Handle(maxSizeMB, form, jobId, None).job.value.filePath;
            && path == "temp/" + jobId + GoPath.Ext(form.file.value.filename)
            && GoPath.Ext(path) == GoPath.Ext(form.file.value.filename)
            && Audio.Supported(path)
  {
    var o := Handle(maxSizeMB, form, jobId, None);
    assert o.job.value.filePath == TempPath(jobId, form.file.value.filename);
    TempPathKeepsExtension(jobId, form.file.value.filename);
  }

  /** A file exactly at the size limit passes the size check. */
  lemma LimitIsInclusive(maxSizeMB: int, filename: string, name: string, jobId: string)
    requires Audio.Supported(filename)
    ensures Handle(maxSizeMB, UploadForm(Some(FormFile(filename, MaxBytes(maxSizeMB))), name), jobId, None).reply.Accepted?
    ensures Handle(maxSizeMB, UploadForm(Some(FormFile(filename, MaxBytes(maxSizeMB) + 1)), name), jobId, None).reply.code == "ERR_FILE_TOO_LARGE"
  {
  }

  /** The size is checked before the format: an oversized file of an unsupported type is reported as too large. */
  lemma SizeCheckedFirst(maxSizeMB: int, filename: string, size: int, name: string, jobId: string, saveError: Option<string>)
    requires size > MaxBytes(maxSizeMB) && !Audio.Supported(filename)
    ensures Handle(maxSizeMB, UploadForm(Some(FormFile(filename, size)), name), jobId, saveError).reply.code == "ERR_FILE_TOO_LARGE"
  {
  }
}
