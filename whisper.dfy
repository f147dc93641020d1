/**
 * The Whisper recogniser wrapper: which model name a configured model path
 * selects, where the JSON output of a run is read from, and how that output
 * becomes a transcription result.
 */
module Whisper {
  import opened Wrappers
  import opened Types
  import GoText
  import GoPath
  import Audio
  import Uuid

  /** The model names looked for in the configured path, in the order they are tried. */
  const ModelNames: seq<string> := ["tiny", "base", "small", "medium", "large"]

  const DefaultModel: string := "small"

  /**
   * The model name NewWhisperTranscriber picks: the first of ModelNames that
   * occurs in `modelPath`, or "small" when none does.
   */
  function ModelName(modelPath: string): (r: string)
    ensures r in ModelNames
    ensures forall i :: 0 <= i < |ModelNames| ==>
              (GoText.Contains(modelPath, ModelNames[i]) && (forall j :: 0 <= j < i ==> !GoText.Contains(modelPath, ModelNames[j])))
              ==> r == ModelNames[i]
    ensures (forall i :: 0 <= i < |ModelNames| ==> !GoText.Contains(modelPath, ModelNames[i])) ==> r == DefaultModel
  {
    if GoText.Contains(modelPath, "tiny") then "tiny"
    else if GoText.Contains(modelPath, "base") then "base"
    else if GoText.Contains(modelPath, "small") then "small"
    else if GoText.Contains(modelPath, "medium") then "medium"
    else if GoText.Contains(modelPath, "large") then "large"
    else DefaultModel
  }

  /** "ggml-base.bin" selects "base". */
  lemma BasePathSelectsBase()
    ensures ModelName("ggml-base.bin") == "base"
  {
    GoText.MissingCharNotContained("ggml-base.bin", "tiny", 't');
    GoText.ContainsAt("ggml-base.bin", "base", 5);
  }

  /** A path naming no model, such as "model.bin", falls back to "small". */
  lemma UnnamedPathSelectsSmall()
    ensures ModelName("model.bin") == "small"
  {
    GoText.MissingCharNotContained("model.bin", "tiny", 't');
    GoText.MissingCharNotContained("model.bin", "base", 'a');
    GoText.MissingCharNotContained("model.bin", "small", 'a');
    GoText.MissingCharNotContained("model.bin", "medium", 'u');
    GoText.MissingCharNotContained("model.bin", "large", 'a');
  }

  /** The earlier name wins when two occur: "large-v2-tiny" selects "tiny". */
  lemma EarlierNameWins()
    ensures ModelName("large-v2-tiny") == "tiny"
  {
    GoText.ContainsAt("large-v2-tiny", "tiny", 9);
  }

  /** The transcriber's settings; its mutex is not modelled. */
  datatype Transcriber = Transcriber(modelName: string, whisperCmd: string, threads: int)

  /** A constructed transcriber and the error returned beside it. */
  datatype Construction = Construction(transcriber: Transcriber, error: Option<string>)

  /**
   * NewWhisperTranscriber: the model name chosen from the path, the Python
   * interpreter as the command, and never an error.
   */
  function NewWhisperTranscriber(modelPath: string, threads: int): (r: Construction)
    ensures r.error.None?
    ensures r.transcriber.modelName == ModelName(modelPath) && r.transcriber.modelName in ModelNames
    ensures r.transcriber.whisperCmd == "python" && r.transcriber.threads == threads
  {
    Construction(Transcriber(ModelName(modelPath), "python", threads), None)
  }

  // ---------------------------------------------------------------------------
  // Transcribe

  /** temp/whisper_output, where Whisper is told to write. */
  const OutputDir: string := GoPath.Join("temp", "whisper_output")

  /**
   * Where Whisper's JSON is read from: the audio file's base name with its
   * extension removed, plus ".json", under temp/whisper_output.
   */
  function JsonPath(audioPath: string): string {
    var baseName := GoPath.TrimSuffix(GoPath.Base(audioPath), GoPath.Ext(audioPath));
    GoPath.Join(OutputDir, baseName + ".json")
  }

  /** For dir/stem.ext the JSON is temp/whisper_output/stem.json. */
  lemma JsonPathOfFile(dir: string, stem: string, ext: string)
    requires stem != [] && GoPath.NoSlash(stem)
    requires ext != [] && ext[0] == '.' && GoPath.NoSlash(ext) && GoPath.NoDot(ext[1..])
    ensures JsonPath(dir + "/" + stem + ext) == OutputDir + "/" + stem + ".json"
  {
    var p := dir + "/" + stem + ext;
    GoPath.NoSlashConcat(stem, ext);
    assert p == dir + "/" + (stem + ext);
    GoPath.BaseOfJoined(dir, stem + ext);
    assert p == (dir + "/" + stem) + ext;
    GoPath.ExtOfSuffix(dir + "/" + stem, ext);
    GoPath.TrimSuffixConcat(stem, ext);
  }

  /** The normalized file temp/normalized_<uuid>.wav is read back from temp/whisper_output/normalized_<uuid>.json. */
  lemma JsonPathOfNormalized(uuid: string)
    requires Uuid.Canonical(uuid)
    ensures JsonPath(Audio.NormalizedPath(uuid)) == OutputDir + "/" + ("normalized_" + uuid) + ".json"
  {
    var stem := "normalized_" + uuid;
    Uuid.CanonicalIsPlainName(uuid);
    assert GoPath.NoSlash("normalized_");
    GoPath.NoSlashConcat("normalized_", uuid);
    assert ".wav"[1..] == "wav";
    assert Audio.NormalizedPath(uuid) == "temp" + "/" + stem + ".wav";
    JsonPathOfFile("temp", stem, ".wav");
  }

  /** One segment as Whisper's JSON reports it. */
  datatype WhisperSegment = WhisperSegment(id: int, start: real, end: real, text: string)

  /** Whisper's JSON output. */
  datatype WhisperOutput = WhisperOutput(text: string, language: string, segments: seq<WhisperSegment>)

  /** One converted segment: times copied, text trimmed. */
  function ConvertSegment(seg: WhisperSegment): Segment {
    Segment(seg.start, seg.end, GoText.TrimSpace(seg.text))
  }

  /**
   * `r` is what Transcribe builds from `out`: the segments in the same order
   * with start and end copied and text trimmed, the duration taken from the
   * last segment's end (0 without segments), the text trimmed, the language
   * copied, and every other field at its zero value.
   */
  predicate Converted(out: WhisperOutput, r: TranscriptionResult) {
    && |r.segments| == |out.segments|
    && (forall i :: 0 <= i < |out.segments| ==>
          r.segments[i] == ConvertSegment(out.segments[i]))
    && r.duration == (if out.segments == [] then 0.0 else out.segments[|out.segments| - 1].end)
    && r.text == GoText.TrimSpace(out.text)
    && r.language == out.language
    && r.jobId == "" && r.wordCount == 0 && r.processedAt == ZeroTime
    && r.localPath == "" && r.gdriveUrl == ""
  }

  /** The conversion of Transcribe: the converted segments, then the duration and the other fields. */
  method ConvertOutput(out: WhisperOutput) returns (r: TranscriptionResult)
    ensures Converted(out, r)
  {
    var segments := ConvertSegments(out.segments);
    var converted := segments[..];
    var duration := 0.0;
    if segments.Length > 0 {
      duration := segments[segments.Length - 1].end;
    }
    var text := GoText.TrimSpace(out.text);
    r := TranscriptionResult("", text, out.language, duration, converted, 0, ZeroTime, "", "");
    assert |r.segments| == |out.segments|;
    assert forall i :: 0 <= i < |out.segments| ==> r.segments[i] == ConvertSegment(out.segments[i]);
  }

  /** The loop of Transcribe that fills a new slice of segments by index. */
  method ConvertSegments(ws: seq<WhisperSegment>) returns (segments: array<Segment>)
    ensures fresh(segments) && segments.Length == |ws|
    ensures forall k :: 0 <= k < |ws| ==> segments[k] == ConvertSegment(ws[k])
  {
    segments := new Segment[|ws|];
    for i := 0 to |ws|
      invariant forall k :: 0 <= k < i ==> segments[k] == ConvertSegment(ws[k])
    {
      var seg := ws[i];
      segments[i] := ConvertSegment(seg);
    }
  }

  /** The conversion determines the result completely. */
  lemma ConvertedUnique(out: WhisperOutput, r: TranscriptionResult, r': TranscriptionResult)
    requires Converted(out, r) && Converted(out, r')
    ensures r == r'
  {
    assert forall i :: 0 <= i < |r.segments| ==> r.segments[i] == r'.segments[i];
    assert r.segments == r'.segments;
  }

  /**
   * The duration is the end of the last converted segment, and neither the
   * text nor any segment's text starts or ends in white space.
   */
  lemma ConvertedShape(out: WhisperOutput, r: TranscriptionResult)
    requires Converted(out, r)
    ensures r.segments != [] ==> r.duration == r.segments[|r.segments| - 1].end
    ensures r.text != [] ==> !GoText.IsSpace(r.text[0]) && !GoText.IsSpace(r.text[|r.text| - 1])
    ensures forall i :: 0 <= i < |r.segments| && r.segments[i].text != [] ==>
              !GoText.IsSpace(r.segments[i].text[0]) && !GoText.IsSpace(r.segments[i].text[|r.segments[i].text| - 1])
  {
    forall i | 0 <= i < |r.segments| && r.segments[i].text != []
      ensures !GoText.IsSpace(r.segments[i].text[0]) && !GoText.IsSpace(r.segments[i].text[|r.segments[i].text| - 1])
    {
      assert r.segments[i].text == GoText.TrimSpace(out.segments[i].text);
    }
  }

  /** What Whisper's output directory holds for a path: parsed JSON or a parse error. */
  datatype WhisperDoc = Parsed(output: WhisperOutput) | Malformed(error: string)

  /**
   * The environment of one run: the error of filepath.Abs if any and the
   * absolute path otherwise, the subprocess's error and combined output, the
   * JSON documents it left behind, and the error reading a missing one.
   */
  datatype WhisperRun = WhisperRun(
    absError: Option<string>,
    absPath: string,
    exitError: Option<string>,
    combinedOutput: string,
    outputs: map<string, WhisperDoc>,
    readError: string)

  /** The command line `python -m whisper` is started with. */
  function CommandLine(t: Transcriber, absPath: string): seq<string> {
    [t.whisperCmd, "-m", "whisper", absPath, "--model", t.modelName, "--output_dir", OutputDir,
     "--output_format", "json", "--language", "en", "--fp16", "False"]
  }

  /**
   * Transcribe: resolve the absolute path, run Whisper, read and parse its
   * JSON, and convert it. Each failure returns no result and an error naming
   * the step; `argv` is the command line when Whisper was started.
   */
  method Transcribe(t: Transcriber, audioPath: string, run: WhisperRun)
    returns (result: Option<TranscriptionResult>, err: Option<string>, argv: Option<seq<string>>)
    ensures result.Some? <==> err.None?
    ensures argv.Some? <==> run.absError.None?
    ensures argv.Some? ==> argv.value == CommandLine(t, run.absPath) && argv.value[5] == t.modelName
    ensures run.absError.Some? ==> err == Some("failed to get absolute path: " + run.absError.value)
    ensures run.absError.None? && run.exitError.Some? ==>
              err == Some("whisper transcription failed: " + run.exitError.value + "\nOutput: " + run.combinedOutput)
    ensures run.absError.None? && run.exitError.None? && JsonPath(audioPath) !in run.outputs ==>
              err == Some("failed to read whisper output: " + run.readError)
    ensures run.absError.None? && run.exitError.None? && JsonPath(audioPath) in run.outputs ==>
              match run.outputs[JsonPath(audioPath)]
              case Malformed(e) => err == Some("failed to parse whisper JSON: " + e)
              case Parsed(out) => result.Some? && Converted(out, result.value)
  {
    result, argv := None, None;
    if run.absError.Some? {
      err := Some("failed to get absolute path: " + run.absError.value);
      return;
    }
    argv := Some(CommandLine(t, run.absPath));
    if run.exitError.Some? {
      err := Some("whisper transcription failed: " + run.exitError.value + "\nOutput: " + run.combinedOutput);
      return;
    }
    var jsonPath := JsonPath(audioPath);
    if jsonPath !in run.outputs {
      err := Some("failed to read whisper output: " + run.readError);
      return;
    }
    match run.outputs[jsonPath] {
      case Malformed(e) =>
        err := Some("failed to parse whisper JSON: " + e);
      case Parsed(out) =>
        var r := ConvertOutput(out);
        result, err := Some(r), None;
    }
  }
}
