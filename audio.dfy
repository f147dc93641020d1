/** The audio helpers: the extension whitelist and the ffmpeg normalisation step. */
module Audio {
  import opened Wrappers
  import GoText
  import GoPath
  import Uuid

  /** The extensions ValidateAudioFormat accepts, all lower case. */
  const SupportedFormats: seq<string> := [".mp3", ".wav", ".m4a", ".ogg", ".flac", ".webm", ".aac", ".wma"]

  /** The file's final extension, lower-cased, is on the whitelist. */
  predicate Supported(filename: string) {
    GoText.ToLower(GoPath.Ext(filename)) in SupportedFormats
  }

  /** ValidateAudioFormat: a linear search of the whitelist for the lower-cased extension. */
  method ValidateAudioFormat(filename: string) returns (ok: bool)
    ensures ok <==> Supported(filename)
  {
    var ext := GoText.ToLower(GoPath.Ext(filename));
    for i := 0 to |SupportedFormats|
      invariant ext !in SupportedFormats[..i]
    {
      if ext == SupportedFormats[i] {
        return true;
      }
    }
    return false;
  }

  /** Whether `name` ends, ignoring ASCII case, in `ext`. */
  predicate EndsInFolded(name: string, ext: string) {
    |ext| <= |name| && GoText.ToLower(name[|name| - |ext|..]) == ext
  }

  /** Every whitelisted extension is a dot followed by lower-case letters and digits. */
  lemma FormatShape(k: nat)
    requires k < |SupportedFormats|
    ensures var f := SupportedFormats[k];
            && |f| >= 2 && f[0] == '.' && GoPath.NoSlash(f) && GoPath.NoDot(f[1..])
            && GoText.ToLower(f) == f
  {
  }

  /** Lower-casing keeps '.' and '/' where they are and creates neither. */
  lemma FoldKeepsSeparators(s: string)
    ensures forall i :: 0 <= i < |s| ==> (GoText.ToLower(s)[i] == '.' <==> s[i] == '.')
    ensures forall i :: 0 <= i < |s| ==> (GoText.ToLower(s)[i] == '/' <==> s[i] == '/')
  {
  }

  /** A name ending in a whitelisted extension, in any case, is accepted. */
  lemma AcceptsFoldedSuffix(stem: string, ext: string)
    requires GoText.ToLower(ext) in SupportedFormats
    ensures Supported(stem + ext)
  {
    var f := GoText.ToLower(ext);
    var k :| 0 <= k < |SupportedFormats| && SupportedFormats[k] == f;
    FormatShape(k);
    FoldKeepsSeparators(ext);
    assert ext[0] == '.';
    assert GoPath.NoSlash(ext);
    assert GoPath.NoDot(ext[1..]) by {
      forall i | 0 <= i < |ext[1..]|
        ensures ext[1..][i] != '.'
      {
        assert f[1..][i] == f[i + 1];
      }
    }
    GoPath.ExtOfSuffix(stem, ext);
  }

  /**
   * A name is accepted iff it ends, ignoring ASCII case, in one of the eight
   * whitelisted extensions.
   */
  lemma SupportedIff(name: string)
    ensures Supported(name) <==> exists k :: 0 <= k < |SupportedFormats| && EndsInFolded(name, SupportedFormats[k])
  {
    if Supported(name) {
      var ext := GoPath.Ext(name);
      var k :| 0 <= k < |SupportedFormats| && SupportedFormats[k] == GoText.ToLower(ext);
      assert EndsInFolded(name, SupportedFormats[k]);
    }
    if k :| 0 <= k < |SupportedFormats| && EndsInFolded(name, SupportedFormats[k]) {
      var f := SupportedFormats[k];
      var stem, ext := name[..|name| - |f|], name[|name| - |f|..];
      assert name == stem + ext;
      AcceptsFoldedSuffix(stem, ext);
    }
  }

  /** The check ignores case: "A.MP3" is accepted. */
  lemma AcceptsUpperCase()
    ensures Supported("A.MP3")
  {
    assert GoText.ToLower(".MP3") == ".mp3";
    AcceptsFoldedSuffix("A", ".MP3");
    assert "A" + ".MP3" == "A.MP3";
  }

  /** A name whose last element has no '.' has no extension and is rejected. */
  lemma RejectsNoExtension(name: string)
    requires GoPath.NoDot(GoPath.LastElement(name))
    ensures !Supported(name)
  {
    GoPath.ExtEmpty(name);
    var e := GoText.ToLower(GoPath.Ext(name));
    assert |e| == 0;
    ShortNotListed(e);
  }

  /** Every whitelisted extension has at least two characters. */
  lemma ShortNotListed(e: string)
    requires |e| < 2
    ensures e !in SupportedFormats
  {
    forall k | 0 <= k < |SupportedFormats|
      ensures SupportedFormats[k] != e
    {
      FormatShape(k);
    }
  }

  /** Only the last extension counts: "x.mp3.txt" is rejected. */
  lemma RejectsInnerExtension()
    ensures !Supported("x.mp3.txt")
  {
    assert ".txt"[1..] == "txt";
    GoPath.ExtOfSuffix("x.mp3", ".txt");
    assert "x.mp3" + ".txt" == "x.mp3.txt";
    assert GoText.ToLower(".txt") == ".txt";
  }

  // ---------------------------------------------------------------------------
  // NormalizeAudio

  /** What the ffmpeg run reports: its error, if any, and its combined output. */
  datatype FfmpegRun = FfmpegRun(error: Option<string>, output: string)

  /** A returned path and a returned error. */
  datatype PathResult = PathResult(path: string, error: Option<string>)

  /** temp/normalized_<uuid>.wav */
  function NormalizedPath(uuid: string): string {
    GoPath.Join("temp", "normalized_" + uuid + ".wav")
  }

  /**
   * NormalizeAudio with `uuid` as the fresh identifier and `run` as what
   * ffmpeg reports: the normalized path, or "" and an error carrying
   * ffmpeg's output.
   */
  function NormalizeAudio(uuid: string, run: FfmpegRun): (r: PathResult)
    ensures r.error.Some? <==> run.error.Some?
    ensures r.error.Some? ==> r.path == "" && r.error.value == "ffmpeg failed: " + run.error.value + "\nOutput: " + run.output
    ensures r.error.None? ==> r.path == "temp/normalized_" + uuid + ".wav"
  {
    if run.error.Some? then PathResult("", Some("ffmpeg failed: " + run.error.value + "\nOutput: " + run.output))
    else PathResult(NormalizedPath(uuid), None)
  }

  /**
   * A normalized file for a canonical identifier is named
   * normalized_<uuid>.wav directly under temp, has the extension ".wav"
   * and passes the whitelist.
   */
  lemma NormalizedPathShape(uuid: string)
    requires Uuid.Canonical(uuid)
    ensures GoPath.Base(NormalizedPath(uuid)) == "normalized_" + uuid + ".wav"
    ensures GoPath.Ext(NormalizedPath(uuid)) == ".wav"
    ensures Supported(NormalizedPath(uuid))
  {
    var stem := "normalized_" + uuid;
    var p := NormalizedPath(uuid);
    NormalizedNameNoSlash(uuid);
    assert p == "temp" + "/" + (stem + ".wav");
    GoPath.BaseOfJoined("temp", stem + ".wav");
    assert p == ("temp/" + stem) + ".wav";
    WavExtension("temp/" + stem);
  }

  lemma NormalizedNameNoSlash(uuid: string)
    requires Uuid.Canonical(uuid)
    ensures GoPath.NoSlash(("normalized_" + uuid) + ".wav")
  {
    Uuid.CanonicalIsPlainName(uuid);
    var name := "normalized_" + uuid + ".wav";
    forall i | 0 <= i < |name|
      ensures name[i] != '/'
    {
      if i < 11 {
        assert name[i] == "normalized_"[i];
      } else if i < 11 + |uuid| {
        assert name[i] == uuid[i - 11];
      } else {
        assert name[i] == ".wav"[i - 11 - |uuid|];
      }
    }
  }

  /** Any path ending in ".wav" has that extension and is accepted. */
  lemma WavExtension(stem: string)
    ensures GoPath.Ext(stem + ".wav") == ".wav"
    ensures Supported(stem + ".wav")
  {
    assert ".wav"[1..] == "wav";
    GoPath.ExtOfSuffix(stem, ".wav");
    assert GoText.ToLower(".wav") == ".wav";
  }
}
