/**
 * Local transcript storage: the dated directory layout, the file names built
 * from a timestamp and the sanitized request name, and the order of the two
 * writes.
 */
module LocalStorage {
  import opened Wrappers
  import opened Types
  import GoText
  import GoPath

  /** Longest sanitized name, in bytes. */
  const MaxNameLength: nat := 100

  /** The characters sanitizeFilename lists; only how many there are affects what it does. */
  const InvalidChars: seq<string> := ["/", "\\", ":", "*", "?", "\"", "<", ">", "|"]

  /** What sanitizeFilename computes: the last path element, cut to 100 bytes. */
  function Sanitized(name: string): (r: string)
    ensures 1 <= |r| <= MaxNameLength
    ensures GoPath.NoSlash(r) || r == "/"
  {
    var b := GoPath.Base(name);
    if |b| > MaxNameLength then b[..MaxNameLength] else b
  }

  /**
   * sanitizeFilename: Base applied once per listed character (nine times),
   * then truncation to 100 bytes.
   */
  method SanitizeFilename(name: string) returns (result: string)
    ensures result == Sanitized(name)
  {
    result := name;
    for k := 0 to |InvalidChars|
      invariant k == 0 ==> result == name
      invariant k > 0 ==> result == GoPath.Base(name)
    {
      GoPath.BaseIdempotent(name);
      result := GoPath.Base(result);
    }
    if |result| > MaxNameLength {
      result := result[..MaxNameLength];
    }
  }

  /**
   * A slash-free name of at most 100 bytes comes back unchanged, so none of
   * the listed characters other than '/' is removed or replaced.
   */
  lemma SanitizedKeepsPlainName(name: string)
    requires name != [] && GoPath.NoSlash(name) && |name| <= MaxNameLength
    ensures Sanitized(name) == name
  {
    GoPath.BaseOfName(name);
  }

  /** `a\:*?"<>|` survives sanitizing as it is. */
  lemma SanitizedKeepsListedChars()
    ensures Sanitized("a\\:*?\"<>|") == "a\\:*?\"<>|"
  {
    SanitizedKeepsPlainName("a\\:*?\"<>|");
  }

  /** Only the last path element is kept. */
  lemma SanitizedDropsDirectories(dir: string, name: string)
    requires name != [] && GoPath.NoSlash(name) && |name| <= MaxNameLength
    ensures Sanitized(dir + "/" + name) == name
  {
    GoPath.BaseOfJoined(dir, name);
  }

  /** The empty name becomes "." and a name of slashes only becomes "/". */
  lemma SanitizedDegenerate(k: nat)
    ensures Sanitized("") == "."
    ensures Sanitized(seq(k + 1, _ => '/')) == "/"
  {
    var slashes := seq(k + 1, _ => '/');
    assert GoPath.TrimTrailingSlashes(slashes) == [];
  }

  /** Sanitizing twice changes nothing more. */
  lemma SanitizedIdempotent(name: string)
    ensures Sanitized(Sanitized(name)) == Sanitized(name)
  {
    var r := Sanitized(name);
    if r == "/" {
      assert GoPath.TrimTrailingSlashes(r) == [];
    } else {
      SanitizedKeepsPlainName(r);
    }
  }

  // ---------------------------------------------------------------------------
  // Paths

  /** %02d */
  function Pad2(n: nat): string {
    GoText.ZeroPad(n, 2)
  }

  /** outputDir/YYYY/MM/DD, the year in plain %d, month and day zero-padded to two digits. */
  function DateDir(outputDir: string, now: DateTime): string {
    GoPath.Join(GoPath.Join(GoPath.Join(outputDir, GoText.Decimal(now.year)), Pad2(now.month)), Pad2(now.day))
  }

  /** YYYYMMDD: the year zero-padded to four digits, month and day to two. */
  function DateStamp(now: DateTime): string {
    GoText.ZeroPad(now.year, 4) + Pad2(now.month) + Pad2(now.day)
  }

  /** HHMMSS */
  function ClockStamp(now: DateTime): string {
    Pad2(now.hour) + Pad2(now.minute) + Pad2(now.second)
  }

  /** The time laid out as "20060102_150405". */
  function Timestamp(now: DateTime): string {
    DateStamp(now) + "_" + ClockStamp(now)
  }

  /** timestamp_sanitizedName */
  function BaseFilename(requestName: string, now: DateTime): string {
    Timestamp(now) + "_" + Sanitized(requestName)
  }

  function TextPath(outputDir: string, requestName: string, now: DateTime): string {
    GoPath.Join(DateDir(outputDir, now), BaseFilename(requestName, now) + ".txt")
  }

  function MetaPath(outputDir: string, requestName: string, now: DateTime): string {
    GoPath.Join(DateDir(outputDir, now), BaseFilename(requestName, now) + "_meta.json")
  }

  /** Numbers below 100 take exactly two digits with %02d and read back as themselves. */
  lemma Pad2Exact(n: nat)
    requires n < 100
    ensures |Pad2(n)| == 2 && GoText.AllDigits(Pad2(n)) && GoText.DecimalValue(Pad2(n)) == n
  {
    GoText.DecimalLength(n, 2);
    GoText.ZeroPadRoundTrip(n, 2);
  }

  /**
   * The date directory is outputDir/YYYY/MM/DD: the year as written by %d,
   * month and day in exactly two digits each, every part reading back as
   * the date's own field.
   */
  lemma DateDirLayout(outputDir: string, now: DateTime)
    requires outputDir != [] && now.Valid()
    ensures var y, m, d := GoText.Decimal(now.year), Pad2(now.month), Pad2(now.day);
            && DateDir(outputDir, now) == outputDir + "/" + y + "/" + m + "/" + d
            && GoText.DecimalValue(y) == now.year
            && |m| == 2 && GoText.DecimalValue(m) == now.month
            && |d| == 2 && GoText.DecimalValue(d) == now.day
  {
    GoText.DecimalRoundTrip(now.year);
    Pad2Exact(now.month);
    Pad2Exact(now.day);
  }

  /** Cutting a concatenation of three strings at the seams gives the three back. */
  lemma Seams(a: string, b: string, c: string)
    ensures var t := a + b + c;
            t[..|a|] == a && t[|a|..|a| + |b|] == b && t[|a| + |b|..] == c
  {
  }

  /** The date stamp is YYYYMMDD for four-digit years, each field reading back as the date's own. */
  lemma DateStampFields(now: DateTime)
    requires now.Valid() && now.year < 10000
    ensures var t := DateStamp(now);
            && |t| == 8 && GoText.AllDigits(t)
            && GoText.DecimalValue(t[0..4]) == now.year
            && GoText.DecimalValue(t[4..6]) == now.month
            && GoText.DecimalValue(t[6..8]) == now.day
  {
    var y, m, d := GoText.ZeroPad(now.year, 4), Pad2(now.month), Pad2(now.day);
    assert GoText.Pow10(4) == 10000;
    GoText.DecimalLength(now.year, 4);
    GoText.ZeroPadRoundTrip(now.year, 4);
    Pad2Exact(now.month);
    Pad2Exact(now.day);
    Seams(y, m, d);
  }

  /** The clock stamp is HHMMSS, each field reading back as the time's own. */
  lemma ClockStampFields(now: DateTime)
    requires now.Valid()
    ensures var t := ClockStamp(now);
            && |t| == 6 && GoText.AllDigits(t)
            && GoText.DecimalValue(t[0..2]) == now.hour
            && GoText.DecimalValue(t[2..4]) == now.minute
            && GoText.DecimalValue(t[4..6]) == now.second
  {
    var h, m, s := Pad2(now.hour), Pad2(now.minute), Pad2(now.second);
    Pad2Exact(now.hour);
    Pad2Exact(now.minute);
    Pad2Exact(now.second);
    Seams(h, m, s);
  }

  /**
   * For years of four digits the timestamp is 15 characters,
   * YYYYMMDD_HHMMSS, and each field reads back as the time's own.
   */
  lemma TimestampRoundTrip(now: DateTime)
    requires now.Valid() && now.year < 10000
    ensures var t := Timestamp(now);
            && |t| == 15 && t[8] == '_'
            && GoText.DecimalValue(t[0..4]) == now.year
            && GoText.DecimalValue(t[4..6]) == now.month
            && GoText.DecimalValue(t[6..8]) == now.day
            && GoText.DecimalValue(t[9..11]) == now.hour
            && GoText.DecimalValue(t[11..13]) == now.minute
            && GoText.DecimalValue(t[13..15]) == now.second
  {
    var date, clock := DateStamp(now), ClockStamp(now);
    DateStampFields(now);
    ClockStampFields(now);
    var t := Timestamp(now);
    Seams(date, "_", clock);
    assert t[0..4] == date[0..4] && t[4..6] == date[4..6] && t[6..8] == date[6..8];
    assert t[9..11] == clock[0..2] && t[11..13] == clock[2..4] && t[13..15] == clock[4..6];
  }

  lemma DigitsNoSlash(s: string)
    requires GoText.AllDigits(s)
    ensures GoPath.NoSlash(s)
  {
    assert forall i :: 0 <= i < |s| ==> GoText.IsDigit(s[i]);
  }

  lemma TimestampNoSlash(now: DateTime)
    ensures GoPath.NoSlash(Timestamp(now))
  {
    var y, m, d := GoText.ZeroPad(now.year, 4), Pad2(now.month), Pad2(now.day);
    var h, mi, s := Pad2(now.hour), Pad2(now.minute), Pad2(now.second);
    DigitsNoSlash(y);
    DigitsNoSlash(m);
    DigitsNoSlash(d);
    DigitsNoSlash(h);
    DigitsNoSlash(mi);
    DigitsNoSlash(s);
  }

  /** With a slash-free sanitized name, the text file's name holds no '/'. */
  lemma TextNameNoSlash(requestName: string, now: DateTime)
    requires GoPath.NoSlash(Sanitized(requestName))
    ensures GoPath.NoSlash(BaseFilename(requestName, now) + ".txt")
  {
    TimestampNoSlash(now);
    JoinedNameNoSlash(Timestamp(now), Sanitized(requestName));
  }

  lemma JoinedNameNoSlash(timestamp: string, name: string)
    requires GoPath.NoSlash(timestamp) && GoPath.NoSlash(name)
    ensures GoPath.NoSlash(timestamp + "_" + name + ".txt")
  {
    var sep, ext := "_", ".txt";
    assert GoPath.NoSlash(sep) && GoPath.NoSlash(ext);
    GoPath.NoSlashConcat(timestamp, sep);
    GoPath.NoSlashConcat(timestamp + sep, name);
    GoPath.NoSlashConcat(timestamp + sep + name, ext);
  }

  lemma DateDirNonEmpty(outputDir: string, now: DateTime)
    requires outputDir != []
    ensures DateDir(outputDir, now) != []
  {
  }

  /** Joining a base name with each suffix onto a non-empty directory; trimming ".txt" leaves the stem. */
  lemma JoinedSiblings(dir: string, base: string)
    requires dir != []
    ensures GoPath.Join(dir, base + ".txt") == dir + "/" + base + ".txt"
    ensures GoPath.Join(dir, base + "_meta.json") == dir + "/" + base + "_meta.json"
    ensures GoPath.TrimSuffix(dir + "/" + base + ".txt", ".txt") == dir + "/" + base
  {
    var stem := dir + "/" + base;
    var txt := stem + ".txt";
    assert txt[|txt| - 4..] == ".txt";
    assert txt[..|txt| - 4] == stem;
  }

  /**
   * Both files sit in the date directory under the same base name; the text
   * path ends in ".txt" and the metadata path in "_meta.json". When the
   * sanitized name holds no '/', the text file's own name is that base name
   * plus ".txt".
   */
  lemma PathsShareBase(outputDir: string, requestName: string, now: DateTime)
    requires outputDir != []
    ensures var dir, base := DateDir(outputDir, now), BaseFilename(requestName, now);
            && TextPath(outputDir, requestName, now) == dir + "/" + base + ".txt"
            && MetaPath(outputDir, requestName, now) == dir + "/" + base + "_meta.json"
            && GoPath.TrimSuffix(TextPath(outputDir, requestName, now), ".txt") + "_meta.json"
               == MetaPath(outputDir, requestName, now)
            && (GoPath.NoSlash(Sanitized(requestName)) ==>
                  GoPath.Base(TextPath(outputDir, requestName, now)) == base + ".txt")
  {
    var dir, base := DateDir(outputDir, now), BaseFilename(requestName, now);
    DateDirNonEmpty(outputDir, now);
    JoinedSiblings(dir, base);
    if GoPath.NoSlash(Sanitized(requestName)) {
      TextNameNoSlash(requestName, now);
      GoPath.BaseOfJoined(dir, base + ".txt");
    }
  }

  /**
   * A request name of slashes only sanitizes to "/", so the text path names
   * a file ".txt" inside a directory the save never creates.
   */
  lemma SanitizedSlash()
    ensures Sanitized("/") == "/"
  {
    assert GoPath.TrimTrailingSlashes("/") == [];
  }

  /**
   * For the request name "/" the text path is ".txt" inside a subdirectory
   * "<timestamp>_" of the date directory, one level below the directory the
   * save creates.
   */
  lemma SlashNameNestsTextFile(outputDir: string, now: DateTime)
    requires outputDir != []
    ensures TextPath(outputDir, "/", now) == DateDir(outputDir, now) + "/" + (Timestamp(now) + "_") + "/" + ".txt"
    ensures GoPath.Base(TextPath(outputDir, "/", now)) == ".txt"
  {
    SanitizedSlash();
    var stem := Timestamp(now) + "_";
    assert BaseFilename("/", now) == stem + "/";
    DateDirNonEmpty(outputDir, now);
    SlashBeforeExtension(DateDir(outputDir, now), stem);
  }

  /** A name ending in '/' puts ".txt" in a directory of its own. */
  lemma SlashBeforeExtension(dir: string, stem: string)
    requires dir != []
    ensures GoPath.Join(dir, stem + "/" + ".txt") == dir + "/" + stem + "/" + ".txt"
    ensures GoPath.Base(GoPath.Join(dir, stem + "/" + ".txt")) == ".txt"
  {
    var p := dir + "/" + stem;
    assert GoPath.Join(dir, stem + "/" + ".txt") == p + "/" + ".txt";
    GoPath.BaseOfJoined(p, ".txt");
  }

  // ---------------------------------------------------------------------------
  // Saving

  /** The error each file-system step reports, None when it succeeds. */
  datatype SaveIO = SaveIO(mkdir: Option<string>, writeText: Option<string>, marshal: Option<string>, writeMeta: Option<string>)

  /** The returned path, the returned error, and the files written, in order. */
  datatype SaveOutcome = SaveOutcome(path: string, error: Option<string>, written: seq<string>)

  /**
   * LocalStorage.SaveTranscript at time `now`: create the date directory,
   * write the text, build the metadata JSON and write it, returning the text
   * path; any failure returns "" and an error, and what was already written
   * stays.
   */
  function SaveTranscript(outputDir: string, requestName: string, now: DateTime, io: SaveIO): (o: SaveOutcome)
    ensures o.error.None? <==> io.mkdir.None? && io.writeText.None? && io.marshal.None? && io.writeMeta.None?
    ensures o.error.None? ==> o.path == TextPath(outputDir, requestName, now)
    ensures o.error.Some? ==> o.path == ""
    ensures o.written <= [TextPath(outputDir, requestName, now), MetaPath(outputDir, requestName, now)]
    ensures |o.written| == (if io.mkdir.Some? || io.writeText.Some? then 0
                            else if io.marshal.Some? || io.writeMeta.Some? then 1 else 2)
  {
    var txt := TextPath(outputDir, requestName, now);
    var meta := MetaPath(outputDir, requestName, now);
    if io.mkdir.Some? then SaveOutcome("", Some("failed to create date directory: " + io.mkdir.value), [])
    else if io.writeText.Some? then SaveOutcome("", Some("failed to save transcript: " + io.writeText.value), [])
    else if io.marshal.Some? then SaveOutcome("", Some("failed to marshal metadata: " + io.marshal.value), [txt])
    else if io.writeMeta.Some? then SaveOutcome("", Some("failed to save metadata: " + io.writeMeta.value), [txt])
    else SaveOutcome(txt, None, [txt, meta])
  }
}
