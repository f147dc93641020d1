/**
 * The Google Drive intake: extracting a file ID from the forms of link the
 * service accepts, the request's guard chain, and how a download response
 * is classified (file, virus-scan warning with a confirm token, login page).
 */
module GDrive {
  import opened Wrappers
  import opened Types
  import opened Jobs
  import opened Replies
  import GoText
  import GoPath

  // ---------------------------------------------------------------------------
  // The three regular expressions

  /** [a-zA-Z0-9_-] */
  predicate IsIdChar(c: char) {
    'a' <= c <= 'z' || 'A' <= c <= 'Z' || '0' <= c <= '9' || c == '_' || c == '-'
  }

  predicate AllIdChars(s: string) {
    forall i :: 0 <= i < |s| ==> IsIdChar(s[i])
  }

  /** The length of the run of ID characters that starts at `i` (the greedy `+`). */
  function IdRun(s: string, i: nat): (n: nat)
    requires i <= |s|
    ensures i + n <= |s| && AllIdChars(s[i..i + n])
    ensures i + n < |s| ==> !IsIdChar(s[i + n])
    ensures i < |s| && IsIdChar(s[i]) ==> n >= 1
    decreases |s| - i
  {
    if i < |s| && IsIdChar(s[i]) then
      var n := IdRun(s, i + 1);
      assert s[i..i + 1 + n] == [s[i]] + s[i + 1..i + 1 + n];
      1 + n
    else 0
  }

  /** A run of ID characters ended by the end of the string or a non-ID character is exactly the run IdRun measures. */
  lemma {:induction false} IdRunIs(s: string, i: nat, n: nat)
    requires i + n <= |s| && AllIdChars(s[i..i + n])
    requires i + n < |s| ==> !IsIdChar(s[i + n])
    ensures IdRun(s, i) == n
    decreases n
  {
    if n > 0 {
      assert s[i + 1..i + n] == s[i..i + n][1..];
      IdRunIs(s, i + 1, n - 1);
    }
  }

  /**
   * The literal parts of the patterns: `/file/d/`, `[?&]id=` and `confirm=`,
   * each followed by the captured `([a-zA-Z0-9_-]+)`.
   */
  datatype Marker = FileLink | IdParam | ConfirmParam

  function MarkerLength(m: Marker): nat {
    match m
    case FileLink => 8
    case IdParam => 4
    case ConfirmParam => 8
  }

  predicate MarkerAt(s: string, m: Marker, i: int) {
    match m
    case FileLink => GoText.OccursAt(s, "/file/d/", i)
    case IdParam => GoText.OccursAt(s, "?id=", i) || GoText.OccursAt(s, "&id=", i)
    case ConfirmParam => GoText.OccursAt(s, "confirm=", i)
  }

  /** The pattern matches at `i`: the marker, then at least one ID character. */
  predicate MatchAt(s: string, m: Marker, i: int) {
    MarkerAt(s, m, i) && 0 <= i && i + MarkerLength(m) < |s| && IsIdChar(s[i + MarkerLength(m)])
  }

  predicate NoMatch(s: string, m: Marker) {
    forall j :: 0 <= j < |s| ==> !MatchAt(s, m, j)
  }

  /** The leftmost position at or after `from` where the pattern matches. */
  function FirstMatch(s: string, m: Marker, from: nat): (r: Option<nat>)
    ensures r.Some? ==> from <= r.value < |s| && MatchAt(s, m, r.value)
    ensures r.Some? ==> forall j :: from <= j < r.value ==> !MatchAt(s, m, j)
    ensures r.None? ==> forall j :: from <= j < |s| ==> !MatchAt(s, m, j)
    decreases |s| - from
  {
    if from >= |s| then None
    else if MatchAt(s, m, from) then Some(from)
    else FirstMatch(s, m, from + 1)
  }

  /** A match with no match before it is the leftmost one. */
  lemma FirstMatchAt(s: string, m: Marker, i: nat)
    requires MatchAt(s, m, i) && forall j :: 0 <= j < i ==> !MatchAt(s, m, j)
    ensures FirstMatch(s, m, 0) == Some(i)
  {
  }

  /** The run of ID characters that starts at `k`. */
  function RunAfter(s: string, k: nat): (r: string)
    requires k <= |s|
    ensures k + |r| <= |s| && r == s[k..k + |r|] && AllIdChars(r)
    ensures k + |r| < |s| ==> !IsIdChar(s[k + |r|])
  {
    s[k..k + IdRun(s, k)]
  }

  /** A run of ID characters at `k` that ends at the end of `s` or before a non-ID character is the run RunAfter takes. */
  lemma RunAfterIs(s: string, k: nat, b: string)
    requires k + |b| <= |s| && s[k..k + |b|] == b && AllIdChars(b)
    requires k + |b| < |s| ==> !IsIdChar(s[k + |b|])
    ensures RunAfter(s, k) == b
  {
    IdRunIs(s, k, |b|);
  }

  /** FindStringSubmatch's group 1: the ID run after the leftmost match, if there is one. */
  function Capture(s: string, m: Marker): (r: Option<string>)
    ensures r.None? <==> NoMatch(s, m)
    ensures r.Some? ==> r.value != [] && AllIdChars(r.value)
  {
    match FirstMatch(s, m, 0)
    case None => None
    case Some(i) => Some(RunAfter(s, i + MarkerLength(m)))
  }

  /** What is captured occurs in the input. */
  lemma CaptureOccurs(s: string, m: Marker)
    ensures Capture(s, m).Some? ==> GoText.Contains(s, Capture(s, m).value)
  {
    if FirstMatch(s, m, 0).Some? {
      var k := FirstMatch(s, m, 0).value + MarkerLength(m);
      GoText.ContainsAt(s, RunAfter(s, k), k);
    }
  }

  /** `^([a-zA-Z0-9_-]{25,40})$` */
  predicate BareId(s: string) {
    25 <= |s| <= 40 && AllIdChars(s)
  }

  /**
   * extractGDriveFileID: the ID after the first "/file/d/", else the ID after
   * the first "?id=" or "&id=", else the whole input when it is a bare ID of
   * 25 to 40 characters, else "".
   */
  function ExtractFileID(url: string): (r: string)
    ensures AllIdChars(r)
    ensures r == "" <==> NoMatch(url, FileLink) && NoMatch(url, IdParam) && !BareId(url)
    ensures r != "" ==> GoText.Contains(url, r)
  {
    var link := Capture(url, FileLink);
    CaptureOccurs(url, FileLink);
    if link.Some? then link.value
    else
      var param := Capture(url, IdParam);
      CaptureOccurs(url, IdParam);
      if param.Some? then param.value
      else if BareId(url) then (GoText.ContainsAt(url, url, 0); url)
      else ""
  }

  const ViewPrefix: string := "https://drive.google.com/file/d/"
  const OpenPrefix: string := "https://drive.google.com/open?id="

  /** The host part "https://drive.google.com" has no 'f', and neither has the rest of the open-link prefix. */
  lemma PrefixesHaveNoF()
    ensures forall k :: 0 <= k < 24 ==> ViewPrefix[k] != 'f'
    ensures forall k :: 0 <= k < |OpenPrefix| ==> OpenPrefix[k] != 'f'
  {
  }

  /** The first two characters of an occurrence of "/file/d/". */
  lemma FileMarkerStart(s: string, j: int)
    requires GoText.OccursAt(s, "/file/d/", j)
    ensures s[j] == '/' && s[j + 1] == 'f'
  {
    var w := "/file/d/";
    assert s[j + 0] == w[0] && s[j + 1] == w[1];
  }

  /** The first character of an occurrence of "?id=" or "&id=". */
  lemma ParamMarkerStart(s: string, j: int)
    requires GoText.OccursAt(s, "?id=", j) || GoText.OccursAt(s, "&id=", j)
    ensures s[j] == '?' || s[j] == '&'
  {
    var q, a := "?id=", "&id=";
    assert GoText.OccursAt(s, q, j) ==> s[j + 0] == q[0];
    assert GoText.OccursAt(s, a, j) ==> s[j + 0] == a[0];
  }

  /** A string of ID characters holds neither a "/file/d/" nor an "id=" parameter. */
  lemma IdCharsHoldNoMarker(s: string)
    requires AllIdChars(s)
    ensures NoMatch(s, FileLink) && NoMatch(s, IdParam)
  {
    forall j | 0 <= j < |s|
      ensures !MatchAt(s, FileLink, j) && !MatchAt(s, IdParam, j)
    {
      if GoText.OccursAt(s, "/file/d/", j) {
        FileMarkerStart(s, j);
      }
      if GoText.OccursAt(s, "?id=", j) || GoText.OccursAt(s, "&id=", j) {
        ParamMarkerStart(s, j);
      }
    }
  }

  /** The sharing link https://drive.google.com/file/d/<ID>/view yields <ID>. */
  lemma ExtractFromViewLink(id: string, tail: string)
    requires id != [] && AllIdChars(id)
    requires tail == [] || !IsIdChar(tail[0])
    ensures ExtractFileID(ViewPrefix + id + tail) == id
  {
    var s := ViewPrefix + id + tail;
    ViewLinkMatch(id, tail);
    assert s[32..32 + |id|] == id;
    RunAfterIs(s, 32, id);
  }

  /** The first "/file/d/" of a sharing link is the one that ends its prefix. */
  lemma ViewLinkMatch(id: string, tail: string)
    requires id != [] && AllIdChars(id)
    ensures FirstMatch(ViewPrefix + id + tail, FileLink, 0) == Some(24)
  {
    var s := ViewPrefix + id + tail;
    assert s[..32] == ViewPrefix;
    assert s[24..32] == "/file/d/";
    assert s[32] == id[0];
    assert MatchAt(s, FileLink, 24);
    PrefixesHaveNoF();
    forall j | 0 <= j < 24
      ensures !MatchAt(s, FileLink, j)
    {
      if GoText.OccursAt(s, "/file/d/", j) {
        FileMarkerStart(s, j);
      }
    }
    FirstMatchAt(s, FileLink, 24);
  }

  /** The link https://drive.google.com/open?id=<ID> yields <ID>. */
  lemma ExtractFromOpenLink(id: string, tail: string)
    requires id != [] && AllIdChars(id)
    requires tail == [] || !IsIdChar(tail[0])
    requires GoPath.NoSlash(tail)
    ensures ExtractFileID(OpenPrefix + id + tail) == id
  {
    var s := OpenPrefix + id + tail;
    OpenLinkHasNoFileLink(id, tail);
    OpenLinkParam(id, tail);
    assert s[33..33 + |id|] == id;
    RunAfterIs(s, 33, id);
  }

  lemma OpenLinkHasNoFileLink(id: string, tail: string)
    requires AllIdChars(id) && GoPath.NoSlash(tail)
    ensures NoMatch(OpenPrefix + id + tail, FileLink)
  {
    var s := OpenPrefix + id + tail;
    PrefixesHaveNoF();
    forall j | 0 <= j < |s|
      ensures !MatchAt(s, FileLink, j)
    {
      if GoText.OccursAt(s, "/file/d/", j) {
        FileMarkerStart(s, j);
      }
    }
  }

  lemma OpenLinkParam(id: string, tail: string)
    requires id != [] && AllIdChars(id)
    ensures FirstMatch(OpenPrefix + id + tail, IdParam, 0) == Some(29)
  {
    OpenLinkParamAt(id, tail);
    OpenLinkNoEarlierParam(id, tail);
    FirstMatchAt(OpenPrefix + id + tail, IdParam, 29);
  }

  lemma OpenLinkParamAt(id: string, tail: string)
    requires id != [] && AllIdChars(id)
    ensures MatchAt(OpenPrefix + id + tail, IdParam, 29)
  {
    var s := OpenPrefix + id + tail;
    assert s[..33] == OpenPrefix;
    assert s[29..33] == "?id=";
    assert s[33] == id[0];
  }

  lemma OpenLinkNoEarlierParam(id: string, tail: string)
    ensures forall j :: 0 <= j < 29 ==> !MatchAt(OpenPrefix + id + tail, IdParam, j)
  {
    var s := OpenPrefix + id + tail;
    OpenPrefixHasNoParamStart();
    forall j | 0 <= j < 29
      ensures !MatchAt(s, IdParam, j)
    {
      if GoText.OccursAt(s, "?id=", j) || GoText.OccursAt(s, "&id=", j) {
        ParamMarkerStart(s, j);
      }
    }
  }

  /** The "?" of "open?id=" is the first '?' or '&' of the open-link prefix. */
  lemma OpenPrefixHasNoParamStart()
    ensures forall k :: 0 <= k < 29 ==> OpenPrefix[k] != '?' && OpenPrefix[k] != '&'
  {
  }

  /** A bare ID of 25 to 40 characters is returned as it is. */
  lemma ExtractBareId(id: string)
    requires BareId(id)
    ensures ExtractFileID(id) == id
  {
    IdCharsHoldNoMarker(id);
  }

  /**
   * A "/file/d/" link wins even when an "?id=" parameter comes first:
   * "?id=<A>/file/d/<B>" yields <B>, although the parameter alone would give <A>.
   */
  lemma FileLinkBeatsEarlierParam(a: string, b: string)
    requires a != [] && AllIdChars(a) && b != [] && AllIdChars(b)
    ensures Capture("?id=" + a + "/file/d/" + b, IdParam) == Some(a)
    ensures ExtractFileID("?id=" + a + "/file/d/" + b) == b
  {
    LeadingParam(a, "/file/d/" + b);
    assert "?id=" + a + "/file/d/" + b == "?id=" + a + ("/file/d/" + b);
    LinkCapture(a, b);
  }

  lemma LinkCapture(a: string, b: string)
    requires a != [] && AllIdChars(a) && b != [] && AllIdChars(b)
    ensures Capture("?id=" + a + "/file/d/" + b, FileLink) == Some(b)
  {
    var p := "?id=" + a + "/file/d/";
    LinkAfterParam(a, b);
    RunAfterIs(p + b, |p|, b);
  }

  /** "?id=<A>" followed by a non-ID character captures <A>. */
  lemma LeadingParam(a: string, rest: string)
    requires a != [] && AllIdChars(a)
    requires rest != [] && !IsIdChar(rest[0])
    ensures Capture("?id=" + a + rest, IdParam) == Some(a)
  {
    var s := "?id=" + a + rest;
    assert s[0..4] == "?id=";
    assert s[4] == a[0];
    assert MatchAt(s, IdParam, 0);
    FirstMatchAt(s, IdParam, 0);
    assert s[4..4 + |a|] == a;
    RunAfterIs(s, 4, a);
  }

  lemma LinkAfterParam(a: string, b: string)
    requires a != [] && AllIdChars(a) && b != [] && IsIdChar(b[0])
    ensures FirstMatch("?id=" + a + "/file/d/" + b, FileLink, 0) == Some(4 + |a|)
  {
    var s := "?id=" + a + "/file/d/" + b;
    var k := 4 + |a|;
    assert s[k..k + 8] == "/file/d/";
    assert s[k + 8] == b[0];
    NoSlashBeforeLink(a, b);
    FirstMatchAt(s, FileLink, k);
  }

  lemma NoSlashBeforeLink(a: string, b: string)
    requires AllIdChars(a)
    ensures forall j :: 0 <= j < 4 + |a| ==> !MatchAt("?id=" + a + "/file/d/" + b, FileLink, j)
  {
    var s := "?id=" + a + "/file/d/" + b;
    forall j | 0 <= j < 4 + |a|
      ensures !MatchAt(s, FileLink, j)
    {
      if GoText.OccursAt(s, "/file/d/", j) {
        FileMarkerStart(s, j);
      }
    }
  }

  // ---------------------------------------------------------------------------
  // downloadGDriveFile

  /** The body of a response as io.ReadAll sees it. */
  datatype Body = Body(text: string) | Unreadable(error: string)

  /** What one http.Get returns. */
  datatype Fetch = NetworkError(error: string) | Response(status: nat, contentType: string, body: Body)

  /**
   * The environment of one download: the first and, when a confirm token is
   * found, the second response, and the errors creating and filling the
   * destination file.
   */
  datatype DownloadScript = DownloadScript(first: Fetch, second: Fetch, createError: Option<string>, copyError: Option<string>)

  /**
   * The returned error, the URLs requested in order, the file created (if
   * any), and the HTML snippet logged when no token is found.
   */
  datatype DownloadResult = DownloadResult(error: Option<string>, urls: seq<string>, created: Option<string>, snippet: Option<string>)

  const PrivateFileError: string :=
    "file is private or not accessible (Google login required). Please make the file public ('Anyone with the link')"

  const NoTokenError: string :=
    "received HTML response but could not find confirmation token (File might be private or format changed)"

  const SnippetLength: nat := 500

  function DownloadUrl(fileId: string, confirm: string): string {
    "https://drive.google.com/uc?export=download&id=" + fileId + "&confirm=" + confirm
  }

  /** The Content-Type starts with "text/html". */
  predicate IsHtml(contentType: string) {
    |contentType| >= 9 && contentType[..9] == "text/html"
  }

  /** A login page: the body mentions accounts.google.com or signin. */
  predicate IsLoginPage(body: string) {
    GoText.Contains(body, "accounts.google.com") || GoText.Contains(body, "signin")
  }

  /** The first 500 bytes of the page, for the log. */
  function Snippet(body: string): (r: string)
    ensures |r| <= SnippetLength && r <= body
    ensures |body| <= SnippetLength ==> r == body
  {
    if |body| > SnippetLength then body[..SnippetLength] else body
  }

  /** Creating the destination and copying the final response into it. */
  function Save(destPath: string, urls: seq<string>, script: DownloadScript): DownloadResult {
    if script.createError.Some? then DownloadResult(script.createError, urls, None, None)
    else DownloadResult(script.copyError, urls, Some(destPath), None)
  }

  /**
   * downloadGDriveFile: request the file with confirm=t; an HTML answer is
   * either a login page (private file), a virus-scan warning whose confirm
   * token is used for a second request, or an error; the final response is
   * copied to `destPath`.
   */
  function DownloadGDriveFile(fileId: string, destPath: string, script: DownloadScript): (r: DownloadResult)
    ensures 1 <= |r.urls| <= 2 && r.urls[0] == DownloadUrl(fileId, "t")
    ensures r.error.None? <==> r.created.Some? && script.copyError.None?
    ensures r.created.Some? ==> r.created.value == destPath && script.createError.None?
    ensures r.snippet.Some? ==> r.error == Some(NoTokenError) && |r.snippet.value| <= SnippetLength
  {
    var first := DownloadUrl(fileId, "t");
    match script.first
    case NetworkError(e) => DownloadResult(Some(e), [first], None, None)
    case Response(status, contentType, body) =>
      if status != 200 then
        DownloadResult(Some("server returned status " + GoText.Decimal(status)), [first], None, None)
      else if !IsHtml(contentType) then
        Save(destPath, [first], script)
      else
        match body
        case Unreadable(e) => DownloadResult(Some("failed to read warning page: " + e), [first], None, None)
        case Body(text) =>
          if IsLoginPage(text) then DownloadResult(Some(PrivateFileError), [first], None, None)
          else
            match Capture(text, ConfirmParam)
            case None => DownloadResult(Some(NoTokenError), [first], None, Some(Snippet(text)))
            case Some(token) =>
              var second := DownloadUrl(fileId, token);
              match script.second
              case NetworkError(e) =>
                DownloadResult(Some("failed to download with token: " + e), [first, second], None, None)
              case Response(status2, _, _) =>
                if status2 != 200 then
                  DownloadResult(Some("server returned status " + GoText.Decimal(status2) + " with token"), [first, second], None, None)
                else Save(destPath, [first, second], script)
  }

  /**
   * A second request is made exactly when the first answer is a readable
   * HTML page that is not a login page and holds a confirm token, and it
   * carries that token.
   */
  lemma SecondRequestIff(fileId: string, destPath: string, script: DownloadScript)
    ensures var r := DownloadGDriveFile(fileId, destPath, script);
            |r.urls| == 2 <==>
              && script.first.Response? && script.first.status == 200 && IsHtml(script.first.contentType)
              && script.first.body.Body? && !IsLoginPage(script.first.body.text)
              && Capture(script.first.body.text, ConfirmParam).Some?
    ensures var r := DownloadGDriveFile(fileId, destPath, script);
            |r.urls| == 2 ==> r.urls[1] == DownloadUrl(fileId, Capture(script.first.body.text, ConfirmParam).value)
  {
  }

  /** A login page is reported as a private file before any token is looked for, even when the page holds one. */
  lemma LoginPageWins(fileId: string, destPath: string, script: DownloadScript)
    requires script.first.Response? && script.first.status == 200 && IsHtml(script.first.contentType)
    requires script.first.body.Body? && IsLoginPage(script.first.body.text)
    ensures var r := DownloadGDriveFile(fileId, destPath, script);
            r.error == Some(PrivateFileError) && |r.urls| == 1 && r.created.None?
  {
  }

  /** A 200 answer that is not HTML is saved straight away, whatever its body says. */
  lemma NonHtmlSaved(fileId: string, destPath: string, script: DownloadScript)
    requires script.first.Response? && script.first.status == 200 && !IsHtml(script.first.contentType)
    requires script.createError.None?
    ensures var r := DownloadGDriveFile(fileId, destPath, script);
            r.created == Some(destPath) && r.error == script.copyError && |r.urls| == 1
  {
  }

  /** A page without a token is logged as its first 500 bytes at most. */
  lemma SnippetBounded(fileId: string, destPath: string, script: DownloadScript)
    requires script.first.Response? && script.first.status == 200 && IsHtml(script.first.contentType)
    requires script.first.body.Body? && !IsLoginPage(script.first.body.text)
    requires Capture(script.first.body.text, ConfirmParam).None?
    ensures var r := DownloadGDriveFile(fileId, destPath, script);
            && r.error == Some(NoTokenError) && r.snippet.Some?
            && r.snippet.value <= script.first.body.text
            && |r.snippet.value| == (if |script.first.body.text| > SnippetLength then SnippetLength else |script.first.body.text|)
  {
  }

  // ---------------------------------------------------------------------------
  // Handle

  /** The JSON body: the link and an optional name. */
  datatype GDriveRequest = GDriveRequest(url: string, name: string)

  /** The answer, the job to enqueue, and the download attempted. */
  datatype GDriveOutcome = GDriveOutcome(reply: Reply, job: Option<JobRequest>, download: Option<DownloadResult>)

  const DefaultName: string := "gdrive_file"

  /** temp/<jobID>.mp3 */
  function TempPath(jobId: string): string {
    GoPath.Join("temp", jobId + ".mp3")
  }

  /**
   * GDriveHandler.Handle with `body` the parsed request (None when parsing
   * fails), `jobId` the fresh identifier and `script` the download's
   * environment.
   */
  function Handle(body: Option<GDriveRequest>, jobId: string, script: DownloadScript): (o: GDriveOutcome)
    ensures o.job.Some? <==> o.reply.Accepted?
    ensures o.reply.Accepted? <==>
              && body.Some? && body.value.url != "" && ExtractFileID(body.value.url) != ""
              && DownloadGDriveFile(ExtractFileID(body.value.url), TempPath(jobId), script).error.None?
    ensures body.None? ==> o.reply == Rejected(400, "Invalid request body", "ERR_INVALID_BODY")
    ensures body.Some? && body.value.url == "" ==> o.reply == Rejected(400, "URL is required", "ERR_NO_URL")
    ensures body.Some? && body.value.url != "" && ExtractFileID(body.value.url) == "" ==>
              o.reply == Rejected(400, "Invalid Google Drive URL", "ERR_INVALID_URL")
    ensures o.download.Some? <==> body.Some? && ExtractFileID(body.value.url) != ""
    ensures o.download.Some? ==> o.download.value == DownloadGDriveFile(ExtractFileID(body.value.url), TempPath(jobId), script)
    ensures o.download.Some? && o.download.value.error.Some? ==>
              o.reply == Rejected(500, "Failed to download file: " + o.download.value.error.value, "ERR_DOWNLOAD_FAILED")
    ensures o.job.Some? ==>
              o.job.value == JobRequest(jobId, if body.value.name == "" then DefaultName else body.value.name, GDrive, TempPath(jobId))
              && o.reply.jobId == jobId
  {
    if body.None? then GDriveOutcome(Rejected(400, "Invalid request body", "ERR_INVALID_BODY"), None, None)
    else if body.value.url == "" then GDriveOutcome(Rejected(400, "URL is required", "ERR_NO_URL"), None, None)
    else
      var fileId := ExtractFileID(body.value.url);
      if fileId == "" then GDriveOutcome(Rejected(400, "Invalid Google Drive URL", "ERR_INVALID_URL"), None, None)
      else
        var name := if body.value.name == "" then DefaultName else body.value.name;
        var tempPath := TempPath(jobId);
        var d := DownloadGDriveFile(fileId, tempPath, script);
        if d.error.Some? then
          GDriveOutcome(Rejected(500, "Failed to download file: " + d.error.value, "ERR_DOWNLOAD_FAILED"), None, Some(d))
        else
          GDriveOutcome(Accepted(jobId, "Google Drive file downloaded, processing started"),
                        Some(JobRequest(jobId, name, GDrive, tempPath)), Some(d))
  }

  /**
   * A failed download that got as far as creating the file leaves it in the
   * temp directory with no job to clean it up; only the janitor's sweep
   * removes it.
   */
  lemma FailedCopyLeavesFile(req: GDriveRequest, jobId: string, script: DownloadScript)
    requires req.url != "" && ExtractFileID(req.url) != ""
    requires script.first.Response? && script.first.status == 200 && !IsHtml(script.first.contentType)
    requires script.createError.None? && script.copyError.Some?
    ensures var o := Handle(Some(req), jobId, script);
            o.job.None? && o.download.Some? && o.download.value.created == Some(TempPath(jobId))
  {
  }
}
