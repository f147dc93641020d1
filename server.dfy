/**
 * The server's own state in main: the in-memory log buffer behind the
 * /logs endpoint, and the decision whether the worker pool gets a Drive
 * client.
 */
module Server {
  import opened Wrappers
  import opened Types
  import opened Jobs
  import Worker

  /** The buffer keeps this many of the most recent lines. */
  const MaxLines: nat := 1000

  /** The last `k` elements of `s`, or all of `s` when it has no more than `k`. */
  function KeepLast<T>(s: seq<T>, k: nat): (r: seq<T>)
    ensures |r| == if |s| <= k then |s| else k
    ensures r == s[|s| - |r|..]
  {
    if |s| > k then s[|s| - k..] else s
  }

  /** Keeping the last `k` after every append keeps the last `k` of the whole sequence. */
  lemma KeepLastAppend<T>(s: seq<T>, x: T, k: nat)
    requires k > 0
    ensures KeepLast(KeepLast(s, k) + [x], k) == KeepLast(s + [x], k)
  {
    var t := KeepLast(s, k);
    if |s| > k {
      assert (t + [x])[|t + [x]| - k..] == (s + [x])[|s + [x]| - k..];
    }
  }

  /** The lines after writing `ps` in order, one Write per element. */
  function AfterWrites(lines: seq<string>, ps: seq<string>): seq<string>
    decreases |ps|
  {
    if ps == [] then lines else AfterWrites(KeepLast(lines + [ps[0]], MaxLines), ps[1..])
  }

  /**
   * However many writes happen, the buffer holds the last 1000 of all the
   * lines ever written, oldest first.
   */
  lemma {:induction false} AfterWritesKeepsLast(ps: seq<string>)
    ensures AfterWrites([], ps) == KeepLast(ps, MaxLines)
  {
    AfterWritesFrom([], ps);
    assert [] + ps == ps;
  }

  lemma {:induction false} AfterWritesFrom(lines: seq<string>, ps: seq<string>)
    ensures AfterWrites(KeepLast(lines, MaxLines), ps) == KeepLast(lines + ps, MaxLines)
    decreases |ps|
  {
    if ps == [] {
      assert lines + ps == lines;
    } else {
      KeepLastAppend(lines, ps[0], MaxLines);
      AfterWritesFrom(lines + [ps[0]], ps[1..]);
      assert lines + [ps[0]] + ps[1..] == lines + ps;
    }
  }

  /** LogBuffer: the captured log lines, oldest first. */
  class LogBuffer {
    var lines: seq<string>

    predicate Valid()
      reads this
    {
      |lines| <= MaxLines
    }

    constructor ()
      ensures Valid() && lines == []
    {
      lines := [];
    }

    /**
     * Write: append `p` as the newest line, drop the oldest lines beyond
     * 1000, and report the whole payload written.
     */
    method Write(p: string) returns (n: int, err: Option<string>)
      requires Valid()
      modifies this
      ensures Valid()
      ensures lines == KeepLast(old(lines) + [p], MaxLines)
      ensures lines != [] && lines[|lines| - 1] == p
      ensures n == |p| && err == None
    {
      lines := lines + [p];
      if |lines| > MaxLines {
        lines := lines[|lines| - MaxLines..];
      }
      n, err := |p|, None;
    }

    /** GetLogs: a fresh copy of the lines, in order; the buffer is untouched. */
    method GetLogs() returns (logs: array<string>)
      ensures fresh(logs)
      ensures logs[..] == lines
    {
      logs := new string[|lines|];
      var i := 0;
      while i < |lines|
        invariant 0 <= i <= |lines|
        invariant logs[..i] == lines[..i]
        modifies logs
      {
        logs[i] := lines[i];
        i := i + 1;
      }
    }
  }

  /**
   * main's Drive setup: the client is built only when the credentials file
   * exists, and kept only when building it returned no error.
   */
  datatype DriveSetup = DriveSetup(clientBuilt: bool, enabled: bool)

  function SetUpDrive(credentialsExist: bool, clientError: Option<string>): (d: DriveSetup)
    ensures d.clientBuilt <==> credentialsExist
    ensures d.enabled <==> d.clientBuilt && clientError.None?
  {
    if credentialsExist then DriveSetup(true, clientError.None?) else DriveSetup(false, false)
  }

  /** The pool main builds: with the Drive client when one was kept, and always with a database. */
  function PoolConfig(credentialsExist: bool, clientError: Option<string>): Worker.Config {
    Worker.Config(SetUpDrive(credentialsExist, clientError).enabled, true)
  }

  /**
   * Without a credentials file, or when the client cannot be built, no job
   * ever calls the Drive upload; otherwise a job calls it at most three times.
   */
  lemma NoDriveNoUploads(credentialsExist: bool, clientError: Option<string>, j: JobRequest, c: Worker.Collaborators)
    requires c.Valid()
    ensures var m := multiset(Worker.CallsOf(Worker.Step(j, PoolConfig(credentialsExist, clientError), c).effects));
            && (!credentialsExist || clientError.Some? ==> m[Worker.DriveUpload] == 0)
            && m[Worker.DriveUpload] <= Worker.MaxUploadAttempts
  {
    Worker.CallBounds(j, PoolConfig(credentialsExist, clientError), c);
  }
}
