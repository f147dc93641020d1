/**
 * The WebSocket stream intake: read messages until END or a read error,
 * collect the binary audio, let the last short text message name the
 * recording, then save and queue it.
 */
module Stream {
  import opened Wrappers
  import opened Types
  import opened Jobs
  import GoPath

  /** One result of ReadMessage: a text or binary message, another message type, or a read error. */
  datatype Frame = TextFrame(text: string) | BinaryFrame(data: seq<bv8>) | OtherFrame | ReadFailure(error: string)

  /** The loop ends at a read error or at a text message that is exactly "END". */
  predicate IsStop(f: Frame) {
    f.ReadFailure? || f == TextFrame("END")
  }

  /** A text message that sets the request name: 1 to 199 bytes (and not "END"). */
  predicate IsName(f: Frame) {
    f.TextFrame? && 0 < |f.text| < 200
  }

  /** The index of the first stopping frame, or |frames| when none stops the loop. */
  function FirstStop(frames: seq<Frame>): (p: nat)
    ensures p <= |frames|
    ensures forall j :: 0 <= j < p ==> !IsStop(frames[j])
    ensures p < |frames| ==> IsStop(frames[p])
  {
    if frames == [] || IsStop(frames[0]) then 0 else 1 + FirstStop(frames[1..])
  }

  /** The binary payloads of `fs`, concatenated in arrival order. */
  function AudioOf(fs: seq<Frame>): seq<bv8>
    decreases |fs|
  {
    if fs == [] then []
    else
      var last := fs[|fs| - 1];
      AudioOf(fs[..|fs| - 1]) + (if last.BinaryFrame? then last.data else [])
  }

  /** The last naming text message of `fs`, or "" when there is none. */
  function NameOf(fs: seq<Frame>): string
    decreases |fs|
  {
    if fs == [] then ""
    else if IsName(fs[|fs| - 1]) then fs[|fs| - 1].text
    else NameOf(fs[..|fs| - 1])
  }

  /** The file the stream is written to: what path, which bytes. */
  datatype Written = Written(path: string, data: seq<bv8>)

  /**
   * How many frames were read, the file write attempted, the job to
   * enqueue, and the confirmation sent back.
   */
  datatype StreamOutcome = StreamOutcome(read: nat, write: Option<Written>, job: Option<JobRequest>, confirmation: Option<string>)

  const DefaultName: string := "stream_recording"

  /** temp/<jobID>.webm */
  function TempPath(jobId: string): string {
    GoPath.Join("temp", jobId + ".webm")
  }

  function Confirmation(jobId: string): string {
    "{\"job_id\":\"" + jobId + "\",\"status\":\"queued\"}"
  }

  /**
   * StreamHandler.Handle over the frames the connection delivers (after the
   * last one every read fails), with `jobId` the fresh identifier and
   * `writeError` what writing the buffer reports.
   */
  method Handle(frames: seq<Frame>, jobId: string, writeError: Option<string>) returns (o: StreamOutcome)
    ensures var p := FirstStop(frames);
            o.read == (if p < |frames| then p + 1 else |frames|)
    ensures var fs := frames[..FirstStop(frames)];
            && (AudioOf(fs) == [] ==> o.write.None? && o.job.None? && o.confirmation.None?)
            && (AudioOf(fs) != [] ==> o.write == Some(Written(TempPath(jobId), AudioOf(fs))))
            && (AudioOf(fs) != [] && writeError.None? ==>
                  && o.job == Some(JobRequest(jobId, if NameOf(fs) == "" then DefaultName else NameOf(fs), Stream, TempPath(jobId)))
                  && o.confirmation == Some(Confirmation(jobId)))
            && (writeError.Some? ==> o.job.None? && o.confirmation.None?)
  {
    var buffer: seq<bv8> := [];
    var requestName := "";
    var i := 0;
    while i < |frames|
      invariant i <= FirstStop(frames)
      invariant buffer == AudioOf(frames[..i]) && requestName == NameOf(frames[..i])
      decreases |frames| - i
    {
      var f := frames[i];
      if f.ReadFailure? {
        break;
      }
      assert frames[..i + 1][..i] == frames[..i];
      if f.TextFrame? {
        if f.text == "END" {
          break;
        }
        if 0 < |f.text| < 200 {
          requestName := f.text;
        }
        i := i + 1;
        continue;
      }
      if f.BinaryFrame? {
        buffer := buffer + f.data;
      }
      i := i + 1;
    }
    var read := if i < |frames| then i + 1 else |frames|;
    if |buffer| == 0 {
      return StreamOutcome(read, None, None, None);
    }
    if requestName == "" {
      requestName := DefaultName;
    }
    var tempPath := TempPath(jobId);
    if writeError.Some? {
      return StreamOutcome(read, Some(Written(tempPath, buffer)), None, None);
    }
    o := StreamOutcome(read, Some(Written(tempPath, buffer)), Some(JobRequest(jobId, requestName, Stream, tempPath)), Some(Confirmation(jobId)));
  }

  /** Frames after the stopping one are never read and change nothing. */
  lemma {:induction false} LaterFramesIgnored(frames: seq<Frame>, more: seq<Frame>)
    requires FirstStop(frames) < |frames|
    ensures FirstStop(frames + more) == FirstStop(frames)
    ensures (frames + more)[..FirstStop(frames + more)] == frames[..FirstStop(frames)]
  {
    if !IsStop(frames[0]) {
      assert (frames + more)[1..] == frames[1..] + more;
      LaterFramesIgnored(frames[1..], more);
    }
  }

  /** The audio of two runs of frames is the audio of the first followed by that of the second. */
  lemma {:induction false} AudioAppend(a: seq<Frame>, b: seq<Frame>)
    ensures AudioOf(a + b) == AudioOf(a) + AudioOf(b)
    decreases |b|
  {
    if b == [] {
      assert a + b == a;
    } else {
      var init := b[..|b| - 1];
      assert (a + b)[..|a + b| - 1] == a + init;
      assert (a + b)[|a + b| - 1] == b[|b| - 1];
      AudioAppend(a, init);
    }
  }

  /**
   * The name is the text of the last naming message: it occurs in the
   * frames as such a message and no naming message follows it; it is ""
   * exactly when there is no naming message at all.
   */
  lemma {:induction false} NameIsLastNaming(fs: seq<Frame>)
    ensures NameOf(fs) == "" <==> forall j :: 0 <= j < |fs| ==> !IsName(fs[j])
    ensures NameOf(fs) != "" ==>
              exists k :: 0 <= k < |fs| && fs[k] == TextFrame(NameOf(fs)) && IsName(fs[k])
                          && forall j :: k < j < |fs| ==> !IsName(fs[j])
    decreases |fs|
  {
    if fs == [] {
    } else if IsName(fs[|fs| - 1]) {
      var k := |fs| - 1;
      assert fs[k] == TextFrame(NameOf(fs)) && IsName(fs[k]);
    } else {
      var init := fs[..|fs| - 1];
      NameIsLastNaming(init);
      assert forall j :: 0 <= j < |init| ==> init[j] == fs[j];
      if NameOf(fs) != "" {
        var k :| 0 <= k < |init| && init[k] == TextFrame(NameOf(init)) && IsName(init[k])
                 && forall j :: k < j < |init| ==> !IsName(init[j]);
        assert fs[k] == TextFrame(NameOf(fs)) && IsName(fs[k]);
      }
    }
  }

  /**
   * Audio and text interleave freely: "a", a name, then "b" gives the
   * bytes of a followed by b and that name; a text of 200 bytes or more is
   * no name.
   */
  lemma InterleavedMessages(a: seq<bv8>, b: seq<bv8>, name: string, long: string)
    requires 0 < |name| < 200 && |long| >= 200
    ensures var fs := [BinaryFrame(a), TextFrame(name), OtherFrame, BinaryFrame(b), TextFrame(long)];
            AudioOf(fs) == a + b && NameOf(fs) == name
  {
    var f1 := [BinaryFrame(a)];
    var f2 := f1 + [TextFrame(name)];
    var f3 := f2 + [OtherFrame];
    var f4 := f3 + [BinaryFrame(b)];
    var fs := f4 + [TextFrame(long)];
    assert f1[..0] == [] && f2[..1] == f1 && f3[..2] == f2 && f4[..3] == f3 && fs[..4] == f4;
    assert AudioOf(f1) == a && NameOf(f1) == "";
    assert AudioOf(f2) == a && NameOf(f2) == name;
    assert AudioOf(f3) == a && NameOf(f3) == name;
    assert AudioOf(f4) == a + b && NameOf(f4) == name;
    assert AudioOf(fs) == a + b && NameOf(fs) == name;
    assert fs == [BinaryFrame(a), TextFrame(name), OtherFrame, BinaryFrame(b), TextFrame(long)];
  }
}
