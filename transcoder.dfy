/**
 * The ffmpeg child process that one stream feeds: its fixed command line,
 * the stdin pipe the stream manager writes to, and the kill signal.
 * Codec behaviour is opaque; only what the manager observes or changes is
 * modelled.
 */
module Transcoder {
  import opened Options
  import opened Text

  newtype byte = x: int | 0 <= x < 256

  /** One binary audio frame, as a `Buffer` of bytes. */
  type Chunk = seq<byte>

  /** Every argument before the output URL, in spawn order. */
  const FixedArgs: seq<string> := [
    "-re",
    "-fflags", "+igndts",
    "-i", "-",
    "-c:a", "aac",
    "-ar", "48000",
    "-ac", "1",
    "-b:a", "128k",
    "-rtmp_buffer", "8192",
    "-rtmp_live", "live",
    "-f", "flv"
  ]

  /** The RTMP push target of a stream: host, no port, then the stream id. */
  function RtmpTarget(rtmpServer: string, streamId: string): string {
    "rtmp://" + rtmpServer + "/live/" + streamId
  }

  /** The argument list handed to `spawn('ffmpeg', ...)`. */
  function SpawnArgs(rtmpServer: string, streamId: string): seq<string> {
    FixedArgs + [RtmpTarget(rtmpServer, streamId)]
  }

  /**
   * The value after the first occurrence of `flag`. No flag of FixedArgs
   * repeats, so this is the value ffmpeg uses for it.
   */
  function OptionValue(args: seq<string>, flag: string): Option<string> {
    OptionValueFrom(args, flag, 0)
  }

  /** The same, scanning from position `i`. */
  function OptionValueFrom(args: seq<string>, flag: string, i: nat): Option<string>
    decreases |args| - i
  {
    if i + 1 >= |args| then None
    else if args[i] == flag then Some(args[i + 1])
    else OptionValueFrom(args, flag, i + 1)
  }

  /** The scan finds the first position `k` holding `flag` and returns the argument after it. */
  lemma {:induction false} FirstOccurrence(args: seq<string>, flag: string, i: nat, k: nat)
    requires i <= k && k + 1 < |args| && args[k] == flag
    requires forall j :: i <= j < k ==> args[j] != flag
    ensures OptionValueFrom(args, flag, i) == Some(args[k + 1])
    decreases k - i
  {
    if i < k {
      FirstOccurrence(args, flag, i + 1, k);
    }
  }

  /** Distinct streams on one server push to distinct URLs. */
  lemma RtmpTargetInjective(rtmpServer: string, a: string, b: string)
    ensures RtmpTarget(rtmpServer, a) == RtmpTarget(rtmpServer, b) <==> a == b
  {
    var prefix := "rtmp://" + rtmpServer + "/live/";
    assert RtmpTarget(rtmpServer, a) == prefix + a && RtmpTarget(rtmpServer, b) == prefix + b;
    assert (prefix + a)[|prefix|..] == a;
    assert (prefix + b)[|prefix|..] == b;
  }

  /**
   * The encoding contract of the spawned process: input from stdin, AAC at
   * 48000 Hz mono and 128k, FLV container, and the stream's own RTMP target
   * as the last argument, with the host followed directly by the path.
   */
  lemma SpawnArgsContract(rtmpServer: string, streamId: string)
    ensures var args := SpawnArgs(rtmpServer, streamId);
      && |args| == 20
      && args[..19] == FixedArgs
      && args[19] == RtmpTarget(rtmpServer, streamId)
      && args[19][..7] == "rtmp://"
      && args[19][7..7 + |rtmpServer|] == rtmpServer
      && args[19][7 + |rtmpServer|..] == "/live/" + streamId
      && OptionValue(args, "-i") == Some("-")
      && OptionValue(args, "-c:a") == Some("aac")
      && OptionValue(args, "-ar") == Some("48000")
      && OptionValue(args, "-ac") == Some("1")
      && OptionValue(args, "-b:a") == Some("128k")
      && OptionValue(args, "-f") == Some("flv")
  {
    var args := SpawnArgs(rtmpServer, streamId);
    var target := RtmpTarget(rtmpServer, streamId);
    assert args[..19] == FixedArgs;
    assert target == "rtmp://" + (rtmpServer + ("/live/" + streamId));
    assert target[7..] == rtmpServer + ("/live/" + streamId);
    assert target[7..7 + |rtmpServer|] == target[7..][..|rtmpServer|];
    assert forall j :: 0 <= j < 19 ==> args[j] == FixedArgs[j];
    FirstOccurrence(args, "-i", 0, 3);
    FirstOccurrence(args, "-c:a", 0, 5);
    FirstOccurrence(args, "-ar", 0, 7);
    FirstOccurrence(args, "-ac", 0, 9);
    FirstOccurrence(args, "-b:a", 0, 11);
    FirstOccurrence(args, "-f", 0, 17);
  }

  /** The fatal-condition vocabulary watched for on ffmpeg's stderr. */
  const ConnectionRefused: string := "Connection refused"
  const FailedToConnect: string := "Failed to connect"

  /** A stderr chunk is fatal when it contains either phrase; anything else is only logged. */
  predicate IsFatal(message: string) {
    Contains(message, ConnectionRefused) || Contains(message, FailedToConnect)
  }

  lemma FatalIff(message: string)
    ensures IsFatal(message) <==>
      exists i: nat :: OccursAt(message, ConnectionRefused, i) || OccursAt(message, FailedToConnect, i)
  {
    ContainsIff(message, ConnectionRefused);
    ContainsIff(message, FailedToConnect);
  }

  /**
   * The classifier looks at one `data` chunk at a time: a phrase split over
   * two chunks is not detected, although the text of the two together holds it.
   */
  lemma SplitPhraseNotDetected()
    ensures !IsFatal("Connection ref") && !IsFatal("used")
    ensures IsFatal("Connection ref" + "used")
  {
    assert ("Connection ref" + "used")[..18] == ConnectionRefused;
  }

  /** What the manager can observe of a process. */
  datatype ProcessState = ProcessState(
    args: seq<string>,
    hasStdin: bool,
    stdinEnded: bool,
    written: seq<Chunk>,
    drainListeners: nat,
    killed: bool)

  /** A process just spawned with piped stdio: stdin open, nothing written, running. */
  function Spawned(args: seq<string>): ProcessState {
    ProcessState(args, true, false, [], 0, false)
  }

  /** Outcome of one `stdin.write`: below the high-water mark, above it, or a synchronous throw. */
  datatype WriteOutcome = Accepted | Backpressure | Throws

  /** What `stdin.write` hands back to the caller. */
  datatype WriteResult = Returned(ok: bool) | Threw

  /** Whether `stdin.end()` and `kill()` throw during one teardown. */
  datatype CloseFaults = CloseFaults(endThrows: bool, killThrows: bool)

  const NoFaults: CloseFaults := CloseFaults(false, false)

  /**
   * The effect of removeStream's `try` block: end stdin when there is one,
   * then kill. Both calls sit in one `try`, so a throwing `end()` skips `kill()`.
   */
  function TornDown(s: ProcessState, faults: CloseFaults): (r: ProcessState)
    ensures r.args == s.args && r.hasStdin == s.hasStdin
    ensures r.written == s.written && r.drainListeners == s.drainListeners
    ensures r.stdinEnded <==> s.stdinEnded || (s.hasStdin && !faults.endThrows)
    ensures r.killed <==> s.killed || (!(s.hasStdin && faults.endThrows) && !faults.killThrows)
  {
    if s.hasStdin && faults.endThrows then s
    else
      var ended := if s.hasStdin then s.(stdinEnded := true) else s;
      if faults.killThrows then ended else ended.(killed := true)
  }

  /** Without faults teardown closes the input and kills the process, and keeps what was written. */
  lemma TornDownWithoutFaults(s: ProcessState)
    ensures var r := TornDown(s, NoFaults);
      r.killed && (s.hasStdin ==> r.stdinEnded) && r.written == s.written
  {
  }

  /** A child process handle; its fields are the observable pipe and signal state. */
  class ChildProcess {
    const args: seq<string>
    const hasStdin: bool
    var stdinEnded: bool
    var written: seq<Chunk>
    var drainListeners: nat
    var killed: bool

    function State(): ProcessState
      reads this
    {
      ProcessState(args, hasStdin, stdinEnded, written, drainListeners, killed)
    }

    /** `spawn('ffmpeg', args)`. */
    constructor Spawn(args: seq<string>)
      ensures State() == Spawned(args)
    {
      this.args := args;
      hasStdin := true;
      stdinEnded := false;
      written := [];
      drainListeners := 0;
      killed := false;
    }

    /** `stdin.write(data)`: under backpressure the chunk is still queued and `false` comes back. */
    method Write(data: Chunk, outcome: WriteOutcome) returns (result: WriteResult)
      requires hasStdin && !stdinEnded
      modifies this
      ensures result == match outcome
        case Accepted => Returned(true)
        case Backpressure => Returned(false)
        case Throws => Threw
      ensures State() == if outcome == Throws then old(State()) else old(State()).(written := old(written) + [data])
    {
      if outcome == Throws {
        result := Threw;
      } else {
        written := written + [data];
        result := Returned(outcome == Accepted);
      }
    }

    /** `stdin.once('drain', () => {})`: arms one more no-op listener. */
    method OnceDrain()
      modifies this
      ensures State() == old(State()).(drainListeners := old(drainListeners) + 1)
    {
      drainListeners := drainListeners + 1;
    }

    /** The pipe emits `drain`: every one-shot listener runs (doing nothing) and is dropped. */
    method EmitDrain()
      modifies this
      ensures State() == old(State()).(drainListeners := 0)
    {
      drainListeners := 0;
    }

    /** `stdin.end()`; when it throws nothing changes. */
    method End(throws: bool) returns (threw: bool)
      requires hasStdin
      modifies this
      ensures threw == throws
      ensures State() == if throws then old(State()) else old(State()).(stdinEnded := true)
    {
      threw := throws;
      if !throws {
        stdinEnded := true;
      }
    }

    /** `kill()`: sends the termination signal; when it throws nothing changes. */
    method Kill(throws: bool) returns (threw: bool)
      modifies this
      ensures threw == throws
      ensures State() == if throws then old(State()) else old(State()).(killed := true)
    {
      threw := throws;
      if !throws {
        killed := true;
      }
    }
  }
}
