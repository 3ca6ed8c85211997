/**
 * The stream table as a value: a map from stream id to the stream's
 * metadata and the observable state of its process, and the effect of each
 * StreamManager operation and process event on it. The class in
 * stream_manager.dfy is proved to follow these functions; the lemmas here
 * state what the table promises over any sequence of operations.
 */
module SessionSpec {
  import opened Options
  import opened Text
  import opened Transcoder

  /** `StreamMetadata`: the id, the `new Date()` reading at creation, the owning client. */
  datatype StreamMetadata = StreamMetadata(id: string, startTime: int, clientId: string)

  datatype Stream = Stream(metadata: StreamMetadata, proc: ProcessState)

  type Table = map<string, Stream>

  /** `stream-${Date.now()}`. */
  function StreamId(now: nat): string {
    "stream-" + Decimal(now)
  }

  /** Two creations get the same id exactly when they read the same millisecond. */
  lemma StreamIdInjective(a: nat, b: nat)
    ensures StreamId(a) == StreamId(b) <==> a == b
  {
    if StreamId(a) == StreamId(b) {
      assert StreamId(a)[7..] == Decimal(a);
      assert StreamId(b)[7..] == Decimal(b);
      DecimalInjective(a, b);
    }
  }

  function NewMetadata(clientId: string, now: nat, startTime: int): StreamMetadata {
    StreamMetadata(StreamId(now), startTime, clientId)
  }

  /** createStream registers a freshly spawned process under the new id, replacing any entry with that id. */
  function Created(t: Table, rtmpServer: string, md: StreamMetadata): Table {
    t[md.id := Stream(md, Spawned(SpawnArgs(rtmpServer, md.id)))]
  }

  /** removeStream: the entry goes, whatever `end()` and `kill()` did. */
  function Removed(t: Table, id: string): Table {
    t - {id}
  }

  /** writeData: dropped for an unknown id or a process without stdin; a throwing write tears the stream down. */
  function Written(t: Table, id: string, data: Chunk, outcome: WriteOutcome): Table {
    if id !in t || !t[id].proc.hasStdin then t
    else
      var p := t[id].proc;
      match outcome
      case Accepted => t[id := t[id].(proc := p.(written := p.written + [data]))]
      case Backpressure =>
        t[id := t[id].(proc := p.(written := p.written + [data], drainListeners := p.drainListeners + 1))]
      case Throws => Removed(t, id)
  }

  /** The stderr `data` callback: a fatal chunk tears the stream down, any other is only logged. */
  function AfterStderr(t: Table, id: string, message: string): Table {
    if IsFatal(message) then Removed(t, id) else t
  }

  /** The stdin pipe emits `drain`: the one-shot no-op listeners armed by writeData run and are dropped. */
  function Drained(t: Table, id: string): Table {
    if id in t then t[id := t[id].(proc := t[id].proc.(drainListeners := 0))] else t
  }

  /** getStreamMetadata. */
  function Lookup(t: Table, id: string): Option<StreamMetadata> {
    if id in t then Some(t[id].metadata) else None
  }

  /** Every call into the manager and every process and stdin event it listens to. */
  datatype Op =
    | Create(clientId: string, now: nat, startTime: int)
    | Write(id: string, data: Chunk, outcome: WriteOutcome)
    | Remove(id: string)
    | Stderr(id: string, message: string)
    | ProcessError(id: string)
    | Exit(id: string, code: Option<int>)  // None: the process ended on a signal, as after kill()
    | Drain(id: string)

  function Step(t: Table, rtmpServer: string, op: Op): Table {
    match op
    case Create(clientId, now, startTime) => Created(t, rtmpServer, NewMetadata(clientId, now, startTime))
    case Write(id, data, outcome) => Written(t, id, data, outcome)
    case Remove(id) => Removed(t, id)
    case Stderr(id, message) => AfterStderr(t, id, message)
    case ProcessError(id) => Removed(t, id)
    case Exit(id, _) => Removed(t, id)
    case Drain(id) => Drained(t, id)
  }

  /** The table after the operations `ops`, in order. */
  function Run(t: Table, rtmpServer: string, ops: seq<Op>): Table
    decreases |ops|
  {
    if ops == [] then t else Run(Step(t, rtmpServer, ops[0]), rtmpServer, ops[1..])
  }

  /**
   * What holds of every entry: it is filed under its own id, its process was
   * spawned for that id, and it has not been torn down.
   */
  ghost predicate WellFormed(rtmpServer: string, t: Table) {
    forall id :: id in t ==>
      && t[id].metadata.id == id
      && t[id].proc.args == SpawnArgs(rtmpServer, id)
      && !t[id].proc.stdinEnded
      && !t[id].proc.killed
  }

  /** The operation targets the stream `id` (every operation except creation). */
  predicate AddressedTo(op: Op, id: string) {
    match op
    case Create(_, _, _) => false
    case Write(i, _, _) => i == id
    case Remove(i) => i == id
    case Stderr(i, _) => i == id
    case ProcessError(i) => i == id
    case Exit(i, _) => i == id
    case Drain(i) => i == id
  }

  /** The operation ends or replaces the stream `id`. */
  predicate Disturbs(op: Op, id: string) {
    match op
    case Create(_, now, _) => StreamId(now) == id
    case Write(i, _, outcome) => i == id && outcome == Throws
    case Remove(i) => i == id
    case Stderr(i, message) => i == id && IsFatal(message)
    case ProcessError(i) => i == id
    case Exit(i, _) => i == id
    case Drain(_) => false
  }

  /** The chunks written to `id`, in call order. */
  function ChunksFor(ops: seq<Op>, id: string): seq<Chunk>
    decreases |ops|
  {
    if ops == [] then []
    else if ops[0].Write? && ops[0].id == id then [ops[0].data] + ChunksFor(ops[1..], id)
    else ChunksFor(ops[1..], id)
  }

  /** After createStream, getStreamMetadata(id) answers exactly the new metadata, and no other id's answer changed. */
  lemma CreatedRegisters(t: Table, rtmpServer: string, clientId: string, now: nat, startTime: int)
    ensures var md := NewMetadata(clientId, now, startTime);
      var t' := Created(t, rtmpServer, md);
      && md.id == "stream-" + Decimal(now) && md.clientId == clientId && md.startTime == startTime
      && Lookup(t', md.id) == Some(md)
      && t'[md.id].proc == Spawned(SpawnArgs(rtmpServer, md.id))
      && t'.Keys == t.Keys + {md.id}
      && (forall id :: id != md.id ==> Lookup(t', id) == Lookup(t, id))
      && forall j :: j in t && j != md.id ==> t'[j] == t[j]
  {
  }

  /** A write for an unknown id, or for a process without stdin, changes nothing. */
  lemma WriteToMissingIsDropped(t: Table, id: string, data: Chunk, outcome: WriteOutcome)
    requires id !in t || !t[id].proc.hasStdin
    ensures Written(t, id, data, outcome) == t
  {
  }

  /**
   * A write that does not throw appends the chunk to that stream alone; the
   * stream stays registered whether or not the pipe reported backpressure.
   */
  lemma WriteAppendsToOneStream(t: Table, id: string, data: Chunk, outcome: WriteOutcome)
    requires id in t && t[id].proc.hasStdin && outcome != Throws
    ensures var t' := Written(t, id, data, outcome);
      && t'.Keys == t.Keys
      && t'[id].metadata == t[id].metadata
      && t'[id].proc.written == t[id].proc.written + [data]
      && t'[id].proc.drainListeners == t[id].proc.drainListeners + (if outcome == Backpressure then 1 else 0)
      && t'[id].proc.(written := t[id].proc.written, drainListeners := t[id].proc.drainListeners) == t[id].proc
      && forall j :: j in t && j != id ==> t'[j] == t[j]
  {
  }

  /** A throwing write removes the stream and nothing else. */
  lemma ThrowingWriteRemoves(t: Table, id: string, data: Chunk)
    requires id in t && t[id].proc.hasStdin
    ensures Written(t, id, data, Throws) == Removed(t, id)
    ensures id !in Removed(t, id) && Removed(t, id).Keys == t.Keys - {id}
  {
  }

  /** Teardown is idempotent: a second removeStream, or one for an unknown id, is a no-op. */
  lemma RemoveIdempotent(t: Table, id: string)
    ensures id !in Removed(t, id)
    ensures Removed(Removed(t, id), id) == Removed(t, id)
    ensures id !in t ==> Removed(t, id) == t
    ensures forall j :: j != id && j in t ==> j in Removed(t, id) && Removed(t, id)[j] == t[j]
  {
  }

  /** The stderr classifier: a fatal chunk removes the stream, any other leaves the table as it was. */
  lemma StderrClassifies(t: Table, id: string, message: string)
    ensures IsFatal(message) ==> AfterStderr(t, id, message) == Removed(t, id)
    ensures !IsFatal(message) ==> AfterStderr(t, id, message) == t
  {
  }

  /**
   * A `drain` on a registered stream drops its pending one-shot listeners
   * and changes nothing else, in that stream or any other; a `drain` for an
   * id that is gone is a no-op.
   */
  lemma DrainClearsListeners(t: Table, id: string)
    ensures var t' := Drained(t, id);
      && t'.Keys == t.Keys
      && (id in t ==> t'[id].proc.drainListeners == 0
                      && t'[id].proc.(drainListeners := t[id].proc.drainListeners) == t[id].proc
                      && t'[id].metadata == t[id].metadata)
      && forall j :: j in t && j != id ==> t'[j] == t[j]
  {
  }

  /** Every step keeps every entry well formed. */
  lemma StepPreservesWellFormed(t: Table, rtmpServer: string, op: Op)
    requires WellFormed(rtmpServer, t)
    ensures WellFormed(rtmpServer, Step(t, rtmpServer, op))
  {
    var t' := Step(t, rtmpServer, op);
    forall id | id in t'
      ensures t'[id].metadata.id == id && t'[id].proc.args == SpawnArgs(rtmpServer, id)
      ensures !t'[id].proc.stdinEnded && !t'[id].proc.killed
    {
      if op.Create? && id == StreamId(op.now) {
        assert t'[id] == Stream(NewMetadata(op.clientId, op.now, op.startTime), Spawned(SpawnArgs(rtmpServer, id)));
      } else {
        assert id in t;
      }
    }
  }

  lemma {:induction false} RunPreservesWellFormed(t: Table, rtmpServer: string, ops: seq<Op>)
    requires WellFormed(rtmpServer, t)
    ensures WellFormed(rtmpServer, Run(t, rtmpServer, ops))
    decreases |ops|
  {
    if ops != [] {
      StepPreservesWellFormed(t, rtmpServer, ops[0]);
      RunPreservesWellFormed(Step(t, rtmpServer, ops[0]), rtmpServer, ops[1..]);
    }
  }

  /**
   * Writes are delivered first in, first out per stream and are isolated
   * between streams: as long as nothing ends or replaces stream `id`, its
   * process receives exactly the chunks addressed to it, in call order,
   * whatever happens to the other streams meanwhile.
   */
  lemma {:induction false} RunDeliversInOrder(t: Table, rtmpServer: string, ops: seq<Op>, id: string)
    requires id in t && t[id].proc.hasStdin
    requires forall k :: 0 <= k < |ops| ==> !Disturbs(ops[k], id)
    ensures var t' := Run(t, rtmpServer, ops);
      && id in t'
      && t'[id].metadata == t[id].metadata
      && t'[id].proc.hasStdin
      && t'[id].proc.written == t[id].proc.written + ChunksFor(ops, id)
    decreases |ops|
  {
    if ops != [] {
      var t1 := Step(t, rtmpServer, ops[0]);
      assert !Disturbs(ops[0], id);
      assert id in t1 && t1[id].metadata == t[id].metadata && t1[id].proc.hasStdin;
      assert t1[id].proc.written == t[id].proc.written + (if ops[0].Write? && ops[0].id == id then [ops[0].data] else []);
      RunDeliversInOrder(t1, rtmpServer, ops[1..], id);
      assert forall k :: 0 <= k < |ops[1..]| ==> ops[1..][k] == ops[k + 1];
    }
  }

  /**
   * Nothing but createStream adds an entry: an id that is not registered
   * stays unregistered through any operations that do not create it, so
   * late writes and late process events never resurrect a stream.
   */
  lemma {:induction false} RunNoResurrection(t: Table, rtmpServer: string, ops: seq<Op>, id: string)
    requires id !in t
    requires forall k :: 0 <= k < |ops| ==> !(ops[k].Create? && StreamId(ops[k].now) == id)
    ensures id !in Run(t, rtmpServer, ops)
    decreases |ops|
  {
    if ops != [] {
      assert !(ops[0].Create? && StreamId(ops[0].now) == id);
      RunNoResurrection(Step(t, rtmpServer, ops[0]), rtmpServer, ops[1..], id);
      assert forall k :: 0 <= k < |ops[1..]| ==> ops[1..][k] == ops[k + 1];
    }
  }

  /**
   * Once a stream is gone, any further writes, removals and process events
   * addressed to it leave the whole table unchanged.
   */
  lemma {:induction false} LateOpsAreNoOps(t: Table, rtmpServer: string, ops: seq<Op>, id: string)
    requires id !in t
    requires forall k :: 0 <= k < |ops| ==> AddressedTo(ops[k], id)
    ensures Run(t, rtmpServer, ops) == t
    decreases |ops|
  {
    if ops != [] {
      assert AddressedTo(ops[0], id);
      assert Step(t, rtmpServer, ops[0]) == t;
      LateOpsAreNoOps(t, rtmpServer, ops[1..], id);
      assert forall k :: 0 <= k < |ops[1..]| ==> ops[1..][k] == ops[k + 1];
    }
  }

  /**
   * Every teardown trigger (an explicit removal, a fatal stderr chunk, a
   * process error, an exit with any code, a throwing write to a process with
   * stdin) removes the stream; a replacing createStream leaves a fresh
   * process under the id.
   */
  lemma DisturbingStepEndsStream(t: Table, rtmpServer: string, op: Op, id: string)
    requires Disturbs(op, id)
    ensures !op.Create? && !(op.Write? && id in t && !t[id].proc.hasStdin) ==>
      Step(t, rtmpServer, op) == Removed(t, id)
    ensures op.Create? ==> Step(t, rtmpServer, op)[id].proc == Spawned(SpawnArgs(rtmpServer, id))
  {
  }

  /** Two tables with the same ids that agree everywhere but at `id` differ by one update. */
  lemma UpdatedAt(t: Table, t': Table, id: string)
    requires id in t && t'.Keys == t.Keys
    requires forall j :: j in t && j != id ==> t'[j] == t[j]
    ensures t' == t[id := t'[id]]
  {
  }
}
