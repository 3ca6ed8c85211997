# Stream session table of the WebSocket audio relay

The backend of this relay receives binary audio frames from a browser over
a WebSocket and pipes them into one `ffmpeg` process per connection. That
process pushes the audio to an RTMP server. The class `StreamManager` in
`backend/stream-manager.ts` keeps the table of live streams: a `Map` from
stream id to the stream's child process and its metadata. It offers four
operations: `createStream`, `writeData`, `removeStream` and
`getStreamMetadata`. It also reacts to three process callbacks (a stderr
chunk, an `error` event and an `exit` event) and to the stdin `drain`
event it listens for under backpressure.

This project models that table in Dafny and proves what it promises:

- a new stream is filed under `stream-<timestamp>` with a fixed ffmpeg
  command line;
- writes reach only the addressed stream, first in, first out;
- writes for unknown ids are dropped;
- teardown always deletes the entry;
- teardown is idempotent, so the several triggers that reach it
  (the socket's `close` and `error`, the process's stderr, `error` and
  `exit`) are harmless together.

Files and modules:

- `text.dfy`
  - `Options`: the optional lookup result.
  - `Text`: the decimal rendering of a millisecond timestamp, with its
    inverse, and substring search (`includes`) with its characterisation.
- `transcoder.dfy`, module `Transcoder`:
  - the ffmpeg argument list and how ffmpeg reads its options;
  - the fatal-condition vocabulary for stderr;
  - the observable process state, `ProcessState`;
  - the effect of teardown on a process (`TornDown`);
  - class `ChildProcess`, whose fields are updated in place by
    `stdin.write`, `once('drain')`, `stdin.end()` and `kill()`.
- `session_spec.dfy`, module `SessionSpec`:
  - the table as a value (`map<string, Stream>`) and one function per
    operation or event;
  - `Run` over any sequence of operations;
  - the lemmas about those functions (FIFO delivery, isolation, no
    resurrection, late operations are no-ops, the invariant `WellFormed`).
- `stream_manager.dfy`, module `Streams`:
  - class `StreamManager` with the `activeStreams` map, mutated in place;
  - every method is proved to move the abstract `Table()` exactly as the
    matching `SessionSpec` function says;
  - every method keeps the object invariant `Valid()`: no two entries share
    a process, every entry is filed under its own id, its process was
    spawned for that id, and no registered process has been ended or
    killed.

Inputs the code takes from its environment are parameters:

- `Date.now()` is `now`.
- `new Date()` is a separate reading, `startTime`.
- `config.rtmpServer` is the constructor argument.
- Whether `stdin.write` accepts, reports backpressure or throws is a
  `WriteOutcome`.
- Whether `stdin.end()` and `kill()` throw is a `CloseFaults`.
- The process callbacks are the methods `OnStderr`, `OnError` and `OnExit`,
  and the stdin `drain` event is `OnDrain`. Each takes the stream id that the source's closure captures.

Behaviour of the code that the model keeps, although a reader might expect
otherwise:

- There is no collision check. `createStream` overwrites an entry with the
  same id, as `Map.set` does. Two connections in the same millisecond get
  the same id: `StreamIdInjective` shows that ids collide exactly when the
  clock readings do. The replaced process is left running and is no longer
  reachable from the table: see the last `ensures` of `CreateStream`.
  It is never killed and its stdin is never ended, so it may never exit;
  but if it later exits, errors or prints a fatal line, its callback
  removes the new stream under the same id.
- `stdin.end()` and `kill()` share one `try`. A throwing `end()` therefore
  skips `kill()`: the two steps are not attempted independently. `TornDown`
  states this. The entry is deleted in every case (`finally`).
- The process is pushed to `rtmp://<server>/live/<id>`, with no port.
  `backend/server.ts` advertises `rtmp://<server>:<port>/live/<id>` to the
  client, and `AdvertisedUrlIsNotTarget` shows that the two never coincide,
  whatever text the port renders to (`parseInt` may give `NaN`).
- The stream manager has no recording option, no HLS output directory and
  no client-supplied id. Ids are always generated from the clock.

## Model

| member | source | states |
|---|---|---|
| `Text.Decimal` | backend/stream-manager.ts:16 | the rendering of the timestamp is a non-empty digit string with no leading zero (it starts with `0` only for 0) |
| `Text.DecimalRoundTrip` | backend/stream-manager.ts:16 | reading the digits of the rendering back gives the timestamp |
| `Text.DecimalInjective` | backend/stream-manager.ts:16 | two timestamps render alike exactly when they are equal |
| `Text.Contains` | backend/stream-manager.ts:45 | `includes`: tries every start position from the left; characterised by `ContainsIff` |
| `Text.ContainsIff` | backend/stream-manager.ts:45 | `includes` holds exactly when the phrase occurs at some position |
| `SessionSpec.StreamId` | backend/stream-manager.ts:16 | the id `stream-` followed by the decimal rendering of `Date.now()`; `StreamIdInjective` states when two ids collide |
| `SessionSpec.StreamIdInjective` | backend/stream-manager.ts:16 | two `stream-<Date.now()>` ids are equal exactly when the clock readings are equal |
| `Transcoder.RtmpTarget` | backend/stream-manager.ts:36 | the push URL `rtmp://` + server + `/live/` + id, with no port; `RtmpTargetInjective` and `SpawnArgsContract` state its shape |
| `Transcoder.SpawnArgs` | backend/stream-manager.ts:24-37 | the 19 fixed arguments in spawn order followed by the push URL; `SpawnArgsContract` states how ffmpeg reads them |
| `Transcoder.SpawnArgsContract` | backend/stream-manager.ts:24-37 | the command line has 20 arguments, the first 19 fixed; ffmpeg reads input `-` (stdin), codec `aac`, rate `48000`, `1` channel, `128k`, format `flv`; the last argument is `rtmp://` + server + `/live/` + id, with the path directly after the host |
| `Transcoder.RtmpTargetInjective` | backend/stream-manager.ts:36 | on one server, two streams push to the same URL exactly when their ids are equal |
| `Transcoder.IsFatal` | backend/stream-manager.ts:45 | a chunk is fatal when it includes "Connection refused" or "Failed to connect"; `FatalIff` characterises it by position |
| `Transcoder.FatalIff` | backend/stream-manager.ts:45 | a stderr chunk is fatal exactly when "Connection refused" or "Failed to connect" occurs in it |
| `Transcoder.SplitPhraseNotDetected` | backend/stream-manager.ts:40-48 | the check is per chunk: a phrase split over two chunks is not seen, although the text of the two together holds it |
| `Transcoder.TornDown` | backend/stream-manager.ts:89-98 | teardown keeps what was written; it ends stdin exactly when stdin exists and `end()` does not throw; it kills exactly when `end()` did not throw (or there is no stdin) and `kill()` does not throw |
| `Transcoder.TornDownWithoutFaults` | backend/stream-manager.ts:89-93 | with no throw, teardown leaves the process killed and its stdin ended |
| `Transcoder.ChildProcess.Spawn` | backend/stream-manager.ts:24-37 | a spawned process has its argument list, an open stdin, nothing written, no drain listener, and is not killed |
| `Transcoder.ChildProcess.Write` | backend/stream-manager.ts:73 | an accepted write returns true and appends the chunk; under backpressure it returns false and still appends it; a throwing write changes nothing |
| `Transcoder.ChildProcess.OnceDrain` | backend/stream-manager.ts:74-78 | arms one more drain listener and changes nothing else |
| `Transcoder.ChildProcess.EmitDrain` | backend/stream-manager.ts:75-77 | when `drain` fires, the one-shot listeners are dropped and nothing else changes |
| `Transcoder.ChildProcess.End` | backend/stream-manager.ts:91 | ends stdin unless it throws |
| `Transcoder.ChildProcess.Kill` | backend/stream-manager.ts:93 | marks the process killed unless it throws |
| `SessionSpec.NewMetadata` | backend/stream-manager.ts:17-21 | the metadata literal: the generated id, the `new Date()` reading and the client id; `CreatedRegisters` states its fields |
| `SessionSpec.Created` | backend/stream-manager.ts:15-67 | createStream's effect on the table: the new id is filed with its metadata and a freshly spawned process, replacing any entry already there; `CreatedRegisters` states its properties |
| `SessionSpec.Written` | backend/stream-manager.ts:69-84 | writeData's effect: nothing for an unknown id or a process without stdin, the chunk appended (and one drain listener armed under backpressure), or removal when the write throws; `WriteToMissingIsDropped`, `WriteAppendsToOneStream` and `ThrowingWriteRemoves` state its properties |
| `SessionSpec.Removed` | backend/stream-manager.ts:86-100 | removeStream's effect: the id's entry is deleted, whatever `end()` and `kill()` did; `RemoveIdempotent` states its properties |
| `SessionSpec.AfterStderr` | backend/stream-manager.ts:40-49 | the stderr callback's effect: removal for a fatal chunk, nothing otherwise; `StderrClassifies` states it |
| `SessionSpec.Drained` | backend/stream-manager.ts:74-76 | a `drain` on the stream's stdin drops the one-shot listeners armed under backpressure; `DrainClearsListeners` states its properties |
| `SessionSpec.Lookup` | backend/stream-manager.ts:102-104 | getStreamMetadata on the table: the entry's metadata, or nothing for an unknown id |
| `SessionSpec.Step` | backend/stream-manager.ts:15-100 | one call into the manager or one process event (stderr chunk, `error`, `exit`, stdin `drain`), dispatched to its table function |
| `SessionSpec.Run` | backend/stream-manager.ts:15-100 | the table after a sequence of operations, applied in order; the `Run` lemmas state what holds over any sequence |
| `SessionSpec.CreatedRegisters` | backend/stream-manager.ts:15-66 | the new metadata has id `stream-` + the timestamp and the given client id and start time; looking the id up returns exactly it; its process is freshly spawned with the stream's argument list; the key set grows by that id only, and every other entry, process state included, is kept as it was |
| `SessionSpec.WriteToMissingIsDropped` | backend/stream-manager.ts:69-71 | a write for an id not in the table, or whose process has no stdin, leaves the table as it was |
| `SessionSpec.WriteAppendsToOneStream` | backend/stream-manager.ts:69-78 | a write that does not throw keeps the stream registered; it appends the chunk to that stream's written sequence; it adds one drain listener exactly under backpressure; it changes nothing else of that stream and no other entry |
| `SessionSpec.ThrowingWriteRemoves` | backend/stream-manager.ts:79-82 | a throwing write removes the stream and leaves all other ids |
| `SessionSpec.RemoveIdempotent` | backend/stream-manager.ts:86-100 | after removal the id is absent; removing again changes nothing; removing an unknown id changes nothing; other entries are kept as they were |
| `SessionSpec.DrainClearsListeners` | backend/stream-manager.ts:74-76 | after `drain` a registered stream has no pending drain listener and is otherwise unchanged; no other entry changes; a `drain` for an absent id is a no-op |
| `SessionSpec.StderrClassifies` | backend/stream-manager.ts:40-49 | a fatal stderr chunk removes the stream; any other chunk leaves the table unchanged |
| `SessionSpec.DisturbingStepEndsStream` | backend/stream-manager.ts:40-59 | every teardown trigger (fatal stderr, `error`, `exit` with any code, explicit removal, a throwing write to a process with stdin) leaves the table as one removal of that id would; a colliding creation puts a freshly spawned process under the id |
| `SessionSpec.StepPreservesWellFormed` | backend/stream-manager.ts:15-100 | every operation keeps each entry filed under its own id, with the argument list spawned for that id, and not ended or killed |
| `SessionSpec.RunPreservesWellFormed` | backend/stream-manager.ts:15-100 | the same over any sequence of operations |
| `SessionSpec.RunDeliversInOrder` | backend/stream-manager.ts:69-73 | as long as no operation ends or replaces stream `id`, it stays registered and its process receives exactly the chunks written to `id`, in call order, whatever is done to other streams meanwhile |
| `SessionSpec.RunNoResurrection` | backend/stream-manager.ts:61-100 | only `createStream` adds an entry: an absent id stays absent through any operations that do not create it |
| `SessionSpec.LateOpsAreNoOps` | backend/stream-manager.ts:69-100 | once a stream is gone, any writes, removals and process events addressed to it leave the whole table unchanged |
| `Streams.AdvertisedUrl` | backend/server.ts:26 | the `rtmpUrl` template: `rtmp://` + server + `:` + port text + `/live/` + id; `AdvertisedUrlIsNotTarget` states its shape against the push target |
| `Streams.AdvertisedUrlIsNotTarget` | backend/server.ts:26 | for any port text, the URL sent to the client is the push target with `:` and the port inserted after the host, so the two always differ |
| `Streams.StreamManager.constructor` | backend/stream-manager.ts:11-13 | a new manager has an empty map, refers to no process, and satisfies its invariant |
| `Streams.StreamManager.CreateStream` | backend/stream-manager.ts:15-67 | returns metadata with id `stream-` + the timestamp, the given client id and start time; the table becomes `Created` of the old one; the map is the old map with only that id set, to a freshly spawned process, so every other id keeps its process handle; a replaced entry's process is dropped from the table and left unkilled |
| `Streams.StreamManager.WriteData` | backend/stream-manager.ts:69-84 | the table becomes `Written` of the old one; only the addressed stream's process is touched; the map is unchanged, or loses exactly that id when a write to a process with stdin throws, so no other id's handle changes; after a throwing write that process is torn down as `TornDown` says |
| `Streams.StreamManager.RemoveStream` | backend/stream-manager.ts:86-100 | the table becomes the old one without the id, whatever `end()` and `kill()` do; the map is the old map without that key (a plain `delete`), so every other id keeps its process handle; a registered process is torn down as `TornDown` says; an unknown id changes nothing |
| `Streams.StreamManager.OnStderr` | backend/stream-manager.ts:40-49 | a fatal chunk tears the stream down through removal, and the map loses exactly that key; any other chunk leaves the map untouched |
| `Streams.StreamManager.OnError` | backend/stream-manager.ts:51-54 | the process `error` event tears the stream down through removal; the map loses exactly that key |
| `Streams.StreamManager.OnExit` | backend/stream-manager.ts:56-59 | an `exit` with any code, or with none after a signal, tears the stream down through removal; the map loses exactly that key |
| `Streams.StreamManager.OnDrain` | backend/stream-manager.ts:74-76 | the stdin `drain` event moves the table as `Drained` says; it touches only that stream's process and never the map |
| `Streams.StreamManager.GetStreamMetadata` | backend/stream-manager.ts:102-104 | answers the registered metadata of the id or nothing; in a valid manager what it answers carries the id asked for |
| `Streams.CloseErrorAndExit` | backend/server.ts:47-55 | the socket's `close` and `error` handlers both remove the stream, and the kill makes the process fire `exit`; together they leave the table as one removal would, the map loses exactly that key, and the process is torn down once, by the first call |

## Left out

- Real process spawning, the `ffmpeg` program name, pipes and the codec.
  The process is the abstract `ChildProcess`, observed through its stdin
  state, the chunks written, drain listeners and the kill flag.
- `kill()`'s boolean result and the signal it sends. The source ignores
  the result; the model only records that the signal was sent.
- The effect of a throwing `write`, `end()` or `kill()` on the process.
  The model assumes a call that throws changes nothing.
- `Streams.StreamManager.CreateStream`: a failing spawn is not modelled.
  When `spawn` throws at `backend/stream-manager.ts:24`, or leaves its
  stdio unset so that the unguarded `stderr.on` at :40 throws,
  `createStream` throws before the `set` at :61 and leaves the table as it
  was; `backend/server.ts` then closes the socket. The model's
  `CreateStream` and `SessionSpec.Created` always register a spawned
  process with stdin.
- As a consequence the source never files an entry without stdin, and the
  no-stdin branches of `writeData` (:71) and `removeStream` (:90) are
  unreachable for a registered stream. `SessionSpec` keeps them only as a
  generalisation over tables whose processes lack stdin; the class never
  takes them (`ChildProcess.hasStdin` is a constant `true` after spawning).
- Aliasing of the returned metadata. `createStream` returns the same object
  it stores, and `startTime` is a mutable `Date`, so a caller that mutated
  the result would change what `getStreamMetadata` answers.
  `backend/server.ts` never does; the model's metadata is a value.
- Writing to an ended stdin. `ChildProcess.Write` requires an open stdin.
  `Valid()` proves that no registered process has an ended stdin, so
  `writeData` never does this.
- Console logging. It has no effect on state.
- Decoding a stderr `Buffer` with `toString()`. Messages are strings.
- `Text.Decimal`: JavaScript prints integers of 10^21 and above in exponent
  notation; millisecond clock readings are far below that. Negative clock
  readings are not modelled (`now` is a `nat`).
- Timing and concurrency of process events. Callbacks are discrete method
  calls on a single thread of control.
- The rest of `backend/server.ts`: WebSocket plumbing, JSON messages and
  the `client-<timestamp>` id. Only its two teardown triggers and the
  advertised URL are modelled.
- `backend/config.ts`: environment variables and `parseInt` defaults.
  `rtmpServer` is a constructor parameter.
- `hlsstreamer.js`: an HTTP handler with its own process map. It is a
  separate program, not the stream manager.
- The frontend: React UI, media recording and playback, and canvas
  animation with floating-point arithmetic.
