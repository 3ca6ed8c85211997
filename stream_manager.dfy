/**
 * The stream session table: class StreamManager with its `activeStreams`
 * map from stream id to process handle and metadata. Each method changes
 * the map and the one process it addresses in place, and is proved to move
 * the abstract table (`Table()`) exactly as the matching function of
 * SessionSpec says.
 */
module Streams {
  import opened Options
  import opened Text
  import opened Transcoder
  import opened SessionSpec

  /** One `activeStreams` value: `{ process, metadata }`. */
  datatype Entry = Entry(process: ChildProcess, metadata: StreamMetadata)

  /**
   * The URL server.ts advertises to the client. `rtmpPort` is the text the
   * template string gives the configured port, whatever `parseInt` made of
   * the environment (a number, or `NaN`).
   */
  function AdvertisedUrl(rtmpServer: string, rtmpPort: string, streamId: string): string {
    "rtmp://" + rtmpServer + ":" + rtmpPort + "/live/" + streamId
  }

  /**
   * Whatever the port text, the advertised URL is the push target with `:`
   * and the port inserted after the host, so it is never the URL the process
   * pushes to.
   */
  lemma AdvertisedUrlIsNotTarget(rtmpServer: string, rtmpPort: string, streamId: string)
    ensures var url := AdvertisedUrl(rtmpServer, rtmpPort, streamId);
      var target := RtmpTarget(rtmpServer, streamId);
      && url[..7 + |rtmpServer|] == target[..7 + |rtmpServer|]
      && url[7 + |rtmpServer|] == ':'
      && url[8 + |rtmpServer|..8 + |rtmpServer| + |rtmpPort|] == rtmpPort
      && url[8 + |rtmpServer| + |rtmpPort|..] == target[7 + |rtmpServer|..]
      && url != target
  {
    var url := AdvertisedUrl(rtmpServer, rtmpPort, streamId);
    var target := RtmpTarget(rtmpServer, streamId);
    assert |url| == |target| + 1 + |rtmpPort|;
  }

  class StreamManager {
    /** `config.rtmpServer`, read once at start-up. */
    const rtmpServer: string
    var activeStreams: map<string, Entry>

    /** The process handles the table refers to. */
    ghost function Processes(): set<ChildProcess>
      reads this
    {
      set id | id in activeStreams :: activeStreams[id].process
    }

    /** The process registered under `id`, if any: all that an operation on `id` may touch. */
    ghost function ProcessOf(id: string): set<ChildProcess>
      reads this
    {
      if id in activeStreams then {activeStreams[id].process} else {}
    }

    /** The abstract value: metadata and observable process state per registered id. */
    ghost function Table(): Table
      reads this, Processes()
    {
      map id | id in activeStreams :: Stream(activeStreams[id].metadata, activeStreams[id].process.State())
    }

    /** No two entries share a process handle, and every entry is well formed. */
    ghost predicate Valid()
      reads this, Processes()
    {
      && (forall a, b :: a in activeStreams && b in activeStreams && a != b ==>
            activeStreams[a].process != activeStreams[b].process)
      && WellFormed(rtmpServer, Table())
    }

    constructor (rtmpServer: string)
      ensures Valid()
      ensures this.rtmpServer == rtmpServer && Table() == map[]
      ensures activeStreams == map[] && Processes() == {}
    {
      this.rtmpServer := rtmpServer;
      activeStreams := map[];
    }

    /**
     * createStream: the id is built from the clock reading `now`, the
     * metadata carries the separate `new Date()` reading `startTime`. A new
     * process is spawned and filed under the id without a collision check: an
     * entry already there is replaced, and its process is left running and
     * no longer reachable from the table.
     */
    method CreateStream(clientId: string, now: nat, startTime: int) returns (metadata: StreamMetadata)
      requires Valid()
      modifies this
      ensures Valid()
      ensures metadata.id == "stream-" + Decimal(now)
      ensures metadata.clientId == clientId && metadata.startTime == startTime
      ensures Table() == Created(old(Table()), rtmpServer, metadata)
      ensures metadata.id in activeStreams && fresh(activeStreams[metadata.id].process)
      ensures activeStreams == old(activeStreams)[metadata.id := Entry(activeStreams[metadata.id].process, metadata)]
      ensures Processes() <= old(Processes()) + {activeStreams[metadata.id].process}
      ensures metadata.id in old(activeStreams) ==>
        var orphan := old(activeStreams[metadata.id].process);
        orphan !in Processes() && orphan.State() == old(orphan.State()) && !orphan.killed
    {
      var streamId := StreamId(now);
      metadata := StreamMetadata(streamId, startTime, clientId);
      var process := new ChildProcess.Spawn(SpawnArgs(rtmpServer, streamId));
      activeStreams := activeStreams[streamId := Entry(process, metadata)];
      assert Table() == Created(old(Table()), rtmpServer, metadata);
      StepPreservesWellFormed(old(Table()), rtmpServer, Create(clientId, now, startTime));
    }

    /**
     * writeData: forwards the chunk to the stream's stdin. Unknown ids and
     * processes without stdin are ignored; under backpressure a no-op
     * one-shot `drain` listener is armed; a throwing write tears the stream
     * down through removeStream.
     */
    method WriteData(streamId: string, data: Chunk, outcome: WriteOutcome, faults: CloseFaults)
      requires Valid()
      modifies this, ProcessOf(streamId)
      ensures Valid()
      ensures Table() == Written(old(Table()), streamId, data, outcome)
      ensures activeStreams ==
        if old(streamId in activeStreams && activeStreams[streamId].process.hasStdin) && outcome == Throws
        then old(activeStreams) - {streamId} else old(activeStreams)
      ensures Processes() <= old(Processes())
      ensures streamId in old(activeStreams) && old(activeStreams[streamId].process.hasStdin) && outcome == Throws ==>
        var p := old(activeStreams[streamId].process);
        p.State() == TornDown(old(p.State()), faults)
    {
      if streamId in activeStreams && activeStreams[streamId].process.hasStdin {
        ghost var before := Table();
        var p := activeStreams[streamId].process;
        assert p.State() == before[streamId].proc;
        var result := p.Write(data, outcome);
        if result.Returned? {
          if !result.ok {
            p.OnceDrain();
          }
        }
        ghost var after := Table();
        forall j | j in activeStreams && j != streamId
          ensures after[j] == before[j]
        {
          assert activeStreams[j].process != p;
        }
        UpdatedAt(before, after, streamId);
        assert after[streamId] == Stream(activeStreams[streamId].metadata, p.State());
        if result.Returned? {
          assert after == Written(before, streamId, data, outcome);
          StepPreservesWellFormed(before, rtmpServer, Write(streamId, data, outcome));
        } else {
          assert after == before;
          RemoveStream(streamId, faults);
        }
      }
    }

    /**
     * removeStream: ends stdin when there is one, then kills the process;
     * a throw from either is swallowed, and the entry is deleted in every
     * case. An unknown id is ignored.
     */
    method RemoveStream(streamId: string, faults: CloseFaults)
      requires Valid()
      modifies this, ProcessOf(streamId)
      ensures Valid()
      ensures Table() == Removed(old(Table()), streamId)
      ensures activeStreams == old(activeStreams) - {streamId}
      ensures Processes() <= old(Processes())
      ensures streamId in old(activeStreams) ==>
        var p := old(activeStreams[streamId].process);
        p.State() == TornDown(old(p.State()), faults)
    {
      if streamId in activeStreams {
        ghost var before := Table();
        var p := activeStreams[streamId].process;
        var threw := false;
        if p.hasStdin {
          threw := p.End(faults.endThrows);
        }
        if !threw {
          threw := p.Kill(faults.killThrows);
        }
        activeStreams := activeStreams - {streamId};
        forall j | j in activeStreams
          ensures j in before && Table()[j] == before[j]
        {
          assert activeStreams[j].process != p;
        }
        assert Table().Keys == before.Keys - {streamId};
        assert Table() == Removed(before, streamId);
        StepPreservesWellFormed(before, rtmpServer, Remove(streamId));
      }
    }

    /** The process's stderr `data` callback for stream `streamId`. */
    method OnStderr(streamId: string, message: string, faults: CloseFaults)
      requires Valid()
      modifies this, ProcessOf(streamId)
      ensures Valid()
      ensures Table() == AfterStderr(old(Table()), streamId, message)
      ensures IsFatal(message) && streamId in old(activeStreams) ==>
        var p := old(activeStreams[streamId].process);
        p.State() == TornDown(old(p.State()), faults)
      ensures activeStreams == if IsFatal(message) then old(activeStreams) - {streamId} else old(activeStreams)
      ensures Processes() <= old(Processes())
    {
      if IsFatal(message) {
        RemoveStream(streamId, faults);
      }
    }

    /** The process's `error` callback. */
    method OnError(streamId: string, faults: CloseFaults)
      requires Valid()
      modifies this, ProcessOf(streamId)
      ensures Valid()
      ensures Table() == Removed(old(Table()), streamId)
      ensures activeStreams == old(activeStreams) - {streamId}
      ensures Processes() <= old(Processes())
      ensures streamId in old(activeStreams) ==>
        var p := old(activeStreams[streamId].process);
        p.State() == TornDown(old(p.State()), faults)
    {
      RemoveStream(streamId, faults);
    }

    /**
     * The process's `exit` callback: any exit code ends the stream. After a
     * signal such as `kill()` Node passes `null` for the code (`None`); the
     * code is only logged.
     */
    method OnExit(streamId: string, code: Option<int>, faults: CloseFaults)
      requires Valid()
      modifies this, ProcessOf(streamId)
      ensures Valid()
      ensures Table() == Removed(old(Table()), streamId)
      ensures activeStreams == old(activeStreams) - {streamId}
      ensures Processes() <= old(Processes())
      ensures streamId in old(activeStreams) ==>
        var p := old(activeStreams[streamId].process);
        p.State() == TornDown(old(p.State()), faults)
    {
      RemoveStream(streamId, faults);
    }

    /**
     * The `drain` event of the stream's stdin: the no-op listeners that
     * writeData armed under backpressure run once and are dropped. The map
     * itself is not touched. The event is routed by stream id, whereas the
     * source's listener belongs to one process's stdin: a `drain` from a
     * process orphaned by a same-id createStream cannot be expressed and
     * would reach the new process instead. Since the listeners do nothing,
     * only their count differs.
     */
    method OnDrain(streamId: string)
      requires Valid()
      modifies ProcessOf(streamId)
      ensures Valid()
      ensures Table() == Drained(old(Table()), streamId)
    {
      if streamId in activeStreams {
        ghost var before := Table();
        var p := activeStreams[streamId].process;
        p.EmitDrain();
        ghost var after := Table();
        forall j | j in activeStreams && j != streamId
          ensures after[j] == before[j]
        {
          assert activeStreams[j].process != p;
        }
        UpdatedAt(before, after, streamId);
        assert after[streamId] == Stream(activeStreams[streamId].metadata, p.State());
        assert after == Drained(before, streamId);
        StepPreservesWellFormed(before, rtmpServer, Drain(streamId));
      }
    }

    /** getStreamMetadata: a read-only lookup; what it answers is filed under the id asked for. */
    function GetStreamMetadata(streamId: string): (r: Option<StreamMetadata>)
      reads this, Processes()
      ensures r == Lookup(Table(), streamId)
      ensures Valid() && r.Some? ==> r.value.id == streamId
    {
      if streamId in activeStreams then Some(activeStreams[streamId].metadata) else None
    }
  }

  /**
   * The teardown paths of one connection: the socket's `close` and `error`
   * handlers both call removeStream, and the `kill()` of the first makes
   * the process fire `exit`. Only the first call acts on the process; the
   * table ends as after a single removal.
   */
  method CloseErrorAndExit(m: StreamManager, streamId: string, code: Option<int>,
                           onClose: CloseFaults, onError: CloseFaults, onExit: CloseFaults)
    requires m.Valid()
    modifies m, m.ProcessOf(streamId)
    ensures m.Valid()
    ensures m.Table() == Removed(old(m.Table()), streamId)
    ensures m.activeStreams == old(m.activeStreams) - {streamId}
    ensures streamId in old(m.activeStreams) ==>
      var p := old(m.activeStreams[streamId].process);
      p.State() == TornDown(old(p.State()), onClose)
  {
    m.RemoveStream(streamId, onClose);
    m.RemoveStream(streamId, onError);
    m.OnExit(streamId, code, onExit);
  }
}
