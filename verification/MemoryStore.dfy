/** The in-memory store as the object the code keeps behind its lock (crates/nclav-store/src/memory.rs). */
module MemoryStore {
  import opened Prelude
  import opened Json
  import opened Domain
  import opened State
  import opened StoreModel

  class InMemoryStore {
    const order: set<string> -> seq<string>
    var enclaves: map<EnclaveId, EnclaveState>
    var events: seq<AuditEvent>
    var tfState: map<string, Bytes>
    var tfLocks: map<string, Json>
    var runs: map<string, IacRun>

    ghost function View(): MemView
      reads this
    {
      MemView(enclaves, events, tfState, tfLocks, runs)
    }

    constructor (order: set<string> -> seq<string>)
      ensures this.order == order && View() == EMPTY_VIEW
    {
      this.order := order;
      enclaves, events, tfState, tfLocks, runs := map[], [], map[], map[], map[];
    }

    method GetEnclave(id: EnclaveId) returns (r: Option<EnclaveState>)
      requires Visits(order)
      ensures MemStep(order, View(), Op.GetEnclave(id)) == (View(), OneEnclave(r))
    {
      r := if id in enclaves then Some(enclaves[id]) else None;
    }

    method ListEnclaves() returns (r: seq<EnclaveState>)
      requires Visits(order)
      ensures MemStep(order, View(), Op.ListEnclaves) == (View(), Enclaves(r))
    {
      assert Lists(order(enclaves.Keys), enclaves.Keys);
      r := ValuesOf(enclaves, order(enclaves.Keys));
    }

    method UpsertEnclave(s: EnclaveState)
      requires Visits(order)
      modifies this
      ensures MemStep(order, old(View()), Op.UpsertEnclave(s)) == (View(), Nothing)
    {
      enclaves := enclaves[s.desired.id := s];
    }

    method DeleteEnclave(id: EnclaveId)
      requires Visits(order)
      modifies this
      ensures MemStep(order, old(View()), Op.DeleteEnclave(id)) == (View(), Nothing)
    {
      enclaves := enclaves - {id};
    }

    method UpsertPartition(id: EnclaveId, part: PartitionState) returns (r: Option<StoreError>)
      requires Visits(order)
      modifies this
      ensures MemStep(order, old(View()), Op.UpsertPartition(id, part)) ==
              (View(), if r.Some? then Refused(r.value) else Nothing)
    {
      if id !in enclaves {
        return Some(EnclaveNotFound(id));
      }
      var es := enclaves[id];
      enclaves := enclaves[id := es.(partitions := es.partitions[part.desired.id := part])];
      return None;
    }

    method DeletePartition(id: EnclaveId, pid: PartitionId)
      requires Visits(order)
      modifies this
      ensures MemStep(order, old(View()), Op.DeletePartition(id, pid)) == (View(), Nothing)
    {
      if id in enclaves {
        var es := enclaves[id];
        enclaves := enclaves[id := es.(partitions := es.partitions - {pid})];
      }
    }

    method AppendEvent(ev: AuditEvent)
      requires Visits(order)
      modifies this
      ensures MemStep(order, old(View()), Op.AppendEvent(ev)) == (View(), Nothing)
    {
      events := events + [ev];
    }

    method ListEvents(filter: Option<EnclaveId>, limit: nat) returns (r: seq<AuditEvent>)
      requires Visits(order)
      ensures MemStep(order, View(), Op.ListEvents(filter, limit)) == (View(), Events(r))
    {
      var filtered: seq<AuditEvent> := [];
      for i := 0 to |events|
        invariant filtered == WantedEvents(events[..i], filter)
      {
        assert events[..i + 1][..i] == events[..i];
        if filter.None? || EventEnclave(events[i]) == filter {
          filtered := filtered + [events[i]];
        }
      }
      assert events[..|events|] == events;
      var start := if |filtered| <= limit then 0 else |filtered| - limit;
      r := filtered[start..];
    }

    method GetTfState(key: string) returns (r: Option<Bytes>)
      requires Visits(order)
      ensures MemStep(order, View(), Op.GetTfState(key)) == (View(), Blob(r))
    {
      r := if key in tfState then Some(tfState[key]) else None;
    }

    method PutTfState(key: string, blob: Bytes)
      requires Visits(order)
      modifies this
      ensures MemStep(order, old(View()), Op.PutTfState(key, blob)) == (View(), Nothing)
    {
      tfState := tfState[key := blob];
    }

    method DeleteTfState(key: string)
      requires Visits(order)
      modifies this
      ensures MemStep(order, old(View()), Op.DeleteTfState(key)) == (View(), Nothing)
    {
      tfState := tfState - {key};
      tfLocks := tfLocks - {key};
    }

    method LockTfState(key: string, info: Json) returns (r: Option<StoreError>)
      requires Visits(order)
      modifies this
      ensures MemStep(order, old(View()), Op.LockTfState(key, info)) ==
              (View(), if r.Some? then Refused(r.value) else Nothing)
    {
      if key in tfLocks {
        return Some(LockConflict(tfLocks[key]));
      }
      tfLocks := tfLocks[key := info];
      return None;
    }

    method UnlockTfState(key: string, lockId: string)
      requires Visits(order)
      modifies this
      ensures MemStep(order, old(View()), Op.UnlockTfState(key, lockId)) == (View(), Nothing)
    {
      if key in tfLocks {
        if lockId == "" || LockId(tfLocks[key]) == lockId {
          tfLocks := tfLocks - {key};
        }
      }
    }

    method UpsertRun(run: IacRun)
      requires Visits(order)
      modifies this
      ensures MemStep(order, old(View()), Op.UpsertRun(run)) == (View(), Nothing)
    {
      runs := runs[run.id := run];
    }

    method ListRuns(id: EnclaveId, pid: PartitionId) returns (r: seq<IacRun>)
      requires Visits(order)
      ensures MemStep(order, View(), Op.ListRuns(id, pid)) == (View(), Runs(r))
    {
      assert Lists(order(runs.Keys), runs.Keys);
      var matching := RunsFor(ValuesOf(runs, order(runs.Keys)), id, pid);
      var sorted := SortRuns(matching);
      r := if |sorted| <= MAX_RUNS then sorted else sorted[..MAX_RUNS];
    }

    /** The sort by start time, newest first and stable. */
    method SortRuns(runs: seq<IacRun>) returns (sorted: seq<IacRun>)
      ensures sorted == NewestFirst(runs)
    {
      sorted := [];
      for i := 0 to |runs|
        invariant sorted == NewestFirst(runs[..i])
      {
        assert runs[..i + 1][..i] == runs[..i];
        sorted := InsertRun(runs[i], sorted);
      }
      assert runs[..|runs|] == runs;
    }

    method GetRun(id: string) returns (r: Option<IacRun>)
      requires Visits(order)
      ensures MemStep(order, View(), Op.GetRun(id)) == (View(), OneRun(r))
    {
      r := if id in runs then Some(runs[id]) else None;
    }
  }
}
