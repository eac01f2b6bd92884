/** The persistent store as an object over its tables (crates/nclav-store/src/redb_store.rs). */
module RedbStore {
  import opened Prelude
  import opened Ordering
  import opened Json
  import opened Domain
  import opened State
  import opened StoreModel
  import opened RedbModel

  /** The answer that a result or a failure of a call amounts to. */
  function AnswerOf<T>(r: Result<T, StoreError>, wrap: T -> Answer): Answer {
    match r
    case Ok(v) => wrap(v)
    case Err(e) => Refused(e)
  }

  class Redb {
    const f: Format
    var enclaves: map<string, Bytes>
    var events: map<nat, Bytes>
    var meta: map<string, nat>
    var tfState: map<string, Bytes>
    var tfLocks: map<string, Bytes>
    var runs: map<string, Bytes>
    var runsByPart: map<string, string>

    ghost function View(): Tables
      reads this
    {
      Tables(enclaves, events, meta, tfState, tfLocks, runs, runsByPart)
    }

    constructor (f: Format)
      ensures this.f == f && View() == EMPTY_TABLES
    {
      this.f := f;
      enclaves, events, meta, tfState, tfLocks := map[], map[], map[], map[], map[];
      runs, runsByPart := map[], map[];
    }

    method GetEnclave(id: EnclaveId) returns (r: Result<Option<EnclaveState>, StoreError>)
      ensures RedbStep(f, View(), Op.GetEnclave(id)) == (View(), AnswerOf(r, x => OneEnclave(x)))
    {
      if id !in enclaves {
        return Ok(None);
      }
      var state := f.enclave.dec(enclaves[id]);
      return if state.None? then Err(Serialization) else Ok(state);
    }

    /** The stored records by key, unless one of them cannot be parsed. */
    method ReadEnclaves() returns (r: Option<seq<EnclaveState>>)
      ensures r == DecodeAll(f.enclave.dec, enclaves, SortedKeys(enclaves.Keys))
    {
      var keys := SortedKeys(enclaves.Keys);
      var results: seq<EnclaveState> := [];
      for i := 0 to |keys|
        invariant DecodeAll(f.enclave.dec, enclaves, keys[..i]) == Some(results)
      {
        DecodeNext(f.enclave.dec, enclaves, keys, i);
        var state := f.enclave.dec(enclaves[keys[i]]);
        if state.None? {
          StaysUnreadable(f.enclave.dec, enclaves, keys, i + 1);
          return None;
        }
        results := results + [state.value];
      }
      assert keys[..|keys|] == keys;
      return Some(results);
    }

    method ListEnclaves() returns (r: Result<seq<EnclaveState>, StoreError>)
      ensures RedbStep(f, View(), Op.ListEnclaves) == (View(), AnswerOf(r, x => Enclaves(x)))
    {
      hide DecodeAll;
      var results := ReadEnclaves();
      return if results.None? then Err(Serialization) else Ok(results.value);
    }

    method UpsertEnclave(s: EnclaveState)
      modifies this
      ensures RedbStep(f, old(View()), Op.UpsertEnclave(s)) == (View(), Nothing)
    {
      enclaves := enclaves[s.desired.id := f.enclave.enc(s)];
    }

    method DeleteEnclave(id: EnclaveId)
      modifies this
      ensures RedbStep(f, old(View()), Op.DeleteEnclave(id)) == (View(), Nothing)
    {
      enclaves := enclaves - {id};
    }

    method UpsertPartition(id: EnclaveId, part: PartitionState) returns (r: Result<(), StoreError>)
      modifies this
      ensures RedbStep(f, old(View()), Op.UpsertPartition(id, part)) == (View(), AnswerOf(r, x => Nothing))
    {
      var got := GetEnclave(id);
      if got.Err? {
        return Err(got.error);
      }
      if got.value.None? {
        return Err(EnclaveNotFound(id));
      }
      var es := got.value.value;
      UpsertEnclave(es.(partitions := es.partitions[part.desired.id := part]));
      return Ok(());
    }

    method DeletePartition(id: EnclaveId, pid: PartitionId) returns (r: Result<(), StoreError>)
      modifies this
      ensures RedbStep(f, old(View()), Op.DeletePartition(id, pid)) == (View(), AnswerOf(r, x => Nothing))
    {
      var got := GetEnclave(id);
      if got.Err? {
        return Err(got.error);
      }
      if got.value.Some? {
        var es := got.value.value;
        UpsertEnclave(es.(partitions := es.partitions - {pid}));
      }
      return Ok(());
    }

    method AppendEvent(ev: AuditEvent)
      modifies this
      ensures RedbStep(f, old(View()), Op.AppendEvent(ev)) == (View(), Nothing)
    {
      var n := if EVENT_SEQ in meta then meta[EVENT_SEQ] else 0;
      meta := meta[EVENT_SEQ := n + 1];
      events := events[n + 1 := f.event.enc(ev)];
    }

    /** The wanted events in the order they were appended, unless an event cannot be parsed. */
    method ReadEvents(filter: Option<EnclaveId>) returns (r: Option<seq<AuditEvent>>)
      ensures var all := DecodeAll(f.event.dec, events, AscendingKeys(events.Keys));
              r == if all.None? then None else Some(WantedEvents(all.value, filter))
    {
      var keys := AscendingKeys(events.Keys);
      var wanted: seq<AuditEvent> := [];
      ghost var read: seq<AuditEvent> := [];
      for i := 0 to |keys|
        invariant DecodeAll(f.event.dec, events, keys[..i]) == Some(read)
        invariant wanted == WantedEvents(read, filter)
      {
        DecodeNext(f.event.dec, events, keys, i);
        var ev := f.event.dec(events[keys[i]]);
        if ev.None? {
          StaysUnreadable(f.event.dec, events, keys, i + 1);
          return None;
        }
        assert (read + [ev.value])[..|read|] == read;
        read := read + [ev.value];
        if filter.None? || EventEnclave(ev.value) == filter {
          wanted := wanted + [ev.value];
        }
      }
      assert keys[..|keys|] == keys;
      return Some(wanted);
    }

    method ListEvents(filter: Option<EnclaveId>, limit: nat) returns (r: Result<seq<AuditEvent>, StoreError>)
      ensures RedbStep(f, View(), Op.ListEvents(filter, limit)) == (View(), AnswerOf(r, x => Events(x)))
    {
      hide WantedEvents, DecodeAll;
      var wanted := ReadEvents(filter);
      if wanted.None? {
        return Err(Serialization);
      }
      var all := wanted.value;
      var start := if |all| <= limit then 0 else |all| - limit;
      return Ok(all[start..]);
    }

    method GetTfState(key: string) returns (r: Option<Bytes>)
      ensures RedbStep(f, View(), Op.GetTfState(key)) == (View(), Blob(r))
    {
      r := if key in tfState then Some(tfState[key]) else None;
    }

    method PutTfState(key: string, blob: Bytes)
      modifies this
      ensures RedbStep(f, old(View()), Op.PutTfState(key, blob)) == (View(), Nothing)
    {
      tfState := tfState[key := blob];
    }

    method DeleteTfState(key: string)
      modifies this
      ensures RedbStep(f, old(View()), Op.DeleteTfState(key)) == (View(), Nothing)
    {
      tfState := tfState - {key};
      tfLocks := tfLocks - {key};
    }

    method LockTfState(key: string, info: Json) returns (r: Result<(), StoreError>)
      modifies this
      ensures RedbStep(f, old(View()), Op.LockTfState(key, info)) == (View(), AnswerOf(r, x => Nothing))
    {
      if key in tfLocks {
        var existing := f.lock.dec(tfLocks[key]);
        return Err(if existing.None? then Serialization else LockConflict(existing.value));
      }
      tfLocks := tfLocks[key := f.lock.enc(info)];
      return Ok(());
    }

    method UnlockTfState(key: string, lockId: string) returns (r: Result<(), StoreError>)
      modifies this
      ensures RedbStep(f, old(View()), Op.UnlockTfState(key, lockId)) == (View(), AnswerOf(r, x => Nothing))
    {
      if key in tfLocks {
        var existing := f.lock.dec(tfLocks[key]);
        if existing.None? {
          return Err(Serialization);
        }
        if lockId == "" || LockId(existing.value) == lockId {
          tfLocks := tfLocks - {key};
        }
      }
      return Ok(());
    }

    method UpsertRun(run: IacRun)
      modifies this
      ensures RedbStep(f, old(View()), Op.UpsertRun(run)) == (View(), Nothing)
    {
      runs := runs[run.id := f.run.enc(run)];
      runsByPart := runsByPart[IndexKey(f, run) := run.id];
    }

    method ListRuns(id: EnclaveId, pid: PartitionId) returns (r: Result<seq<IacRun>, StoreError>)
      ensures RedbStep(f, View(), Op.ListRuns(id, pid)) == (View(), AnswerOf(r, x => Runs(x)))
    {
      var keys := ScannedKeys(runsByPart, PartPrefix(id, pid));
      var ids := Reverse(ValuesOf(runsByPart, keys));
      var found := FetchAll(FirstOnes(ids, MAX_RUNS));
      return if found.None? then Err(Serialization) else Ok(found.value);
    }

    method FetchAll(ids: seq<string>) returns (r: Option<seq<IacRun>>)
      ensures r == FetchRuns(f, runs, ids)
    {
      var found: seq<IacRun> := [];
      for i := 0 to |ids|
        invariant FetchRuns(f, runs, ids[..i]) == Some(found)
      {
        assert ids[..i + 1][..i] == ids[..i];
        if ids[i] in runs {
          var run := f.run.dec(runs[ids[i]]);
          if run.None? {
            StaysUnfetched(f, runs, ids, i + 1);
            return None;
          }
          found := found + [run.value];
        }
      }
      assert ids[..|ids|] == ids;
      return Some(found);
    }

    method GetRun(id: string) returns (r: Result<Option<IacRun>, StoreError>)
      ensures RedbStep(f, View(), Op.GetRun(id)) == (View(), AnswerOf(r, x => OneRun(x)))
    {
      if id !in runs {
        return Ok(None);
      }
      var run := f.run.dec(runs[id]);
      return if run.None? then Err(Serialization) else Ok(run);
    }
  }

  lemma {:induction false} DecodeNext<K, T>(dec: Bytes -> Option<T>, table: map<K, Bytes>, keys: seq<K>, i: nat)
    requires i < |keys| && forall k :: k in keys ==> k in table
    ensures forall k :: 0 <= k < |keys| ==> keys[k] in keys && keys[k] in table
    ensures var (before, last) := (DecodeAll(dec, table, keys[..i]), dec(table[keys[i]]));
            DecodeAll(dec, table, keys[..i + 1]) ==
            if before.Some? && last.Some? then Some(before.value + [last.value]) else None
  {
    assert keys[..i + 1][..i] == keys[..i];
  }

  /** Once a value cannot be parsed, reading on does not help. */
  lemma {:induction false} StaysUnreadable<K, T>(dec: Bytes -> Option<T>, table: map<K, Bytes>, keys: seq<K>, i: nat)
    requires i <= |keys| && forall j :: 0 <= j < |keys| ==> keys[j] in table
    requires DecodeAll(dec, table, keys[..i]) == None
    ensures DecodeAll(dec, table, keys) == None
    decreases |keys| - i
  {
    if i == |keys| {
      assert keys[..i] == keys;
    } else {
      assert keys[..i + 1][..i] == keys[..i];
      StaysUnreadable(dec, table, keys, i + 1);
    }
  }

  lemma {:induction false} StaysUnfetched(f: Format, table: map<string, Bytes>, ids: seq<string>, i: nat)
    requires i <= |ids| && FetchRuns(f, table, ids[..i]) == None
    ensures FetchRuns(f, table, ids) == None
    decreases |ids| - i
  {
    if i == |ids| {
      assert ids[..i] == ids;
    } else {
      assert ids[..i + 1][..i] == ids[..i];
      StaysUnfetched(f, table, ids, i + 1);
    }
  }
}
