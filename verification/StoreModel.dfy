/**
 The state store as a machine: its calls, their answers, and what each call does to the plain
 maps of the in-memory store (crates/nclav-store/src/store.rs, memory.rs).
 */
module StoreModel {
  import opened Prelude
  import opened Json
  import opened Domain
  import opened State

  datatype StoreError =
    | EnclaveNotFound(id: EnclaveId)
    | Serialization
    | LockConflict(holder: Json)

  datatype Op =
    | GetEnclave(id: EnclaveId)
    | ListEnclaves
    | UpsertEnclave(state: EnclaveState)
    | DeleteEnclave(id: EnclaveId)
    | UpsertPartition(id: EnclaveId, part: PartitionState)
    | DeletePartition(id: EnclaveId, pid: PartitionId)
    | AppendEvent(event: AuditEvent)
    | ListEvents(filter: Option<EnclaveId>, limit: nat)
    | GetTfState(key: string)
    | PutTfState(key: string, blob: Bytes)
    | DeleteTfState(key: string)
    | LockTfState(key: string, info: Json)
    | UnlockTfState(key: string, lockId: string)
    | UpsertRun(run: IacRun)
    | ListRuns(id: EnclaveId, pid: PartitionId)
    | GetRun(runId: string)

  datatype Answer =
    | Nothing
    | OneEnclave(enclave: Option<EnclaveState>)
    | Enclaves(enclaves: seq<EnclaveState>)
    | Events(events: seq<AuditEvent>)
    | Blob(blob: Option<Bytes>)
    | OneRun(run: Option<IacRun>)
    | Runs(runs: seq<IacRun>)
    | Refused(error: StoreError)

  // ----- shared pieces -----

  function EventWanted(ev: AuditEvent, filter: Option<EnclaveId>): bool {
    filter.None? || EventEnclave(ev) == filter
  }

  function WantedEvents(events: seq<AuditEvent>, filter: Option<EnclaveId>): seq<AuditEvent> {
    if events == [] then []
    else
      var n := |events| - 1;
      WantedEvents(events[..n], filter) + if EventWanted(events[n], filter) then [events[n]] else []
  }

  /** The last `limit` elements, or all of them when there are fewer. */
  function LastOnes<T>(s: seq<T>, limit: nat): seq<T> {
    if |s| <= limit then s else s[|s| - limit..]
  }

  function FirstOnes<T>(s: seq<T>, limit: nat): seq<T> {
    if |s| <= limit then s else s[..limit]
  }

  /** The ID a lock was taken under; empty when the lock information has none. */
  function LockId(info: Json): string {
    var id := Get(info, "ID");
    if id.Some? && id.value.JStr? then id.value.s else ""
  }

  predicate Releases(lockId: string, info: Json) {
    lockId == "" || LockId(info) == lockId
  }

  const MAX_RUNS: nat := 100

  // ----- the in-memory store -----

  datatype MemView = MemView(
    enclaves: map<EnclaveId, EnclaveState>,
    events: seq<AuditEvent>,
    tfState: map<string, Bytes>,
    tfLocks: map<string, Json>,
    runs: map<string, IacRun>)

  const EMPTY_VIEW := MemView(map[], [], map[], map[], map[])

  /** The values of a map under some of its keys, in the order of the keys. */
  function ValuesOf<T>(m: map<string, T>, order: seq<string>): (r: seq<T>)
    requires forall i :: 0 <= i < |order| ==> order[i] in m
    ensures |r| == |order| && forall i :: 0 <= i < |r| ==> r[i] == m[order[i]]
  {
    seq(|order|, i requires 0 <= i < |order| => m[order[i]])
  }

  function RunsFor(runs: seq<IacRun>, id: EnclaveId, pid: PartitionId): seq<IacRun> {
    if runs == [] then []
    else
      (if runs[0].enclaveId == id && runs[0].partitionId == pid then [runs[0]] else []) + RunsFor(runs[1..], id, pid)
  }

  /** Stable insertion behind every run that started no earlier. */
  function InsertRun(r: IacRun, sorted: seq<IacRun>): seq<IacRun> {
    if sorted == [] || r.startedAt > sorted[0].startedAt then [r] + sorted
    else [sorted[0]] + InsertRun(r, sorted[1..])
  }

  /** Newest first, runs of equal start kept in the order given. */
  function NewestFirst(runs: seq<IacRun>): seq<IacRun> {
    if runs == [] then [] else InsertRun(runs[|runs| - 1], NewestFirst(runs[..|runs| - 1]))
  }

  ghost predicate Visits(order: set<string> -> seq<string>) {
    forall s: set<string> :: Lists(order(s), s)
  }

  function MemStep(order: set<string> -> seq<string>, m: MemView, op: Op): (MemView, Answer)
    requires Visits(order)
  {
    match op
    case GetEnclave(id) => (m, OneEnclave(if id in m.enclaves then Some(m.enclaves[id]) else None))
    case ListEnclaves =>
      assert Lists(order(m.enclaves.Keys), m.enclaves.Keys);
      (m, Enclaves(ValuesOf(m.enclaves, order(m.enclaves.Keys))))
    case UpsertEnclave(s) => (m.(enclaves := m.enclaves[s.desired.id := s]), Nothing)
    case DeleteEnclave(id) => (m.(enclaves := m.enclaves - {id}), Nothing)
    case UpsertPartition(id, part) =>
      if id !in m.enclaves then (m, Refused(EnclaveNotFound(id)))
      else
        var es := m.enclaves[id];
        (m.(enclaves := m.enclaves[id := es.(partitions := es.partitions[part.desired.id := part])]), Nothing)
    case DeletePartition(id, pid) =>
      if id !in m.enclaves then (m, Nothing)
      else
        var es := m.enclaves[id];
        (m.(enclaves := m.enclaves[id := es.(partitions := es.partitions - {pid})]), Nothing)
    case AppendEvent(ev) => (m.(events := m.events + [ev]), Nothing)
    case ListEvents(filter, limit) => (m, Events(LastOnes(WantedEvents(m.events, filter), limit)))
    case GetTfState(key) => (m, Blob(if key in m.tfState then Some(m.tfState[key]) else None))
    case PutTfState(key, blob) => (m.(tfState := m.tfState[key := blob]), Nothing)
    case DeleteTfState(key) => (m.(tfState := m.tfState - {key}, tfLocks := m.tfLocks - {key}), Nothing)
    case LockTfState(key, info) =>
      if key in m.tfLocks then (m, Refused(LockConflict(m.tfLocks[key])))
      else (m.(tfLocks := m.tfLocks[key := info]), Nothing)
    case UnlockTfState(key, lockId) =>
      (if key in m.tfLocks && Releases(lockId, m.tfLocks[key]) then m.(tfLocks := m.tfLocks - {key}) else m, Nothing)
    case UpsertRun(run) => (m.(runs := m.runs[run.id := run]), Nothing)
    case ListRuns(id, pid) =>
      assert Lists(order(m.runs.Keys), m.runs.Keys);
      (m, Runs(FirstOnes(NewestFirst(RunsFor(ValuesOf(m.runs, order(m.runs.Keys)), id, pid)), MAX_RUNS)))
    case GetRun(id) => (m, OneRun(if id in m.runs then Some(m.runs[id]) else None))
  }
}
