/**
 What the answers of a store mean: after any calls on a fresh store, an answer is read off those calls,
 whichever of the two stores was called (crates/nclav-store/src/memory.rs, redb_store.rs).
 */
module StoreHistory {
  import opened Prelude
  import opened Ordering
  import opened Json
  import opened Domain
  import opened State
  import opened StoreModel
  import opened RedbModel
  import opened StoreSimulation
  import opened LockProtocol
  import opened RunIndex

  // ----- what the calls so far have made of one key -----

  /** The enclave as last written, with the partition writes since; none after a delete. */
  function EnclaveIn(ops: seq<Op>, id: EnclaveId): Option<EnclaveState>
    decreases |ops|
  {
    if ops == [] then None
    else
      var n := |ops| - 1;
      var before := EnclaveIn(ops[..n], id);
      match ops[n]
      case UpsertEnclave(s) => if s.desired.id == id then Some(s) else before
      case DeleteEnclave(gone) => if gone == id then None else before
      case UpsertPartition(owner, p) => if owner == id then WithPart(before, p) else before
      case DeletePartition(owner, pid) => if owner == id then WithoutPart(before, pid) else before
      case _ => before
  }

  function WithPart(es: Option<EnclaveState>, p: PartitionState): Option<EnclaveState> {
    if es.None? then None else Some(es.value.(partitions := es.value.partitions[p.desired.id := p]))
  }

  function WithoutPart(es: Option<EnclaveState>, pid: PartitionId): Option<EnclaveState> {
    if es.None? then None else Some(es.value.(partitions := es.value.partitions - {pid}))
  }

  function TfStateIn(ops: seq<Op>, key: string): Option<Bytes>
    decreases |ops|
  {
    if ops == [] then None
    else
      var n := |ops| - 1;
      match ops[n]
      case PutTfState(k, blob) => if k == key then Some(blob) else TfStateIn(ops[..n], key)
      case DeleteTfState(k) => if k == key then None else TfStateIn(ops[..n], key)
      case _ => TfStateIn(ops[..n], key)
  }

  /** The information of the lock that is held: the first one taken since the last call that freed it. */
  function HolderIn(ops: seq<Op>, key: string): Option<Json>
    decreases |ops|
  {
    if ops == [] then None
    else
      var n := |ops| - 1;
      match HolderIn(ops[..n], key)
      case Some(info) => if Frees(ops[n], key, info) then None else Some(info)
      case None => if ops[n].LockTfState? && ops[n].key == key then Some(ops[n].info) else None
  }

  function RunIn(ops: seq<Op>, runId: string): Option<IacRun>
    decreases |ops|
  {
    if ops == [] then None
    else
      var n := |ops| - 1;
      if ops[n].UpsertRun? && ops[n].run.id == runId then Some(ops[n].run) else RunIn(ops[..n], runId)
  }

  /** The enclave an event is about; the start and the end of a run are about none. */
  predicate About(ev: AuditEvent, id: EnclaveId) {
    match ev
    case ReconcileStarted(_, _, _) => false
    case ReconcileCompleted(_, _, _, _) => false
    case EnclaveProvisioned(_, _, e) => e == id
    case PartitionProvisioned(_, _, e, _) => e == id
    case ExportWired(_, _, e, _) => e == id
    case ImportWired(_, _, importer, _) => importer == id
    case EnclaveError(_, _, e, _) => e == id
    case PartitionError(_, _, e, _, _) => e == id
  }

  /** The events appended, in order, that are about the enclave asked for, if one is. */
  function EventsIn(ops: seq<Op>, filter: Option<EnclaveId>): seq<AuditEvent>
    decreases |ops|
  {
    if ops == [] then []
    else
      var n := |ops| - 1;
      var before := EventsIn(ops[..n], filter);
      if ops[n].AppendEvent? && (filter.None? || About(ops[n].event, filter.value)) then before + [ops[n].event]
      else before
  }

  /** The answer to a call after these calls; the two listings of records are described below. */
  function AnswerAfter(ops: seq<Op>, op: Op): Answer {
    match op
    case GetEnclave(id) => OneEnclave(EnclaveIn(ops, id))
    case UpsertPartition(id, _) => if EnclaveIn(ops, id).None? then Refused(EnclaveNotFound(id)) else Nothing
    case ListEvents(filter, limit) =>
      var all := EventsIn(ops, filter);
      Events(if |all| > limit then all[|all| - limit..] else all)
    case GetTfState(key) => Blob(TfStateIn(ops, key))
    case LockTfState(key, _) =>
      var holder := HolderIn(ops, key);
      if holder.Some? then Refused(LockConflict(holder.value)) else Nothing
    case GetRun(id) => OneRun(RunIn(ops, id))
    case _ => Nothing
  }

  // ----- the in-memory store -----

  function At<T>(m: map<string, T>, k: string): Option<T> {
    if k in m then Some(m[k]) else None
  }

  ghost predicate RecountsEnclaves(m: MemView, ops: seq<Op>) {
    (forall id :: EnclaveIn(ops, id) == At(m.enclaves, id)) && KeyedById(m.enclaves)
  }

  ghost predicate RecountsTerraform(m: MemView, ops: seq<Op>) {
    && (forall key :: TfStateIn(ops, key) == At(m.tfState, key))
    && (forall key :: HolderIn(ops, key) == At(m.tfLocks, key))
  }

  ghost predicate RecountsLogs(m: MemView, ops: seq<Op>) {
    && (forall id :: RunIn(ops, id) == At(m.runs, id))
    && (forall filter :: WantedEvents(m.events, filter) == EventsIn(ops, filter))
  }

  ghost predicate Recounts(m: MemView, ops: seq<Op>) {
    RecountsEnclaves(m, ops) && RecountsTerraform(m, ops) && RecountsLogs(m, ops)
  }

  lemma {:induction false} EnclaveStep(order: set<string> -> seq<string>, m: MemView, ops: seq<Op>, op: Op,
                                       id: EnclaveId)
    requires Visits(order) && EnclaveIn(ops, id) == At(m.enclaves, id)
    ensures EnclaveIn(ops + [op], id) == At(MemStep(order, m, op).0.enclaves, id)
  {
    hide TfStateIn, HolderIn, RunIn, EventsIn;
    assert (ops + [op])[..|ops|] == ops;
  }

  lemma {:induction false} StaysKeyed(order: set<string> -> seq<string>, m: MemView, op: Op, id: EnclaveId)
    requires Visits(order) && (id in m.enclaves ==> m.enclaves[id].desired.id == id)
    ensures var after := MemStep(order, m, op).0.enclaves; id in after ==> after[id].desired.id == id
  {
    hide WantedEvents, NewestFirst, RunsFor, ValuesOf, Releases;
  }

  lemma {:induction false} EnclavesStep(order: set<string> -> seq<string>, m: MemView, ops: seq<Op>, op: Op)
    requires Visits(order) && RecountsEnclaves(m, ops)
    ensures RecountsEnclaves(MemStep(order, m, op).0, ops + [op])
  {
    hide MemStep, EnclaveIn;
    forall id ensures EnclaveIn(ops + [op], id) == At(MemStep(order, m, op).0.enclaves, id) {
      EnclaveStep(order, m, ops, op, id);
    }
    forall id | id in MemStep(order, m, op).0.enclaves ensures MemStep(order, m, op).0.enclaves[id].desired.id == id {
      StaysKeyed(order, m, op, id);
    }
  }

  lemma {:induction false} KeyStep(order: set<string> -> seq<string>, m: MemView, ops: seq<Op>, op: Op, key: string)
    requires Visits(order) && TfStateIn(ops, key) == At(m.tfState, key) && HolderIn(ops, key) == At(m.tfLocks, key)
    ensures TfStateIn(ops + [op], key) == At(MemStep(order, m, op).0.tfState, key)
    ensures HolderIn(ops + [op], key) == At(MemStep(order, m, op).0.tfLocks, key)
  {
    hide EnclaveIn, RunIn, EventsIn;
    assert (ops + [op])[..|ops|] == ops;
  }

  lemma {:induction false} TerraformStep(order: set<string> -> seq<string>, m: MemView, ops: seq<Op>, op: Op)
    requires Visits(order) && RecountsTerraform(m, ops)
    ensures RecountsTerraform(MemStep(order, m, op).0, ops + [op])
  {
    hide MemStep, TfStateIn, HolderIn;
    var m1 := MemStep(order, m, op).0;
    forall key
      ensures TfStateIn(ops + [op], key) == At(m1.tfState, key) && HolderIn(ops + [op], key) == At(m1.tfLocks, key)
    {
      KeyStep(order, m, ops, op, key);
    }
  }

  lemma {:induction false} WantedSnoc(events: seq<AuditEvent>, ev: AuditEvent, filter: Option<EnclaveId>)
    ensures WantedEvents(events + [ev], filter)
            == WantedEvents(events, filter) + if filter.None? || About(ev, filter.value) then [ev] else []
  {
    assert (events + [ev])[..|events|] == events;
  }

  lemma {:induction false} RunStep(order: set<string> -> seq<string>, m: MemView, ops: seq<Op>, op: Op, id: string)
    requires Visits(order) && RunIn(ops, id) == At(m.runs, id)
    ensures RunIn(ops + [op], id) == At(MemStep(order, m, op).0.runs, id)
  {
    hide EnclaveIn, TfStateIn, HolderIn, EventsIn;
    assert (ops + [op])[..|ops|] == ops;
  }

  lemma {:induction false} EventStep(order: set<string> -> seq<string>, m: MemView, ops: seq<Op>, op: Op,
                                     filter: Option<EnclaveId>)
    requires Visits(order) && WantedEvents(m.events, filter) == EventsIn(ops, filter)
    ensures WantedEvents(MemStep(order, m, op).0.events, filter) == EventsIn(ops + [op], filter)
  {
    hide EnclaveIn, TfStateIn, HolderIn, RunIn, WantedEvents, About;
    assert (ops + [op])[..|ops|] == ops;
    if op.AppendEvent? {
      WantedSnoc(m.events, op.event, filter);
    }
  }

  lemma {:induction false} LogsStep(order: set<string> -> seq<string>, m: MemView, ops: seq<Op>, op: Op)
    requires Visits(order) && RecountsLogs(m, ops)
    ensures RecountsLogs(MemStep(order, m, op).0, ops + [op])
  {
    hide MemStep, RunIn, EventsIn, WantedEvents;
    forall id ensures RunIn(ops + [op], id) == At(MemStep(order, m, op).0.runs, id) {
      RunStep(order, m, ops, op, id);
    }
    forall filter ensures WantedEvents(MemStep(order, m, op).0.events, filter) == EventsIn(ops + [op], filter) {
      EventStep(order, m, ops, op, filter);
    }
  }

  lemma {:induction false} RecountsStep(order: set<string> -> seq<string>, m: MemView, ops: seq<Op>, op: Op)
    requires Visits(order) && Recounts(m, ops)
    ensures Recounts(MemStep(order, m, op).0, ops + [op])
  {
    hide MemStep, RecountsEnclaves, RecountsTerraform, RecountsLogs;
    EnclavesStep(order, m, ops, op);
    TerraformStep(order, m, ops, op);
    LogsStep(order, m, ops, op);
  }

  lemma {:induction false} MemRunSnoc(order: set<string> -> seq<string>, m: MemView, ops: seq<Op>, op: Op)
    requires Visits(order)
    ensures MemRun(order, m, ops + [op]).0 == MemStep(order, MemRun(order, m, ops).0, op).0
    decreases |ops|
  {
    hide MemStep;
    if ops == [] {
      assert [] + [op] == [op];
    } else {
      assert (ops + [op])[1..] == ops[1..] + [op];
      MemRunSnoc(order, MemStep(order, m, ops[0]).0, ops[1..], op);
    }
  }

  lemma {:induction false} MemRunRecounts(order: set<string> -> seq<string>, ops: seq<Op>)
    requires Visits(order)
    ensures Recounts(MemRun(order, EMPTY_VIEW, ops).0, ops)
    decreases |ops|
  {
    hide MemStep, Recounts;
    if ops == [] {
      NothingRecounted();
    } else {
      var n := |ops| - 1;
      MemRunRecounts(order, ops[..n]);
      MemRunSnoc(order, EMPTY_VIEW, ops[..n], ops[n]);
      RecountsStep(order, MemRun(order, EMPTY_VIEW, ops[..n]).0, ops[..n], ops[n]);
      assert ops == ops[..n] + [ops[n]];
    }
  }

  lemma {:induction false} NothingRecounted()
    ensures Recounts(EMPTY_VIEW, [])
  {
  }

  /** After any calls on a fresh in-memory store, the next answer is the one read off the calls. */
  lemma {:induction false} MemoryAnswers(order: set<string> -> seq<string>, ops: seq<Op>, op: Op)
    requires Visits(order) && !op.ListEnclaves? && !op.ListRuns?
    ensures MemStep(order, MemRun(order, EMPTY_VIEW, ops).0, op).1 == AnswerAfter(ops, op)
  {
    hide MemRun, EnclaveIn, TfStateIn, HolderIn, RunIn, EventsIn, WantedEvents;
    MemRunRecounts(order, ops);
  }

  /** The same of the persistent store. */
  lemma {:induction false} RedbAnswers(order: set<string> -> seq<string>, f: Format, ops: seq<Op>, op: Op)
    requires Visits(order) && Faithful(f) && !op.ListEnclaves? && !op.ListRuns?
    ensures RedbStep(f, RedbRun(f, EMPTY_TABLES, ops).0, op).1 == AnswerAfter(ops, op)
  {
    hide MemStep, RedbStep, Related, MemRun, RedbRun;
    MemoryAnswers(order, ops, op);
    RedbRefinesMemory(order, f, ops);
    StepAgrees(order, f, MemRun(order, EMPTY_VIEW, ops).0, RedbRun(f, EMPTY_TABLES, ops).0, op);
  }

  // ----- the two listings of records -----

  /** A listing of enclaves has each enclave that is there, once, as it was last written. */
  lemma {:induction false} EnclavesListed(order: set<string> -> seq<string>, ops: seq<Op>)
    requires Visits(order)
    ensures var r := MemStep(order, MemRun(order, EMPTY_VIEW, ops).0, ListEnclaves).1;
            && r.Enclaves? && Distinct(r.enclaves)
            && forall es: EnclaveState :: es in r.enclaves <==> EnclaveIn(ops, es.desired.id) == Some(es)
  {
    hide MemRun, EnclaveIn;
    MemRunRecounts(order, ops);
    var m := MemRun(order, EMPTY_VIEW, ops).0;
    var keys := order(m.enclaves.Keys);
    assert Lists(keys, m.enclaves.Keys);
    forall i | 0 <= i < |keys| ensures keys[i] in m.enclaves {
      assert keys[i] in keys;
    }
    var all := ValuesOf(m.enclaves, keys);
    forall i, j | 0 <= i < j < |all| ensures all[i] != all[j] {
      assert all[i].desired.id == keys[i] && all[j].desired.id == keys[j];
    }
    forall es | es in m.enclaves.Values ensures es in all {
      assert es.desired.id in keys;
      var i :| 0 <= i < |keys| && keys[i] == es.desired.id;
      assert all[i] == es;
    }
  }

  /** A listing of runs has the newest hundred of the partition's runs, each once, as last written, newest first. */
  lemma {:induction false} RunsListedNewest(order: set<string> -> seq<string>, ops: seq<Op>, id: EnclaveId,
                                            pid: PartitionId)
    requires Visits(order)
    ensures var a := MemStep(order, MemRun(order, EMPTY_VIEW, ops).0, ListRuns(id, pid)).1;
            && a.Runs? && Distinct(a.runs) && |a.runs| <= 100
            && (forall r :: r in a.runs ==>
                  RunIn(ops, r.id) == Some(r) && r.enclaveId == id && r.partitionId == pid)
            && (forall i, j :: 0 <= i < j < |a.runs| ==> a.runs[i].startedAt >= a.runs[j].startedAt)
            && (forall r: IacRun ::
                  RunIn(ops, r.id) == Some(r) && r.enclaveId == id && r.partitionId == pid && r !in a.runs ==>
                  |a.runs| == 100 && forall i :: 0 <= i < 100 ==> a.runs[i].startedAt >= r.startedAt)
  {
    hide MemRun, MemStep, RunIn;
    MemRunRecounts(order, ops);
    var m := MemRun(order, EMPTY_VIEW, ops).0;
    RunsKeyed(order, ops);
    var log := FilterIsRunLog(order, m, id, pid);
    var cut := FirstOnes(log, MAX_RUNS);
    forall r: IacRun | RunIn(ops, r.id) == Some(r) && Matches(r, id, pid) && r !in cut
      ensures |cut| == 100 && forall i :: 0 <= i < 100 ==> cut[i].startedAt >= r.startedAt
    {
      assert r in m.runs.Values;
      var k :| 0 <= k < |log| && log[k] == r;
    }
    forall r | r in cut ensures RunIn(ops, r.id) == Some(r) && Matches(r, id, pid) {
      assert r in log;
    }
  }

  lemma {:induction false} RunsKeyed(order: set<string> -> seq<string>, ops: seq<Op>)
    requires Visits(order)
    ensures var m := MemRun(order, EMPTY_VIEW, ops).0; forall k :: k in m.runs ==> m.runs[k].id == k
  {
    hide MemRun;
    MemRunRecounts(order, ops);
    var m := MemRun(order, EMPTY_VIEW, ops).0;
    forall k | k in m.runs ensures m.runs[k].id == k {
      RunInNamed(ops, k);
    }
  }

  lemma {:induction false} RunInNamed(ops: seq<Op>, id: string)
    ensures RunIn(ops, id).Some? ==> RunIn(ops, id).value.id == id
    decreases |ops|
  {
    if ops != [] {
      RunInNamed(ops[..|ops| - 1], id);
    }
  }

  // ----- records that cannot be read -----

  ghost predicate Unreadable<K, T>(dec: Bytes -> Option<T>, table: map<K, Bytes>, k: K) {
    k in table && dec(table[k]).None?
  }

  lemma {:induction false} DecodeAllFails<K(!new), T>(dec: Bytes -> Option<T>, table: map<K, Bytes>, keys: seq<K>)
    requires forall i :: 0 <= i < |keys| ==> keys[i] in table
    ensures DecodeAll(dec, table, keys).None? <==> exists k :: k in keys && Unreadable(dec, table, k)
    decreases |keys|
  {
    if keys != [] {
      var n := |keys| - 1;
      DecodeAllFails(dec, table, keys[..n]);
      assert keys[n] in keys && forall k :: k in keys <==> k in keys[..n] || k == keys[n];
    }
  }

  lemma {:induction false} FetchFails(f: Format, table: map<string, Bytes>, ids: seq<string>)
    ensures FetchRuns(f, table, ids).None? <==> exists id :: id in ids && Unreadable(f.run.dec, table, id)
    decreases |ids|
  {
    if ids != [] {
      var n := |ids| - 1;
      FetchFails(f, table, ids[..n]);
      assert ids[n] in ids && forall id :: id in ids <==> id in ids[..n] || id == ids[n];
    }
  }

  /** The ids a listing of runs looks up: the last hundred of the keys that start with the prefix, backwards. */
  function LookedUp(t: Tables, id: EnclaveId, pid: PartitionId): seq<string> {
    var ids := Reverse(ValuesOf(t.runsByPart, ScannedKeys(t.runsByPart, PartPrefix(id, pid))));
    if |ids| <= 100 then ids else ids[..100]
  }

  /** The record a call has to read cannot be parsed. */
  ghost predicate Fails(f: Format, t: Tables, op: Op) {
    match op
    case GetEnclave(id) => Unreadable(f.enclave.dec, t.enclaves, id)
    case UpsertPartition(id, _) => Unreadable(f.enclave.dec, t.enclaves, id)
    case DeletePartition(id, _) => Unreadable(f.enclave.dec, t.enclaves, id)
    case ListEnclaves => exists id :: Unreadable(f.enclave.dec, t.enclaves, id)
    case ListEvents(_, _) => exists n :: Unreadable(f.event.dec, t.events, n)
    case LockTfState(key, _) => Unreadable(f.lock.dec, t.tfLocks, key)
    case UnlockTfState(key, _) => Unreadable(f.lock.dec, t.tfLocks, key)
    case GetRun(id) => Unreadable(f.run.dec, t.runs, id)
    case ListRuns(id, pid) => exists k :: k in LookedUp(t, id, pid) && Unreadable(f.run.dec, t.runs, k)
    case _ => false
  }

  lemma {:induction false} ListingFails(f: Format, t: Tables, op: Op)
    requires op.ListEnclaves? || op.ListEvents? || op.ListRuns?
    ensures RedbStep(f, t, op).1.Refused? <==> Fails(f, t, op)
    ensures RedbStep(f, t, op).1.Refused? ==> RedbStep(f, t, op) == (t, Refused(Serialization))
  {
    hide DecodeAll, FetchRuns, WantedEvents, ScannedKeys;
    match op
    case ListEnclaves => DecodeAllFails(f.enclave.dec, t.enclaves, SortedKeys(t.enclaves.Keys));
    case ListEvents(_, _) => DecodeAllFails(f.event.dec, t.events, AscendingKeys(t.events.Keys));
    case ListRuns(id, pid) => FetchFails(f, t.runs, LookedUp(t, id, pid));
  }

  /** A call fails over a record that cannot be parsed exactly when it has to read one, and then changes nothing. */
  lemma {:induction false} FailsIffUnreadable(f: Format, t: Tables, op: Op)
    ensures RedbStep(f, t, op).1 == Refused(Serialization) <==> Fails(f, t, op)
    ensures RedbStep(f, t, op).1.Refused? ==> RedbStep(f, t, op).0 == t
  {
    if op.ListEnclaves? || op.ListEvents? || op.ListRuns? {
      hide RedbStep, Fails;
      ListingFails(f, t, op);
    }
  }
}
