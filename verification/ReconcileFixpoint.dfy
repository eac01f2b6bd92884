/**
 What an apply achieves: the plan is empty exactly on a converged store, an error-free
 apply converges, and the plan predicts which partitions an apply attempts.
 */
module ReconcileFixpoint {
  import opened Prelude
  import opened Json
  import opened Domain
  import opened State
  import opened Reconcile
  import opened ReconcileProtocol

  // ----- converged stores -----

  ghost predicate PartsApplied(cfg: Config, es: EnclaveState, parts: seq<Partition>) {
    forall p :: p in parts ==> HashMatches(cfg, p, es.partitions)
  }

  ghost predicate ExportsWired(es: EnclaveState, exports: seq<Export>) {
    forall x :: x in exports ==> x.name in es.exportHandles
  }

  ghost predicate ImportsWired(es: EnclaveState, imports: seq<Import>) {
    forall i :: i in imports ==> i.alias in es.importHandles
  }

  ghost predicate Applied(cfg: Config, store: Store, enc: Enclave) {
    && enc.id in store
    && store[enc.id].meta.desiredHash == Some(cfg.hashEnclave(enc))
    && PartsApplied(cfg, store[enc.id], enc.partitions)
    && ExportsWired(store[enc.id], enc.exports)
  }

  ghost predicate Wired(store: Store, enc: Enclave) {
    enc.id in store && ImportsWired(store[enc.id], AllImports(enc))
  }

  ghost predicate Converged(cfg: Config, store: Store, ordered: seq<Enclave>) {
    && store.Keys == IdSet(ordered)
    && forall e :: e in ordered ==> Applied(cfg, store, e) && Wired(store, e)
  }

  lemma {:induction false} PartitionDiffsEmpty(cfg: Config, snap: Store, enc: Enclave, parts: seq<Partition>)
    ensures PartitionDiffs(cfg, snap, enc, parts) == [] <==>
            forall p :: p in parts ==> HashMatches(cfg, p, PartitionsOf(snap, enc.id))
  {
    if parts != [] {
      PartitionDiffsEmpty(cfg, snap, enc, parts[1..]);
      assert PartitionDiff(cfg, snap, enc, parts[0]) == [] <==> HashMatches(cfg, parts[0], PartitionsOf(snap, enc.id));
      assert parts == [parts[0]] + parts[1..];
    }
  }

  lemma {:induction false} ExportDiffsEmpty(snap: Store, enc: Enclave, exports: seq<Export>)
    requires enc.id in snap
    ensures ExportDiffs(snap, enc, exports) == [] <==> ExportsWired(snap[enc.id], exports)
  {
    if exports != [] {
      ExportDiffsEmpty(snap, enc, exports[1..]);
      assert exports == [exports[0]] + exports[1..];
    }
  }

  lemma {:induction false} ImportDiffsEmpty(snap: Store, enc: Enclave, imports: seq<Import>)
    requires enc.id in snap
    ensures ImportDiffs(snap, enc, imports) == [] <==> ImportsWired(snap[enc.id], imports)
  {
    if imports != [] {
      ImportDiffsEmpty(snap, enc, imports[1..]);
      assert imports == [imports[0]] + imports[1..];
    }
  }

  lemma {:induction false} OwnDiffsEmpty(cfg: Config, snap: Store, enc: Enclave)
    ensures OwnDiffs(cfg, snap, enc) == [] <==> Applied(cfg, snap, enc)
  {
    PartitionDiffsEmpty(cfg, snap, enc, enc.partitions);
    if enc.id in snap {
      ExportDiffsEmpty(snap, enc, enc.exports);
    }
  }

  lemma {:induction false} AllOwnDiffsEmpty(cfg: Config, snap: Store, ordered: seq<Enclave>)
    ensures AllOwnDiffs(cfg, snap, ordered) == [] <==> forall e :: e in ordered ==> Applied(cfg, snap, e)
  {
    if ordered != [] {
      OwnDiffsEmpty(cfg, snap, ordered[0]);
      AllOwnDiffsEmpty(cfg, snap, ordered[1..]);
      assert ordered == [ordered[0]] + ordered[1..];
    }
  }

  lemma {:induction false} AllImportDiffsEmpty(snap: Store, ordered: seq<Enclave>)
    requires forall e :: e in ordered ==> e.id in snap
    ensures AllImportDiffs(snap, ordered) == [] <==> forall e :: e in ordered ==> Wired(snap, e)
  {
    if ordered != [] {
      ImportDiffsEmpty(snap, ordered[0], AllImports(ordered[0]));
      AllImportDiffsEmpty(snap, ordered[1..]);
      assert ordered == [ordered[0]] + ordered[1..];
    }
  }

  lemma {:induction false} AppliedStored(cfg: Config, snap: Store, ordered: seq<Enclave>)
    requires forall e :: e in ordered ==> Applied(cfg, snap, e)
    ensures IdSet(ordered) <= snap.Keys && forall e :: e in ordered ==> e.id in snap
  {
  }

  /** A dry run reports nothing exactly when the store has converged to the configuration. */
  lemma {:induction false} PlanEmptyIffConverged(cfg: Config, snap: Store, ordered: seq<Enclave>)
    requires Enumerates(cfg)
    ensures Plan(cfg, snap, ordered) == [] <==> Converged(cfg, snap, ordered)
  {
    hide Applied, Wired;
    var gone := snap.Keys - IdSet(ordered);
    var ids := Removed(cfg, snap, ordered);
    assert Lists(ids, gone);
    assert ids == [] <==> gone == {} by {
      ListsCount(ids, gone);
    }
    AllOwnDiffsEmpty(cfg, snap, ordered);
    if forall e :: e in ordered ==> Applied(cfg, snap, e) {
      AppliedStored(cfg, snap, ordered);
      AllImportDiffsEmpty(snap, ordered);
      SubsetIsAll(snap.Keys, IdSet(ordered));
    }
  }

  lemma {:induction false} SubsetIsAll<T(!new)>(all: set<T>, some: set<T>)
    requires some <= all
    ensures all - some == {} <==> all == some
  {
    forall x | all - some == {} && x in all ensures x in some {
      assert x !in all - some;
    }
  }

  // ----- progress: traces and error lists only grow -----

  ghost predicate Progress(r: Run, r': Run) {
    r.trace <= r'.trace && r.errors <= r'.errors
  }

  /** Nothing but the record of `id` has changed. */
  ghost predicate OnlyRecord(store: Store, store': Store, id: EnclaveId) {
    && (forall j :: j != id ==> (j in store' <==> j in store))
    && (forall j :: j != id && j in store ==> store'[j] == store[j])
  }

  ghost predicate AttemptIn(trace: seq<Step>, enc: Enclave, part: Partition) {
    exists s :: s in trace && s.Called? && s.call.ProvisionPartition? && s.call.enc == enc && s.call.part == part
  }

  ghost predicate RefusedIn(trace: seq<Step>, enc: Enclave) {
    exists s :: s in trace && s.Called? && s.call.ProvisionEnclave? && s.call.enc == enc && s.reply.Failed?
  }

  lemma {:induction false} LongerTrace(a: seq<Step>, b: seq<Step>)
    requires a <= b
    ensures forall s :: s in a ==> s in b
  {
  }

  lemma {:induction false} LastOf(trace: seq<Step>, s: Step)
    ensures s in trace + [s] && trace <= trace + [s]
  {
    assert (trace + [s])[|trace|] == s;
  }

  // ----- partitions -----

  /** What an error-free apply leaves of a partition's record. */
  ghost predicate PartitionOutcome(cfg: Config, before: map<PartitionId, PartitionState>,
                                   after: map<PartitionId, PartitionState>, part: Partition) {
    && part.id in after
    && if HashMatches(cfg, part, before) then after[part.id] == before[part.id]
       else after[part.id].meta.status == Active && after[part.id].desired == part && HashMatches(cfg, part, after)
  }

  lemma {:induction false} LogProgress(r: Run, r1: Run, step: Step)
    requires Progress(r, r1)
    ensures Progress(r, Log(r1, step))
  {
  }

  lemma {:induction false} ComplainProgress(r: Run, r1: Run, msg: string)
    requires Progress(r, r1)
    ensures Progress(r, Complain(r1, msg)) && Complain(r1, msg).errors != []
  {
  }

  /** Both halves of a partition's run, up to the reply that decides it. */
  lemma {:induction false} RunPartitionEffect(cfg: Config, r: Run, enc: Enclave, es: EnclaveState, part: Partition)
    requires es.desired == enc
    ensures var (r', es') := RunPartition(cfg, r, enc, es, part);
            && Progress(r, r') && OnlyRecord(r.store, r'.store, enc.id)
            && es'.(partitions := es.partitions) == es
            && (r'.errors == [] ==> PartitionOutcome(cfg, es.partitions, es'.partitions, part))
            && (HashMatches(cfg, part, es.partitions) || AttemptIn(r'.trace, enc, part))
  {
    if !HashMatches(cfg, part, es.partitions) {
      var inputs := Template.ResolveInputs(part.inputs, es.importHandles, ContextOf(cfg, enc, es.handle));
      var ps := Announced(es, part);
      var es1 := WithPartition(es, part.id, ps);
      var r0 := Log(r, Upserted(es1));
      var call := ProvisionPartition(enc, part, inputs, ps.handle);
      var (r1, sa) := Ask(cfg, r0, call);
      LogProgress(r, r, Upserted(es1));
      LogProgress(r, r0, Called(call, sa));
      LastOf(r0.trace, Called(call, sa));
      assert AttemptIn(r1.trace, enc, part);
      FinishEffect(cfg, r1, enc, es1, part, ps, inputs, sa);
      LongerTrace(r1.trace, RunPartition(cfg, r, enc, es, part).0.trace);
    }
  }

  lemma {:induction false} FailedEffect(cfg: Config, r: Run, enc: Enclave, es: EnclaveState, part: Partition,
                                        ps: PartitionState, msg: string)
    ensures var (r', es') := PartitionFailed(cfg, r, enc, es, part, ps, msg);
            Progress(r, r') && r'.errors != [] && r'.store == r.store && es'.(partitions := es.partitions) == es
  {
    var ev := PartitionError(cfg.freshId(r.trace), cfg.clock(r.trace), enc.id, part.id, msg);
    LogProgress(r, r, Logged(ev));
    ComplainProgress(r, Log(r, Logged(ev)), "partition " + enc.id + "/" + part.id + ": " + msg);
  }

  lemma {:induction false} FinishEffect(cfg: Config, r: Run, enc: Enclave, es: EnclaveState, part: Partition,
                                        ps: PartitionState, inputs: map<string, string>, sa: Reply)
    requires es.desired == enc && ps.desired == part
    ensures var (r', es') := FinishPartition(cfg, r, enc, es, part, ps, inputs, sa);
            && Progress(r, r') && OnlyRecord(r.store, r'.store, enc.id)
            && es'.(partitions := es.partitions) == es
            && (r'.errors == [] ==> part.id in es'.partitions && es'.partitions[part.id].meta.status == Active &&
                                    es'.partitions[part.id].desired == part && HashMatches(cfg, part, es'.partitions))
  {
    if sa.Failed? {
      FailedEffect(cfg, r, enc, es, part, ps, sa.msg);
    } else {
      var ps1 := ps.(handle := Some(sa.handle));
      var es1 := WithPartition(es, part.id, ps1);
      var r1 := UpsertBestEffort(cfg, r, es1);
      LogProgress(r, r, r1.trace[|r.trace|]);
      var (r2, tf) := Ask(cfg, r1, RunTerraform(enc, part, inputs, TerraformEnv(cfg, enc, es.handle, sa.handle)));
      LogProgress(r, r1, Called(RunTerraform(enc, part, inputs, TerraformEnv(cfg, enc, es.handle, sa.handle)), tf));
      if tf.Failed? {
        FailedEffect(cfg, r2, enc, es1, part, ps1, tf.msg);
      } else {
        LogProgress(r, r2, Logged(PartitionProvisioned(cfg.freshId(r2.trace), cfg.clock(r2.trace), enc.id, part.id)));
      }
    }
  }

  /** Partitions outside the list keep their records. */
  ghost predicate OthersKept(es: EnclaveState, es': EnclaveState, parts: seq<Partition>) {
    forall pid :: (forall p :: p in parts ==> p.id != pid) ==>
      && (pid in es'.partitions <==> pid in es.partitions)
      && (pid in es.partitions ==> es'.partitions[pid] == es.partitions[pid])
  }

  lemma {:induction false} RunPartitionsProgress(cfg: Config, r: Run, enc: Enclave, es: EnclaveState,
                                                 parts: seq<Partition>)
    requires es.desired == enc
    ensures var (r', es') := RunPartitions(cfg, r, enc, es, parts);
            && Progress(r, r') && OnlyRecord(r.store, r'.store, enc.id)
            && es'.(partitions := es.partitions) == es
    decreases |parts|
  {
    if parts != [] {
      RunPartitionEffect(cfg, r, enc, es, parts[0]);
      var (r1, es1) := RunPartition(cfg, r, enc, es, parts[0]);
      RunPartitionsProgress(cfg, r1, enc, es1, parts[1..]);
    }
  }

  lemma {:induction false} RunPartitionsElsewhere(cfg: Config, r: Run, enc: Enclave, es: EnclaveState,
                                                  parts: seq<Partition>)
    ensures OthersKept(es, RunPartitions(cfg, r, enc, es, parts).1, parts)
    decreases |parts|
  {
    hide RunPartition;
    if parts != [] {
      var (r1, es1) := RunPartition(cfg, r, enc, es, parts[0]);
      RunPartitionElsewhere(cfg, r, enc, es, parts[0]);
      RunPartitionsElsewhere(cfg, r1, enc, es1, parts[1..]);
      assert parts == [parts[0]] + parts[1..];
    }
  }

  lemma {:induction false} RunPartitionsEffect(cfg: Config, r: Run, enc: Enclave, es: EnclaveState,
                                               parts: seq<Partition>, p: Partition)
    requires es.desired == enc && DistinctPartitionIds(parts) && p in parts
    ensures var (r', es') := RunPartitions(cfg, r, enc, es, parts);
            && (r'.errors == [] ==> PartitionOutcome(cfg, es.partitions, es'.partitions, p))
            && (HashMatches(cfg, p, es.partitions) || AttemptIn(r'.trace, enc, p))
    decreases |parts|
  {
    hide RunPartition, AttemptIn;
    var part, rest := parts[0], parts[1..];
    RunPartitionEffect(cfg, r, enc, es, part);
    RunPartitionElsewhere(cfg, r, enc, es, part);
    var (r1, es1) := RunPartition(cfg, r, enc, es, part);
    RunPartitionsProgress(cfg, r1, enc, es1, rest);
    var (r', es') := RunPartitions(cfg, r, enc, es, parts);
    OthersDiffer(parts);
    if p == part {
      RunPartitionsElsewhere(cfg, r1, enc, es1, rest);
      AttemptLater(r1.trace, r'.trace, enc, p);
    } else {
      assert parts == [part] + rest;
      RunPartitionsEffect(cfg, r1, enc, es1, rest, p);
    }
  }

  lemma {:induction false} AttemptLater(a: seq<Step>, b: seq<Step>, enc: Enclave, part: Partition)
    requires a <= b
    ensures AttemptIn(a, enc, part) ==> AttemptIn(b, enc, part)
  {
    LongerTrace(a, b);
  }

  lemma {:induction false} OthersDiffer(parts: seq<Partition>)
    requires parts != [] && DistinctPartitionIds(parts)
    ensures forall p :: p in parts[1..] ==> p.id != parts[0].id
  {
    forall p | p in parts[1..] ensures p.id != parts[0].id {
      var j :| 0 <= j < |parts[1..]| && parts[1..][j] == p;
      assert parts[j + 1] == p && parts[0].id != parts[j + 1].id;
    }
  }

  // ----- exports -----

  lemma {:induction false} RunExportsEffect(cfg: Config, r: Run, enc: Enclave, es: EnclaveState, exports: seq<Export>)
    ensures var (r', es') := RunExports(cfg, r, enc, es, exports);
            && Progress(r, r') && r'.store == r.store
            && es'.(exportHandles := es.exportHandles) == es
            && es.exportHandles.Keys <= es'.exportHandles.Keys
            && (r'.errors == [] ==> ExportsWired(es', exports))
    decreases |exports|
  {
    if exports != [] {
      var (r1, es1) := RunExport(cfg, r, enc, es, exports[0]);
      RunExportsEffect(cfg, r1, enc, es1, exports[1..]);
      assert exports == [exports[0]] + exports[1..];
    }
  }

  // ----- enclaves -----

  /** What an error-free apply leaves of an enclave's record. */
  ghost predicate EnclaveOutcome(cfg: Config, snap: Store, store: Store, enc: Enclave) {
    && enc.id in store
    && store[enc.id].meta.status == Active && store[enc.id].meta.desiredHash == Some(cfg.hashEnclave(enc))
    && ExportsWired(store[enc.id], enc.exports)
    && forall p :: p in enc.partitions
        ==> PartitionOutcome(cfg, PartitionsOf(snap, enc.id), store[enc.id].partitions, p)
  }

  lemma {:induction false} OutcomeMeansApplied(cfg: Config, snap: Store, store: Store, enc: Enclave)
    requires EnclaveOutcome(cfg, snap, store, enc)
    ensures Applied(cfg, store, enc)
  {
    forall p | p in enc.partitions ensures HashMatches(cfg, p, store[enc.id].partitions) {
      assert PartitionOutcome(cfg, PartitionsOf(snap, enc.id), store[enc.id].partitions, p);
    }
  }

  /** Every partition the plan lists has been attempted, unless the enclave could not be reached. */
  ghost predicate PlanCarriedOut(cfg: Config, snap: Store, trace: seq<Step>, enc: Enclave) {
    || !HasDriver(cfg, enc)
    || RefusedIn(trace, enc)
    || forall p :: p in enc.partitions ==> HashMatches(cfg, p, PartitionsOf(snap, enc.id)) || AttemptIn(trace, enc, p)
  }

  lemma {:induction false} CarriedOutLater(cfg: Config, snap: Store, a: seq<Step>, b: seq<Step>, enc: Enclave)
    requires PlanCarriedOut(cfg, snap, a, enc) && a <= b
    ensures PlanCarriedOut(cfg, snap, b, enc)
  {
    LongerTrace(a, b);
    forall p | p in enc.partitions && AttemptIn(a, enc, p) ensures AttemptIn(b, enc, p) {
    }
  }

  ghost predicate EnclaveEffect(cfg: Config, snap: Store, r: Run, r': Run, enc: Enclave) {
    && Progress(r, r') && OnlyRecord(r.store, r'.store, enc.id)
    && r'.store.Keys == (if HasDriver(cfg, enc) then r.store.Keys + {enc.id} else r.store.Keys)
    && (r'.errors == [] ==> HasDriver(cfg, enc) && EnclaveOutcome(cfg, snap, r'.store, enc))
    && PlanCarriedOut(cfg, snap, r'.trace, enc)
  }

  lemma {:induction false} RunEnclaveEffect(cfg: Config, snap: Store, r: Run, enc: Enclave)
    requires DistinctPartitionIds(enc.partitions)
    ensures EnclaveEffect(cfg, snap, r, RunEnclave(cfg, snap, r, enc), enc)
  {
    if HasDriver(cfg, enc) {
      var es0 := BeginEnclave(cfg, snap, enc);
      var r0 := Log(r, Upserted(es0));
      var call := ProvisionEnclave(enc, HandleIn(snap, enc.id));
      var (r1, reply) := Ask(cfg, r0, call);
      LogProgress(r, r, Upserted(es0));
      LogProgress(r, r0, Called(call, reply));
      LastOf(r0.trace, Called(call, reply));
      match reply
      case Failed(msg) =>
        RefusedEffect(cfg, snap, r, r1, enc, es0.(meta := MarkError(es0.meta, cfg.clock(r1.trace), msg)), msg);
      case Done(handle, _) =>
        var es1 := es0.(handle := Some(handle),
                        meta := MarkActive(es0.meta, cfg.clock(r1.trace), cfg.hashEnclave(enc)));
        AcceptedEffect(cfg, snap, r, r1, enc, es1);
    }
  }

  lemma {:induction false} RefusedEffect(cfg: Config, snap: Store, r: Run, r1: Run, enc: Enclave, bad: EnclaveState,
                                         msg: string)
    requires Progress(r, r1) && OnlyRecord(r.store, r1.store, enc.id) && bad.desired == enc && HasDriver(cfg, enc)
    requires RefusedIn(r1.trace, enc)
    ensures var r2 := Log(r1, Upserted(bad));
            var r3 := Log(r2, Logged(EnclaveError(cfg.freshId(r2.trace), cfg.clock(r2.trace), enc.id, msg)));
            EnclaveEffect(cfg, snap, r, Complain(r3, "enclave " + enc.id + ": " + msg), enc)
  {
    var r2 := Log(r1, Upserted(bad));
    var ev := EnclaveError(cfg.freshId(r2.trace), cfg.clock(r2.trace), enc.id, msg);
    LogProgress(r, r1, Upserted(bad));
    LogProgress(r, r2, Logged(ev));
    var r3 := Log(r2, Logged(ev));
    ComplainProgress(r, r3, "enclave " + enc.id + ": " + msg);
    assert r1.trace <= r3.trace;
    LongerTrace(r1.trace, r3.trace);
  }

  lemma {:induction false} AcceptedEffect(cfg: Config, snap: Store, r: Run, r1: Run, enc: Enclave, es1: EnclaveState)
    requires Progress(r, r1) && OnlyRecord(r.store, r1.store, enc.id) && es1.desired == enc && HasDriver(cfg, enc)
    requires DistinctPartitionIds(enc.partitions) && es1.partitions == PartitionsOf(snap, enc.id)
    requires es1.meta.status == Active && es1.meta.desiredHash == Some(cfg.hashEnclave(enc))
    ensures var (r2, es2) := RunPartitions(cfg, r1, enc, es1, enc.partitions);
            var (r3, es3) := RunExports(cfg, r2, enc, es2, enc.exports);
            var r4 := Log(r3, Logged(EnclaveProvisioned(cfg.freshId(r3.trace), cfg.clock(r3.trace), enc.id)));
            EnclaveEffect(cfg, snap, r, Log(r4, Upserted(es3)), enc)
  {
    RunPartitionsProgress(cfg, r1, enc, es1, enc.partitions);
    var (r2, es2) := RunPartitions(cfg, r1, enc, es1, enc.partitions);
    RunExportsEffect(cfg, r2, enc, es2, enc.exports);
    var (r3, es3) := RunExports(cfg, r2, enc, es2, enc.exports);
    var ev := EnclaveProvisioned(cfg.freshId(r3.trace), cfg.clock(r3.trace), enc.id);
    var r5 := Log(Log(r3, Logged(ev)), Upserted(es3));
    assert Progress(r2, r5);
    forall p | p in enc.partitions
      ensures r5.errors == [] ==> PartitionOutcome(cfg, es1.partitions, es3.partitions, p)
      ensures HashMatches(cfg, p, es1.partitions) || AttemptIn(r5.trace, enc, p)
    {
      RunPartitionsEffect(cfg, r1, enc, es1, enc.partitions, p);
      LongerTrace(r2.trace, r5.trace);
    }
  }

  lemma {:induction false} RunEnclavesProgress(cfg: Config, snap: Store, r: Run, ordered: seq<Enclave>)
    requires forall e :: e in ordered ==> DistinctPartitionIds(e.partitions)
    ensures var r' := RunEnclaves(cfg, snap, r, ordered);
            && Progress(r, r')
            && (forall id :: id !in IdSet(ordered) ==> (id in r'.store <==> id in r.store))
            && (forall id :: id !in IdSet(ordered) && id in r.store ==> r'.store[id] == r.store[id])
    decreases |ordered|
  {
    hide RunEnclave;
    if ordered != [] {
      RunEnclaveEffect(cfg, snap, r, ordered[0]);
      RunEnclavesProgress(cfg, snap, RunEnclave(cfg, snap, r, ordered[0]), ordered[1..]);
      assert ordered == [ordered[0]] + ordered[1..];
      assert IdSet(ordered) == {ordered[0].id} + IdSet(ordered[1..]);
    }
  }

  lemma {:induction false} TailIds(ordered: seq<Enclave>)
    requires ordered != [] && DistinctIds(ordered)
    ensures DistinctIds(ordered[1..]) && ordered[0].id !in IdSet(ordered[1..])
  {
    forall e | e in ordered[1..] ensures e.id != ordered[0].id {
      var j :| 0 <= j < |ordered[1..]| && ordered[1..][j] == e;
      assert ordered[0].id != ordered[j + 1].id;
    }
  }

  lemma {:induction false} RunEnclavesEffect(cfg: Config, snap: Store, r: Run, ordered: seq<Enclave>, enc: Enclave)
    requires WellFormedConfig(ordered) && enc in ordered
    ensures var r' := RunEnclaves(cfg, snap, r, ordered);
            && (r'.errors == [] ==> HasDriver(cfg, enc) && EnclaveOutcome(cfg, snap, r'.store, enc))
            && (enc.id in r'.store <==> enc.id in r.store || HasDriver(cfg, enc))
            && PlanCarriedOut(cfg, snap, r'.trace, enc)
    decreases |ordered|
  {
    var first, rest := ordered[0], ordered[1..];
    assert ordered == [first] + rest;
    TailIds(ordered);
    RunEnclaveEffect(cfg, snap, r, first);
    var r1 := RunEnclave(cfg, snap, r, first);
    var r' := RunEnclaves(cfg, snap, r, ordered);
    RunEnclavesProgress(cfg, snap, r1, rest);
    if enc == first {
      CarriedOutLater(cfg, snap, r1.trace, r'.trace, enc);
    } else {
      RunEnclavesEffect(cfg, snap, r1, rest, enc);
      assert enc.id in IdSet(rest);
    }
  }

  // ----- imports -----

  /** The same records, except that import handles may have been added. */
  ghost predicate OnlyImportsAdded(store: Store, store': Store) {
    && store'.Keys == store.Keys
    && forall id :: id in store ==>
         && store'[id].(importHandles := store[id].importHandles) == store[id]
         && store[id].importHandles.Keys <= store'[id].importHandles.Keys
  }

  lemma {:induction false} RunImportsEffect(cfg: Config, r: Run, enc: Enclave, es: EnclaveState, imports: seq<Import>)
    ensures var (r', es') := RunImports(cfg, r, enc, es, imports);
            && Progress(r, r') && r'.store == r.store
            && es'.(importHandles := es.importHandles) == es
            && es.importHandles.Keys <= es'.importHandles.Keys
            && (r'.errors == [] && (forall i :: i in imports ==> ExportHandle(r.store, i).Some?)
                ==> ImportsWired(es', imports))
    decreases |imports|
  {
    if imports != [] {
      var (r1, es1) := RunImport(cfg, r, enc, es, imports[0]);
      RunImportsEffect(cfg, r1, enc, es1, imports[1..]);
      assert imports == [imports[0]] + imports[1..];
    }
  }

  lemma {:induction false} WireEnclaveEffect(cfg: Config, r: Run, enc: Enclave)
    requires forall id :: id in r.store ==> r.store[id].desired.id == id
    ensures var r' := WireEnclave(cfg, r, enc);
            && Progress(r, r') && OnlyImportsAdded(r.store, r'.store)
            && ((&& r'.errors == [] && HasDriver(cfg, enc) && enc.id in r.store
                 && (forall i :: i in AllImports(enc) ==> ExportHandle(r.store, i).Some?))
                ==> Wired(r'.store, enc))
  {
    if HasDriver(cfg, enc) && enc.id in r.store {
      RunImportsEffect(cfg, r, enc, r.store[enc.id], AllImports(enc));
      var (r1, es1) := RunImports(cfg, r, enc, r.store[enc.id], AllImports(enc));
      LogProgress(r, r1, Upserted(es1));
    }
  }

  lemma {:induction false} ImportsAddedTransitive(a: Store, b: Store, c: Store)
    requires OnlyImportsAdded(a, b) && OnlyImportsAdded(b, c)
    ensures OnlyImportsAdded(a, c)
  {
  }

  lemma {:induction false} WireEnclavesProgress(cfg: Config, r: Run, ordered: seq<Enclave>)
    requires forall id :: id in r.store ==> r.store[id].desired.id == id
    ensures var r' := WireEnclaves(cfg, r, ordered); Progress(r, r') && OnlyImportsAdded(r.store, r'.store)
    decreases |ordered|
  {
    if ordered != [] {
      WireEnclaveEffect(cfg, r, ordered[0]);
      var r1 := WireEnclave(cfg, r, ordered[0]);
      WireEnclavesProgress(cfg, r1, ordered[1..]);
      ImportsAddedTransitive(r.store, r1.store, WireEnclaves(cfg, r, ordered).store);
    }
  }

  lemma {:induction false} HandlesKept(a: Store, b: Store, imports: seq<Import>)
    requires OnlyImportsAdded(a, b) && forall i :: i in imports ==> ExportHandle(a, i).Some?
    ensures forall i :: i in imports ==> ExportHandle(b, i).Some?
  {
    forall i | i in imports ensures ExportHandle(b, i).Some? {
      assert ExportHandle(a, i).Some?;
      assert b[i.from].(importHandles := a[i.from].importHandles) == a[i.from];
    }
  }

  lemma {:induction false} WiredKept(a: Store, b: Store, enc: Enclave)
    requires OnlyImportsAdded(a, b) && Wired(a, enc)
    ensures Wired(b, enc)
  {
  }

  lemma {:induction false} WireEnclavesEffect(cfg: Config, r: Run, ordered: seq<Enclave>, enc: Enclave)
    requires forall id :: id in r.store ==> r.store[id].desired.id == id
    requires enc in ordered && HasDriver(cfg, enc) && enc.id in r.store
    requires forall i :: i in AllImports(enc) ==> ExportHandle(r.store, i).Some?
    ensures WireEnclaves(cfg, r, ordered).errors == [] ==> Wired(WireEnclaves(cfg, r, ordered).store, enc)
    decreases |ordered|
  {
    hide WireEnclave, ExportHandle, Wired;
    WireEnclaveEffect(cfg, r, ordered[0]);
    var r1 := WireEnclave(cfg, r, ordered[0]);
    WireEnclavesProgress(cfg, r1, ordered[1..]);
    if enc == ordered[0] {
      if WireEnclaves(cfg, r, ordered).errors == [] {
        WiredKept(r1.store, WireEnclaves(cfg, r, ordered).store, enc);
      }
    } else {
      assert ordered == [ordered[0]] + ordered[1..];
      HandlesKept(r.store, r1.store, AllImports(enc));
      WireEnclavesEffect(cfg, r1, ordered[1..], enc);
    }
  }

  // ----- removal -----

  lemma {:induction false} TeardownPartsEffect(cfg: Config, r: Run, id: EnclaveId, es: EnclaveState,
                                               env: map<string, string>, pids: seq<PartitionId>)
    requires forall i :: 0 <= i < |pids| ==> pids[i] in es.partitions
    ensures var r' := TeardownParts(cfg, r, id, es, env, pids); Progress(r, r') && r'.store == r.store
    decreases |pids|
  {
    if pids != [] {
      TeardownPartsEffect(cfg, TeardownPart(cfg, r, id, es.desired, env, pids[0], es.partitions[pids[0]]), id, es,
                          env, pids[1..]);
    }
  }

  lemma {:induction false} RemoveEffect(cfg: Config, snap: Store, r: Run, id: EnclaveId)
    requires id in snap && Enumerates(cfg)
    ensures var (r', aborted) := Remove(cfg, snap, r, id);
            Progress(r, r') && r'.store == if aborted.None? then r.store - {id} else r.store
  {
    var es := snap[id];
    if TeardownCloud(cfg, es) in cfg.drivers && es.handle.Some? {
      var pids := cfg.enumerate(es.partitions.Keys);
      assert Lists(pids, es.partitions.Keys);
      TeardownPartsEffect(cfg, r, id, es, cfg.authEnv(es.desired, es.handle.value), pids);
    }
  }

  lemma {:induction false} RemoveAllEffect(cfg: Config, snap: Store, r: Run, ids: seq<EnclaveId>)
    requires Enumerates(cfg) && forall i :: 0 <= i < |ids| ==> ids[i] in snap
    ensures var (r', aborted) := RemoveAll(cfg, snap, r, ids);
            Progress(r, r') && (aborted.None? ==> r'.store == r.store - Elements(ids))
    decreases |ids|
  {
    if ids != [] {
      RemoveEffect(cfg, snap, r, ids[0]);
      var (r1, aborted) := Remove(cfg, snap, r, ids[0]);
      if aborted.None? {
        RemoveAllEffect(cfg, snap, r1, ids[1..]);
        assert ids == [ids[0]] + ids[1..];
        assert Elements(ids) == {ids[0]} + Elements(ids[1..]);
      }
    }
  }

  lemma {:induction false} RemovalEffect(cfg: Config, snap: Store, ordered: seq<Enclave>)
    requires Enumerates(cfg)
    ensures var (r1, aborted) := AfterRemovals(cfg, snap, ordered);
            aborted.None? ==>
              && r1.store.Keys == snap.Keys * IdSet(ordered)
              && forall id :: id in r1.store ==> r1.store[id] == snap[id]
  {
    var ids := Removed(cfg, snap, ordered);
    RemovedAreStored(cfg, snap, ordered);
    assert Lists(ids, snap.Keys - IdSet(ordered));
    RemoveAllEffect(cfg, snap, Started(cfg, snap), ids);
    assert Elements(ids) == snap.Keys - IdSet(ordered);
  }
}
