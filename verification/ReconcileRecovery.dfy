/** What runs leave for the runs after them: what is taken up again, and what is not. */
module ReconcileRecovery {
  import opened Prelude
  import opened Json
  import opened Domain
  import opened State
  import opened Reconcile
  import opened ReconcileProtocol
  import opened ReconcileFixpoint
  import opened ReconcileTheorems
  import HashInput
  import Ordering
  import Template

  // ----- what the next run takes up -----

  /** A run that is not aborted, and can reach the enclave, attempts exactly the partitions it lists. */
  lemma {:induction false} AttemptedIffListed(cfg: Config, snap: Store, ordered: seq<Enclave>, enc: Enclave,
                                              part: Partition)
    requires Enumerates(cfg) && GoodStore(cfg, snap) && WellFormedConfig(ordered) && enc in ordered
             && part in enc.partitions
    requires Apply(cfg, snap, ordered).aborted.None? && HasDriver(cfg, enc)
    requires !RefusedIn(Apply(cfg, snap, ordered).run.trace, enc)
    ensures AttemptIn(Apply(cfg, snap, ordered).run.trace, enc, part) <==> Listed(cfg, snap, ordered, enc, part)
  {
    if AttemptIn(Apply(cfg, snap, ordered).run.trace, enc, part) {
      AttemptsWereListed(cfg, snap, ordered, enc, part);
    }
    if Listed(cfg, snap, ordered, enc, part) {
      ListedIsAttempted(cfg, snap, ordered, enc, part);
    }
  }

  /**
   After any history of runs, each cut off anywhere, the next run provisions a recorded partition whose
   configuration is still the recorded one exactly when the history left it in flight or in Error.
   */
  lemma {:induction false} ReprovisionedIffUnsettled(start: Store, episodes: seq<Episode>, cfg: Config,
                                                     ordered: seq<Enclave>, enc: Enclave, part: Partition)
    requires AllLegal(episodes, cfg) && GoodStore(cfg, start)
    requires Enumerates(cfg) && WellFormedConfig(ordered) && enc in ordered && part in enc.partitions
    requires var store := StoreAfter(start, episodes, cfg);
             && enc.id in store && part.id in store[enc.id].partitions
                 && store[enc.id].partitions[part.id].desired == part
             && Apply(cfg, store, ordered).aborted.None? && HasDriver(cfg, enc)
             && !RefusedIn(Apply(cfg, store, ordered).run.trace, enc)
    ensures var store := StoreAfter(start, episodes, cfg);
            AttemptIn(Apply(cfg, store, ordered).run.trace, enc, part) <==>
            store[enc.id].partitions[part.id].meta.status in {Provisioning, Updating, Error}
  {
    hide Apply, StoreAfter;
    var store := StoreAfter(start, episodes, cfg);
    AnyHistoryIsGood(start, episodes, cfg);
    AttemptedIffListed(cfg, store, ordered, enc, part);
    ListedIffPlanned(cfg, store, ordered, enc, part);
    assert EnclaveRecord(cfg, store[enc.id]) && PartitionRecord(cfg, store[enc.id].partitions[part.id]);
  }

  // ----- with the hashes the code computes -----

  /** The hashes are taken over serialised configurations, in whatever order their maps are visited. */
  ghost predicate HashesConfigurations(cfg: Config, digest: Json -> string) {
    && (forall p: Partition, order :: Lists(order, p.inputs.Keys) ==>
          cfg.hashPartition(p) == DesiredHash(digest, HashInput.PartitionJson(p, order)))
    && (forall e: Enclave, orders :: HashInput.Orders(e.partitions, orders) ==>
          cfg.hashEnclave(e) == DesiredHash(digest, HashInput.EnclaveJson(e, orders)))
  }

  function VisitAll(order: set<string> -> seq<string>, parts: seq<Partition>): seq<seq<string>> {
    seq(|parts|, i requires 0 <= i < |parts| => order(parts[i].inputs.Keys))
  }

  /** It is enough to hash in some order, because the order makes no difference. */
  lemma {:induction false} AnyOrderHashesAlike(cfg: Config, digest: Json -> string, order: set<string> -> seq<string>)
    requires forall s: set<string> :: Lists(order(s), s)
    requires forall p: Partition ::
             cfg.hashPartition(p) == DesiredHash(digest, HashInput.PartitionJson(p, order(p.inputs.Keys)))
    requires forall e: Enclave ::
               HashInput.Orders(e.partitions, VisitAll(order, e.partitions)) ==>
                 cfg.hashEnclave(e) == DesiredHash(digest, HashInput.EnclaveJson(e, VisitAll(order, e.partitions)))
    ensures HashesConfigurations(cfg, digest)
  {
    hide HashInput.PartitionJson, HashInput.EnclaveJson, DesiredHash;
    forall p: Partition, q | Lists(q, p.inputs.Keys)
      ensures cfg.hashPartition(p) == DesiredHash(digest, HashInput.PartitionJson(p, q))
    {
      HashInput.PartitionHashSeesContentsOnly(digest, p, p, order(p.inputs.Keys), q);
    }
    forall e: Enclave, q | HashInput.Orders(e.partitions, q)
      ensures cfg.hashEnclave(e) == DesiredHash(digest, HashInput.EnclaveJson(e, q))
    {
      HashInput.EnclaveHashSeesContentsOnly(digest, e, e, VisitAll(order, e.partitions), q);
    }
  }

  /** Then equal hashes mean equal partitions, short of a collision of the digest. */
  lemma {:induction false} EqualHashesEqualPartitions(cfg: Config, digest: Json -> string, a: Partition, b: Partition)
    requires Enumerates(cfg) && HashesConfigurations(cfg, digest) && HashInput.CollisionFree(digest)
    ensures cfg.hashPartition(a) == cfg.hashPartition(b) <==> a == b
  {
    hide HashInput.PartitionJson, HashInput.EnclaveJson, DesiredHash;
    var p, q := cfg.enumerate(a.inputs.Keys), cfg.enumerate(b.inputs.Keys);
    assert Lists(p, a.inputs.Keys) && Lists(q, b.inputs.Keys);
    HashInput.PartitionHashSeesContentsOnly(digest, a, b, p, q);
  }

  /** After any history, an Active partition is provisioned again exactly when its configuration has changed. */
  lemma {:induction false} ActiveReprovisionedIffChanged(start: Store, episodes: seq<Episode>, cfg: Config,
                                                         digest: Json -> string, ordered: seq<Enclave>, enc: Enclave,
                                                         part: Partition)
    requires AllLegal(episodes, cfg) && GoodStore(cfg, start)
    requires HashesConfigurations(cfg, digest) && HashInput.CollisionFree(digest)
    requires Enumerates(cfg) && WellFormedConfig(ordered) && enc in ordered && part in enc.partitions
    requires var store := StoreAfter(start, episodes, cfg);
             && enc.id in store && part.id in store[enc.id].partitions
             && store[enc.id].partitions[part.id].meta.status == Active
             && Apply(cfg, store, ordered).aborted.None? && HasDriver(cfg, enc)
             && !RefusedIn(Apply(cfg, store, ordered).run.trace, enc)
    ensures var store := StoreAfter(start, episodes, cfg);
            AttemptIn(Apply(cfg, store, ordered).run.trace, enc, part) <==>
            store[enc.id].partitions[part.id].desired != part
  {
    hide Apply, StoreAfter, HashesConfigurations;
    var store := StoreAfter(start, episodes, cfg);
    AnyHistoryIsGood(start, episodes, cfg);
    AttemptedIffListed(cfg, store, ordered, enc, part);
    ListedIffPlanned(cfg, store, ordered, enc, part);
    var ps := store[enc.id].partitions[part.id];
    assert EnclaveRecord(cfg, store[enc.id]) && PartitionRecord(cfg, ps);
    EqualHashesEqualPartitions(cfg, digest, ps.desired, part);
  }

  // ----- failed attempts -----

  predicate AttemptOf(s: Step, enc: Enclave, part: Partition) {
    && s.Called? && (s.call.ProvisionPartition? || s.call.RunTerraform?)
    && s.call.enc == enc && s.call.part == part
  }

  /** The driver refused the partition, or Terraform failed on it. */
  ghost predicate FailedIn(trace: seq<Step>, enc: Enclave, part: Partition) {
    exists s :: s in trace && AttemptOf(s, enc, part) && s.reply.Failed?
  }

  lemma {:induction false} FailedSnoc(trace: seq<Step>, s: Step, enc: Enclave, part: Partition)
    ensures FailedIn(trace + [s], enc, part)
            <==> FailedIn(trace, enc, part) || (AttemptOf(s, enc, part) && s.reply.Failed?)
  {
    assert s in trace + [s];
    assert forall x :: x in trace ==> x in trace + [s];
  }

  /** The change failed: the record holds the new configuration, is in Error, and keeps the hash it had. */
  ghost predicate FailedRecord(before: map<PartitionId, PartitionState>, after: map<PartitionId, PartitionState>,
                               part: Partition) {
    && part.id in after && after[part.id].desired == part && after[part.id].meta.status == Error
    && after[part.id].meta.desiredHash == (if part.id in before then before[part.id].meta.desiredHash else None)
  }

  lemma {:induction false} FinishFailures(cfg: Config, r: Run, e: Enclave, es: EnclaveState, q: Partition,
                                          ps: PartitionState, inputs: map<string, string>, sa: Reply, enc: Enclave,
                                          part: Partition)
    ensures var (r', es') := FinishPartition(cfg, r, e, es, q, ps, inputs, sa);
            FailedIn(r'.trace, enc, part) ==>
              FailedIn(r.trace, enc, part) || (e == enc && q == part && es'.partitions[q.id].meta.status == Error)
    ensures var es' := FinishPartition(cfg, r, e, es, q, ps, inputs, sa).1;
            && q.id in es'.partitions && es'.partitions[q.id].desired == ps.desired
            && (es'.partitions[q.id].meta.status == Error
                ==> es'.partitions[q.id].meta.desiredHash == ps.meta.desiredHash)
  {
    if sa.Failed? {
      FailedSnoc(r.trace, Logged(PartitionError(cfg.freshId(r.trace), cfg.clock(r.trace), e.id, q.id, sa.msg)), enc,
                 part);
    } else {
      var es1 := WithPartition(es, q.id, ps.(handle := Some(sa.handle)));
      var r1 := UpsertBestEffort(cfg, r, es1);
      var call := RunTerraform(e, q, inputs, TerraformEnv(cfg, e, es.handle, sa.handle));
      var (r2, tf) := Ask(cfg, r1, call);
      FailedSnoc(r.trace, r1.trace[|r.trace|], enc, part);
      FailedSnoc(r1.trace, Called(call, tf), enc, part);
      if tf.Failed? {
        FailedSnoc(r2.trace, Logged(PartitionError(cfg.freshId(r2.trace), cfg.clock(r2.trace), e.id, q.id, tf.msg)),
                   enc, part);
      } else {
        FailedSnoc(r2.trace, Logged(PartitionProvisioned(cfg.freshId(r2.trace), cfg.clock(r2.trace), e.id, q.id)),
                   enc, part);
      }
    }
  }

  /** A partition's run fails on that partition of that enclave only, and then leaves the failed record. */
  lemma {:induction false} RunPartitionFailures(cfg: Config, r: Run, e: Enclave, es: EnclaveState, q: Partition,
                                                enc: Enclave, part: Partition)
    ensures var (r', es') := RunPartition(cfg, r, e, es, q);
            FailedIn(r'.trace, enc, part) ==>
              FailedIn(r.trace, enc, part) || (e == enc && q == part && FailedRecord(es.partitions, es'.partitions, q))
  {
    if !HashMatches(cfg, q, es.partitions) {
      var inputs := Template.ResolveInputs(q.inputs, es.importHandles, ContextOf(cfg, e, es.handle));
      var ps := Announced(es, q);
      var es1 := WithPartition(es, q.id, ps);
      var r0 := Log(r, Upserted(es1));
      var call := ProvisionPartition(e, q, inputs, ps.handle);
      var (r1, sa) := Ask(cfg, r0, call);
      FailedSnoc(r.trace, Upserted(es1), enc, part);
      FailedSnoc(r0.trace, Called(call, sa), enc, part);
      FinishFailures(cfg, r1, e, es1, q, ps, inputs, sa, enc, part);
    }
  }

  lemma {:induction false} OtherPartitionsFailures(cfg: Config, r: Run, e: Enclave, es: EnclaveState,
                                                   parts: seq<Partition>, enc: Enclave, part: Partition)
    requires e != enc || part !in parts
    ensures FailedIn(RunPartitions(cfg, r, e, es, parts).0.trace, enc, part) ==> FailedIn(r.trace, enc, part)
    decreases |parts|
  {
    hide RunPartition, FailedIn;
    if parts != [] {
      assert parts == [parts[0]] + parts[1..];
      RunPartitionFailures(cfg, r, e, es, parts[0], enc, part);
      var (r1, es1) := RunPartition(cfg, r, e, es, parts[0]);
      OtherPartitionsFailures(cfg, r1, e, es1, parts[1..], enc, part);
    }
  }

  lemma {:induction false} RunPartitionsFailures(cfg: Config, r: Run, enc: Enclave, es: EnclaveState,
                                                 parts: seq<Partition>, part: Partition)
    requires DistinctPartitionIds(parts) && part in parts
    ensures var (r', es') := RunPartitions(cfg, r, enc, es, parts);
            FailedIn(r'.trace, enc, part) ==>
              FailedIn(r.trace, enc, part) || FailedRecord(es.partitions, es'.partitions, part)
    decreases |parts|
  {
    hide RunPartition, FailedIn;
    var q, rest := parts[0], parts[1..];
    assert parts == [q] + rest;
    OthersDiffer(parts);
    RunPartitionFailures(cfg, r, enc, es, q, enc, part);
    RunPartitionElsewhere(cfg, r, enc, es, q);
    var (r1, es1) := RunPartition(cfg, r, enc, es, q);
    if q == part {
      OtherPartitionsFailures(cfg, r1, enc, es1, rest, enc, part);
      RunPartitionsElsewhere(cfg, r1, enc, es1, rest);
    } else {
      RunPartitionsFailures(cfg, r1, enc, es1, rest, part);
    }
  }

  lemma {:induction false} RunExportsFailures(cfg: Config, r: Run, e: Enclave, es: EnclaveState, exports: seq<Export>,
                                              enc: Enclave, part: Partition)
    ensures FailedIn(RunExports(cfg, r, e, es, exports).0.trace, enc, part) ==> FailedIn(r.trace, enc, part)
    decreases |exports|
  {
    if exports != [] {
      var (r1, es1) := RunExport(cfg, r, e, es, exports[0]);
      RunExportFailures(cfg, r, e, es, exports[0], enc, part);
      RunExportsFailures(cfg, r1, e, es1, exports[1..], enc, part);
    }
  }

  lemma {:induction false} RunExportFailures(cfg: Config, r: Run, e: Enclave, es: EnclaveState, exp: Export,
                                             enc: Enclave, part: Partition)
    ensures FailedIn(RunExport(cfg, r, e, es, exp).0.trace, enc, part) ==> FailedIn(r.trace, enc, part)
  {
    var outputs := if exp.targetPartition in es.partitions then es.partitions[exp.targetPartition].outputs else map[];
    var existing := if exp.name in es.exportHandles then Some(es.exportHandles[exp.name]) else None;
    var call := ProvisionExport(e, exp, outputs, existing);
    var (r1, reply) := Ask(cfg, r, call);
    FailedSnoc(r.trace, Called(call, reply), enc, part);
    FailedSnoc(r1.trace, Logged(ExportWired(cfg.freshId(r1.trace), cfg.clock(r1.trace), e.id, exp.name)), enc, part);
  }

  /** The partitions of a stored enclave, as an enclave's pass has left them. */
  ghost predicate FailedAt(snap: Store, store: Store, enc: Enclave, part: Partition) {
    enc.id in store && FailedRecord(PartitionsOf(snap, enc.id), store[enc.id].partitions, part)
  }

  lemma {:induction false} AcceptedFailures(cfg: Config, snap: Store, r1: Run, e: Enclave, es1: EnclaveState,
                                            enc: Enclave, part: Partition)
    requires es1.desired == e && es1.partitions == PartitionsOf(snap, e.id)
    requires DistinctPartitionIds(enc.partitions) && part in enc.partitions
    ensures var (r2, es2) := RunPartitions(cfg, r1, e, es1, e.partitions);
            var (r3, es3) := RunExports(cfg, r2, e, es2, e.exports);
            var r4 := Log(r3, Logged(EnclaveProvisioned(cfg.freshId(r3.trace), cfg.clock(r3.trace), e.id)));
            var r5 := Log(r4, Upserted(es3));
            FailedIn(r5.trace, enc, part) ==>
              FailedIn(r1.trace, enc, part) || (e == enc && FailedAt(snap, r5.store, enc, part))
  {
    hide RunPartitions, RunExports, FailedIn;
    var (r2, es2) := RunPartitions(cfg, r1, e, es1, e.partitions);
    var (r3, es3) := RunExports(cfg, r2, e, es2, e.exports);
    var ev := EnclaveProvisioned(cfg.freshId(r3.trace), cfg.clock(r3.trace), e.id);
    RunPartitionsProgress(cfg, r1, e, es1, e.partitions);
    if e == enc {
      RunPartitionsFailures(cfg, r1, enc, es1, e.partitions, part);
    } else {
      OtherPartitionsFailures(cfg, r1, e, es1, e.partitions, enc, part);
    }
    RunExportsFailures(cfg, r2, e, es2, e.exports, enc, part);
    RunExportsEffect(cfg, r2, e, es2, e.exports);
    FailedSnoc(r3.trace, Logged(ev), enc, part);
    FailedSnoc(r3.trace + [Logged(ev)], Upserted(es3), enc, part);
  }

  lemma {:induction false} RunEnclaveFailures(cfg: Config, snap: Store, r: Run, e: Enclave, enc: Enclave,
                                              part: Partition)
    requires DistinctPartitionIds(enc.partitions) && part in enc.partitions
    ensures var r' := RunEnclave(cfg, snap, r, e);
            FailedIn(r'.trace, enc, part) ==>
              FailedIn(r.trace, enc, part) || (e == enc && FailedAt(snap, r'.store, enc, part))
  {
    hide RunPartitions, RunExports, FailedIn;
    if HasDriver(cfg, e) {
      var es0 := BeginEnclave(cfg, snap, e);
      var r0 := Log(r, Upserted(es0));
      var call := ProvisionEnclave(e, HandleIn(snap, e.id));
      var (r1, reply) := Ask(cfg, r0, call);
      FailedSnoc(r.trace, Upserted(es0), enc, part);
      FailedSnoc(r0.trace, Called(call, reply), enc, part);
      match reply
      case Failed(msg) =>
        var bad := es0.(meta := MarkError(es0.meta, cfg.clock(r1.trace), msg));
        var r2 := Log(r1, Upserted(bad));
        FailedSnoc(r1.trace, Upserted(bad), enc, part);
        FailedSnoc(r2.trace, Logged(EnclaveError(cfg.freshId(r2.trace), cfg.clock(r2.trace), e.id, msg)), enc, part);
      case Done(handle, _) =>
        var es1 := es0.(handle := Some(handle), meta := MarkActive(es0.meta, cfg.clock(r1.trace), cfg.hashEnclave(e)));
        AcceptedFailures(cfg, snap, r1, e, es1, enc, part);
    }
  }

  lemma {:induction false} RunEnclavesFailures(cfg: Config, snap: Store, r: Run, todo: seq<Enclave>, enc: Enclave,
                                               part: Partition)
    requires WellFormedConfig(todo) && DistinctPartitionIds(enc.partitions) && part in enc.partitions
    ensures var r' := RunEnclaves(cfg, snap, r, todo);
            FailedIn(r'.trace, enc, part) ==>
              FailedIn(r.trace, enc, part) || (enc in todo && FailedAt(snap, r'.store, enc, part))
    decreases |todo|
  {
    hide RunEnclave, FailedIn;
    if todo != [] {
      var e, rest := todo[0], todo[1..];
      assert todo == [e] + rest;
      TailIds(todo);
      RunEnclaveFailures(cfg, snap, r, e, enc, part);
      var r1 := RunEnclave(cfg, snap, r, e);
      RunEnclavesFailures(cfg, snap, r1, rest, enc, part);
      RunEnclavesProgress(cfg, snap, r1, rest);
    }
  }

  lemma {:induction false} RunImportsFailures(cfg: Config, r: Run, e: Enclave, es: EnclaveState, imports: seq<Import>,
                                              enc: Enclave, part: Partition)
    ensures FailedIn(RunImports(cfg, r, e, es, imports).0.trace, enc, part) ==> FailedIn(r.trace, enc, part)
    decreases |imports|
  {
    if imports != [] {
      RunImportFailures(cfg, r, e, es, imports[0], enc, part);
      var (r1, es1) := RunImport(cfg, r, e, es, imports[0]);
      RunImportsFailures(cfg, r1, e, es1, imports[1..], enc, part);
    }
  }

  lemma {:induction false} RunImportFailures(cfg: Config, r: Run, e: Enclave, es: EnclaveState, imp: Import,
                                             enc: Enclave, part: Partition)
    ensures FailedIn(RunImport(cfg, r, e, es, imp).0.trace, enc, part) ==> FailedIn(r.trace, enc, part)
  {
    if imp.alias !in es.importHandles && ExportHandle(r.store, imp).Some? {
      var call := ProvisionImport(e, imp, ExportHandle(r.store, imp).value, None);
      var (r1, reply) := Ask(cfg, r, call);
      FailedSnoc(r.trace, Called(call, reply), enc, part);
      FailedSnoc(r1.trace, Logged(ImportWired(cfg.freshId(r1.trace), cfg.clock(r1.trace), e.id, imp.exportName)), enc,
                 part);
    }
  }

  lemma {:induction false} WireFailures(cfg: Config, r: Run, todo: seq<Enclave>, enc: Enclave, part: Partition)
    ensures FailedIn(WireEnclaves(cfg, r, todo).trace, enc, part) ==> FailedIn(r.trace, enc, part)
    decreases |todo|
  {
    hide RunImports, FailedIn;
    if todo != [] {
      var e := todo[0];
      if HasDriver(cfg, e) && e.id in r.store {
        RunImportsFailures(cfg, r, e, r.store[e.id], AllImports(e), enc, part);
        var (r1, es1) := RunImports(cfg, r, e, r.store[e.id], AllImports(e));
        FailedSnoc(r1.trace, Upserted(es1), enc, part);
      }
      WireFailures(cfg, WireEnclave(cfg, r, e), todo[1..], enc, part);
    }
  }

  lemma {:induction false} TeardownFailures(cfg: Config, r: Run, id: EnclaveId, es: EnclaveState,
                                            env: map<string, string>, pids: seq<PartitionId>, enc: Enclave,
                                            part: Partition)
    requires forall i :: 0 <= i < |pids| ==> pids[i] in es.partitions
    ensures FailedIn(TeardownParts(cfg, r, id, es, env, pids).trace, enc, part) ==> FailedIn(r.trace, enc, part)
    decreases |pids|
  {
    hide FailedIn;
    if pids != [] {
      var ps := es.partitions[pids[0]];
      var call := DestroyTerraform(es.desired, ps.desired, env);
      var (r1, tf) := Ask(cfg, r, call);
      FailedSnoc(r.trace, Called(call, tf), enc, part);
      if ps.handle.Some? {
        var last := TeardownPartition(es.desired, ps.desired, ps.handle.value);
        FailedSnoc(r1.trace, Called(last, cfg.oracle(r1.trace, last)), enc, part);
      }
      TeardownFailures(cfg, TeardownPart(cfg, r, id, es.desired, env, pids[0], ps), id, es, env, pids[1..], enc, part);
    }
  }

  lemma {:induction false} RemoveFailures(cfg: Config, snap: Store, r: Run, id: EnclaveId, enc: Enclave,
                                          part: Partition)
    requires id in snap && Enumerates(cfg)
    ensures FailedIn(Remove(cfg, snap, r, id).0.trace, enc, part) ==> FailedIn(r.trace, enc, part)
  {
    hide FailedIn, TeardownParts;
    var es := snap[id];
    if TeardownCloud(cfg, es) !in cfg.drivers || es.handle.None? {
      FailedSnoc(r.trace, Erased(id), enc, part);
    } else {
      var pids, env := cfg.enumerate(es.partitions.Keys), cfg.authEnv(es.desired, es.handle.value);
      assert Lists(pids, es.partitions.Keys);
      TeardownFailures(cfg, r, id, es, env, pids, enc, part);
      var r1 := TeardownParts(cfg, r, id, es, env, pids);
      FailedSnoc(r1.trace, Erased(id), enc, part);
      var call := TeardownEnclave(es.desired, es.handle.value);
      var (r2, reply) := Ask(cfg, r1, call);
      FailedSnoc(r1.trace, Called(call, reply), enc, part);
      FailedSnoc(r2.trace, Erased(id), enc, part);
    }
  }

  lemma {:induction false} RemoveAllFailures(cfg: Config, snap: Store, r: Run, ids: seq<EnclaveId>, enc: Enclave,
                                             part: Partition)
    requires Enumerates(cfg) && forall i :: 0 <= i < |ids| ==> ids[i] in snap
    ensures FailedIn(RemoveAll(cfg, snap, r, ids).0.trace, enc, part) ==> FailedIn(r.trace, enc, part)
    decreases |ids|
  {
    hide FailedIn, Remove;
    if ids != [] {
      RemoveFailures(cfg, snap, r, ids[0], enc, part);
      var (r1, aborted) := Remove(cfg, snap, r, ids[0]);
      if aborted.None? {
        RemoveAllFailures(cfg, snap, r1, ids[1..], enc, part);
      }
    }
  }

  // ----- a failed change that is taken back -----

  /** A run that is not aborted and fails on a partition leaves its record in Error, with the hash it had before. */
  lemma {:induction false} FailureIsRecorded(cfg: Config, snap: Store, ordered: seq<Enclave>, enc: Enclave,
                                             part: Partition)
    requires Enumerates(cfg) && GoodStore(cfg, snap) && WellFormedConfig(ordered) && enc in ordered
             && part in enc.partitions
    requires Apply(cfg, snap, ordered).aborted.None? && FailedIn(Apply(cfg, snap, ordered).run.trace, enc, part)
    ensures FailedAt(snap, Apply(cfg, snap, ordered).run.store, enc, part)
  {
    hide RunEnclaves, WireEnclaves, FailedIn, RemoveAll;
    var started := ReconcileStarted(cfg.freshId([]), cfg.clock([]), false);
    FailedSnoc([], Logged(started), enc, part);
    NoneFailed(enc, part);
    assert [] + [Logged(started)] == [Logged(started)];
    RemovedAreStored(cfg, snap, ordered);
    RemoveAllFailures(cfg, snap, Started(cfg, snap), Removed(cfg, snap, ordered), enc, part);
    var r1 := AfterRemovals(cfg, snap, ordered).0;
    var r2 := RunEnclaves(cfg, snap, r1, ordered);
    var r3 := WireEnclaves(cfg, r2, ordered);
    RunEnclavesFailures(cfg, snap, r1, ordered, enc, part);
    WireFailures(cfg, r2, ordered, enc, part);
    FailedSnoc(r3.trace, Finished(cfg, snap, ordered, r3).trace[|r3.trace|], enc, part);
    ApplyPasses(cfg, snap, ordered);
  }

  lemma {:induction false} NoneFailed(enc: Enclave, part: Partition)
    ensures !FailedIn([], enc, part)
  {
  }

  /** The stored partition of that id holds this configuration and is in Error. */
  ghost predicate InError(store: Store, id: EnclaveId, part: Partition) {
    && part.id in PartitionsOf(store, id)
    && PartitionsOf(store, id)[part.id].meta.status == Error && PartitionsOf(store, id)[part.id].desired == part
  }

  ghost predicate SameRecord(a: Store, b: Store, id: EnclaveId, pid: PartitionId) {
    && pid in PartitionsOf(a, id) && pid in PartitionsOf(b, id)
    && PartitionsOf(a, id)[pid] == PartitionsOf(b, id)[pid]
  }

  /**
   A change that fails leaves the partition stuck for the configuration it replaced: that one's hash is
   still recorded, although the record is in Error and holds the new configuration.
   */
  lemma {:induction false} FailedChangeIsStuck(cfg: Config, snap: Store, ordered: seq<Enclave>, enc: Enclave,
                                               after: Partition, prior: Enclave, before: Partition)
    requires Enumerates(cfg) && GoodStore(cfg, snap) && WellFormedConfig(ordered) && enc in ordered
             && after in enc.partitions
    requires Apply(cfg, snap, ordered).aborted.None? && FailedIn(Apply(cfg, snap, ordered).run.trace, enc, after)
    requires prior.id == enc.id && before.id == after.id && HashMatches(cfg, before, PartitionsOf(snap, enc.id))
    ensures var store := Apply(cfg, snap, ordered).run.store;
            Stuck(cfg, store, prior, before) && InError(store, prior.id, after)
  {
    hide Apply, FailedIn;
    FailureIsRecorded(cfg, snap, ordered, enc, after);
  }

  ghost predicate CleanRun(cfg: Config, snap: Store, ordered: seq<Enclave>)
    requires Enumerates(cfg)
  {
    Apply(cfg, snap, ordered).aborted.None? && Apply(cfg, snap, ordered).run.errors == []
  }

  /**
   Putting the old configuration back does not repair it: the next error-free run does not attempt the
   partition and leaves its record as the failure left it.
   */
  lemma {:induction false} RevertAfterFailureIsStuck(cfg: Config, snap: Store, ordered: seq<Enclave>, enc: Enclave,
                                                     after: Partition, next: Config, reverted: seq<Enclave>,
                                                     prior: Enclave, before: Partition)
    requires Enumerates(cfg) && GoodStore(cfg, snap) && WellFormedConfig(ordered) && enc in ordered
             && after in enc.partitions
    requires Apply(cfg, snap, ordered).aborted.None? && FailedIn(Apply(cfg, snap, ordered).run.trace, enc, after)
    requires prior.id == enc.id && before.id == after.id && HashMatches(cfg, before, PartitionsOf(snap, enc.id))
    requires Enumerates(next) && next.hashEnclave == cfg.hashEnclave && next.hashPartition == cfg.hashPartition
    requires WellFormedConfig(reverted) && ImportsResolve(reverted) && prior in reverted && before in prior.partitions
    requires CleanRun(next, Apply(cfg, snap, ordered).run.store, reverted)
    ensures var store := Apply(cfg, snap, ordered).run.store;
            var out := Apply(next, store, reverted).run;
            && !AttemptIn(out.trace, prior, before)
            && SameRecord(store, out.store, prior.id, before.id) && InError(out.store, prior.id, after)
  {
    FailedChangeIsStuck(cfg, snap, ordered, enc, after, prior, before);
    ApplyOk(cfg, snap, ordered);
    var store := Apply(cfg, snap, ordered).run.store;
    SameHashesGood(cfg, next, store);
    StuckStays(next, store, reverted, prior, before);
  }

  /** An error-free run leaves a stuck partition alone. */
  lemma {:induction false} StuckStays(cfg: Config, snap: Store, ordered: seq<Enclave>, enc: Enclave, part: Partition)
    requires Enumerates(cfg) && GoodStore(cfg, snap) && WellFormedConfig(ordered) && ImportsResolve(ordered)
    requires enc in ordered && part in enc.partitions && Stuck(cfg, snap, enc, part)
    requires Apply(cfg, snap, ordered).aborted.None? && Apply(cfg, snap, ordered).run.errors == []
    ensures var out := Apply(cfg, snap, ordered).run;
            !AttemptIn(out.trace, enc, part) && SameRecord(snap, out.store, enc.id, part.id)
  {
    hide Apply;
    if AttemptIn(Apply(cfg, snap, ordered).run.trace, enc, part) {
      AttemptsWereListed(cfg, snap, ordered, enc, part);
      ListedIffPlanned(cfg, snap, ordered, enc, part);
    }
    CleanApplyConverges(cfg, snap, ordered);
    var store := Apply(cfg, snap, ordered).run.store;
    assert EnclaveOutcome(cfg, snap, store, enc);
    assert PartitionOutcome(cfg, PartitionsOf(snap, enc.id), store[enc.id].partitions, part);
  }

  // ----- a driver that never refuses -----

  lemma {:induction false} FlawlessPartitions(cfg: Config, r: Run, enc: Enclave, es: EnclaveState,
                                              parts: seq<Partition>)
    requires forall t, c :: cfg.oracle(t, c).Done?
    ensures RunPartitions(cfg, r, enc, es, parts).0.errors == r.errors
    decreases |parts|
  {
    if parts != [] {
      var (r1, es1) := RunPartition(cfg, r, enc, es, parts[0]);
      FlawlessPartition(cfg, r, enc, es, parts[0]);
      FlawlessPartitions(cfg, r1, enc, es1, parts[1..]);
    }
  }

  lemma {:induction false} FlawlessPartition(cfg: Config, r: Run, enc: Enclave, es: EnclaveState, part: Partition)
    requires forall t, c :: cfg.oracle(t, c).Done?
    ensures RunPartition(cfg, r, enc, es, part).0.errors == r.errors
  {
  }

  lemma {:induction false} FlawlessExports(cfg: Config, r: Run, enc: Enclave, es: EnclaveState, exports: seq<Export>)
    requires forall t, c :: cfg.oracle(t, c).Done?
    ensures RunExports(cfg, r, enc, es, exports).0.errors == r.errors
    decreases |exports|
  {
    if exports != [] {
      var (r1, es1) := RunExport(cfg, r, enc, es, exports[0]);
      FlawlessExports(cfg, r1, enc, es1, exports[1..]);
    }
  }

  lemma {:induction false} FlawlessEnclaves(cfg: Config, snap: Store, r: Run, todo: seq<Enclave>)
    requires (forall t, c :: cfg.oracle(t, c).Done?) && forall e :: e in todo ==> HasDriver(cfg, e)
    ensures RunEnclaves(cfg, snap, r, todo).errors == r.errors
    decreases |todo|
  {
    hide RunPartitions, RunExports;
    if todo != [] {
      var e := todo[0];
      var es0 := BeginEnclave(cfg, snap, e);
      var (r1, reply) := Ask(cfg, Log(r, Upserted(es0)), ProvisionEnclave(e, HandleIn(snap, e.id)));
      var es1 := es0.(handle := Some(reply.handle),
                      meta := MarkActive(es0.meta, cfg.clock(r1.trace), cfg.hashEnclave(e)));
      FlawlessPartitions(cfg, r1, e, es1, e.partitions);
      var (r2, es2) := RunPartitions(cfg, r1, e, es1, e.partitions);
      FlawlessExports(cfg, r2, e, es2, e.exports);
      FlawlessEnclaves(cfg, snap, RunEnclave(cfg, snap, r, e), todo[1..]);
    }
  }

  lemma {:induction false} FlawlessImports(cfg: Config, r: Run, enc: Enclave, es: EnclaveState, imports: seq<Import>)
    requires forall t, c :: cfg.oracle(t, c).Done?
    ensures RunImports(cfg, r, enc, es, imports).0.errors == r.errors
    decreases |imports|
  {
    if imports != [] {
      var (r1, es1) := RunImport(cfg, r, enc, es, imports[0]);
      FlawlessImports(cfg, r1, enc, es1, imports[1..]);
    }
  }

  lemma {:induction false} FlawlessWiring(cfg: Config, r: Run, todo: seq<Enclave>)
    requires forall t, c :: cfg.oracle(t, c).Done?
    ensures WireEnclaves(cfg, r, todo).errors == r.errors
    decreases |todo|
  {
    hide RunImports;
    if todo != [] {
      if HasDriver(cfg, todo[0]) && todo[0].id in r.store {
        FlawlessImports(cfg, r, todo[0], r.store[todo[0].id], AllImports(todo[0]));
      }
      FlawlessWiring(cfg, WireEnclave(cfg, r, todo[0]), todo[1..]);
    }
  }

  lemma {:induction false} FlawlessTeardowns(cfg: Config, r: Run, id: EnclaveId, es: EnclaveState,
                                             env: map<string, string>, pids: seq<PartitionId>)
    requires (forall t, c :: cfg.oracle(t, c).Done?) && forall i :: 0 <= i < |pids| ==> pids[i] in es.partitions
    ensures TeardownParts(cfg, r, id, es, env, pids).errors == r.errors
    decreases |pids|
  {
    if pids != [] {
      FlawlessTeardowns(cfg, TeardownPart(cfg, r, id, es.desired, env, pids[0], es.partitions[pids[0]]), id, es, env,
                        pids[1..]);
    }
  }

  lemma {:induction false} FlawlessRemovals(cfg: Config, snap: Store, r: Run, ids: seq<EnclaveId>)
    requires Enumerates(cfg) && (forall t, c :: cfg.oracle(t, c).Done?) && forall i :: 0 <= i < |ids| ==> ids[i] in snap
    ensures var (r', aborted) := RemoveAll(cfg, snap, r, ids); aborted.None? && r'.errors == r.errors
    decreases |ids|
  {
    hide TeardownParts;
    if ids != [] {
      var es := snap[ids[0]];
      assert Lists(cfg.enumerate(es.partitions.Keys), es.partitions.Keys);
      if es.handle.Some? {
        FlawlessTeardowns(cfg, r, ids[0], es, cfg.authEnv(es.desired, es.handle.value),
                          cfg.enumerate(es.partitions.Keys));
      }
      FlawlessRemovals(cfg, snap, Remove(cfg, snap, r, ids[0]).0, ids[1..]);
    }
  }

  /** Errors come from the drivers alone: if every enclave has one and none ever refuses, a run is error-free. */
  lemma {:induction false} FlawlessDrivers(cfg: Config, snap: Store, ordered: seq<Enclave>)
    requires Enumerates(cfg) && (forall t, c :: cfg.oracle(t, c).Done?)
    requires forall e :: e in ordered ==> HasDriver(cfg, e)
    ensures Apply(cfg, snap, ordered).aborted.None? && Apply(cfg, snap, ordered).run.errors == []
  {
    hide RunEnclaves, WireEnclaves, RemoveAll;
    RemovedAreStored(cfg, snap, ordered);
    FlawlessRemovals(cfg, snap, Started(cfg, snap), Removed(cfg, snap, ordered));
    var r1 := AfterRemovals(cfg, snap, ordered).0;
    FlawlessEnclaves(cfg, snap, r1, ordered);
    FlawlessWiring(cfg, RunEnclaves(cfg, snap, r1, ordered), ordered);
  }

  // ----- an example that runs can reach -----

  ghost predicate DemoConfig(good: Config, bad: Config) {
    && Enumerates(good) && good.drivers == {Local} && good.defaultCloud == Local
    && (forall t, c :: good.oracle(t, c) == Done(JNull, map[]))
    && (forall p: Partition :: good.hashPartition(p) == p.name)
    && bad == good.(oracle := bad.oracle)
    && forall t, c :: bad.oracle(t, c) == (if c.ProvisionPartition? then Reply.Failed("refused")
                                           else Done(JNull, map[]))
  }

  ghost predicate DemoEnclave(enc: Enclave, part: Partition) {
    && enc.cloud == None && enc.partitions == [part] && enc.exports == [] && enc.imports == []
    && part.imports == []
  }

  lemma {:induction false} DemoWellFormed(enc: Enclave, part: Partition)
    requires DemoEnclave(enc, part)
    ensures WellFormedConfig([enc]) && ImportsResolve([enc])
  {
    assert PartitionImports([part]) == part.imports + PartitionImports([]);
    assert AllImports(enc) == [];
  }

  lemma {:induction false} FirstRunApplies(good: Config, bad: Config, enc: Enclave, part: Partition)
    requires DemoConfig(good, bad) && DemoEnclave(enc, part)
    ensures CleanRun(good, map[], [enc])
    ensures var store := Apply(good, map[], [enc]).run.store;
            GoodStore(good, store) && store.Keys == {enc.id} && HashMatches(good, part, PartitionsOf(store, enc.id))
  {
    hide Apply, Converged, ImportsResolve;
    DemoWellFormed(enc, part);
    FlawlessDrivers(good, map[], [enc]);
    ApplyOk(good, map[], [enc]);
    CleanApplyConverges(good, map[], [enc]);
    var store := Apply(good, map[], [enc]).run.store;
    assert enc in [enc] && part in enc.partitions;
    assert EnclaveOutcome(good, map[], store, enc);
    assert PartitionOutcome(good, PartitionsOf(map[], enc.id), store[enc.id].partitions, part);
    StoreAfterApply(good, map[], [enc], enc.id);
    assert enc in [enc];
    forall id | id in store ensures id == enc.id {
      StoreAfterApply(good, map[], [enc], id);
    }
  }

  lemma {:induction false} NothingRemoved(cfg: Config, snap: Store, ordered: seq<Enclave>)
    requires Enumerates(cfg) && snap.Keys <= IdSet(ordered)
    ensures Apply(cfg, snap, ordered).aborted.None?
  {
    hide RunEnclaves, WireEnclaves;
    assert snap.Keys - IdSet(ordered) == {};
    var ids := Removed(cfg, snap, ordered);
    assert Lists(ids, {});
    ListsCount(ids, {});
  }

  /** The driver refuses the renamed partition. */
  lemma {:induction false} SecondRunFails(good: Config, bad: Config, snap: Store, enc: Enclave, part: Partition)
    requires DemoConfig(good, bad) && DemoEnclave(enc, part)
    requires GoodStore(good, snap) && snap.Keys == {enc.id} && !HashMatches(good, part, PartitionsOf(snap, enc.id))
    ensures var out := Apply(bad, snap, [enc]);
            out.aborted.None? && FailedIn(out.run.trace, enc, part) && GoodStore(good, out.run.store)
  {
    hide Apply, FailedIn;
    DemoWellFormed(enc, part);
    SameHashesGood(good, bad, snap);
    ApplyOk(bad, snap, [enc]);
    NothingRemoved(bad, snap, [enc]);
    assert enc in [enc];
    var trace := Apply(bad, snap, [enc]).run.trace;
    if RefusedIn(trace, enc) {
      var s :| s in trace && s.Called? && s.call.ProvisionEnclave? && s.call.enc == enc && s.reply.Failed?;
      AnsweredByDriver(bad, snap, [enc], s);
    }
    ListedIffPlanned(bad, snap, [enc], enc, part);
    ListedIsAttempted(bad, snap, [enc], enc, part);
    var s :| s in trace && s.Called? && s.call.ProvisionPartition? && s.call.enc == enc && s.call.part == part;
    AnsweredByDriver(bad, snap, [enc], s);
    FailedAmong(trace, s, enc, part);
    SameHashesGood(bad, good, Apply(bad, snap, [enc]).run.store);
  }

  lemma {:induction false} FailedAmong(trace: seq<Step>, s: Step, enc: Enclave, part: Partition)
    requires s in trace && AttemptOf(s, enc, part) && s.reply.Failed?
    ensures FailedIn(trace, enc, part)
  {
  }

  /** Every answer in the log is the driver's. */
  lemma {:induction false} AnsweredByDriver(cfg: Config, snap: Store, ordered: seq<Enclave>, s: Step)
    requires Enumerates(cfg) && GoodStore(cfg, snap) && WellFormedConfig(ordered)
    requires s in Apply(cfg, snap, ordered).run.trace && s.Called?
    ensures exists t :: s.reply == cfg.oracle(t, s.call)
  {
    var trace := Apply(cfg, snap, ordered).run.trace;
    var k :| 0 <= k < |trace| && trace[k] == s;
    ApplyOk(cfg, snap, ordered);
    assert StepOkAt(cfg, snap, ordered, trace, k);
  }

  ghost function WholeRun(cfg: Config, snap: Store, ordered: seq<Enclave>): Episode
    requires Enumerates(cfg)
  {
    Episode(cfg, ordered, |Apply(cfg, snap, ordered).run.trace|)
  }

  lemma {:induction false} AfterTwoRuns(a: Config, b: Config, first: seq<Enclave>, second: seq<Enclave>)
    requires Enumerates(a) && Enumerates(b) && a.hashEnclave == b.hashEnclave && a.hashPartition == b.hashPartition
    requires WellFormedConfig(first) && WellFormedConfig(second) && GoodStore(a, Apply(a, map[], first).run.store)
    ensures var s1 := Apply(a, map[], first).run.store;
            var episodes := [WholeRun(a, map[], first), WholeRun(b, s1, second)];
            AllLegal(episodes, a) && StoreAfter(map[], episodes, a) == Apply(b, s1, second).run.store
  {
    var s1 := Apply(a, map[], first).run.store;
    var e1, e2 := WholeRun(a, map[], first), WholeRun(b, s1, second);
    var episodes := [e1, e2];
    forall i | 0 <= i < |episodes| ensures Legal(episodes[i], a.hashEnclave, a.hashPartition) {
      assert i == 0 || i == 1;
    }
    assert episodes[1..] == [e2] && [e2][1..] == [];
    EveryPersistedStateIsGood(a, map[], first, e1.steps);
    SameHashesGood(a, b, s1);
    EveryPersistedStateIsGood(b, s1, second, e2.steps);
    WholeTrace(a, map[], first, episodes, a);
    WholeTrace(b, s1, second, [e2], a);
  }

  lemma {:induction false} WholeTrace(cfg: Config, snap: Store, ordered: seq<Enclave>, episodes: seq<Episode>,
                                      any: Config)
    requires Enumerates(cfg) && GoodStore(cfg, snap) && WellFormedConfig(ordered)
    requires episodes != [] && episodes[0] == WholeRun(cfg, snap, ordered)
    requires AllLegal(episodes, any) && AllLegal(episodes[1..], any)
    ensures StoreAfter(snap, episodes, any) == StoreAfter(Apply(cfg, snap, ordered).run.store, episodes[1..], any)
  {
    var trace := Apply(cfg, snap, ordered).run.trace;
    EveryPersistedStateIsGood(cfg, snap, ordered, |trace|);
    assert trace[..|trace|] == trace;
  }

  /**
   From an empty store: a run that succeeds, a run whose change is refused, and then, with the first
   configuration back, an error-free run that leaves the partition in Error.
   */
  lemma {:induction false} CleanApplyCanLeaveError()
    returns (cfg: Config, history: seq<Episode>, ordered: seq<Enclave>, enc: Enclave, part: Partition)
    ensures AllLegal(history, cfg) && Enumerates(cfg) && WellFormedConfig(ordered) && ImportsResolve(ordered)
    ensures enc in ordered && part in enc.partitions
    ensures var store := StoreAfter(map[], history, cfg);
            && CleanRun(cfg, store, ordered)
            && enc.id in Apply(cfg, store, ordered).run.store
            && part.id in PartitionsOf(Apply(cfg, store, ordered).run.store, enc.id)
            && PartitionsOf(Apply(cfg, store, ordered).run.store, enc.id)[part.id].meta.status == Error
  {
    hide Apply, StoreAfter;
    var bad: Config;
    cfg, bad := DemoConfigs();
    part := Partition("p", "old", None, [], [], map[], [], Terraform(TerraformConfig(None, None, "")));
    enc := Enclave("e", "e", None, "local", None, None, None, [], [], [part]);
    ordered := [enc];
    var changed := part.(name := "new");
    var renamed := enc.(partitions := [changed]);
    DemoWellFormed(enc, part);
    DemoWellFormed(renamed, changed);
    FirstRunApplies(cfg, bad, enc, part);
    var s1 := Apply(cfg, map[], [enc]).run.store;
    SecondRunFails(cfg, bad, s1, renamed, changed);
    var s2 := Apply(bad, s1, [renamed]).run.store;
    history := [WholeRun(cfg, map[], [enc]), WholeRun(bad, s1, [renamed])];
    AfterTwoRuns(cfg, bad, [enc], [renamed]);
    SameHashesGood(cfg, bad, s1);
    assert HashMatches(bad, part, PartitionsOf(s1, renamed.id));
    FlawlessDrivers(cfg, s2, [enc]);
    RevertAfterFailureIsStuck(bad, s1, [renamed], renamed, changed, cfg, [enc], enc, part);
  }

  lemma {:induction false} DemoConfigs() returns (good: Config, bad: Config)
    ensures DemoConfig(good, bad)
  {
    good := Config((e: Enclave) => e.name, (p: Partition) => p.name, Local, {Local},
                   (e: Enclave, h: Handle) => map[], (e: Enclave, h: Handle) => map[],
                   (t: seq<Step>, c: Call) => Done(JNull, map[]),
                   (t: seq<Step>) => true, (t: seq<Step>) => 0, (t: seq<Step>) => "id",
                   (s: set<string>) => Ordering.SortedKeys(s), false);
    bad := good.(oracle := (t: seq<Step>, c: Call) =>
                   if c.ProvisionPartition? then Reply.Failed("refused") else Done(JNull, map[]));
    forall s: set<string> ensures Lists(good.enumerate(s), s) {
      SortedLists(s);
    }
  }
}
