/**
 The reconcile run as the code performs it: one object holding the store, the log of steps
 and the error report, updated in place by nested loops. Each method is proved to do what
 the function of the same pass in module Reconcile says.
 */
module ReconcileEngine {
  import opened Prelude
  import opened Json
  import opened Domain
  import opened State
  import opened Reconcile
  import opened ReconcileProtocol
  import opened ReconcileFixpoint
  import opened ReconcileTheorems
  import ReconcilePlan
  import Template
  import Validate

  // ----- the order in which enclaves are handled -----

  function Chosen(byId: map<EnclaveId, Enclave>, topo: seq<EnclaveId>): seq<Enclave> {
    if topo == [] then []
    else (if topo[0] in byId then [byId[topo[0]]] else []) + Chosen(byId, topo[1..])
  }

  function Unlisted(desired: seq<Enclave>, topo: seq<EnclaveId>): seq<Enclave> {
    if desired == [] then []
    else (if desired[0].id in topo then [] else [desired[0]]) + Unlisted(desired[1..], topo)
  }

  /** The enclaves in topological order, then any that the order does not list. */
  function InOrder(desired: seq<Enclave>, topo: seq<EnclaveId>): seq<Enclave> {
    Chosen(Validate.ById(desired), topo) + Unlisted(desired, topo)
  }

  /** `ordered` is the configuration, each enclave once, exporters before their importers. */
  ghost predicate Arranged(ordered: seq<Enclave>, desired: seq<Enclave>) {
    && (forall e :: e in ordered <==> e in desired)
    && |ordered| == |desired| && DistinctIds(ordered)
    && forall i, j | 0 <= i < |ordered| && 0 <= j < |ordered| ::
         Validate.DependsOn(desired, ordered[j].id, ordered[i].id) ==> i < j
  }

  lemma {:induction false} ChosenAll(byId: map<EnclaveId, Enclave>, topo: seq<EnclaveId>)
    requires forall id :: id in topo ==> id in byId
    ensures |Chosen(byId, topo)| == |topo| && forall i :: 0 <= i < |topo| ==> Chosen(byId, topo)[i] == byId[topo[i]]
    decreases |topo|
  {
    if topo != [] {
      assert topo == [topo[0]] + topo[1..];
      ChosenAll(byId, topo[1..]);
    }
  }

  lemma {:induction false} NoneUnlisted(desired: seq<Enclave>, topo: seq<EnclaveId>)
    requires forall e :: e in desired ==> e.id in topo
    ensures Unlisted(desired, topo) == []
    decreases |desired|
  {
    if desired != [] {
      assert desired == [desired[0]] + desired[1..];
      NoneUnlisted(desired[1..], topo);
    }
  }

  lemma {:induction false} TopoIdsKnown(desired: seq<Enclave>, topo: seq<EnclaveId>)
    requires DistinctIds(desired) && Validate.ExportersFirst(topo, desired)
    ensures forall id :: id in topo ==> id in Validate.ById(desired)
  {
    var ids := Validate.Ids(desired);
    forall i, j | 0 <= i < j < |ids| ensures ids[i] != ids[j] {
    }
    CountDistinct(topo);
    forall id | id in ids ensures id in topo {
      var i :| 0 <= i < |ids| && ids[i] == id;
      assert desired[i] in desired;
    }
    DistinctExhausts(ids, Elements(topo));
    forall id | id in topo ensures id in Validate.ById(desired) {
      assert id in Elements(topo);
      var i :| 0 <= i < |ids| && ids[i] == id;
      assert desired[i] in desired;
      assert Validate.Known(desired, id);
    }
  }

  /** Looking ids up in order gives the enclaves in that order. */
  lemma {:induction false} InOrderIds(desired: seq<Enclave>, topo: seq<EnclaveId>)
    requires DistinctIds(desired) && Validate.ExportersFirst(topo, desired)
    ensures var ordered := InOrder(desired, topo);
            |ordered| == |topo| && forall i :: 0 <= i < |topo| ==> ordered[i] in desired && ordered[i].id == topo[i]
  {
    var byId := Validate.ById(desired);
    TopoIdsKnown(desired, topo);
    ChosenAll(byId, topo);
    NoneUnlisted(desired, topo);
    assert InOrder(desired, topo) == Chosen(byId, topo);
    forall i | 0 <= i < |topo| ensures InOrder(desired, topo)[i] in desired && InOrder(desired, topo)[i].id == topo[i] {
      assert topo[i] in topo;
    }
  }

  lemma {:induction false} InOrderArranges(desired: seq<Enclave>, topo: seq<EnclaveId>)
    requires DistinctIds(desired) && Validate.ExportersFirst(topo, desired)
    ensures Arranged(InOrder(desired, topo), desired)
  {
    InOrderIds(desired, topo);
    InTopoOrder(InOrder(desired, topo), desired, topo);
  }

  lemma {:induction false} InTopoOrder(ordered: seq<Enclave>, desired: seq<Enclave>, topo: seq<EnclaveId>)
    requires DistinctIds(desired) && Validate.ExportersFirst(topo, desired)
    requires |ordered| == |topo| && forall i :: 0 <= i < |topo| ==> ordered[i] in desired && ordered[i].id == topo[i]
    ensures Arranged(ordered, desired)
  {
    forall e | e in desired ensures e in ordered {
      var i :| 0 <= i < |topo| && topo[i] == e.id;
      SameEnclave(desired, e, ordered[i]);
    }
    forall e | e in ordered ensures e in desired {
      var i :| 0 <= i < |ordered| && ordered[i] == e;
    }
    forall i, j | 0 <= i < |ordered| && 0 <= j < |ordered| && Validate.DependsOn(desired, ordered[j].id, ordered[i].id)
      ensures i < j
    {
      assert Validate.DependsOn(desired, topo[j], topo[i]);
    }
  }

  /** Validation is what makes every import resolvable. */
  lemma {:induction false} ContractsResolve(desired: seq<Enclave>, ordered: seq<Enclave>)
    requires forall e :: e in ordered <==> e in desired
    requires forall e :: e in desired ==> Validate.EnclaveContracts(e, Validate.ById(desired))
    ensures ImportsResolve(ordered)
  {
    var byId := Validate.ById(desired);
    forall e, i | e in ordered && i in AllImports(e) ensures Resolves(ordered, i) {
      ReconcilePlan.AllImportsMembers(e, i);
      assert Validate.EnclaveContracts(e, byId);
      assert Validate.ImportContract(e.id, i, byId);
      assert byId[i.from] in desired;
    }
  }

  // ----- the run -----

  lemma {:induction false} ApplyKeepsGood(cfg: Config, snap: Store, ordered: seq<Enclave>)
    requires Enumerates(cfg) && GoodStore(cfg, snap) && WellFormedConfig(ordered)
    ensures GoodStore(cfg, Apply(cfg, snap, ordered).run.store)
  {
    hide Apply;
    ApplyOk(cfg, snap, ordered);
  }

  datatype Report = Report(dryRun: bool, changes: seq<Change>, errors: seq<string>)

  datatype ReconcileError = GraphFault(error: Validate.GraphError) | DriverFault(msg: string)

  class Engine {
    const cfg: Config
    var store: Store
    var trace: seq<Step>
    var errors: seq<string>

    ghost function View(): Run
      reads this
    {
      Run(store, trace, errors)
    }

    constructor (cfg: Config, store: Store)
      ensures this.cfg == cfg && View() == Run(store, [], [])
    {
      this.cfg, this.store, trace, errors := cfg, store, [], [];
    }

    // ----- single steps -----

    method Upsert(s: EnclaveState)
      modifies this
      ensures View() == Log(old(View()), Upserted(s))
    {
      store := store[s.desired.id := s];
      trace := trace + [Upserted(s)];
    }

    method TryUpsert(s: EnclaveState)
      modifies this
      ensures View() == UpsertBestEffort(cfg, old(View()), s)
    {
      if cfg.writeSurvives(trace) {
        Upsert(s);
      } else {
        trace := trace + [UpsertLost(s)];
      }
    }

    method Erase(id: EnclaveId)
      modifies this
      ensures View() == Log(old(View()), Erased(id))
    {
      store := store - {id};
      trace := trace + [Erased(id)];
    }

    method AppendEvent(ev: AuditEvent)
      modifies this
      ensures View() == Log(old(View()), Logged(ev))
    {
      trace := trace + [Logged(ev)];
    }

    method AskDriver(call: Call) returns (reply: Reply)
      modifies this
      ensures (View(), reply) == Ask(cfg, old(View()), call)
    {
      reply := cfg.oracle(trace, call);
      trace := trace + [Called(call, reply)];
    }

    method AddError(msg: string)
      modifies this
      ensures View() == Complain(old(View()), msg)
    {
      errors := errors + [msg];
    }

    // ----- the diff -----

    method ComputePlan(actual: Store, ordered: seq<Enclave>) returns (changes: seq<Change>)
      ensures changes == Plan(cfg, actual, ordered)
      ensures Enumerates(cfg) ==> forall c :: c in changes <==> ReconcilePlan.Due(cfg, actual, ordered, c)
    {
      var removed := cfg.enumerate(actual.Keys - IdSet(ordered));
      changes := Deletions(removed);
      ghost var start := changes;
      for i := 0 to |ordered|
        invariant changes + AllOwnDiffs(cfg, actual, ordered[i..]) == start + AllOwnDiffs(cfg, actual, ordered)
      {
        var own := DiffEnclave(actual, ordered[i]);
        assert ordered[i..][0] == ordered[i] && ordered[i..][1..] == ordered[i + 1..];
        Assoc(changes, own, AllOwnDiffs(cfg, actual, ordered[i + 1..]));
        changes := changes + own;
      }
      assert changes == start + AllOwnDiffs(cfg, actual, ordered);
      ghost var middle := changes;
      for i := 0 to |ordered|
        invariant changes + AllImportDiffs(actual, ordered[i..]) == middle + AllImportDiffs(actual, ordered)
      {
        var own := DiffImports(actual, ordered[i]);
        assert ordered[i..][0] == ordered[i] && ordered[i..][1..] == ordered[i + 1..];
        Assoc(changes, own, AllImportDiffs(actual, ordered[i + 1..]));
        changes := changes + own;
      }
      ListsDue(actual, ordered, changes);
    }

    lemma {:induction false} ListsDue(actual: Store, ordered: seq<Enclave>, changes: seq<Change>)
      requires changes == Plan(cfg, actual, ordered)
      ensures Enumerates(cfg) ==> forall c :: c in changes <==> ReconcilePlan.Due(cfg, actual, ordered, c)
    {
      hide Plan, ReconcilePlan.Due;
      forall c | Enumerates(cfg) ensures c in changes <==> ReconcilePlan.Due(cfg, actual, ordered, c) {
        ReconcilePlan.ListedIffDue(cfg, actual, ordered, c);
      }
    }

    method DiffEnclave(actual: Store, enc: Enclave) returns (changes: seq<Change>)
      ensures changes == OwnDiffs(cfg, actual, enc)
    {
      changes := EnclaveDiff(cfg, actual, enc);
      ghost var start := changes;
      var parts := enc.partitions;
      for i := 0 to |parts|
        invariant changes + PartitionDiffs(cfg, actual, enc, parts[i..]) == start
                  + PartitionDiffs(cfg, actual, enc, parts)
      {
        var own := PartitionDiff(cfg, actual, enc, parts[i]);
        assert parts[i..][0] == parts[i] && parts[i..][1..] == parts[i + 1..];
        Assoc(changes, own, PartitionDiffs(cfg, actual, enc, parts[i + 1..]));
        changes := changes + own;
      }
      assert changes == start + PartitionDiffs(cfg, actual, enc, parts);
      ghost var middle := changes;
      var exports := enc.exports;
      for i := 0 to |exports|
        invariant changes + ExportDiffs(actual, enc, exports[i..]) == middle + ExportDiffs(actual, enc, exports)
      {
        var own := ExportDiff(actual, enc, exports[i]);
        assert exports[i..][0] == exports[i] && exports[i..][1..] == exports[i + 1..];
        Assoc(changes, own, ExportDiffs(actual, enc, exports[i + 1..]));
        changes := changes + own;
      }
      assert changes == middle + ExportDiffs(actual, enc, exports);
    }

    method DiffImports(actual: Store, enc: Enclave) returns (changes: seq<Change>)
      ensures changes == ImportDiffs(actual, enc, AllImports(enc))
    {
      changes := [];
      var imports := AllImports(enc);
      for i := 0 to |imports|
        invariant changes + ImportDiffs(actual, enc, imports[i..]) == ImportDiffs(actual, enc, imports)
      {
        var own := ImportDiff(actual, enc, imports[i]);
        assert imports[i..][0] == imports[i] && imports[i..][1..] == imports[i + 1..];
        Assoc(changes, own, ImportDiffs(actual, enc, imports[i + 1..]));
        changes := changes + own;
      }
    }

    // ----- removed enclaves -----

    method TeardownPartitions(id: EnclaveId, es: EnclaveState, env: map<string, string>, pids: seq<PartitionId>)
      requires forall i :: 0 <= i < |pids| ==> pids[i] in es.partitions
      modifies this
      ensures View() == TeardownParts(cfg, old(View()), id, es, env, pids)
    {
      for i := 0 to |pids|
        invariant TeardownParts(cfg, View(), id, es, env, pids[i..])
                  == TeardownParts(cfg, old(View()), id, es, env, pids)
      {
        assert pids[i..][0] == pids[i] && pids[i..][1..] == pids[i + 1..];
        var ps := es.partitions[pids[i]];
        var tf := AskDriver(DestroyTerraform(es.desired, ps.desired, env));
        if tf.Failed? {
          AddError("teardown " + id + "/" + pids[i] + ": " + tf.msg);
        }
        if ps.handle.Some? {
          var _ := AskDriver(TeardownPartition(es.desired, ps.desired, ps.handle.value));
        }
      }
    }

    method RemoveEnclave(actual: Store, id: EnclaveId) returns (aborted: Option<string>)
      requires id in actual && Enumerates(cfg)
      modifies this
      ensures (View(), aborted) == Remove(cfg, actual, old(View()), id)
    {
      var es := actual[id];
      var cloud := if es.resolvedCloud.Some? then es.resolvedCloud.value else cfg.defaultCloud;
      if cloud in cfg.drivers {
        if es.handle.Some? {
          var pids := cfg.enumerate(es.partitions.Keys);
          assert Lists(pids, es.partitions.Keys);
          var env := cfg.authEnv(es.desired, es.handle.value);
          TeardownPartitions(id, es, env, pids);
          if !cfg.resourcesOnly {
            var reply := AskDriver(TeardownEnclave(es.desired, es.handle.value));
            if reply.Failed? {
              return Some(reply.msg);
            }
          }
        }
      }
      Erase(id);
      return None;
    }

    method RemoveEnclaves(actual: Store, ids: seq<EnclaveId>) returns (aborted: Option<string>)
      requires Enumerates(cfg) && forall i :: 0 <= i < |ids| ==> ids[i] in actual
      modifies this
      ensures (View(), aborted) == RemoveAll(cfg, actual, old(View()), ids)
    {
      for i := 0 to |ids|
        invariant RemoveAll(cfg, actual, View(), ids[i..]) == RemoveAll(cfg, actual, old(View()), ids)
      {
        assert ids[i..][0] == ids[i] && ids[i..][1..] == ids[i + 1..];
        aborted := RemoveEnclave(actual, ids[i]);
        if aborted.Some? {
          return;
        }
      }
      return None;
    }

    // ----- provisioning -----

    method ProvisionPartitions(enc: Enclave, es0: EnclaveState) returns (es: EnclaveState)
      modifies this
      ensures (View(), es) == RunPartitions(cfg, old(View()), enc, es0, enc.partitions)
    {
      es := es0;
      var parts := enc.partitions;
      for i := 0 to |parts|
        invariant RunPartitions(cfg, View(), enc, es, parts[i..]) == RunPartitions(cfg, old(View()), enc, es0, parts)
      {
        assert parts[i..][0] == parts[i] && parts[i..][1..] == parts[i + 1..];
        es := ProvisionOne(enc, es, parts[i]);
      }
    }

    method ProvisionOne(enc: Enclave, es0: EnclaveState, part: Partition) returns (es: EnclaveState)
      modifies this
      ensures (View(), es) == RunPartition(cfg, old(View()), enc, es0, part)
    {
      es := es0;
      var hash := cfg.hashPartition(part);
      if part.id in es.partitions && es.partitions[part.id].meta.desiredHash == Some(hash) {
        return;
      }
      var context := if es.handle.Some? then cfg.contextVars(enc, es.handle.value) else map[];
      var inputs := Template.ResolveInputs(part.inputs, es.importHandles, context);

      var ps := if part.id in es.partitions then es.partitions[part.id] else NewPartitionState(part);
      ps := ps.(desired := part);
      ps := ps.(meta := ps.meta.(status := if ps.handle.Some? then Updating else Provisioning));
      es := es.(partitions := es.partitions[part.id := ps]);
      Upsert(es);

      var sa := AskDriver(ProvisionPartition(enc, part, inputs, ps.handle));
      es := Settle(enc, es, part, ps, inputs, sa, hash);
    }

    method Settle(enc: Enclave, es0: EnclaveState, part: Partition, ps0: PartitionState, inputs: map<string, string>,
                  sa: Reply, hash: string)
      returns (es: EnclaveState)
      requires hash == cfg.hashPartition(part)
      modifies this
      ensures (View(), es) == FinishPartition(cfg, old(View()), enc, es0, part, ps0, inputs, sa)
    {
      es := es0;
      var ps := ps0;
      var outcome := sa;
      if sa.Done? {
        ps := ps.(handle := Some(sa.handle));
        es := es.(partitions := es.partitions[part.id := ps]);
        TryUpsert(es);
        var env := if es.handle.Some? then cfg.authEnv(enc, es.handle.value) else map[];
        if CREDENTIALS in env && AccountOf(sa.handle).Some? {
          env := env[IMPERSONATE := AccountOf(sa.handle).value];
        }
        outcome := AskDriver(RunTerraform(enc, part, inputs, env));
      }
      match outcome {
        case Done(handle, outputs) =>
          ps := ps.(handle := Some(MergeAccount(handle, sa.handle)), outputs := outputs,
                    meta := MarkActive(ps.meta, cfg.clock(trace), hash));
          AppendEvent(PartitionProvisioned(cfg.freshId(trace), cfg.clock(trace), enc.id, part.id));
        case Failed(msg) =>
          ps := ps.(meta := MarkError(ps.meta, cfg.clock(trace), msg));
          AppendEvent(PartitionError(cfg.freshId(trace), cfg.clock(trace), enc.id, part.id, msg));
          AddError("partition " + enc.id + "/" + part.id + ": " + msg);
      }
      es := es.(partitions := es.partitions[part.id := ps]);
    }

    method ProvisionExports(enc: Enclave, es0: EnclaveState) returns (es: EnclaveState)
      modifies this
      ensures (View(), es) == RunExports(cfg, old(View()), enc, es0, enc.exports)
    {
      es := es0;
      var exports := enc.exports;
      for i := 0 to |exports|
        invariant RunExports(cfg, View(), enc, es, exports[i..]) == RunExports(cfg, old(View()), enc, es0, exports)
      {
        assert exports[i..][0] == exports[i] && exports[i..][1..] == exports[i + 1..];
        var exp := exports[i];
        var outputs := if exp.targetPartition in es.partitions then es.partitions[exp.targetPartition].outputs
            else map[];
        var existing := if exp.name in es.exportHandles then Some(es.exportHandles[exp.name]) else None;
        var reply := AskDriver(ProvisionExport(enc, exp, outputs, existing));
        match reply {
          case Done(handle, _) =>
            es := es.(exportHandles := es.exportHandles[exp.name := handle]);
            AppendEvent(ExportWired(cfg.freshId(trace), cfg.clock(trace), enc.id, exp.name));
          case Failed(msg) =>
            AddError("export " + enc.id + "/" + exp.name + ": " + msg);
        }
      }
    }

    method ProvisionOneEnclave(actual: Store, enc: Enclave)
      modifies this
      ensures View() == RunEnclave(cfg, actual, old(View()), enc)
    {
      var cloud := CloudOf(cfg, enc);
      if cloud !in cfg.drivers {
        AddError("enclave " + enc.id + ": driver not configured for cloud: " + CloudName(cloud));
        return;
      }
      var es := if enc.id in actual then actual[enc.id] else NewEnclaveState(enc);
      es := es.(desired := enc);
      es := es.(resolvedCloud := Some(cloud));
      es := es.(meta := es.meta.(status := if enc.id in actual then Updating else Provisioning));
      Upsert(es);

      var reply := AskDriver(ProvisionEnclave(enc, if enc.id in actual then actual[enc.id].handle else None));
      match reply {
        case Failed(msg) =>
          es := es.(meta := MarkError(es.meta, cfg.clock(trace), msg));
          Upsert(es);
          AppendEvent(EnclaveError(cfg.freshId(trace), cfg.clock(trace), enc.id, msg));
          AddError("enclave " + enc.id + ": " + msg);
        case Done(handle, _) =>
          es := es.(handle := Some(handle), meta := MarkActive(es.meta, cfg.clock(trace), cfg.hashEnclave(enc)));
          es := ProvisionPartitions(enc, es);
          es := ProvisionExports(enc, es);
          AppendEvent(EnclaveProvisioned(cfg.freshId(trace), cfg.clock(trace), enc.id));
          Upsert(es);
      }
    }

    method ProvisionEnclaves(actual: Store, ordered: seq<Enclave>)
      modifies this
      ensures View() == RunEnclaves(cfg, actual, old(View()), ordered)
    {
      for i := 0 to |ordered|
        invariant RunEnclaves(cfg, actual, View(), ordered[i..]) == RunEnclaves(cfg, actual, old(View()), ordered)
      {
        assert ordered[i..][0] == ordered[i] && ordered[i..][1..] == ordered[i + 1..];
        ProvisionOneEnclave(actual, ordered[i]);
      }
    }

    // ----- imports -----

    method WireImports(enc: Enclave)
      modifies this
      ensures View() == WireEnclave(cfg, old(View()), enc)
    {
      if CloudOf(cfg, enc) !in cfg.drivers || enc.id !in store {
        return;
      }
      ghost var es0 := store[enc.id];
      var es := store[enc.id];
      var changed := false;
      var imports := AllImports(enc);
      for i := 0 to |imports|
        invariant RunImports(cfg, View(), enc, es, imports[i..]) == RunImports(cfg, old(View()), enc, es0, imports)
        invariant es0.importHandles.Keys <= es.importHandles.Keys
        invariant !changed ==> es == es0
        invariant changed ==> es0.importHandles.Keys < es.importHandles.Keys
      {
        assert imports[i..][0] == imports[i] && imports[i..][1..] == imports[i + 1..];
        var imp := imports[i];
        if imp.alias !in es.importHandles {
          if imp.from in store && imp.exportName in store[imp.from].exportHandles {
            var reply := AskDriver(ProvisionImport(enc, imp, store[imp.from].exportHandles[imp.exportName], None));
            match reply {
              case Done(handle, _) =>
                es := es.(importHandles := es.importHandles[imp.alias := handle]);
                AppendEvent(ImportWired(cfg.freshId(trace), cfg.clock(trace), enc.id, imp.exportName));
                changed := true;
              case Failed(msg) =>
                AddError("import " + enc.id + "/" + imp.alias + ": " + msg);
            }
          }
        }
      }
      if changed {
        Upsert(es);
      }
    }

    method WireAllImports(ordered: seq<Enclave>)
      modifies this
      ensures View() == WireEnclaves(cfg, old(View()), ordered)
    {
      for i := 0 to |ordered|
        invariant WireEnclaves(cfg, View(), ordered[i..]) == WireEnclaves(cfg, old(View()), ordered)
      {
        assert ordered[i..][0] == ordered[i] && ordered[i..][1..] == ordered[i + 1..];
        WireImports(ordered[i]);
      }
    }

    // ----- the whole run -----

    method ApplyAll(ordered: seq<Enclave>, changes: seq<Change>) returns (aborted: Option<string>)
      requires Enumerates(cfg) && trace == [] && errors == [] && changes == Plan(cfg, store, ordered)
      modifies this
      ensures Outcome(View(), aborted) == Apply(cfg, old(store), ordered)
    {
      var actual := store;
      var runId := cfg.freshId(trace);
      AppendEvent(ReconcileStarted(runId, cfg.clock(trace), false));
      RemovedAreStored(cfg, actual, ordered);
      aborted := RemoveEnclaves(actual, cfg.enumerate(actual.Keys - IdSet(ordered)));
      if aborted.Some? {
        return;
      }
      ProvisionEnclaves(actual, ordered);
      WireAllImports(ordered);
      AppendEvent(ReconcileCompleted(runId, cfg.clock(trace), |changes|, false));
    }

    /** `reconcile`: validate, plan, stop there on a dry run, otherwise apply. */
    method Reconcile(desired: seq<Enclave>, dryRun: bool)
      returns (r: Result<Report, ReconcileError>, ghost ordered: seq<Enclave>)
      requires Enumerates(cfg) && GoodStore(cfg, store) && WellFormedConfig(desired)
      modifies this
      ensures GoodStore(cfg, store)
      ensures r.Err? && r.error.GraphFault? ==> store == old(store) && trace == []
      ensures !(r.Err? && r.error.GraphFault?) ==> Arranged(ordered, desired) && ImportsResolve(ordered)
      ensures !(r.Err? && r.error.GraphFault?) && dryRun ==>
                store == old(store) && trace == [] && r == Ok(Report(true, Plan(cfg, store, ordered), []))
      ensures !(r.Err? && r.error.GraphFault?) && !dryRun ==>
                var outcome := Apply(cfg, old(store), ordered);
                && View() == outcome.run
                && r == if outcome.aborted.Some? then Err(DriverFault(outcome.aborted.value))
                        else Ok(Report(false, Plan(cfg, old(store), ordered), outcome.run.errors))
      ensures r.Ok? && !dryRun && r.value.errors == [] ==> Converged(cfg, store, ordered)
    {
      hide Apply, Plan, Converged, ImportsResolve, Arranged, RunOk;
      trace, errors, ordered := [], [], [];
      var resolved := Validate.Validate(desired);
      if resolved.Err? {
        return Err(GraphFault(resolved.error)), [];
      }
      var todo := InOrder(desired, resolved.value.topoOrder);
      ordered := todo;
      InOrderArranges(desired, resolved.value.topoOrder);
      Validate.NoFaultsMeansContracts(desired);
      ContractsResolve(desired, todo);
      var changes := ComputePlan(store, todo);
      if dryRun {
        return Ok(Report(true, changes, [])), ordered;
      }
      ApplyKeepsGood(cfg, store, todo);
      ghost var before := store;
      var aborted := ApplyAll(todo, changes);
      if aborted.Some? {
        return Err(DriverFault(aborted.value)), ordered;
      }
      if errors == [] {
        CleanApplyConverges(cfg, before, todo);
      }
      return Ok(Report(false, changes, errors)), ordered;
    }
  }
}
