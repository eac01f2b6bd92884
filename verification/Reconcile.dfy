/**
 The reconcile run as a function (crates/nclav-reconciler/src/reconcile.rs).

 Every store write, audit event and driver call is one step of a trace; the store is what
 the writes of the trace have made of it. The driver, the clock and the one store write
 whose failure is ignored answer as they please, as a function of the whole trace so far.
 A crash, or a store write that fails and aborts the run, leaves a prefix of the trace.
 */
module Reconcile {
  import opened Prelude
  import opened Json
  import opened Domain
  import opened State
  import opened Template

  type Store = map<EnclaveId, EnclaveState>

  // ----- the world outside -----

  datatype Call =
    | ProvisionEnclave(enc: Enclave, existing: Option<Handle>)
    | TeardownEnclave(enc: Enclave, handle: Handle)
    | ProvisionPartition(enc: Enclave, part: Partition, inputs: map<string, string>, existing: Option<Handle>)
    | TeardownPartition(enc: Enclave, part: Partition, handle: Handle)
    | RunTerraform(enc: Enclave, part: Partition, inputs: map<string, string>, env: map<string, string>)
    | DestroyTerraform(enc: Enclave, part: Partition, env: map<string, string>)
    | ProvisionExport(enc: Enclave, exp: Export, outputs: map<string, string>, existing: Option<Handle>)
    | ProvisionImport(enc: Enclave, imp: Import, exportHandle: Handle, existing: Option<Handle>)

  datatype Reply = Done(handle: Handle, outputs: map<string, string>) | Failed(msg: string)

  datatype Step =
    | Upserted(state: EnclaveState)
    | UpsertLost(state: EnclaveState)
    | Erased(id: EnclaveId)
    | Logged(event: AuditEvent)
    | Called(call: Call, reply: Reply)

  datatype Config = Config(
    hashEnclave: Enclave -> string,
    hashPartition: Partition -> string,
    defaultCloud: CloudTarget,
    drivers: set<CloudTarget>,
    contextVars: (Enclave, Handle) -> map<string, string>,
    authEnv: (Enclave, Handle) -> map<string, string>,
    oracle: (seq<Step>, Call) -> Reply,
    writeSurvives: seq<Step> -> bool,
    clock: seq<Step> -> Time,
    freshId: seq<Step> -> string,
    enumerate: set<string> -> seq<string>,
    resourcesOnly: bool)

  /** A hash set is visited in some order: each element, once. */
  ghost predicate Enumerates(cfg: Config) {
    forall s: set<string> :: Lists(cfg.enumerate(s), s)
  }

  function CloudOf(cfg: Config, enc: Enclave): CloudTarget {
    if enc.cloud.Some? then enc.cloud.value else cfg.defaultCloud
  }

  predicate HasDriver(cfg: Config, enc: Enclave) {
    CloudOf(cfg, enc) in cfg.drivers
  }

  // ----- a run in progress -----

  datatype Run = Run(store: Store, trace: seq<Step>, errors: seq<string>)

  function ApplyStep(store: Store, step: Step): Store {
    match step
    case Upserted(s) => store[s.desired.id := s]
    case Erased(id) => store - {id}
    case _ => store
  }

  function Log(r: Run, step: Step): Run {
    r.(store := ApplyStep(r.store, step), trace := r.trace + [step])
  }

  function Complain(r: Run, msg: string): Run {
    r.(errors := r.errors + [msg])
  }

  function Ask(cfg: Config, r: Run, call: Call): (Run, Reply) {
    var reply := cfg.oracle(r.trace, call);
    (Log(r, Called(call, reply)), reply)
  }

  /** `upsert(..).await.ok()`: the run goes on whether or not the write took place. */
  function UpsertBestEffort(cfg: Config, r: Run, s: EnclaveState): Run {
    Log(r, if cfg.writeSurvives(r.trace) then Upserted(s) else UpsertLost(s))
  }

  // ----- partitions -----

  predicate HashMatches(cfg: Config, part: Partition, parts: map<PartitionId, PartitionState>) {
    part.id in parts && parts[part.id].meta.desiredHash == Some(cfg.hashPartition(part))
  }

  function InFlight(ps: PartitionState, part: Partition): PartitionState {
    ps.(desired := part,
        meta := ps.meta.(status := if ps.handle.Some? then Updating else Provisioning))
  }

  function WithPartition(es: EnclaveState, id: PartitionId, ps: PartitionState): EnclaveState {
    es.(partitions := es.partitions[id := ps])
  }

  function ContextOf(cfg: Config, enc: Enclave, handle: Option<Handle>): map<string, string> {
    if handle.Some? then cfg.contextVars(enc, handle.value) else map[]
  }

  const CREDENTIALS := "GOOGLE_APPLICATION_CREDENTIALS"
  const IMPERSONATE := "GOOGLE_IMPERSONATE_SERVICE_ACCOUNT"

  /** The account a driver's handle names, if it names one. */
  function AccountOf(sa: Handle): Option<string> {
    var account := Get(sa, "partition_sa");
    if account.Some? then AsString(account.value) else None
  }

  /** The enclave's environment; with a key file in it, Terraform impersonates the partition's account. */
  function TerraformEnv(cfg: Config, enc: Enclave, handle: Option<Handle>, sa: Handle): map<string, string> {
    var env := if handle.Some? then cfg.authEnv(enc, handle.value) else map[];
    if CREDENTIALS in env && AccountOf(sa).Some? then env[IMPERSONATE := AccountOf(sa).value] else env
  }

  /** The Terraform handle, with the partition account of the driver's handle carried over. */
  function MergeAccount(tf: Handle, sa: Handle): Handle {
    if AccountOf(sa).Some? then SetField(tf, "partition_sa", JStr(AccountOf(sa).value)) else tf
  }

  function PartitionFailed(cfg: Config, r: Run, enc: Enclave, es: EnclaveState, part: Partition, ps: PartitionState,
                           msg: string)
    : (Run, EnclaveState)
  {
    var failed := ps.(meta := MarkError(ps.meta, cfg.clock(r.trace), msg));
    var r1 := Log(r, Logged(PartitionError(cfg.freshId(r.trace), cfg.clock(r.trace), enc.id, part.id, msg)));
    (Complain(r1, "partition " + enc.id + "/" + part.id + ": " + msg), WithPartition(es, part.id, failed))
  }

  function PartitionSucceeded(cfg: Config, r: Run, enc: Enclave, es: EnclaveState, part: Partition, ps: PartitionState,
                              handle: Handle, outputs: map<string, string>)
    : (Run, EnclaveState)
  {
    var active := ps.(handle := Some(handle), outputs := outputs,
                      meta := MarkActive(ps.meta, cfg.clock(r.trace), cfg.hashPartition(part)));
    var r1 := Log(r, Logged(PartitionProvisioned(cfg.freshId(r.trace), cfg.clock(r.trace), enc.id, part.id)));
    (r1, WithPartition(es, part.id, active))
  }

  /** The record written before the driver is asked. */
  function Announced(es: EnclaveState, part: Partition): PartitionState {
    InFlight(if part.id in es.partitions then es.partitions[part.id] else NewPartitionState(part), part)
  }

  /** From the driver's reply on: keep its handle, run Terraform, settle the record. */
  function FinishPartition(cfg: Config, r: Run, enc: Enclave, es: EnclaveState, part: Partition, ps: PartitionState,
                           inputs: map<string, string>, sa: Reply)
    : (Run, EnclaveState)
  {
    if sa.Failed? then PartitionFailed(cfg, r, enc, es, part, ps, sa.msg)
    else
      var ps1 := ps.(handle := Some(sa.handle));
      var es1 := WithPartition(es, part.id, ps1);
      var r1 := UpsertBestEffort(cfg, r, es1);
      var (r2, tf) := Ask(cfg, r1, RunTerraform(enc, part, inputs, TerraformEnv(cfg, enc, es.handle, sa.handle)));
      if tf.Failed? then PartitionFailed(cfg, r2, enc, es1, part, ps1, tf.msg)
      else PartitionSucceeded(cfg, r2, enc, es1, part, ps1, MergeAccount(tf.handle, sa.handle), tf.outputs)
  }

  function RunPartition(cfg: Config, r: Run, enc: Enclave, es: EnclaveState, part: Partition): (Run, EnclaveState) {
    if HashMatches(cfg, part, es.partitions) then (r, es)
    else
      var inputs := ResolveInputs(part.inputs, es.importHandles, ContextOf(cfg, enc, es.handle));
      var ps := Announced(es, part);
      var es1 := WithPartition(es, part.id, ps);
      var (r1, sa) := Ask(cfg, Log(r, Upserted(es1)), ProvisionPartition(enc, part, inputs, ps.handle));
      FinishPartition(cfg, r1, enc, es1, part, ps, inputs, sa)
  }

  function RunPartitions(cfg: Config, r: Run, enc: Enclave, es: EnclaveState, parts: seq<Partition>)
    : (Run, EnclaveState)
    decreases |parts|
  {
    if parts == [] then (r, es)
    else
      var (r1, es1) := RunPartition(cfg, r, enc, es, parts[0]);
      RunPartitions(cfg, r1, enc, es1, parts[1..])
  }

  // ----- exports -----

  function RunExport(cfg: Config, r: Run, enc: Enclave, es: EnclaveState, exp: Export): (Run, EnclaveState) {
    var outputs := if exp.targetPartition in es.partitions then es.partitions[exp.targetPartition].outputs else map[];
    var existing := if exp.name in es.exportHandles then Some(es.exportHandles[exp.name]) else None;
    var (r1, reply) := Ask(cfg, r, ProvisionExport(enc, exp, outputs, existing));
    match reply
    case Done(handle, _) =>
      var es1 := es.(exportHandles := es.exportHandles[exp.name := handle]);
      (Log(r1, Logged(ExportWired(cfg.freshId(r1.trace), cfg.clock(r1.trace), enc.id, exp.name))), es1)
    case Failed(msg) =>
      (Complain(r1, "export " + enc.id + "/" + exp.name + ": " + msg), es)
  }

  function RunExports(cfg: Config, r: Run, enc: Enclave, es: EnclaveState, exports: seq<Export>): (Run, EnclaveState)
    decreases |exports|
  {
    if exports == [] then (r, es)
    else
      var (r1, es1) := RunExport(cfg, r, enc, es, exports[0]);
      RunExports(cfg, r1, enc, es1, exports[1..])
  }

  // ----- enclaves -----

  function BeginEnclave(cfg: Config, snap: Store, enc: Enclave): EnclaveState {
    var es := if enc.id in snap then snap[enc.id] else NewEnclaveState(enc);
    es.(desired := enc, resolvedCloud := Some(CloudOf(cfg, enc)),
        meta := es.meta.(status := if enc.id in snap then Updating else Provisioning))
  }

  function HandleIn(snap: Store, id: EnclaveId): Option<Handle> {
    if id in snap then snap[id].handle else None
  }

  function CloudName(c: CloudTarget): string {
    match c
    case Local => "local"
    case Gcp => "gcp"
    case Azure => "azure"
    case Aws => "aws"
  }

  function NoDriver(cfg: Config, enc: Enclave): string {
    "enclave " + enc.id + ": driver not configured for cloud: " + CloudName(CloudOf(cfg, enc))
  }

  function RunEnclave(cfg: Config, snap: Store, r: Run, enc: Enclave): Run {
    if !HasDriver(cfg, enc) then Complain(r, NoDriver(cfg, enc))
    else
      var es0 := BeginEnclave(cfg, snap, enc);
      var r0 := Log(r, Upserted(es0));
      var (r1, reply) := Ask(cfg, r0, ProvisionEnclave(enc, HandleIn(snap, enc.id)));
      match reply
      case Failed(msg) =>
        var r2 := Log(r1, Upserted(es0.(meta := MarkError(es0.meta, cfg.clock(r1.trace), msg))));
        var r3 := Log(r2, Logged(EnclaveError(cfg.freshId(r2.trace), cfg.clock(r2.trace), enc.id, msg)));
        Complain(r3, "enclave " + enc.id + ": " + msg)
      case Done(handle, _) =>
        var es1 := es0.(handle := Some(handle),
                        meta := MarkActive(es0.meta, cfg.clock(r1.trace), cfg.hashEnclave(enc)));
        var (r2, es2) := RunPartitions(cfg, r1, enc, es1, enc.partitions);
        var (r3, es3) := RunExports(cfg, r2, enc, es2, enc.exports);
        var r4 := Log(r3, Logged(EnclaveProvisioned(cfg.freshId(r3.trace), cfg.clock(r3.trace), enc.id)));
        Log(r4, Upserted(es3))
  }

  function RunEnclaves(cfg: Config, snap: Store, r: Run, ordered: seq<Enclave>): Run
    decreases |ordered|
  {
    if ordered == [] then r
    else RunEnclaves(cfg, snap, RunEnclave(cfg, snap, r, ordered[0]), ordered[1..])
  }

  // ----- imports -----

  /** Enclave-level imports, then those of each partition. */
  function AllImports(enc: Enclave): seq<Import> {
    enc.imports + PartitionImports(enc.partitions)
  }

  function PartitionImports(parts: seq<Partition>): seq<Import> {
    if parts == [] then [] else parts[0].imports + PartitionImports(parts[1..])
  }

  /** The handle of an export, if its enclave is stored and has wired it. */
  function ExportHandle(store: Store, imp: Import): Option<Handle> {
    if imp.from in store && imp.exportName in store[imp.from].exportHandles
    then Some(store[imp.from].exportHandles[imp.exportName]) else None
  }

  function RunImport(cfg: Config, r: Run, enc: Enclave, es: EnclaveState, imp: Import): (Run, EnclaveState) {
    if imp.alias in es.importHandles then (r, es)
    else
      var exportHandle := ExportHandle(r.store, imp);
      if exportHandle.None? then (r, es)
      else
        var (r1, reply) := Ask(cfg, r, ProvisionImport(enc, imp, exportHandle.value, None));
        match reply
        case Done(handle, _) =>
          var es1 := es.(importHandles := es.importHandles[imp.alias := handle]);
          (Log(r1, Logged(ImportWired(cfg.freshId(r1.trace), cfg.clock(r1.trace), enc.id, imp.exportName))), es1)
        case Failed(msg) =>
          (Complain(r1, "import " + enc.id + "/" + imp.alias + ": " + msg), es)
  }

  function RunImports(cfg: Config, r: Run, enc: Enclave, es: EnclaveState, imports: seq<Import>): (Run, EnclaveState)
    decreases |imports|
  {
    if imports == [] then (r, es)
    else
      var (r1, es1) := RunImport(cfg, r, enc, es, imports[0]);
      RunImports(cfg, r1, enc, es1, imports[1..])
  }

  function WireEnclave(cfg: Config, r: Run, enc: Enclave): Run {
    if !HasDriver(cfg, enc) || enc.id !in r.store then r
    else
      var es := r.store[enc.id];
      var (r1, es1) := RunImports(cfg, r, enc, es, AllImports(enc));
      if es1 != es then Log(r1, Upserted(es1)) else r1
  }

  function WireEnclaves(cfg: Config, r: Run, ordered: seq<Enclave>): Run
    decreases |ordered|
  {
    if ordered == [] then r
    else WireEnclaves(cfg, WireEnclave(cfg, r, ordered[0]), ordered[1..])
  }

  // ----- removed enclaves -----

  function TeardownPart(cfg: Config, r: Run, id: EnclaveId, enc: Enclave, env: map<string, string>, pid: PartitionId,
                        ps: PartitionState): Run {
    var (r1, tf) := Ask(cfg, r, DestroyTerraform(enc, ps.desired, env));
    var r2 := if tf.Failed? then Complain(r1, "teardown " + id + "/" + pid + ": " + tf.msg) else r1;
    if ps.handle.Some? then Ask(cfg, r2, TeardownPartition(enc, ps.desired, ps.handle.value)).0 else r2
  }

  function TeardownParts(cfg: Config, r: Run, id: EnclaveId, es: EnclaveState, env: map<string, string>,
                         pids: seq<PartitionId>): Run
    requires forall i :: 0 <= i < |pids| ==> pids[i] in es.partitions
    decreases |pids|
  {
    if pids == [] then r
    else
      var r1 := TeardownPart(cfg, r, id, es.desired, env, pids[0], es.partitions[pids[0]]);
      TeardownParts(cfg, r1, id, es, env, pids[1..])
  }

  /** The driver that tears a stored enclave down: the one recorded, else the default one. */
  function TeardownCloud(cfg: Config, es: EnclaveState): CloudTarget {
    if es.resolvedCloud.Some? then es.resolvedCloud.value else cfg.defaultCloud
  }

  /** Tear one enclave down; `Some(msg)` when the driver's refusal aborts the whole run. */
  function Remove(cfg: Config, snap: Store, r: Run, id: EnclaveId): (Run, Option<string>)
    requires id in snap && Enumerates(cfg)
  {
    var es := snap[id];
    if TeardownCloud(cfg, es) !in cfg.drivers || es.handle.None? then (Log(r, Erased(id)), None)
    else
      assert Lists(cfg.enumerate(es.partitions.Keys), es.partitions.Keys);
      var env := cfg.authEnv(es.desired, es.handle.value);
      var r1 := TeardownParts(cfg, r, id, es, env, cfg.enumerate(es.partitions.Keys));
      if cfg.resourcesOnly then (Log(r1, Erased(id)), None)
      else
        var (r2, reply) := Ask(cfg, r1, TeardownEnclave(es.desired, es.handle.value));
        if reply.Failed? then (r2, Some(reply.msg)) else (Log(r2, Erased(id)), None)
  }

  function RemoveAll(cfg: Config, snap: Store, r: Run, ids: seq<EnclaveId>): (Run, Option<string>)
    requires Enumerates(cfg) && forall i :: 0 <= i < |ids| ==> ids[i] in snap
    decreases |ids|
  {
    if ids == [] then (r, None)
    else
      var (r1, aborted) := Remove(cfg, snap, r, ids[0]);
      if aborted.Some? then (r1, aborted) else RemoveAll(cfg, snap, r1, ids[1..])
  }

  // ----- the plan -----

  datatype Change =
    | EnclaveCreated(id: EnclaveId)
    | EnclaveUpdated(id: EnclaveId)
    | EnclaveDeleted(id: EnclaveId)
    | PartitionCreated(enclaveId: EnclaveId, partitionId: PartitionId)
    | PartitionUpdated(enclaveId: EnclaveId, partitionId: PartitionId)
    | ExportToWire(enclaveId: EnclaveId, exportName: string)
    | ImportToWire(importerEnclave: EnclaveId, alias: string)

  function Deletions(ids: seq<EnclaveId>): (r: seq<Change>)
    ensures |r| == |ids| && forall i :: 0 <= i < |ids| ==> r[i] == EnclaveDeleted(ids[i])
  {
    seq(|ids|, i requires 0 <= i < |ids| => EnclaveDeleted(ids[i]))
  }

  function PartitionsOf(snap: Store, id: EnclaveId): map<PartitionId, PartitionState> {
    if id in snap then snap[id].partitions else map[]
  }

  function EnclaveDiff(cfg: Config, snap: Store, enc: Enclave): seq<Change> {
    if enc.id !in snap then [EnclaveCreated(enc.id)]
    else if snap[enc.id].meta.desiredHash != Some(cfg.hashEnclave(enc)) then [EnclaveUpdated(enc.id)]
    else []
  }

  function PartitionDiff(cfg: Config, snap: Store, enc: Enclave, part: Partition): seq<Change> {
    if part.id !in PartitionsOf(snap, enc.id) then [PartitionCreated(enc.id, part.id)]
    else if !HashMatches(cfg, part, PartitionsOf(snap, enc.id)) then [PartitionUpdated(enc.id, part.id)]
    else []
  }

  function ExportDiff(snap: Store, enc: Enclave, exp: Export): seq<Change> {
    if enc.id in snap && exp.name in snap[enc.id].exportHandles then [] else [ExportToWire(enc.id, exp.name)]
  }

  function ImportDiff(snap: Store, enc: Enclave, imp: Import): seq<Change> {
    if enc.id in snap && imp.alias in snap[enc.id].importHandles then [] else [ImportToWire(enc.id, imp.alias)]
  }

  function PartitionDiffs(cfg: Config, snap: Store, enc: Enclave, parts: seq<Partition>): seq<Change> {
    if parts == [] then [] else PartitionDiff(cfg, snap, enc, parts[0]) + PartitionDiffs(cfg, snap, enc, parts[1..])
  }

  function ExportDiffs(snap: Store, enc: Enclave, exports: seq<Export>): seq<Change> {
    if exports == [] then [] else ExportDiff(snap, enc, exports[0]) + ExportDiffs(snap, enc, exports[1..])
  }

  function ImportDiffs(snap: Store, enc: Enclave, imports: seq<Import>): seq<Change> {
    if imports == [] then [] else ImportDiff(snap, enc, imports[0]) + ImportDiffs(snap, enc, imports[1..])
  }

  function OwnDiffs(cfg: Config, snap: Store, enc: Enclave): seq<Change> {
    EnclaveDiff(cfg, snap, enc) + PartitionDiffs(cfg, snap, enc, enc.partitions) + ExportDiffs(snap, enc, enc.exports)
  }

  function AllOwnDiffs(cfg: Config, snap: Store, ordered: seq<Enclave>): seq<Change> {
    if ordered == [] then [] else OwnDiffs(cfg, snap, ordered[0]) + AllOwnDiffs(cfg, snap, ordered[1..])
  }

  function AllImportDiffs(snap: Store, ordered: seq<Enclave>): seq<Change> {
    if ordered == [] then []
    else ImportDiffs(snap, ordered[0], AllImports(ordered[0])) + AllImportDiffs(snap, ordered[1..])
  }

  function Removed(cfg: Config, snap: Store, ordered: seq<Enclave>): seq<EnclaveId> {
    cfg.enumerate(snap.Keys - IdSet(ordered))
  }

  /** The change list: what a dry run reports and an apply announces. */
  function Plan(cfg: Config, snap: Store, ordered: seq<Enclave>): seq<Change> {
    Deletions(Removed(cfg, snap, ordered)) + AllOwnDiffs(cfg, snap, ordered) + AllImportDiffs(snap, ordered)
  }

  // ----- the whole run -----

  /** The state of an apply: where it ended, and the driver error that aborted it, if one did. */
  datatype Outcome = Outcome(run: Run, aborted: Option<string>)

  function Started(cfg: Config, snap: Store): Run {
    Log(Run(snap, [], []), Logged(ReconcileStarted(cfg.freshId([]), cfg.clock([]), false)))
  }

  function AfterRemovals(cfg: Config, snap: Store, ordered: seq<Enclave>): (Run, Option<string>)
    requires Enumerates(cfg)
  {
    RemovedAreStored(cfg, snap, ordered);
    RemoveAll(cfg, snap, Started(cfg, snap), Removed(cfg, snap, ordered))
  }

  function Finished(cfg: Config, snap: Store, ordered: seq<Enclave>, r: Run): Run {
    Log(r, Logged(ReconcileCompleted(cfg.freshId([]), cfg.clock(r.trace), |Plan(cfg, snap, ordered)|, false)))
  }

  /** Removals first, then every enclave in order, then the imports of every enclave. */
  function Apply(cfg: Config, snap: Store, ordered: seq<Enclave>): Outcome
    requires Enumerates(cfg)
  {
    var (r1, aborted) := AfterRemovals(cfg, snap, ordered);
    if aborted.Some? then Outcome(r1, aborted)
    else
      var r2 := RunEnclaves(cfg, snap, r1, ordered);
      var r3 := WireEnclaves(cfg, r2, ordered);
      Outcome(Finished(cfg, snap, ordered, r3), None)
  }

  lemma {:induction false} RemovedAreStored(cfg: Config, snap: Store, ordered: seq<Enclave>)
    requires Enumerates(cfg)
    ensures forall i :: 0 <= i < |Removed(cfg, snap, ordered)| ==> Removed(cfg, snap, ordered)[i] in snap
  {
    var ids := Removed(cfg, snap, ordered);
    assert Lists(ids, snap.Keys - IdSet(ordered));
    forall i | 0 <= i < |ids| ensures ids[i] in snap {
      assert ids[i] in ids;
    }
  }
}
