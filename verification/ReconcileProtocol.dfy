/**
 What holds at every point of every reconcile run: of each stored record, and of each
 driver call and each removal at the moment it is made.
 */
module ReconcileProtocol {
  import opened Prelude
  import opened Json
  import opened Domain
  import opened State
  import opened Template
  import opened Reconcile

  // ----- stored records -----

  /** A partition is Active exactly when its hash is that of its stored configuration. */
  ghost predicate PartitionRecord(cfg: Config, ps: PartitionState) {
    && ps.meta.status in {Provisioning, Updating, Active, Error}
    && (ps.meta.status == Active <==> ps.meta.desiredHash == Some(cfg.hashPartition(ps.desired)))
    && (ps.meta.status == Active ==> ps.handle.Some?)
    && (ps.meta.status == Error ==> ps.meta.lastError.Some?)
  }

  ghost predicate PartitionRecords(cfg: Config, parts: map<PartitionId, PartitionState>) {
    forall pid :: pid in parts ==> parts[pid].desired.id == pid && PartitionRecord(cfg, parts[pid])
  }

  ghost predicate EnclaveRecord(cfg: Config, es: EnclaveState) {
    && (es.meta.status == Active ==> es.meta.desiredHash == Some(cfg.hashEnclave(es.desired)) && es.handle.Some?)
    && (es.meta.status == Error ==> es.meta.lastError.Some?)
    && PartitionRecords(cfg, es.partitions)
  }

  ghost predicate GoodStore(cfg: Config, store: Store) {
    forall id :: id in store ==> store[id].desired.id == id && EnclaveRecord(cfg, store[id])
  }

  // ----- steps -----

  /** The change list of a run from `snap` names this partition as created or updated. */
  ghost predicate Planned(cfg: Config, snap: Store, ordered: seq<Enclave>, enc: Enclave, part: Partition) {
    enc in ordered && part in enc.partitions && !HashMatches(cfg, part, PartitionsOf(snap, enc.id))
  }

  /** The cloud the enclave asks for, or the default one; there is a driver for it. */
  ghost predicate Drives(cfg: Config, enc: Enclave, cloud: Option<CloudTarget>) {
    && cloud == (if enc.cloud.Some? then enc.cloud else Some(cfg.defaultCloud))
    && cloud.value in cfg.drivers
  }

  /** Before the cloud is touched, the record says so and says which driver to use. */
  ghost predicate EnclaveAnnounced(cfg: Config, snap: Store, store: Store, enc: Enclave, existing: Option<Handle>) {
    && enc.id in store && store[enc.id].desired == enc
    && store[enc.id].meta.status == (if enc.id in snap then Updating else Provisioning)
    && Drives(cfg, enc, store[enc.id].resolvedCloud)
    && existing == (if enc.id in snap then snap[enc.id].handle else None)
  }

  ghost predicate PartitionAnnounced(cfg: Config, store: Store, enc: Enclave, part: Partition,
                                     inputs: map<string, string>, existing: Option<Handle>) {
    && enc.id in store && part.id in store[enc.id].partitions
    && var es, ps := store[enc.id], store[enc.id].partitions[part.id];
    && es.handle.Some? && Drives(cfg, enc, es.resolvedCloud)
    && ps.desired == part && ps.handle == existing
    && ps.meta.status == (if existing.Some? then Updating else Provisioning)
    && Expanded(part.inputs, es.importHandles, cfg.contextVars(enc, es.handle.value), inputs)
  }

  /** Every input, under its own key, with its template expanded. */
  ghost predicate Expanded(given: map<string, string>, imports: map<string, Handle>, ctx: map<string, string>,
                           inputs: map<string, string>) {
    inputs.Keys == given.Keys && forall k :: k in given ==> inputs[k] == Expand(given[k], imports, ctx)
  }

  /** A driver's handle names this account. */
  predicate Names(sa: Handle, account: string) {
    Get(sa, "partition_sa") == Some(JStr(account))
  }

  /** The driver's environment; with a key file in it and an account named, also that account to act as. */
  ghost predicate EnvironmentFor(base: map<string, string>, sa: Handle, env: map<string, string>) {
    if "GOOGLE_APPLICATION_CREDENTIALS" in base && exists a :: Names(sa, a)
    then exists a :: Names(sa, a) && env == base["GOOGLE_IMPERSONATE_SERVICE_ACCOUNT" := a]
    else env == base
  }

  /** Terraform's handle, in which the account named by the driver's handle has been entered. */
  ghost predicate CarriesAccount(handle: Handle, tf: Handle, sa: Handle) {
    if exists a :: Names(sa, a) then
      tf.JObj? || tf.JNull? ==>
        Get(handle, "partition_sa") == Get(sa, "partition_sa")
        && forall k :: k != "partition_sa" ==> Get(handle, k) == Get(tf, k)
    else handle == tf
  }

  /**
   Terraform runs right after the driver's handle for the partition was written, or the write was lost,
   with the environment of the stored enclave handle and as the account the driver has just named.
   */
  ghost predicate AccountWritten(cfg: Config, store: Store, trace: seq<Step>, enc: Enclave, part: Partition,
                                 inputs: map<string, string>, env: map<string, string>) {
    && |trace| >= 2
    && var asked, wrote := trace[|trace| - 2], trace[|trace| - 1];
    && asked.Called? && asked.call.ProvisionPartition? && asked.call.enc == enc && asked.call.part == part
    && asked.call.inputs == inputs && asked.reply.Done?
    && enc.id in store && store[enc.id].handle.Some?
    && EnvironmentFor(cfg.authEnv(enc, store[enc.id].handle.value), asked.reply.handle, env)
    && ((wrote.UpsertLost? && !cfg.writeSurvives(trace[..|trace| - 1])) ||
        (&& wrote.Upserted?
         && part.id in store[enc.id].partitions
         && store[enc.id].partitions[part.id].desired == part
         && store[enc.id].partitions[part.id].handle == Some(asked.reply.handle)))
  }

  /** With a key file in the environment, Terraform acts as the account the driver's handle names. */
  ghost predicate RunsAs(env: map<string, string>, sa: Handle) {
    forall a :: "GOOGLE_APPLICATION_CREDENTIALS" in env && Names(sa, a) ==>
      && "GOOGLE_IMPERSONATE_SERVICE_ACCOUNT" in env
      && env["GOOGLE_IMPERSONATE_SERVICE_ACCOUNT"] == a
  }

  /** There is a driver for the cloud the stored enclave was made in, or else for the default one. */
  ghost predicate HasTeardownDriver(cfg: Config, es: EnclaveState) {
    (if es.resolvedCloud.Some? then es.resolvedCloud.value else cfg.defaultCloud) in cfg.drivers
  }

  /** A record goes only after its enclave was torn down, or when there was nothing to tear down with. */
  ghost predicate RemovalAllowed(cfg: Config, snap: Store, ordered: seq<Enclave>, trace: seq<Step>, id: EnclaveId) {
    && id in snap && id !in IdSet(ordered)
    && var es := snap[id];
    && (|| es.handle.None?
        || !HasTeardownDriver(cfg, es)
        || (PartitionsTornDown(snap, trace, id) && (cfg.resourcesOnly || EnclaveTornDown(snap, trace, id))))
  }

  /** The driver has just torn the enclave down. */
  ghost predicate EnclaveTornDown(snap: Store, trace: seq<Step>, id: EnclaveId)
    requires id in snap && snap[id].handle.Some?
  {
    && |trace| >= 1
    && var last := trace[|trace| - 1];
    && last.Called? && last.reply.Done? && last.call == TeardownEnclave(snap[id].desired, snap[id].handle.value)
  }

  /** Everything below an enclave may be destroyed: it is stored, and the configuration no longer has it. */
  ghost predicate Doomed(cfg: Config, snap: Store, ordered: seq<Enclave>, enc: Enclave) {
    && enc.id in snap && enc.id !in IdSet(ordered) && snap[enc.id].desired == enc
    && HasTeardownDriver(cfg, snap[enc.id])
  }

  ghost predicate DoomedPartition(cfg: Config, snap: Store, ordered: seq<Enclave>, enc: Enclave, part: Partition) {
    && Doomed(cfg, snap, ordered, enc)
    && part.id in snap[enc.id].partitions && snap[enc.id].partitions[part.id].desired == part
  }

  ghost predicate DestroyedIn(trace: seq<Step>, enc: Enclave, part: Partition) {
    exists s :: s in trace && s.Called? && s.call.DestroyTerraform? && s.call.enc == enc && s.call.part == part
  }

  ghost predicate CleanedIn(trace: seq<Step>, enc: Enclave, part: Partition, handle: Handle) {
    exists s :: s in trace && s.Called? && s.call == TeardownPartition(enc, part, handle)
  }

  /** Terraform has been asked to destroy the partition, and the driver to clean up what it made for it. */
  ghost predicate TornDownIn(trace: seq<Step>, enc: Enclave, ps: PartitionState) {
    && DestroyedIn(trace, enc, ps.desired)
    && (ps.handle.Some? ==> CleanedIn(trace, enc, ps.desired, ps.handle.value))
  }

  ghost predicate PartitionsTornDown(snap: Store, trace: seq<Step>, id: EnclaveId)
    requires id in snap
  {
    forall pid :: pid in snap[id].partitions ==> TornDownIn(trace, snap[id].desired, snap[id].partitions[pid])
  }

  /** What must hold when a driver call is made. */
  ghost predicate CallOk(cfg: Config, snap: Store, ordered: seq<Enclave>, store: Store, trace: seq<Step>, call: Call) {
    match call
    case ProvisionEnclave(enc, existing) => EnclaveAnnounced(cfg, snap, store, enc, existing)
    case ProvisionPartition(enc, part, inputs, existing) =>
      PartitionAnnounced(cfg, store, enc, part, inputs, existing) && Planned(cfg, snap, ordered, enc, part)
    case RunTerraform(enc, part, inputs, env) => AccountWritten(cfg, store, trace, enc, part, inputs, env)
    case ProvisionImport(enc, imp, exportHandle, existing) =>
      && enc in ordered && imp in AllImports(enc)
      && (if enc.cloud.Some? then enc.cloud.value else cfg.defaultCloud) in cfg.drivers
      && imp.from in store && imp.exportName in store[imp.from].exportHandles
      && exportHandle == store[imp.from].exportHandles[imp.exportName] && existing == None
    case DestroyTerraform(enc, part, env) =>
      && DoomedPartition(cfg, snap, ordered, enc, part)
      && snap[enc.id].handle.Some? && env == cfg.authEnv(enc, snap[enc.id].handle.value)
    case TeardownPartition(enc, part, handle) =>
      && DoomedPartition(cfg, snap, ordered, enc, part) && snap[enc.id].partitions[part.id].handle == Some(handle)
      && trace != [] && trace[|trace| - 1].Called? && trace[|trace| - 1].call.DestroyTerraform?
      && trace[|trace| - 1].call.enc == enc && trace[|trace| - 1].call.part == part
    case TeardownEnclave(enc, handle) =>
      && Doomed(cfg, snap, ordered, enc) && snap[enc.id].handle == Some(handle) && !cfg.resourcesOnly
      && PartitionsTornDown(snap, trace, enc.id)
    case _ => true
  }

  ghost predicate LastCall(trace: seq<Step>, enc: EnclaveId, part: PartitionId) {
    && trace != []
    && var last := trace[|trace| - 1];
    && last.Called? && (last.call.ProvisionPartition? || last.call.RunTerraform?)
    && last.call.enc.id == enc && last.call.part.id == part
  }

  ghost predicate AcceptedIn(trace: seq<Step>, enc: EnclaveId) {
    exists s :: s in trace && s.Called? && s.call.ProvisionEnclave? && s.call.enc.id == enc && s.reply.Done?
  }

  /** An event says what the driver has just answered. */
  ghost predicate EventTrue(trace: seq<Step>, ev: AuditEvent) {
    match ev
    case PartitionProvisioned(_, _, e, p) =>
      LastCall(trace, e, p) && trace[|trace| - 1].call.RunTerraform? && trace[|trace| - 1].reply.Done?
    case PartitionError(_, _, e, p, msg) => LastCall(trace, e, p) && trace[|trace| - 1].reply == Reply.Failed(msg)
    case EnclaveError(_, _, e, msg) =>
      && |trace| >= 2
      && var asked := trace[|trace| - 2];
      && asked.Called? && asked.call.ProvisionEnclave? && asked.call.enc.id == e && asked.reply == Reply.Failed(msg)
    case EnclaveProvisioned(_, _, e) => AcceptedIn(trace, e)
    case ExportWired(_, _, e, name) =>
      && trace != []
      && var last := trace[|trace| - 1];
      && last.Called? && last.call.ProvisionExport? && last.reply.Done?
      && last.call.enc.id == e && last.call.exp.name == name
    case ImportWired(_, _, e, name) =>
      && trace != []
      && var last := trace[|trace| - 1];
      && last.Called? && last.call.ProvisionImport? && last.reply.Done?
      && last.call.enc.id == e && last.call.imp.exportName == name
    case ReconcileStarted(_, _, _) => trace == []
    case ReconcileCompleted(_, _, _, _) => true
  }

  /** Terraform's k-th answer, and the driver's answer before it, are what this record holds. */
  ghost predicate EarnedAt(trace: seq<Step>, k: int, id: EnclaveId, ps: PartitionState) {
    && 2 <= k < |trace|
    && var asked, ran := trace[k - 2], trace[k];
    && asked.Called? && asked.call.ProvisionPartition? && asked.reply.Done?
    && ran.Called? && ran.call.RunTerraform? && ran.reply.Done?
    && ran.call.enc.id == id && ran.call.part == ps.desired
    && asked.call.enc == ran.call.enc && asked.call.part == ran.call.part && asked.call.inputs == ran.call.inputs
    && RunsAs(ran.call.env, asked.reply.handle)
    && ps.outputs == ran.reply.outputs && ps.handle == Some(MergeAccount(ran.reply.handle, asked.reply.handle))
    && CarriesAccount(ps.handle.value, ran.reply.handle, asked.reply.handle)
  }

  ghost predicate Earned(trace: seq<Step>, id: EnclaveId, ps: PartitionState) {
    exists k :: EarnedAt(trace, k, id, ps)
  }

  /** An Active partition was found so when the run began, or has been provisioned by it. */
  ghost predicate Backed(snap: Store, trace: seq<Step>, es: EnclaveState) {
    forall pid :: pid in es.partitions && es.partitions[pid].meta.status == Active ==>
      || (pid in PartitionsOf(snap, es.desired.id) && es.partitions[pid] == PartitionsOf(snap, es.desired.id)[pid])
      || Earned(trace, es.desired.id, es.partitions[pid])
  }

  ghost predicate AllBacked(snap: Store, trace: seq<Step>, store: Store) {
    forall id :: id in store ==> Backed(snap, trace, store[id])
  }

  ghost predicate StepOk(cfg: Config, snap: Store, ordered: seq<Enclave>, store: Store, trace: seq<Step>, step: Step) {
    && GoodStore(cfg, ApplyStep(store, step))
    && match step
       case Called(call, reply) => CallOk(cfg, snap, ordered, store, trace, call) && reply == cfg.oracle(trace, call)
       case Erased(id) => RemovalAllowed(cfg, snap, ordered, trace, id)
       case Logged(ev) => EventTrue(trace, ev)
       case Upserted(es) => Backed(snap, trace, es)
       case UpsertLost(es) => Backed(snap, trace, es)
  }

  // ----- traces -----

  /** The store as a run that stopped after these steps has left it. */
  ghost function Replay(snap: Store, trace: seq<Step>): Store {
    if trace == [] then snap
    else ApplyStep(Replay(snap, trace[..|trace| - 1]), trace[|trace| - 1])
  }

  ghost predicate StepsOk(cfg: Config, snap: Store, ordered: seq<Enclave>, trace: seq<Step>) {
    forall k :: 0 <= k < |trace| ==> StepOkAt(cfg, snap, ordered, trace, k)
  }

  ghost predicate StepOkAt(cfg: Config, snap: Store, ordered: seq<Enclave>, trace: seq<Step>, k: int)
    requires 0 <= k < |trace|
  {
    StepOk(cfg, snap, ordered, Replay(snap, trace[..k]), trace[..k], trace[k])
  }

  ghost predicate RunOk(cfg: Config, snap: Store, ordered: seq<Enclave>, r: Run) {
    && GoodStore(cfg, r.store)
    && r.store == Replay(snap, r.trace)
    && StepsOk(cfg, snap, ordered, r.trace)
    && AllBacked(snap, r.trace, r.store)
  }

  lemma {:induction false} EarnedLater(a: seq<Step>, b: seq<Step>, id: EnclaveId, ps: PartitionState)
    requires a <= b && Earned(a, id, ps)
    ensures Earned(b, id, ps)
  {
    var k :| EarnedAt(a, k, id, ps);
    assert EarnedAt(b, k, id, ps);
  }

  lemma {:induction false} BackedLater(snap: Store, a: seq<Step>, b: seq<Step>, es: EnclaveState)
    requires a <= b && Backed(snap, a, es)
    ensures Backed(snap, b, es)
  {
    forall pid | pid in es.partitions && Earned(a, es.desired.id, es.partitions[pid])
      ensures Earned(b, es.desired.id, es.partitions[pid])
    {
      EarnedLater(a, b, es.desired.id, es.partitions[pid]);
    }
  }

  lemma {:induction false} AllBackedLater(snap: Store, trace: seq<Step>, store: Store, step: Step)
    requires AllBacked(snap, trace, store)
    requires step.Upserted? ==> Backed(snap, trace, step.state)
    ensures AllBacked(snap, trace + [step], ApplyStep(store, step))
  {
    var next := ApplyStep(store, step);
    forall id | id in next ensures Backed(snap, trace + [step], next[id]) {
      BackedLater(snap, trace, trace + [step], next[id]);
    }
  }

  lemma {:induction false} LogOk(cfg: Config, snap: Store, ordered: seq<Enclave>, r: Run, step: Step)
    requires RunOk(cfg, snap, ordered, r) && StepOk(cfg, snap, ordered, r.store, r.trace, step)
    ensures RunOk(cfg, snap, ordered, Log(r, step))
  {
    var trace := r.trace + [step];
    AllBackedLater(snap, r.trace, r.store, step);
    assert trace[..|r.trace|] == r.trace;
    forall k | 0 <= k < |trace| ensures StepOkAt(cfg, snap, ordered, trace, k) {
      if k < |r.trace| {
        assert StepOkAt(cfg, snap, ordered, r.trace, k);
        assert trace[..k] == r.trace[..k];
      }
    }
  }

  // ----- every part of the run keeps this -----

  lemma {:induction false} UpsertOk(cfg: Config, snap: Store, ordered: seq<Enclave>, r: Run, s: EnclaveState)
    requires RunOk(cfg, snap, ordered, r) && EnclaveRecord(cfg, s) && Backed(snap, r.trace, s)
    ensures RunOk(cfg, snap, ordered, Log(r, Upserted(s)))
    ensures RunOk(cfg, snap, ordered, Log(r, UpsertLost(s)))
  {
    LogOk(cfg, snap, ordered, r, Upserted(s));
    LogOk(cfg, snap, ordered, r, UpsertLost(s));
  }

  lemma {:induction false} EventOk(cfg: Config, snap: Store, ordered: seq<Enclave>, r: Run, ev: AuditEvent)
    requires RunOk(cfg, snap, ordered, r) && EventTrue(r.trace, ev)
    ensures RunOk(cfg, snap, ordered, Log(r, Logged(ev)))
  {
    LogOk(cfg, snap, ordered, r, Logged(ev));
  }

  lemma {:induction false} ComplainOk(cfg: Config, snap: Store, ordered: seq<Enclave>, r: Run, msg: string)
    requires RunOk(cfg, snap, ordered, r)
    ensures RunOk(cfg, snap, ordered, Complain(r, msg))
  {
  }

  lemma {:induction false} AskOk(cfg: Config, snap: Store, ordered: seq<Enclave>, r: Run, call: Call)
    requires RunOk(cfg, snap, ordered, r) && CallOk(cfg, snap, ordered, r.store, r.trace, call)
    ensures RunOk(cfg, snap, ordered, Ask(cfg, r, call).0)
    ensures Ask(cfg, r, call).0.store == r.store
  {
    LogOk(cfg, snap, ordered, r, Called(call, cfg.oracle(r.trace, call)));
  }

  /** The working copy of an enclave's state while its partitions and exports are being run. */
  ghost predicate Working(cfg: Config, snap: Store, trace: seq<Step>, enc: Enclave, es: EnclaveState) {
    && es.desired == enc && es.handle.Some? && Drives(cfg, enc, es.resolvedCloud)
    && EnclaveRecord(cfg, es) && Backed(snap, trace, es)
  }

  lemma {:induction false} WorkingLater(cfg: Config, snap: Store, a: seq<Step>, b: seq<Step>, enc: Enclave,
                                        es: EnclaveState)
    requires a <= b && Working(cfg, snap, a, enc, es)
    ensures Working(cfg, snap, b, enc, es)
  {
    BackedLater(snap, a, b, es);
  }

  lemma {:induction false} SetPartition(cfg: Config, snap: Store, trace: seq<Step>, enc: Enclave, es: EnclaveState,
                                        part: Partition, ps: PartitionState)
    requires Working(cfg, snap, trace, enc, es) && ps.desired == part && PartitionRecord(cfg, ps)
    requires ps.meta.status == Active ==> Earned(trace, enc.id, ps)
    ensures Working(cfg, snap, trace, enc, WithPartition(es, part.id, ps))
  {
  }

  /** The first half: the in-flight record is written, then the driver is asked. */
  lemma {:induction false} AnnounceOk(cfg: Config, snap: Store, ordered: seq<Enclave>, r: Run, enc: Enclave,
                                      es1: EnclaveState, part: Partition, inputs: map<string, string>)
    requires RunOk(cfg, snap, ordered, r) && Working(cfg, snap, r.trace, enc, es1)
             && Planned(cfg, snap, ordered, enc, part)
    requires part.id in es1.partitions && es1.partitions[part.id].desired == part
    requires es1.partitions[part.id].meta.status
             == if es1.partitions[part.id].handle.Some? then Updating else Provisioning
    requires inputs == ResolveInputs(part.inputs, es1.importHandles, ContextOf(cfg, enc, es1.handle))
    ensures RunOk(cfg, snap, ordered,
                  Ask(cfg, Log(r, Upserted(es1)),
                      ProvisionPartition(enc, part, inputs, es1.partitions[part.id].handle)).0)
  {
    hide RunOk;
    UpsertOk(cfg, snap, ordered, r, es1);
    AskOk(cfg, snap, ordered, Log(r, Upserted(es1)),
          ProvisionPartition(enc, part, inputs, es1.partitions[part.id].handle));
  }

  /** The second half: the driver's handle is written, if it can be, then Terraform is run. */
  lemma {:induction false} TerraformOk(cfg: Config, snap: Store, ordered: seq<Enclave>, r2: Run, enc: Enclave,
                                       es2: EnclaveState, part: Partition, inputs: map<string, string>,
                                       existing: Option<Handle>, sa: Reply)
    requires RunOk(cfg, snap, ordered, r2) && Working(cfg, snap, r2.trace, enc, es2) && sa.Done?
    requires part.id in es2.partitions && es2.partitions[part.id].desired == part
    requires es2.partitions[part.id].handle == Some(sa.handle)
    requires enc.id in r2.store && r2.store[enc.id].handle == es2.handle
    requires r2.trace != [] && r2.trace[|r2.trace| - 1] == Called(ProvisionPartition(enc, part, inputs, existing), sa)
    ensures RunOk(cfg, snap, ordered,
                  Ask(cfg, UpsertBestEffort(cfg, r2, es2),
                      RunTerraform(enc, part, inputs, TerraformEnv(cfg, enc, es2.handle, sa.handle))).0)
  {
    hide RunOk, Backed;
    UpsertOk(cfg, snap, ordered, r2, es2);
    var r3 := UpsertBestEffort(cfg, r2, es2);
    assert r3.trace[|r3.trace| - 2] == r2.trace[|r2.trace| - 1] && r3.trace[..|r3.trace| - 1] == r2.trace;
    EnvIsFor(cfg, enc, es2.handle.value, sa.handle);
    AskOk(cfg, snap, ordered, r3, RunTerraform(enc, part, inputs, TerraformEnv(cfg, enc, es2.handle, sa.handle)));
  }

  lemma {:induction false} AccountNamed(sa: Handle)
    ensures match AccountOf(sa)
            case Some(a) => Names(sa, a) && forall b :: Names(sa, b) ==> b == a
            case None => forall b :: !Names(sa, b)
  {
  }

  lemma {:induction false} EnvIsFor(cfg: Config, enc: Enclave, handle: Handle, sa: Handle)
    ensures EnvironmentFor(cfg.authEnv(enc, handle), sa, TerraformEnv(cfg, enc, Some(handle), sa))
  {
    AccountNamed(sa);
  }

  lemma {:induction false} MergeCarries(tf: Handle, sa: Handle)
    ensures CarriesAccount(MergeAccount(tf, sa), tf, sa)
  {
    AccountNamed(sa);
    if AccountOf(sa).Some? && (tf.JObj? || tf.JNull?) {
      var account := JStr(AccountOf(sa).value);
      forall k ensures Get(MergeAccount(tf, sa), k) == if k == "partition_sa" then Some(account) else Get(tf, k) {
        GetAfterSet(tf, "partition_sa", account, k);
      }
    }
  }

  lemma {:induction false} EnvRunsAs(cfg: Config, enc: Enclave, handle: Option<Handle>, sa: Handle)
    ensures RunsAs(TerraformEnv(cfg, enc, handle, sa), sa)
  {
    AccountNamed(sa);
  }

  lemma {:induction false} FinishPartitionOk(cfg: Config, snap: Store, ordered: seq<Enclave>, r: Run, enc: Enclave,
                                             es: EnclaveState, part: Partition, ps: PartitionState,
                                             inputs: map<string, string>, existing: Option<Handle>, sa: Reply)
    requires RunOk(cfg, snap, ordered, r) && Working(cfg, snap, r.trace, enc, es)
    requires ps.desired == part && PartitionRecord(cfg, ps) && ps.meta.status in {Provisioning, Updating}
    requires r.trace != [] && r.trace[|r.trace| - 1] == Called(ProvisionPartition(enc, part, inputs, existing), sa)
    requires enc.id in r.store && r.store[enc.id].handle == es.handle
    ensures var (r', es') := FinishPartition(cfg, r, enc, es, part, ps, inputs, sa);
            RunOk(cfg, snap, ordered, r') && Working(cfg, snap, r'.trace, enc, es') && r.trace <= r'.trace
  {
    hide RunOk, Backed, TerraformEnv, RunsAs;
    if sa.Failed? {
      FailedOk(cfg, snap, ordered, r, enc, es, part, ps, sa.msg);
    } else {
      var ps1 := ps.(handle := Some(sa.handle));
      SetPartition(cfg, snap, r.trace, enc, es, part, ps1);
      var es1 := WithPartition(es, part.id, ps1);
      TerraformOk(cfg, snap, ordered, r, enc, es1, part, inputs, existing, sa);
      var r1 := UpsertBestEffort(cfg, r, es1);
      var (r2, tf) := Ask(cfg, r1, RunTerraform(enc, part, inputs, TerraformEnv(cfg, enc, es.handle, sa.handle)));
      WorkingLater(cfg, snap, r.trace, r2.trace, enc, es1);
      if tf.Failed? {
        FailedOk(cfg, snap, ordered, r2, enc, es1, part, ps1, tf.msg);
      } else {
        assert r2.trace[|r2.trace| - 3] == r.trace[|r.trace| - 1];
        EnvRunsAs(cfg, enc, es.handle, sa.handle);
        SucceededOk(cfg, snap, ordered, r2, enc, es1, part, ps1, sa, tf);
      }
    }
  }

  lemma {:induction false} RunPartitionOk(cfg: Config, snap: Store, ordered: seq<Enclave>, r: Run, enc: Enclave,
                                          es: EnclaveState, part: Partition)
    requires RunOk(cfg, snap, ordered, r) && Working(cfg, snap, r.trace, enc, es)
    requires HashMatches(cfg, part, es.partitions) || Planned(cfg, snap, ordered, enc, part)
    ensures var (r', es') := RunPartition(cfg, r, enc, es, part);
            RunOk(cfg, snap, ordered, r') && Working(cfg, snap, r'.trace, enc, es') && r.trace <= r'.trace
  {
    hide RunOk, FinishPartition, EnclaveRecord, Backed, Planned;
    if !HashMatches(cfg, part, es.partitions) {
      var inputs := ResolveInputs(part.inputs, es.importHandles, ContextOf(cfg, enc, es.handle));
      var ps := Announced(es, part);
      SetPartition(cfg, snap, r.trace, enc, es, part, ps);
      var es1 := WithPartition(es, part.id, ps);
      AnnounceOk(cfg, snap, ordered, r, enc, es1, part, inputs);
      var (r1, sa) := Ask(cfg, Log(r, Upserted(es1)), ProvisionPartition(enc, part, inputs, ps.handle));
      WorkingLater(cfg, snap, r.trace, r1.trace, enc, es1);
      FinishPartitionOk(cfg, snap, ordered, r1, enc, es1, part, ps, inputs, ps.handle, sa);
    }
  }

  /** The two maps agree on every partition but this one. */
  ghost predicate SameBut(pid: PartitionId, a: map<PartitionId, PartitionState>, b: map<PartitionId, PartitionState>) {
    forall k :: k != pid ==> (k in b <==> k in a) && (k in a ==> b[k] == a[k])
  }

  lemma {:induction false} FinishElsewhere(cfg: Config, r: Run, enc: Enclave, es: EnclaveState, part: Partition,
                                           ps: PartitionState, inputs: map<string, string>, sa: Reply)
    ensures SameBut(part.id, es.partitions, FinishPartition(cfg, r, enc, es, part, ps, inputs, sa).1.partitions)
  {
  }

  lemma {:induction false} RunPartitionElsewhere(cfg: Config, r: Run, enc: Enclave, es: EnclaveState, part: Partition)
    ensures SameBut(part.id, es.partitions, RunPartition(cfg, r, enc, es, part).1.partitions)
  {
    if !HashMatches(cfg, part, es.partitions) {
      var inputs := ResolveInputs(part.inputs, es.importHandles, ContextOf(cfg, enc, es.handle));
      var ps := Announced(es, part);
      var es1 := WithPartition(es, part.id, ps);
      var (r1, sa) := Ask(cfg, Log(r, Upserted(es1)), ProvisionPartition(enc, part, inputs, ps.handle));
      FinishElsewhere(cfg, r1, enc, es1, part, ps, inputs, sa);
    }
  }

  lemma {:induction false} FailedOk(cfg: Config, snap: Store, ordered: seq<Enclave>, r: Run, enc: Enclave,
                                    es: EnclaveState, part: Partition, ps: PartitionState, msg: string)
    requires RunOk(cfg, snap, ordered, r) && Working(cfg, snap, r.trace, enc, es)
    requires ps.desired == part && PartitionRecord(cfg, ps) && ps.meta.status != Active
    requires LastCall(r.trace, enc.id, part.id) && r.trace[|r.trace| - 1].reply == Reply.Failed(msg)
    ensures var (r', es') := PartitionFailed(cfg, r, enc, es, part, ps, msg);
            RunOk(cfg, snap, ordered, r') && Working(cfg, snap, r'.trace, enc, es') && r.trace <= r'.trace
  {
    var ev := PartitionError(cfg.freshId(r.trace), cfg.clock(r.trace), enc.id, part.id, msg);
    EventOk(cfg, snap, ordered, r, ev);
    WorkingLater(cfg, snap, r.trace, r.trace + [Logged(ev)], enc, es);
    SetPartition(cfg, snap, r.trace + [Logged(ev)], enc, es, part,
                 ps.(meta := MarkError(ps.meta, cfg.clock(r.trace), msg)));
  }

  lemma {:induction false} SucceededOk(cfg: Config, snap: Store, ordered: seq<Enclave>, r: Run, enc: Enclave,
                                       es: EnclaveState, part: Partition, ps: PartitionState, sa: Reply, tf: Reply)
    requires RunOk(cfg, snap, ordered, r) && Working(cfg, snap, r.trace, enc, es) && ps.desired == part
    requires sa.Done? && tf.Done? && |r.trace| >= 3
    requires var asked, ran := r.trace[|r.trace| - 3], r.trace[|r.trace| - 1];
             && asked.Called? && asked.call.ProvisionPartition? && asked.reply == sa
             && ran.Called? && ran.call.RunTerraform?
                 && ran.call == RunTerraform(enc, part, asked.call.inputs, ran.call.env)
             && ran.reply == tf && RunsAs(ran.call.env, sa.handle)
             && asked.call.enc == enc && asked.call.part == part
    ensures var (r', es') := PartitionSucceeded(cfg, r, enc, es, part, ps, MergeAccount(tf.handle, sa.handle),
                                                tf.outputs);
            RunOk(cfg, snap, ordered, r') && Working(cfg, snap, r'.trace, enc, es') && r.trace <= r'.trace
  {
    var ev := PartitionProvisioned(cfg.freshId(r.trace), cfg.clock(r.trace), enc.id, part.id);
    EventOk(cfg, snap, ordered, r, ev);
    var active := ps.(handle := Some(MergeAccount(tf.handle, sa.handle)), outputs := tf.outputs,
                      meta := MarkActive(ps.meta, cfg.clock(r.trace), cfg.hashPartition(part)));
    var trace := r.trace + [Logged(ev)];
    MergeCarries(tf.handle, sa.handle);
    assert EarnedAt(trace, |r.trace| - 1, enc.id, active);
    WorkingLater(cfg, snap, r.trace, trace, enc, es);
    SetPartition(cfg, snap, trace, enc, es, part, active);
  }

  /** The records of these partitions are still those the run found. */
  ghost predicate Untouched(snap: Store, enc: Enclave, es: EnclaveState, parts: seq<Partition>) {
    forall p :: p in parts ==>
      && (p.id in es.partitions <==> p.id in PartitionsOf(snap, enc.id))
      && (p.id in es.partitions ==> es.partitions[p.id] == PartitionsOf(snap, enc.id)[p.id])
  }

  lemma {:induction false} RunPartitionsOk(cfg: Config, snap: Store, ordered: seq<Enclave>, r: Run, enc: Enclave,
                                           es: EnclaveState, parts: seq<Partition>)
    requires RunOk(cfg, snap, ordered, r) && Working(cfg, snap, r.trace, enc, es) && enc in ordered
    requires DistinctPartitionIds(parts) && (forall p :: p in parts ==> p in enc.partitions)
    requires Untouched(snap, enc, es, parts)
    ensures var (r', es') := RunPartitions(cfg, r, enc, es, parts);
            RunOk(cfg, snap, ordered, r') && Working(cfg, snap, r'.trace, enc, es') && r.trace <= r'.trace
    decreases |parts|
  {
    hide RunOk, RunPartition, Working;
    if parts != [] {
      var part := parts[0];
      RunPartitionOk(cfg, snap, ordered, r, enc, es, part);
      RunPartitionElsewhere(cfg, r, enc, es, part);
      var (r1, es1) := RunPartition(cfg, r, enc, es, part);
      forall p | p in parts[1..]
        ensures p in enc.partitions && p.id != part.id
      {
        var j :| 0 <= j < |parts[1..]| && parts[1..][j] == p;
        assert parts[0].id != parts[j + 1].id;
      }
      RunPartitionsOk(cfg, snap, ordered, r1, enc, es1, parts[1..]);
    }
  }

  lemma {:induction false} RunExportsOk(cfg: Config, snap: Store, ordered: seq<Enclave>, r: Run, enc: Enclave,
                                        es: EnclaveState, exports: seq<Export>)
    requires RunOk(cfg, snap, ordered, r) && Working(cfg, snap, r.trace, enc, es)
    ensures var (r', es') := RunExports(cfg, r, enc, es, exports);
            RunOk(cfg, snap, ordered, r') && Working(cfg, snap, r'.trace, enc, es') && r.trace <= r'.trace
    decreases |exports|
  {
    hide RunOk, RunExport, Working;
    if exports != [] {
      RunExportOk(cfg, snap, ordered, r, enc, es, exports[0]);
      var (r1, es1) := RunExport(cfg, r, enc, es, exports[0]);
      RunExportsOk(cfg, snap, ordered, r1, enc, es1, exports[1..]);
    }
  }

  lemma {:induction false} ExportHandleSet(cfg: Config, snap: Store, trace: seq<Step>, enc: Enclave, es: EnclaveState,
                                           handles: map<string, Handle>)
    requires Working(cfg, snap, trace, enc, es)
    ensures Working(cfg, snap, trace, enc, es.(exportHandles := handles))
  {
  }

  lemma {:induction false} RunExportOk(cfg: Config, snap: Store, ordered: seq<Enclave>, r: Run, enc: Enclave,
                                       es: EnclaveState, exp: Export)
    requires RunOk(cfg, snap, ordered, r) && Working(cfg, snap, r.trace, enc, es)
    ensures var (r', es') := RunExport(cfg, r, enc, es, exp);
            RunOk(cfg, snap, ordered, r') && Working(cfg, snap, r'.trace, enc, es') && r.trace <= r'.trace
  {
    hide RunOk, Working;
    var outputs := if exp.targetPartition in es.partitions then es.partitions[exp.targetPartition].outputs else map[];
    var existing := if exp.name in es.exportHandles then Some(es.exportHandles[exp.name]) else None;
    var call := ProvisionExport(enc, exp, outputs, existing);
    AskOk(cfg, snap, ordered, r, call);
    var (r1, reply) := Ask(cfg, r, call);
    WorkingLater(cfg, snap, r.trace, r1.trace, enc, es);
    if reply.Done? {
      var ev := ExportWired(cfg.freshId(r1.trace), cfg.clock(r1.trace), enc.id, exp.name);
      EventOk(cfg, snap, ordered, r1, ev);
      WorkingLater(cfg, snap, r1.trace, r1.trace + [Logged(ev)], enc, es);
      ExportHandleSet(cfg, snap, r1.trace + [Logged(ev)], enc, es, es.exportHandles[exp.name := reply.handle]);
    } else {
      ComplainOk(cfg, snap, ordered, r1, "export " + enc.id + "/" + exp.name + ": " + reply.msg);
    }
  }

  lemma {:induction false} RefusedOk(cfg: Config, snap: Store, ordered: seq<Enclave>, r1: Run, enc: Enclave,
                                     bad: EnclaveState, msg: string)
    requires RunOk(cfg, snap, ordered, r1) && EnclaveRecord(cfg, bad) && Backed(snap, r1.trace, bad)
    requires r1.trace != []
    requires var asked := r1.trace[|r1.trace| - 1];
             asked.Called? && asked.call.ProvisionEnclave? && asked.call.enc == enc && asked.reply == Reply.Failed(msg)
    ensures var r2 := Log(r1, Upserted(bad));
            RunOk(cfg, snap, ordered,
                  Log(r2, Logged(EnclaveError(cfg.freshId(r2.trace), cfg.clock(r2.trace), enc.id, msg))))
  {
    hide RunOk, Backed, EnclaveRecord;
    UpsertOk(cfg, snap, ordered, r1, bad);
    var r2 := Log(r1, Upserted(bad));
    assert r2.trace[|r2.trace| - 2] == r1.trace[|r1.trace| - 1];
    EventOk(cfg, snap, ordered, r2, EnclaveError(cfg.freshId(r2.trace), cfg.clock(r2.trace), enc.id, msg));
  }

  lemma {:induction false} AcceptedOk(cfg: Config, snap: Store, ordered: seq<Enclave>, r1: Run, enc: Enclave,
                                      es1: EnclaveState)
    requires RunOk(cfg, snap, ordered, r1) && Working(cfg, snap, r1.trace, enc, es1) && enc in ordered
    requires DistinctPartitionIds(enc.partitions) && Untouched(snap, enc, es1, enc.partitions)
    requires AcceptedIn(r1.trace, enc.id)
    ensures var (r2, es2) := RunPartitions(cfg, r1, enc, es1, enc.partitions);
            var (r3, es3) := RunExports(cfg, r2, enc, es2, enc.exports);
            var ev := EnclaveProvisioned(cfg.freshId(r3.trace), cfg.clock(r3.trace), enc.id);
            RunOk(cfg, snap, ordered, Log(Log(r3, Logged(ev)), Upserted(es3)))
  {
    hide RunOk, Backed, EnclaveRecord, RunPartitions, RunExports;
    RunPartitionsOk(cfg, snap, ordered, r1, enc, es1, enc.partitions);
    var (r2, es2) := RunPartitions(cfg, r1, enc, es1, enc.partitions);
    RunExportsOk(cfg, snap, ordered, r2, enc, es2, enc.exports);
    var (r3, es3) := RunExports(cfg, r2, enc, es2, enc.exports);
    var ev := EnclaveProvisioned(cfg.freshId(r3.trace), cfg.clock(r3.trace), enc.id);
    assert forall s :: s in r1.trace ==> s in r3.trace;
    EventOk(cfg, snap, ordered, r3, ev);
    WorkingLater(cfg, snap, r3.trace, r3.trace + [Logged(ev)], enc, es3);
    UpsertOk(cfg, snap, ordered, Log(r3, Logged(ev)), es3);
  }

  lemma {:induction false} BeginOk(cfg: Config, snap: Store, trace: seq<Step>, enc: Enclave)
    requires GoodStore(cfg, snap)
    ensures EnclaveRecord(cfg, BeginEnclave(cfg, snap, enc)) && Backed(snap, trace, BeginEnclave(cfg, snap, enc))
  {
  }

  lemma {:induction false} RefusedRecord(cfg: Config, snap: Store, trace: seq<Step>, enc: Enclave, meta: Meta)
    requires GoodStore(cfg, snap) && meta.status == Error && meta.lastError.Some?
    ensures var bad := BeginEnclave(cfg, snap, enc).(meta := meta); EnclaveRecord(cfg, bad) && Backed(snap, trace, bad)
  {
    BeginOk(cfg, snap, trace, enc);
  }

  lemma {:induction false} AcceptedRecord(cfg: Config, snap: Store, trace: seq<Step>, enc: Enclave, handle: Handle,
                                          meta: Meta)
    requires GoodStore(cfg, snap) && meta.status == Active && meta.desiredHash == Some(cfg.hashEnclave(enc))
    requires HasDriver(cfg, enc)
    ensures var es := BeginEnclave(cfg, snap, enc).(handle := Some(handle), meta := meta);
            Working(cfg, snap, trace, enc, es) && Untouched(snap, enc, es, enc.partitions)
  {
    BeginOk(cfg, snap, trace, enc);
  }

  lemma {:induction false} RunEnclaveOk(cfg: Config, snap: Store, ordered: seq<Enclave>, r: Run, enc: Enclave)
    requires GoodStore(cfg, snap) && RunOk(cfg, snap, ordered, r)
    requires enc in ordered && DistinctPartitionIds(enc.partitions)
    ensures RunOk(cfg, snap, ordered, RunEnclave(cfg, snap, r, enc))
  {
    hide RunOk, RunPartitions, RunExports, EnclaveRecord, Backed, Working, Untouched, GoodStore;
    if HasDriver(cfg, enc) {
      var es0 := BeginEnclave(cfg, snap, enc);
      BeginOk(cfg, snap, r.trace, enc);
      UpsertOk(cfg, snap, ordered, r, es0);
      var r0 := Log(r, Upserted(es0));
      var call := ProvisionEnclave(enc, HandleIn(snap, enc.id));
      AskOk(cfg, snap, ordered, r0, call);
      var (r1, reply) := Ask(cfg, r0, call);
      assert r1.trace[|r1.trace| - 1] == Called(call, reply);
      match reply
      case Failed(msg) =>
        var bad := es0.(meta := MarkError(es0.meta, cfg.clock(r1.trace), msg));
        RefusedRecord(cfg, snap, r1.trace, enc, bad.meta);
        RefusedOk(cfg, snap, ordered, r1, enc, bad, msg);
        var r2 := Log(r1, Upserted(bad));
        var r3 := Log(r2, Logged(EnclaveError(cfg.freshId(r2.trace), cfg.clock(r2.trace), enc.id, msg)));
        ComplainOk(cfg, snap, ordered, r3, "enclave " + enc.id + ": " + msg);
      case Done(handle, _) =>
        var es1 := es0.(handle := Some(handle),
                        meta := MarkActive(es0.meta, cfg.clock(r1.trace), cfg.hashEnclave(enc)));
        AcceptedRecord(cfg, snap, r1.trace, enc, handle, es1.meta);
        AcceptedOk(cfg, snap, ordered, r1, enc, es1);
    } else {
      ComplainOk(cfg, snap, ordered, r, NoDriver(cfg, enc));
    }
  }

  lemma {:induction false} RunEnclavesOk(cfg: Config, snap: Store, ordered: seq<Enclave>, r: Run, todo: seq<Enclave>)
    requires GoodStore(cfg, snap) && RunOk(cfg, snap, ordered, r)
    requires forall e :: e in todo ==> e in ordered && DistinctPartitionIds(e.partitions)
    ensures RunOk(cfg, snap, ordered, RunEnclaves(cfg, snap, r, todo))
    decreases |todo|
  {
    if todo != [] {
      RunEnclaveOk(cfg, snap, ordered, r, todo[0]);
      RunEnclavesOk(cfg, snap, ordered, RunEnclave(cfg, snap, r, todo[0]), todo[1..]);
    }
  }

  lemma {:induction false} RunImportOk(cfg: Config, snap: Store, ordered: seq<Enclave>, r: Run, enc: Enclave,
                                       es: EnclaveState, imp: Import)
    requires RunOk(cfg, snap, ordered, r) && HasDriver(cfg, enc) && enc in ordered && imp in AllImports(enc)
    ensures var (r', es') := RunImport(cfg, r, enc, es, imp);
            RunOk(cfg, snap, ordered, r') && r'.store == r.store && es'.(importHandles := es.importHandles) == es
            && r.trace <= r'.trace
  {
    hide RunOk;
    if imp.alias !in es.importHandles && ExportHandle(r.store, imp).Some? {
      var call := ProvisionImport(enc, imp, ExportHandle(r.store, imp).value, None);
      AskOk(cfg, snap, ordered, r, call);
      var (q, reply) := Ask(cfg, r, call);
      if reply.Done? {
        EventOk(cfg, snap, ordered, q, ImportWired(cfg.freshId(q.trace), cfg.clock(q.trace), enc.id, imp.exportName));
      } else {
        ComplainOk(cfg, snap, ordered, q, "import " + enc.id + "/" + imp.alias + ": " + reply.msg);
      }
    }
  }

  lemma {:induction false} RunImportsOk(cfg: Config, snap: Store, ordered: seq<Enclave>, r: Run, enc: Enclave,
                                        es: EnclaveState, imports: seq<Import>)
    requires RunOk(cfg, snap, ordered, r) && HasDriver(cfg, enc) && enc in ordered
    requires forall i :: i in imports ==> i in AllImports(enc)
    ensures var (r', es') := RunImports(cfg, r, enc, es, imports);
            RunOk(cfg, snap, ordered, r') && r'.store == r.store && es'.(importHandles := es.importHandles) == es
            && r.trace <= r'.trace
    decreases |imports|
  {
    hide RunOk, RunImport, AllImports;
    if imports != [] {
      RunImportOk(cfg, snap, ordered, r, enc, es, imports[0]);
      var (r1, es1) := RunImport(cfg, r, enc, es, imports[0]);
      RunImportsOk(cfg, snap, ordered, r1, enc, es1, imports[1..]);
    }
  }

  lemma {:induction false} WireEnclavesOk(cfg: Config, snap: Store, ordered: seq<Enclave>, r: Run, todo: seq<Enclave>)
    requires RunOk(cfg, snap, ordered, r) && forall e :: e in todo ==> e in ordered
    ensures RunOk(cfg, snap, ordered, WireEnclaves(cfg, r, todo))
    decreases |todo|
  {
    hide RunImports;
    if todo != [] {
      var enc := todo[0];
      if HasDriver(cfg, enc) && enc.id in r.store {
        var es := r.store[enc.id];
        RunImportsOk(cfg, snap, ordered, r, enc, es, AllImports(enc));
        var (r1, es1) := RunImports(cfg, r, enc, es, AllImports(enc));
        assert EnclaveRecord(cfg, es);
        BackedLater(snap, r.trace, r1.trace, es);
        assert Backed(snap, r1.trace, es1);
        UpsertOk(cfg, snap, ordered, r1, es1);
      }
      WireEnclavesOk(cfg, snap, ordered, WireEnclave(cfg, r, enc), todo[1..]);
    }
  }

  lemma {:induction false} StoredIds(cfg: Config, store: Store, id: EnclaveId)
    requires GoodStore(cfg, store) && id in store
    ensures store[id].desired.id == id
    ensures forall pid :: pid in store[id].partitions ==> store[id].partitions[pid].desired.id == pid
  {
    assert EnclaveRecord(cfg, store[id]);
  }

  lemma {:induction false} EraseOk(cfg: Config, snap: Store, ordered: seq<Enclave>, r: Run, id: EnclaveId)
    requires RunOk(cfg, snap, ordered, r) && RemovalAllowed(cfg, snap, ordered, r.trace, id)
    ensures RunOk(cfg, snap, ordered, Log(r, Erased(id)))
  {
    hide EnclaveRecord;
    LogOk(cfg, snap, ordered, r, Erased(id));
  }

  lemma {:induction false} TeardownPartOk(cfg: Config, snap: Store, ordered: seq<Enclave>, r: Run, id: EnclaveId,
                                          es: EnclaveState, env: map<string, string>, pid: PartitionId)
    requires RunOk(cfg, snap, ordered, r) && pid in es.partitions
    requires es.handle.Some? && env == cfg.authEnv(es.desired, es.handle.value) && HasTeardownDriver(cfg, es)
    requires GoodStore(cfg, snap) && id in snap && id !in IdSet(ordered) && es == snap[id]
    ensures var r' := TeardownPart(cfg, r, id, es.desired, env, pid, es.partitions[pid]);
            && RunOk(cfg, snap, ordered, r') && r'.store == r.store && r.trace <= r'.trace
            && TornDownIn(r'.trace, es.desired, es.partitions[pid])
  {
    hide RunOk, GoodStore;
    StoredIds(cfg, snap, id);
    var ps := es.partitions[pid];
    assert DoomedPartition(cfg, snap, ordered, es.desired, ps.desired);
    var call := DestroyTerraform(es.desired, ps.desired, env);
    AskOk(cfg, snap, ordered, r, call);
    var (r1, tf) := Ask(cfg, r, call);
    assert r1.trace[|r1.trace| - 1] == Called(call, tf);
    var r2 := if tf.Failed? then Complain(r1, "teardown " + id + "/" + pid + ": " + tf.msg) else r1;
    ComplainOk(cfg, snap, ordered, r1, "teardown " + id + "/" + pid + ": " + (if tf.Failed? then tf.msg else ""));
    var r' := TeardownPart(cfg, r, id, es.desired, env, pid, ps);
    if ps.handle.Some? {
      var last := TeardownPartition(es.desired, ps.desired, ps.handle.value);
      AskOk(cfg, snap, ordered, r2, last);
      assert r'.trace[|r'.trace| - 1] == Called(last, cfg.oracle(r2.trace, last));
      assert r'.trace[|r'.trace| - 1] in r'.trace;
    }
    assert r1.trace <= r'.trace;
    assert Called(call, tf) in r'.trace;
  }

  lemma {:induction false} TornDownLater(a: seq<Step>, b: seq<Step>, enc: Enclave, ps: PartitionState)
    requires a <= b && TornDownIn(a, enc, ps)
    ensures TornDownIn(b, enc, ps)
  {
    assert forall s :: s in a ==> s in b;
  }

  lemma {:induction false} TeardownPartsOk(cfg: Config, snap: Store, ordered: seq<Enclave>, r: Run, id: EnclaveId,
                                           es: EnclaveState, env: map<string, string>, pids: seq<PartitionId>)
    requires RunOk(cfg, snap, ordered, r) && forall i :: 0 <= i < |pids| ==> pids[i] in es.partitions
    requires es.handle.Some? && env == cfg.authEnv(es.desired, es.handle.value) && HasTeardownDriver(cfg, es)
    requires GoodStore(cfg, snap) && id in snap && id !in IdSet(ordered) && es == snap[id]
    ensures var r' := TeardownParts(cfg, r, id, es, env, pids);
            && RunOk(cfg, snap, ordered, r') && r'.store == r.store && r.trace <= r'.trace
            && forall i :: 0 <= i < |pids| ==> TornDownIn(r'.trace, es.desired, es.partitions[pids[i]])
    decreases |pids|
  {
    hide RunOk, TeardownPart;
    if pids != [] {
      TeardownPartOk(cfg, snap, ordered, r, id, es, env, pids[0]);
      var r1 := TeardownPart(cfg, r, id, es.desired, env, pids[0], es.partitions[pids[0]]);
      TeardownPartsOk(cfg, snap, ordered, r1, id, es, env, pids[1..]);
      var r' := TeardownParts(cfg, r, id, es, env, pids);
      TornDownLater(r1.trace, r'.trace, es.desired, es.partitions[pids[0]]);
      forall i | 0 <= i < |pids| ensures TornDownIn(r'.trace, es.desired, es.partitions[pids[i]]) {
        assert i > 0 ==> pids[i] == pids[1..][i - 1];
      }
    }
  }

  lemma {:induction false} RemoveOk(cfg: Config, snap: Store, ordered: seq<Enclave>, r: Run, id: EnclaveId)
    requires Enumerates(cfg) && GoodStore(cfg, snap) && RunOk(cfg, snap, ordered, r) && id in snap
             && id !in IdSet(ordered)
    ensures RunOk(cfg, snap, ordered, Remove(cfg, snap, r, id).0)
  {
    hide RunOk, TeardownParts, GoodStore;
    StoredIds(cfg, snap, id);
    var es := snap[id];
    if TeardownCloud(cfg, es) !in cfg.drivers || es.handle.None? {
      EraseOk(cfg, snap, ordered, r, id);
    } else {
      var pids := cfg.enumerate(es.partitions.Keys);
      var env := cfg.authEnv(es.desired, es.handle.value);
      assert Lists(pids, es.partitions.Keys);
      TeardownPartsOk(cfg, snap, ordered, r, id, es, env, pids);
      var r1 := TeardownParts(cfg, r, id, es, env, pids);
      forall pid | pid in es.partitions ensures TornDownIn(r1.trace, es.desired, es.partitions[pid]) {
        assert pid in pids;
        var i :| 0 <= i < |pids| && pids[i] == pid;
      }
      if cfg.resourcesOnly {
        EraseOk(cfg, snap, ordered, r1, id);
      } else {
        AskOk(cfg, snap, ordered, r1, TeardownEnclave(es.desired, es.handle.value));
        var (r2, reply) := Ask(cfg, r1, TeardownEnclave(es.desired, es.handle.value));
        forall pid | pid in es.partitions ensures TornDownIn(r2.trace, es.desired, es.partitions[pid]) {
          TornDownLater(r1.trace, r2.trace, es.desired, es.partitions[pid]);
        }
        if reply.Done? {
          EraseOk(cfg, snap, ordered, r2, id);
        }
      }
    }
  }

  lemma {:induction false} RemoveAllOk(cfg: Config, snap: Store, ordered: seq<Enclave>, r: Run, ids: seq<EnclaveId>)
    requires Enumerates(cfg) && GoodStore(cfg, snap) && RunOk(cfg, snap, ordered, r)
    requires forall i :: 0 <= i < |ids| ==> ids[i] in snap && ids[i] !in IdSet(ordered)
    ensures RunOk(cfg, snap, ordered, RemoveAll(cfg, snap, r, ids).0)
    decreases |ids|
  {
    if ids != [] {
      RemoveOk(cfg, snap, ordered, r, ids[0]);
      var (r1, aborted) := Remove(cfg, snap, r, ids[0]);
      if aborted.None? {
        RemoveAllOk(cfg, snap, ordered, r1, ids[1..]);
      }
    }
  }

  ghost predicate WellFormedConfig(ordered: seq<Enclave>) {
    DistinctIds(ordered) && forall e :: e in ordered ==> DistinctPartitionIds(e.partitions)
  }

  lemma {:induction false} StartOk(cfg: Config, snap: Store, ordered: seq<Enclave>)
    requires GoodStore(cfg, snap)
    ensures RunOk(cfg, snap, ordered, Run(snap, [], []))
  {
  }

  lemma {:induction false} RemovalPassOk(cfg: Config, snap: Store, ordered: seq<Enclave>)
    requires Enumerates(cfg) && GoodStore(cfg, snap)
    ensures RunOk(cfg, snap, ordered, AfterRemovals(cfg, snap, ordered).0)
  {
    hide RunOk;
    StartOk(cfg, snap, ordered);
    EventOk(cfg, snap, ordered, Run(snap, [], []), ReconcileStarted(cfg.freshId([]), cfg.clock([]), false));
    var ids := Removed(cfg, snap, ordered);
    RemovedAreStored(cfg, snap, ordered);
    assert Lists(ids, snap.Keys - IdSet(ordered));
    forall i | 0 <= i < |ids| ensures ids[i] !in IdSet(ordered) {
      assert ids[i] in ids;
    }
    RemoveAllOk(cfg, snap, ordered, Started(cfg, snap), ids);
  }

  /** Every step of every apply is in order, and every state it persists is a good one. */
  lemma {:induction false} ApplyOk(cfg: Config, snap: Store, ordered: seq<Enclave>)
    requires Enumerates(cfg) && GoodStore(cfg, snap) && WellFormedConfig(ordered)
    ensures RunOk(cfg, snap, ordered, Apply(cfg, snap, ordered).run)
  {
    hide RunOk, RunEnclaves, WireEnclaves, AfterRemovals;
    RemovalPassOk(cfg, snap, ordered);
    var (r1, aborted) := AfterRemovals(cfg, snap, ordered);
    if aborted.None? {
      RunEnclavesOk(cfg, snap, ordered, r1, ordered);
      var r2 := RunEnclaves(cfg, snap, r1, ordered);
      WireEnclavesOk(cfg, snap, ordered, r2, ordered);
      var r3 := WireEnclaves(cfg, r2, ordered);
      EventOk(cfg, snap, ordered, r3,
              ReconcileCompleted(cfg.freshId([]), cfg.clock(r3.trace), |Plan(cfg, snap, ordered)|, false));
    }
  }
}
