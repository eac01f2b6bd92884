/**
 What the stored records owe to the calls: a run's log of driver calls alone, without any of the writes,
 determines what is stored when it ends, and every call was made with what was known by then.
 */
module ReconcileLedger {
  import opened Prelude
  import opened Json
  import opened Domain
  import opened State
  import opened Reconcile
  import opened ReconcileProtocol
  import opened ReconcileFixpoint
  import opened ReconcileTheorems
  import Template

  // ----- records without their clock readings -----

  datatype PartFacts = PartFacts(
    desired: Partition, handle: Option<Handle>, outputs: map<string, string>,
    status: Status, hash: Option<string>, error: Option<string>, generation: nat)

  datatype Facts = Facts(
    desired: Enclave, cloud: Option<CloudTarget>, handle: Option<Handle>, partitions: map<PartitionId, PartFacts>,
    exports: map<string, Handle>, imports: map<string, Handle>,
    status: Status, hash: Option<string>, error: Option<string>, generation: nat)

  type Ledger = map<EnclaveId, Facts>

  function ErrorText(m: Meta): Option<string> {
    if m.lastError.Some? then Some(m.lastError.value.message) else None
  }

  function PartFactsOf(ps: PartitionState): PartFacts {
    PartFacts(ps.desired, ps.handle, ps.outputs, ps.meta.status, ps.meta.desiredHash, ErrorText(ps.meta),
              ps.meta.generation)
  }

  function AllPartFacts(parts: map<PartitionId, PartitionState>): map<PartitionId, PartFacts> {
    map pid | pid in parts :: PartFactsOf(parts[pid])
  }

  function FactsOf(es: EnclaveState): Facts {
    Facts(es.desired, es.resolvedCloud, es.handle, AllPartFacts(es.partitions), es.exportHandles, es.importHandles,
          es.meta.status, es.meta.desiredHash, ErrorText(es.meta), es.meta.generation)
  }

  function Opening(store: Store): Ledger {
    map id | id in store :: FactsOf(store[id])
  }

  function Known(led: Ledger, id: EnclaveId): Option<Facts> {
    if id in led then Some(led[id]) else None
  }

  // ----- what each answer says -----

  /** A call for an enclave: from now on this is its configuration and its cloud, whatever the answer. */
  function EnclaveHeard(cfg: Config, known: Option<Facts>, enc: Enclave, reply: Reply): Facts {
    var before := if known.Some? then known.value
                  else Facts(enc, None, None, map[], map[], map[], Pending, None, None, 0);
    var f := before.(desired := enc, cloud := if enc.cloud.Some? then enc.cloud else Some(cfg.defaultCloud),
                     generation := before.generation + 1);
    match reply
    case Done(handle, _) =>
      f.(handle := Some(handle), status := Active, hash := Some(cfg.hashEnclave(enc)), error := None)
    case Failed(msg) => f.(status := Error, error := Some(msg))
  }

  /** The driver answers for a partition: its handle is kept, and the partition is under way; or it failed. */
  function PartitionHeard(before: PartFacts, part: Partition, reply: Reply): PartFacts {
    match reply
    case Done(handle, _) =>
      before.(desired := part, handle := Some(handle), status := if before.handle.Some? then Updating else Provisioning)
    case Failed(msg) =>
      before.(desired := part, status := Error, error := Some(msg), generation := before.generation + 1)
  }

  /** Terraform answers: its outputs, and its handle with the account of the driver's handle; or it failed. */
  function TerraformHeard(cfg: Config, before: PartFacts, part: Partition, reply: Reply): PartFacts {
    match reply
    case Done(handle, outputs) =>
      before.(handle := Some(if before.handle.Some? then MergeAccount(handle, before.handle.value) else handle),
              outputs := outputs, status := Active, hash := Some(cfg.hashPartition(part)), error := None,
              generation := before.generation + 1)
    case Failed(msg) => before.(status := Error, error := Some(msg), generation := before.generation + 1)
  }

  function PartKnown(f: Facts, part: Partition): PartFacts {
    if part.id in f.partitions then f.partitions[part.id]
    else PartFacts(part, None, map[], Pending, None, None, 0)
  }

  /** What is known of an enclave after a call about it. */
  function Heard(cfg: Config, known: Option<Facts>, call: Call, reply: Reply): Option<Facts> {
    if call.ProvisionEnclave? then Some(EnclaveHeard(cfg, known, call.enc, reply))
    else if known.None? then None
    else
      var f := known.value;
      match call
      case ProvisionPartition(_, part, _, _) =>
        Some(f.(partitions := f.partitions[part.id := PartitionHeard(PartKnown(f, part), part, reply)]))
      case RunTerraform(_, part, _, _) =>
        Some(f.(partitions := f.partitions[part.id := TerraformHeard(cfg, PartKnown(f, part), part, reply)]))
      case ProvisionExport(_, exp, _, _) =>
        if reply.Done? then Some(f.(exports := f.exports[exp.name := reply.handle])) else known
      case ProvisionImport(_, imp, _, _) =>
        if reply.Done? then Some(f.(imports := f.imports[imp.alias := reply.handle])) else known
      case _ => known
  }

  /** Only calls and removals are entered; the writes of the run are not looked at. */
  function Post(cfg: Config, led: Ledger, step: Step): Ledger {
    match step
    case Called(call, reply) =>
      var f := Heard(cfg, Known(led, call.enc.id), call, reply);
      if f.Some? then led[call.enc.id := f.value] else led
    case Erased(id) => led - {id}
    case _ => led
  }

  function Books(cfg: Config, snap: Store, trace: seq<Step>): Ledger {
    if trace == [] then Opening(snap)
    else Post(cfg, Books(cfg, snap, trace[..|trace| - 1]), trace[|trace| - 1])
  }

  // ----- what a call must go by -----

  function At<K, V>(m: map<K, V>, k: K): Option<V> {
    if k in m then Some(m[k]) else None
  }

  /** Every argument of a call is what the calls before it, and the store at the start, have said. */
  ghost predicate Informed(cfg: Config, led: Ledger, call: Call) {
    var known := Known(led, call.enc.id);
    match call
    case ProvisionEnclave(_, existing) => existing == if known.Some? then known.value.handle else None
    case ProvisionPartition(enc, part, inputs, existing) =>
      && known.Some? && known.value.handle.Some?
      && existing == (if part.id in known.value.partitions then known.value.partitions[part.id].handle else None)
      && Expanded(part.inputs, known.value.imports, cfg.contextVars(enc, known.value.handle.value), inputs)
    case RunTerraform(enc, part, inputs, env) =>
      && known.Some? && known.value.handle.Some?
      && part.id in known.value.partitions && known.value.partitions[part.id].handle.Some?
      && Expanded(part.inputs, known.value.imports, cfg.contextVars(enc, known.value.handle.value), inputs)
      && EnvironmentFor(cfg.authEnv(enc, known.value.handle.value), known.value.partitions[part.id].handle.value, env)
    case ProvisionExport(_, exp, outputs, existing) =>
      && known.Some? && existing == At(known.value.exports, exp.name)
      && outputs == (if exp.targetPartition in known.value.partitions
                     then known.value.partitions[exp.targetPartition].outputs else map[])
    case ProvisionImport(_, imp, exportHandle, existing) =>
      && known.Some? && imp.alias !in known.value.imports && existing == None
      && imp.from in led && At(led[imp.from].exports, imp.exportName) == Some(exportHandle)
    case _ => known.Some?
  }

  ghost predicate AllInformed(cfg: Config, snap: Store, trace: seq<Step>) {
    forall k :: 0 <= k < |trace| && trace[k].Called? ==> InformedAt(cfg, snap, trace, k)
  }

  ghost predicate InformedAt(cfg: Config, snap: Store, trace: seq<Step>, k: nat)
    requires k < |trace| && trace[k].Called?
  {
    Informed(cfg, Books(cfg, snap, trace[..k]), trace[k].call)
  }

  // ----- a run in step with its ledger -----

  function Except(led: Ledger, id: EnclaveId, known: Option<Facts>): Ledger {
    if known.Some? then led[id := known.value] else led - {id}
  }

  /** The ledger is what is stored, except that of this enclave it says `known`. */
  ghost predicate InStep(cfg: Config, snap: Store, r: Run, id: EnclaveId, known: Option<Facts>) {
    AllInformed(cfg, snap, r.trace) && Books(cfg, snap, r.trace) == Except(Opening(r.store), id, known)
  }

  ghost predicate Balanced(cfg: Config, snap: Store, r: Run) {
    AllInformed(cfg, snap, r.trace) && Books(cfg, snap, r.trace) == Opening(r.store)
  }

  lemma {:induction false} BooksSnoc(cfg: Config, snap: Store, trace: seq<Step>, step: Step)
    ensures Books(cfg, snap, trace + [step]) == Post(cfg, Books(cfg, snap, trace), step)
  {
    assert (trace + [step])[..|trace|] == trace;
  }

  lemma {:induction false} InformedSnoc(cfg: Config, snap: Store, trace: seq<Step>, step: Step)
    requires AllInformed(cfg, snap, trace)
    requires step.Called? ==> Informed(cfg, Books(cfg, snap, trace), step.call)
    ensures AllInformed(cfg, snap, trace + [step])
  {
    hide Informed;
    var t := trace + [step];
    forall k | 0 <= k < |t| && t[k].Called? ensures InformedAt(cfg, snap, t, k) {
      assert t[..k] == trace[..k];
      if k < |trace| {
        assert InformedAt(cfg, snap, trace, k);
      } else {
        assert t[..k] == trace;
      }
    }
  }

  lemma {:induction false} ExceptWritten(store: Store, es: EnclaveState, known: Option<Facts>)
    ensures var id := es.desired.id; Except(Opening(store[id := es]), id, known) == Except(Opening(store), id, known)
  {
    hide FactsOf;
  }

  /** Writes of the enclave in hand, and events, leave the run in step. */
  lemma {:induction false} WriteInStep(cfg: Config, snap: Store, r: Run, step: Step, id: EnclaveId,
                                       known: Option<Facts>)
    requires InStep(cfg, snap, r, id, known)
    requires step.UpsertLost? || step.Logged? || (step.Upserted? && step.state.desired.id == id)
    ensures InStep(cfg, snap, Log(r, step), id, known)
  {
    hide AllInformed, Informed, Except, Opening, Heard, Books;
    BooksSnoc(cfg, snap, r.trace, step);
    InformedSnoc(cfg, snap, r.trace, step);
    if step.Upserted? {
      ExceptWritten(r.store, step.state, known);
    }
  }

  lemma {:induction false} HeardKeeps(cfg: Config, known: Option<Facts>, call: Call, reply: Reply)
    ensures known.Some? ==> Heard(cfg, known, call, reply).Some?
  {
    hide EnclaveHeard, PartitionHeard, TerraformHeard;
  }

  lemma {:induction false} PostExcept(cfg: Config, led: Ledger, id: EnclaveId, known: Option<Facts>, call: Call,
                                      reply: Reply)
    requires call.enc.id == id
    ensures Post(cfg, Except(led, id, known), Called(call, reply)) == Except(led, id, Heard(cfg, known, call, reply))
  {
    hide Heard;
    HeardKeeps(cfg, known, call, reply);
    assert Known(Except(led, id, known), id) == known;
  }

  lemma {:induction false} AskInStep(cfg: Config, snap: Store, r: Run, call: Call, id: EnclaveId,
                                     known: Option<Facts>)
    requires InStep(cfg, snap, r, id, known) && call.enc.id == id && Informed(cfg, Books(cfg, snap, r.trace), call)
    ensures var (r1, reply) := Ask(cfg, r, call); InStep(cfg, snap, r1, id, Heard(cfg, known, call, reply))
  {
    hide AllInformed, Informed, Heard, Except, Opening, Post, Books;
    var (r1, reply) := Ask(cfg, r, call);
    BooksSnoc(cfg, snap, r.trace, Called(call, reply));
    InformedSnoc(cfg, snap, r.trace, Called(call, reply));
    PostExcept(cfg, Opening(r.store), id, known, call, reply);
  }

  lemma {:induction false} KnownInStep(cfg: Config, snap: Store, r: Run, id: EnclaveId, known: Option<Facts>)
    requires InStep(cfg, snap, r, id, known)
    ensures Known(Books(cfg, snap, r.trace), id) == known
    ensures forall j :: j != id ==> Known(Books(cfg, snap, r.trace), j) == Known(Opening(r.store), j)
  {
  }

  lemma {:induction false} BalancedIsInStep(cfg: Config, snap: Store, r: Run, id: EnclaveId)
    requires Balanced(cfg, snap, r)
    ensures InStep(cfg, snap, r, id, Known(Opening(r.store), id))
  {
    if id !in r.store {
      assert Opening(r.store) - {id} == Opening(r.store);
    } else {
      assert Opening(r.store)[id := FactsOf(r.store[id])] == Opening(r.store);
    }
  }

  /** Once the enclave's record is written, the books balance. */
  lemma {:induction false} WrittenIsBalanced(cfg: Config, snap: Store, r: Run, es: EnclaveState)
    requires InStep(cfg, snap, r, es.desired.id, Some(FactsOf(es)))
    ensures Balanced(cfg, snap, Log(r, Upserted(es)))
  {
    hide AllInformed, FactsOf;
    WriteInStep(cfg, snap, r, Upserted(es), es.desired.id, Some(FactsOf(es)));
    var r1 := Log(r, Upserted(es));
    assert Opening(r1.store)[es.desired.id := FactsOf(es)] == Opening(r1.store);
  }

  lemma {:induction false} EventBalanced(cfg: Config, snap: Store, r: Run, ev: AuditEvent)
    requires Balanced(cfg, snap, r)
    ensures Balanced(cfg, snap, Log(r, Logged(ev)))
  {
    BooksSnoc(cfg, snap, r.trace, Logged(ev));
    InformedSnoc(cfg, snap, r.trace, Logged(ev));
  }

  // ----- partitions -----

  lemma {:induction false} FactsWithPartition(es: EnclaveState, id: PartitionId, ps: PartitionState)
    ensures FactsOf(WithPartition(es, id, ps))
            == FactsOf(es).(partitions := FactsOf(es).partitions[id := PartFactsOf(ps)])
  {
    assert AllPartFacts(es.partitions[id := ps]) == AllPartFacts(es.partitions)[id := PartFactsOf(ps)];
  }

  lemma {:induction false} SetAgain(es0: EnclaveState, id: PartitionId, a: PartitionState, b: PartitionState)
    ensures WithPartition(WithPartition(es0, id, a), id, b) == WithPartition(es0, id, b)
  {
    assert es0.partitions[id := a][id := b] == es0.partitions[id := b];
  }

  lemma {:induction false} AnnouncedFacts(es: EnclaveState, part: Partition)
    ensures var ps, before := Announced(es, part), PartKnown(FactsOf(es), part);
            PartFactsOf(ps)
            == before.(desired := part, status := if before.handle.Some? then Updating else Provisioning)
  {
  }

  function WithFacts(f: Facts, id: PartitionId, p: PartFacts): Facts {
    f.(partitions := f.partitions[id := p])
  }

  lemma {:induction false} FailedInStep(cfg: Config, snap: Store, r: Run, enc: Enclave, es0: EnclaveState,
                                        es: EnclaveState, part: Partition, ps: PartitionState, msg: string)
    requires es == WithPartition(es0, part.id, ps)
    requires InStep(cfg, snap, r, enc.id,
                    Some(WithFacts(FactsOf(es0), part.id,
                                   PartFactsOf(ps).(status := Error, error := Some(msg),
                                                    generation := ps.meta.generation + 1))))
    ensures var (r', es') := PartitionFailed(cfg, r, enc, es, part, ps, msg);
            InStep(cfg, snap, r', enc.id, Some(FactsOf(es')))
  {
    hide InStep, FactsOf;
    var failed := ps.(meta := MarkError(ps.meta, cfg.clock(r.trace), msg));
    var (r', es') := PartitionFailed(cfg, r, enc, es, part, ps, msg);
    SetAgain(es0, part.id, ps, failed);
    FactsWithPartition(es0, part.id, failed);
    var ev := Logged(PartitionError(cfg.freshId(r.trace), cfg.clock(r.trace), enc.id, part.id, msg));
    WriteInStep(cfg, snap, r, ev, enc.id, Some(FactsOf(es')));
    ComplainInStep(cfg, snap, Log(r, ev), "partition " + enc.id + "/" + part.id + ": " + msg, enc.id,
                   Some(FactsOf(es')));
  }

  lemma {:induction false} ComplainInStep(cfg: Config, snap: Store, r: Run, msg: string, id: EnclaveId,
                                          known: Option<Facts>)
    requires InStep(cfg, snap, r, id, known)
    ensures InStep(cfg, snap, Complain(r, msg), id, known)
  {
  }

  lemma {:induction false} SucceededInStep(cfg: Config, snap: Store, r: Run, enc: Enclave, es0: EnclaveState,
                                           es: EnclaveState, part: Partition, ps: PartitionState, handle: Handle,
                                           outputs: map<string, string>)
    requires es == WithPartition(es0, part.id, ps)
    requires InStep(cfg, snap, r, enc.id,
                    Some(WithFacts(FactsOf(es0), part.id,
                                   PartFactsOf(ps).(handle := Some(handle), outputs := outputs, status := Active,
                                                    hash := Some(cfg.hashPartition(part)), error := None,
                                                    generation := ps.meta.generation + 1))))
    ensures var (r', es') := PartitionSucceeded(cfg, r, enc, es, part, ps, handle, outputs);
            InStep(cfg, snap, r', enc.id, Some(FactsOf(es')))
  {
    hide InStep, FactsOf;
    var active := ps.(handle := Some(handle), outputs := outputs,
                      meta := MarkActive(ps.meta, cfg.clock(r.trace), cfg.hashPartition(part)));
    var (r', es') := PartitionSucceeded(cfg, r, enc, es, part, ps, handle, outputs);
    SetAgain(es0, part.id, ps, active);
    FactsWithPartition(es0, part.id, active);
    var ev := Logged(PartitionProvisioned(cfg.freshId(r.trace), cfg.clock(r.trace), enc.id, part.id));
    WriteInStep(cfg, snap, r, ev, enc.id, Some(FactsOf(es')));
  }

  /** The driver has answered for the partition, and the ledger has it. */
  ghost predicate Answered(cfg: Config, snap: Store, r: Run, enc: Enclave, es0: EnclaveState, part: Partition,
                           sa: Reply) {
    InStep(cfg, snap, r, enc.id,
           Some(WithFacts(FactsOf(es0), part.id, PartitionHeard(PartKnown(FactsOf(es0), part), part, sa))))
  }

  lemma {:induction false} TerraformInformed(cfg: Config, led: Ledger, enc: Enclave, es0: EnclaveState, part: Partition,
                                             p: PartFacts, inputs: map<string, string>, sa: Handle)
    requires es0.handle.Some? && p.handle == Some(sa)
    requires Known(led, enc.id) == Some(WithFacts(FactsOf(es0), part.id, p))
    requires Expanded(part.inputs, es0.importHandles, cfg.contextVars(enc, es0.handle.value), inputs)
    ensures Informed(cfg, led, RunTerraform(enc, part, inputs, TerraformEnv(cfg, enc, es0.handle, sa)))
  {
    hide Expanded, TerraformEnv, EnvironmentFor, AllPartFacts;
    EnvIsFor(cfg, enc, es0.handle.value, sa);
  }

  lemma {:induction false} ExportInformed(cfg: Config, led: Ledger, enc: Enclave, es: EnclaveState, exp: Export)
    requires Known(led, enc.id) == Some(FactsOf(es))
    ensures var outputs := if exp.targetPartition in es.partitions then es.partitions[exp.targetPartition].outputs
                           else map[];
            var existing := if exp.name in es.exportHandles then Some(es.exportHandles[exp.name]) else None;
            Informed(cfg, led, ProvisionExport(enc, exp, outputs, existing))
  {
  }

  lemma {:induction false} TerraformInStep(cfg: Config, snap: Store, r: Run, enc: Enclave, es0: EnclaveState,
                                           part: Partition, ps: PartitionState, inputs: map<string, string>, sa: Reply)
    requires es0.desired == enc && es0.handle.Some? && ps == Announced(es0, part) && sa.Done?
    requires Answered(cfg, snap, r, enc, es0, part, sa)
    requires Expanded(part.inputs, es0.importHandles, cfg.contextVars(enc, es0.handle.value), inputs)
    ensures var ps1 := ps.(handle := Some(sa.handle));
            var r1 := UpsertBestEffort(cfg, r, WithPartition(es0, part.id, ps1));
            var call := RunTerraform(enc, part, inputs, TerraformEnv(cfg, enc, es0.handle, sa.handle));
            InStep(cfg, snap, Ask(cfg, r1, call).0, enc.id,
                   Some(WithFacts(FactsOf(es0), part.id,
                                  TerraformHeard(cfg, PartFactsOf(ps1), part, Ask(cfg, r1, call).1))))
  {
    hide InStep, TerraformHeard, TerraformEnv, Informed, Expanded, AllPartFacts;
    AnnouncedFacts(es0, part);
    var f := FactsOf(es0);
    var p := PartitionHeard(PartKnown(f, part), part, sa);
    var ps1 := ps.(handle := Some(sa.handle));
    assert p == PartFactsOf(ps1);
    var r1 := UpsertBestEffort(cfg, r, WithPartition(es0, part.id, ps1));
    var known := Some(WithFacts(f, part.id, p));
    WriteInStep(cfg, snap, r, r1.trace[|r.trace|], enc.id, known);
    KnownInStep(cfg, snap, r1, enc.id, known);
    TerraformInformed(cfg, Books(cfg, snap, r1.trace), enc, es0, part, p, inputs, sa.handle);
    var call := RunTerraform(enc, part, inputs, TerraformEnv(cfg, enc, es0.handle, sa.handle));
    AskInStep(cfg, snap, r1, call, enc.id, known);
    var q := TerraformHeard(cfg, p, part, Ask(cfg, r1, call).1);
    assert WithFacts(WithFacts(f, part.id, p), part.id, q) == WithFacts(f, part.id, q);
  }

  lemma {:induction false} FinishInStep(cfg: Config, snap: Store, r: Run, enc: Enclave, es0: EnclaveState,
                                        part: Partition, ps: PartitionState, inputs: map<string, string>, sa: Reply)
    requires es0.desired == enc && es0.handle.Some? && ps == Announced(es0, part)
    requires Answered(cfg, snap, r, enc, es0, part, sa)
    requires Expanded(part.inputs, es0.importHandles, cfg.contextVars(enc, es0.handle.value), inputs)
    ensures var (r', es') := FinishPartition(cfg, r, enc, WithPartition(es0, part.id, ps), part, ps, inputs, sa);
            InStep(cfg, snap, r', enc.id, Some(FactsOf(es')))
  {
    hide InStep, Expanded, TerraformEnv, PartitionFailed, PartitionSucceeded;
    var es := WithPartition(es0, part.id, ps);
    AnnouncedFacts(es0, part);
    if sa.Failed? {
      FailedInStep(cfg, snap, r, enc, es0, es, part, ps, sa.msg);
    } else {
      TerraformInStep(cfg, snap, r, enc, es0, part, ps, inputs, sa);
      var ps1 := ps.(handle := Some(sa.handle));
      SetAgain(es0, part.id, ps, ps1);
      var es1 := WithPartition(es0, part.id, ps1);
      var r1 := UpsertBestEffort(cfg, r, es1);
      var (r2, tf) := Ask(cfg, r1, RunTerraform(enc, part, inputs, TerraformEnv(cfg, enc, es0.handle, sa.handle)));
      if tf.Failed? {
        FailedInStep(cfg, snap, r2, enc, es0, es1, part, ps1, tf.msg);
      } else {
        SucceededInStep(cfg, snap, r2, enc, es0, es1, part, ps1, MergeAccount(tf.handle, sa.handle), tf.outputs);
      }
    }
  }

  lemma {:induction false} PartitionInStep(cfg: Config, snap: Store, r: Run, enc: Enclave, es: EnclaveState,
                                           part: Partition)
    requires InStep(cfg, snap, r, enc.id, Some(FactsOf(es))) && es.desired == enc && es.handle.Some?
    ensures var (r', es') := RunPartition(cfg, r, enc, es, part);
            InStep(cfg, snap, r', enc.id, Some(FactsOf(es')))
  {
    hide InStep, FinishPartition, PartitionHeard;
    if !HashMatches(cfg, part, es.partitions) {
      var inputs := Template.ResolveInputs(part.inputs, es.importHandles, ContextOf(cfg, enc, es.handle));
      var ps := Announced(es, part);
      var r0 := Log(r, Upserted(WithPartition(es, part.id, ps)));
      var known := Some(FactsOf(es));
      WriteInStep(cfg, snap, r, Upserted(WithPartition(es, part.id, ps)), enc.id, known);
      KnownInStep(cfg, snap, r0, enc.id, known);
      AnnouncedFacts(es, part);
      var call := ProvisionPartition(enc, part, inputs, ps.handle);
      AskInStep(cfg, snap, r0, call, enc.id, known);
      var (r1, sa) := Ask(cfg, r0, call);
      FinishInStep(cfg, snap, r1, enc, es, part, ps, inputs, sa);
    }
  }

  lemma {:induction false} PartitionsInStep(cfg: Config, snap: Store, r: Run, enc: Enclave, es: EnclaveState,
                                            parts: seq<Partition>)
    requires InStep(cfg, snap, r, enc.id, Some(FactsOf(es))) && es.desired == enc && es.handle.Some?
    ensures var (r', es') := RunPartitions(cfg, r, enc, es, parts);
            InStep(cfg, snap, r', enc.id, Some(FactsOf(es')))
    decreases |parts|
  {
    hide InStep, RunPartition, FactsOf;
    if parts != [] {
      PartitionInStep(cfg, snap, r, enc, es, parts[0]);
      RunPartitionEffect(cfg, r, enc, es, parts[0]);
      var (r1, es1) := RunPartition(cfg, r, enc, es, parts[0]);
      PartitionsInStep(cfg, snap, r1, enc, es1, parts[1..]);
    }
  }

  // ----- exports -----

  lemma {:induction false} ExportInStep(cfg: Config, snap: Store, r: Run, enc: Enclave, es: EnclaveState, exp: Export)
    requires InStep(cfg, snap, r, enc.id, Some(FactsOf(es)))
    ensures var (r', es') := RunExport(cfg, r, enc, es, exp);
            InStep(cfg, snap, r', enc.id, Some(FactsOf(es')))
  {
    hide InStep, Informed, AllPartFacts;
    var known := Some(FactsOf(es));
    var outputs := if exp.targetPartition in es.partitions then es.partitions[exp.targetPartition].outputs else map[];
    var existing := if exp.name in es.exportHandles then Some(es.exportHandles[exp.name]) else None;
    var call := ProvisionExport(enc, exp, outputs, existing);
    KnownInStep(cfg, snap, r, enc.id, known);
    ExportInformed(cfg, Books(cfg, snap, r.trace), enc, es, exp);
    AskInStep(cfg, snap, r, call, enc.id, known);
    var (r1, reply) := Ask(cfg, r, call);
    if reply.Done? {
      var es1 := es.(exportHandles := es.exportHandles[exp.name := reply.handle]);
      WriteInStep(cfg, snap, r1, Logged(ExportWired(cfg.freshId(r1.trace), cfg.clock(r1.trace), enc.id, exp.name)),
                  enc.id, Some(FactsOf(es1)));
    } else {
      ComplainInStep(cfg, snap, r1, "export " + enc.id + "/" + exp.name + ": " + reply.msg, enc.id, known);
    }
  }

  lemma {:induction false} ExportsInStep(cfg: Config, snap: Store, r: Run, enc: Enclave, es: EnclaveState,
                                         exports: seq<Export>)
    requires InStep(cfg, snap, r, enc.id, Some(FactsOf(es)))
    ensures var (r', es') := RunExports(cfg, r, enc, es, exports);
            InStep(cfg, snap, r', enc.id, Some(FactsOf(es')))
    decreases |exports|
  {
    hide InStep, RunExport, FactsOf;
    if exports != [] {
      ExportInStep(cfg, snap, r, enc, es, exports[0]);
      var (r1, es1) := RunExport(cfg, r, enc, es, exports[0]);
      ExportsInStep(cfg, snap, r1, enc, es1, exports[1..]);
    }
  }

  // ----- enclaves -----

  /** Of these enclaves the run has not touched anything yet. */
  ghost predicate AsFound(snap: Store, store: Store, id: EnclaveId) {
    (id in store <==> id in snap) && (id in store ==> store[id] == snap[id])
  }

  lemma {:induction false} RefusedInStep(cfg: Config, snap: Store, r1: Run, enc: Enclave, bad: EnclaveState,
                                         msg: string)
    requires InStep(cfg, snap, r1, enc.id, Some(FactsOf(bad))) && bad.desired == enc
    ensures var r2 := Log(r1, Upserted(bad));
            var r3 := Log(r2, Logged(EnclaveError(cfg.freshId(r2.trace), cfg.clock(r2.trace), enc.id, msg)));
            Balanced(cfg, snap, Complain(r3, "enclave " + enc.id + ": " + msg))
  {
    hide AllInformed, FactsOf, Opening;
    WrittenIsBalanced(cfg, snap, r1, bad);
    var r2 := Log(r1, Upserted(bad));
    EventBalanced(cfg, snap, r2, EnclaveError(cfg.freshId(r2.trace), cfg.clock(r2.trace), enc.id, msg));
  }

  lemma {:induction false} AcceptedInStep(cfg: Config, snap: Store, r1: Run, enc: Enclave, es1: EnclaveState)
    requires InStep(cfg, snap, r1, enc.id, Some(FactsOf(es1))) && es1.desired == enc && es1.handle.Some?
    ensures var (r2, es2) := RunPartitions(cfg, r1, enc, es1, enc.partitions);
            var (r3, es3) := RunExports(cfg, r2, enc, es2, enc.exports);
            var r4 := Log(r3, Logged(EnclaveProvisioned(cfg.freshId(r3.trace), cfg.clock(r3.trace), enc.id)));
            Balanced(cfg, snap, Log(r4, Upserted(es3)))
  {
    hide InStep, Balanced, FactsOf, RunPartitions, RunExports;
    PartitionsInStep(cfg, snap, r1, enc, es1, enc.partitions);
    RunPartitionsProgress(cfg, r1, enc, es1, enc.partitions);
    var (r2, es2) := RunPartitions(cfg, r1, enc, es1, enc.partitions);
    ExportsInStep(cfg, snap, r2, enc, es2, enc.exports);
    RunExportsEffect(cfg, r2, enc, es2, enc.exports);
    var (r3, es3) := RunExports(cfg, r2, enc, es2, enc.exports);
    var ev := Logged(EnclaveProvisioned(cfg.freshId(r3.trace), cfg.clock(r3.trace), enc.id));
    WriteInStep(cfg, snap, r3, ev, enc.id, Some(FactsOf(es3)));
    WrittenIsBalanced(cfg, snap, Log(r3, ev), es3);
  }

  lemma {:induction false} EnclaveBalanced(cfg: Config, snap: Store, r: Run, enc: Enclave)
    requires Balanced(cfg, snap, r) && AsFound(snap, r.store, enc.id)
    ensures Balanced(cfg, snap, RunEnclave(cfg, snap, r, enc))
  {
    hide InStep, RunPartitions, RunExports;
    if HasDriver(cfg, enc) {
      var es0 := BeginEnclave(cfg, snap, enc);
      var known := Known(Opening(r.store), enc.id);
      BalancedIsInStep(cfg, snap, r, enc.id);
      WriteInStep(cfg, snap, r, Upserted(es0), enc.id, known);
      var r0 := Log(r, Upserted(es0));
      KnownInStep(cfg, snap, r0, enc.id, known);
      var call := ProvisionEnclave(enc, HandleIn(snap, enc.id));
      AskInStep(cfg, snap, r0, call, enc.id, known);
      var (r1, reply) := Ask(cfg, r0, call);
      assert AllPartFacts(map[]) == map[];
      match reply
      case Failed(msg) =>
        var bad := es0.(meta := MarkError(es0.meta, cfg.clock(r1.trace), msg));
        assert FactsOf(bad) == EnclaveHeard(cfg, known, enc, reply);
        RefusedInStep(cfg, snap, r1, enc, bad, msg);
      case Done(handle, _) =>
        var es1 := es0.(handle := Some(handle),
                        meta := MarkActive(es0.meta, cfg.clock(r1.trace), cfg.hashEnclave(enc)));
        assert FactsOf(es1) == EnclaveHeard(cfg, known, enc, reply);
        AcceptedInStep(cfg, snap, r1, enc, es1);
    }
  }

  lemma {:induction false} EnclavesBalanced(cfg: Config, snap: Store, r: Run, todo: seq<Enclave>)
    requires Balanced(cfg, snap, r) && WellFormedConfig(todo)
    requires forall e :: e in todo ==> AsFound(snap, r.store, e.id)
    ensures Balanced(cfg, snap, RunEnclaves(cfg, snap, r, todo))
    decreases |todo|
  {
    hide Balanced, RunEnclave;
    if todo != [] {
      EnclaveBalanced(cfg, snap, r, todo[0]);
      RunEnclaveEffect(cfg, snap, r, todo[0]);
      TailIds(todo);
      var r1 := RunEnclave(cfg, snap, r, todo[0]);
      forall e | e in todo[1..] ensures AsFound(snap, r1.store, e.id) {
        assert e.id in IdSet(todo[1..]);
        assert AsFound(snap, r.store, e.id);
      }
      EnclavesBalanced(cfg, snap, r1, todo[1..]);
    }
  }

  // ----- imports -----

  lemma {:induction false} ImportInStep(cfg: Config, snap: Store, r: Run, enc: Enclave, es: EnclaveState, imp: Import)
    requires InStep(cfg, snap, r, enc.id, Some(FactsOf(es)))
    requires enc.id in r.store && es.exportHandles == r.store[enc.id].exportHandles
    ensures var (r', es') := RunImport(cfg, r, enc, es, imp);
            InStep(cfg, snap, r', enc.id, Some(FactsOf(es'))) && r'.store == r.store
            && es'.exportHandles == es.exportHandles && es'.desired == es.desired
  {
    hide InStep;
    if imp.alias !in es.importHandles && ExportHandle(r.store, imp).Some? {
      var known := Some(FactsOf(es));
      var call := ProvisionImport(enc, imp, ExportHandle(r.store, imp).value, None);
      KnownInStep(cfg, snap, r, enc.id, known);
      assert Known(Books(cfg, snap, r.trace), imp.from).Some?;
      AskInStep(cfg, snap, r, call, enc.id, known);
      var (r1, reply) := Ask(cfg, r, call);
      if reply.Done? {
        var es1 := es.(importHandles := es.importHandles[imp.alias := reply.handle]);
        var ev := ImportWired(cfg.freshId(r1.trace), cfg.clock(r1.trace), enc.id, imp.exportName);
        WriteInStep(cfg, snap, r1, Logged(ev), enc.id, Some(FactsOf(es1)));
      } else {
        ComplainInStep(cfg, snap, r1, "import " + enc.id + "/" + imp.alias + ": " + reply.msg, enc.id, known);
      }
    }
  }

  lemma {:induction false} ImportsInStep(cfg: Config, snap: Store, r: Run, enc: Enclave, es: EnclaveState,
                                         imports: seq<Import>)
    requires InStep(cfg, snap, r, enc.id, Some(FactsOf(es)))
    requires enc.id in r.store && es.exportHandles == r.store[enc.id].exportHandles
    ensures var (r', es') := RunImports(cfg, r, enc, es, imports);
            InStep(cfg, snap, r', enc.id, Some(FactsOf(es'))) && r'.store == r.store && es'.desired == es.desired
    decreases |imports|
  {
    hide InStep, RunImport, FactsOf;
    if imports != [] {
      ImportInStep(cfg, snap, r, enc, es, imports[0]);
      var (r1, es1) := RunImport(cfg, r, enc, es, imports[0]);
      ImportsInStep(cfg, snap, r1, enc, es1, imports[1..]);
    }
  }

  ghost predicate Keyed(store: Store) {
    forall id :: id in store ==> store[id].desired.id == id
  }

  lemma {:induction false} WiringBalanced(cfg: Config, snap: Store, r: Run, enc: Enclave)
    requires Balanced(cfg, snap, r) && Keyed(r.store)
    ensures var r' := WireEnclave(cfg, r, enc); Balanced(cfg, snap, r') && Keyed(r'.store)
  {
    hide InStep, FactsOf, RunImports, AllImports;
    if HasDriver(cfg, enc) && enc.id in r.store {
      var es := r.store[enc.id];
      BalancedIsInStep(cfg, snap, r, enc.id);
      ImportsInStep(cfg, snap, r, enc, es, AllImports(enc));
      var (r1, es1) := RunImports(cfg, r, enc, es, AllImports(enc));
      if es1 != es {
        WrittenIsBalanced(cfg, snap, r1, es1);
      } else {
        UnchangedIsBalanced(cfg, snap, r1, enc.id);
      }
    }
  }

  lemma {:induction false} UnchangedIsBalanced(cfg: Config, snap: Store, r: Run, id: EnclaveId)
    requires id in r.store && InStep(cfg, snap, r, id, Some(FactsOf(r.store[id])))
    ensures Balanced(cfg, snap, r)
  {
    assert Opening(r.store)[id := FactsOf(r.store[id])] == Opening(r.store);
  }

  lemma {:induction false} AllWiringBalanced(cfg: Config, snap: Store, r: Run, todo: seq<Enclave>)
    requires Balanced(cfg, snap, r) && Keyed(r.store)
    ensures Balanced(cfg, snap, WireEnclaves(cfg, r, todo))
    decreases |todo|
  {
    hide Balanced, WireEnclave;
    if todo != [] {
      WiringBalanced(cfg, snap, r, todo[0]);
      AllWiringBalanced(cfg, snap, WireEnclave(cfg, r, todo[0]), todo[1..]);
    }
  }

  // ----- removed enclaves -----

  /** A teardown call says nothing new. */
  lemma {:induction false} TeardownBalanced(cfg: Config, snap: Store, r: Run, call: Call)
    requires Balanced(cfg, snap, r) && call.enc.id in r.store
    requires call.DestroyTerraform? || call.TeardownPartition? || call.TeardownEnclave?
    ensures Balanced(cfg, snap, Ask(cfg, r, call).0)
  {
    hide FactsOf, AllInformed;
    var (r1, reply) := Ask(cfg, r, call);
    BooksSnoc(cfg, snap, r.trace, Called(call, reply));
    InformedSnoc(cfg, snap, r.trace, Called(call, reply));
    assert Opening(r.store)[call.enc.id := Opening(r.store)[call.enc.id]] == Opening(r.store);
  }

  lemma {:induction false} PartsBalanced(cfg: Config, snap: Store, r: Run, id: EnclaveId, es: EnclaveState,
                                         env: map<string, string>, pids: seq<PartitionId>)
    requires Balanced(cfg, snap, r) && es.desired.id in r.store
    requires forall i :: 0 <= i < |pids| ==> pids[i] in es.partitions
    ensures var r' := TeardownParts(cfg, r, id, es, env, pids); Balanced(cfg, snap, r') && r'.store == r.store
    decreases |pids|
  {
    hide Balanced;
    if pids != [] {
      var ps := es.partitions[pids[0]];
      var call := DestroyTerraform(es.desired, ps.desired, env);
      TeardownBalanced(cfg, snap, r, call);
      var (r1, tf) := Ask(cfg, r, call);
      var r2 := if tf.Failed? then Complain(r1, "teardown " + id + "/" + pids[0] + ": " + tf.msg) else r1;
      SameBalance(cfg, snap, r1, r2);
      if ps.handle.Some? {
        TeardownBalanced(cfg, snap, r2, TeardownPartition(es.desired, ps.desired, ps.handle.value));
      }
      PartsBalanced(cfg, snap, TeardownPart(cfg, r, id, es.desired, env, pids[0], ps), id, es, env, pids[1..]);
    }
  }

  lemma {:induction false} SameBalance(cfg: Config, snap: Store, a: Run, b: Run)
    requires Balanced(cfg, snap, a) && a.store == b.store && a.trace == b.trace
    ensures Balanced(cfg, snap, b)
  {
  }

  lemma {:induction false} EraseBalanced(cfg: Config, snap: Store, r: Run, id: EnclaveId)
    requires Balanced(cfg, snap, r)
    ensures Balanced(cfg, snap, Log(r, Erased(id)))
  {
    hide AllInformed, FactsOf;
    BooksSnoc(cfg, snap, r.trace, Erased(id));
    InformedSnoc(cfg, snap, r.trace, Erased(id));
    assert Opening(r.store - {id}) == Opening(r.store) - {id};
  }

  lemma {:induction false} RemoveBalanced(cfg: Config, snap: Store, r: Run, id: EnclaveId)
    requires Enumerates(cfg) && Balanced(cfg, snap, r) && id in snap && id in r.store && snap[id].desired.id == id
    ensures Balanced(cfg, snap, Remove(cfg, snap, r, id).0)
  {
    hide Balanced, TeardownParts;
    var es := snap[id];
    if TeardownCloud(cfg, es) !in cfg.drivers || es.handle.None? {
      EraseBalanced(cfg, snap, r, id);
    } else {
      var pids, env := cfg.enumerate(es.partitions.Keys), cfg.authEnv(es.desired, es.handle.value);
      assert Lists(pids, es.partitions.Keys);
      PartsBalanced(cfg, snap, r, id, es, env, pids);
      var r1 := TeardownParts(cfg, r, id, es, env, pids);
      if cfg.resourcesOnly {
        EraseBalanced(cfg, snap, r1, id);
      } else {
        var call := TeardownEnclave(es.desired, es.handle.value);
        TeardownBalanced(cfg, snap, r1, call);
        EraseBalanced(cfg, snap, Ask(cfg, r1, call).0, id);
      }
    }
  }

  lemma {:induction false} RemoveAllBalanced(cfg: Config, snap: Store, r: Run, ids: seq<EnclaveId>)
    requires Enumerates(cfg) && Balanced(cfg, snap, r) && Keyed(snap) && Distinct(ids)
    requires forall i :: 0 <= i < |ids| ==> ids[i] in snap && ids[i] in r.store
    ensures Balanced(cfg, snap, RemoveAll(cfg, snap, r, ids).0)
    decreases |ids|
  {
    hide Balanced, Remove;
    if ids != [] {
      RemoveBalanced(cfg, snap, r, ids[0]);
      RemoveEffect(cfg, snap, r, ids[0]);
      var (r1, aborted) := Remove(cfg, snap, r, ids[0]);
      if aborted.None? {
        DistinctTail(ids);
        forall i | 0 <= i < |ids[1..]| ensures ids[1..][i] in snap && ids[1..][i] in r1.store {
          assert ids[1..][i] == ids[i + 1] && ids[0] != ids[i + 1];
        }
        RemoveAllBalanced(cfg, snap, r1, ids[1..]);
      }
    }
  }

  lemma {:induction false} RemovalsBalanced(cfg: Config, snap: Store, ordered: seq<Enclave>)
    requires Enumerates(cfg) && Keyed(snap)
    ensures Balanced(cfg, snap, AfterRemovals(cfg, snap, ordered).0)
  {
    hide RemoveAll;
    var ids := Removed(cfg, snap, ordered);
    RemovedAreStored(cfg, snap, ordered);
    assert Lists(ids, snap.Keys - IdSet(ordered));
    EventBalanced(cfg, snap, Run(snap, [], []), ReconcileStarted(cfg.freshId([]), cfg.clock([]), false));
    RemoveAllBalanced(cfg, snap, Started(cfg, snap), ids);
  }

  // ----- the whole run -----

  /**
   The store after an apply, aborted or not, is what the calls of the run have made of the store before it:
   configurations, handles, outputs, hashes, statuses and error messages are those the answers gave. And every
   call was made with what was known by then.
   */
  lemma {:induction false} StoreIsWhatCallsSaid(cfg: Config, snap: Store, ordered: seq<Enclave>)
    requires Enumerates(cfg) && GoodStore(cfg, snap) && WellFormedConfig(ordered)
    ensures var out := Apply(cfg, snap, ordered).run; Opening(out.store) == Books(cfg, snap, out.trace)
    ensures AllInformed(cfg, snap, Apply(cfg, snap, ordered).run.trace)
  {
    hide RunEnclaves, WireEnclaves, AfterRemovals, RunOk;
    RemovalsBalanced(cfg, snap, ordered);
    var (r1, aborted) := AfterRemovals(cfg, snap, ordered);
    if aborted.None? {
      RemovalEffect(cfg, snap, ordered);
      forall e | e in ordered ensures AsFound(snap, r1.store, e.id) {
        assert e.id in IdSet(ordered);
      }
      EnclavesBalanced(cfg, snap, r1, ordered);
      ApplyPasses(cfg, snap, ordered);
      var r2 := RunEnclaves(cfg, snap, r1, ordered);
      AllWiringBalanced(cfg, snap, r2, ordered);
      var r3 := WireEnclaves(cfg, r2, ordered);
      EventBalanced(cfg, snap, r3,
                    ReconcileCompleted(cfg.freshId([]), cfg.clock(r3.trace), |Plan(cfg, snap, ordered)|, false));
    }
  }

  // ----- where export and import handles come from -----

  /** The driver's last successful answer for an export of this name of this enclave. */
  function LastExportReply(trace: seq<Step>, id: EnclaveId, name: string): Option<Handle>
    decreases |trace|
  {
    if trace == [] then None
    else
      var n := |trace| - 1;
      var s := trace[n];
      if s.Called? && s.call.ProvisionExport? && s.call.enc.id == id && s.call.exp.name == name && s.reply.Done?
      then Some(s.reply.handle) else LastExportReply(trace[..n], id, name)
  }

  /** The driver's first successful answer for an import under this alias in this enclave. */
  function FirstImportReply(trace: seq<Step>, id: EnclaveId, alias: string): Option<Handle>
    decreases |trace|
  {
    if trace == [] then None
    else
      var n := |trace| - 1;
      var s := trace[n];
      var before := FirstImportReply(trace[..n], id, alias);
      if before.Some? then before
      else if s.Called? && s.call.ProvisionImport? && s.call.enc.id == id && s.call.imp.alias == alias && s.reply.Done?
      then Some(s.reply.handle) else None
  }

  function OrElse(a: Option<Handle>, b: Option<Handle>): Option<Handle> {
    if a.Some? then a else b
  }

  ghost predicate NeverErased(trace: seq<Step>, id: EnclaveId) {
    Erased(id) !in trace
  }

  lemma {:induction false} NotErasedBefore(trace: seq<Step>, id: EnclaveId)
    requires trace != [] && NeverErased(trace, id)
    ensures NeverErased(trace[..|trace| - 1], id) && trace[|trace| - 1] != Erased(id)
  {
    assert trace[|trace| - 1] in trace;
    assert forall s :: s in trace[..|trace| - 1] ==> s in trace;
  }

  lemma {:induction false} InformedBefore(cfg: Config, snap: Store, trace: seq<Step>)
    requires trace != [] && AllInformed(cfg, snap, trace)
    ensures AllInformed(cfg, snap, trace[..|trace| - 1])
    ensures var n := |trace| - 1; trace[n].Called? ==> Informed(cfg, Books(cfg, snap, trace[..n]), trace[n].call)
  {
    hide Informed;
    var n := |trace| - 1;
    forall k | 0 <= k < n && trace[..n][k].Called? ensures InformedAt(cfg, snap, trace[..n], k) {
      assert InformedAt(cfg, snap, trace, k);
      assert trace[..n][..k] == trace[..k];
    }
    assert trace[n].Called? ==> InformedAt(cfg, snap, trace, n);
  }

  /** What one more step does to the entries of an enclave that is not erased. */
  lemma {:induction false} EntryStep(cfg: Config, led: Ledger, step: Step, id: EnclaveId, name: string)
    requires step != Erased(id) && (step.Called? ==> Informed(cfg, led, step.call))
    ensures var next := Post(cfg, led, step);
            && (id in led ==>
                  && id in next
                  && At(next[id].exports, name)
                     == OrElse(LastExportReply([step], id, name), At(led[id].exports, name))
                  && At(next[id].imports, name)
                     == OrElse(At(led[id].imports, name), FirstImportReply([step], id, name)))
            && (id !in led ==>
                  && LastExportReply([step], id, name) == None == FirstImportReply([step], id, name)
                  && (id in next ==> next[id].exports == map[] && next[id].imports == map[]))
  {
    hide Expanded, EnvironmentFor;
    assert [step][..0] == [];
  }

  lemma {:induction false} EntriesAreReplies(cfg: Config, snap: Store, trace: seq<Step>, id: EnclaveId, name: string)
    requires NeverErased(trace, id) && AllInformed(cfg, snap, trace)
    ensures var led := Books(cfg, snap, trace);
            if id in led then
              && At(led[id].exports, name)
                 == OrElse(LastExportReply(trace, id, name),
                           if id in snap then At(snap[id].exportHandles, name) else None)
              && At(led[id].imports, name)
                 == OrElse(if id in snap then At(snap[id].importHandles, name) else None,
                           FirstImportReply(trace, id, name))
            else id !in snap && LastExportReply(trace, id, name) == None == FirstImportReply(trace, id, name)
    decreases |trace|
  {
    hide Post, Informed, AllInformed;
    if trace != [] {
      var n := |trace| - 1;
      NotErasedBefore(trace, id);
      InformedBefore(cfg, snap, trace);
      EntriesAreReplies(cfg, snap, trace[..n], id, name);
      EntryStep(cfg, Books(cfg, snap, trace[..n]), trace[n], id, name);
      assert [trace[n]][..0] == [];
    }
  }

  /**
   After a run that is not aborted, the handle stored for an export is the driver's last successful answer
   for that name, or the one stored before; the handle stored for an import is the one stored before, or the
   driver's first successful answer for that alias.
   */
  lemma {:induction false} HandlesAreReplies(cfg: Config, snap: Store, ordered: seq<Enclave>, id: EnclaveId,
                                             name: string)
    requires Enumerates(cfg) && GoodStore(cfg, snap) && WellFormedConfig(ordered)
    requires Apply(cfg, snap, ordered).aborted.None? && id in Apply(cfg, snap, ordered).run.store
    ensures var out := Apply(cfg, snap, ordered).run;
            && At(out.store[id].exportHandles, name)
               == OrElse(LastExportReply(out.trace, id, name),
                         if id in snap then At(snap[id].exportHandles, name) else None)
            && At(out.store[id].importHandles, name)
               == OrElse(if id in snap then At(snap[id].importHandles, name) else None,
                         FirstImportReply(out.trace, id, name))
  {
    hide Apply, Books, AllInformed, LastExportReply, FirstImportReply;
    var out := Apply(cfg, snap, ordered).run;
    StoreIsWhatCallsSaid(cfg, snap, ordered);
    ErasedAreGone(cfg, snap, ordered, id);
    EntriesAreReplies(cfg, snap, out.trace, id, name);
    assert id in Opening(out.store);
  }

  lemma {:induction false} ErasedAreGone(cfg: Config, snap: Store, ordered: seq<Enclave>, id: EnclaveId)
    requires Enumerates(cfg) && GoodStore(cfg, snap) && WellFormedConfig(ordered)
    requires Apply(cfg, snap, ordered).aborted.None? && id in Apply(cfg, snap, ordered).run.store
    ensures NeverErased(Apply(cfg, snap, ordered).run.trace, id)
  {
    hide Apply;
    var trace := Apply(cfg, snap, ordered).run.trace;
    StoreAfterApply(cfg, snap, ordered, id);
    assert id in IdSet(ordered);
    if Erased(id) in trace {
      var k :| 0 <= k < |trace| && trace[k] == Erased(id);
      WriteAhead(cfg, snap, ordered, k);
    }
  }
}
