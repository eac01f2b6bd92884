/**
 What a run reports: its error list and its events are read off the answers to its calls, one entry each,
 and the calls themselves follow the configuration.
 */
module ReconcileAudit {
  import opened Prelude
  import opened Json
  import opened Domain
  import opened State
  import opened Reconcile
  import opened ReconcileProtocol
  import opened ReconcileFixpoint
  import opened ReconcileTheorems
  import Template

  // ----- what an answer gives rise to -----

  /** The line a failed call adds to the report; a failed clean-up is passed over, a refused teardown aborts. */
  function Complaint(call: Call, reply: Reply): multiset<string> {
    if reply.Done? then multiset{}
    else
      match call
      case ProvisionEnclave(enc, _) => multiset{"enclave " + enc.id + ": " + reply.msg}
      case ProvisionPartition(enc, part, _, _) => multiset{"partition " + enc.id + "/" + part.id + ": " + reply.msg}
      case RunTerraform(enc, part, _, _) => multiset{"partition " + enc.id + "/" + part.id + ": " + reply.msg}
      case ProvisionExport(enc, exp, _, _) => multiset{"export " + enc.id + "/" + exp.name + ": " + reply.msg}
      case ProvisionImport(enc, imp, _, _) => multiset{"import " + enc.id + "/" + imp.alias + ": " + reply.msg}
      case DestroyTerraform(enc, part, _) => multiset{"teardown " + enc.id + "/" + part.id + ": " + reply.msg}
      case _ => multiset{}
  }

  /** The event an answer calls for, without its id and time. */
  function EventOf(call: Call, reply: Reply): multiset<AuditEvent> {
    match call
    case ProvisionEnclave(enc, _) =>
      multiset{if reply.Done? then EnclaveProvisioned("", 0, enc.id) else EnclaveError("", 0, enc.id, reply.msg)}
    case ProvisionPartition(enc, part, _, _) =>
      if reply.Done? then multiset{} else multiset{PartitionError("", 0, enc.id, part.id, reply.msg)}
    case RunTerraform(enc, part, _, _) =>
      multiset{if reply.Done? then PartitionProvisioned("", 0, enc.id, part.id)
               else PartitionError("", 0, enc.id, part.id, reply.msg)}
    case ProvisionExport(enc, exp, _, _) =>
      if reply.Done? then multiset{ExportWired("", 0, enc.id, exp.name)} else multiset{}
    case ProvisionImport(enc, imp, _, _) =>
      if reply.Done? then multiset{ImportWired("", 0, enc.id, imp.exportName)} else multiset{}
    case _ => multiset{}
  }

  /** The event without its id and time; the start and the end of a run do not count. */
  function Plain(ev: AuditEvent): multiset<AuditEvent> {
    match ev
    case ReconcileStarted(_, _, _) => multiset{}
    case ReconcileCompleted(_, _, _, _) => multiset{}
    case EnclaveProvisioned(_, _, e) => multiset{EnclaveProvisioned("", 0, e)}
    case PartitionProvisioned(_, _, e, p) => multiset{PartitionProvisioned("", 0, e, p)}
    case ExportWired(_, _, e, name) => multiset{ExportWired("", 0, e, name)}
    case ImportWired(_, _, e, name) => multiset{ImportWired("", 0, e, name)}
    case EnclaveError(_, _, e, msg) => multiset{EnclaveError("", 0, e, msg)}
    case PartitionError(_, _, e, p, msg) => multiset{PartitionError("", 0, e, p, msg)}
  }

  // ----- the same, over a log -----

  /**
   What the calls of a log add up to: complaints, events, and, in order, the enclaves asked for, those
   accepted, the partitions attempted and the export calls.
   */
  datatype Sums = Sums(
    complaints: multiset<string>, events: multiset<AuditEvent>,
    asked: seq<Enclave>, accepted: seq<Enclave>, attempted: seq<(Enclave, Partition)>, exported: seq<Call>)

  function Add(s: Sums, call: Call, reply: Reply): Sums {
    Sums(s.complaints + Complaint(call, reply),
         s.events + EventOf(call, reply),
         if call.ProvisionEnclave? then s.asked + [call.enc] else s.asked,
         if call.ProvisionEnclave? && reply.Done? then s.accepted + [call.enc] else s.accepted,
         if call.ProvisionPartition? then s.attempted + [(call.enc, call.part)] else s.attempted,
         if call.ProvisionExport? then s.exported + [call] else s.exported)
  }

  function SumsOf(trace: seq<Step>): Sums {
    if trace == [] then Sums(multiset{}, multiset{}, [], [], [], [])
    else
      var n := |trace| - 1;
      if trace[n].Called? then Add(SumsOf(trace[..n]), trace[n].call, trace[n].reply) else SumsOf(trace[..n])
  }

  function EventsOf(trace: seq<Step>): multiset<AuditEvent> {
    if trace == [] then multiset{}
    else
      var n := |trace| - 1;
      EventsOf(trace[..n]) + if trace[n].Logged? then Plain(trace[n].event) else multiset{}
  }

  // ----- a run and its sums -----

  /** The sums of a run, of which these complaints and events are still to be reported. */
  ghost predicate Tallied(r: Run, s: Sums, driverless: multiset<string>, unsaid: multiset<string>,
                          owed: multiset<AuditEvent>) {
    && SumsOf(r.trace) == s
    && multiset(r.errors) + unsaid == s.complaints + driverless
    && EventsOf(r.trace) + owed == s.events
  }

  lemma {:induction false} NoneAdded<T>(m: multiset<T>)
    ensures multiset{} + m == m == m + multiset{}
  {
  }

  lemma {:induction false} AddBoth<T>(a: multiset<T>, b: multiset<T>, c: multiset<T>, d: multiset<T>, x: multiset<T>)
    requires a + b == c + d
    ensures a + (b + x) == (c + x) + d
  {
    assert a + (b + x) == (a + b) + x;
    assert (c + x) + d == (c + d) + x;
  }

  lemma {:induction false} SumsSnoc(trace: seq<Step>, step: Step)
    ensures SumsOf(trace + [step])
            == if step.Called? then Add(SumsOf(trace), step.call, step.reply) else SumsOf(trace)
    ensures EventsOf(trace + [step])
            == EventsOf(trace) + if step.Logged? then Plain(step.event) else multiset{}
  {
    assert (trace + [step])[..|trace|] == trace;
  }

  lemma {:induction false} WriteTallied(r: Run, step: Step, s: Sums, driverless: multiset<string>,
                                        unsaid: multiset<string>, owed: multiset<AuditEvent>)
    requires Tallied(r, s, driverless, unsaid, owed) && (step.Upserted? || step.UpsertLost? || step.Erased?)
    ensures Tallied(Log(r, step), s, driverless, unsaid, owed)
  {
    SumsSnoc(r.trace, step);
  }

  lemma {:induction false} AskTallied(cfg: Config, r: Run, call: Call, s: Sums, driverless: multiset<string>,
                                      unsaid: multiset<string>, owed: multiset<AuditEvent>)
    requires Tallied(r, s, driverless, unsaid, owed)
    ensures var (r1, reply) := Ask(cfg, r, call);
            Tallied(r1, Add(s, call, reply), driverless, unsaid + Complaint(call, reply), owed + EventOf(call, reply))
  {
    hide Complaint, EventOf;
    var (r1, reply) := Ask(cfg, r, call);
    SumsSnoc(r.trace, Called(call, reply));
    AddBoth(multiset(r.errors), unsaid, s.complaints, driverless, Complaint(call, reply));
    AddBoth(EventsOf(r.trace), owed, s.events, multiset{}, EventOf(call, reply));
  }

  lemma {:induction false} EventTallied(r: Run, ev: AuditEvent, s: Sums, driverless: multiset<string>,
                                        unsaid: multiset<string>, owed: multiset<AuditEvent>)
    requires Tallied(r, s, driverless, unsaid, owed + Plain(ev))
    ensures Tallied(Log(r, Logged(ev)), s, driverless, unsaid, owed)
  {
    hide Plain;
    SumsSnoc(r.trace, Logged(ev));
  }

  lemma {:induction false} SayTallied(r: Run, msg: string, s: Sums, driverless: multiset<string>,
                                      unsaid: multiset<string>, owed: multiset<AuditEvent>)
    requires Tallied(r, s, driverless, unsaid + multiset{msg}, owed)
    ensures Tallied(Complain(r, msg), s, driverless, unsaid, owed)
  {
    assert multiset(r.errors + [msg]) == multiset(r.errors) + multiset{msg};
  }

  /** Nothing is left to be reported, except events of an enclave whose pass is under way. */
  ghost predicate Reported(r: Run, s: Sums, driverless: multiset<string>, owed: multiset<AuditEvent>) {
    Tallied(r, s, driverless, multiset{}, owed)
  }

  // ----- partitions -----

  lemma {:induction false} FailedReported(cfg: Config, r: Run, enc: Enclave, es: EnclaveState, part: Partition,
                                          ps: PartitionState, msg: string, s: Sums, driverless: multiset<string>,
                                          owed: multiset<AuditEvent>)
    requires Tallied(r, s, driverless, multiset{"partition " + enc.id + "/" + part.id + ": " + msg},
                     owed + multiset{PartitionError("", 0, enc.id, part.id, msg)})
    ensures Reported(PartitionFailed(cfg, r, enc, es, part, ps, msg).0, s, driverless, owed)
  {
    hide Tallied;
    var line := "partition " + enc.id + "/" + part.id + ": " + msg;
    var ev := PartitionError(cfg.freshId(r.trace), cfg.clock(r.trace), enc.id, part.id, msg);
    EventTallied(r, ev, s, driverless, multiset{line}, owed);
    NoneAdded(multiset{line});
    SayTallied(Log(r, Logged(ev)), line, s, driverless, multiset{}, owed);
  }

  /** The same sums, but for complaints and events. */
  ghost predicate SameCalls(a: Sums, b: Sums) {
    a.asked == b.asked && a.accepted == b.accepted && a.attempted == b.attempted && a.exported == b.exported
  }

  lemma {:induction false} PartitionReported(cfg: Config, r: Run, enc: Enclave, es: EnclaveState, part: Partition,
                                             s: Sums, driverless: multiset<string>, owed: multiset<AuditEvent>)
    returns (s': Sums)
    requires Reported(r, s, driverless, owed)
    ensures Reported(RunPartition(cfg, r, enc, es, part).0, s', driverless, owed)
    ensures var tried := if HashMatches(cfg, part, es.partitions) then [] else [(enc, part)];
            SameCalls(s.(attempted := s.attempted + tried), s')
  {
    hide Tallied, FinishPartition;
    s' := s;
    if !HashMatches(cfg, part, es.partitions) {
      var inputs := Template.ResolveInputs(part.inputs, es.importHandles, ContextOf(cfg, enc, es.handle));
      var ps := Announced(es, part);
      var es1 := WithPartition(es, part.id, ps);
      WriteTallied(r, Upserted(es1), s, driverless, multiset{}, owed);
      var call := ProvisionPartition(enc, part, inputs, ps.handle);
      AskTallied(cfg, Log(r, Upserted(es1)), call, s, driverless, multiset{}, owed);
      var (r1, sa) := Ask(cfg, Log(r, Upserted(es1)), call);
      NoneAdded(Complaint(call, sa));
      s' := FinishReported(cfg, r1, enc, es1, part, ps, inputs, sa, Add(s, call, sa), driverless, owed);
    }
  }

  /** What Terraform's answer adds: nothing but a complaint and an event. */
  lemma {:induction false} TerraformAdds(s: Sums, enc: Enclave, part: Partition, inputs: map<string, string>,
                                         env: map<string, string>, tf: Reply)
    ensures var call := RunTerraform(enc, part, inputs, env);
            && SameCalls(s, Add(s, call, tf))
            && (tf.Done? ==> Complaint(call, tf) == multiset{}
                             && EventOf(call, tf) == multiset{PartitionProvisioned("", 0, enc.id, part.id)})
            && (tf.Failed? ==> Complaint(call, tf) == multiset{"partition " + enc.id + "/" + part.id + ": " + tf.msg}
                               && EventOf(call, tf) == multiset{PartitionError("", 0, enc.id, part.id, tf.msg)})
  {
  }

  lemma {:induction false} TerraformReported(cfg: Config, r: Run, enc: Enclave, es: EnclaveState, part: Partition,
                                             ps: PartitionState, inputs: map<string, string>, sa: Reply, s: Sums,
                                             driverless: multiset<string>, owed: multiset<AuditEvent>)
    returns (s': Sums)
    requires sa.Done? && Reported(r, s, driverless, owed)
    ensures Reported(FinishPartition(cfg, r, enc, es, part, ps, inputs, sa).0, s', driverless, owed) && SameCalls(s, s')
  {
    hide Tallied, PartitionFailed, PartitionSucceeded, Add, Complaint, EventOf, TerraformEnv, MergeAccount;
    var ps1 := ps.(handle := Some(sa.handle));
    var es1 := WithPartition(es, part.id, ps1);
    var r1 := UpsertBestEffort(cfg, r, es1);
    WriteTallied(r, r1.trace[|r.trace|], s, driverless, multiset{}, owed);
    var env := TerraformEnv(cfg, enc, es.handle, sa.handle);
    var call := RunTerraform(enc, part, inputs, env);
    AskTallied(cfg, r1, call, s, driverless, multiset{}, owed);
    var (r2, tf) := Ask(cfg, r1, call);
    s' := Add(s, call, tf);
    NoneAdded(Complaint(call, tf));
    TerraformAdds(s, enc, part, inputs, env, tf);
    if tf.Failed? {
      FailedReported(cfg, r2, enc, es1, part, ps1, tf.msg, s', driverless, owed);
    } else {
      SucceededReported(cfg, r2, enc, es1, part, ps1, MergeAccount(tf.handle, sa.handle), tf.outputs, s', driverless,
                        owed);
    }
  }

  lemma {:induction false} FinishReported(cfg: Config, r: Run, enc: Enclave, es: EnclaveState, part: Partition,
                                          ps: PartitionState, inputs: map<string, string>, sa: Reply, s: Sums,
                                          driverless: multiset<string>, owed: multiset<AuditEvent>)
    returns (s': Sums)
    requires var call := ProvisionPartition(enc, part, inputs, ps.handle);
             Tallied(r, s, driverless, Complaint(call, sa), owed + EventOf(call, sa))
    ensures Reported(FinishPartition(cfg, r, enc, es, part, ps, inputs, sa).0, s', driverless, owed) && SameCalls(s, s')
  {
    hide Tallied, PartitionFailed, PartitionSucceeded;
    s' := s;
    if sa.Failed? {
      FailedReported(cfg, r, enc, es, part, ps, sa.msg, s, driverless, owed);
    } else {
      NoneAdded(owed);
      s' := TerraformReported(cfg, r, enc, es, part, ps, inputs, sa, s, driverless, owed);
    }
  }

  lemma {:induction false} SucceededReported(cfg: Config, r: Run, enc: Enclave, es: EnclaveState, part: Partition,
                                             ps: PartitionState, handle: Handle, outputs: map<string, string>, s: Sums,
                                             driverless: multiset<string>, owed: multiset<AuditEvent>)
    requires Tallied(r, s, driverless, multiset{}, owed + multiset{PartitionProvisioned("", 0, enc.id, part.id)})
    ensures Reported(PartitionSucceeded(cfg, r, enc, es, part, ps, handle, outputs).0, s, driverless, owed)
  {
    hide Tallied;
    var ev := PartitionProvisioned(cfg.freshId(r.trace), cfg.clock(r.trace), enc.id, part.id);
    EventTallied(r, ev, s, driverless, multiset{}, owed);
  }

  /** The partitions whose recorded hash is not the wanted one, in order. */
  function Changed(cfg: Config, enc: Enclave, before: map<PartitionId, PartitionState>, parts: seq<Partition>)
    : seq<(Enclave, Partition)>
  {
    if parts == [] then []
    else
      var p := parts[0];
      (if p.id in before && before[p.id].meta.desiredHash == Some(cfg.hashPartition(p)) then [] else [(enc, p)])
      + Changed(cfg, enc, before, parts[1..])
  }

  lemma {:induction false} ChangedElsewhere(cfg: Config, enc: Enclave, a: map<PartitionId, PartitionState>,
                                            b: map<PartitionId, PartitionState>, parts: seq<Partition>,
                                            pid: PartitionId)
    requires SameBut(pid, a, b) && forall p :: p in parts ==> p.id != pid
    ensures Changed(cfg, enc, a, parts) == Changed(cfg, enc, b, parts)
    decreases |parts|
  {
    if parts != [] {
      assert parts[0] in parts;
      ChangedElsewhere(cfg, enc, a, b, parts[1..], pid);
    }
  }

  lemma {:induction false} PartitionsReported(cfg: Config, r: Run, enc: Enclave, es: EnclaveState,
                                              parts: seq<Partition>, s: Sums, driverless: multiset<string>,
                                              owed: multiset<AuditEvent>)
    returns (s': Sums)
    requires Reported(r, s, driverless, owed) && DistinctPartitionIds(parts)
    ensures Reported(RunPartitions(cfg, r, enc, es, parts).0, s', driverless, owed)
    ensures SameCalls(s.(attempted := s.attempted + Changed(cfg, enc, es.partitions, parts)), s')
    decreases |parts|
  {
    hide Reported, RunPartition;
    s' := s;
    if parts != [] {
      s' := PartitionReported(cfg, r, enc, es, parts[0], s, driverless, owed);
      var (r1, es1) := RunPartition(cfg, r, enc, es, parts[0]);
      RunPartitionElsewhere(cfg, r, enc, es, parts[0]);
      OthersDiffer(parts);
      ChangedElsewhere(cfg, enc, es.partitions, es1.partitions, parts[1..], parts[0].id);
      s' := PartitionsReported(cfg, r1, enc, es1, parts[1..], s', driverless, owed);
      var tried := if HashMatches(cfg, parts[0], es.partitions) then [] else [(enc, parts[0])];
      Assoc(s.attempted, tried, Changed(cfg, enc, es.partitions, parts[1..]));
    }
  }

  // ----- exports -----

  function OutputsIn(parts: map<PartitionId, PartitionState>, target: PartitionId): map<string, string> {
    if target in parts then parts[target].outputs else map[]
  }

  /** One call for each of these exports, in order, with the outputs that these records hold for its target. */
  ghost predicate CallsFor(calls: seq<Call>, enc: Enclave, exports: seq<Export>,
                           parts: map<PartitionId, PartitionState>) {
    |calls| == |exports| && forall i :: 0 <= i < |calls| ==> CallFor(calls[i], enc, exports[i], parts)
  }

  ghost predicate CallFor(call: Call, enc: Enclave, exp: Export, parts: map<PartitionId, PartitionState>) {
    && call.ProvisionExport? && call.enc == enc && call.exp == exp
    && call.outputs == OutputsIn(parts, exp.targetPartition)
  }

  lemma {:induction false} ExportAdds(s: Sums, enc: Enclave, exp: Export, outputs: map<string, string>,
                                      existing: Option<Handle>, reply: Reply)
    ensures var call := ProvisionExport(enc, exp, outputs, existing);
            && SameCalls(s.(exported := s.exported + [call]), Add(s, call, reply))
            && (reply.Done? ==> Complaint(call, reply) == multiset{}
                                && EventOf(call, reply) == multiset{ExportWired("", 0, enc.id, exp.name)})
            && (reply.Failed? ==>
                  && Complaint(call, reply) == multiset{"export " + enc.id + "/" + exp.name + ": " + reply.msg}
                  && EventOf(call, reply) == multiset{})
  {
  }

  lemma {:induction false} ExportLost(r: Run, enc: Enclave, exp: Export, msg: string, s: Sums,
                                      driverless: multiset<string>, owed: multiset<AuditEvent>)
    requires Tallied(r, s, driverless, multiset{"export " + enc.id + "/" + exp.name + ": " + msg}, owed + multiset{})
    ensures Reported(Complain(r, "export " + enc.id + "/" + exp.name + ": " + msg), s, driverless, owed)
  {
    hide Tallied;
    var line := "export " + enc.id + "/" + exp.name + ": " + msg;
    NoneAdded(multiset{line});
    NoneAdded(owed);
    SayTallied(r, line, s, driverless, multiset{}, owed);
  }

  lemma {:induction false} ExportWon(cfg: Config, r: Run, enc: Enclave, exp: Export, s: Sums,
                                     driverless: multiset<string>, owed: multiset<AuditEvent>)
    requires Tallied(r, s, driverless, multiset{}, owed + multiset{ExportWired("", 0, enc.id, exp.name)})
    ensures Reported(Log(r, Logged(ExportWired(cfg.freshId(r.trace), cfg.clock(r.trace), enc.id, exp.name))), s,
                     driverless, owed)
  {
    hide Tallied;
    EventTallied(r, ExportWired(cfg.freshId(r.trace), cfg.clock(r.trace), enc.id, exp.name), s, driverless, multiset{},
                 owed);
  }

  lemma {:induction false} ExportReported(cfg: Config, r: Run, enc: Enclave, es: EnclaveState, exp: Export, s: Sums,
                                          driverless: multiset<string>, owed: multiset<AuditEvent>)
    returns (s': Sums, call: Call)
    requires Reported(r, s, driverless, owed)
    ensures Reported(RunExport(cfg, r, enc, es, exp).0, s', driverless, owed)
    ensures CallFor(call, enc, exp, es.partitions) && SameCalls(s.(exported := s.exported + [call]), s')
    ensures RunExport(cfg, r, enc, es, exp).1.partitions == es.partitions
  {
    hide Tallied, Add, Complaint, EventOf, SameCalls;
    var outputs := if exp.targetPartition in es.partitions then es.partitions[exp.targetPartition].outputs else map[];
    var existing := if exp.name in es.exportHandles then Some(es.exportHandles[exp.name]) else None;
    call := ProvisionExport(enc, exp, outputs, existing);
    AskTallied(cfg, r, call, s, driverless, multiset{}, owed);
    var (r1, reply) := Ask(cfg, r, call);
    s' := Add(s, call, reply);
    NoneAdded(Complaint(call, reply));
    ExportAdds(s, enc, exp, outputs, existing, reply);
    if reply.Done? {
      ExportWon(cfg, r1, enc, exp, s', driverless, owed);
    } else {
      ExportLost(r1, enc, exp, reply.msg, s', driverless, owed);
    }
  }

  lemma {:induction false} ExportsReported(cfg: Config, r: Run, enc: Enclave, es: EnclaveState, exports: seq<Export>,
                                           s: Sums, driverless: multiset<string>, owed: multiset<AuditEvent>)
    returns (s': Sums, calls: seq<Call>)
    requires Reported(r, s, driverless, owed)
    ensures Reported(RunExports(cfg, r, enc, es, exports).0, s', driverless, owed)
    ensures CallsFor(calls, enc, exports, es.partitions) && SameCalls(s.(exported := s.exported + calls), s')
    decreases |exports|
  {
    hide Reported, RunExport, CallFor;
    s', calls := s, [];
    if exports != [] {
      var s1, call := ExportReported(cfg, r, enc, es, exports[0], s, driverless, owed);
      var (r1, es1) := RunExport(cfg, r, enc, es, exports[0]);
      var rest: seq<Call>;
      s', rest := ExportsReported(cfg, r1, enc, es1, exports[1..], s1, driverless, owed);
      calls := [call] + rest;
      Assoc(s.exported, [call], rest);
    }
  }

  // ----- enclaves -----

  /** The driver of an enclave is that of the cloud it names, or else of the default one. */
  function CloudFor(cfg: Config, enc: Enclave): CloudTarget {
    match enc.cloud
    case Some(cloud) => cloud
    case None => cfg.defaultCloud
  }

  /** The line about an enclave without a driver. */
  function NoDriverLine(cfg: Config, enc: Enclave): multiset<string> {
    var cloud := CloudFor(cfg, enc);
    if cloud in cfg.drivers then multiset{}
    else
      var name :=
        if cloud.Local? then "local" else if cloud.Gcp? then "gcp" else if cloud.Azure? then "azure" else "aws";
      multiset{"enclave " + enc.id + ": driver not configured for cloud: " + name}
  }

  function NoDriverLines(cfg: Config, encs: seq<Enclave>): multiset<string> {
    if encs == [] then multiset{} else NoDriverLine(cfg, encs[0]) + NoDriverLines(cfg, encs[1..])
  }

  /** The enclaves that have a driver, in order. */
  function Driven(cfg: Config, encs: seq<Enclave>): seq<Enclave> {
    if encs == [] then []
    else (if CloudFor(cfg, encs[0]) in cfg.drivers then [encs[0]] else []) + Driven(cfg, encs[1..])
  }

  /** The export calls belong to the accepted enclaves: theirs, in order, and no others. */
  ghost predicate ExportsCalled(calls: seq<Call>, accepted: seq<Enclave>, store: Store)
    decreases |accepted|
  {
    if accepted == [] then calls == []
    else
      var n := |accepted| - 1;
      var enc := accepted[n];
      && |enc.exports| <= |calls|
      && var m := |calls| - |enc.exports|;
      && CallsFor(calls[m..], enc, enc.exports, PartitionsOf(store, enc.id))
      && ExportsCalled(calls[..m], accepted[..n], store)
  }

  /** The attempts belong to the accepted enclaves: their changed partitions, in order, and no others. */
  function AttemptsOf(cfg: Config, snap: Store, accepted: seq<Enclave>): seq<(Enclave, Partition)> {
    if accepted == [] then []
    else
      var n := |accepted| - 1;
      AttemptsOf(cfg, snap, accepted[..n])
      + Changed(cfg, accepted[n], PartitionsOf(snap, accepted[n].id), accepted[n].partitions)
  }

  lemma {:induction false} ExportsElsewhere(calls: seq<Call>, accepted: seq<Enclave>, a: Store, b: Store, id: EnclaveId)
    requires ExportsCalled(calls, accepted, a) && OnlyRecord(a, b, id)
    requires forall e :: e in accepted ==> e.id != id
    ensures ExportsCalled(calls, accepted, b)
    decreases |accepted|
  {
    if accepted != [] {
      var n := |accepted| - 1;
      assert accepted[n] in accepted;
      ExportsElsewhere(calls[..|calls| - |accepted[n].exports|], accepted[..n], a, b, id);
    }
  }

  lemma {:induction false} ExportsAdded(calls: seq<Call>, more: seq<Call>, accepted: seq<Enclave>, enc: Enclave,
                                        store: Store)
    requires ExportsCalled(calls, accepted, store)
    requires CallsFor(more, enc, enc.exports, PartitionsOf(store, enc.id))
    ensures ExportsCalled(calls + more, accepted + [enc], store)
  {
    var t, all := accepted + [enc], calls + more;
    assert t[..|accepted|] == accepted;
    assert all[|calls|..] == more && all[..|calls|] == calls;
  }

  lemma {:induction false} AttemptsAdded(cfg: Config, snap: Store, accepted: seq<Enclave>, enc: Enclave)
    ensures AttemptsOf(cfg, snap, accepted + [enc])
            == AttemptsOf(cfg, snap, accepted) + Changed(cfg, enc, PartitionsOf(snap, enc.id), enc.partitions)
  {
    assert (accepted + [enc])[..|accepted|] == accepted;
  }

  /** Everything about a run between two enclaves. */
  ghost predicate Between(cfg: Config, snap: Store, r: Run, s: Sums, driverless: multiset<string>) {
    && Reported(r, s, driverless, multiset{})
    && s.attempted == AttemptsOf(cfg, snap, s.accepted)
    && ExportsCalled(s.exported, s.accepted, r.store)
  }

  lemma {:induction false} EnclaveAdds(s: Sums, enc: Enclave, existing: Option<Handle>, reply: Reply)
    ensures var call := ProvisionEnclave(enc, existing);
            && (reply.Done? ==>
                  && SameCalls(s.(asked := s.asked + [enc], accepted := s.accepted + [enc]), Add(s, call, reply))
                  && Complaint(call, reply) == multiset{}
                  && EventOf(call, reply) == multiset{EnclaveProvisioned("", 0, enc.id)})
            && (reply.Failed? ==>
                  && SameCalls(s.(asked := s.asked + [enc]), Add(s, call, reply))
                  && Complaint(call, reply) == multiset{"enclave " + enc.id + ": " + reply.msg}
                  && EventOf(call, reply) == multiset{EnclaveError("", 0, enc.id, reply.msg)})
  {
  }

  lemma {:induction false} RefusedReported(cfg: Config, r1: Run, enc: Enclave, bad: EnclaveState, msg: string, s: Sums,
                                           driverless: multiset<string>)
    requires Tallied(r1, s, driverless, multiset{"enclave " + enc.id + ": " + msg},
                     multiset{EnclaveError("", 0, enc.id, msg)})
    ensures var r2 := Log(r1, Upserted(bad));
            var r3 := Log(r2, Logged(EnclaveError(cfg.freshId(r2.trace), cfg.clock(r2.trace), enc.id, msg)));
            Reported(Complain(r3, "enclave " + enc.id + ": " + msg), s, driverless, multiset{})
  {
    hide Tallied;
    var line, owed := multiset{"enclave " + enc.id + ": " + msg}, multiset{EnclaveError("", 0, enc.id, msg)};
    WriteTallied(r1, Upserted(bad), s, driverless, line, owed);
    var r2 := Log(r1, Upserted(bad));
    var ev := EnclaveError(cfg.freshId(r2.trace), cfg.clock(r2.trace), enc.id, msg);
    NoneAdded(owed);
    EventTallied(r2, ev, s, driverless, line, multiset{});
    NoneAdded(line);
    SayTallied(Log(r2, Logged(ev)), "enclave " + enc.id + ": " + msg, s, driverless, multiset{}, multiset{});
  }

  lemma {:induction false} AcceptedReported(cfg: Config, r1: Run, enc: Enclave, es1: EnclaveState, s: Sums,
                                            driverless: multiset<string>)
    returns (s': Sums, calls: seq<Call>)
    requires Reported(r1, s, driverless, multiset{EnclaveProvisioned("", 0, enc.id)})
    requires es1.desired == enc && DistinctPartitionIds(enc.partitions)
    ensures var (r2, es2) := RunPartitions(cfg, r1, enc, es1, enc.partitions);
            var (r3, es3) := RunExports(cfg, r2, enc, es2, enc.exports);
            var r4 := Log(r3, Logged(EnclaveProvisioned(cfg.freshId(r3.trace), cfg.clock(r3.trace), enc.id)));
            var r5 := Log(r4, Upserted(es3));
            && Reported(r5, s', driverless, multiset{})
            && SameCalls(s.(attempted := s.attempted + Changed(cfg, enc, es1.partitions, enc.partitions),
                            exported := s.exported + calls), s')
            && CallsFor(calls, enc, enc.exports, PartitionsOf(r5.store, enc.id))
  {
    hide Tallied, RunPartitions, RunExports, CallsFor, Changed;
    var owed := multiset{EnclaveProvisioned("", 0, enc.id)};
    var s1 := PartitionsReported(cfg, r1, enc, es1, enc.partitions, s, driverless, owed);
    RunPartitionsProgress(cfg, r1, enc, es1, enc.partitions);
    var (r2, es2) := RunPartitions(cfg, r1, enc, es1, enc.partitions);
    s', calls := ExportsReported(cfg, r2, enc, es2, enc.exports, s1, driverless, owed);
    RunExportsEffect(cfg, r2, enc, es2, enc.exports);
    var (r3, es3) := RunExports(cfg, r2, enc, es2, enc.exports);
    var ev := EnclaveProvisioned(cfg.freshId(r3.trace), cfg.clock(r3.trace), enc.id);
    NoneAdded(owed);
    EventTallied(r3, ev, s', driverless, multiset{}, multiset{});
    WriteTallied(Log(r3, Logged(ev)), Upserted(es3), s', driverless, multiset{}, multiset{});
  }

  lemma {:induction false} UnservedReported(cfg: Config, r: Run, enc: Enclave, s: Sums, driverless: multiset<string>)
    requires Reported(r, s, driverless, multiset{}) && !HasDriver(cfg, enc)
    ensures Reported(Complain(r, NoDriver(cfg, enc)), s, driverless + NoDriverLine(cfg, enc), multiset{})
  {
    var line := multiset{NoDriver(cfg, enc)};
    assert NoDriverLine(cfg, enc) == line;
    assert multiset(r.errors + [NoDriver(cfg, enc)]) == multiset(r.errors) + line;
    AddBoth(s.complaints, driverless, multiset(r.errors), multiset{}, line);
  }

  lemma {:induction false} EnclaveReported(cfg: Config, snap: Store, r: Run, enc: Enclave, s: Sums,
                                           driverless: multiset<string>)
    returns (s': Sums)
    requires Between(cfg, snap, r, s, driverless) && DistinctPartitionIds(enc.partitions)
    requires forall e :: e in s.accepted ==> e.id != enc.id
    ensures Between(cfg, snap, RunEnclave(cfg, snap, r, enc), s', driverless + NoDriverLine(cfg, enc))
    ensures s'.asked == s.asked + (if HasDriver(cfg, enc) then [enc] else [])
    ensures s'.accepted == s.accepted || s'.accepted == s.accepted + [enc]
  {
    hide Tallied, RunPartitions, RunExports, Add, Complaint, EventOf, Changed, ExportsCalled, CallsFor, AttemptsOf;
    RunEnclaveEffect(cfg, snap, r, enc);
    ExportsElsewhere(s.exported, s.accepted, r.store, RunEnclave(cfg, snap, r, enc).store, enc.id);
    NoneAdded(driverless);
    if !HasDriver(cfg, enc) {
      s' := s;
      UnservedReported(cfg, r, enc, s, driverless);
    } else {
      var es0 := BeginEnclave(cfg, snap, enc);
      WriteTallied(r, Upserted(es0), s, driverless, multiset{}, multiset{});
      var r0 := Log(r, Upserted(es0));
      var call := ProvisionEnclave(enc, HandleIn(snap, enc.id));
      AskTallied(cfg, r0, call, s, driverless, multiset{}, multiset{});
      var (r1, reply) := Ask(cfg, r0, call);
      NoneAdded(Complaint(call, reply));
      NoneAdded(EventOf(call, reply));
      EnclaveAdds(s, enc, HandleIn(snap, enc.id), reply);
      s' := Add(s, call, reply);
      match reply
      case Failed(msg) =>
        RefusedReported(cfg, r1, enc, es0.(meta := MarkError(es0.meta, cfg.clock(r1.trace), msg)), msg, s', driverless);
      case Done(handle, _) =>
        var es1 := es0.(handle := Some(handle),
                        meta := MarkActive(es0.meta, cfg.clock(r1.trace), cfg.hashEnclave(enc)));
        var calls: seq<Call>;
        s', calls := AcceptedReported(cfg, r1, enc, es1, s', driverless);
        ExportsAdded(s.exported, calls, s.accepted, enc, RunEnclave(cfg, snap, r, enc).store);
        AttemptsAdded(cfg, snap, s.accepted, enc);
    }
  }

  lemma {:induction false} EnclavesReported(cfg: Config, snap: Store, r: Run, todo: seq<Enclave>, s: Sums,
                                            driverless: multiset<string>)
    returns (s': Sums)
    requires Between(cfg, snap, r, s, driverless) && WellFormedConfig(todo)
    requires forall e :: e in s.accepted ==> e.id !in IdSet(todo)
    ensures Between(cfg, snap, RunEnclaves(cfg, snap, r, todo), s', driverless + NoDriverLines(cfg, todo))
    ensures s'.asked == s.asked + Driven(cfg, todo)
    decreases |todo|
  {
    hide Between, RunEnclave, NoDriverLine;
    s' := s;
    NoneAdded(driverless);
    if todo != [] {
      var enc, rest := todo[0], todo[1..];
      TailIds(todo);
      assert todo == [enc] + rest;
      s' := EnclaveReported(cfg, snap, r, enc, s, driverless);
      var own := if HasDriver(cfg, enc) then [enc] else [];
      assert driverless + NoDriverLine(cfg, enc) + NoDriverLines(cfg, rest) == driverless + NoDriverLines(cfg, todo);
      Assoc(s.asked, own, Driven(cfg, rest));
      s' := EnclavesReported(cfg, snap, RunEnclave(cfg, snap, r, enc), rest, s', driverless + NoDriverLine(cfg, enc));
    }
  }

  // ----- imports -----

  lemma {:induction false} ImportAdds(s: Sums, enc: Enclave, imp: Import, handle: Handle, reply: Reply)
    ensures var call := ProvisionImport(enc, imp, handle, None);
            && SameCalls(s, Add(s, call, reply))
            && (reply.Done? ==> Complaint(call, reply) == multiset{}
                                && EventOf(call, reply) == multiset{ImportWired("", 0, enc.id, imp.exportName)})
            && (reply.Failed? ==>
                  && Complaint(call, reply) == multiset{"import " + enc.id + "/" + imp.alias + ": " + reply.msg}
                  && EventOf(call, reply) == multiset{})
  {
  }

  lemma {:induction false} ImportReported(cfg: Config, r: Run, enc: Enclave, es: EnclaveState, imp: Import, s: Sums,
                                          driverless: multiset<string>)
    returns (s': Sums)
    requires Reported(r, s, driverless, multiset{})
    ensures Reported(RunImport(cfg, r, enc, es, imp).0, s', driverless, multiset{}) && SameCalls(s, s')
  {
    hide Tallied, Add, Complaint, EventOf;
    s' := s;
    if imp.alias !in es.importHandles && ExportHandle(r.store, imp).Some? {
      var call := ProvisionImport(enc, imp, ExportHandle(r.store, imp).value, None);
      AskTallied(cfg, r, call, s, driverless, multiset{}, multiset{});
      var (r1, reply) := Ask(cfg, r, call);
      s' := Add(s, call, reply);
      NoneAdded(Complaint(call, reply));
      NoneAdded(EventOf(call, reply));
      ImportAdds(s, enc, imp, ExportHandle(r.store, imp).value, reply);
      if reply.Done? {
        EventTallied(r1, ImportWired(cfg.freshId(r1.trace), cfg.clock(r1.trace), enc.id, imp.exportName), s',
                     driverless, multiset{}, multiset{});
      } else {
        SayTallied(r1, "import " + enc.id + "/" + imp.alias + ": " + reply.msg, s', driverless, multiset{}, multiset{});
      }
    }
  }

  lemma {:induction false} ImportsReported(cfg: Config, r: Run, enc: Enclave, es: EnclaveState, imports: seq<Import>,
                                           s: Sums, driverless: multiset<string>)
    returns (s': Sums)
    requires Reported(r, s, driverless, multiset{})
    ensures Reported(RunImports(cfg, r, enc, es, imports).0, s', driverless, multiset{}) && SameCalls(s, s')
    decreases |imports|
  {
    hide Reported, RunImport;
    s' := s;
    if imports != [] {
      s' := ImportReported(cfg, r, enc, es, imports[0], s, driverless);
      var (r1, es1) := RunImport(cfg, r, enc, es, imports[0]);
      s' := ImportsReported(cfg, r1, enc, es1, imports[1..], s', driverless);
    }
  }

  lemma {:induction false} WiringReported(cfg: Config, r: Run, todo: seq<Enclave>, s: Sums,
                                          driverless: multiset<string>)
    returns (s': Sums)
    requires Reported(r, s, driverless, multiset{})
    ensures Reported(WireEnclaves(cfg, r, todo), s', driverless, multiset{}) && SameCalls(s, s')
    decreases |todo|
  {
    hide Tallied, RunImports, AllImports;
    s' := s;
    if todo != [] {
      var enc := todo[0];
      if HasDriver(cfg, enc) && enc.id in r.store {
        s' := ImportsReported(cfg, r, enc, r.store[enc.id], AllImports(enc), s, driverless);
        var (r1, es1) := RunImports(cfg, r, enc, r.store[enc.id], AllImports(enc));
        WriteTallied(r1, Upserted(es1), s', driverless, multiset{}, multiset{});
      }
      s' := WiringReported(cfg, WireEnclave(cfg, r, enc), todo[1..], s', driverless);
    }
  }

  // ----- removed enclaves -----

  lemma {:induction false} TeardownPartReported(cfg: Config, r: Run, enc: Enclave, env: map<string, string>,
                                                ps: PartitionState, s: Sums)
    returns (s': Sums)
    requires Reported(r, s, multiset{}, multiset{})
    ensures Reported(TeardownPart(cfg, r, enc.id, enc, env, ps.desired.id, ps), s', multiset{}, multiset{})
    ensures SameCalls(s, s')
  {
    hide Tallied;
    var call := DestroyTerraform(enc, ps.desired, env);
    AskTallied(cfg, r, call, s, multiset{}, multiset{}, multiset{});
    var (r1, tf) := Ask(cfg, r, call);
    s' := Add(s, call, tf);
    NoneAdded(Complaint(call, tf));
    NoneAdded(EventOf(call, tf));
    var line := "teardown " + enc.id + "/" + ps.desired.id + ": " + (if tf.Failed? then tf.msg else "");
    if tf.Failed? {
      SayTallied(r1, line, s', multiset{}, multiset{}, multiset{});
    }
    var r2 := if tf.Failed? then Complain(r1, line) else r1;
    if ps.handle.Some? {
      var last := TeardownPartition(enc, ps.desired, ps.handle.value);
      AskTallied(cfg, r2, last, s', multiset{}, multiset{}, multiset{});
      var reply := Ask(cfg, r2, last).1;
      s' := Add(s', last, reply);
      NoneAdded(Complaint(last, reply));
      NoneAdded(EventOf(last, reply));
    }
  }

  lemma {:induction false} TeardownsReported(cfg: Config, r: Run, es: EnclaveState, env: map<string, string>,
                                             pids: seq<PartitionId>, s: Sums)
    returns (s': Sums)
    requires Reported(r, s, multiset{}, multiset{})
    requires forall i :: 0 <= i < |pids| ==> pids[i] in es.partitions && es.partitions[pids[i]].desired.id == pids[i]
    ensures Reported(TeardownParts(cfg, r, es.desired.id, es, env, pids), s', multiset{}, multiset{})
    ensures SameCalls(s, s')
    decreases |pids|
  {
    hide Reported, TeardownPart;
    s' := s;
    if pids != [] {
      var ps := es.partitions[pids[0]];
      s' := TeardownPartReported(cfg, r, es.desired, env, ps, s);
      var r1 := TeardownPart(cfg, r, es.desired.id, es.desired, env, pids[0], ps);
      s' := TeardownsReported(cfg, r1, es, env, pids[1..], s');
    }
  }

  lemma {:induction false} RemoveReported(cfg: Config, snap: Store, r: Run, id: EnclaveId, s: Sums)
    returns (s': Sums)
    requires Enumerates(cfg) && GoodStore(cfg, snap) && id in snap && Reported(r, s, multiset{}, multiset{})
    ensures Reported(Remove(cfg, snap, r, id).0, s', multiset{}, multiset{}) && SameCalls(s, s')
  {
    hide Tallied, TeardownParts, GoodStore;
    StoredIds(cfg, snap, id);
    s' := s;
    var es := snap[id];
    if TeardownCloud(cfg, es) !in cfg.drivers || es.handle.None? {
      WriteTallied(r, Erased(id), s, multiset{}, multiset{}, multiset{});
    } else {
      var pids, env := cfg.enumerate(es.partitions.Keys), cfg.authEnv(es.desired, es.handle.value);
      assert Lists(pids, es.partitions.Keys);
      s' := TeardownsReported(cfg, r, es, env, pids, s);
      var r1 := TeardownParts(cfg, r, id, es, env, pids);
      WriteTallied(r1, Erased(id), s', multiset{}, multiset{}, multiset{});
      if !cfg.resourcesOnly {
        var call := TeardownEnclave(es.desired, es.handle.value);
        AskTallied(cfg, r1, call, s', multiset{}, multiset{}, multiset{});
        var (r2, reply) := Ask(cfg, r1, call);
        NoneAdded(Complaint(call, reply));
        NoneAdded(EventOf(call, reply));
        s' := Add(s', call, reply);
        WriteTallied(r2, Erased(id), s', multiset{}, multiset{}, multiset{});
      }
    }
  }

  lemma {:induction false} RemoveAllReported(cfg: Config, snap: Store, r: Run, ids: seq<EnclaveId>, s: Sums)
    returns (s': Sums)
    requires Enumerates(cfg) && GoodStore(cfg, snap) && Reported(r, s, multiset{}, multiset{})
    requires forall i :: 0 <= i < |ids| ==> ids[i] in snap
    ensures Reported(RemoveAll(cfg, snap, r, ids).0, s', multiset{}, multiset{}) && SameCalls(s, s')
    decreases |ids|
  {
    hide Reported, Remove, GoodStore;
    s' := s;
    if ids != [] {
      s' := RemoveReported(cfg, snap, r, ids[0], s);
      var (r1, aborted) := Remove(cfg, snap, r, ids[0]);
      if aborted.None? {
        s' := RemoveAllReported(cfg, snap, r1, ids[1..], s');
      }
    }
  }

  lemma {:induction false} RemovalsReported(cfg: Config, snap: Store, ordered: seq<Enclave>) returns (s: Sums)
    requires Enumerates(cfg) && GoodStore(cfg, snap)
    ensures Reported(AfterRemovals(cfg, snap, ordered).0, s, multiset{}, multiset{})
    ensures s.asked == [] && s.accepted == [] && s.attempted == [] && s.exported == []
  {
    hide Tallied, RemoveAll, GoodStore;
    RemovedAreStored(cfg, snap, ordered);
    s := Sums(multiset{}, multiset{}, [], [], [], []);
    var started := ReconcileStarted(cfg.freshId([]), cfg.clock([]), false);
    NothingTallied(snap);
    assert multiset{} + Plain(started) == multiset{};
    EventTallied(Run(snap, [], []), started, s, multiset{}, multiset{}, multiset{});
    s := RemoveAllReported(cfg, snap, Started(cfg, snap), Removed(cfg, snap, ordered), s);
  }

  lemma {:induction false} NothingTallied(snap: Store)
    ensures Tallied(Run(snap, [], []), Sums(multiset{}, multiset{}, [], [], [], []), multiset{}, multiset{}, multiset{})
  {
  }

  // ----- the whole run -----

  lemma {:induction false} ExportsKept(calls: seq<Call>, accepted: seq<Enclave>, a: Store, b: Store)
    requires ExportsCalled(calls, accepted, a) && OnlyImportsAdded(a, b)
    ensures ExportsCalled(calls, accepted, b)
    decreases |accepted|
  {
    if accepted != [] {
      var n := |accepted| - 1;
      assert PartitionsOf(a, accepted[n].id) == PartitionsOf(b, accepted[n].id);
      ExportsKept(calls[..|calls| - |accepted[n].exports|], accepted[..n], a, b);
    }
  }

  lemma {:induction false} PassesReported(cfg: Config, snap: Store, ordered: seq<Enclave>) returns (s: Sums)
    requires Enumerates(cfg) && GoodStore(cfg, snap) && WellFormedConfig(ordered)
    requires Apply(cfg, snap, ordered).aborted.None?
    ensures var out := Apply(cfg, snap, ordered).run;
            && Reported(out, s, NoDriverLines(cfg, ordered), multiset{})
            && s.asked == Driven(cfg, ordered) && s.attempted == AttemptsOf(cfg, snap, s.accepted)
            && ExportsCalled(s.exported, s.accepted, out.store)
  {
    hide Tallied, RunEnclaves, WireEnclaves, AfterRemovals, RunOk, AttemptsOf, GoodStore;
    s := RemovalsReported(cfg, snap, ordered);
    var r1 := AfterRemovals(cfg, snap, ordered).0;
    NothingAccepted(cfg, snap, r1.store);
    s := EnclavesReported(cfg, snap, r1, ordered, s, multiset{});
    NoneAdded(NoDriverLines(cfg, ordered));
    ApplyPasses(cfg, snap, ordered);
    var r2 := RunEnclaves(cfg, snap, r1, ordered);
    var calls := s;
    s := WiringReported(cfg, r2, ordered, s, NoDriverLines(cfg, ordered));
    var r3 := WireEnclaves(cfg, r2, ordered);
    var ev := ReconcileCompleted(cfg.freshId([]), cfg.clock(r3.trace), |Plan(cfg, snap, ordered)|, false);
    NoneAdded(Plain(ev));
    EventTallied(r3, ev, s, NoDriverLines(cfg, ordered), multiset{}, multiset{});
    ExportsKept(calls.exported, calls.accepted, r2.store, Apply(cfg, snap, ordered).run.store);
  }

  lemma {:induction false} NothingAccepted(cfg: Config, snap: Store, store: Store)
    ensures AttemptsOf(cfg, snap, []) == [] && ExportsCalled([], [], store)
  {
  }

  /**
   The report and the events of a run are complete and true: one line for each failed call that is to be
   reported and for each enclave without a driver, and one event for each answer that calls for one.
   */
  lemma {:induction false} ReportIsComplete(cfg: Config, snap: Store, ordered: seq<Enclave>)
    requires Enumerates(cfg) && GoodStore(cfg, snap) && WellFormedConfig(ordered)
    ensures var out := Apply(cfg, snap, ordered);
            var sums := SumsOf(out.run.trace);
            && multiset(out.run.errors)
               == sums.complaints + (if out.aborted.None? then NoDriverLines(cfg, ordered) else multiset{})
            && EventsOf(out.run.trace) == sums.events
  {
    hide Apply, GoodStore;
    if Apply(cfg, snap, ordered).aborted.None? {
      var s := PassesReported(cfg, snap, ordered);
    } else {
      var s := RemovalsReported(cfg, snap, ordered);
      AbortedInRemovals(cfg, snap, ordered);
    }
  }

  lemma {:induction false} AbortedInRemovals(cfg: Config, snap: Store, ordered: seq<Enclave>)
    requires Enumerates(cfg) && Apply(cfg, snap, ordered).aborted.Some?
    ensures Apply(cfg, snap, ordered).run == AfterRemovals(cfg, snap, ordered).0
  {
  }

  /**
   The calls of a run that is not aborted follow the configuration: every enclave with a driver is asked for,
   in order; of those accepted, every partition whose recorded hash is not the wanted one is attempted, in
   order; and every export is called, in order, with the outputs stored for its target when the run ends.
   */
  lemma {:induction false} CallsFollowConfiguration(cfg: Config, snap: Store, ordered: seq<Enclave>)
    requires Enumerates(cfg) && GoodStore(cfg, snap) && WellFormedConfig(ordered)
    requires Apply(cfg, snap, ordered).aborted.None?
    ensures var out := Apply(cfg, snap, ordered).run;
            var sums := SumsOf(out.trace);
            && sums.asked == Driven(cfg, ordered)
            && sums.attempted == AttemptsOf(cfg, snap, sums.accepted)
            && ExportsCalled(sums.exported, sums.accepted, out.store)
  {
    hide Apply, GoodStore, ExportsCalled, AttemptsOf, Driven;
    var s := PassesReported(cfg, snap, ordered);
  }

  // ----- the stages of a run -----

  /** Teardowns, then provisioning and exports, then imports. */
  function Stage(call: Call): nat {
    match call
    case DestroyTerraform(_, _, _) => 0
    case TeardownPartition(_, _, _) => 0
    case TeardownEnclave(_, _) => 0
    case ProvisionImport(_, _, _, _) => 2
    case _ => 1
  }

  /** What has been added to the log makes calls of this stage only, and erases records in the first stage only. */
  ghost predicate Adds(a: seq<Step>, b: seq<Step>, stage: nat) {
    a <= b && forall i :: |a| <= i < |b| ==> InStage(b[i], stage)
  }

  predicate InStage(s: Step, stage: nat) {
    (s.Called? ==> Stage(s.call) == stage) && (s.Erased? ==> stage == 0)
  }

  lemma {:induction false} AddsLog(a: seq<Step>, r: Run, step: Step, stage: nat)
    requires Adds(a, r.trace, stage) && InStage(step, stage)
    ensures Adds(a, Log(r, step).trace, stage)
  {
  }

  lemma {:induction false} AddsChain(a: seq<Step>, b: seq<Step>, c: seq<Step>, stage: nat)
    requires Adds(a, b, stage) && Adds(b, c, stage)
    ensures Adds(a, c, stage)
  {
    forall i | |a| <= i < |c| ensures InStage(c[i], stage) {
      assert i < |b| ==> c[i] == b[i];
    }
  }

  lemma {:induction false} FinishAdds(cfg: Config, r: Run, enc: Enclave, es: EnclaveState, part: Partition,
                                      ps: PartitionState, inputs: map<string, string>, sa: Reply)
    ensures Adds(r.trace, FinishPartition(cfg, r, enc, es, part, ps, inputs, sa).0.trace, 1)
  {
    hide MergeAccount, TerraformEnv;
  }

  lemma {:induction false} PartitionAdds(cfg: Config, r: Run, enc: Enclave, es: EnclaveState, part: Partition)
    ensures Adds(r.trace, RunPartition(cfg, r, enc, es, part).0.trace, 1)
  {
    hide FinishPartition;
    if !HashMatches(cfg, part, es.partitions) {
      var inputs := Template.ResolveInputs(part.inputs, es.importHandles, ContextOf(cfg, enc, es.handle));
      var ps := Announced(es, part);
      var es1 := WithPartition(es, part.id, ps);
      var (r1, sa) := Ask(cfg, Log(r, Upserted(es1)), ProvisionPartition(enc, part, inputs, ps.handle));
      FinishAdds(cfg, r1, enc, es1, part, ps, inputs, sa);
      AddsChain(r.trace, r1.trace, RunPartition(cfg, r, enc, es, part).0.trace, 1);
    }
  }

  lemma {:induction false} PartitionsAdd(cfg: Config, r: Run, enc: Enclave, es: EnclaveState, parts: seq<Partition>)
    ensures Adds(r.trace, RunPartitions(cfg, r, enc, es, parts).0.trace, 1)
    decreases |parts|
  {
    hide RunPartition, Adds;
    if parts == [] {
      NothingAdded(r.trace, 1);
    } else {
      PartitionAdds(cfg, r, enc, es, parts[0]);
      var (r1, es1) := RunPartition(cfg, r, enc, es, parts[0]);
      PartitionsAdd(cfg, r1, enc, es1, parts[1..]);
      AddsChain(r.trace, r1.trace, RunPartitions(cfg, r, enc, es, parts).0.trace, 1);
    }
  }

  lemma {:induction false} NothingAdded(trace: seq<Step>, stage: nat)
    ensures Adds(trace, trace, stage)
  {
  }

  lemma {:induction false} ExportsAdd(cfg: Config, r: Run, enc: Enclave, es: EnclaveState, exports: seq<Export>)
    ensures Adds(r.trace, RunExports(cfg, r, enc, es, exports).0.trace, 1)
    decreases |exports|
  {
    if exports != [] {
      var (r1, es1) := RunExport(cfg, r, enc, es, exports[0]);
      ExportsAdd(cfg, r1, enc, es1, exports[1..]);
      AddsChain(r.trace, r1.trace, RunExports(cfg, r, enc, es, exports).0.trace, 1);
    }
  }

  lemma {:induction false} EnclavesAdd(cfg: Config, snap: Store, r: Run, todo: seq<Enclave>)
    ensures Adds(r.trace, RunEnclaves(cfg, snap, r, todo).trace, 1)
    decreases |todo|
  {
    hide RunEnclave;
    if todo != [] {
      EnclaveAddsCalls(cfg, snap, r, todo[0]);
      var r1 := RunEnclave(cfg, snap, r, todo[0]);
      EnclavesAdd(cfg, snap, r1, todo[1..]);
      AddsChain(r.trace, r1.trace, RunEnclaves(cfg, snap, r, todo).trace, 1);
    }
  }

  lemma {:induction false} EnclaveAddsCalls(cfg: Config, snap: Store, r: Run, enc: Enclave)
    ensures Adds(r.trace, RunEnclave(cfg, snap, r, enc).trace, 1)
  {
    hide RunPartitions, RunExports;
    if HasDriver(cfg, enc) {
      var es0 := BeginEnclave(cfg, snap, enc);
      var (r1, reply) := Ask(cfg, Log(r, Upserted(es0)), ProvisionEnclave(enc, HandleIn(snap, enc.id)));
      if reply.Done? {
        var es1 := es0.(handle := Some(reply.handle),
                        meta := MarkActive(es0.meta, cfg.clock(r1.trace), cfg.hashEnclave(enc)));
        PartitionsAdd(cfg, r1, enc, es1, enc.partitions);
        var (r2, es2) := RunPartitions(cfg, r1, enc, es1, enc.partitions);
        ExportsAdd(cfg, r2, enc, es2, enc.exports);
        var r3 := RunExports(cfg, r2, enc, es2, enc.exports).0;
        AddsChain(r1.trace, r2.trace, r3.trace, 1);
        AddsChain(r1.trace, r3.trace, RunEnclave(cfg, snap, r, enc).trace, 1);
        AddsChain(r.trace, r1.trace, RunEnclave(cfg, snap, r, enc).trace, 1);
      }
    }
  }

  lemma {:induction false} ImportsAdd(cfg: Config, r: Run, enc: Enclave, es: EnclaveState, imports: seq<Import>)
    ensures Adds(r.trace, RunImports(cfg, r, enc, es, imports).0.trace, 2)
    decreases |imports|
  {
    if imports != [] {
      var (r1, es1) := RunImport(cfg, r, enc, es, imports[0]);
      ImportsAdd(cfg, r1, enc, es1, imports[1..]);
      AddsChain(r.trace, r1.trace, RunImports(cfg, r, enc, es, imports).0.trace, 2);
    }
  }

  lemma {:induction false} WiringAdds(cfg: Config, r: Run, todo: seq<Enclave>)
    ensures Adds(r.trace, WireEnclaves(cfg, r, todo).trace, 2)
    decreases |todo|
  {
    hide RunImports, AllImports;
    if todo != [] {
      var enc := todo[0];
      if HasDriver(cfg, enc) && enc.id in r.store {
        ImportsAdd(cfg, r, enc, r.store[enc.id], AllImports(enc));
      }
      var r1 := WireEnclave(cfg, r, enc);
      WiringAdds(cfg, r1, todo[1..]);
      AddsChain(r.trace, r1.trace, WireEnclaves(cfg, r, todo).trace, 2);
    }
  }

  lemma {:induction false} TeardownsAdd(cfg: Config, r: Run, id: EnclaveId, es: EnclaveState, env: map<string, string>,
                                        pids: seq<PartitionId>)
    requires forall i :: 0 <= i < |pids| ==> pids[i] in es.partitions
    ensures Adds(r.trace, TeardownParts(cfg, r, id, es, env, pids).trace, 0)
    decreases |pids|
  {
    if pids != [] {
      var r1 := TeardownPart(cfg, r, id, es.desired, env, pids[0], es.partitions[pids[0]]);
      TeardownsAdd(cfg, r1, id, es, env, pids[1..]);
      AddsChain(r.trace, r1.trace, TeardownParts(cfg, r, id, es, env, pids).trace, 0);
    }
  }

  lemma {:induction false} RemovalsAdd(cfg: Config, snap: Store, r: Run, ids: seq<EnclaveId>)
    requires Enumerates(cfg) && forall i :: 0 <= i < |ids| ==> ids[i] in snap
    ensures Adds(r.trace, RemoveAll(cfg, snap, r, ids).0.trace, 0)
    decreases |ids|
  {
    hide TeardownParts;
    if ids != [] {
      var es := snap[ids[0]];
      if es.handle.Some? {
        assert Lists(cfg.enumerate(es.partitions.Keys), es.partitions.Keys);
        TeardownsAdd(cfg, r, ids[0], es, cfg.authEnv(es.desired, es.handle.value),
                     cfg.enumerate(es.partitions.Keys));
      }
      var (r1, aborted) := Remove(cfg, snap, r, ids[0]);
      if aborted.None? {
        RemovalsAdd(cfg, snap, r1, ids[1..]);
        AddsChain(r.trace, r1.trace, RemoveAll(cfg, snap, r, ids).0.trace, 0);
      }
    }
  }

  /** No teardown comes after provisioning has begun, and no import is wired before all of it is done. */
  lemma {:induction false} StagesInOrder(cfg: Config, snap: Store, ordered: seq<Enclave>, i: nat, j: nat)
    requires Enumerates(cfg) && i < j < |Apply(cfg, snap, ordered).run.trace|
    ensures var trace := Apply(cfg, snap, ordered).run.trace;
            trace[i].Called? && trace[j].Called? ==> Stage(trace[i].call) <= Stage(trace[j].call)
    ensures var trace := Apply(cfg, snap, ordered).run.trace;
            trace[i].Called? && Stage(trace[i].call) > 0 ==> !trace[j].Erased?
  {
    hide RunEnclaves, WireEnclaves, RemoveAll;
    RemovedAreStored(cfg, snap, ordered);
    RemovalsAdd(cfg, snap, Started(cfg, snap), Removed(cfg, snap, ordered));
    var (r1, aborted) := AfterRemovals(cfg, snap, ordered);
    if aborted.None? {
      EnclavesAdd(cfg, snap, r1, ordered);
      WiringAdds(cfg, RunEnclaves(cfg, snap, r1, ordered), ordered);
    }
  }
}
