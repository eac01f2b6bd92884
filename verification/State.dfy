/** State records and the lifecycle of a resource (crates/nclav-store/src/state.rs). */
module State {
  import opened Prelude
  import opened Domain
  import opened Json

  /** An abstract instant: later instants are larger. */
  type Time = int

  type Handle = Json

  datatype Status = Pending | Provisioning | Active | Updating | Degraded | Error | Deleting | Deleted

  datatype ResourceError = ResourceError(message: string, occurredAt: Time)

  datatype Meta = Meta(
    status: Status, createdAt: Option<Time>, updatedAt: Option<Time>, lastSeenAt: Option<Time>,
    lastError: Option<ResourceError>, desiredHash: Option<string>, generation: nat)

  const DEFAULT_META := Meta(Pending, None, None, None, None, None, 0)

  function MarkActive(m: Meta, now: Time, hash: string): Meta {
    m.(createdAt := if m.createdAt.None? then Some(now) else m.createdAt,
       updatedAt := Some(now),
       status := Active,
       lastError := None,
       desiredHash := Some(hash),
       generation := m.generation + 1)
  }

  function MarkError(m: Meta, now: Time, message: string): Meta {
    m.(status := Error, lastError := Some(ResourceError(message, now)), generation := m.generation + 1)
  }

  function MarkSeen(m: Meta, now: Time, healthy: bool): Meta {
    m.(lastSeenAt := Some(now),
       status := if m.status == Active && !healthy then Degraded
                 else if m.status == Degraded && healthy then Active
                 else m.status)
  }

  datatype PartitionState = PartitionState(
    desired: Partition, handle: Option<Handle>, outputs: map<string, string>, meta: Meta)

  function NewPartitionState(desired: Partition): PartitionState {
    PartitionState(desired, None, map[], DEFAULT_META)
  }

  datatype EnclaveState = EnclaveState(
    desired: Enclave, handle: Option<Handle>, partitions: map<PartitionId, PartitionState>,
    exportHandles: map<string, Handle>, importHandles: map<string, Handle>, meta: Meta,
    resolvedCloud: Option<CloudTarget>)

  function NewEnclaveState(desired: Enclave): EnclaveState {
    EnclaveState(desired, None, map[], map[], map[], DEFAULT_META, None)
  }

  datatype IacOperation = ProvisionRun | UpdateRun | TeardownRun

  datatype IacRunStatus = Running | Succeeded | Failed

  datatype IacRun = IacRun(
    id: string, enclaveId: EnclaveId, partitionId: PartitionId, operation: IacOperation,
    startedAt: Time, finishedAt: Option<Time>, status: IacRunStatus, exitCode: Option<int>,
    log: string, reconcileRunId: Option<string>)

  datatype AuditEvent =
    | ReconcileStarted(id: string, at: Time, dryRun: bool)
    | ReconcileCompleted(id: string, at: Time, changes: nat, dryRun: bool)
    | EnclaveProvisioned(id: string, at: Time, enclaveId: EnclaveId)
    | PartitionProvisioned(id: string, at: Time, enclaveId: EnclaveId, partitionId: PartitionId)
    | ExportWired(id: string, at: Time, enclaveId: EnclaveId, exportName: string)
    | ImportWired(id: string, at: Time, importerEnclave: EnclaveId, exportName: string)
    | EnclaveError(id: string, at: Time, enclaveId: EnclaveId, message: string)
    | PartitionError(id: string, at: Time, enclaveId: EnclaveId, partitionId: PartitionId, message: string)

  function EventEnclave(ev: AuditEvent): Option<EnclaveId> {
    match ev
    case ReconcileStarted(_, _, _) => None
    case ReconcileCompleted(_, _, _, _) => None
    case ImportWired(_, _, importer, _) => Some(importer)
    case _ => Some(ev.enclaveId)
  }

  // ----- histories of marks -----

  datatype Mark = Activated(now: Time, hash: string) | Errored(now: Time, message: string) | Seen(now: Time,
      healthy: bool)

  function ApplyMark(m: Meta, k: Mark): Meta {
    match k
    case Activated(now, hash) => MarkActive(m, now, hash)
    case Errored(now, message) => MarkError(m, now, message)
    case Seen(now, healthy) => MarkSeen(m, now, healthy)
  }

  function History(marks: seq<Mark>): Meta {
    if marks == [] then DEFAULT_META
    else ApplyMark(History(marks[..|marks| - 1]), marks[|marks| - 1])
  }

  /** The marks that record an outcome, in order; observations are left out. */
  function Outcomes(marks: seq<Mark>): (r: seq<Mark>)
    ensures forall k :: k in r ==> !k.Seen?
  {
    if marks == [] then []
    else
      var before, k := Outcomes(marks[..|marks| - 1]), marks[|marks| - 1];
      if k.Seen? then before else before + [k]
  }

  function Successes(marks: seq<Mark>): (r: seq<Mark>)
    ensures forall k :: k in r ==> k.Activated?
  {
    if marks == [] then []
    else
      var before, k := Successes(marks[..|marks| - 1]), marks[|marks| - 1];
      if k.Activated? then before + [k] else before
  }

  /** When the resource was last seen, if it ever was. */
  function LastSeen(marks: seq<Mark>): Option<Time> {
    if marks == [] then None
    else
      var k := marks[|marks| - 1];
      if k.Seen? then Some(k.now) else LastSeen(marks[..|marks| - 1])
  }

  /**
   What the record means, over any history of marks: the generation counts outcomes, the
   creation time is that of the first success and never moves, hash and update time are those
   of the latest success, and an error is shown exactly when the latest outcome is a failure.
   A resource is Degraded exactly when it succeeded last and was then seen unhealthy last.
   */
  lemma {:induction false} MetaHistory(marks: seq<Mark>)
    ensures var m, outs, oks := History(marks), Outcomes(marks), Successes(marks);
            && m.generation == |outs|
            && m.createdAt == (if oks == [] then None else Some(oks[0].now))
            && m.updatedAt == (if oks == [] then None else Some(oks[|oks| - 1].now))
            && m.desiredHash == (if oks == [] then None else Some(oks[|oks| - 1].hash))
            && m.lastError == (if outs == [] || outs[|outs| - 1].Activated? then None
                               else Some(ResourceError(outs[|outs| - 1].message, outs[|outs| - 1].now)))
            && m.lastSeenAt == LastSeen(marks)
            && (m.status == Pending <==> outs == [])
            && (m.status == Error <==> outs != [] && outs[|outs| - 1].Errored?)
            && (m.status in {Active, Degraded} <==> outs != [] && outs[|outs| - 1].Activated?)
            && (m.status == Degraded <==>
                  outs != [] && outs[|outs| - 1].Activated? && marks[|marks| - 1].Seen? && !marks[|marks| - 1].healthy)
  {
    if marks != [] {
      MetaHistory(marks[..|marks| - 1]);
    }
  }

  /** The record itself, changed in place by its three marks; `marks` is its history so far. */
  class ResourceMeta {
    var status: Status
    var createdAt: Option<Time>
    var updatedAt: Option<Time>
    var lastSeenAt: Option<Time>
    var lastError: Option<ResourceError>
    var desiredHash: Option<string>
    var generation: nat
    ghost var marks: seq<Mark>

    function Value(): Meta
      reads this
    {
      Meta(status, createdAt, updatedAt, lastSeenAt, lastError, desiredHash, generation)
    }

    /** The fields are what the history of marks makes of the default record. */
    ghost predicate Valid()
      reads this
    {
      Value() == History(marks)
    }

    constructor ()
      ensures Valid() && marks == []
    {
      status, createdAt, updatedAt, lastSeenAt := Pending, None, None, None;
      lastError, desiredHash, generation, marks := None, None, 0, [];
    }

    method Activate(now: Time, hash: string)
      requires Valid()
      modifies this
      ensures Valid() && marks == old(marks) + [Activated(now, hash)]
    {
      if createdAt.None? {
        createdAt := Some(now);
      }
      updatedAt := Some(now);
      status := Active;
      lastError := None;
      desiredHash := Some(hash);
      generation := generation + 1;
      marks := marks + [Activated(now, hash)];
    }

    method Fail(now: Time, message: string)
      requires Valid()
      modifies this
      ensures Valid() && marks == old(marks) + [Errored(now, message)]
    {
      status := Error;
      lastError := Some(ResourceError(message, now));
      generation := generation + 1;
      marks := marks + [Errored(now, message)];
    }

    method Observe(now: Time, healthy: bool)
      requires Valid()
      modifies this
      ensures Valid() && marks == old(marks) + [Seen(now, healthy)]
    {
      lastSeenAt := Some(now);
      if status == Active && !healthy {
        status := Degraded;
      } else if status == Degraded && healthy {
        status := Active;
      }
      marks := marks + [Seen(now, healthy)];
    }
  }
}
