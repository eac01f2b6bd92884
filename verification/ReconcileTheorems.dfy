/** The main results about reconcile runs. */
module ReconcileTheorems {
  import opened Prelude
  import opened Json
  import opened Domain
  import opened State
  import opened Reconcile
  import opened ReconcileProtocol
  import opened ReconcileFixpoint
  import opened ReconcilePlan
  import Validate

  // ----- at every crash point -----

  lemma {:induction false} PrefixGood(cfg: Config, snap: Store, ordered: seq<Enclave>, trace: seq<Step>, k: nat)
    requires GoodStore(cfg, snap) && StepsOk(cfg, snap, ordered, trace) && k <= |trace|
    ensures GoodStore(cfg, Replay(snap, trace[..k]))
  {
    if k > 0 {
      assert StepOkAt(cfg, snap, ordered, trace, k - 1);
      assert trace[..k][..k - 1] == trace[..k - 1] && trace[..k][k - 1] == trace[k - 1];
    }
  }

  /**
   Wherever a run is cut off, every stored record is consistent; in particular a partition
   is Active exactly when its recorded hash is the hash of its recorded configuration.
   */
  lemma {:induction false} EveryPersistedStateIsGood(cfg: Config, snap: Store, ordered: seq<Enclave>, k: nat)
    requires Enumerates(cfg) && GoodStore(cfg, snap) && WellFormedConfig(ordered)
    requires k <= |Apply(cfg, snap, ordered).run.trace|
    ensures GoodStore(cfg, Replay(snap, Apply(cfg, snap, ordered).run.trace[..k]))
    ensures Apply(cfg, snap, ordered).run.store == Replay(snap, Apply(cfg, snap, ordered).run.trace)
  {
    ApplyOk(cfg, snap, ordered);
    PrefixGood(cfg, snap, ordered, Apply(cfg, snap, ordered).run.trace, k);
  }

  /** One run among many: its world, its configuration, and the step before which it died. */
  datatype Episode = Episode(cfg: Config, ordered: seq<Enclave>, steps: nat)

  ghost predicate Legal(e: Episode, hashE: Enclave -> string, hashP: Partition -> string) {
    Enumerates(e.cfg) && WellFormedConfig(e.ordered) && e.cfg.hashEnclave == hashE && e.cfg.hashPartition == hashP
  }

  ghost predicate AllLegal(episodes: seq<Episode>, cfg: Config) {
    forall i :: 0 <= i < |episodes| ==> Legal(episodes[i], cfg.hashEnclave, cfg.hashPartition)
  }

  ghost function StoreAfter(store: Store, episodes: seq<Episode>, cfg: Config): Store
    requires AllLegal(episodes, cfg)
    decreases |episodes|
  {
    if episodes == [] then store
    else
      var e := episodes[0];
      assert Legal(e, cfg.hashEnclave, cfg.hashPartition);
      var trace := Apply(e.cfg, store, e.ordered).run.trace;
      StoreAfter(Replay(store, trace[..if e.steps <= |trace| then e.steps else |trace|]), episodes[1..], cfg)
  }

  /** Any number of runs, each with its own driver behaviour and its own crash, leave good records. */
  lemma {:induction false} AnyHistoryIsGood(store: Store, episodes: seq<Episode>, cfg: Config)
    requires AllLegal(episodes, cfg) && GoodStore(cfg, store)
    ensures GoodStore(cfg, StoreAfter(store, episodes, cfg))
    decreases |episodes|
  {
    if episodes != [] {
      var e := episodes[0];
      assert Legal(e, cfg.hashEnclave, cfg.hashPartition);
      var trace := Apply(e.cfg, store, e.ordered).run.trace;
      var k := if e.steps <= |trace| then e.steps else |trace|;
      SameHashesGood(cfg, e.cfg, store);
      EveryPersistedStateIsGood(e.cfg, store, e.ordered, k);
      SameHashesGood(e.cfg, cfg, Replay(store, trace[..k]));
      AnyHistoryIsGood(Replay(store, trace[..k]), episodes[1..], cfg);
    }
  }

  lemma {:induction false} SameHashesGood(a: Config, b: Config, store: Store)
    requires a.hashEnclave == b.hashEnclave && a.hashPartition == b.hashPartition && GoodStore(a, store)
    ensures GoodStore(b, store)
  {
  }

  // ----- the order of writes and calls -----

  /** What the store held when the k-th step of a run was taken. */
  ghost function StoreAt(snap: Store, trace: seq<Step>, k: nat): Store
    requires k <= |trace|
  {
    Replay(snap, trace[..k])
  }

  lemma {:induction false} WriteAhead(cfg: Config, snap: Store, ordered: seq<Enclave>, k: nat)
    requires Enumerates(cfg) && GoodStore(cfg, snap) && WellFormedConfig(ordered)
    requires k < |Apply(cfg, snap, ordered).run.trace|
    ensures var trace := Apply(cfg, snap, ordered).run.trace;
            var store := StoreAt(snap, trace, k);
            match trace[k]
            case Called(call, _) => CallOk(cfg, snap, ordered, store, trace[..k], call)
            case Erased(id) => RemovalAllowed(cfg, snap, ordered, trace[..k], id)
            case Logged(ev) => EventTrue(trace[..k], ev)
            case _ => true
  {
    ApplyOk(cfg, snap, ordered);
    assert StepOkAt(cfg, snap, ordered, Apply(cfg, snap, ordered).run.trace, k);
  }

  // ----- where records and events come from -----

  lemma {:induction false} PrefixBacked(cfg: Config, snap: Store, ordered: seq<Enclave>, trace: seq<Step>, k: nat)
    requires GoodStore(cfg, snap) && StepsOk(cfg, snap, ordered, trace) && k <= |trace|
    ensures AllBacked(snap, trace[..k], Replay(snap, trace[..k]))
  {
    if k > 0 {
      PrefixBacked(cfg, snap, ordered, trace, k - 1);
      assert StepOkAt(cfg, snap, ordered, trace, k - 1);
      assert trace[..k] == trace[..k - 1] + [trace[k - 1]];
      AllBackedLater(snap, trace[..k - 1], Replay(snap, trace[..k - 1]), trace[k - 1]);
    }
  }

  /**
   Wherever a run is cut off, a stored partition is Active only if the run found it so, or if Terraform
   was run for exactly this configuration, as the account the driver had just named wherever a key file
   lets it impersonate one, and what the record holds is what the two of them returned.
   */
  lemma {:induction false} ActiveIsEarned(cfg: Config, snap: Store, ordered: seq<Enclave>, k: nat, id: EnclaveId,
                                          pid: PartitionId)
    requires Enumerates(cfg) && GoodStore(cfg, snap) && WellFormedConfig(ordered)
    requires k <= |Apply(cfg, snap, ordered).run.trace|
    ensures var trace := Apply(cfg, snap, ordered).run.trace[..k];
            var store := Replay(snap, trace);
            id in store && pid in store[id].partitions && store[id].partitions[pid].meta.status == Active ==>
              || (pid in PartitionsOf(snap, id) && store[id].partitions[pid] == PartitionsOf(snap, id)[pid])
              || Earned(trace, id, store[id].partitions[pid])
  {
    ApplyOk(cfg, snap, ordered);
    var trace := Apply(cfg, snap, ordered).run.trace;
    PrefixGood(cfg, snap, ordered, trace, k);
    PrefixBacked(cfg, snap, ordered, trace, k);
  }

  /** The log of a run opens with its start, and that of a run that is not aborted closes with its end. */
  lemma {:induction false} AuditFrame(cfg: Config, snap: Store, ordered: seq<Enclave>)
    requires Enumerates(cfg) && GoodStore(cfg, snap) && WellFormedConfig(ordered)
    ensures var out := Apply(cfg, snap, ordered);
            var trace := out.run.trace;
            && trace != [] && trace[0].Logged? && trace[0].event.ReconcileStarted? && !trace[0].event.dryRun
            && (out.aborted.None? ==>
                  && trace[|trace| - 1].Logged? && trace[|trace| - 1].event.ReconcileCompleted?
                  && trace[|trace| - 1].event.id == trace[0].event.id && !trace[|trace| - 1].event.dryRun
                  && trace[|trace| - 1].event.changes == |Plan(cfg, snap, ordered)|)
  {
    hide RunOk, RunEnclaves, WireEnclaves;
    var ids := Removed(cfg, snap, ordered);
    RemovedAreStored(cfg, snap, ordered);
    assert Lists(ids, snap.Keys - IdSet(ordered));
    RemoveAllEffect(cfg, snap, Started(cfg, snap), ids);
    if Apply(cfg, snap, ordered).aborted.None? {
      var r1 := AfterRemovals(cfg, snap, ordered).0;
      RunEnclavesProgress(cfg, snap, r1, ordered);
      ApplyPasses(cfg, snap, ordered);
    }
  }

  /** A run aborts exactly when its last step is a refused teardown of an enclave, and with that driver's message. */
  lemma {:induction false} AbortsIffTeardownRefused(cfg: Config, snap: Store, ordered: seq<Enclave>, msg: string)
    requires Enumerates(cfg) && GoodStore(cfg, snap) && WellFormedConfig(ordered)
    ensures var out := Apply(cfg, snap, ordered);
            out.aborted == Some(msg) <==>
              && out.run.trace != []
              && var last := out.run.trace[|out.run.trace| - 1];
              && last.Called? && last.call.TeardownEnclave? && last.reply == Reply.Failed(msg)
  {
    hide RunOk, RunEnclaves, WireEnclaves, RemoveAll;
    RemovedAreStored(cfg, snap, ordered);
    RefusalEnds(cfg, snap, Started(cfg, snap), Removed(cfg, snap, ordered));
  }

  lemma {:induction false} RefusalEnds(cfg: Config, snap: Store, r: Run, ids: seq<EnclaveId>)
    requires Enumerates(cfg) && forall i :: 0 <= i < |ids| ==> ids[i] in snap
    ensures var (r', aborted) := RemoveAll(cfg, snap, r, ids);
            aborted.Some? ==>
              && r'.trace != []
              && var last := r'.trace[|r'.trace| - 1];
              && last.Called? && last.call.TeardownEnclave? && last.reply == Reply.Failed(aborted.value)
    decreases |ids|
  {
    hide TeardownParts;
    if ids != [] {
      var (r1, aborted) := Remove(cfg, snap, r, ids[0]);
      if aborted.None? {
        RefusalEnds(cfg, snap, r1, ids[1..]);
      }
    }
  }

  // ----- the plan predicts the run -----

  ghost predicate Listed(cfg: Config, snap: Store, ordered: seq<Enclave>, enc: Enclave, part: Partition) {
    PartitionCreated(enc.id, part.id) in Plan(cfg, snap, ordered)
        || PartitionUpdated(enc.id, part.id) in Plan(cfg, snap, ordered)
  }

  lemma {:induction false} SameEnclave(ordered: seq<Enclave>, a: Enclave, b: Enclave)
    requires DistinctIds(ordered) && a in ordered && b in ordered && a.id == b.id
    ensures a == b
  {
    var i :| 0 <= i < |ordered| && ordered[i] == a;
    var j :| 0 <= j < |ordered| && ordered[j] == b;
    assert i < j || i == j || j < i;
  }

  lemma {:induction false} SamePartition(parts: seq<Partition>, a: Partition, b: Partition)
    requires DistinctPartitionIds(parts) && a in parts && b in parts && a.id == b.id
    ensures a == b
  {
    var i :| 0 <= i < |parts| && parts[i] == a;
    var j :| 0 <= j < |parts| && parts[j] == b;
    assert i < j || i == j || j < i;
  }

  /** The change list names exactly the planned partitions. */
  lemma {:induction false} ListedIffPlanned(cfg: Config, snap: Store, ordered: seq<Enclave>, enc: Enclave,
                                            part: Partition)
    requires WellFormedConfig(ordered) && enc in ordered && part in enc.partitions
    ensures Listed(cfg, snap, ordered, enc, part) <==> Planned(cfg, snap, ordered, enc, part)
  {
    ListedIffDue(cfg, snap, ordered, PartitionCreated(enc.id, part.id));
    ListedIffDue(cfg, snap, ordered, PartitionUpdated(enc.id, part.id));
    forall x, q | x in ordered && x.id == enc.id && q in x.partitions && q.id == part.id ensures q == part {
      SameEnclave(ordered, x, enc);
      SamePartition(enc.partitions, q, part);
    }
  }

  /** Every attempt of a run was announced by its change list. */
  lemma {:induction false} AttemptsWereListed(cfg: Config, snap: Store, ordered: seq<Enclave>, enc: Enclave,
                                              part: Partition)
    requires Enumerates(cfg) && GoodStore(cfg, snap) && WellFormedConfig(ordered)
    requires AttemptIn(Apply(cfg, snap, ordered).run.trace, enc, part)
    ensures enc in ordered && part in enc.partitions && Listed(cfg, snap, ordered, enc, part)
  {
    var trace := Apply(cfg, snap, ordered).run.trace;
    var s :| s in trace && s.Called? && s.call.ProvisionPartition? && s.call.enc == enc && s.call.part == part;
    var k :| 0 <= k < |trace| && trace[k] == s;
    ApplyOk(cfg, snap, ordered);
    assert StepOkAt(cfg, snap, ordered, trace, k);
    ListedIffPlanned(cfg, snap, ordered, enc, part);
  }

  /** A run that is not aborted attempts everything listed, unless the enclave could not be reached. */
  lemma {:induction false} ListedIsAttempted(cfg: Config, snap: Store, ordered: seq<Enclave>, enc: Enclave,
                                             part: Partition)
    requires Enumerates(cfg) && WellFormedConfig(ordered) && Apply(cfg, snap, ordered).aborted.None?
    requires GoodStore(cfg, snap) && enc in ordered && part in enc.partitions && Listed(cfg, snap, ordered, enc, part)
    ensures var trace := Apply(cfg, snap, ordered).run.trace;
            AttemptIn(trace, enc, part) || !HasDriver(cfg, enc) || RefusedIn(trace, enc)
  {
    ListedIffPlanned(cfg, snap, ordered, enc, part);
    ApplyPasses(cfg, snap, ordered);
    var r1 := AfterRemovals(cfg, snap, ordered).0;
    var r2 := RunEnclaves(cfg, snap, r1, ordered);
    RunEnclavesEffect(cfg, snap, r1, ordered, enc);
    CarriedOutLater(cfg, snap, r2.trace, Apply(cfg, snap, ordered).run.trace, enc);
  }

  // ----- after a run that was not aborted -----

  lemma {:induction false} KeyedById(cfg: Config, snap: Store, ordered: seq<Enclave>, r: Run)
    requires RunOk(cfg, snap, ordered, r)
    ensures forall id :: id in r.store ==> r.store[id].desired.id == id
  {
  }

  /** Records after the enclave pass, and what the import pass and the final event add to them. */
  lemma {:induction false} ApplyPasses(cfg: Config, snap: Store, ordered: seq<Enclave>)
    requires Enumerates(cfg) && GoodStore(cfg, snap) && WellFormedConfig(ordered)
    requires Apply(cfg, snap, ordered).aborted.None?
    ensures var r1 := AfterRemovals(cfg, snap, ordered).0;
            var r2 := RunEnclaves(cfg, snap, r1, ordered);
            var r3 := Apply(cfg, snap, ordered).run;
            && AfterRemovals(cfg, snap, ordered).1.None?
            && (forall id :: id in r2.store ==> r2.store[id].desired.id == id)
            && Progress(r2, r3) && OnlyImportsAdded(r2.store, r3.store)
            && r3 == Finished(cfg, snap, ordered, WireEnclaves(cfg, r2, ordered))
  {
    hide RunOk, RunEnclaves, WireEnclaves;
    RemovalPassOk(cfg, snap, ordered);
    var r1 := AfterRemovals(cfg, snap, ordered).0;
    RunEnclavesOk(cfg, snap, ordered, r1, ordered);
    var r2 := RunEnclaves(cfg, snap, r1, ordered);
    KeyedById(cfg, snap, ordered, r2);
    WireEnclavesProgress(cfg, r2, ordered);
  }

  /** The stored enclaves are then the configured ones that were already stored or have a driver. */
  lemma {:induction false} StoreAfterApply(cfg: Config, snap: Store, ordered: seq<Enclave>, id: EnclaveId)
    requires Enumerates(cfg) && GoodStore(cfg, snap) && WellFormedConfig(ordered)
    requires Apply(cfg, snap, ordered).aborted.None?
    ensures id in Apply(cfg, snap, ordered).run.store <==>
            exists e :: e in ordered && e.id == id && (e.id in snap || HasDriver(cfg, e))
  {
    RemovalEffect(cfg, snap, ordered);
    ApplyPasses(cfg, snap, ordered);
    var r1 := AfterRemovals(cfg, snap, ordered).0;
    RunEnclavesProgress(cfg, snap, r1, ordered);
    if e :| e in ordered && e.id == id {
      RunEnclavesEffect(cfg, snap, r1, ordered, e);
      forall x | x in ordered && x.id == id ensures x == e {
        SameEnclave(ordered, x, e);
      }
    }
  }

  /** Every import names an enclave of the configuration and an export of that enclave. */
  ghost predicate ImportsResolve(ordered: seq<Enclave>) {
    forall e, i :: e in ordered && i in AllImports(e) ==> Resolves(ordered, i)
  }

  ghost predicate Resolves(ordered: seq<Enclave>, i: Import) {
    exists x :: x in ordered && x.id == i.from && Validate.Exports(x.exports, i.exportName)
  }

  lemma {:induction false} ResolvedHasHandle(cfg: Config, snap: Store, store: Store, ordered: seq<Enclave>, i: Import)
    requires Resolves(ordered, i) && forall e :: e in ordered ==> EnclaveOutcome(cfg, snap, store, e)
    ensures ExportHandle(store, i).Some?
  {
    var x :| x in ordered && x.id == i.from && Validate.Exports(x.exports, i.exportName);
    assert EnclaveOutcome(cfg, snap, store, x);
    var y :| y in x.exports && y.name == i.exportName;
    assert y.name in store[x.id].exportHandles;
  }

  lemma {:induction false} OutcomeKept(cfg: Config, snap: Store, a: Store, b: Store, enc: Enclave)
    requires EnclaveOutcome(cfg, snap, a, enc) && OnlyImportsAdded(a, b)
    ensures EnclaveOutcome(cfg, snap, b, enc)
  {
    assert b[enc.id].(importHandles := a[enc.id].importHandles) == a[enc.id];
  }

  /** An error-free apply of a validated configuration converges. */
  lemma {:induction false} CleanApplyConverges(cfg: Config, snap: Store, ordered: seq<Enclave>)
    requires Enumerates(cfg) && GoodStore(cfg, snap) && WellFormedConfig(ordered) && ImportsResolve(ordered)
    requires Apply(cfg, snap, ordered).aborted.None? && Apply(cfg, snap, ordered).run.errors == []
    ensures Converged(cfg, Apply(cfg, snap, ordered).run.store, ordered)
    ensures forall e :: e in ordered ==> EnclaveOutcome(cfg, snap, Apply(cfg, snap, ordered).run.store, e)
  {
    hide Apply, RunEnclaves, AfterRemovals, WireEnclaves, EnclaveOutcome;
    ApplyPasses(cfg, snap, ordered);
    var r1 := AfterRemovals(cfg, snap, ordered).0;
    var r2 := RunEnclaves(cfg, snap, r1, ordered);
    var store := Apply(cfg, snap, ordered).run.store;
    forall e | e in ordered
      ensures HasDriver(cfg, e) && EnclaveOutcome(cfg, snap, r2.store, e) && EnclaveOutcome(cfg, snap, store, e)
    {
      RunEnclavesEffect(cfg, snap, r1, ordered, e);
      OutcomeKept(cfg, snap, r2.store, store, e);
    }
    forall e | e in ordered ensures Applied(cfg, store, e) && Wired(store, e) {
      OutcomeMeansApplied(cfg, snap, store, e);
      forall i | i in AllImports(e) ensures ExportHandle(r2.store, i).Some? {
        assert Resolves(ordered, i);
        ResolvedHasHandle(cfg, snap, r2.store, ordered, i);
      }
      WireEnclavesEffect(cfg, r2, ordered, e);
    }
    forall id ensures id in store <==> id in IdSet(ordered) {
      StoreAfterApply(cfg, snap, ordered, id);
    }
  }

  /**
   The fixpoint: after an error-free apply, planning the same configuration again, in any order
   and against any driver, finds nothing to do, and applying it again provisions no partition.
   */
  lemma {:induction false} CleanApplyIsFixpoint(cfg: Config, snap: Store, ordered: seq<Enclave>, cfg': Config,
                                                ordered': seq<Enclave>)
    requires Enumerates(cfg) && GoodStore(cfg, snap) && WellFormedConfig(ordered) && ImportsResolve(ordered)
    requires Apply(cfg, snap, ordered).aborted.None? && Apply(cfg, snap, ordered).run.errors == []
    requires Enumerates(cfg') && cfg'.hashEnclave == cfg.hashEnclave && cfg'.hashPartition == cfg.hashPartition
    requires WellFormedConfig(ordered') && forall e :: e in ordered' <==> e in ordered
    ensures var store := Apply(cfg, snap, ordered).run.store;
            && Plan(cfg', store, ordered') == []
            && forall enc, part :: !AttemptIn(Apply(cfg', store, ordered').run.trace, enc, part)
  {
    hide Apply;
    CleanApplyConverges(cfg, snap, ordered);
    var store := Apply(cfg, snap, ordered).run.store;
    assert IdSet(ordered) == IdSet(ordered');
    assert Converged(cfg', store, ordered') by {
      forall e | e in ordered' ensures Applied(cfg', store, e) && Wired(store, e) {
        assert Applied(cfg, store, e);
      }
    }
    PlanEmptyIffConverged(cfg', store, ordered');
    ApplyOk(cfg, snap, ordered);
    SameHashesGood(cfg, cfg', store);
    forall enc, part | AttemptIn(Apply(cfg', store, ordered').run.trace, enc, part) ensures false {
      AttemptsWereListed(cfg', store, ordered', enc, part);
    }
  }

  // ----- are the partitions then Active? -----

  /** The recorded hash is already that of the new configuration, although the record is not Active. */
  predicate Stuck(cfg: Config, snap: Store, enc: Enclave, part: Partition) {
    HashMatches(cfg, part, PartitionsOf(snap, enc.id)) && PartitionsOf(snap, enc.id)[part.id].meta.status != Active
  }

  /** After an error-free apply a configured partition is Active, except exactly when it was stuck before. */
  lemma {:induction false} ActiveUnlessStuck(cfg: Config, snap: Store, ordered: seq<Enclave>, enc: Enclave,
                                             part: Partition)
    requires Enumerates(cfg) && GoodStore(cfg, snap) && WellFormedConfig(ordered) && ImportsResolve(ordered)
    requires Apply(cfg, snap, ordered).aborted.None? && Apply(cfg, snap, ordered).run.errors == []
    requires enc in ordered && part in enc.partitions
    ensures var store := Apply(cfg, snap, ordered).run.store;
            && enc.id in store && part.id in store[enc.id].partitions && store[enc.id].meta.status == Active
            && (store[enc.id].partitions[part.id].meta.status == Active <==> !Stuck(cfg, snap, enc, part))
  {
    CleanApplyConverges(cfg, snap, ordered);
    var store := Apply(cfg, snap, ordered).run.store;
    assert EnclaveOutcome(cfg, snap, store, enc);
    assert PartitionOutcome(cfg, PartitionsOf(snap, enc.id), store[enc.id].partitions, part);
  }
}
