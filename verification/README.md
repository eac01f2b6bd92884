# nclav, in Dafny

nclav is a small control plane. It reads a configuration of *enclaves* and their *partitions*, checks the
graph of exports and imports between them, compares it with what it has stored, and drives cloud drivers
and Terraform step by step until the two agree, storing its progress as it goes. This project models that
engine and the parts it rests on, and proves what a reader of the code would hope for, or the exact
condition under which it is true.

`dafny verify dfyconfig.toml` checks everything.

## How the model is built

| files | what they model |
|---|---|
| `Prelude`, `Ordering`, `Domain`, `Json`, `State` | shared vocabulary; canonical JSON; the state records and the lifecycle marks |
| `HashInput` | what the desired-state hash is taken over: serialised enclaves and partitions, their maps in any order |
| `Topology`, `Validate` | the graph checks, and a topological sort written and proved here (the library the code calls is not part of the repository) |
| `Template` | the in-place `{{ … }}` rewriter, against a one-pass meaning of a template |
| `Reconcile`, `ReconcileEngine` | a reconcile run as a log of store writes and driver calls; the same run as nested loops over mutable state |
| `ReconcileProtocol`, `ReconcileTheorems` | what holds at every point of a run; the main results |
| `ReconcilePlan`, `ReconcileFixpoint` | what the change list says, and in which order; what a finished run achieves |
| `ReconcileLedger`, `ReconcileAudit` | what the answers to the calls alone say about the store, the report, the events and the calls to come |
| `ReconcileRecovery` | what a run leaves to the runs after it |
| `StoreModel`, `MemoryStore`, `RedbModel`, `RedbStore`, `StoreSimulation`, `LockProtocol`, `RunIndex`, `StoreHistory` | the two stores as classes, why no caller can tell them apart, and what their answers mean |
| `Xml`, `FormBody`, `Tfvars` | the XML scanners, the form body and the Terraform variable file, each against its reader |
| `Gcp` | provisioning a GCP enclave against an abstract cloud in which any request can fail in any of six ways |

Imperative code is modelled as methods with loops, or as classes whose methods update their fields. Each
such method is proved equal to a function of its inputs or of the old state, and the results below are
about those functions.

A reconcile run is a sequence of steps: records written or erased, events appended, driver calls made.
The driver is an arbitrary function from the steps so far and the call to an outcome, so it may fail
anywhere. A crash is a cut at any step. Clocks, fresh ids, hashes and the iteration order of hash maps are
arbitrary functions too. Runs follow one another, each with its own driver, configuration and crash.

A run of GCP provisioning meets a *schedule* that says, request by request, what goes wrong: nothing, not
sent, reply lost after it took effect, denied, wait lost after it took effect, or operation failed. A
process that dies between two requests looks like a request that is not sent.

## What is false, and exactly when

* **An error-free apply need not leave every partition Active.** The tests expect it to
  (crates/nclav-reconciler/src/reconcile.rs:640-659), and it does unless a partition is *stuck*: its
  recorded hash is already the wanted one while its status is not Active.
  `ReconcileTheorems.ActiveUnlessStuck` says that this is the only exception. A partition gets stuck when a
  change to it fails (`ReconcileRecovery.FailedChangeIsStuck`), and putting the old configuration back does
  not repair it (`ReconcileRecovery.RevertAfterFailureIsStuck`). `ReconcileRecovery.CleanApplyCanLeaveError`
  reaches such a store from an empty one in two runs.
* **Expansion does not always distribute over concatenation.** It does exactly when the text in front ends
  with nothing open (`Template.DistributesIffCleanTail`).
* **`xml_all_texts` does not collect from every element of a name**, as its comment says
  (crates/nclav-driver/src/aws.rs:393), but from the outermost ones. The two agree exactly when none
  with a text lies inside another (`Xml.EveryTextIffNotNested`, `Xml.NestedIsMissed`).
* **The run index of the persistent store goes stale** when a run changes its enclave, partition or start
  time; it stays exact exactly when the key does not change (`RunIndex.IndexStaysExactIffKeyStable`), and a
  caller sees it: the two stores list the old partition alike exactly then
  (`RunIndex.ListingsAgreeIffKeyStable`).
* **With a `/` in an id, a run is listed under a partition it does not belong to.** Prefixes of `/`-free ids
  find a run exactly under its own partition if and only if its ids are `/`-free too
  (`RunIndex.PrefixExactIffSlashFree`), and the two stores then, and only then, list a single run alike
  (`RunIndex.OneRunListedAlikeIffSlashFree`, `RunIndex.SlashListsForeignRun`).
* **A GCP handle that counts as finished gets in the way.** Calls can be resumed from any interruption
  exactly when the handle they are given is not finished (`Gcp.ResumesIffNotSkippable`), and a call without
  failures leaves the enclave complete unless it returns such a handle over a gap
  (`Gcp.ReadyUnlessSkipped`): a project waiting for deletion is then not restored
  (`Gcp.FinishedHandleHidesDeletion`).
* **A GCP handle can be stamped complete with an empty project number.** The body of a denied read of an
  existing project is used as if it were the project. Whatever else fails, the number of a call that gets
  through is kept exactly when that one request is not denied (`Gcp.NumberKeptIffRead`,
  `Gcp.HandleUnderFailures`).
* **A variable file value does not always reach Terraform as written.** Backslashes and quotes are escaped,
  but a newline, `${` or `%{` is not; a value is read back unchanged exactly without them
  (`Tfvars.TemplateReadsBackIffPlain`).

## Model

| member | source | states |
|---|---|---|
| `ReconcileTheorems.EveryPersistedStateIsGood` | crates/nclav-reconciler/src/reconcile.rs:159-523 | Wherever a run is cut off, every stored record is consistent: a partition is Active exactly when its recorded hash is the hash of its recorded configuration, an Active enclave's hash matches, and records are keyed by their own id |
| `ReconcileTheorems.AnyHistoryIsGood` | crates/nclav-reconciler/src/reconcile.rs:18-531 | The same after any number of runs, each with its own configuration, driver behaviour and crash |
| `ReconcileRecovery.ReprovisionedIffUnsettled` | crates/nclav-reconciler/src/reconcile.rs:284-320 | After any history of runs and crashes, the next run that reaches the enclave calls the driver for a recorded, unchanged partition exactly when the history left it in flight or in Error |
| `ReconcileRecovery.ActiveReprovisionedIffChanged` | crates/nclav-reconciler/src/reconcile.rs:284-320 | For an Active partition, with the hashes the code computes and short of a digest collision, exactly when its configuration differs from the recorded one |
| `ReconcileRecovery.AttemptedIffListed` | crates/nclav-reconciler/src/reconcile.rs:97-320 | A run that is not aborted and reaches the enclave calls the driver for exactly the partitions its change list names |
| `ReconcileTheorems.WriteAhead` | crates/nclav-reconciler/src/reconcile.rs:159-513 | At every step of every run: an enclave call finds its Provisioning/Updating record with the resolved cloud stored; a partition call finds its in-flight record with the new configuration stored; Terraform finds the partition handle stored, unless that one best-effort write was lost; an import of a configured enclave with a driver is wired from the stored export handle; nothing is destroyed unless the configuration no longer has its enclave and the recorded cloud has a driver, and an enclave only after every partition was destroyed and its account cleaned up; a record is erased only after that and a successful teardown, or where none is due; an event says what the driver has just answered |
| `ReconcileTheorems.ActiveIsEarned` | crates/nclav-reconciler/src/reconcile.rs:316-375 | Wherever a run is cut off, a partition stored as Active was found so, or Terraform was run for its stored configuration, impersonating the account the driver had just named wherever its environment has a key file, and the record holds what the two returned |
| `ReconcileTheorems.AuditFrame` | crates/nclav-reconciler/src/reconcile.rs:159-523 | The log of a run opens with its start; that of a run that is not aborted closes with its end, under the same id and with the length of the change list |
| `ReconcileTheorems.AbortsIffTeardownRefused` | crates/nclav-reconciler/src/reconcile.rs:208-212 | A run aborts, with the driver's message, if and only if its last step is a refused teardown of an enclave |
| `ReconcileLedger.StoreIsWhatCallsSaid` | crates/nclav-reconciler/src/reconcile.rs:159-531 | What is stored after any run is determined by the store before it and the answers to its calls, without looking at any write: configurations, clouds, handles, outputs, statuses, hashes, error messages, generations, export and import handles; and every argument of every call is what was known by then (outputs of the export's target, existing handles, expanded inputs, environment) |
| `ReconcileLedger.HandlesAreReplies` | crates/nclav-reconciler/src/reconcile.rs:407-513 | After a run that is not aborted, a stored export handle is the driver's last successful answer for that name or the one stored before; a stored import handle is the one stored before or the first successful answer for that alias |
| `ReconcileAudit.ReportIsComplete` | crates/nclav-reconciler/src/reconcile.rs:168-513 | The report has exactly one line for each failed call that is reported and each enclave without a driver, with its text; the events are exactly those the answers call for |
| `ReconcileAudit.CallsFollowConfiguration` | crates/nclav-reconciler/src/reconcile.rs:219-441 | Every enclave with a driver is asked for, in order; of those accepted, every partition with another hash is attempted, in order, and every export is called, in order, with the outputs stored for its target when the run ends |
| `ReconcileAudit.StagesInOrder` | crates/nclav-reconciler/src/reconcile.rs:168-513 | No teardown after provisioning has begun, no import before all provisioning is done |
| `ReconcileTheorems.ListedIffPlanned` | crates/nclav-reconciler/src/reconcile.rs:97-115 | The change list names a partition exactly when its stored hash differs or it is not stored |
| `ReconcilePlan.ListedIffDue` | crates/nclav-reconciler/src/reconcile.rs:57-151 | For each of the seven kinds of entry, which ones the change list holds: created if and only if not stored, updated if and only if stored with another hash, deleted if and only if stored and not configured, an export or import if and only if it has no stored handle |
| `ReconcilePlan.PlanInOrder` | crates/nclav-reconciler/src/reconcile.rs:57-151 | Deletions, then enclave by enclave itself, its partitions and its exports, then the imports, each as written, and no deletion, enclave or partition twice |
| `ReconcilePlan.ImportsAsWritten` | crates/nclav-reconciler/src/reconcile.rs:466-468 | Imports are taken in the order written: the enclave's, then partition by partition |
| `ReconcileTheorems.AttemptsWereListed` | crates/nclav-reconciler/src/reconcile.rs:284-320 | No partition is attempted that the change list does not name |
| `ReconcileTheorems.ListedIsAttempted` | crates/nclav-reconciler/src/reconcile.rs:219-320 | In a run that is not aborted every listed partition is attempted, unless its enclave has no driver or was refused |
| `ReconcileTheorems.StoreAfterApply` | crates/nclav-reconciler/src/reconcile.rs:168-253 | After such a run the stored enclaves are exactly the configured ones that were stored before or have a driver |
| `ReconcileTheorems.CleanApplyConverges` | crates/nclav-reconciler/src/reconcile.rs:219-513 | An error-free apply of a validated configuration leaves every enclave applied, every export and import wired, and nothing else stored |
| `ReconcileTheorems.CleanApplyIsFixpoint` | crates/nclav-reconciler/src/reconcile.rs:53-151 | Planning the same configuration again, in any order, then yields no change, and applying it again, against any driver, provisions no partition |
| `ReconcileTheorems.ActiveUnlessStuck` | crates/nclav-reconciler/src/reconcile.rs:284-295 | After an error-free apply a partition is Active if and only if it was not stuck before |
| `ReconcileRecovery.FailureIsRecorded` | crates/nclav-reconciler/src/reconcile.rs:385-403 | If a run that is not aborted fails on a partition, its record ends in Error, holds the new configuration and keeps the hash it had |
| `ReconcileRecovery.FailedChangeIsStuck` | crates/nclav-reconciler/src/reconcile.rs:284-403 | So a failed change leaves the partition stuck for the configuration it replaced |
| `ReconcileRecovery.RevertAfterFailureIsStuck` | crates/nclav-reconciler/src/reconcile.rs:284-403 | With that configuration put back, the next error-free run does not attempt the partition and leaves its record in Error, holding the failed change |
| `ReconcileRecovery.StuckStays` | crates/nclav-reconciler/src/reconcile.rs:287-295 | An error-free run leaves any stuck partition as it is |
| `ReconcileRecovery.FlawlessDrivers` | crates/nclav-reconciler/src/reconcile.rs:159-523 | If every enclave has a driver and no driver call fails, a run is neither aborted nor reports errors |
| `ReconcileRecovery.CleanApplyCanLeaveError` | crates/nclav-reconciler/src/reconcile.rs:284-295 | Two runs from an empty store after which an error-free apply leaves a partition in Error |
| `ReconcileProtocol.RunPartitionOk` | crates/nclav-reconciler/src/reconcile.rs:284-404 | Every step of one partition's provisioning keeps the step rules and the record rules |
| `ReconcileProtocol.RunEnclaveOk` | crates/nclav-reconciler/src/reconcile.rs:219-452 | So does every step of one enclave's pass, from the first write to the last |
| `ReconcileProtocol.WireEnclavesOk` | crates/nclav-reconciler/src/reconcile.rs:454-513 | So does the import pass |
| `ReconcileProtocol.RemoveOk` | crates/nclav-reconciler/src/reconcile.rs:168-217 | So does a removal, aborted or not |
| `ReconcileProtocol.ApplyOk` | crates/nclav-reconciler/src/reconcile.rs:159-523 | So does a whole run, from any good store |
| `ReconcileFixpoint.PlanEmptyIffConverged` | crates/nclav-reconciler/src/reconcile.rs:53-151 | The change list is empty if and only if the store has converged to the configuration |
| `ReconcileFixpoint.RunPartitionsEffect` | crates/nclav-reconciler/src/reconcile.rs:284-405 | Each partition of an enclave is attempted or was up to date, and without errors ends with the wanted hash, Active or left as it was |
| `ReconcileFixpoint.RunEnclavesEffect` | crates/nclav-reconciler/src/reconcile.rs:219-452 | What the enclave pass leaves of each enclave's record, and that its plan was carried out |
| `ReconcileFixpoint.WireEnclavesEffect` | crates/nclav-reconciler/src/reconcile.rs:454-513 | Without errors, and with every export handle stored, every import alias is wired |
| `ReconcileFixpoint.RemovalEffect` | crates/nclav-reconciler/src/reconcile.rs:168-217 | A removal pass that is not aborted leaves exactly the enclaves still configured, unchanged |
| `ReconcileEngine.InOrderArranges` | crates/nclav-reconciler/src/reconcile.rs:63-82 | The order of work is the configuration, each enclave once, exporters before importers |
| `ReconcileEngine.ContractsResolve` | crates/nclav-graph/src/validate.rs:158-181 | A validated configuration has no dangling import, which the fixpoint needs |
| `ReconcileEngine.Engine.ComputePlan` | crates/nclav-reconciler/src/reconcile.rs:57-151 | The loops of the diff compute the change list, which holds exactly the changes that are due |
| `ReconcileEngine.Engine.DiffEnclave` | crates/nclav-reconciler/src/reconcile.rs:84-128 | One enclave's own changes, in order |
| `ReconcileEngine.Engine.DiffImports` | crates/nclav-reconciler/src/reconcile.rs:131-151 | One enclave's import changes, in order |
| `ReconcileEngine.Engine.TeardownPartitions` | crates/nclav-reconciler/src/reconcile.rs:177-206 | Partition teardowns whose failures are reported and passed over |
| `ReconcileEngine.Engine.RemoveEnclave` | crates/nclav-reconciler/src/reconcile.rs:168-217 | One removal, and when it aborts the run |
| `ReconcileEngine.Engine.ProvisionOne` | crates/nclav-reconciler/src/reconcile.rs:284-366 | One partition: skipped, or announced, given an account and run |
| `ReconcileEngine.Engine.Settle` | crates/nclav-reconciler/src/reconcile.rs:322-404 | How an attempt is recorded, success and failure |
| `ReconcileEngine.Engine.ProvisionPartitions` | crates/nclav-reconciler/src/reconcile.rs:284-405 | All partitions of an enclave, failures not stopping the rest |
| `ReconcileEngine.Engine.ProvisionExports` | crates/nclav-reconciler/src/reconcile.rs:407-441 | All exports of an enclave |
| `ReconcileEngine.Engine.ProvisionOneEnclave` | crates/nclav-reconciler/src/reconcile.rs:219-452 | One enclave's pass |
| `ReconcileEngine.Engine.WireImports` | crates/nclav-reconciler/src/reconcile.rs:455-513 | One enclave's imports, wired from the stored export handles |
| `ReconcileEngine.Engine.ApplyAll` | crates/nclav-reconciler/src/reconcile.rs:159-531 | All passes of a run |
| `ReconcileEngine.Engine.Reconcile` | crates/nclav-reconciler/src/reconcile.rs:18-531 | A whole call: nothing is written on invalid graphs or dry runs, an apply writes what the specification says, and an error-free apply reaches the fixpoint |
| `Validate.Validate` | crates/nclav-graph/src/validate.rs:40-145 | Which error is returned for which faults; with no faults, a cycle error if and only if the imports of two or more enclaves form a cycle; otherwise the wiring is the list of imports and the order puts exporters first |
| `Validate.IndexEnclaves` | crates/nclav-graph/src/validate.rs:41-42 | The two indexes by id, the last enclave of an id counting |
| `Validate.CheckOutputs` | crates/nclav-graph/src/validate.rs:50-62 | One entry per missing required output |
| `Validate.CheckExports` | crates/nclav-graph/src/validate.rs:65-83 | One entry per export whose type its partition does not produce |
| `Validate.CheckEnclaveImports` | crates/nclav-graph/src/validate.rs:86-91 | Enclave-level imports: connections and errors, in order |
| `Validate.CheckPartitionImports` | crates/nclav-graph/src/validate.rs:94-101 | Partition-level imports likewise |
| `Validate.CheckAll` | crates/nclav-graph/src/validate.rs:48-102 | All checks in traversal order |
| `Validate.BuildGraph` | crates/nclav-graph/src/validate.rs:112-127 | Exporter-to-importer edges, self-imports adding none |
| `Validate.NoFaultsMeansContracts` | crates/nclav-graph/src/validate.rs:48-102 | There are no errors if and only if every output, export and import contract holds |
| `Validate.FaultsOnePerSite` | crates/nclav-graph/src/validate.rs:44-102 | The errors are one per faulty place, none merged or dropped, in order of the places |
| `Validate.AccessDeniedIff` | crates/nclav-graph/src/validate.rs:170-202 | An import is denied if and only if the first export of that name is meant for a partition or for another enclave |
| `Validate.DanglingExportIff` | crates/nclav-graph/src/validate.rs:176-181 | An export is reported missing if and only if the enclave is there and has none of that name |
| `Validate.DanglingEnclaveIff` | crates/nclav-graph/src/validate.rs:164-174 | An enclave is reported missing if and only if an import names one that is not configured |
| `Validate.MissingOutputIff` | crates/nclav-graph/src/validate.rs:50-61 | An output is reported missing if and only if the service needs it (host name and port, or queue URL) and the partition does not declare it |
| `Validate.ExportMismatchIff` | crates/nclav-graph/src/validate.rs:64-82 | A mismatch is reported if and only if an export's type is not the one its target, the first partition of that id, serves |
| `Validate.AllAdmitted` | crates/nclav-graph/src/validate.rs:183-203 | Without errors, the first export every import names is open to everybody or meant for the importer |
| `Validate.LastOfIdWins` | crates/nclav-graph/src/validate.rs:41-42 | On a repeated id both indexes hold the last enclave |
| `Validate.VisitOrder` | crates/nclav-graph/src/validate.rs:48-100 | Enclave by enclave: outputs, exports, enclave imports, partition imports |
| `Validate.SitesMembers` | crates/nclav-graph/src/validate.rs:48-102 | The places checked are exactly the outputs, exports and imports of the configuration |
| `Validate.WiringIsImports` | crates/nclav-graph/src/validate.rs:86-101 | Without errors the wiring corresponds one to one with the imports |
| `Validate.FindExportFirst` | crates/nclav-graph/src/validate.rs:173-181 | The export consulted is the first of its name |
| `Validate.CycleMeansImportCycle` | crates/nclav-graph/src/validate.rs:111-131 | The graph is cyclic if and only if the imports form a cycle |
| `Validate.EdgesMembers` | crates/nclav-graph/src/validate.rs:118-127 | The edges are exactly the connections between different enclaves |
| `Validate.OrderIsExportersFirst` | crates/nclav-graph/src/validate.rs:133-139 | A topological order lists every enclave once, exporters before each distinct importer |
| `Topology.TopoSort` | crates/nclav-graph/src/validate.rs:129-135 | Succeeds if and only if the graph is acyclic, and then returns an order that respects every edge |
| `Topology.RespectsMeansAcyclic` | crates/nclav-graph/src/validate.rs:129-135 | A graph with such an order has no closed walk |
| `Topology.StuckMeansCyclic` | crates/nclav-graph/src/validate.rs:129-135 | Nodes that all have a predecessor among themselves contain a closed walk |
| `Template.ResolveTemplate` | crates/nclav-reconciler/src/reconcile.rs:549-593 | The rewriting loop terminates, slices in range, and equals the one-pass expansion |
| `Template.RewriteNext` | crates/nclav-reconciler/src/reconcile.rs:556-591 | One turn: the finished part followed by the meaning of the rest does not change, and the rest shrinks |
| `Template.ExpandStep` | crates/nclav-reconciler/src/reconcile.rs:557-590 | Expansion substitutes the first token and goes on behind it, never rescanning what it put in |
| `Template.ContextToken` | crates/nclav-reconciler/src/reconcile.rs:562-588 | Between any two texts, `{{ name }}` with any blanks around the name becomes the context variable, or stays as written |
| `Template.ImportToken` | crates/nclav-reconciler/src/reconcile.rs:562-580 | Likewise `{{ alias.key }}` becomes the text under that key among the import's outputs, or stays as written |
| `Template.NoTokenIsVerbatim` | crates/nclav-reconciler/src/reconcile.rs:556-560 | Text in which no opening pair is followed by a closing one stays as it is |
| `Template.ParseLossless` | crates/nclav-reconciler/src/reconcile.rs:557-562 | Cutting a template into tokens and text loses nothing, so unresolved tokens stay as written |
| `Template.SplitDotMeaning` | crates/nclav-reconciler/src/reconcile.rs:562-567 | Alias and key are separated at the first dot |
| `Template.CleanTailDistributes` | crates/nclav-reconciler/src/reconcile.rs:549-593 | Behind a text that ends with nothing open, expansion distributes over concatenation |
| `Template.OpenTailBreaks` | crates/nclav-reconciler/src/reconcile.rs:549-593 | Behind any other text there is a continuation for which it does not |
| `Template.DistributesIffCleanTail` | crates/nclav-reconciler/src/reconcile.rs:549-593 | The two together, as an equivalence over all continuations and values |
| `Json.CanonDecidesEquiv` | crates/nclav-store/src/state.rs:151-165 | Two values have the same canonical form if and only if they are equal up to object key order at every depth |
| `Json.CanonIdempotent` | crates/nclav-store/src/state.rs:151-165 | Canonicalising twice is canonicalising once |
| `Json.HashSeesContentsOnly` | crates/nclav-store/src/state.rs:141-149 | The hash input of one map of strings depends on its contents and not on the order it was visited in |
| `HashInput.PartitionHashSeesContentsOnly` | crates/nclav-domain/src/types.rs:270-284 | The hash of a serialised partition does not depend on the order its inputs were visited in and, short of a collision, tells any two partitions apart |
| `HashInput.EnclaveHashSeesContentsOnly` | crates/nclav-domain/src/types.rs:297-312 | The same for a serialised enclave and the inputs of all its partitions |
| `HashInput.PartitionTells` | crates/nclav-domain/src/types.rs:270-284 | Two serialised partitions are equal up to key order if and only if the partitions are equal |
| `HashInput.EnclaveTells` | crates/nclav-domain/src/types.rs:297-312 | Two serialised enclaves likewise |
| `ReconcileRecovery.AnyOrderHashesAlike` | crates/nclav-store/src/state.rs:141-149 | Hashing configurations in whatever order their maps are visited is a function of the configuration, as the reconcile model takes it to be |
| `ReconcileRecovery.EqualHashesEqualPartitions` | crates/nclav-store/src/state.rs:141-149 | Short of a collision, recorded and wanted hash agree exactly when the configurations do |
| `State.MetaHistory` | crates/nclav-store/src/state.rs:106-135 | What a record says about any history of marks: generation, times, hash, error and status |
| `State.ResourceMeta.Activate` | crates/nclav-store/src/state.rs:108-117 | A success extends the history by one mark |
| `State.ResourceMeta.Fail` | crates/nclav-store/src/state.rs:120-124 | A failure does |
| `State.ResourceMeta.Observe` | crates/nclav-store/src/state.rs:127-134 | An observation does |
| `StoreSimulation.StepAgrees` | crates/nclav-store/src/redb_store.rs:63-253 | Every call on related stores gives equal answers (listings up to order) and related stores again; records are keyed by their own id and event keys are exactly 1..event_seq in append order |
| `StoreSimulation.RunsAgree` | crates/nclav-store/src/redb_store.rs:63-253 | The same for any sequence of calls |
| `StoreSimulation.RedbRefinesMemory` | crates/nclav-store/src/memory.rs:38-159 | From two empty stores, no sequence of calls on enclaves, partitions, events, Terraform state and locks tells them apart |
| `StoreSimulation.ListEnclavesAgree` | crates/nclav-store/src/redb_store.rs:75-85 | Both listings hold the same records, equally often |
| `StoreSimulation.ListEventsAgree` | crates/nclav-store/src/redb_store.rs:154-175 | Both return the newest wanted events in append order |
| `StoreSimulation.AppendAgrees` | crates/nclav-store/src/redb_store.rs:134-152 | Appending keeps keys and sequence number in step with the event list |
| `StoreSimulation.AscendingIsCount` | crates/nclav-store/src/redb_store.rs:134-175 | Reading the keys 1..n in ascending order is counting |
| `MemoryStore.InMemoryStore.ListEvents` | crates/nclav-store/src/memory.rs:94-117 | The filtered tail of the event list |
| `MemoryStore.InMemoryStore.UpsertPartition` | crates/nclav-store/src/memory.rs:60-74 | The nested update, or the error for an unknown enclave, changing nothing |
| `MemoryStore.InMemoryStore.LockTfState` | crates/nclav-store/src/memory.rs:137-148 | Taken, or refused with the present holder |
| `MemoryStore.InMemoryStore.UnlockTfState` | crates/nclav-store/src/memory.rs:150-159 | Freed for the holder's ID or the empty ID, and otherwise a no-op |
| `MemoryStore.InMemoryStore.ListRuns` | crates/nclav-store/src/memory.rs:169-184 | Filter, stable sort by start time, newest first, capped |
| `RedbStore.Redb.UpsertPartition` | crates/nclav-store/src/redb_store.rs:109-120 | Read, parse, update, write, with each error |
| `RedbStore.Redb.AppendEvent` | crates/nclav-store/src/redb_store.rs:134-152 | The counter and the event under it |
| `RedbStore.Redb.ListEvents` | crates/nclav-store/src/redb_store.rs:154-175 | The scan in key order, parse errors included |
| `RedbStore.Redb.LockTfState` | crates/nclav-store/src/redb_store.rs:210-233 | As in memory, over encoded lock records |
| `RedbStore.Redb.UnlockTfState` | crates/nclav-store/src/redb_store.rs:235-253 | As in memory, over encoded lock records |
| `RedbStore.Redb.UpsertRun` | crates/nclav-store/src/redb_store.rs:257-279 | The run and its index entry |
| `RedbStore.Redb.ListRuns` | crates/nclav-store/src/redb_store.rs:281-315 | The prefix scan, reversed, capped and fetched |
| `LockProtocol.HeldUntilFreed` | crates/nclav-store/src/memory.rs:130-159 | A held lock stays with its holder through every call that does not free it; a conflict names the holder and changes nothing |
| `LockProtocol.LocksExclude` | crates/nclav-store/src/memory.rs:130-159 | In any call sequence, between two successful locks of a key some call freed the first |
| `LockProtocol.UnlockTakesTheHoldersId` | crates/nclav-store/src/memory.rs:150-159 | A lock taken under an ID, and not freed since, is freed by an unlock with that ID and by no other non-empty text |
| `StoreHistory.MemoryAnswers` | crates/nclav-store/src/memory.rs:38-191 | After any calls on a fresh store, the next answer is the one read off those calls: last writes, appended events about the enclave, first lock not freed |
| `StoreHistory.RedbAnswers` | crates/nclav-store/src/redb_store.rs:63-253 | So it is in the persistent store |
| `StoreHistory.EnclavesListed` | crates/nclav-store/src/memory.rs:43-46 | The listing has each enclave that is there once, as last written |
| `StoreHistory.RunsListedNewest` | crates/nclav-store/src/memory.rs:169-184 | The listing has the newest hundred runs of the partition, each once, newest first |
| `StoreHistory.FailsIffUnreadable` | crates/nclav-store/src/redb_store.rs:63-325 | A call reports an unreadable record if and only if it has to read one, and a refused call changes nothing |
| `RunIndex.PrefixIffMatches` | crates/nclav-store/src/redb_store.rs:281-300 | For `/`-free ids on both sides, the prefix matches a key exactly when the run is that partition's |
| `RunIndex.LaterRunLaterKey` | crates/nclav-store/src/redb_store.rs:257-279 | Of two runs of a partition whose printed start times are in order, the later one has the later key |
| `RunIndex.IndexStaysExactIffKeyStable` | crates/nclav-store/src/redb_store.rs:257-279 | An upsert keeps the index exact if and only if a known run keeps its key |
| `RunIndex.ScanIsRunLog` | crates/nclav-store/src/redb_store.rs:281-315 | The scan returns the partition's runs, each once, newest first, cut at 100 |
| `RunIndex.FilterIsRunLog` | crates/nclav-store/src/memory.rs:169-184 | So does the in-memory filter and sort |
| `RunIndex.ListRunsAgree` | crates/nclav-store/src/redb_store.rs:281-315 | With distinct start times whose texts are in order, the two lists are equal |
| `RunIndex.AllCallsAgree` | crates/nclav-store/src/redb_store.rs:63-325 | Any sequence of calls, run listings included, gets equal answers |
| `RunIndex.StoresIndistinguishable` | crates/nclav-store/src/redb_store.rs:63-325 | In particular from two empty stores |
| `RunIndex.ListingsAgreeIffKeyStable` | crates/nclav-store/src/redb_store.rs:257-315 | After a known run is written again, the two stores list its old partition alike if and only if its key has not changed, for listings within the cap |
| `RunIndex.StaleEntryIsListed` | crates/nclav-store/src/redb_store.rs:281-315 | A stale entry makes the listing show a run of another partition, or the same run twice |
| `RunIndex.PrefixExactIffSlashFree` | crates/nclav-store/src/redb_store.rs:262-268 | For every run: prefixes of `/`-free ids match its key exactly under its own partition if and only if its ids are `/`-free |
| `RunIndex.ScansExactIffIdsPlain` | crates/nclav-store/src/redb_store.rs:281-300 | Scans of an exact index for `/`-free ids stay within their partition if and only if all stored ids are `/`-free |
| `RunIndex.OneRunListedAlikeIffSlashFree` | crates/nclav-store/src/redb_store.rs:281-315 | With one run stored, the two stores answer every listing for `/`-free ids alike if and only if the run's ids are `/`-free |
| `RunIndex.SlashListsForeignRun` | crates/nclav-store/src/redb_store.rs:281-315 | The run of partition `c` of enclave `a/b` is listed as a run of partition `b` of enclave `a`, by the persistent store only |
| `Xml.XmlText` | crates/nclav-driver/src/aws.rs:360-391 | Over the events of any element tree, the loop returns the first direct text of the first element of that name, or none |
| `Xml.XmlAllTexts` | crates/nclav-driver/src/aws.rs:394-423 | Over the events of any element tree, the loop returns the direct texts of the outermost elements of that name, in order |
| `Xml.XmlTextMeaning` | crates/nclav-driver/src/aws.rs:360-391 | The scanner with its depth counter equals the tree function |
| `Xml.XmlAllTextsMeaning` | crates/nclav-driver/src/aws.rs:394-423 | So does the collector |
| `Xml.EveryTextIffNotNested` | crates/nclav-driver/src/aws.rs:393-423 | It collects from every element of that name if and only if none with a text is nested in another |
| `Xml.NestedIsMissed` | crates/nclav-driver/src/aws.rs:393-423 | A document whose nested element is missed |
| `FormBody.Encode` | crates/nclav-driver/src/aws.rs:1870-1883 | The encoder's output consists of unreserved bytes, `+` and upper-case escapes of the other bytes, and decodes to its input |
| `FormBody.EncodedIffRoundTrip` | crates/nclav-driver/src/aws.rs:1870-1883 | Those texts are exactly the ones that encoding gives back after decoding |
| `FormBody.DecodeEncodes` | crates/nclav-driver/src/aws.rs:1870-1883 | Decoding undoes encoding, for any bytes |
| `FormBody.BodyRoundTrip` | crates/nclav-driver/src/aws.rs:567-573 | The form body parses back to its parameter list if and only if the keys are plain |
| `FormBody.UnreservedIsPlain` | crates/nclav-driver/src/aws.rs:567-573 | Keys of unreserved characters are plain |
| `Tfvars.TwoPassesAreOne` | crates/nclav-driver/src/terraform.rs:558-562 | Escaping backslashes and then quotes is escaping each character once |
| `Tfvars.WriteTfvars` | crates/nclav-driver/src/terraform.rs:569-592 | The file written gives back enclave, partition and inputs, for keys without spaces |
| `Tfvars.ReadBack` | crates/nclav-driver/src/terraform.rs:558-592 | Reading the file text gives the enclave, the partition and exactly the inputs, in the order of their keys; each quoted scan ends at the closing quote |
| `Tfvars.FileTextInjective` | crates/nclav-driver/src/terraform.rs:558-592 | Different settings are written as different files |
| `Tfvars.TemplateReadsBackIffPlain` | crates/nclav-driver/src/terraform.rs:558-562 | As a Terraform quoted template, a written value is read back unchanged if and only if it has no newline and no interpolation marker |
| `Gcp.Driver.ProvisionEnclave` | crates/nclav-driver/src/gcp.rs:693-1019 | The call equals its specification under any failures; a new handle vouches for a complete enclave; whatever happens, resources were built in order and the end state to be reached is the same |
| `Gcp.Driver.CreateOrAdoptProject` | crates/nclav-driver/src/gcp.rs:734-797 | Create, or read the existing project and restore it |
| `Gcp.Driver.PrepareProject` | crates/nclav-driver/src/gcp.rs:734-860 | Project, labels, billing and APIs, with labels best effort |
| `Gcp.Driver.CreateSubnets` | crates/nclav-driver/src/gcp.rs:927-967 | One request per subnet, the first failure ending the call |
| `Gcp.Driver.PrepareNetwork` | crates/nclav-driver/src/gcp.rs:888-1003 | Network, subnets and zone, as configured |
| `Gcp.StampedHandle` | crates/nclav-driver/src/gcp.rs:1004-1016 | Under any failures, a handle that is stamped names the enclave's own project, region, network, zone and account |
| `Gcp.SecondCallIsFree` | crates/nclav-driver/src/gcp.rs:710-732 | Whatever a call that gets through has handed back, a second, undisturbed call hands it back after one request and changes nothing |
| `Gcp.QuietLeaves` | crates/nclav-driver/src/gcp.rs:734-1003 | What an undisturbed call leaves of project, labels, billing, APIs, network and zone: what was there, or what the configuration says |
| `Gcp.QuietEntries` | crates/nclav-driver/src/gcp.rs:862-967 | The same of accounts and subnets, entry by entry |
| `Gcp.LabelsAreBestEffort` | crates/nclav-driver/src/gcp.rs:798-830 | If only the label request fails, the call gets through if and only if that request was answered, and nothing but the labels differs |
| `Gcp.ProvisionMeaning` | crates/nclav-driver/src/gcp.rs:710-1019 | Under any failures: a handle built by the sequence is returned only when project, billing, APIs, account, network, subnets and zone all exist, and the cloud is then the settled one, labels aside |
| `Gcp.BuiltInOrder` | crates/nclav-driver/src/gcp.rs:734-1003 | Wherever a call is cut off, each kind of resource was added only with everything before it in place |
| `Gcp.QuietMeaning` | crates/nclav-driver/src/gcp.rs:693-1019 | A call without failures always succeeds: it returns a finished handle whose project can be read, or settles the cloud from whatever state it is in |
| `Gcp.Resumable` | crates/nclav-driver/src/gcp.rs:702-709 | After any number of calls that failed anywhere, one more leaves the cloud and the handle of one undisturbed call, the e-mail address differing exactly when the account was made by a call that failed and the cloud reports an unconventional address |
| `Gcp.ResumableThroughFailures` | crates/nclav-driver/src/gcp.rs:702-709 | If the last call meets failures and still gets through, only the labels can be missing; its handle is that of one undisturbed call, and it says exactly when the number and the e-mail address are too |
| `Gcp.ResumesIffNotSkippable` | crates/nclav-driver/src/gcp.rs:710-732 | Any interruption can be made good if and only if the handle given does not count as finished |
| `Gcp.ReadyUnlessSkipped` | crates/nclav-driver/src/gcp.rs:710-732 | A call without failures leaves the enclave complete if and only if it does not hand back a finished handle over an incomplete one |
| `Gcp.FinishedHandleHidesDeletion` | crates/nclav-driver/src/gcp.rs:770-797 | With a finished handle a project waiting for deletion is not restored; without one it is |
| `Gcp.HandleUnderFailures` | crates/nclav-driver/src/gcp.rs:710-1018 | Under any failures, a call that gets through hands back the old handle or the undisturbed one, whose number is empty exactly when an existing project's read is denied |
| `Gcp.NumberKeptIffRead` | crates/nclav-driver/src/gcp.rs:759-795 | With any handle and any stored project, a call that stamps a handle keeps the project's number if and only if the request that reads it is not denied |

## Left out

- HTTP, tokens, request signing, polling intervals and sleeps: a request is one step with one outcome.
- The Azure driver, the rest of the AWS driver, partition service accounts and IAM of the GCP driver, teardown of GCP projects: request building.
- Derivation of GCP project ids and display names (crates/nclav-driver/src/gcp.rs:213-235): the project id is a parameter.
- The PostgreSQL store: SQL in strings, and it differs from the other two in details such as keeping a lock when state is deleted.
- HTTP API, authentication, command line, YAML loading: the model starts from a sequence of enclaves.
- Terraform itself: one driver call with an arbitrary outcome, for the configuration, inputs and environment it is given. What `auth_env` and `context_vars` put together is an arbitrary function of enclave and handle; of Terraform's handle only the merged `partition_sa` is modelled.
- SHA-256, UUIDs and clocks: arbitrary functions. Where a result needs a digest without collisions, it says so.
- Optimistic concurrency: the design document says that a write with a stale generation fails (docs/prd/README.md:437-440). The code never compares generations; the model follows the code, in which `generation` only counts outcomes.
- A configuration that cannot be serialised (a directory that is not UTF-8), which the code hashes as null: directories are texts here.
- Json.SetField: leaves an array or a scalar other than null as it is, where the source would panic; the only handle it is applied to is Terraform's, which is built as an object (crates/nclav-driver/src/terraform.rs:60-64 and 197-202).
- RunIndex.ListRunsAgree: takes the printed start times of the listed partition to be in order, which RFC 3339 text is for years of four digits.
- Runs at the same time: the code has no concurrency control; runs follow one another.
- Failing store writes inside a run: a write whose error is passed up ends the run like a crash before it, which is covered; the one write whose error is dropped (crates/nclav-reconciler/src/reconcile.rs:333) may be lost.
- Integer widths: generation, event numbers and depths are unbounded.
- Serde encodings: any lossless encoding, one for each kind of record. JSON numbers are kept as text.
- The order petgraph picks among several topological orders: nothing here depends on it.
- Bytes of text: strings are sequences of characters; cut positions in templates fall next to ASCII braces.
- ReconcileEngine.Engine.Reconcile: takes distinct enclave ids, distinct partition ids per enclave and a good store as given, because `validate` does not check ids and a store only ever filled by runs is good.
- State.ResourceMeta.Activate: a state record embeds its metadata as a value, which the runs copy with the record; the class shows the marks in place.
- Gcp.Resumable: the number given to a new project and the e-mail address reported for a new account are parameters; the cloud refuses requests inside a project that is not active, and denied requests have no effect.
- Tfvars.TemplateReadsBackIffPlain: reads as the native syntax of HCL describes quoted templates; unicode escapes do not occur in what is written.
- Things the code does not do and the model therefore does not promise: partitions dropped from an enclave that stays are never removed; an enclave is provisioned again even when its hash is unchanged; inputs are resolved before imports are wired on a first run; the first import of an alias in an enclave wins; storing Terraform state ignores locks.
