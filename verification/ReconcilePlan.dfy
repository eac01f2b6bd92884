/** What the change list of a reconcile run says, and in which order (crates/nclav-reconciler/src/reconcile.rs). */
module ReconcilePlan {
  import opened Prelude
  import opened Json
  import opened Domain
  import opened State
  import opened Reconcile
  import Validate

  // ----- which changes are listed -----

  ghost predicate PartitionStored(snap: Store, id: EnclaveId, pid: PartitionId) {
    id in snap && pid in snap[id].partitions
  }

  /** What each entry of the change list means, told from the stored records and the configuration. */
  ghost predicate Due(cfg: Config, snap: Store, ordered: seq<Enclave>, c: Change) {
    match c
    case EnclaveDeleted(id) => id in snap && forall e :: e in ordered ==> e.id != id
    case EnclaveCreated(id) => id !in snap && exists e :: e in ordered && e.id == id
    case EnclaveUpdated(id) =>
      id in snap && exists e :: e in ordered && e.id == id && snap[id].meta.desiredHash != Some(cfg.hashEnclave(e))
    case PartitionCreated(id, pid) =>
      !PartitionStored(snap, id, pid) && exists e, p :: e in ordered && e.id == id && p in e.partitions && p.id == pid
    case PartitionUpdated(id, pid) =>
      && PartitionStored(snap, id, pid)
      && exists e, p :: e in ordered && e.id == id && p in e.partitions && p.id == pid
                        && snap[id].partitions[pid].meta.desiredHash != Some(cfg.hashPartition(p))
    case ExportToWire(id, name) =>
      && !(id in snap && name in snap[id].exportHandles)
      && exists e, x :: e in ordered && e.id == id && x in e.exports && x.name == name
    case ImportToWire(id, alias) =>
      && !(id in snap && alias in snap[id].importHandles)
      && exists e, i :: e in ordered && e.id == id && Validate.HasImport(e, i) && i.alias == alias
  }

  lemma {:induction false} PartitionDiffsMembers(cfg: Config, snap: Store, enc: Enclave, parts: seq<Partition>,
                                                 c: Change)
    ensures c in PartitionDiffs(cfg, snap, enc, parts)
            <==> exists p :: p in parts && c in PartitionDiff(cfg, snap, enc, p)
    decreases |parts|
  {
    hide PartitionDiff;
    if parts != [] {
      PartitionDiffsMembers(cfg, snap, enc, parts[1..], c);
      assert parts == [parts[0]] + parts[1..];
    }
  }

  lemma {:induction false} ExportDiffsMembers(snap: Store, enc: Enclave, exports: seq<Export>, c: Change)
    ensures c in ExportDiffs(snap, enc, exports) <==> exists x :: x in exports && c in ExportDiff(snap, enc, x)
    decreases |exports|
  {
    hide ExportDiff;
    if exports != [] {
      ExportDiffsMembers(snap, enc, exports[1..], c);
      assert exports == [exports[0]] + exports[1..];
    }
  }

  lemma {:induction false} ImportDiffsMembers(snap: Store, enc: Enclave, imports: seq<Import>, c: Change)
    ensures c in ImportDiffs(snap, enc, imports) <==> exists i :: i in imports && c in ImportDiff(snap, enc, i)
    decreases |imports|
  {
    hide ImportDiff;
    if imports != [] {
      ImportDiffsMembers(snap, enc, imports[1..], c);
      assert imports == [imports[0]] + imports[1..];
    }
  }

  lemma {:induction false} AllOwnDiffsMembers(cfg: Config, snap: Store, ordered: seq<Enclave>, c: Change)
    ensures c in AllOwnDiffs(cfg, snap, ordered) <==> exists e :: e in ordered && c in OwnDiffs(cfg, snap, e)
    decreases |ordered|
  {
    hide OwnDiffs;
    if ordered != [] {
      AllOwnDiffsMembers(cfg, snap, ordered[1..], c);
      assert ordered == [ordered[0]] + ordered[1..];
    }
  }

  lemma {:induction false} AllImportDiffsMembers(snap: Store, ordered: seq<Enclave>, c: Change)
    ensures c in AllImportDiffs(snap, ordered)
            <==> exists e :: e in ordered && c in ImportDiffs(snap, e, AllImports(e))
    decreases |ordered|
  {
    hide ImportDiffs, AllImports;
    if ordered != [] {
      AllImportDiffsMembers(snap, ordered[1..], c);
      assert ordered == [ordered[0]] + ordered[1..];
    }
  }

  lemma {:induction false} PartitionImportsMembers(parts: seq<Partition>, i: Import)
    ensures i in PartitionImports(parts) <==> exists p :: p in parts && i in p.imports
    decreases |parts|
  {
    if parts != [] {
      PartitionImportsMembers(parts[1..], i);
      assert parts == [parts[0]] + parts[1..];
    }
  }

  lemma {:induction false} AllImportsMembers(enc: Enclave, i: Import)
    ensures i in AllImports(enc) <==> Validate.HasImport(enc, i)
  {
    PartitionImportsMembers(enc.partitions, i);
  }

  lemma {:induction false} PartitionImportsConcat(a: seq<Partition>, b: seq<Partition>)
    ensures PartitionImports(a + b) == PartitionImports(a) + PartitionImports(b)
    decreases |a|
  {
    if a == [] {
      assert a + b == b;
    } else {
      assert (a + b)[1..] == a[1..] + b;
      PartitionImportsConcat(a[1..], b);
    }
  }

  /** Imports come in the order they are written: the enclave's own, then those of one partition after the other. */
  lemma {:induction false} ImportsAsWritten(enc: Enclave, front: seq<Partition>, p: Partition, behind: seq<Partition>)
    requires enc.partitions == front + [p] + behind
    ensures AllImports(enc)
            == enc.imports + (PartitionImports(front) + (p.imports + PartitionImports(behind)))
  {
    assert front + [p] + behind == front + ([p] + behind);
    PartitionImportsConcat(front, [p] + behind);
    assert ([p] + behind)[1..] == behind;
  }

  /** An enclave's own entries: itself, its partitions, its exports. */
  ghost predicate OwnEntry(cfg: Config, snap: Store, enc: Enclave, c: Change) {
    match c
    case EnclaveCreated(id) => id == enc.id && id !in snap
    case EnclaveUpdated(id) =>
      id == enc.id && id in snap && snap[id].meta.desiredHash != Some(cfg.hashEnclave(enc))
    case PartitionCreated(id, pid) =>
      id == enc.id && !PartitionStored(snap, id, pid) && exists p :: p in enc.partitions && p.id == pid
    case PartitionUpdated(id, pid) =>
      && id == enc.id && PartitionStored(snap, id, pid)
      && exists p :: p in enc.partitions && p.id == pid
                     && snap[id].partitions[pid].meta.desiredHash != Some(cfg.hashPartition(p))
    case ExportToWire(id, name) =>
      && id == enc.id && !(id in snap && name in snap[id].exportHandles)
      && exists x :: x in enc.exports && x.name == name
    case _ => false
  }

  lemma {:induction false} OwnDiffsMembers(cfg: Config, snap: Store, enc: Enclave, c: Change)
    ensures c in OwnDiffs(cfg, snap, enc) <==> OwnEntry(cfg, snap, enc, c)
  {
    hide PartitionDiffs, ExportDiffs;
    PartitionDiffsMembers(cfg, snap, enc, enc.partitions, c);
    ExportDiffsMembers(snap, enc, enc.exports, c);
  }

  lemma {:induction false} EnclaveImportsMembers(snap: Store, enc: Enclave, c: Change)
    ensures c in ImportDiffs(snap, enc, AllImports(enc)) <==>
            && c.ImportToWire? && c.importerEnclave == enc.id
            && !(enc.id in snap && c.alias in snap[enc.id].importHandles)
            && exists i :: Validate.HasImport(enc, i) && i.alias == c.alias
  {
    hide ImportDiffs, AllImports, Validate.HasImport;
    ImportDiffsMembers(snap, enc, AllImports(enc), c);
    forall i ensures i in AllImports(enc) <==> Validate.HasImport(enc, i) {
      AllImportsMembers(enc, i);
    }
  }

  lemma {:induction false} DeletionsMembers(cfg: Config, snap: Store, ordered: seq<Enclave>, c: Change)
    requires c.EnclaveDeleted? ==> Enumerates(cfg)
    ensures c in Deletions(Removed(cfg, snap, ordered)) <==>
            c.EnclaveDeleted? && c.id in snap && forall e :: e in ordered ==> e.id != c.id
  {
    if c.EnclaveDeleted? {
      var ids := Removed(cfg, snap, ordered);
      assert Lists(ids, snap.Keys - IdSet(ordered));
      if c.id in ids {
        var i :| 0 <= i < |ids| && ids[i] == c.id;
        assert Deletions(ids)[i] == c;
      }
    }
  }

  lemma {:induction false} OwnDue(cfg: Config, snap: Store, ordered: seq<Enclave>, c: Change)
    ensures (exists e :: e in ordered && c in OwnDiffs(cfg, snap, e)) <==>
            !c.EnclaveDeleted? && !c.ImportToWire? && Due(cfg, snap, ordered, c)
  {
    hide OwnDiffs, PartitionStored;
    forall e ensures c in OwnDiffs(cfg, snap, e) <==> OwnEntry(cfg, snap, e, c) {
      OwnDiffsMembers(cfg, snap, e, c);
    }
    if !c.EnclaveDeleted? && !c.ImportToWire? && Due(cfg, snap, ordered, c) {
      var e :| e in ordered && e.id == OwnerOf(c) && OwnEntry(cfg, snap, e, c);
    }
  }

  /** The enclave a change belongs to. */
  function OwnerOf(c: Change): EnclaveId {
    match c
    case EnclaveCreated(id) => id
    case EnclaveUpdated(id) => id
    case EnclaveDeleted(id) => id
    case PartitionCreated(id, _) => id
    case PartitionUpdated(id, _) => id
    case ExportToWire(id, _) => id
    case ImportToWire(id, _) => id
  }

  lemma {:induction false} ImportsDue(snap: Store, ordered: seq<Enclave>, c: Change)
    ensures (exists e :: e in ordered && c in ImportDiffs(snap, e, AllImports(e))) <==>
            && c.ImportToWire? && !(c.importerEnclave in snap && c.alias in snap[c.importerEnclave].importHandles)
            && exists e, i :: e in ordered && e.id == c.importerEnclave && Validate.HasImport(e, i)
                              && i.alias == c.alias
  {
    hide ImportDiffs, AllImports, Validate.HasImport;
    forall e ensures c in ImportDiffs(snap, e, AllImports(e)) <==>
        && c.ImportToWire? && c.importerEnclave == e.id
        && !(e.id in snap && c.alias in snap[e.id].importHandles)
        && exists i :: Validate.HasImport(e, i) && i.alias == c.alias
    {
      EnclaveImportsMembers(snap, e, c);
    }
  }

  lemma {:induction false} PlanMembers(cfg: Config, snap: Store, ordered: seq<Enclave>, c: Change)
    ensures c in Plan(cfg, snap, ordered) <==>
            || c in Deletions(Removed(cfg, snap, ordered))
            || c in AllOwnDiffs(cfg, snap, ordered)
            || c in AllImportDiffs(snap, ordered)
  {
    hide Deletions, Removed, AllOwnDiffs, AllImportDiffs;
  }

  /** The change list holds exactly the changes that are due: nothing else, and nothing is missing. */
  lemma {:induction false} ListedIffDue(cfg: Config, snap: Store, ordered: seq<Enclave>, c: Change)
    requires c.EnclaveDeleted? ==> Enumerates(cfg)
    ensures c in Plan(cfg, snap, ordered) <==> Due(cfg, snap, ordered, c)
  {
    hide Due, Plan, Deletions, Removed, AllOwnDiffs, AllImportDiffs, OwnDiffs, ImportDiffs, AllImports, PartitionStored;
    PlanMembers(cfg, snap, ordered, c);
    DeletionsMembers(cfg, snap, ordered, c);
    AllOwnDiffsMembers(cfg, snap, ordered, c);
    AllImportDiffsMembers(snap, ordered, c);
    OwnDue(cfg, snap, ordered, c);
    ImportsDue(snap, ordered, c);
    DueApart(cfg, snap, ordered, c);
  }

  /** Deletions and imports, told apart from the rest. */
  lemma {:induction false} DueApart(cfg: Config, snap: Store, ordered: seq<Enclave>, c: Change)
    ensures c.EnclaveDeleted? ==>
              (Due(cfg, snap, ordered, c) <==> c.id in snap && forall e :: e in ordered ==> e.id != c.id)
    ensures c.ImportToWire? ==>
              (Due(cfg, snap, ordered, c) <==>
                 && !(c.importerEnclave in snap && c.alias in snap[c.importerEnclave].importHandles)
                 && exists e, i :: e in ordered && e.id == c.importerEnclave && Validate.HasImport(e, i)
                                   && i.alias == c.alias)
  {
  }

  // ----- in which order -----

  /** Deletions first, then what the enclaves themselves need, then the imports. */
  function Phase(c: Change): nat {
    if c.EnclaveDeleted? then 0 else if c.ImportToWire? then 2 else 1
  }

  /** Within an enclave: itself, its partitions, its exports. */
  function Kind(c: Change): nat {
    match c
    case PartitionCreated(_, _) => 1
    case PartitionUpdated(_, _) => 1
    case ExportToWire(_, _) => 2
    case ImportToWire(_, _) => 3
    case _ => 0
  }

  /** The change is about the k-th partition, export or import of the enclave. */
  ghost predicate AboutItem(c: Change, enc: Enclave, k: nat) {
    match c
    case PartitionCreated(_, pid) => k < |enc.partitions| && enc.partitions[k].id == pid
    case PartitionUpdated(_, pid) => k < |enc.partitions| && enc.partitions[k].id == pid
    case ExportToWire(_, name) => k < |enc.exports| && enc.exports[k].name == name
    case ImportToWire(_, alias) => k < |AllImports(enc)| && AllImports(enc)[k].alias == alias
    case _ => false
  }

  /** In one enclave, `c` stands before `d`: by kind, and in one kind by position. */
  ghost predicate BeforeIn(enc: Enclave, c: Change, d: Change) {
    Kind(c) < Kind(d) || (Kind(c) == Kind(d) && exists k, l :: k < l && AboutItem(c, enc, k) && AboutItem(d, enc, l))
  }

  /** By phase; in one phase by the position of the enclave; in one enclave as above. */
  ghost predicate Before(ordered: seq<Enclave>, c: Change, d: Change) {
    || Phase(c) < Phase(d)
    || (Phase(c) == Phase(d) == 0 && c != d)
    || (Phase(c) == Phase(d) != 0 && exists a, b :: 0 <= a <= b < |ordered| && BeforeAt(ordered, a, b, c, d))
  }

  ghost predicate BeforeAt(ordered: seq<Enclave>, a: nat, b: nat, c: Change, d: Change)
    requires a <= b < |ordered|
  {
    ordered[a].id == OwnerOf(c) && ordered[b].id == OwnerOf(d) && (a == b ==> BeforeIn(ordered[a], c, d))
  }

  lemma {:induction false} PartitionAt(cfg: Config, snap: Store, enc: Enclave, parts: seq<Partition>, i: nat)
    returns (k: nat)
    requires i < |PartitionDiffs(cfg, snap, enc, parts)|
    ensures k < |parts| && PartitionDiff(cfg, snap, enc, parts[k]) == [PartitionDiffs(cfg, snap, enc, parts)[i]]
    decreases |parts|
  {
    var h := |PartitionDiff(cfg, snap, enc, parts[0])|;
    if i < h {
      k := 0;
    } else {
      k := PartitionAt(cfg, snap, enc, parts[1..], i - h);
      k := k + 1;
    }
  }

  lemma {:induction false} PartitionsRise(cfg: Config, snap: Store, enc: Enclave, parts: seq<Partition>, i: nat, j: nat)
    returns (k: nat, l: nat)
    requires i < j < |PartitionDiffs(cfg, snap, enc, parts)|
    ensures k < l < |parts|
    ensures PartitionDiff(cfg, snap, enc, parts[k]) == [PartitionDiffs(cfg, snap, enc, parts)[i]]
    ensures PartitionDiff(cfg, snap, enc, parts[l]) == [PartitionDiffs(cfg, snap, enc, parts)[j]]
    decreases |parts|
  {
    var h := |PartitionDiff(cfg, snap, enc, parts[0])|;
    if i < h {
      k := 0;
      l := PartitionAt(cfg, snap, enc, parts[1..], j - h);
    } else {
      k, l := PartitionsRise(cfg, snap, enc, parts[1..], i - h, j - h);
      k := k + 1;
    }
    l := l + 1;
  }

  lemma {:induction false} ExportAt(snap: Store, enc: Enclave, exports: seq<Export>, i: nat) returns (k: nat)
    requires i < |ExportDiffs(snap, enc, exports)|
    ensures k < |exports| && ExportDiff(snap, enc, exports[k]) == [ExportDiffs(snap, enc, exports)[i]]
    decreases |exports|
  {
    var h := |ExportDiff(snap, enc, exports[0])|;
    if i < h {
      k := 0;
    } else {
      k := ExportAt(snap, enc, exports[1..], i - h);
      k := k + 1;
    }
  }

  lemma {:induction false} ExportsRise(snap: Store, enc: Enclave, exports: seq<Export>, i: nat, j: nat)
    returns (k: nat, l: nat)
    requires i < j < |ExportDiffs(snap, enc, exports)|
    ensures k < l < |exports|
    ensures ExportDiff(snap, enc, exports[k]) == [ExportDiffs(snap, enc, exports)[i]]
    ensures ExportDiff(snap, enc, exports[l]) == [ExportDiffs(snap, enc, exports)[j]]
    decreases |exports|
  {
    var h := |ExportDiff(snap, enc, exports[0])|;
    if i < h {
      k := 0;
      l := ExportAt(snap, enc, exports[1..], j - h);
    } else {
      k, l := ExportsRise(snap, enc, exports[1..], i - h, j - h);
      k := k + 1;
    }
    l := l + 1;
  }

  lemma {:induction false} ImportAt(snap: Store, enc: Enclave, imports: seq<Import>, i: nat) returns (k: nat)
    requires i < |ImportDiffs(snap, enc, imports)|
    ensures k < |imports| && ImportDiff(snap, enc, imports[k]) == [ImportDiffs(snap, enc, imports)[i]]
    decreases |imports|
  {
    var h := |ImportDiff(snap, enc, imports[0])|;
    if i < h {
      k := 0;
    } else {
      k := ImportAt(snap, enc, imports[1..], i - h);
      k := k + 1;
    }
  }

  lemma {:induction false} ImportsRise(snap: Store, enc: Enclave, imports: seq<Import>, i: nat, j: nat)
    returns (k: nat, l: nat)
    requires i < j < |ImportDiffs(snap, enc, imports)|
    ensures k < l < |imports|
    ensures ImportDiff(snap, enc, imports[k]) == [ImportDiffs(snap, enc, imports)[i]]
    ensures ImportDiff(snap, enc, imports[l]) == [ImportDiffs(snap, enc, imports)[j]]
    decreases |imports|
  {
    var h := |ImportDiff(snap, enc, imports[0])|;
    if i < h {
      k := 0;
      l := ImportAt(snap, enc, imports[1..], j - h);
    } else {
      k, l := ImportsRise(snap, enc, imports[1..], i - h, j - h);
      k := k + 1;
    }
    l := l + 1;
  }

  lemma {:induction false} EntryOwner(cfg: Config, snap: Store, enc: Enclave, c: Change)
    requires c in OwnDiffs(cfg, snap, enc)
    ensures OwnerOf(c) == enc.id && Phase(c) == 1
  {
    OwnDiffsMembers(cfg, snap, enc, c);
  }

  lemma {:induction false} OwnInOrder(cfg: Config, snap: Store, enc: Enclave, i: nat, j: nat)
    requires i < j < |OwnDiffs(cfg, snap, enc)|
    ensures BeforeIn(enc, OwnDiffs(cfg, snap, enc)[i], OwnDiffs(cfg, snap, enc)[j])
  {
    hide PartitionDiffs, ExportDiffs;
    var a, b, c := EnclaveDiff(cfg, snap, enc), PartitionDiffs(cfg, snap, enc, enc.partitions),
                   ExportDiffs(snap, enc, enc.exports);
    var r := OwnDiffs(cfg, snap, enc);
    var m, n := |a|, |a| + |b|;
    if i < m {
      LaterKind(cfg, snap, enc, j);
    } else if j < n {
      var k, l := PartitionsRise(cfg, snap, enc, enc.partitions, i - m, j - m);
      assert AboutItem(r[i], enc, k) && AboutItem(r[j], enc, l);
    } else if i < n {
      var k := PartitionAt(cfg, snap, enc, enc.partitions, i - m);
      var l := ExportAt(snap, enc, enc.exports, j - n);
    } else {
      var k, l := ExportsRise(snap, enc, enc.exports, i - n, j - n);
      assert AboutItem(r[i], enc, k) && AboutItem(r[j], enc, l);
    }
  }

  lemma {:induction false} LaterKind(cfg: Config, snap: Store, enc: Enclave, j: nat)
    requires |EnclaveDiff(cfg, snap, enc)| <= j < |OwnDiffs(cfg, snap, enc)|
    ensures Kind(OwnDiffs(cfg, snap, enc)[j]) > 0
  {
    hide PartitionDiffs, ExportDiffs;
    var m := |EnclaveDiff(cfg, snap, enc)|;
    var n := m + |PartitionDiffs(cfg, snap, enc, enc.partitions)|;
    if j < n {
      var k := PartitionAt(cfg, snap, enc, enc.partitions, j - m);
    } else {
      var k := ExportAt(snap, enc, enc.exports, j - n);
    }
  }

  lemma {:induction false} OwnEntryAt(cfg: Config, snap: Store, ordered: seq<Enclave>, i: nat) returns (a: nat)
    requires i < |AllOwnDiffs(cfg, snap, ordered)|
    ensures a < |ordered| && ordered[a].id == OwnerOf(AllOwnDiffs(cfg, snap, ordered)[i])
    ensures Phase(AllOwnDiffs(cfg, snap, ordered)[i]) == 1
    decreases |ordered|
  {
    hide OwnDiffs;
    var head := OwnDiffs(cfg, snap, ordered[0]);
    if i < |head| {
      EntryOwner(cfg, snap, ordered[0], head[i]);
      a := 0;
    } else {
      a := OwnEntryAt(cfg, snap, ordered[1..], i - |head|);
      a := a + 1;
    }
  }

  lemma {:induction false} AllOwnInOrder(cfg: Config, snap: Store, ordered: seq<Enclave>, i: nat, j: nat)
    returns (a: nat, b: nat)
    requires i < j < |AllOwnDiffs(cfg, snap, ordered)|
    ensures a <= b < |ordered|
    ensures BeforeAt(ordered, a, b, AllOwnDiffs(cfg, snap, ordered)[i], AllOwnDiffs(cfg, snap, ordered)[j])
    decreases |ordered|
  {
    hide OwnDiffs, BeforeIn;
    var head := OwnDiffs(cfg, snap, ordered[0]);
    if j < |head| {
      EntryOwner(cfg, snap, ordered[0], head[i]);
      EntryOwner(cfg, snap, ordered[0], head[j]);
      OwnInOrder(cfg, snap, ordered[0], i, j);
      a, b := 0, 0;
    } else if i < |head| {
      EntryOwner(cfg, snap, ordered[0], head[i]);
      a := 0;
      b := OwnEntryAt(cfg, snap, ordered[1..], j - |head|);
      b := b + 1;
    } else {
      a, b := AllOwnInOrder(cfg, snap, ordered[1..], i - |head|, j - |head|);
      a, b := a + 1, b + 1;
    }
  }

  lemma {:induction false} ImportEntryAt(snap: Store, ordered: seq<Enclave>, i: nat) returns (a: nat)
    requires i < |AllImportDiffs(snap, ordered)|
    ensures a < |ordered| && ordered[a].id == OwnerOf(AllImportDiffs(snap, ordered)[i])
    ensures Phase(AllImportDiffs(snap, ordered)[i]) == 2
    decreases |ordered|
  {
    hide ImportDiffs, AllImports;
    var head := ImportDiffs(snap, ordered[0], AllImports(ordered[0]));
    if i < |head| {
      EnclaveImportsMembers(snap, ordered[0], head[i]);
      a := 0;
    } else {
      a := ImportEntryAt(snap, ordered[1..], i - |head|);
      a := a + 1;
    }
  }

  lemma {:induction false} EnclaveImportsInOrder(snap: Store, enc: Enclave, i: nat, j: nat)
    requires i < j < |ImportDiffs(snap, enc, AllImports(enc))|
    ensures var r := ImportDiffs(snap, enc, AllImports(enc));
            OwnerOf(r[i]) == enc.id == OwnerOf(r[j]) && BeforeIn(enc, r[i], r[j])
  {
    hide ImportDiffs, AllImports;
    var r := ImportDiffs(snap, enc, AllImports(enc));
    var k, l := ImportsRise(snap, enc, AllImports(enc), i, j);
    assert AboutItem(r[i], enc, k) && AboutItem(r[j], enc, l);
  }

  lemma {:induction false} AllImportsInOrder(snap: Store, ordered: seq<Enclave>, i: nat, j: nat)
    returns (a: nat, b: nat)
    requires i < j < |AllImportDiffs(snap, ordered)|
    ensures a <= b < |ordered|
    ensures BeforeAt(ordered, a, b, AllImportDiffs(snap, ordered)[i], AllImportDiffs(snap, ordered)[j])
    decreases |ordered|
  {
    hide ImportDiffs, AllImports, BeforeIn;
    var head := ImportDiffs(snap, ordered[0], AllImports(ordered[0]));
    if j < |head| {
      EnclaveImportsInOrder(snap, ordered[0], i, j);
      a, b := 0, 0;
    } else if i < |head| {
      EnclaveImportsMembers(snap, ordered[0], head[i]);
      a := 0;
      b := ImportEntryAt(snap, ordered[1..], j - |head|);
      b := b + 1;
    } else {
      a, b := AllImportsInOrder(snap, ordered[1..], i - |head|, j - |head|);
      a, b := a + 1, b + 1;
    }
  }

  /** The change list is in the order of work: every entry stands before all those behind it. */
  lemma {:induction false} PlanInOrder(cfg: Config, snap: Store, ordered: seq<Enclave>, i: nat, j: nat)
    requires Enumerates(cfg) && i < j < |Plan(cfg, snap, ordered)|
    ensures Before(ordered, Plan(cfg, snap, ordered)[i], Plan(cfg, snap, ordered)[j])
  {
    hide AllOwnDiffs, AllImportDiffs, BeforeAt;
    var ids := Removed(cfg, snap, ordered);
    assert Lists(ids, snap.Keys - IdSet(ordered));
    var m, n := |ids|, |ids| + |AllOwnDiffs(cfg, snap, ordered)|;
    if i < m {
      if n <= j {
        var b := ImportEntryAt(snap, ordered, j - n);
      } else if m <= j {
        var b := OwnEntryAt(cfg, snap, ordered, j - m);
      }
    } else if i < n {
      var a := OwnEntryAt(cfg, snap, ordered, i - m);
      if n <= j {
        var b := ImportEntryAt(snap, ordered, j - n);
      } else {
        var c, d := AllOwnInOrder(cfg, snap, ordered, i - m, j - m);
        var b := OwnEntryAt(cfg, snap, ordered, j - m);
      }
    } else {
      var a := ImportEntryAt(snap, ordered, i - n);
      var b := ImportEntryAt(snap, ordered, j - n);
      var c, d := AllImportsInOrder(snap, ordered, i - n, j - n);
    }
  }
}
