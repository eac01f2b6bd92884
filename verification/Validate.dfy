/** Validation of the import/export graph (crates/nclav-graph/src/validate.rs). */
module Validate {
  import opened Prelude
  import opened Domain
  import opened Topology

  datatype Wiring = Wiring(
    importer: EnclaveId, importerPartition: Option<PartitionId>, exporter: EnclaveId, exportName: string)

  datatype ResolvedGraph = ResolvedGraph(topoOrder: seq<EnclaveId>, wiring: seq<Wiring>)

  datatype GraphError =
    | DanglingImportEnclave(importer: EnclaveId, from: EnclaveId)
    | DanglingImportExport(importer: EnclaveId, from: EnclaveId, exportName: string)
    | AccessDenied(importer: EnclaveId, from: EnclaveId, exportName: string)
    | ProducesExportMismatch(partition: PartitionId, produces: ProducesType, exportName: string, exportType: ExportType)
    | MissingRequiredOutput(partition: PartitionId, produces: ProducesType, key: string)
    | CycleDetected
    | Multiple(errors: seq<GraphError>)

  // ----- lookups -----

  ghost predicate Known(enclaves: seq<Enclave>, id: EnclaveId) {
    exists e :: e in enclaves && e.id == id
  }

  lemma {:induction false} KnownSnoc(enclaves: seq<Enclave>)
    requires enclaves != []
    ensures var n := |enclaves| - 1;
            && (forall e :: e in enclaves <==> e in enclaves[..n] || e == enclaves[n])
            && (forall id :: Known(enclaves, id) <==> Known(enclaves[..n], id) || id == enclaves[n].id)
  {
    var n := |enclaves| - 1;
    assert enclaves == enclaves[..n] + [enclaves[n]];
    assert enclaves[n] in enclaves;
    forall id ensures Known(enclaves, id) <==> Known(enclaves[..n], id) || id == enclaves[n].id {
      if Known(enclaves[..n], id) {
        var e :| e in enclaves[..n] && e.id == id;
        assert e in enclaves;
      }
      if Known(enclaves, id) && id != enclaves[n].id {
        var e :| e in enclaves && e.id == id;
        assert e in enclaves[..n];
      }
    }
  }

  /** The id index: on a repeated id the last enclave wins. */
  function ById(enclaves: seq<Enclave>): (m: map<EnclaveId, Enclave>)
    ensures forall id :: id in m <==> Known(enclaves, id)
    ensures forall id :: id in m ==> m[id] in enclaves && m[id].id == id
  {
    if enclaves == [] then map[]
    else
      var n := |enclaves| - 1;
      var m := ById(enclaves[..n]);
      KnownSnoc(enclaves);
      m[enclaves[n].id := enclaves[n]]
  }

  function NodeIndex(enclaves: seq<Enclave>): (m: map<EnclaveId, nat>)
    ensures forall id :: id in m <==> Known(enclaves, id)
    ensures forall id :: id in m ==> m[id] < |enclaves| && enclaves[m[id]].id == id
  {
    if enclaves == [] then map[]
    else
      var n := |enclaves| - 1;
      var m := NodeIndex(enclaves[..n]);
      KnownSnoc(enclaves);
      m[enclaves[n].id := n]
  }

  lemma {:induction false} IndexStep(enclaves: seq<Enclave>)
    requires enclaves != []
    ensures var n := |enclaves| - 1;
            && ById(enclaves) == ById(enclaves[..n])[enclaves[n].id := enclaves[n]]
            && NodeIndex(enclaves) == NodeIndex(enclaves[..n])[enclaves[n].id := n]
  {
    hide Known;
  }

  /** The two entries of an id point at the last enclave of that id. */
  ghost predicate PointsAtLast(enclaves: seq<Enclave>, id: EnclaveId, byId: map<EnclaveId, Enclave>,
                               node: map<EnclaveId, nat>) {
    && id in byId && id in node && node[id] < |enclaves| && byId[id] == enclaves[node[id]] && byId[id].id == id
    && forall i :: node[id] < i < |enclaves| ==> enclaves[i].id != id
  }

  lemma {:induction false} PointsStep(enclaves: seq<Enclave>, id: EnclaveId, byId: map<EnclaveId, Enclave>,
                                      node: map<EnclaveId, nat>)
    requires enclaves != [] && PointsAtLast(enclaves[..|enclaves| - 1], id, byId, node)
    requires enclaves[|enclaves| - 1].id != id
    ensures var n := |enclaves| - 1;
            PointsAtLast(enclaves, id, byId[enclaves[n].id := enclaves[n]], node[enclaves[n].id := n])
  {
    var n := |enclaves| - 1;
    assert forall i :: 0 <= i < n ==> enclaves[..n][i] == enclaves[i];
  }

  /** Both indexes hold the last enclave of an id. */
  lemma {:induction false} LastOfIdWins(enclaves: seq<Enclave>, id: EnclaveId)
    requires id in NodeIndex(enclaves)
    ensures PointsAtLast(enclaves, id, ById(enclaves), NodeIndex(enclaves))
  {
    var n := |enclaves| - 1;
    IndexStep(enclaves);
    if enclaves[n].id != id {
      hide *;
      LastOfIdWins(enclaves[..n], id);
      PointsStep(enclaves, id, ById(enclaves[..n]), NodeIndex(enclaves[..n]));
    }
  }

  ghost predicate Exports(exports: seq<Export>, name: string) {
    exists x :: x in exports && x.name == name
  }

  /** The first export of that name. */
  function FindExport(exports: seq<Export>, name: string): (r: Option<Export>)
    ensures r.Some? <==> Exports(exports, name)
    ensures r.Some? ==> r.value in exports && r.value.name == name
  {
    if exports == [] then None
    else if exports[0].name == name then
      assert exports[0] in exports;
      Some(exports[0])
    else
      assert exports == [exports[0]] + exports[1..];
      assert Exports(exports, name) <==> Exports(exports[1..], name) by {
        if x :| x in exports && x.name == name {
          assert x in exports[1..];
        }
      }
      FindExport(exports[1..], name)
  }

  lemma {:induction false} FindExportFirst(exports: seq<Export>, name: string, i: nat)
    requires i < |exports| && exports[i].name == name
    requires forall j :: 0 <= j < i ==> exports[j].name != name
    ensures FindExport(exports, name) == Some(exports[i])
  {
    if i > 0 {
      assert exports[0].name != name;
      FindExportFirst(exports[1..], name, i - 1);
    }
  }

  function FindPartition(parts: seq<Partition>, id: PartitionId): Option<Partition> {
    if parts == [] then None
    else if parts[0].id == id then Some(parts[0])
    else FindPartition(parts[1..], id)
  }

  predicate Permits(to: ExportTarget, importer: EnclaveId) {
    match to
    case Public => true
    case AnyEnclave => true
    case Vpn => true
    case OnlyEnclave(allowed) => allowed == importer
    case OnlyPartition(_) => false
  }

  function CheckImportPartition(importer: Enclave, pid: PartitionId, imp: Import, byId: map<EnclaveId, Enclave>)
    : Result<Wiring, GraphError>
  {
    if imp.from !in byId then Err(DanglingImportEnclave(importer.id, imp.from))
    else
      var exp := FindExport(byId[imp.from].exports, imp.exportName);
      if exp.None? then Err(DanglingImportExport(importer.id, imp.from, imp.exportName))
      else if !Permits(exp.value.to, importer.id) then Err(AccessDenied(importer.id, imp.from, imp.exportName))
      else Ok(Wiring(importer.id, if pid == "" then None else Some(pid), imp.from, imp.exportName))
  }

  function CheckImport(importer: Enclave, imp: Import, byId: map<EnclaveId, Enclave>): Result<Wiring, GraphError> {
    match CheckImportPartition(importer, "", imp, byId)
    case Ok(w) => Ok(w.(importerPartition := None))
    case Err(e) => Err(e)
  }

  // ----- the places that are checked, in the order they are visited -----

  datatype Site =
    | OutputSite(part: Partition, key: string)
    | ExportSite(enc: Enclave, exp: Export)
    | EnclaveImportSite(enc: Enclave, imp: Import)
    | PartitionImportSite(enc: Enclave, part: Partition, imp: Import)

  function RequiredBy(part: Partition): seq<string> {
    if part.produces.Some? then RequiredOutputs(part.produces.value) else []
  }

  /** The error reported for a site, if any. */
  function Fault(site: Site, byId: map<EnclaveId, Enclave>): Option<GraphError> {
    match site
    case OutputSite(part, key) =>
      if part.produces.Some? && key !in part.declaredOutputs
      then Some(MissingRequiredOutput(part.id, part.produces.value, key)) else None
    case ExportSite(enc, exp) =>
      var target := FindPartition(enc.partitions, exp.targetPartition);
      if target.Some? && target.value.produces.Some?
          && ProducedExportType(target.value.produces.value) != exp.exportType
      then Some(ProducesExportMismatch(target.value.id, target.value.produces.value, exp.name, exp.exportType))
          else None
    case EnclaveImportSite(enc, imp) =>
      var r := CheckImport(enc, imp, byId);
      if r.Err? then Some(r.error) else None
    case PartitionImportSite(enc, part, imp) =>
      var r := CheckImportPartition(enc, part.id, imp, byId);
      if r.Err? then Some(r.error) else None
  }

  /** The connection made at a site, if any. */
  function Connection(site: Site, byId: map<EnclaveId, Enclave>): Option<Wiring> {
    match site
    case EnclaveImportSite(enc, imp) =>
      var r := CheckImport(enc, imp, byId);
      if r.Ok? then Some(r.value) else None
    case PartitionImportSite(enc, part, imp) =>
      var r := CheckImportPartition(enc, part.id, imp, byId);
      if r.Ok? then Some(r.value) else None
    case _ => None
  }

  function FaultOf(s: Site, byId: map<EnclaveId, Enclave>): seq<GraphError> {
    var f := Fault(s, byId);
    if f.Some? then [f.value] else []
  }

  function ConnectionOf(s: Site, byId: map<EnclaveId, Enclave>): seq<Wiring> {
    var c := Connection(s, byId);
    if c.Some? then [c.value] else []
  }

  function Faults(sites: seq<Site>, byId: map<EnclaveId, Enclave>): seq<GraphError> {
    if sites == [] then []
    else Faults(sites[..|sites| - 1], byId) + FaultOf(sites[|sites| - 1], byId)
  }

  function Connections(sites: seq<Site>, byId: map<EnclaveId, Enclave>): seq<Wiring> {
    if sites == [] then []
    else Connections(sites[..|sites| - 1], byId) + ConnectionOf(sites[|sites| - 1], byId)
  }

  lemma {:induction false} FaultsEmpty(sites: seq<Site>, byId: map<EnclaveId, Enclave>)
    ensures Faults(sites, byId) == [] <==> forall s :: s in sites ==> Fault(s, byId).None?
  {
    if sites != [] {
      var n := |sites| - 1;
      assert sites == sites[..n] + [sites[n]];
      FaultsEmpty(sites[..n], byId);
    }
  }

  ghost predicate ConnectedBy(w: Wiring, sites: seq<Site>, byId: map<EnclaveId, Enclave>) {
    exists s :: s in sites && Connection(s, byId) == Some(w)
  }

  lemma {:induction false} ConnectionsMembers(sites: seq<Site>, byId: map<EnclaveId, Enclave>, w: Wiring)
    ensures w in Connections(sites, byId) <==> ConnectedBy(w, sites, byId)
  {
    if sites != [] {
      var n := |sites| - 1;
      assert sites == sites[..n] + [sites[n]];
      ConnectionsMembers(sites[..n], byId, w);
      if ConnectedBy(w, sites, byId) {
        var s :| s in sites && Connection(s, byId) == Some(w);
        assert s in sites[..n] || s == sites[n];
      }
      if ConnectedBy(w, sites[..n], byId) {
        var s :| s in sites[..n] && Connection(s, byId) == Some(w);
        assert s in sites;
      }
    }
  }

  function PartitionOutputSites(part: Partition): (r: seq<Site>)
    ensures |r| == |RequiredBy(part)|
    ensures forall k :: 0 <= k < |r| ==> r[k] == OutputSite(part, RequiredBy(part)[k])
  {
    seq(|RequiredBy(part)|, k requires 0 <= k < |RequiredBy(part)| => OutputSite(part, RequiredBy(part)[k]))
  }

  function OutputSites(parts: seq<Partition>): seq<Site> {
    if parts == [] then [] else OutputSites(parts[..|parts| - 1]) + PartitionOutputSites(parts[|parts| - 1])
  }

  function ExportSites(enc: Enclave): (r: seq<Site>)
    ensures |r| == |enc.exports| && forall k :: 0 <= k < |r| ==> r[k] == ExportSite(enc, enc.exports[k])
  {
    seq(|enc.exports|, k requires 0 <= k < |enc.exports| => ExportSite(enc, enc.exports[k]))
  }

  function EnclaveImportSites(enc: Enclave): (r: seq<Site>)
    ensures |r| == |enc.imports| && forall k :: 0 <= k < |r| ==> r[k] == EnclaveImportSite(enc, enc.imports[k])
  {
    seq(|enc.imports|, k requires 0 <= k < |enc.imports| => EnclaveImportSite(enc, enc.imports[k]))
  }

  function OwnImportSites(enc: Enclave, part: Partition): (r: seq<Site>)
    ensures |r| == |part.imports|
    ensures forall k :: 0 <= k < |r| ==> r[k] == PartitionImportSite(enc, part, part.imports[k])
  {
    seq(|part.imports|, k requires 0 <= k < |part.imports| => PartitionImportSite(enc, part, part.imports[k]))
  }

  function PartitionImportSites(enc: Enclave, parts: seq<Partition>): seq<Site> {
    if parts == [] then []
    else PartitionImportSites(enc, parts[..|parts| - 1]) + OwnImportSites(enc, parts[|parts| - 1])
  }

  function EnclaveSites(enc: Enclave): seq<Site> {
    OutputSites(enc.partitions) + ExportSites(enc) + EnclaveImportSites(enc) + PartitionImportSites(enc, enc.partitions)
  }

  function Sites(enclaves: seq<Enclave>): seq<Site> {
    if enclaves == [] then [] else Sites(enclaves[..|enclaves| - 1]) + EnclaveSites(enclaves[|enclaves| - 1])
  }

  // ----- the checks, said without traversal -----

  ghost predicate OutputContract(part: Partition) {
    forall k :: k in RequiredBy(part) ==> k in part.declaredOutputs
  }

  ghost predicate ExportContract(enc: Enclave, exp: Export) {
    var target := FindPartition(enc.partitions, exp.targetPartition);
    target.Some? && target.value.produces.Some? ==> ProducedExportType(target.value.produces.value) == exp.exportType
  }

  /** The source enclave exists, has an export of that name, and its first one admits the importer. */
  ghost predicate ImportContract(importer: EnclaveId, imp: Import, byId: map<EnclaveId, Enclave>) {
    && imp.from in byId
    && Exports(byId[imp.from].exports, imp.exportName)
    && Permits(FindExport(byId[imp.from].exports, imp.exportName).value.to, importer)
  }

  ghost predicate HasImport(enc: Enclave, imp: Import) {
    imp in enc.imports || exists p :: p in enc.partitions && imp in p.imports
  }

  ghost predicate EnclaveContracts(enc: Enclave, byId: map<EnclaveId, Enclave>) {
    && (forall p :: p in enc.partitions ==> OutputContract(p))
    && (forall x :: x in enc.exports ==> ExportContract(enc, x))
    && (forall imp :: HasImport(enc, imp) ==> ImportContract(enc.id, imp, byId))
  }

  ghost predicate IsSite(s: Site, enc: Enclave) {
    match s
    case OutputSite(p, key) => p in enc.partitions && key in RequiredBy(p)
    case ExportSite(e, x) => e == enc && x in enc.exports
    case EnclaveImportSite(e, imp) => e == enc && imp in enc.imports
    case PartitionImportSite(e, p, imp) => e == enc && p in enc.partitions && imp in p.imports
  }

  lemma {:induction false} OutputSitesMembers(parts: seq<Partition>, s: Site)
    ensures s in OutputSites(parts) <==> s.OutputSite? && s.part in parts && s.key in RequiredBy(s.part)
  {
    if parts != [] {
      var n := |parts| - 1;
      assert parts == parts[..n] + [parts[n]];
      OutputSitesMembers(parts[..n], s);
      var own := PartitionOutputSites(parts[n]);
      if s.OutputSite? && s.part == parts[n] && s.key in RequiredBy(s.part) {
        var k :| 0 <= k < |RequiredBy(s.part)| && RequiredBy(s.part)[k] == s.key;
        assert own[k] == s;
      }
    }
  }

  lemma {:induction false} PartitionImportSitesMembers(enc: Enclave, parts: seq<Partition>, s: Site)
    ensures s in PartitionImportSites(enc, parts) <==>
            s.PartitionImportSite? && s.enc == enc && s.part in parts && s.imp in s.part.imports
  {
    if parts != [] {
      var n := |parts| - 1;
      assert parts == parts[..n] + [parts[n]];
      PartitionImportSitesMembers(enc, parts[..n], s);
      var own := OwnImportSites(enc, parts[n]);
      if s.PartitionImportSite? && s.enc == enc && s.part == parts[n] && s.imp in s.part.imports {
        var k :| 0 <= k < |s.part.imports| && s.part.imports[k] == s.imp;
        assert own[k] == s;
      }
    }
  }

  lemma {:induction false} EnclaveSitesMembers(enc: Enclave, s: Site)
    ensures s in EnclaveSites(enc) <==> IsSite(s, enc)
  {
    OutputSitesMembers(enc.partitions, s);
    PartitionImportSitesMembers(enc, enc.partitions, s);
    if s.ExportSite? && s.enc == enc && s.exp in enc.exports {
      var k :| 0 <= k < |enc.exports| && enc.exports[k] == s.exp;
      assert ExportSites(enc)[k] == s;
    }
    if s.EnclaveImportSite? && s.enc == enc && s.imp in enc.imports {
      var k :| 0 <= k < |enc.imports| && enc.imports[k] == s.imp;
      assert EnclaveImportSites(enc)[k] == s;
    }
  }

  /** Every place the rules speak about is visited, and no other. */
  lemma {:induction false} SitesMembers(enclaves: seq<Enclave>, s: Site)
    ensures s in Sites(enclaves) <==> exists e :: e in enclaves && IsSite(s, e)
  {
    if enclaves != [] {
      var n := |enclaves| - 1;
      assert enclaves == enclaves[..n] + [enclaves[n]];
      SitesMembers(enclaves[..n], s);
      EnclaveSitesMembers(enclaves[n], s);
    }
  }

  /** Outputs come before exports, exports before the enclave's imports, those before its partitions' imports. */
  function Turn(s: Site): nat {
    match s
    case OutputSite(_, _) => 0
    case ExportSite(_, _) => 1
    case EnclaveImportSite(_, _) => 2
    case PartitionImportSite(_, _, _) => 3
  }

  lemma {:induction false} OutputSitesConcat(a: seq<Partition>, b: seq<Partition>)
    ensures OutputSites(a + b) == OutputSites(a) + OutputSites(b)
  {
    hide PartitionOutputSites, RequiredBy;
    if b == [] {
      assert a + b == a;
    } else {
      var n := |b| - 1;
      assert (a + b)[..|a + b| - 1] == a + b[..n];
      OutputSitesConcat(a, b[..n]);
      Assoc(OutputSites(a), OutputSites(b[..n]), PartitionOutputSites(b[n]));
    }
  }

  lemma {:induction false} PartitionImportSitesConcat(enc: Enclave, a: seq<Partition>, b: seq<Partition>)
    ensures PartitionImportSites(enc, a + b) == PartitionImportSites(enc, a) + PartitionImportSites(enc, b)
  {
    hide OwnImportSites;
    if b == [] {
      assert a + b == a;
    } else {
      var n := |b| - 1;
      assert (a + b)[..|a + b| - 1] == a + b[..n];
      PartitionImportSitesConcat(enc, a, b[..n]);
      Assoc(PartitionImportSites(enc, a), PartitionImportSites(enc, b[..n]), OwnImportSites(enc, b[n]));
    }
  }

  lemma {:induction false} SitesConcat(a: seq<Enclave>, b: seq<Enclave>)
    ensures Sites(a + b) == Sites(a) + Sites(b)
  {
    hide EnclaveSites;
    if b == [] {
      assert a + b == a;
    } else {
      var n := |b| - 1;
      assert (a + b)[..|a + b| - 1] == a + b[..n];
      SitesConcat(a, b[..n]);
      Assoc(Sites(a), Sites(b[..n]), EnclaveSites(b[n]));
    }
  }

  lemma {:induction false} FourInOrder(a: seq<Site>, b: seq<Site>, c: seq<Site>, d: seq<Site>, i: nat, j: nat)
    requires forall k :: 0 <= k < |a| ==> a[k].OutputSite?
    requires forall k :: 0 <= k < |b| ==> b[k].ExportSite?
    requires forall k :: 0 <= k < |c| ==> c[k].EnclaveImportSite?
    requires forall k :: 0 <= k < |d| ==> d[k].PartitionImportSite?
    requires i < j < |a + b + c + d|
    ensures Turn((a + b + c + d)[i]) <= Turn((a + b + c + d)[j])
  {
  }

  lemma {:induction false} OneEnclaveInOrder(enc: Enclave, i: nat, j: nat)
    requires i < j < |EnclaveSites(enc)|
    ensures Turn(EnclaveSites(enc)[i]) <= Turn(EnclaveSites(enc)[j])
  {
    var a, d := OutputSites(enc.partitions), PartitionImportSites(enc, enc.partitions);
    forall k | 0 <= k < |a| ensures a[k].OutputSite? {
      OutputSitesMembers(enc.partitions, a[k]);
    }
    forall k | 0 <= k < |d| ensures d[k].PartitionImportSite? {
      PartitionImportSitesMembers(enc, enc.partitions, d[k]);
    }
    FourInOrder(a, ExportSites(enc), EnclaveImportSites(enc), d, i, j);
  }

  /** The visit goes through the enclaves as they stand, and through the places of each kind by kind. */
  lemma {:induction false} VisitOrder(front: seq<Enclave>, enc: Enclave, behind: seq<Enclave>)
    ensures Sites(front + [enc] + behind) == Sites(front) + EnclaveSites(enc) + Sites(behind)
    ensures forall i, j :: 0 <= i < j < |EnclaveSites(enc)| ==> Turn(EnclaveSites(enc)[i]) <= Turn(EnclaveSites(enc)[j])
  {
    hide EnclaveSites, Turn;
    SitesConcat(front + [enc], behind);
    SitesConcat(front, [enc]);
    assert [enc][..0] == [];
    assert Sites([enc]) == Sites([]) + EnclaveSites(enc);
    forall i, j | 0 <= i < j < |EnclaveSites(enc)| ensures Turn(EnclaveSites(enc)[i]) <= Turn(EnclaveSites(enc)[j]) {
      OneEnclaveInOrder(enc, i, j);
    }
  }

  // ----- what the collected errors and connections mean -----

  /** Nothing is reported exactly when every contract holds. */
  lemma {:induction false} NoFaultsMeansContracts(enclaves: seq<Enclave>)
    ensures Faults(Sites(enclaves), ById(enclaves)) == [] <==>
            forall e :: e in enclaves ==> EnclaveContracts(e, ById(enclaves))
  {
    var sites, byId := Sites(enclaves), ById(enclaves);
    FaultsEmpty(sites, byId);
    if forall e :: e in enclaves ==> EnclaveContracts(e, byId) {
      forall s | s in sites ensures Fault(s, byId).None? {
        SitesMembers(enclaves, s);
        var e :| e in enclaves && IsSite(s, e);
        ContractsClearSite(e, s, byId);
      }
    }
    if forall s :: s in sites ==> Fault(s, byId).None? {
      forall e | e in enclaves ensures EnclaveContracts(e, byId) {
        forall s | IsSite(s, e) ensures Fault(s, byId).None? {
          SitesMembers(enclaves, s);
        }
        ClearSitesMeanContracts(e, byId);
      }
    }
  }

  lemma {:induction false} ContractsClearSite(enc: Enclave, s: Site, byId: map<EnclaveId, Enclave>)
    requires EnclaveContracts(enc, byId) && IsSite(s, enc)
    ensures Fault(s, byId).None?
  {
    match s
    case OutputSite(p, key) => assert OutputContract(p);
    case ExportSite(_, x) => assert ExportContract(enc, x);
    case EnclaveImportSite(_, imp) => assert HasImport(enc, imp);
    case PartitionImportSite(_, p, imp) => assert HasImport(enc, imp);
  }

  lemma {:induction false} ClearSitesMeanContracts(enc: Enclave, byId: map<EnclaveId, Enclave>)
    requires forall s :: IsSite(s, enc) ==> Fault(s, byId).None?
    ensures EnclaveContracts(enc, byId)
  {
    forall p | p in enc.partitions ensures OutputContract(p) {
      forall k | k in RequiredBy(p) ensures k in p.declaredOutputs {
        assert IsSite(OutputSite(p, k), enc);
      }
    }
    forall x | x in enc.exports ensures ExportContract(enc, x) {
      assert IsSite(ExportSite(enc, x), enc);
    }
    forall imp | HasImport(enc, imp) ensures ImportContract(enc.id, imp, byId) {
      if imp in enc.imports {
        assert IsSite(EnclaveImportSite(enc, imp), enc);
      } else {
        var p :| p in enc.partitions && imp in p.imports;
        assert IsSite(PartitionImportSite(enc, p, imp), enc);
      }
    }
  }

  /** The positions of the faulty sites. */
  function FaultPositions(sites: seq<Site>, byId: map<EnclaveId, Enclave>): (r: seq<nat>)
    ensures forall k :: 0 <= k < |r| ==> r[k] < |sites|
  {
    if sites == [] then []
    else
      var n := |sites| - 1;
      FaultPositions(sites[..n], byId) + if FaultOf(sites[n], byId) != [] then [n] else []
  }

  lemma {:induction false} FaultsStep(sites: seq<Site>, byId: map<EnclaveId, Enclave>)
    requires sites != []
    ensures var n := |sites| - 1;
            var own := Fault(sites[n], byId);
            && Faults(sites, byId) == Faults(sites[..n], byId) + (if own.Some? then [own.value] else [])
            && FaultPositions(sites, byId) == FaultPositions(sites[..n], byId) + (if own.Some? then [n] else [])
  {
    hide Fault;
  }

  lemma {:induction false} PositionsRise(sites: seq<Site>, byId: map<EnclaveId, Enclave>)
    ensures var r := FaultPositions(sites, byId); forall j, k :: 0 <= j < k < |r| ==> r[j] < r[k]
  {
    if sites != [] {
      FaultsStep(sites, byId);
      hide *;
      PositionsRise(sites[..|sites| - 1], byId);
    }
  }

  lemma {:induction false} EveryFaultHasPosition(sites: seq<Site>, byId: map<EnclaveId, Enclave>, i: nat)
    requires i < |sites| && Fault(sites[i], byId).Some?
    ensures i in FaultPositions(sites, byId)
  {
    var n := |sites| - 1;
    FaultsStep(sites, byId);
    hide *;
    if i < n {
      assert sites[..n][i] == sites[i];
      EveryFaultHasPosition(sites[..n], byId, i);
    }
  }

  /** One entry per faulty site, none merged or dropped, in the order of the sites. */
  lemma {:induction false} FaultsOnePerSite(sites: seq<Site>, byId: map<EnclaveId, Enclave>)
    ensures var (faults, at) := (Faults(sites, byId), FaultPositions(sites, byId));
            && |faults| == |at| && (forall k :: 0 <= k < |at| ==> Some(faults[k]) == Fault(sites[at[k]], byId))
            && (forall j, k :: 0 <= j < k < |at| ==> at[j] < at[k])
            && forall i: nat :: i < |sites| && Fault(sites[i], byId).Some? ==> i in at
  {
    hide *;
    PositionsRise(sites, byId);
    FaultsAtPositions(sites, byId);
    forall i: nat | i < |sites| && Fault(sites[i], byId).Some? ensures i in FaultPositions(sites, byId) {
      EveryFaultHasPosition(sites, byId, i);
    }
  }

  lemma {:induction false} FaultsAtPositions(sites: seq<Site>, byId: map<EnclaveId, Enclave>)
    ensures |Faults(sites, byId)| == |FaultPositions(sites, byId)|
    ensures forall k :: 0 <= k < |Faults(sites, byId)| ==>
              Some(Faults(sites, byId)[k]) == Fault(sites[FaultPositions(sites, byId)[k]], byId)
  {
    if sites != [] {
      var n := |sites| - 1;
      FaultsStep(sites, byId);
      hide *;
      FaultsAtPositions(sites[..n], byId);
      var r, at := Faults(sites[..n], byId), FaultPositions(sites[..n], byId);
      forall k | 0 <= k < |r| ensures Some(r[k]) == Fault(sites[at[k]], byId) {
        assert sites[at[k]] == sites[..n][at[k]];
      }
    }
  }

  /** The connection an import asks for, read off the import alone. */
  function Wanted(s: Site): Option<Wiring> {
    match s
    case EnclaveImportSite(enc, imp) => Some(Wiring(enc.id, None, imp.from, imp.exportName))
    case PartitionImportSite(enc, part, imp) =>
      Some(Wiring(enc.id, if part.id == "" then None else Some(part.id), imp.from, imp.exportName))
    case _ => None
  }

  function WantedAll(sites: seq<Site>): seq<Wiring> {
    if sites == [] then []
    else
      var n := |sites| - 1;
      WantedAll(sites[..n]) + if Wanted(sites[n]).Some? then [Wanted(sites[n]).value] else []
  }

  lemma {:induction false} ClearSiteWanted(s: Site, byId: map<EnclaveId, Enclave>)
    requires FaultOf(s, byId) == []
    ensures ConnectionOf(s, byId) == if Wanted(s).Some? then [Wanted(s).value] else []
  {
    hide FindPartition;
  }

  /** Without errors the wiring is the list of imports: one entry each, in traversal order. */
  lemma {:induction false} WiringIsImports(sites: seq<Site>, byId: map<EnclaveId, Enclave>)
    requires Faults(sites, byId) == []
    ensures Connections(sites, byId) == WantedAll(sites)
  {
    hide FaultOf, ConnectionOf, Wanted;
    if sites != [] {
      var n := |sites| - 1;
      WiringIsImports(sites[..n], byId);
      ClearSiteWanted(sites[n], byId);
    }
  }

  // ----- which errors are reported -----

  lemma {:induction false} FaultsMembers(sites: seq<Site>, byId: map<EnclaveId, Enclave>, f: GraphError)
    ensures f in Faults(sites, byId) <==> exists s :: s in sites && Fault(s, byId) == Some(f)
  {
    hide Fault;
    if sites != [] {
      var n := |sites| - 1;
      assert sites == sites[..n] + [sites[n]];
      FaultsMembers(sites[..n], byId, f);
    }
  }

  ghost predicate Reported(f: GraphError, enclaves: seq<Enclave>) {
    f in Faults(Sites(enclaves), ById(enclaves))
  }

  lemma {:induction false} ReportedSite(f: GraphError, enclaves: seq<Enclave>)
    ensures Reported(f, enclaves) <==>
            exists e, s :: e in enclaves && IsSite(s, e) && Fault(s, ById(enclaves)) == Some(f)
  {
    hide Fault;
    var sites, byId := Sites(enclaves), ById(enclaves);
    FaultsMembers(sites, byId, f);
    if Reported(f, enclaves) {
      var s :| s in sites && Fault(s, byId) == Some(f);
      SitesMembers(enclaves, s);
    }
    if e, s :| e in enclaves && IsSite(s, e) && Fault(s, byId) == Some(f) {
      SitesMembers(enclaves, s);
    }
  }

  /** `x` is the first export of that name. */
  ghost predicate FirstNamed(x: Export, exports: seq<Export>, name: string) {
    exists i :: 0 <= i < |exports| && exports[i] == x && x.name == name
                && forall j :: 0 <= j < i ==> exports[j].name != name
  }

  lemma {:induction false} FoundFirst(exports: seq<Export>, name: string, x: Export)
    ensures FirstNamed(x, exports, name) <==> FindExport(exports, name) == Some(x)
  {
    if FirstNamed(x, exports, name) {
      var i :| 0 <= i < |exports| && exports[i] == x && x.name == name
               && forall j :: 0 <= j < i ==> exports[j].name != name;
      FindExportFirst(exports, name, i);
    }
    if FindExport(exports, name) == Some(x) {
      var i := FirstPosition(exports, name);
      FindExportFirst(exports, name, i);
    }
  }

  lemma {:induction false} FirstPosition(exports: seq<Export>, name: string) returns (i: nat)
    requires FindExport(exports, name).Some?
    ensures i < |exports| && exports[i].name == name && forall j :: 0 <= j < i ==> exports[j].name != name
  {
    if exports[0].name == name {
      i := 0;
    } else {
      i := FirstPosition(exports[1..], name);
      assert forall j :: 0 < j < i + 1 ==> exports[j] == exports[1..][j - 1];
      i := i + 1;
    }
  }

  /** `p` is the first partition of that id. */
  ghost predicate FirstOfId(p: Partition, parts: seq<Partition>, id: PartitionId) {
    exists i :: 0 <= i < |parts| && parts[i] == p && p.id == id && forall j :: 0 <= j < i ==> parts[j].id != id
  }

  lemma {:induction false} FoundPartition(parts: seq<Partition>, id: PartitionId, p: Partition)
    ensures FirstOfId(p, parts, id) <==> FindPartition(parts, id) == Some(p)
  {
    if parts != [] {
      FoundPartition(parts[1..], id, p);
      if FirstOfId(p, parts, id) {
        var i :| 0 <= i < |parts| && parts[i] == p && p.id == id && forall j :: 0 <= j < i ==> parts[j].id != id;
        if i > 0 {
          assert parts[0].id != id && parts[1..][i - 1] == p;
          assert forall j :: 0 <= j < i - 1 ==> parts[1..][j].id == parts[j + 1].id;
        }
      }
      if FirstOfId(p, parts[1..], id) && parts[0].id != id {
        var i :| 0 <= i < |parts[1..]| && parts[1..][i] == p && p.id == id
                 && forall j :: 0 <= j < i ==> parts[1..][j].id != id;
        assert parts[i + 1] == p;
        assert forall j :: 0 < j < i + 1 ==> parts[j].id == parts[1..][j - 1].id;
      }
    }
  }

  /** An import by this enclave of that export of that enclave. */
  ghost predicate Asks(enclaves: seq<Enclave>, importer: EnclaveId, from: EnclaveId, name: string) {
    exists e, imp :: e in enclaves && e.id == importer && HasImport(e, imp) && imp.from == from
                     && imp.exportName == name
  }

  /** The error one import gives rise to, wherever it stands. */
  ghost function ImportFault(importer: EnclaveId, imp: Import, byId: map<EnclaveId, Enclave>): Option<GraphError> {
    if imp.from !in byId then Some(DanglingImportEnclave(importer, imp.from))
    else
      match FindExport(byId[imp.from].exports, imp.exportName)
      case None => Some(DanglingImportExport(importer, imp.from, imp.exportName))
      case Some(x) =>
        if Permits(x.to, importer) then None else Some(AccessDenied(importer, imp.from, imp.exportName))
  }

  lemma {:induction false} ImportSiteFault(s: Site, byId: map<EnclaveId, Enclave>)
    ensures s.EnclaveImportSite? || s.PartitionImportSite? ==> Fault(s, byId) == ImportFault(s.enc.id, s.imp, byId)
    ensures s.OutputSite? || s.ExportSite? ==>
              Fault(s, byId).None? || Fault(s, byId).value.MissingRequiredOutput?
              || Fault(s, byId).value.ProducesExportMismatch?
  {
  }

  lemma {:induction false} ImportReported(enclaves: seq<Enclave>, f: GraphError)
    requires !f.MissingRequiredOutput? && !f.ProducesExportMismatch?
    ensures Reported(f, enclaves) <==>
            exists e, imp :: e in enclaves && HasImport(e, imp) && ImportFault(e.id, imp, ById(enclaves)) == Some(f)
  {
    hide Fault, ImportFault;
    var byId := ById(enclaves);
    ReportedSite(f, enclaves);
    if e, imp :| e in enclaves && HasImport(e, imp) && ImportFault(e.id, imp, byId) == Some(f) {
      ImportSiteFault(ImportSiteOf(e, imp), byId);
    }
    if e, s :| e in enclaves && IsSite(s, e) && Fault(s, byId) == Some(f) {
      ImportSiteFault(s, byId);
      assert HasImport(e, s.imp);
    }
  }

  /** Access is denied to exactly the imports whose first matching export is meant for somebody else. */
  lemma {:induction false} AccessDeniedIff(enclaves: seq<Enclave>, importer: EnclaveId, from: EnclaveId, name: string)
    ensures Reported(AccessDenied(importer, from, name), enclaves) <==>
            Asks(enclaves, importer, from, name) && from in ById(enclaves) &&
            exists x :: FirstNamed(x, ById(enclaves)[from].exports, name) &&
                        (x.to.OnlyPartition? || (x.to.OnlyEnclave? && x.to.id != importer))
  {
    hide Reported, HasImport;
    ImportReported(enclaves, AccessDenied(importer, from, name));
    if from in ById(enclaves) {
      var exports := ById(enclaves)[from].exports;
      forall x ensures FirstNamed(x, exports, name) <==> FindExport(exports, name) == Some(x) {
        FoundFirst(exports, name, x);
      }
    }
  }

  /** An export is missing exactly where the enclave is there and has none of that name. */
  lemma {:induction false} DanglingExportIff(enclaves: seq<Enclave>, importer: EnclaveId, from: EnclaveId, name: string)
    ensures Reported(DanglingImportExport(importer, from, name), enclaves) <==>
            Asks(enclaves, importer, from, name) && from in ById(enclaves) &&
            forall x :: x in ById(enclaves)[from].exports ==> x.name != name
  {
    hide Reported, HasImport;
    ImportReported(enclaves, DanglingImportExport(importer, from, name));
  }

  /** An enclave is missing exactly where an import names none of the configuration. */
  lemma {:induction false} DanglingEnclaveIff(enclaves: seq<Enclave>, importer: EnclaveId, from: EnclaveId)
    ensures Reported(DanglingImportEnclave(importer, from), enclaves) <==>
            (exists name :: Asks(enclaves, importer, from, name)) && forall e :: e in enclaves ==> e.id != from
  {
    hide Reported, HasImport, FindExport;
    ImportReported(enclaves, DanglingImportEnclave(importer, from));
    assert from in ById(enclaves) <==> exists e :: e in enclaves && e.id == from;
    if e, imp :| e in enclaves && HasImport(e, imp)
                 && ImportFault(e.id, imp, ById(enclaves)) == Some(DanglingImportEnclave(importer, from)) {
      assert Asks(enclaves, importer, from, imp.exportName);
    }
  }

  /** What clients of such a service look for. */
  predicate Needs(kind: ProducesType, key: string) {
    if kind.QueueService? then key == "queue_url" else key == "hostname" || key == "port"
  }

  lemma {:induction false} NeedsIsRequired(kind: ProducesType, key: string)
    ensures Needs(kind, key) <==> key in RequiredOutputs(kind)
  {
  }

  lemma {:induction false} OutputFault(s: Site, byId: map<EnclaveId, Enclave>, pid: PartitionId, kind: ProducesType,
                                       key: string)
    ensures Fault(s, byId) == Some(MissingRequiredOutput(pid, kind, key)) <==>
            s.OutputSite? && Lacks(s.part, pid, kind, key) && s.key == key
  {
    hide CheckImportPartition, FindPartition;
    ImportSiteFault(s, byId);
  }

  /** A partition of that id that serves something of that kind and does not declare the key. */
  predicate Lacks(p: Partition, pid: PartitionId, kind: ProducesType, key: string) {
    p.id == pid && p.produces == Some(kind) && key !in p.declaredOutputs
  }

  /** A missing output is reported exactly for a service without one of the keys its clients look for. */
  lemma {:induction false} MissingOutputIff(enclaves: seq<Enclave>, pid: PartitionId, kind: ProducesType, key: string)
    ensures Reported(MissingRequiredOutput(pid, kind, key), enclaves) <==>
            Needs(kind, key) && exists e, p :: e in enclaves && p in e.partitions && Lacks(p, pid, kind, key)
  {
    hide Fault, RequiredOutputs;
    var f := MissingRequiredOutput(pid, kind, key);
    ReportedSite(f, enclaves);
    NeedsIsRequired(kind, key);
    if e, s :| e in enclaves && IsSite(s, e) && Fault(s, ById(enclaves)) == Some(f) {
      OutputFault(s, ById(enclaves), pid, kind, key);
    }
    if e, p :| e in enclaves && p in e.partitions && Lacks(p, pid, kind, key) && Needs(kind, key) {
      OutputFault(OutputSite(p, key), ById(enclaves), pid, kind, key);
      assert IsSite(OutputSite(p, key), e);
    }
  }

  predicate Carries(kind: ProducesType, t: ExportType) {
    || (kind.HttpService? && t.HttpExport?)
    || (kind.TcpService? && t.TcpExport?)
    || (kind.QueueService? && t.QueueExport?)
  }

  /** A mismatch is reported exactly for an export of another type than the target serves, the first of that id. */
  lemma {:induction false} ExportMismatchIff(enclaves: seq<Enclave>, pid: PartitionId, kind: ProducesType, name: string,
                                             t: ExportType)
    ensures Reported(ProducesExportMismatch(pid, kind, name, t), enclaves) <==>
            !Carries(kind, t) && exists e, x, p :: e in enclaves && Mismatched(e, x, p, pid, kind, name, t)
  {
    hide Fault, IsSite;
    var byId, f := ById(enclaves), ProducesExportMismatch(pid, kind, name, t);
    ReportedSite(f, enclaves);
    if e, s :| e in enclaves && IsSite(s, e) && Fault(s, byId) == Some(f) {
      MismatchSite(e, s, byId, pid, kind, name, t);
    }
    if e, x, p :| e in enclaves && Mismatched(e, x, p, pid, kind, name, t) && !Carries(kind, t) {
      SiteOfMismatch(e, x, p, byId, pid, kind, name, t);
    }
  }

  /** The export `x` of that name and type points at the partition `p`, which serves something of that kind. */
  ghost predicate Mismatched(e: Enclave, x: Export, p: Partition, pid: PartitionId, kind: ProducesType, name: string,
                             t: ExportType) {
    && x in e.exports && x.name == name && x.exportType == t && x.targetPartition == pid
    && FirstOfId(p, e.partitions, pid) && p.produces == Some(kind)
  }

  lemma {:induction false} MismatchSite(e: Enclave, s: Site, byId: map<EnclaveId, Enclave>, pid: PartitionId,
                                        kind: ProducesType, name: string, t: ExportType)
    requires IsSite(s, e) && Fault(s, byId) == Some(ProducesExportMismatch(pid, kind, name, t))
    ensures !Carries(kind, t) && exists x, p :: Mismatched(e, x, p, pid, kind, name, t)
  {
    hide CheckImportPartition, FindPartition;
    ImportSiteFault(s, byId);
    assert s.ExportSite?;
    var p := FindPartition(e.partitions, s.exp.targetPartition).value;
    FoundPartition(e.partitions, s.exp.targetPartition, p);
    assert Mismatched(e, s.exp, p, pid, kind, name, t);
  }

  lemma {:induction false} SiteOfMismatch(e: Enclave, x: Export, p: Partition, byId: map<EnclaveId, Enclave>,
                                          pid: PartitionId, kind: ProducesType, name: string, t: ExportType)
    requires Mismatched(e, x, p, pid, kind, name, t) && !Carries(kind, t)
    ensures IsSite(ExportSite(e, x), e)
    ensures Fault(ExportSite(e, x), byId) == Some(ProducesExportMismatch(pid, kind, name, t))
  {
    hide FindPartition;
    FoundPartition(e.partitions, pid, p);
  }

  /** The first export an import names is there, and is open to everybody or meant for the importer. */
  ghost predicate Admitted(enclaves: seq<Enclave>, importer: EnclaveId, imp: Import) {
    && imp.from in ById(enclaves)
    && exists x :: FirstNamed(x, ById(enclaves)[imp.from].exports, imp.exportName) &&
                   (x.to in {Public, AnyEnclave, Vpn} || x.to == OnlyEnclave(importer))
  }

  lemma {:induction false} AllAdmitted(enclaves: seq<Enclave>)
    requires Faults(Sites(enclaves), ById(enclaves)) == []
    ensures forall e, imp :: e in enclaves && HasImport(e, imp) ==> Admitted(enclaves, e.id, imp)
  {
    NoFaultsMeansContracts(enclaves);
    var byId := ById(enclaves);
    forall e, imp | e in enclaves && HasImport(e, imp) ensures Admitted(enclaves, e.id, imp) {
      assert EnclaveContracts(e, byId);
      assert ImportContract(e.id, imp, byId);
      var x := FindExport(byId[imp.from].exports, imp.exportName).value;
      FoundFirst(byId[imp.from].exports, imp.exportName, x);
    }
  }

  // ----- dependency cycles -----

  /** Enclave `b` imports from the different enclave `a`. */
  ghost predicate DependsOn(enclaves: seq<Enclave>, b: EnclaveId, a: EnclaveId) {
    a != b && exists e, imp :: e in enclaves && e.id == b && HasImport(e, imp) && imp.from == a
  }

  /** A round trip a -> b -> ... -> a in which each enclave imports from the one before it. */
  ghost predicate ImportCycle(enclaves: seq<Enclave>, c: seq<EnclaveId>) {
    && |c| >= 2 && c[0] == c[|c| - 1]
    && forall i :: 0 <= i < |c| - 1 ==> DependsOn(enclaves, c[i + 1], c[i])
  }

  ghost predicate Wired(wiring: seq<Wiring>, a: EnclaveId, b: EnclaveId) {
    a != b && exists w :: w in wiring && w.exporter == a && w.importer == b
  }

  /** One edge, exporter to importer, per connection between two different enclaves. */
  function Edges(wiring: seq<Wiring>, node: map<EnclaveId, nat>): (r: seq<Edge>)
    requires forall w :: w in wiring ==> w.exporter in node && w.importer in node
  {
    if wiring == [] then []
    else
      var n := |wiring| - 1;
      var w := wiring[n];
      assert wiring == wiring[..n] + [w];
      Edges(wiring[..n], node) +
      if w.exporter == w.importer then [] else [Edge(node[w.exporter], node[w.importer])]
  }

  lemma {:induction false} EdgesMembers(wiring: seq<Wiring>, node: map<EnclaveId, nat>, e: Edge)
    requires forall w :: w in wiring ==> w.exporter in node && w.importer in node
    ensures e in Edges(wiring, node) <==>
            exists a, b :: Wired(wiring, a, b) && a in node && b in node && e == Edge(node[a], node[b])
  {
    if wiring != [] {
      var n := |wiring| - 1;
      var w := wiring[n];
      assert wiring == wiring[..n] + [w];
      EdgesMembers(wiring[..n], node, e);
      forall a, b ensures Wired(wiring, a, b)
          <==> Wired(wiring[..n], a, b) || (a != b && w.exporter == a && w.importer == b) {
      }
    }
  }

  lemma {:induction false} ConnectionFacts(enclaves: seq<Enclave>, s: Site)
    requires s in Sites(enclaves) && Connection(s, ById(enclaves)).Some?
    ensures var w := Connection(s, ById(enclaves)).value;
            && s.enc in enclaves && HasImport(s.enc, s.imp)
            && w.importer == s.enc.id && w.exporter == s.imp.from
            && Known(enclaves, w.exporter) && Known(enclaves, w.importer)
  {
    SitesMembers(enclaves, s);
    var e :| e in enclaves && IsSite(s, e);
    var w := Connection(s, ById(enclaves)).value;
    assert w.exporter in ById(enclaves);
  }

  lemma {:induction false} ConnectionEndpoints(enclaves: seq<Enclave>)
    ensures forall w :: w in Connections(Sites(enclaves), ById(enclaves)) ==>
              w.exporter in NodeIndex(enclaves) && w.importer in NodeIndex(enclaves)
  {
    var byId := ById(enclaves);
    forall w | w in Connections(Sites(enclaves), byId)
      ensures w.exporter in NodeIndex(enclaves) && w.importer in NodeIndex(enclaves)
    {
      ConnectionsMembers(Sites(enclaves), byId, w);
      var s :| s in Sites(enclaves) && Connection(s, byId) == Some(w);
      ConnectionFacts(enclaves, s);
    }
  }

  lemma {:induction false} ImportIsWired(enclaves: seq<Enclave>, a: EnclaveId, b: EnclaveId)
    requires Faults(Sites(enclaves), ById(enclaves)) == [] && DependsOn(enclaves, b, a)
    ensures Wired(Connections(Sites(enclaves), ById(enclaves)), a, b)
  {
    var e, imp :| e in enclaves && e.id == b && HasImport(e, imp) && imp.from == a;
    var s := ImportSiteOf(e, imp);
    SitesMembers(enclaves, s);
    ClearSiteConnects(Sites(enclaves), ById(enclaves), s);
  }

  lemma {:induction false} ClearSiteConnects(sites: seq<Site>, byId: map<EnclaveId, Enclave>, s: Site)
    requires Faults(sites, byId) == [] && s in sites && (s.EnclaveImportSite? || s.PartitionImportSite?)
    ensures exists w :: w in Connections(sites, byId) && w.exporter == s.imp.from && w.importer == s.enc.id
  {
    FaultsEmpty(sites, byId);
    assert Fault(s, byId).None?;
    var w := Connection(s, byId).value;
    ConnectionsMembers(sites, byId, w);
    assert ConnectedBy(w, sites, byId);
  }

  lemma {:induction false} WiredIsImport(enclaves: seq<Enclave>, a: EnclaveId, b: EnclaveId)
    requires Wired(Connections(Sites(enclaves), ById(enclaves)), a, b)
    ensures DependsOn(enclaves, b, a)
  {
    var sites, byId := Sites(enclaves), ById(enclaves);
    var w :| w in Connections(sites, byId) && w.exporter == a && w.importer == b;
    ConnectionsMembers(sites, byId, w);
    var s :| s in sites && Connection(s, byId) == Some(w);
    ConnectionFacts(enclaves, s);
  }

  ghost function ImportSiteOf(e: Enclave, imp: Import): (s: Site)
    requires HasImport(e, imp)
    ensures IsSite(s, e) && (s.EnclaveImportSite? || s.PartitionImportSite?) && s.enc == e && s.imp == imp
  {
    if imp in e.imports then EnclaveImportSite(e, imp)
    else
      var p :| p in e.partitions && imp in p.imports;
      PartitionImportSite(e, p, imp)
  }

  /** The dependency graph of a set of enclaves. */
  ghost function GraphOf(enclaves: seq<Enclave>): seq<Edge> {
    ConnectionEndpoints(enclaves);
    Edges(Connections(Sites(enclaves), ById(enclaves)), NodeIndex(enclaves))
  }

  lemma {:induction false} GraphEdge(enclaves: seq<Enclave>, e: Edge)
    requires Faults(Sites(enclaves), ById(enclaves)) == []
    ensures e in GraphOf(enclaves) ==>
              e.from < |enclaves| && e.to < |enclaves| && DependsOn(enclaves, enclaves[e.to].id, enclaves[e.from].id)
  {
    ConnectionEndpoints(enclaves);
    var wiring, node := Connections(Sites(enclaves), ById(enclaves)), NodeIndex(enclaves);
    EdgesMembers(wiring, node, e);
    if e in GraphOf(enclaves) {
      var a, b :| Wired(wiring, a, b) && a in node && b in node && e == Edge(node[a], node[b]);
      WiredIsImport(enclaves, a, b);
    }
  }

  lemma {:induction false} DependencyEdge(enclaves: seq<Enclave>, a: EnclaveId, b: EnclaveId)
    requires Faults(Sites(enclaves), ById(enclaves)) == [] && DependsOn(enclaves, b, a)
    ensures var node := NodeIndex(enclaves); a in node && b in node && Edge(node[a], node[b]) in GraphOf(enclaves)
  {
    ConnectionEndpoints(enclaves);
    var wiring, node := Connections(Sites(enclaves), ById(enclaves)), NodeIndex(enclaves);
    ImportIsWired(enclaves, a, b);
    var w :| w in wiring && w.exporter == a && w.importer == b;
    EdgesMembers(wiring, node, Edge(node[a], node[b]));
  }

  /** The graph has a cycle exactly when imports go round through two or more enclaves. */
  lemma {:induction false} CycleMeansImportCycle(enclaves: seq<Enclave>)
    requires Faults(Sites(enclaves), ById(enclaves)) == []
    ensures Cyclic(GraphOf(enclaves)) <==> exists c :: ImportCycle(enclaves, c)
  {
    var edges := GraphOf(enclaves);
    if Cyclic(edges) {
      var c :| ClosedWalk(c, edges);
      WalkGivesImportCycle(enclaves, c);
    }
    if d :| ImportCycle(enclaves, d) {
      ImportCycleGivesWalk(enclaves, d);
    }
  }

  lemma {:induction false} WalkGivesImportCycle(enclaves: seq<Enclave>, c: seq<nat>)
    requires Faults(Sites(enclaves), ById(enclaves)) == [] && ClosedWalk(c, GraphOf(enclaves))
    ensures exists d :: ImportCycle(enclaves, d)
  {
    forall i | 0 <= i < |c| ensures c[i] < |enclaves| {
      var j := if i < |c| - 1 then i else i - 1;
      GraphEdge(enclaves, Edge(c[j], c[j + 1]));
    }
    var d := seq(|c|, i requires 0 <= i < |c| => enclaves[c[i]].id);
    forall i | 0 <= i < |d| - 1 ensures DependsOn(enclaves, d[i + 1], d[i]) {
      GraphEdge(enclaves, Edge(c[i], c[i + 1]));
    }
    assert ImportCycle(enclaves, d);
  }

  lemma {:induction false} ImportCycleGivesWalk(enclaves: seq<Enclave>, d: seq<EnclaveId>)
    requires Faults(Sites(enclaves), ById(enclaves)) == [] && ImportCycle(enclaves, d)
    ensures Cyclic(GraphOf(enclaves))
  {
    var node, edges := NodeIndex(enclaves), GraphOf(enclaves);
    forall i | 0 <= i < |d| - 1 ensures NodeStep(d[i], d[i + 1], node, edges) {
      DependencyEdge(enclaves, d[i], d[i + 1]);
    }
    MappedWalk(d, node, edges);
  }

  ghost predicate NodeStep(a: EnclaveId, b: EnclaveId, node: map<EnclaveId, nat>, edges: seq<Edge>) {
    a in node && b in node && Edge(node[a], node[b]) in edges
  }

  lemma {:induction false} MappedWalk(d: seq<EnclaveId>, node: map<EnclaveId, nat>, edges: seq<Edge>)
    requires |d| >= 2 && d[0] == d[|d| - 1]
    requires forall i :: 0 <= i < |d| - 1 ==> NodeStep(d[i], d[i + 1], node, edges)
    ensures Cyclic(edges)
  {
    forall i | 0 <= i < |d| ensures d[i] in node {
      var j := if i < |d| - 1 then i else 0;
      assert NodeStep(d[j], d[j + 1], node, edges);
    }
    var c := seq(|d|, i requires 0 <= i < |d| => node[d[i]]);
    forall i | 0 <= i < |c| - 1 ensures Edge(c[i], c[i + 1]) in edges {
      assert NodeStep(d[i], d[i + 1], node, edges);
    }
    assert ClosedWalk(c, edges);
  }

  // ----- the order -----

  ghost function Ids(enclaves: seq<Enclave>): (r: seq<EnclaveId>)
    ensures |r| == |enclaves| && forall i :: 0 <= i < |enclaves| ==> r[i] == enclaves[i].id
  {
    seq(|enclaves|, i requires 0 <= i < |enclaves| => enclaves[i].id)
  }

  function IdsInOrder(enclaves: seq<Enclave>, order: seq<nat>): (r: seq<EnclaveId>)
    requires forall i :: 0 <= i < |order| ==> order[i] < |enclaves|
    ensures |r| == |order| && forall i :: 0 <= i < |order| ==> r[i] == enclaves[order[i]].id
  {
    seq(|order|, i requires 0 <= i < |order| => enclaves[order[i]].id)
  }

  /** `topo` lists the enclaves, each once, with every exporter before each different importer. */
  ghost predicate ExportersFirst(topo: seq<EnclaveId>, enclaves: seq<Enclave>) {
    && |topo| == |enclaves| && Distinct(topo)
    && (forall e :: e in enclaves ==> e.id in topo)
    && (forall i, j :: 0 <= i < |topo| && 0 <= j < |topo| && DependsOn(enclaves, topo[j], topo[i]) ==> i < j)
  }

  lemma {:induction false} OrderIsExportersFirst(enclaves: seq<Enclave>, order: seq<nat>)
    requires DistinctIds(enclaves) && Faults(Sites(enclaves), ById(enclaves)) == []
    requires ListsNodes(order, |enclaves|) && Respects(order, GraphOf(enclaves))
    ensures ExportersFirst(IdsInOrder(enclaves, order), enclaves)
  {
    var topo, node := IdsInOrder(enclaves, order), NodeIndex(enclaves);
    forall i, j | 0 <= i < j < |topo| ensures topo[i] != topo[j] {
      var a, b := order[i], order[j];
      assert a < b || b < a;
    }
    AllListed(order, |enclaves|);
    forall e | e in enclaves ensures e.id in topo {
      var v :| 0 <= v < |enclaves| && enclaves[v] == e;
      var w: nat := v;
      assert w in order;
      var i :| 0 <= i < |order| && order[i] == v;
      assert topo[i] == e.id;
    }
    forall i, j | 0 <= i < |topo| && 0 <= j < |topo| && DependsOn(enclaves, topo[j], topo[i]) ensures i < j {
      DependencyEdge(enclaves, topo[i], topo[j]);
      SameNode(enclaves, order[i]);
      SameNode(enclaves, order[j]);
      assert Edge(order[i], order[j]) in GraphOf(enclaves);
    }
  }

  lemma {:induction false} SameNode(enclaves: seq<Enclave>, v: nat)
    requires DistinctIds(enclaves) && v < |enclaves|
    ensures enclaves[v].id in NodeIndex(enclaves) && NodeIndex(enclaves)[enclaves[v].id] == v
  {
    assert enclaves[v] in enclaves;
    assert Known(enclaves, enclaves[v].id);
    var w := NodeIndex(enclaves)[enclaves[v].id];
    assert w < v || w == v || v < w;
  }

  lemma {:induction false} GraphInRange(enclaves: seq<Enclave>)
    requires Faults(Sites(enclaves), ById(enclaves)) == []
    ensures InRange(GraphOf(enclaves), |enclaves|)
  {
    forall e | e in GraphOf(enclaves) ensures e.from < |enclaves| && e.to < |enclaves| {
      GraphEdge(enclaves, e);
    }
  }

  // ----- validate -----

  lemma {:induction false} FaultsAppend(a: seq<Site>, b: seq<Site>, byId: map<EnclaveId, Enclave>)
    ensures Faults(a + b, byId) == Faults(a, byId) + Faults(b, byId)
    ensures Connections(a + b, byId) == Connections(a, byId) + Connections(b, byId)
  {
    hide FaultOf, ConnectionOf;
    if b == [] {
      assert a + b == a;
    } else {
      var n := |b| - 1;
      assert (a + b)[..|a + b| - 1] == a + b[..n];
      FaultsAppend(a, b[..n], byId);
    }
  }

  method IndexEnclaves(enclaves: seq<Enclave>) returns (byId: map<EnclaveId, Enclave>, node: map<EnclaveId, nat>)
    ensures byId == ById(enclaves) && node == NodeIndex(enclaves)
  {
    byId, node := map[], map[];
    for i := 0 to |enclaves|
      invariant byId == ById(enclaves[..i]) && node == NodeIndex(enclaves[..i])
    {
      assert enclaves[..i + 1][..i] == enclaves[..i];
      byId := byId[enclaves[i].id := enclaves[i]];
      node := node[enclaves[i].id := i];
    }
    assert enclaves[..|enclaves|] == enclaves;
  }

  lemma {:induction false} OutputSitesSnoc(parts: seq<Partition>, j: nat)
    requires j < |parts|
    ensures OutputSites(parts[..j + 1]) == OutputSites(parts[..j]) + PartitionOutputSites(parts[j])
  {
    assert parts[..j + 1][..j] == parts[..j];
  }

  method CheckPartitionOutputs(part: Partition, byId: map<EnclaveId, Enclave>)
    returns (errors: seq<GraphError>)
    ensures errors == Faults(PartitionOutputSites(part), byId)
  {
    errors := [];
    ghost var own := PartitionOutputSites(part);
    if part.produces.Some? {
      var keys := RequiredOutputs(part.produces.value);
      for k := 0 to |keys|
        invariant errors == Faults(own[..k], byId)
      {
        assert own[..k + 1][..k] == own[..k];
        if keys[k] !in part.declaredOutputs {
          errors := errors + [MissingRequiredOutput(part.id, part.produces.value, keys[k])];
        }
      }
      assert own[..|keys|] == own;
    }
  }

  method CheckOutputs(parts: seq<Partition>, byId: map<EnclaveId, Enclave>)
    returns (errors: seq<GraphError>)
    ensures errors == Faults(OutputSites(parts), byId)
  {
    errors := [];
    for j := 0 to |parts|
      invariant errors == Faults(OutputSites(parts[..j]), byId)
    {
      var more := CheckPartitionOutputs(parts[j], byId);
      errors := errors + more;
      OutputSitesSnoc(parts, j);
      FaultsAppend(OutputSites(parts[..j]), PartitionOutputSites(parts[j]), byId);
    }
    assert parts[..|parts|] == parts;
  }

  method CheckExports(enc: Enclave, byId: map<EnclaveId, Enclave>)
    returns (errors: seq<GraphError>)
    ensures errors == Faults(ExportSites(enc), byId)
  {
    errors := [];
    ghost var own := ExportSites(enc);
    for j := 0 to |enc.exports|
      invariant errors == Faults(own[..j], byId)
    {
      assert own[..j + 1][..j] == own[..j];
      var exp := enc.exports[j];
      var target := FindPartition(enc.partitions, exp.targetPartition);
      if target.Some? && target.value.produces.Some? {
        var expected := ProducedExportType(target.value.produces.value);
        if expected != exp.exportType {
          errors := errors + [ProducesExportMismatch(target.value.id, target.value.produces.value, exp.name,
                                                     exp.exportType)];
        }
      }
    }
    assert own[..|enc.exports|] == own;
  }

  method CheckEnclaveImports(enc: Enclave, byId: map<EnclaveId, Enclave>)
    returns (errors: seq<GraphError>, wiring: seq<Wiring>)
    ensures errors == Faults(EnclaveImportSites(enc), byId)
    ensures wiring == Connections(EnclaveImportSites(enc), byId)
  {
    errors, wiring := [], [];
    ghost var own := EnclaveImportSites(enc);
    for j := 0 to |enc.imports|
      invariant errors == Faults(own[..j], byId)
      invariant wiring == Connections(own[..j], byId)
    {
      assert own[..j + 1][..j] == own[..j];
      match CheckImport(enc, enc.imports[j], byId)
      case Ok(w) => wiring := wiring + [w];
      case Err(e) => errors := errors + [e];
    }
    assert own[..|enc.imports|] == own;
  }

  lemma {:induction false} PartitionImportSitesSnoc(enc: Enclave, parts: seq<Partition>, j: nat)
    requires j < |parts|
    ensures PartitionImportSites(enc, parts[..j + 1]) == PartitionImportSites(enc, parts[..j])
            + OwnImportSites(enc, parts[j])
  {
    assert parts[..j + 1][..j] == parts[..j];
  }

  method CheckOwnImports(enc: Enclave, part: Partition, byId: map<EnclaveId, Enclave>)
    returns (errors: seq<GraphError>, wiring: seq<Wiring>)
    ensures errors == Faults(OwnImportSites(enc, part), byId)
    ensures wiring == Connections(OwnImportSites(enc, part), byId)
  {
    errors, wiring := [], [];
    ghost var own := OwnImportSites(enc, part);
    for k := 0 to |part.imports|
      invariant errors == Faults(own[..k], byId)
      invariant wiring == Connections(own[..k], byId)
    {
      assert own[..k + 1][..k] == own[..k];
      match CheckImportPartition(enc, part.id, part.imports[k], byId)
      case Ok(w) => wiring := wiring + [w];
      case Err(e) => errors := errors + [e];
    }
    assert own[..|part.imports|] == own;
  }

  method CheckPartitionImports(enc: Enclave, byId: map<EnclaveId, Enclave>)
    returns (errors: seq<GraphError>, wiring: seq<Wiring>)
    ensures errors == Faults(PartitionImportSites(enc, enc.partitions), byId)
    ensures wiring == Connections(PartitionImportSites(enc, enc.partitions), byId)
  {
    errors, wiring := [], [];
    var parts := enc.partitions;
    for j := 0 to |parts|
      invariant errors == Faults(PartitionImportSites(enc, parts[..j]), byId)
      invariant wiring == Connections(PartitionImportSites(enc, parts[..j]), byId)
    {
      var more, wires := CheckOwnImports(enc, parts[j], byId);
      errors, wiring := errors + more, wiring + wires;
      PartitionImportSitesSnoc(enc, parts, j);
      FaultsAppend(PartitionImportSites(enc, parts[..j]), OwnImportSites(enc, parts[j]), byId);
    }
    assert parts[..|parts|] == parts;
  }

  lemma {:induction false} NoConnection(sites: seq<Site>, byId: map<EnclaveId, Enclave>)
    requires forall s :: s in sites ==> s.OutputSite? || s.ExportSite?
    ensures Connections(sites, byId) == []
  {
    if sites != [] {
      var n := |sites| - 1;
      assert sites[n] in sites;
      NoConnection(sites[..n], byId);
    }
  }

  lemma {:induction false} EnclaveTotals(enc: Enclave, byId: map<EnclaveId, Enclave>)
    ensures Faults(EnclaveSites(enc), byId) ==
            Faults(OutputSites(enc.partitions), byId) + Faults(ExportSites(enc), byId)
            + Faults(EnclaveImportSites(enc), byId) + Faults(PartitionImportSites(enc, enc.partitions), byId)
    ensures Connections(EnclaveSites(enc), byId) ==
            Connections(EnclaveImportSites(enc), byId) + Connections(PartitionImportSites(enc, enc.partitions), byId)
  {
    forall s | s in OutputSites(enc.partitions) ensures s.OutputSite? {
      OutputSitesMembers(enc.partitions, s);
    }
    NoConnection(OutputSites(enc.partitions), byId);
    NoConnection(ExportSites(enc), byId);
    FourTotals(OutputSites(enc.partitions), ExportSites(enc), EnclaveImportSites(enc),
               PartitionImportSites(enc, enc.partitions), byId);
  }

  lemma {:induction false} FourTotals(a: seq<Site>, b: seq<Site>, c: seq<Site>, d: seq<Site>,
                                      byId: map<EnclaveId, Enclave>)
    requires Connections(a, byId) == [] && Connections(b, byId) == []
    ensures Faults(a + b + c + d, byId) == Faults(a, byId) + Faults(b, byId) + Faults(c, byId) + Faults(d, byId)
    ensures Connections(a + b + c + d, byId) == Connections(c, byId) + Connections(d, byId)
  {
    hide FaultOf, ConnectionOf;
    FaultsAppend(a + b + c, d, byId);
    FaultsAppend(a + b, c, byId);
    FaultsAppend(a, b, byId);
  }

  lemma {:induction false} SitesSnoc(enclaves: seq<Enclave>, i: nat)
    requires i < |enclaves|
    ensures Sites(enclaves[..i + 1]) == Sites(enclaves[..i]) + EnclaveSites(enclaves[i])
  {
    assert enclaves[..i + 1][..i] == enclaves[..i];
  }

  method CheckEnclave(enc: Enclave, byId: map<EnclaveId, Enclave>)
    returns (errors: seq<GraphError>, wiring: seq<Wiring>)
    ensures errors == Faults(EnclaveSites(enc), byId)
    ensures wiring == Connections(EnclaveSites(enc), byId)
  {
    var outputs := CheckOutputs(enc.partitions, byId);
    var exports := CheckExports(enc, byId);
    var imports, wires := CheckEnclaveImports(enc, byId);
    var partImports, partWires := CheckPartitionImports(enc, byId);
    errors := outputs + exports + imports + partImports;
    wiring := wires + partWires;
    EnclaveTotals(enc, byId);
  }

  /** The checks: every site of every enclave, errors and connections collected on the way. */
  method CheckAll(enclaves: seq<Enclave>, byId: map<EnclaveId, Enclave>)
    returns (errors: seq<GraphError>, wiring: seq<Wiring>)
    ensures errors == Faults(Sites(enclaves), byId)
    ensures wiring == Connections(Sites(enclaves), byId)
  {
    errors, wiring := [], [];
    for i := 0 to |enclaves|
      invariant errors == Faults(Sites(enclaves[..i]), byId)
      invariant wiring == Connections(Sites(enclaves[..i]), byId)
    {
      var more, wires := CheckEnclave(enclaves[i], byId);
      errors, wiring := errors + more, wiring + wires;
      SitesSnoc(enclaves, i);
      FaultsAppend(Sites(enclaves[..i]), EnclaveSites(enclaves[i]), byId);
    }
    assert enclaves[..|enclaves|] == enclaves;
  }

  /** Exporter-to-importer edges; an enclave importing from itself adds none. */
  method BuildGraph(wiring: seq<Wiring>, node: map<EnclaveId, nat>) returns (edges: seq<Edge>)
    requires forall w :: w in wiring ==> w.exporter in node && w.importer in node
    ensures edges == Edges(wiring, node)
  {
    edges := [];
    for i := 0 to |wiring|
      invariant edges == Edges(wiring[..i], node)
    {
      var w := wiring[i];
      assert wiring[..i + 1][..i] == wiring[..i];
      if w.exporter != w.importer {
        edges := edges + [Edge(node[w.exporter], node[w.importer])];
      }
    }
    assert wiring[..|wiring|] == wiring;
  }

  method Validate(enclaves: seq<Enclave>) returns (r: Result<ResolvedGraph, GraphError>)
    ensures var errors := Faults(Sites(enclaves), ById(enclaves));
            && (|errors| == 1 ==> r == Err(errors[0]))
            && (|errors| > 1 ==> r == Err(Multiple(errors)))
            && (errors == [] ==>
                  && (r == Err(CycleDetected) <==> exists c :: ImportCycle(enclaves, c))
                  && (r.Ok? <==> !exists c :: ImportCycle(enclaves, c)))
    ensures r.Ok? ==> forall e, imp :: e in enclaves && HasImport(e, imp) ==> Admitted(enclaves, e.id, imp)
    ensures r.Ok? ==>
              && r.value.wiring == WantedAll(Sites(enclaves))
              && (exists order :: ListsNodes(order, |enclaves|) && r.value.topoOrder == IdsInOrder(enclaves, order))
              && (DistinctIds(enclaves) ==> ExportersFirst(r.value.topoOrder, enclaves))
  {
    var byId, node := IndexEnclaves(enclaves);
    var errors, wiring := CheckAll(enclaves, byId);
    if errors != [] {
      if |errors| == 1 {
        return Err(errors[0]);
      }
      return Err(Multiple(errors));
    }
    ConnectionEndpoints(enclaves);
    var edges := BuildGraph(wiring, node);
    GraphInRange(enclaves);
    CycleMeansImportCycle(enclaves);
    var topo := TopoSort(|enclaves|, edges);
    if topo.None? {
      return Err(CycleDetected);
    }
    WiringIsImports(Sites(enclaves), byId);
    AllAdmitted(enclaves);
    if DistinctIds(enclaves) {
      OrderIsExportersFirst(enclaves, topo.value);
    }
    return Ok(ResolvedGraph(IdsInOrder(enclaves, topo.value), wiring));
  }
}
