/**
 What the desired-state hash is taken over: a configuration as it is serialised, with every map in the
 order its iterator happened to visit (crates/nclav-domain/src/types.rs, crates/nclav-store/src/state.rs).
 */
module HashInput {
  import opened Prelude
  import opened Json
  import opened Domain

  // ----- serialised forms -----

  function Opt<T>(v: Option<T>, json: T -> Json): Json {
    if v.None? then JNull else json(v.value)
  }

  function Each<T>(xs: seq<T>, json: T -> Json): Json {
    JArr(seq(|xs|, i requires 0 <= i < |xs| => json(xs[i])))
  }

  function Text(s: string): Json {
    JStr(s)
  }

  /** A record: its fields under the given names, in the order they are declared. */
  function Record(names: seq<string>, vals: seq<Json>): Json
    requires |names| == |vals|
  {
    JObj(seq(|names|, i requires 0 <= i < |names| => Field(names[i], vals[i])))
  }

  function Digit(n: nat): char
    requires n < 10
  {
    "0123456789"[n]
  }

  function Decimal(n: nat): string {
    if n < 10 then [Digit(n)] else Decimal(n / 10) + [Digit(n % 10)]
  }

  function Number(n: nat): Json {
    JNum(Decimal(n))
  }

  function CloudJson(c: CloudTarget): Json {
    match c
    case Local => JStr("local")
    case Gcp => JStr("gcp")
    case Azure => JStr("azure")
    case Aws => JStr("aws")
  }

  function ExportTypeJson(t: ExportType): Json {
    match t
    case HttpExport => JStr("http")
    case TcpExport => JStr("tcp")
    case QueueExport => JStr("queue")
  }

  function ProducesJson(t: ProducesType): Json {
    match t
    case HttpService => JStr("http")
    case TcpService => JStr("tcp")
    case QueueService => JStr("queue")
  }

  function AuthJson(a: AuthType): Json {
    match a
    case NoAuth => JStr("none")
    case Token => JStr("token")
    case Oauth => JStr("oauth")
    case Mtls => JStr("mtls")
    case Native => JStr("native")
  }

  function TargetJson(t: ExportTarget): Json {
    match t
    case Public => JStr("public")
    case AnyEnclave => JStr("any_enclave")
    case OnlyEnclave(id) => JObj([Field("enclave", JStr(id))])
    case Vpn => JStr("vpn")
    case OnlyPartition(pid) => JObj([Field("partition", JStr(pid))])
  }

  function TerraformFields(): seq<string> {
    ["tool", "source", "dir"]
  }

  function ExportFields(): seq<string> {
    ["name", "target_partition", "export_type", "to", "auth", "hostname", "port"]
  }

  function ImportFields(): seq<string> {
    ["from", "export_name", "alias"]
  }

  function PartitionFields(): seq<string> {
    ["id", "name", "produces", "imports", "exports", "inputs", "declared_outputs", "backend"]
  }

  function NetworkFields(): seq<string> {
    ["vpc_cidr", "subnets"]
  }

  function DnsFields(): seq<string> {
    ["zone"]
  }

  function EnclaveFields(): seq<string> {
    ["id", "name", "cloud", "region", "identity", "network", "dns", "imports", "exports", "partitions"]
  }

  function TerraformJson(c: TerraformConfig): Json {
    Record(TerraformFields(), [Opt(c.tool, Text), Opt(c.source, Text), JStr(c.dir)])
  }

  function BackendJson(b: PartitionBackend): Json {
    match b
    case Terraform(c) => JObj([Field("Terraform", TerraformJson(c))])
    case OpenTofu(c) => JObj([Field("OpenTofu", TerraformJson(c))])
  }

  function ExportVals(e: Export): seq<Json> {
    [JStr(e.name), JStr(e.targetPartition), ExportTypeJson(e.exportType), TargetJson(e.to), AuthJson(e.auth),
     Opt(e.hostname, Text), Opt(e.port, Number)]
  }

  function ExportJson(e: Export): Json {
    Record(ExportFields(), ExportVals(e))
  }

  function ImportJson(i: Import): Json {
    Record(ImportFields(), [JStr(i.from), JStr(i.exportName), JStr(i.alias)])
  }

  function PartitionHead(p: Partition): seq<Json> {
    [JStr(p.id), JStr(p.name), Opt(p.produces, ProducesJson), Each(p.imports, ImportJson)]
  }

  function PartitionTail(p: Partition, order: seq<string>): seq<Json>
    requires Lists(order, p.inputs.Keys)
  {
    ListedKeys(order, p.inputs.Keys);
    [Each(p.exports, ExportJson), MapJson(p.inputs, order), Each(p.declaredOutputs, Text), BackendJson(p.backend)]
  }

  function PartitionVals(p: Partition, order: seq<string>): seq<Json>
    requires Lists(order, p.inputs.Keys)
  {
    PartitionHead(p) + PartitionTail(p, order)
  }

  /** A partition whose inputs were visited in the given order. */
  function PartitionJson(p: Partition, order: seq<string>): Json
    requires Lists(order, p.inputs.Keys)
  {
    Record(PartitionFields(), PartitionVals(p, order))
  }

  function NetworkJson(n: NetworkConfig): Json {
    Record(NetworkFields(), [Opt(n.vpcCidr, Text), Each(n.subnets, Text)])
  }

  function DnsJson(d: DnsConfig): Json {
    Record(DnsFields(), [Opt(d.zone, Text)])
  }

  /** One visiting order for the inputs of each partition. */
  ghost predicate Orders(parts: seq<Partition>, orders: seq<seq<string>>) {
    |orders| == |parts| && forall i :: 0 <= i < |parts| ==> Lists(orders[i], parts[i].inputs.Keys)
  }

  ghost function PartitionsJson(parts: seq<Partition>, orders: seq<seq<string>>): Json
    requires Orders(parts, orders)
  {
    JArr(seq(|parts|, i requires 0 <= i < |parts| => PartitionJson(parts[i], orders[i])))
  }

  function EnclaveHead(e: Enclave): seq<Json> {
    [JStr(e.id), JStr(e.name), Opt(e.cloud, CloudJson), JStr(e.region), Opt(e.identity, Text)]
  }

  ghost function EnclaveTail(e: Enclave, orders: seq<seq<string>>): seq<Json>
    requires Orders(e.partitions, orders)
  {
    [Opt(e.network, NetworkJson), Opt(e.dns, DnsJson), Each(e.imports, ImportJson), Each(e.exports, ExportJson),
     PartitionsJson(e.partitions, orders)]
  }

  ghost function EnclaveVals(e: Enclave, orders: seq<seq<string>>): seq<Json>
    requires Orders(e.partitions, orders)
  {
    EnclaveHead(e) + EnclaveTail(e, orders)
  }

  ghost function EnclaveJson(e: Enclave, orders: seq<seq<string>>): Json
    requires Orders(e.partitions, orders)
  {
    Record(EnclaveFields(), EnclaveVals(e, orders))
  }

  lemma {:induction false} ListedKeys(order: seq<string>, keys: set<string>)
    requires Lists(order, keys)
    ensures forall i :: 0 <= i < |order| ==> order[i] in keys
  {
    forall i | 0 <= i < |order| ensures order[i] in keys {
      assert order[i] in order;
    }
  }

  // ----- serialised forms are equivalent exactly when the values are equal -----

  /** A form is faithful for two values: both well formed, and equivalent only if they are equal. */
  ghost predicate Tells(a: Json, b: Json, same: bool) {
    WellFormed(a) && WellFormed(b) && (Equiv(a, b) <==> same)
  }

  lemma {:induction false} LeafTells(a: Json, b: Json)
    requires !a.JArr? && !a.JObj? && !b.JArr? && !b.JObj?
    ensures Tells(a, b, a == b)
  {
  }

  ghost predicate Names(names: seq<string>) {
    forall i, j :: 0 <= i < j < |names| ==> names[i] != names[j]
  }

  lemma {:induction false} RecordTells(names: seq<string>, xs: seq<Json>, ys: seq<Json>, same: seq<bool>)
    requires |names| == |xs| == |ys| == |same| && Names(names)
    requires forall i :: 0 <= i < |names| ==> Tells(xs[i], ys[i], same[i])
    ensures Tells(Record(names, xs), Record(names, ys), forall i :: 0 <= i < |same| ==> same[i])
  {
    hide Lookup, Names, DistinctKeys;
    var a, b := Record(names, xs), Record(names, ys);
    RecordLookup(names, xs);
    RecordLookup(names, ys);
    forall i | 0 <= i < |names| ensures WellFormed(a.fields[i].val) && WellFormed(b.fields[i].val) {
      assert Tells(xs[i], ys[i], same[i]);
    }
    if Equiv(a, b) {
      forall i | 0 <= i < |names| ensures same[i] {
        assert Equiv(a.fields[i].val, Lookup(b.fields, a.fields[i].key).value);
      }
    }
  }

  lemma {:induction false} RecordLookup(names: seq<string>, vals: seq<Json>)
    requires |names| == |vals| && Names(names)
    ensures var r := Record(names, vals);
            && DistinctKeys(r.fields)
            && forall i :: 0 <= i < |names| ==> Lookup(r.fields, names[i]) == Some(vals[i])
  {
    var r := Record(names, vals);
    forall i | 0 <= i < |names| ensures Lookup(r.fields, names[i]) == Some(vals[i]) {
      LookupAt(r.fields, i);
    }
  }

  lemma {:induction false} OptTells<T(!new)>(x: Option<T>, y: Option<T>, json: T -> Json)
    requires forall a, b :: Tells(json(a), json(b), a == b)
    requires forall a :: !json(a).JNull?
    ensures Tells(Opt(x, json), Opt(y, json), x == y)
  {
    if x.Some? && y.Some? {
      assert Tells(json(x.value), json(y.value), x.value == y.value);
    }
    if x.Some? {
      assert Tells(json(x.value), json(x.value), true);
    }
    if y.Some? {
      assert Tells(json(y.value), json(y.value), true);
    }
  }

  lemma {:induction false} EachTells<T(!new)>(xs: seq<T>, ys: seq<T>, json: T -> Json)
    requires forall a, b :: Tells(json(a), json(b), a == b)
    ensures Tells(Each(xs, json), Each(ys, json), xs == ys)
  {
    var a, b := Each(xs, json), Each(ys, json);
    forall i | 0 <= i < |xs| ensures WellFormed(a.items[i]) {
      assert Tells(json(xs[i]), json(xs[i]), true);
    }
    forall i | 0 <= i < |ys| ensures WellFormed(b.items[i]) {
      assert Tells(json(ys[i]), json(ys[i]), true);
    }
    if |xs| == |ys| {
      forall i | 0 <= i < |xs| ensures Equiv(a.items[i], b.items[i]) <==> xs[i] == ys[i] {
        assert Tells(json(xs[i]), json(ys[i]), xs[i] == ys[i]);
      }
    }
  }

  lemma {:induction false} VariantTells(tag: string, other: string, a: Json, b: Json, same: bool)
    requires Tells(a, b, same)
    ensures Tells(JObj([Field(tag, a)]), JObj([Field(other, b)]), tag == other && same)
  {
    var x, y := JObj([Field(tag, a)]), JObj([Field(other, b)]);
    assert Lookup(y.fields, tag) == if other == tag then Some(b) else Lookup([], tag);
    assert x.fields[0].val == a && y.fields[0].val == b;
  }

  lemma {:induction false} DecimalInjective(m: nat, n: nat)
    ensures Decimal(m) == Decimal(n) ==> m == n
    decreases m
  {
    if Decimal(m) == Decimal(n) {
      DecimalLast(m);
      DecimalLast(n);
      DigitInjective(m % 10, n % 10);
      if m >= 10 && n >= 10 {
        assert Decimal(m / 10) == Decimal(m)[..|Decimal(m)| - 1] == Decimal(n)[..|Decimal(n)| - 1] == Decimal(n / 10);
        DecimalInjective(m / 10, n / 10);
      }
    }
  }

  lemma {:induction false} DecimalLast(n: nat)
    ensures Decimal(n) != [] && Decimal(n)[|Decimal(n)| - 1] == Digit(n % 10)
    ensures |Decimal(n)| == 1 <==> n < 10
  {
    if n >= 10 {
      DecimalLast(n / 10);
    }
  }

  lemma {:induction false} DigitInjective(m: nat, n: nat)
    requires m < 10 && n < 10
    ensures Digit(m) == Digit(n) ==> m == n
  {
    var s := "0123456789";
    assert s[0] == '0' && s[1] == '1' && s[2] == '2' && s[3] == '3' && s[4] == '4';
    assert s[5] == '5' && s[6] == '6' && s[7] == '7' && s[8] == '8' && s[9] == '9';
  }

  lemma {:induction false} NumberTells(m: nat, n: nat)
    ensures Tells(Number(m), Number(n), m == n)
  {
    DecimalInjective(m, n);
  }

  lemma {:induction false} FieldNames()
    ensures Names(TerraformFields()) && |TerraformFields()| == 3
    ensures Names(ImportFields()) && |ImportFields()| == 3
    ensures Names(NetworkFields()) && |NetworkFields()| == 2
    ensures Names(DnsFields()) && |DnsFields()| == 1
  {
  }

  lemma {:induction false} ExportFieldNames()
    ensures Names(ExportFields()) && |ExportFields()| == 7
  {
  }

  lemma {:induction false} PartitionFieldNames()
    ensures Names(PartitionFields()) && |PartitionFields()| == 8
  {
  }

  lemma {:induction false} EnclaveFieldNames()
    ensures Names(EnclaveFields()) && |EnclaveFields()| == 10
  {
  }

  lemma {:induction false} EnumsTell()
    ensures forall a, b :: Tells(CloudJson(a), CloudJson(b), a == b)
    ensures forall a, b :: Tells(ProducesJson(a), ProducesJson(b), a == b)
    ensures forall a, b :: Tells(ExportTypeJson(a), ExportTypeJson(b), a == b)
    ensures forall a, b :: Tells(AuthJson(a), AuthJson(b), a == b)
  {
    assert "local"[0] == 'l' && "gcp"[0] == 'g' && "azure"[1] == 'z' && "aws"[1] == 'w' && "azure"[0] == 'a';
    assert "http"[0] == 'h' && "tcp"[0] == 't' && "queue"[0] == 'q';
    assert |"none"| == 4 && |"token"| == 5 && "token"[0] == 't' && "oauth"[0] == 'o' && "mtls"[0] == 'm'
        && |"native"| == 6;
  }

  lemma {:induction false} TextTells(a: string, b: string)
    ensures Tells(Text(a), Text(b), a == b)
  {
  }

  lemma {:induction false} TargetTells(a: ExportTarget, b: ExportTarget)
    ensures Tells(TargetJson(a), TargetJson(b), a == b)
  {
    assert "public"[0] == 'p' && "any_enclave"[0] == 'a' && "vpn"[0] == 'v';
    assert "enclave"[0] == 'e' && "partition"[0] == 'p';
    if (a.OnlyEnclave? || a.OnlyPartition?) && (b.OnlyEnclave? || b.OnlyPartition?) {
      var x, y := TargetJson(a).fields[0], TargetJson(b).fields[0];
      LeafTells(x.val, y.val);
      VariantTells(x.key, y.key, x.val, y.val, x.val == y.val);
    } else if a.OnlyEnclave? || a.OnlyPartition? {
      var x := TargetJson(a).fields[0];
      LeafTells(x.val, x.val);
      VariantTells(x.key, x.key, x.val, x.val, true);
    } else if b.OnlyEnclave? || b.OnlyPartition? {
      var y := TargetJson(b).fields[0];
      LeafTells(y.val, y.val);
      VariantTells(y.key, y.key, y.val, y.val, true);
    }
  }

  lemma {:induction false} OptTextTells(a: Option<string>, b: Option<string>)
    ensures Tells(Opt(a, Text), Opt(b, Text), a == b)
  {
    forall x, y ensures Tells(Text(x), Text(y), x == y) {
      TextTells(x, y);
    }
    OptTells(a, b, Text);
  }

  lemma {:induction false} EachTextTells(a: seq<string>, b: seq<string>)
    ensures Tells(Each(a, Text), Each(b, Text), a == b)
  {
    forall x, y ensures Tells(Text(x), Text(y), x == y) {
      TextTells(x, y);
    }
    EachTells(a, b, Text);
  }

  lemma {:induction false} TerraformTells(a: TerraformConfig, b: TerraformConfig)
    ensures Tells(TerraformJson(a), TerraformJson(b), a == b)
  {
    hide Tells, Opt;
    FieldNames();
    OptTextTells(a.tool, b.tool);
    OptTextTells(a.source, b.source);
    TextTells(a.dir, b.dir);
    var same := [a.tool == b.tool, a.source == b.source, a.dir == b.dir];
    RecordTells(TerraformFields(), [Opt(a.tool, Text), Opt(a.source, Text), JStr(a.dir)],
                [Opt(b.tool, Text), Opt(b.source, Text), JStr(b.dir)], same);
    assert (forall i :: 0 <= i < |same| ==> same[i]) <==> same[0] && same[1] && same[2];
  }

  lemma {:induction false} BackendTells(a: PartitionBackend, b: PartitionBackend)
    ensures Tells(BackendJson(a), BackendJson(b), a == b)
  {
    hide Tells, TerraformJson;
    assert "Terraform"[0] == 'T' && "OpenTofu"[0] == 'O';
    TerraformTells(a.config, b.config);
    var x, y := BackendJson(a).fields[0], BackendJson(b).fields[0];
    VariantTells(x.key, y.key, x.val, y.val, a.config == b.config);
  }

  lemma {:induction false} ImportTells(a: Import, b: Import)
    ensures Tells(ImportJson(a), ImportJson(b), a == b)
  {
    hide Tells;
    FieldNames();
    TextTells(a.from, b.from);
    TextTells(a.exportName, b.exportName);
    TextTells(a.alias, b.alias);
    var same := [a.from == b.from, a.exportName == b.exportName, a.alias == b.alias];
    RecordTells(ImportFields(), [JStr(a.from), JStr(a.exportName), JStr(a.alias)],
                [JStr(b.from), JStr(b.exportName), JStr(b.alias)], same);
    assert (forall i :: 0 <= i < |same| ==> same[i]) <==> same[0] && same[1] && same[2];
  }

  /** Position by position, the serialised fields tell the values apart. */
  ghost predicate AllTell(xs: seq<Json>, ys: seq<Json>, same: seq<bool>) {
    |xs| == |ys| == |same| && forall i :: 0 <= i < |same| ==> Tells(xs[i], ys[i], same[i])
  }

  lemma {:induction false} AllTellAppend(xs: seq<Json>, ys: seq<Json>, same: seq<bool>, us: seq<Json>, vs: seq<Json>,
                                         more: seq<bool>)
    requires AllTell(xs, ys, same) && AllTell(us, vs, more)
    ensures AllTell(xs + us, ys + vs, same + more)
  {
  }

  ghost predicate AllTrue(same: seq<bool>) {
    forall i :: 0 <= i < |same| ==> same[i]
  }

  ghost function ExportSame(a: Export, b: Export): seq<bool> {
    [a.name == b.name, a.targetPartition == b.targetPartition, a.exportType == b.exportType, a.to == b.to,
     a.auth == b.auth, a.hostname == b.hostname, a.port == b.port]
  }

  lemma {:induction false} ExportSameMeans(a: Export, b: Export)
    ensures AllTrue(ExportSame(a, b)) <==> a == b
  {
    var same := ExportSame(a, b);
    assert AllTrue(same) ==> same[0] && same[1] && same[2] && same[3] && same[4] && same[5] && same[6];
  }

  lemma {:induction false} ExportFieldsTell(a: Export, b: Export)
    ensures AllTell(ExportVals(a), ExportVals(b), ExportSame(a, b))
  {
    hide Tells, Opt, ExportTypeJson, TargetJson, AuthJson;
    EnumsTell();
    TextTells(a.name, b.name);
    TextTells(a.targetPartition, b.targetPartition);
    TargetTells(a.to, b.to);
    OptTextTells(a.hostname, b.hostname);
    forall x, y ensures Tells(Number(x), Number(y), x == y) {
      NumberTells(x, y);
    }
    OptTells(a.port, b.port, Number);
  }

  lemma {:induction false} ExportTells(a: Export, b: Export)
    ensures Tells(ExportJson(a), ExportJson(b), a == b)
  {
    hide Tells, ExportVals, ExportSame, ExportFields, Names;
    ExportFieldNames();
    ExportFieldsTell(a, b);
    ExportSameMeans(a, b);
    ExportArity(a, b);
    RecordTells(ExportFields(), ExportVals(a), ExportVals(b), ExportSame(a, b));
  }

  lemma {:induction false} ExportArity(a: Export, b: Export)
    ensures |ExportVals(a)| == |ExportVals(b)| == |ExportSame(a, b)| == 7
  {
  }

  lemma {:induction false} InputsTell(m: map<string, string>, n: map<string, string>, p: seq<string>, q: seq<string>)
    requires Lists(p, m.Keys) && Lists(q, n.Keys)
    ensures (forall i :: 0 <= i < |p| ==> p[i] in m) && (forall i :: 0 <= i < |q| ==> q[i] in n)
    ensures Tells(MapJson(m, p), MapJson(n, q), m == n)
  {
    ListedKeys(p, m.Keys);
    ListedKeys(q, n.Keys);
    MapJsonEquiv(m, n, p, q);
  }

  lemma {:induction false} EachImportTells(a: seq<Import>, b: seq<Import>)
    ensures Tells(Each(a, ImportJson), Each(b, ImportJson), a == b)
  {
    forall x, y ensures Tells(ImportJson(x), ImportJson(y), x == y) {
      ImportTells(x, y);
    }
    EachTells(a, b, ImportJson);
  }

  lemma {:induction false} EachExportTells(a: seq<Export>, b: seq<Export>)
    ensures Tells(Each(a, ExportJson), Each(b, ExportJson), a == b)
  {
    forall x, y ensures Tells(ExportJson(x), ExportJson(y), x == y) {
      ExportTells(x, y);
    }
    EachTells(a, b, ExportJson);
  }

  ghost function PartitionSame(a: Partition, b: Partition): seq<bool> {
    [a.id == b.id, a.name == b.name, a.produces == b.produces, a.imports == b.imports]
    + [a.exports == b.exports, a.inputs == b.inputs, a.declaredOutputs == b.declaredOutputs, a.backend == b.backend]
  }

  lemma {:induction false} PartitionSameMeans(a: Partition, b: Partition)
    ensures AllTrue(PartitionSame(a, b)) <==> a == b
  {
    var same := PartitionSame(a, b);
    assert AllTrue(same) ==> same[0] && same[1] && same[2] && same[3] && same[4] && same[5] && same[6] && same[7];
  }

  lemma {:induction false} OptProducesTells(a: Option<ProducesType>, b: Option<ProducesType>)
    ensures Tells(Opt(a, ProducesJson), Opt(b, ProducesJson), a == b)
  {
    EnumsTell();
    OptTells(a, b, ProducesJson);
  }

  lemma {:induction false} PartitionHeadTells(a: Partition, b: Partition)
    ensures AllTell(PartitionHead(a), PartitionHead(b),
                    [a.id == b.id, a.name == b.name, a.produces == b.produces, a.imports == b.imports])
  {
    hide Tells, Opt, Each;
    TextTells(a.id, b.id);
    TextTells(a.name, b.name);
    OptProducesTells(a.produces, b.produces);
    EachImportTells(a.imports, b.imports);
  }

  lemma {:induction false} PartitionTailTells(a: Partition, b: Partition, p: seq<string>, q: seq<string>)
    requires Lists(p, a.inputs.Keys) && Lists(q, b.inputs.Keys)
    ensures AllTell(PartitionTail(a, p), PartitionTail(b, q),
                    [a.exports == b.exports, a.inputs == b.inputs, a.declaredOutputs == b.declaredOutputs,
                     a.backend == b.backend])
  {
    hide Tells, Each, BackendJson, MapJson;
    EachExportTells(a.exports, b.exports);
    InputsTell(a.inputs, b.inputs, p, q);
    EachTextTells(a.declaredOutputs, b.declaredOutputs);
    BackendTells(a.backend, b.backend);
  }

  lemma {:induction false} PartitionFieldsTell(a: Partition, b: Partition, p: seq<string>, q: seq<string>)
    requires Lists(p, a.inputs.Keys) && Lists(q, b.inputs.Keys)
    ensures AllTell(PartitionVals(a, p), PartitionVals(b, q), PartitionSame(a, b))
  {
    hide AllTell, PartitionHead, PartitionTail;
    PartitionHeadTells(a, b);
    PartitionTailTells(a, b, p, q);
    AllTellAppend(PartitionHead(a), PartitionHead(b),
                  [a.id == b.id, a.name == b.name, a.produces == b.produces, a.imports == b.imports],
                  PartitionTail(a, p), PartitionTail(b, q),
                  [a.exports == b.exports, a.inputs == b.inputs, a.declaredOutputs == b.declaredOutputs,
                   a.backend == b.backend]);
  }

  lemma {:induction false} PartitionArity(a: Partition, b: Partition, p: seq<string>, q: seq<string>)
    requires Lists(p, a.inputs.Keys) && Lists(q, b.inputs.Keys)
    ensures |PartitionVals(a, p)| == |PartitionVals(b, q)| == |PartitionSame(a, b)| == 8
  {
  }

  /** The serialised form of a partition tells its value, whatever order its inputs were visited in. */
  lemma {:induction false} PartitionTells(a: Partition, b: Partition, p: seq<string>, q: seq<string>)
    requires Lists(p, a.inputs.Keys) && Lists(q, b.inputs.Keys)
    ensures Tells(PartitionJson(a, p), PartitionJson(b, q), a == b)
  {
    hide Tells, PartitionVals, PartitionSame, PartitionFields, Names;
    PartitionFieldNames();
    PartitionFieldsTell(a, b, p, q);
    PartitionSameMeans(a, b);
    PartitionArity(a, b, p, q);
    RecordTells(PartitionFields(), PartitionVals(a, p), PartitionVals(b, q), PartitionSame(a, b));
  }

  lemma {:induction false} PartitionsTell(a: seq<Partition>, b: seq<Partition>, p: seq<seq<string>>,
                                          q: seq<seq<string>>)
    requires Orders(a, p) && Orders(b, q)
    ensures Tells(PartitionsJson(a, p), PartitionsJson(b, q), a == b)
  {
    hide PartitionJson;
    var x, y := PartitionsJson(a, p), PartitionsJson(b, q);
    forall i | 0 <= i < |a| ensures WellFormed(x.items[i]) {
      PartitionTells(a[i], a[i], p[i], p[i]);
    }
    forall i | 0 <= i < |b| ensures WellFormed(y.items[i]) {
      PartitionTells(b[i], b[i], q[i], q[i]);
    }
    if |a| == |b| {
      forall i | 0 <= i < |a| ensures Equiv(x.items[i], y.items[i]) <==> a[i] == b[i] {
        PartitionTells(a[i], b[i], p[i], q[i]);
      }
    }
  }

  lemma {:induction false} NetworkTells(a: NetworkConfig, b: NetworkConfig)
    ensures Tells(NetworkJson(a), NetworkJson(b), a == b)
  {
    hide Tells, Opt, Each;
    FieldNames();
    OptTextTells(a.vpcCidr, b.vpcCidr);
    EachTextTells(a.subnets, b.subnets);
    var same := [a.vpcCidr == b.vpcCidr, a.subnets == b.subnets];
    RecordTells(NetworkFields(), [Opt(a.vpcCidr, Text), Each(a.subnets, Text)],
                [Opt(b.vpcCidr, Text), Each(b.subnets, Text)], same);
    assert (forall i :: 0 <= i < |same| ==> same[i]) <==> same[0] && same[1];
  }

  lemma {:induction false} DnsTells(a: DnsConfig, b: DnsConfig)
    ensures Tells(DnsJson(a), DnsJson(b), a == b)
  {
    hide Tells, Opt;
    FieldNames();
    OptTextTells(a.zone, b.zone);
    var same := [a.zone == b.zone];
    RecordTells(DnsFields(), [Opt(a.zone, Text)], [Opt(b.zone, Text)], same);
    assert (forall i :: 0 <= i < |same| ==> same[i]) <==> same[0];
  }

  /** The settings of an enclave other than its imports, exports and partitions. */
  lemma {:induction false} SettingsTell(a: Enclave, b: Enclave)
    ensures Tells(Opt(a.cloud, CloudJson), Opt(b.cloud, CloudJson), a.cloud == b.cloud)
    ensures Tells(Opt(a.network, NetworkJson), Opt(b.network, NetworkJson), a.network == b.network)
    ensures Tells(Opt(a.dns, DnsJson), Opt(b.dns, DnsJson), a.dns == b.dns)
  {
    hide Tells, Opt;
    EnumsTell();
    OptTells(a.cloud, b.cloud, CloudJson);
    forall x, y ensures Tells(NetworkJson(x), NetworkJson(y), x == y) {
      NetworkTells(x, y);
    }
    OptTells(a.network, b.network, NetworkJson);
    forall x, y ensures Tells(DnsJson(x), DnsJson(y), x == y) {
      DnsTells(x, y);
    }
    OptTells(a.dns, b.dns, DnsJson);
  }

  ghost function EnclaveSame(a: Enclave, b: Enclave): seq<bool> {
    [a.id == b.id, a.name == b.name, a.cloud == b.cloud, a.region == b.region, a.identity == b.identity]
    + [a.network == b.network, a.dns == b.dns, a.imports == b.imports, a.exports == b.exports,
       a.partitions == b.partitions]
  }

  lemma {:induction false} EnclaveSameMeans(a: Enclave, b: Enclave)
    ensures AllTrue(EnclaveSame(a, b)) <==> a == b
  {
    var same := EnclaveSame(a, b);
    assert AllTrue(same) ==> same[0] && same[1] && same[2] && same[3] && same[4];
    assert AllTrue(same) ==> same[5] && same[6] && same[7] && same[8] && same[9];
  }

  lemma {:induction false} EnclaveHeadTells(a: Enclave, b: Enclave)
    ensures AllTell(EnclaveHead(a), EnclaveHead(b),
                    [a.id == b.id, a.name == b.name, a.cloud == b.cloud, a.region == b.region,
                     a.identity == b.identity])
  {
    hide Tells, Opt;
    TextTells(a.id, b.id);
    TextTells(a.name, b.name);
    TextTells(a.region, b.region);
    OptTextTells(a.identity, b.identity);
    SettingsTell(a, b);
  }

  lemma {:induction false} EnclaveTailTells(a: Enclave, b: Enclave, p: seq<seq<string>>, q: seq<seq<string>>)
    requires Orders(a.partitions, p) && Orders(b.partitions, q)
    ensures AllTell(EnclaveTail(a, p), EnclaveTail(b, q),
                    [a.network == b.network, a.dns == b.dns, a.imports == b.imports, a.exports == b.exports,
                     a.partitions == b.partitions])
  {
    hide Tells, Opt, Each, PartitionsJson;
    SettingsTell(a, b);
    EachImportTells(a.imports, b.imports);
    EachExportTells(a.exports, b.exports);
    PartitionsTell(a.partitions, b.partitions, p, q);
  }

  lemma {:induction false} EnclaveFieldsTell(a: Enclave, b: Enclave, p: seq<seq<string>>, q: seq<seq<string>>)
    requires Orders(a.partitions, p) && Orders(b.partitions, q)
    ensures AllTell(EnclaveVals(a, p), EnclaveVals(b, q), EnclaveSame(a, b))
  {
    hide AllTell, EnclaveHead, EnclaveTail;
    EnclaveHeadTells(a, b);
    EnclaveTailTells(a, b, p, q);
    AllTellAppend(EnclaveHead(a), EnclaveHead(b),
                  [a.id == b.id, a.name == b.name, a.cloud == b.cloud, a.region == b.region, a.identity == b.identity],
                  EnclaveTail(a, p), EnclaveTail(b, q),
                  [a.network == b.network, a.dns == b.dns, a.imports == b.imports, a.exports == b.exports,
                   a.partitions == b.partitions]);
  }

  lemma {:induction false} EnclaveArity(a: Enclave, b: Enclave, p: seq<seq<string>>, q: seq<seq<string>>)
    requires Orders(a.partitions, p) && Orders(b.partitions, q)
    ensures |EnclaveVals(a, p)| == |EnclaveVals(b, q)| == |EnclaveSame(a, b)| == 10
  {
  }

  lemma {:induction false} EnclaveTells(a: Enclave, b: Enclave, p: seq<seq<string>>, q: seq<seq<string>>)
    requires Orders(a.partitions, p) && Orders(b.partitions, q)
    ensures Tells(EnclaveJson(a, p), EnclaveJson(b, q), a == b)
  {
    hide Tells, EnclaveVals, EnclaveSame, EnclaveFields, Names;
    EnclaveFieldNames();
    EnclaveFieldsTell(a, b, p, q);
    EnclaveSameMeans(a, b);
    EnclaveArity(a, b, p, q);
    RecordTells(EnclaveFields(), EnclaveVals(a, p), EnclaveVals(b, q), EnclaveSame(a, b));
  }

  // ----- the hash -----

  ghost predicate CollisionFree(digest: Json -> string) {
    forall x, y :: digest(x) == digest(y) ==> x == y
  }

  /** The hash of a partition does not see the order of its inputs, and, short of collisions, sees all the rest. */
  lemma {:induction false} PartitionHashSeesContentsOnly(digest: Json -> string, a: Partition, b: Partition,
                                                         p: seq<string>, q: seq<string>)
    requires Lists(p, a.inputs.Keys) && Lists(q, b.inputs.Keys)
    ensures a == b ==> DesiredHash(digest, PartitionJson(a, p)) == DesiredHash(digest, PartitionJson(b, q))
    ensures CollisionFree(digest) ==>
              (DesiredHash(digest, PartitionJson(a, p)) == DesiredHash(digest, PartitionJson(b, q)) ==> a == b)
  {
    hide PartitionJson;
    PartitionTells(a, b, p, q);
    CanonDecidesEquiv(PartitionJson(a, p), PartitionJson(b, q));
  }

  /** Nor does the hash of an enclave see the order in which the inputs of any of its partitions were visited. */
  lemma {:induction false} EnclaveHashSeesContentsOnly(digest: Json -> string, a: Enclave, b: Enclave,
                                                       p: seq<seq<string>>, q: seq<seq<string>>)
    requires Orders(a.partitions, p) && Orders(b.partitions, q)
    ensures a == b ==> DesiredHash(digest, EnclaveJson(a, p)) == DesiredHash(digest, EnclaveJson(b, q))
    ensures CollisionFree(digest) ==>
              (DesiredHash(digest, EnclaveJson(a, p)) == DesiredHash(digest, EnclaveJson(b, q)) ==> a == b)
  {
    hide EnclaveJson;
    EnclaveTells(a, b, p, q);
    CanonDecidesEquiv(EnclaveJson(a, p), EnclaveJson(b, q));
  }
}
