/** The configuration a user writes (crates/nclav-domain/src/types.rs). */
module Domain {
  import opened Prelude

  type EnclaveId = string
  type PartitionId = string

  datatype CloudTarget = Local | Gcp | Azure | Aws

  datatype ExportType = HttpExport | TcpExport | QueueExport

  datatype AuthType = NoAuth | Token | Oauth | Mtls | Native

  datatype ExportTarget = Public | AnyEnclave | OnlyEnclave(id: EnclaveId) | Vpn | OnlyPartition(pid: PartitionId)

  datatype ProducesType = HttpService | TcpService | QueueService

  datatype TerraformConfig = TerraformConfig(tool: Option<string>, source: Option<string>, dir: string)

  datatype PartitionBackend = Terraform(config: TerraformConfig) | OpenTofu(config: TerraformConfig)

  datatype Export = Export(
    name: string, targetPartition: PartitionId, exportType: ExportType, to: ExportTarget,
    auth: AuthType, hostname: Option<string>, port: Option<nat>)

  datatype Import = Import(from: EnclaveId, exportName: string, alias: string)

  datatype Partition = Partition(
    id: PartitionId, name: string, produces: Option<ProducesType>, imports: seq<Import>,
    exports: seq<Export>, inputs: map<string, string>, declaredOutputs: seq<string>,
    backend: PartitionBackend)

  datatype NetworkConfig = NetworkConfig(vpcCidr: Option<string>, subnets: seq<string>)

  datatype DnsConfig = DnsConfig(zone: Option<string>)

  datatype Enclave = Enclave(
    id: EnclaveId, name: string, cloud: Option<CloudTarget>, region: string,
    identity: Option<string>, network: Option<NetworkConfig>, dns: Option<DnsConfig>,
    imports: seq<Import>, exports: seq<Export>, partitions: seq<Partition>)

  function RequiredOutputs(p: ProducesType): seq<string> {
    match p
    case HttpService => ["hostname", "port"]
    case TcpService => ["hostname", "port"]
    case QueueService => ["queue_url"]
  }

  function ProducedExportType(p: ProducesType): ExportType {
    match p
    case HttpService => HttpExport
    case TcpService => TcpExport
    case QueueService => QueueExport
  }

  ghost predicate DistinctIds(enclaves: seq<Enclave>) {
    forall i, j :: 0 <= i < j < |enclaves| ==> enclaves[i].id != enclaves[j].id
  }

  ghost predicate DistinctPartitionIds(parts: seq<Partition>) {
    forall i, j :: 0 <= i < j < |parts| ==> parts[i].id != parts[j].id
  }

  function IdSet(enclaves: seq<Enclave>): set<EnclaveId> {
    set e | e in enclaves :: e.id
  }
}
