/** Payloads and results of the commands a gateway's agent executes. */
module GatewayJobs {
  import opened Options
  import opened Cidr
  import opened CommandQueue

  /** A scan is folded into the host table only when it was queued in monitor mode. */
  datatype Job =
    | ScanNetwork(monitor: bool, targets: seq<Block>)
    | VulnScan(ips: seq<string>)
    | InstallModule(name: string)
    | OtherJob

  datatype RawPort = Number(value: nat) | NotANumber

  datatype RawHost = RawHost(ip: string, hostname: string, mac: string, ports: seq<RawPort>)

  /** Source, severity, title and details of a finding, which nothing here looks into. */
  type Description = string

  datatype RawFinding = RawFinding(ip: string, id: string, about: Description)

  /** The parsed logs of a scan: hosts by subnet, and findings. */
  datatype Logs = Logs(subnets: seq<seq<RawHost>>, findings: seq<RawFinding>)

  /** None when the logs are absent or not valid JSON. */
  datatype Report = Report(logs: Option<Logs>)

  type Row = Command<Job, Report>
}
