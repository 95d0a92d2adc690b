/**
 * The data model of models/models.py: the records a scan produces and the two
 * objects the core changes in place, `Scan` (its lifecycle and its finding list)
 * and `Logger` (an append-only log).
 *
 * `datetime.now()` is not modelled: every operation that reads the clock takes
 * the reading as a `Timestamp` parameter.
 */
module Models {
  import opened Wrappers

  /** A reading of the wall clock. */
  type Timestamp = int

  /** A JSON-like dictionary of free-form context, keys and values as text. */
  type Context = map<string, string>

  /** The scanned thing. `parsed_url` (urlparse of `url`) is not kept: it is foreign parsing. */
  class Target {
    var url: string
    var ipAddress: Option<string>
    var hosts: seq<string>
    var ports: seq<int>
    var protocols: seq<string>

    /** A new target knows only its URL: no address, hosts, ports or protocols yet. */
    constructor (url: string)
      ensures this.url == url
      ensures ipAddress == None && hosts == [] && ports == [] && protocols == []
    {
      this.url := url;
      ipAddress := None;
      hosts := [];
      ports := [];
      protocols := [];
    }
  }

  datatype Vulnerability = Vulnerability(
    vulnId: int,
    name: string,
    description: string,
    severity: string,
    affectedComponent: string,
    evidence: string,
    remediation: Option<string>,
    scan: Option<Scan>)

  /** `Vulnerability(...)` with only the required fields given. */
  function NewVulnerability(vulnId: int, name: string, description: string, severity: string,
                            affectedComponent: string, evidence: string): (v: Vulnerability)
    ensures v.remediation == None && v.scan == None
    ensures v.vulnId == vulnId && v.name == name && v.description == description
    ensures v.severity == severity && v.affectedComponent == affectedComponent && v.evidence == evidence
  {
    Vulnerability(vulnId, name, description, severity, affectedComponent, evidence, None, None)
  }

  datatype Payload = Payload(
    payloadId: int,
    content: string,
    encoding: Option<string>,
    description: Option<string>,
    scan: Option<Scan>)

  /** `Payload(payload_id, content)`. */
  function NewPayload(payloadId: int, content: string): (p: Payload)
    ensures p.encoding == None && p.description == None && p.scan == None
    ensures p.payloadId == payloadId && p.content == content
  {
    Payload(payloadId, content, None, None, None)
  }

  /**
   * One entry of a scan's `vulnerabilities` list. The Python list is untyped:
   * the port scanner appends `Vulnerability` records and the scanning modules
   * append plain summary strings.
   */
  datatype Finding = Record(vulnerability: Vulnerability) | Summary(text: string)

  const InProgress := "In Progress"
  const Completed := "Completed"

  class Scan {
    var target: Target
    var scanType: string
    var startTime: Timestamp
    var endTime: Option<Timestamp>
    var status: string
    var vulnerabilities: seq<Finding>
    var payloadsUsed: seq<Payload>

    /** A new scan is in progress, has no end time and has recorded nothing. */
    constructor (target: Target, scanType: string, startTime: Timestamp)
      ensures this.target == target && this.scanType == scanType && this.startTime == startTime
      ensures endTime == None && status == InProgress
      ensures vulnerabilities == [] && payloadsUsed == []
    {
      this.target := target;
      this.scanType := scanType;
      this.startTime := startTime;
      endTime := None;
      status := InProgress;
      vulnerabilities := [];
      payloadsUsed := [];
    }

    /**
     * Marks the scan finished at `now`. The new status and end time do not
     * depend on the old ones, so completing twice leaves the status "Completed".
     */
    method CompleteScan(now: Timestamp)
      modifies this`endTime, this`status
      ensures status == Completed && endTime == Some(now)
    {
      endTime := Some(now);
      status := Completed;
    }
  }

  /** The defaults of the scan-wide settings record. */
  datatype Configuration = Configuration(
    maxThreads: int,
    timeout: int,
    userAgent: string,
    proxies: Option<Context>,
    verifySsl: bool)

  function DefaultConfiguration(): (c: Configuration)
    ensures c.maxThreads == 10 && c.timeout == 5 && c.userAgent == "PenTestTool/1.0"
    ensures c.proxies == None && c.verifySsl
  {
    Configuration(10, 5, "PenTestTool/1.0", None, true)
  }

  datatype LogEntry = LogEntry(timestamp: Timestamp, level: string, message: string, context: Option<Context>)

  class Logger {
    var logs: seq<LogEntry>

    constructor ()
      ensures logs == []
    {
      logs := [];
    }

    /** Appends one entry stamped `now`; every earlier entry stays as it was. */
    method Log(level: string, message: string, context: Option<Context>, now: Timestamp)
      modifies this
      ensures logs == old(logs) + [LogEntry(now, level, message, context)]
      ensures |logs| == |old(logs)| + 1 && logs[..|old(logs)|] == old(logs)
    {
      logs := logs + [LogEntry(now, level, message, context)];
    }
  }
}
