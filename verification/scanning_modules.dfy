/**
 * The pluggable scan modules of src/scanning_modules.py.
 *
 * Every module has a name, a description and an enabled flag, and its `run`
 * appends exactly one line of text to the scan's finding list. The port scan
 * module first resolves the target's host and scans its ports; the DNS
 * lookups and the nmap scan are outside the model and are given as a `Lookup`
 * oracle, which says what each call answers or that it raises.
 */
module ScanningModules {
  import opened Wrappers
  import opened Text
  import opened Models

  // ---------------------------------------------------------------------
  // The summary lines

  const PortsPrefix := "Open ports: "
  const ServicesPrefix := "Running services: "
  const NoVulnerabilities := "No vulnerabilities found."
  const LinksPrefix := "Crawled links: "

  /** `map(str, ports)`. */
  function PortStrings(ports: seq<int>): (r: seq<string>)
    ensures |r| == |ports|
    ensures forall i :: 0 <= i < |ports| ==> r[i] == IntToString(ports[i])
  {
    seq(|ports|, i requires 0 <= i < |ports| => IntToString(ports[i]))
  }

  /** The port scan line: the ports in order, comma-separated. */
  function PortsMessage(ports: seq<int>): string {
    PortsPrefix + Join(PortStrings(ports), ListSeparator)
  }

  /** The service scan line: the protocols in order, comma-separated. */
  function ServicesMessage(protocols: seq<string>): string {
    ServicesPrefix + Join(protocols, ListSeparator)
  }

  /** The crawler line: the links in order, comma-separated. */
  function LinksMessage(links: seq<string>): string {
    LinksPrefix + Join(links, ListSeparator)
  }

  /** Reads every part as an integer, or fails on the first part that is not one. */
  function ParseAll(parts: seq<string>): Option<seq<int>>
    decreases |parts|
  {
    if |parts| == 0 then Some([])
    else match (ParseInt(parts[0]), ParseAll(parts[1..]))
      case (Some(p), Some(rest)) => Some([p] + rest)
      case _ => None
  }

  /** Reads the port list back out of a port scan line. */
  function ParsePortsMessage(line: string): Option<seq<int>> {
    if !StartsWith(line, PortsPrefix) then None
    else
      var rest := line[|PortsPrefix|..];
      if rest == "" then Some([]) else ParseAll(Split(rest, ListSeparator))
  }

  lemma {:induction false} ParseAllPortStrings(ports: seq<int>)
    ensures ParseAll(PortStrings(ports)) == Some(ports)
    decreases |ports|
  {
    if |ports| > 0 {
      ParseIntToString(ports[0]);
      assert PortStrings(ports)[1..] == PortStrings(ports[1..]);
      ParseAllPortStrings(ports[1..]);
      assert [ports[0]] + ports[1..] == ports;
    }
  }

  /** The port scan line names exactly the target's ports, in order: reading it back gives them. */
  lemma PortsMessageRoundTrip(ports: seq<int>)
    ensures ParsePortsMessage(PortsMessage(ports)) == Some(ports)
  {
    var parts := PortStrings(ports);
    var line := PortsMessage(ports);
    assert line[..|PortsPrefix|] == PortsPrefix;
    assert line[|PortsPrefix|..] == Join(parts, ListSeparator);
    if |ports| > 0 {
      JoinLength(parts, ListSeparator);
      SplitJoin(parts);
      ParseAllPortStrings(ports);
    }
  }

  /** With no protocols the service scan line is the bare prefix; otherwise it names each protocol in order. */
  lemma ServicesMessageRoundTrip(protocols: seq<string>)
    requires forall i :: 0 <= i < |protocols| ==> ',' !in protocols[i]
    ensures |protocols| == 0 ==> ServicesMessage(protocols) == "Running services: "
    ensures |protocols| > 0 ==> Split(ServicesMessage(protocols)[|ServicesPrefix|..], ListSeparator) == protocols
  {
    var line := ServicesMessage(protocols);
    assert line[|ServicesPrefix|..] == Join(protocols, ListSeparator);
    if |protocols| > 0 {
      SplitJoin(protocols);
    }
  }

  /** With no links the crawler line is the bare prefix; otherwise it names each link in order. */
  lemma LinksMessageRoundTrip(links: seq<string>)
    requires forall i :: 0 <= i < |links| ==> ',' !in links[i]
    ensures |links| == 0 ==> LinksMessage(links) == "Crawled links: "
    ensures |links| > 0 ==> Split(LinksMessage(links)[|LinksPrefix|..], ListSeparator) == links
  {
    var line := LinksMessage(links);
    assert line[|LinksPrefix|..] == Join(links, ListSeparator);
    if |links| > 0 {
      SplitJoin(links);
    }
  }

  // ---------------------------------------------------------------------
  // Host resolution and port discovery (`Target.resolve_host`, `Target.scan_ports`)

  /**
   * What the outside world answers for one target: `gethostbyname`, then
   * `gethostbyaddr`, then the nmap scan of ports 80 and 443. `None` is a call
   * that raises.
   */
  datatype Lookup = Lookup(address: Option<string>, names: Option<seq<string>>, scanned: Option<seq<int>>)

  /** Whether an operation returned or raised. */
  datatype Outcome = Finished | Raised

  /** The fields of a target the modules read or change. */
  datatype TargetView = TargetView(ipAddress: Option<string>, hosts: seq<string>, ports: seq<int>, protocols: seq<string>)

  function ViewOf(t: Target): TargetView
    reads t
  {
    TargetView(t.ipAddress, t.hosts, t.ports, t.protocols)
  }

  /**
   * `resolve_host` then `scan_ports`. Each step that returns updates the target;
   * the first that raises stops the rest, leaving what earlier steps set.
   */
  function Discover(v: TargetView, net: Lookup): (TargetView, Outcome) {
    match net.address
    case None => (v, Raised)
    case Some(ip) =>
      var named := v.(ipAddress := Some(ip));
      match net.names
      case None => (named, Raised)
      case Some(hosts) =>
        var resolved := named.(hosts := hosts, ports := [80, 443], protocols := ["http", "https"]);
        match net.scanned
        case None => (resolved, Raised)
        case Some(ports) => (resolved.(ports := ports), Finished)
  }

  /**
   * Discovery returns exactly when all three calls answer; then the target has
   * the resolved address and host names, the scanned ports and the two web
   * protocols. When the first lookup raises the target is left as it was.
   */
  lemma DiscoverOutcome(v: TargetView, net: Lookup)
    ensures Discover(v, net).1 == Finished <==> net.address.Some? && net.names.Some? && net.scanned.Some?
    ensures Discover(v, net).1 == Finished ==>
      Discover(v, net).0 == TargetView(net.address, net.names.value, net.scanned.value, ["http", "https"])
    ensures net.address.None? ==> Discover(v, net).0 == v
  {
  }

  /** Runs `resolve_host` and `scan_ports` on `target`. */
  method Discovery(target: Target, net: Lookup) returns (outcome: Outcome)
    modifies target`ipAddress, target`hosts, target`ports, target`protocols
    ensures (ViewOf(target), outcome) == Discover(old(ViewOf(target)), net)
  {
    if net.address.None? {
      return Raised;
    }
    target.ipAddress := net.address;
    if net.names.None? {
      return Raised;
    }
    target.hosts := net.names.value;
    target.ports := [80, 443];
    target.protocols := ["http", "https"];
    if net.scanned.None? {
      return Raised;
    }
    target.ports := net.scanned.value;
    outcome := Finished;
  }

  /**
   * `tcp_connect_scan`: discovers the target and returns its ports, the ones
   * the nmap scan found; `None` when a lookup or the scan raises.
   */
  method TcpConnectScan(target: Target, net: Lookup) returns (ports: Option<seq<int>>)
    modifies target`ipAddress, target`hosts, target`ports, target`protocols
    ensures ViewOf(target) == Discover(old(ViewOf(target)), net).0
    ensures ports.Some? <==> net.address.Some? && net.names.Some? && net.scanned.Some?
    ensures ports.Some? ==> ports.value == net.scanned.value
  {
    var outcome := Discovery(target, net);
    DiscoverOutcome(old(ViewOf(target)), net);
    if outcome == Raised {
      return None;
    }
    ports := Some(target.ports);
  }

  /** `identify_services`: the target's protocols, as they are. */
  method IdentifyServices(target: Target) returns (services: seq<string>)
    ensures services == target.protocols
  {
    services := target.protocols;
  }

  // ---------------------------------------------------------------------
  // The modules

  datatype Kind = Ports | Services | Vulnerabilities | Crawler

  /** The line a module of `kind` appends, given the target once the module has worked on it. */
  function SummaryLine(kind: Kind, target: TargetView, links: seq<string>): string {
    match kind
    case Ports => PortsMessage(target.ports)
    case Services => ServicesMessage(target.protocols)
    case Vulnerabilities => NoVulnerabilities
    case Crawler => LinksMessage(links)
  }

  /** What a module of `kind` does to the target before it appends its line. */
  function Prepare(kind: Kind, v: TargetView, net: Lookup): (TargetView, Outcome) {
    if kind == Ports then Discover(v, net) else (v, Finished)
  }

  /** Only the port scan module touches the target, and only it can fail. */
  lemma PrepareOnlyPorts(kind: Kind, v: TargetView, net: Lookup)
    ensures kind != Ports ==> Prepare(kind, v, net) == (v, Finished)
    ensures Prepare(kind, v, net).1 == Raised <==>
      kind == Ports && !(net.address.Some? && net.names.Some? && net.scanned.Some?)
  {
    DiscoverOutcome(v, net);
  }

  /**
   * What `run` of a module of `kind` leaves behind: the target once prepared,
   * whether it returned, and the scan's findings.
   */
  function RunEffect(kind: Kind, v: TargetView, net: Lookup, links: seq<string>, findings: seq<Finding>)
    : (TargetView, Outcome, seq<Finding>)
  {
    var (after, outcome) := Prepare(kind, v, net);
    (after, outcome, if outcome == Finished then findings + [Summary(SummaryLine(kind, after, links))] else findings)
  }

  /**
   * A run keeps the findings already in the scan; one that returns adds exactly
   * one more, its module's summary of the prepared target, and one that raises
   * adds none. Only the port scan module changes the target or raises, and it
   * raises exactly when one of its lookups does.
   */
  lemma RunAppendsOneLine(kind: Kind, v: TargetView, net: Lookup, links: seq<string>, findings: seq<Finding>)
    ensures var (after, outcome, found) := RunEffect(kind, v, net, links, findings);
      && |found| == |findings| + (if outcome == Finished then 1 else 0)
      && found[..|findings|] == findings
      && (outcome == Finished ==> found[|findings|] == Summary(SummaryLine(kind, after, links)))
      && (kind != Ports ==> after == v && outcome == Finished)
      && (outcome == Raised <==> kind == Ports && !(net.address.Some? && net.names.Some? && net.scanned.Some?))
  {
    PrepareOnlyPorts(kind, v, net);
  }

  /**
   * The web crawler as written: `run` reads `target.links`, an attribute no
   * target has, so it raises before appending anything.
   */
  function CrawlAsWritten(findings: seq<Finding>): (Outcome, seq<Finding>) {
    (Raised, findings)
  }

  /**
   * As written the crawler raises and its line is lost; as intended it
   * returns and appends one line listing the crawled links.
   */
  lemma CrawlAsWrittenLosesLine(v: TargetView, net: Lookup, links: seq<string>, findings: seq<Finding>)
    ensures CrawlAsWritten(findings).0 == Raised && CrawlAsWritten(findings).1 == findings
    ensures RunEffect(Crawler, v, net, links, findings).1 == Finished
    ensures RunEffect(Crawler, v, net, links, findings).2 == CrawlAsWritten(findings).1 + [Summary(LinksMessage(links))]
  {
  }

  class Module {
    const kind: Kind
    var name: string
    var description: string
    var enabled: bool

    /** `PortScan()`. */
    constructor PortScan()
      ensures kind == Ports && name == "Port Scan" && description == "Scans the target for open ports." && enabled
    {
      kind := Ports;
      name := "Port Scan";
      description := "";
      enabled := true;
      new;
      description := "Scans the target for open ports.";
      enabled := true;
    }

    /** `ServiceScanner()`. */
    constructor ServiceScanner()
      ensures kind == Services && name == "Service Scanner"
      ensures description == "Scans the target for running services." && enabled
    {
      kind := Services;
      name := "Service Scanner";
      description := "";
      enabled := true;
      new;
      description := "Scans the target for running services.";
      enabled := true;
    }

    /** `VulnerabilityScanner(name)`: the name given replaces the one the base class set. */
    constructor VulnerabilityScanner(name: string)
      ensures kind == Vulnerabilities && this.name == name
      ensures description == "Scans the target for vulnerabilities." && enabled
    {
      kind := Vulnerabilities;
      this.name := "Vulnerability Scanner";
      description := "";
      enabled := true;
      new;
      this.name := name;
      description := "Scans the target for vulnerabilities.";
      enabled := true;
    }

    /** `WebCrawler()`. */
    constructor WebCrawler()
      ensures kind == Crawler && name == "Web Crawler" && description == "Crawls the target website for links." && enabled
    {
      kind := Crawler;
      name := "Web Crawler";
      description := "";
      enabled := true;
      new;
      description := "Crawls the target website for links.";
      enabled := true;
    }

    /**
     * `run`: prepares the target (the port scan module discovers it), then
     * appends this module's one line to the scan's findings. When discovery
     * raises, nothing is appended. The crawler's `links` are the links it
     * crawled.
     */
    method Run(target: Target, scan: Scan, net: Lookup, links: seq<string>) returns (outcome: Outcome)
      modifies target`ipAddress, target`hosts, target`ports, target`protocols, scan`vulnerabilities
      ensures (ViewOf(target), outcome, scan.vulnerabilities)
           == RunEffect(kind, old(ViewOf(target)), net, links, old(scan.vulnerabilities))
    {
      match kind
      case Ports =>
        outcome := Discovery(target, net);
        if outcome == Finished {
          scan.vulnerabilities := scan.vulnerabilities + [Summary(PortsMessage(target.ports))];
        }
      case Services =>
        scan.vulnerabilities := scan.vulnerabilities + [Summary(ServicesMessage(target.protocols))];
        outcome := Finished;
      case Vulnerabilities =>
        scan.vulnerabilities := scan.vulnerabilities + [Summary(NoVulnerabilities)];
        outcome := Finished;
      case Crawler =>
        scan.vulnerabilities := scan.vulnerabilities + [Summary(LinksMessage(links))];
        outcome := Finished;
    }
  }
}
