# automatic_bug_hunter, modelled in Dafny

This project models the core of automatic_bug_hunter, a penetration-testing
helper written in Python, and proves properties of the model. The core is:

- the data model of a scan (`models/models.py`): targets, scans with their
  lifecycle, findings, payloads, the scan-wide settings record and the
  append-only logger;
- the wave-batched TCP connect port scanner (`tests/test_portscanner.py`):
  ports 1..1024 are probed, and the probe threads run in waves of at most
  max(1, `max_threads`);
- the application settings object with its JSON load and save
  (`src/configuration.py`);
- the pluggable scan modules and the module-level scan helpers
  (`src/scanning_modules.py`);
- the HackerOne scope filter (`src/domain_selection.py`);
- the platform detection, package lists and installation check of the setup
  script (`scripts/setup_dependencies.py`);
- the reflected-XSS crawler (`tools/xss/xss_test.py`).

Each source file is one Dafny module: `Models`, `PortScanning`,
`AppConfiguration`, `ScanningModules`, `DomainSelection`, `SetupDependencies`
and `XssTest`. Two helper modules hold shared definitions. `Wrappers` holds
`Option` and `Result`. `Text` holds `str.join`, `str.split`, `str(int)` and
`int` restricted to an optional `-` followed by digits, ASCII `lower()`, and `sub in s`.

Objects whose fields the Python code updates in place are classes. These are
`Target`, `Scan`, `Logger`, `PortScanner`, `Configuration` and `Module`.
Loops are methods proved against functions that specify them. Everything
outside the program is a parameter of the model:

- the socket is a connect oracle;
- DNS and nmap are a `Lookup`;
- HTTP and HTML are a `Web`;
- `urljoin`/`urlparse` are a `Urls`;
- `platform`, `shutil.which` and the clock are plain values.

Three facts about the code shape the model:

- a new scan starts as "In Progress" (models/models.py:37); there is no
  pending state;
- the port scanner's `run` always probes 1..1024 (tests/test_portscanner.py:25)
  and checks no range;
- the web crawler's links are not a field of the target (see Findings).

## Model

| member | source | states |
|---|---|---|
| Models.Target.constructor | models/models.py:18-25 | a new target has only its URL: no address, hosts, ports or protocols |
| Models.NewVulnerability | models/models.py:46-55 | the required fields are as given; remediation and scan default to none |
| Models.NewPayload | models/models.py:58-64 | the payload id and content are as given; encoding, description and scan default to none |
| Models.Scan.constructor | models/models.py:31-39 | a new scan is "In Progress", has no end time and has no findings or payloads |
| Models.Scan.CompleteScan | models/models.py:41-43 | afterwards the status is "Completed" and the end time is the clock reading, whatever they were before |
| Models.DefaultConfiguration | models/models.py:117-123 | defaults: 10 threads, 5 s timeout, user agent "PenTestTool/1.0", no proxies, TLS checks on |
| Models.Logger.constructor | models/models.py:133-135 | a new logger holds no entries |
| Models.Logger.Log | models/models.py:137-139 | exactly one entry, stamped with the clock reading, is appended; earlier entries are unchanged |
| Text.ParseIntToString | src/scanning_modules.py:25 | `int(str(i)) == i` for every integer, negative ones included |
| Text.SplitJoin | src/scanning_modules.py:25 | splitting a ", "-joined list of comma-free parts gives the parts back |
| Text.ContainsWithin | tools/xss/xss_test.py:59 | a string holding `sub` verbatim anywhere satisfies `sub in s` |
| Text.ContainsOccurs | tools/xss/xss_test.py:59 | conversely, a string that satisfies `sub in s` is some text, then `sub`, then more text |
| Text.ContainsExactly | tools/xss/xss_test.py:59 | `sub in s` holds iff `sub` occurs verbatim in `s` |
| Text.MissingCharNotContained | scripts/setup_dependencies.py:30-32 | a string lacking one of the characters of `sub` does not contain `sub` |
| PortScanning.Range | tests/test_portscanner.py:27 | `range(lo, hi)` has `hi - lo` elements, or none when `hi <= lo` |
| PortScanning.RangeElements | tests/test_portscanner.py:25-27 | the ports probed are lo, lo+1, ..., hi-1: strictly ascending, each once, exactly those in [lo, hi) |
| PortScanning.OpenPortsAmongExact | tests/test_portscanner.py:44-46 | on a target with an address, a port is recorded open iff it was probed and `connect_ex` returned 0 |
| PortScanning.OpenPortsAmongAscending | tests/test_portscanner.py:27-46 | probing in ascending order records the open ports in ascending order, without duplicates |
| PortScanning.OpenPortFindings | tests/test_portscanner.py:45-54 | one finding per open port |
| PortScanning.OpenPortFindingIds | tests/test_portscanner.py:47-54 | the k-th finding is the "Open Port"/"Low" record for the k-th open port with id base+k+1, so ids are distinct |
| PortScanning.DispatchAllWaves | tests/test_portscanner.py:27-34 | during the loop, the joined waves and the current wave list the ports so far in order; joined waves are full, the current one is not |
| PortScanning.RunWavesCover | tests/test_portscanner.py:27-37 | the waves, in join order, hold every port once and in order, the final partial wave included |
| PortScanning.RunWavesSizes | tests/test_portscanner.py:31-37 | each wave is non-empty and holds at most max(1, max_threads) probes; all but the last are full |
| PortScanning.ProbeAllRecords | tests/test_portscanner.py:41-55 | probing a port list appends its open ports and one numbered finding per open port |
| PortScanning.ProbeAsWritten | tests/test_portscanner.py:45-55 | as written, a probe never changes the scan's findings |
| PortScanning.AsWrittenDropsOpenPortFinding | tests/test_portscanner.py:45-55 | as written and as intended record the same open ports, but an open port loses its finding as written |
| PortScanning.PortScanner.constructor | tests/test_portscanner.py:13-21 | the dataclass defaults, port range (1, 1024) and no open ports |
| PortScanning.PortScanner.ScanPort | tests/test_portscanner.py:41-55 | an accepted connection appends the port and one finding numbered one past the existing ones; a refused one changes nothing, and neither does a probe of a target without an address, whose `connect_ex` raises |
| PortScanning.PortScanner.Run | tests/test_portscanner.py:23-39 | the range is forced to 1..1024; the waves are those of dispatching 1..1024 in order; on a target with an address the open ports and findings are those of probing 1..1024 in order, on one without an address nothing is recorded; either way the scan ends "Completed" with the end time set |
| AppConfiguration.Merge | src/configuration.py:16-20 | each of the five keys present in the document overwrites its setting, and each absent key keeps it |
| AppConfiguration.ToJson | src/configuration.py:23-29 | the saved object has exactly the five keys, each bound to its setting |
| AppConfiguration.MergeEmpty | src/configuration.py:13-20 | loading an empty object changes nothing |
| AppConfiguration.MergeIdempotent | src/configuration.py:13-20 | loading the same document twice equals loading it once |
| AppConfiguration.MergeIgnoresOtherKeys | src/configuration.py:16-20 | keys other than the five have no effect |
| AppConfiguration.SaveThenLoad | src/configuration.py:13-29 | loading what was saved restores the saved settings, whatever was loaded before |
| AppConfiguration.Configuration.constructor | src/configuration.py:6-11 | defaults: 10 threads, 5 s timeout, the browser user agent, no proxies, TLS checks on |
| AppConfiguration.Configuration.LoadFromFile | src/configuration.py:13-20 | an object document is merged key by key; any other JSON value raises and leaves the settings unchanged |
| AppConfiguration.Configuration.SaveToFile | src/configuration.py:22-31 | the written object is the current settings under exactly the five keys |
| ScanningModules.PortStrings | src/scanning_modules.py:25 | `map(str, ports)` keeps length and order |
| ScanningModules.PortsMessageRoundTrip | src/scanning_modules.py:25 | the "Open ports: " line can be parsed back to exactly the target's ports, in order |
| ScanningModules.ServicesMessageRoundTrip | src/scanning_modules.py:35 | with no protocols the line is the bare prefix; otherwise it splits back into the protocols |
| ScanningModules.LinksMessageRoundTrip | src/scanning_modules.py:56 | with no links the line is the bare "Crawled links: "; otherwise it splits back into the comma-free links |
| ScanningModules.DiscoverOutcome | src/target_management.py:17-26 | discovery returns iff all three lookups answer; then the target has the address, the host names, the scanned ports and http/https; a failed first lookup leaves the target unchanged |
| ScanningModules.Discovery | src/target_management.py:17-26 | `resolve_host` then `scan_ports` update the target step by step, and stop at the first call that raises |
| ScanningModules.TcpConnectScan | src/scanning_modules.py:60-63 | returns the scanned ports iff every lookup answers; the target is updated as discovery leaves it |
| ScanningModules.IdentifyServices | src/scanning_modules.py:70-71 | returns the target's protocols |
| ScanningModules.PrepareOnlyPorts | src/scanning_modules.py:22-56 | only the port scan module changes the target, and only it can raise |
| ScanningModules.RunAppendsOneLine | src/scanning_modules.py:22-56 | the earlier findings are kept; a run that returns adds exactly one, its module's summary line, one that raises adds none; only the port scan module changes the target or raises, and it raises exactly when a lookup fails |
| ScanningModules.CrawlAsWrittenLosesLine | src/scanning_modules.py:55-56 | as written the crawler raises and appends nothing; as intended it returns and appends one "Crawled links: " line |
| ScanningModules.Module.PortScan | src/scanning_modules.py:16-20 | name "Port Scan", its description, enabled |
| ScanningModules.Module.ServiceScanner | src/scanning_modules.py:28-32 | name "Service Scanner", its description, enabled |
| ScanningModules.Module.VulnerabilityScanner | src/scanning_modules.py:38-43 | the given name replaces the base-class name; its description; enabled |
| ScanningModules.Module.WebCrawler | src/scanning_modules.py:49-53 | name "Web Crawler", its description, enabled |
| ScanningModules.Module.Run | src/scanning_modules.py:22-56 | the target, the outcome and the findings are those of `RunEffect`: discovery for the port scan module, then one summary line when it returns |
| DomainSelection.FetchScopedDomains | src/domain_selection.py:5-21 | status 200 gives the bounty programs' domains in program order; any other status fails with the HackerOne error |
| DomainSelection.ScopedDomainsAppend | src/domain_selection.py:13-18 | filtering two runs of programs concatenates their results |
| DomainSelection.DisabledContributesNothing | src/domain_selection.py:16-18 | a program without bounties contributes nothing, wherever it stands |
| DomainSelection.ScopedDomainsLength | src/domain_selection.py:13-18 | the result has as many entries as the bounty programs list domains |
| DomainSelection.ScopedDomainsMembers | src/domain_selection.py:14-18 | a domain is in the result iff some bounty program lists it |
| SetupDependencies.DetectOs | scripts/setup_dependencies.py:24-41 | the result is one of the four names; "macos" iff the system is Darwin; any other non-Linux system gives "unknown" |
| SetupDependencies.DetectLinux | scripts/setup_dependencies.py:28-35 | on Linux: "debian" iff a Debian marker occurs; "redhat" iff none does and a Red Hat marker does; otherwise "unknown" |
| SetupDependencies.DetectOsIgnoresCase | scripts/setup_dependencies.py:29 | a distribution name and its lower-cased form are classified alike |
| SetupDependencies.DetectKnownDistributions | scripts/setup_dependencies.py:24-41 | three examples: "Ubuntu" on Linux is debian, "Darwin" is macos, "Windows" is unknown |
| SetupDependencies.NotDebianWithoutB | scripts/setup_dependencies.py:30 | a name without a 'b' holds neither "ubuntu" nor "debian" |
| SetupDependencies.NotRedHatWithoutCFH | scripts/setup_dependencies.py:32 | a name with none of 'c', 'f' and 'h' holds none of "centos", "fedora" and "red hat" |
| SetupDependencies.DetectFedora | scripts/setup_dependencies.py:28-33 | example: "Fedora" on Linux is redhat, not debian |
| SetupDependencies.DetectGentoo | scripts/setup_dependencies.py:28-35 | example: "Gentoo" on Linux is unknown |
| SetupDependencies.PackagesWith | scripts/setup_dependencies.py:102-128 | seven packages, the Java package fourth |
| SetupDependencies.SystemPackages | scripts/setup_dependencies.py:99-138 | debian, redhat and macos get their lists; any other name fails with "Error: Unsupported operating system." |
| SetupDependencies.PackageListsDifferOnlyInJava | scripts/setup_dependencies.py:102-128 | the supported lists agree everywhere except the Java package, which differs per platform |
| SetupDependencies.DetectedPlatformSupported | scripts/setup_dependencies.py:130-138 | a detected platform is refused iff it is "unknown" |
| SetupDependencies.VerifyInstallations | scripts/setup_dependencies.py:175-181 | the missing list is the required commands not on the path, in order |
| SetupDependencies.MissingAmongMembers | scripts/setup_dependencies.py:179-181 | a command is reported missing iff it is required and not available |
| SetupDependencies.MissingAmongAppend | scripts/setup_dependencies.py:179-181 | the report keeps the required order: the report of a concatenation concatenates the reports |
| SetupDependencies.NothingMissing | scripts/setup_dependencies.py:182-186 | when every command is available nothing is reported |
| XssTest.LinkSetMembers | tools/xss/xss_test.py:26-31 | a link is kept iff some href resolves to it and its host is the target's |
| XssTest.LinksSameDomain | tools/xss/xss_test.py:29-31 | every link returned lies on the target's host |
| XssTest.GetAllLinks | tools/xss/xss_test.py:21-34 | returns the page's same-host links; none when the fetch raised |
| XssTest.FormsAt | tools/xss/xss_test.py:36-42 | the page's forms; none when the fetch raised |
| XssTest.FormDataContents | tools/xss/xss_test.py:48-53 | the data holds exactly the named inputs, each bound to the payload; unnamed inputs are skipped |
| XssTest.MethodChoice | tools/xss/xss_test.py:46 | a form without a method is a GET; one with a method is a POST iff the method lower-cases to "post", so its letter case never changes the choice |
| XssTest.ReflectionDetected | tools/xss/xss_test.py:59-60 | a response holding the payload verbatim marks the form vulnerable |
| XssTest.ReflectionExact | tools/xss/xss_test.py:59-62 | a form is reported iff the submission got a response and the payload occurs in it verbatim; a response without the payload is never reported |
| XssTest.RequestErrorNotVulnerable | tools/xss/xss_test.py:61-63 | a request that raised is never vulnerable |
| XssTest.TestXss | tools/xss/xss_test.py:44-63 | sends the named-input data by the form's method to the resolved action; vulnerable iff the response contains the payload |
| XssTest.FormFindingsBound | tools/xss/xss_test.py:80-87 | a form yields at most one finding per payload |
| XssTest.PageFindingsBound | tools/xss/xss_test.py:79-87 | a page yields at most forms × 5 findings |
| XssTest.FormFindingsMembers | tools/xss/xss_test.py:80-87 | a form's findings are exactly the reflected payloads, each with its target and data |
| XssTest.TestForms | tools/xss/xss_test.py:78-88 | one finding per (form, payload) submission that reflects, in form then payload order |
| XssTest.CrawlStarts | tools/xss/xss_test.py:68-70 | the crawl starts with nothing visited and only the start URL waiting |
| XssTest.SkipStep | tools/xss/xss_test.py:73-75 | popping an already visited URL keeps the crawl invariant |
| XssTest.VisitRegistered | tools/xss/xss_test.py:77 | a newly visited URL joins the visit order once, with no repetition |
| XssTest.VisitWithinReach | tools/xss/xss_test.py:89-90 | queued links stay within the URLs the crawl can meet |
| XssTest.VisitOnHost | tools/xss/xss_test.py:89-90 | queued links lie on the start's host |
| XssTest.VisitCovered | tools/xss/xss_test.py:89-90 | after a visit, the page's links are visited or waiting |
| XssTest.VisitDiscovered | tools/xss/xss_test.py:89-90 | a newly queued URL is a same-host link of a processed page; the start stays first, and each processed page after it is a link of an earlier one |
| XssTest.VisitStep | tools/xss/xss_test.py:72-90 | visiting a new URL keeps the crawl invariant and shrinks the set of URLs still unvisited |
| XssTest.FormFindingsWellFormed | tools/xss/xss_test.py:48-60 | each finding of a form carries a payload of the list, bound to every submitted name |
| XssTest.PageFindingsWellFormed | tools/xss/xss_test.py:79-87 | each finding of a page carries one of the five payloads, bound to every submitted name |
| XssTest.AllFindingsWellFormed | tools/xss/xss_test.py:79-87 | each finding of a crawl carries one of the five payloads, bound to every submitted name |
| XssTest.ScanXss | tools/xss/xss_test.py:65-91 | each page is processed at most once; the start is processed first; every other page is a same-host link of a page processed before it; every same-host link of a processed page is processed; the findings are those of the processed pages in visit order, each carrying one of the five payloads bound to every submitted name |
| XssTest.Details | tools/xss/xss_test.py:98-101 | three lines per finding |
| XssTest.Report | tools/xss/xss_test.py:93-101 | the report opens with "No XSS vulnerabilities found." iff there are no findings, and is then only that line |
| XssTest.DetailsLines | tools/xss/xss_test.py:98-101 | finding i is reported on its own three lines with its URL, payload and data |

## Left out

- `Form`, `InputField`, `Endpoint`, `Report` and `Credential` in models/models.py: these records have no behaviour beyond their fields. `Report.generate_report_content` is empty.
- `Target.parsed_url`: this is `urlparse` of the URL, a foreign parser.
- Clocks: `datetime.now()` and `time.time()` become a `Timestamp` parameter. The elapsed-time line of the XSS tool is not modelled.
- I/O: `print`, `logging`, and reading and writing files are not modelled. JSON text encoding and decoding are not modelled either; the configuration methods take and return decoded JSON values.
- JSON numbers are integers in the model; floating-point settings are not represented.
- `lower()` is modelled for ASCII letters only; Python's full Unicode case mapping is not.
- PortScanning.PortScanner.Run: probes run one after the other, and each probe takes effect when it is dispatched. Thread scheduling and the unsynchronised appends of concurrent probes are not modelled. The waves are kept as a ghost record.
- PortScanning.PortScanner.Run: `max_threads` is a parameter. The source reads `scan.configuration.max_threads`, and no `Scan` in the repository has a finished `configuration` field.
- src/target_management.py does not parse: line 39 is an assignment without a value. The fields of `Target` and `Scan` come from models/models.py. The discovery of `Target.resolve_host` and `Target.scan_ports` (src/target_management.py:17-26) is modelled, with the outside world abstracted as a `Lookup`.
- `socket.gethostbyaddr` returns a triple (name, aliases, addresses). The model abstracts that triple to the list of host names stored in `hosts`.
- The nmap scan is only seen through `Lookup.scanned`, so the `int(port)` conversion of its keys is not modelled.
- `udp_scan` (src/scanning_modules.py:65-68) is identical to `tcp_connect_scan` and is modelled by `ScanningModules.TcpConnectScan`.
- `check_root`, `detect_architecture`, `is_command_available`, the `install_*` functions, `install_owasp_zap` and `main` of the setup script are not modelled. They run subprocesses, download files or exit the process. Only the package list each platform selects is modelled.
- SetupDependencies.DetectOs: the distribution name is a parameter. `platform.linux_distribution()` no longer exists from Python 3.8 on, so the source raises on Linux there; the model stands for an interpreter that still provides it.
- SetupDependencies.VerifyInstallations: the warning message listing the missing commands is printed or logged, so it is not modelled.
- XssTest.ScanXss: the web is a finite map of pages, so the crawl always ends. The source loops forever on a site with unboundedly many same-host URLs, such as a calendar with endless "next" links.
- XssTest.ScanXss: the order in which `set.pop` returns URLs is unspecified, so the visit order is an arbitrary choice, exposed as a ghost sequence. The progress messages are not modelled.
- XssTest.GetAllLinks: HTML parsing is not modelled. A page is given as its anchor `href`s and its forms. `get_forms` and `get_all_links` fetch the same URL twice; in the model both fetches get the same answer.
- XssTest.Report: the `Data Sent` line shows Python's rendering of a dict, which is a parameter of the model.
- src/domain_selection.py: the HTTP request, the API token and the JSON decoding are not modelled. The module-level call at line 23 is not modelled either.

## Findings

| source | as written | input that shows it | evidently intended | confidence | as-written member | corrected member |
|---|---|---|---|---|---|---|
| tests/test_portscanner.py:47-48 | the finding is appended to `Scan.vulnerabilities` with an id computed from `scan`; neither is the scan the method was given, so the probe thread raises after recording the port, and no finding is ever recorded | any port whose `connect_ex` returns 0 | the open port is recorded, and one "Open Port" finding with id one past the scan's current count is appended to the scan `run` was given | not executed | PortScanning.AsWrittenDropsOpenPortFinding | PortScanning.PortScanner.ScanPort |
| src/scanning_modules.py:56 | `WebCrawler.run` reads `target.links`, which no `Target` defines, so it raises and appends nothing | any target | the crawler appends one "Crawled links: " line listing the crawled links | not executed | ScanningModules.CrawlAsWrittenLosesLine | ScanningModules.Module.Run |
