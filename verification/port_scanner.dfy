/**
 * The wave-batched TCP connect scanner of tests/test_portscanner.py.
 *
 * `run` starts one probe thread per port of 1..1024 and, whenever the current
 * batch of threads reaches `max_threads`, waits for the whole batch before
 * starting the next one. The model is sequential: a probe's effect happens when
 * it is dispatched, and the batches are kept as a ghost record of which threads
 * were joined together. The socket is a `ConnectOracle`.
 */
module PortScanning {
  import opened Wrappers
  import opened Text
  import opened Models

  /**
   * `socket.connect_ex((ip, port))` with the 1-second timeout on a target that
   * has an address: 0 means the port accepted. A target without an address never
   * reaches the oracle: `connect_ex((None, port))` raises in the probe thread.
   */
  type ConnectOracle = (string, int) -> int

  /** Python's `range(lo, hi)`. */
  function Range(lo: int, hi: int): (r: seq<int>)
    ensures |r| == if hi <= lo then 0 else hi - lo
    decreases hi - lo
  {
    if hi <= lo then [] else Range(lo, hi - 1) + [hi - 1]
  }

  /** The ports `run` always scans, whatever the scanner held before. */
  const FirstPort := 1
  const LastPort := 1024

  /** The finding recorded for an open port. */
  function OpenPortVulnerability(id: int, port: int, ip: string, scan: Scan): Vulnerability {
    var p := IntToString(port);
    Vulnerability(id, "Open Port", Join(["Port ", p, " is open."], ""), "Low", Join(["Port ", p], ""),
                  Join(["Port ", p, " on ", ip, " is open."], ""), None, Some(scan))
  }

  /** The ports of `ports` that accept a connection, in the order they were probed. */
  function OpenPortsAmong(ports: seq<int>, ip: string, connect: ConnectOracle): seq<int>
    decreases |ports|
  {
    if |ports| == 0 then []
    else
      var last := ports[|ports| - 1];
      OpenPortsAmong(ports[..|ports| - 1], ip, connect) + (if connect(ip, last) == 0 then [last] else [])
  }

  /** The findings for the open ports `open`, appended to a list that already held `base` entries. */
  function OpenPortFindings(base: nat, open: seq<int>, ip: string, scan: Scan): (r: seq<Finding>)
    ensures |r| == |open|
    decreases |open|
  {
    if |open| == 0 then []
    else OpenPortFindings(base, open[..|open| - 1], ip, scan)
         + [Record(OpenPortVulnerability(base + |open|, open[|open| - 1], ip, scan))]
  }

  /** The most probes one batch can hold: `max_threads`, or 1 when it is 0 or less. */
  function BatchLimit(maxThreads: int): nat {
    if maxThreads < 1 then 1 else maxThreads
  }

  function Flatten(batches: seq<seq<int>>): seq<int>
    decreases |batches|
  {
    if |batches| == 0 then [] else Flatten(batches[..|batches| - 1]) + batches[|batches| - 1]
  }

  /** A port is reported open exactly when it was probed and the connect oracle returned 0. */
  lemma {:induction false} OpenPortsAmongExact(ports: seq<int>, ip: string, connect: ConnectOracle, p: int)
    ensures p in OpenPortsAmong(ports, ip, connect) <==> p in ports && connect(ip, p) == 0
    decreases |ports|
  {
    if |ports| > 0 {
      var init := ports[..|ports| - 1];
      OpenPortsAmongExact(init, ip, connect, p);
      assert ports == init + [ports[|ports| - 1]];
    }
  }

  predicate StrictlyIncreasing(s: seq<int>) {
    forall i, j :: 0 <= i < j < |s| ==> s[i] < s[j]
  }

  /** Probing in ascending order reports the open ports in ascending order, each once. */
  lemma {:induction false} OpenPortsAmongAscending(ports: seq<int>, ip: string, connect: ConnectOracle)
    requires StrictlyIncreasing(ports)
    ensures StrictlyIncreasing(OpenPortsAmong(ports, ip, connect))
    decreases |ports|
  {
    if |ports| > 0 {
      var init := ports[..|ports| - 1];
      var last := ports[|ports| - 1];
      assert StrictlyIncreasing(init);
      OpenPortsAmongAscending(init, ip, connect);
      var a := OpenPortsAmong(init, ip, connect);
      forall k | 0 <= k < |a| ensures a[k] < last {
        OpenPortsAmongExact(init, ip, connect, a[k]);
        var m :| 0 <= m < |init| && init[m] == a[k];
        assert ports[m] == a[k];
      }
    }
  }

  /** `range(lo, hi)` lists `lo`, `lo + 1`, ... up to `hi - 1`: ascending, each port once. */
  lemma {:induction false} RangeElements(lo: int, hi: int)
    ensures forall k :: 0 <= k < |Range(lo, hi)| ==> Range(lo, hi)[k] == lo + k
    ensures StrictlyIncreasing(Range(lo, hi))
    ensures forall p :: p in Range(lo, hi) <==> lo <= p < hi
    decreases hi - lo
  {
    if lo < hi {
      RangeElements(lo, hi - 1);
      assert Range(lo, hi) == Range(lo, hi - 1) + [hi - 1];
    }
  }

  /** The k-th finding of a run carries id `base + k + 1`: no two findings share an id. */
  lemma {:induction false} OpenPortFindingIds(base: nat, open: seq<int>, ip: string, scan: Scan)
    ensures forall k :: 0 <= k < |open| ==>
      OpenPortFindings(base, open, ip, scan)[k] == Record(OpenPortVulnerability(base + k + 1, open[k], ip, scan))
    decreases |open|
  {
    if |open| > 0 {
      OpenPortFindingIds(base, open[..|open| - 1], ip, scan);
    }
  }

  lemma RangeSnoc(lo: int, hi: int)
    requires lo <= hi
    ensures Range(lo, hi + 1) == Range(lo, hi) + [hi]
  {
  }

  lemma OpenPortsAmongSnoc(ports: seq<int>, p: int, ip: string, connect: ConnectOracle)
    ensures OpenPortsAmong(ports + [p], ip, connect)
         == OpenPortsAmong(ports, ip, connect) + (if connect(ip, p) == 0 then [p] else [])
  {
    assert (ports + [p])[..|ports|] == ports;
  }

  lemma FlattenSnoc(batches: seq<seq<int>>, b: seq<int>)
    ensures Flatten(batches + [b]) == Flatten(batches) + b
  {
    assert (batches + [b])[..|batches|] == batches;
  }

  lemma OpenPortFindingsSnoc(base: nat, open: seq<int>, p: int, ip: string, scan: Scan)
    ensures OpenPortFindings(base, open + [p], ip, scan)
         == OpenPortFindings(base, open, ip, scan) + [Record(OpenPortVulnerability(base + |open| + 1, p, ip, scan))]
  {
    assert (open + [p])[..|open|] == open;
  }

  // ---------------------------------------------------------------------
  // Waves of probe threads

  /** The probe threads of `run`: the waves already joined, and the threads of the current wave. */
  datatype Waves = Waves(joined: seq<seq<int>>, current: seq<int>)

  /** Starting the thread for `port`, then joining the wave if it has reached `maxThreads`. */
  function Dispatch(w: Waves, port: int, maxThreads: int): Waves {
    var current := w.current + [port];
    if |current| >= maxThreads then Waves(w.joined + [current], []) else Waves(w.joined, current)
  }

  /** Dispatching `ports` one after the other. */
  function DispatchAll(w: Waves, ports: seq<int>, maxThreads: int): Waves
    decreases |ports|
  {
    if |ports| == 0 then w
    else Dispatch(DispatchAll(w, ports[..|ports| - 1], maxThreads), ports[|ports| - 1], maxThreads)
  }

  /** Joining the remaining threads after the loop: every wave in the order it was joined. */
  function Finish(w: Waves): seq<seq<int>> {
    if w.current != [] then w.joined + [w.current] else w.joined
  }

  /**
   * The joined waves followed by the current wave list exactly `ports` in
   * order, every joined wave is full, and the current wave is not.
   */
  ghost predicate WavesOf(w: Waves, ports: seq<int>, maxThreads: int) {
    && Flatten(w.joined) + w.current == ports
    && (forall j :: 0 <= j < |w.joined| ==> |w.joined[j]| == BatchLimit(maxThreads))
    && |w.current| < BatchLimit(maxThreads)
  }

  lemma DispatchAllSnoc(w: Waves, ports: seq<int>, p: int, maxThreads: int)
    ensures DispatchAll(w, ports + [p], maxThreads) == Dispatch(DispatchAll(w, ports, maxThreads), p, maxThreads)
  {
    assert (ports + [p])[..|ports|] == ports;
  }

  /** Dispatching one more port keeps `WavesOf`. */
  lemma WaveStep(w: Waves, ports: seq<int>, p: int, maxThreads: int)
    requires WavesOf(w, ports, maxThreads)
    ensures WavesOf(Dispatch(w, p, maxThreads), ports + [p], maxThreads)
  {
    FlattenSnoc(w.joined, w.current + [p]);
    assert Flatten(w.joined) + (w.current + [p]) == Flatten(w.joined) + w.current + [p];
  }

  /** Dispatching from no threads at all splits the ports into full waves and one partial wave. */
  lemma {:induction false} DispatchAllWaves(ports: seq<int>, maxThreads: int)
    ensures WavesOf(DispatchAll(Waves([], []), ports, maxThreads), ports, maxThreads)
    decreases |ports|
  {
    if |ports| == 0 {
      assert Flatten([]) + [] == ports;
    } else {
      var init := ports[..|ports| - 1];
      DispatchAllWaves(init, maxThreads);
      WaveStep(DispatchAll(Waves([], []), init, maxThreads), init, ports[|ports| - 1], maxThreads);
      assert init + [ports[|ports| - 1]] == ports;
    }
  }

  /** The waves of a run, in the order they were joined, hold every port once and in order. */
  lemma RunWavesCover(ports: seq<int>, maxThreads: int)
    ensures Flatten(Finish(DispatchAll(Waves([], []), ports, maxThreads))) == ports
  {
    var w := DispatchAll(Waves([], []), ports, maxThreads);
    DispatchAllWaves(ports, maxThreads);
    FlattenSnoc(w.joined, w.current);
    assert Flatten(w.joined) + [] == Flatten(w.joined);
  }

  /** Every wave is non-empty and within the limit, and all but the last are full. */
  lemma RunWavesSizes(ports: seq<int>, maxThreads: int)
    ensures var batches := Finish(DispatchAll(Waves([], []), ports, maxThreads));
      && (forall j :: 0 <= j < |batches| ==> 0 < |batches[j]| <= BatchLimit(maxThreads))
      && (forall j :: 0 <= j < |batches| - 1 ==> |batches[j]| == BatchLimit(maxThreads))
  {
    DispatchAllWaves(ports, maxThreads);
  }

  // ---------------------------------------------------------------------
  // One probe, as the code is written and as it is evidently meant.

  /** What the probes leave behind: the scanner's open ports and the scan's findings. */
  datatype ProbeState = ProbeState(openPorts: seq<int>, findings: seq<Finding>)

  /**
   * `scan_port` as it is evidently meant: an accepted connection records the
   * port and one finding numbered one past the findings already recorded.
   */
  function Probe(st: ProbeState, port: int, ip: string, connect: ConnectOracle, scan: Scan): ProbeState {
    if connect(ip, port) == 0 then
      ProbeState(st.openPorts + [port], st.findings + [Record(OpenPortVulnerability(|st.findings| + 1, port, ip, scan))])
    else st
  }

  /** Probing `ports` one after the other. */
  function ProbeAll(st: ProbeState, ports: seq<int>, ip: string, connect: ConnectOracle, scan: Scan): ProbeState
    decreases |ports|
  {
    if |ports| == 0 then st
    else Probe(ProbeAll(st, ports[..|ports| - 1], ip, connect, scan), ports[|ports| - 1], ip, connect, scan)
  }

  lemma ProbeAllSnoc(st: ProbeState, ports: seq<int>, p: int, ip: string, connect: ConnectOracle, scan: Scan)
    ensures ProbeAll(st, ports + [p], ip, connect, scan) == Probe(ProbeAll(st, ports, ip, connect, scan), p, ip, connect, scan)
  {
    assert (ports + [p])[..|ports|] == ports;
  }

  /**
   * The open ports among `ports` were appended to `st`'s open ports, and one
   * finding per open port, numbered on from the findings already in `st`.
   */
  ghost predicate RecordsOf(r: ProbeState, st: ProbeState, ports: seq<int>, ip: string, connect: ConnectOracle, scan: Scan) {
    var open := OpenPortsAmong(ports, ip, connect);
    && r.openPorts == st.openPorts + open
    && r.findings == st.findings + OpenPortFindings(|st.findings|, open, ip, scan)
  }

  /** An accepting port goes to the end of the open ports. */
  lemma OpenPortsStep(open: seq<int>, start: seq<int>, ports: seq<int>, p: int, ip: string, connect: ConnectOracle)
    requires open == start + OpenPortsAmong(ports, ip, connect)
    requires connect(ip, p) == 0
    ensures open + [p] == start + OpenPortsAmong(ports + [p], ip, connect)
  {
    OpenPortsAmongSnoc(ports, p, ip, connect);
  }

  /** An accepting port's finding, numbered one past the findings so far, goes to the end of the findings. */
  lemma OpenFindingsStep(found: seq<Finding>, start: seq<Finding>, ports: seq<int>, p: int, ip: string,
                         connect: ConnectOracle, scan: Scan)
    requires found == start + OpenPortFindings(|start|, OpenPortsAmong(ports, ip, connect), ip, scan)
    requires connect(ip, p) == 0
    ensures found + [Record(OpenPortVulnerability(|found| + 1, p, ip, scan))]
         == start + OpenPortFindings(|start|, OpenPortsAmong(ports + [p], ip, connect), ip, scan)
  {
    var open := OpenPortsAmong(ports, ip, connect);
    var earlier := OpenPortFindings(|start|, open, ip, scan);
    var id := |found| + 1;
    assert id == |start| + |open| + 1;
    var f := Record(OpenPortVulnerability(id, p, ip, scan));
    assert OpenPortsAmong(ports + [p], ip, connect) == open + [p] by {
      OpenPortsAmongSnoc(ports, p, ip, connect);
    }
    assert OpenPortFindings(|start|, open + [p], ip, scan) == earlier + [f] by {
      OpenPortFindingsSnoc(|start|, open, p, ip, scan);
    }
    assert found + [f] == start + (earlier + [f]);
  }

  /** A probe of an accepting port keeps `RecordsOf`: the port and its numbered finding come last. */
  lemma ProbeStepOpen(r: ProbeState, st: ProbeState, ports: seq<int>, p: int, ip: string, connect: ConnectOracle, scan: Scan)
    requires RecordsOf(r, st, ports, ip, connect, scan)
    requires connect(ip, p) == 0
    ensures RecordsOf(Probe(r, p, ip, connect, scan), st, ports + [p], ip, connect, scan)
  {
    OpenPortsStep(r.openPorts, st.openPorts, ports, p, ip, connect);
    OpenFindingsStep(r.findings, st.findings, ports, p, ip, connect, scan);
  }

  /** A probe of a refusing port keeps `RecordsOf`: nothing is added. */
  lemma ProbeStepClosed(r: ProbeState, st: ProbeState, ports: seq<int>, p: int, ip: string, connect: ConnectOracle, scan: Scan)
    requires RecordsOf(r, st, ports, ip, connect, scan)
    requires connect(ip, p) != 0
    ensures RecordsOf(Probe(r, p, ip, connect, scan), st, ports + [p], ip, connect, scan)
  {
    var open := OpenPortsAmong(ports, ip, connect);
    OpenPortsAmongSnoc(ports, p, ip, connect);
    assert OpenPortsAmong(ports + [p], ip, connect) == open + [] == open;
    assert Probe(r, p, ip, connect, scan) == r;
  }

  /** One more probe keeps `RecordsOf`. */
  lemma ProbeStep(r: ProbeState, st: ProbeState, ports: seq<int>, p: int, ip: string, connect: ConnectOracle, scan: Scan)
    requires RecordsOf(r, st, ports, ip, connect, scan)
    ensures RecordsOf(Probe(r, p, ip, connect, scan), st, ports + [p], ip, connect, scan)
  {
    if connect(ip, p) == 0 {
      ProbeStepOpen(r, st, ports, p, ip, connect, scan);
    } else {
      ProbeStepClosed(r, st, ports, p, ip, connect, scan);
    }
  }

  /**
   * Probing `ports` appends the open ones among them to the open ports, and one
   * finding per open port, numbered on from the findings already recorded.
   */
  lemma {:induction false} ProbeAllRecords(st: ProbeState, ports: seq<int>, ip: string, connect: ConnectOracle, scan: Scan)
    ensures RecordsOf(ProbeAll(st, ports, ip, connect, scan), st, ports, ip, connect, scan)
    decreases |ports|
  {
    if |ports| == 0 {
      assert st.openPorts + [] == st.openPorts && st.findings + [] == st.findings;
    } else {
      var init, p := ports[..|ports| - 1], ports[|ports| - 1];
      ProbeAllRecords(st, init, ip, connect, scan);
      ProbeStep(ProbeAll(st, init, ip, connect, scan), st, init, p, ip, connect, scan);
      assert init + [p] == ports;
    }
  }

  /**
   * `scan_port` as written: the port is recorded, then the finding line names
   * `Scan.vulnerabilities` and `scan`, neither of which is a list in reach of the
   * thread, so the thread raises and no finding is ever recorded.
   */
  function ProbeAsWritten(st: ProbeState, port: int, ip: string, connect: ConnectOracle): (r: ProbeState)
    ensures r.findings == st.findings
  {
    if connect(ip, port) == 0 then ProbeState(st.openPorts + [port], st.findings) else st
  }

  /**
   * Both versions record the same open ports, but on an accepted connection the
   * code as written loses the finding the evidently intended probe records.
   */
  lemma AsWrittenDropsOpenPortFinding(st: ProbeState, port: int, ip: string, connect: ConnectOracle, scan: Scan)
    ensures ProbeAsWritten(st, port, ip, connect).openPorts == Probe(st, port, ip, connect, scan).openPorts
    ensures connect(ip, port) == 0 ==>
      |Probe(st, port, ip, connect, scan).findings| == |ProbeAsWritten(st, port, ip, connect).findings| + 1
    ensures connect(ip, port) != 0 ==>
      Probe(st, port, ip, connect, scan) == ProbeAsWritten(st, port, ip, connect)
  {
  }

  class PortScanner {
    var name: string
    var description: string
    var enabled: bool
    var target: Target?
    var portRange: (int, int)
    var openPorts: seq<int>
    var scan: Scan?

    /** The dataclass defaults. */
    constructor ()
      ensures name == "PortScanner" && description == "Scans for open TCP ports on the target."
      ensures enabled && target == null && portRange == (1, 1024) && openPorts == [] && scan == null
    {
      name := "PortScanner";
      description := "Scans for open TCP ports on the target.";
      enabled := true;
      target := null;
      portRange := (1, 1024);
      openPorts := [];
      scan := null;
    }

    /**
     * One probe thread. An accepted connection adds the port to `openPorts` and
     * one "Open Port" finding of severity "Low", numbered one past the findings
     * already in `scan`; a refused one changes nothing. `scan` is the scan that
     * `run` was given. On a target without an address `connect_ex` raises, the
     * thread ends, and nothing is recorded either.
     */
    method ScanPort(port: int, scan: Scan, connect: ConnectOracle)
      requires target != null
      modifies this`openPorts, scan`vulnerabilities
      ensures target.ipAddress.None? ==>
        openPorts == old(openPorts) && scan.vulnerabilities == old(scan.vulnerabilities)
      ensures target.ipAddress.Some? ==>
        ProbeState(openPorts, scan.vulnerabilities)
        == Probe(ProbeState(old(openPorts), old(scan.vulnerabilities)), port, target.ipAddress.value, connect, scan)
    {
      if target.ipAddress.Some? {
        var ip := target.ipAddress.value;
        var result := connect(ip, port);
        if result == 0 {
          openPorts := openPorts + [port];
          scan.vulnerabilities := scan.vulnerabilities
            + [Record(OpenPortVulnerability(|scan.vulnerabilities| + 1, port, ip, scan))];
        }
      }
    }

    /**
     * Probes ports 1..1024 in ascending order, in waves: a wave is joined as soon
     * as it holds `maxThreads` probes (one probe when `maxThreads` is 0 or less),
     * and the last, partial wave is joined after the loop. Then the scan is
     * stamped completed. `batches` records the waves in the order they were joined.
     */
    method Run(target: Target, scan: Scan, maxThreads: int, connect: ConnectOracle, now: Timestamp)
      returns (ghost batches: seq<seq<int>>)
      modifies this`target, this`portRange, this`openPorts, scan`vulnerabilities, scan`endTime, scan`status
      ensures this.target == target && portRange == (FirstPort, LastPort)
      ensures batches == Finish(DispatchAll(Waves([], []), Range(portRange.0, portRange.1 + 1), maxThreads))
      ensures target.ipAddress.None? ==>
        openPorts == old(openPorts) && scan.vulnerabilities == old(scan.vulnerabilities)
      ensures target.ipAddress.Some? ==>
        ProbeState(openPorts, scan.vulnerabilities)
        == ProbeAll(ProbeState(old(openPorts), old(scan.vulnerabilities)), Range(portRange.0, portRange.1 + 1),
                    target.ipAddress.value, connect, scan)
      ensures scan.status == Completed && scan.endTime == Some(now)
    {
      this.target := target;
      portRange := (FirstPort, LastPort);
      var threads: seq<int> := [];
      ghost var joined: seq<seq<int>> := [];
      ghost var before := ProbeState(openPorts, scan.vulnerabilities);
      ghost var ip := target.ipAddress;
      for port := portRange.0 to portRange.1 + 1
        invariant this.target == target && portRange == (FirstPort, LastPort)
        invariant Waves(joined, threads) == DispatchAll(Waves([], []), Range(FirstPort, port), maxThreads)
        invariant ip.None? ==> ProbeState(openPorts, scan.vulnerabilities) == before
        invariant ip.Some? ==>
          ProbeState(openPorts, scan.vulnerabilities) == ProbeAll(before, Range(FirstPort, port), ip.value, connect, scan)
      {
        RangeSnoc(FirstPort, port);
        DispatchAllSnoc(Waves([], []), Range(FirstPort, port), port, maxThreads);
        if ip.Some? {
          ProbeAllSnoc(before, Range(FirstPort, port), port, ip.value, connect, scan);
        }
        threads := threads + [port];
        ScanPort(port, scan, connect);
        if |threads| >= maxThreads {
          joined := joined + [threads];
          threads := [];
        }
      }
      // the remaining threads are joined before the scan is stamped
      if threads != [] {
        joined := joined + [threads];
      }
      scan.endTime := Some(now);
      scan.status := Completed;
      batches := joined;
    }
  }
}
