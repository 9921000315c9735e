/** A gateway's discovered hosts, alerts and findings, and the calls that change them
    (gateways/monitoring_service.py, agents/views.py). */
module GatewayMonitor {
  import opened Options
  import opened Sequences
  import opened Sorting
  import opened EnvFile
  import opened Cidr
  import opened CommandQueue
  import opened GatewayJobs
  import opened HostInventory
  import opened VulnFindings

  /** Marks a command's scan as folded in. */
  datatype Snapshot = Snapshot(command: nat, scannedAt: int, chunks: seq<Block>, hostCount: nat)

  datatype Monitor = Monitor(tables: Tables, snapshots: seq<Snapshot>, findings: seq<Finding>)

  datatype VulnPolicy = VulnPolicy(enabled: bool, rescanDays: nat, workers: nat)

  const SECONDS_PER_DAY := 86400

  const EMPTY := Monitor(Tables([], []), [], [])

  /** The calls that reach the tables. A scan command's ack says from when on a vulnerability scan
      counts as recent, or None when vulnerability scans may not be queued. */
  datatype Call =
    | ScanAck(id: nat, row: Row, now: int, staleBefore: Option<int>)
    | VulnAck(row: Row, now: int)
    | Push(job: Option<nat>, ip: string, findings: seq<RawFinding>, now: int)
    | Rescan(only: Option<string>)

  predicate Folded(m: Monitor, id: nat) {
    exists i :: 0 <= i < |m.snapshots| && m.snapshots[i].command == id
  }

  /** A settled monitor scan of this gateway's agent with readable logs. */
  predicate IsScanResult(row: Row, agent: AgentId) {
    && row.payload.ScanNetwork? && row.payload.monitor
    && row.state.Acked?
    && row.result.Some? && row.result.value.logs.Some?
    && row.agent == agent
  }

  predicate IsVulnResult(row: Row, agent: AgentId) {
    && row.payload.VulnScan? && row.state.Acked? && row.agent == agent
    && row.result.Some? && row.result.value.logs.Some?
  }

  function ScannedAt(row: Row, now: int): int { row.ackedAt.GetOr(now) }

  function Ips(es: seq<Entry>): set<string> { set e | e in es :: e.ip }

  predicate NeedsVulnScan(h: Host, seen: set<string>, staleBefore: int) {
    h.facts.ip in seen && (h.facts.isNew || h.lastVulnScan.None? || h.lastVulnScan.value <= staleBefore)
  }

  function MarkPending(hosts: seq<Host>, seen: set<string>, staleBefore: Option<int>): (hosts': seq<Host>)
    ensures |hosts'| == |hosts|
  {
    seq(|hosts|, i requires 0 <= i < |hosts| =>
      if staleBefore.Some? && NeedsVulnScan(hosts[i], seen, staleBefore.value) then hosts[i].(vulnPending := true)
      else hosts[i])
  }

  ghost function AfterScan(m: Monitor, id: nat, row: Row, now: int, staleBefore: Option<int>): Monitor
    requires IsScanResult(row, row.agent)
  {
    var entries := ScanEntries(row.result.value.logs.value.subnets);
    var t := FoldAll(m.tables, entries, ScannedAt(row, now));
    m.(tables := t.(hosts := MarkPending(t.hosts, Ips(entries), staleBefore)),
       snapshots := m.snapshots + [Snapshot(id, ScannedAt(row, now), row.payload.targets, |entries|)])
  }

  function StampScanned(hosts: seq<Host>, ips: seq<string>, at: int): (hosts': seq<Host>)
    ensures |hosts'| == |hosts|
  {
    seq(|hosts|, i requires 0 <= i < |hosts| =>
      if hosts[i].facts.ip in ips then hosts[i].(lastVulnScan := Some(at)) else hosts[i])
  }

  function AfterVulnAck(m: Monitor, row: Row, now: int): Monitor
    requires IsVulnResult(row, row.agent)
  {
    var at := ScannedAt(row, now);
    m.(findings := RecordAll(m.findings, row.result.value.logs.value.findings, LogOwner(m.tables.hosts), at),
       tables := m.tables.(hosts := StampScanned(m.tables.hosts, row.payload.ips, at)))
  }

  /** The host a result push is for: by job id if there is one, else by address. */
  function PushedHost(hosts: seq<Host>, job: Option<nat>, ip: string): Option<nat> {
    if job.Some? then (if job.value < |hosts| then job else None)
    else if Strip(ip) == "" then None
    else FindIp(hosts, Strip(ip))
  }

  function AfterPush(m: Monitor, host: nat, findings: seq<RawFinding>, now: int): Monitor
    requires host < |m.tables.hosts|
  {
    var h := m.tables.hosts[host];
    m.(findings := RecordAll(m.findings, findings, PushOwner(host, h.facts.ip), now),
       tables := m.tables.(hosts := m.tables.hosts[host := h.(vulnPending := false, lastVulnScan := Some(now))]))
  }

  function AfterRescan(m: Monitor, only: Option<string>): Monitor {
    m.(tables := m.tables.(hosts := seq(|m.tables.hosts|, i requires 0 <= i < |m.tables.hosts| =>
       if only.None? || m.tables.hosts[i].facts.ip == only.value then m.tables.hosts[i].(vulnPending := true)
       else m.tables.hosts[i])))
  }

  ghost function After(m: Monitor, agent: AgentId, c: Call): Monitor {
    match c
    case ScanAck(id, row, now, staleBefore) =>
      if IsScanResult(row, agent) && !Folded(m, id) then AfterScan(m, id, row, now, staleBefore) else m
    case VulnAck(row, now) =>
      if IsVulnResult(row, agent) then AfterVulnAck(m, row, now) else m
    case Push(job, ip, findings, now) =>
      var host := PushedHost(m.tables.hosts, job, ip);
      if host.Some? then AfterPush(m, host.value, findings, now) else m
    case Rescan(only) => AfterRescan(m, only)
  }

  /** Any calls, in any order, with commands in any state, repeats included. */
  ghost function Run(agent: AgentId, cs: seq<Call>): Monitor {
    if cs == [] then EMPTY else After(Run(agent, cs[..|cs| - 1]), agent, cs[|cs| - 1])
  }

  // ----- The host table is a summary of everything ever reported -----

  predicate Reports(c: Call, agent: AgentId) { c.ScanAck? && IsScanResult(c.row, agent) }

  ghost predicate ReportedBefore(cs: seq<Call>, agent: AgentId, id: nat) {
    exists j :: 0 <= j < |cs| && Reports(cs[j], agent) && cs[j].id == id
  }

  /** The sightings in the first report of each command, in order. */
  ghost function History(agent: AgentId, cs: seq<Call>): seq<Sighting> {
    if cs == [] then []
    else
      var front, last := cs[..|cs| - 1], cs[|cs| - 1];
      History(agent, front) +
      if Reports(last, agent) && !ReportedBefore(front, agent, last.id)
      then Sightings(ScanEntries(last.row.result.value.logs.value.subnets), ScannedAt(last.row, last.now))
      else []
  }

  lemma {:induction false} SnapshotsMarkReports(agent: AgentId, cs: seq<Call>, id: nat)
    ensures Folded(Run(agent, cs), id) <==> ReportedBefore(cs, agent, id)
  {
    if cs != [] {
      var front, last := cs[..|cs| - 1], cs[|cs| - 1];
      var m, m' := Run(agent, front), Run(agent, cs);
      SnapshotsMarkReports(agent, front, id);
      assert cs == front + [last];
      if Reports(last, agent) && last.id == id {
        assert cs[|cs| - 1].id == id;
        if !Folded(m, id) { assert m'.snapshots[|m.snapshots|].command == id; }
      }
      if ReportedBefore(front, agent, id) {
        var j :| 0 <= j < |front| && Reports(front[j], agent) && front[j].id == id;
        assert cs[j] == front[j];
        var i :| 0 <= i < |m.snapshots| && m.snapshots[i].command == id;
        assert m'.snapshots[i] == m.snapshots[i];
      }
    }
  }

  lemma SameFacts(t: Tables, hosts: seq<Host>, h: seq<Sighting>)
    requires Summarises(t, h) && |hosts| == |t.hosts|
    requires forall i :: 0 <= i < |hosts| ==> hosts[i].facts == t.hosts[i].facts
    ensures Summarises(t.(hosts := hosts), h)
  {
  }

  lemma ScanKeepsSummary(m: Monitor, id: nat, row: Row, now: int, staleBefore: Option<int>, h: seq<Sighting>)
    requires IsScanResult(row, row.agent) && Summarises(m.tables, h)
    ensures var entries := ScanEntries(row.result.value.logs.value.subnets);
            Summarises(AfterScan(m, id, row, now, staleBefore).tables, h + Sightings(entries, ScannedAt(row, now)))
  {
    var subnets, at := row.result.value.logs.value.subnets, ScannedAt(row, now);
    var entries := ScanEntries(subnets);
    var t := FoldAll(m.tables, entries, at);
    EntriesAreTidy(subnets);
    FoldAllKeepsSummary(m.tables, h, entries, at);
    SameFacts(t, MarkPending(t.hosts, Ips(entries), staleBefore), h + Sightings(entries, at));
  }

  /** Calls that are not scan results change no facts and no alerts. */
  lemma OtherCallsKeepFacts(m: Monitor, agent: AgentId, c: Call, h: seq<Sighting>)
    requires !Reports(c, agent) && Summarises(m.tables, h)
    ensures Summarises(After(m, agent, c).tables, h)
  {
  }

  /** The table built scan by scan is a plain function of all results: one row and one alert per address
      ever reported, in order of discovery; a command's result counts once, however often it arrives. */
  lemma {:induction false} HostTableSummarisesHistory(agent: AgentId, cs: seq<Call>)
    ensures Summarises(Run(agent, cs).tables, History(agent, cs))
  {
    if cs != [] {
      var front, c := cs[..|cs| - 1], cs[|cs| - 1];
      var m, h := Run(agent, front), History(agent, front);
      HostTableSummarisesHistory(agent, front);
      if Reports(c, agent) {
        SnapshotsMarkReports(agent, front, c.id);
        ScanKeepsSummary(m, c.id, c.row, c.now, c.staleBefore, h);
      } else {
        OtherCallsKeepFacts(m, agent, c, h);
      }
      assert h + [] == h;
    }
  }

  /** All hosts in the first report of each command, as they were reported, in order. */
  ghost function Reported(agent: AgentId, cs: seq<Call>): seq<RawSighting> {
    if cs == [] then []
    else
      var front, last := cs[..|cs| - 1], cs[|cs| - 1];
      Reported(agent, front) +
      if Reports(last, agent) && !ReportedBefore(front, agent, last.id)
      then Timed(Flat(last.row.result.value.logs.value.subnets), ScannedAt(last.row, last.now))
      else []
  }

  lemma {:induction false} HistoryIsCleaned(agent: AgentId, cs: seq<Call>)
    ensures History(agent, cs) == Cleaned(Reported(agent, cs))
  {
    if cs != [] {
      var front, last := cs[..|cs| - 1], cs[|cs| - 1];
      HistoryIsCleaned(agent, front);
      if Reports(last, agent) && !ReportedBefore(front, agent, last.id) {
        CleanedWithScan(Reported(agent, front), last.row.result.value.logs.value.subnets, ScannedAt(last.row, last.now));
      } else {
        assert Reported(agent, front) + [] == Reported(agent, front);
      }
    }
  }

  /** The host table after any calls, in terms of the raw hosts of all first-time results: an address has
      a row if and only if one of them names it; each row holds the last name and hardware address given
      for its address, every positive port listed for it, when it was reported first and last and whether
      it was reported once; no address has two rows; rows come in the order of the first report, with one
      alert each. */
  lemma HostTableMirrorsReports(agent: AgentId, cs: seq<Call>)
    ensures Mirrors(Run(agent, cs).tables, Reported(agent, cs))
  {
    HostTableSummarisesHistory(agent, cs);
    HistoryIsCleaned(agent, cs);
    TableMirrorsReports(Run(agent, cs).tables, Reported(agent, cs));
  }

  /** No command is folded in twice. */
  lemma {:induction false} FoldedAtMostOnce(agent: AgentId, cs: seq<Call>)
    ensures forall i, j :: 0 <= i < j < |Run(agent, cs).snapshots| ==>
              Run(agent, cs).snapshots[i].command != Run(agent, cs).snapshots[j].command
  {
    if cs != [] { FoldedAtMostOnce(agent, cs[..|cs| - 1]); }
  }

  // ----- Findings -----

  lemma {:induction false} FindingsStayUnique(agent: AgentId, cs: seq<Call>)
    ensures UniqueIds(Run(agent, cs).findings)
  {
    if cs != [] {
      var m, c := Run(agent, cs[..|cs| - 1]), cs[|cs| - 1];
      FindingsStayUnique(agent, cs[..|cs| - 1]);
      match c
      case VulnAck(row, now) =>
        if IsVulnResult(row, agent) {
          RecordAllKeepsUnique(m.findings, row.result.value.logs.value.findings, LogOwner(m.tables.hosts), ScannedAt(row, now));
        }
      case Push(job, ip, findings, now) =>
        var host := PushedHost(m.tables.hosts, job, ip);
        if host.Some? {
          RecordAllKeepsUnique(m.findings, findings, PushOwner(host.value, m.tables.hosts[host.value].facts.ip), now);
        }
      case _ =>
    }
  }

  /** Hosts keep their row and address; findings are only ever appended. */
  lemma CallsOnlyAdd(m: Monitor, agent: AgentId, c: Call, i: nat)
    requires i < |m.tables.hosts|
    ensures var m' := After(m, agent, c);
            && i < |m'.tables.hosts| && m'.tables.hosts[i].facts.ip == m.tables.hosts[i].facts.ip
            && m.findings <= m'.findings
  {
    match c
    case ScanAck(id, row, now, staleBefore) =>
      if IsScanResult(row, agent) {
        FoldAllKeepsFlags(m.tables, ScanEntries(row.result.value.logs.value.subnets), ScannedAt(row, now), i);
      }
    case VulnAck(row, now) =>
      if IsVulnResult(row, agent) {
        RecordAllAppends(m.findings, row.result.value.logs.value.findings, LogOwner(m.tables.hosts), ScannedAt(row, now));
      }
    case Push(job, ip, findings, now) =>
      var host := PushedHost(m.tables.hosts, job, ip);
      if host.Some? {
        RecordAllAppends(m.findings, findings, PushOwner(host.value, m.tables.hosts[host.value].facts.ip), now);
      }
    case Rescan(_) =>
  }

  ghost function RunFrom(m: Monitor, agent: AgentId, cs: seq<Call>): Monitor {
    if cs == [] then m else After(RunFrom(m, agent, cs[..|cs| - 1]), agent, cs[|cs| - 1])
  }

  lemma {:induction false} FindingsOnlyGrow(m: Monitor, agent: AgentId, cs: seq<Call>)
    ensures m.findings <= RunFrom(m, agent, cs).findings
  {
    if cs != [] {
      var before, c := RunFrom(m, agent, cs[..|cs| - 1]), cs[|cs| - 1];
      FindingsOnlyGrow(m, agent, cs[..|cs| - 1]);
      if BringsResults(c) {
        ResultsAreRecorded(before, agent, c);
        RecordAllAppends(before.findings, Results(c, agent), Owner(c, before.tables.hosts), At(c));
      }
    }
  }

  lemma {:induction false} RunsOnlyAdd(m: Monitor, agent: AgentId, cs: seq<Call>, i: nat)
    requires i < |m.tables.hosts|
    ensures var m' := RunFrom(m, agent, cs);
            && i < |m'.tables.hosts| && m'.tables.hosts[i].facts.ip == m.tables.hosts[i].facts.ip
            && m.findings <= m'.findings
  {
    if cs != [] {
      RunsOnlyAdd(m, agent, cs[..|cs| - 1], i);
      CallsOnlyAdd(RunFrom(m, agent, cs[..|cs| - 1]), agent, cs[|cs| - 1], i);
    }
  }

  // ----- The same results once more -----

  /** The results a call brings, and which of the known hosts each belongs to. */
  function Results(c: Call, agent: AgentId): seq<RawFinding> {
    match c
    case Push(_, _, findings, _) => findings
    case VulnAck(row, _) => if IsVulnResult(row, agent) then row.result.value.logs.value.findings else []
    case _ => []
  }

  function Owner(c: Call, hosts: seq<Host>): RawFinding -> Option<nat>
    requires c.Push? || c.VulnAck?
  {
    if c.VulnAck? then LogOwner(hosts)
    else
      var host := PushedHost(hosts, c.job, c.ip);
      if host.None? then (f: RawFinding) => None else PushOwner(host.value, hosts[host.value].facts.ip)
  }

  predicate BringsResults(c: Call) { c.Push? || c.VulnAck? }

  function At(c: Call): int
    requires BringsResults(c)
  {
    match c
    case Push(_, _, _, now) => now
    case VulnAck(row, now) => ScannedAt(row, now)
  }

  lemma {:induction false} OwnerlessAddsNothing(fs: seq<Finding>, raw: seq<RawFinding>, at: int)
    ensures RecordAll(fs, raw, (f: RawFinding) => None, at) == fs
  {
    AddsNothing(fs, raw, (f: RawFinding) => None, at);
  }

  lemma ResultsAreRecorded(m: Monitor, agent: AgentId, c: Call)
    requires BringsResults(c)
    ensures After(m, agent, c).findings == RecordAll(m.findings, Results(c, agent), Owner(c, m.tables.hosts), At(c))
  {
    if c.Push? && PushedHost(m.tables.hosts, c.job, c.ip).None? {
      OwnerlessAddsNothing(m.findings, c.findings, c.now);
    }
  }

  /** What a call with results records: exactly those that belong to a host and are the first of their id
      there, in order, with their description and the call's time. */
  lemma ResultsAddExactlyTheNew(m: Monitor, agent: AgentId, c: Call) returns (ps: seq<nat>)
    requires BringsResults(c)
    ensures Increasing(ps) && forall k {:trigger k in ps} ::
              k in ps <==> 0 <= k < |Results(c, agent)| && IsNew(m.findings, Results(c, agent), Owner(c, m.tables.hosts), k)
    ensures m.findings <= After(m, agent, c).findings && |After(m, agent, c).findings| == |m.findings| + |ps|
    ensures forall i :: 0 <= i < |ps| ==>
              && ps[i] in ps
              && After(m, agent, c).findings[|m.findings| + i] ==
                 RecordedAt(Results(c, agent), Owner(c, m.tables.hosts), At(c), ps[i])
  {
    ResultsAreRecorded(m, agent, c);
    ps := RecordsExactlyTheNew(m.findings, Results(c, agent), Owner(c, m.tables.hosts), At(c));
  }

  /** In every run, an address leads to exactly the row that has it. */
  lemma AddressesLeadToTheirRow(agent: AgentId, cs: seq<Call>, ip: string, i: nat)
    requires i < |Run(agent, cs).tables.hosts|
    ensures FindIp(Run(agent, cs).tables.hosts, ip) == Some(i) <==> Run(agent, cs).tables.hosts[i].facts.ip == ip
  {
    var h := History(agent, cs);
    HostTableSummarisesHistory(agent, cs);
    RowsFollowDiscovery(Run(agent, cs).tables, h, i);
    FoundRow(Run(agent, cs).tables, h, i);
  }

  /** In every run: a push is for the host of its job, or without a job for the host with its address; its
      results are that host's unless they name another address, and the results of a scan belong to the
      hosts whose addresses they name. */
  lemma OwnersAreTheNamedHosts(agent: AgentId, cs: seq<Call>, c: Call, f: RawFinding, i: nat)
    requires BringsResults(c) && i < |Run(agent, cs).tables.hosts|
    ensures var hosts := Run(agent, cs).tables.hosts; var ip := hosts[i].facts.ip;
            Owner(c, hosts)(f) == Some(i) <==>
            if c.VulnAck? then Strip(f.ip) != "" && Strip(f.ip) == ip
            else && (if c.job.Some? then c.job.value == i else Strip(c.ip) != "" && Strip(c.ip) == ip)
                 && (Strip(f.ip) == "" || Strip(f.ip) == ip)
  {
    AddressesLeadToTheirRow(agent, cs, Strip(f.ip), i);
    if c.Push? { AddressesLeadToTheirRow(agent, cs, Strip(c.ip), i); }
  }

  /** Hosts known now are known later, under the same row and address. */
  ghost predicate Extends(hosts: seq<Host>, hosts': seq<Host>) {
    |hosts| <= |hosts'| && forall i :: 0 <= i < |hosts| ==> hosts'[i].facts.ip == hosts[i].facts.ip
  }

  lemma RunsExtend(m: Monitor, agent: AgentId, cs: seq<Call>)
    ensures Extends(m.tables.hosts, RunFrom(m, agent, cs).tables.hosts)
    ensures m.findings <= RunFrom(m, agent, cs).findings
  {
    var m' := RunFrom(m, agent, cs);
    FindingsOnlyGrow(m, agent, cs);
    if m.tables.hosts != [] { RunsOnlyAdd(m, agent, cs, |m.tables.hosts| - 1); }
    forall i | 0 <= i < |m.tables.hosts|
      ensures i < |m'.tables.hosts| && m'.tables.hosts[i].facts.ip == m.tables.hosts[i].facts.ip
    {
      RunsOnlyAdd(m, agent, cs, i);
    }
  }

  lemma OwnersStay(c: Call, hosts: seq<Host>, hosts': seq<Host>, f: RawFinding)
    requires BringsResults(c) && Extends(hosts, hosts') && Owner(c, hosts)(f).Some?
    ensures Owner(c, hosts')(f) == Owner(c, hosts)(f)
  {
    if c.VulnAck? {
      FindIpStays(hosts, hosts', Strip(f.ip));
    } else if c.job.None? {
      FindIpStays(hosts, hosts', Strip(c.ip));
    }
  }

  /** The same call at another time. */
  function Again(c: Call, now: int): Call
    requires BringsResults(c)
  {
    match c
    case Push(job, ip, findings, _) => Push(job, ip, findings, now)
    case VulnAck(row, _) => VulnAck(row, now)
  }

  /** Repeating a result push, by job or by address, or the results of a vulnerability scan, with any
      calls in between: no finding is added if and only if each result that belongs to a known host now
      carries an id, and belonged to a known host before or is a known finding of its host by now. */
  lemma RepeatingAddsNothing(m: Monitor, agent: AgentId, c: Call, between: seq<Call>, again: int)
    requires BringsResults(c)
    ensures var later := RunFrom(After(m, agent, c), agent, between);
            var owner, owner' := Owner(c, m.tables.hosts), Owner(c, later.tables.hosts);
            After(later, agent, Again(c, again)).findings == later.findings <==>
            forall f :: f in Results(c, agent) && owner'(f).Some? ==>
              f.id != "" && (owner(f).Some? || Known(later.findings, owner'(f).value, f.id))
  {
    var done := After(m, agent, c);
    var later := RunFrom(done, agent, between);
    var owner, owner' := Owner(c, m.tables.hosts), Owner(c, later.tables.hosts);
    ResultsAreRecorded(m, agent, c);
    ResultsAreRecorded(later, agent, Again(c, again));
    RunsExtend(done, agent, between);
    assert Extends(m.tables.hosts, later.tables.hosts) by { assert done.tables.hosts == After(m, agent, c).tables.hosts; }
    forall f | owner(f).Some? ensures owner'(f) == owner(f) { OwnersStay(c, m.tables.hosts, later.tables.hosts, f); }
    ReprocessingAddsNothing(m.findings, Results(c, agent), owner, At(c), later.findings, owner', At(Again(c, again)));
  }

  /** For a job of a known host: pushing its results again adds nothing exactly when each result that
      names the job's host, or none, carries an id. */
  lemma PushingAgainAddsNothing(m: Monitor, agent: AgentId, job: nat, ip: string, findings: seq<RawFinding>, now: int,
                                between: seq<Call>, again: int)
    requires job < |m.tables.hosts|
    ensures var later := RunFrom(After(m, agent, Push(Some(job), ip, findings, now)), agent, between);
            After(later, agent, Push(Some(job), ip, findings, again)).findings == later.findings <==>
            forall f :: f in findings && Strip(f.ip) in {"", m.tables.hosts[job].facts.ip} ==> f.id != ""
  {
    var c := Push(Some(job), ip, findings, now);
    var pushed := After(m, agent, c);
    RunsOnlyAdd(pushed, agent, between, job);
    RepeatingAddsNothing(m, agent, c, between, again);
  }

  const LATECOMER := "10.0.0.5"

  const REPORT := RawFinding("10.0.0.5", "CVE-1", "")

  /** A monitor scan that finds the host, and the results of a vulnerability scan of it. */
  function Sighted(agent: AgentId): Row {
    Command(agent, ScanNetwork(true, []), Acked, None,
            Some(Report(Some(Logs([[RawHost(LATECOMER, "", "", [])]], [])))), Some(1))
  }

  function Scanned(agent: AgentId): Row {
    Command(agent, VulnScan([]), Acked, None, Some(Report(Some(Logs([], [REPORT])))), Some(0))
  }

  lemma LatecomerIsTrimmed()
    ensures Strip(LATECOMER) == LATECOMER
  {
    StripTrims(LATECOMER);
  }

  lemma SightedHost(agent: AgentId)
    ensures var m := After(EMPTY, agent, ScanAck(0, Sighted(agent), 1, None));
            |m.tables.hosts| == 1 && m.tables.hosts[0].facts.ip == LATECOMER && m.findings == []
  {
    LatecomerIsTrimmed();
    OneHostScan(EMPTY.tables, RawHost(LATECOMER, "", "", []), 1);
  }

  /** Results that arrive before their host is discovered are dropped, so the very same push, or scan
      result, adds a finding when it is repeated after the discovery, identified though it is. */
  lemma DroppedResultsAreAddedLater(agent: AgentId, c: Call)
    requires c == Push(None, LATECOMER, [REPORT], 0) || c == VulnAck(Scanned(agent), 0)
    ensures After(EMPTY, agent, c) == EMPTY
    ensures var later := RunFrom(After(EMPTY, agent, c), agent, [ScanAck(0, Sighted(agent), 1, None)]);
            |After(later, agent, c).findings| == |later.findings| + 1
  {
    LatecomerIsTrimmed();
    SightedHost(agent);
    RecordOne([], REPORT, LogOwner([]), 0);
    var scan := [ScanAck(0, Sighted(agent), 1, None)];
    assert scan[..0] == [];
    var later := After(EMPTY, agent, scan[0]);
    assert RunFrom(EMPTY, agent, scan) == later;
    FoundAlone(later.tables.hosts);
    ResultsAreRecorded(later, agent, c);
    RecordOne(later.findings, REPORT, Owner(c, later.tables.hosts), 0);
  }

  lemma FoundAlone(hosts: seq<Host>)
    requires |hosts| == 1 && hosts[0].facts.ip == LATECOMER
    ensures FindIp(hosts, LATECOMER) == Some(0)
  {
    assert hosts[..0] == [];
  }

  /** A pending vulnerability scan is only ever cleared by a result push for that very host. */
  lemma PendingClearedOnlyByPush(m: Monitor, agent: AgentId, c: Call, i: nat)
    requires i < |m.tables.hosts| && m.tables.hosts[i].vulnPending
    ensures i < |After(m, agent, c).tables.hosts|
    ensures !After(m, agent, c).tables.hosts[i].vulnPending <==>
            c.Push? && PushedHost(m.tables.hosts, c.job, c.ip) == Some(i)
  {
    if c.ScanAck? && IsScanResult(c.row, agent) {
      FoldAllKeepsFlags(m.tables, ScanEntries(c.row.result.value.logs.value.subnets), ScannedAt(c.row, c.now), i);
    }
  }

  // ----- The queue of pending hosts -----

  function FirstSeen(hosts: seq<Host>, i: nat): int { if i < |hosts| then hosts[i].facts.firstSeen else 0 }

  /** Ordering by first_seen_at; equal times are told apart by row number. */
  function Earlier(hosts: seq<Host>): (nat, nat) -> bool {
    (i: nat, j: nat) => FirstSeen(hosts, i) < FirstSeen(hosts, j) || (FirstSeen(hosts, i) == FirstSeen(hosts, j) && i < j)
  }

  function PendingHosts(hosts: seq<Host>): set<nat> {
    set i: nat | i < |hosts| && hosts[i].vulnPending
  }

  /** The queue handed to the agent: pending hosts only, no more than the worker limit, the longest
      known first; a pending host is left out only when the queue is full of longer known ones. */
  ghost predicate IsQueue(hosts: seq<Host>, limit: nat, queue: seq<nat>) {
    && |queue| <= limit
    && Sorted(Earlier(hosts), queue)
    && (forall i :: i in queue ==> i in PendingHosts(hosts))
    && (forall i :: i in PendingHosts(hosts) && i !in queue ==>
          |queue| == limit && forall j :: j in queue ==> Earlier(hosts)(j, i))
  }

  lemma EarlierIsOrder(hosts: seq<Host>)
    ensures StrictOrder(Earlier(hosts))
  {
  }

  lemma FirstOfSorted(hosts: seq<Host>, limit: nat, pending: seq<nat>)
    requires Sorted(Earlier(hosts), pending) && Elements(pending) == PendingHosts(hosts)
    ensures IsQueue(hosts, limit, if |pending| <= limit then pending else pending[..limit])
  {
  }

  method GetVulnScanQueue(hosts: seq<Host>, policy: Option<VulnPolicy>, modulesReady: bool)
    returns (workers: nat, queue: seq<nat>)
    ensures workers == if policy.Some? && policy.value.workers > 1 then policy.value.workers else 1
    ensures if policy.Some? && policy.value.enabled && modulesReady then IsQueue(hosts, workers, queue) else queue == []
  {
    if policy.None? {
      return 1, [];
    }
    workers := if policy.value.workers > 1 then policy.value.workers else 1;
    if !policy.value.enabled || !modulesReady {
      return workers, [];
    }
    EarlierIsOrder(hosts);
    var pending := SortSet(Earlier(hosts), PendingHosts(hosts));
    queue := if |pending| <= workers then pending else pending[..workers];
    FirstOfSorted(hosts, workers, pending);
  }

  predicate Asked(h: Host, ip: string) { ip == "" || h.facts.ip == Strip(ip) }

  datatype RescanRefusal = Offline | Disabled | ModulesMissing | BlankAddress | UnknownHost | NoHosts

  datatype RescanResult = Marked(count: nat) | Refused(why: RescanRefusal)

  /** Why a rescan is refused, in the order of the checks. */
  function RescanRefusalFor(hosts: seq<Host>, ip: string, policy: VulnPolicy, online: bool, modulesReady: bool)
    : Option<RescanRefusal>
  {
    if !online then Some(Offline)
    else if !policy.enabled then Some(Disabled)
    else if !modulesReady then Some(ModulesMissing)
    else if ip != "" && Strip(ip) == "" then Some(BlankAddress)
    else if exists i :: 0 <= i < |hosts| && Asked(hosts[i], ip) then None
    else if ip == "" then Some(NoHosts)
    else Some(UnknownHost)
  }

  lemma NoneAsked(hosts: seq<Host>, ip: string)
    ensures Where(hosts, (h: Host) => Asked(h, ip)) == [] <==> !exists i :: 0 <= i < |hosts| && Asked(hosts[i], ip)
  {
    var found := Where(hosts, (h: Host) => Asked(h, ip));
    WhereIsExact(hosts, (h: Host) => Asked(h, ip));
    if found != [] { assert found[0] in found; }
    if i :| 0 <= i < |hosts| && Asked(hosts[i], ip) { assert i in found; }
  }

  // ----- The service calls -----

  predicate VulnScanInFlight(row: Row, agent: AgentId) {
    row.agent == agent && (row.payload.ScanNetwork? || row.payload.VulnScan?) && row.state.InFlight()
  }

  predicate CanEnqueueVulnScan(rows: seq<Row>, agent: AgentId, policy: VulnPolicy, modulesReady: bool) {
    policy.enabled && !(exists i :: 0 <= i < |rows| && VulnScanInFlight(rows[i], agent)) && modulesReady
  }

  function StaleBefore(rows: seq<Row>, agent: AgentId, policy: Option<VulnPolicy>, modulesReady: bool, now: int): Option<int> {
    if policy.None? || !CanEnqueueVulnScan(rows, agent, policy.value, modulesReady) then None
    else Some(now - policy.value.rescanDays * SECONDS_PER_DAY)
  }

  /** The ack endpoint for a command of this gateway's agent, on both tables. */
  ghost function Acknowledged(rows: seq<Row>, m: Monitor, agent: AgentId, id: nat, ok: bool, result: Report,
                              policy: Option<VulnPolicy>, modulesReady: bool, now: int): (seq<Row>, Monitor)
    requires id < |rows|
  {
    if rows[id].state.Settled() then (rows, m)
    else
      var rows' := AfterAck(rows, id, ok, result, now);
      var scanned := After(m, agent, ScanAck(id, rows'[id], now, StaleBefore(rows', agent, policy, modulesReady, now)));
      (rows', After(scanned, agent, VulnAck(rows'[id], now)))
  }

  /** An ack for a command that has expired, or was acked before, changes no command, host or finding. */
  lemma LateAckChangesNothing(rows: seq<Row>, m: Monitor, agent: AgentId, id: nat, ok: bool, result: Report,
                              policy: Option<VulnPolicy>, modulesReady: bool, now: int)
    requires id < |rows|
    ensures Acknowledged(rows, m, agent, id, ok, result, policy, modulesReady, now) == (rows, m) <==>
            rows[id].state.Settled()
  {
  }

  lemma SeenInScan(subnets: seq<seq<RawHost>>, ip: string)
    ensures ip in Ips(ScanEntries(subnets)) <==> NamesHost(subnets, ip)
  {
    EntriesHaveTheNamed(subnets, ip);
  }

  /** The first result of a monitor scan leaves a host pending exactly if it was before, or if scans may be
      queued, the scan names it, and it is new, was never scanned, or not since the given time. */
  lemma MarkedByScan(m: Monitor, id: nat, row: Row, now: int, staleBefore: Option<int>, i: nat)
    requires IsScanResult(row, row.agent) && i < |AfterScan(m, id, row, now, staleBefore).tables.hosts|
    ensures var h := AfterScan(m, id, row, now, staleBefore).tables.hosts[i];
            && h.lastVulnScan == (if i < |m.tables.hosts| then m.tables.hosts[i].lastVulnScan else None)
            && (h.vulnPending <==>
                  || (i < |m.tables.hosts| && m.tables.hosts[i].vulnPending)
                  || (staleBefore.Some? && NamesHost(row.result.value.logs.value.subnets, h.facts.ip)
                      && (h.facts.isNew || h.lastVulnScan.None? || h.lastVulnScan.value <= staleBefore.value)))
  {
    var subnets, at := row.result.value.logs.value.subnets, ScannedAt(row, now);
    var entries := ScanEntries(subnets);
    var t := FoldAll(m.tables, entries, at);
    SeenInScan(subnets, t.hosts[i].facts.ip);
    if i < |m.tables.hosts| {
      FoldAllKeepsFlags(m.tables, entries, at, i);
    } else {
      NewRowsAreUnmarked(m.tables, entries, at, i);
    }
  }

  /** Whether some scan of this agent is pending or dispatched. */
  predicate Scanning(rows: seq<Row>, agent: AgentId) {
    exists i :: 0 <= i < |rows| && rows[i].agent == agent && (rows[i].payload.ScanNetwork? || rows[i].payload.VulnScan?)
                && (rows[i].state.Pending? || rows[i].state.Dispatched?)
  }

  lemma WhenScansMayBeQueued(rows: seq<Row>, agent: AgentId, policy: Option<VulnPolicy>, modulesReady: bool, now: int)
    ensures StaleBefore(rows, agent, policy, modulesReady, now) ==
            if policy.Some? && policy.value.enabled && modulesReady && !Scanning(rows, agent)
            then Some(now - policy.value.rescanDays * 86400) else None
  {
    if i :| 0 <= i < |rows| && rows[i].agent == agent && (rows[i].payload.ScanNetwork? || rows[i].payload.VulnScan?)
            && (rows[i].state.Pending? || rows[i].state.Dispatched?) {
      assert VulnScanInFlight(rows[i], agent);
    }
  }

  /** Acking an open monitor scan of this agent as successful, with readable logs and for the first time:
      afterwards a host is pending exactly if it was before, or if vulnerability scans are enabled and
      installed, no other scan is open, the logs name the host, and it is new, was never scanned, or was
      last scanned at least the rescan period ago. */
  lemma AckedScanMarksExactly(rows: seq<Row>, m: Monitor, agent: AgentId, id: nat, result: Report,
                              policy: Option<VulnPolicy>, modulesReady: bool, now: int, i: nat)
    requires id < |rows| && rows[id].agent == agent && !rows[id].state.Settled() && !Folded(m, id)
    requires rows[id].payload.ScanNetwork? && rows[id].payload.monitor && result.logs.Some?
    requires i < |Acknowledged(rows, m, agent, id, true, result, policy, modulesReady, now).1.tables.hosts|
    ensures var (rows', m') := Acknowledged(rows, m, agent, id, true, result, policy, modulesReady, now);
            var h := m'.tables.hosts[i];
            h.vulnPending <==>
              || (i < |m.tables.hosts| && m.tables.hosts[i].vulnPending)
              || (&& policy.Some? && policy.value.enabled && modulesReady && !Scanning(rows', agent)
                  && NamesHost(result.logs.value.subnets, h.facts.ip)
                  && (h.facts.isNew || h.lastVulnScan.None? || now - h.lastVulnScan.value >= policy.value.rescanDays * 86400))
  {
    var rows' := AfterAck(rows, id, true, result, now);
    WhenScansMayBeQueued(rows', agent, policy, modulesReady, now);
    MarkedByScan(m, id, rows'[id], now, StaleBefore(rows', agent, policy, modulesReady, now), i);
  }

  /** A vulnerability scan's time is recorded for exactly the hosts it was for. */
  lemma StampedExactly(m: Monitor, agent: AgentId, c: Call, i: nat)
    requires i < |m.tables.hosts|
    ensures i < |After(m, agent, c).tables.hosts|
    ensures var h, h' := m.tables.hosts[i], After(m, agent, c).tables.hosts[i];
            h'.lastVulnScan ==
            if c.VulnAck? && IsVulnResult(c.row, agent) && h.facts.ip in c.row.payload.ips
            then Some(c.row.ackedAt.GetOr(c.now))
            else if c.Push? && PushedHost(m.tables.hosts, c.job, c.ip) == Some(i) then Some(c.now)
            else h.lastVulnScan
  {
    if c.ScanAck? && IsScanResult(c.row, agent) {
      FoldAllKeepsFlags(m.tables, ScanEntries(c.row.result.value.logs.value.subnets), ScannedAt(c.row, c.now), i);
    }
  }

  method MarkAsked(hosts: seq<Host>, ip: string) returns (marked: seq<Host>, count: nat)
    ensures |marked| == |hosts|
    ensures forall i :: 0 <= i < |hosts| ==>
              marked[i] == if Asked(hosts[i], ip) then hosts[i].(vulnPending := true) else hosts[i]
    ensures count == |Where(hosts, (h: Host) => Asked(h, ip))|
  {
    ghost var asked := (h: Host) => Asked(h, ip);
    marked, count := [], 0;
    for i := 0 to |hosts|
      invariant |marked| == i
      invariant forall j :: 0 <= j < i ==>
                  marked[j] == if Asked(hosts[j], ip) then hosts[j].(vulnPending := true) else hosts[j]
      invariant count == |Where(hosts[..i], asked)|
    {
      WhereGrows(hosts, i, asked);
      if ip == "" || hosts[i].facts.ip == Strip(ip) {
        marked, count := marked + [hosts[i].(vulnPending := true)], count + 1;
      } else {
        marked := marked + [hosts[i]];
      }
    }
    assert hosts[..|hosts|] == hosts;
  }

  class MonitoringService {
    const agent: AgentId
    const commands: CommandTable<Job, Report>
    var state: Monitor

    constructor (agent: AgentId, commands: CommandTable<Job, Report>)
      ensures this.agent == agent && this.commands == commands && state == EMPTY
    {
      this.agent, this.commands, state := agent, commands, EMPTY;
    }

    method MaybeEnqueueVulnScans(seen: set<string>, policy: Option<VulnPolicy>, modulesReady: bool, now: int)
      modifies this
      ensures state == old(state).(tables := old(state).tables.(hosts :=
                       MarkPending(old(state).tables.hosts, seen, StaleBefore(commands.rows, agent, policy, modulesReady, now))))
    {
      var hosts := state.tables.hosts;
      if policy.Some? && CanEnqueueVulnScan(commands.rows, agent, policy.value, modulesReady) {
        var staleBefore := now - policy.value.rescanDays * SECONDS_PER_DAY;
        var i := 0;
        while i < |hosts|
          invariant 0 <= i <= |hosts| == |old(state).tables.hosts|
          invariant hosts[..i] == MarkPending(old(state).tables.hosts, seen, Some(staleBefore))[..i]
          invariant hosts[i..] == old(state).tables.hosts[i..]
        {
          var h := hosts[i];
          if h.facts.ip in seen && !h.vulnPending {
            if h.facts.isNew || h.lastVulnScan.None? || h.lastVulnScan.value <= staleBefore {
              hosts := hosts[i := h.(vulnPending := true)];
            }
          }
          i := i + 1;
        }
      }
      state := state.(tables := state.tables.(hosts := hosts));
    }

    method ProcessMonitorScanAck(id: nat, policy: Option<VulnPolicy>, modulesReady: bool, now: int)
      requires id < |commands.rows|
      modifies this
      ensures state == After(old(state), agent, ScanAck(id, commands.rows[id], now,
                             StaleBefore(commands.rows, agent, policy, modulesReady, now)))
    {
      var row := commands.rows[id];
      if !row.payload.ScanNetwork? || !row.payload.monitor || !row.state.Acked? {
        return;
      }
      if Folded(state, id) {
        return;
      }
      if row.result.None? || row.result.value.logs.None? || row.agent != agent {
        return;
      }
      var scannedAt := if row.ackedAt.Some? then row.ackedAt.value else now;
      var entries := ExtractHosts(row.result.value.logs.value.subnets);
      var tables := FoldEntries(state.tables, entries, scannedAt);
      state := state.(tables := tables,
                      snapshots := state.snapshots + [Snapshot(id, scannedAt, row.payload.targets, |entries|)]);
      MaybeEnqueueVulnScans(Ips(entries), policy, modulesReady, now);
    }

    method ProcessVulnScanAck(id: nat, now: int)
      requires id < |commands.rows|
      modifies this
      ensures state == After(old(state), agent, VulnAck(commands.rows[id], now))
    {
      var row := commands.rows[id];
      if !row.payload.VulnScan? || !row.state.Acked? || row.agent != agent {
        return;
      }
      if row.result.None? || row.result.value.logs.None? {
        return;
      }
      var scannedAt := if row.ackedAt.Some? then row.ackedAt.value else now;
      var hosts := state.tables.hosts;
      var findings := RecordFindings(row.result.value.logs.value.findings, LogOwner(hosts), scannedAt);
      var ips := row.payload.ips;
      hosts := seq(|hosts|, i requires 0 <= i < |hosts| =>
        if hosts[i].facts.ip in ips then hosts[i].(lastVulnScan := Some(scannedAt)) else hosts[i]);
      state := state.(findings := findings, tables := state.tables.(hosts := hosts));
    }

    method RecordFindings(raw: seq<RawFinding>, owner: RawFinding -> Option<nat>, at: int) returns (findings: seq<Finding>)
      ensures findings == RecordAll(state.findings, raw, owner, at)
    {
      findings := state.findings;
      for i := 0 to |raw|
        invariant findings == RecordAll(state.findings, raw[..i], owner, at)
      {
        assert raw[..i + 1][..i] == raw[..i];
        var f := raw[i];
        var host := owner(f);
        if host.None? || (f.id != "" && Known(findings, host.value, f.id)) {
          continue;
        }
        findings := findings + [Finding(host.value, f.id, f.about, at)];
      }
      assert raw[..|raw|] == raw;
    }

    method ProcessVulnResultsPush(job: Option<nat>, ip: string, findings: seq<RawFinding>, now: int)
      modifies this
      ensures state == After(old(state), agent, Push(job, ip, findings, now))
    {
      if job.None? && Strip(ip) == "" {
        return;
      }
      var hosts := state.tables.hosts;
      var host: Option<nat> := FindIp(hosts, Strip(ip));
      if job.Some? {
        host := if job.value < |hosts| then job else None;
      }
      if host.None? {
        return;
      }
      var h := hosts[host.value];
      var recorded := RecordFindings(findings, PushOwner(host.value, h.facts.ip), now);
      state := state.(findings := recorded, tables := state.tables.(
               hosts := hosts[host.value := h.(vulnPending := false, lastVulnScan := Some(now))]));
    }

    /** An empty `ip` means every host; a blank one is refused. */
    method TriggerVulnRescan(ip: string, policy: VulnPolicy, online: bool, modulesReady: bool) returns (r: RescanResult)
      modifies this
      ensures RescanRefusalFor(old(state).tables.hosts, ip, policy, online, modulesReady) ==
              if r.Refused? then Some(r.why) else None
      ensures r.Refused? ==> state == old(state)
      ensures r.Marked? ==>
                && r.count == |Where(old(state).tables.hosts, (h: Host) => Asked(h, ip))| > 0
                && state == After(old(state), agent, Rescan(if ip == "" then None else Some(Strip(ip))))
    {
      if !online {
        return Refused(Offline);
      }
      if !policy.enabled {
        return Refused(Disabled);
      }
      if !modulesReady {
        return Refused(ModulesMissing);
      }
      if ip != "" && Strip(ip) == "" {
        return Refused(BlankAddress);
      }
      NoneAsked(state.tables.hosts, ip);
      var hosts, count := MarkAsked(state.tables.hosts, ip);
      if count == 0 {
        return if ip == "" then Refused(NoHosts) else Refused(UnknownHost);
      }
      state := state.(tables := state.tables.(hosts := hosts));
      r := Marked(count);
    }

    /** The ack endpoint for this gateway's agent: a settled command answers without effect; any other is
        settled, and its result goes to the host table or the findings in the same transaction. */
    method AckCommand(id: nat, ok: bool, result: Report, policy: Option<VulnPolicy>, modulesReady: bool, now: int)
      returns (found: bool, applied: bool)
      modifies this, commands
      ensures found == (id < |old(commands.rows)| && old(commands.rows)[id].agent == agent)
      ensures applied == (found && old(commands.rows)[id].state.InFlight())
      ensures (commands.rows, state) ==
              if found then Acknowledged(old(commands.rows), old(state), agent, id, ok, result, policy, modulesReady, now)
              else (old(commands.rows), old(state))
    {
      found, applied := commands.Ack(agent, id, ok, result, now);
      if !applied {
        return;
      }
      ProcessMonitorScanAck(id, policy, modulesReady, now);
      ProcessVulnScanAck(id, now);
    }
  }
}
