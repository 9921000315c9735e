/** Folding monitor scans into the table of discovered hosts (gateways/monitoring_service.py).

    A host is identified by its row number, which is also its place in creation order. */
module HostInventory {
  import opened Options
  import opened Sequences
  import opened Sorting
  import opened EnvFile
  import opened Cidr
  import opened CommandQueue
  import opened GatewayJobs

  /** One host entry of a scan, cleaned up; ports ascending and without repeats. */
  datatype Entry = Entry(ip: string, hostname: string, mac: string, ports: seq<int>)

  datatype Facts = Facts(
    ip: string,
    hostname: string,
    mac: string,
    firstSeen: int,
    lastSeen: int,
    isNew: bool,
    ports: seq<int>)

  datatype Host = Host(facts: Facts, vulnPending: bool, lastVulnScan: Option<int>)

  /** One NEW_HOST alert per entry, naming the host. */
  datatype Tables = Tables(hosts: seq<Host>, alerts: seq<string>)

  // ----- Reading a scan -----

  function ValidPorts(ports: seq<RawPort>): set<int> {
    set p | p in ports && p.Number? && p.value > 0 :: p.value
  }

  ghost function EntryOf(h: RawHost): Entry {
    Entry(Strip(h.ip), h.hostname, h.mac, SortedSeq(IntLess, ValidPorts(h.ports)))
  }

  ghost function HostEntries(hs: seq<RawHost>): seq<Entry> {
    if hs == [] then []
    else HostEntries(hs[..|hs| - 1]) + if Strip(hs[|hs| - 1].ip) == "" then [] else [EntryOf(hs[|hs| - 1])]
  }

  ghost function ScanEntries(subnets: seq<seq<RawHost>>): seq<Entry> {
    if subnets == [] then [] else ScanEntries(subnets[..|subnets| - 1]) + HostEntries(subnets[|subnets| - 1])
  }

  /** All hosts of a scan, in order. */
  function Flat(subnets: seq<seq<RawHost>>): seq<RawHost> {
    if subnets == [] then [] else Flat(subnets[..|subnets| - 1]) + subnets[|subnets| - 1]
  }

  /** The hosts with an address, in order. */
  function Addressed(hs: seq<RawHost>): seq<RawHost> {
    if hs == [] then []
    else Addressed(hs[..|hs| - 1]) + if Strip(hs[|hs| - 1].ip) == "" then [] else [hs[|hs| - 1]]
  }

  /** The entry keeps the host's name and hardware address, its trimmed address, and exactly the
      positive numbers among its ports, in ascending order. */
  ghost predicate Describes(e: Entry, h: RawHost) {
    && e.ip == Strip(h.ip) && e.hostname == h.hostname && e.mac == h.mac
    && Sorted(IntLess, e.ports) && forall p: int :: p in e.ports <==> p > 0 && Number(p) in h.ports
  }

  ghost predicate DescribeAll(es: seq<Entry>, hs: seq<RawHost>) {
    |es| == |hs| && forall i :: 0 <= i < |es| ==> Describes(es[i], hs[i])
  }

  lemma EntryDescribes(h: RawHost)
    ensures Describes(EntryOf(h), h)
  {
    forall p: int ensures p in EntryOf(h).ports <==> p > 0 && Number(p) in h.ports {
      assert p in Elements(EntryOf(h).ports) <==> p in ValidPorts(h.ports);
    }
  }

  lemma {:induction false} HostEntriesDescribe(hs: seq<RawHost>)
    ensures DescribeAll(HostEntries(hs), Addressed(hs))
  {
    if hs != [] {
      HostEntriesDescribe(hs[..|hs| - 1]);
      EntryDescribes(hs[|hs| - 1]);
    }
  }

  lemma JoinAssociates<T>(a: seq<T>, b: seq<T>, c: seq<T>)
    ensures b <= c ==> a + c == (a + b) + c[|b|..]
  {
  }

  lemma {:induction false} HostEntriesOfMore(a: seq<RawHost>, b: seq<RawHost>)
    ensures HostEntries(a + b) == HostEntries(a) + HostEntries(b)
  {
    if b == [] {
      assert a + b == a;
    } else {
      HostEntriesOfMore(a, b[..|b| - 1]);
      assert (a + b)[..|a + b| - 1] == a + b[..|b| - 1];
      JoinAssociates(HostEntries(a), HostEntries(b[..|b| - 1]), HostEntries(b));
    }
  }

  lemma {:induction false} ScanEntriesAreFlat(subnets: seq<seq<RawHost>>)
    ensures ScanEntries(subnets) == HostEntries(Flat(subnets))
  {
    if subnets != [] {
      ScanEntriesAreFlat(subnets[..|subnets| - 1]);
      HostEntriesOfMore(Flat(subnets[..|subnets| - 1]), subnets[|subnets| - 1]);
    }
  }

  /** The entries of a scan describe, one for one and in order, the hosts that have an address. */
  lemma ScanEntriesDescribe(subnets: seq<seq<RawHost>>)
    ensures DescribeAll(ScanEntries(subnets), Addressed(Flat(subnets)))
  {
    ScanEntriesAreFlat(subnets);
    HostEntriesDescribe(Flat(subnets));
  }

  /** The inner loop: the usable hosts of one subnet. */
  method SubnetHosts(hosts: seq<RawHost>) returns (entries: seq<Entry>)
    ensures entries == HostEntries(hosts)
  {
    entries := [];
    for j := 0 to |hosts|
      invariant entries == HostEntries(hosts[..j])
    {
      assert hosts[..j + 1][..j] == hosts[..j];
      var ip := Strip(hosts[j].ip);
      if ip == "" {
        continue;
      }
      var ports := SortSet(IntLess, ValidPorts(hosts[j].ports));
      entries := entries + [Entry(ip, hosts[j].hostname, hosts[j].mac, ports)];
    }
    assert hosts[..|hosts|] == hosts;
  }

  method ExtractHosts(subnets: seq<seq<RawHost>>) returns (entries: seq<Entry>)
    ensures entries == ScanEntries(subnets)
    ensures DescribeAll(entries, Addressed(Flat(subnets)))
  {
    ScanEntriesDescribe(subnets);
    entries := [];
    for i := 0 to |subnets|
      invariant entries == ScanEntries(subnets[..i])
    {
      assert subnets[..i + 1][..i] == subnets[..i];
      var hosts := SubnetHosts(subnets[i]);
      entries := entries + hosts;
    }
    assert subnets[..|subnets|] == subnets;
  }

  ghost predicate Tidy(e: Entry) { e.ip != "" && Sorted(IntLess, e.ports) }

  lemma {:induction false} EntriesAreTidy(subnets: seq<seq<RawHost>>)
    ensures forall e :: e in ScanEntries(subnets) ==> Tidy(e)
  {
    if subnets != [] {
      EntriesAreTidy(subnets[..|subnets| - 1]);
      HostEntriesAreTidy(subnets[|subnets| - 1]);
    }
  }

  lemma {:induction false} HostEntriesAreTidy(hs: seq<RawHost>)
    ensures forall e :: e in HostEntries(hs) ==> Tidy(e)
  {
    if hs != [] { HostEntriesAreTidy(hs[..|hs| - 1]); }
  }

  // ----- Folding an entry -----

  /** The first row with this address. */
  function FindIp(hosts: seq<Host>, ip: string): (i: Option<nat>)
    ensures i.Some? ==> i.value < |hosts| && hosts[i.value].facts.ip == ip
    ensures i.None? ==> forall j :: 0 <= j < |hosts| ==> hosts[j].facts.ip != ip
  {
    if hosts == [] then None
    else
      var i := FindIp(hosts[..|hosts| - 1], ip);
      if i.Some? then i
      else if hosts[|hosts| - 1].facts.ip == ip then Some(|hosts| - 1)
      else None
  }

  lemma {:induction false} SameAddressesSameRow(hosts: seq<Host>, hosts': seq<Host>, ip: string)
    requires |hosts| == |hosts'|
    requires forall i :: 0 <= i < |hosts| ==> hosts'[i].facts.ip == hosts[i].facts.ip
    ensures FindIp(hosts', ip) == FindIp(hosts, ip)
  {
    if hosts != [] { SameAddressesSameRow(hosts[..|hosts| - 1], hosts'[..|hosts| - 1], ip); }
  }

  /** New rows do not change which row an address leads to. */
  lemma {:induction false} FindIpStays(hosts: seq<Host>, hosts': seq<Host>, ip: string)
    requires |hosts| <= |hosts'|
    requires forall i :: 0 <= i < |hosts| ==> hosts'[i].facts.ip == hosts[i].facts.ip
    requires FindIp(hosts, ip).Some?
    ensures FindIp(hosts', ip) == FindIp(hosts, ip)
    decreases |hosts'|
  {
    if |hosts| < |hosts'| {
      FindIpStays(hosts, hosts'[..|hosts'| - 1], ip);
    } else {
      SameAddressesSameRow(hosts, hosts', ip);
    }
  }

  function FirstFacts(e: Entry, at: int): Facts {
    Facts(e.ip, e.hostname, e.mac, at, at, true, e.ports)
  }

  function Latest(value: string, known: string): string { if value != "" then value else known }

  ghost function SeenAgain(f: Facts, e: Entry, at: int): Facts {
    Facts(f.ip, Latest(e.hostname, f.hostname), Latest(e.mac, f.mac), f.firstSeen, at, false,
          SortedSeq(IntLess, Elements(f.ports) + Elements(e.ports)))
  }

  ghost function Fold(t: Tables, e: Entry, at: int): Tables {
    match FindIp(t.hosts, e.ip)
    case Some(i) => t.(hosts := t.hosts[i := t.hosts[i].(facts := SeenAgain(t.hosts[i].facts, e, at))])
    case None => Tables(t.hosts + [Host(FirstFacts(e, at), false, None)], t.alerts + [e.ip])
  }

  ghost function FoldAll(t: Tables, es: seq<Entry>, at: int): Tables {
    if es == [] then t else Fold(FoldAll(t, es[..|es| - 1], at), es[|es| - 1], at)
  }

  /** A scan that reports a single host. */
  lemma OneHostScan(t: Tables, h: RawHost, at: int)
    requires Strip(h.ip) != ""
    ensures ScanEntries([[h]]) == [EntryOf(h)]
    ensures FoldAll(t, [EntryOf(h)], at) == Fold(t, EntryOf(h), at)
  {
    var hs := [h];
    var subnets := [hs];
    var es := [EntryOf(h)];
    assert hs[..0] == [] && subnets[..0] == [] && es[..0] == [];
    assert HostEntries(hs) == es;
    assert ScanEntries(subnets) == ScanEntries([]) + es;
  }

  method FoldEntries(t: Tables, es: seq<Entry>, at: int) returns (t': Tables)
    ensures t' == FoldAll(t, es, at)
  {
    var hosts, alerts := t.hosts, t.alerts;
    for i := 0 to |es|
      invariant Tables(hosts, alerts) == FoldAll(t, es[..i], at)
    {
      assert es[..i + 1][..i] == es[..i];
      var e := es[i];
      var existing := FindIp(hosts, e.ip);
      if existing.None? {
        hosts := hosts + [Host(Facts(e.ip, e.hostname, e.mac, at, at, true, e.ports), false, None)];
        alerts := alerts + [e.ip];
      } else {
        var known := hosts[existing.value].facts;
        var ports := SortSet(IntLess, Elements(known.ports) + Elements(e.ports));
        var hostname := if e.hostname != "" then e.hostname else known.hostname;
        var mac := if e.mac != "" then e.mac else known.mac;
        hosts := hosts[existing.value := hosts[existing.value].(
                 facts := Facts(known.ip, hostname, mac, known.firstSeen, at, false, ports))];
      }
    }
    assert es[..|es|] == es;
    t' := Tables(hosts, alerts);
  }

  // ----- What the table should be: a function of everything ever reported -----

  datatype Sighting = Sighting(entry: Entry, at: int)

  /** The sightings of one address, in order. */
  function Of(h: seq<Sighting>, ip: string): seq<Sighting> {
    if h == [] then [] else Of(h[..|h| - 1], ip) + if h[|h| - 1].entry.ip == ip then [h[|h| - 1]] else []
  }

  /** Every address ever sighted, once, in order of first sighting. */
  function Discovered(h: seq<Sighting>): seq<string> {
    if h == [] then []
    else
      var before := Discovered(h[..|h| - 1]);
      if h[|h| - 1].entry.ip in before then before else before + [h[|h| - 1].entry.ip]
  }

  function LastNonEmpty(values: seq<string>): string {
    if values == [] then "" else Latest(values[|values| - 1], LastNonEmpty(values[..|values| - 1]))
  }

  function Hostnames(s: seq<Sighting>): seq<string> { seq(|s|, i requires 0 <= i < |s| => s[i].entry.hostname) }

  function Macs(s: seq<Sighting>): seq<string> { seq(|s|, i requires 0 <= i < |s| => s[i].entry.mac) }

  function PortsSeen(s: seq<Sighting>): set<int> { set x, p | x in s && p in x.entry.ports :: p }

  /** One host: when it was first and last sighted, the last name and address it gave, every port it
      ever had open, and whether it has been sighted just once. */
  ghost function Summary(s: seq<Sighting>): Facts
    requires s != []
  {
    Facts(s[0].entry.ip, LastNonEmpty(Hostnames(s)), LastNonEmpty(Macs(s)), s[0].at, s[|s| - 1].at, |s| == 1,
          SortedSeq(IntLess, PortsSeen(s)))
  }

  ghost predicate IsSummary(f: Facts, h: seq<Sighting>, ip: string) {
    Of(h, ip) != [] && f == Summary(Of(h, ip))
  }

  ghost predicate Summarises(t: Tables, h: seq<Sighting>) {
    && |t.hosts| == |Discovered(h)|
    && t.alerts == Discovered(h)
    && forall i :: 0 <= i < |t.hosts| ==> IsSummary(t.hosts[i].facts, h, Discovered(h)[i])
  }

  lemma {:induction false} OfIsThat(h: seq<Sighting>, ip: string)
    ensures forall s :: s in Of(h, ip) ==> s.entry.ip == ip
    ensures Of(h, ip) != [] <==> ip in Discovered(h)
  {
    if h != [] {
      OfIsThat(h[..|h| - 1], ip);
    }
  }

  lemma {:induction false} DiscoveredOnce(h: seq<Sighting>)
    ensures forall i, j :: 0 <= i < j < |Discovered(h)| ==> Discovered(h)[i] != Discovered(h)[j]
  {
    if h != [] { DiscoveredOnce(h[..|h| - 1]); }
  }

  lemma LastOfOne(v: string)
    ensures LastNonEmpty([v]) == v
  {
  }

  lemma OneSighting(s: Sighting)
    requires Tidy(s.entry)
    ensures Summary([s]) == FirstFacts(s.entry, s.at)
  {
    LastOfOne(s.entry.hostname);
    LastOfOne(s.entry.mac);
    assert Hostnames([s]) == [s.entry.hostname] && Macs([s]) == [s.entry.mac];
    PortsOfMore([], s);
    assert PortsSeen([]) == {} && [] + [s] == [s];
    SortedIsUnique(IntLess, s.entry.ports, SortedSeq(IntLess, PortsSeen([s])));
  }

  lemma PortsOfMore(ss: seq<Sighting>, s: Sighting)
    ensures PortsSeen(ss + [s]) == PortsSeen(ss) + Elements(s.entry.ports)
  {
    assert s in ss + [s];
    forall p | p in PortsSeen(ss) ensures p in PortsSeen(ss + [s]) {
      var x :| x in ss && p in x.entry.ports;
      assert x in ss + [s];
    }
    forall p | p in Elements(s.entry.ports) ensures p in PortsSeen(ss + [s]) {
      assert p in s.entry.ports;
    }
    forall p | p in PortsSeen(ss + [s]) ensures p in PortsSeen(ss) + Elements(s.entry.ports) {
      var x :| x in ss + [s] && p in x.entry.ports;
    }
  }

  lemma OneMoreSighting(ss: seq<Sighting>, s: Sighting)
    requires ss != []
    ensures Summary(ss + [s]) == SeenAgain(Summary(ss), s.entry, s.at)
  {
    assert Hostnames(ss + [s])[..|ss|] == Hostnames(ss);
    assert Macs(ss + [s])[..|ss|] == Macs(ss);
    PortsOfMore(ss, s);
  }

  lemma RowsFollowDiscovery(t: Tables, h: seq<Sighting>, i: nat)
    requires Summarises(t, h) && i < |t.hosts|
    ensures i < |Discovered(h)| && t.hosts[i].facts.ip == Discovered(h)[i]
  {
    var ss := Of(h, Discovered(h)[i]);
    OfIsThat(h, Discovered(h)[i]);
    assert ss[0] in ss;
  }

  lemma SameAddress(h: seq<Sighting>, i: nat, j: nat)
    requires i < |Discovered(h)| && j < |Discovered(h)| && Discovered(h)[i] == Discovered(h)[j]
    ensures i == j
  {
  }

  lemma FoundRow(t: Tables, h: seq<Sighting>, i: nat)
    requires Summarises(t, h) && i < |t.hosts|
    ensures i < |Discovered(h)| && FindIp(t.hosts, Discovered(h)[i]) == Some(i)
  {
    RowsFollowDiscovery(t, h, i);
    var found := FindIp(t.hosts, t.hosts[i].facts.ip).value;
    RowsFollowDiscovery(t, h, found);
    SameAddress(h, i, found);
  }

  lemma NotFound(t: Tables, h: seq<Sighting>, ip: string)
    requires Summarises(t, h) && ip !in Discovered(h)
    ensures FindIp(t.hosts, ip) == None
  {
    forall i | 0 <= i < |t.hosts| ensures t.hosts[i].facts.ip != ip { RowsFollowDiscovery(t, h, i); }
  }

  lemma FoldKeepsOldHost(t: Tables, h: seq<Sighting>, s: Sighting, i: nat)
    requires Summarises(t, h) && i < |t.hosts|
    ensures i < |Discovered(h)|
    ensures IsSummary(Fold(t, s.entry, s.at).hosts[i].facts, h + [s], Discovered(h)[i])
  {
    var ip := Discovered(h)[i];
    assert (h + [s])[..|h|] == h;
    RowsFollowDiscovery(t, h, i);
    if ip == s.entry.ip {
      FoundRow(t, h, i);
      OneMoreSighting(Of(h, ip), s);
    } else {
      assert Of(h + [s], ip) == Of(h, ip);
    }
  }

  lemma FoldAddsNewHost(t: Tables, h: seq<Sighting>, s: Sighting)
    requires Summarises(t, h) && Tidy(s.entry) && s.entry.ip !in Discovered(h)
    ensures Of(h + [s], s.entry.ip) == [s]
    ensures Fold(t, s.entry, s.at) ==
            Tables(t.hosts + [Host(Summary([s]), false, None)], t.alerts + [s.entry.ip])
  {
    assert (h + [s])[..|h|] == h;
    NotFound(t, h, s.entry.ip);
    OfIsThat(h, s.entry.ip);
    OneSighting(s);
  }

  lemma FoldAgainKeepsSummary(t: Tables, h: seq<Sighting>, s: Sighting)
    requires Summarises(t, h) && s.entry.ip in Discovered(h)
    ensures Summarises(Fold(t, s.entry, s.at), h + [s])
  {
    var k :| 0 <= k < |Discovered(h)| && Discovered(h)[k] == s.entry.ip;
    FoundRow(t, h, k);
    assert (h + [s])[..|h|] == h;
    forall i | 0 <= i < |t.hosts| ensures IsSummary(Fold(t, s.entry, s.at).hosts[i].facts, h + [s], Discovered(h)[i]) {
      FoldKeepsOldHost(t, h, s, i);
    }
  }

  lemma FoldNewKeepsSummary(t: Tables, h: seq<Sighting>, s: Sighting)
    requires Summarises(t, h) && Tidy(s.entry) && s.entry.ip !in Discovered(h)
    ensures Summarises(Fold(t, s.entry, s.at), h + [s])
  {
    var h', t' := h + [s], Fold(t, s.entry, s.at);
    FoldAddsNewHost(t, h, s);
    DiscoveredGrows(h, s);
    forall i | 0 <= i < |t'.hosts| ensures IsSummary(t'.hosts[i].facts, h', Discovered(h')[i]) {
      if i < |t.hosts| { FoldKeepsOldHost(t, h, s, i); }
    }
  }

  lemma DiscoveredGrows(h: seq<Sighting>, s: Sighting)
    requires s.entry.ip !in Discovered(h)
    ensures Discovered(h + [s]) == Discovered(h) + [s.entry.ip]
  {
    assert (h + [s])[..|h|] == h;
  }

  lemma FoldKeepsSummary(t: Tables, h: seq<Sighting>, s: Sighting)
    requires Summarises(t, h) && Tidy(s.entry)
    ensures Summarises(Fold(t, s.entry, s.at), h + [s])
  {
    if s.entry.ip in Discovered(h) { FoldAgainKeepsSummary(t, h, s); } else { FoldNewKeepsSummary(t, h, s); }
  }

  function Sightings(es: seq<Entry>, at: int): seq<Sighting> {
    seq(|es|, i requires 0 <= i < |es| => Sighting(es[i], at))
  }

  lemma SightingsGrow(h: seq<Sighting>, es: seq<Entry>, e: Entry, at: int)
    ensures h + Sightings(es + [e], at) == h + Sightings(es, at) + [Sighting(e, at)]
  {
  }

  lemma {:induction false} FoldAllKeepsSummary(t: Tables, h: seq<Sighting>, es: seq<Entry>, at: int)
    requires Summarises(t, h) && forall e :: e in es ==> Tidy(e)
    ensures Summarises(FoldAll(t, es, at), h + Sightings(es, at))
  {
    if es == [] {
      assert h + Sightings(es, at) == h;
    } else {
      var front, last := es[..|es| - 1], es[|es| - 1];
      assert es == front + [last];
      assert last in es && forall e :: e in front ==> e in es;
      SightingsGrow(h, front, last, at);
      FoldAllKeepsSummary(t, h, front, at);
      var t', h', s := FoldAll(t, front, at), h + Sightings(front, at), Sighting(last, at);
      FoldKeepsSummary(t', h', s);
    }
  }

  lemma {:induction false} FoldAllKeepsFlags(t: Tables, es: seq<Entry>, at: int, i: nat)
    requires i < |t.hosts|
    ensures var t' := FoldAll(t, es, at);
            && |t.hosts| <= |t'.hosts|
            && t'.hosts[i].facts.ip == t.hosts[i].facts.ip
            && t'.hosts[i].vulnPending == t.hosts[i].vulnPending
            && t'.hosts[i].lastVulnScan == t.hosts[i].lastVulnScan
  {
    if es != [] { FoldAllKeepsFlags(t, es[..|es| - 1], at, i); }
  }

  // ----- The table, in terms of the hosts as they were reported -----

  datatype RawSighting = RawSighting(host: RawHost, at: int)

  function Timed(hs: seq<RawHost>, at: int): seq<RawSighting> {
    seq(|hs|, i requires 0 <= i < |hs| => RawSighting(hs[i], at))
  }

  /** What was reported about one address, in order. */
  function Named(raw: seq<RawSighting>, ip: string): seq<RawSighting> {
    if raw == [] then []
    else Named(raw[..|raw| - 1], ip) + if Strip(raw[|raw| - 1].host.ip) == ip then [raw[|raw| - 1]] else []
  }

  /** The last of the values that is not empty, if there is one. */
  ghost predicate LastGiven(v: string, values: seq<string>) {
    || (v == "" && forall i :: 0 <= i < |values| ==> values[i] == "")
    || (v != "" && exists k :: 0 <= k < |values| && values[k] == v && forall i :: k < i < |values| ==> values[i] == "")
  }

  function RawHostnames(rs: seq<RawSighting>): seq<string> { seq(|rs|, i requires 0 <= i < |rs| => rs[i].host.hostname) }

  function RawMacs(rs: seq<RawSighting>): seq<string> { seq(|rs|, i requires 0 <= i < |rs| => rs[i].host.mac) }

  ghost predicate ListedPort(rs: seq<RawSighting>, p: int) {
    p > 0 && exists i :: 0 <= i < |rs| && Number(p) in rs[i].host.ports
  }

  /** The row that the reports on one address amount to. */
  ghost predicate Records(f: Facts, ip: string, rs: seq<RawSighting>) {
    && rs != [] && f.ip == ip
    && f.firstSeen == rs[0].at && f.lastSeen == rs[|rs| - 1].at && (f.isNew <==> |rs| == 1)
    && LastGiven(f.hostname, RawHostnames(rs)) && LastGiven(f.mac, RawMacs(rs))
    && Sorted(IntLess, f.ports) && forall p: int :: p in f.ports <==> ListedPort(rs, p)
  }

  ghost function Cleaned(raw: seq<RawSighting>): seq<Sighting> {
    if raw == [] then []
    else
      var last := raw[|raw| - 1];
      Cleaned(raw[..|raw| - 1]) + if Strip(last.host.ip) == "" then [] else [Sighting(EntryOf(last.host), last.at)]
  }

  lemma {:induction false} CleanedOfMore(a: seq<RawSighting>, b: seq<RawSighting>)
    ensures Cleaned(a + b) == Cleaned(a) + Cleaned(b)
  {
    if b == [] {
      assert a + b == a;
    } else {
      CleanedOfMore(a, b[..|b| - 1]);
      assert (a + b)[..|a + b| - 1] == a + b[..|b| - 1];
    }
  }

  lemma SightingsOfMore(es: seq<Entry>, e: Entry, at: int)
    ensures Sightings(es + [e], at) == Sightings(es, at) + [Sighting(e, at)]
  {
  }

  lemma TimedOfMore(hs: seq<RawHost>, h: RawHost, at: int)
    ensures Timed(hs + [h], at) == Timed(hs, at) + [RawSighting(h, at)]
  {
  }

  lemma CleanedOneMore(raw: seq<RawSighting>, r: RawSighting)
    ensures Cleaned(raw + [r]) == if Strip(r.host.ip) == "" then Cleaned(raw) else Cleaned(raw) + [Sighting(EntryOf(r.host), r.at)]
  {
    assert (raw + [r])[..|raw|] == raw;
  }

  lemma {:induction false} CleanedHosts(hs: seq<RawHost>, at: int)
    ensures Cleaned(Timed(hs, at)) == Sightings(HostEntries(hs), at)
  {
    if hs != [] {
      var front, last := hs[..|hs| - 1], hs[|hs| - 1];
      CleanedHosts(front, at);
      assert hs == front + [last];
      TimedOfMore(front, last, at);
      CleanedOneMore(Timed(front, at), RawSighting(last, at));
      SightingsOfMore(HostEntries(front), EntryOf(last), at);
      assert Strip(last.ip) == "" ==> HostEntries(hs) == HostEntries(front);
    }
  }

  /** One scan's entries are its hosts, cleaned up. */
  lemma CleanedScan(subnets: seq<seq<RawHost>>, at: int)
    ensures Cleaned(Timed(Flat(subnets), at)) == Sightings(ScanEntries(subnets), at)
  {
    ScanEntriesAreFlat(subnets);
    CleanedHosts(Flat(subnets), at);
  }

  lemma OneMoreOf(h: seq<Sighting>, s: Sighting, ip: string)
    ensures Of(h + [s], ip) == Of(h, ip) + if s.entry.ip == ip then [s] else []
    ensures Discovered(h + [s]) == Discovered(h) + if s.entry.ip in Discovered(h) then [] else [s.entry.ip]
  {
    assert (h + [s])[..|h|] == h;
  }

  lemma CleanedStep(raw: seq<RawSighting>, ip: string)
    requires raw != []
    ensures var h, last, of := Cleaned(raw[..|raw| - 1]), raw[|raw| - 1], Strip(raw[|raw| - 1].host.ip);
            && Of(Cleaned(raw), ip) == Of(h, ip) + (if of == ip != "" then [Sighting(EntryOf(last.host), last.at)] else [])
            && Discovered(Cleaned(raw)) == Discovered(h) + (if of == "" || of in Discovered(h) then [] else [of])
  {
    var h, last := Cleaned(raw[..|raw| - 1]), raw[|raw| - 1];
    if Strip(last.host.ip) == "" {
      assert Cleaned(raw) == h;
    } else {
      OneMoreOf(h, Sighting(EntryOf(last.host), last.at), ip);
    }
  }

  ghost predicate Matches(ss: seq<Sighting>, rs: seq<RawSighting>) {
    |ss| == |rs| && forall i :: 0 <= i < |ss| ==> Describes(ss[i].entry, rs[i].host) && ss[i].at == rs[i].at
  }

  lemma OneMoreMatch(ss: seq<Sighting>, rs: seq<RawSighting>, r: RawSighting)
    requires Matches(ss, rs)
    ensures Matches(ss + [Sighting(EntryOf(r.host), r.at)], rs + [r])
  {
    EntryDescribes(r.host);
  }

  lemma {:induction false} SightingsOfNamed(raw: seq<RawSighting>, ip: string)
    requires ip != ""
    ensures Matches(Of(Cleaned(raw), ip), Named(raw, ip))
  {
    if raw != [] {
      var front, last := raw[..|raw| - 1], raw[|raw| - 1];
      SightingsOfNamed(front, ip);
      CleanedStep(raw, ip);
      if Strip(last.host.ip) == ip {
        OneMoreMatch(Of(Cleaned(front), ip), Named(front, ip), last);
      } else {
        assert Named(front, ip) + [] == Named(front, ip);
      }
    }
  }

  lemma {:induction false} NoBlankAddress(raw: seq<RawSighting>)
    ensures "" !in Discovered(Cleaned(raw))
  {
    if raw != [] {
      var front, last := raw[..|raw| - 1], raw[|raw| - 1];
      NoBlankAddress(front);
      CleanedStep(raw, "");
    }
  }

  lemma {:induction false} LastNonEmptyIsLastGiven(values: seq<string>)
    ensures LastGiven(LastNonEmpty(values), values)
  {
    if values != [] {
      var n, front := |values| - 1, values[..|values| - 1];
      LastNonEmptyIsLastGiven(front);
      assert forall i :: 0 <= i < n ==> front[i] == values[i];
      if values[n] != "" { assert LastNonEmpty(values) == values[n]; }
    }
  }

  lemma PortIsSeen(ss: seq<Sighting>, i: nat, p: int)
    requires i < |ss| && p in ss[i].entry.ports
    ensures p in PortsSeen(ss)
  {
    var x := ss[i];
    assert x in ss && p in x.entry.ports;
  }

  lemma PortsAreListed(ss: seq<Sighting>, rs: seq<RawSighting>, p: int)
    requires Matches(ss, rs)
    ensures p in PortsSeen(ss) <==> ListedPort(rs, p)
  {
    if p in PortsSeen(ss) {
      var x :| x in ss && p in x.entry.ports;
      var i :| 0 <= i < |ss| && ss[i] == x;
      assert Describes(ss[i].entry, rs[i].host);
      assert p > 0 && Number(p) in rs[i].host.ports;
    }
    if ListedPort(rs, p) {
      var i :| 0 <= i < |rs| && Number(p) in rs[i].host.ports;
      assert Describes(ss[i].entry, rs[i].host);
      PortIsSeen(ss, i, p);
    }
  }

  lemma SummaryRecords(ss: seq<Sighting>, rs: seq<RawSighting>, ip: string)
    requires Matches(ss, rs) && ss != [] && ss[0].entry.ip == ip
    ensures Records(Summary(ss), ip, rs)
  {
    var f := Summary(ss);
    assert Hostnames(ss) == RawHostnames(rs) && Macs(ss) == RawMacs(rs);
    LastNonEmptyIsLastGiven(Hostnames(ss));
    LastNonEmptyIsLastGiven(Macs(ss));
    forall p: int ensures p in f.ports <==> ListedPort(rs, p) {
      assert p in Elements(f.ports) <==> p in PortsSeen(ss);
      PortsAreListed(ss, rs, p);
    }
  }

  /** The table, read off the raw reports: an address has a row if and only if some host names it; each row
      records the reports on its address; no address has two rows; rows come in the order of the first
      report, with one alert each. */
  ghost predicate Mirrors(t: Tables, raw: seq<RawSighting>) {
    && (forall ip :: HasRow(t, ip) <==> ip != "" && Named(raw, ip) != [])
    && (forall i :: 0 <= i < |t.hosts| ==> Records(t.hosts[i].facts, t.hosts[i].facts.ip, Named(raw, t.hosts[i].facts.ip)))
    && (forall i, j :: 0 <= i < j < |t.hosts| ==>
          t.hosts[i].facts.ip != t.hosts[j].facts.ip && NamedBefore(raw, t.hosts[i].facts.ip, t.hosts[j].facts.ip))
    && |t.alerts| == |t.hosts| && (forall i :: 0 <= i < |t.hosts| ==> t.alerts[i] == t.hosts[i].facts.ip)
  }

  predicate HasRow(t: Tables, ip: string) {
    exists i :: 0 <= i < |t.hosts| && t.hosts[i].facts.ip == ip
  }

  /** By the time of some prefix the first address had been reported, the second had not. */
  ghost predicate NamedBefore(raw: seq<RawSighting>, ip: string, later: string) {
    exists k :: 0 <= k <= |raw| && Named(raw[..k], ip) != [] && Named(raw[..k], later) == []
  }

  /** An address has a row if and only if some host reported it. */
  lemma RowsAreNamed(t: Tables, raw: seq<RawSighting>, ip: string)
    requires Summarises(t, Cleaned(raw))
    ensures HasRow(t, ip) <==> ip != "" && Named(raw, ip) != []
  {
    var h := Cleaned(raw);
    NoBlankAddress(raw);
    forall i | 0 <= i < |t.hosts| ensures t.hosts[i].facts.ip == Discovered(h)[i] { RowsFollowDiscovery(t, h, i); }
    if ip != "" {
      SightingsOfNamed(raw, ip);
      OfIsThat(h, ip);
      if ip in Discovered(h) {
        var i :| 0 <= i < |Discovered(h)| && Discovered(h)[i] == ip;
        assert t.hosts[i].facts.ip == ip;
      }
    }
  }

  lemma RowRecords(t: Tables, raw: seq<RawSighting>, i: nat)
    requires Summarises(t, Cleaned(raw)) && i < |t.hosts|
    ensures var f := t.hosts[i].facts; f.ip != "" && Records(f, f.ip, Named(raw, f.ip))
  {
    var h := Cleaned(raw);
    RowsFollowDiscovery(t, h, i);
    NoBlankAddress(raw);
    var ip := Discovered(h)[i];
    SightingsOfNamed(raw, ip);
    OfIsThat(h, ip);
    assert Of(h, ip)[0] in Of(h, ip);
    SummaryRecords(Of(h, ip), Named(raw, ip), ip);
  }

  lemma NewlyNamed(raw: seq<RawSighting>, ip: string, later: string)
    requires raw != [] && later != ""
    requires var d := Discovered(Cleaned(raw[..|raw| - 1])); ip in d && later !in d
    ensures NamedBefore(raw, ip, later)
  {
    var front := raw[..|raw| - 1];
    NoBlankAddress(front);
    OfIsThat(Cleaned(front), ip);
    OfIsThat(Cleaned(front), later);
    SightingsOfNamed(front, ip);
    SightingsOfNamed(front, later);
  }

  lemma StillNamedBefore(raw: seq<RawSighting>, ip: string, later: string)
    requires raw != [] && NamedBefore(raw[..|raw| - 1], ip, later)
    ensures NamedBefore(raw, ip, later)
  {
    var front := raw[..|raw| - 1];
    var k :| 0 <= k <= |front| && Named(front[..k], ip) != [] && Named(front[..k], later) == [];
    assert raw[..k] == front[..k];
  }

  lemma {:induction false} DiscoveryFollowsReports(raw: seq<RawSighting>, i: nat, j: nat)
    requires i < j < |Discovered(Cleaned(raw))|
    ensures NamedBefore(raw, Discovered(Cleaned(raw))[i], Discovered(Cleaned(raw))[j])
  {
    var front := raw[..|raw| - 1];
    CleanedStep(raw, "");
    var d, d' := Discovered(Cleaned(front)), Discovered(Cleaned(raw));
    if j < |d| {
      DiscoveryFollowsReports(front, i, j);
      StillNamedBefore(raw, d[i], d[j]);
    } else {
      assert d'[i] == d[i] && d[i] in d;
      NewlyNamed(raw, d'[i], d'[j]);
    }
  }

  lemma TableMirrorsReports(t: Tables, raw: seq<RawSighting>)
    requires Summarises(t, Cleaned(raw))
    ensures Mirrors(t, raw)
  {
    var h := Cleaned(raw);
    forall ip ensures HasRow(t, ip) <==> ip != "" && Named(raw, ip) != [] { RowsAreNamed(t, raw, ip); }
    forall i | 0 <= i < |t.hosts|
      ensures t.hosts[i].facts.ip == Discovered(h)[i]
      ensures Records(t.hosts[i].facts, t.hosts[i].facts.ip, Named(raw, t.hosts[i].facts.ip))
    {
      RowRecords(t, raw, i);
      RowsFollowDiscovery(t, h, i);
    }
    DiscoveredOnce(h);
    forall i, j | 0 <= i < j < |t.hosts|
      ensures t.hosts[i].facts.ip != t.hosts[j].facts.ip
      ensures NamedBefore(raw, t.hosts[i].facts.ip, t.hosts[j].facts.ip)
    {
      DiscoveryFollowsReports(raw, i, j);
    }
  }

  /** Reports followed by a scan are cleaned up to the sightings followed by the scan's entries. */
  lemma CleanedWithScan(raw: seq<RawSighting>, subnets: seq<seq<RawHost>>, at: int)
    ensures Cleaned(raw + Timed(Flat(subnets), at)) == Cleaned(raw) + Sightings(ScanEntries(subnets), at)
  {
    CleanedScan(subnets, at);
    CleanedOfMore(raw, Timed(Flat(subnets), at));
  }

  lemma {:induction false} NewRowsAreUnmarked(t: Tables, es: seq<Entry>, at: int, i: nat)
    requires |t.hosts| <= i < |FoldAll(t, es, at).hosts|
    ensures !FoldAll(t, es, at).hosts[i].vulnPending && FoldAll(t, es, at).hosts[i].lastVulnScan.None?
  {
    if i < |FoldAll(t, es[..|es| - 1], at).hosts| { NewRowsAreUnmarked(t, es[..|es| - 1], at, i); }
  }

  predicate NamesHost(subnets: seq<seq<RawHost>>, ip: string) {
    ip != "" && exists h :: h in Flat(subnets) && Strip(h.ip) == ip
  }

  lemma {:induction false} AddressedAreThose(hs: seq<RawHost>, h: RawHost)
    ensures h in Addressed(hs) <==> h in hs && Strip(h.ip) != ""
  {
    if hs != [] { AddressedAreThose(hs[..|hs| - 1], h); }
  }

  lemma HostOfEntry(es: seq<Entry>, hs: seq<RawHost>, i: nat) returns (h: RawHost)
    requires DescribeAll(es, hs) && i < |es|
    ensures h in hs && Strip(h.ip) == es[i].ip
  {
    h := hs[i];
    assert Describes(es[i], h);
  }

  lemma EntryOfHost(es: seq<Entry>, hs: seq<RawHost>, h: RawHost) returns (i: nat)
    requires DescribeAll(es, hs) && h in hs
    ensures i < |es| && es[i].ip == Strip(h.ip)
  {
    i :| 0 <= i < |hs| && hs[i] == h;
    assert Describes(es[i], hs[i]);
  }

  /** A scan's entries have exactly the non-empty addresses its hosts name. */
  lemma EntriesHaveTheNamed(subnets: seq<seq<RawHost>>, ip: string)
    ensures NamesHost(subnets, ip) <==> exists e :: e in ScanEntries(subnets) && e.ip == ip
  {
    var es, hs := ScanEntries(subnets), Addressed(Flat(subnets));
    ScanEntriesDescribe(subnets);
    if NamesHost(subnets, ip) {
      var h :| h in Flat(subnets) && Strip(h.ip) == ip;
      AddressedAreThose(Flat(subnets), h);
      var i := EntryOfHost(es, hs, h);
      assert es[i] in es;
    }
    if e :| e in es && e.ip == ip {
      var i :| 0 <= i < |es| && es[i] == e;
      var h := HostOfEntry(es, hs, i);
      AddressedAreThose(Flat(subnets), h);
    }
  }
}
