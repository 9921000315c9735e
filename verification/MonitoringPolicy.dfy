/** What a gateway scans, and how often (gateways/monitoring_policy.py). IPv4 only. */
module MonitoringPolicy {
  import opened Options
  import opened Arithmetic
  import opened Cidr
  import opened Rotation

  const MAX_CIDR_COUNT := 8
  const MAX_TOTAL_ADDRESSES := 65536
  const ALLOWED_MIN_PREFIX := 16
  const ALLOWED_MAX_PREFIX := 28
  const SECONDS_PER_CHUNK := 12
  const MIN_INTERVAL_FLOOR_MINUTES := 10
  const MAX_INTERVAL_MINUTES := 10080

  type Address = a: nat | a < 0x1_0000_0000
  type PrefixLength = p: nat | p <= 32

  /** One entry of the list an operator submits. */
  datatype RawCidr = Blank | Malformed | Parsed(address: Address, prefix: PrefixLength)

  datatype Rejection = TooManyCidrs | InvalidCidr | BlockedCidr | PrefixOutOfRange | TooManyAddresses

  datatype Verdict = Accepted(networks: seq<Network>) | Rejected(why: Rejection)

  const DEFAULT_CIDR := Parsed(0xC0A8_0000, 16)
  const BLOCKED_CIDRS := {Block(0x0A00_0000, 8), Block(0, 0), Block(0xAC10_0000, 12)}

  function NonBlank(cidrs: seq<RawCidr>): (r: seq<RawCidr>)
    ensures Blank !in r
  {
    if cidrs == [] then []
    else NonBlank(cidrs[..|cidrs| - 1]) + if cidrs[|cidrs| - 1].Blank? then [] else [cidrs[|cidrs| - 1]]
  }

  /** Nothing submitted means the default network; a list of blanks means no network at all. */
  function Normalized(cidrs: Option<seq<RawCidr>>): seq<RawCidr> {
    if cidrs.None? || cidrs.value == [] then [DEFAULT_CIDR] else NonBlank(cidrs.value)
  }

  predicate Fits(c: RawCidr, allowLarge: bool) {
    && c.Parsed?
    && (allowLarge ||
        (Masked(c.address, c.prefix) !in BLOCKED_CIDRS && ALLOWED_MIN_PREFIX <= c.prefix <= ALLOWED_MAX_PREFIX))
  }

  function Complaint(c: RawCidr): Rejection {
    if !c.Parsed? then InvalidCidr
    else if Masked(c.address, c.prefix) in BLOCKED_CIDRS then BlockedCidr
    else PrefixOutOfRange
  }

  function Networks(cidrs: seq<RawCidr>): seq<Network>
    requires forall c :: c in cidrs ==> c.Parsed?
  {
    seq(|cidrs|, i requires 0 <= i < |cidrs| => assert cidrs[i] in cidrs; Masked(cidrs[i].address, cidrs[i].prefix))
  }

  function TotalAddresses(ns: seq<Network>): nat {
    if ns == [] then 0 else TotalAddresses(ns[..|ns| - 1]) + AddressCount(ns[|ns| - 1])
  }

  ghost predicate Acceptable(cidrs: seq<RawCidr>, allowLarge: bool) {
    && |cidrs| <= MAX_CIDR_COUNT
    && (forall c :: c in cidrs ==> Fits(c, allowLarge))
    && (allowLarge || TotalAddresses(Networks(cidrs)) <= MAX_TOTAL_ADDRESSES)
  }

  /** The body of the validation loop: one entry either becomes a network or ends the loop. */
  method CheckCidr(c: RawCidr, allowLarge: bool) returns (network: Option<Network>, why: Rejection)
    ensures network == if Fits(c, allowLarge) then Some(Masked(c.address, c.prefix)) else None
    ensures network.None? ==> why == Complaint(c)
  {
    why := InvalidCidr;
    if !c.Parsed? {
      return None, InvalidCidr;
    }
    var n := Masked(c.address, c.prefix);
    if n in BLOCKED_CIDRS && !allowLarge {
      return None, BlockedCidr;
    }
    if !allowLarge && (n.prefix < ALLOWED_MIN_PREFIX || n.prefix > ALLOWED_MAX_PREFIX) {
      return None, PrefixOutOfRange;
    }
    network := Some(n);
  }

  lemma OneMoreNetwork(cidrs: seq<RawCidr>, i: nat)
    requires i < |cidrs| && forall c :: c in cidrs[..i + 1] ==> c.Parsed?
    ensures forall c :: c in cidrs[..i] ==> c.Parsed?
    ensures cidrs[i].Parsed?
    ensures Networks(cidrs[..i + 1]) == Networks(cidrs[..i]) + [Masked(cidrs[i].address, cidrs[i].prefix)]
    ensures TotalAddresses(Networks(cidrs[..i + 1])) ==
            TotalAddresses(Networks(cidrs[..i])) + AddressCount(Masked(cidrs[i].address, cidrs[i].prefix))
  {
  }

  /** The loop ended at entry i, the first that does not fit. */
  ghost predicate EndedAt(cidrs: seq<RawCidr>, i: int, why: Rejection, allowLarge: bool) {
    && 0 <= i < |cidrs| && !Fits(cidrs[i], allowLarge) && why == Complaint(cidrs[i])
    && forall j :: 0 <= j < i ==> Fits(cidrs[j], allowLarge)
  }

  method CheckCidrs(cidrs: seq<RawCidr>, allowLarge: bool)
    returns (validated: seq<Network>, total: nat, why: Option<Rejection>)
    ensures why.None? <==> forall c :: c in cidrs ==> Fits(c, allowLarge)
    ensures why.None? ==> validated == Networks(cidrs) && total == TotalAddresses(validated)
    ensures why.Some? ==> exists i :: EndedAt(cidrs, i, why.value, allowLarge)
  {
    validated, total, why := [], 0, None;
    for i := 0 to |cidrs|
      invariant forall c :: c in cidrs[..i] ==> Fits(c, allowLarge)
      invariant validated == Networks(cidrs[..i])
      invariant total == TotalAddresses(validated)
    {
      var network, complaint := CheckCidr(cidrs[i], allowLarge);
      if network.None? {
        assert forall j :: 0 <= j < i ==> cidrs[j] in cidrs[..i];
        assert EndedAt(cidrs, i, complaint, allowLarge);
        return validated, total, Some(complaint);
      }
      assert cidrs[..i + 1] == cidrs[..i] + [cidrs[i]];
      OneMoreNetwork(cidrs, i);
      validated := validated + [network.value];
      total := total + AddressCount(network.value);
    }
    assert cidrs[..|cidrs|] == cidrs;
  }

  method ValidateMonitoredCidrs(cidrs: Option<seq<RawCidr>>, allowLarge: bool) returns (r: Verdict)
    ensures r.Accepted? <==> Acceptable(Normalized(cidrs), allowLarge)
    ensures r.Accepted? ==> r.networks == Networks(Normalized(cidrs))
    ensures r == Rejected(TooManyCidrs) <==> |Normalized(cidrs)| > MAX_CIDR_COUNT
    ensures r.Rejected? && r.why != TooManyCidrs && r.why != TooManyAddresses ==>
              exists i :: EndedAt(Normalized(cidrs), i, r.why, allowLarge)
    ensures r == Rejected(TooManyAddresses) ==> forall c :: c in Normalized(cidrs) ==> Fits(c, allowLarge)
  {
    var normalized := Normalized(cidrs);
    if |normalized| > MAX_CIDR_COUNT {
      return Rejected(TooManyCidrs);
    }
    var validated, total, why := CheckCidrs(normalized, allowLarge);
    if why.Some? {
      return Rejected(why.value);
    }
    if total > MAX_TOTAL_ADDRESSES && !allowLarge {
      return Rejected(TooManyAddresses);
    }
    r := Accepted(validated);
  }

  predicate AllParsed(cs: seq<RawCidr>) { forall c :: c in cs ==> c.Parsed? }

  /** How many addresses the submitted entries have, counted with repeats. */
  function TotalSize(cs: seq<RawCidr>): nat
    requires AllParsed(cs)
  {
    if cs == [] then 0 else assert cs[|cs| - 1] in cs; TotalSize(cs[..|cs| - 1]) + Pow2(32 - cs[|cs| - 1].prefix)
  }

  lemma {:induction false} TotalIsSize(cs: seq<RawCidr>)
    requires AllParsed(cs)
    ensures TotalAddresses(Networks(cs)) == TotalSize(cs)
  {
    if cs != [] {
      var front, last := cs[..|cs| - 1], cs[|cs| - 1];
      assert last in cs;
      TotalIsSize(front);
      assert Networks(cs) == Networks(front) + [Masked(last.address, last.prefix)];
    }
  }

  /** What an operator may submit: no more than eight networks, of 16 to 28 bits, with no more than 65536
      addresses in all. The list of blocked networks turns nothing away that the prefix bounds do not;
      with large networks allowed only the count matters. */
  lemma AcceptedExactlyWhen(cs: seq<RawCidr>)
    ensures Acceptable(cs, false) <==>
            && |cs| <= 8 && AllParsed(cs) && (forall c :: c in cs ==> 16 <= c.prefix <= 28) && TotalSize(cs) <= 65536
    ensures Acceptable(cs, true) <==> |cs| <= 8 && AllParsed(cs)
  {
    if AllParsed(cs) {
      TotalIsSize(cs);
      forall c | c in cs && 16 <= c.prefix <= 28 ensures Fits(c, false) {
        assert Masked(c.address, c.prefix).prefix == c.prefix;
      }
    }
  }

  // ----- Plans -----

  /** None stands for the ValueError raised when the chunk count is below one. */
  method PlanRotatingChunks(ns: seq<Network>, chunkCount: int, chunkCursor: nat) returns (plan: Option<ChunkPlan<Block>>)
    ensures plan.None? <==> chunkCount < 1
    ensures plan.Some? ==> plan.value == RotatingPlan(AllChunks(ns), chunkCount, chunkCursor)
  {
    if chunkCount < 1 {
      return None;
    }
    var chunks := EnumerateAllChunks(ns);
    if chunks == [] {
      return Some(ChunkPlan([], 0, 0));
    }
    var selected := SelectWindow(chunks, chunkCount, chunkCursor);
    plan := Some(selected);
  }

  method PlanFullSweep(ns: seq<Network>) returns (plan: ChunkPlan<Block>)
    ensures plan == ChunkPlan(AllChunks(ns), 0, |AllChunks(ns)|)
  {
    var chunks := EnumerateAllChunks(ns);
    plan := ChunkPlan(chunks, 0, |chunks|);
  }

  /** Rotating plans never target an address outside the policy, and after ceil(chunks / chunk count)
      of them, from whatever cursor, every address of the policy has been targeted. */
  lemma SweepCoversExactlyThePolicy(ns: seq<Network>, k: nat, cursor: nat, j: nat, address: nat)
    requires k > 0
    ensures Targeted(Sweep(AllChunks(ns), k, cursor, j), address) ==> Monitored(ns, address)
    ensures j >= CeilDiv(|AllChunks(ns)|, k) && Monitored(ns, address) ==>
              Targeted(Sweep(AllChunks(ns), k, cursor, j), address)
  {
    ChunksCoverExactly(ns, address);
    SweepContents(AllChunks(ns), k, cursor, j);
  }

  ghost predicate Apart(b: Block, c: Block)
    requires b.prefix <= 32 && c.prefix <= 32
  {
    forall a :: !(Contains(b, a) && Contains(c, a))
  }

  ghost predicate NoOverlap(ns: seq<Network>) {
    forall i, j :: 0 <= i < j < |ns| ==> Apart(ns[i], ns[j])
  }

  lemma ChunkHasOneOwner(ns: seq<Network>, last: Network, p: nat, a: nat)
    requires NoOverlap(ns + [last]) && p < |AllChunks(ns)| && AllChunks(ns)[p].prefix <= 32
    requires Contains(AllChunks(ns)[p], a)
    ensures !Contains(last, a)
  {
    assert AllChunks(ns)[p] in AllChunks(ns);
    ChunksCoverExactly(ns, a);
    var n :| n in ns && Contains(n, a);
    var i :| 0 <= i < |ns| && ns[i] == n;
    assert Apart((ns + [last])[i], (ns + [last])[|ns|]);
  }

  lemma {:induction false} ChunksStayApart(ns: seq<Network>, p: nat, q: nat, a: nat)
    requires NoOverlap(ns) && p < q < |AllChunks(ns)|
    ensures AllChunks(ns)[p].prefix <= 32 && AllChunks(ns)[q].prefix <= 32
    ensures !(Contains(AllChunks(ns)[p], a) && Contains(AllChunks(ns)[q], a))
  {
    var front, last := ns[..|ns| - 1], ns[|ns| - 1];
    assert ns == front + [last];
    assert AllChunks(ns)[p] in AllChunks(ns) && AllChunks(ns)[q] in AllChunks(ns);
    ChunksAreNetworks(ns);
    SplitIsPartition(last);
    var m := |AllChunks(front)|;
    if q < m {
      assert NoOverlap(front) by {
        assert forall i, j :: 0 <= i < j < |front| ==> front[i] == ns[i] && front[j] == ns[j];
      }
      ChunksStayApart(front, p, q, a);
    } else if Contains(AllChunks(ns)[p], a) && Contains(AllChunks(ns)[q], a) {
      assert AllChunks(ns)[q] == Split(last)[q - m];
      assert Contains(last, a);
      if p < m { ChunkHasOneOwner(front, last, p, a); }
    }
  }

  /** When the networks do not overlap, fewer plans than that always leave some address untargeted. */
  lemma CoverageBoundIsTight(ns: seq<Network>, k: nat, cursor: nat, j: nat)
    requires k > 0 && NoOverlap(ns)
    ensures (forall a: nat :: Monitored(ns, a) ==> Targeted(Sweep(AllChunks(ns), k, cursor, j), a)) <==>
            j >= CeilDiv(|AllChunks(ns)|, k)
  {
    if j >= CeilDiv(|AllChunks(ns)|, k) {
      forall a: nat | Monitored(ns, a) ensures Targeted(Sweep(AllChunks(ns), k, cursor, j), a) {
        SweepCoversExactlyThePolicy(ns, k, cursor, j, a);
      }
    } else {
      var p := SweepMisses(AllChunks(ns), k, cursor, j);
      LeftOut(ns, Sweep(AllChunks(ns), k, cursor, j), p);
    }
  }

  lemma LeftOut(ns: seq<Network>, targets: seq<Block>, p: nat)
    requires NoOverlap(ns) && p < |AllChunks(ns)|
    requires forall c :: c in targets ==>
               exists q :: 0 <= q < |AllChunks(ns)| && q != p && AllChunks(ns)[q] == c
    ensures exists a: nat :: Monitored(ns, a) && !Targeted(targets, a)
  {
    ChunksAreNetworks(ns);
    var chunk := AllChunks(ns)[p];
    assert chunk in AllChunks(ns) && Contains(chunk, chunk.base);
    ChunksCoverExactly(ns, chunk.base);
    forall c | c in targets ensures c.prefix <= 32 && !Contains(c, chunk.base) {
      var q :| 0 <= q < |AllChunks(ns)| && q != p && AllChunks(ns)[q] == c;
      if q < p { ChunksStayApart(ns, q, p, chunk.base); } else { ChunksStayApart(ns, p, q, chunk.base); }
    }
    assert Monitored(ns, chunk.base) && !Targeted(targets, chunk.base);
  }

  // ----- Intervals -----

  datatype Strategy = RotatingChunks | FullSweep

  datatype Config = Config(
    networks: seq<Network>,
    strategy: Strategy,
    chunkCount: nat,
    discoverInterval: nat)

  function ChunksPerCycle(c: Config): nat {
    if c.strategy.FullSweep? then |AllChunks(c.networks)| else c.chunkCount
  }

  /** The safety margin 1.15 is taken as the exact fraction 115/100, so that a chunk costs 23/100 of a minute. */
  function MinIntervalMinutes(c: Config): (m: nat)
    ensures m >= MIN_INTERVAL_FLOOR_MINUTES
    ensures m * 6000 >= ChunksPerCycle(c) * SECONDS_PER_CHUNK * 115
    ensures m > MIN_INTERVAL_FLOOR_MINUTES ==> (m - 1) * 6000 < ChunksPerCycle(c) * SECONDS_PER_CHUNK * 115
  {
    var cycle := if ChunksPerCycle(c) >= 1 then ChunksPerCycle(c) else 1;
    var minutes := CeilDiv(cycle * SECONDS_PER_CHUNK * 115, 6000);
    CeilDivIsLeast(cycle * SECONDS_PER_CHUNK * 115, 6000, minutes);
    if minutes >= MIN_INTERVAL_FLOOR_MINUTES then minutes else MIN_INTERVAL_FLOOR_MINUTES
  }

  predicate ValidDiscoverInterval(c: Config, minutes: int) {
    1 <= minutes <= MAX_INTERVAL_MINUTES && minutes >= MinIntervalMinutes(c)
  }

  function FullCoverageMinutes(c: Config): Option<nat> {
    if c.strategy.FullSweep? then Some(c.discoverInterval)
    else CoverageMinutes(|AllChunks(c.networks)|, c.chunkCount, c.discoverInterval)
  }

  /** The coverage time shown for a rotating policy is exact: see Rotation. */
  lemma ShownCoverageOfPolicy(c: Config, cursor: nat, cycles: nat)
    requires c.strategy.RotatingChunks? && c.discoverInterval > 0 && FullCoverageMinutes(c).Some?
    ensures AllChunks(c.networks) != []
    ensures (forall p: nat :: p < |AllChunks(c.networks)| ==>
               p in Visits(|AllChunks(c.networks)|, c.chunkCount, cursor, cycles)) <==>
            Elapsed(cycles, c.discoverInterval) >= FullCoverageMinutes(c).value
  {
    ShownCoverageIsExact(|AllChunks(c.networks)|, c.chunkCount, cursor, cycles, c.discoverInterval);
  }

  // ----- Budget of an accepted policy -----

  /** A network costs either one chunk, or a power of two of them with 256 addresses each. */
  lemma NetworkCost(n: Network) returns (es: seq<nat>, small: nat)
    ensures |es| + small == 1
    ensures |Split(n)| == SumPow2(es) + small
    ensures AddressCount(n) >= 256 * SumPow2(es) + small
  {
    ChunkSize(n);
    es, small := [], 1;
    if n.prefix < 24 {
      es, small := [24 - n.prefix], 0;
      assert es[1..] == [];
    }
  }

  lemma {:induction false} SumPow2Append(a: seq<nat>, b: seq<nat>)
    ensures SumPow2(a + b) == SumPow2(a) + SumPow2(b)
  {
    if a == [] {
      assert a + b == b;
    } else {
      SumPow2Append(a[1..], b);
      assert (a + b)[1..] == a[1..] + b;
    }
  }

  /** Splits a policy into its networks larger than a /24, as exponents of their chunk counts, and
      the number of the others, which are one chunk each. */
  lemma {:induction false} ChunkCensus(ns: seq<Network>) returns (es: seq<nat>, small: nat)
    ensures |es| + small == |ns|
    ensures |AllChunks(ns)| == SumPow2(es) + small
    ensures TotalAddresses(ns) >= 256 * SumPow2(es) + small
  {
    if ns == [] {
      es, small := [], 0;
    } else {
      var before, few := ChunkCensus(ns[..|ns| - 1]);
      var last, one := NetworkCost(ns[|ns| - 1]);
      SumPow2Append(before, last);
      es, small := before + last, few + one;
    }
  }

  lemma FewNetworksFewChunks(es: seq<nat>, small: nat)
    requires |es| + small <= 8 && 256 * SumPow2(es) + small <= 65536
    ensures SumPow2(es) + small <= 256
  {
    if small > 0 {
      Pow2Literals();
      FewPowersLeaveGap(es, 8);
      Pow2Monotone(|es|, 8 - small);
      Pow2Sum(small, 8 - small);
      GapBeats(256 - SumPow2(es), Pow2(|es|), Pow2(small), Pow2(8 - small));
    }
  }

  lemma GapBeats(gap: nat, w: nat, p: nat, r: nat)
    requires gap * w >= p * r && w <= r && r > 0
    ensures gap >= p
  {
  }

  /** Every list accepted without override cuts into at most 256 chunks. */
  lemma AcceptedPolicyHasFewChunks(cidrs: seq<RawCidr>)
    requires Acceptable(cidrs, false)
    ensures |AllChunks(Networks(cidrs))| <= 256
  {
    var es, small := ChunkCensus(Networks(cidrs));
    FewNetworksFewChunks(es, small);
  }

  /** So its full-sweep minimum lies between 10 and 59 minutes, and an interval can always be chosen. */
  lemma AcceptedPolicyCanBeScheduled(cidrs: seq<RawCidr>, chunkCount: nat, interval: nat)
    requires Acceptable(cidrs, false)
    ensures var c := Config(Networks(cidrs), FullSweep, chunkCount, interval);
            && 10 <= MinIntervalMinutes(c) <= 59
            && forall minutes :: 59 <= minutes <= MAX_INTERVAL_MINUTES ==> ValidDiscoverInterval(c, minutes)
  {
    AcceptedPolicyHasFewChunks(cidrs);
  }

  /** In general an interval exists exactly while one cycle has at most 43826 chunks. */
  lemma IntervalExists(c: Config)
    ensures (exists minutes :: ValidDiscoverInterval(c, minutes)) <==> ChunksPerCycle(c) <= 43826
  {
    if ChunksPerCycle(c) <= 43826 { assert ValidDiscoverInterval(c, MAX_INTERVAL_MINUTES); }
  }

  /** The default policy, a single /16, meets the bound of 256 chunks and the 59 minutes exactly. */
  lemma DefaultPolicyMeetsTheBound(chunkCount: nat, interval: nat)
    ensures var ns := Networks(Normalized(None));
            && Acceptable(Normalized(None), false)
            && |AllChunks(ns)| == 256
            && MinIntervalMinutes(Config(ns, FullSweep, chunkCount, interval)) == 59
  {
    Pow2Literals();
    var n := Masked(0xC0A8_0000, 16);
    assert Networks([DEFAULT_CIDR]) == [n];
    assert [n][..0] == [];
    assert AllChunks([n]) == Split(n);
  }
}
