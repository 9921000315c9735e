/** Recording the findings of vulnerability scans against discovered hosts (gateways/monitoring_service.py). */
module VulnFindings {
  import opened Options
  import opened Sequences
  import opened EnvFile
  import opened GatewayJobs
  import opened HostInventory

  /** Rows are never deleted; the host is a row number of the host table. */
  datatype Finding = Finding(host: nat, id: string, about: Description, foundAt: int)

  predicate Known(fs: seq<Finding>, host: nat, id: string) {
    exists i :: 0 <= i < |fs| && fs[i].host == host && fs[i].id == id
  }

  function Record(fs: seq<Finding>, host: nat, f: RawFinding, at: int): seq<Finding> {
    if f.id != "" && Known(fs, host, f.id) then fs else fs + [Finding(host, f.id, f.about, at)]
  }

  /** Which host a pushed finding belongs to: the job's host, unless it names another address. */
  function PushOwner(host: nat, ip: string): RawFinding -> Option<nat> {
    (f: RawFinding) => if Strip(f.ip) == "" || Strip(f.ip) == ip then Some(host) else None
  }

  /** Which host a finding in a command's logs belongs to: the one with its address. */
  function LogOwner(hosts: seq<Host>): RawFinding -> Option<nat> {
    (f: RawFinding) => if Strip(f.ip) == "" then None else FindIp(hosts, Strip(f.ip))
  }

  function RecordAll(fs: seq<Finding>, raw: seq<RawFinding>, owner: RawFinding -> Option<nat>, at: int): seq<Finding> {
    if raw == [] then fs
    else
      var before := RecordAll(fs, raw[..|raw| - 1], owner, at);
      var last := raw[|raw| - 1];
      if owner(last).Some? then Record(before, owner(last).value, last, at) else before
  }

  lemma RecordOne(fs: seq<Finding>, f: RawFinding, owner: RawFinding -> Option<nat>, at: int)
    ensures RecordAll(fs, [f], owner, at) == if owner(f).Some? then Record(fs, owner(f).value, f, at) else fs
  {
    assert [f][..0] == [];
  }

  ghost predicate UniqueIds(fs: seq<Finding>) {
    forall i, j :: 0 <= i < j < |fs| && fs[i].host == fs[j].host && fs[i].id == fs[j].id ==> fs[i].id == ""
  }

  lemma {:induction false} RecordAllKeepsUnique(fs: seq<Finding>, raw: seq<RawFinding>, owner: RawFinding -> Option<nat>, at: int)
    requires UniqueIds(fs)
    ensures UniqueIds(RecordAll(fs, raw, owner, at))
  {
    if raw != [] { RecordAllKeepsUnique(fs, raw[..|raw| - 1], owner, at); }
  }

  lemma {:induction false} RecordAllAppends(fs: seq<Finding>, raw: seq<RawFinding>, owner: RawFinding -> Option<nat>, at: int)
    ensures fs <= RecordAll(fs, raw, owner, at)
  {
    if raw != [] { RecordAllAppends(fs, raw[..|raw| - 1], owner, at); }
  }

  lemma KnownStays(fs: seq<Finding>, fs': seq<Finding>, host: nat, id: string)
    requires fs <= fs' && Known(fs, host, id)
    ensures Known(fs', host, id)
  {
  }

  /** Every identified finding that has an owner is in the table afterwards. */
  lemma {:induction false} RecordAllKnows(fs: seq<Finding>, raw: seq<RawFinding>, owner: RawFinding -> Option<nat>, at: int,
                                          f: RawFinding)
    requires f in raw && owner(f).Some? && f.id != ""
    ensures Known(RecordAll(fs, raw, owner, at), owner(f).value, f.id)
  {
    var front, last := raw[..|raw| - 1], raw[|raw| - 1];
    var before, after := RecordAll(fs, front, owner, at), RecordAll(fs, raw, owner, at);
    if f == last {
      assert !Known(before, owner(f).value, f.id) ==> after[|before|].host == owner(f).value && after[|before|].id == f.id;
    } else {
      assert f in front;
      RecordAllKnows(fs, front, owner, at, f);
      KnownStays(before, after, owner(f).value, f.id);
    }
  }

  /** Result k belongs to a host and is the first of its id there, in the table and among the results. */
  ghost predicate IsNew(fs: seq<Finding>, raw: seq<RawFinding>, owner: RawFinding -> Option<nat>, k: nat)
    requires k < |raw|
  {
    var f := raw[k];
    owner(f).Some? && (f.id == "" || (!Known(fs, owner(f).value, f.id) && !Repeated(raw, owner, k, owner(f).value, f.id)))
  }

  ghost predicate Repeated(raw: seq<RawFinding>, owner: RawFinding -> Option<nat>, n: nat, host: nat, id: string)
    requires n <= |raw|
  {
    exists j :: 0 <= j < n && owner(raw[j]) == Some(host) && raw[j].id == id
  }

  lemma {:induction false} KnownAfterwards(fs: seq<Finding>, raw: seq<RawFinding>, owner: RawFinding -> Option<nat>, at: int,
                                           host: nat, id: string)
    requires id != ""
    ensures Known(RecordAll(fs, raw, owner, at), host, id) <==> Known(fs, host, id) || Repeated(raw, owner, |raw|, host, id)
  {
    if raw != [] {
      var front, last := raw[..|raw| - 1], raw[|raw| - 1];
      var before, after := RecordAll(fs, front, owner, at), RecordAll(fs, raw, owner, at);
      KnownAfterwards(fs, front, owner, at, host, id);
      assert Repeated(raw, owner, |raw|, host, id) <==>
             Repeated(front, owner, |front|, host, id) || (owner(last) == Some(host) && last.id == id);
      if Known(before, host, id) { RecordAllAppends(before, [last], owner, at); KnownStays(before, after, host, id); }
      if after != before { assert after[|before|] == Finding(owner(last).value, last.id, last.about, at); }
    }
  }

  function RecordedAt(raw: seq<RawFinding>, owner: RawFinding -> Option<nat>, at: int, k: nat): Finding
    requires k < |raw|
  {
    Finding(owner(raw[k]).GetOr(0), raw[k].id, raw[k].about, at)
  }

  /** What is recorded, in terms of the results alone: exactly the new ones, in order, each with its host,
      id, description and time. */
  lemma {:induction false} RecordsExactlyTheNew(fs: seq<Finding>, raw: seq<RawFinding>, owner: RawFinding -> Option<nat>, at: int)
    returns (ps: seq<nat>)
    ensures Increasing(ps) && forall k {:trigger k in ps} :: k in ps <==> 0 <= k < |raw| && IsNew(fs, raw, owner, k)
    ensures |RecordAll(fs, raw, owner, at)| == |fs| + |ps| && fs <= RecordAll(fs, raw, owner, at)
    ensures forall i :: 0 <= i < |ps| ==>
              ps[i] in ps && RecordAll(fs, raw, owner, at)[|fs| + i] == RecordedAt(raw, owner, at, ps[i])
  {
    ps := [];
    if raw != [] {
      var n := |raw| - 1;
      var front, last := raw[..n], raw[n];
      var before := RecordAll(fs, front, owner, at);
      ps := RecordsExactlyTheNew(fs, front, owner, at);
      NewAmongMore(fs, raw, owner);
      if owner(last).Some? && last.id != "" {
        KnownAfterwards(fs, front, owner, at, owner(last).value, last.id);
        SameRepeats(raw, owner, owner(last).value, last.id);
      }
      var earlier := ps;
      if IsNew(fs, raw, owner, n) {
        IncreasingAppend(ps, [n]);
        ps := ps + [n];
      }
      forall i | 0 <= i < |earlier| ensures earlier[i] in earlier && raw[earlier[i]] == front[earlier[i]] {
      }
    }
  }

  lemma SameRepeats(raw: seq<RawFinding>, owner: RawFinding -> Option<nat>, host: nat, id: string)
    requires raw != []
    ensures var front := raw[..|raw| - 1]; Repeated(front, owner, |front|, host, id) <==> Repeated(raw, owner, |front|, host, id)
  {
  }

  lemma NewAmongMore(fs: seq<Finding>, raw: seq<RawFinding>, owner: RawFinding -> Option<nat>)
    requires raw != []
    ensures var front := raw[..|raw| - 1];
            forall k :: 0 <= k < |front| ==> (IsNew(fs, front, owner, k) <==> IsNew(fs, raw, owner, k))
  {
    var front := raw[..|raw| - 1];
    forall k | 0 <= k < |front| ensures IsNew(fs, front, owner, k) <==> IsNew(fs, raw, owner, k) {
      var f := raw[k];
      if owner(f).Some? {
        assert forall j :: 0 <= j < k ==> front[j] == raw[j];
        assert Repeated(front, owner, k, owner(f).value, f.id) <==> Repeated(raw, owner, k, owner(f).value, f.id);
      }
    }
  }

  /** Findings that are dropped or already known: processing them adds nothing. */
  ghost predicate NothingNew(fs: seq<Finding>, raw: seq<RawFinding>, owner: RawFinding -> Option<nat>) {
    forall f :: f in raw && owner(f).Some? ==> f.id != "" && Known(fs, owner(f).value, f.id)
  }

  lemma {:induction false} AddsNothing(fs: seq<Finding>, raw: seq<RawFinding>, owner: RawFinding -> Option<nat>, at: int)
    ensures RecordAll(fs, raw, owner, at) == fs <==> NothingNew(fs, raw, owner)
  {
    if raw != [] {
      var front, last := raw[..|raw| - 1], raw[|raw| - 1];
      assert raw == front + [last];
      AddsNothing(fs, front, owner, at);
      RecordAllAppends(fs, front, owner, at);
    }
  }

  /** Processing the same results again, any time later. In between hosts may have been discovered, so
      that results find an owner now that had none before; an owner once found stays the same. Nothing
      is added exactly when each result that has an owner now carries an id and either had its owner
      before or is known for it by now. */
  lemma ReprocessingAddsNothing(fs: seq<Finding>, raw: seq<RawFinding>, owner: RawFinding -> Option<nat>, at: int,
                                later: seq<Finding>, owner': RawFinding -> Option<nat>, again: int)
    requires RecordAll(fs, raw, owner, at) <= later
    requires forall f :: owner(f).Some? ==> owner'(f) == owner(f)
    ensures RecordAll(later, raw, owner', again) == later <==>
            forall f :: f in raw && owner'(f).Some? ==>
              f.id != "" && (owner(f).Some? || Known(later, owner'(f).value, f.id))
  {
    AddsNothing(later, raw, owner', again);
    forall f | f in raw && owner(f).Some? && f.id != "" ensures Known(later, owner(f).value, f.id) {
      RecordAllKnows(fs, raw, owner, at, f);
      KnownStays(RecordAll(fs, raw, owner, at), later, owner(f).value, f.id);
    }
  }
}
