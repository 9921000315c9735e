/** When a gateway is told to scan, and what (gateways/monitoring_service.py, gateways/module_service.py).

    One gateway and its agent; commands for other agents share the queue. Times are in seconds. Whether
    the gateway is online with an enrolled agent, and whether masscan is installed, is decided outside
    and comes in with each call. */
module ScanScheduler {
  import opened Options
  import opened Sequences
  import opened Arithmetic
  import opened Cidr
  import opened Rotation
  import opened MonitoringPolicy
  import opened CommandQueue
  import opened GatewayJobs
  import Delivery

  const MASSCAN := "masscan"

  datatype Policy = Policy(
    enabled: bool,
    networks: seq<Network>,
    strategy: Strategy,
    chunkCount: nat,
    interval: nat,
    cursor: nat,
    lastScheduledAt: Option<int>)

  predicate ScanInFlight<R>(c: Command<Job, R>, agent: AgentId) {
    c.agent == agent && c.payload.ScanNetwork? && c.state.InFlight()
  }

  predicate PendingNetworkScan<R>(rows: seq<Command<Job, R>>, agent: AgentId) {
    exists i :: 0 <= i < |rows| && ScanInFlight(rows[i], agent)
  }

  predicate MasscanInstalling<R>(rows: seq<Command<Job, R>>, agent: AgentId) {
    exists i :: 0 <= i < |rows| && rows[i].agent == agent && rows[i].payload == InstallModule(MASSCAN) && rows[i].state.InFlight()
  }

  predicate ModulesReady<R>(rows: seq<Command<Job, R>>, agent: AgentId, masscan: bool) {
    masscan && !MasscanInstalling(rows, agent)
  }

  predicate CanEnqueueDiscovery<R>(rows: seq<Command<Job, R>>, agent: AgentId, masscan: bool) {
    !PendingNetworkScan(rows, agent) && ModulesReady(rows, agent, masscan)
  }

  predicate PolicyDue(p: Policy, now: int) {
    p.enabled && (p.lastScheduledAt.None? || p.lastScheduledAt.value + 60 * p.interval <= now)
  }

  /** The chunks to scan next and the cursor to leave; None for the ValueError of a chunk count below
      one. A full sweep is cut to the first chunkCount chunks. */
  function PlanTargets(p: Policy): Option<(seq<Block>, nat)> {
    var chunks := AllChunks(p.networks);
    if p.strategy.FullSweep? then Some((chunks[..Least(p.chunkCount, |chunks|)], 0))
    else if p.chunkCount < 1 then None
    else
      var plan := RotatingPlan(chunks, p.chunkCount, p.cursor);
      Some((plan.targets, plan.nextCursor))
  }

  predicate HasTargets(p: Policy) {
    PlanTargets(p).Some? && PlanTargets(p).value.0 != []
  }

  function PolicyAfterScan(p: Policy, now: int): Policy
    requires HasTargets(p)
  {
    p.(cursor := PlanTargets(p).value.1, lastScheduledAt := Some(now))
  }

  function RowsAfterScan<R>(rows: seq<Command<Job, R>>, agent: AgentId, p: Policy): seq<Command<Job, R>>
    requires HasTargets(p)
  {
    rows + [NewCommand(agent, ScanNetwork(true, PlanTargets(p).value.0))]
  }

  // ----- The two operations -----

  predicate PassIssues<R>(p: Policy, rows: seq<Command<Job, R>>, agent: AgentId, now: int, online: bool, masscan: bool) {
    online && PolicyDue(p, now) && CanEnqueueDiscovery(rows, agent, masscan) && HasTargets(p)
  }

  predicate TriggerIssues<R>(p: Policy, rows: seq<Command<Job, R>>, agent: AgentId, online: bool, masscan: bool) {
    online && CanEnqueueDiscovery(rows, agent, masscan) && HasTargets(p)
  }

  datatype Refusal = Offline | ModulesMissing | ScanAlreadyPending | NoTargets | BadChunkCount

  datatype Triggered = Queued(id: nat) | NotQueued(why: Refusal)

  class Scheduler<R> {
    const agent: AgentId
    var policy: Policy
    const commands: CommandTable<Job, R>

    constructor (agent: AgentId, policy: Policy, commands: CommandTable<Job, R>)
      ensures this.agent == agent && this.policy == policy && this.commands == commands
    {
      this.agent, this.policy, this.commands := agent, policy, commands;
    }

    method Plan() returns (plan: Option<(seq<Block>, nat)>)
      ensures plan == PlanTargets(policy)
    {
      if policy.strategy.FullSweep? {
        var sweep := PlanFullSweep(policy.networks);
        plan := Some((sweep.targets[..Least(policy.chunkCount, |sweep.targets|)], sweep.nextCursor));
      } else {
        var rotating := PlanRotatingChunks(policy.networks, policy.chunkCount, policy.cursor);
        plan := if rotating.None? then None else Some((rotating.value.targets, rotating.value.nextCursor));
      }
    }

    /** One scheduler pass over this policy. A ValueError rolls the transaction back: no change. */
    method SchedulePolicyScan(now: int, online: bool, masscan: bool) returns (id: Option<nat>)
      modifies this`policy, commands
      ensures id.Some? <==> PassIssues(old(policy), old(commands.rows), agent, now, online, masscan)
      ensures id.Some? ==>
                && id.value == |old(commands.rows)|
                && policy == PolicyAfterScan(old(policy), now)
                && commands.rows == RowsAfterScan(old(commands.rows), agent, old(policy))
      ensures id.None? ==> policy == old(policy) && commands.rows == old(commands.rows)
    {
      id := None;
      if !online {
        return;
      }
      if !PolicyDue(policy, now) {
        return;
      }
      if !CanEnqueueDiscovery(commands.rows, agent, masscan) {
        return;
      }
      var plan := Plan();
      if plan.None? || plan.value.0 == [] {
        return;
      }
      var queued := commands.Enqueue(agent, ScanNetwork(true, plan.value.0));
      policy := policy.(cursor := plan.value.1, lastScheduledAt := Some(now));
      id := Some(queued);
    }

    method TriggerImmediateMonitorScan(now: int, online: bool, masscan: bool) returns (r: Triggered)
      modifies this`policy, commands
      ensures r.Queued? <==> TriggerIssues(old(policy), old(commands.rows), agent, online, masscan)
      ensures r.Queued? ==>
                && r.id == |old(commands.rows)|
                && policy == PolicyAfterScan(old(policy), now)
                && commands.rows == RowsAfterScan(old(commands.rows), agent, old(policy))
      ensures r.NotQueued? ==> policy == old(policy) && commands.rows == old(commands.rows)
      ensures r == NotQueued(Offline) <==> !online
      ensures r == NotQueued(ModulesMissing) <==> online && !ModulesReady(old(commands.rows), agent, masscan)
      ensures r == NotQueued(ScanAlreadyPending) <==>
                online && ModulesReady(old(commands.rows), agent, masscan) && PendingNetworkScan(old(commands.rows), agent)
      ensures r == NotQueued(BadChunkCount) <==>
                online && CanEnqueueDiscovery(old(commands.rows), agent, masscan) && PlanTargets(old(policy)).None?
      ensures r == NotQueued(NoTargets) <==>
                && online && CanEnqueueDiscovery(old(commands.rows), agent, masscan)
                && PlanTargets(old(policy)).Some? && PlanTargets(old(policy)).value.0 == []
    {
      if !online {
        return NotQueued(Offline);
      }
      if !ModulesReady(commands.rows, agent, masscan) {
        return NotQueued(ModulesMissing);
      }
      if PendingNetworkScan(commands.rows, agent) {
        return NotQueued(ScanAlreadyPending);
      }
      var plan := Plan();
      if plan.None? {
        return NotQueued(BadChunkCount);
      }
      if plan.value.0 == [] {
        return NotQueued(NoTargets);
      }
      var id := commands.Enqueue(agent, ScanNetwork(true, plan.value.0));
      policy := policy.(cursor := plan.value.1, lastScheduledAt := Some(now));
      r := Queued(id);
    }
  }

  // ----- Runs: passes, triggers, policy edits and the delivery protocol, in any order -----

  datatype World<R> = World(agent: AgentId, policy: Policy, sys: Delivery.System<Job, R>)

  /** An edit may change everything but the cursor and the time of the last scan. */
  datatype Event<R> =
    | Pass(now: int, online: bool, masscan: bool)
    | Trigger(now: int, online: bool, masscan: bool)
    | Edit(policy: Policy)
    | Wire(step: Delivery.Event<Job, R>)

  predicate Enabled<R>(w: World<R>, e: Event<R>) {
    match e
    case Pass(now, _, _) => w.sys.clock <= now
    case Trigger(now, _, _) => w.sys.clock <= now
    case Edit(p) => p.cursor == w.policy.cursor && p.lastScheduledAt == w.policy.lastScheduledAt
    case Wire(step) =>
      Delivery.Enabled(w.sys, step) && !(step.Enqueue? && step.agent == w.agent && step.payload.ScanNetwork?)
  }

  predicate Issues<R>(w: World<R>, e: Event<R>) {
    match e
    case Pass(now, online, masscan) => PassIssues(w.policy, w.sys.rows, w.agent, now, online, masscan)
    case Trigger(_, online, masscan) => TriggerIssues(w.policy, w.sys.rows, w.agent, online, masscan)
    case _ => false
  }

  function Issue<R>(w: World<R>, now: int): World<R>
    requires HasTargets(w.policy)
  {
    w.(policy := PolicyAfterScan(w.policy, now),
       sys := w.sys.(clock := now, rows := RowsAfterScan(w.sys.rows, w.agent, w.policy)))
  }

  function Apply<R>(w: World<R>, e: Event<R>): World<R>
    requires Enabled(w, e)
  {
    if Issues(w, e) then Issue(w, e.now)
    else
      match e
      case Edit(p) => w.(policy := p)
      case Wire(step) => w.(sys := Delivery.Apply(w.sys, step))
      case _ => w.(sys := w.sys.(clock := e.now))
  }

  predicate Valid<R>(w: World<R>, es: seq<Event<R>>)
    decreases |es|, 0
  {
    es == [] || (Valid(w, es[..|es| - 1]) && Enabled(Run(w, es[..|es| - 1]), es[|es| - 1]))
  }

  function Run<R>(w: World<R>, es: seq<Event<R>>): World<R>
    requires Valid(w, es)
    decreases |es|, 1
  {
    if es == [] then w else Apply(Run(w, es[..|es| - 1]), es[|es| - 1])
  }

  // ----- At most one scan in flight -----

  ghost predicate OneScan<R>(w: World<R>) {
    forall i, j :: 0 <= i < j < |w.sys.rows| ==>
      !(ScanInFlight(w.sys.rows[i], w.agent) && ScanInFlight(w.sys.rows[j], w.agent))
  }

  lemma WireKeepsScans<R>(s: Delivery.System<Job, R>, step: Delivery.Event<Job, R>, agent: AgentId, i: nat)
    requires Delivery.Enabled(s, step) && i < |Delivery.Apply(s, step).rows|
    requires !(step.Enqueue? && step.agent == agent && step.payload.ScanNetwork?)
    ensures ScanInFlight(Delivery.Apply(s, step).rows[i], agent) ==> i < |s.rows| && ScanInFlight(s.rows[i], agent)
  {
  }

  lemma StepKeepsOneScan<R>(w: World<R>, e: Event<R>)
    requires OneScan(w) && Enabled(w, e)
    ensures OneScan(Apply(w, e))
  {
    if e.Wire? {
      var rows := Delivery.Apply(w.sys, e.step).rows;
      forall i, j | 0 <= i < j < |rows| ensures !(ScanInFlight(rows[i], w.agent) && ScanInFlight(rows[j], w.agent)) {
        WireKeepsScans(w.sys, e.step, w.agent, i);
        WireKeepsScans(w.sys, e.step, w.agent, j);
      }
    }
  }

  /** However passes, triggers, edits, polls, acks, losses and crashes interleave, the gateway never
      has two scans in flight. */
  lemma {:induction false} OneScanInFlight<R>(w: World<R>, es: seq<Event<R>>)
    requires OneScan(w) && Valid(w, es)
    ensures OneScan(Run(w, es))
  {
    if es != [] {
      OneScanInFlight(w, es[..|es| - 1]);
      StepKeepsOneScan(Run(w, es[..|es| - 1]), es[|es| - 1]);
    }
  }

  // ----- What the commands of a run carry -----

  /** Agent and payload of every row: the part of the queue that no later step changes. */
  function Jobs<R>(rows: seq<Command<Job, R>>): (js: seq<(AgentId, Job)>)
    ensures |js| == |rows|
  {
    seq(|rows|, i requires 0 <= i < |rows| => (rows[i].agent, rows[i].payload))
  }

  function ScanCount(js: seq<(AgentId, Job)>, agent: AgentId): nat {
    if js == [] then 0
    else
      ScanCount(js[..|js| - 1], agent) +
      if js[|js| - 1].0 == agent && js[|js| - 1].1.ScanNetwork? then 1 else 0
  }

  /** The targets of all scans queued for the agent, in order of creation. */
  function AllTargets(js: seq<(AgentId, Job)>, agent: AgentId): seq<Block> {
    if js == [] then []
    else
      AllTargets(js[..|js| - 1], agent) +
      if js[|js| - 1].0 == agent && js[|js| - 1].1.ScanNetwork? then js[|js| - 1].1.targets else []
  }

  lemma OneMoreJob(js: seq<(AgentId, Job)>, j: (AgentId, Job), agent: AgentId)
    ensures ScanCount(js + [j], agent) == ScanCount(js, agent) + if j.0 == agent && j.1.ScanNetwork? then 1 else 0
    ensures AllTargets(js + [j], agent) ==
            AllTargets(js, agent) + if j.0 == agent && j.1.ScanNetwork? then j.1.targets else []
  {
  }

  lemma WireKeepsJobs<R>(s: Delivery.System<Job, R>, step: Delivery.Event<Job, R>)
    requires Delivery.Enabled(s, step)
    ensures Jobs(Delivery.Apply(s, step).rows) ==
            Jobs(s.rows) + if step.Enqueue? then [(step.agent, step.payload)] else []
  {
  }

  lemma QuietStepQueuesNoScan<R>(w: World<R>, e: Event<R>)
    requires Enabled(w, e) && !Issues(w, e)
    ensures var js, js' := Jobs(w.sys.rows), Jobs(Apply(w, e).sys.rows);
            && ScanCount(js', w.agent) == ScanCount(js, w.agent)
            && AllTargets(js', w.agent) == AllTargets(js, w.agent)
    ensures !e.Edit? ==> Apply(w, e).policy == w.policy
    ensures Apply(w, e).policy.cursor == w.policy.cursor && Apply(w, e).policy.lastScheduledAt == w.policy.lastScheduledAt
  {
    if e.Wire? {
      WireKeepsJobs(w.sys, e.step);
      if e.step.Enqueue? { OneMoreJob(Jobs(w.sys.rows), (e.step.agent, e.step.payload), w.agent); }
      assert !e.step.Enqueue? ==> Jobs(w.sys.rows) + [] == Jobs(w.sys.rows);
    }
  }

  lemma IssueQueuesOneScan<R>(w: World<R>, now: int)
    requires HasTargets(w.policy)
    ensures var js, js' := Jobs(w.sys.rows), Jobs(Issue(w, now).sys.rows);
            && ScanCount(js', w.agent) == ScanCount(js, w.agent) + 1
            && AllTargets(js', w.agent) == AllTargets(js, w.agent) + PlanTargets(w.policy).value.0
  {
    var job := (w.agent, ScanNetwork(true, PlanTargets(w.policy).value.0));
    assert Jobs(Issue(w, now).sys.rows) == Jobs(w.sys.rows) + [job];
    OneMoreJob(Jobs(w.sys.rows), job, w.agent);
  }

  /** The cursor, the queued scans and the time of the last scan move together: exactly when a
      scheduler pass or a trigger passes its guards, and never otherwise. */
  lemma CursorMovesWithScans<R>(w: World<R>, e: Event<R>)
    requires Enabled(w, e)
    ensures var w' := Apply(w, e);
            var js, js' := Jobs(w.sys.rows), Jobs(w'.sys.rows);
            if Issues(w, e) then
              && ScanCount(js', w.agent) == ScanCount(js, w.agent) + 1
              && AllTargets(js', w.agent) == AllTargets(js, w.agent) + PlanTargets(w.policy).value.0
              && w'.policy == w.policy.(cursor := PlanTargets(w.policy).value.1, lastScheduledAt := Some(e.now))
            else
              && ScanCount(js', w.agent) == ScanCount(js, w.agent)
              && AllTargets(js', w.agent) == AllTargets(js, w.agent)
              && w'.policy.cursor == w.policy.cursor && w'.policy.lastScheduledAt == w.policy.lastScheduledAt
  {
    if Issues(w, e) { IssueQueuesOneScan(w, e.now); } else { QuietStepQueuesNoScan(w, e); }
  }

  /** Since world w, the agent was queued this many scans, whose targets sweep w's policy from w's cursor. */
  ghost predicate Carried<R>(w: World<R>, w': World<R>, scans: nat) {
    var js, js' := Jobs(w.sys.rows), Jobs(w'.sys.rows);
    && w'.agent == w.agent
    && ScanCount(js', w.agent) == ScanCount(js, w.agent) + scans
    && w'.policy == w.policy.(cursor := w'.policy.cursor, lastScheduledAt := w'.policy.lastScheduledAt)
    && Swept(AllChunks(w.policy.networks), w.policy.chunkCount, w.policy.cursor, scans,
             AllTargets(js, w.agent), AllTargets(js', w.agent), w'.policy.cursor)
  }

  ghost predicate Swept<T>(chunks: seq<T>, k: nat, cursor: nat, scans: nat, before: seq<T>, after: seq<T>, at: nat) {
    after == before + Sweep(chunks, k, cursor, scans) && at == SweepCursor(chunks, k, cursor, scans)
  }

  lemma SweptFurther<T>(chunks: seq<T>, k: nat, cursor: nat, scans: nat, before: seq<T>, after: seq<T>, at: nat)
    requires Swept(chunks, k, cursor, scans, before, after, at)
    ensures var plan := RotatingPlan(chunks, k, at);
            Swept(chunks, k, cursor, scans + 1, before, after + plan.targets, plan.nextCursor)
  {
    SweepExtends(chunks, k, cursor, scans);
  }

  lemma CarriedByIssue<R>(w: World<R>, m: World<R>, now: int, scans: nat)
    requires w.policy.strategy.RotatingChunks? && Carried(w, m, scans) && HasTargets(m.policy)
    ensures Carried(w, Issue(m, now), scans + 1)
  {
    IssueQueuesOneScan(m, now);
    SweptFurther(AllChunks(w.policy.networks), w.policy.chunkCount, w.policy.cursor, scans,
                 AllTargets(Jobs(w.sys.rows), w.agent), AllTargets(Jobs(m.sys.rows), w.agent), m.policy.cursor);
  }

  lemma CarriedStep<R>(w: World<R>, m: World<R>, e: Event<R>, scans: nat)
    requires w.policy.strategy.RotatingChunks? && Carried(w, m, scans) && Enabled(m, e) && !e.Edit?
    ensures Carried(w, Apply(m, e), if Issues(m, e) then scans + 1 else scans)
  {
    if Issues(m, e) { CarriedByIssue(w, m, e.now, scans); } else { QuietStepQueuesNoScan(m, e); }
  }

  // ----- When exactly a scan is queued -----

  /** What both operations ask for: the gateway online, masscan installed and not being installed, no
      scan pending or dispatched, and something to scan. */
  ghost predicate CanScan<R>(w: World<R>, online: bool, masscan: bool) {
    && online && masscan
    && w.policy.networks != [] && w.policy.chunkCount >= 1
    && forall i :: 0 <= i < |w.sys.rows| && w.sys.rows[i].agent == w.agent &&
                   (w.sys.rows[i].state.Pending? || w.sys.rows[i].state.Dispatched?) ==>
         !w.sys.rows[i].payload.ScanNetwork? && w.sys.rows[i].payload != InstallModule("masscan")
  }

  lemma TargetsExist(p: Policy)
    ensures HasTargets(p) <==> p.networks != [] && p.chunkCount >= 1
  {
    var chunks := AllChunks(p.networks);
    if p.networks != [] { SomeChunk(p.networks); }
    assert p.networks == [] ==> chunks == [];
  }

  lemma GuardsMean<R>(w: World<R>, online: bool, masscan: bool)
    ensures TriggerIssues(w.policy, w.sys.rows, w.agent, online, masscan) <==> CanScan(w, online, masscan)
  {
    TargetsExist(w.policy);
  }

  /** A scheduler pass queues a scan exactly when the policy is enabled, its last scan is absent or at
      least the interval ago, and a scan is possible. */
  lemma PassQueuesExactlyWhen<R>(w: World<R>, now: int, online: bool, masscan: bool)
    requires w.sys.clock <= now
    ensures var js, js' := Jobs(w.sys.rows), Jobs(Apply(w, Pass(now, online, masscan)).sys.rows);
            var last := w.policy.lastScheduledAt;
            ScanCount(js', w.agent) ==
            if w.policy.enabled && (last.None? || now - last.value >= w.policy.interval * 60) && CanScan(w, online, masscan)
            then ScanCount(js, w.agent) + 1 else ScanCount(js, w.agent)
  {
    GuardsMean(w, online, masscan);
    CursorMovesWithScans(w, Pass(now, online, masscan));
  }

  /** A trigger queues one exactly when a scan is possible, whether or not the policy is enabled. */
  lemma TriggerQueuesExactlyWhen<R>(w: World<R>, now: int, online: bool, masscan: bool)
    requires w.sys.clock <= now
    ensures var js, js' := Jobs(w.sys.rows), Jobs(Apply(w, Trigger(now, online, masscan)).sys.rows);
            ScanCount(js', w.agent) ==
            if CanScan(w, online, masscan) then ScanCount(js, w.agent) + 1 else ScanCount(js, w.agent)
  {
    GuardsMean(w, online, masscan);
    CursorMovesWithScans(w, Trigger(now, online, masscan));
  }

  lemma DisabledStep<R>(w: World<R>, e: Event<R>)
    requires Enabled(w, e) && !w.policy.enabled && !e.Trigger? && (e.Edit? ==> !e.policy.enabled)
    ensures !Apply(w, e).policy.enabled && Apply(w, e).agent == w.agent
    ensures ScanCount(Jobs(Apply(w, e).sys.rows), w.agent) == ScanCount(Jobs(w.sys.rows), w.agent)
  {
    if e.Pass? { PassQueuesExactlyWhen(w, e.now, e.online, e.masscan); } else { CursorMovesWithScans(w, e); }
  }

  /** While a policy stays disabled, a run without triggers queues no scan. */
  lemma {:induction false} DisabledPolicyQueuesNothing<R>(w: World<R>, es: seq<Event<R>>)
    requires Valid(w, es) && !w.policy.enabled
    requires forall e :: e in es ==> !e.Trigger? && (e.Edit? ==> !e.policy.enabled)
    ensures !Run(w, es).policy.enabled && Run(w, es).agent == w.agent
    ensures ScanCount(Jobs(Run(w, es).sys.rows), w.agent) == ScanCount(Jobs(w.sys.rows), w.agent)
  {
    if es != [] {
      DisabledPolicyQueuesNothing(w, es[..|es| - 1]);
      DisabledStep(Run(w, es[..|es| - 1]), es[|es| - 1]);
    }
  }

  /** How many scans the events of a run queue. */
  function ScansQueued<R>(w: World<R>, es: seq<Event<R>>): nat
    requires Valid(w, es)
  {
    if es == [] then 0
    else
      ScansQueued(w, es[..|es| - 1]) + if Issues(Run(w, es[..|es| - 1]), es[|es| - 1]) then 1 else 0
  }

  /** While a rotating policy is not edited, the scans queued in a run carry consecutive windows: their
      targets, one after the other, are the sweep that starts at the run's first cursor. */
  lemma {:induction false} ScansCarryConsecutiveWindows<R>(w: World<R>, es: seq<Event<R>>) returns (scans: nat)
    requires Valid(w, es) && (forall e :: e in es ==> !e.Edit?)
    requires w.policy.strategy.RotatingChunks?
    ensures Carried(w, Run(w, es), scans) && scans == ScansQueued(w, es)
  {
    if es == [] {
      scans := 0;
      var js := Jobs(w.sys.rows);
      var targets := AllTargets(js, w.agent);
      assert targets + [] == targets;
    } else {
      var front, e := es[..|es| - 1], es[|es| - 1];
      var before := ScansCarryConsecutiveWindows(w, front);
      CarriedStep(w, Run(w, front), e, before);
      scans := if Issues(Run(w, front), e) then before + 1 else before;
    }
  }

  /** Hence, however the run interleaves, once ceil(chunks / chunk count) scans have been queued every
      address of every monitored network is in the targets of one of them; none is ever outside. */
  lemma ScansCoverThePolicy<R>(w: World<R>, es: seq<Event<R>>, address: nat) returns (targets: seq<Block>)
    requires Valid(w, es) && (forall e :: e in es ==> !e.Edit?)
    requires w.policy.strategy.RotatingChunks? && w.policy.chunkCount > 0
    ensures var js, js' := Jobs(w.sys.rows), Jobs(Run(w, es).sys.rows);
            && AllTargets(js', w.agent) == AllTargets(js, w.agent) + targets
            && (Targeted(targets, address) ==> Monitored(w.policy.networks, address))
            && (Monitored(w.policy.networks, address)
                && ScanCount(js', w.agent) >=
                   ScanCount(js, w.agent) + CeilDiv(|AllChunks(w.policy.networks)|, w.policy.chunkCount)
                ==> Targeted(targets, address))
  {
    var scans := ScansCarryConsecutiveWindows(w, es);
    targets := Sweep(AllChunks(w.policy.networks), w.policy.chunkCount, w.policy.cursor, scans);
    SweepCoversExactlyThePolicy(w.policy.networks, w.policy.chunkCount, w.policy.cursor, scans, address);
  }

  // ----- Full sweeps -----

  /** What every scan of a full-sweep policy targets: its first chunks, the same ones each time. */
  function FirstChunks(p: Policy): seq<Block> {
    AllChunks(p.networks)[..Least(p.chunkCount, |AllChunks(p.networks)|)]
  }

  ghost predicate AreFirstChunks<R>(rows: seq<Command<Job, R>>, from: nat, agent: AgentId, p: Policy) {
    forall i :: from <= i < |rows| && rows[i].agent == agent && rows[i].payload.ScanNetwork? ==>
      rows[i].payload == ScanNetwork(true, FirstChunks(p))
  }

  lemma FullSweepStep<R>(w: World<R>, e: Event<R>, from: nat, p: Policy)
    requires Enabled(w, e) && !e.Edit? && from <= |w.sys.rows| && AreFirstChunks(w.sys.rows, from, w.agent, p)
    requires p.strategy.FullSweep? && w.policy == p.(cursor := w.policy.cursor, lastScheduledAt := w.policy.lastScheduledAt)
    ensures var w' := Apply(w, e);
            && |w.sys.rows| <= |w'.sys.rows| && w'.agent == w.agent
            && AreFirstChunks(w'.sys.rows, from, w.agent, p)
            && w'.policy == p.(cursor := w'.policy.cursor, lastScheduledAt := w'.policy.lastScheduledAt)
  {
    if e.Wire? {
      WireKeepsJobs(w.sys, e.step);
      var js, js' := Jobs(w.sys.rows), Jobs(Apply(w, e).sys.rows);
      forall i | 0 <= i < |js'| ensures js'[i] == (Apply(w, e).sys.rows[i].agent, Apply(w, e).sys.rows[i].payload) {
      }
      forall i | 0 <= i < |js| ensures js'[i] == (w.sys.rows[i].agent, w.sys.rows[i].payload) {
      }
    }
  }

  /** While a full-sweep policy is not edited, every scan queued in a run targets the same first
      chunk_count chunks. */
  lemma {:induction false} FullSweepsRepeat<R>(w: World<R>, es: seq<Event<R>>)
    requires Valid(w, es) && (forall e :: e in es ==> !e.Edit?) && w.policy.strategy.FullSweep?
    ensures var w' := Run(w, es);
            && |w.sys.rows| <= |w'.sys.rows| && w'.agent == w.agent
            && AreFirstChunks(w'.sys.rows, |w.sys.rows|, w.agent, w.policy)
            && w'.policy == w.policy.(cursor := w'.policy.cursor, lastScheduledAt := w'.policy.lastScheduledAt)
  {
    if es != [] {
      var front, e := es[..|es| - 1], es[|es| - 1];
      FullSweepsRepeat(w, front);
      FullSweepStep(Run(w, front), e, |w.sys.rows|, w.policy);
    }
  }

  /** An address is in the targets of some scan queued for the agent from row `from` on. */
  ghost predicate ScannedSince<R>(rows: seq<Command<Job, R>>, from: nat, agent: AgentId, address: nat) {
    exists i :: from <= i < |rows| && rows[i].agent == agent && rows[i].payload.ScanNetwork? &&
                Targeted(rows[i].payload.targets, address)
  }

  ghost predicate QueuedScan<R>(rows: seq<Command<Job, R>>, from: nat, agent: AgentId) {
    exists i :: from <= i < |rows| && rows[i].agent == agent && rows[i].payload.ScanNetwork?
  }

  lemma ScannedIsFirst<R>(w: World<R>, es: seq<Event<R>>, address: nat)
    requires Valid(w, es) && (forall e :: e in es ==> !e.Edit?) && w.policy.strategy.FullSweep?
    requires QueuedScan(Run(w, es).sys.rows, |w.sys.rows|, w.agent)
    ensures ScannedSince(Run(w, es).sys.rows, |w.sys.rows|, w.agent, address) <==> Targeted(FirstChunks(w.policy), address)
  {
    FullSweepsRepeat(w, es);
  }

  /** Of networks that do not overlap, the first chunks hold every address if and only if they are all. */
  lemma FirstChunksCover(p: Policy)
    requires NoOverlap(p.networks)
    ensures (forall a: nat :: Monitored(p.networks, a) ==> Targeted(FirstChunks(p), a)) <==>
            |AllChunks(p.networks)| <= p.chunkCount
  {
    var chunks := AllChunks(p.networks);
    if |chunks| <= p.chunkCount {
      assert chunks[..|chunks|] == chunks;
      forall a: nat | Monitored(p.networks, a) ensures Targeted(FirstChunks(p), a) { ChunksCoverExactly(p.networks, a); }
    } else {
      LeftOut(p.networks, FirstChunks(p), p.chunkCount);
    }
  }

  /** However long a full-sweep policy without overlapping networks runs, once it has queued a scan its
      scans together cover every address if and only if it has at most chunk_count chunks. */
  lemma FullSweepsCover<R>(w: World<R>, es: seq<Event<R>>)
    requires Valid(w, es) && (forall e :: e in es ==> !e.Edit?)
    requires w.policy.strategy.FullSweep? && NoOverlap(w.policy.networks)
    requires QueuedScan(Run(w, es).sys.rows, |w.sys.rows|, w.agent)
    ensures (forall a: nat :: Monitored(w.policy.networks, a) ==>
               ScannedSince(Run(w, es).sys.rows, |w.sys.rows|, w.agent, a)) <==>
            |AllChunks(w.policy.networks)| <= w.policy.chunkCount
  {
    forall a: nat
      ensures ScannedSince(Run(w, es).sys.rows, |w.sys.rows|, w.agent, a) <==> Targeted(FirstChunks(w.policy), a)
    {
      ScannedIsFirst(w, es, a);
    }
    FirstChunksCover(w.policy);
  }

  const DEFAULT_CHUNK_COUNT := 4

  /** The default network under the default chunk count: 256 chunks, of which every full sweep scans the
      first four, so that 192.168.4.0 is monitored but never scanned. */
  lemma DefaultFullSweepMissesAddresses<R>(w: World<R>, es: seq<Event<R>>)
    requires Valid(w, es) && (forall e :: e in es ==> !e.Edit?)
    requires w.policy.strategy.FullSweep? && w.policy.chunkCount == DEFAULT_CHUNK_COUNT
    requires w.policy.networks == Networks(Normalized(None))
    ensures |AllChunks(w.policy.networks)| == 256
    ensures Monitored(w.policy.networks, 0xC0A8_0400)
    ensures !ScannedSince(Run(w, es).sys.rows, |w.sys.rows|, w.agent, 0xC0A8_0400)
  {
    FullSweepsRepeat(w, es);
    DefaultFirstChunks(w.policy);
  }

  lemma DefaultFirstChunks(p: Policy)
    requires p.chunkCount == DEFAULT_CHUNK_COUNT && p.networks == Networks(Normalized(None))
    ensures |AllChunks(p.networks)| == 256
    ensures Monitored(p.networks, 0xC0A8_0400) && !Targeted(FirstChunks(p), 0xC0A8_0400)
  {
    Pow2Literals();
    var n := Masked(0xC0A8_0000, 16);
    assert p.networks == [n] && n in p.networks && n == Block(0xC0A8_0000, 16);
    assert p.networks[..0] == [];
    assert AllChunks(p.networks) == Split(n);
    forall c | c in FirstChunks(p) ensures c.prefix == 24 && !Contains(c, 0xC0A8_0400) {
      var i: nat :| i < 4 && FirstChunks(p)[i] == c;
      assert c == Block(0xC0A8_0000 + 256 * i, 24);
    }
  }

  /** One plan of a full sweep is complete exactly when there are at most chunk_count chunks. */
  lemma FullSweepIsCut(p: Policy)
    requires p.strategy.FullSweep?
    ensures PlanTargets(p).Some? && PlanTargets(p).value == (FirstChunks(p), 0)
    ensures PlanTargets(p).value.0 == AllChunks(p.networks) <==> |AllChunks(p.networks)| <= p.chunkCount
  {
    var chunks := AllChunks(p.networks);
    if |chunks| <= p.chunkCount { assert chunks[..|chunks|] == chunks; }
  }

  // ----- Spacing -----

  ghost predicate ClockAhead<R>(w: World<R>) {
    w.policy.lastScheduledAt.Some? ==> w.policy.lastScheduledAt.value <= w.sys.clock
  }

  lemma StepKeepsClock<R>(w: World<R>, e: Event<R>)
    requires Enabled(w, e) && ClockAhead(w)
    ensures ClockAhead(Apply(w, e)) && w.sys.clock <= Apply(w, e).sys.clock
    ensures w.policy.lastScheduledAt.Some? ==>
              Apply(w, e).policy.lastScheduledAt.Some? &&
              w.policy.lastScheduledAt.value <= Apply(w, e).policy.lastScheduledAt.value
  {
  }

  lemma {:induction false} LastScanIsRemembered<R>(w: World<R>, es: seq<Event<R>>, i: nat)
    requires Valid(w, es) && ClockAhead(w) && i < |es|
    ensures Valid(w, es[..i])
    ensures ClockAhead(Run(w, es))
    ensures Issues(Run(w, es[..i]), es[i]) ==>
              Run(w, es).policy.lastScheduledAt.Some? && es[i].now <= Run(w, es).policy.lastScheduledAt.value
    decreases |es|
  {
    var front, e := es[..|es| - 1], es[|es| - 1];
    if |front| > 0 { LastScanIsRemembered(w, front, if i < |front| then i else 0); }
    StepKeepsClock(Run(w, front), e);
    if i < |front| {
      assert front[..i] == es[..i];
    }
  }

  /** A scan queued by the scheduler comes at least the policy's interval after every earlier scan of
      the run, scheduled or immediate. */
  lemma ScheduledScansKeepTheirDistance<R>(w: World<R>, es: seq<Event<R>>, i: nat, e: Event<R>)
    requires Valid(w, es) && ClockAhead(w) && i < |es|
    requires Enabled(Run(w, es), e) && e.Pass? && Issues(Run(w, es), e)
    ensures Valid(w, es[..i])
    ensures Issues(Run(w, es[..i]), es[i]) ==> es[i].now + 60 * Run(w, es).policy.interval <= e.now
  {
    LastScanIsRemembered(w, es, i);
  }

  // ----- Coverage takes time -----

  predicate FirstScanAt<R>(w: World<R>, es: seq<Event<R>>, i: nat)
    requires Valid(w, es)
  {
    i < |es| && Valid(w, es[..i]) && ScansQueued(w, es[..i]) == 0 && Issues(Run(w, es[..i]), es[i])
  }

  lemma OneMoreInterval(count: nat, interval: nat)
    ensures Elapsed(count + 1, interval) == Elapsed(count, interval) + interval
  {
    Distribute(count, 1, interval);
  }

  ghost predicate SpacedFrom(p: Policy, first: int, scans: nat, interval: nat) {
    p.lastScheduledAt.Some? && scans >= 1 && p.lastScheduledAt.value >= first + 60 * Elapsed(scans - 1, interval)
  }

  lemma PolicyStep<R>(w: World<R>, e: Event<R>)
    requires Enabled(w, e) && !e.Edit?
    ensures Apply(w, e).policy == if Issues(w, e) then PolicyAfterScan(w.policy, e.now) else w.policy
  {
  }

  lemma SpacedStep<R>(w: World<R>, e: Event<R>, first: int, scans: nat, scans': nat, interval: nat)
    requires Enabled(w, e) && !e.Trigger? && !e.Edit? && w.policy.interval == interval && SpacedFrom(w.policy, first, scans, interval)
    requires scans' == if Issues(w, e) then scans + 1 else scans
    ensures SpacedFrom(Apply(w, e).policy, first, scans', interval)
  {
    PolicyStep(w, e);
    OneMoreInterval(scans - 1, interval);
  }

  lemma {:induction false} IntervalStays<R>(w: World<R>, es: seq<Event<R>>)
    requires Valid(w, es) && forall e :: e in es ==> !e.Edit?
    ensures Run(w, es).policy.interval == w.policy.interval
  {
    if es != [] {
      IntervalStays(w, es[..|es| - 1]);
      PolicyStep(Run(w, es[..|es| - 1]), es[|es| - 1]);
    }
  }

  lemma SpacedFirst<R>(w: World<R>, e: Event<R>)
    requires Enabled(w, e) && !e.Edit? && Issues(w, e)
    ensures SpacedFrom(Apply(w, e).policy, e.now, 1, w.policy.interval)
  {
    PolicyStep(w, e);
    assert Elapsed(0, w.policy.interval) == 0;
  }

  lemma SameFirstScan<R>(w: World<R>, es: seq<Event<R>>, e: Event<R>, i: nat)
    requires Valid(w, es + [e]) && Valid(w, es) && FirstScanAt(w, es, i)
    ensures FirstScanAt(w, es + [e], i)
  {
    assert (es + [e])[..i] == es[..i];
  }

  /** In a run of scheduler passes, without triggers and edits, the last of j scans comes at least j - 1
      intervals after the first. */
  lemma {:induction false} ScansAreSpacedOut<R>(w: World<R>, es: seq<Event<R>>) returns (i: nat)
    requires Valid(w, es) && (forall e :: e in es ==> !e.Edit? && !e.Trigger?)
    requires ScansQueued(w, es) >= 1
    ensures FirstScanAt(w, es, i)
    ensures SpacedFrom(Run(w, es).policy, es[i].now, ScansQueued(w, es), w.policy.interval)
  {
    var front, e := es[..|es| - 1], es[|es| - 1];
    assert es == front + [e];
    IntervalStays(w, front);
    if ScansQueued(w, front) == 0 {
      i := |front|;
      SpacedFirst(Run(w, front), e);
    } else {
      i := ScansAreSpacedOut(w, front);
      SameFirstScan(w, front, e, i);
      SpacedStep(Run(w, front), e, front[i].now, ScansQueued(w, front), ScansQueued(w, es), w.policy.interval);
    }
  }

  /** All addresses of networks that do not overlap are covered only by enough scans. */
  lemma FullCoverageNeedsScans<R>(w: World<R>, es: seq<Event<R>>, targets: seq<Block>)
    requires Valid(w, es) && (forall e :: e in es ==> !e.Edit?)
    requires w.policy.strategy.RotatingChunks? && w.policy.chunkCount > 0 && NoOverlap(w.policy.networks)
    requires AllTargets(Jobs(Run(w, es).sys.rows), w.agent) == AllTargets(Jobs(w.sys.rows), w.agent) + targets
    requires forall a: nat :: Monitored(w.policy.networks, a) ==> Targeted(targets, a)
    ensures ScansQueued(w, es) >= CeilDiv(|AllChunks(w.policy.networks)|, w.policy.chunkCount)
  {
    var chunks, k := AllChunks(w.policy.networks), w.policy.chunkCount;
    var scans := ScansCarryConsecutiveWindows(w, es);
    SameSweep(AllTargets(Jobs(w.sys.rows), w.agent), targets, Sweep(chunks, k, w.policy.cursor, scans));
    CoverageBoundIsTight(w.policy.networks, k, w.policy.cursor, scans);
  }

  /** Both scans together: the last of enough scans comes a full coverage time, less one interval, after
      the first. */
  lemma SpacedByCoverage(p: Policy, first: int, scans: nat, interval: nat, n: nat, k: nat)
    requires n > 0 && k > 0 && scans >= CeilDiv(n, k) && SpacedFrom(p, first, scans, interval)
    ensures CoverageMinutes(n, k, interval).Some?
    ensures p.lastScheduledAt.value >= first + 60 * (CoverageMinutes(n, k, interval).value - interval)
  {
    EnoughScans(n, k, scans, interval);
  }

  /** So a rotating policy without overlapping networks cannot have covered all its addresses before the
      coverage time shown for it, less one interval, has passed since the first scan. */
  lemma CoverageTakesItsTime<R>(w: World<R>, es: seq<Event<R>>, targets: seq<Block>) returns (i: nat)
    requires Valid(w, es) && (forall e :: e in es ==> !e.Edit? && !e.Trigger?)
    requires w.policy.strategy.RotatingChunks? && w.policy.chunkCount > 0
    requires NoOverlap(w.policy.networks) && w.policy.networks != []
    requires AllTargets(Jobs(Run(w, es).sys.rows), w.agent) == AllTargets(Jobs(w.sys.rows), w.agent) + targets
    requires forall a: nat :: Monitored(w.policy.networks, a) ==> Targeted(targets, a)
    ensures FirstScanAt(w, es, i)
    ensures CoverageMinutes(|AllChunks(w.policy.networks)|, w.policy.chunkCount, w.policy.interval).Some?
    ensures Run(w, es).policy.lastScheduledAt.Some?
    ensures var shown := CoverageMinutes(|AllChunks(w.policy.networks)|, w.policy.chunkCount, w.policy.interval).value;
            Run(w, es).policy.lastScheduledAt.value >= es[i].now + 60 * (shown - w.policy.interval)
  {
    var n := |AllChunks(w.policy.networks)|;
    FullCoverageNeedsScans(w, es, targets);
    SomeChunk(w.policy.networks);
    EnoughScans(n, w.policy.chunkCount, ScansQueued(w, es), w.policy.interval);
    i := ScansAreSpacedOut(w, es);
    SpacedByCoverage(Run(w, es).policy, es[i].now, ScansQueued(w, es), w.policy.interval, n, w.policy.chunkCount);
  }

  lemma SameSweep<T>(before: seq<T>, a: seq<T>, b: seq<T>)
    requires before + a == before + b
    ensures a == b
  {
    assert a == (before + a)[|before|..] && b == (before + b)[|before|..];
  }

  lemma SomeChunk(ns: seq<Network>)
    requires ns != []
    ensures AllChunks(ns) != []
  {
    ChunkSize(ns[|ns| - 1]);
  }

  lemma EnoughScans(n: nat, k: nat, scans: nat, interval: nat)
    requires n > 0 && k > 0 && scans >= CeilDiv(n, k)
    ensures scans >= 1 && CoverageMinutes(n, k, interval).Some?
    ensures Elapsed(scans - 1, interval) >= CoverageMinutes(n, k, interval).value - interval
  {
    var needed := CeilDiv(n, k);
    CeilDivIsLeast(n, k, 0);
    OneMoreInterval(needed - 1, interval);
    if interval > 0 { MultiplesCompare(scans - 1, needed - 1, interval); }
  }
}
