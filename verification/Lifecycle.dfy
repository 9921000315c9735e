/** Registry, command queue, worker daemons and their stack directories as one transition system. */
module Lifecycle {
  import opened Options
  import opened Sequences
  import opened CommandQueue
  import opened TenantRegistry
  import Delivery
  import RegistryInvariant
  import StackState
  import opened WorkerExecution
  import TenantEffects

  type System = Delivery.System<TenantCommand, CommandResult>

  datatype World = World(
    tenants: map<TenantId, Tenant>,
    next: TenantId,
    sys: System,
    stacks: map<AgentId, Disk>)
  {
    function Db(): Db { TenantRegistry.Db(tenants, sys.rows, next, sys.daemons.Keys) }

    function WithDb(db: Db): World { World(db.tenants, db.next, sys.(rows := db.rows), stacks) }
  }

  datatype Event =
    | Service(call: Call)
    | Poll(agent: AgentId, now: int, replyLost: bool)
    | Execute(agent: AgentId, ok: bool, result: CommandResult, disk: Disk)
    | Ack(agent: AgentId, now: int, fate: Delivery.AckFate)
    | Crash(agent: AgentId)
  {
    predicate Lossless() {
      && (Poll? ==> !replyLost)
      && (Ack? ==> fate.Answered?)
      && !Crash?
    }
  }

  ghost predicate Init(w: World) {
    && w.tenants == map[]
    && Delivery.Init(w.sys)
    && w.stacks.Keys == w.sys.daemons.Keys
    && forall a :: a in w.stacks ==> StackState.Valid(w.stacks[a])
  }

  ghost predicate Next(w: World, e: Event, w': World) {
    match e
    case Service(call) => Callable(w.Db(), call) && w' == w.WithDb(After(w.Db(), call))
    case Poll(a, now, replyLost) =>
      Delivery.Enabled(w.sys, Delivery.Poll(a, now, replyLost))
      && w' == w.(sys := Delivery.Apply(w.sys, Delivery.Poll(a, now, replyLost)))
    case Execute(a, ok, result, disk) =>
      Delivery.Enabled(w.sys, Delivery.Execute(a, ok, result)) && a in w.stacks
      && w.sys.daemons[a].batch[0] < |w.sys.rows|
      && Executed(w.sys.rows[w.sys.daemons[a].batch[0]].payload, w.stacks[a], disk, ok, result)
      && w' == AfterExecuteStep(w, a, ok, result, disk)
    case Ack(a, now, fate) =>
      Delivery.Enabled(w.sys, Delivery.Ack(a, now, fate))
      && w' == AfterAckStep(w, a, now, fate)
    case Crash(a) =>
      Delivery.Enabled(w.sys, Delivery.Crash(a))
      && w' == w.(sys := Delivery.Apply(w.sys, Delivery.Crash(a)))
  }

  /** An ack that reaches the server also syncs the tenant, in the same transaction. */
  function AfterAckStep(w: World, a: AgentId, now: int, fate: Delivery.AckFate): World
    requires Delivery.Enabled(w.sys, Delivery.Ack(a, now, fate))
  {
    var acked := w.(sys := Delivery.Apply(w.sys, Delivery.Ack(a, now, fate)));
    var r := w.sys.daemons[a].report.value;
    if fate.RequestLost? then acked else acked.WithDb(Acknowledged(w.Db(), r.id, r.ok, r.result, now))
  }

  // ----- The joint invariant -----

  /** The pending report of an agent: its command, and what its success says about the directory. */
  ghost predicate ReportFits(rows: seq<Row>, a: AgentId, report: Option<Delivery.Report<CommandResult>>, disk: Disk) {
    report.Some? ==>
      var r := report.value;
      && r.id < |rows|
      && rows[r.id].agent == a
      && r.result.runtime != Status(RuntimeStatus.Pending)
      && Truthful(rows[r.id].payload.kind, r.ok, r.result)
      && (rows[r.id].payload.kind.Deprovision? && r.ok ==> rows[r.id].payload.body.slug !in disk.State().tenants)
  }

  ghost predicate WorkerInv(w: World, a: AgentId)
    requires a in w.stacks && a in w.sys.daemons
  {
    StackState.Valid(w.stacks[a]) && ReportFits(w.sys.rows, a, w.sys.daemons[a].report, w.stacks[a])
  }

  ghost predicate WorkersInv(w: World) {
    && w.stacks.Keys == w.sys.daemons.Keys
    && (forall a :: a in w.stacks ==> WorkerInv(w, a))
  }

  ghost predicate Inv(w: World) {
    RegistryInvariant.Inv(w.Db()) && Delivery.Inv(w.sys) && WorkersInv(w)
  }

  lemma InitInv(w: World)
    requires Init(w)
    ensures Inv(w)
  {
  }

  /** Appending commands is a sequence of delivery steps. */
  lemma {:induction false} AppendKeepsDelivery(s: System, rows: seq<Row>)
    requires Delivery.Inv(s) && Appended(s.rows, rows, s.daemons.Keys)
    ensures Delivery.Inv(s.(rows := rows))
    decreases |rows|
  {
    if |rows| == |s.rows| {
      assert s.(rows := rows) == s;
    } else {
      var n := |rows| - 1;
      AppendKeepsDelivery(s, rows[..n]);
      var e := Delivery.Enqueue(rows[n].agent, rows[n].payload);
      Delivery.StepKeepsInv(s.(rows := rows[..n]), e);
      assert rows == rows[..n] + [rows[n]];
    }
  }

  lemma ServiceKeepsInv(w: World, call: Call)
    requires Inv(w) && Callable(w.Db(), call)
    ensures Inv(w.WithDb(After(w.Db(), call)))
  {
    var w' := w.WithDb(After(w.Db(), call));
    RegistryInvariant.CallKeepsInv(w.Db(), call);
    CallsAppend(w.Db(), call);
    AppendKeepsDelivery(w.sys, w'.sys.rows);
    assert w'.Db() == After(w.Db(), call);
    forall a | a in w'.stacks ensures WorkerInv(w', a) { assert WorkerInv(w, a); }
  }

  lemma StepKeepsWorkers(w: World, step: Delivery.Event<TenantCommand, CommandResult>)
    requires WorkersInv(w) && Delivery.Enabled(w.sys, step) && !step.Execute?
    ensures WorkersInv(w.(sys := Delivery.Apply(w.sys, step)))
  {
    var w' := w.(sys := Delivery.Apply(w.sys, step));
    forall a | a in w'.stacks ensures WorkerInv(w', a) {
      assert WorkerInv(w, a);
      if w.sys.daemons[a].report.Some? { Delivery.StepKeepsJob(w.sys, step, w.sys.daemons[a].report.value.id); }
    }
  }

  lemma PollKeepsInv(w: World, a: AgentId, now: int, replyLost: bool)
    requires Inv(w) && Delivery.Enabled(w.sys, Delivery.Poll(a, now, replyLost))
    ensures Inv(w.(sys := Delivery.Apply(w.sys, Delivery.Poll(a, now, replyLost))))
  {
    var step := Delivery.Poll(a, now, replyLost);
    var w' := w.(sys := Delivery.Apply(w.sys, step));
    Delivery.StepKeepsInv(w.sys, step);
    StepKeepsWorkers(w, step);
    RegistryInvariant.PolledKeepsInv(w.Db(), a, now, w.sys.daemons[a].interval);
    assert w'.Db() == w.Db().(rows := w'.sys.rows);
  }

  lemma CrashKeepsInv(w: World, a: AgentId)
    requires Inv(w) && Delivery.Enabled(w.sys, Delivery.Crash(a))
    ensures Inv(w.(sys := Delivery.Apply(w.sys, Delivery.Crash(a))))
  {
    var w' := w.(sys := Delivery.Apply(w.sys, Delivery.Crash(a)));
    Delivery.StepKeepsInv(w.sys, Delivery.Crash(a));
    StepKeepsWorkers(w, Delivery.Crash(a));
    assert w'.Db() == w.Db();
  }

  /** The world after agent a has executed the head of its batch, leaving its directory as `disk`. */
  function AfterExecuteStep(w: World, a: AgentId, ok: bool, result: CommandResult, disk: Disk): World
    requires Delivery.Enabled(w.sys, Delivery.Execute(a, ok, result))
  {
    w.(sys := Delivery.Apply(w.sys, Delivery.Execute(a, ok, result)), stacks := w.stacks[a := disk])
  }

  lemma ExecuteKeepsWorkers(w: World, a: AgentId, ok: bool, result: CommandResult, disk: Disk)
    requires WorkersInv(w) && Delivery.Enabled(w.sys, Delivery.Execute(a, ok, result))
    requires var id := w.sys.daemons[a].batch[0];
             id < |w.sys.rows| && w.sys.rows[id].agent == a
             && Executed(w.sys.rows[id].payload, w.stacks[a], disk, ok, result)
    ensures WorkersInv(AfterExecuteStep(w, a, ok, result, disk))
  {
    var w' := AfterExecuteStep(w, a, ok, result, disk);
    assert WorkerInv(w, a);
    ExecutedFacts(w.sys.rows[w.sys.daemons[a].batch[0]].payload, w.stacks[a], disk, ok, result);
    assert WorkerInv(w', a);
    forall b | b in w'.stacks && b != a ensures WorkerInv(w', b) { assert WorkerInv(w, b); }
  }

  lemma ExecuteKeepsDb(w: World, a: AgentId, ok: bool, result: CommandResult, disk: Disk)
    requires Delivery.Enabled(w.sys, Delivery.Execute(a, ok, result))
    ensures AfterExecuteStep(w, a, ok, result, disk).Db() == w.Db()
  {
  }

  lemma BatchIsOwn(s: System, a: AgentId)
    requires Delivery.Inv(s) && a in s.daemons && s.daemons[a].batch != []
    ensures s.daemons[a].batch[0] < |s.rows| && s.rows[s.daemons[a].batch[0]].agent == a
  {
    assert Delivery.DaemonInv(s.rows, a, s.daemons[a]) && s.daemons[a].batch[0] in s.daemons[a].batch;
  }

  lemma ExecuteKeepsInv(w: World, a: AgentId, ok: bool, result: CommandResult, disk: Disk)
    requires Inv(w) && Delivery.Enabled(w.sys, Delivery.Execute(a, ok, result))
    requires var id := w.sys.daemons[a].batch[0];
             id < |w.sys.rows| && Executed(w.sys.rows[id].payload, w.stacks[a], disk, ok, result)
    ensures Inv(AfterExecuteStep(w, a, ok, result, disk))
  {
    var d := w.sys.daemons[a];
    BatchIsOwn(w.sys, a);
    ExecuteKeepsWorkers(w, a, ok, result, disk);
    Delivery.StepKeepsInv(w.sys, Delivery.Execute(a, ok, result));
    ExecuteKeepsDb(w, a, ok, result, disk);
  }

  /** What an ack step does, as seen from the tables and from the daemon. */
  lemma AckStepEffect(w: World, a: AgentId, now: int, fate: Delivery.AckFate)
    requires Delivery.Enabled(w.sys, Delivery.Ack(a, now, fate))
    ensures var w' := AfterAckStep(w, a, now, fate);
            var d, r := w.sys.daemons[a], w.sys.daemons[a].report.value;
            && w'.Db() == (if fate.RequestLost? then w.Db() else Acknowledged(w.Db(), r.id, r.ok, r.result, now))
            && w'.stacks == w.stacks && w'.sys.clock == now
            && w'.sys.daemons == w.sys.daemons[a := d.(report := None, batch := if fate.Answered? then d.batch else [])]
            && |w.sys.rows| <= |w'.sys.rows|
            && forall i :: 0 <= i < |w.sys.rows| ==> w'.sys.rows[i].agent == w.sys.rows[i].agent
  {
    var r := w.sys.daemons[a].report.value;
    RegistryInvariant.AckedRows(w.Db(), r.id, r.ok, r.result, now);
  }

  lemma AckKeepsRegistry(w: World, a: AgentId, now: int, fate: Delivery.AckFate)
    requires RegistryInvariant.Inv(w.Db()) && WorkersInv(w) && Delivery.Enabled(w.sys, Delivery.Ack(a, now, fate))
    ensures RegistryInvariant.Inv(AfterAckStep(w, a, now, fate).Db())
  {
    assert WorkerInv(w, a);
    var r := w.sys.daemons[a].report.value;
    RegistryInvariant.AcknowledgedKeepsInv(w.Db(), r.id, r.ok, r.result, now);
    AckStepEffect(w, a, now, fate);
  }

  lemma AckKeepsDelivery(w: World, a: AgentId, now: int, fate: Delivery.AckFate)
    requires Delivery.Inv(w.sys) && Delivery.Enabled(w.sys, Delivery.Ack(a, now, fate))
    ensures Delivery.Inv(AfterAckStep(w, a, now, fate).sys)
  {
    var acked := Delivery.Apply(w.sys, Delivery.Ack(a, now, fate));
    Delivery.StepKeepsInv(w.sys, Delivery.Ack(a, now, fate));
    var r := w.sys.daemons[a].report.value;
    if !fate.RequestLost? {
      RegistryInvariant.AckedRows(w.Db(), r.id, r.ok, r.result, now);
      AppendKeepsDelivery(acked, Acknowledged(w.Db(), r.id, r.ok, r.result, now).rows);
    }
  }

  lemma AckKeepsWorkers(w: World, a: AgentId, now: int, fate: Delivery.AckFate)
    requires WorkersInv(w) && Delivery.Enabled(w.sys, Delivery.Ack(a, now, fate))
    ensures WorkersInv(AfterAckStep(w, a, now, fate))
  {
    var step := Delivery.Ack(a, now, fate);
    StepKeepsWorkers(w, step);
    var acked := w.(sys := Delivery.Apply(w.sys, step));
    var w' := AfterAckStep(w, a, now, fate);
    var r := w.sys.daemons[a].report.value;
    RegistryInvariant.AckedRows(w.Db(), r.id, r.ok, r.result, now);
    forall b | b in w'.stacks ensures WorkerInv(w', b) { assert WorkerInv(acked, b); }
  }

  lemma AckKeepsInv(w: World, a: AgentId, now: int, fate: Delivery.AckFate)
    requires Inv(w) && Delivery.Enabled(w.sys, Delivery.Ack(a, now, fate))
    ensures Inv(AfterAckStep(w, a, now, fate))
  {
    AckKeepsRegistry(w, a, now, fate);
    AckKeepsDelivery(w, a, now, fate);
    AckKeepsWorkers(w, a, now, fate);
  }

  lemma NextKeepsInv(w: World, e: Event, w': World)
    requires Inv(w) && Next(w, e, w')
    ensures Inv(w')
  {
    match e
    case Service(call) => ServiceKeepsInv(w, call);
    case Execute(a, ok, result, disk) => ExecuteKeepsInv(w, a, ok, result, disk);
    case Ack(a, now, fate) => AckKeepsInv(w, a, now, fate);
    case Poll(a, now, replyLost) => PollKeepsInv(w, a, now, replyLost);
    case Crash(a) => CrashKeepsInv(w, a);
  }

  // ----- Runs -----

  /** ws[i + 1] results from ws[i] by es[i]. */
  ghost predicate StepAt(ws: seq<World>, es: seq<Event>, i: nat)
    requires |ws| == |es| + 1 && i < |es|
  {
    Next(ws[i], es[i], ws[i + 1])
  }

  ghost predicate Connected(ws: seq<World>, es: seq<Event>) {
    && |ws| == |es| + 1
    && forall i: nat :: i < |es| ==> StepAt(ws, es, i)
  }

  ghost predicate IsRun(ws: seq<World>, es: seq<Event>) {
    Connected(ws, es) && Init(ws[0])
  }

  /** A poll, as one step. */
  lemma PollAlone(w: World, a: AgentId, now: int, replyLost: bool) returns (w': World, ws: seq<World>, es: seq<Event>)
    requires Delivery.Enabled(w.sys, Delivery.Poll(a, now, replyLost))
    ensures |es| == 1 && Connected(ws, es) && ws[0] == w && ws[1] == w'
    ensures a in w'.sys.daemons && w'.sys.clock == now && w'.stacks == w.stacks
    ensures var d, d' := w.sys.daemons[a], w'.sys.daemons[a];
            && w'.Db() == w.Db().(rows := AfterPoll(w.sys.rows, a, now, d.interval))
            && d'.report == d.report
            && d'.batch == if replyLost then d.batch else PendingIds(w.sys.rows, a)
  {
    w' := w.(sys := Delivery.Apply(w.sys, Delivery.Poll(a, now, replyLost)));
    ws, es := [w, w'], [Poll(a, now, replyLost)];
  }

  /** Executing the head of a batch and acking it, as two steps. */
  lemma ExecuteAndAck(w: World, a: AgentId, ok: bool, result: CommandResult, disk: Disk, now: int, fate: Delivery.AckFate)
    returns (ws: seq<World>, es: seq<Event>)
    requires a in w.stacks && a in w.sys.daemons && w.sys.clock <= now
    requires var d := w.sys.daemons[a];
             d.report.None? && d.batch != [] && d.batch[0] < |w.sys.rows|
             && Executed(w.sys.rows[d.batch[0]].payload, w.stacks[a], disk, ok, result)
    ensures |es| == 2 && Connected(ws, es) && ws[0] == w && a in ws[2].sys.daemons
    ensures var d, d' := w.sys.daemons[a], ws[2].sys.daemons[a];
            && d'.report.None?
            && d'.batch == (if fate.Answered? then d.batch[1..] else [])
            && ws[2].Db() == (if fate.RequestLost? then w.Db() else Acknowledged(w.Db(), d.batch[0], ok, result, now))
            && ws[2].stacks == w.stacks[a := disk] && ws[2].sys.clock == now
            && |w.sys.rows| <= |ws[2].sys.rows|
            && forall i :: 0 <= i < |w.sys.rows| ==> ws[2].sys.rows[i].agent == w.sys.rows[i].agent
  {
    var w1 := AfterExecuteStep(w, a, ok, result, disk);
    AckStepEffect(w1, a, now, fate);
    assert w1.Db() == w.Db();
    ws := [w, w1, AfterAckStep(w1, a, now, fate)];
    es := [Execute(a, ok, result, disk), Ack(a, now, fate)];
  }

  lemma ConnectedAppend(ws: seq<World>, es: seq<Event>, ws': seq<World>, es': seq<Event>)
    requires Connected(ws, es) && Connected(ws', es') && ws[|es|] == ws'[0]
    ensures Connected(ws + ws'[1..], es + es')
    ensures (ws + ws'[1..])[0] == ws[0] && (ws + ws'[1..])[|es + es'|] == ws'[|es'|]
  {
    var vs, fs := ws + ws'[1..], es + es';
    forall i: nat | i < |fs| ensures StepAt(vs, fs, i) {
      if i >= |es| {
        var k := i - |es|;
        assert StepAt(ws', es', k);
        assert vs[i] == ws'[k] && vs[i + 1] == ws'[k + 1] && fs[i] == es'[k];
      } else {
        assert StepAt(ws, es, i);
        assert vs[i] == ws[i] && vs[i + 1] == ws[i + 1] && fs[i] == es[i];
      }
    }
  }

  lemma {:induction false} ConnectedKeepsInv(ws: seq<World>, es: seq<Event>, n: nat)
    requires Connected(ws, es) && Inv(ws[0]) && n < |ws|
    ensures Inv(ws[n])
  {
    if n > 0 {
      ConnectedKeepsInv(ws, es, n - 1);
      assert StepAt(ws, es, n - 1);
      NextKeepsInv(ws[n - 1], es[n - 1], ws[n]);
    }
  }

  lemma RunKeepsInv(ws: seq<World>, es: seq<Event>, n: nat)
    requires IsRun(ws, es) && n < |ws|
    ensures Inv(ws[n])
  {
    InitInv(ws[0]);
    ConnectedKeepsInv(ws, es, n);
  }

  /** Only two things take a tenant out of the registry: removing one that is still pending and was
      never asked to be provisioned, and the delivered ack of its successful deprovision. */
  ghost predicate Departs(w: World, e: Event, tid: TenantId)
    requires tid in w.tenants
  {
    var t := w.tenants[tid];
    if e.Service? then
      e.call.Remove? && e.call.tid == tid && t.runtime.Pending? && !RegistryInvariant.EverProvisioned(w.sys.rows, tid)
    else
      && e.Ack? && !e.fate.RequestLost? && e.agent in w.sys.daemons && t.worker == Some(e.agent)
      && var report := w.sys.daemons[e.agent].report;
         report.Some? && report.value.ok && report.value.id < |w.sys.rows|
         && w.sys.rows[report.value.id].payload.tenant == tid && w.sys.rows[report.value.id].payload.kind.Deprovision?
  }

  lemma AckDeparture(w: World, a: AgentId, now: int, fate: Delivery.AckFate, tid: TenantId)
    requires RegistryInvariant.Inv(w.Db()) && WorkersInv(w) && Delivery.Enabled(w.sys, Delivery.Ack(a, now, fate))
    requires !fate.RequestLost? && tid in w.tenants && tid !in AfterAckStep(w, a, now, fate).tenants
    ensures Departs(w, Ack(a, now, fate), tid)
    ensures a in w.stacks && w.tenants[tid].slug !in w.stacks[a].State().tenants
  {
    assert WorkerInv(w, a);
    var r := w.sys.daemons[a].report.value;
    RegistryInvariant.AckedDeparture(w.Db(), r.id, r.ok, r.result, now, tid);
    assert RegistryInvariant.RowFits(w.Db(), w.Db().rows[r.id]);
  }

  lemma DepartureStep(w: World, e: Event, w': World, tid: TenantId)
    requires Inv(w) && Next(w, e, w') && tid in w.tenants && tid !in w'.tenants
    ensures Departs(w, e, tid)
    ensures e.Ack? ==> e.agent in w'.stacks && w.tenants[tid].slug !in w'.stacks[e.agent].State().tenants
  {
    if e.Service? {
      RegistryInvariant.CallDepartures(w.Db(), e.call, tid);
    } else {
      assert e.Ack? && !e.fate.RequestLost?;
      AckDeparture(w, e.agent, e.now, e.fate, tid);
    }
  }

  /** Whatever polls, acks and daemons are lost and whatever status requests re-apply old results: at
      the moment a tenant that was ever asked to be provisioned leaves the registry, its slug is
      absent from the saved stack state of its worker. */
  lemma RemovedTenantIsDeprovisioned(ws: seq<World>, es: seq<Event>, n: nat, tid: TenantId)
    requires IsRun(ws, es) && n < |es|
    requires tid in ws[n].tenants && tid !in ws[n + 1].tenants
    requires RegistryInvariant.EverProvisioned(ws[n].sys.rows, tid)
    ensures var t := ws[n].tenants[tid];
            && t.worker.Some? && t.worker.value in ws[n + 1].stacks
            && t.slug !in ws[n + 1].stacks[t.worker.value].State().tenants
  {
    RunKeepsInv(ws, es, n);
    assert StepAt(ws, es, n);
    DepartureStep(ws[n], es[n], ws[n + 1], tid);
  }

  lemma TenantsLeaveInTwoWays(ws: seq<World>, es: seq<Event>, n: nat, tid: TenantId)
    requires IsRun(ws, es) && n < |es|
    requires tid in ws[n].tenants && tid !in ws[n + 1].tenants
    ensures Departs(ws[n], es[n], tid)
  {
    RunKeepsInv(ws, es, n);
    assert StepAt(ws, es, n);
    DepartureStep(ws[n], es[n], ws[n + 1], tid);
  }

  lemma DepartedStays(w: World, e: Event, w': World, tid: TenantId)
    requires RegistryInvariant.Inv(w.Db()) && Next(w, e, w') && tid < w.next && tid !in w.tenants
    ensures tid < w'.next && tid !in w'.tenants
  {
    if e.Service? {
      RegistryInvariant.CallsAddOnlyNewIds(w.Db(), e.call, tid);
    } else if e.Ack? {
      AckStepEffect(w, e.agent, e.now, e.fate);
    }
  }

  lemma DepartedStep(ws: seq<World>, es: seq<Event>, n: nat, tid: TenantId)
    requires IsRun(ws, es) && n < |es| && tid < ws[n].next && tid !in ws[n].tenants
    ensures tid < ws[n + 1].next && tid !in ws[n + 1].tenants
  {
    RunKeepsInv(ws, es, n);
    assert StepAt(ws, es, n);
    DepartedStays(ws[n], es[n], ws[n + 1], tid);
  }

  /** A tenant that left never comes back under the same id. */
  lemma {:induction false} DepartedForGood(ws: seq<World>, es: seq<Event>, m: nat, n: nat, tid: TenantId)
    requires IsRun(ws, es) && m <= n < |ws| && tid < ws[m].next && tid !in ws[m].tenants
    ensures tid < ws[n].next && tid !in ws[n].tenants
  {
    if m < n {
      DepartedForGood(ws, es, m, n - 1, tid);
      DepartedStep(ws, es, n - 1, tid);
    }
  }

  lemma HeldReport(w: World, a: AgentId)
    requires Inv(w) && a in w.sys.daemons && w.sys.daemons[a].report.Some?
    ensures var r := w.sys.daemons[a].report.value;
            && r.id < |w.sys.rows| && w.sys.rows[r.id].agent == a && w.sys.rows[r.id].state.Dispatched?
            && Truthful(w.sys.rows[r.id].payload.kind, r.ok, r.result)
            && RegistryInvariant.RowFits(w.Db(), w.sys.rows[r.id])
  {
    var id := w.sys.daemons[a].report.value.id;
    assert WorkerInv(w, a);
    assert Delivery.DaemonInv(w.sys.rows, a, w.sys.daemons[a]) && w.sys.daemons[a].Holds(id);
    assert w.Db().rows == w.sys.rows;
  }

  /** The report's command, one of this agent, is settled, and its tenant, if registered, gets exactly the
      reported outcome. */
  ghost predicate Settled(db: Db, db': Db, a: AgentId, r: Delivery.Report<CommandResult>, now: int) {
    && r.id < |db.rows| && db.rows[r.id].agent == a
    && TenantEffects.Settles(db.rows, db'.rows, r.id, r.ok, r.result, now)
    && var cmd := db.rows[r.id].payload;
       if cmd.tenant in db.tenants then TenantEffects.Concludes(db, db', a, cmd.tenant, cmd.kind, r.ok)
       else db' == db.(rows := db'.rows) && |db'.rows| == |db.rows|
  }

  lemma AckSettles(db: Db, a: AgentId, r: Delivery.Report<CommandResult>, now: int)
    requires r.id < |db.rows| && db.rows[r.id].agent == a && db.rows[r.id].state.Dispatched?
    requires Truthful(db.rows[r.id].payload.kind, r.ok, r.result) && RegistryInvariant.RowFits(db, db.rows[r.id])
    ensures Settled(db, Acknowledged(db, r.id, r.ok, r.result, now), a, r, now)
  {
    if db.rows[r.id].payload.tenant in db.tenants {
      TenantEffects.AckConcludes(db, r.id, r.ok, r.result, now);
    } else {
      TenantEffects.AckWithoutTenant(db, r.id, r.ok, r.result, now);
    }
  }

  /** In every run, an ack that reaches the control plane settles its command and makes exactly the
      reported outcome of the tenant, if that is still registered: a successful provision or start leaves
      it running, a successful stop stopped, a failed provision, start, stop or deprovision failed; a
      bootstrap leaves it bootstrapped or its bootstrap failed; a successful deprovision takes it out and
      a verify changes nothing. After a successful provision a bootstrap is in flight, done or under way.
      No other tenant and no other field changes. */
  lemma AckedCommandSettlesTenant(ws: seq<World>, es: seq<Event>, n: nat)
    requires IsRun(ws, es) && n < |es| && es[n].Ack? && !es[n].fate.RequestLost?
    ensures var a := es[n].agent;
            && a in ws[n].sys.daemons && ws[n].sys.daemons[a].report.Some?
            && Settled(ws[n].Db(), ws[n + 1].Db(), a, ws[n].sys.daemons[a].report.value, es[n].now)
  {
    var a := es[n].agent;
    RunKeepsInv(ws, es, n);
    assert StepAt(ws, es, n);
    HeldReport(ws[n], a);
    AckStepEffect(ws[n], a, es[n].now, es[n].fate);
    AckSettles(ws[n].Db(), a, ws[n].sys.daemons[a].report.value, es[n].now);
  }

  // ----- Status requests, which apply a settled command once more -----

  /** A settled command holds a truthful result; an expired one none, as if it had failed. */
  predicate RowTruthful(r: Row) {
    r.state.Settled() ==> Truthful(r.payload.kind, r.state.Acked?, r.result.GetOr(NO_RESULT))
  }

  ghost predicate RowsTruthful(rows: seq<Row>) {
    forall i :: 0 <= i < |rows| ==> RowTruthful(rows[i])
  }

  lemma AppendedAreTruthful(rows: seq<Row>, rows': seq<Row>, enrolled: set<AgentId>)
    requires RowsTruthful(rows) && Appended(rows, rows', enrolled)
    ensures RowsTruthful(rows')
  {
  }

  lemma PollKeepsTruthful(s: System, a: AgentId, now: int, interval: nat)
    requires Delivery.Inv(s) && RowsTruthful(s.rows)
    ensures RowsTruthful(AfterPoll(s.rows, a, now, interval))
  {
    forall i | 0 <= i < |s.rows| ensures RowTruthful(AfterPoll(s.rows, a, now, interval)[i]) {
      assert Delivery.RowInv(s, i);
    }
  }

  lemma AckKeepsTruthful(rows: seq<Row>, id: nat, ok: bool, result: CommandResult, now: int)
    requires id < |rows| && RowsTruthful(rows) && Truthful(rows[id].payload.kind, ok, result)
    ensures RowsTruthful(AfterAck(rows, id, ok, result, now))
  {
  }

  lemma AckStepKeepsTruthful(w: World, a: AgentId, now: int, fate: Delivery.AckFate)
    requires Inv(w) && Delivery.Enabled(w.sys, Delivery.Ack(a, now, fate)) && RowsTruthful(w.sys.rows)
    ensures RowsTruthful(AfterAckStep(w, a, now, fate).Db().rows)
  {
    var r := w.sys.daemons[a].report.value;
    HeldReport(w, a);
    AckStepEffect(w, a, now, fate);
    if !fate.RequestLost? {
      AckKeepsTruthful(w.sys.rows, r.id, r.ok, r.result, now);
      RegistryInvariant.AckedRows(w.Db(), r.id, r.ok, r.result, now);
      AppendedAreTruthful(AfterAck(w.sys.rows, r.id, r.ok, r.result, now),
                          Acknowledged(w.Db(), r.id, r.ok, r.result, now).rows, w.Db().enrolled);
    }
  }

  lemma CallKeepsTruthful(db: Db, call: Call)
    requires Callable(db, call) && RowsTruthful(db.rows)
    ensures RowsTruthful(After(db, call).rows)
  {
    CallsAppend(db, call);
    AppendedAreTruthful(db.rows, After(db, call).rows, db.enrolled);
  }

  lemma DeliveryKeepsTruthful(w: World, step: Delivery.Event<TenantCommand, CommandResult>)
    requires Inv(w) && Delivery.Enabled(w.sys, step) && !step.Ack? && !step.Enqueue? && RowsTruthful(w.sys.rows)
    ensures RowsTruthful(Delivery.Apply(w.sys, step).rows)
  {
    if step.Poll? { PollKeepsTruthful(w.sys, step.agent, step.now, w.sys.daemons[step.agent].interval); }
  }

  lemma NextKeepsTruthful(w: World, e: Event, w': World)
    requires Inv(w) && Next(w, e, w') && RowsTruthful(w.sys.rows)
    ensures RowsTruthful(w'.Db().rows)
  {
    match e
    case Service(call) => CallKeepsTruthful(w.Db(), call);
    case Poll(a, now, replyLost) => DeliveryKeepsTruthful(w, Delivery.Poll(a, now, replyLost));
    case Execute(a, ok, result, _) => DeliveryKeepsTruthful(w, Delivery.Execute(a, ok, result));
    case Crash(a) => DeliveryKeepsTruthful(w, Delivery.Crash(a));
    case Ack(a, now, fate) => AckStepKeepsTruthful(w, a, now, fate);
  }

  lemma {:induction false} RunKeepsTruthful(ws: seq<World>, es: seq<Event>, n: nat)
    requires IsRun(ws, es) && n < |ws|
    ensures RowsTruthful(ws[n].sys.rows)
  {
    if n > 0 {
      RunKeepsTruthful(ws, es, n - 1);
      RunKeepsInv(ws, es, n - 1);
      assert StepAt(ws, es, n - 1);
      NextKeepsTruthful(ws[n - 1], es[n - 1], ws[n]);
    }
  }

  /** In every run, a status request for a settled command, however old, makes of its tenant what that
      command alone would make of it, whatever has happened since: asking after an acked start turns a
      tenant stopped later back to running, asking after an expired command turns it to failed. */
  lemma StatusRequestAppliesItsCommand(ws: seq<World>, es: seq<Event>, n: nat, id: nat)
    requires IsRun(ws, es) && n < |es| && es[n] == Service(Resync(id))
    ensures id < |ws[n].sys.rows|
    ensures var row := ws[n].sys.rows[id];
            if row.state.Settled() && row.payload.tenant in ws[n].tenants
            then TenantEffects.Concludes(ws[n].Db(), ws[n + 1].Db(), row.agent, row.payload.tenant, row.payload.kind, row.state.Acked?)
            else ws[n + 1].Db() == ws[n].Db()
  {
    RunKeepsInv(ws, es, n);
    RunKeepsTruthful(ws, es, n);
    assert StepAt(ws, es, n);
    var db := ws[n].Db();
    assert RowTruthful(db.rows[id]) && RegistryInvariant.RowFits(db, db.rows[id]);
    if db.rows[id].state.Settled() && db.rows[id].payload.tenant in db.tenants { TenantEffects.SyncConcludes(db, id); }
  }

  /** In every reachable state at most one command per agent, tenant and kind is in flight. */
  lemma OneCommandInFlight(ws: seq<World>, es: seq<Event>, n: nat, i: nat, j: nat)
    requires IsRun(ws, es) && n < |ws| && i < j < |ws[n].sys.rows|
    requires RegistryInvariant.SameJob(ws[n].sys.rows[i], ws[n].sys.rows[j])
    ensures ws[n].sys.rows[i].state.Settled() || ws[n].sys.rows[j].state.Settled()
  {
    RunKeepsInv(ws, es, n);
    assert ws[n].Db().rows == ws[n].sys.rows;
  }

  /** The joint system delivers like the bare protocol: at most once, in creation order. */
  lemma DeliveredOnce(ws: seq<World>, es: seq<Event>, n: nat, a: AgentId)
    requires IsRun(ws, es) && n < |ws| && a in ws[n].sys.daemons
    ensures var d := ws[n].sys.daemons[a];
            && Increasing(d.delivered) && Increasing(d.executed)
            && (forall id :: id in d.executed ==> id in d.delivered)
            && (forall id :: id in d.delivered ==> id < |ws[n].sys.rows| && ws[n].sys.rows[id].agent == a)
  {
    RunKeepsInv(ws, es, n);
    var d := ws[n].sys.daemons[a];
    assert Delivery.DaemonInv(ws[n].sys.rows, a, d);
    IncreasingParts(d.executed, d.batch);
  }

  /** An ack for a command that has expired, or was acked before, changes no command and no tenant. */
  lemma LateAckChangesNothing(db: Db, id: nat, ok: bool, result: CommandResult, now: int)
    requires id < |db.rows|
    ensures Acknowledged(db, id, ok, result, now) == db <==> db.rows[id].state.Settled()
  {
  }

  // ----- Runs without losses -----

  lemma {:induction false} AppendKeepsLossless(s: System, rows: seq<Row>)
    requires Delivery.Inv(s) && Delivery.LosslessInv(s) && Appended(s.rows, rows, s.daemons.Keys)
    ensures Delivery.LosslessInv(s.(rows := rows))
    decreases |rows|
  {
    if |rows| == |s.rows| {
      assert s.(rows := rows) == s;
    } else {
      var n := |rows| - 1;
      AppendKeepsLossless(s, rows[..n]);
      AppendKeepsDelivery(s, rows[..n]);
      Delivery.LosslessStep(s.(rows := rows[..n]), Delivery.Enqueue(rows[n].agent, rows[n].payload));
      assert rows == rows[..n] + [rows[n]];
    }
  }

  lemma LosslessNext(w: World, e: Event, w': World)
    requires Delivery.Inv(w.sys) && Delivery.LosslessInv(w.sys) && Next(w, e, w') && e.Lossless()
    ensures Delivery.LosslessInv(w'.sys)
  {
    match e
    case Service(call) =>
      CallsAppend(w.Db(), call);
      AppendKeepsLossless(w.sys, w'.sys.rows);
    case Poll(a, now, replyLost) => Delivery.LosslessStep(w.sys, Delivery.Poll(a, now, replyLost));
    case Execute(a, ok, result, _) => Delivery.LosslessStep(w.sys, Delivery.Execute(a, ok, result));
    case Crash(_) =>
    case Ack(a, now, fate) =>
      Delivery.LosslessStep(w.sys, Delivery.Ack(a, now, fate));
      Delivery.StepKeepsInv(w.sys, Delivery.Ack(a, now, fate));
      var acked := Delivery.Apply(w.sys, Delivery.Ack(a, now, fate));
      var r := w.sys.daemons[a].report.value;
      RegistryInvariant.AckedRows(w.Db(), r.id, r.ok, r.result, now);
      AppendKeepsLossless(acked, w'.sys.rows);
  }

  /** In a joint run without losses no command ever expires, however long execution takes. */
  lemma {:induction false} NoLossNoExpiry(ws: seq<World>, es: seq<Event>, n: nat)
    requires IsRun(ws, es) && n < |ws| && forall k :: 0 <= k < n ==> es[k].Lossless()
    ensures Delivery.LosslessInv(ws[n].sys)
    ensures forall i :: 0 <= i < |ws[n].sys.rows| ==> !Delivery.Expired(ws[n].sys.rows[i])
  {
    if n > 0 {
      NoLossNoExpiry(ws, es, n - 1);
      RunKeepsInv(ws, es, n - 1);
      assert StepAt(ws, es, n - 1);
      LosslessNext(ws[n - 1], es[n - 1], ws[n]);
    }
    forall i | 0 <= i < |ws[n].sys.rows| ensures !Delivery.Expired(ws[n].sys.rows[i]) {
      assert Delivery.Tracked(ws[n].sys, i);
    }
  }
}
