/** What the calls on the registry do, in terms of the fields of the two tables: when an enqueue call is
    refused and what it queues, what a removal leaves behind, and what an acked command makes of its
    tenant (workers/tenant_services.py). */
module TenantEffects {
  import opened Options
  import opened Sequences
  import opened CommandQueue
  import opened Naming
  import opened TenantRegistry
  import opened WorkerExecution
  import StackState

  /** The command is pending or dispatched, for this tenant and of this kind. */
  ghost predicate InFlight(rows: seq<Row>, agent: AgentId, tid: TenantId, kind: Kind) {
    exists i :: 0 <= i < |rows| && rows[i].agent == agent && rows[i].payload.kind == kind
                && rows[i].payload.tenant == tid && (rows[i].state.Pending? || rows[i].state.Dispatched?)
  }

  // ----- Queuing -----

  /** What a provision asks beyond what starting and stopping ask. */
  ghost predicate CanProvision(db: Db, tid: TenantId, c: Conditions)
    requires tid in db.tenants && db.tenants[tid].worker.Some?
  {
    var t := db.tenants[tid];
    && ValidDbName(t.dbName)
    && (forall other :: other in db.tenants && db.tenants[other].worker == t.worker ==>
          db.tenants[other].production == t.production)
    && (t.production && !c.edge.sharedEdge ==> c.edge.acmeEmail != "" && c.edge.cfToken != "")
    && (t.production && !InFlight(db.rows, t.worker.value, tid, Provision) ==> c.dnsOk)
  }

  ghost predicate CanQueue(db: Db, tid: TenantId, kind: Kind, c: Conditions)
    requires tid in db.tenants
  {
    var t := db.tenants[tid];
    && t.worker.Some? && t.worker.value in db.enrolled
    && (kind.Provision? || kind.Start? || kind.Stop? ==> c.workerReady && t.runtime != Deleting)
    && (kind.Provision? ==> CanProvision(db, tid, c))
  }

  lemma NewestIsInFlight(rows: seq<Row>, agent: AgentId, tid: TenantId, kind: Kind)
    ensures Newest(rows, agent, tid, kind).Some? <==> InFlight(rows, agent, tid, kind)
  {
    if i :| 0 <= i < |rows| && rows[i].agent == agent && rows[i].payload.kind == kind
            && rows[i].payload.tenant == tid && (rows[i].state.Pending? || rows[i].state.Dispatched?) {
      assert InFlightFor(rows[i], agent, tid, kind);
    }
  }

  /** Exactly when an enqueue call is refused. */
  lemma RefusedExactlyWhen(db: Db, tid: TenantId, kind: Kind, c: Conditions)
    requires tid in db.tenants
    ensures Enqueued(db, tid, kind, c).1.Rejected? <==> !CanQueue(db, tid, kind, c)
  {
    if db.tenants[tid].worker.Some? { NewestIsInFlight(db.rows, db.tenants[tid].worker.value, tid, kind); }
  }

  ghost predicate OtherMode(db: Db, t: Tenant) {
    exists other :: other in db.tenants && db.tenants[other].worker == t.worker && db.tenants[other].production != t.production
  }

  /** What each refusal of an enqueue call means. */
  lemma RefusalsMean(db: Db, tid: TenantId, kind: Kind, c: Conditions)
    requires tid in db.tenants && Enqueued(db, tid, kind, c).1.Rejected?
    ensures var t, e := db.tenants[tid], Enqueued(db, tid, kind, c).1.error;
            && (e == NoWorker <==> t.worker.None?)
            && (e == BeingRemoved ==> t.runtime == Deleting && (kind.Provision? || kind.Start? || kind.Stop?))
            && (e == NoAgent ==> t.worker.value !in db.enrolled && (kind.Deprovision? || kind.Verify? || kind.Bootstrap?))
            && (e == NotReady ==> !c.workerReady || t.worker.value !in db.enrolled)
            && (e == BadDbName ==> kind.Provision? && !ValidDbName(t.dbName))
            && (e == MixedModes ==> kind.Provision? && OtherMode(db, t))
            && (e == MissingEdgeSettings ==> kind.Provision? && t.production && !c.edge.sharedEdge
                                             && (c.edge.acmeEmail == "" || c.edge.cfToken == ""))
            && (e == DnsError ==> kind.Provision? && t.production && !c.dnsOk)
            && e in {NoWorker, BeingRemoved, NoAgent, NotReady, BadDbName, MixedModes, MissingEdgeSettings, DnsError}
  {
  }

  /** The row is a new command of this kind for the tenant, with what the daemon needs of it. */
  predicate Orders(r: Row, t: Tenant, tid: TenantId, kind: Kind, edge: Edge) {
    && t.worker == Some(r.agent) && r.state == CommandState.Pending
    && r.dispatchedAt.None? && r.result.None? && r.ackedAt.None?
    && r.payload.kind == kind && r.payload.tenant == tid
    && r.payload.body.slug == t.slug && r.payload.body.dbName == t.dbName && r.payload.body.production == t.production
    && (kind.Provision? || kind.Deprovision? ==>
          && r.payload.body.sharedEdge == edge.sharedEdge && r.payload.body.network == edge.network
          && r.payload.body.acmeEmail == edge.acmeEmail && r.payload.body.cfToken == edge.cfToken
          && r.payload.body.snippet == edge.snippet)
  }

  /** The tenant tid is now t'; every other tenant, the id counter and the workers are as before. */
  ghost predicate OnlyTenant(db: Db, db': Db, tid: TenantId, t': Tenant) {
    && db'.next == db.next && db'.enrolled == db.enrolled
    && (forall x :: x in db'.tenants <==> x in db.tenants || x == tid)
    && (forall x :: x in db.tenants && x != tid ==> db'.tenants[x] == db.tenants[x])
    && tid in db'.tenants && db'.tenants[tid] == t'
  }

  /** A call that is not refused reuses a command in flight or appends one: afterwards there is exactly
      the command asked for, and of the tenant only the status that announces it has changed. */
  lemma QueuedEffects(db: Db, tid: TenantId, kind: Kind, c: Conditions)
    requires tid in db.tenants
    ensures var (db', out) := Enqueued(db, tid, kind, c);
            var t := db.tenants[tid];
            && (out.Rejected? || out.AlreadyBootstrapped? || out.Skipped? ==> db' == db)
            && (out.AlreadyBootstrapped? <==> kind.Bootstrap? && t.bootstrap == Bootstrapped && CanQueue(db, tid, kind, c))
            && (out.Skipped? ==> out.id < |db.rows| && db.rows[out.id].payload.kind == kind
                                 && InFlight(db.rows, t.worker.value, tid, kind))
            && (out.Queued? ==>
                  && out.id == |db.rows| && |db'.rows| == |db.rows| + 1 && db.rows <= db'.rows
                  && !InFlight(db.rows, t.worker.value, tid, kind)
                  && Orders(db'.rows[out.id], t, tid, kind, c.edge)
                  && OnlyTenant(db, db', tid,
                       if kind.Provision? then t.(runtime := RuntimeStatus.Provisioning)
                       else if kind.Bootstrap? then t.(bootstrap := BootstrapStatus.Provisioning) else t))
            && (!out.Rejected? && !out.AlreadyBootstrapped? ==> InFlight(db'.rows, t.worker.value, tid, kind))
            && !out.RemovedNow?
  {
    RefusedExactlyWhen(db, tid, kind, c);
    if db.tenants[tid].worker.Some? { NewestIsInFlight(db.rows, db.tenants[tid].worker.value, tid, kind); }
    var (db', out) := Enqueued(db, tid, kind, c);
    if out.Queued? { assert InFlightFor(db'.rows[out.id], db.tenants[tid].worker.value, tid, kind); }
  }

  /** A removal on the wrong worker, or with no agent to ask, is refused without effect; a pending tenant
      goes at once; any other becomes Deleting, with a deprovision in flight. */
  lemma RemovalEffects(db: Db, worker: AgentId, tid: TenantId, c: Conditions)
    requires tid in db.tenants
    ensures var (db', out) := Removed(db, worker, tid, c);
            var t := db.tenants[tid];
            && (out.Rejected? <==> t.worker != Some(worker) || (t.runtime != RuntimeStatus.Pending && worker !in db.enrolled))
            && (out.Rejected? ==> db' == db)
            && (!out.Rejected? && t.runtime == RuntimeStatus.Pending ==>
                  && out.RemovedNow? && db'.rows == db.rows && tid !in db'.tenants
                  && (forall x :: x in db'.tenants <==> x in db.tenants && x != tid)
                  && (forall x :: x in db'.tenants ==> db'.tenants[x] == db.tenants[x]))
            && (!out.Rejected? && t.runtime != RuntimeStatus.Pending ==>
                  && db.rows <= db'.rows && InFlight(db'.rows, worker, tid, Deprovision)
                  && OnlyTenant(db, db', tid, t.(runtime := Deleting)))
  {
    RefusedExactlyWhen(db, tid, Deprovision, c);
    QueuedEffects(db, tid, Deprovision, c);
  }

  // ----- Settling -----

  /** The acked row holds the report; every other old row is as it was. */
  predicate Settles(rows: seq<Row>, rows': seq<Row>, id: nat, ok: bool, r: CommandResult, now: int) {
    && id < |rows| <= |rows'|
    && rows'[id] == rows[id].(state := if ok then Acked else CommandState.Failed, result := Some(r), ackedAt := Some(now))
    && forall i :: 0 <= i < |rows| && i != id ==> rows'[i] == rows[i]
  }

  /** What a successful provision makes of its tenant: it runs, and unless its bootstrap is done or under
      way, a bootstrap command is in flight, queued now or before. */
  ghost predicate Provisions(db: Db, db': Db, agent: AgentId, tid: TenantId, t: Tenant, t': Tenant) {
    var n := |db.rows|;
    if t.bootstrap == Bootstrapped || t.bootstrap == BootstrapStatus.Provisioning || InFlight(db.rows, agent, tid, Bootstrap) then
      t' == t.(runtime := Running) && |db'.rows| == n
    else
      && t' == t.(runtime := Running, bootstrap := BootstrapStatus.Provisioning)
      && |db'.rows| == n + 1 && Orders(db'.rows[n], t, tid, Bootstrap, NO_EDGE)
  }

  /** The tables after the ack of a command of this kind, reported as ok or not, for a registered tenant. */
  ghost predicate Concludes(db: Db, db': Db, agent: AgentId, tid: TenantId, kind: Kind, ok: bool) {
    && db'.next == db.next && db'.enrolled == db.enrolled
    && (forall x :: x != tid ==> (x in db'.tenants <==> x in db.tenants))
    && (forall x :: x in db.tenants && x != tid ==> db'.tenants[x] == db.tenants[x])
    && (tid in db'.tenants <==> !(kind.Deprovision? && ok))
    && (!(kind.Provision? && ok) ==> |db'.rows| == |db.rows|)
    && (tid in db.tenants && tid in db'.tenants ==>
          var t, t' := db.tenants[tid], db'.tenants[tid];
          match kind
          case Provision =>
            if ok then Provisions(db, db', agent, tid, t, t') else t' == t.(runtime := RuntimeStatus.Failed)
          case Start => t' == t.(runtime := if ok then Running else RuntimeStatus.Failed)
          case Stop => t' == t.(runtime := if ok then Stopped else RuntimeStatus.Failed)
          case Deprovision => t' == t.(runtime := RuntimeStatus.Failed)
          case Verify => t' == t
          case Bootstrap => t' == t.(bootstrap := if ok then Bootstrapped else BootstrapStatus.Failed))
  }

  lemma SettledRowInFlight(rows: seq<Row>, rows': seq<Row>, id: nat, ok: bool, r: CommandResult, now: int,
                           agent: AgentId, tid: TenantId, kind: Kind)
    requires Settles(rows, rows', id, ok, r, now) && |rows'| == |rows| && rows[id].payload.kind != kind
    ensures InFlight(rows', agent, tid, kind) <==> InFlight(rows, agent, tid, kind)
  {
    if i :| 0 <= i < |rows| && InFlightFor(rows[i], agent, tid, kind) { assert rows'[i] == rows[i]; }
    if i :| 0 <= i < |rows| && InFlightFor(rows'[i], agent, tid, kind) { assert rows'[i] == rows[i]; }
  }

  /** The automatic bootstrap after a provision: nothing but a finished or running one, or a command in
      flight, keeps it from being queued. */
  lemma AutomaticBootstrap(db: Db, tid: TenantId)
    requires tid in db.tenants && db.tenants[tid].worker.Some? && db.tenants[tid].worker.value in db.enrolled
    requires db.tenants[tid].bootstrap != Bootstrapped
    ensures var db', t := Enqueued(db, tid, Bootstrap, ANY_CONDITIONS).0, db.tenants[tid];
            if InFlight(db.rows, t.worker.value, tid, Bootstrap) then db' == db
            else
              && |db'.rows| == |db.rows| + 1 && db.rows <= db'.rows
              && Orders(db'.rows[|db.rows|], t, tid, Bootstrap, NO_EDGE)
              && OnlyTenant(db, db', tid, t.(bootstrap := BootstrapStatus.Provisioning))
  {
    QueuedEffects(db, tid, Bootstrap, ANY_CONDITIONS);
    RefusedExactlyWhen(db, tid, Bootstrap, ANY_CONDITIONS);
  }

  /** Applying a settled command with a truthful result makes exactly the reported outcome of its tenant:
      running or stopped, failed, removed, bootstrapped. */
  lemma SyncConcludes(db: Db, id: nat)
    requires id < |db.rows| && db.rows[id].state.Settled()
    requires var row := db.rows[id];
             && Truthful(row.payload.kind, row.state.Acked?, row.result.GetOr(NO_RESULT)) && row.agent in db.enrolled
             && row.payload.tenant in db.tenants && db.tenants[row.payload.tenant].worker == Some(row.agent)
    ensures var row := db.rows[id];
            Concludes(db, Synced(db, id), row.agent, row.payload.tenant, row.payload.kind, row.state.Acked?)
  {
    var row := db.rows[id];
    var tid := row.payload.tenant;
    if row.payload.kind.Provision? && row.state.Acked? {
      var t := db.tenants[tid].(runtime := Running);
      assert SyncedTenant(db.tenants[tid], row.payload.kind, false, row.result.GetOr(NO_RESULT)) == t;
      var db1 := db.(tenants := db.tenants[tid := t]);
      if t.bootstrap != Bootstrapped { AutomaticBootstrap(db1, tid); }
    }
  }

  /** So does a delivered ack of an open command, which also settles the command's row. */
  lemma AckConcludes(db: Db, id: nat, ok: bool, r: CommandResult, now: int)
    requires id < |db.rows| && (db.rows[id].state.Pending? || db.rows[id].state.Dispatched?)
    requires var row := db.rows[id];
             && Truthful(row.payload.kind, ok, r) && row.agent in db.enrolled
             && row.payload.tenant in db.tenants && db.tenants[row.payload.tenant].worker == Some(row.agent)
    ensures var db', row := Acknowledged(db, id, ok, r, now), db.rows[id];
            && Settles(db.rows, db'.rows, id, ok, r, now)
            && Concludes(db, db', row.agent, row.payload.tenant, row.payload.kind, ok)
  {
    var row := db.rows[id];
    var db1 := db.(rows := AfterAck(db.rows, id, ok, r, now));
    SyncConcludes(db1, id);
    if row.payload.kind.Provision? {
      SettledRowInFlight(db.rows, db1.rows, id, ok, r, now, row.agent, row.payload.tenant, Bootstrap);
    }
    SyncKeepsRows(db1, id);
  }

  lemma SyncKeepsRows(db: Db, id: nat)
    requires id < |db.rows|
    ensures db.rows <= Synced(db, id).rows
  {
  }

  /** The ack of a command whose tenant is gone settles the command and nothing else. */
  lemma AckWithoutTenant(db: Db, id: nat, ok: bool, r: CommandResult, now: int)
    requires id < |db.rows| && !db.rows[id].state.Settled() && db.rows[id].payload.tenant !in db.tenants
    ensures var db' := Acknowledged(db, id, ok, r, now);
            Settles(db.rows, db'.rows, id, ok, r, now) && db' == db.(rows := db'.rows) && |db'.rows| == |db.rows|
  {
  }

  // ----- Applying a result again -----

  /** The tenant is as this command, reported as ok or not, would leave it. */
  ghost predicate AlreadyConcluded(db: Db, agent: AgentId, tid: TenantId, kind: Kind, ok: bool)
    requires tid in db.tenants
  {
    var t := db.tenants[tid];
    match kind
    case Provision =>
      if !ok then t.runtime == RuntimeStatus.Failed
      else
        t.runtime == Running
        && (t.bootstrap == Bootstrapped || t.bootstrap == BootstrapStatus.Provisioning || InFlight(db.rows, agent, tid, Bootstrap))
    case Start => t.runtime == (if ok then Running else RuntimeStatus.Failed)
    case Stop => t.runtime == (if ok then Stopped else RuntimeStatus.Failed)
    case Deprovision => !ok && t.runtime == RuntimeStatus.Failed
    case Verify => true
    case Bootstrap => t.bootstrap == (if ok then Bootstrapped else BootstrapStatus.Failed)
  }

  /** Applying a settled command again changes nothing if and only if its tenant still is as it left it. */
  lemma AgainChangesNothing(db: Db, id: nat)
    requires id < |db.rows| && db.rows[id].state.Settled()
    requires var row := db.rows[id];
             && Truthful(row.payload.kind, row.state.Acked?, row.result.GetOr(NO_RESULT)) && row.agent in db.enrolled
             && row.payload.tenant in db.tenants && db.tenants[row.payload.tenant].worker == Some(row.agent)
    ensures var row := db.rows[id];
            Synced(db, id) == db <==> AlreadyConcluded(db, row.agent, row.payload.tenant, row.payload.kind, row.state.Acked?)
  {
    var row := db.rows[id];
    var tid := row.payload.tenant;
    SyncConcludes(db, id);
    SyncKeepsRows(db, id);
    SameTables(db, Synced(db, id), tid);
  }

  lemma SameTables(db: Db, db': Db, tid: TenantId)
    requires db'.next == db.next && db'.enrolled == db.enrolled && db.rows <= db'.rows
    requires forall x :: x != tid ==> (x in db'.tenants <==> x in db.tenants)
    requires forall x :: x in db.tenants && x != tid ==> db'.tenants[x] == db.tenants[x]
    ensures |db'.rows| == |db.rows| && tid in db.tenants && tid in db'.tenants && db'.tenants[tid] == db.tenants[tid] ==> db' == db
  {
    if |db'.rows| == |db.rows| && tid in db.tenants && tid in db'.tenants && db'.tenants[tid] == db.tenants[tid] {
      assert db'.rows == db.rows;
      assert db'.tenants == db.tenants;
    }
  }

  /** A start and then a stop, both acked: a status request for the start makes the tenant running. */
  lemma RevertedStop(body: StackState.Payload)
    ensures var t := Tenant("a", "hs_a", Some(0), false, Stopped, Bootstrapped);
            var start := Command(0, TenantCommand(Start, 0, body), Acked, Some(1), Some(CommandResult(0, Status(Running), None)), Some(2));
            var stop := Command(0, TenantCommand(Stop, 0, body), Acked, Some(3), Some(CommandResult(0, Status(Stopped), None)), Some(4));
            var db := Db(map[0 := t], [start, stop], 1, {0});
            Synced(db, 0) == db.(tenants := map[0 := t.(runtime := Running)])
  {
  }

  // ----- Creating -----

  function Count(req: CreateRequest): nat { if req.count.Some? then req.count.value else 1 }

  /** The number of the i-th tenant asked for; without a count there is one, unnumbered. */
  function Nth(req: CreateRequest, i: nat): Option<nat>
    requires req.count.Some? ==> req.start.Some?
  {
    if req.count.Some? then Some(req.start.value + i) else None
  }

  /** The request passes the checks: a well-formed suffix, the worker's mode, a start number if a count is
      given, and no requested slug in use. */
  ghost predicate CanCreate(db: Db, worker: AgentId, req: CreateRequest) {
    && ValidSuffix(req.suffix)
    && (forall tid :: tid in db.tenants && db.tenants[tid].worker == Some(worker) ==> db.tenants[tid].production == req.production)
    && (req.count.Some? ==> req.start.Some?)
    && (forall i: nat :: i < Count(req) ==> !SlugExists(db.tenants, Slug(req.suffix, Nth(req, i))))
  }

  lemma NumbersAreThose(req: CreateRequest)
    requires req.count.Some? ==> req.start.Some?
    ensures |req.Numbers()| == Count(req) && forall i: nat :: i < Count(req) ==> req.Numbers()[i] == Nth(req, i)
  {
  }

  lemma AcceptableMeans(db: Db, worker: AgentId, req: CreateRequest)
    ensures Acceptable(db, worker, req) <==> CanCreate(db, worker, req)
  {
    if req.count.Some? ==> req.start.Some? { NumbersAreThose(req); }
  }

  /** The tenant with this number, or the unnumbered one, as it is first registered. */
  predicate Fresh(t: Tenant, worker: AgentId, req: CreateRequest, number: Option<nat>) {
    && t.worker == Some(worker) && t.production == req.production
    && t.runtime == RuntimeStatus.Pending && t.bootstrap == BootstrapStatus.Pending
    && t.slug == req.suffix + (if number.Some? then "-" + Decimal(number.value) else "")
    && t.dbName == "hs_" + req.suffix + (if number.Some? then "_" + Decimal(number.value) else "")
  }

  lemma NewTenantIsFresh(worker: AgentId, req: CreateRequest, number: Option<nat>)
    ensures Fresh(req.NewTenant(worker, number), worker, req, number)
  {
    if number.Some? {
      var d := Decimal(number.value);
      assert req.suffix + "-" + d == req.suffix + ("-" + d);
      assert "hs_" + req.suffix + "_" + d == "hs_" + req.suffix + ("_" + d);
    }
  }

  /** The requested tenants appear under the next ids; nothing else changes. */
  ghost predicate Registers(db: Db, db': Db, worker: AgentId, req: CreateRequest)
    requires req.count.Some? ==> req.start.Some?
  {
    && db'.rows == db.rows && db'.enrolled == db.enrolled && db'.next == db.next + Count(req)
    && (forall tid :: tid in db'.tenants <==> tid in db.tenants || db.next <= tid < db'.next)
    && (forall tid :: tid in db.tenants ==> db'.tenants[tid] == db.tenants[tid])
    && (forall tid :: db.next <= tid < db'.next ==> Fresh(db'.tenants[tid], worker, req, Nth(req, tid - db.next)))
  }

  /** What an accepted request makes of one tenant id. */
  lemma OneCreated(db: Db, worker: AgentId, req: CreateRequest, tid: TenantId)
    requires forall x :: x in db.tenants ==> x < db.next
    requires CanCreate(db, worker, req)
    ensures var ts := Inserted(db.tenants, db.next, worker, req, req.Numbers());
            && (tid in ts <==> tid in db.tenants || db.next <= tid < db.next + Count(req))
            && (tid in db.tenants ==> ts[tid] == db.tenants[tid])
            && (db.next <= tid < db.next + Count(req) ==> Fresh(ts[tid], worker, req, Nth(req, tid - db.next)))
  {
    NumbersAreThose(req);
    InsertedRows(db.tenants, db.next, worker, req, req.Numbers());
    if db.next <= tid < db.next + Count(req) { NewTenantIsFresh(worker, req, Nth(req, tid - db.next)); }
  }

  lemma CreatedRegisters(db: Db, worker: AgentId, req: CreateRequest, db': Db)
    requires forall tid :: tid in db.tenants ==> tid < db.next
    requires CanCreate(db, worker, req)
    requires db' == db.(tenants := Inserted(db.tenants, db.next, worker, req, req.Numbers()), next := db.next + |req.Numbers()|)
    ensures Registers(db, db', worker, req)
  {
    NumbersAreThose(req);
    forall tid: TenantId
      ensures tid in db'.tenants <==> tid in db.tenants || db.next <= tid < db'.next
      ensures tid in db.tenants ==> db'.tenants[tid] == db.tenants[tid]
      ensures db.next <= tid < db'.next ==> Fresh(db'.tenants[tid], worker, req, Nth(req, tid - db.next))
    {
      OneCreated(db, worker, req, tid);
    }
  }

  /** A creation call registers all requested tenants, pending and under new consecutive ids, or none. */
  lemma CreationEffects(db: Db, worker: AgentId, req: CreateRequest)
    requires forall tid :: tid in db.tenants ==> tid < db.next
    ensures if CanCreate(db, worker, req) then Registers(db, Created(db, worker, req), worker, req)
            else Created(db, worker, req) == db
  {
    AcceptableMeans(db, worker, req);
    if CanCreate(db, worker, req) { CreatedRegisters(db, worker, req, Created(db, worker, req)); }
  }
}
