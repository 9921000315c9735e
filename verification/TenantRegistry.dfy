/** The tenant registry and what the service calls do to it (workers/tenant_services.py,
    lifecycle/services.py), as functions on the two tables involved. */
module TenantRegistry {
  import opened Options
  import opened Sequences
  import opened CommandQueue
  import opened Naming
  import StackState

  type TenantId = nat

  datatype RuntimeStatus = Pending | Provisioning | Running | Stopped | Failed | Deleting

  datatype BootstrapStatus = Pending | Provisioning | Bootstrapped | Failed

  datatype Tenant = Tenant(
    slug: string,
    dbName: string,
    worker: Option<AgentId>,
    production: bool,
    runtime: RuntimeStatus,
    bootstrap: BootstrapStatus)

  datatype Kind = Provision | Start | Stop | Deprovision | Verify | Bootstrap {
    predicate ChangesRuntime() { Provision? || Start? || Stop? || Deprovision? }
  }

  datatype TenantCommand = TenantCommand(kind: Kind, tenant: TenantId, body: StackState.Payload)

  /** The runtime_status key of a result: absent, a listed status, or any other text. */
  datatype Reported = Nothing | Status(status: RuntimeStatus) | Unlisted

  datatype CommandResult = CommandResult(exitCode: int, runtime: Reported, bootstrap: Option<BootstrapStatus>)

  /** An expired command has no result; readers see an empty one. */
  const NO_RESULT := CommandResult(-1, Nothing, None)

  type Row = Command<TenantCommand, CommandResult>

  /** The tenants, the command rows, the next unused tenant id, and the workers with an agent. */
  datatype Db = Db(tenants: map<TenantId, Tenant>, rows: seq<Row>, next: TenantId, enrolled: set<AgentId>)

  datatype Edge = Edge(sharedEdge: bool, network: string, acmeEmail: string, cfToken: string, snippet: string)

  const NO_EDGE := Edge(false, "", "", "", "")

  /** What a call finds outside the two tables. */
  datatype Conditions = Conditions(workerReady: bool, dnsOk: bool, edge: Edge)

  datatype Error =
    | NoWorker | NoAgent | NotReady | BeingRemoved | BadDbName | MixedModes | MissingEdgeSettings | DnsError
    | WrongWorker | BadSuffix | NoStartNumber | SlugTaken | IntegrityError

  datatype Outcome =
    | Queued(id: nat)
    | Skipped(id: nat)
    | AlreadyBootstrapped
    | RemovedNow
    | Rejected(error: Error)

  // ----- Enqueuing -----

  predicate InFlightFor(r: Row, agent: AgentId, tid: TenantId, kind: Kind) {
    r.agent == agent && r.payload.kind == kind && r.payload.tenant == tid && r.state.InFlight()
  }

  /** The newest in-flight command of this kind for this tenant. */
  function Newest(rows: seq<Row>, agent: AgentId, tid: TenantId, kind: Kind): (id: Option<nat>)
    ensures id.Some? ==> id.value < |rows| && InFlightFor(rows[id.value], agent, tid, kind)
    ensures id.Some? ==> forall i :: id.value < i < |rows| ==> !InFlightFor(rows[i], agent, tid, kind)
    ensures id.None? ==> forall i :: 0 <= i < |rows| ==> !InFlightFor(rows[i], agent, tid, kind)
  {
    if rows == [] then None
    else if InFlightFor(rows[|rows| - 1], agent, tid, kind) then Some(|rows| - 1)
    else Newest(rows[..|rows| - 1], agent, tid, kind)
  }

  predicate Consistent(db: Db, worker: AgentId, production: bool) {
    forall tid :: tid in db.tenants && db.tenants[tid].worker == Some(worker) ==> db.tenants[tid].production == production
  }

  predicate EdgeConfigured(t: Tenant, edge: Edge) {
    t.production && !edge.sharedEdge ==> edge.acmeEmail != "" && edge.cfToken != ""
  }

  /** Why a command of this kind cannot be queued for the tenant, if so. */
  function Obstacle(db: Db, tid: TenantId, kind: Kind, c: Conditions): Option<Error>
    requires tid in db.tenants
  {
    var t := db.tenants[tid];
    if t.worker.None? then Some(NoWorker)
    else if !kind.Provision? && !kind.Start? && !kind.Stop? then
      if t.worker.value !in db.enrolled then Some(NoAgent) else None
    else if t.runtime.Deleting? then Some(BeingRemoved)
    else if kind.Provision? && !ValidDbName(t.dbName) then Some(BadDbName)
    else if kind.Provision? && !Consistent(db, t.worker.value, t.production) then Some(MixedModes)
    else if kind.Provision? && !EdgeConfigured(t, c.edge) then Some(MissingEdgeSettings)
    else if !c.workerReady || t.worker.value !in db.enrolled then Some(NotReady)
    else None
  }

  function Body(t: Tenant, kind: Kind, c: Conditions): StackState.Payload {
    var e := if kind.Provision? || kind.Deprovision? then c.edge else NO_EDGE;
    StackState.Payload(t.slug, t.dbName, t.production, e.sharedEdge, e.network, e.acmeEmail, e.cfToken, e.snippet)
  }

  /** The tenant row once a command of this kind has been queued for it. */
  function Requeued(t: Tenant, kind: Kind): Tenant {
    match kind
    case Provision => t.(runtime := RuntimeStatus.Provisioning)
    case Bootstrap => t.(bootstrap := BootstrapStatus.Provisioning)
    case _ => t
  }

  /** Any of the six enqueue_*_tenant calls. */
  function Enqueued(db: Db, tid: TenantId, kind: Kind, c: Conditions): (Db, Outcome)
    requires tid in db.tenants
  {
    var t := db.tenants[tid];
    var obstacle := Obstacle(db, tid, kind, c);
    if obstacle.Some? then (db, Rejected(obstacle.value))
    else if kind.Bootstrap? && t.bootstrap.Bootstrapped? then (db, AlreadyBootstrapped)
    else
      var existing := Newest(db.rows, t.worker.value, tid, kind);
      if existing.Some? then (db, Skipped(existing.value))
      else if kind.Provision? && t.production && !c.dnsOk then (db, Rejected(DnsError))
      else
        (db.(rows := db.rows + [NewCommand(t.worker.value, TenantCommand(kind, tid, Body(t, kind, c)))],
             tenants := db.tenants[tid := Requeued(t, kind)]),
         Queued(|db.rows|))
  }

  /** bulk_provision_pending_tenants: one call after the other, up to the first error. */
  function EnqueuedAll(db: Db, tids: seq<TenantId>, c: Conditions): (Db, seq<Outcome>)
    requires forall tid :: tid in tids ==> tid in db.tenants
    decreases |tids|
  {
    if tids == [] then (db, [])
    else
      var (db1, out) := Enqueued(db, tids[0], Provision, c);
      if out.Rejected? then (db1, [out])
      else
        var (db2, outs) := EnqueuedAll(db1, tids[1..], c);
        (db2, [out] + outs)
  }

  function WithRuntime(db: Db, tid: TenantId, status: RuntimeStatus): Db
    requires tid in db.tenants
  {
    db.(tenants := db.tenants[tid := db.tenants[tid].(runtime := status)])
  }

  function Removed(db: Db, worker: AgentId, tid: TenantId, c: Conditions): (Db, Outcome)
    requires tid in db.tenants
  {
    var t := db.tenants[tid];
    if t.worker != Some(worker) then (db, Rejected(WrongWorker))
    else if t.runtime.Pending? then (db.(tenants := db.tenants - {tid}), RemovedNow)
    else
      var (db1, out) := Enqueued(db, tid, Deprovision, c);
      if out.Rejected? then (db, out) else (WithRuntime(db1, tid, Deleting), out)
  }

  // ----- Syncing from acked commands -----

  /** The tenant row after a settled command other than deprovision. */
  function SyncedTenant(t: Tenant, kind: Kind, failed: bool, r: CommandResult): Tenant {
    var t1 := if r.runtime.Status? then t.(runtime := r.runtime.status)
              else if failed && kind.ChangesRuntime() then t.(runtime := RuntimeStatus.Failed)
              else t;
    if r.bootstrap.Some? then t1.(bootstrap := r.bootstrap.value)
    else if failed && kind.Bootstrap? then t1.(bootstrap := BootstrapStatus.Failed)
    else t1
  }

  predicate WantsBootstrap(row: Row, t: Tenant) {
    && row.payload.kind.Provision? && row.state.Acked?
    && row.result.GetOr(NO_RESULT).runtime == Status(Running)
    && !t.bootstrap.Bootstrapped? && !t.bootstrap.Provisioning?
  }

  const ANY_CONDITIONS := Conditions(false, false, NO_EDGE)

  /** sync_tenant_from_acked_command: called by the ack endpoint and again by every status request. */
  function Synced(db: Db, id: nat): Db
    requires id < |db.rows|
  {
    var row := db.rows[id];
    var tid := row.payload.tenant;
    if !row.state.Settled() || tid !in db.tenants then db
    else if row.payload.kind.Deprovision? then
      if row.state.Acked? && row.result.GetOr(NO_RESULT).exitCode == 0 then db.(tenants := db.tenants - {tid})
      else WithRuntime(db, tid, RuntimeStatus.Failed)
    else
      var t := SyncedTenant(db.tenants[tid], row.payload.kind, row.state.Failed?, row.result.GetOr(NO_RESULT));
      var db1 := db.(tenants := db.tenants[tid := t]);
      if WantsBootstrap(row, t) then Enqueued(db1, tid, Bootstrap, ANY_CONDITIONS).0 else db1
  }

  /** The ack endpoint: settle the command and sync its tenant, or answer without effect. */
  function Acknowledged(db: Db, id: nat, ok: bool, result: CommandResult, now: int): Db
    requires id < |db.rows|
  {
    if db.rows[id].state.Settled() then db
    else Synced(db.(rows := AfterAck(db.rows, id, ok, result, now)), id)
  }

  // ----- Bulk creation -----

  datatype CreateRequest = CreateRequest(suffix: string, start: Option<nat>, count: Option<nat>, production: bool) {
    /** The numbers to create; a single unnumbered tenant without a count. */
    function Numbers(): seq<Option<nat>>
      requires count.Some? ==> start.Some?
    {
      if count.None? then [None] else seq(count.value, i requires 0 <= i => Some(start.value + i))
    }

    function NewTenant(worker: AgentId, number: Option<nat>): Tenant {
      Tenant(Slug(suffix, number), DbName(suffix, number), Some(worker), production, RuntimeStatus.Pending, BootstrapStatus.Pending)
    }
  }

  predicate SlugExists(tenants: map<TenantId, Tenant>, slug: string) {
    exists tid :: tid in tenants && tenants[tid].slug == slug
  }

  /** The request passes every check made before the first row is written. */
  predicate Acceptable(db: Db, worker: AgentId, req: CreateRequest) {
    && ValidSuffix(req.suffix)
    && Consistent(db, worker, req.production)
    && (req.count.Some? ==> req.start.Some?)
    && forall i :: 0 <= i < |req.Numbers()| ==> !SlugExists(db.tenants, Slug(req.suffix, req.Numbers()[i]))
  }

  /** The tenants with one new row per number, under consecutive ids. */
  function Inserted(tenants: map<TenantId, Tenant>, next: TenantId, worker: AgentId, req: CreateRequest,
                    numbers: seq<Option<nat>>)
    : map<TenantId, Tenant>
  {
    if numbers == [] then tenants
    else
      var n := |numbers| - 1;
      Inserted(tenants, next, worker, req, numbers[..n])[next + n := req.NewTenant(worker, numbers[n])]
  }

  function Created(db: Db, worker: AgentId, req: CreateRequest): Db {
    if !Acceptable(db, worker, req) then db
    else db.(tenants := Inserted(db.tenants, db.next, worker, req, req.Numbers()), next := db.next + |req.Numbers()|)
  }

  /** Exactly the requested tenants appear, all new, and no other row changes. */
  lemma {:induction false} InsertedRows(tenants: map<TenantId, Tenant>, next: TenantId, worker: AgentId, req: CreateRequest,
                                        numbers: seq<Option<nat>>)
    requires forall tid :: tid in tenants ==> tid < next
    ensures var ts := Inserted(tenants, next, worker, req, numbers);
            forall tid :: (tid in ts <==> tid in tenants || next <= tid < next + |numbers|)
                          && (tid in tenants ==> ts[tid] == tenants[tid])
                          && (next <= tid < next + |numbers| ==> ts[tid] == req.NewTenant(worker, numbers[tid - next]))
  {
    if numbers != [] {
      var n := |numbers| - 1;
      InsertedRows(tenants, next, worker, req, numbers[..n]);
    }
  }

  // ----- Any service call -----

  datatype Call =
    | Create(worker: AgentId, req: CreateRequest)
    | Queue(tid: TenantId, kind: Kind, c: Conditions)
    | ProvisionPending(tids: seq<TenantId>, c: Conditions)
    | Remove(worker: AgentId, tid: TenantId, c: Conditions)
    | Resync(id: nat)

  predicate Callable(db: Db, call: Call) {
    match call
    case Create(_, _) => true
    case Queue(tid, _, _) => tid in db.tenants
    case ProvisionPending(tids, _) => forall tid :: tid in tids ==> tid in db.tenants
    case Remove(_, tid, _) => tid in db.tenants
    case Resync(id) => id < |db.rows|
  }

  function After(db: Db, call: Call): Db
    requires Callable(db, call)
  {
    match call
    case Create(worker, req) => Created(db, worker, req)
    case Queue(tid, kind, c) => Enqueued(db, tid, kind, c).0
    case ProvisionPending(tids, c) => EnqueuedAll(db, tids, c).0
    case Remove(worker, tid, c) => Removed(db, worker, tid, c).0
    case Resync(id) => Synced(db, id)
  }

  /** The rows behind the first n are new commands of enrolled agents. */
  ghost predicate Appended(rows: seq<Row>, rows': seq<Row>, enrolled: set<AgentId>) {
    && rows <= rows'
    && forall i :: |rows| <= i < |rows'| ==> rows'[i].agent in enrolled && rows'[i] == NewCommand(rows'[i].agent, rows'[i].payload)
  }

  lemma {:induction false} EnqueuedAllAppends(db: Db, tids: seq<TenantId>, c: Conditions)
    requires forall tid :: tid in tids ==> tid in db.tenants
    ensures var db' := EnqueuedAll(db, tids, c).0;
            && Appended(db.rows, db'.rows, db.enrolled)
            && db'.tenants.Keys == db.tenants.Keys && db'.enrolled == db.enrolled && db'.next == db.next
    decreases |tids|
  {
    if tids != [] {
      var (db1, out) := Enqueued(db, tids[0], Provision, c);
      if !out.Rejected? { EnqueuedAllAppends(db1, tids[1..], c); }
    }
  }

  /** Service calls only ever append commands. */
  lemma CallsAppend(db: Db, call: Call)
    requires Callable(db, call)
    ensures Appended(db.rows, After(db, call).rows, db.enrolled) && After(db, call).enrolled == db.enrolled
  {
    if call.ProvisionPending? { EnqueuedAllAppends(db, call.tids, call.c); }
  }
}
