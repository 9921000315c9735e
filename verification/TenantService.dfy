/** The service calls themselves, step by step as the control plane makes them, each proved to have
    the effect that TenantRegistry gives it. */
module TenantService {
  import opened Options
  import opened Sequences
  import opened Sorting
  import opened CommandQueue
  import opened Naming
  import opened TenantRegistry
  import StackState

  predicate IsPendingOn(tenants: map<TenantId, Tenant>, worker: AgentId, tid: TenantId) {
    tid in tenants && tenants[tid].worker == Some(worker) && tenants[tid].runtime.Pending?
  }

  ghost predicate InSlugOrder(tenants: map<TenantId, Tenant>, tids: seq<TenantId>) {
    && (forall i :: 0 <= i < |tids| ==> tids[i] in tenants)
    && (forall i, j :: 0 <= i < j < |tids| ==> Below(tenants[tids[i]].slug, tenants[tids[j]].slug))
  }

  class Service {
    const table: CommandTable<TenantCommand, CommandResult>
    var tenants: map<TenantId, Tenant>
    var next: TenantId
    var enrolled: set<AgentId>

    ghost function View(): Db
      reads this, table
    {
      Db(tenants, table.rows, next, enrolled)
    }

    /** Ids are never reused and slugs are unique, as the tenant table enforces. */
    ghost predicate Valid()
      reads this
    {
      && (forall tid :: tid in tenants ==> tid < next)
      && (forall x, y :: x in tenants && y in tenants && tenants[x].slug == tenants[y].slug ==> x == y)
    }

    constructor (enrolled: set<AgentId>)
      ensures Valid() && View() == Db(map[], [], 0, enrolled)
      ensures fresh(table)
    {
      table := new CommandTable<TenantCommand, CommandResult>();
      tenants, next := map[], 0;
      this.enrolled := enrolled;
    }

    // ----- Checks -----

    method FindPending(agent: AgentId, tid: TenantId, kind: Kind) returns (id: Option<nat>)
      ensures id == Newest(table.rows, agent, tid, kind)
    {
      var rows := table.rows;
      var i := |rows|;
      while i > 0
        invariant 0 <= i <= |rows|
        invariant forall j :: i <= j < |rows| ==> !InFlightFor(rows[j], agent, tid, kind)
      {
        i := i - 1;
        var r := rows[i];
        if r.agent == agent && r.payload.kind == kind && r.payload.tenant == tid && (r.state.Pending? || r.state.Dispatched?) {
          return Some(i);
        }
      }
      return None;
    }

    /** _assert_worker_production_consistency */
    method SameModeOnWorker(worker: AgentId, production: bool) returns (ok: bool)
      ensures ok <==> Consistent(View(), worker, production)
    {
      var rest := tenants.Keys;
      while rest != {}
        invariant rest <= tenants.Keys
        invariant forall tid :: tid in tenants && tid !in rest && tenants[tid].worker == Some(worker) ==>
                    tenants[tid].production == production
        decreases rest
      {
        var tid :| tid in rest;
        if tenants[tid].worker == Some(worker) && tenants[tid].production != production {
          return false;
        }
        rest := rest - {tid};
      }
      return true;
    }

    // ----- Enqueuing -----

    /** The shared tail of the enqueue calls: reuse the command in flight, or queue a new one. */
    method QueueOnce(agent: AgentId, tid: TenantId, kind: Kind, body: StackState.Payload) returns (out: Outcome)
      modifies table
      ensures var existing := Newest(old(table.rows), agent, tid, kind);
              if existing.Some? then out == Skipped(existing.value) && table.rows == old(table.rows)
              else out == Queued(|old(table.rows)|)
                   && table.rows == old(table.rows) + [NewCommand(agent, TenantCommand(kind, tid, body))]
    {
      var existing := FindPending(agent, tid, kind);
      if existing.Some? {
        return Skipped(existing.value);
      }
      var id := table.Enqueue(agent, TenantCommand(kind, tid, body));
      return Queued(id);
    }

    method EnqueueDeprovision(tid: TenantId, c: Conditions) returns (out: Outcome)
      requires Valid() && tid in tenants
      modifies this, table
      ensures Valid() && (View(), out) == Enqueued(old(View()), tid, Deprovision, c)
    {
      var t := tenants[tid];
      if t.worker.None? { return Rejected(NoWorker); }
      if t.worker.value !in enrolled { return Rejected(NoAgent); }
      out := QueueOnce(t.worker.value, tid, Deprovision, Body(t, Deprovision, c));
      assert tenants == tenants[tid := t];
    }

    method EnqueueProvision(tid: TenantId, c: Conditions) returns (out: Outcome)
      requires Valid() && tid in tenants
      modifies this, table
      ensures Valid() && (View(), out) == Enqueued(old(View()), tid, Provision, c)
    {
      var t := tenants[tid];
      if t.worker.None? { return Rejected(NoWorker); }
      if t.runtime.Deleting? { return Rejected(BeingRemoved); }
      if !ValidDbName(t.dbName) { return Rejected(BadDbName); }
      var sameMode := SameModeOnWorker(t.worker.value, t.production);
      if !sameMode { return Rejected(MixedModes); }
      if t.production && !c.edge.sharedEdge && (c.edge.acmeEmail == "" || c.edge.cfToken == "") {
        return Rejected(MissingEdgeSettings);
      }
      if !c.workerReady || t.worker.value !in enrolled { return Rejected(NotReady); }
      var existing := FindPending(t.worker.value, tid, Provision);
      if existing.Some? { return Skipped(existing.value); }
      if t.production && !c.dnsOk { return Rejected(DnsError); }
      out := QueueOnce(t.worker.value, tid, Provision, Body(t, Provision, c));
      tenants := tenants[tid := t.(runtime := RuntimeStatus.Provisioning)];
    }

    method EnqueueStart(tid: TenantId, c: Conditions) returns (out: Outcome)
      requires Valid() && tid in tenants
      modifies this, table
      ensures Valid() && (View(), out) == Enqueued(old(View()), tid, Start, c)
    {
      var t := tenants[tid];
      if t.worker.None? { return Rejected(NoWorker); }
      if t.runtime.Deleting? { return Rejected(BeingRemoved); }
      if !c.workerReady || t.worker.value !in enrolled { return Rejected(NotReady); }
      out := QueueOnce(t.worker.value, tid, Start, Body(t, Start, c));
      assert tenants == tenants[tid := t];
    }

    method EnqueueStop(tid: TenantId, c: Conditions) returns (out: Outcome)
      requires Valid() && tid in tenants
      modifies this, table
      ensures Valid() && (View(), out) == Enqueued(old(View()), tid, Stop, c)
    {
      var t := tenants[tid];
      if t.worker.None? { return Rejected(NoWorker); }
      if t.runtime.Deleting? { return Rejected(BeingRemoved); }
      if !c.workerReady || t.worker.value !in enrolled { return Rejected(NotReady); }
      out := QueueOnce(t.worker.value, tid, Stop, Body(t, Stop, c));
      assert tenants == tenants[tid := t];
    }

    method EnqueueVerify(tid: TenantId, c: Conditions) returns (out: Outcome)
      requires Valid() && tid in tenants
      modifies this, table
      ensures Valid() && (View(), out) == Enqueued(old(View()), tid, Verify, c)
    {
      var t := tenants[tid];
      if t.worker.None? { return Rejected(NoWorker); }
      if t.worker.value !in enrolled { return Rejected(NoAgent); }
      out := QueueOnce(t.worker.value, tid, Verify, Body(t, Verify, c));
      assert tenants == tenants[tid := t];
    }

    method EnqueueBootstrap(tid: TenantId, c: Conditions) returns (out: Outcome)
      requires Valid() && tid in tenants
      modifies this, table
      ensures Valid() && (View(), out) == Enqueued(old(View()), tid, Bootstrap, c)
    {
      var t := tenants[tid];
      if t.worker.None? { return Rejected(NoWorker); }
      if t.worker.value !in enrolled { return Rejected(NoAgent); }
      if t.bootstrap.Bootstrapped? { return AlreadyBootstrapped; }
      out := QueueOnce(t.worker.value, tid, Bootstrap, Body(t, Bootstrap, c));
      if out.Queued? {
        tenants := tenants[tid := t.(bootstrap := BootstrapStatus.Provisioning)];
      }
    }

    method RemoveTenant(worker: AgentId, tid: TenantId, c: Conditions) returns (out: Outcome)
      requires Valid() && tid in tenants
      modifies this, table
      ensures Valid() && (View(), out) == Removed(old(View()), worker, tid, c)
    {
      var t := tenants[tid];
      if t.worker != Some(worker) { return Rejected(WrongWorker); }
      if t.runtime.Pending? {
        tenants := tenants - {tid};
        return RemovedNow;
      }
      if t.runtime.Deleting? {
        out := EnqueueDeprovision(tid, c);
        assert tenants == tenants[tid := tenants[tid].(runtime := Deleting)];
        return;
      }
      out := EnqueueDeprovision(tid, c);
      if !out.Rejected? {
        tenants := tenants[tid := tenants[tid].(runtime := Deleting)];
      }
    }

    method ProvisionEach(tids: seq<TenantId>, c: Conditions) returns (outs: seq<Outcome>)
      requires Valid() && forall tid :: tid in tids ==> tid in tenants
      modifies this, table
      ensures Valid() && (View(), outs) == EnqueuedAll(old(View()), tids, c)
      decreases |tids|
    {
      if tids == [] { return []; }
      var out := EnqueueProvision(tids[0], c);
      if out.Rejected? { return [out]; }
      var rest := ProvisionEach(tids[1..], c);
      return [out] + rest;
    }

    /** Provisions every pending tenant of a ready worker in slug order, up to the first error. */
    method BulkProvisionPending(worker: AgentId, c: Conditions) returns (outs: seq<Outcome>, ghost tids: seq<TenantId>)
      requires Valid()
      modifies this, table
      ensures Valid()
      ensures !(c.workerReady && worker in old(enrolled)) ==> outs == [Rejected(NotReady)] && View() == old(View())
      ensures c.workerReady && worker in old(enrolled) ==>
                && (forall tid :: tid in tids <==> IsPendingOn(old(tenants), worker, tid))
                && InSlugOrder(old(tenants), tids)
                && (View(), outs) == EnqueuedAll(old(View()), tids, c)
    {
      if !c.workerReady || worker !in enrolled {
        return [Rejected(NotReady)], [];
      }
      var pending := PendingInOrder(worker);
      tids := pending;
      outs := ProvisionEach(pending, c);
    }

    method PendingInOrder(worker: AgentId) returns (tids: seq<TenantId>)
      requires Valid()
      ensures forall tid :: tid in tids <==> IsPendingOn(tenants, worker, tid)
      ensures InSlugOrder(tenants, tids)
    {
      BelowIsOrder();
      tids := SortByKey(Below, map tid | tid in tenants && IsPendingOn(tenants, worker, tid) :: tenants[tid].slug);
      assert forall i :: 0 <= i < |tids| ==> tids[i] in tids;
    }

    // ----- Syncing -----

    method SetRuntime(tid: TenantId, status: RuntimeStatus)
      requires Valid() && tid in tenants
      modifies this`tenants
      ensures Valid() && View() == WithRuntime(old(View()), tid, status)
    {
      tenants := tenants[tid := tenants[tid].(runtime := status)];
    }

    method SyncDeprovision(id: nat)
      requires Valid() && id < |table.rows| && table.rows[id].payload.kind.Deprovision?
      requires table.rows[id].state.Settled() && table.rows[id].payload.tenant in tenants
      modifies this`tenants
      ensures Valid() && View() == Synced(old(View()), id)
    {
      var row := table.rows[id];
      var tid := row.payload.tenant;
      if row.state.Acked? && row.result.GetOr(NO_RESULT).exitCode == 0 {
        tenants := tenants - {tid};
      } else {
        SetRuntime(tid, RuntimeStatus.Failed);
      }
    }

    /** The status fields a settled command carries back, other than a deprovision. */
    method SyncStatus(id: nat)
      requires Valid() && id < |table.rows| && table.rows[id].payload.tenant in tenants
      modifies this`tenants
      ensures var row := table.rows[id]; var tid := row.payload.tenant;
              tenants == old(tenants)[tid := SyncedTenant(old(tenants)[tid], row.payload.kind, row.state.Failed?,
                                                          row.result.GetOr(NO_RESULT))]
      ensures Valid()
    {
      var row := table.rows[id];
      var tid := row.payload.tenant;
      var r := row.result.GetOr(NO_RESULT);
      var t := tenants[tid];
      if r.runtime.Status? {
        t := t.(runtime := r.runtime.status);
      } else if row.state.Failed? && row.payload.kind.ChangesRuntime() {
        t := t.(runtime := RuntimeStatus.Failed);
      }
      if r.bootstrap.Some? {
        t := t.(bootstrap := r.bootstrap.value);
      } else if row.state.Failed? && row.payload.kind.Bootstrap? {
        t := t.(bootstrap := BootstrapStatus.Failed);
      }
      tenants := tenants[tid := t];
    }

    method SyncTenantFromAckedCommand(id: nat)
      requires Valid() && id < |table.rows|
      modifies this, table
      ensures Valid() && View() == Synced(old(View()), id)
    {
      var row := table.rows[id];
      var tid := row.payload.tenant;
      if tid !in tenants || !(row.state.Acked? || row.state.Failed?) {
        return;
      }
      if row.payload.kind.Deprovision? {
        SyncDeprovision(id);
        return;
      }
      SyncStatus(id);
      if row.payload.kind.Provision? && row.state.Acked? && row.result.GetOr(NO_RESULT).runtime == Status(Running) {
        if !tenants[tid].bootstrap.Bootstrapped? && !tenants[tid].bootstrap.Provisioning? {
          var _ := EnqueueBootstrap(tid, ANY_CONDITIONS);
        }
      }
    }

    /** AgentCommandAckView.post */
    method AckCommand(agent: AgentId, id: nat, ok: bool, result: CommandResult, now: int) returns (found: bool)
      requires Valid()
      modifies this, table
      ensures found == (id < |old(table.rows)| && old(table.rows)[id].agent == agent)
      ensures Valid() && View() == if found then Acknowledged(old(View()), id, ok, result, now) else old(View())
    {
      var applied;
      found, applied := table.Ack(agent, id, ok, result, now);
      if applied {
        SyncTenantFromAckedCommand(id);
      }
    }

    // ----- Bulk creation -----

    method SlugTaken(slug: string) returns (taken: bool)
      ensures taken <==> SlugExists(tenants, slug)
    {
      var rest := tenants.Keys;
      while rest != {}
        invariant rest <= tenants.Keys
        invariant forall tid :: tid in tenants && tid !in rest ==> tenants[tid].slug != slug
        decreases rest
      {
        var tid :| tid in rest;
        if tenants[tid].slug == slug { return true; }
        rest := rest - {tid};
      }
      return false;
    }

    method AllFree(suffix: string, numbers: seq<Option<nat>>) returns (free: bool)
      ensures free <==> forall i :: 0 <= i < |numbers| ==> !SlugExists(tenants, Slug(suffix, numbers[i]))
    {
      var i := 0;
      while i < |numbers|
        invariant 0 <= i <= |numbers|
        invariant forall j :: 0 <= j < i ==> !SlugExists(tenants, Slug(suffix, numbers[j]))
      {
        var taken := SlugTaken(Slug(suffix, numbers[i]));
        if taken { return false; }
        i := i + 1;
      }
      return true;
    }

    method PlanNumbers(worker: AgentId, req: CreateRequest) returns (error: Option<Error>, planned: seq<Option<nat>>)
      ensures error.None? <==> Acceptable(View(), worker, req)
      ensures error.None? ==> planned == req.Numbers()
      ensures error != Some(IntegrityError)
    {
      if !ValidSuffix(req.suffix) { return Some(BadSuffix), []; }
      var sameMode := SameModeOnWorker(worker, req.production);
      if !sameMode { return Some(MixedModes), []; }
      if req.count.Some? && req.start.None? { return Some(NoStartNumber), []; }
      planned := req.Numbers();
      var free := AllFree(req.suffix, planned);
      if !free { return Some(Error.SlugTaken), []; }
      return None, planned;
    }

    method Insert(t: Tenant) returns (tid: TenantId)
      requires Valid() && !SlugExists(tenants, t.slug)
      modifies this`tenants, this`next
      ensures Valid() && tid == old(next) && next == old(next) + 1 && tenants == old(tenants)[tid := t]
    {
      tid := next;
      tenants := tenants[tid := t];
      next := next + 1;
    }

    /** All requested tenants are created, or none; the insert loop never meets a duplicate slug, so
        the integrity error the source catches there is never raised. */
    method BulkCreateTenants(worker: AgentId, req: CreateRequest) returns (error: Option<Error>, created: seq<TenantId>)
      requires Valid()
      modifies this`tenants, this`next
      ensures Valid() && View() == Created(old(View()), worker, req)
      ensures error.None? <==> Acceptable(old(View()), worker, req)
      ensures error != Some(IntegrityError)
      ensures created == if error.None? then seq(|req.Numbers()|, i requires 0 <= i => old(next) + i) else []
    {
      created := [];
      var planned;
      error, planned := PlanNumbers(worker, req);
      if error.Some? {
        return;
      }
      created := InsertAll(worker, req, planned);
    }

    method InsertAll(worker: AgentId, req: CreateRequest, planned: seq<Option<nat>>) returns (created: seq<TenantId>)
      requires Valid() && ValidSuffix(req.suffix) && (req.count.Some? ==> req.start.Some?) && planned == req.Numbers()
      requires forall i :: 0 <= i < |planned| ==> !SlugExists(tenants, Slug(req.suffix, planned[i]))
      modifies this`tenants, this`next
      ensures Valid() && next == old(next) + |planned|
      ensures tenants == Inserted(old(tenants), old(next), worker, req, planned)
      ensures created == seq(|planned|, i requires 0 <= i => old(next) + i)
    {
      created := [];
      var i := 0;
      while i < |planned|
        invariant 0 <= i <= |planned| && next == old(next) + i && Valid()
        invariant tenants == Inserted(old(tenants), old(next), worker, req, planned[..i])
        invariant created == seq(i, j requires 0 <= j => old(next) + j)
      {
        FreshSlug(old(tenants), old(next), worker, req, planned, i);
        assert planned[..i + 1][..i] == planned[..i];
        var tid := Insert(req.NewTenant(worker, planned[i]));
        created := created + [tid];
        i := i + 1;
      }
      assert planned[..i] == planned;
    }
  }

  /** The slug of planned tenant i is neither an old one nor that of an earlier planned tenant. */
  lemma FreshSlug(tenants: map<TenantId, Tenant>, next: TenantId, worker: AgentId, req: CreateRequest,
                  planned: seq<Option<nat>>, i: nat)
    requires forall tid :: tid in tenants ==> tid < next
    requires ValidSuffix(req.suffix) && (req.count.Some? ==> req.start.Some?)
    requires planned == req.Numbers() && i < |planned|
    requires !SlugExists(tenants, Slug(req.suffix, planned[i]))
    ensures !SlugExists(Inserted(tenants, next, worker, req, planned[..i]), Slug(req.suffix, planned[i]))
  {
    var ts := Inserted(tenants, next, worker, req, planned[..i]);
    InsertedRows(tenants, next, worker, req, planned[..i]);
    forall tid | tid in ts ensures ts[tid].slug != Slug(req.suffix, planned[i]) {
      if tid in tenants {
        assert tenants[tid].slug != Slug(req.suffix, planned[i]);
      } else {
        SlugsAreDistinct(req.suffix, planned[tid - next], req.suffix, planned[i]);
      }
    }
  }
}
