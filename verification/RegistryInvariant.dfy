/** What every service call keeps true of the tenant and command tables. */
module RegistryInvariant {
  import opened Options
  import opened Sequences
  import opened CommandQueue
  import opened TenantRegistry

  predicate SameJob(a: Row, b: Row) {
    a.agent == b.agent && a.payload.tenant == b.payload.tenant && a.payload.kind == b.payload.kind
  }

  /** At most one command per agent, tenant and kind is pending or dispatched. */
  ghost predicate AtMostOneInFlight(rows: seq<Row>) {
    forall i, j :: 0 <= i < j < |rows| && rows[i].state.InFlight() && rows[j].state.InFlight() ==> !SameJob(rows[i], rows[j])
  }

  predicate AckedRemoval(r: Row) {
    r.payload.kind.Deprovision? && r.state.Acked? && r.result.GetOr(NO_RESULT).exitCode == 0
  }

  /** How a command row relates to its tenant, as long as that is still registered. */
  ghost predicate RowFits(db: Db, r: Row) {
    && r.payload.tenant < db.next
    && r.agent in db.enrolled
    && r.result.GetOr(NO_RESULT).runtime != Status(RuntimeStatus.Pending)
    && (r.payload.tenant in db.tenants ==>
          var t := db.tenants[r.payload.tenant];
          && r.payload.body.slug == t.slug
          && t.worker == Some(r.agent)
          && (r.payload.kind.Provision? ==> !t.runtime.Pending?))
  }

  /** A tenant whose removal was acked with exit code 0 is gone; `except` exempts one row. */
  ghost predicate RemovalsDone(db: Db, except: int) {
    forall i :: 0 <= i < |db.rows| && i != except && AckedRemoval(db.rows[i]) ==> db.rows[i].payload.tenant !in db.tenants
  }

  ghost predicate InvBut(db: Db, except: int) {
    && (forall tid :: tid in db.tenants ==> tid < db.next)
    && (forall i :: 0 <= i < |db.rows| ==> RowFits(db, db.rows[i]))
    && RemovalsDone(db, except)
    && AtMostOneInFlight(db.rows)
  }

  ghost predicate Inv(db: Db) { InvBut(db, -1) }

  /** Replacing one tenant row by a compatible one. */
  ghost predicate Compatible(t: Tenant, t': Tenant) {
    t'.slug == t.slug && t'.worker == t.worker && (t'.runtime.Pending? ==> t.runtime.Pending?)
  }

  lemma UpdateKeepsInv(db: Db, tid: TenantId, t: Tenant, except: int)
    requires InvBut(db, except) && tid in db.tenants && Compatible(db.tenants[tid], t)
    ensures InvBut(db.(tenants := db.tenants[tid := t]), except)
  {
  }

  lemma DeleteKeepsInv(db: Db, tid: TenantId, except: int)
    requires InvBut(db, except)
    requires 0 <= except < |db.rows| ==> db.rows[except].payload.tenant == tid
    ensures Inv(db.(tenants := db.tenants - {tid}))
  {
  }

  lemma EnqueuedKeepsInv(db: Db, tid: TenantId, kind: Kind, c: Conditions)
    requires Inv(db) && tid in db.tenants
    ensures Inv(Enqueued(db, tid, kind, c).0)
  {
    var (db', out) := Enqueued(db, tid, kind, c);
    if out.Queued? {
      var t := db.tenants[tid];
      UpdateKeepsInv(db, tid, Requeued(t, kind), -1);
      var mid := db.(tenants := db.tenants[tid := Requeued(t, kind)]);
      forall i | 0 <= i < |db'.rows| ensures RowFits(db', db'.rows[i]) {
        if i < |db.rows| { assert RowFits(mid, mid.rows[i]); }
      }
      assert Newest(db.rows, t.worker.value, tid, kind).None?;
      forall i | 0 <= i < |db.rows| && db.rows[i].state.InFlight() ensures !SameJob(db.rows[i], db'.rows[|db.rows|]) {
        assert !InFlightFor(db.rows[i], t.worker.value, tid, kind);
      }
    }
  }

  lemma {:induction false} EnqueuedAllKeepsInv(db: Db, tids: seq<TenantId>, c: Conditions)
    requires Inv(db) && forall tid :: tid in tids ==> tid in db.tenants
    ensures Inv(EnqueuedAll(db, tids, c).0)
    decreases |tids|
  {
    if tids != [] {
      var (db1, out) := Enqueued(db, tids[0], Provision, c);
      EnqueuedKeepsInv(db, tids[0], Provision, c);
      if !out.Rejected? { EnqueuedAllKeepsInv(db1, tids[1..], c); }
    }
  }

  lemma RemovedKeepsInv(db: Db, worker: AgentId, tid: TenantId, c: Conditions)
    requires Inv(db) && tid in db.tenants
    ensures Inv(Removed(db, worker, tid, c).0)
  {
    var t := db.tenants[tid];
    if t.worker == Some(worker) {
      if t.runtime.Pending? {
        DeleteKeepsInv(db, tid, -1);
      } else {
        var (db1, out) := Enqueued(db, tid, Deprovision, c);
        EnqueuedKeepsInv(db, tid, Deprovision, c);
        UpdateKeepsInv(db1, tid, db1.tenants[tid].(runtime := Deleting), -1);
      }
    }
  }

  lemma CreatedKeepsInv(db: Db, worker: AgentId, req: CreateRequest)
    requires Inv(db)
    ensures Inv(Created(db, worker, req))
  {
    var db' := Created(db, worker, req);
    if Acceptable(db, worker, req) {
      InsertedRows(db.tenants, db.next, worker, req, req.Numbers());
      forall i | 0 <= i < |db'.rows| ensures RowFits(db', db'.rows[i]) {
        assert RowFits(db, db.rows[i]);
      }
    }
  }

  lemma SyncedKeepsInv(db: Db, id: nat)
    requires InvBut(db, id) && id < |db.rows|
    ensures Inv(Synced(db, id))
  {
    var row := db.rows[id];
    var tid := row.payload.tenant;
    assert RowFits(db, row);
    if row.state.Settled() && tid in db.tenants {
      if row.payload.kind.Deprovision? {
        if AckedRemoval(row) {
          DeleteKeepsInv(db, tid, id);
        } else {
          UpdateKeepsInv(db, tid, db.tenants[tid].(runtime := RuntimeStatus.Failed), id);
        }
      } else {
        var t := SyncedTenant(db.tenants[tid], row.payload.kind, row.state.Failed?, row.result.GetOr(NO_RESULT));
        UpdateKeepsInv(db, tid, t, id);
        var db1 := db.(tenants := db.tenants[tid := t]);
        assert Inv(db1);
        if WantsBootstrap(row, t) { EnqueuedKeepsInv(db1, tid, Bootstrap, ANY_CONDITIONS); }
      }
    }
  }

  /** Rows may be replaced by later versions of themselves, none of them newly in flight. */
  lemma RowsKeepInv(db: Db, rows: seq<Row>, except: int)
    requires Inv(db) && |rows| == |db.rows|
    requires forall i :: 0 <= i < |rows| ==> rows[i].agent == db.rows[i].agent && rows[i].payload == db.rows[i].payload
    requires forall i :: 0 <= i < |rows| && rows[i].state.InFlight() ==> db.rows[i].state.InFlight()
    requires forall i :: 0 <= i < |rows| && i != except ==>
               rows[i].result == db.rows[i].result && (rows[i].state.Acked? ==> db.rows[i].state.Acked?)
    requires 0 <= except < |rows| ==> rows[except].result.GetOr(NO_RESULT).runtime != Status(RuntimeStatus.Pending)
    ensures InvBut(db.(rows := rows), except)
  {
  }

  lemma PolledKeepsInv(db: Db, agent: AgentId, now: int, interval: nat)
    requires Inv(db)
    ensures Inv(db.(rows := AfterPoll(db.rows, agent, now, interval)))
  {
    RowsKeepInv(db, AfterPoll(db.rows, agent, now, interval), -1);
  }

  lemma AcknowledgedKeepsInv(db: Db, id: nat, ok: bool, result: CommandResult, now: int)
    requires Inv(db) && id < |db.rows| && result.runtime != Status(RuntimeStatus.Pending)
    ensures Inv(Acknowledged(db, id, ok, result, now))
  {
    if !db.rows[id].state.Settled() {
      var rows := AfterAck(db.rows, id, ok, result, now);
      RowsKeepInv(db, rows, id);
      SyncedKeepsInv(db.(rows := rows), id);
    }
  }

  lemma CallKeepsInv(db: Db, call: Call)
    requires Inv(db) && Callable(db, call)
    ensures Inv(After(db, call))
  {
    match call
    case Create(worker, req) => CreatedKeepsInv(db, worker, req);
    case Queue(tid, kind, c) => EnqueuedKeepsInv(db, tid, kind, c);
    case ProvisionPending(tids, c) => EnqueuedAllKeepsInv(db, tids, c);
    case Remove(worker, tid, c) => RemovedKeepsInv(db, worker, tid, c);
    case Resync(id) => SyncedKeepsInv(db, id);
  }

  predicate EverProvisioned(rows: seq<Row>, tid: TenantId) {
    exists i :: 0 <= i < |rows| && rows[i].payload.kind.Provision? && rows[i].payload.tenant == tid
  }

  /** The only service call that takes a tenant out is the removal of a pending one; it was never
      asked to be provisioned. Re-applying an acked removal finds the tenant gone already. */
  lemma CallDepartures(db: Db, call: Call, tid: TenantId)
    requires Inv(db) && Callable(db, call) && tid in db.tenants && tid !in After(db, call).tenants
    ensures call.Remove? && call.tid == tid && db.tenants[tid].runtime.Pending? && !EverProvisioned(db.rows, tid)
  {
    match call
    case Create(worker, req) =>
      if Acceptable(db, worker, req) { InsertedRows(db.tenants, db.next, worker, req, req.Numbers()); }
    case ProvisionPending(tids, c) => EnqueuedAllAppends(db, tids, c);
    case Remove(_, _, _) =>
      assert forall i :: 0 <= i < |db.rows| ==> RowFits(db, db.rows[i]);
    case _ =>
  }

  lemma CallsAddOnlyNewIds(db: Db, call: Call, tid: TenantId)
    requires Inv(db) && Callable(db, call) && tid < db.next && tid !in db.tenants
    ensures tid < After(db, call).next && tid !in After(db, call).tenants
  {
    match call
    case Create(worker, req) =>
      if Acceptable(db, worker, req) { InsertedRows(db.tenants, db.next, worker, req, req.Numbers()); }
    case ProvisionPending(tids, c) => EnqueuedAllAppends(db, tids, c);
    case _ =>
  }

  /** A delivered ack takes out a tenant only if it reports that tenant's deprovision as successful. */
  lemma AckedDeparture(db: Db, id: nat, ok: bool, result: CommandResult, now: int, tid: TenantId)
    requires Inv(db) && id < |db.rows| && tid in db.tenants
    requires tid !in Acknowledged(db, id, ok, result, now).tenants
    ensures db.rows[id].payload.tenant == tid && db.rows[id].payload.kind.Deprovision? && ok
  {
  }

  lemma AckedRows(db: Db, id: nat, ok: bool, result: CommandResult, now: int)
    requires id < |db.rows|
    ensures var db' := Acknowledged(db, id, ok, result, now);
            Appended(AfterAck(db.rows, id, ok, result, now), db'.rows, db.enrolled)
  {
  }
}
