/** Acks as the server may see them: for any command, in any state, any number of times, from daemons
    that keep to the protocol or not. Those that find their command settled, because it has expired or
    was acked before, leave no trace (agents/views.py). */
module LateAcks {
  import opened Options
  import opened CommandQueue
  import opened TenantRegistry
  import opened GatewayJobs
  import GatewayMonitor

  // ----- Commands and tenants -----

  datatype Event =
    | Called(call: Call)
    | Polled(agent: AgentId, now: int, interval: nat)
    | Acked(id: nat, ok: bool, result: CommandResult, now: int)

  function Serve(db: Db, e: Event): Db {
    match e
    case Called(call) => if Callable(db, call) then After(db, call) else db
    case Polled(agent, now, interval) => db.(rows := AfterPoll(db.rows, agent, now, interval))
    case Acked(id, ok, result, now) => if id < |db.rows| then Acknowledged(db, id, ok, result, now) else db
  }

  function Served(db: Db, es: seq<Event>): Db {
    if es == [] then db else Serve(Served(db, es[..|es| - 1]), es[|es| - 1])
  }

  predicate IsLate(db: Db, e: Event) {
    e.Acked? && e.id < |db.rows| && db.rows[e.id].state.Settled()
  }

  /** The events without the acks that come too late. */
  function InTime(db: Db, es: seq<Event>): seq<Event> {
    if es == [] then []
    else
      var front, last := es[..|es| - 1], es[|es| - 1];
      InTime(db, front) + if IsLate(Served(db, front), last) then [] else [last]
  }

  /** Late acks, however many and wherever they come, change neither the outcome of a run for any
      command nor that for any tenant. */
  lemma {:induction false} LateAcksLeaveNoTrace(db: Db, es: seq<Event>)
    ensures Served(db, InTime(db, es)) == Served(db, es)
  {
    if es != [] {
      var front, last := es[..|es| - 1], es[|es| - 1];
      LateAcksLeaveNoTrace(db, front);
      var kept := InTime(db, front);
      assert kept + [] == kept && (kept + [last])[..|kept|] == kept;
    }
  }

  lemma SettledStep(db: Db, e: Event, i: nat)
    requires i < |db.rows| && db.rows[i].state.Settled()
    ensures i < |Serve(db, e).rows| && Serve(db, e).rows[i] == db.rows[i]
  {
    match e
    case Called(call) => if Callable(db, call) { CallsAppend(db, call); }
    case Polled(_, _, _) =>
    case Acked(id, ok, result, now) => if id < |db.rows| { AckAppends(db, id, ok, result, now); }
  }

  lemma AckAppends(db: Db, id: nat, ok: bool, result: CommandResult, now: int)
    requires id < |db.rows|
    ensures AfterAck(db.rows, id, ok, result, now) <= Acknowledged(db, id, ok, result, now).rows
  {
  }

  /** A command that has expired, or was acked, stays exactly as it is for the rest of any run. */
  lemma {:induction false} SettledForGood(db: Db, es: seq<Event>, i: nat)
    requires i < |db.rows| && db.rows[i].state.Settled()
    ensures i < |Served(db, es).rows| && Served(db, es).rows[i] == db.rows[i]
  {
    if es != [] {
      SettledForGood(db, es[..|es| - 1], i);
      SettledStep(Served(db, es[..|es| - 1]), es[|es| - 1], i);
    }
  }

  // ----- Commands, hosts and findings of a gateway -----

  datatype GatewayEvent =
    | Enqueued(agent: AgentId, job: Job)
    | GatewayPolled(agent: AgentId, now: int, interval: nat)
    | Reported(call: GatewayMonitor.Call)
    | GatewayAcked(id: nat, ok: bool, result: Report, policy: Option<GatewayMonitor.VulnPolicy>, ready: bool, now: int)

  datatype Gateway = Gateway(rows: seq<GatewayJobs.Row>, monitor: GatewayMonitor.Monitor)

  ghost function ServeGateway(g: Gateway, agent: AgentId, e: GatewayEvent): Gateway {
    match e
    case Enqueued(a, job) => g.(rows := g.rows + [NewCommand(a, job)])
    case GatewayPolled(a, now, interval) => g.(rows := AfterPoll(g.rows, a, now, interval))
    case Reported(call) => g.(monitor := GatewayMonitor.After(g.monitor, agent, call))
    case GatewayAcked(id, ok, result, policy, ready, now) =>
      if id >= |g.rows| then g
      else
        var (rows, monitor) := GatewayMonitor.Acknowledged(g.rows, g.monitor, agent, id, ok, result, policy, ready, now);
        Gateway(rows, monitor)
  }

  ghost function ServedGateway(g: Gateway, agent: AgentId, es: seq<GatewayEvent>): Gateway {
    if es == [] then g else ServeGateway(ServedGateway(g, agent, es[..|es| - 1]), agent, es[|es| - 1])
  }

  predicate IsLateGatewayAck(g: Gateway, e: GatewayEvent) {
    e.GatewayAcked? && e.id < |g.rows| && g.rows[e.id].state.Settled()
  }

  ghost function GatewayInTime(g: Gateway, agent: AgentId, es: seq<GatewayEvent>): seq<GatewayEvent> {
    if es == [] then []
    else
      var front, last := es[..|es| - 1], es[|es| - 1];
      GatewayInTime(g, agent, front) + if IsLateGatewayAck(ServedGateway(g, agent, front), last) then [] else [last]
  }

  /** The same for a gateway: late acks change no command, host, alert or finding. */
  lemma {:induction false} LateGatewayAcksLeaveNoTrace(g: Gateway, agent: AgentId, es: seq<GatewayEvent>)
    ensures ServedGateway(g, agent, GatewayInTime(g, agent, es)) == ServedGateway(g, agent, es)
  {
    if es != [] {
      var front, last := es[..|es| - 1], es[|es| - 1];
      LateGatewayAcksLeaveNoTrace(g, agent, front);
      var kept := GatewayInTime(g, agent, front);
      assert kept + [] == kept && (kept + [last])[..|kept|] == kept;
    }
  }
}
