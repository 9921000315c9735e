/** The per-agent command queue (agents/services.py) and the ack endpoint's guard (agents/views.py).

    A command is identified by its row number, which is also its place in creation order. */
module CommandQueue {
  import opened Options
  import opened Sequences

  type AgentId = nat

  datatype CommandState = Pending | Dispatched | Acked | Failed {
    predicate InFlight() { Pending? || Dispatched? }
    predicate Settled() { Acked? || Failed? }
  }

  datatype Command<+P, +R> = Command(
    agent: AgentId,
    payload: P,
    state: CommandState,
    dispatchedAt: Option<int>,
    result: Option<R>,
    ackedAt: Option<int>)

  function NewCommand<P, R>(agent: AgentId, payload: P): Command<P, R> {
    Command(agent, payload, Pending, None, None, None)
  }

  predicate IsStale<P, R>(c: Command<P, R>, agent: AgentId, cutoff: int) {
    c.agent == agent && c.state.Dispatched? && c.dispatchedAt.Some? && c.dispatchedAt.value < cutoff
  }

  predicate IsPending<P, R>(c: Command<P, R>, agent: AgentId) {
    c.agent == agent && c.state.Pending?
  }

  function Cutoff(now: int, interval: nat): int { now - 2 * interval }

  /** What one poll does to one row: fail it if stale, hand it out if pending. */
  function Polled<P, R>(c: Command<P, R>, agent: AgentId, now: int, interval: nat): Command<P, R> {
    if IsStale(c, agent, Cutoff(now, interval)) then c.(state := Failed)
    else if IsPending(c, agent) then c.(state := Dispatched, dispatchedAt := Some(now))
    else c
  }

  function AfterPoll<P, R>(rows: seq<Command<P, R>>, agent: AgentId, now: int, interval: nat)
    : (rows': seq<Command<P, R>>)
  {
    seq(|rows|, i requires 0 <= i < |rows| => Polled(rows[i], agent, now, interval))
  }

  function PendingIds<P, R>(rows: seq<Command<P, R>>, agent: AgentId): seq<nat> {
    Where(rows, (c: Command<P, R>) => IsPending(c, agent))
  }

  /** A delivered ack: settled rows are left alone, any other row is settled with the result. */
  function AfterAck<P, R>(rows: seq<Command<P, R>>, id: nat, ok: bool, result: R, now: int)
    : (rows': seq<Command<P, R>>)
    requires id < |rows|
  {
    if rows[id].state.Settled() then rows
    else rows[id := rows[id].(state := if ok then Acked else Failed, result := Some(result), ackedAt := Some(now))]
  }

  lemma PendingIdsExact<P, R>(rows: seq<Command<P, R>>, agent: AgentId)
    ensures Increasing(PendingIds(rows, agent))
    ensures forall i {:trigger i in PendingIds(rows, agent)} ::
              i in PendingIds(rows, agent) <==> 0 <= i < |rows| && IsPending(rows[i], agent)
  {
    WhereIsExact(rows, (c: Command<P, R>) => IsPending(c, agent));
  }

  class CommandTable<P, R> {
    var rows: seq<Command<P, R>>

    constructor ()
      ensures rows == []
    {
      rows := [];
    }

    method Enqueue(agent: AgentId, payload: P) returns (id: nat)
      modifies this
      ensures rows == old(rows) + [NewCommand(agent, payload)]
      ensures id == |old(rows)|
    {
      id := |rows|;
      rows := rows + [NewCommand(agent, payload)];
    }

    /** Fails every dispatched command of the agent that was handed out before the cutoff. */
    method ExpireStaleDispatched(agent: AgentId, now: int, interval: nat) returns (expired: nat)
      modifies this
      ensures |rows| == |old(rows)|
      ensures forall i :: 0 <= i < |rows| ==>
                rows[i] == if IsStale(old(rows)[i], agent, Cutoff(now, interval))
                           then old(rows)[i].(state := Failed) else old(rows)[i]
      ensures expired == |Where(old(rows), (c: Command<P, R>) => IsStale(c, agent, Cutoff(now, interval)))|
    {
      var cutoff := now - 2 * interval;
      ghost var stale := (c: Command<P, R>) => IsStale(c, agent, Cutoff(now, interval));
      var i := 0;
      expired := 0;
      while i < |rows|
        invariant 0 <= i <= |rows| == |old(rows)|
        invariant forall j :: 0 <= j < i ==>
                    rows[j] == if stale(old(rows)[j]) then old(rows)[j].(state := Failed) else old(rows)[j]
        invariant forall j :: i <= j < |rows| ==> rows[j] == old(rows)[j]
        invariant expired == |Where(old(rows)[..i], stale)|
      {
        WhereGrows(old(rows), i, stale);
        var row := rows[i];
        if row.agent == agent && row.state.Dispatched? && row.dispatchedAt.Some? && row.dispatchedAt.value < cutoff {
          rows := rows[i := row.(state := Failed)];
          expired := expired + 1;
        }
        i := i + 1;
      }
      assert old(rows)[..i] == old(rows);
    }

    /** One poll: expire what is stale, then hand out every pending command in creation order. */
    method DispatchCommands(agent: AgentId, now: int, interval: nat) returns (batch: seq<nat>, expired: nat)
      modifies this
      ensures rows == AfterPoll(old(rows), agent, now, interval)
      ensures batch == PendingIds(old(rows), agent)
      ensures expired == |Where(old(rows), (c: Command<P, R>) => IsStale(c, agent, Cutoff(now, interval)))|
    {
      expired := ExpireStaleDispatched(agent, now, interval);
      ghost var mid := rows;
      ghost var pending := (c: Command<P, R>) => IsPending(c, agent);
      batch := [];
      var i := 0;
      while i < |rows|
        invariant 0 <= i <= |rows| == |mid| == |old(rows)|
        invariant forall j :: 0 <= j < i ==> rows[j] == Polled(old(rows)[j], agent, now, interval)
        invariant forall j :: i <= j < |rows| ==> rows[j] == mid[j]
        invariant batch == Where(old(rows)[..i], pending)
      {
        WhereGrows(old(rows), i, pending);
        if rows[i].agent == agent && rows[i].state.Pending? {
          batch := batch + [i];
          rows := rows[i := rows[i].(state := Dispatched, dispatchedAt := Some(now))];
        }
        i := i + 1;
      }
      assert old(rows)[..i] == old(rows);
    }

    /** The ack endpoint: an unknown id is a 404, a settled command answers without effect. */
    method Ack(agent: AgentId, id: nat, ok: bool, result: R, now: int) returns (found: bool, applied: bool)
      modifies this
      ensures found == (id < |old(rows)| && old(rows)[id].agent == agent)
      ensures rows == if found then AfterAck(old(rows), id, ok, result, now) else old(rows)
      ensures applied == (found && old(rows)[id].state.InFlight())
    {
      if id >= |rows| || rows[id].agent != agent {
        return false, false;
      }
      if rows[id].state.Acked? || rows[id].state.Failed? {
        return true, false;
      }
      rows := rows[id := rows[id].(state := if ok then Acked else Failed, result := Some(result), ackedAt := Some(now))];
      return true, true;
    }
  }
}
