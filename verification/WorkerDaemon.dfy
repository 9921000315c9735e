/** The worker's poll loop (agent_daemon/worker_daemon.py), run against the control plane's service
    calls: one cycle of the loop is a run of the transition system of Lifecycle. */
module WorkerDaemon {
  import opened Options
  import opened Sequences
  import opened CommandQueue
  import opened TenantRegistry
  import opened WorkerExecution
  import Naming
  import Delivery
  import Lifecycle
  import StackState
  import TenantService

  /** What the outside world answers while one command is executed and acked. */
  datatype Circumstance = Circumstance(
    fault: StackState.Fault,
    tokens: StackState.Tokens,
    exitCode: int,
    raises: bool,
    fate: Delivery.AckFate)

  /** Required text fields that are empty; the two configurations are not part of the model. */
  predicate MissingFields(p: StackState.Payload) { p.slug == "" || p.dbName == "" || p.snippet == "" }

  class Daemon {
    const stack: StackState.StackProvisioner
    var dockerReachable: bool
    var inventory: set<string>

    constructor (stack: StackState.StackProvisioner)
      ensures this.stack == stack && inventory == {}
    {
      this.stack := stack;
      dockerReachable, inventory := false, {};
    }

    method HandleProvision(cmd: TenantCommand, c: Circumstance) returns (ok: bool, r: CommandResult)
      requires cmd.kind.Provision? && c.tokens.Hex() && StackState.Valid(stack.View())
      modifies this`inventory, stack
      ensures Executed(cmd, old(stack.View()), stack.View(), ok, r) && StackState.Valid(stack.View())
      ensures inventory == if ok then old(inventory) + {cmd.body.slug} else old(inventory)
      ensures MissingFields(cmd.body) || !Naming.ValidDbName(cmd.body.dbName) || !dockerReachable ==>
                !ok && r == Unable(Provision) && stack.View() == old(stack.View())
    {
      if MissingFields(cmd.body) || !Naming.ValidDbName(cmd.body.dbName) || !dockerReachable {
        return false, CommandResult(1, Status(RuntimeStatus.Failed), None);
      }
      var outcome := stack.Provision(cmd.body, c.tokens, c.fault);
      match outcome
      case Done =>
        inventory := inventory + {cmd.body.slug};
        ok, r := true, CommandResult(0, Status(Running), None);
      case Failed => ok, r := false, CommandResult(1, Status(RuntimeStatus.Failed), None);
      case Raised => ok, r := false, EXCEPTION;
    }

    method HandleDeprovision(cmd: TenantCommand, c: Circumstance) returns (ok: bool, r: CommandResult)
      requires cmd.kind.Deprovision? && StackState.Valid(stack.View())
      modifies this`inventory, stack
      ensures Executed(cmd, old(stack.View()), stack.View(), ok, r) && StackState.Valid(stack.View())
      ensures inventory == if ok then old(inventory) - {cmd.body.slug} else old(inventory)
    {
      if !Naming.ValidDbName(cmd.body.dbName) || !dockerReachable {
        return false, CommandResult(1, Status(RuntimeStatus.Failed), None);
      }
      var outcome := stack.Deprovision(cmd.body.slug, cmd.body.dbName, cmd.body.network, c.fault);
      match outcome
      case Done =>
        inventory := inventory - {cmd.body.slug};
        ok, r := true, CommandResult(0, Unlisted, None);
      case Failed =>
        ok, r := false, CommandResult(if c.exitCode == 0 then 1 else c.exitCode, Status(RuntimeStatus.Failed), None);
      case Raised => ok, r := false, EXCEPTION;
    }

    method HandleRuntimeAction(cmd: TenantCommand, c: Circumstance) returns (ok: bool, r: CommandResult)
      requires cmd.kind.Start? || cmd.kind.Stop?
      modifies this`inventory
      ensures Executed(cmd, stack.View(), stack.View(), ok, r)
      ensures inventory == if !ok then old(inventory)
                           else if cmd.kind.Start? then old(inventory) + {cmd.body.slug} else old(inventory) - {cmd.body.slug}
    {
      if !dockerReachable {
        return false, CommandResult(1, Status(RuntimeStatus.Failed), None);
      }
      if c.raises { return false, EXCEPTION; }
      if StackState.COMPOSE !in stack.files {
        return false, CommandResult(1, Status(RuntimeStatus.Failed), None);
      }
      if c.exitCode != 0 {
        return false, CommandResult(c.exitCode, Status(RuntimeStatus.Failed), None);
      }
      if cmd.kind.Start? {
        inventory := inventory + {cmd.body.slug};
        return true, CommandResult(0, Status(Running), None);
      }
      inventory := inventory - {cmd.body.slug};
      return true, CommandResult(0, Status(Stopped), None);
    }

    method HandleLifecycle(cmd: TenantCommand, c: Circumstance) returns (ok: bool, r: CommandResult)
      requires cmd.kind.Verify? || cmd.kind.Bootstrap?
      ensures Executed(cmd, stack.View(), stack.View(), ok, r)
    {
      if c.raises && dockerReachable { return false, EXCEPTION; }
      var exitCode := if dockerReachable then c.exitCode else 1;
      ok := exitCode == 0;
      if cmd.kind.Verify? {
        return ok, CommandResult(exitCode, Nothing, None);
      }
      return ok, CommandResult(exitCode, Nothing, Some(if ok then Bootstrapped else BootstrapStatus.Failed));
    }

    method ExecuteCommand(cmd: TenantCommand, c: Circumstance) returns (ok: bool, r: CommandResult)
      requires c.tokens.Hex() && StackState.Valid(stack.View())
      modifies this`inventory, stack
      ensures Executed(cmd, old(stack.View()), stack.View(), ok, r)
      ensures StackState.Valid(stack.View())
    {
      match cmd.kind
      case Provision => ok, r := HandleProvision(cmd, c);
      case Deprovision => ok, r := HandleDeprovision(cmd, c);
      case Start => ok, r := HandleRuntimeAction(cmd, c);
      case Stop => ok, r := HandleRuntimeAction(cmd, c);
      case Verify => ok, r := HandleLifecycle(cmd, c);
      case Bootstrap => ok, r := HandleLifecycle(cmd, c);
    }

    /** The control plane's tables, this worker's directory and its batch are those of the world w. */
    ghost predicate Shows(plane: TenantService.Service, agent: AgentId, batch: seq<nat>, w: Lifecycle.World)
      reads this, stack, plane, plane.table
    {
      && w.Db() == plane.View()
      && agent in w.stacks && agent in w.sys.daemons && w.stacks[agent] == stack.View()
      && w.sys.daemons[agent].report.None? && w.sys.daemons[agent].batch == batch
      && forall id :: id in batch ==> id < |plane.table.rows| && plane.table.rows[id].agent == agent
    }

    /** Executes the head of the batch and acks it; tells whether the ack was answered. */
    method HandleCommand(plane: TenantService.Service, agent: AgentId, batch: seq<nat>, c: Circumstance, now: int,
                         ghost w: Lifecycle.World)
      returns (answered: bool, ghost ws: seq<Lifecycle.World>, ghost es: seq<Lifecycle.Event>)
      requires plane.Valid() && batch != [] && Shows(plane, agent, batch, w)
      requires StackState.Valid(stack.View()) && c.tokens.Hex() && w.sys.clock <= now
      modifies this`inventory, stack, plane, plane.table
      ensures plane.Valid() && StackState.Valid(stack.View())
      ensures |es| == 2 && Lifecycle.Connected(ws, es) && ws[0] == w && ws[2].sys.clock == now
      ensures Shows(plane, agent, if answered then batch[1..] else [], ws[2])
    {
      var id := batch[0];
      assert id in batch && forall x :: x in batch[1..] ==> x in batch;
      var cmd := plane.table.rows[id].payload;
      var ok, r := ExecuteCommand(cmd, c);
      ws, es := Lifecycle.ExecuteAndAck(w, agent, ok, r, stack.View(), now, c.fate);
      if !c.fate.RequestLost? {
        var found := plane.AckCommand(agent, id, ok, r, now);
      }
      answered := c.fate.Answered?;
    }

    /** One cycle: poll, then execute and ack command after command, giving up on the first lost
        message. The joint state moves from w along a run of Lifecycle to the state afterwards. */
    method RunOnce(plane: TenantService.Service, agent: AgentId, interval: nat, docker: bool, now: int, replyLost: bool,
                   cs: seq<Circumstance>, ghost w: Lifecycle.World)
      returns (ghost ws: seq<Lifecycle.World>, ghost es: seq<Lifecycle.Event>)
      requires plane.Valid() && Shows(plane, agent, [], w) && StackState.Valid(stack.View())
      requires w.sys.daemons[agent].interval == interval && w.sys.clock <= now
      requires |PendingIds(plane.table.rows, agent)| <= |cs| && forall c :: c in cs ==> c.tokens.Hex()
      modifies this, stack, plane, plane.table
      ensures plane.Valid() && StackState.Valid(stack.View())
      ensures Lifecycle.Connected(ws, es) && ws[0] == w && Shows(plane, agent, [], ws[|es|])
    {
      dockerReachable := docker;
      PendingIdsExact(plane.table.rows, agent);
      var batch, expired := plane.table.DispatchCommands(agent, now, interval);
      ghost var cur;
      cur, ws, es := Lifecycle.PollAlone(w, agent, now, replyLost);
      if replyLost {
        return;
      }
      ghost var ws1, es1 := Drain(plane, agent, batch, now, cs, cur);
      Lifecycle.ConnectedAppend(ws, es, ws1, es1);
      ws, es := ws + ws1[1..], es + es1;
    }

    /** The commands of one batch, in order, up to the first ack that is not answered. */
    method Drain(plane: TenantService.Service, agent: AgentId, batch: seq<nat>, now: int, cs: seq<Circumstance>,
                 ghost w: Lifecycle.World)
      returns (ghost ws: seq<Lifecycle.World>, ghost es: seq<Lifecycle.Event>)
      requires plane.Valid() && Shows(plane, agent, batch, w) && StackState.Valid(stack.View())
      requires w.sys.clock == now && |batch| <= |cs| && forall c :: c in cs ==> c.tokens.Hex()
      modifies this`inventory, stack, plane, plane.table
      ensures plane.Valid() && StackState.Valid(stack.View())
      ensures Lifecycle.Connected(ws, es) && ws[0] == w && Shows(plane, agent, [], ws[|es|])
    {
      ghost var cur := w;
      ws, es := [w], [];
      var i := 0;
      while i < |batch|
        invariant 0 <= i <= |batch|
        invariant plane.Valid() && StackState.Valid(stack.View())
        invariant Lifecycle.Connected(ws, es) && ws[0] == w && ws[|es|] == cur
        invariant Shows(plane, agent, batch[i..], cur) && cur.sys.clock == now
      {
        assert cs[i] in cs && batch[i..][1..] == batch[i + 1..];
        var answered, ws1, es1 := HandleCommand(plane, agent, batch[i..], cs[i], now, cur);
        Lifecycle.ConnectedAppend(ws, es, ws1, es1);
        ws, es, cur := ws + ws1[1..], es + es1, ws1[2];
        if !answered {
          return;
        }
        i := i + 1;
      }
    }
  }
}
