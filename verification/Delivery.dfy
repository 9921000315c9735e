/** The polling protocol between the control plane and one daemon per agent, as a transition system.

    A daemon polls, executes its batch one command at a time and acks each before the next; a failed
    poll or ack raises and abandons the rest of the batch (agent_daemon/worker_daemon.py). Replies,
    acks and whole daemon processes may be lost at any point. */
module Delivery {
  import opened Options
  import opened Sequences
  import opened CommandQueue

  /** An executed command whose ack has not been answered yet. */
  datatype Report<+R> = Report(id: nat, ok: bool, result: R)

  /** One agent: its poll interval, what it still has to execute, and its history. */
  datatype Daemon<+R> = Daemon(
    interval: nat,
    batch: seq<nat>,
    report: Option<Report<R>>,
    delivered: seq<nat>,
    executed: seq<nat>)
  {
    predicate Idle() { batch == [] && report.None? }

    predicate Holds(id: nat) { id in batch || (report.Some? && report.value.id == id) }
  }

  datatype System<+P, +R> = System(clock: int, rows: seq<Command<P, R>>, daemons: map<AgentId, Daemon<R>>)

  datatype AckFate = Answered | RequestLost | ReplyLost

  datatype Event<+P, +R> =
    | Enqueue(agent: AgentId, payload: P)
    | Poll(agent: AgentId, now: int, replyLost: bool)
    | Execute(agent: AgentId, ok: bool, result: R)
    | Ack(agent: AgentId, now: int, fate: AckFate)
    | Crash(agent: AgentId)
  {
    predicate Lossless() {
      match this
      case Poll(_, _, replyLost) => !replyLost
      case Ack(_, _, fate) => fate.Answered?
      case Crash(_) => false
      case _ => true
    }
  }

  predicate Init<P, R>(s: System<P, R>) {
    s.rows == [] &&
    forall a :: a in s.daemons ==>
      s.daemons[a].Idle() && s.daemons[a].delivered == [] && s.daemons[a].executed == []
  }

  predicate Enabled<P, R>(s: System<P, R>, e: Event<P, R>) {
    e.agent in s.daemons &&
    var d := s.daemons[e.agent];
    match e
    case Enqueue(_, _) => true
    case Poll(_, now, _) => d.Idle() && s.clock <= now
    case Execute(_, _, _) => d.report.None? && d.batch != []
    case Ack(_, now, _) => d.report.Some? && d.report.value.id < |s.rows| && s.clock <= now
    case Crash(_) => true
  }

  function Apply<P, R>(s: System<P, R>, e: Event<P, R>): (s': System<P, R>)
    requires Enabled(s, e)
  {
    var d := s.daemons[e.agent];
    match e
    case Enqueue(agent, payload) =>
      s.(rows := s.rows + [NewCommand(agent, payload)])
    case Poll(agent, now, replyLost) =>
      var ids := PendingIds(s.rows, agent);
      var d' := if replyLost then d else d.(batch := ids, delivered := d.delivered + ids);
      System(now, AfterPoll(s.rows, agent, now, d.interval), s.daemons[agent := d'])
    case Execute(agent, ok, result) =>
      var d' := d.(batch := d.batch[1..], report := Some(Report(d.batch[0], ok, result)),
                   executed := d.executed + [d.batch[0]]);
      s.(daemons := s.daemons[agent := d'])
    case Ack(agent, now, fate) =>
      var r := d.report.value;
      var rows := if fate.RequestLost? then s.rows else AfterAck(s.rows, r.id, r.ok, r.result, now);
      var d' := d.(report := None, batch := if fate.Answered? then d.batch else []);
      System(now, rows, s.daemons[agent := d'])
    case Crash(agent) =>
      s.(daemons := s.daemons[agent := d.(batch := [], report := None)])
  }

  // ----- What every step keeps -----

  /** Executed plus still-to-execute commands are distinct delivered ones, in creation order. */
  ghost predicate DaemonInv<P, R>(rows: seq<Command<P, R>>, a: AgentId, d: Daemon<R>) {
    && Increasing(d.delivered)
    && Increasing(d.executed + d.batch)
    && (forall id :: id in d.executed || id in d.batch ==> id in d.delivered)
    && (forall id :: id in d.delivered ==> id < |rows| && rows[id].agent == a && !rows[id].state.Pending?)
    && (forall id, j :: id in d.delivered && 0 <= j < |rows| && IsPending(rows[j], a) ==> id < j)
    && (d.report.Some? ==> d.report.value.id in d.executed && d.report.value.id !in d.batch)
    && (forall id: nat :: d.Holds(id) ==> id < |rows| && rows[id].state.Dispatched?)
  }

  ghost predicate RowInv<P, R>(s: System<P, R>, i: nat)
    requires i < |s.rows|
  {
    && s.rows[i].agent in s.daemons
    && (s.rows[i].state.Dispatched? ==> s.rows[i].dispatchedAt.Some?)
    && (s.rows[i].state.InFlight() ==> s.rows[i].ackedAt.None? && s.rows[i].result.None?)
    && (s.rows[i].state.Acked? ==> s.rows[i].ackedAt.Some? && s.rows[i].result.Some?)
    && (s.rows[i].ackedAt.None? ==> s.rows[i].result.None?)
  }

  ghost predicate Inv<P, R>(s: System<P, R>) {
    && (forall i :: 0 <= i < |s.rows| ==> RowInv(s, i))
    && (forall a :: a in s.daemons ==> DaemonInv(s.rows, a, s.daemons[a]))
  }

  lemma InitInv<P, R>(s: System<P, R>)
    requires Init(s)
    ensures Inv(s)
  {
  }

  /** The rows may change under a daemon that is not involved, as long as its commands stay put. */
  lemma DaemonInvFrame<P, R>(rows: seq<Command<P, R>>, rows': seq<Command<P, R>>, a: AgentId, d: Daemon<R>)
    requires DaemonInv(rows, a, d)
    requires |rows| <= |rows'|
    requires forall i :: 0 <= i < |rows| ==> rows'[i].agent == rows[i].agent
    requires forall i :: 0 <= i < |rows| && rows[i].agent == a ==> rows'[i] == rows[i]
    ensures DaemonInv(rows', a, d)
  {
  }

  lemma PollKeepsDaemon<P, R>(s: System<P, R>, a: AgentId, now: int, replyLost: bool)
    requires Inv(s) && Enabled(s, Poll(a, now, replyLost))
    ensures var s' := Apply(s, Poll(a, now, replyLost)); DaemonInv(s'.rows, a, s'.daemons[a])
  {
    var d := s.daemons[a];
    var ids := PendingIds(s.rows, a);
    PendingIdsExact(s.rows, a);
    var rows' := AfterPoll(s.rows, a, now, d.interval);
    assert forall j :: 0 <= j < |rows'| ==> !IsPending(rows'[j], a);
    if !replyLost {
      IncreasingAppend(d.delivered, ids);
      IncreasingParts(d.executed, d.batch);
      IncreasingAppend(d.executed, ids);
    }
  }

  lemma ExecuteKeepsDaemon<P, R>(rows: seq<Command<P, R>>, a: AgentId, d: Daemon<R>, r: Report<R>)
    requires DaemonInv(rows, a, d) && d.report.None? && d.batch != [] && r.id == d.batch[0]
    ensures DaemonInv(rows, a, d.(batch := d.batch[1..], report := Some(r), executed := d.executed + [r.id]))
  {
    var rest := d.batch[1..];
    assert d.batch == [r.id] + rest;
    assert (d.executed + [r.id]) + rest == d.executed + d.batch;
    IncreasingParts(d.executed, d.batch);
    IncreasingParts([r.id], rest);
  }

  /** Dropping the report, and perhaps the batch, leaves the history intact. */
  lemma DropKeepsDaemon<P, R>(rows: seq<Command<P, R>>, a: AgentId, d: Daemon<R>, batch: seq<nat>)
    requires DaemonInv(rows, a, d) && (batch == d.batch || batch == [])
    ensures DaemonInv(rows, a, d.(batch := batch, report := None))
  {
    IncreasingParts(d.executed, d.batch);
    assert d.executed + [] == d.executed;
  }

  lemma AckKeepsDaemon<P, R>(rows: seq<Command<P, R>>, a: AgentId, d: Daemon<R>, now: int, batch: seq<nat>)
    requires DaemonInv(rows, a, d) && d.report.Some? && (batch == d.batch || batch == [])
    ensures var r := d.report.value;
            DaemonInv(AfterAck(rows, r.id, r.ok, r.result, now), a, d.(batch := batch, report := None))
  {
    DropKeepsDaemon(rows, a, d, batch);
    var r := d.report.value;
    var rows' := AfterAck(rows, r.id, r.ok, r.result, now);
    assert forall j :: 0 <= j < |rows'| && IsPending(rows'[j], a) ==> IsPending(rows[j], a);
  }

  lemma EnqueueKeepsDaemon<P, R>(rows: seq<Command<P, R>>, a: AgentId, d: Daemon<R>, c: Command<P, R>)
    requires DaemonInv(rows, a, d)
    ensures DaemonInv(rows + [c], a, d)
  {
  }

  /** A step touches only rows of its own agent, and never a row's agent. */
  lemma StepFrame<P, R>(s: System<P, R>, e: Event<P, R>)
    requires Inv(s) && Enabled(s, e)
    ensures var rows' := Apply(s, e).rows;
            && |s.rows| <= |rows'|
            && (forall i :: 0 <= i < |s.rows| ==> rows'[i].agent == s.rows[i].agent)
            && (forall i :: 0 <= i < |s.rows| && s.rows[i].agent != e.agent ==> rows'[i] == s.rows[i])
  {
    if e.Ack? { assert DaemonInv(s.rows, e.agent, s.daemons[e.agent]); }
  }

  lemma StepKeepsJob<P, R>(s: System<P, R>, e: Event<P, R>, i: nat)
    requires Enabled(s, e) && i < |s.rows|
    ensures var rows' := Apply(s, e).rows;
            i < |rows'| && rows'[i].agent == s.rows[i].agent && rows'[i].payload == s.rows[i].payload
  {
  }

  lemma StepKeepsRows<P, R>(s: System<P, R>, e: Event<P, R>, i: nat)
    requires Inv(s) && Enabled(s, e) && i < |Apply(s, e).rows|
    ensures RowInv(Apply(s, e), i)
  {
    if i < |s.rows| { assert RowInv(s, i); }
  }

  lemma StepKeepsOwnDaemon<P, R>(s: System<P, R>, e: Event<P, R>)
    requires Inv(s) && Enabled(s, e)
    ensures var s' := Apply(s, e); DaemonInv(s'.rows, e.agent, s'.daemons[e.agent])
  {
    var d := s.daemons[e.agent];
    match e
    case Enqueue(agent, payload) => EnqueueKeepsDaemon(s.rows, agent, d, NewCommand(agent, payload));
    case Poll(agent, now, replyLost) => PollKeepsDaemon(s, agent, now, replyLost);
    case Execute(agent, ok, result) => ExecuteKeepsDaemon(s.rows, agent, d, Report(d.batch[0], ok, result));
    case Ack(agent, now, fate) =>
      var batch := if fate.Answered? then d.batch else [];
      if fate.RequestLost? { DropKeepsDaemon(s.rows, agent, d, batch); } else { AckKeepsDaemon(s.rows, agent, d, now, batch); }
    case Crash(agent) => DropKeepsDaemon(s.rows, agent, d, []);
  }

  lemma StepKeepsInv<P, R>(s: System<P, R>, e: Event<P, R>)
    requires Inv(s) && Enabled(s, e)
    ensures Inv(Apply(s, e))
  {
    var s' := Apply(s, e);
    forall i | 0 <= i < |s'.rows| ensures RowInv(s', i) {
      StepKeepsRows(s, e, i);
    }
    StepKeepsOwnDaemon(s, e);
    StepFrame(s, e);
    forall a | a in s'.daemons && a != e.agent ensures DaemonInv(s'.rows, a, s'.daemons[a]) {
      if e.Enqueue? { EnqueueKeepsDaemon(s.rows, a, s.daemons[a], NewCommand(e.agent, e.payload)); }
      else { DaemonInvFrame(s.rows, s'.rows, a, s.daemons[a]); }
    }
  }

  // ----- Runs -----

  predicate Valid<P, R>(s: System<P, R>, es: seq<Event<P, R>>)
    decreases |es|, 0
  {
    es == [] || (Valid(s, es[..|es| - 1]) && Enabled(Run(s, es[..|es| - 1]), es[|es| - 1]))
  }

  function Run<P, R>(s: System<P, R>, es: seq<Event<P, R>>): System<P, R>
    requires Valid(s, es)
    decreases |es|, 1
  {
    if es == [] then s else Apply(Run(s, es[..|es| - 1]), es[|es| - 1])
  }

  lemma {:induction false} RunKeepsInv<P, R>(s: System<P, R>, es: seq<Event<P, R>>)
    requires Inv(s) && Valid(s, es)
    ensures Inv(Run(s, es))
  {
    if es != [] {
      RunKeepsInv(s, es[..|es| - 1]);
      StepKeepsInv(Run(s, es[..|es| - 1]), es[|es| - 1]);
    }
  }

  // ----- At most once, in creation order -----

  /** Whatever is lost, an agent is handed each of its own commands at most once and in creation
      order, and executes a command at most once, in that order, and only if it was handed out. */
  lemma DeliveredOnceInCreationOrder<P, R>(s: System<P, R>, es: seq<Event<P, R>>, a: AgentId)
    requires Init(s) && Valid(s, es) && a in Run(s, es).daemons
    ensures var s' := Run(s, es); var d := s'.daemons[a];
            && Increasing(d.delivered) && Increasing(d.executed)
            && (forall id :: id in d.executed ==> id in d.delivered)
            && (forall id :: id in d.delivered ==> id < |s'.rows| && s'.rows[id].agent == a)
  {
    InitInv(s);
    RunKeepsInv(s, es);
    var d := Run(s, es).daemons[a];
    assert DaemonInv(Run(s, es).rows, a, d);
    IncreasingParts(d.executed, d.batch);
  }

  /** A command only ever goes pending, dispatched, settled; once settled its row is final. */
  ghost predicate Forward<P, R>(c: Command<P, R>, c': Command<P, R>) {
    && c'.agent == c.agent && c'.payload == c.payload
    && (c.state.Settled() ==> c' == c)
    && (c.state.Dispatched? ==> !c'.state.Pending? && c'.dispatchedAt == c.dispatchedAt)
  }

  lemma StepMovesForward<P, R>(s: System<P, R>, e: Event<P, R>, i: nat)
    requires Inv(s) && Enabled(s, e) && i < |s.rows|
    ensures i < |Apply(s, e).rows| && Forward(s.rows[i], Apply(s, e).rows[i])
    ensures s.rows[i].state.Pending? && !Apply(s, e).rows[i].state.Pending? ==> Apply(s, e).rows[i].state.Dispatched?
  {
    if e.Ack? {
      var d := s.daemons[e.agent];
      assert DaemonInv(s.rows, e.agent, d) && d.Holds(d.report.value.id);
    }
  }

  lemma {:induction false} CommandsMoveForward<P, R>(s: System<P, R>, es: seq<Event<P, R>>)
    requires Inv(s) && Valid(s, es)
    ensures |s.rows| <= |Run(s, es).rows|
    ensures forall i :: 0 <= i < |s.rows| ==> Forward(s.rows[i], Run(s, es).rows[i])
  {
    if es != [] {
      var before := es[..|es| - 1];
      CommandsMoveForward(s, before);
      RunKeepsInv(s, before);
      StepFrame(Run(s, before), es[|es| - 1]);
      forall i | 0 <= i < |s.rows| ensures Forward(s.rows[i], Run(s, es).rows[i]) {
        assert Forward(s.rows[i], Run(s, before).rows[i]);
        StepMovesForward(Run(s, before), es[|es| - 1], i);
      }
    }
  }

  /** Every ack that reaches the server finds its command still dispatched, hence takes effect. */
  lemma AckFindsDispatchedCommand<P, R>(s: System<P, R>, es: seq<Event<P, R>>, a: AgentId)
    requires Init(s) && Valid(s, es) && a in Run(s, es).daemons && Run(s, es).daemons[a].report.Some?
    ensures var s' := Run(s, es); var id := s'.daemons[a].report.value.id;
            id < |s'.rows| && s'.rows[id].agent == a && s'.rows[id].state.Dispatched?
  {
    InitInv(s);
    RunKeepsInv(s, es);
    var d := Run(s, es).daemons[a];
    assert DaemonInv(Run(s, es).rows, a, d) && d.Holds(d.report.value.id);
  }

  // ----- Expiry -----

  ghost predicate Expired<P, R>(c: Command<P, R>) {
    c.state.Failed? && c.ackedAt.None?
  }

  /** While nothing is lost, a dispatched command is always one its daemon still holds. */
  ghost predicate Tracked<P, R>(s: System<P, R>, i: nat)
    requires i < |s.rows|
  {
    !s.rows[i].state.Pending? ==>
      var a := s.rows[i].agent;
      && a in s.daemons && i in s.daemons[a].delivered
      && (s.rows[i].state.Dispatched? ==> s.daemons[a].Holds(i))
      && !Expired(s.rows[i])
  }

  ghost predicate LosslessInv<P, R>(s: System<P, R>) {
    && (forall i :: 0 <= i < |s.rows| ==> Tracked(s, i))
    && (forall a :: a in s.daemons ==> s.daemons[a].delivered == s.daemons[a].executed + s.daemons[a].batch)
  }

  lemma LosslessPoll<P, R>(s: System<P, R>, e: Event<P, R>, i: nat)
    requires Inv(s) && LosslessInv(s) && Enabled(s, e) && e.Poll? && !e.replyLost && i < |s.rows|
    ensures Tracked(Apply(s, e), i)
  {
    assert Tracked(s, i) && RowInv(s, i);
    PendingIdsExact(s.rows, e.agent);
    assert !s.daemons[e.agent].Holds(i);
  }

  lemma LosslessAck<P, R>(s: System<P, R>, e: Event<P, R>, i: nat)
    requires Inv(s) && LosslessInv(s) && Enabled(s, e) && e.Ack? && e.fate.Answered? && i < |s.rows|
    ensures Tracked(Apply(s, e), i)
  {
    assert Tracked(s, i) && RowInv(s, i);
    var d := s.daemons[e.agent];
    assert DaemonInv(s.rows, e.agent, d) && d.Holds(d.report.value.id);
    assert forall id: nat :: d.Holds(id) && id != d.report.value.id ==> d.(report := None).Holds(id);
  }

  lemma LosslessExecute<P, R>(s: System<P, R>, e: Event<P, R>, i: nat)
    requires LosslessInv(s) && Enabled(s, e) && e.Execute? && i < |s.rows|
    ensures Tracked(Apply(s, e), i)
  {
    assert Tracked(s, i);
    var d := s.daemons[e.agent];
    assert d.batch == [d.batch[0]] + d.batch[1..];
  }

  lemma LosslessHistory<P, R>(s: System<P, R>, e: Event<P, R>)
    requires LosslessInv(s) && Enabled(s, e) && e.Lossless()
    ensures var d := Apply(s, e).daemons[e.agent]; d.delivered == d.executed + d.batch
  {
    var d := s.daemons[e.agent];
    if e.Execute? { assert d.batch == [d.batch[0]] + d.batch[1..]; }
  }

  lemma LosslessStep<P, R>(s: System<P, R>, e: Event<P, R>)
    requires Inv(s) && LosslessInv(s) && Enabled(s, e) && e.Lossless()
    ensures LosslessInv(Apply(s, e))
  {
    var s' := Apply(s, e);
    LosslessHistory(s, e);
    forall i | 0 <= i < |s'.rows| ensures Tracked(s', i) {
      if i < |s.rows| {
        assert Tracked(s, i);
        match e
        case Poll(_, _, _) => LosslessPoll(s, e, i);
        case Ack(_, _, _) => LosslessAck(s, e, i);
        case Execute(_, _, _) => LosslessExecute(s, e, i);
        case _ =>
      }
    }
  }

  lemma {:induction false} LosslessRun<P, R>(s: System<P, R>, es: seq<Event<P, R>>)
    requires Init(s) && Valid(s, es) && forall e :: e in es ==> e.Lossless()
    ensures LosslessInv(Run(s, es))
  {
    if es != [] {
      var before := es[..|es| - 1];
      LosslessRun(s, before);
      InitInv(s);
      RunKeepsInv(s, before);
      LosslessStep(Run(s, before), es[|es| - 1]);
    }
  }

  /** If no message is lost, no command expires, however slowly the daemons work; and an idle daemon
      has executed, and the server has settled, every command that ever left the queue. */
  lemma NoLossNoExpiry<P, R>(s: System<P, R>, es: seq<Event<P, R>>)
    requires Init(s) && Valid(s, es) && forall e :: e in es ==> e.Lossless()
    ensures var s' := Run(s, es);
            forall i :: 0 <= i < |s'.rows| && !s'.rows[i].state.Pending? ==>
              && !Expired(s'.rows[i])
              && s'.rows[i].agent in s'.daemons
              && (s'.daemons[s'.rows[i].agent].Idle() ==>
                    s'.rows[i].state.Settled() && i in s'.daemons[s'.rows[i].agent].executed)
  {
    LosslessRun(s, es);
    var s' := Run(s, es);
    forall i | 0 <= i < |s'.rows| && !s'.rows[i].state.Pending?
      ensures && !Expired(s'.rows[i])
              && s'.rows[i].agent in s'.daemons
              && (s'.daemons[s'.rows[i].agent].Idle() ==>
                    s'.rows[i].state.Settled() && i in s'.daemons[s'.rows[i].agent].executed)
    {
      assert Tracked(s', i);
    }
  }

  /** All that can happen to a command in one step (a dispatched one has a time of dispatch): a poll of its agent hands it out if it is pending, and
      fails it if it was handed out more than two intervals ago; its own ack settles it with the result. */
  lemma WhatHappensToACommand<P, R>(s: System<P, R>, e: Event<P, R>, i: nat)
    requires Inv(s) && Enabled(s, e) && i < |s.rows|
    ensures i < |Apply(s, e).rows|
    ensures var c, d := s.rows[i], s.daemons[e.agent];
            Apply(s, e).rows[i] ==
            if e.Poll? && e.agent == c.agent && c.state.Pending? then c.(state := Dispatched, dispatchedAt := Some(e.now))
            else if e.Poll? && e.agent == c.agent && c.state.Dispatched? && c.dispatchedAt.GetOr(0) + 2 * d.interval < e.now
            then c.(state := Failed)
            else if e.Ack? && !e.fate.RequestLost? && d.report.value.id == i
            then c.(state := if d.report.value.ok then Acked else Failed, result := Some(d.report.value.result),
                    ackedAt := Some(e.now))
            else c
  {
    assert RowInv(s, i);
    if e.Ack? {
      var d := s.daemons[e.agent];
      assert DaemonInv(s.rows, e.agent, d) && d.Holds(d.report.value.id);
    }
  }

  /** In every run a command expires exactly in a poll of its agent that comes more than two poll
      intervals after the one that handed it out. */
  lemma ExpiresExactlyWhen<P, R>(s: System<P, R>, es: seq<Event<P, R>>, e: Event<P, R>, i: nat)
    requires Init(s) && Valid(s, es) && Enabled(Run(s, es), e) && i < |Run(s, es).rows|
    ensures var m := Run(s, es); var c := m.rows[i];
            i < |Apply(m, e).rows| &&
            (Expired(Apply(m, e).rows[i]) && !Expired(c) <==>
             && e.Poll? && e.agent == c.agent && c.state == Dispatched && c.dispatchedAt.Some?
             && e.now - c.dispatchedAt.value > 2 * m.daemons[e.agent].interval)
  {
    InitInv(s);
    RunKeepsInv(s, es);
    var m := Run(s, es);
    assert RowInv(m, i);
    WhatHappensToACommand(m, e, i);
  }

  /** Whatever happened before, right after a poll the agent has no command dispatched more than two
      intervals ago, and no pending one either. */
  lemma PollLeavesFreshCommands<P, R>(s: System<P, R>, es: seq<Event<P, R>>, a: AgentId, now: int, replyLost: bool)
    requires Init(s) && Valid(s, es) && Enabled(Run(s, es), Poll(a, now, replyLost))
    ensures var s' := Apply(Run(s, es), Poll(a, now, replyLost));
            forall i :: 0 <= i < |s'.rows| && s'.rows[i].agent == a ==>
              && !s'.rows[i].state.Pending?
              && (s'.rows[i].state.Dispatched? ==>
                    s'.rows[i].dispatchedAt.Some? && s'.rows[i].dispatchedAt.value + 2 * s'.daemons[a].interval >= now)
  {
    InitInv(s);
    RunKeepsInv(s, es);
    var m := Run(s, es);
    var s' := Apply(m, Poll(a, now, replyLost));
    forall i | 0 <= i < |s'.rows| && s'.rows[i].agent == a
      ensures !s'.rows[i].state.Pending?
      ensures s'.rows[i].state.Dispatched? ==>
                s'.rows[i].dispatchedAt.Some? && s'.rows[i].dispatchedAt.value + 2 * s'.daemons[a].interval >= now
    {
      assert RowInv(m, i);
    }
  }

  /** An ack for a command that has expired, or was acked before, changes no row. */
  lemma LateAckChangesNothing<P, R>(rows: seq<Command<P, R>>, id: nat, ok: bool, result: R, now: int)
    requires id < |rows|
    ensures AfterAck(rows, id, ok, result, now) == rows <==> (rows[id].state.Settled())
  {
  }
}
