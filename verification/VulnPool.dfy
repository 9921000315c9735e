/** The agent's pool of background vulnerability scans (agent_daemon/vuln_worker.py), at the grain of its
    lock: the scheduling part of a tick and the discard at the end of a job are single steps, and
    everything else interleaves freely. */
module VulnPool {
  import opened Options
  import opened Sequences
  import opened EnvFile

  datatype Item = Item(jobId: string, ip: string)

  predicate Wellformed(item: Item) { item.jobId != "" && Strip(item.ip) != "" }

  function Ids(items: seq<Item>): (ids: seq<string>)
    ensures |ids| == |items|
  {
    seq(|items|, i requires 0 <= i < |items| => items[i].jobId)
  }

  ghost predicate Distinct<T>(s: seq<T>) {
    forall i, j :: 0 <= i < j < |s| ==> s[i] != s[j]
  }

  predicate Takes(item: Item, active: set<string>, chosen: seq<Item>) {
    Wellformed(item) && item.jobId !in active && item.jobId !in Ids(chosen)
  }

  /** The items a tick takes among the first n of the queue, in order, while places are left. */
  function ChosenOf(items: seq<Item>, n: nat, active: set<string>, available: int): seq<Item>
    requires n <= |items|
  {
    if n == 0 then []
    else
      var before := ChosenOf(items, n - 1, active, available);
      if |before| < available && Takes(items[n - 1], active, before) then before + [items[n - 1]] else before
  }

  function Chosen(items: seq<Item>, active: set<string>, available: int): seq<Item> {
    ChosenOf(items, |items|, active, available)
  }

  lemma {:induction false} ChosenOfIsRight(items: seq<Item>, n: nat, active: set<string>, available: int)
    requires n <= |items|
    ensures var chosen := ChosenOf(items, n, active, available); var ids := Ids(chosen);
            && Distinct(ids)
            && (forall x :: x in chosen ==> x in items && Wellformed(x) && x.jobId !in active)
            && |chosen| <= (if available > 0 then available else 0)
            && (|chosen| < available ==>
                  forall i :: 0 <= i < n && Wellformed(items[i]) ==> items[i].jobId in active || items[i].jobId in ids)
  {
    if n > 0 {
      var before := ChosenOf(items, n - 1, active, available);
      ChosenOfIsRight(items, n - 1, active, available);
      assert Ids(before + [items[n - 1]]) == Ids(before) + [items[n - 1].jobId];
    }
  }

  /** What a tick takes is new, without repeats, within the free places, and all it could take: if places
      are left over, every well-formed item is in progress. */
  lemma ChosenIsRight(items: seq<Item>, active: set<string>, available: int)
    ensures var chosen := Chosen(items, active, available); var ids := Ids(chosen);
            && Distinct(ids)
            && (forall x :: x in chosen ==> x in items && Wellformed(x) && x.jobId !in active)
            && |chosen| <= (if available > 0 then available else 0)
            && (|chosen| < available ==> forall x :: x in items && Wellformed(x) ==> x.jobId in active || x.jobId in ids)
  {
    ChosenOfIsRight(items, |items|, active, available);
  }

  /** A usable item is passed over only when items before it fill the places. */
  lemma {:induction false} EarlierItemsFirst(items: seq<Item>, n: nat, active: set<string>, available: int, i: nat)
    requires i < n <= |items| && Wellformed(items[i]) && items[i].jobId !in active
    requires items[i].jobId !in Ids(ChosenOf(items, n, active, available))
    ensures |ChosenOf(items, n, active, available)| >= available
    ensures forall x :: x in ChosenOf(items, n, active, available) ==> x in items[..i]
    decreases n
  {
    var before := ChosenOf(items, n - 1, active, available);
    assert Ids(before + [items[n - 1]]) == Ids(before) + [items[n - 1].jobId];
    if i < n - 1 {
      EarlierItemsFirst(items, n - 1, active, available, i);
    } else {
      ChosenOfIsEarlier(items, i, active, available);
    }
  }

  lemma {:induction false} ChosenOfIsEarlier(items: seq<Item>, n: nat, active: set<string>, available: int)
    requires n <= |items|
    ensures forall x :: x in ChosenOf(items, n, active, available) ==> x in items[..n]
  {
    if n > 0 {
      ChosenOfIsEarlier(items, n - 1, active, available);
      assert items[..n] == items[..n - 1] + [items[n - 1]];
    }
  }

  /** The queue is served from the front: a usable item is left out only when the items taken all stand
      before it and use up the free places. */
  lemma QueueIsServedInOrder(items: seq<Item>, active: set<string>, available: int, i: nat)
    requires i < |items| && Wellformed(items[i]) && items[i].jobId !in active
    requires items[i].jobId !in Ids(Chosen(items, active, available))
    ensures |Chosen(items, active, available)| >= available
    ensures forall x :: x in Chosen(items, active, available) ==> x in items[..i]
  {
    EarlierItemsFirst(items, |items|, active, available, i);
  }

  /** Once the places are used up, the rest of the queue makes no difference. */
  lemma {:induction false} FullStaysFull(items: seq<Item>, i: nat, n: nat, active: set<string>, available: int)
    requires i <= n <= |items| && |ChosenOf(items, i, active, available)| >= available
    ensures ChosenOf(items, n, active, available) == ChosenOf(items, i, active, available)
    decreases n
  {
    if i < n { FullStaysFull(items, i, n - 1, active, available); }
  }

  /** The jobs in progress once these items have been taken. */
  function Busy(active: set<string>, chosen: seq<Item>): set<string> {
    active + Elements(Ids(chosen))
  }

  /** The state of the scheduling loop after it has looked at n items. */
  ghost predicate Looked(items: seq<Item>, n: nat, active: set<string>, available: int, taken: seq<Item>, busy: set<string>)
    requires n <= |items|
  {
    taken == ChosenOf(items, n, active, available) && busy == Busy(active, taken)
  }

  lemma LookAtNext(items: seq<Item>, n: nat, active: set<string>, available: int, taken: seq<Item>, busy: set<string>)
    requires n < |items| && Looked(items, n, active, available, taken, busy) && |taken| < available
    ensures if Wellformed(items[n]) && items[n].jobId !in busy
            then Looked(items, n + 1, active, available, taken + [items[n]], busy + {items[n].jobId})
            else Looked(items, n + 1, active, available, taken, busy)
  {
    assert Ids(taken + [items[n]]) == Ids(taken) + [items[n].jobId];
  }

  lemma DoneLooking(items: seq<Item>, n: nat, active: set<string>, available: int, taken: seq<Item>, busy: set<string>)
    requires n <= |items| && Looked(items, n, active, available, taken, busy)
    requires n == |items| || |taken| >= available
    ensures taken == Chosen(items, active, available) && busy == Busy(active, taken)
  {
    if n < |items| { FullStaysFull(items, n, |items|, active, available); }
  }

  class VulnWorkerPool {
    const maxWorkers: nat
    var activeJobs: set<string>

    constructor (maxWorkers: int)
      ensures this.maxWorkers == (if maxWorkers > 1 then maxWorkers else 1) && activeJobs == {}
    {
      this.maxWorkers := if maxWorkers > 1 then maxWorkers else 1;
      activeJobs := {};
    }

    /** The locked part of tick. A missing or zero worker limit means the pool's own size. */
    method Schedule(parallelWorkers: int, targets: seq<Item>) returns (toSchedule: seq<Item>)
      modifies this
      ensures toSchedule == Chosen(targets, old(activeJobs), Limit(parallelWorkers, maxWorkers) - |old(activeJobs)|)
      ensures activeJobs == Busy(old(activeJobs), toSchedule)
    {
      var limit := if parallelWorkers != 0 then parallelWorkers else maxWorkers;
      var available := if limit - |activeJobs| > 0 then limit - |activeJobs| else 0;
      ghost var active, free := activeJobs, Limit(parallelWorkers, maxWorkers) - |activeJobs|;
      toSchedule := [];
      var i := 0;
      while i < |targets|
        invariant 0 <= i <= |targets|
        invariant Looked(targets, i, active, free, toSchedule, activeJobs)
        invariant available == (if free > 0 then free else 0) - |toSchedule|
        invariant active == old(activeJobs) && free == Limit(parallelWorkers, maxWorkers) - |active|
      {
        if available <= 0 {
          break;
        }
        LookAtNext(targets, i, active, free, toSchedule, activeJobs);
        var item := targets[i];
        i := i + 1;
        if item.jobId == "" || Strip(item.ip) == "" {
          continue;
        }
        if item.jobId in activeJobs {
          continue;
        }
        activeJobs := activeJobs + {item.jobId};
        toSchedule := toSchedule + [item];
        available := available - 1;
      }
      DoneLooking(targets, i, active, free, toSchedule, activeJobs);
    }

    /** The locked end of a job, reached whether or not the scan or its report failed. */
    method Discard(jobId: string)
      modifies this
      ensures activeJobs == old(activeJobs) - {jobId}
    {
      activeJobs := activeJobs - {jobId};
    }
  }

  function Limit(parallelWorkers: int, maxWorkers: nat): int {
    if parallelWorkers != 0 then parallelWorkers else maxWorkers
  }

  // ----- Interleavings -----

  /** The shared set, where each job in progress is, and what has happened so far. */
  datatype Pool = Pool(
    maxWorkers: nat,
    active: set<string>,
    toSubmit: seq<Item>,
    queued: seq<Item>,
    running: seq<Item>,
    highest: int,
    scheduled: seq<string>,
    finished: seq<string>)
  {
    function InProgress(): seq<Item> { toSubmit + queued + running }
  }

  datatype Event =
    | Tick(parallelWorkers: int, targets: seq<Item>)
    | Submit
    | Start
    | Finish(i: nat)

  predicate Enabled(p: Pool, e: Event) {
    match e
    case Tick(_, _) => true
    case Submit => p.toSubmit != []
    case Start => p.queued != [] && |p.running| < p.maxWorkers
    case Finish(i) => i < |p.running|
  }

  function Remove<T>(s: seq<T>, i: nat): seq<T>
    requires i < |s|
  {
    s[..i] + s[i + 1..]
  }

  function Larger(a: int, b: int): int { if a >= b then a else b }

  function Taken(p: Pool, chosen: seq<Item>, limit: int): Pool {
    p.(active := p.active + Elements(Ids(chosen)), toSubmit := p.toSubmit + chosen,
       highest := Larger(p.highest, limit), scheduled := p.scheduled + Ids(chosen))
  }

  /** A tick with no targets returns before it takes the lock. */
  function Apply(p: Pool, e: Event): Pool
    requires Enabled(p, e)
  {
    match e
    case Tick(parallelWorkers, targets) =>
      var limit := Limit(parallelWorkers, p.maxWorkers);
      Taken(p, Chosen(targets, p.active, limit - |p.active|), limit)
    case Submit => p.(toSubmit := p.toSubmit[1..], queued := p.queued + [p.toSubmit[0]])
    case Start => p.(queued := p.queued[1..], running := p.running + [p.queued[0]])
    case Finish(i) =>
      p.(running := Remove(p.running, i), active := p.active - {p.running[i].jobId},
         finished := p.finished + [p.running[i].jobId])
  }

  predicate Init(p: Pool) {
    && p.active == {} && p.toSubmit == [] && p.queued == [] && p.running == []
    && p.highest == 0 && p.scheduled == [] && p.finished == []
  }

  function Jobs(items: seq<Item>): multiset<string> { multiset(Ids(items)) }

  ghost predicate Inv(p: Pool) {
    && multiset(p.active) == Jobs(p.toSubmit) + Jobs(p.queued) + Jobs(p.running)
    && multiset(p.scheduled) == multiset(p.finished) + multiset(p.active)
    && |p.active| <= Larger(p.highest, 0)
    && |p.running| <= p.maxWorkers
  }

  lemma JobsAdd(a: seq<Item>, b: seq<Item>)
    ensures Ids(a + b) == Ids(a) + Ids(b)
    ensures Jobs(a + b) == Jobs(a) + Jobs(b)
  {
  }

  lemma {:induction false} DistinctCounts<T>(s: seq<T>)
    requires Distinct(s)
    ensures multiset(s) == multiset(Elements(s)) && |Elements(s)| == |s|
  {
    if s != [] {
      var front, last := s[..|s| - 1], s[|s| - 1];
      assert s == front + [last];
      DistinctCounts(front);
      assert last !in front;
      assert Elements(s) == Elements(front) + {last};
    }
  }

  lemma RepeatCounts<T>(s: seq<T>, i: nat, j: nat)
    requires i < j < |s| && s[i] == s[j]
    ensures multiset(s)[s[i]] >= 2
  {
    var a, b := s[..j], s[j..];
    assert s == a + b;
    assert a[i] == s[i] && b[0] == s[i];
    assert s[i] in a && s[i] in b;
  }

  lemma CountsDistinct<T>(s: seq<T>, a: set<T>)
    requires multiset(a) == multiset(s)
    ensures Distinct(s) && a == Elements(s)
  {
    forall x ensures x in a <==> x in Elements(s) { assert x in a <==> x in multiset(s); }
    forall i, j | 0 <= i < j < |s| && s[i] == s[j] ensures false { RepeatCounts(s, i, j); }
  }

  lemma MovedHead(a: seq<Item>)
    requires a != []
    ensures Jobs(a) == Jobs([a[0]]) + Jobs(a[1..])
  {
    JobsAdd([a[0]], a[1..]);
    assert a == [a[0]] + a[1..];
  }

  lemma Removed(s: seq<Item>, i: nat)
    requires i < |s|
    ensures Jobs(s) == Jobs(Remove(s, i)) + multiset{s[i].jobId}
  {
    assert s == s[..i] + [s[i]] + s[i + 1..];
    JobsAdd(s[..i] + [s[i]], s[i + 1..]);
    JobsAdd(s[..i], [s[i]]);
    JobsAdd(s[..i], s[i + 1..]);
    assert Ids([s[i]]) == [s[i].jobId];
  }

  /** Distinct new jobs count once each. */
  lemma NewJobs(active: set<string>, chosen: seq<Item>)
    requires Distinct(Ids(chosen)) && forall x :: x in chosen ==> x.jobId !in active
    ensures var active' := active + Elements(Ids(chosen));
            multiset(active') == multiset(active) + Jobs(chosen) && |active'| == |active| + |chosen|
  {
    var ids := Elements(Ids(chosen));
    DistinctCounts(Ids(chosen));
    forall x | x in ids ensures x !in active {
      var i :| 0 <= i < |chosen| && Ids(chosen)[i] == x;
      assert chosen[i] in chosen;
    }
    assert active * ids == {};
  }

  lemma TakenKeepsInv(p: Pool, chosen: seq<Item>, limit: int)
    requires Inv(p)
    requires Distinct(Ids(chosen)) && forall x :: x in chosen ==> x.jobId !in p.active
    requires |chosen| <= Larger(limit - |p.active|, 0)
    ensures Inv(Taken(p, chosen, limit))
  {
    NewJobs(p.active, chosen);
    JobsAdd(p.toSubmit, chosen);
    var active' := p.active + Elements(Ids(chosen));
    assert multiset(active') == multiset(p.active) + Jobs(chosen);
    assert multiset(p.scheduled + Ids(chosen)) == multiset(p.scheduled) + Jobs(chosen);
  }

  lemma NewItems(items: seq<Item>, active: set<string>, available: int) returns (chosen: seq<Item>)
    ensures chosen == Chosen(items, active, available)
    ensures Distinct(Ids(chosen)) && (forall x :: x in chosen ==> x.jobId !in active)
    ensures |chosen| <= Larger(available, 0)
  {
    chosen := Chosen(items, active, available);
    ChosenIsRight(items, active, available);
  }

  lemma TickTakes(p: Pool, parallelWorkers: int, targets: seq<Item>, chosen: seq<Item>)
    requires chosen == Chosen(targets, p.active, Limit(parallelWorkers, p.maxWorkers) - |p.active|)
    ensures Apply(p, Tick(parallelWorkers, targets)) == Taken(p, chosen, Limit(parallelWorkers, p.maxWorkers))
  {
  }

  lemma TickKeepsInv(p: Pool, parallelWorkers: int, targets: seq<Item>)
    requires Inv(p)
    ensures Inv(Apply(p, Tick(parallelWorkers, targets)))
  {
    var limit := Limit(parallelWorkers, p.maxWorkers);
    var chosen := NewItems(targets, p.active, limit - |p.active|);
    TickTakes(p, parallelWorkers, targets, chosen);
    TakenKeepsInv(p, chosen, limit);
  }

  lemma CancelOne<T>(a: multiset<T>, b: multiset<T>, d: multiset<T>, e: multiset<T>, x: T)
    requires a + multiset{x} == b + d && d == e + multiset{x}
    ensures a == b + e
  {
    forall y ensures a[y] == (b + e)[y] {
      assert (a + multiset{x})[y] == (b + d)[y];
    }
  }

  lemma FinishKeepsInv(p: Pool, i: nat)
    requires Inv(p) && i < |p.running|
    ensures Inv(Apply(p, Finish(i)))
  {
    var id := p.running[i].jobId;
    var active' := p.active - {id};
    Removed(p.running, i);
    assert id in multiset(p.active);
    assert multiset(active') + multiset{id} == multiset(p.active);
    assert p.active == active' + {id};
    var m := multiset(p.finished + [id]);
    assert m == multiset(p.finished) + multiset{id};
    assert m + multiset(active') == multiset(p.finished) + (multiset(active') + multiset{id});
    CancelOne(multiset(active'), Jobs(p.toSubmit) + Jobs(p.queued), Jobs(p.running), Jobs(Remove(p.running, i)), id);
  }

  lemma StepKeepsInv(p: Pool, e: Event)
    requires Inv(p) && Enabled(p, e)
    ensures Inv(Apply(p, e))
  {
    match e
    case Tick(parallelWorkers, targets) => TickKeepsInv(p, parallelWorkers, targets);
    case Submit =>
      MovedHead(p.toSubmit);
      JobsAdd(p.queued, [p.toSubmit[0]]);
    case Start =>
      MovedHead(p.queued);
      JobsAdd(p.running, [p.queued[0]]);
    case Finish(i) => FinishKeepsInv(p, i);
  }

  predicate Valid(p: Pool, es: seq<Event>)
    decreases |es|, 0
  {
    es == [] || (Valid(p, es[..|es| - 1]) && Enabled(Run(p, es[..|es| - 1]), es[|es| - 1]))
  }

  function Run(p: Pool, es: seq<Event>): Pool
    requires Valid(p, es)
    decreases |es|, 1
  {
    if es == [] then p else Apply(Run(p, es[..|es| - 1]), es[|es| - 1])
  }

  lemma {:induction false} RunKeepsInv(p: Pool, es: seq<Event>)
    requires Inv(p) && Valid(p, es)
    ensures Inv(Run(p, es))
  {
    if es != [] {
      RunKeepsInv(p, es[..|es| - 1]);
      StepKeepsInv(Run(p, es[..|es| - 1]), es[|es| - 1]);
    }
  }

  /** The largest limit any tick of the run has seen. */
  function HighestLimit(maxWorkers: nat, es: seq<Event>): int {
    if es == [] then 0
    else
      Larger(HighestLimit(maxWorkers, es[..|es| - 1]),
             if es[|es| - 1].Tick? then Limit(es[|es| - 1].parallelWorkers, maxWorkers) else 0)
  }

  lemma {:induction false} HighestIsTracked(p: Pool, es: seq<Event>)
    requires Init(p) && Valid(p, es)
    ensures Run(p, es).highest == HighestLimit(p.maxWorkers, es) >= 0 && Run(p, es).maxWorkers == p.maxWorkers
  {
    if es != [] { HighestIsTracked(p, es[..|es| - 1]); }
  }

  /** Under every interleaving: the active set is exactly the jobs scheduled and not finished, each of
      them once, wherever it is; no job runs twice at once; and there are never more of them than the
      largest worker limit received. */
  lemma ActiveSetIsExact(p: Pool, es: seq<Event>)
    requires Init(p) && Valid(p, es)
    ensures var p' := Run(p, es); var ids := Ids(p'.InProgress());
            && p'.active == Elements(ids) && Distinct(ids)
            && multiset(p'.scheduled) == multiset(p'.finished) + multiset(p'.active)
            && Distinct(Ids(p'.running)) && |p'.running| <= p.maxWorkers
            && |p'.active| <= HighestLimit(p.maxWorkers, es)
  {
    assert Jobs([]) == multiset{};
    RunKeepsInv(p, es);
    HighestIsTracked(p, es);
    var p' := Run(p, es);
    JobsAdd(p'.toSubmit, p'.queued);
    JobsAdd(p'.toSubmit + p'.queued, p'.running);
    CountsDistinct(Ids(p'.InProgress()), p'.active);
    DistinctTail(Ids(p'.toSubmit + p'.queued), Ids(p'.running));
  }

  lemma DistinctTail<T>(a: seq<T>, b: seq<T>)
    requires Distinct(a + b)
    ensures Distinct(b)
  {
    assert forall i :: 0 <= i < |b| ==> b[i] == (a + b)[|a| + i];
  }

  /** No tick allows more than m jobs: its worker limit, or the pool's size when that is missing or zero,
      is at most m. */
  predicate AtMost(maxWorkers: nat, es: seq<Event>, m: nat) {
    forall i :: 0 <= i < |es| && es[i].Tick? ==>
      if es[i].parallelWorkers == 0 then maxWorkers <= m else es[i].parallelWorkers <= m
  }

  lemma {:induction false} HighestIsAtMost(maxWorkers: nat, es: seq<Event>, m: nat)
    requires AtMost(maxWorkers, es, m)
    ensures HighestLimit(maxWorkers, es) <= m
  {
    if es != [] {
      assert AtMost(maxWorkers, es[..|es| - 1], m);
      HighestIsAtMost(maxWorkers, es[..|es| - 1], m);
    }
  }

  /** Under every interleaving, if no tick allows more than m jobs, no more than m are in progress. */
  lemma WorkerLimitIsKept(p: Pool, es: seq<Event>, m: nat)
    requires Init(p) && Valid(p, es) && AtMost(p.maxWorkers, es, m)
    ensures |Run(p, es).active| <= m && |Run(p, es).InProgress()| <= m
  {
    ActiveSetIsExact(p, es);
    HighestIsAtMost(p.maxWorkers, es, m);
    var items := Run(p, es).InProgress();
    DistinctCounts(Ids(items));
  }
}
