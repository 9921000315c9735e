/** The wrapping window over chunk positions 0..n-1 that successive rotating plans move along. */
module Rotation {
  import opened Options
  import opened Arithmetic

  function Least(a: nat, b: nat): nat { if a <= b then a else b }

  /** How many positions j plans select, counting repeats. */
  function Selected(n: nat, k: nat, j: nat): nat { j * Least(k, n) }

  /** The positions one plan selects, and the cursor it leaves. The cursor may be stale: any number. */
  function Window(n: nat, k: nat, cursor: nat): (ps: seq<nat>)
    requires n > 0
    ensures forall p :: p in ps ==> p < n
  {
    seq(Least(k, n), (o: nat) => (cursor % n + o) % n)
  }

  function NextCursor(n: nat, k: nat, cursor: nat): nat
    requires n > 0
  {
    (cursor % n + Least(k, n)) % n
  }

  function CursorAfter(n: nat, k: nat, cursor: nat, j: nat): nat
    requires n > 0
  {
    if j == 0 then cursor else NextCursor(n, k, CursorAfter(n, k, cursor, j - 1))
  }

  /** Everything the first j plans select, in order. */
  function Visits(n: nat, k: nat, cursor: nat, j: nat): (ps: seq<nat>)
    requires n > 0
    ensures forall p :: p in ps ==> p < n
  {
    if j == 0 then [] else Visits(n, k, cursor, j - 1) + Window(n, k, CursorAfter(n, k, cursor, j - 1))
  }

  function Consecutive(n: nat, start: nat, len: nat): seq<nat>
    requires n > 0
  {
    seq(len, (i: nat) => (start + i) % n)
  }

  lemma StepOn(n: nat, start: nat, done: nat, at: nat, o: nat)
    requires n > 0 && at == (start + done) % n
    ensures (at + o) % n == (start + (done + o)) % n
  {
    ModOfSum(start + done, o, n);
  }

  lemma WindowElement(n: nat, k: nat, start: nat, done: nat, cursor: nat, o: nat)
    requires n > 0 && cursor % n == (start + done) % n && o < Least(k, n)
    ensures Window(n, k, cursor)[o] == Consecutive(n, start, done + Least(k, n))[done + o]
  {
    StepOn(n, start, done, cursor % n, o);
  }

  lemma WindowContinues(n: nat, k: nat, start: nat, done: nat, cursor: nat)
    requires n > 0 && cursor % n == (start + done) % n
    ensures Consecutive(n, start, done + Least(k, n)) == Consecutive(n, start, done) + Window(n, k, cursor)
    ensures NextCursor(n, k, cursor) == (start + (done + Least(k, n))) % n
  {
    var w := Least(k, n);
    var walk := Consecutive(n, start, done + w);
    assert walk[..done] == Consecutive(n, start, done);
    assert walk[done..] == Window(n, k, cursor) by {
      forall o: nat | o < w ensures walk[done..][o] == Window(n, k, cursor)[o] {
        WindowElement(n, k, start, done, cursor, o);
      }
    }
    StepOn(n, start, done, cursor % n, w);
  }

  /** Successive plans walk round the ring without a gap, an overlap or a jump. */
  lemma {:induction false} VisitsAreConsecutive(n: nat, k: nat, cursor: nat, j: nat)
    requires n > 0
    ensures Visits(n, k, cursor, j) == Consecutive(n, cursor % n, Selected(n, k, j))
    ensures CursorAfter(n, k, cursor, j) % n == (cursor % n + Selected(n, k, j)) % n
  {
    if j > 0 {
      VisitsAreConsecutive(n, k, cursor, j - 1);
      var w := Least(k, n);
      WindowContinues(n, k, cursor % n, Selected(n, k, j - 1), CursorAfter(n, k, cursor, j - 1));
      Distribute(j - 1, 1, w);
      ModOfSum(cursor % n + Selected(n, k, j), 0, n);
    } else {
      ModOfSum(cursor, 0, n);
    }
  }

  /** How far position p lies ahead of the start. */
  function Distance(n: nat, start: nat, p: nat): nat
    requires n > 0
  {
    (p - start) % n
  }

  lemma MeetsAt(n: nat, start: nat, p: nat, i: nat)
    requires p < n
    ensures (start + i) % n == p <==> i % n == Distance(n, start, p)
  {
    if (start + i) % n == p {
      ModCongruent(p - start, i, n, -((start + i) / n));
    }
    if i % n == Distance(n, start, p) {
      var q := i / n - (p - start) / n;
      assert i == (p - start) + q * n by { Distribute(i / n, (p - start) / n, n); }
      DivModUnique(start + i, n, q, p);
    }
  }

  lemma Reached(n: nat, start: nat, len: nat, p: nat)
    requires p < n
    ensures p in Consecutive(n, start, len) <==> Distance(n, start, p) < len
  {
    var d := Distance(n, start, p);
    if d < len {
      DivModUnique(d, n, 0, d);
      MeetsAt(n, start, p, d);
      assert Consecutive(n, start, len)[d] == p;
    }
    if p in Consecutive(n, start, len) {
      var i :| 0 <= i < len && Consecutive(n, start, len)[i] == p;
      MeetsAt(n, start, p, i);
      ModAtMost(i, n);
    }
  }

  lemma FullTurn(n: nat, start: nat, len: nat)
    requires n > 0
    ensures (forall p: nat :: p < n ==> p in Consecutive(n, start, len)) <==> len >= n
  {
    if len >= n {
      forall p: nat | p < n ensures p in Consecutive(n, start, len) { Reached(n, start, len, p); }
    } else {
      var last := (start + n - 1) % n;
      MeetsAt(n, start, last, n - 1);
      DivModUnique(n - 1, n, 0, n - 1);
      Reached(n, start, len, last);
      assert last < n && last !in Consecutive(n, start, len);
    }
  }

  /** From any cursor, the plans have selected all n positions after exactly ceil(n / k) plans:
      that many always suffice, and no smaller number ever does. */
  lemma CoverageTakesExactlyCeil(n: nat, k: nat, cursor: nat, j: nat)
    requires n > 0 && k > 0
    ensures (forall p: nat :: p < n ==> p in Visits(n, k, cursor, j)) <==> j >= CeilDiv(n, k)
  {
    VisitsAreConsecutive(n, k, cursor, j);
    FullTurn(n, cursor % n, Selected(n, k, j));
    CeilDivIsLeast(n, k, j);
    CeilDivIsLeast(n, n, j);
    if n <= k {
      DivModUnique(n + n - 1, n, 1, n - 1);
      CeilDivIsLeast(n, k, 1);
      CeilDivIsLeast(n, k, 0);
    }
  }

  /** The same bound in time. Hours in the source; minutes here, so that no division by 60 is needed. */
  function CoverageMinutes(n: nat, k: nat, interval: nat): Option<nat> {
    if n == 0 || k == 0 then None else Some(Elapsed(CeilDiv(n, k), interval))
  }

  function Elapsed(cycles: nat, interval: nat): nat { cycles * interval }

  /** The coverage time shown for a rotating policy is the exact one: scans spaced by the interval
      have visited every chunk, from any cursor, once their time adds up to it, and not before. */
  lemma ShownCoverageIsExact(n: nat, k: nat, cursor: nat, cycles: nat, interval: nat)
    requires interval > 0 && CoverageMinutes(n, k, interval).Some?
    ensures (forall p: nat :: p < n ==> p in Visits(n, k, cursor, cycles)) <==>
            Elapsed(cycles, interval) >= CoverageMinutes(n, k, interval).value
  {
    CoverageTakesExactlyCeil(n, k, cursor, cycles);
    MultiplesCompare(cycles, CeilDiv(n, k), interval);
  }

  // ----- Plans over a list of chunks -----

  datatype ChunkPlan<T> = ChunkPlan(targets: seq<T>, nextCursor: nat, totalChunks: nat)

  function Pick<T>(s: seq<T>, ps: seq<nat>): (r: seq<T>)
    requires forall p :: p in ps ==> p < |s|
  {
    seq(|ps|, i requires 0 <= i < |ps| => assert ps[i] in ps; s[ps[i]])
  }

  function RotatingPlan<T>(chunks: seq<T>, chunkCount: nat, cursor: nat): ChunkPlan<T> {
    var n := |chunks|;
    if n == 0 then ChunkPlan([], 0, 0)
    else ChunkPlan(Pick(chunks, Window(n, chunkCount, cursor)), NextCursor(n, chunkCount, cursor), n)
  }

  method SelectWindow<T>(chunks: seq<T>, chunkCount: nat, chunkCursor: nat) returns (plan: ChunkPlan<T>)
    requires chunks != []
    ensures plan == RotatingPlan(chunks, chunkCount, chunkCursor)
  {
    var total := |chunks|;
    var cursor := chunkCursor % total;
    var selected: seq<T> := [];
    var offset := 0;
    while offset < Least(chunkCount, total)
      invariant 0 <= offset <= Least(chunkCount, total)
      invariant selected == Pick(chunks, Window(total, chunkCount, chunkCursor))[..offset]
    {
      selected := selected + [chunks[(cursor + offset) % total]];
      offset := offset + 1;
    }
    plan := ChunkPlan(selected, (cursor + |selected|) % total, total);
  }

  /** All targets of j successive rotating plans, each starting at the cursor the last one left. */
  function Sweep<T>(chunks: seq<T>, chunkCount: nat, cursor: nat, j: nat): seq<T>
    decreases j
  {
    if j == 0 then []
    else
      var first := RotatingPlan(chunks, chunkCount, cursor);
      first.targets + Sweep(chunks, chunkCount, first.nextCursor, j - 1)
  }

  lemma {:induction false} VisitsFromTheFront(n: nat, k: nat, cursor: nat, j: nat)
    requires n > 0 && j > 0
    ensures Visits(n, k, cursor, j) == Window(n, k, cursor) + Visits(n, k, NextCursor(n, k, cursor), j - 1)
    ensures CursorAfter(n, k, cursor, j) == CursorAfter(n, k, NextCursor(n, k, cursor), j - 1)
  {
    if j > 1 {
      VisitsFromTheFront(n, k, cursor, j - 1);
    }
  }

  lemma {:induction false} SweepVisits<T>(chunks: seq<T>, k: nat, cursor: nat, j: nat)
    requires chunks != []
    ensures Sweep(chunks, k, cursor, j) == Pick(chunks, Visits(|chunks|, k, cursor, j))
    decreases j
  {
    if j > 0 {
      var n := |chunks|;
      var next := NextCursor(n, k, cursor);
      VisitsFromTheFront(n, k, cursor, j);
      SweepVisits(chunks, k, next, j - 1);
      PickAppend(chunks, Window(n, k, cursor), Visits(n, k, next, j - 1));
    }
  }

  lemma PickAppend<T>(s: seq<T>, a: seq<nat>, b: seq<nat>)
    requires forall p :: p in a || p in b ==> p < |s|
    ensures forall p :: p in a + b ==> p < |s|
    ensures Pick(s, a + b) == Pick(s, a) + Pick(s, b)
  {
  }

  lemma {:induction false} EmptySweep<T>(chunks: seq<T>, k: nat, cursor: nat, j: nat)
    requires chunks == []
    ensures Sweep(chunks, k, cursor, j) == []
    decreases j
  {
    if j > 0 { EmptySweep(chunks, k, 0, j - 1); }
  }

  function SweepCursor<T>(chunks: seq<T>, k: nat, cursor: nat, j: nat): nat {
    if chunks == [] then (if j == 0 then cursor else 0) else CursorAfter(|chunks|, k, cursor, j)
  }

  /** The next plan of a sweep starts where the sweep's cursor stands. */
  lemma SweepExtends<T>(chunks: seq<T>, k: nat, cursor: nat, j: nat)
    ensures var plan := RotatingPlan(chunks, k, SweepCursor(chunks, k, cursor, j));
            && Sweep(chunks, k, cursor, j + 1) == Sweep(chunks, k, cursor, j) + plan.targets
            && SweepCursor(chunks, k, cursor, j + 1) == plan.nextCursor
  {
    if chunks == [] {
      EmptySweep(chunks, k, cursor, j);
      EmptySweep(chunks, k, cursor, j + 1);
    } else {
      var n := |chunks|;
      SweepVisits(chunks, k, cursor, j);
      SweepVisits(chunks, k, cursor, j + 1);
      PickAppend(chunks, Visits(n, k, cursor, j), Window(n, k, CursorAfter(n, k, cursor, j)));
    }
  }

  lemma VisitsArePositions(n: nat, k: nat, cursor: nat, j: nat)
    requires n > 0 && k > 0
    ensures j >= CeilDiv(n, k) ==> forall p: nat :: p < n ==> p in Visits(n, k, cursor, j)
    ensures j < CeilDiv(n, k) ==> exists p: nat :: p < n && p !in Visits(n, k, cursor, j)
  {
    CoverageTakesExactlyCeil(n, k, cursor, j);
  }

  /** A sweep holds only chunks of the list, and all of them after ceil(n / k) plans. */
  lemma SweepContents<T>(chunks: seq<T>, k: nat, cursor: nat, j: nat)
    requires k > 0
    ensures forall c :: c in Sweep(chunks, k, cursor, j) ==> c in chunks
    ensures j >= CeilDiv(|chunks|, k) ==> forall c :: c in chunks ==> c in Sweep(chunks, k, cursor, j)
  {
    if chunks == [] {
      EmptySweep(chunks, k, cursor, j);
    } else {
      SweepVisits(chunks, k, cursor, j);
      VisitsArePositions(|chunks|, k, cursor, j);
      var visits := Visits(|chunks|, k, cursor, j);
      PickedAreElements(chunks, visits);
      if j >= CeilDiv(|chunks|, k) { PickAll(chunks, visits); }
    }
  }

  lemma PickedAreElements<T>(s: seq<T>, ps: seq<nat>)
    requires forall p :: p in ps ==> p < |s|
    ensures forall c :: c in Pick(s, ps) ==> c in s
  {
    forall c | c in Pick(s, ps) ensures c in s {
      var i :| 0 <= i < |ps| && Pick(s, ps)[i] == c;
      assert ps[i] in ps;
    }
  }

  lemma PickAll<T>(s: seq<T>, ps: seq<nat>)
    requires forall p :: p in ps ==> p < |s|
    requires forall p: nat :: p < |s| ==> p in ps
    ensures forall c :: c in s ==> c in Pick(s, ps)
  {
    forall c | c in s ensures c in Pick(s, ps) {
      var p: nat :| p < |s| && s[p] == c;
      assert p in ps;
      var i :| 0 <= i < |ps| && ps[i] == p;
      assert Pick(s, ps)[i] == c;
    }
  }

  lemma PickMisses<T>(s: seq<T>, ps: seq<nat>, p: nat)
    requires forall q :: q in ps ==> q < |s|
    requires p !in ps
    ensures forall c :: c in Pick(s, ps) ==> exists q :: 0 <= q < |s| && q != p && s[q] == c
  {
    forall c | c in Pick(s, ps) ensures exists q :: 0 <= q < |s| && q != p && s[q] == c {
      var i :| 0 <= i < |ps| && Pick(s, ps)[i] == c;
      assert ps[i] in ps;
    }
  }

  /** A shorter sweep leaves some position out altogether. */
  lemma SweepMisses<T>(chunks: seq<T>, k: nat, cursor: nat, j: nat) returns (p: nat)
    requires k > 0 && j < CeilDiv(|chunks|, k)
    ensures p < |chunks|
    ensures forall c :: c in Sweep(chunks, k, cursor, j) ==>
              exists q :: 0 <= q < |chunks| && q != p && chunks[q] == c
  {
    CeilDivIsLeast(|chunks|, k, j);
    assert chunks != [];
    SweepVisits(chunks, k, cursor, j);
    VisitsArePositions(|chunks|, k, cursor, j);
    var visits := Visits(|chunks|, k, cursor, j);
    p :| p < |chunks| && p !in visits;
    PickMisses(chunks, visits, p);
  }

  // ----- Fairness -----

  lemma DivStep(len: nat, n: nat, d: nat)
    requires d < n
    ensures (len + n - d) / n == (len + n - 1 - d) / n + if len % n == d then 1 else 0
  {
    var x := len + n - 1 - d;
    var q, r := x / n, x % n;
    if r == n - 1 {
      DivModUnique(x + 1, n, q + 1, 0);
      DivModUnique(len, n, q, d);
    } else {
      DivModUnique(x + 1, n, q, r + 1);
      if len % n == d { DivModUnique(x, n, len / n, n - 1); }
    }
  }

  lemma {:induction false} VisitCount(n: nat, start: nat, len: nat, p: nat)
    requires p < n
    ensures multiset(Consecutive(n, start, len))[p] == (len + n - 1 - Distance(n, start, p)) / n
  {
    var d := Distance(n, start, p);
    if len == 0 {
      DivModUnique(n - 1 - d, n, 0, n - 1 - d);
    } else {
      VisitCount(n, start, len - 1, p);
      assert Consecutive(n, start, len) == Consecutive(n, start, len - 1) + [(start + len - 1) % n];
      MeetsAt(n, start, p, len - 1);
      DivStep(len - 1, n, d);
    }
  }

  lemma QuotientsAreClose(x: nat, y: nat, n: nat)
    requires n > 0 && x <= y < x + n
    ensures x / n <= y / n <= x / n + 1
  {
    var q := x / n;
    if x % n + (y - x) < n { DivModUnique(y, n, q, x % n + (y - x)); }
    else { DivModUnique(y, n, q + 1, x % n + (y - x) - n); }
  }

  lemma ConsecutiveIsFair(n: nat, start: nat, len: nat, p: nat, q: nat)
    requires p < n && q < n
    ensures multiset(Consecutive(n, start, len))[p] <= multiset(Consecutive(n, start, len))[q] + 1
  {
    VisitCount(n, start, len, p);
    VisitCount(n, start, len, q);
    var a, b := Distance(n, start, p), Distance(n, start, q);
    if a <= b { QuotientsAreClose(len + n - 1 - b, len + n - 1 - a, n); }
    else { QuotientsAreClose(len + n - 1 - a, len + n - 1 - b, n); }
  }

  /** After any number of plans from any cursor, no position is two visits ahead of another. */
  lemma VisitsAreFair(n: nat, k: nat, cursor: nat, j: nat, p: nat, q: nat)
    requires p < n && q < n
    ensures multiset(Visits(n, k, cursor, j))[p] <= multiset(Visits(n, k, cursor, j))[q] + 1
  {
    VisitsAreConsecutive(n, k, cursor, j);
    ConsecutiveIsFair(n, cursor % n, Selected(n, k, j), p, q);
  }
}
