/** Schedule conflicts by a sweep with an early break, and household capacity checked only at
    window endpoints: both agree with their all-pairs and all-instants definitions. */
module Schedules {
  import opened Base
  import opened Sorting

  datatype ScheduleWindow = ScheduleWindow(device: int, start: int, end: int, watts: real)

  predicate Valid(w: ScheduleWindow) {
    w.device > 0 && w.start < w.end && w.watts >= 0.0
  }

  predicate Overlap(a: ScheduleWindow, b: ScheduleWindow) {
    a.device == b.device && a.start < b.end && b.start < a.end
  }

  predicate ActiveAt(w: ScheduleWindow, at: int) {
    w.start <= at < w.end
  }

  ghost predicate ShareInstant(a: ScheduleWindow, b: ScheduleWindow) {
    exists at :: ActiveAt(a, at) && ActiveAt(b, at)
  }

  /** Windows of one device share an instant exactly when they overlap and neither is empty. */
  lemma OverlapMeansSharedInstant(a: ScheduleWindow, b: ScheduleWindow)
    ensures a.device == b.device && ShareInstant(a, b) <==> Overlap(a, b) && a.start < a.end && b.start < b.end
  {
    if Overlap(a, b) && a.start < a.end && b.start < b.end {
      var at := Max(a.start, b.start);
      assert ActiveAt(a, at) && ActiveAt(b, at);
    }
  }

  /** An empty window strictly inside another overlaps it although they share nothing. */
  lemma EmptyWindowOverlaps()
    ensures var outer, empty := ScheduleWindow(1, 0, 2, 0.0), ScheduleWindow(1, 1, 1, 0.0);
      Overlap(outer, empty) && !ShareInstant(outer, empty)
  {
  }

  // ----- conflicts -----

  const BY_START: ScheduleWindow -> int := (w: ScheduleWindow) => w.start

  ghost predicate ByStart(rows: seq<ScheduleWindow>) {
    forall i, j | 0 <= i < j < |rows| :: rows[i].start <= rows[j].start
  }

  /** How many windows of rows overlap w. */
  function OverlapsWith(w: ScheduleWindow, rows: seq<ScheduleWindow>): nat {
    if rows == [] then 0
    else OverlapsWith(w, rows[..|rows| - 1]) + if Overlap(w, rows[|rows| - 1]) then 1 else 0
  }

  /** Unordered overlapping pairs, counted once each. */
  function PairCount(rows: seq<ScheduleWindow>): nat {
    if rows == [] then 0
    else PairCount(rows[..|rows| - 1]) + OverlapsWith(rows[|rows| - 1], rows[..|rows| - 1])
  }

  /** The rows at i and j overlap, the earlier one named first. */
  ghost predicate Conflicted(rows: seq<ScheduleWindow>, i: int, j: int) {
    && 0 <= i < j < |rows| && rows[i].device == rows[j].device
    && rows[i].start < rows[j].end && rows[j].start < rows[i].end
  }

  /** The overlapping pairs of rows whose earlier row is i and whose later row is below n. */
  function LaterPairs(rows: seq<ScheduleWindow>, i: nat, n: nat): seq<(nat, nat)>
    requires i < n <= |rows|
  {
    if n == i + 1 then []
    else LaterPairs(rows, i, n - 1) + if Overlap(rows[i], rows[n - 1]) then [(i, n - 1)] else []
  }

  /** The overlapping pairs of rows whose earlier row is below n. */
  function SweepPairs(rows: seq<ScheduleWindow>, n: nat): seq<(nat, nat)>
    requires n <= |rows|
  {
    if n == 0 then [] else SweepPairs(rows, n - 1) + LaterPairs(rows, n - 1, |rows|)
  }

  /** Lexicographic order. */
  predicate Before(a: (nat, nat), b: (nat, nat)) {
    a.0 < b.0 || (a.0 == b.0 && a.1 < b.1)
  }

  ghost predicate Listed(pairs: seq<(nat, nat)>) {
    forall k, l | 0 <= k < l < |pairs| :: Before(pairs[k], pairs[l])
  }

  lemma {:induction false} LaterPairsExact(rows: seq<ScheduleWindow>, i: nat, n: nat)
    requires i < n <= |rows|
    ensures forall p :: p in LaterPairs(rows, i, n) <==> p.0 == i && p.1 < n && Conflicted(rows, i, p.1)
    ensures Listed(LaterPairs(rows, i, n))
    decreases n
  {
    if n > i + 1 {
      LaterPairsExact(rows, i, n - 1);
      var front := LaterPairs(rows, i, n - 1);
      forall k | 0 <= k < |front| ensures front[k].0 == i && front[k].1 < n - 1 {
        assert front[k] in front;
      }
    }
  }

  lemma ListedAppend(front: seq<(nat, nat)>, back: seq<(nat, nat)>)
    requires Listed(front) && Listed(back)
    requires forall p, q | p in front && q in back :: p.0 < q.0
    ensures Listed(front + back)
  {
    forall k, l | 0 <= k < l < |front + back| ensures Before((front + back)[k], (front + back)[l]) {
      if k < |front| <= l { assert front[k] in front && back[l - |front|] in back; }
    }
  }

  lemma {:induction false} SweepPairsExact(rows: seq<ScheduleWindow>, n: nat)
    requires n <= |rows|
    ensures forall p :: p in SweepPairs(rows, n) <==> p.0 < n && Conflicted(rows, p.0, p.1)
    ensures Listed(SweepPairs(rows, n))
  {
    if n > 0 {
      SweepPairsExact(rows, n - 1);
      LaterPairsExact(rows, n - 1, |rows|);
      ListedAppend(SweepPairs(rows, n - 1), LaterPairs(rows, n - 1, |rows|));
    }
  }

  /** out[k] is the later row of the k-th pair. */
  ghost predicate Entries(rows: seq<ScheduleWindow>, out: seq<ScheduleWindow>, pairs: seq<(nat, nat)>) {
    |out| == |pairs| && forall k | 0 <= k < |pairs| :: pairs[k].1 < |rows| && out[k] == rows[pairs[k].1]
  }

  /** The entries are the later rows of exactly the overlapping pairs, each pair once, in
      lexicographic order of positions. */
  ghost predicate Reports(rows: seq<ScheduleWindow>, out: seq<ScheduleWindow>, pairs: seq<(nat, nat)>) {
    Listed(pairs) && (forall p :: p in pairs <==> Conflicted(rows, p.0, p.1)) && Entries(rows, out, pairs)
  }

  lemma {:induction false} ListedUnique(a: seq<(nat, nat)>, b: seq<(nat, nat)>)
    requires Listed(a) && Listed(b) && forall p :: p in a <==> p in b
    ensures a == b
  {
    assert a != [] ==> a[0] in b;
    assert b != [] ==> b[0] in a;
    if a != [] && b != [] {
      var k :| 0 <= k < |b| && b[k] == a[0];
      var l :| 0 <= l < |a| && a[l] == b[0];
      assert !Before(a[0], b[0]) || !Before(b[0], a[0]);
      assert a[0] == b[0];
      forall p ensures p in a[1..] <==> p in b[1..] {
        if p in a[1..] { var i :| 1 <= i < |a| && a[i] == p; assert Before(a[0], p) && p in a; }
        if p in b[1..] { var i :| 1 <= i < |b| && b[i] == p; assert Before(b[0], p) && p in b; }
      }
      ListedUnique(a[1..], b[1..]);
      assert a == [a[0]] + a[1..] && b == [b[0]] + b[1..];
    }
  }

  /** There is only one such answer. */
  lemma ReportsUnique(rows: seq<ScheduleWindow>, out1: seq<ScheduleWindow>, pairs1: seq<(nat, nat)>,
                      out2: seq<ScheduleWindow>, pairs2: seq<(nat, nat)>)
    requires Reports(rows, out1, pairs1) && Reports(rows, out2, pairs2)
    ensures out1 == out2
  {
    ListedUnique(pairs1, pairs2);
  }

  /** Once a row starts after the end of row i, no later row overlaps row i. */
  lemma {:induction false} BreakLosesNothing(rows: seq<ScheduleWindow>, i: nat, j: nat, n: nat)
    requires ByStart(rows) && i < j < |rows| && j <= n <= |rows|
    requires rows[j].start > rows[i].end
    ensures LaterPairs(rows, i, n) == LaterPairs(rows, i, j)
    decreases n
  {
    if n > j {
      BreakLosesNothing(rows, i, j, n - 1);
      assert n - 1 == j || rows[j].start <= rows[n - 1].start;
    }
  }

  method SortRows(rows: seq<ScheduleWindow>) returns (sorted: seq<ScheduleWindow>)
    ensures sorted == SortStable(BY_START, rows)
    ensures ByStart(sorted) && multiset(sorted) == multiset(rows)
  {
    sorted := SortStable(BY_START, rows);
    SortStableSorts(BY_START, rows);
    forall i, j | 0 <= i < j < |sorted| ensures sorted[i].start <= sorted[j].start {
      assert BY_START(sorted[i]) <= BY_START(sorted[j]);
    }
  }

  // ----- the sweep counts pairs -----

  /** How many rows after row i and below n overlap it. */
  function LaterSize(rows: seq<ScheduleWindow>, i: nat, n: nat): nat
    requires i < n <= |rows|
  {
    if n == i + 1 then 0 else LaterSize(rows, i, n - 1) + if Overlap(rows[i], rows[n - 1]) then 1 else 0
  }

  lemma {:induction false} LaterSizeIsLength(rows: seq<ScheduleWindow>, i: nat, n: nat)
    requires i < n <= |rows|
    ensures |LaterPairs(rows, i, n)| == LaterSize(rows, i, n)
    decreases n
  {
    if n > i + 1 { LaterSizeIsLength(rows, i, n - 1); }
  }

  lemma {:induction false} LaterSizeOfPrefix(rows: seq<ScheduleWindow>, front: seq<ScheduleWindow>, i: nat, n: nat)
    requires front <= rows && i < n <= |front|
    ensures LaterSize(front, i, n) == LaterSize(rows, i, n)
    decreases n
  {
    if n > i + 1 { LaterSizeOfPrefix(rows, front, i, n - 1); }
  }

  /** How many of the first n rows overlap w. */
  function OverlapsAmong(w: ScheduleWindow, rows: seq<ScheduleWindow>, n: nat): nat
    requires n <= |rows|
  {
    if n == 0 then 0 else OverlapsAmong(w, rows, n - 1) + if Overlap(w, rows[n - 1]) then 1 else 0
  }

  lemma {:induction false} OverlapsAmongPrefix(w: ScheduleWindow, rows: seq<ScheduleWindow>, n: nat)
    requires n <= |rows|
    ensures OverlapsAmong(w, rows, n) == OverlapsWith(w, rows[..n])
  {
    if n > 0 {
      OverlapsAmongPrefix(w, rows, n - 1);
      assert rows[..n][..n - 1] == rows[..n - 1];
    }
  }

  /** Entries of the first n rows. */
  function SweepSize(rows: seq<ScheduleWindow>, n: nat): nat
    requires n <= |rows|
  {
    if n == 0 then 0 else SweepSize(rows, n - 1) + LaterSize(rows, n - 1, |rows|)
  }

  lemma {:induction false} SweepSizeIsLength(rows: seq<ScheduleWindow>, n: nat)
    requires n <= |rows|
    ensures |SweepPairs(rows, n)| == SweepSize(rows, n)
    decreases n
  {
    if n > 0 {
      SweepSizeIsLength(rows, n - 1);
      LaterSizeIsLength(rows, n - 1, |rows|);
      assert SweepPairs(rows, n) == SweepPairs(rows, n - 1) + LaterPairs(rows, n - 1, |rows|);
    }
  }

  /** Adding a last row adds one entry per earlier row it overlaps. */
  lemma {:induction false} SweepLastRow(rows: seq<ScheduleWindow>, front: seq<ScheduleWindow>, last: ScheduleWindow, n: nat)
    requires front <= rows && |rows| == |front| + 1 && last == rows[|front|] && n <= |front|
    ensures SweepSize(rows, n) == SweepSize(front, n) + OverlapsAmong(last, rows, n)
    decreases n
  {
    if n > 0 {
      SweepLastRow(rows, front, last, n - 1);
      LaterSizeOfPrefix(rows, front, n - 1, |front|);
    }
  }

  lemma {:induction false} SweepCountsPairs(rows: seq<ScheduleWindow>)
    ensures |SweepPairs(rows, |rows|)| == PairCount(rows)
  {
    SweepSizeIsLength(rows, |rows|);
    if rows != [] {
      var front, last := rows[..|rows| - 1], rows[|rows| - 1];
      SweepCountsPairs(front);
      SweepSizeIsLength(front, |front|);
      SweepLastRow(rows, front, last, |front|);
      OverlapsAmongPrefix(last, rows, |front|);
    }
  }

  // ----- the count does not depend on the order -----

  lemma {:induction false} OverlapsSplit(w: ScheduleWindow, a: seq<ScheduleWindow>, b: seq<ScheduleWindow>)
    ensures OverlapsWith(w, a + b) == OverlapsWith(w, a) + OverlapsWith(w, b)
  {
    if b == [] {
      assert a + b == a;
    } else {
      assert (a + b)[..|a + b| - 1] == a + b[..|b| - 1];
      OverlapsSplit(w, a, b[..|b| - 1]);
    }
  }

  lemma OverlapsOne(w: ScheduleWindow, x: ScheduleWindow)
    ensures OverlapsWith(w, [x]) == if Overlap(w, x) then 1 else 0
  {
    assert [x][..0] == [];
  }

  function Without(rows: seq<ScheduleWindow>, k: nat): seq<ScheduleWindow>
    requires k < |rows|
  {
    rows[..k] + rows[k + 1..]
  }

  lemma OverlapsWithout(w: ScheduleWindow, rows: seq<ScheduleWindow>, k: nat)
    requires k < |rows|
    ensures OverlapsWith(w, rows) == OverlapsWith(w, Without(rows, k)) + if Overlap(w, rows[k]) then 1 else 0
  {
    assert rows == rows[..k] + ([rows[k]] + rows[k + 1..]);
    OverlapsSplit(w, rows[..k], [rows[k]] + rows[k + 1..]);
    OverlapsSplit(w, [rows[k]], rows[k + 1..]);
    OverlapsSplit(w, rows[..k], rows[k + 1..]);
    OverlapsOne(w, rows[k]);
  }

  /** A row's pairs are removed with it, wherever it stands. */
  lemma {:induction false} PairsWithout(rows: seq<ScheduleWindow>, k: nat)
    requires k < |rows|
    ensures PairCount(rows) == PairCount(Without(rows, k)) + OverlapsWith(rows[k], Without(rows, k))
  {
    var front, last := rows[..|rows| - 1], rows[|rows| - 1];
    if k == |rows| - 1 {
      assert Without(rows, k) == front;
    } else {
      PairsWithout(front, k);
      assert front[k] == rows[k];
      assert Without(rows, k) == Without(front, k) + [last];
      assert Without(rows, k)[..|rows| - 2] == Without(front, k);
      OverlapsWithout(last, front, k);
      OverlapsSplit(rows[k], Without(front, k), [last]);
      OverlapsOne(rows[k], last);
      assert Overlap(last, rows[k]) <==> Overlap(rows[k], last);
    }
  }

  lemma WithoutMultiset(rows: seq<ScheduleWindow>, k: nat)
    requires k < |rows|
    ensures multiset(Without(rows, k)) == multiset(rows) - multiset{rows[k]}
  {
    assert rows == rows[..k] + [rows[k]] + rows[k + 1..];
  }

  lemma IndexIn(x: ScheduleWindow, a: seq<ScheduleWindow>, b: seq<ScheduleWindow>) returns (k: nat)
    requires x in a && multiset(a) == multiset(b)
    ensures k < |b| && b[k] == x
  {
    assert x in multiset(a) && x in multiset(b);
    assert x in b;
    k :| k < |b| && b[k] == x;
  }

  lemma SameLength(a: seq<ScheduleWindow>, b: seq<ScheduleWindow>)
    requires multiset(a) == multiset(b)
    ensures |a| == |b|
  {
    assert |multiset(a)| == |a| && |multiset(b)| == |b|;
  }

  lemma {:induction false} OverlapsOrderIndependent(w: ScheduleWindow, a: seq<ScheduleWindow>, b: seq<ScheduleWindow>)
    requires multiset(a) == multiset(b)
    ensures OverlapsWith(w, a) == OverlapsWith(w, b)
    decreases |a|
  {
    SameLength(a, b);
    if a != [] {
      var last := a[|a| - 1];
      var k := IndexIn(last, a, b);
      assert Without(a, |a| - 1) == a[..|a| - 1];
      WithoutMultiset(a, |a| - 1);
      WithoutMultiset(b, k);
      OverlapsOrderIndependent(w, a[..|a| - 1], Without(b, k));
      OverlapsWithout(w, b, k);
    }
  }

  lemma {:induction false} PairCountOrderIndependent(a: seq<ScheduleWindow>, b: seq<ScheduleWindow>)
    requires multiset(a) == multiset(b)
    ensures PairCount(a) == PairCount(b)
    decreases |a|
  {
    SameLength(a, b);
    if a != [] {
      var last := a[|a| - 1];
      var k := IndexIn(last, a, b);
      assert Without(a, |a| - 1) == a[..|a| - 1];
      WithoutMultiset(a, |a| - 1);
      WithoutMultiset(b, k);
      PairCountOrderIndependent(a[..|a| - 1], Without(b, k));
      PairsWithout(b, k);
      OverlapsOrderIndependent(last, a[..|a| - 1], Without(b, k));
    }
  }

  lemma {:induction false} SomeOverlap(w: ScheduleWindow, rows: seq<ScheduleWindow>)
    ensures OverlapsWith(w, rows) > 0 <==> exists i :: 0 <= i < |rows| && Overlap(w, rows[i])
  {
    if rows != [] {
      var front := rows[..|rows| - 1];
      SomeOverlap(w, front);
      if OverlapsWith(w, front) > 0 {
        var i :| 0 <= i < |front| && Overlap(w, front[i]);
        assert Overlap(w, rows[i]);
      }
      if exists i :: 0 <= i < |rows| && Overlap(w, rows[i]) {
        var i :| 0 <= i < |rows| && Overlap(w, rows[i]);
        if i < |front| { assert Overlap(w, front[i]); }
      }
    }
  }

  /** There is nothing to report exactly when no two windows of one device overlap. */
  lemma {:induction false} NoConflictIffNoOverlap(rows: seq<ScheduleWindow>)
    ensures PairCount(rows) == 0 <==> forall i, j :: !Conflicted(rows, i, j)
  {
    if rows != [] {
      var front, last := rows[..|rows| - 1], rows[|rows| - 1];
      NoConflictIffNoOverlap(front);
      SomeOverlap(last, front);
      if PairCount(front) > 0 {
        var i, j :| Conflicted(front, i, j);
        assert Conflicted(rows, i, j);
      }
      if OverlapsWith(last, front) > 0 {
        var i :| 0 <= i < |front| && Overlap(last, front[i]);
        assert Conflicted(rows, i, |front|);
      }
      forall i, j | Conflicted(rows, i, j) ensures PairCount(rows) > 0 {
        if j < |front| { assert Conflicted(front, i, j); } else { assert Overlap(last, front[i]); }
      }
    }
  }

  /** The later rows of exactly the overlapping pairs of the sorted rows, each pair once and in
      order; so as many as there are unordered overlapping pairs in the input. */
  method Conflicts(rows: seq<ScheduleWindow>) returns (out: seq<ScheduleWindow>)
    ensures exists pairs :: Reports(SortStable(BY_START, rows), out, pairs)
    ensures |out| == PairCount(rows)
  {
    out := [];
    var copyRows := SortRows(rows);
    ghost var pairs: seq<(nat, nat)> := [];
    for i := 0 to |copyRows|
      invariant pairs == SweepPairs(copyRows, i) && Entries(copyRows, out, pairs)
    {
      var j := i + 1;
      while j < |copyRows|
        invariant i < j <= |copyRows|
        invariant pairs == SweepPairs(copyRows, i) + LaterPairs(copyRows, i, j) && Entries(copyRows, out, pairs)
      {
        if copyRows[j].start > copyRows[i].end {
          BreakLosesNothing(copyRows, i, j, |copyRows|);
          break;
        }
        if Overlap(copyRows[i], copyRows[j]) {
          out := out + [copyRows[j]];
          pairs := pairs + [(i, j)];
        }
        j := j + 1;
      }
      assert LaterPairs(copyRows, i, j) == LaterPairs(copyRows, i, |copyRows|);
    }
    SweepPairsExact(copyRows, |copyRows|);
    assert Reports(copyRows, out, pairs);
    SweepCountsPairs(copyRows);
    PairCountOrderIndependent(copyRows, rows);
  }

  // ----- capacity -----

  datatype Verdict = Accepted | InvalidInput | Exceeded

  function Load(rows: seq<ScheduleWindow>, at: int): real {
    if rows == [] then 0.0
    else Load(rows[..|rows| - 1], at) + if ActiveAt(rows[|rows| - 1], at) then rows[|rows| - 1].watts else 0.0
  }

  method SortPoints(points: seq<int>) returns (sorted: seq<int>)
    ensures multiset(sorted) == multiset(points)
    ensures forall i, j | 0 <= i < j < |sorted| :: sorted[i] <= sorted[j]
    ensures forall p | p in points :: p in sorted
  {
    sorted := SortStable((p: int) => p, points);
    SortStableSorts((p: int) => p, points);
    forall p | p in points ensures p in sorted {
      assert p in multiset(points) && p in multiset(sorted);
    }
  }

  /** A positive device, a start before the end, and no negative watts. */
  ghost predicate WellFormed(w: ScheduleWindow) {
    1 <= w.device && w.end > w.start && !(w.watts < 0.0)
  }

  ghost predicate AllValid(rows: seq<ScheduleWindow>) {
    forall i | 0 <= i < |rows| :: Valid(rows[i])
  }

  lemma {:induction false} SomethingActive(rows: seq<ScheduleWindow>, at: int)
    requires Load(rows, at) > 0.0
    ensures exists i :: 0 <= i < |rows| && ActiveAt(rows[i], at)
  {
    var front := rows[..|rows| - 1];
    if ActiveAt(rows[|front|], at) {
    } else {
      SomethingActive(front, at);
      var i :| 0 <= i < |front| && ActiveAt(front[i], at);
      assert ActiveAt(rows[i], at);
    }
  }

  lemma {:induction false} LatestStart(rows: seq<ScheduleWindow>, at: int) returns (s: nat)
    requires exists i :: 0 <= i < |rows| && ActiveAt(rows[i], at)
    ensures s < |rows| && ActiveAt(rows[s], at)
    ensures forall i | 0 <= i < |rows| && ActiveAt(rows[i], at) :: rows[i].start <= rows[s].start
  {
    var front, last := rows[..|rows| - 1], rows[|rows| - 1];
    if exists i :: 0 <= i < |front| && ActiveAt(front[i], at) {
      s := LatestStart(front, at);
      if ActiveAt(last, at) && last.start > rows[s].start { s := |front|; }
    } else {
      s := |front|;
    }
  }

  /** Everything active at an instant is still active at the latest start among them. */
  lemma {:induction false} LoadNoLess(rows: seq<ScheduleWindow>, at: int, earlier: int)
    requires AllValid(rows) && earlier <= at
    requires forall i | 0 <= i < |rows| && ActiveAt(rows[i], at) :: rows[i].start <= earlier
    ensures Load(rows, at) <= Load(rows, earlier)
  {
    if rows != [] { LoadNoLess(rows[..|rows| - 1], at, earlier); }
  }

  lemma LoadPeaksAtAStart(rows: seq<ScheduleWindow>, at: int) returns (s: nat)
    requires AllValid(rows) && Load(rows, at) > 0.0
    ensures s < |rows| && Load(rows, at) <= Load(rows, rows[s].start)
  {
    SomethingActive(rows, at);
    s := LatestStart(rows, at);
    LoadNoLess(rows, at, rows[s].start);
  }

  /** Invalid input is refused; otherwise the schedule is rejected exactly when at some instant,
      not just an endpoint, the active windows together exceed the limit. */
  method Capacity(rows: seq<ScheduleWindow>, limit: real) returns (verdict: Verdict)
    ensures verdict == InvalidInput <==> limit < 0.0 || exists i :: 0 <= i < |rows| && !WellFormed(rows[i])
    ensures verdict == Exceeded <==>
      limit >= 0.0 && (forall i | 0 <= i < |rows| :: WellFormed(rows[i])) && exists at :: Load(rows, at) > limit
  {
    if limit < 0.0 {
      return InvalidInput;
    }
    var points := [];
    for i := 0 to |rows|
      invariant forall k | 0 <= k < i :: Valid(rows[k])
      invariant forall k | 0 <= k < i :: rows[k].start in points && rows[k].end in points
    {
      if !Valid(rows[i]) {
        return InvalidInput;
      }
      points := points + [rows[i].start, rows[i].end];
    }
    points := SortPoints(points);
    for p := 0 to |points|
      invariant forall k | 0 <= k < p :: Load(rows, points[k]) <= limit
    {
      var sum := 0.0;
      for r := 0 to |rows|
        invariant sum == Load(rows[..r], points[p])
      {
        assert rows[..r + 1][..r] == rows[..r];
        if rows[r].start <= points[p] && points[p] < rows[r].end {
          sum := sum + rows[r].watts;
        }
      }
      assert rows[..|rows|] == rows;
      if sum > limit {
        return Exceeded;
      }
    }
    forall at ensures Load(rows, at) <= limit {
      if Load(rows, at) > 0.0 {
        var s := LoadPeaksAtAStart(rows, at);
        assert rows[s].start in points;
      }
    }
    verdict := Accepted;
  }
}
