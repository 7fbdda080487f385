/** Merging time windows: the sort-and-sweep loop, and why its answer is canonical. */
module TimeWindows {
  import opened Base
  import opened Sorting

  // Instants are nanoseconds; zero stands for the zero time.Time. A missing zone is a nil pointer.
  datatype TimeWindow = TimeWindow(start: int, end: int, zone: Option<string>)

  const MAX_SPAN: int := 366 * 24 * HOUR

  predicate Validate(w: TimeWindow, max: int) {
    w.start != 0 && w.end != 0 && w.zone.Some? && w.start < w.end && max > 0 && w.end - w.start <= max
  }

  predicate Contains(w: TimeWindow, at: int) {
    w.start != 0 && w.end != 0 && w.zone.Some? && w.start <= at < w.end
  }

  ghost predicate Covers(ws: seq<TimeWindow>, at: int) {
    exists i :: 0 <= i < |ws| && Contains(ws[i], at)
  }

  ghost predicate SameInstants(a: seq<TimeWindow>, b: seq<TimeWindow>) {
    forall at :: Covers(a, at) <==> Covers(b, at)
  }

  ghost predicate Proper(w: TimeWindow) {
    w.start != 0 && w.end != 0 && w.zone.Some? && w.start < w.end
  }

  /** Proper windows in order, each ending strictly before the next begins. */
  ghost predicate Canonical(ws: seq<TimeWindow>) {
    && (forall i | 0 <= i < |ws| :: Proper(ws[i]))
    && (forall i, j | 0 <= i < j < |ws| :: ws[i].end < ws[j].start)
  }

  ghost predicate Begins(ws: seq<TimeWindow>, start: int, zone: Option<string>) {
    exists w :: w in ws && w.start == start && w.zone == zone
  }

  /** Each merged window starts like some input window, in that window's zone. */
  ghost predicate StartsLikeInputs(ws: seq<TimeWindow>, merged: seq<TimeWindow>) {
    forall i | 0 <= i < |merged| :: Begins(ws, merged[i].start, merged[i].zone)
  }

  ghost predicate MergeOf(ws: seq<TimeWindow>, merged: seq<TimeWindow>) {
    Canonical(merged) && SameInstants(ws, merged) && StartsLikeInputs(ws, merged)
  }

  // 366 days in nanoseconds.
  const SPAN_LIMIT: int := 31_622_400_000_000_000

  /** Both ends and a zone, in order, and no longer than 366 days. */
  ghost predicate AllValid(ws: seq<TimeWindow>) {
    forall i | 0 <= i < |ws| :: Proper(ws[i]) && ws[i].end - ws[i].start <= SPAN_LIMIT
  }

  /** sort.Slice promises order, not stability. */
  method SortByStart(ws: seq<TimeWindow>) returns (sorted: seq<TimeWindow>)
    ensures multiset(sorted) == multiset(ws)
    ensures forall i, j | 0 <= i < j < |sorted| :: sorted[i].start <= sorted[j].start
  {
    sorted := SortStable((w: TimeWindow) => w.start, ws);
    SortStableSorts((w: TimeWindow) => w.start, ws);
  }

  lemma PermutationMembers(a: seq<TimeWindow>, b: seq<TimeWindow>)
    requires multiset(a) == multiset(b)
    ensures forall w :: w in a <==> w in b
  {
    forall w ensures w in a <==> w in b {
      assert w in a <==> w in multiset(a);
      assert w in b <==> w in multiset(b);
    }
  }

  lemma MembersCover(a: seq<TimeWindow>, b: seq<TimeWindow>)
    requires forall w :: w in a <==> w in b
    ensures SameInstants(a, b)
  {
    forall at ensures Covers(a, at) <==> Covers(b, at) {
      if Covers(a, at) { var i :| 0 <= i < |a| && Contains(a[i], at); assert a[i] in b; }
      if Covers(b, at) { var i :| 0 <= i < |b| && Contains(b[i], at); assert b[i] in a; }
    }
  }

  lemma CoversSplit(a: seq<TimeWindow>, w: TimeWindow, at: int)
    ensures Covers(a + [w], at) <==> Covers(a, at) || Contains(w, at)
  {
    if Covers(a, at) { var i :| 0 <= i < |a| && Contains(a[i], at); assert Contains((a + [w])[i], at); }
    if Contains(w, at) { assert Contains((a + [w])[|a|], at); }
  }

  lemma StartsKept(prefix: seq<TimeWindow>, merged: seq<TimeWindow>, w: TimeWindow)
    requires StartsLikeInputs(prefix, merged)
    ensures StartsLikeInputs(prefix + [w], merged)
  {
    forall i | 0 <= i < |merged| ensures Begins(prefix + [w], merged[i].start, merged[i].zone) {
      assert Begins(prefix, merged[i].start, merged[i].zone);
      var v :| v in prefix && v.start == merged[i].start && v.zone == merged[i].zone;
      assert v in prefix + [w];
    }
  }

  /** A window that starts after everything so far opens a new merged window. */
  lemma SweepAppends(prefix: seq<TimeWindow>, merged: seq<TimeWindow>, w: TimeWindow)
    requires Proper(w) && MergeOf(prefix, merged)
    requires merged != [] ==> merged[|merged| - 1].end < w.start
    ensures MergeOf(prefix + [w], merged + [w])
  {
    forall at ensures Covers(prefix + [w], at) <==> Covers(merged + [w], at) {
      CoversSplit(prefix, w, at);
      CoversSplit(merged, w, at);
    }
    StartsKept(prefix, merged, w);
    assert w in prefix + [w];
  }

  /** A window that starts inside the last merged window, or touches it, extends it. */
  lemma SweepExtends(prefix: seq<TimeWindow>, merged: seq<TimeWindow>, w: TimeWindow)
    requires Proper(w) && MergeOf(prefix, merged) && merged != []
    requires merged[|merged| - 1].start <= w.start <= merged[|merged| - 1].end
    ensures MergeOf(prefix + [w], merged[|merged| - 1 := merged[|merged| - 1].(end := Max(merged[|merged| - 1].end, w.end))])
  {
    var last := merged[|merged| - 1];
    var front := merged[..|merged| - 1];
    var grown := last.(end := Max(last.end, w.end));
    assert merged == front + [last] && merged[|merged| - 1 := grown] == front + [grown];
    forall at ensures Covers(prefix + [w], at) <==> Covers(front + [grown], at) {
      CoversSplit(prefix, w, at);
      CoversSplit(front, last, at);
      CoversSplit(front, grown, at);
      assert Contains(grown, at) <==> Contains(last, at) || Contains(w, at);
      assert Covers(prefix, at) <==> Covers(merged, at);
    }
    StartsKept(prefix, merged, w);
    forall i | 0 <= i < |merged| ensures Begins(prefix + [w], (front + [grown])[i].start, (front + [grown])[i].zone) {
      assert (front + [grown])[i].start == merged[i].start && (front + [grown])[i].zone == merged[i].zone;
    }
  }

  lemma MembersStart(a: seq<TimeWindow>, b: seq<TimeWindow>, merged: seq<TimeWindow>)
    requires (forall w :: w in a <==> w in b) && StartsLikeInputs(a, merged)
    ensures StartsLikeInputs(b, merged)
  {
    forall i | 0 <= i < |merged| ensures Begins(b, merged[i].start, merged[i].zone) {
      assert Begins(a, merged[i].start, merged[i].zone);
    }
  }

  /** Fails exactly when some input window is invalid; otherwise the result is canonical and
      contains exactly the instants the inputs contain. */
  method MergeWindows(windows: seq<TimeWindow>) returns (merged: seq<TimeWindow>, ok: bool)
    ensures ok <==> AllValid(windows)
    ensures ok ==> MergeOf(windows, merged)
    ensures !ok ==> merged == []
  {
    merged := [];
    for i := 0 to |windows|
      invariant AllValid(windows[..i])
    {
      if !Validate(windows[i], MAX_SPAN) {
        return [], false;
      }
    }
    assert windows[..|windows|] == windows;
    var sorted := SortByStart(windows);
    PermutationMembers(sorted, windows);
    assert forall k | 0 <= k < |sorted| :: Proper(sorted[k]) by {
      forall k | 0 <= k < |sorted| ensures Proper(sorted[k]) { assert sorted[k] in windows; }
    }
    for i := 0 to |sorted|
      invariant MergeOf(sorted[..i], merged)
      invariant i == 0 ==> merged == []
      invariant forall k, j | 0 <= k < |merged| && i <= j < |sorted| :: merged[k].start <= sorted[j].start
    {
      var window := sorted[i];
      assert sorted[..i + 1] == sorted[..i] + [window];
      if merged == [] || merged[|merged| - 1].end < window.start {
        SweepAppends(sorted[..i], merged, window);
        merged := merged + [window];
      } else {
        SweepExtends(sorted[..i], merged, window);
        if merged[|merged| - 1].end < window.end {
          merged := merged[|merged| - 1 := merged[|merged| - 1].(end := window.end)];
        } else {
          assert merged == merged[|merged| - 1 := merged[|merged| - 1]];
        }
      }
    }
    assert sorted[..|sorted|] == sorted;
    MembersCover(sorted, windows);
    MembersStart(sorted, windows, merged);
    ok := true;
  }

  // ----- why the answer is canonical -----

  function Spans(ws: seq<TimeWindow>): (spans: seq<(int, int)>)
    ensures |spans| == |ws| && forall i | 0 <= i < |ws| :: spans[i] == (ws[i].start, ws[i].end)
  {
    seq(|ws|, i requires 0 <= i < |ws| => (ws[i].start, ws[i].end))
  }

  lemma CoversFirst(ws: seq<TimeWindow>, at: int)
    requires Canonical(ws) && ws != []
    ensures Covers(ws, at) <==> Contains(ws[0], at) || Covers(ws[1..], at)
    ensures Covers(ws[1..], at) <==> Covers(ws, at) && at > ws[0].end
  {
    if Covers(ws, at) {
      var i :| 0 <= i < |ws| && Contains(ws[i], at);
      if i > 0 { assert Contains(ws[1..][i - 1], at); }
    }
    if Covers(ws[1..], at) {
      var i :| 0 <= i < |ws[1..]| && Contains(ws[1..][i], at);
      assert Contains(ws[i + 1], at);
    }
  }

  lemma FirstSpanAgrees(a: seq<TimeWindow>, b: seq<TimeWindow>)
    requires Canonical(a) && Canonical(b) && SameInstants(a, b) && a != [] && b != []
    ensures a[0].start >= b[0].start && a[0].end >= b[0].end
  {
    assert Contains(a[0], a[0].start) && Covers(a, a[0].start) && Covers(b, a[0].start);
    CoversFirst(a, a[0].end);
    assert !Covers(a, a[0].end) && !Covers(b, a[0].end);
    assert !Contains(b[0], a[0].end);
  }

  lemma BothEmptyOrNeither(a: seq<TimeWindow>, b: seq<TimeWindow>)
    requires Canonical(a) && Canonical(b) && SameInstants(a, b)
    ensures a == [] <==> b == []
  {
    if a != [] { assert Contains(a[0], a[0].start) && Covers(a, a[0].start) && Covers(b, a[0].start); }
    if b != [] { assert Contains(b[0], b[0].start) && Covers(b, b[0].start) && Covers(a, b[0].start); }
  }

  lemma SpansCons(ws: seq<TimeWindow>)
    requires ws != []
    ensures Spans(ws) == [(ws[0].start, ws[0].end)] + Spans(ws[1..])
  {
  }

  lemma TailsAgree(a: seq<TimeWindow>, b: seq<TimeWindow>)
    requires Canonical(a) && Canonical(b) && SameInstants(a, b) && a != [] && b != [] && a[0].end == b[0].end
    ensures SameInstants(a[1..], b[1..])
  {
    forall at ensures Covers(a[1..], at) <==> Covers(b[1..], at) {
      CoversFirst(a, at);
      CoversFirst(b, at);
    }
  }

  /** Two canonical lists that contain the same instants have the same spans. */
  lemma {:induction false} CanonicalUnique(a: seq<TimeWindow>, b: seq<TimeWindow>)
    requires Canonical(a) && Canonical(b) && SameInstants(a, b)
    ensures Spans(a) == Spans(b)
  {
    BothEmptyOrNeither(a, b);
    if a != [] {
      FirstSpanAgrees(a, b);
      FirstSpanAgrees(b, a);
      assert SameInstants(a[1..], b[1..]) by { TailsAgree(a, b); }
      CanonicalUnique(a[1..], b[1..]);
      SpansCons(a);
      SpansCons(b);
    }
  }

  /** Inputs that contain the same instants merge to the same spans, whatever their order,
      duplication or cutting. */
  lemma MergeDependsOnInstantsOnly(ws1: seq<TimeWindow>, merged1: seq<TimeWindow>, ws2: seq<TimeWindow>, merged2: seq<TimeWindow>)
    requires MergeOf(ws1, merged1) && MergeOf(ws2, merged2) && SameInstants(ws1, ws2)
    ensures Spans(merged1) == Spans(merged2)
  {
    CanonicalUnique(merged1, merged2);
  }

  lemma MergeOrderIndependent(ws1: seq<TimeWindow>, merged1: seq<TimeWindow>, ws2: seq<TimeWindow>, merged2: seq<TimeWindow>)
    requires multiset(ws1) == multiset(ws2) && MergeOf(ws1, merged1) && MergeOf(ws2, merged2)
    ensures Spans(merged1) == Spans(merged2)
  {
    PermutationMembers(ws1, ws2);
    MembersCover(ws1, ws2);
    MergeDependsOnInstantsOnly(ws1, merged1, ws2, merged2);
  }

  /** In a canonical list a start belongs to one window only. */
  lemma StartIdentifies(ws: seq<TimeWindow>, v: TimeWindow, w: TimeWindow)
    requires Canonical(ws) && v in ws && w in ws && v.start == w.start
    ensures v == w
  {
    var i :| 0 <= i < |ws| && ws[i] == v;
    var j :| 0 <= j < |ws| && ws[j] == w;
    assert Proper(v) && Proper(w);
  }

  lemma MergedZoneKept(merged: seq<TimeWindow>, again: seq<TimeWindow>, i: nat)
    requires Canonical(merged) && StartsLikeInputs(merged, again)
    requires i < |again| == |merged| && (again[i].start, again[i].end) == (merged[i].start, merged[i].end)
    ensures again[i] == merged[i]
  {
    assert Begins(merged, again[i].start, again[i].zone);
    var w :| w in merged && w.start == again[i].start && w.zone == again[i].zone;
    StartIdentifies(merged, w, merged[i]);
  }

  /** Merging again is accepted exactly when no merged window outgrew 366 days, and then
      changes nothing. */
  lemma MergeIdempotent(ws: seq<TimeWindow>, merged: seq<TimeWindow>, again: seq<TimeWindow>)
    requires MergeOf(ws, merged) && MergeOf(merged, again)
    ensures again == merged
    ensures AllValid(merged) <==> forall i | 0 <= i < |merged| :: merged[i].end - merged[i].start <= SPAN_LIMIT
  {
    CanonicalUnique(again, merged);
    assert |again| == |Spans(again)| == |merged|;
    forall i | 0 <= i < |merged| ensures again[i] == merged[i] {
      assert Spans(again)[i] == Spans(merged)[i];
      MergedZoneKept(merged, again, i);
    }
    assert forall i | 0 <= i < |merged| :: Proper(merged[i]);
  }

  const DAY: int := 24 * HOUR

  // Two touching windows of 200 days.
  const HALVES: seq<TimeWindow> := [TimeWindow(DAY, 201 * DAY, Some("UTC")), TimeWindow(201 * DAY, 401 * DAY, Some("UTC"))]

  /** They are accepted, merge into one window of 400 days, and that is refused. */
  lemma MergedCanBeRefused(merged: seq<TimeWindow>)
    requires MergeOf(HALVES, merged)
    ensures AllValid(HALVES) && !AllValid(merged)
  {
    var whole := [TimeWindow(DAY, 401 * DAY, Some("UTC"))];
    forall at ensures Covers(HALVES, at) <==> Covers(whole, at) {
      assert Contains(whole[0], at) <==> Contains(HALVES[0], at) || Contains(HALVES[1], at);
    }
    CanonicalUnique(merged, whole);
    assert Spans(merged) == Spans(whole);
    assert Spans(merged)[0] == Spans(whole)[0];
  }
}
