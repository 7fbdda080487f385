/** Startup migrations: any number of processes apply the same sorted files, one transaction per
    file, under a session advisory lock that a crash releases. */
module Migrations {
  import opened Base

  // A process between its statements: waiting for the lock, about to check file `next`, about to
  // apply it, or finished.
  datatype Process = Outside | Checking(next: nat) | Applying(next: nat) | Returned(ok: bool)

  // files are the version names in the order sort.Strings gives; applied is schema_migrations in
  // insertion order, initially what earlier releases have applied.
  datatype World = World(applied: seq<string>, lock: Option<nat>, processes: map<nat, Process>)

  function Start(initial: seq<string>): World {
    World(initial, None, map[])
  }

  datatype Event =
    | Lock(process: nat)
    | Check(process: nat)
    | Apply(process: nat, fate: Fate)
    | Fail(process: nat)
    | Crash(process: nat)

  ghost predicate Sorted(files: seq<string>, less: (string, string) -> bool) {
    (forall x, y, z :: less(x, y) && less(y, z) ==> less(x, z)) && (forall x :: !less(x, x)) &&
    forall i, j | 0 <= i < j < |files| :: less(files[i], files[j])
  }

  ghost predicate Distinct(files: seq<string>) {
    forall i, j | 0 <= i < j < |files| :: files[i] != files[j]
  }

  lemma SortedDistinct(files: seq<string>, less: (string, string) -> bool)
    requires Sorted(files, less)
    ensures Distinct(files)
  {
    forall i, j | 0 <= i < j < |files| ensures files[i] != files[j] {
      assert less(files[i], files[j]);
    }
  }

  function ProcessAt(w: World, p: nat): Process {
    if p in w.processes then w.processes[p] else Outside
  }

  function Set(w: World, p: nat, s: Process): World {
    w.(processes := w.processes[p := s])
  }

  function Release(w: World, p: nat, s: Process): World {
    Set(w.(lock := None), p, s)
  }

  function Step(files: seq<string>, w: World, e: Event): World {
    match e
    case Lock(p) =>
      if w.lock.None? && ProcessAt(w, p) == Outside then Set(w.(lock := Some(p)), p, Checking(0)) else w
    case Check(p) =>
      if !ProcessAt(w, p).Checking? then w
      else
        var k := ProcessAt(w, p).next;
        if k >= |files| then Release(w, p, Returned(true))
        else if files[k] in w.applied then Set(w, p, Checking(k + 1))
        else Set(w, p, Applying(k))
    case Apply(p, fate) =>
      if !ProcessAt(w, p).Applying? || ProcessAt(w, p).next >= |files| then w
      else
        var k := ProcessAt(w, p).next;
        if files[k] in w.applied || fate == Abort then Release(w, p, Returned(false))
        else
          var done := w.(applied := w.applied + [files[k]]);
          if fate == Commit then Set(done, p, Checking(k + 1)) else Release(done, p, Returned(false))
    case Fail(p) =>
      if ProcessAt(w, p).Checking? || ProcessAt(w, p).Applying? then Release(w, p, Returned(false)) else w
    case Crash(p) =>
      if ProcessAt(w, p).Checking? || ProcessAt(w, p).Applying? then Release(w, p, Outside) else Set(w, p, Outside)
  }

  function Run(files: seq<string>, initial: seq<string>, events: seq<Event>): World {
    if events == [] then Start(initial)
    else Step(files, Run(files, initial, events[..|events| - 1]), events[|events| - 1])
  }

  // ----- what is missing -----

  /** The files not applied yet, in file order. */
  function Missing(files: seq<string>, applied: seq<string>): seq<string> {
    if files == [] then []
    else
      var last := files[|files| - 1];
      Missing(files[..|files| - 1], applied) + if last in applied then [] else [last]
  }

  lemma {:induction false} MissingMembers(files: seq<string>, applied: seq<string>, x: string)
    ensures x in Missing(files, applied) <==> x in files && x !in applied
  {
    if files != [] {
      var front, last := files[..|files| - 1], files[|files| - 1];
      MissingMembers(front, applied, x);
      assert files == front + [last];
    }
  }

  lemma {:induction false} MissingDistinct(files: seq<string>, applied: seq<string>)
    requires Distinct(files)
    ensures Distinct(Missing(files, applied))
  {
    if files != [] {
      var front, last := files[..|files| - 1], files[|files| - 1];
      MissingDistinct(front, applied);
      MissingMembers(front, applied, last);
      assert last !in front;
    }
  }

  lemma {:induction false} MissingFromNothing(files: seq<string>)
    ensures Missing(files, []) == files
  {
    if files != [] {
      MissingFromNothing(files[..|files| - 1]);
      assert files == files[..|files| - 1] + [files[|files| - 1]];
    }
  }

  lemma MissingNext(files: seq<string>, applied: seq<string>, k: nat)
    requires k < |files|
    ensures Missing(files[..k + 1], applied) == Missing(files[..k], applied) + if files[k] in applied then [] else [files[k]]
  {
    assert files[..k + 1][..k] == files[..k];
  }

  lemma {:induction false} MissingPrefix(files: seq<string>, applied: seq<string>, k: nat)
    requires k <= |files|
    ensures Missing(files[..k], applied) <= Missing(files, applied)
  {
    if k == |files| {
      assert files[..k] == files;
    } else {
      MissingPrefix(files[..|files| - 1], applied, k);
      assert files[..|files| - 1][..k] == files[..k];
    }
  }

  // ----- the invariant -----

  /** What has been applied since the start is the first so many of the missing files. */
  ghost predicate Grown(files: seq<string>, initial: seq<string>, applied: seq<string>) {
    initial <= applied && applied[|initial|..] <= Missing(files, initial)
  }

  ghost predicate Behind(files: seq<string>, applied: seq<string>, k: nat) {
    k <= |files| && forall j | 0 <= j < k :: files[j] in applied
  }

  predicate Working(s: Process) {
    s.Checking? || s.Applying?
  }

  /** Only the lock holder is at work, everything before its position is applied, and a process
      that returned without error left everything applied. */
  ghost predicate InOrder(files: seq<string>, initial: seq<string>, w: World) {
    && Grown(files, initial, w.applied)
    && (forall p | p in w.processes && Working(w.processes[p]) :: w.lock == Some(p))
    && (forall p | p in w.processes && Working(w.processes[p]) :: Behind(files, w.applied, w.processes[p].next))
    && (forall p | p in w.processes && w.processes[p].Applying? ::
          w.processes[p].next < |files| && files[w.processes[p].next] !in w.applied)
    && (forall p | p in w.processes && w.processes[p] == Returned(true) :: Behind(files, w.applied, |files|))
  }

  lemma SinceStart(initial: seq<string>, applied: seq<string>, x: string)
    requires initial <= applied
    ensures x in applied <==> x in initial || x in applied[|initial|..]
  {
    assert applied == initial + applied[|initial|..];
  }

  lemma PrefixContains(all: seq<string>, prefix: seq<string>, n: nat)
    requires Distinct(all) && prefix <= all && n < |all|
    ensures all[n] in prefix <==> n < |prefix|
  {
    if n < |prefix| { assert prefix[n] == all[n]; }
  }

  /** The missing files before the k-th, all applied, with file k not applied, are exactly what
      has been applied since the start. */
  lemma CaughtUp(files: seq<string>, initial: seq<string>, applied: seq<string>, k: nat)
    requires Distinct(files) && Grown(files, initial, applied) && Behind(files, applied, k)
    requires k < |files| && files[k] !in applied
    ensures |applied[|initial|..]| == |Missing(files[..k], initial)| < |Missing(files, initial)|
    ensures Missing(files, initial)[|Missing(files[..k], initial)|] == files[k]
  {
    var all, before, since := Missing(files, initial), Missing(files[..k], initial), applied[|initial|..];
    SinceStart(initial, applied, files[k]);
    MissingNext(files, initial, k);
    MissingPrefix(files, initial, k + 1);
    MissingDistinct(files, initial);
    PrefixContains(all, since, |before|);
    if before != [] {
      var x := before[|before| - 1];
      MissingMembers(files[..k], initial, x);
      SinceStart(initial, applied, x);
      PrefixContains(all, since, |before| - 1);
    }
  }

  /** Applying the file a process has reached keeps the order. */
  lemma ApplyingGrows(files: seq<string>, initial: seq<string>, applied: seq<string>, k: nat)
    requires Distinct(files) && Grown(files, initial, applied) && Behind(files, applied, k)
    requires k < |files| && files[k] !in applied
    ensures Grown(files, initial, applied + [files[k]])
    ensures Behind(files, applied + [files[k]], k + 1)
  {
    CaughtUp(files, initial, applied, k);
    assert (applied + [files[k]])[|initial|..] == applied[|initial|..] + [files[k]];
  }

  /** When every file is applied, what was missing has been applied, and in order. */
  lemma NothingMissing(files: seq<string>, initial: seq<string>, applied: seq<string>)
    requires Distinct(files) && Grown(files, initial, applied) && Behind(files, applied, |files|)
    ensures applied == initial + Missing(files, initial)
  {
    var all, since := Missing(files, initial), applied[|initial|..];
    MissingDistinct(files, initial);
    if all != [] {
      MissingMembers(files, initial, all[|all| - 1]);
      SinceStart(initial, applied, all[|all| - 1]);
      PrefixContains(all, since, |all| - 1);
    }
  }

  lemma CheckKeepsOrder(files: seq<string>, initial: seq<string>, w: World, p: nat)
    requires InOrder(files, initial, w)
    ensures InOrder(files, initial, Step(files, w, Check(p)))
  {
  }

  lemma ApplyKeepsOrder(files: seq<string>, initial: seq<string>, w: World, p: nat, fate: Fate)
    requires Distinct(files) && InOrder(files, initial, w)
    ensures InOrder(files, initial, Step(files, w, Apply(p, fate)))
  {
    if ProcessAt(w, p).Applying? { ApplyingGrows(files, initial, w.applied, ProcessAt(w, p).next); }
  }

  lemma StepKeepsOrder(files: seq<string>, initial: seq<string>, w: World, e: Event)
    requires Distinct(files) && InOrder(files, initial, w)
    ensures InOrder(files, initial, Step(files, w, e))
  {
    match e
    case Check(p) => CheckKeepsOrder(files, initial, w, p);
    case Apply(p, fate) => ApplyKeepsOrder(files, initial, w, p, fate);
    case _ =>
  }

  lemma {:induction false} AlwaysInOrder(files: seq<string>, initial: seq<string>, events: seq<Event>)
    requires Distinct(files)
    ensures InOrder(files, initial, Run(files, initial, events))
  {
    if events != [] {
      AlwaysInOrder(files, initial, events[..|events| - 1]);
      StepKeepsOrder(files, initial, Run(files, initial, events[..|events| - 1]), events[|events| - 1]);
    }
  }

  lemma GrownDistinct(files: seq<string>, initial: seq<string>, applied: seq<string>)
    requires Distinct(files) && Distinct(initial) && Grown(files, initial, applied)
    ensures Distinct(applied)
  {
    MissingDistinct(files, initial);
    forall i, j | 0 <= i < j < |applied| ensures applied[i] != applied[j] {
      if i < |initial| <= j {
        assert applied[j] == Missing(files, initial)[j - |initial|];
        MissingMembers(files, initial, applied[j]);
        assert applied[i] in initial;
      } else if |initial| <= i {
        assert applied[i] == Missing(files, initial)[i - |initial|];
        assert applied[j] == Missing(files, initial)[j - |initial|];
      }
    }
  }

  /** Whatever the interleaving and the crashes, what has been applied since the start is the
      first so many of the missing files in sorted order, and nothing is applied twice. */
  lemma AppliedInOrder(files: seq<string>, less: (string, string) -> bool, initial: seq<string>, events: seq<Event>)
    requires Sorted(files, less)
    ensures Grown(files, initial, Run(files, initial, events).applied)
    ensures Distinct(initial) ==> Distinct(Run(files, initial, events).applied)
  {
    SortedDistinct(files, less);
    AlwaysInOrder(files, initial, events);
    if Distinct(initial) { GrownDistinct(files, initial, Run(files, initial, events).applied); }
  }

  /** On a fresh database the applied versions are a repeat-free prefix of the sorted files. */
  lemma AppliedIsAPrefix(files: seq<string>, less: (string, string) -> bool, events: seq<Event>)
    requires Sorted(files, less)
    ensures Run(files, [], events).applied <= files && Distinct(Run(files, [], events).applied)
  {
    AppliedInOrder(files, less, [], events);
    MissingFromNothing(files);
    assert Run(files, [], events).applied[0..] == Run(files, [], events).applied;
  }

  lemma StepExtendsApplied(files: seq<string>, w: World, e: Event)
    ensures w.applied <= Step(files, w, e).applied
  {
  }

  /** Nothing is ever unapplied. */
  lemma {:induction false} AppliedOnlyGrows(files: seq<string>, initial: seq<string>, events: seq<Event>, more: seq<Event>)
    ensures Run(files, initial, events).applied <= Run(files, initial, events + more).applied
    decreases |more|
  {
    if more == [] {
      assert events + more == events;
    } else {
      assert (events + more)[..|events + more| - 1] == events + more[..|more| - 1];
      AppliedOnlyGrows(files, initial, events, more[..|more| - 1]);
      StepExtendsApplied(files, Run(files, initial, events + more[..|more| - 1]), more[|more| - 1]);
    }
  }

  /** Once some Migrate has returned without error, then and ever after the missing files are
      applied, in order and nothing else. */
  lemma ReturnedMeansMigrated(files: seq<string>, less: (string, string) -> bool, initial: seq<string>,
                              events: seq<Event>, p: nat, more: seq<Event>)
    requires Sorted(files, less) && ProcessAt(Run(files, initial, events), p) == Returned(true)
    ensures Run(files, initial, events + more).applied == initial + Missing(files, initial)
  {
    SortedDistinct(files, less);
    AlwaysInOrder(files, initial, events);
    AlwaysInOrder(files, initial, events + more);
    AppliedOnlyGrows(files, initial, events, more);
    NothingMissing(files, initial, Run(files, initial, events + more).applied);
  }

  // ----- the loop as code -----

  /** File k is the first missing one whose transaction did not simply commit; it is itself
      applied exactly when only the reply was lost. */
  ghost predicate StoppedAt(files: seq<string>, fates: seq<Fate>, before: seq<string>, applied: seq<string>, k: int) {
    && 0 <= k < |files| == |fates| && files[k] !in before && fates[k] != Commit
    && (forall j | 0 <= j < k && files[j] !in before :: fates[j] == Commit)
    && applied == before + Missing(files[..k], before) + if fates[k] == Abort then [] else [files[k]]
  }

  lemma InLoop(files: seq<string>, before: seq<string>, k: nat)
    requires Distinct(files) && k < |files|
    ensures files[k] in before + Missing(files[..k], before) <==> files[k] in before
  {
    MissingMembers(files[..k], before, files[k]);
  }

  /** What one process does from file k on when it is alone: check, apply, and so on. Events for
      a phase it is not in change nothing. */
  ghost function Solo(files: seq<string>, fates: seq<Fate>, w: World, k: nat): World
    requires |fates| == |files| && k <= |files|
    decreases |files| - k
  {
    var checked := Step(files, w, Check(0));
    if k == |files| then checked else Solo(files, fates, Step(files, checked, Apply(0, fates[k])), k + 1)
  }

  /** The process holds the lock and is about to check file k. */
  function At(applied: seq<string>, k: nat): World {
    World(applied, Some(0), map[0 := Checking(k)])
  }

  function Ended(applied: seq<string>, ok: bool): World {
    World(applied, None, map[0 := Returned(ok)])
  }

  lemma {:induction false} EndedStays(files: seq<string>, fates: seq<Fate>, applied: seq<string>, k: nat)
    requires |fates| == |files| && k <= |files|
    ensures Solo(files, fates, Ended(applied, false), k) == Ended(applied, false)
    decreases |files| - k
  {
    if k < |files| { EndedStays(files, fates, applied, k + 1); }
  }

  /** One round of the loop. */
  lemma SoloRound(files: seq<string>, fates: seq<Fate>, applied: seq<string>, k: nat)
    requires |fates| == |files| && k < |files|
    ensures var next := if files[k] in applied || fates[k] == Abort then applied else applied + [files[k]];
      Solo(files, fates, At(applied, k), k) ==
        if files[k] in applied || fates[k] == Commit then Solo(files, fates, At(next, k + 1), k + 1) else Ended(next, false)
  {
    var checked := Step(files, At(applied, k), Check(0));
    var round := Step(files, checked, Apply(0, fates[k]));
    if files[k] in applied {
      assert round == checked == At(applied, k + 1);
    } else {
      assert checked == World(applied, Some(0), map[0 := Applying(k)]);
      if fates[k] == Commit {
        assert round == At(applied + [files[k]], k + 1);
      } else {
        var next := if fates[k] == Abort then applied else applied + [files[k]];
        assert round == Ended(next, false);
        EndedStays(files, fates, next, k + 1);
      }
    }
  }

  /** One round, as a statement about a final world. */
  ghost predicate Leads(files: seq<string>, fates: seq<Fate>, applied: seq<string>, k: nat, final: World) {
    |fates| == |files| && k <= |files| && Solo(files, fates, At(applied, k), k) == final
  }

  lemma SkipRound(files: seq<string>, fates: seq<Fate>, applied: seq<string>, k: nat, final: World)
    requires Leads(files, fates, applied, k, final) && k < |files| && files[k] in applied
    ensures Leads(files, fates, applied, k + 1, final)
  {
    SoloRound(files, fates, applied, k);
  }

  lemma CommitRound(files: seq<string>, fates: seq<Fate>, applied: seq<string>, k: nat, final: World)
    requires Leads(files, fates, applied, k, final) && k < |files| && files[k] !in applied && fates[k] == Commit
    ensures Leads(files, fates, applied + [files[k]], k + 1, final)
  {
    SoloRound(files, fates, applied, k);
  }

  lemma LastRound(files: seq<string>, fates: seq<Fate>, applied: seq<string>, k: nat, final: World)
    requires Leads(files, fates, applied, k, final) && k < |files| && files[k] !in applied && fates[k] != Commit
    ensures final == Ended(if fates[k] == Abort then applied else applied + [files[k]], false)
  {
    SoloRound(files, fates, applied, k);
  }

  lemma SoloEnd(files: seq<string>, fates: seq<Fate>, applied: seq<string>)
    requires |fates| == |files|
    ensures Solo(files, fates, At(applied, |files|), |files|) == Ended(applied, true)
  {
  }

  class Database {
    var applied: seq<string>

    constructor ()
      ensures applied == []
    {
      applied := [];
    }

    /** The loop over the files; final is where the protocol leads a process that is alone. */
    method ApplyAll(files: seq<string>, fates: seq<Fate>, ghost final: World) returns (ok: bool)
      requires Distinct(files) && Leads(files, fates, applied, 0, final)
      modifies this
      ensures ok ==> applied == old(applied) + Missing(files, old(applied))
      ensures !ok ==> exists k :: StoppedAt(files, fates, old(applied), applied, k)
      ensures (forall k | 0 <= k < |files| && files[k] !in old(applied) :: fates[k] == Commit) ==> ok
      ensures final == Ended(applied, ok)
    {
      ghost var before := applied;
      for k := 0 to |files|
        invariant applied == before + Missing(files[..k], before)
        invariant forall j | 0 <= j < k && files[j] !in before :: fates[j] == Commit
        invariant Leads(files, fates, applied, k, final)
      {
        InLoop(files, before, k);
        MissingNext(files, before, k);
        if files[k] in applied {
          SkipRound(files, fates, applied, k, final);
          continue;
        }
        if fates[k] == Commit {
          CommitRound(files, fates, applied, k, final);
          applied := applied + [files[k]];
        } else {
          LastRound(files, fates, applied, k, final);
          if fates[k] == CommitUnseen {
            applied := applied + [files[k]];
          }
          assert StoppedAt(files, fates, before, applied, k);
          return false;
        }
      }
      assert files[..|files|] == files;
      SoloEnd(files, fates, applied);
      ok := true;
    }

    /** Migrate under the lock, undisturbed: fates[k] says how the transaction for file k ends. */
    method Migrate(files: seq<string>, fates: seq<Fate>) returns (ok: bool)
      requires |fates| == |files| && Distinct(files)
      modifies this
      ensures ok ==> applied == old(applied) + Missing(files, old(applied))
      ensures !ok ==> exists k :: StoppedAt(files, fates, old(applied), applied, k)
      ensures (forall k | 0 <= k < |files| && files[k] !in old(applied) :: fates[k] == Commit) ==> ok
      ensures Solo(files, fates, At(old(applied), 0), 0) == Ended(applied, ok)
    {
      ok := ApplyAll(files, fates, Solo(files, fates, At(applied, 0), 0));
    }
  }
}
