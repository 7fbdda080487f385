/** The life of one run and one automation over a whole execution: which edges a run's state may
    take, that a key always names the same run, that a sweep fails exactly the runs claimed before
    its cutoff, and that a paused automation stays quiet. */
module RunHistory {
  import opened Base
  import opened Tables
  import opened Protocol
  import opened RunSafety

  // ----- one step -----

  ghost predicate Edge(before: Run, after: Run, clock: int) {
    || after == before
    || (before.state == Queued && after.state == Running && after.startedAt == Some(clock))
    || (before.state == Running && (after.state == Queued || after.state == Succeeded || after.state == Failed))
  }

  /** The run is still there, under its key, and its row moved along an edge or not at all. */
  ghost predicate Moved(db: Db, db': Db, run: nat, clock: int)
    requires run in db.runs
  {
    && run in db'.runs && db'.runs[run].automation == db.runs[run].automation && db'.runs[run].key == db.runs[run].key
    && Edge(db.runs[run], db'.runs[run], clock)
  }

  lemma ClaimMoves(s: Sys, w: nat, locked: set<nat>, replySeen: bool, run: nat)
    requires run in s.db.runs
    ensures Moved(s.db, ClaimRunStep(s, w, locked, replySeen).db, run, s.clock)
  {
    if ClaimRun(s.db, locked, s.clock).1.Some? {
      var claimed := ClaimRunShape(s.db, locked, s.clock);
    }
  }

  lemma ExecuteRunMoves(db: Db, own: nat, at: int, run: nat, clock: int)
    requires run in db.runs
    ensures Moved(db, ExecuteRun(db, own, at).0, run, clock)
  {
  }

  lemma AfterExecuteMoves(s: Sys, w: nat, own: nat, db: Db, outcome: Dispatch, fate: Fate, cancelled: bool, run: nat)
    requires run in s.db.runs && Moved(s.db, db, run, s.clock)
    ensures Moved(s.db, AfterExecute(s, w, own, db, outcome, fate, cancelled).db, run, s.clock)
  {
  }

  lemma ExecuteMoves(s: Sys, w: nat, finishedAt: int, fate: Fate, cancelled: bool, run: nat)
    requires run in s.db.runs
    ensures Moved(s.db, ExecuteStep(s, w, finishedAt, fate, cancelled).db, run, s.clock)
  {
    var r := RunnerAt(s, w);
    if r.Busy? && r.stage == Executing {
      var (db, outcome) := ExecuteRun(s.db, r.run, finishedAt);
      ExecuteRunMoves(s.db, r.run, finishedAt, run, s.clock);
      AfterExecuteMoves(s, w, r.run, db, outcome, fate, cancelled, run);
    }
  }

  predicate TouchesRuns(step: Step) {
    step.Queue? || step.ClaimNextRun? || step.Execute? || step.Record? || step.Sweep?
  }

  lemma CreationLeavesRuns(s: Sys, household: nat, actions: seq<Action>, fate: Fate)
    ensures AddAutomationStep(s, household, actions, fate).db.runs == s.db.runs
  {
  }

  lemma RowsUntouched(cfg: Config, s: Sys, step: Step)
    requires !IsPublishing(step) && !TouchesRuns(step)
    ensures Apply(cfg, s, step).db.runs == s.db.runs
  {
    if step.AddAutomation? { CreationLeavesRuns(s, step.household, step.actions, step.fate); }
  }

  lemma QueueMoves(db: Db, automation: nat, key: string, run: nat, clock: int)
    requires IdsDrawn(db) && run in db.runs
    ensures Moved(db, QueueRun(db, automation, key).0, run, clock)
  {
  }

  lemma RecordMoves(s: Sys, w: nat, cause: string, applied: bool, run: nat)
    requires run in s.db.runs
    ensures Moved(s.db, RecordStep(s, w, cause, applied).db, run, s.clock)
  {
  }

  lemma SweepMoves(db: Db, cutoff: int, now: int, run: nat)
    requires run in db.runs
    ensures Moved(db, FinishStaleRuns(db, cutoff, now), run, now)
  {
  }

  /** Whatever the step, every run keeps its key and moves along an edge or not at all. */
  lemma StepMoves(cfg: Config, s: Sys, step: Step, run: nat)
    requires IdsDrawn(s.db) && run in s.db.runs
    ensures Moved(s.db, Apply(cfg, s, step).db, run, s.clock)
  {
    if IsPublishing(step) {
      PublishingFrame(cfg, s, step);
    } else if step.Execute? {
      ExecuteMoves(s, step.worker, step.finishedAt, step.fate, step.cancelled, run);
    } else if step.ClaimNextRun? {
      ClaimMoves(s, step.worker, step.locked, step.replySeen, run);
    } else if step.Queue? {
      QueueMoves(s.db, step.automation, step.key, run, s.clock);
    } else if step.Record? {
      RecordMoves(s, step.worker, step.cause, step.applied, run);
    } else if step.Sweep? {
      SweepMoves(s.db, step.cutoff, s.clock, run);
    } else {
      RowsUntouched(cfg, s, step);
    }
  }

  ghost predicate Settled(db: Db, run: nat) {
    run in db.runs && (db.runs[run].state == Succeeded || db.runs[run].state == Failed)
  }

  /** Succeeded and failed are absorbing: whatever happens next, the row never changes again. */
  lemma {:induction false} SettledForever(cfg: Config, steps: seq<Step>, more: seq<Step>, run: nat)
    requires Settled(Execution(cfg, steps).db, run)
    ensures run in Execution(cfg, steps + more).db.runs
    ensures Execution(cfg, steps + more).db.runs[run] == Execution(cfg, steps).db.runs[run]
    decreases |more|
  {
    if more == [] {
      assert steps + more == steps;
    } else {
      var all := steps + more;
      assert all[..|all| - 1] == steps + more[..|more| - 1];
      SettledForever(cfg, steps, more[..|more| - 1], run);
      AlwaysSafe(cfg, all[..|all| - 1]);
      StepMoves(cfg, Execution(cfg, all[..|all| - 1]), all[|all| - 1], run);
    }
  }

  /** A run that was not there before was just queued, for an active automation. */
  ghost predicate JustQueued(db: Db, db': Db, run: nat) {
    run in db'.runs && run !in db.runs ==>
      && db'.runs[run].state == Queued && db'.runs[run].automation in db.automations
      && db.automations[db'.runs[run].automation].state == Active
  }

  lemma ExecuteAddsNoRun(s: Sys, w: nat, finishedAt: int, fate: Fate, cancelled: bool)
    ensures ExecuteStep(s, w, finishedAt, fate, cancelled).db.runs.Keys == s.db.runs.Keys
  {
    var r := RunnerAt(s, w);
    if r.Busy? && r.stage == Executing {
      ExecuteOnlyFinishes(s.db, r.run, finishedAt);
    }
  }

  lemma QueueQueues(db: Db, automation: nat, key: string, run: nat)
    ensures JustQueued(db, QueueRun(db, automation, key).0, run)
  {
  }

  lemma RecordAddsNoRun(s: Sys, w: nat, cause: string, applied: bool, run: nat)
    ensures run in RecordStep(s, w, cause, applied).db.runs ==> run in s.db.runs
  {
  }

  lemma StepQueues(cfg: Config, s: Sys, step: Step, run: nat)
    ensures JustQueued(s.db, Apply(cfg, s, step).db, run)
  {
    if IsPublishing(step) {
      PublishingFrame(cfg, s, step);
    } else if step.Execute? {
      ExecuteAddsNoRun(s, step.worker, step.finishedAt, step.fate, step.cancelled);
    } else if step.ClaimNextRun? {
      if ClaimRun(s.db, step.locked, s.clock).1.Some? {
        var claimed := ClaimRunShape(s.db, step.locked, s.clock);
      }
    } else if step.Queue? {
      QueueQueues(s.db, step.automation, step.key, run);
    } else if step.Record? {
      RecordAddsNoRun(s, step.worker, step.cause, step.applied, run);
    } else if !step.Sweep? {
      RowsUntouched(cfg, s, step);
    }
  }

  // ----- a key names one run -----

  /** A queue request is answered exactly for an active automation, with a run of its key: the
      one there is, or else a new queued one. */
  lemma QueueOutcome(db: Db, automation: nat, key: string)
    requires IdsDrawn(db)
    ensures var (db', run) := QueueRun(db, automation, key);
      && (run.Some? <==> automation in db.automations && db.automations[automation].state == Active)
      && (run.None? ==> db' == db)
      && (run.Some? ==> run.value in db'.runs && db'.runs[run.value].automation == automation && db'.runs[run.value].key == key)
      && (run.Some? ==> if run.value in db.runs then db'.runs == db.runs
                        else db'.runs == db.runs[run.value := Run(automation, key, Queued, None, None, None)])
      && (run.Some? && run.value !in db.runs ==>
            forall id | id in db.runs :: db.runs[id].automation != automation || db.runs[id].key != key)
  {
    var same := set id | id in db.runs && SameKey(db.runs[id], automation, key);
    if same == {} {
      forall id | id in db.runs ensures !SameKey(db.runs[id], automation, key) {
        assert SameKey(db.runs[id], automation, key) ==> id in same;
      }
    } else {
      assert Least(same) in same;
    }
  }

  lemma {:induction false} KeyStays(cfg: Config, steps: seq<Step>, more: seq<Step>, run: nat)
    requires run in Execution(cfg, steps).db.runs
    ensures var db := Execution(cfg, steps).db; var db' := Execution(cfg, steps + more).db;
      run in db'.runs && db'.runs[run].automation == db.runs[run].automation && db'.runs[run].key == db.runs[run].key
    decreases |more|
  {
    if more == [] {
      assert steps + more == steps;
    } else {
      var all := steps + more;
      assert all[..|all| - 1] == steps + more[..|more| - 1];
      KeyStays(cfg, steps, more[..|more| - 1], run);
      AlwaysSafe(cfg, all[..|all| - 1]);
      StepMoves(cfg, Execution(cfg, all[..|all| - 1]), all[|all| - 1], run);
    }
  }

  lemma OnlyRunOfKey(db: Db, automation: nat, key: string, run: nat)
    requires IdsDrawn(db) && KeysUnique(db) && run in db.runs && SameKey(db.runs[run], automation, key)
    requires automation in db.automations && db.automations[automation].state == Active
    ensures QueueRun(db, automation, key).1 == Some(run) && QueueRun(db, automation, key).0.runs == db.runs
  {
    QueueOutcome(db, automation, key);
  }

  /** Queueing is idempotent for ever: once a request has been answered, every later request with
      that key of the automation, while it is active, gets the same run and adds none. */
  lemma QueueAgain(cfg: Config, steps: seq<Step>, automation: nat, key: string, more: seq<Step>)
    requires QueueRun(Execution(cfg, steps).db, automation, key).1.Some?
    requires var later := Execution(cfg, steps + [Queue(automation, key)] + more).db;
      automation in later.automations && later.automations[automation].state == Active
    ensures var run := QueueRun(Execution(cfg, steps).db, automation, key).1;
      var later := Execution(cfg, steps + [Queue(automation, key)] + more).db;
      QueueRun(later, automation, key).1 == run && QueueRun(later, automation, key).0.runs == later.runs
  {
    var queued := steps + [Queue(automation, key)];
    var run := QueueRun(Execution(cfg, steps).db, automation, key).1.value;
    ExecutionExtends(cfg, steps, Queue(automation, key));
    AlwaysSafe(cfg, steps);
    QueueOutcome(Execution(cfg, steps).db, automation, key);
    KeyStays(cfg, queued, more, run);
    AlwaysSafe(cfg, queued + more);
    OnlyRunOfKey(Execution(cfg, queued + more).db, automation, key, run);
  }

  // ----- sweeps -----

  ghost predicate Claims(s: Sys, t: Sys, run: nat) {
    run in s.db.runs && s.db.runs[run].state == Queued && run in t.db.runs && t.db.runs[run].state == Running
  }

  /** When a run was last turned from queued to running. */
  ghost function ClaimedAt(cfg: Config, steps: seq<Step>, run: nat): Option<int> {
    if steps == [] then None
    else
      var before := steps[..|steps| - 1];
      if Claims(Execution(cfg, before), Execution(cfg, steps), run) then Some(Execution(cfg, before).clock)
      else ClaimedAt(cfg, before, run)
  }

  ghost predicate RunsAt(s: Sys, run: nat) {
    run in s.db.runs && s.db.runs[run].state == Running
  }

  lemma StartedWhenClaimed(cfg: Config, s: Sys, step: Step, run: nat)
    requires IdsDrawn(s.db) && RunsAt(Apply(cfg, s, step), run)
    ensures run in s.db.runs
    ensures var t := Apply(cfg, s, step);
      if Claims(s, t, run) then t.db.runs[run].startedAt == Some(s.clock)
      else RunsAt(s, run) && t.db.runs[run].startedAt == s.db.runs[run].startedAt
  {
    StepQueues(cfg, s, step, run);
    StepMoves(cfg, s, step, run);
  }

  /** A running run carries the time of its last claim. */
  lemma {:induction false} RunningSinceClaim(cfg: Config, steps: seq<Step>, run: nat)
    requires RunsAt(Execution(cfg, steps), run)
    ensures ClaimedAt(cfg, steps, run).Some? && Execution(cfg, steps).db.runs[run].startedAt == ClaimedAt(cfg, steps, run)
  {
    if steps != [] {
      var before, step := steps[..|steps| - 1], steps[|steps| - 1];
      AlwaysSafe(cfg, before);
      StartedWhenClaimed(cfg, Execution(cfg, before), step, run);
      if !Claims(Execution(cfg, before), Execution(cfg, steps), run) { RunningSinceClaim(cfg, before, run); }
    }
  }

  ghost predicate ClaimedBefore(cfg: Config, steps: seq<Step>, run: nat, cutoff: int) {
    ClaimedAt(cfg, steps, run).Some? && ClaimedAt(cfg, steps, run).value < cutoff
  }

  function SweptRow(row: Run, now: int): Run {
    row.(state := Failed, errorText := Some("worker timeout"), finishedAt := Some(now))
  }

  lemma SweepsRow(db: Db, cutoff: int, now: int, run: nat)
    requires run in db.runs
    ensures run in FinishStaleRuns(db, cutoff, now).runs
    ensures FinishStaleRuns(db, cutoff, now).runs[run] ==
      if db.runs[run].state == Running && db.runs[run].startedAt.Some? && db.runs[run].startedAt.value < cutoff
      then SweptRow(db.runs[run], now) else db.runs[run]
  {
  }

  /** A sweep fails exactly the runs that are running since before its cutoff. */
  lemma SweepFailsIffClaimedBefore(cfg: Config, steps: seq<Step>, cutoff: int, run: nat)
    requires run in Execution(cfg, steps).db.runs
    ensures var s := Execution(cfg, steps); var t := Execution(cfg, steps + [Sweep(cutoff)]);
      && run in t.db.runs
      && t.db.runs[run] ==
           if RunsAt(s, run) && ClaimedBefore(cfg, steps, run, cutoff)
           then SweptRow(s.db.runs[run], s.clock)
           else s.db.runs[run]
  {
    ExecutionExtends(cfg, steps, Sweep(cutoff));
    SweepsRow(Execution(cfg, steps).db, cutoff, Execution(cfg, steps).clock, run);
    if RunsAt(Execution(cfg, steps), run) { RunningSinceClaim(cfg, steps, run); }
  }

  // Fifteen minutes in nanoseconds: how far back the maintenance service puts its cutoff.
  const STUCK_AFTER: int := 900_000_000_000

  /** Maintenance leaves a run alone for fifteen minutes after its claim. */
  lemma MaintenanceSparesRecent(cfg: Config, steps: seq<Step>, run: nat, claimed: int)
    requires run in Execution(cfg, steps).db.runs && ClaimedAt(cfg, steps, run) == Some(claimed)
    requires Execution(cfg, steps).clock <= claimed + STUCK_AFTER
    ensures var s := Execution(cfg, steps); var t := Execution(cfg, steps + [Sweep(s.clock - STUCK_AFTER)]);
      run in t.db.runs && t.db.runs[run] == s.db.runs[run]
  {
    SweepFailsIffClaimedBefore(cfg, steps, Execution(cfg, steps).clock - STUCK_AFTER, run);
  }

  // ----- paused automations -----

  /** The only state changes the service asks for: Activate and Pause. */
  predicate ByService(step: Step) {
    step.SetAutomation? ==> (step.was == Draft && step.becomes == Active) || (step.was == Active && step.becomes == Paused)
  }

  function Rank(state: AutomationState): nat {
    match state
    case Draft => 0
    case Active => 1
    case Paused => 2
    case Archived => 3
  }

  /** The automation plans what it planned and has not gone back. */
  ghost predicate Forward(db: Db, db': Db, automation: nat)
    requires automation in db.automations
  {
    && automation in db'.automations
    && db'.automations[automation].household == db.automations[automation].household
    && db'.automations[automation].actions == db.automations[automation].actions
    && Rank(db.automations[automation].state) <= Rank(db'.automations[automation].state)
  }

  lemma RunnersLeaveAutomations(cfg: Config, s: Sys, step: Step)
    requires IsRunnerStep(step)
    ensures Apply(cfg, s, step).db.automations == s.db.automations
  {
  }

  lemma AutomationsUntouched(cfg: Config, s: Sys, step: Step)
    requires !IsPublishing(step) && !step.Execute? && !step.AddAutomation? && !step.SetAutomation?
    ensures Apply(cfg, s, step).db.automations == s.db.automations
  {
    if IsRunnerStep(step) { RunnersLeaveAutomations(cfg, s, step); }
  }

  lemma AddForward(s: Sys, household: nat, actions: seq<Action>, fate: Fate, automation: nat)
    requires IdsDrawn(s.db) && automation in s.db.automations
    ensures Forward(s.db, AddAutomationStep(s, household, actions, fate).db, automation)
  {
  }

  lemma SetForward(db: Db, id: nat, was: AutomationState, becomes: AutomationState, automation: nat)
    requires automation in db.automations && ByService(SetAutomation(id, was, becomes))
    ensures Forward(db, SetAutomationState(db, id, was, becomes).0, automation)
  {
  }

  lemma ExecuteRunKeepsAutomations(db: Db, run: nat, at: int)
    ensures ExecuteRun(db, run, at).0.automations == db.automations
  {
  }

  lemma AfterExecuteKeepsAutomations(s: Sys, w: nat, own: nat, db: Db, outcome: Dispatch, fate: Fate, cancelled: bool)
    requires db.automations == s.db.automations
    ensures AfterExecute(s, w, own, db, outcome, fate, cancelled).db.automations == s.db.automations
  {
  }

  lemma ExecuteKeepsAutomations(s: Sys, w: nat, finishedAt: int, fate: Fate, cancelled: bool)
    ensures ExecuteStep(s, w, finishedAt, fate, cancelled).db.automations == s.db.automations
  {
    var r := RunnerAt(s, w);
    if r.Busy? && r.stage == Executing {
      var (db, outcome) := ExecuteRun(s.db, r.run, finishedAt);
      ExecuteRunKeepsAutomations(s.db, r.run, finishedAt);
      AfterExecuteKeepsAutomations(s, w, r.run, db, outcome, fate, cancelled);
    }
  }

  lemma StepForward(cfg: Config, s: Sys, step: Step, automation: nat)
    requires IdsDrawn(s.db) && ByService(step) && automation in s.db.automations
    ensures Forward(s.db, Apply(cfg, s, step).db, automation)
  {
    if IsPublishing(step) {
      PublishingFrame(cfg, s, step);
    } else if step.Execute? {
      ExecuteKeepsAutomations(s, step.worker, step.finishedAt, step.fate, step.cancelled);
    } else if step.AddAutomation? {
      AddForward(s, step.household, step.actions, step.fate, automation);
    } else if step.SetAutomation? {
      SetForward(s.db, step.automation, step.was, step.becomes, automation);
    } else {
      AutomationsUntouched(cfg, s, step);
    }
  }

  /** An automation never goes back, so it is activated and paused at most once each, and its
      actions never change. */
  lemma {:induction false} AutomationsGoForward(cfg: Config, steps: seq<Step>, more: seq<Step>, automation: nat)
    requires automation in Execution(cfg, steps).db.automations && forall k | 0 <= k < |more| :: ByService(more[k])
    ensures Forward(Execution(cfg, steps).db, Execution(cfg, steps + more).db, automation)
    decreases |more|
  {
    if more == [] {
      assert steps + more == steps;
    } else {
      var all := steps + more;
      assert all[..|all| - 1] == steps + more[..|more| - 1];
      AutomationsGoForward(cfg, steps, more[..|more| - 1], automation);
      AlwaysSafe(cfg, all[..|all| - 1]);
      assert ByService(more[|more| - 1]);
      StepForward(cfg, Execution(cfg, all[..|all| - 1]), all[|all| - 1], automation);
    }
  }

  /** Once paused, an automation never gets another run. */
  lemma {:induction false} PausedQueuesNothing(cfg: Config, steps: seq<Step>, more: seq<Step>, automation: nat, run: nat)
    requires forall k | 0 <= k < |more| :: ByService(more[k])
    requires automation in Execution(cfg, steps).db.automations && Execution(cfg, steps).db.automations[automation].state == Paused
    requires run in Execution(cfg, steps + more).db.runs && Execution(cfg, steps + more).db.runs[run].automation == automation
    ensures run in Execution(cfg, steps).db.runs
    decreases |more|
  {
    if more == [] {
      assert steps + more == steps;
    } else {
      var all := steps + more;
      var before := more[..|more| - 1];
      assert all[..|all| - 1] == steps + before;
      AlwaysSafe(cfg, steps + before);
      AutomationsGoForward(cfg, steps, before, automation);
      StepQueues(cfg, Execution(cfg, steps + before), all[|all| - 1], run);
      if run in Execution(cfg, steps + before).db.runs {
        StepMoves(cfg, Execution(cfg, steps + before), all[|all| - 1], run);
      }
      PausedQueuesNothing(cfg, steps, before, automation, run);
    }
  }
}
