/** What the protocol's steps achieve when nothing interferes: from any reachable state a draft
    automation can be activated, queued and paused, a queued run dispatched exactly when its
    devices are ready, and an available message delivered, retried or given up. */
module Progress {
  import opened Base
  import opened Tables
  import opened Protocol
  import opened RunSafety
  import opened RunHistory

  lemma LeastOfOne(id: nat)
    ensures Least({id}) == id
  {
    assert Least({id}) in {id};
  }

  // ----- automations -----

  /** Activating a draft automation makes it answer queue requests; pausing it stops that. */
  lemma ActivateQueuePause(cfg: Config, steps: seq<Step>, automation: nat, key: string) returns (run: nat)
    requires automation in Execution(cfg, steps).db.automations && Execution(cfg, steps).db.automations[automation].state == Draft
    ensures var queued := Execution(cfg, steps + [SetAutomation(automation, Draft, Active)] + [Queue(automation, key)]).db;
      run in queued.runs && SameKey(queued.runs[run], automation, key)
    ensures var paused := Execution(cfg, steps + [SetAutomation(automation, Draft, Active)] + [SetAutomation(automation, Active, Paused)]).db;
      QueueRun(paused, automation, key) == (paused, None)
  {
    var active := steps + [SetAutomation(automation, Draft, Active)];
    ExecutionExtends(cfg, steps, SetAutomation(automation, Draft, Active));
    ExecutionExtends(cfg, active, Queue(automation, key));
    ExecutionExtends(cfg, active, SetAutomation(automation, Active, Paused));
    AlwaysSafe(cfg, active);
    QueueOutcome(Execution(cfg, active).db, automation, key);
    run := QueueRun(Execution(cfg, active).db, automation, key).1.value;
  }

  // ----- runs -----

  /** The planned actions' devices are all enabled devices of the automation's household. */
  ghost predicate DevicesReady(db: Db, a: Automation) {
    && a.actions != map[]
    && forall o | o in a.actions ::
         var device := a.actions[o].device;
         device in db.devices && db.devices[device].household == a.household && db.devices[device].state == Enabled
  }

  lemma ReadyMeansAll(db: Db, a: Automation)
    ensures ReadyPrefix(db.devices, a.household, Actions(a)) == |Actions(a)| <==>
      forall o | o in a.actions :: Ready(db.devices, a.household, a.actions[o].device)
  {
    ActionsInOrder(a);
    var actions := Actions(a);
    var ready := ReadyPrefix(db.devices, a.household, actions);
    if ready == |actions| {
      forall o | o in a.actions ensures Ready(db.devices, a.household, a.actions[o].device) {
        var i := OrdinalListed(a, o);
        assert actions[i] == PlannedAt(a, o);
      }
    } else {
      assert actions[ready] == PlannedAt(a, actions[ready].ordinal);
    }
  }

  /** The transaction dispatches a running run exactly when there are actions and all their
      devices are ready. */
  lemma DispatchesIffReady(db: Db, run: nat, at: int)
    requires IdsDrawn(db) && run in db.runs && db.runs[run].state == Running && at != ZERO_TIME
    ensures var (db', outcome) := ExecuteRun(db, run, at);
      && (outcome == Dispatched <==> DevicesReady(db, db.automations[db.runs[run].automation]))
      && (outcome == Dispatched || outcome == Conflict)
      && db'.runs == if outcome == Dispatched
           then db.runs[run := db.runs[run].(state := Succeeded, errorText := None, finishedAt := Some(at))] else db.runs
  {
    var a := db.automations[db.runs[run].automation];
    ReadyMeansAll(db, a);
    assert |Actions(a)| == |a.actions|;
    assert a.actions == map[] <==> |a.actions| == 0;
  }

  /** The transaction's answer for any argument; whatever it is but success, only message ids are
      spent. */
  lemma ExecuteAnswers(db: Db, run: nat, at: int)
    requires IdsDrawn(db)
    ensures var (db', outcome) := ExecuteRun(db, run, at);
      && outcome == (if run == 0 || at == 0 then Invalid
                     else if run !in db.runs || db.runs[run].state != Running then NoRow
                     else if DevicesReady(db, db.automations[db.runs[run].automation]) then Dispatched
                     else Conflict)
      && (outcome != Dispatched ==> db' == db.(nextMessage := db'.nextMessage))
  {
    if run in db.runs && db.runs[run].state == Running && at != ZERO_TIME { DispatchesIffReady(db, run, at); }
  }

  /** The row has not been claimed yet and can be from the given time on. */
  ghost predicate AvailableFrom(m: Message, at: int) {
    m.attempts == 0 && forall now :: Available(m, now) <==> at <= now
  }

  ghost predicate AllCommandsWait(db: Db, run: nat, at: int) {
    forall id | id in CommandIds(db.outbox, run) :: AvailableFrom(db.outbox[id], at)
  }

  lemma FreshRowWaits(household: nat, automation: nat, run: nat, a: Action, at: int)
    ensures AvailableFrom(CommandRow(household, automation, run, a, at), at)
  {
  }

  lemma EnqueuedCommandsWait(outbox: map<nat, Message>, next: nat, household: nat, automation: nat, run: nat,
                             actions: seq<Action>, at: int, id: nat)
    requires (forall id | id in outbox :: id < next) && CommandIds(outbox, run) == {}
    requires id in CommandIds(outbox + CommandRows(next, household, automation, run, actions, at), run)
    ensures AvailableFrom((outbox + CommandRows(next, household, automation, run, actions, at))[id], at)
  {
    FreshCommandIds(outbox, next, household, automation, run, actions, at, run);
    assert id in Range(next, |actions|);
    InsertedRow(outbox, next, household, automation, run, actions, at, id - next);
    FreshRowWaits(household, automation, run, actions[id - next], at);
  }

  /** Every command of a run that has just been dispatched can be claimed from the run's finish
      on, and not before. */
  lemma DispatchedCommandsWait(db: Db, run: nat, at: int)
    requires RunsSafe(db) && ExecuteRun(db, run, at).1 == Dispatched
    ensures AllCommandsWait(ExecuteRun(db, run, at).0, run, at)
  {
    var automation := db.runs[run].automation;
    var household := db.automations[automation].household;
    var actions := Actions(db.automations[automation]);
    var outbox' := ExecuteRun(db, run, at).0.outbox;
    NothingYet(db, run);
    assert outbox' == db.outbox + CommandRows(db.nextMessage, household, automation, run, actions, at);
    forall id | id in CommandIds(outbox', run) ensures AvailableFrom(outbox'[id], at) {
      EnqueuedCommandsWait(db.outbox, db.nextMessage, household, automation, run, actions, at, id);
    }
  }

  lemma ClaimOnly(db: Db, run: nat, now: int)
    requires run in db.runs && db.runs[run].state == Queued
    ensures ClaimRun(db, QueuedRuns(db, {}) - {run}, now) ==
      (db.(runs := db.runs[run := db.runs[run].(state := Running, startedAt := Some(now))]), Some(run))
  {
    assert QueuedRuns(db, QueuedRuns(db, {}) - {run}) == {run};
    LeastOfOne(run);
  }

  /** An idle worker can claim any queued run that is not locked. */
  lemma CanClaim(cfg: Config, steps: seq<Step>, w: nat, run: nat) returns (claim: Step)
    requires var s := Execution(cfg, steps); run in s.db.runs && s.db.runs[run].state == Queued && RunnerAt(s, w).Idle?
    ensures var s := Execution(cfg, steps); var t := Execution(cfg, steps + [claim]);
      && t.db == s.db.(runs := s.db.runs[run := s.db.runs[run].(state := Running, startedAt := Some(s.clock))])
      && RunnerAt(t, w) == Busy(run, Executing) && t.clock == s.clock && t.publishers == s.publishers
  {
    var s := Execution(cfg, steps);
    claim := ClaimNextRun(w, QueuedRuns(s.db, {}) - {run}, true);
    ExecutionExtends(cfg, steps, claim);
    ClaimOnly(s.db, run, s.clock);
  }

  lemma ExecutedAs(cfg: Config, steps: seq<Step>, w: nat, run: nat, at: int)
    requires RunnerAt(Execution(cfg, steps), w) == Busy(run, Executing)
    ensures var s := Execution(cfg, steps); var t := Execution(cfg, steps + [Execute(w, at, Commit, false)]);
      var (db, outcome) := ExecuteRun(s.db, run, at);
      t.db == db && RunnerAt(t, w) == (if outcome == Dispatched then Idle else Busy(run, Recording(false)))
        && t.clock == s.clock && t.publishers == s.publishers
  {
    ExecutionExtends(cfg, steps, Execute(w, at, Commit, false));
  }

  lemma ReadyUnclaimed(db: Db, run: nat, claimed: Run)
    requires run in db.runs && claimed.automation == db.runs[run].automation && claimed.automation in db.automations
    ensures DevicesReady(db.(runs := db.runs[run := claimed]), db.automations[claimed.automation]) <==>
      DevicesReady(db, db.automations[db.runs[run].automation])
  {
  }

  /** Claiming and executing a queued run makes it succeed exactly when its devices are ready;
      otherwise the worker is left with a failure to record. */
  lemma QueuedRunDispatches(cfg: Config, steps: seq<Step>, w: nat, run: nat, at: int) returns (more: seq<Step>)
    requires var s := Execution(cfg, steps); run in s.db.runs && s.db.runs[run].state == Queued && RunnerAt(s, w).Idle?
    requires at != ZERO_TIME
    ensures steps <= more
    ensures var s := Execution(cfg, steps); var t := Execution(cfg, more);
      && s.db.runs[run].automation in s.db.automations && run in t.db.runs
      && if DevicesReady(s.db, s.db.automations[s.db.runs[run].automation])
         then t.db.runs[run].state == Succeeded && RunnerAt(t, w) == Idle
         else t.db.runs[run].state == Running && RunnerAt(t, w) == Busy(run, Recording(false))
    ensures var s := Execution(cfg, steps); var t := Execution(cfg, more);
      && t.clock == s.clock && t.publishers == s.publishers && t.db.automations == s.db.automations
      && t.db.runs[run].automation == s.db.runs[run].automation
      && (HasSucceeded(t.db, run) ==> AllCommandsWait(t.db, run, at))
  {
    AlwaysSafe(cfg, steps);
    var claim := CanClaim(cfg, steps, w, run);
    var claimed := steps + [claim];
    AlwaysSafe(cfg, claimed);
    more := claimed + [Execute(w, at, Commit, false)];
    ExecutedAs(cfg, claimed, w, run, at);
    DispatchesIffReady(Execution(cfg, claimed).db, run, at);
    ReadyUnclaimed(Execution(cfg, steps).db, run, Execution(cfg, claimed).db.runs[run]);
    ExecuteRunKeepsAutomations(Execution(cfg, claimed).db, run, at);
    if HasSucceeded(Execution(cfg, more).db, run) { DispatchedCommandsWait(Execution(cfg, claimed).db, run, at); }
  }

  // ----- a run that succeeds, from the empty database -----

  const LAMP: seq<Action> := [Action(1, "on", 0)]

  /** A household's lamp is enrolled, paired and enabled. */
  lemma LampEnabled(cfg: Config) returns (steps: seq<Step>)
    ensures Execution(cfg, steps) == START.(db := EMPTY.(devices := map[1 := Device(1, Enabled, 3)]))
  {
    ExecutionExtends(cfg, [], EnrollDevice(1, 1));
    steps := [] + [EnrollDevice(1, 1)];
    assert Execution(cfg, steps) == START.(db := EMPTY.(devices := map[1 := Device(1, Pending, 1)]));
    ExecutionExtends(cfg, steps, MoveDevice(1, Pending, Paired, 1));
    steps := steps + [MoveDevice(1, Pending, Paired, 1)];
    assert Execution(cfg, steps) == START.(db := EMPTY.(devices := map[1 := Device(1, Paired, 2)]));
    ExecutionExtends(cfg, steps, MoveDevice(1, Paired, Enabled, 2));
    steps := steps + [MoveDevice(1, Paired, Enabled, 2)];
  }

  lemma LampPlanned() returns (a: Automation)
    ensures a == Automation(1, Draft, ByOrdinal(LAMP)) && a.actions == map[0 := Planned(1, "on")]
  {
    assert LAMP[..0] == [];
    a := Automation(1, Draft, ByOrdinal(LAMP));
  }

  lemma LampAutomated(cfg: Config) returns (steps: seq<Step>)
    ensures var s := Execution(cfg, steps);
      && s.db.devices == map[1 := Device(1, Enabled, 3)] && s.db.runs == map[] && s.runners == map[]
      && s.db.automations == map[1 := Automation(1, Draft, map[0 := Planned(1, "on")])]
  {
    steps := LampEnabled(cfg);
    var a := LampPlanned();
    ExecutionExtends(cfg, steps, AddAutomation(1, LAMP, Commit));
    steps := steps + [AddAutomation(1, LAMP, Commit)];
  }

  lemma LampQueued(cfg: Config) returns (steps: seq<Step>, run: nat)
    ensures var s := Execution(cfg, steps);
      && s.db.devices == map[1 := Device(1, Enabled, 3)] && s.runners == map[]
      && s.db.automations == map[1 := Automation(1, Active, map[0 := Planned(1, "on")])]
      && run in s.db.runs && s.db.runs[run] == Run(1, "k", Queued, None, None, None)
  {
    steps := LampAutomated(cfg);
    ExecutionExtends(cfg, steps, SetAutomation(1, Draft, Active));
    steps := steps + [SetAutomation(1, Draft, Active)];
    assert Execution(cfg, steps).db.automations == map[1 := Automation(1, Active, map[0 := Planned(1, "on")])];
    AlwaysSafe(cfg, steps);
    QueueOutcome(Execution(cfg, steps).db, 1, "k");
    run := QueueRun(Execution(cfg, steps).db, 1, "k").1.value;
    ExecutionExtends(cfg, steps, Queue(1, "k"));
    steps := steps + [Queue(1, "k")];
  }

  lemma LampReady(db: Db, a: Automation)
    requires db.devices == map[1 := Device(1, Enabled, 3)] && a == Automation(1, Active, map[0 := Planned(1, "on")])
    ensures DevicesReady(db, a)
  {
    assert 0 in a.actions;
  }

  /** Some execution has a succeeded run, so the theorems about succeeded runs speak of something. */
  lemma SomeRunSucceeds(cfg: Config) returns (steps: seq<Step>, run: nat)
    ensures HasSucceeded(Execution(cfg, steps).db, run) && DispatchedOnce(Execution(cfg, steps).db, run)
  {
    steps, run := LampQueued(cfg);
    LampReady(Execution(cfg, steps).db, Execution(cfg, steps).db.automations[1]);
    steps := QueuedRunDispatches(cfg, steps, 0, run, 1);
    ExactlyOnceFanOut(cfg, steps, run);
  }

  /** Recording a failure fails the run with its cause; recording a cancellation puts it back in
      the queue as if it had never been claimed. */
  lemma RecordingApplies(cfg: Config, steps: seq<Step>, w: nat, run: nat, cancelled: bool, cause: string)
    requires var s := Execution(cfg, steps);
      RunnerAt(s, w) == Busy(run, Recording(cancelled)) && run in s.db.runs && s.db.runs[run].state == Running
    ensures var s := Execution(cfg, steps); var t := Execution(cfg, steps + [Record(w, cause, true)]);
      && run in t.db.runs && RunnerAt(t, w) == Idle
      && t.db.runs[run] == if cancelled
           then Run(s.db.runs[run].automation, s.db.runs[run].key, Queued, None, None, None)
           else s.db.runs[run].(state := Failed, errorText := Some(cause), finishedAt := Some(s.clock))
  {
    ExecutionExtends(cfg, steps, Record(w, cause, true));
  }

  // ----- messages -----

  lemma ClaimOnlyMessage(db: Db, id: nat, now: int)
    requires id in db.outbox && Available(db.outbox[id], now)
    ensures ClaimMessage(db, AvailableMessages(db, {}, now) - {id}, now) ==
      (db.(outbox := db.outbox[id := db.outbox[id].(lockedAt := Some(now), attempts := db.outbox[id].attempts + 1)]), Some(id))
  {
    assert AvailableMessages(db, AvailableMessages(db, {}, now) - {id}, now) == {id};
    LeastOfOne(id);
  }

  ghost predicate Holds(s: Sys, w: nat, id: nat, phase: Phase) {
    id in s.db.outbox && Outstanding(s.db.outbox[id]) && PublisherAt(s, w) == Live(id, s.db.outbox[id], s.clock, phase)
  }

  /** Nothing but this message changes. */
  ghost predicate OnlyChanges(db: Db, db': Db, id: nat) {
    id in db'.outbox && db' == db.(outbox := db.outbox[id := db'.outbox[id]])
  }

  /** A free publisher can claim any available message that is not locked, and hear about it. */
  lemma CanHold(cfg: Config, steps: seq<Step>, w: nat, id: nat) returns (more: seq<Step>)
    requires var s := Execution(cfg, steps);
      id in s.db.outbox && Available(s.db.outbox[id], s.clock) && !PublisherAt(s, w).Live?
    ensures steps <= more
    ensures var s := Execution(cfg, steps); var t := Execution(cfg, more);
      && Holds(t, w, id, Sending(false)) && t.clock == s.clock
      && t.db.outbox[id] == s.db.outbox[id].(lockedAt := Some(s.clock), attempts := s.db.outbox[id].attempts + 1)
      && OnlyChanges(s.db, t.db, id)
  {
    var s := Execution(cfg, steps);
    var claim := ClaimNextMessage(w, AvailableMessages(s.db, {}, s.clock) - {id}, true);
    ExecutionExtends(cfg, steps, claim);
    ClaimOnlyMessage(s.db, id, s.clock);
    more := steps + [claim] + [Receive(w)];
    ExecutionExtends(cfg, steps + [claim], Receive(w));
  }

  lemma SendArrives(cfg: Config, steps: seq<Step>, w: nat, id: nat)
    requires Holds(Execution(cfg, steps), w, id, Sending(false))
    ensures var s := Execution(cfg, steps); var t := Execution(cfg, steps + [Send(w, true, true)]);
      Holds(t, w, id, Sending(true)) && Seen(t.effects, Key(id)) && t.clock == s.clock && t.db == s.db
  {
    var s := Execution(cfg, steps);
    ExecutionExtends(cfg, steps, Send(w, true, true));
    if !Seen(s.effects, Key(id)) {
      var e := Effect(Key(id), s.db.outbox[id]);
      assert (s.effects + [e])[|s.effects|].key == Key(id);
    }
  }

  /** Publish returns and its outcome is saved. */
  lemma ReturnAndSave(cfg: Config, steps: seq<Step>, w: nat, id: nat, published: bool, error: string) returns (more: seq<Step>)
    requires var s := Execution(cfg, steps);
      PublisherAt(s, w).Live? && PublisherAt(s, w).phase.Sending? && Holds(s, w, id, PublisherAt(s, w).phase)
    requires published ==> PublisherAt(Execution(cfg, steps), w).phase.acked
    ensures steps <= more
    ensures var s := Execution(cfg, steps); var t := Execution(cfg, more); var m := s.db.outbox[id];
      && t.effects == s.effects && t.clock == s.clock && PublisherAt(t, w) == Free
      && t.db == SaveVerdict(s.db, id, m, Decide(cfg, m, published, error, s.clock), s.clock).0
  {
    ExecutionExtends(cfg, steps, Return(w, published, error));
    more := steps + [Return(w, published, error)] + [Save(w, true)];
    ExecutionExtends(cfg, steps + [Return(w, published, error)], Save(w, true));
  }

  lemma VerdictApplied(cfg: Config, db: Db, id: nat, published: bool, error: string, now: int)
    requires id in db.outbox && Outstanding(db.outbox[id])
    ensures var m := db.outbox[id];
      var db' := SaveVerdict(db, id, m, Decide(cfg, m, published, error, now), now).0;
      && OnlyChanges(db, db', id)
      && db'.outbox[id] ==
           if published then m.(deliveredAt := Some(now), lockedAt := None)
           else if m.attempts >= cfg.retryLimit
           then m.(failedAt := Some(now), failureReason := Some(error), lockedAt := None)
           else m.(availableAt := now + m.attempts * SECOND, lockedAt := None,
                   payload := m.payload[AttemptNumber := Num(m.attempts)][ErrorText := Text(error)])
  {
  }

  /** An available message can be delivered, and then the receiver has acted on it. */
  lemma MessageCanBeDelivered(cfg: Config, steps: seq<Step>, w: nat, id: nat) returns (more: seq<Step>)
    requires var s := Execution(cfg, steps);
      id in s.db.outbox && Available(s.db.outbox[id], s.clock) && !PublisherAt(s, w).Live?
    ensures steps <= more
    ensures var s := Execution(cfg, steps); var t := Execution(cfg, more);
      && id in t.db.outbox && t.db.outbox[id].deliveredAt == Some(s.clock) && Seen(t.effects, Key(id))
      && t.db.outbox[id].attempts == s.db.outbox[id].attempts + 1
      && OnlyChanges(s.db, t.db, id) && t.clock == s.clock && PublisherAt(t, w) == Free
  {
    more := CanHold(cfg, steps, w, id);
    SendArrives(cfg, more, w, id);
    more := more + [Send(w, true, true)];
    VerdictApplied(cfg, Execution(cfg, more).db, id, true, "", Execution(cfg, more).clock);
    more := ReturnAndSave(cfg, more, w, id, true, "");
  }

  /** A publication that fails is retried as many seconds later as there have been attempts, or
      given up at the retry limit. */
  lemma RejectedMessageWaitsOrFails(cfg: Config, steps: seq<Step>, w: nat, id: nat, error: string) returns (more: seq<Step>)
    requires var s := Execution(cfg, steps);
      id in s.db.outbox && Available(s.db.outbox[id], s.clock) && !PublisherAt(s, w).Live?
    ensures steps <= more
    ensures var s := Execution(cfg, steps); var t := Execution(cfg, more); var attempts := s.db.outbox[id].attempts + 1;
      && id in t.db.outbox && t.db.outbox[id].attempts == attempts && t.db.outbox[id].deliveredAt.None?
      && if attempts >= cfg.retryLimit
         then t.db.outbox[id].failedAt == Some(s.clock) && t.db.outbox[id].failureReason == Some(error)
         else forall now :: Available(t.db.outbox[id], now) <==> s.clock + attempts * SECOND <= now
  {
    more := CanHold(cfg, steps, w, id);
    VerdictApplied(cfg, Execution(cfg, more).db, id, false, error, Execution(cfg, more).clock);
    more := ReturnAndSave(cfg, more, w, id, false, error);
  }

  /** A released message is available again exactly from the given time on. */
  lemma ReleasedMessageWaits(db: Db, id: nat, next: int)
    requires id in db.outbox && Outstanding(db.outbox[id])
    ensures var (db', changed) := ReleaseMessage(db, id, next);
      && changed && id in db'.outbox && db'.outbox[id].attempts == db.outbox[id].attempts
      && forall now :: Available(db'.outbox[id], now) <==> next <= now
  {
  }
}
