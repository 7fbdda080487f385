/** What each guarded statement does, column by column: which row it picks, when it answers that it
    changed something, and what the tables hold afterwards. */
module Statements {
  import opened Base
  import opened Tables

  // Five minutes in nanoseconds.
  const FIVE_MINUTES: int := 300_000_000_000

  // ----- claims -----

  /** Neither delivered nor failed, due, and not locked within the last five minutes. */
  ghost predicate Eligible(m: Message, now: int) {
    && m.deliveredAt == None && m.failedAt == None && m.availableAt <= now
    && (m.lockedAt == None || m.lockedAt.value + FIVE_MINUTES < now)
  }

  ghost predicate CanTake(db: Db, locked: set<nat>, now: int, id: nat) {
    id in db.outbox && id !in locked && Eligible(db.outbox[id], now)
  }

  ghost predicate TakesFirst(db: Db, locked: set<nat>, now: int, id: nat) {
    CanTake(db, locked, now, id) && forall other | CanTake(db, locked, now, other) :: id <= other
  }

  lemma AvailableMeansEligible(db: Db, locked: set<nat>, now: int, id: nat)
    ensures id in AvailableMessages(db, locked, now) <==> CanTake(db, locked, now, id)
  {
  }

  /** Whatever is locked, a claim takes the first eligible message, locks it now and counts the
      attempt; it takes none exactly when none is eligible. */
  lemma ClaimTakesFirstEligible(db: Db, locked: set<nat>, now: int)
    ensures var (db', message) := ClaimMessage(db, locked, now);
      match message
      case Some(id) =>
        && TakesFirst(db, locked, now, id)
        && db' == db.(outbox := db.outbox[id := db.outbox[id].(lockedAt := Some(now), attempts := db.outbox[id].attempts + 1)])
      case None => db' == db && forall id :: !CanTake(db, locked, now, id)
  {
    forall id ensures id in AvailableMessages(db, locked, now) <==> CanTake(db, locked, now, id) {
      AvailableMeansEligible(db, locked, now, id);
    }
    var available := AvailableMessages(db, locked, now);
    if available != {} { assert IsLeast(available, Least(available)); }
  }

  lemma FirstEligibleIsTaken(db: Db, locked: set<nat>, now: int, id: nat)
    ensures ClaimMessage(db, locked, now).1 == Some(id) <==> TakesFirst(db, locked, now, id)
  {
    ClaimTakesFirstEligible(db, locked, now);
  }

  ghost predicate Waits(db: Db, locked: set<nat>, id: nat) {
    id in db.runs && id !in locked && db.runs[id].state == Queued
  }

  ghost predicate WaitsFirst(db: Db, locked: set<nat>, id: nat) {
    Waits(db, locked, id) && forall other | Waits(db, locked, other) :: id <= other
  }

  lemma QueuedMeansWaiting(db: Db, locked: set<nat>, id: nat)
    ensures id in QueuedRuns(db, locked) <==> Waits(db, locked, id)
  {
  }

  /** Whatever is locked, a claim takes the first queued run and starts it now; it takes none
      exactly when none is queued. */
  lemma ClaimTakesFirstQueued(db: Db, locked: set<nat>, now: int)
    ensures var (db', run) := ClaimRun(db, locked, now);
      match run
      case Some(id) =>
        && WaitsFirst(db, locked, id)
        && db' == db.(runs := db.runs[id := db.runs[id].(state := Running, startedAt := Some(now))])
      case None => db' == db && forall id :: !Waits(db, locked, id)
  {
    forall id ensures id in QueuedRuns(db, locked) <==> Waits(db, locked, id) {
      QueuedMeansWaiting(db, locked, id);
    }
    var queued := QueuedRuns(db, locked);
    if queued != {} { assert IsLeast(queued, Least(queued)); }
  }

  lemma FirstQueuedIsTaken(db: Db, locked: set<nat>, now: int, id: nat)
    ensures ClaimRun(db, locked, now).1 == Some(id) <==> WaitsFirst(db, locked, id)
  {
    ClaimTakesFirstQueued(db, locked, now);
  }

  // ----- guarded updates of runs, automations and devices -----

  ghost predicate IsRunning(db: Db, id: nat) {
    id in db.runs && db.runs[id].state == Running
  }

  /** Finishing and requeueing answer yes exactly for a running run, and touch no other row. */
  lemma RunUpdatesGuarded(db: Db, id: nat, state: RunState, cause: string, now: int)
    ensures FinishRun(db, id, state, cause, now) ==
      if IsRunning(db, id)
      then (db.(runs := db.runs[id := Run(db.runs[id].automation, db.runs[id].key, state, db.runs[id].startedAt, Some(cause), Some(now))]), true)
      else (db, false)
    ensures RequeueRun(db, id) ==
      if IsRunning(db, id)
      then (db.(runs := db.runs[id := Run(db.runs[id].automation, db.runs[id].key, Queued, None, None, None)]), true)
      else (db, false)
  {
  }

  /** A state change answers yes exactly when the automation is in the expected state. */
  lemma AutomationUpdateGuarded(db: Db, id: nat, from: AutomationState, to: AutomationState)
    ensures SetAutomationState(db, id, from, to) ==
      if id in db.automations && db.automations[id].state == from
      then (db.(automations := db.automations[id := Automation(db.automations[id].household, to, db.automations[id].actions)]), true)
      else (db, false)
  {
  }

  /** A transition answers yes exactly when state and version are the expected ones, and raises
      the version by one. */
  lemma DeviceUpdateGuarded(db: Db, id: nat, from: DeviceState, to: DeviceState, version: nat)
    ensures TransitionDevice(db, id, from, to, version) ==
      if id in db.devices && db.devices[id].state == from && db.devices[id].version == version
      then (db.(devices := db.devices[id := Device(db.devices[id].household, to, version + 1)]), true)
      else (db, false)
  {
  }

  // ----- guarded updates of messages -----

  ghost predicate Open(db: Db, id: nat) {
    id in db.outbox && db.outbox[id].deliveredAt == None && db.outbox[id].failedAt == None
  }

  /** Whether the update answered yes, and that it replaced this row if so and nothing otherwise. */
  ghost predicate Replaces(db: Db, result: (Db, bool), id: nat, row: Message) {
    if Open(db, id) then result == (db.(outbox := db.outbox[id := row]), true) else result == (db, false)
  }

  /** The four updates of a message answer yes exactly when it is neither delivered nor failed. */
  lemma MessageUpdatesGuarded(db: Db, id: nat, attempt: nat, next: int, text: string, now: int)
    requires id in db.outbox
    ensures var m := db.outbox[id];
      && Replaces(db, MarkDelivered(db, id, now), id, m.(deliveredAt := Some(now), lockedAt := None))
      && Replaces(db, ReleaseMessage(db, id, next), id, m.(availableAt := next, lockedAt := None))
      && Replaces(db, MarkFailed(db, id, text, now), id, m.(failedAt := Some(now), failureReason := Some(text), lockedAt := None))
      && Replaces(db, RescheduleMessage(db, id, attempt, next, text), id,
           m.(attempts := attempt, availableAt := next, lockedAt := None,
              payload := m.payload[AttemptNumber := Num(attempt)][ErrorText := Text(text)]))
  {
  }

  lemma UnknownMessageRefused(db: Db, id: nat, attempt: nat, next: int, text: string, now: int)
    requires id !in db.outbox
    ensures MarkDelivered(db, id, now) == ReleaseMessage(db, id, next) == (db, false)
    ensures MarkFailed(db, id, text, now) == RescheduleMessage(db, id, attempt, next, text) == (db, false)
  {
  }

  /** An added message says what it was given, can be claimed from its time on and not before,
      and replaces no other. */
  lemma AddedMessageWaits(db: Db, household: nat, topic: Topic, payload: map<Field, Json>, at: int)
    requires db.nextMessage !in db.outbox
    ensures var db' := AddMessage(db, household, topic, payload, at); var id := db.nextMessage;
      && id in db'.outbox && db'.outbox - {id} == db.outbox && db' == db.(outbox := db'.outbox, nextMessage := id + 1)
      && db'.outbox[id].household == household && db'.outbox[id].topic == topic
      && db'.outbox[id].payload == payload && db'.outbox[id].attempts == 0
      && forall now :: Eligible(db'.outbox[id], now) <==> at <= now
  {
  }
}
