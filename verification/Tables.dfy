/** The rows PostgreSQL keeps for devices, automations, runs, the outbox and the audit log, and
    what each SQL statement or serializable transaction does to them. Every statement is one
    total function from tables to tables; class Repository executes them step by step. */
module Tables {
  import opened Base

  datatype DeviceState = Pending | Paired | Enabled | Disabled | Retired
  datatype AutomationState = Draft | Active | Paused | Archived
  datatype RunState = Queued | Running | Succeeded | Failed | Cancelled

  datatype Device = Device(household: nat, state: DeviceState, version: nat)

  // automation_actions rows of one automation, keyed by their unique ordinal.
  datatype Planned = Planned(device: nat, action: string)
  datatype Automation = Automation(household: nat, state: AutomationState, actions: map<nat, Planned>)
  datatype Action = Action(device: nat, action: string, ordinal: nat)

  datatype Run = Run(automation: nat, key: string, state: RunState, startedAt: Option<int>,
                     errorText: Option<string>, finishedAt: Option<int>)

  // The keys of an outbox payload; "attempt" and "error" are the ones a reschedule overlays.
  datatype Field = AutomationId | RunId | DeviceId | ActionName | Ordinal | AttemptNumber | ErrorText | Extra(name: string)
  datatype Json = Num(value: int) | Text(text: string)
  // Topics and audit kinds are text in the database; only these values matter here.
  datatype Topic = DeviceCommand | OtherTopic(name: string)
  datatype Message = Message(household: nat, topic: Topic, payload: map<Field, Json>, attempts: nat,
                             availableAt: int, lockedAt: Option<int>, deliveredAt: Option<int>,
                             failedAt: Option<int>, failureReason: Option<string>)

  datatype AuditKind = RunDispatched | OtherKind(objectType: string, action: string)
  datatype Audit = Audit(household: nat, requestId: string, kind: AuditKind, objectId: string, count: nat)

  datatype Db = Db(devices: map<nat, Device>, automations: map<nat, Automation>, runs: map<nat, Run>,
                   outbox: map<nat, Message>, audits: seq<Audit>,
                   nextAutomation: nat, nextRun: nat, nextMessage: nat)

  const EMPTY := Db(map[], map[], map[], map[], [], 1, 1, 1)

  // An outbox lease expires when locked_at is more than five minutes old.
  const LEASE: int := 5 * MINUTE

  datatype Dispatch = Dispatched | Invalid | NoRow | Conflict | Broken  // Broken: the commit itself reported an error

  // ----- devices and automations -----

  function TransitionDevice(db: Db, id: nat, from: DeviceState, to: DeviceState, version: nat): (Db, bool) {
    if id in db.devices && db.devices[id].state == from && db.devices[id].version == version
    then (db.(devices := db.devices[id := db.devices[id].(state := to, version := version + 1)]), true)
    else (db, false)
  }

  function SetAutomationState(db: Db, id: nat, from: AutomationState, to: AutomationState): (Db, bool) {
    if id in db.automations && db.automations[id].state == from
    then (db.(automations := db.automations[id := db.automations[id].(state := to)]), true)
    else (db, false)
  }

  predicate Ready(devices: map<nat, Device>, household: nat, device: nat) {
    device in devices && devices[device].household == household && devices[device].state == Enabled
  }

  /** Every action names an enabled device of the household and no ordinal repeats. */
  ghost predicate Insertable(devices: map<nat, Device>, household: nat, actions: seq<Action>) {
    && (forall i | 0 <= i < |actions| :: Ready(devices, household, actions[i].device))
    && (forall i, j | 0 <= i < j < |actions| :: actions[i].ordinal != actions[j].ordinal)
  }

  function ByOrdinal(actions: seq<Action>): map<nat, Planned> {
    if actions == [] then map[]
    else var last := actions[|actions| - 1];
         ByOrdinal(actions[..|actions| - 1])[last.ordinal := Planned(last.device, last.action)]
  }

  ghost function CreateAutomation(db: Db, household: nat, actions: seq<Action>): (Db, bool) {
    if Insertable(db.devices, household, actions)
    then (db.(automations := db.automations[db.nextAutomation := Automation(household, Draft, ByOrdinal(actions))],
              nextAutomation := db.nextAutomation + 1), true)
    else (db.(nextAutomation := db.nextAutomation + 1), false)
  }

  /** The actions of an automation in ordinal order. */
  function Actions(a: Automation): (actions: seq<Action>)
    ensures |actions| == |a.actions|
  {
    var ordinals := Ascending(a.actions.Keys);
    seq(|ordinals|, i requires 0 <= i < |ordinals| =>
      Action(a.actions[ordinals[i]].device, a.actions[ordinals[i]].action, ordinals[i]))
  }

  // ----- automation runs -----

  predicate SameKey(run: Run, automation: nat, key: string) {
    run.automation == automation && run.key == key
  }

  /** INSERT ... ON CONFLICT (automation_id, idempotency_key): the existing row, or a new one. */
  function QueueRun(db: Db, automation: nat, key: string): (Db, Option<nat>) {
    if automation !in db.automations || db.automations[automation].state != Active then (db, None)
    else
      var same := set id | id in db.runs && SameKey(db.runs[id], automation, key);
      var burnt := db.(nextRun := db.nextRun + 1);
      if same != {} then (burnt, Some(Least(same)))
      else (burnt.(runs := db.runs[db.nextRun := Run(automation, key, Queued, None, None, None)]), Some(db.nextRun))
  }

  function QueuedRuns(db: Db, locked: set<nat>): set<nat> {
    set id | id in db.runs && db.runs[id].state == Queued && id !in locked
  }

  /** The first queued run, by id, that no other transaction has locked. */
  function ClaimRun(db: Db, locked: set<nat>, now: int): (Db, Option<nat>) {
    var queued := QueuedRuns(db, locked);
    if queued == {} then (db, None)
    else
      var id := Least(queued);
      (db.(runs := db.runs[id := db.runs[id].(state := Running, startedAt := Some(now))]), Some(id))
  }

  function FinishRun(db: Db, id: nat, state: RunState, cause: string, now: int): (Db, bool) {
    if id in db.runs && db.runs[id].state == Running
    then (db.(runs := db.runs[id := db.runs[id].(state := state, errorText := Some(cause), finishedAt := Some(now))]), true)
    else (db, false)
  }

  function RequeueRun(db: Db, id: nat): (Db, bool) {
    if id in db.runs && db.runs[id].state == Running
    then (db.(runs := db.runs[id := db.runs[id].(state := Queued, startedAt := None, errorText := None, finishedAt := None)]), true)
    else (db, false)
  }

  predicate Stale(run: Run, cutoff: int) {
    run.state == Running && run.startedAt.Some? && run.startedAt.value < cutoff
  }

  function FinishStaleRuns(db: Db, cutoff: int, now: int): Db {
    db.(runs := map id | id in db.runs ::
      if Stale(db.runs[id], cutoff)
      then db.runs[id].(state := Failed, errorText := Some("worker timeout"), finishedAt := Some(now))
      else db.runs[id])
  }

  function CommandPayload(automation: nat, run: nat, a: Action): map<Field, Json> {
    map[AutomationId := Num(automation), RunId := Num(run), DeviceId := Num(a.device),
        ActionName := Text(a.action), Ordinal := Num(a.ordinal)]
  }

  function CommandRow(household: nat, automation: nat, run: nat, a: Action, at: int): Message {
    Message(household, DeviceCommand, CommandPayload(automation, run, a), 0, at, None, None, None, None)
  }

  predicate Drawn(next: nat, count: nat, id: nat) {
    next <= id < next + count
  }

  function CommandRows(next: nat, household: nat, automation: nat, run: nat, actions: seq<Action>, at: int): map<nat, Message> {
    map id: nat | next <= id < next + |actions| && Drawn(next, |actions|, id) :: CommandRow(household, automation, run, actions[id - next], at)
  }

  function DispatchAudit(household: nat, run: nat, count: nat): Audit {
    Audit(household, "automation-run-" + Decimal(run), RunDispatched, Decimal(run), count)
  }

  /** How many leading actions can be enqueued before one whose device is not ready. */
  function ReadyPrefix(devices: map<nat, Device>, household: nat, actions: seq<Action>): (n: nat)
    ensures n <= |actions|
    ensures forall i | 0 <= i < n :: Ready(devices, household, actions[i].device)
    ensures n < |actions| ==> !Ready(devices, household, actions[n].device)
  {
    if actions == [] then 0
    else
      var n := ReadyPrefix(devices, household, actions[..|actions| - 1]);
      if n == |actions| - 1 && Ready(devices, household, actions[n].device) then n + 1 else n
  }

  /** Enqueue one command per action, audit and finish a locked run, unless some device is not ready. */
  function DispatchRun(db: Db, id: nat, household: nat, automation: nat, actions: seq<Action>, finishedAt: int): (Db, Dispatch)
    requires id in db.runs
  {
    var ready := ReadyPrefix(db.devices, household, actions);
    if ready < |actions| then (db.(nextMessage := db.nextMessage + ready), Conflict)
    else (db.(
      outbox := db.outbox + CommandRows(db.nextMessage, household, automation, id, actions, finishedAt),
      nextMessage := db.nextMessage + |actions|,
      audits := db.audits + [DispatchAudit(household, id, |actions|)],
      runs := db.runs[id := db.runs[id].(state := Succeeded, errorText := None, finishedAt := Some(finishedAt))]), Dispatched)
  }

  /** The serializable transaction that turns a running run into outbox commands. A transaction
      that fails leaves the tables alone; the ids it drew from the sequence stay spent. */
  function ExecuteRun(db: Db, id: nat, finishedAt: int): (Db, Dispatch) {
    if id == 0 || finishedAt == ZERO_TIME then (db, Invalid)
    else if id !in db.runs || db.runs[id].state != Running || db.runs[id].automation !in db.automations then (db, NoRow)
    else
      var automation := db.runs[id].automation;
      var actions := Actions(db.automations[automation]);
      if actions == [] then (db, Conflict)
      else DispatchRun(db, id, db.automations[automation].household, automation, actions, finishedAt)
  }

  // ----- outbox -----

  predicate Outstanding(m: Message) {
    m.deliveredAt.None? && m.failedAt.None?
  }

  predicate Available(m: Message, now: int) {
    && Outstanding(m)
    && m.availableAt <= now
    && (m.lockedAt.None? || m.lockedAt.value < now - LEASE)
  }

  function AvailableMessages(db: Db, locked: set<nat>, now: int): set<nat> {
    set id | id in db.outbox && Available(db.outbox[id], now) && id !in locked
  }

  function ClaimMessage(db: Db, locked: set<nat>, now: int): (Db, Option<nat>) {
    var available := AvailableMessages(db, locked, now);
    if available == {} then (db, None)
    else
      var id := Least(available);
      (db.(outbox := db.outbox[id := db.outbox[id].(lockedAt := Some(now), attempts := db.outbox[id].attempts + 1)]), Some(id))
  }

  function MarkDelivered(db: Db, id: nat, now: int): (Db, bool) {
    if id in db.outbox && Outstanding(db.outbox[id])
    then (db.(outbox := db.outbox[id := db.outbox[id].(deliveredAt := Some(now), lockedAt := None)]), true)
    else (db, false)
  }

  function ReleaseMessage(db: Db, id: nat, next: int): (Db, bool) {
    if id in db.outbox && Outstanding(db.outbox[id])
    then (db.(outbox := db.outbox[id := db.outbox[id].(lockedAt := None, availableAt := next)]), true)
    else (db, false)
  }

  function MarkFailed(db: Db, id: nat, reason: string, now: int): (Db, bool) {
    if id in db.outbox && Outstanding(db.outbox[id])
    then (db.(outbox := db.outbox[id := db.outbox[id].(lockedAt := None, failedAt := Some(now), failureReason := Some(reason))]), true)
    else (db, false)
  }

  /** payload || {"attempt": n, "error": text} */
  function Overlay(payload: map<Field, Json>, attempt: nat, error: string): map<Field, Json> {
    payload[AttemptNumber := Num(attempt)][ErrorText := Text(error)]
  }

  function RescheduleMessage(db: Db, id: nat, attempt: nat, next: int, error: string): (Db, bool) {
    if id in db.outbox && Outstanding(db.outbox[id])
    then (db.(outbox := db.outbox[id := db.outbox[id].(attempts := attempt, availableAt := next, lockedAt := None,
                                                       payload := Overlay(db.outbox[id].payload, attempt, error))]), true)
    else (db, false)
  }

  function AddMessage(db: Db, household: nat, topic: Topic, payload: map<Field, Json>, at: int): Db {
    db.(outbox := db.outbox[db.nextMessage := Message(household, topic, payload, 0, at, None, None, None, None)],
        nextMessage := db.nextMessage + 1)
  }
}
