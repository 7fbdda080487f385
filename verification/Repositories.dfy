/** The repository: one method per SQL statement or transaction, updating the tables in place.
    Each method is proved equal to its statement function in Tables. */
module Repositories {
  import opened Base
  import opened Tables

  lemma {:induction false} OrdinalsTaken(actions: seq<Action>, ordinal: nat)
    ensures ordinal in ByOrdinal(actions) <==> exists k :: 0 <= k < |actions| && actions[k].ordinal == ordinal
  {
    if actions != [] {
      OrdinalsTaken(actions[..|actions| - 1], ordinal);
      assert actions[|actions| - 1].ordinal == ordinal ==> exists k :: 0 <= k < |actions| && actions[k].ordinal == ordinal;
    }
  }

  lemma {:induction false} ActionStored(actions: seq<Action>, i: nat)
    requires i < |actions| && forall j, k | 0 <= j < k < |actions| :: actions[j].ordinal != actions[k].ordinal
    ensures actions[i].ordinal in ByOrdinal(actions)
    ensures ByOrdinal(actions)[actions[i].ordinal] == Planned(actions[i].device, actions[i].action)
  {
    if i < |actions| - 1 { ActionStored(actions[..|actions| - 1], i); }
  }

  ghost predicate AllReady(devices: map<nat, Device>, household: nat, actions: seq<Action>) {
    forall a | a in actions :: a.device in devices && devices[a.device].household == household && devices[a.device].state == Enabled
  }

  ghost predicate OrdinalsDiffer(actions: seq<Action>) {
    forall i, j | 0 <= i < j < |actions| :: actions[i].ordinal != actions[j].ordinal
  }

  lemma InsertableMeans(devices: map<nat, Device>, household: nat, actions: seq<Action>)
    ensures Insertable(devices, household, actions) <==> AllReady(devices, household, actions) && OrdinalsDiffer(actions)
  {
    if Insertable(devices, household, actions) {
      forall a | a in actions
        ensures a.device in devices && devices[a.device].household == household && devices[a.device].state == Enabled
      {
        var i :| 0 <= i < |actions| && actions[i] == a;
        assert Ready(devices, household, actions[i].device);
      }
    }
    if AllReady(devices, household, actions) {
      forall i | 0 <= i < |actions| ensures Ready(devices, household, actions[i].device) {
        assert actions[i] in actions;
      }
    }
  }

  /** The automation plans exactly these actions, each under its ordinal. */
  ghost predicate Plans(a: Automation, actions: seq<Action>) {
    && (forall i | 0 <= i < |actions| ::
          actions[i].ordinal in a.actions && a.actions[actions[i].ordinal] == Planned(actions[i].device, actions[i].action))
    && (forall o | o in a.actions :: exists i :: 0 <= i < |actions| && actions[i].ordinal == o)
  }

  /** A creation succeeds exactly when every device is ready and no ordinal repeats; then it adds
      one draft automation of the household that plans exactly the given actions, and otherwise
      it adds none. */
  lemma CreationPlans(db: Db, household: nat, actions: seq<Action>)
    ensures var (db', created) := Tables.CreateAutomation(db, household, actions); var id := db.nextAutomation;
      && (created <==> AllReady(db.devices, household, actions) && OrdinalsDiffer(actions))
      && db' == db.(automations := db'.automations, nextAutomation := id + 1)
      && (created ==>
            && id in db'.automations && db'.automations == db.automations[id := db'.automations[id]]
            && db'.automations[id].household == household && db'.automations[id].state == Draft
            && Plans(db'.automations[id], actions))
      && (!created ==> db'.automations == db.automations)
  {
    InsertableMeans(db.devices, household, actions);
    if Insertable(db.devices, household, actions) {
      var a := Automation(household, Draft, ByOrdinal(actions));
      forall i | 0 <= i < |actions|
        ensures actions[i].ordinal in a.actions && a.actions[actions[i].ordinal] == Planned(actions[i].device, actions[i].action)
      {
        ActionStored(actions, i);
      }
      forall o | o in a.actions ensures exists i :: 0 <= i < |actions| && actions[i].ordinal == o {
        OrdinalsTaken(actions, o);
      }
      assert Plans(a, actions);
    }
  }

  /** One more action can be inserted exactly when its device is ready and its ordinal is free. */
  lemma InsertableNext(devices: map<nat, Device>, household: nat, actions: seq<Action>, i: nat)
    requires i < |actions| && Insertable(devices, household, actions[..i])
    ensures actions[..i + 1][..i] == actions[..i]
    ensures Insertable(devices, household, actions[..i + 1]) <==>
      Ready(devices, household, actions[i].device) && actions[i].ordinal !in ByOrdinal(actions[..i])
    ensures !Insertable(devices, household, actions[..i + 1]) ==> !Insertable(devices, household, actions)
  {
    OrdinalsTaken(actions[..i], actions[i].ordinal);
    var more := actions[..i + 1];
    assert more[i] == actions[i] && forall k | 0 <= k < i :: more[k] == actions[..i][k];
  }

  lemma NoRows(outbox: map<nat, Message>, next: nat, household: nat, automation: nat, run: nat, actions: seq<Action>, at: int)
    ensures outbox + CommandRows(next, household, automation, run, actions[..0], at) == outbox
  {
  }

  /** The row for action k completes the rows for the first k + 1 actions. */
  lemma NextRow(outbox: map<nat, Message>, next: nat, household: nat, automation: nat, run: nat, actions: seq<Action>, at: int, k: nat)
    requires k < |actions|
    ensures (outbox + CommandRows(next, household, automation, run, actions[..k], at))[next + k := CommandRow(household, automation, run, actions[k], at)]
      == outbox + CommandRows(next, household, automation, run, actions[..k + 1], at)
  {
    forall id: nat ensures Drawn(next, k + 1, id) <==> Drawn(next, k, id) || id == next + k {
    }
  }

  class Repository {
    var devices: map<nat, Device>
    var automations: map<nat, Automation>
    var runs: map<nat, Run>
    var outbox: map<nat, Message>
    var audits: seq<Audit>
    var nextAutomation: nat
    var nextRun: nat
    var nextMessage: nat

    constructor ()
      ensures View() == EMPTY
    {
      devices, automations, runs, outbox, audits := map[], map[], map[], map[], [];
      nextAutomation, nextRun, nextMessage := 1, 1, 1;
    }

    function View(): Db
      reads this
    {
      Db(devices, automations, runs, outbox, audits, nextAutomation, nextRun, nextMessage)
    }

    method TransitionDevice(id: nat, from: DeviceState, to: DeviceState, version: nat) returns (changed: bool)
      modifies this
      ensures (View(), changed) == Tables.TransitionDevice(old(View()), id, from, to, version)
    {
      changed := id in devices && devices[id].state == from && devices[id].version == version;
      if changed {
        devices := devices[id := devices[id].(state := to, version := devices[id].version + 1)];
      }
    }

    method SetAutomationState(id: nat, from: AutomationState, to: AutomationState) returns (changed: bool)
      modifies this
      ensures (View(), changed) == Tables.SetAutomationState(old(View()), id, from, to)
    {
      changed := id in automations && automations[id].state == from;
      if changed {
        automations := automations[id := automations[id].(state := to)];
      }
    }

    /** Inserts the actions one by one; the first action whose device is not ready, or whose
        ordinal is taken, rolls the whole transaction back, and so does a failed commit. */
    method CreateAutomation(household: nat, actions: seq<Action>, fate: Fate) returns (created: bool)
      modifies this`automations, this`nextAutomation
      ensures created <==> fate == Commit && Insertable(devices, household, actions)
      ensures View() ==
        if fate == Abort then old(View()).(nextAutomation := old(nextAutomation) + 1)
        else Tables.CreateAutomation(old(View()), household, actions).0
    {
      var saved, id := automations, nextAutomation;
      nextAutomation := nextAutomation + 1;
      automations := automations[id := Automation(household, Draft, map[])];
      for i := 0 to |actions|
        invariant nextAutomation == id + 1
        invariant automations == saved[id := Automation(household, Draft, ByOrdinal(actions[..i]))]
        invariant Insertable(devices, household, actions[..i])
      {
        var action := actions[i];
        InsertableNext(devices, household, actions, i);
        if !Ready(devices, household, action.device) || action.ordinal in automations[id].actions {
          automations := saved;
          return false;
        }
        automations := automations[id := automations[id].(
          actions := automations[id].actions[action.ordinal := Planned(action.device, action.action)])];
      }
      assert actions[..|actions|] == actions;
      if fate == Abort {
        automations := saved;
      }
      created := fate == Commit;
    }

    method QueueRun(automation: nat, key: string) returns (run: Option<nat>)
      modifies this
      ensures (View(), run) == Tables.QueueRun(old(View()), automation, key)
    {
      if automation !in automations || automations[automation].state != Active {
        return None;
      }
      var same := set id | id in runs && SameKey(runs[id], automation, key);
      var id := nextRun;
      nextRun := nextRun + 1;
      if same != {} {
        return Some(Least(same));
      }
      runs := runs[id := Run(automation, key, Queued, None, None, None)];
      run := Some(id);
    }

    method ClaimRun(locked: set<nat>, now: int) returns (run: Option<nat>)
      modifies this
      ensures (View(), run) == Tables.ClaimRun(old(View()), locked, now)
    {
      var queued := QueuedRuns(View(), locked);
      if queued == {} {
        return None;
      }
      var id := Least(queued);
      runs := runs[id := runs[id].(state := Running, startedAt := Some(now))];
      run := Some(id);
    }

    method FinishRun(id: nat, state: RunState, cause: string, now: int) returns (changed: bool)
      modifies this
      ensures (View(), changed) == Tables.FinishRun(old(View()), id, state, cause, now)
    {
      changed := id in runs && runs[id].state == Running;
      if changed {
        runs := runs[id := runs[id].(state := state, errorText := Some(cause), finishedAt := Some(now))];
      }
    }

    method RequeueRun(id: nat) returns (changed: bool)
      modifies this
      ensures (View(), changed) == Tables.RequeueRun(old(View()), id)
    {
      changed := id in runs && runs[id].state == Running;
      if changed {
        runs := runs[id := runs[id].(state := Queued, startedAt := None, errorText := None, finishedAt := None)];
      }
    }

    method FinishStaleRuns(cutoff: int, now: int)
      modifies this
      ensures View() == Tables.FinishStaleRuns(old(View()), cutoff, now)
    {
      runs := map id | id in runs ::
        if Stale(runs[id], cutoff)
        then runs[id].(state := Failed, errorText := Some("worker timeout"), finishedAt := Some(now))
        else runs[id];
    }

    /** Inserts one command per action until one whose device is not ready. */
    method EnqueueCommands(household: nat, automation: nat, run: nat, actions: seq<Action>, at: int) returns (ready: nat)
      modifies this`outbox, this`nextMessage
      ensures ready == ReadyPrefix(devices, household, actions)
      ensures outbox == old(outbox) + CommandRows(old(nextMessage), household, automation, run, actions[..ready], at)
      ensures nextMessage == old(nextMessage) + ready
    {
      ready := 0;
      NoRows(outbox, nextMessage, household, automation, run, actions, at);
      while ready < |actions| && Ready(devices, household, actions[ready].device)
        invariant ready <= |actions| && nextMessage == old(nextMessage) + ready
        invariant outbox == old(outbox) + CommandRows(old(nextMessage), household, automation, run, actions[..ready], at)
        invariant forall k | 0 <= k < ready :: Ready(devices, household, actions[k].device)
      {
        NextRow(old(outbox), old(nextMessage), household, automation, run, actions, at, ready);
        outbox := outbox[nextMessage := CommandRow(household, automation, run, actions[ready], at)];
        nextMessage := nextMessage + 1;
        ready := ready + 1;
      }
    }

    /** The part of the transaction after the run row is locked. */
    method DispatchActions(id: nat, household: nat, automation: nat, actions: seq<Action>, finishedAt: int) returns (result: Dispatch)
      requires id in runs
      modifies this`outbox, this`nextMessage, this`audits, this`runs
      ensures (View(), result) == DispatchRun(old(View()), id, household, automation, actions, finishedAt)
    {
      var saved := outbox;
      var ready := EnqueueCommands(household, automation, id, actions, finishedAt);
      if ready < |actions| {
        outbox := saved;
        return Conflict;
      }
      assert actions[..|actions|] == actions;
      audits := audits + [DispatchAudit(household, id, |actions|)];
      runs := runs[id := runs[id].(state := Succeeded, errorText := None, finishedAt := Some(finishedAt))];
      result := Dispatched;
    }

    /** Lock the running run, enqueue one command per action, audit, finish the run; any error
        rolls back everything but the drawn sequence numbers. */
    method ExecuteAutomationRun(id: nat, finishedAt: int, fate: Fate) returns (result: Dispatch)
      modifies this`outbox, this`nextMessage, this`audits, this`runs
      ensures var (after, outcome) := ExecuteRun(old(View()), id, finishedAt);
        if outcome != Dispatched then View() == after && result == outcome
        else if fate == Abort then View() == old(View()).(nextMessage := after.nextMessage) && result == Broken
        else View() == after && result == if fate == Commit then Dispatched else Broken
    {
      if id == 0 || finishedAt == ZERO_TIME {
        return Invalid;
      }
      if id !in runs || runs[id].state != Running || runs[id].automation !in automations {
        return NoRow;
      }
      var savedOutbox, savedAudits, savedRuns := outbox, audits, runs;
      var automation := runs[id].automation;
      var household := automations[automation].household;
      var actions := Actions(automations[automation]);
      if actions == [] {
        return Conflict;
      }
      result := DispatchActions(id, household, automation, actions, finishedAt);
      if result != Dispatched {
        return;
      }
      if fate == Abort {
        outbox, audits, runs := savedOutbox, savedAudits, savedRuns;
      }
      result := if fate == Commit then Dispatched else Broken;
    }

    method ClaimOutbox(locked: set<nat>, now: int) returns (message: Option<nat>)
      modifies this
      ensures (View(), message) == ClaimMessage(old(View()), locked, now)
    {
      var available := AvailableMessages(View(), locked, now);
      if available == {} {
        return None;
      }
      var id := Least(available);
      outbox := outbox[id := outbox[id].(lockedAt := Some(now), attempts := outbox[id].attempts + 1)];
      message := Some(id);
    }

    method MarkOutbox(id: nat, delivered: bool, next: int, now: int) returns (changed: bool)
      modifies this
      ensures (View(), changed) ==
        if delivered then MarkDelivered(old(View()), id, now) else ReleaseMessage(old(View()), id, next)
    {
      changed := id in outbox && Outstanding(outbox[id]);
      if changed {
        if delivered {
          outbox := outbox[id := outbox[id].(deliveredAt := Some(now), lockedAt := None)];
        } else {
          outbox := outbox[id := outbox[id].(lockedAt := None, availableAt := next)];
        }
      }
    }

    method RescheduleOutbox(id: nat, attempt: nat, next: int, error: string) returns (changed: bool)
      modifies this
      ensures (View(), changed) == RescheduleMessage(old(View()), id, attempt, next, error)
    {
      var data := map[AttemptNumber := Num(attempt), ErrorText := Text(error)];
      changed := id in outbox && Outstanding(outbox[id]);
      if changed {
        outbox := outbox[id := outbox[id].(attempts := attempt, availableAt := next, lockedAt := None,
                                           payload := outbox[id].payload + data)];
        assert outbox[id].payload == Overlay(old(outbox[id].payload), attempt, error);
      }
    }

    method MarkOutboxFailed(id: nat, reason: string, now: int) returns (changed: bool)
      modifies this
      ensures (View(), changed) == MarkFailed(old(View()), id, reason, now)
    {
      changed := id in outbox && Outstanding(outbox[id]);
      if changed {
        outbox := outbox[id := outbox[id].(lockedAt := None, failedAt := Some(now), failureReason := Some(reason))];
      }
    }

    method AddOutbox(household: nat, topic: Topic, payload: map<Field, Json>, at: int)
      modifies this
      ensures View() == AddMessage(old(View()), household, topic, payload, at)
    {
      outbox := outbox[nextMessage := Message(household, topic, payload, 0, at, None, None, None, None)];
      nextMessage := nextMessage + 1;
    }
  }
}
