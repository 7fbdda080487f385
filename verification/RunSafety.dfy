/** Exactly-once fan-out: whatever the workers, crashes, cancellations, requeues, sweeps and
    ambiguous commits, a succeeded run has exactly one command per action and one audit event,
    and any other run has none. */
module RunSafety {
  import opened Base
  import opened Tables
  import opened Protocol

  // ----- what the tables must say about a run -----

  predicate CommandFor(m: Message, run: nat) {
    m.topic == DeviceCommand && RunId in m.payload && m.payload[RunId] == Num(run)
  }

  /** Ids of the command rows of a run. */
  function CommandIds(outbox: map<nat, Message>, run: nat): set<nat> {
    set id | id in outbox && CommandFor(outbox[id], run)
  }

  predicate Says(m: Message, field: Field, value: Json) {
    field in m.payload && m.payload[field] == value
  }

  /** The row commands exactly this action on behalf of this run. */
  ghost predicate Carries(m: Message, household: nat, automation: nat, run: nat, a: Action) {
    && m.household == household && m.topic == DeviceCommand
    && Says(m, AutomationId, Num(automation)) && Says(m, RunId, Num(run))
    && Says(m, DeviceId, Num(a.device)) && Says(m, ActionName, Text(a.action)) && Says(m, Ordinal, Num(a.ordinal))
  }

  /** The dispatch audits of a run. */
  function DispatchAudits(audits: seq<Audit>, run: nat): seq<Audit> {
    if audits == [] then []
    else
      var last := audits[|audits| - 1];
      DispatchAudits(audits[..|audits| - 1], run) +
        if last.kind == RunDispatched && last.objectId == Decimal(run) then [last] else []
  }

  ghost predicate HasSucceeded(db: Db, run: nat) {
    run in db.runs && db.runs[run].state == Succeeded
  }

  /** ids lists the command rows of a run, smallest id first. */
  ghost predicate ListsCommands(ids: seq<nat>, outbox: map<nat, Message>, run: nat) {
    Increasing(ids) && forall id: nat :: id in ids <==> id in CommandIds(outbox, run)
  }

  ghost predicate CarryInOrder(ids: seq<nat>, outbox: map<nat, Message>, household: nat, automation: nat, run: nat, actions: seq<Action>)
  {
    |ids| == |actions| && forall i | 0 <= i < |ids| :: ids[i] in outbox && Carries(outbox[ids[i]], household, automation, run, actions[i])
  }

  /** The run's command rows are one per action, their ids in ordinal order. */
  ghost predicate OneCommandEach(outbox: map<nat, Message>, household: nat, automation: nat, run: nat, actions: seq<Action>) {
    && actions != []
    && exists ids :: ListsCommands(ids, outbox, run) && CarryInOrder(ids, outbox, household, automation, run, actions)
  }

  ghost predicate FannedOut(db: Db, run: nat)
    requires run in db.runs && db.runs[run].automation in db.automations
  {
    var automation := db.runs[run].automation;
    OneCommandEach(db.outbox, db.automations[automation].household, automation, run, Actions(db.automations[automation]))
  }

  /** The run has one dispatch audit, in its household's name, that counts its actions. */
  ghost predicate AuditedOnce(db: Db, run: nat)
    requires run in db.runs && db.runs[run].automation in db.automations
  {
    var a := db.automations[db.runs[run].automation];
    DispatchAudits(db.audits, run) == [DispatchAudit(a.household, run, |a.actions|)]
  }

  ghost predicate Accounted(db: Db, run: nat) {
    if HasSucceeded(db, run)
    then db.runs[run].automation in db.automations && FannedOut(db, run) && AuditedOnce(db, run)
    else CommandIds(db.outbox, run) == {} && DispatchAudits(db.audits, run) == []
  }

  ghost predicate IdsDrawn(db: Db) {
    && 0 < db.nextRun
    && (forall id | id in db.runs :: 0 < id < db.nextRun && db.runs[id].automation in db.automations)
    && (forall id | id in db.automations :: id < db.nextAutomation)
    && (forall id | id in db.outbox :: id < db.nextMessage)
  }

  ghost predicate KeysUnique(db: Db) {
    forall i, j | i in db.runs && j in db.runs && SameKey(db.runs[j], db.runs[i].automation, db.runs[i].key) :: i == j
  }

  ghost predicate AllAccounted(db: Db) {
    forall run: nat :: Accounted(db, run)
  }

  lemma AccountOf(db: Db, run: nat)
    requires AllAccounted(db)
    ensures Accounted(db, run)
  {
  }

  ghost predicate RunsSafe(db: Db) {
    IdsDrawn(db) && KeysUnique(db) && AllAccounted(db)
  }

  // ----- changes a run's account does not notice -----

  /** The rows agree on everything but attempts, times, and the overlaid payload fields. */
  ghost predicate SameCommand(m: Message, n: Message) {
    && m.household == n.household
    && m.topic == n.topic
    && forall f | f != AttemptNumber && f != ErrorText ::
        (f in m.payload <==> f in n.payload) && (f in m.payload ==> m.payload[f] == n.payload[f])
  }

  ghost predicate SameCommands(outbox: map<nat, Message>, outbox': map<nat, Message>) {
    outbox.Keys == outbox'.Keys && forall id | id in outbox :: SameCommand(outbox[id], outbox'[id])
  }

  lemma SameCommandsSameIds(outbox: map<nat, Message>, outbox': map<nat, Message>, run: nat)
    requires SameCommands(outbox, outbox')
    ensures CommandIds(outbox, run) == CommandIds(outbox', run)
  {
    forall id | id in outbox ensures CommandFor(outbox[id], run) <==> CommandFor(outbox'[id], run) {
      assert SameCommand(outbox[id], outbox'[id]);
    }
  }

  lemma CarriesSameCommand(m: Message, n: Message, household: nat, automation: nat, run: nat, a: Action)
    requires SameCommand(m, n) && Carries(m, household, automation, run, a)
    ensures Carries(n, household, automation, run, a)
  {
    forall f, v | f != AttemptNumber && f != ErrorText && Says(m, f, v) ensures Says(n, f, v) {
    }
  }

  lemma SameCommandsCarry(ids: seq<nat>, outbox: map<nat, Message>, outbox': map<nat, Message>,
                          household: nat, automation: nat, run: nat, actions: seq<Action>)
    requires ListsCommands(ids, outbox, run) && CarryInOrder(ids, outbox, household, automation, run, actions)
    requires CommandIds(outbox, run) == CommandIds(outbox', run)
    requires forall id | id in CommandIds(outbox, run) :: SameCommand(outbox[id], outbox'[id])
    ensures ListsCommands(ids, outbox', run) && CarryInOrder(ids, outbox', household, automation, run, actions)
  {
    forall i | 0 <= i < |ids| ensures ids[i] in outbox' && Carries(outbox'[ids[i]], household, automation, run, actions[i]) {
      assert ids[i] in ids;
      CarriesSameCommand(outbox[ids[i]], outbox'[ids[i]], household, automation, run, actions[i]);
    }
  }

  /** A run keeps its account when its row, its automation's actions, its command rows and the
      audit log look the same. */
  lemma AccountedFrame(db: Db, db': Db, run: nat)
    requires AllAccounted(db)
    requires HasSucceeded(db, run) <==> HasSucceeded(db', run)
    requires HasSucceeded(db, run) ==>
      var automation := db.runs[run].automation;
      && automation in db.automations && db'.runs[run].automation == automation
      && automation in db'.automations
      && db.automations[automation].household == db'.automations[automation].household
      && db.automations[automation].actions == db'.automations[automation].actions
    requires CommandIds(db.outbox, run) == CommandIds(db'.outbox, run)
    requires forall id | id in CommandIds(db.outbox, run) :: SameCommand(db.outbox[id], db'.outbox[id])
    requires DispatchAudits(db.audits, run) == DispatchAudits(db'.audits, run)
    ensures Accounted(db', run)
  {
    AccountOf(db, run);
    if HasSucceeded(db, run) {
      var automation := db.runs[run].automation;
      var household := db.automations[automation].household;
      var actions := Actions(db.automations[automation]);
      var ids :| ListsCommands(ids, db.outbox, run) && CarryInOrder(ids, db.outbox, household, automation, run, actions);
      SameCommandsCarry(ids, db.outbox, db'.outbox, household, automation, run, actions);
    }
  }

  lemma MessageFrame(db: Db, outbox': map<nat, Message>)
    requires RunsSafe(db) && SameCommands(db.outbox, outbox')
    ensures RunsSafe(db.(outbox := outbox'))
  {
    forall run: nat ensures Accounted(db.(outbox := outbox'), run) {
      SameCommandsSameIds(db.outbox, outbox', run);
      AccountedFrame(db, db.(outbox := outbox'), run);
    }
  }

  /** Run rows may change state among the unsuccessful ones. */
  lemma RunFrame(db: Db, runs': map<nat, Run>)
    requires RunsSafe(db) && runs'.Keys == db.runs.Keys
    requires forall id | id in runs' :: SameKey(runs'[id], db.runs[id].automation, db.runs[id].key)
    requires forall id | id in runs' :: runs'[id].state == Succeeded <==> db.runs[id].state == Succeeded
    ensures RunsSafe(db.(runs := runs'))
  {
    var db' := db.(runs := runs');
    forall run: nat ensures Accounted(db', run) {
      AccountedFrame(db, db', run);
    }
    forall i, j | i in db'.runs && j in db'.runs && SameKey(runs'[j], runs'[i].automation, runs'[i].key) ensures i == j {
      assert SameKey(db.runs[j], db.runs[i].automation, db.runs[i].key);
    }
  }

  lemma NothingYet(db: Db, run: nat)
    requires AllAccounted(db) && !HasSucceeded(db, run)
    ensures CommandIds(db.outbox, run) == {} && DispatchAudits(db.audits, run) == []
  {
    AccountOf(db, run);
  }

  // ----- statements that keep every run accounted for -----

  lemma AutomationFrame(db: Db, automations': map<nat, Automation>, next: nat)
    requires RunsSafe(db) && db.automations.Keys <= automations'.Keys
    requires db.nextAutomation <= next && forall id | id in automations' :: id < next
    requires forall id | id in db.automations ::
      db.automations[id].household == automations'[id].household && db.automations[id].actions == automations'[id].actions
    ensures RunsSafe(db.(automations := automations', nextAutomation := next))
  {
    var db' := db.(automations := automations', nextAutomation := next);
    forall run: nat ensures Accounted(db', run) {
      AccountedFrame(db, db', run);
    }
  }

  lemma QueueKeeps(db: Db, automation: nat, key: string)
    requires RunsSafe(db)
    ensures RunsSafe(QueueRun(db, automation, key).0)
  {
    var (db', run) := QueueRun(db, automation, key);
    forall run: nat ensures Accounted(db', run) {
      AccountedFrame(db, db', run);
    }
    var same := set id | id in db.runs && SameKey(db.runs[id], automation, key);
    if db'.runs != db.runs {
      assert same == {};
      forall id | id in db.runs ensures !SameKey(db.runs[id], automation, key) {
        assert SameKey(db.runs[id], automation, key) ==> id in same;
      }
    }
  }

  lemma NotifyKeepsRun(db: Db, household: nat, topic: Topic, payload: map<Field, Json>, at: int, run: nat)
    requires RunsSafe(db) && topic != DeviceCommand
    ensures Accounted(AddMessage(db, household, topic, payload, at), run)
  {
    var db' := AddMessage(db, household, topic, payload, at);
    assert db.nextMessage !in db.outbox;
    assert CommandIds(db'.outbox, run) == CommandIds(db.outbox, run);
    AccountedFrame(db, db', run);
  }

  lemma NotifyKeeps(db: Db, household: nat, topic: Topic, payload: map<Field, Json>, at: int)
    requires RunsSafe(db) && topic != DeviceCommand
    ensures RunsSafe(AddMessage(db, household, topic, payload, at))
  {
    forall run: nat ensures Accounted(AddMessage(db, household, topic, payload, at), run) {
      NotifyKeepsRun(db, household, topic, payload, at, run);
    }
  }

  function Range(first: nat, count: nat): set<nat> {
    set id: nat | first <= id < first + count && Drawn(first, count, id)
  }

  /** The rows just inserted are the commands of this run, and of no other. */
  lemma FreshCommandIds(outbox: map<nat, Message>, next: nat, household: nat, automation: nat, run: nat,
                        actions: seq<Action>, at: int, other: nat)
    requires forall id | id in outbox :: id < next
    ensures CommandIds(outbox + CommandRows(next, household, automation, run, actions, at), other) ==
      CommandIds(outbox, other) + if other == run then Range(next, |actions|) else {}
  {
    var rows := CommandRows(next, household, automation, run, actions, at);
    forall id: nat ensures id in CommandIds(outbox + rows, other) <==>
      id in CommandIds(outbox, other) || (other == run && id in Range(next, |actions|))
    {
      assert Drawn(next, |actions|, id) <==> id in rows;
    }
  }

  lemma RowCarries(household: nat, automation: nat, run: nat, a: Action, at: int)
    ensures Carries(CommandRow(household, automation, run, a, at), household, automation, run, a)
  {
  }

  lemma InsertedRow(outbox: map<nat, Message>, next: nat, household: nat, automation: nat, run: nat,
                    actions: seq<Action>, at: int, i: nat)
    requires i < |actions|
    ensures var outbox' := outbox + CommandRows(next, household, automation, run, actions, at);
      next + i in outbox' && outbox'[next + i] == CommandRow(household, automation, run, actions[i], at)
  {
    assert Drawn(next, |actions|, next + i);
  }

  lemma ConsecutiveElements(first: nat, count: nat, id: nat)
    ensures id in Consecutive(first, count) <==> id in Range(first, count)
  {
    if Drawn(first, count, id) { assert Consecutive(first, count)[id - first] == id; }
  }

  lemma CommandRowsCarry(ids: seq<nat>, outbox: map<nat, Message>, household: nat, automation: nat, run: nat,
                         actions: seq<Action>, at: int)
    requires |ids| == |actions|
    requires forall i | 0 <= i < |ids| ::
      ids[i] in outbox && outbox[ids[i]] == CommandRow(household, automation, run, actions[i], at)
    ensures CarryInOrder(ids, outbox, household, automation, run, actions)
  {
    forall i | 0 <= i < |ids| ensures Carries(outbox[ids[i]], household, automation, run, actions[i]) {
      RowCarries(household, automation, run, actions[i], at);
    }
  }

  /** Enqueueing one row per action for a run that had none gives each action its command. */
  lemma EnqueueFansOut(outbox: map<nat, Message>, next: nat, household: nat, automation: nat, run: nat,
                       actions: seq<Action>, at: int)
    requires (forall id | id in outbox :: id < next) && CommandIds(outbox, run) == {} && actions != []
    ensures OneCommandEach(outbox + CommandRows(next, household, automation, run, actions, at), household, automation, run, actions)
  {
    var outbox' := outbox + CommandRows(next, household, automation, run, actions, at);
    FreshCommandIds(outbox, next, household, automation, run, actions, at, run);
    var ids := Consecutive(next, |actions|);
    forall i | 0 <= i < |ids|
      ensures ids[i] in outbox' && outbox'[ids[i]] == CommandRow(household, automation, run, actions[i], at)
    {
      InsertedRow(outbox, next, household, automation, run, actions, at, i);
    }
    CommandRowsCarry(ids, outbox', household, automation, run, actions, at);
    forall id: nat ensures id in ids <==> id in CommandIds(outbox', run) {
      ConsecutiveElements(next, |actions|, id);
    }
    assert ListsCommands(ids, outbox', run);
  }

  lemma AuditAppended(audits: seq<Audit>, household: nat, run: nat, count: nat, other: nat)
    ensures DispatchAudits(audits + [DispatchAudit(household, run, count)], other) ==
      DispatchAudits(audits, other) + if other == run then [DispatchAudit(household, run, count)] else []
  {
    assert (audits + [DispatchAudit(household, run, count)])[..|audits|] == audits;
    if Decimal(other) == Decimal(run) { DecimalInjective(other, run); }
  }

  lemma OldRowsKept(outbox: map<nat, Message>, next: nat, household: nat, automation: nat, run: nat, actions: seq<Action>,
                    at: int, other: nat)
    requires forall id | id in outbox :: id < next
    ensures var outbox' := outbox + CommandRows(next, household, automation, run, actions, at);
      forall id | id in CommandIds(outbox, other) :: id in outbox' && SameCommand(outbox[id], outbox'[id])
  {
    forall id | id in outbox ensures !Drawn(next, |actions|, id) {
    }
  }

  lemma DispatchKeepsOther(db: Db, run: nat, household: nat, automation: nat, actions: seq<Action>, at: int, other: nat)
    requires RunsSafe(db) && run in db.runs && other != run
    requires DispatchRun(db, run, household, automation, actions, at).1 == Dispatched
    ensures Accounted(DispatchRun(db, run, household, automation, actions, at).0, other)
  {
    FreshCommandIds(db.outbox, db.nextMessage, household, automation, run, actions, at, other);
    OldRowsKept(db.outbox, db.nextMessage, household, automation, run, actions, at, other);
    AuditAppended(db.audits, household, run, |actions|, other);
    AccountedFrame(db, DispatchRun(db, run, household, automation, actions, at).0, other);
  }

  /** The run has the rows it had: its own, its commands and its audits. */
  ghost predicate SameAccount(db: Db, db': Db, run: nat) {
    && (run in db.runs <==> run in db'.runs) && (run in db.runs ==> db'.runs[run] == db.runs[run])
    && CommandIds(db'.outbox, run) == CommandIds(db.outbox, run)
    && (forall id | id in CommandIds(db.outbox, run) :: db'.outbox[id] == db.outbox[id])
    && DispatchAudits(db'.audits, run) == DispatchAudits(db.audits, run)
  }

  ghost predicate AddsMessages(outbox: map<nat, Message>, outbox': map<nat, Message>) {
    && (forall id | id in outbox :: id in outbox' && outbox'[id] == outbox[id])
    && (forall id | id in outbox' && id !in outbox ::
          outbox'[id].attempts == 0 && outbox'[id].lockedAt.None? && Outstanding(outbox'[id]))
  }

  lemma RowsAreNew(outbox: map<nat, Message>, next: nat, household: nat, automation: nat, run: nat, actions: seq<Action>, at: int)
    requires forall id | id in outbox :: id < next
    ensures AddsMessages(outbox, outbox + CommandRows(next, household, automation, run, actions, at))
  {
    forall id | id in outbox ensures !Drawn(next, |actions|, id) {
    }
  }

  lemma DispatchLeavesOther(db: Db, run: nat, household: nat, automation: nat, actions: seq<Action>, at: int, other: nat)
    requires RunsSafe(db) && run in db.runs && other != run
    requires DispatchRun(db, run, household, automation, actions, at).1 == Dispatched
    ensures SameAccount(db, DispatchRun(db, run, household, automation, actions, at).0, other)
  {
    FreshCommandIds(db.outbox, db.nextMessage, household, automation, run, actions, at, other);
    RowsAreNew(db.outbox, db.nextMessage, household, automation, run, actions, at);
    AuditAppended(db.audits, household, run, |actions|, other);
  }

  lemma ExecuteKeepsOther(db: Db, run: nat, at: int, other: nat)
    requires RunsSafe(db) && ExecuteRun(db, run, at).1 == Dispatched && other != run
    ensures Accounted(ExecuteRun(db, run, at).0, other)
    ensures SameAccount(db, ExecuteRun(db, run, at).0, other)
  {
    var automation := db.runs[run].automation;
    DispatchLeavesOther(db, run, db.automations[automation].household, automation, Actions(db.automations[automation]), at, other);
    DispatchKeepsOther(db, run, db.automations[automation].household, automation, Actions(db.automations[automation]), at, other);
  }

  lemma FannedOutAccounts(db: Db, run: nat)
    requires HasSucceeded(db, run) && db.runs[run].automation in db.automations
    requires FannedOut(db, run) && AuditedOnce(db, run)
    ensures Accounted(db, run)
  {
  }

  lemma ExecuteAccountsForRun(db: Db, run: nat, at: int)
    requires RunsSafe(db) && ExecuteRun(db, run, at).1 == Dispatched
    ensures Accounted(ExecuteRun(db, run, at).0, run)
  {
    var automation := db.runs[run].automation;
    var household := db.automations[automation].household;
    var actions := Actions(db.automations[automation]);
    NothingYet(db, run);
    EnqueueFansOut(db.outbox, db.nextMessage, household, automation, run, actions, at);
    AuditAppended(db.audits, household, run, |actions|, run);
    FannedOutAccounts(ExecuteRun(db, run, at).0, run);
  }

  lemma ExecuteKeepsIds(db: Db, run: nat, at: int)
    requires RunsSafe(db)
    ensures IdsDrawn(ExecuteRun(db, run, at).0) && KeysUnique(ExecuteRun(db, run, at).0)
  {
  }

  lemma SpendingIdsKeeps(db: Db, next: nat)
    requires RunsSafe(db) && db.nextMessage <= next
    ensures RunsSafe(db.(nextMessage := next))
  {
    forall run: nat ensures Accounted(db.(nextMessage := next), run) {
      AccountedFrame(db, db.(nextMessage := next), run);
    }
  }

  lemma ExecuteKeeps(db: Db, run: nat, at: int)
    requires RunsSafe(db)
    ensures RunsSafe(ExecuteRun(db, run, at).0)
  {
    var (db', outcome) := ExecuteRun(db, run, at);
    ExecuteKeepsIds(db, run, at);
    if outcome == Dispatched {
      forall other: nat ensures Accounted(db', other) {
        if other == run { ExecuteAccountsForRun(db, run, at); } else { ExecuteKeepsOther(db, run, at, other); }
      }
    } else {
      SpendingIdsKeeps(db, db'.nextMessage);
    }
  }

  // ----- workers -----

  /** Nobody holds a queued run, and no two workers hold the same run. */
  ghost predicate HoldersSafe(s: Sys) {
    && (forall w | w in s.runners && s.runners[w].Busy? ::
          s.runners[w].run in s.db.runs && s.db.runs[s.runners[w].run].state != Queued)
    && (forall v, w | v in s.runners && w in s.runners && s.runners[v].Busy? && s.runners[w].Busy? ::
          s.runners[v].run == s.runners[w].run ==> v == w)
  }

  ghost predicate Safe(s: Sys) {
    RunsSafe(s.db) && HoldersSafe(s)
  }

  /** Holders stay safe when no worker moves and no row enters the queue. */
  lemma HoldersFrame(s: Sys, t: Sys)
    requires HoldersSafe(s) && t.runners == s.runners
    requires forall id | id in s.db.runs :: id in t.db.runs && (t.db.runs[id].state == Queued ==> s.db.runs[id].state == Queued)
    ensures HoldersSafe(t)
  {
  }

  /** Holders stay safe when one worker turns to, or from, a run that nobody else holds. */
  lemma HoldersMove(s: Sys, t: Sys, w: nat, run: nat)
    requires HoldersSafe(s) && t.runners == s.runners[w := RunnerAt(t, w)]
    requires forall id | id in s.db.runs && id != run ::
      id in t.db.runs && (t.db.runs[id].state == Queued ==> s.db.runs[id].state == Queued)
    requires forall v | v in s.runners && s.runners[v].Busy? && v != w :: s.runners[v].run != run
    requires RunnerAt(t, w).Busy? ==> RunnerAt(t, w).run == run && run in t.db.runs && t.db.runs[run].state != Queued
    ensures HoldersSafe(t)
  {
  }

  lemma ClaimRunShape(db: Db, locked: set<nat>, now: int) returns (run: nat)
    requires ClaimRun(db, locked, now).1.Some?
    ensures ClaimRun(db, locked, now).1 == Some(run) && run in db.runs && db.runs[run].state == Queued
    ensures ClaimRun(db, locked, now).0 == db.(runs := db.runs[run := db.runs[run].(state := Running, startedAt := Some(now))])
  {
    run := ClaimRun(db, locked, now).1.value;
    assert run in QueuedRuns(db, locked);
  }

  lemma ClaimRunKeeps(cfg: Config, s: Sys, w: nat, locked: set<nat>, replySeen: bool)
    requires Safe(s)
    ensures Safe(Apply(cfg, s, ClaimNextRun(w, locked, replySeen)))
  {
    var t := Apply(cfg, s, ClaimNextRun(w, locked, replySeen));
    if t != s {
      var run := ClaimRunShape(s.db, locked, s.clock);
      RunFrame(s.db, t.db.runs);
      HoldersMove(s, t, w, run);
    }
  }

  /** A dispatch transaction touches no run row but its own, and that only to finish it. */
  ghost predicate OnlyFinishes(db: Db, db': Db, run: nat) {
    && db'.runs.Keys == db.runs.Keys
    && (forall id | id in db.runs && id != run :: db'.runs[id] == db.runs[id])
    && (run in db.runs && db'.runs[run] != db.runs[run] ==> db.runs[run].state == Running && db'.runs[run].state == Succeeded)
  }

  lemma ExecuteOnlyFinishes(db: Db, run: nat, at: int)
    ensures OnlyFinishes(db, ExecuteRun(db, run, at).0, run)
    ensures db.nextMessage <= ExecuteRun(db, run, at).0.nextMessage
  {
  }

  lemma AfterExecuteKeepsHolders(s: Sys, w: nat, run: nat, db: Db, outcome: Dispatch, fate: Fate, cancelled: bool)
    requires HoldersSafe(s) && RunnerAt(s, w) == Busy(run, Executing) && OnlyFinishes(s.db, db, run)
    ensures HoldersSafe(AfterExecute(s, w, run, db, outcome, fate, cancelled))
  {
    HoldersMove(s, AfterExecute(s, w, run, db, outcome, fate, cancelled), w, run);
  }

  lemma AfterExecuteKeepsRuns(s: Sys, w: nat, run: nat, db: Db, outcome: Dispatch, fate: Fate, cancelled: bool)
    requires RunsSafe(s.db) && RunsSafe(db) && s.db.nextMessage <= db.nextMessage
    ensures RunsSafe(AfterExecute(s, w, run, db, outcome, fate, cancelled).db)
  {
    SpendingIdsKeeps(s.db, db.nextMessage);
  }

  lemma ExecuteStepKeeps(cfg: Config, s: Sys, w: nat, finishedAt: int, fate: Fate, cancelled: bool)
    requires Safe(s)
    ensures Safe(Apply(cfg, s, Execute(w, finishedAt, fate, cancelled)))
  {
    var r := RunnerAt(s, w);
    if r.Busy? && r.stage == Executing {
      var (db, outcome) := ExecuteRun(s.db, r.run, finishedAt);
      ExecuteKeeps(s.db, r.run, finishedAt);
      ExecuteOnlyFinishes(s.db, r.run, finishedAt);
      AfterExecuteKeepsHolders(s, w, r.run, db, outcome, fate, cancelled);
      AfterExecuteKeepsRuns(s, w, r.run, db, outcome, fate, cancelled);
    }
  }

  lemma RecordedKeeps(db: Db, run: nat, cancelled: bool, cause: string, applied: bool, now: int)
    requires RunsSafe(db)
    ensures RunsSafe(Recorded(db, run, cancelled, cause, applied, now))
  {
    RunFrame(db, Recorded(db, run, cancelled, cause, applied, now).runs);
  }

  lemma RecordKeeps(cfg: Config, s: Sys, w: nat, cause: string, applied: bool)
    requires Safe(s)
    ensures Safe(Apply(cfg, s, Record(w, cause, applied)))
  {
    var r := RunnerAt(s, w);
    if r.Busy? && r.stage.Recording? {
      RecordedKeeps(s.db, r.run, r.stage.cancelled, cause, applied, s.clock);
      HoldersMove(s, RecordStep(s, w, cause, applied), w, r.run);
    }
  }

  lemma SweepKeeps(cfg: Config, s: Sys, cutoff: int)
    requires Safe(s)
    ensures Safe(Apply(cfg, s, Sweep(cutoff)))
  {
    var t := Apply(cfg, s, Sweep(cutoff));
    RunFrame(s.db, t.db.runs);
    HoldersFrame(s, t);
  }

  lemma DeviceFrame(db: Db, devices': map<nat, Device>)
    requires RunsSafe(db)
    ensures RunsSafe(db.(devices := devices'))
  {
    forall run: nat ensures Accounted(db.(devices := devices'), run) {
      AccountedFrame(db, db.(devices := devices'), run);
    }
  }

  lemma DeviceStepsKeep(cfg: Config, s: Sys, step: Step)
    requires Safe(s) && (step.EnrollDevice? || step.MoveDevice?)
    ensures Safe(Apply(cfg, s, step))
  {
    var t := Apply(cfg, s, step);
    DeviceFrame(s.db, t.db.devices);
    HoldersFrame(s, t);
  }

  lemma AddStepKeeps(s: Sys, household: nat, actions: seq<Action>, fate: Fate)
    requires Safe(s)
    ensures Safe(AddAutomationStep(s, household, actions, fate))
  {
    var t := AddAutomationStep(s, household, actions, fate);
    AutomationFrame(s.db, t.db.automations, t.db.nextAutomation);
    HoldersFrame(s, t);
  }

  lemma SetStepKeeps(cfg: Config, s: Sys, automation: nat, was: AutomationState, becomes: AutomationState)
    requires Safe(s)
    ensures Safe(Apply(cfg, s, SetAutomation(automation, was, becomes)))
  {
    var t := Apply(cfg, s, SetAutomation(automation, was, becomes));
    AutomationFrame(s.db, t.db.automations, t.db.nextAutomation);
    HoldersFrame(s, t);
  }

  lemma QueueStepKeeps(cfg: Config, s: Sys, automation: nat, key: string)
    requires Safe(s)
    ensures Safe(Apply(cfg, s, Queue(automation, key)))
  {
    QueueKeeps(s.db, automation, key);
    HoldersFrame(s, Apply(cfg, s, Queue(automation, key)));
  }

  lemma NotifyStepKeeps(cfg: Config, s: Sys, household: nat, topic: Topic, payload: map<Field, Json>, at: int)
    requires Safe(s)
    ensures Safe(Apply(cfg, s, Notify(household, topic, payload, at)))
  {
    if topic != DeviceCommand { NotifyKeeps(s.db, household, topic, payload, at); }
    HoldersFrame(s, Apply(cfg, s, Notify(household, topic, payload, at)));
  }

  /** Publishing changes no run, no audit row and no command field. */
  ghost predicate OnlyPublishes(s: Sys, t: Sys) {
    t.runners == s.runners && t.db == s.db.(outbox := t.db.outbox) && SameCommands(s.db.outbox, t.db.outbox)
  }

  predicate IsPublishing(step: Step) {
    step.ClaimNextMessage? || step.Receive? || step.Send? || step.Return? || step.Save? || step.CrashPublisher? || step.Tick?
  }

  lemma RowChangeSameCommands(outbox: map<nat, Message>, id: nat, m: Message)
    requires id in outbox && SameCommand(outbox[id], m)
    ensures SameCommands(outbox, outbox[id := m])
  {
  }

  lemma SaveOnlyPublishes(s: Sys, w: nat, applied: bool)
    ensures OnlyPublishes(s, SaveStep(s, w, applied))
  {
    var p := PublisherAt(s, w);
    if p.Live? && p.phase.Saving? && p.id in s.db.outbox {
      RowChangeSameCommands(s.db.outbox, p.id, SaveVerdict(s.db, p.id, p.row, p.phase.verdict, s.clock).0.outbox[p.id]);
    }
  }

  lemma ClaimOnlyPublishes(s: Sys, w: nat, locked: set<nat>, replySeen: bool)
    ensures OnlyPublishes(s, ClaimMessageStep(s, w, locked, replySeen))
  {
    var (db, message) := ClaimMessage(s.db, locked, s.clock);
    if message.Some? {
      RowChangeSameCommands(s.db.outbox, message.value, db.outbox[message.value]);
    }
  }

  lemma PublishingFrame(cfg: Config, s: Sys, step: Step)
    requires IsPublishing(step)
    ensures OnlyPublishes(s, Apply(cfg, s, step))
  {
    if step.Save? {
      SaveOnlyPublishes(s, step.worker, step.applied);
    } else if step.ClaimNextMessage? {
      ClaimOnlyPublishes(s, step.worker, step.locked, step.replySeen);
    } else {
      assert Apply(cfg, s, step).db == s.db;
    }
  }

  lemma PublishingKeeps(cfg: Config, s: Sys, step: Step)
    requires Safe(s) && IsPublishing(step)
    ensures Safe(Apply(cfg, s, step))
  {
    var t := Apply(cfg, s, step);
    PublishingFrame(cfg, s, step);
    MessageFrame(s.db, t.db.outbox);
    HoldersFrame(s, t);
  }

  lemma StepKeepsSafe(cfg: Config, s: Sys, step: Step)
    requires Safe(s)
    ensures Safe(Apply(cfg, s, step))
  {
    match step
    case AddAutomation(household, actions, fate) => AddStepKeeps(s, household, actions, fate);
    case SetAutomation(automation, was, becomes) => SetStepKeeps(cfg, s, automation, was, becomes);
    case Queue(automation, key) => QueueStepKeeps(cfg, s, automation, key);
    case ClaimNextRun(w, locked, replySeen) => ClaimRunKeeps(cfg, s, w, locked, replySeen);
    case Execute(w, finishedAt, fate, cancelled) => ExecuteStepKeeps(cfg, s, w, finishedAt, fate, cancelled);
    case CancelRun(w) =>
    case Record(w, cause, applied) => RecordKeeps(cfg, s, w, cause, applied);
    case CrashRunner(w) =>
    case Sweep(cutoff) => SweepKeeps(cfg, s, cutoff);
    case Notify(household, topic, payload, at) => NotifyStepKeeps(cfg, s, household, topic, payload, at);
    case _ =>
      if IsPublishing(step) { PublishingKeeps(cfg, s, step); }
      else { DeviceStepsKeep(cfg, s, step); }
  }

  // ----- what the automation side does to the outbox -----

  ghost predicate PublishingUntouched(s: Sys, t: Sys) {
    t.publishers == s.publishers && t.histories == s.histories && t.clock == s.clock && t.effects == s.effects
  }

  lemma ExecuteAdds(db: Db, run: nat, at: int)
    requires IdsDrawn(db)
    ensures AddsMessages(db.outbox, ExecuteRun(db, run, at).0.outbox)
  {
    if ExecuteRun(db, run, at).1 == Dispatched {
      var automation := db.runs[run].automation;
      var actions := Actions(db.automations[automation]);
      RowsAreNew(db.outbox, db.nextMessage, db.automations[automation].household, automation, run, actions, at);
    }
  }

  lemma AfterExecuteAdds(s: Sys, w: nat, run: nat, db: Db, outcome: Dispatch, fate: Fate, cancelled: bool)
    requires AddsMessages(s.db.outbox, db.outbox)
    ensures AddsMessages(s.db.outbox, AfterExecute(s, w, run, db, outcome, fate, cancelled).db.outbox)
    ensures PublishingUntouched(s, AfterExecute(s, w, run, db, outcome, fate, cancelled))
  {
  }

  lemma ExecuteStepAdds(s: Sys, w: nat, finishedAt: int, fate: Fate, cancelled: bool)
    requires IdsDrawn(s.db)
    ensures AddsMessages(s.db.outbox, ExecuteStep(s, w, finishedAt, fate, cancelled).db.outbox)
    ensures PublishingUntouched(s, ExecuteStep(s, w, finishedAt, fate, cancelled))
  {
    var r := RunnerAt(s, w);
    if r.Busy? && r.stage == Executing {
      ExecuteAdds(s.db, r.run, finishedAt);
      AfterExecuteAdds(s, w, r.run, ExecuteRun(s.db, r.run, finishedAt).0, ExecuteRun(s.db, r.run, finishedAt).1, fate, cancelled);
    }
  }

  ghost predicate MessagesUntouched(s: Sys, t: Sys) {
    t.db.outbox == s.db.outbox && PublishingUntouched(s, t)
  }

  predicate IsRunnerStep(step: Step) {
    step.ClaimNextRun? || step.CancelRun? || step.Record? || step.CrashRunner?
  }

  lemma RunnerStepsTouchNoMessage(cfg: Config, s: Sys, step: Step)
    requires IsRunnerStep(step)
    ensures MessagesUntouched(s, Apply(cfg, s, step))
  {
  }

  lemma OtherStepsTouchNoMessage(cfg: Config, s: Sys, step: Step)
    requires !IsPublishing(step) && !step.Execute? && !step.Notify?
    ensures MessagesUntouched(s, Apply(cfg, s, step))
  {
    if IsRunnerStep(step) { RunnerStepsTouchNoMessage(cfg, s, step); }
  }

  /** The automation side only ever adds fresh messages. */
  lemma AutomationSideAdds(cfg: Config, s: Sys, step: Step)
    requires IdsDrawn(s.db) && !IsPublishing(step)
    ensures AddsMessages(s.db.outbox, Apply(cfg, s, step).db.outbox)
    ensures PublishingUntouched(s, Apply(cfg, s, step))
  {
    if step.Execute? {
      ExecuteStepAdds(s, step.worker, step.finishedAt, step.fate, step.cancelled);
    } else if !step.Notify? {
      OtherStepsTouchNoMessage(cfg, s, step);
    }
  }

  // ----- over all runs of the system -----

  lemma {:induction false} AlwaysSafe(cfg: Config, steps: seq<Step>)
    ensures Safe(Execution(cfg, steps))
  {
    if steps == [] {
      forall run: nat ensures Accounted(EMPTY, run) {
        assert CommandIds(EMPTY.outbox, run) == {};
      }
    } else {
      AlwaysSafe(cfg, steps[..|steps| - 1]);
      StepKeepsSafe(cfg, Execution(cfg, steps[..|steps| - 1]), steps[|steps| - 1]);
    }
  }

  // ----- what the account says, ordinal by ordinal -----

  function PlannedAt(a: Automation, ordinal: nat): Action
    requires ordinal in a.actions
  {
    Action(a.actions[ordinal].device, a.actions[ordinal].action, ordinal)
  }

  lemma ActionAt(a: Automation, i: nat)
    requires i < |Actions(a)|
    ensures var ordinals := Ascending(a.actions.Keys);
      |ordinals| == |Actions(a)| && ordinals[i] in a.actions && Actions(a)[i] == PlannedAt(a, ordinals[i])
  {
  }

  ghost predicate ListedAt(a: Automation, ordinal: nat, i: int) {
    0 <= i < |Actions(a)| && Actions(a)[i].ordinal == ordinal
  }

  lemma OrdinalListed(a: Automation, ordinal: nat) returns (i: nat)
    requires ordinal in a.actions
    ensures ListedAt(a, ordinal, i)
  {
    AscendingSorts(a.actions.Keys);
    assert ordinal in Ascending(a.actions.Keys);
    i :| i < |Actions(a)| && Ascending(a.actions.Keys)[i] == ordinal;
    ActionAt(a, i);
  }

  /** The action list of an automation is its planned actions in ordinal order. */
  lemma ActionsInOrder(a: Automation)
    ensures forall i, j | 0 <= i < j < |Actions(a)| :: Actions(a)[i].ordinal < Actions(a)[j].ordinal
    ensures forall i | 0 <= i < |Actions(a)| ::
      Actions(a)[i].ordinal in a.actions && Actions(a)[i] == PlannedAt(a, Actions(a)[i].ordinal)
    ensures forall o | o in a.actions :: exists i :: ListedAt(a, o, i)
  {
    AscendingSorts(a.actions.Keys);
    forall i | 0 <= i < |Actions(a)|
      ensures Actions(a)[i].ordinal in a.actions && Actions(a)[i] == PlannedAt(a, Actions(a)[i].ordinal)
    {
      ActionAt(a, i);
    }
    forall i, j | 0 <= i < j < |Actions(a)| ensures Actions(a)[i].ordinal < Actions(a)[j].ordinal {
      ActionAt(a, i);
      ActionAt(a, j);
    }
    forall o | o in a.actions ensures exists i :: ListedAt(a, o, i) {
      var i := OrdinalListed(a, o);
    }
  }

  /** Message id is a command of the run, for the action planned at this ordinal. */
  ghost predicate Commands(outbox: map<nat, Message>, a: Automation, automation: nat, run: nat, ordinal: nat, id: nat) {
    && ordinal in a.actions && id in CommandIds(outbox, run)
    && Carries(outbox[id], a.household, automation, run, PlannedAt(a, ordinal))
  }

  /** There are actions; each has a command, each command is for one of them, and ids grow with
      ordinals, so no action has two commands and no command serves two actions. */
  ghost predicate OneCommandPerOrdinal(outbox: map<nat, Message>, a: Automation, automation: nat, run: nat) {
    && a.actions != map[]
    && (forall o | o in a.actions :: exists id :: Commands(outbox, a, automation, run, o, id))
    && (forall id | id in CommandIds(outbox, run) :: exists o :: Commands(outbox, a, automation, run, o, id))
    && (forall o, p, i, j | Commands(outbox, a, automation, run, o, i) && Commands(outbox, a, automation, run, p, j) ::
          i < j <==> o < p)
  }

  /** A command listed at position k is for the k-th action and for no other ordinal. */
  lemma ListedCommand(ids: seq<nat>, outbox: map<nat, Message>, a: Automation, automation: nat, run: nat, o: nat, id: nat)
      returns (k: nat)
    requires ListsCommands(ids, outbox, run) && CarryInOrder(ids, outbox, a.household, automation, run, Actions(a))
    requires Commands(outbox, a, automation, run, o, id)
    ensures k < |ids| == |Actions(a)| && ids[k] == id && Actions(a)[k].ordinal == o
  {
    assert id in ids;
    k :| k < |ids| && ids[k] == id;
    assert Carries(outbox[id], a.household, automation, run, Actions(a)[k]);
  }

  lemma OrdinalsIncrease(a: Automation, k: nat, l: nat)
    requires k < |Actions(a)| && l < |Actions(a)|
    ensures k < l <==> Actions(a)[k].ordinal < Actions(a)[l].ordinal
  {
    ActionsInOrder(a);
  }

  lemma CommandsOrdered(ids: seq<nat>, outbox: map<nat, Message>, a: Automation, automation: nat, run: nat,
                        o: nat, p: nat, i: nat, j: nat)
    requires ListsCommands(ids, outbox, run) && CarryInOrder(ids, outbox, a.household, automation, run, Actions(a))
    requires Commands(outbox, a, automation, run, o, i) && Commands(outbox, a, automation, run, p, j)
    ensures i < j <==> o < p
  {
    var k := ListedCommand(ids, outbox, a, automation, run, o, i);
    var l := ListedCommand(ids, outbox, a, automation, run, p, j);
    OrdinalsIncrease(a, k, l);
    assert k < l ==> ids[k] < ids[l];
    assert l < k ==> ids[l] < ids[k];
  }

  lemma CommandAtPosition(ids: seq<nat>, outbox: map<nat, Message>, a: Automation, automation: nat, run: nat, k: nat)
    requires ListsCommands(ids, outbox, run) && CarryInOrder(ids, outbox, a.household, automation, run, Actions(a))
    requires k < |ids|
    ensures Commands(outbox, a, automation, run, Actions(a)[k].ordinal, ids[k])
  {
    ActionsInOrder(a);
    assert ids[k] in ids;
  }

  lemma OrdinalCommanded(ids: seq<nat>, outbox: map<nat, Message>, a: Automation, automation: nat, run: nat, o: nat)
    requires ListsCommands(ids, outbox, run) && CarryInOrder(ids, outbox, a.household, automation, run, Actions(a))
    requires o in a.actions
    ensures exists id :: Commands(outbox, a, automation, run, o, id)
  {
    var k := OrdinalListed(a, o);
    CommandAtPosition(ids, outbox, a, automation, run, k);
  }

  lemma CommandPlanned(ids: seq<nat>, outbox: map<nat, Message>, a: Automation, automation: nat, run: nat, id: nat)
    requires ListsCommands(ids, outbox, run) && CarryInOrder(ids, outbox, a.household, automation, run, Actions(a))
    requires id in CommandIds(outbox, run)
    ensures exists o :: Commands(outbox, a, automation, run, o, id)
  {
    assert id in ids;
    var k :| 0 <= k < |ids| && ids[k] == id;
    CommandAtPosition(ids, outbox, a, automation, run, k);
  }

  lemma FannedOutPerOrdinal(outbox: map<nat, Message>, a: Automation, automation: nat, run: nat)
    requires OneCommandEach(outbox, a.household, automation, run, Actions(a))
    ensures OneCommandPerOrdinal(outbox, a, automation, run)
  {
    var ids :| ListsCommands(ids, outbox, run) && CarryInOrder(ids, outbox, a.household, automation, run, Actions(a));
    assert |a.actions| > 0;
    forall o | o in a.actions ensures exists id :: Commands(outbox, a, automation, run, o, id) {
      OrdinalCommanded(ids, outbox, a, automation, run, o);
    }
    forall id | id in CommandIds(outbox, run) ensures exists o :: Commands(outbox, a, automation, run, o, id) {
      CommandPlanned(ids, outbox, a, automation, run, id);
    }
    forall o, p, i, j | Commands(outbox, a, automation, run, o, i) && Commands(outbox, a, automation, run, p, j)
      ensures i < j <==> o < p
    {
      CommandsOrdered(ids, outbox, a, automation, run, o, p, i, j);
    }
  }

  /** A succeeded run: its automation's planned actions, its commands and its audit. */
  ghost predicate DispatchedOnce(db: Db, run: nat)
    requires run in db.runs
  {
    var automation := db.runs[run].automation;
    && automation in db.automations
    && var a := db.automations[automation];
       && OneCommandPerOrdinal(db.outbox, a, automation, run)
       && DispatchAudits(db.audits, run) ==
            [Audit(a.household, "automation-run-" + Decimal(run), RunDispatched, Decimal(run), |a.actions|)]
  }

  lemma AccountedMeansDispatched(db: Db, run: nat)
    requires Accounted(db, run) && HasSucceeded(db, run)
    ensures DispatchedOnce(db, run)
  {
    FannedOutPerOrdinal(db.outbox, db.automations[db.runs[run].automation], db.runs[run].automation, run);
  }

  /** Exactly-once fan-out in every reachable state. */
  lemma ExactlyOnceFanOut(cfg: Config, steps: seq<Step>, run: nat)
    ensures var db := Execution(cfg, steps).db;
      run in db.runs ==>
        if db.runs[run].state == Succeeded then DispatchedOnce(db, run)
        else CommandIds(db.outbox, run) == {} && DispatchAudits(db.audits, run) == []
  {
    AlwaysSafe(cfg, steps);
    AccountOf(Execution(cfg, steps).db, run);
    if HasSucceeded(Execution(cfg, steps).db, run) { AccountedMeansDispatched(Execution(cfg, steps).db, run); }
  }

  /** ... and each automation has at most one run per key. */
  lemma OneRunPerKey(cfg: Config, steps: seq<Step>, i: nat, j: nat)
    ensures var runs := Execution(cfg, steps).db.runs;
      i in runs && j in runs && runs[i].automation == runs[j].automation && runs[i].key == runs[j].key ==> i == j
  {
    AlwaysSafe(cfg, steps);
  }

  /** A running run has at most one live holder, and a queued run has none. */
  lemma AtMostOneHolder(cfg: Config, steps: seq<Step>, v: nat, w: nat)
    requires RunnerAt(Execution(cfg, steps), v).Busy? && RunnerAt(Execution(cfg, steps), w).Busy?
    ensures RunnerAt(Execution(cfg, steps), v).run == RunnerAt(Execution(cfg, steps), w).run ==> v == w
    ensures var s := Execution(cfg, steps); RunnerAt(s, w).run in s.db.runs && s.db.runs[RunnerAt(s, w).run].state != Queued
  {
    AlwaysSafe(cfg, steps);
  }
}
