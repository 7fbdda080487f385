/** From a succeeded run to the receiver: every republication of a message carries the same
    distinct key, so with a receiver that acts once per key each action takes effect at most
    once, and exactly once if its message is marked delivered. No time assumption is needed. */
module EndToEnd {
  import opened Base
  import opened Tables
  import opened Protocol
  import opened RunSafety

  /** A key is the text outbox- followed by the id in decimal. */
  lemma KeyText(id: nat)
    ensures |Key(id)| > 7 && Key(id)[..7] == "outbox-" && DecimalValue(Key(id)[7..]) == id
  {
    assert Key(id)[7..] == Decimal(id);
    DecimalRoundTrip(id);
  }

  lemma KeyInjective(a: nat, b: nat)
    ensures Key(a) == Key(b) <==> a == b
  {
    if Key(a) == Key(b) {
      assert Decimal(a) == Key(a)[|"outbox-"|..];
      assert Decimal(b) == Key(b)[|"outbox-"|..];
      DecimalInjective(a, b);
    }
  }

  // ----- the invariant -----

  ghost predicate ActsOncePerKey(effects: seq<Effect>) {
    forall i, j | 0 <= i < j < |effects| :: effects[i].key != effects[j].key
  }

  /** The effect is that of a message in the outbox, command fields and all. */
  ghost predicate Sent(outbox: map<nat, Message>, e: Effect) {
    exists id :: id in outbox && e.key == Key(id) && SameCommand(e.row, outbox[id])
  }

  ghost predicate AllSent(s: Sys) {
    forall i | 0 <= i < |s.effects| :: Sent(s.db.outbox, s.effects[i])
  }

  ghost predicate DeliveredActed(s: Sys) {
    forall id | id in s.db.outbox && s.db.outbox[id].deliveredAt.Some? :: Seen(s.effects, Key(id))
  }

  predicate Acknowledged(phase: Phase) {
    match phase
    case Replying => false
    case Sending(acked) => acked
    case Saving(v) => v == Deliver
  }

  ghost predicate PublisherTrue(s: Sys, p: Publisher)
    requires p.Live?
  {
    && p.id in s.db.outbox && SameCommand(p.row, s.db.outbox[p.id])
    && (Acknowledged(p.phase) ==> Seen(s.effects, Key(p.id)))
  }

  ghost predicate PublishersTrue(s: Sys) {
    forall w | w in s.publishers && s.publishers[w].Live? :: PublisherTrue(s, s.publishers[w])
  }

  ghost predicate Terminal(m: Message) {
    m.deliveredAt.Some? || m.failedAt.Some?
  }

  ghost predicate Exclusive(s: Sys) {
    forall id | id in s.db.outbox :: !(s.db.outbox[id].deliveredAt.Some? && s.db.outbox[id].failedAt.Some?)
  }

  ghost predicate Faithful(s: Sys) {
    ActsOncePerKey(s.effects) && AllSent(s) && DeliveredActed(s) && PublishersTrue(s) && Exclusive(s)
  }

  // ----- frames -----

  /** Messages keep their command fields and are not newly delivered. */
  ghost predicate MessagesKept(s: Sys, t: Sys) {
    && (forall id | id in s.db.outbox :: id in t.db.outbox && SameCommand(s.db.outbox[id], t.db.outbox[id]))
    && (forall id | id in t.db.outbox && t.db.outbox[id].deliveredAt.Some? ::
          id in s.db.outbox && s.db.outbox[id].deliveredAt.Some?)
    && (forall id | id in t.db.outbox && t.db.outbox[id].failedAt.Some? ::
          t.db.outbox[id].deliveredAt.None?)
  }

  lemma SameCommandTransitive(a: Message, b: Message, c: Message)
    requires SameCommand(a, b) && SameCommand(b, c)
    ensures SameCommand(a, c)
  {
  }

  lemma SentKept(outbox: map<nat, Message>, outbox': map<nat, Message>, e: Effect)
    requires Sent(outbox, e)
    requires forall id | id in outbox :: id in outbox' && SameCommand(outbox[id], outbox'[id])
    ensures Sent(outbox', e)
  {
    var id :| id in outbox && e.key == Key(id) && SameCommand(e.row, outbox[id]);
    SameCommandTransitive(e.row, outbox[id], outbox'[id]);
  }

  lemma TrueOf(s: Sys, w: nat)
    requires PublishersTrue(s) && PublisherAt(s, w).Live?
    ensures PublisherTrue(s, PublisherAt(s, w))
  {
  }

  /** Nothing is sent, no publisher moves, and messages are only added or locked. */
  lemma QuietKeeps(s: Sys, t: Sys)
    requires Faithful(s) && MessagesKept(s, t) && t.effects == s.effects && t.publishers == s.publishers
    ensures Faithful(t)
  {
    forall i | 0 <= i < |t.effects| ensures Sent(t.db.outbox, t.effects[i]) {
      SentKept(s.db.outbox, t.db.outbox, s.effects[i]);
    }
    forall w | w in t.publishers && t.publishers[w].Live? ensures PublisherTrue(t, t.publishers[w]) {
      var p := t.publishers[w];
      TrueOf(s, w);
      SameCommandTransitive(p.row, s.db.outbox[p.id], t.db.outbox[p.id]);
    }
  }

  /** One publisher changes what it is doing; the tables and the receiver are as before. */
  lemma MovingKeeps(s: Sys, t: Sys, w: nat)
    requires Faithful(s) && t.effects == s.effects && t.db == s.db
    requires t.publishers == s.publishers[w := PublisherAt(t, w)]
    requires PublisherAt(t, w).Live? ==> PublisherTrue(t, PublisherAt(t, w))
    ensures Faithful(t)
  {
    forall v | v in t.publishers && t.publishers[v].Live? ensures PublisherTrue(t, t.publishers[v]) {
      if v != w { TrueOf(s, v); }
    }
  }

  // ----- steps -----

  lemma ClaimIsQuiet(s: Sys, w: nat, locked: set<nat>, replySeen: bool)
    requires Faithful(s)
    ensures Faithful(ClaimMessageStep(s, w, locked, replySeen))
  {
    var t := ClaimMessageStep(s, w, locked, replySeen);
    var (db, message) := ClaimMessage(s.db, locked, s.clock);
    if !PublisherAt(s, w).Live? && message.Some? {
      var between := s.(db := db);
      QuietKeeps(s, between);
      if replySeen { MovingKeeps(between, t, w); }
    }
  }

  lemma SeenKept(effects: seq<Effect>, e: Effect, key: string)
    ensures Seen(effects + [e], key) <==> Seen(effects, key) || key == e.key
  {
    if Seen(effects, key) {
      var i :| 0 <= i < |effects| && effects[i].key == key;
      assert (effects + [e])[i].key == key;
    }
    if key == e.key { assert (effects + [e])[|effects|].key == key; }
  }

  /** The receiver acts on a key it has not seen. */
  lemma ActingKeeps(s: Sys, id: nat, row: Message)
    requires Faithful(s) && id in s.db.outbox && SameCommand(row, s.db.outbox[id]) && !Seen(s.effects, Key(id))
    ensures var t := s.(effects := s.effects + [Effect(Key(id), row)]);
      Faithful(t) && Seen(t.effects, Key(id))
  {
    var e := Effect(Key(id), row);
    var t := s.(effects := s.effects + [e]);
    SeenKept(s.effects, e, Key(id));
    assert Sent(t.db.outbox, e);
    forall i | 0 <= i < |t.effects| ensures Sent(t.db.outbox, t.effects[i]) {
      if i < |s.effects| { assert t.effects[i] == s.effects[i]; }
    }
    forall other | other in t.db.outbox && t.db.outbox[other].deliveredAt.Some? ensures Seen(t.effects, Key(other)) {
      SeenKept(s.effects, e, Key(other));
    }
    forall w | w in t.publishers && t.publishers[w].Live? ensures PublisherTrue(t, t.publishers[w]) {
      TrueOf(s, w);
      SeenKept(s.effects, e, Key(t.publishers[w].id));
    }
  }

  lemma SendKeepsFaith(s: Sys, w: nat, arrives: bool, accepted: bool)
    requires Faithful(s)
    ensures Faithful(SendStep(s, w, arrives, accepted))
  {
    var p := PublisherAt(s, w);
    if p.Live? && p.phase.Sending? && arrives {
      TrueOf(s, w);
      var between := if Seen(s.effects, Key(p.id)) then s else s.(effects := s.effects + [Effect(Key(p.id), p.row)]);
      if between != s { ActingKeeps(s, p.id, p.row); }
      assert Seen(between.effects, Key(p.id));
      MovingKeeps(between, SendStep(s, w, arrives, accepted), w);
    }
  }

  /** Only an acknowledged publication marks a message delivered, and never a failed one. */
  lemma SaveDelivers(s: Sys, w: nat, applied: bool)
    requires DeliveredActed(s) && Exclusive(s) && PublisherAt(s, w).Live? && PublisherAt(s, w).phase.Saving?
    requires PublisherTrue(s, PublisherAt(s, w))
    ensures DeliveredActed(s.(db := SaveStep(s, w, applied).db)) && Exclusive(s.(db := SaveStep(s, w, applied).db))
  {
  }

  lemma SaveMarks(s: Sys, w: nat, applied: bool)
    requires Faithful(s) && PublisherAt(s, w).Live? && PublisherAt(s, w).phase.Saving?
    ensures Faithful(s.(db := SaveStep(s, w, applied).db))
  {
    var p := PublisherAt(s, w);
    var t := s.(db := SaveStep(s, w, applied).db);
    SaveOnlyPublishes(s, w, applied);
    TrueOf(s, w);
    forall i | 0 <= i < |t.effects| ensures Sent(t.db.outbox, t.effects[i]) {
      SentKept(s.db.outbox, t.db.outbox, s.effects[i]);
    }
    forall v | v in t.publishers && t.publishers[v].Live? ensures PublisherTrue(t, t.publishers[v]) {
      var q := t.publishers[v];
      TrueOf(s, v);
      SameCommandTransitive(q.row, s.db.outbox[q.id], t.db.outbox[q.id]);
    }
    SaveDelivers(s, w, applied);
  }

  lemma SaveKeepsFaith(s: Sys, w: nat, applied: bool)
    requires Faithful(s)
    ensures Faithful(SaveStep(s, w, applied))
  {
    var p := PublisherAt(s, w);
    if p.Live? && p.phase.Saving? {
      TrueOf(s, w);
      var t := SaveStep(s, w, applied);
      var between := s.(db := t.db);
      SaveMarks(s, w, applied);
      MovingKeeps(between, t, w);
    }
  }

  lemma ReceiveKeepsFaith(s: Sys, w: nat)
    requires Faithful(s)
    ensures Faithful(ReceiveStep(s, w))
  {
    var p := PublisherAt(s, w);
    if p.Live? && p.phase == Replying {
      TrueOf(s, w);
      MovingKeeps(s, ReceiveStep(s, w), w);
    }
  }

  lemma ReturnKeepsFaith(cfg: Config, s: Sys, w: nat, published: bool, error: string)
    requires Faithful(s)
    ensures Faithful(ReturnStep(cfg, s, w, published, error))
  {
    var p := PublisherAt(s, w);
    if p.Live? && p.phase.Sending? && (published ==> p.phase.acked) {
      TrueOf(s, w);
      MovingKeeps(s, ReturnStep(cfg, s, w, published, error), w);
    }
  }

  lemma CrashKeepsFaith(s: Sys, w: nat)
    requires Faithful(s)
    ensures Faithful(CrashPublisherStep(s, w))
  {
    if PublisherAt(s, w).Live? { MovingKeeps(s, CrashPublisherStep(s, w), w); }
  }

  lemma AutomationSideKeepsFaith(cfg: Config, s: Sys, step: Step)
    requires IdsDrawn(s.db) && Faithful(s) && !IsPublishing(step)
    ensures Faithful(Apply(cfg, s, step))
  {
    AutomationSideAdds(cfg, s, step);
    QuietKeeps(s, Apply(cfg, s, step));
  }

  lemma TickKeepsFaith(cfg: Config, s: Sys, time: int)
    requires Faithful(s)
    ensures Faithful(TickStep(cfg, s, time))
  {
  }

  lemma SendingKeepsFaith(cfg: Config, s: Sys, step: Step)
    requires Faithful(s) && (step.Receive? || step.Send? || step.Return?)
    ensures Faithful(Apply(cfg, s, step))
  {
    match step
    case Receive(w) => ReceiveKeepsFaith(s, w);
    case Send(w, arrives, accepted) => SendKeepsFaith(s, w, arrives, accepted);
    case Return(w, published, error) => ReturnKeepsFaith(cfg, s, w, published, error);
  }

  lemma PublishingKeepsFaith(cfg: Config, s: Sys, step: Step)
    requires Faithful(s) && IsPublishing(step)
    ensures Faithful(Apply(cfg, s, step))
  {
    match step
    case Tick(time) => TickKeepsFaith(cfg, s, time);
    case ClaimNextMessage(w, locked, replySeen) => ClaimIsQuiet(s, w, locked, replySeen);
    case Save(w, applied) => SaveKeepsFaith(s, w, applied);
    case CrashPublisher(w) => CrashKeepsFaith(s, w);
    case _ => SendingKeepsFaith(cfg, s, step);
  }

  lemma StepKeepsFaith(cfg: Config, s: Sys, step: Step)
    requires IdsDrawn(s.db) && Faithful(s)
    ensures Faithful(Apply(cfg, s, step))
  {
    if IsPublishing(step) { PublishingKeepsFaith(cfg, s, step); } else { AutomationSideKeepsFaith(cfg, s, step); }
  }

  lemma {:induction false} AlwaysFaithful(cfg: Config, steps: seq<Step>)
    ensures Faithful(Execution(cfg, steps))
  {
    if steps != [] {
      AlwaysFaithful(cfg, steps[..|steps| - 1]);
      AlwaysSafe(cfg, steps[..|steps| - 1]);
      StepKeepsFaith(cfg, Execution(cfg, steps[..|steps| - 1]), steps[|steps| - 1]);
    }
  }

  // ----- what the household sees -----

  /** i is where the receiver acted on this message. */
  predicate ActedAt(s: Sys, id: nat, i: int) {
    0 <= i < |s.effects| && s.effects[i].key == Key(id)
  }

  /** The receiver acts on each message at most once, on exactly the command that was
      dispatched, and has acted if the message is marked delivered. */
  lemma MessageActedOnce(cfg: Config, steps: seq<Step>, id: nat)
    requires id in Execution(cfg, steps).db.outbox
    ensures var s := Execution(cfg, steps);
      && (forall i, j | ActedAt(s, id, i) && ActedAt(s, id, j) :: i == j)
      && (forall i | ActedAt(s, id, i) :: SameCommand(s.effects[i].row, s.db.outbox[id]))
      && (s.db.outbox[id].deliveredAt.Some? ==> exists i :: ActedAt(s, id, i))
  {
    AlwaysFaithful(cfg, steps);
    var s := Execution(cfg, steps);
    forall i | ActedAt(s, id, i) ensures SameCommand(s.effects[i].row, s.db.outbox[id]) {
      assert Sent(s.db.outbox, s.effects[i]);
      var other :| other in s.db.outbox && s.effects[i].key == Key(other) && SameCommand(s.effects[i].row, s.db.outbox[other]);
      KeyInjective(id, other);
    }
    if s.db.outbox[id].deliveredAt.Some? {
      var i :| 0 <= i < |s.effects| && s.effects[i].key == Key(id);
      assert ActedAt(s, id, i);
    }
  }

  /** i is where the receiver acted on the action planned at this ordinal, for this run. */
  ghost predicate ActionActedAt(s: Sys, a: Automation, automation: nat, run: nat, ordinal: nat, i: int) {
    && 0 <= i < |s.effects| && ordinal in a.actions
    && Carries(s.effects[i].row, a.household, automation, run, PlannedAt(a, ordinal))
  }

  lemma ActedThroughCommand(s: Sys, a: Automation, automation: nat, run: nat, ordinal: nat, id: nat, i: int)
    requires AllSent(s) && OneCommandPerOrdinal(s.db.outbox, a, automation, run)
    requires Commands(s.db.outbox, a, automation, run, ordinal, id) && ActionActedAt(s, a, automation, run, ordinal, i)
    ensures ActedAt(s, id, i)
  {
    assert Sent(s.db.outbox, s.effects[i]);
    var other :| other in s.db.outbox && s.effects[i].key == Key(other) && SameCommand(s.effects[i].row, s.db.outbox[other]);
    CarriesSameCommand(s.effects[i].row, s.db.outbox[other], a.household, automation, run, PlannedAt(a, ordinal));
    assert Commands(s.db.outbox, a, automation, run, ordinal, other);
    assert !(id < other) && !(other < id);
  }

  lemma CarriesSameCommandBack(m: Message, n: Message, household: nat, automation: nat, run: nat, a: Action)
    requires SameCommand(m, n) && Carries(n, household, automation, run, a)
    ensures Carries(m, household, automation, run, a)
  {
    CarriesSameCommand(n, m, household, automation, run, a);
  }

  lemma CommandActsAsPlanned(s: Sys, a: Automation, automation: nat, run: nat, ordinal: nat, id: nat, i: int)
    requires Commands(s.db.outbox, a, automation, run, ordinal, id) && ActedAt(s, id, i)
    requires SameCommand(s.effects[i].row, s.db.outbox[id])
    ensures ActionActedAt(s, a, automation, run, ordinal, i)
  {
    CarriesSameCommandBack(s.effects[i].row, s.db.outbox[id], a.household, automation, run, PlannedAt(a, ordinal));
  }

  /** Every action a succeeded run's automation plans has its one message, takes effect at most
      once, and exactly once if that message is marked delivered. */
  lemma EachActionTakesEffectOnce(cfg: Config, steps: seq<Step>, run: nat, ordinal: nat) returns (id: nat)
    requires var db := Execution(cfg, steps).db;
      HasSucceeded(db, run) && db.runs[run].automation in db.automations && ordinal in db.automations[db.runs[run].automation].actions
    ensures var s := Execution(cfg, steps); var automation := s.db.runs[run].automation; var a := s.db.automations[automation];
      && Commands(s.db.outbox, a, automation, run, ordinal, id)
      && (forall i, j | ActionActedAt(s, a, automation, run, ordinal, i) && ActionActedAt(s, a, automation, run, ordinal, j) :: i == j)
      && (s.db.outbox[id].deliveredAt.Some? ==> exists i :: ActionActedAt(s, a, automation, run, ordinal, i))
  {
    var s := Execution(cfg, steps);
    var automation := s.db.runs[run].automation;
    var a := s.db.automations[automation];
    ExactlyOnceFanOut(cfg, steps, run);
    AlwaysFaithful(cfg, steps);
    id :| Commands(s.db.outbox, a, automation, run, ordinal, id);
    MessageActedOnce(cfg, steps, id);
    forall i | ActionActedAt(s, a, automation, run, ordinal, i) ensures ActedAt(s, id, i) {
      ActedThroughCommand(s, a, automation, run, ordinal, id, i);
    }
    if s.db.outbox[id].deliveredAt.Some? {
      var i :| ActedAt(s, id, i);
      CommandActsAsPlanned(s, a, automation, run, ordinal, id, i);
    }
  }

  /** Conversely, a device command that takes effect belongs to a run that has succeeded. */
  lemma EffectsComeFromSucceededRuns(cfg: Config, steps: seq<Step>, i: nat, run: nat)
    requires i < |Execution(cfg, steps).effects| && CommandFor(Execution(cfg, steps).effects[i].row, run)
    ensures HasSucceeded(Execution(cfg, steps).db, run)
  {
    AlwaysSafe(cfg, steps);
    AlwaysFaithful(cfg, steps);
    var s := Execution(cfg, steps);
    assert Sent(s.db.outbox, s.effects[i]);
    var id :| id in s.db.outbox && s.effects[i].key == Key(id) && SameCommand(s.effects[i].row, s.db.outbox[id]);
    assert id in CommandIds(s.db.outbox, run);
    AccountOf(s.db, run);
  }

  ghost predicate KeptAsIs(s: Sys, t: Sys, id: nat)
    requires id in s.db.outbox
  {
    id in t.db.outbox && t.db.outbox[id] == s.db.outbox[id]
  }

  lemma ClaimKeepsTerminal(s: Sys, w: nat, locked: set<nat>, replySeen: bool, id: nat)
    requires id in s.db.outbox && Terminal(s.db.outbox[id])
    ensures KeptAsIs(s, ClaimMessageStep(s, w, locked, replySeen), id)
  {
    var message := ClaimMessage(s.db, locked, s.clock).1;
    if message.Some? {
      assert message.value in AvailableMessages(s.db, locked, s.clock);
    }
  }

  lemma SaveKeepsTerminal(s: Sys, w: nat, applied: bool, id: nat)
    requires id in s.db.outbox && Terminal(s.db.outbox[id])
    ensures KeptAsIs(s, SaveStep(s, w, applied), id)
  {
  }

  lemma TerminalStep(cfg: Config, s: Sys, step: Step, id: nat)
    requires IdsDrawn(s.db) && id in s.db.outbox && Terminal(s.db.outbox[id])
    ensures KeptAsIs(s, Apply(cfg, s, step), id)
  {
    if !IsPublishing(step) {
      AutomationSideAdds(cfg, s, step);
    } else if step.ClaimNextMessage? {
      ClaimKeepsTerminal(s, step.worker, step.locked, step.replySeen, id);
    } else if step.Save? {
      SaveKeepsTerminal(s, step.worker, step.applied, id);
    } else {
      assert Apply(cfg, s, step).db == s.db;
    }
  }

  lemma NeverBoth(cfg: Config, steps: seq<Step>, id: nat)
    requires id in Execution(cfg, steps).db.outbox
    ensures var m := Execution(cfg, steps).db.outbox[id]; m.deliveredAt.None? || m.failedAt.None?
  {
    AlwaysFaithful(cfg, steps);
  }

  /** Delivered and failed exclude each other, and a message that is either never changes again. */
  lemma {:induction false} TerminalForever(cfg: Config, steps: seq<Step>, more: seq<Step>, id: nat)
    requires id in Execution(cfg, steps).db.outbox && Terminal(Execution(cfg, steps).db.outbox[id])
    ensures id in Execution(cfg, steps + more).db.outbox
    ensures Execution(cfg, steps + more).db.outbox[id] == Execution(cfg, steps).db.outbox[id]
    ensures Execution(cfg, steps).db.outbox[id].deliveredAt.None? || Execution(cfg, steps).db.outbox[id].failedAt.None?
    decreases |more|
  {
    NeverBoth(cfg, steps, id);
    if more == [] {
      assert steps + more == steps;
    } else {
      var all := steps + more;
      assert all[..|all| - 1] == steps + more[..|more| - 1];
      TerminalForever(cfg, steps, more[..|more| - 1], id);
      AlwaysSafe(cfg, all[..|all| - 1]);
      TerminalStep(cfg, Execution(cfg, all[..|all| - 1]), all[|all| - 1], id);
    }
  }
}
