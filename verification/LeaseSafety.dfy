/** Outbox leases, attempt accounting and retry spacing. The time assumption is explicit: a
    claim's reply, a publication and the persistence of its outcome fit in the lease. */
module LeaseSafety {
  import opened Base
  import opened Tables
  import opened Transport
  import opened Protocol
  import opened RunSafety

  /** The time assumption under which a lease excludes a second holder. */
  predicate Fits(cfg: Config) {
    cfg.replyBound + PUBLISH_BOUND + PERSIST_BOUND <= LEASE
  }

  // ----- what a live publisher may rely on -----

  ghost predicate VerdictFits(cfg: Config, row: Message, since: int, v: Verdict) {
    match v
    case Deliver => true
    case GiveUp(_) => row.attempts >= cfg.retryLimit
    case Retry(next, _) => row.attempts < cfg.retryLimit && next == since + row.attempts * SECOND
  }

  ghost predicate PhaseFits(cfg: Config, row: Message, since: int, phase: Phase)
    requires row.lockedAt.Some?
  {
    var claimed := row.lockedAt.value;
    match phase
    case Replying => since == claimed
    case Sending(_) => claimed <= since <= claimed + cfg.replyBound
    case Saving(v) => claimed <= since <= claimed + cfg.replyBound + PUBLISH_BOUND && VerdictFits(cfg, row, since, v)
  }

  /** The message is pending and untouched since this publisher claimed it. */
  ghost predicate LiveFits(cfg: Config, s: Sys, w: nat, p: Publisher)
    requires p.Live?
  {
    && p.id in s.db.outbox && s.db.outbox[p.id] == p.row
    && Outstanding(p.row) && p.row.lockedAt.Some?
    && HistoryOf(s, p.id).holder == Some(w)
    && s.clock <= Deadline(cfg, p)
    && p.since <= s.clock
    && PhaseFits(cfg, p.row, p.since, p.phase)
  }

  ghost predicate PublishersFit(cfg: Config, s: Sys) {
    forall w | w in s.publishers && s.publishers[w].Live? :: LiveFits(cfg, s, w, s.publishers[w])
  }

  ghost predicate HoldersLive(s: Sys) {
    forall id: nat | HistoryOf(s, id).holder.Some? ::
      PublisherAt(s, HistoryOf(s, id).holder.value).Live? && PublisherAt(s, HistoryOf(s, id).holder.value).id == id
  }

  // ----- what a message's history says about its row -----

  function Gap(k: nat): int {
    if k * SECOND < LEASE then k * SECOND else LEASE
  }

  ghost predicate Spaced(claims: seq<int>) {
    forall k | 1 <= k < |claims| :: claims[k] - claims[k - 1] >= Gap(k)
  }

  ghost predicate Counted(cfg: Config, m: Message, h: History) {
    && m.attempts == |h.claims|
    && |h.claims| == h.rescheduled + h.lost + (if h.holder.Some? then 1 else 0) + (if Outstanding(m) then 0 else 1)
    && h.rescheduled < cfg.retryLimit
    && (m.failedAt.Some? ==> |h.claims| >= cfg.retryLimit)
    && !(m.deliveredAt.Some? && m.failedAt.Some?)
  }

  ghost predicate Timed(m: Message, h: History, clock: int) {
    && Spaced(h.claims)
    && (h.claims != [] ==> h.claims[|h.claims| - 1] <= clock)
    && (m.lockedAt.Some? ==> h.claims != [] && m.lockedAt.value == h.claims[|h.claims| - 1])
    && (Outstanding(m) && m.lockedAt.None? && h.claims != [] ==>
          m.availableAt >= h.claims[|h.claims| - 1] + |h.claims| * SECOND)
  }

  ghost predicate RowRecorded(cfg: Config, s: Sys, id: nat) {
    var h := HistoryOf(s, id);
    if id in s.db.outbox then Counted(cfg, s.db.outbox[id], h) && Timed(s.db.outbox[id], h, s.clock)
    else h == History([], 0, 0, None)
  }

  ghost predicate AllRecorded(cfg: Config, s: Sys) {
    forall id: nat :: RowRecorded(cfg, s, id)
  }

  ghost predicate Leased(cfg: Config, s: Sys) {
    PublishersFit(cfg, s) && HoldersLive(s) && AllRecorded(cfg, s)
  }

  lemma RecordOf(cfg: Config, s: Sys, id: nat)
    requires AllRecorded(cfg, s)
    ensures RowRecorded(cfg, s, id)
  {
  }

  lemma FitOf(cfg: Config, s: Sys, w: nat)
    requires PublishersFit(cfg, s) && PublisherAt(s, w).Live?
    ensures LiveFits(cfg, s, w, PublisherAt(s, w))
  {
  }

  // ----- steps that only add messages, or touch no message at all -----

  lemma AddingKeeps(cfg: Config, s: Sys, t: Sys)
    requires ValidConfig(cfg) && Leased(cfg, s)
    requires AddsMessages(s.db.outbox, t.db.outbox) && PublishingUntouched(s, t)
    ensures Leased(cfg, t)
  {
    forall id: nat ensures RowRecorded(cfg, t, id) {
      RecordOf(cfg, s, id);
      assert HistoryOf(t, id) == HistoryOf(s, id);
    }
    forall id: nat | HistoryOf(t, id).holder.Some?
      ensures PublisherAt(t, HistoryOf(t, id).holder.value).Live? && PublisherAt(t, HistoryOf(t, id).holder.value).id == id
    {
      assert HistoryOf(t, id) == HistoryOf(s, id);
    }
    forall w | w in t.publishers && t.publishers[w].Live? ensures LiveFits(cfg, t, w, t.publishers[w]) {
      FitOf(cfg, s, w);
    }
  }

  // ----- the publishing steps, one at a time -----

  lemma TickKeeps(cfg: Config, s: Sys, time: int)
    requires Leased(cfg, s)
    ensures Leased(cfg, TickStep(cfg, s, time))
  {
    var t := TickStep(cfg, s, time);
    forall id: nat ensures RowRecorded(cfg, t, id) {
      RecordOf(cfg, s, id);
      assert HistoryOf(t, id) == HistoryOf(s, id);
    }
    forall id: nat | HistoryOf(t, id).holder.Some?
      ensures PublisherAt(t, HistoryOf(t, id).holder.value).Live? && PublisherAt(t, HistoryOf(t, id).holder.value).id == id
    {
      assert HistoryOf(t, id) == HistoryOf(s, id);
    }
    forall w | w in t.publishers && t.publishers[w].Live? ensures LiveFits(cfg, t, w, t.publishers[w]) {
      FitOf(cfg, s, w);
    }
  }

  /** A publisher moving on within its own claim disturbs nothing else. */
  lemma ProgressKeeps(cfg: Config, s: Sys, t: Sys, w: nat)
    requires Leased(cfg, s)
    requires PublisherAt(s, w).Live? && PublisherAt(t, w).Live? && PublisherAt(s, w).id == PublisherAt(t, w).id
    requires t.db == s.db && t.clock == s.clock && t.histories == s.histories
    requires t.publishers == s.publishers[w := PublisherAt(t, w)]
    requires LiveFits(cfg, t, w, PublisherAt(t, w))
    ensures Leased(cfg, t)
  {
    forall id: nat ensures RowRecorded(cfg, t, id) {
      RecordOf(cfg, s, id);
      assert HistoryOf(t, id) == HistoryOf(s, id);
    }
    forall v | v in t.publishers && t.publishers[v].Live? ensures LiveFits(cfg, t, v, t.publishers[v]) {
      if v != w { FitOf(cfg, s, v); }
    }
    forall id: nat | HistoryOf(t, id).holder.Some?
      ensures PublisherAt(t, HistoryOf(t, id).holder.value).Live? && PublisherAt(t, HistoryOf(t, id).holder.value).id == id
    {
      assert HistoryOf(t, id) == HistoryOf(s, id);
    }
  }

  lemma BoundsPositive()
    ensures PUBLISH_BOUND > 0 && PERSIST_BOUND > 0
  {
    PublicationBound();
  }

  lemma ReceiveKeeps(cfg: Config, s: Sys, w: nat)
    requires Leased(cfg, s)
    ensures Leased(cfg, ReceiveStep(s, w))
  {
    var p := PublisherAt(s, w);
    if p.Live? && p.phase == Replying {
      BoundsPositive();
      FitOf(cfg, s, w);
      ProgressKeeps(cfg, s, ReceiveStep(s, w), w);
    }
  }

  lemma SendKeeps(cfg: Config, s: Sys, w: nat, arrives: bool, accepted: bool)
    requires Leased(cfg, s)
    ensures Leased(cfg, SendStep(s, w, arrives, accepted))
  {
    var p := PublisherAt(s, w);
    if p.Live? && p.phase.Sending? && arrives {
      FitOf(cfg, s, w);
      ProgressKeeps(cfg, s, SendStep(s, w, arrives, accepted), w);
    }
  }

  lemma ReturnKeeps(cfg: Config, s: Sys, w: nat, published: bool, error: string)
    requires Leased(cfg, s)
    ensures Leased(cfg, ReturnStep(cfg, s, w, published, error))
  {
    var p := PublisherAt(s, w);
    if p.Live? && p.phase.Sending? && (published ==> p.phase.acked) {
      BoundsPositive();
      FitOf(cfg, s, w);
      ProgressKeeps(cfg, s, ReturnStep(cfg, s, w, published, error), w);
    }
  }

  /** When a publisher lets go of its message, everybody else's claims stand. */
  lemma LettingGoKeeps(cfg: Config, s: Sys, t: Sys, w: nat)
    requires Leased(cfg, s) && PublisherAt(s, w).Live?
    requires var id := PublisherAt(s, w).id;
      && t.clock == s.clock && t.publishers == s.publishers[w := Free]
      && t.histories == s.histories[id := HistoryOf(t, id)] && HistoryOf(t, id).holder == None
      && id in t.db.outbox && t.db.outbox == s.db.outbox[id := t.db.outbox[id]]
      && Counted(cfg, t.db.outbox[id], HistoryOf(t, id)) && Timed(t.db.outbox[id], HistoryOf(t, id), t.clock)
    ensures Leased(cfg, t)
  {
    var id := PublisherAt(s, w).id;
    FitOf(cfg, s, w);
    forall other: nat ensures RowRecorded(cfg, t, other) {
      if other != id {
        RecordOf(cfg, s, other);
        assert HistoryOf(t, other) == HistoryOf(s, other);
      }
    }
    forall v | v in t.publishers && t.publishers[v].Live? ensures LiveFits(cfg, t, v, t.publishers[v]) {
      assert v != w;
      FitOf(cfg, s, v);
      assert s.publishers[v].id != id;
      assert HistoryOf(t, s.publishers[v].id) == HistoryOf(s, s.publishers[v].id);
    }
    forall other: nat | HistoryOf(t, other).holder.Some?
      ensures PublisherAt(t, HistoryOf(t, other).holder.value).Live? && PublisherAt(t, HistoryOf(t, other).holder.value).id == other
    {
      assert other != id;
      assert HistoryOf(t, other) == HistoryOf(s, other);
    }
  }

  lemma CrashKeeps(cfg: Config, s: Sys, w: nat)
    requires Leased(cfg, s)
    ensures Leased(cfg, CrashPublisherStep(s, w))
  {
    var p := PublisherAt(s, w);
    if p.Live? {
      FitOf(cfg, s, w);
      RecordOf(cfg, s, p.id);
      LettingGoKeeps(cfg, s, CrashPublisherStep(s, w), w);
    }
  }

  /** A claim whose outcome is lost leaves its row as it is. */
  lemma LossRecords(cfg: Config, m: Message, h: History, clock: int)
    requires Counted(cfg, m, h) && Timed(m, h, clock) && h.holder.Some?
    ensures var h' := h.(lost := h.lost + 1, holder := None); Counted(cfg, m, h') && Timed(m, h', clock)
  {
  }

  /** A delivered or failed message keeps its claims. */
  lemma EndRecords(cfg: Config, m: Message, h: History, clock: int, m': Message)
    requires Counted(cfg, m, h) && Timed(m, h, clock) && h.holder.Some? && Outstanding(m)
    requires m'.attempts == m.attempts && m'.lockedAt.None? && !Outstanding(m')
    requires m'.deliveredAt.Some? ==> m'.failedAt.None?
    requires m'.failedAt.Some? ==> m.attempts >= cfg.retryLimit
    ensures var h' := h.(holder := None); Counted(cfg, m', h') && Timed(m', h', clock)
  {
  }

  /** A rescheduled message waits as many seconds as it has been claimed. */
  lemma RetryRecords(cfg: Config, m: Message, h: History, clock: int, m': Message)
    requires Counted(cfg, m, h) && Timed(m, h, clock) && h.holder.Some? && Outstanding(m) && m.lockedAt.Some?
    requires m'.attempts == m.attempts < cfg.retryLimit && m'.lockedAt.None? && Outstanding(m')
    requires m'.availableAt >= m.lockedAt.value + m.attempts * SECOND
    ensures var h' := h.(rescheduled := h.rescheduled + 1, holder := None); Counted(cfg, m', h') && Timed(m', h', clock)
  {
  }

  /** The saved row and the history agree: the outcome is counted once. */
  lemma SaveRecords(cfg: Config, s: Sys, w: nat, applied: bool)
    requires ValidConfig(cfg) && Leased(cfg, s) && PublisherAt(s, w).Live? && PublisherAt(s, w).phase.Saving?
    ensures var t := SaveStep(s, w, applied); var id := PublisherAt(s, w).id;
      && id in t.db.outbox && t.db.outbox == s.db.outbox[id := t.db.outbox[id]]
      && Counted(cfg, t.db.outbox[id], HistoryOf(t, id)) && Timed(t.db.outbox[id], HistoryOf(t, id), t.clock)
  {
    var p := PublisherAt(s, w);
    FitOf(cfg, s, w);
    RecordOf(cfg, s, p.id);
    var h := HistoryOf(s, p.id);
    var m' := SaveStep(s, w, applied).db.outbox[p.id];
    if !applied {
      LossRecords(cfg, p.row, h, s.clock);
    } else if p.phase.verdict.Retry? {
      RetryRecords(cfg, p.row, h, s.clock, m');
    } else {
      EndRecords(cfg, p.row, h, s.clock, m');
    }
  }

  lemma SaveKeeps(cfg: Config, s: Sys, w: nat, applied: bool)
    requires ValidConfig(cfg) && Leased(cfg, s)
    ensures Leased(cfg, SaveStep(s, w, applied))
  {
    var p := PublisherAt(s, w);
    if p.Live? && p.phase.Saving? {
      SaveRecords(cfg, s, w, applied);
      LettingGoKeeps(cfg, s, SaveStep(s, w, applied), w);
    }
  }

  // ----- claiming -----

  /** While its publisher is on time, a message is not available to anybody else. */
  lemma HeldIsUnavailable(cfg: Config, s: Sys, w: nat)
    requires Fits(cfg) && ValidConfig(cfg) && Leased(cfg, s) && PublisherAt(s, w).Live?
    ensures PublisherAt(s, w).id in s.db.outbox && !Available(s.db.outbox[PublisherAt(s, w).id], s.clock)
  {
    BoundsPositive();
    FitOf(cfg, s, w);
  }

  lemma ClaimSpaced(cfg: Config, m: Message, h: History, clock: int)
    requires Counted(cfg, m, h) && Timed(m, h, clock) && Available(m, clock)
    ensures Spaced(h.claims + [clock])
  {
  }

  /** Claiming an unheld available message records the claim. */
  lemma ClaimRecords(cfg: Config, m: Message, h: History, clock: int, holder: Option<nat>)
    requires Counted(cfg, m, h) && Timed(m, h, clock) && Available(m, clock) && h.holder.None?
    ensures var m' := m.(lockedAt := Some(clock), attempts := m.attempts + 1);
      var h' := History(h.claims + [clock], h.rescheduled, h.lost + if holder.Some? then 0 else 1, holder);
      Counted(cfg, m', h') && Timed(m', h', clock)
  {
    ClaimSpaced(cfg, m, h, clock);
  }

  ghost predicate ClaimEffect(s: Sys, t: Sys, w: nat, id: nat, replySeen: bool) {
    && id in s.db.outbox && Available(s.db.outbox[id], s.clock) && id in t.db.outbox
    && t.db.outbox == s.db.outbox[id := s.db.outbox[id].(lockedAt := Some(s.clock), attempts := s.db.outbox[id].attempts + 1)]
    && t.clock == s.clock
    && t.histories == s.histories[id := History(HistoryOf(s, id).claims + [s.clock], HistoryOf(s, id).rescheduled,
         HistoryOf(s, id).lost + if replySeen then 0 else 1, if replySeen then Some(w) else None)]
    && t.publishers == if replySeen then s.publishers[w := Live(id, t.db.outbox[id], s.clock, Replying)] else s.publishers
  }

  lemma ClaimStepEffect(s: Sys, w: nat, locked: set<nat>, replySeen: bool) returns (id: nat)
    requires !PublisherAt(s, w).Live? && ClaimMessage(s.db, locked, s.clock).1.Some?
    ensures ClaimEffect(s, ClaimMessageStep(s, w, locked, replySeen), w, id, replySeen)
  {
    id := ClaimMessage(s.db, locked, s.clock).1.value;
    assert id in AvailableMessages(s.db, locked, s.clock);
  }

  lemma ClaimKeepsRecords(cfg: Config, s: Sys, t: Sys, w: nat, id: nat, replySeen: bool)
    requires Leased(cfg, s) && ClaimEffect(s, t, w, id, replySeen) && HistoryOf(s, id).holder.None?
    ensures AllRecorded(cfg, t)
  {
    forall other: nat ensures RowRecorded(cfg, t, other) {
      RecordOf(cfg, s, other);
      if other == id {
        ClaimRecords(cfg, s.db.outbox[id], HistoryOf(s, id), s.clock, if replySeen then Some(w) else None);
      } else {
        assert HistoryOf(t, other) == HistoryOf(s, other);
      }
    }
  }

  lemma ClaimKeepsPublishers(cfg: Config, s: Sys, t: Sys, w: nat, id: nat, replySeen: bool)
    requires ValidConfig(cfg) && Leased(cfg, s) && ClaimEffect(s, t, w, id, replySeen)
    requires HistoryOf(s, id).holder.None? && !PublisherAt(s, w).Live?
    ensures PublishersFit(cfg, t)
  {
    forall v | v in t.publishers && t.publishers[v].Live? ensures LiveFits(cfg, t, v, t.publishers[v]) {
      if v != w || !replySeen {
        FitOf(cfg, s, v);
        assert s.publishers[v].id != id;
        assert HistoryOf(t, s.publishers[v].id) == HistoryOf(s, s.publishers[v].id);
      }
    }
  }

  lemma ClaimKeepsHolders(cfg: Config, s: Sys, t: Sys, w: nat, id: nat, replySeen: bool)
    requires HoldersLive(s) && ClaimEffect(s, t, w, id, replySeen) && !PublisherAt(s, w).Live?
    ensures HoldersLive(t)
  {
    forall other: nat | HistoryOf(t, other).holder.Some?
      ensures PublisherAt(t, HistoryOf(t, other).holder.value).Live? && PublisherAt(t, HistoryOf(t, other).holder.value).id == other
    {
      if other != id { assert HistoryOf(t, other) == HistoryOf(s, other); }
    }
  }

  lemma ClaimKeeps(cfg: Config, s: Sys, w: nat, locked: set<nat>, replySeen: bool)
    requires Fits(cfg) && ValidConfig(cfg) && Leased(cfg, s)
    ensures Leased(cfg, ClaimMessageStep(s, w, locked, replySeen))
  {
    var t := ClaimMessageStep(s, w, locked, replySeen);
    if !PublisherAt(s, w).Live? && ClaimMessage(s.db, locked, s.clock).1.Some? {
      var id := ClaimStepEffect(s, w, locked, replySeen);
      if HistoryOf(s, id).holder.Some? {
        HeldIsUnavailable(cfg, s, HistoryOf(s, id).holder.value);
      }
      ClaimKeepsRecords(cfg, s, t, w, id, replySeen);
      ClaimKeepsPublishers(cfg, s, t, w, id, replySeen);
      ClaimKeepsHolders(cfg, s, t, w, id, replySeen);
    }
  }

  // ----- over all runs of the system -----

  lemma SendingKeepsLeased(cfg: Config, s: Sys, step: Step)
    requires Leased(cfg, s) && (step.Receive? || step.Send? || step.Return?)
    ensures Leased(cfg, Apply(cfg, s, step))
  {
    match step
    case Receive(w) => ReceiveKeeps(cfg, s, w);
    case Send(w, arrives, accepted) => SendKeeps(cfg, s, w, arrives, accepted);
    case Return(w, published, error) => ReturnKeeps(cfg, s, w, published, error);
  }

  lemma PublishingKeepsLeased(cfg: Config, s: Sys, step: Step)
    requires Fits(cfg) && ValidConfig(cfg) && Leased(cfg, s) && IsPublishing(step)
    ensures Leased(cfg, Apply(cfg, s, step))
  {
    match step
    case Tick(time) => TickKeeps(cfg, s, time);
    case ClaimNextMessage(w, locked, replySeen) => ClaimKeeps(cfg, s, w, locked, replySeen);
    case Save(w, applied) => SaveKeeps(cfg, s, w, applied);
    case CrashPublisher(w) => CrashKeeps(cfg, s, w);
    case _ => SendingKeepsLeased(cfg, s, step);
  }

  lemma StepKeepsLeased(cfg: Config, s: Sys, step: Step)
    requires Fits(cfg) && ValidConfig(cfg) && IdsDrawn(s.db) && Leased(cfg, s)
    ensures Leased(cfg, Apply(cfg, s, step))
  {
    if IsPublishing(step) {
      PublishingKeepsLeased(cfg, s, step);
    } else {
      AutomationSideAdds(cfg, s, step);
      AddingKeeps(cfg, s, Apply(cfg, s, step));
    }
  }

  lemma {:induction false} AlwaysLeased(cfg: Config, steps: seq<Step>)
    requires Fits(cfg) && ValidConfig(cfg)
    ensures Leased(cfg, Execution(cfg, steps))
  {
    if steps != [] {
      AlwaysLeased(cfg, steps[..|steps| - 1]);
      AlwaysSafe(cfg, steps[..|steps| - 1]);
      StepKeepsLeased(cfg, Execution(cfg, steps[..|steps| - 1]), steps[|steps| - 1]);
    }
  }

  // ----- consequences -----

  ghost predicate Shared(s: Sys, v: nat, w: nat) {
    v != w && PublisherAt(s, v).Live? && PublisherAt(s, w).Live? && PublisherAt(s, v).id == PublisherAt(s, w).id
  }

  /** No message is ever held by two live publishers. */
  ghost predicate LeaseExclusive(cfg: Config) {
    forall steps: seq<Step>, v: nat, w: nat :: !Shared(Execution(cfg, steps), v, w)
  }

  lemma ExclusiveWhenFits(cfg: Config)
    requires ValidConfig(cfg) && Fits(cfg)
    ensures LeaseExclusive(cfg)
  {
    forall steps: seq<Step>, v: nat, w: nat ensures !Shared(Execution(cfg, steps), v, w) {
      AlwaysLeased(cfg, steps);
      var s := Execution(cfg, steps);
      if PublisherAt(s, v).Live? { FitOf(cfg, s, v); }
      if PublisherAt(s, w).Live? { FitOf(cfg, s, w); }
    }
  }

  function LateMessage(): Message {
    Message(1, OtherTopic("notice"), map[], 0, 0, None, None, None, None)
  }

  const HELD_MESSAGE := LateMessage().(lockedAt := Some(0), attempts := 1)

  /** Publisher 0 has just claimed the only message, at time zero. */
  lemma ClaimAtStart(cfg: Config) returns (steps: seq<Step>)
    ensures var s := Execution(cfg, steps);
      s.clock == 0 && s.publishers == map[0 := Live(1, HELD_MESSAGE, 0, Replying)] && s.db.outbox == map[1 := HELD_MESSAGE]
  {
    ExecutionExtends(cfg, [], Notify(1, OtherTopic("notice"), map[], 0));
    steps := [] + [Notify(1, OtherTopic("notice"), map[], 0)];
    var s := Execution(cfg, steps);
    assert s.db.outbox == map[1 := LateMessage()];
    assert AvailableMessages(s.db, {}, 0) == {1};
    ExecutionExtends(cfg, steps, ClaimNextMessage(0, {}, true));
    steps := steps + [ClaimNextMessage(0, {}, true)];
  }

  lemma WaitAlone(cfg: Config, steps: seq<Step>, p: Publisher, time: int)
    requires var s := Execution(cfg, steps); s.publishers == map[0 := p] && p.Live? && s.clock <= time <= Deadline(cfg, p)
    ensures Execution(cfg, steps + [Tick(time)]) == Execution(cfg, steps).(clock := time)
  {
    ExecutionExtends(cfg, steps, Tick(time));
  }

  /** ... and is as slow as the time assumption lets it be to hear about it and to publish. */
  lemma SlowPublication(cfg: Config) returns (steps: seq<Step>)
    requires ValidConfig(cfg)
    ensures var s := Execution(cfg, steps);
      && s.clock == cfg.replyBound + PUBLISH_BOUND
      && s.publishers == map[0 := Live(1, HELD_MESSAGE, cfg.replyBound, Sending(false))]
      && s.db.outbox == map[1 := HELD_MESSAGE]
  {
    BoundsPositive();
    var r := cfg.replyBound;
    steps := ClaimAtStart(cfg);
    WaitAlone(cfg, steps, Live(1, HELD_MESSAGE, 0, Replying), r);
    steps := steps + [Tick(r)];
    ExecutionExtends(cfg, steps, Receive(0));
    steps := steps + [Receive(0)];
    WaitAlone(cfg, steps, Live(1, HELD_MESSAGE, r, Sending(false)), r + PUBLISH_BOUND);
    steps := steps + [Tick(r + PUBLISH_BOUND)];
  }

  lemma SlowPublisher(cfg: Config) returns (steps: seq<Step>)
    requires ValidConfig(cfg)
    ensures var s := Execution(cfg, steps);
      && s.clock == cfg.replyBound + PUBLISH_BOUND + PERSIST_BOUND
      && s.publishers == map[0 := Live(1, HELD_MESSAGE, cfg.replyBound + PUBLISH_BOUND,
           Saving(Decide(cfg, HELD_MESSAGE, false, "", cfg.replyBound + PUBLISH_BOUND)))]
      && s.db.outbox == map[1 := HELD_MESSAGE]
  {
    BoundsPositive();
    var end := cfg.replyBound + PUBLISH_BOUND + PERSIST_BOUND;
    steps := SlowPublication(cfg);
    ExecutionExtends(cfg, steps, Return(0, false, ""));
    steps := steps + [Return(0, false, "")];
    var p := PublisherAt(Execution(cfg, steps), 0);
    assert Execution(cfg, steps).publishers == map[0 := p];
    WaitAlone(cfg, steps, p, end);
    steps := steps + [Tick(end)];
  }

  lemma SharedUnlessFits(cfg: Config) returns (steps: seq<Step>)
    requires ValidConfig(cfg) && !Fits(cfg)
    ensures Shared(Execution(cfg, steps), 0, 1)
    ensures var s := Execution(cfg, steps);
      && s.publishers[0] == Live(1, HELD_MESSAGE, cfg.replyBound + PUBLISH_BOUND,
           Saving(Decide(cfg, HELD_MESSAGE, false, "", cfg.replyBound + PUBLISH_BOUND)))
      && 1 in s.db.outbox && s.db.outbox[1].attempts == 2 && Outstanding(s.db.outbox[1])
  {
    steps := SlowPublisher(cfg);
    var s := Execution(cfg, steps);
    assert AvailableMessages(s.db, {}, s.clock) == {1};
    ExecutionExtends(cfg, steps, ClaimNextMessage(1, {}, true));
    steps := steps + [ClaimNextMessage(1, {}, true)];
  }

  // 300 s of lease less 30.3 s of publication and 5 s of persistence, in nanoseconds.
  const FITTING_REPLY: int := 264_700_000_000

  /** The time assumption is exact: leases exclude a second holder if and only if the reply
      bound leaves room for a publication of 30.3 s and a persistence of 5 s. */
  lemma LeaseExclusiveIffFits(cfg: Config)
    requires ValidConfig(cfg)
    ensures LeaseExclusive(cfg) <==> cfg.replyBound <= FITTING_REPLY
  {
    PublicationBound();
    if Fits(cfg) {
      ExclusiveWhenFits(cfg);
    } else {
      var steps := SharedUnlessFits(cfg);
    }
  }

  /** attempts counts the claims, and exceeds the retry limit only by lost outcomes; a message
      fails for good only after that many claims. */
  lemma AttemptAccounting(cfg: Config, steps: seq<Step>, id: nat)
    requires ValidConfig(cfg) && Fits(cfg) && id in Execution(cfg, steps).db.outbox
    ensures var m := Execution(cfg, steps).db.outbox[id]; var h := HistoryOf(Execution(cfg, steps), id);
      && m.attempts == |h.claims|
      && m.attempts <= cfg.retryLimit + h.lost
      && (m.failedAt.Some? ==> m.attempts >= cfg.retryLimit)
  {
    AlwaysLeased(cfg, steps);
    RecordOf(cfg, Execution(cfg, steps), id);
  }

  lemma StepExtendsClaims(cfg: Config, s: Sys, step: Step, id: nat)
    ensures HistoryOf(s, id).claims <= HistoryOf(Apply(cfg, s, step), id).claims
  {
    if !IsPublishing(step) && !step.Execute? && !step.Notify? {
      OtherStepsTouchNoMessage(cfg, s, step);
    }
  }

  lemma {:induction false} ClaimsOnlyGrow(cfg: Config, steps: seq<Step>, more: seq<Step>, id: nat)
    ensures HistoryOf(Execution(cfg, steps), id).claims <= HistoryOf(Execution(cfg, steps + more), id).claims
    decreases |more|
  {
    if more == [] {
      assert steps + more == steps;
    } else {
      var all := steps + more;
      assert all[..|all| - 1] == steps + more[..|more| - 1];
      ClaimsOnlyGrow(cfg, steps, more[..|more| - 1], id);
      StepExtendsClaims(cfg, Execution(cfg, all[..|all| - 1]), all[|all| - 1], id);
    }
  }

  /** Although a reschedule writes back a remembered number, attempts never decreases. */
  lemma AttemptsNeverDecrease(cfg: Config, steps: seq<Step>, more: seq<Step>, id: nat)
    requires ValidConfig(cfg) && Fits(cfg)
    requires id in Execution(cfg, steps).db.outbox && id in Execution(cfg, steps + more).db.outbox
    ensures Execution(cfg, steps).db.outbox[id].attempts <= Execution(cfg, steps + more).db.outbox[id].attempts
  {
    AttemptAccounting(cfg, steps, id);
    AttemptAccounting(cfg, steps + more, id);
    ClaimsOnlyGrow(cfg, steps, more, id);
  }

  // ----- when attempts is a faithful counter -----

  ghost predicate NotDecreased(s: Sys, t: Sys, id: nat)
    requires id in s.db.outbox
  {
    id in t.db.outbox && s.db.outbox[id].attempts <= t.db.outbox[id].attempts
  }

  /** No single step of any execution lowers a message's attempts. */
  ghost predicate AttemptsMonotone(cfg: Config) {
    forall steps: seq<Step>, step: Step, id: nat | id in Execution(cfg, steps).db.outbox ::
      NotDecreased(Execution(cfg, steps), Execution(cfg, steps + [step]), id)
  }

  /** Claims start from one, and only a claim below the limit is rescheduled. */
  ghost predicate VerdictsSound(cfg: Config, s: Sys) {
    forall w | w in s.publishers && s.publishers[w].Live? ::
      && s.publishers[w].row.attempts >= 1
      && (s.publishers[w].phase.Saving? && s.publishers[w].phase.verdict.Retry? ==> s.publishers[w].row.attempts < cfg.retryLimit)
  }

  lemma ReturnKeepsVerdicts(cfg: Config, s: Sys, w: nat, published: bool, error: string)
    requires VerdictsSound(cfg, s)
    ensures VerdictsSound(cfg, ReturnStep(cfg, s, w, published, error))
  {
  }

  lemma ClaimKeepsVerdicts(cfg: Config, s: Sys, w: nat, locked: set<nat>, replySeen: bool)
    requires VerdictsSound(cfg, s)
    ensures VerdictsSound(cfg, ClaimMessageStep(s, w, locked, replySeen))
  {
  }

  lemma AutomationSideLeavesPublishers(cfg: Config, s: Sys, step: Step)
    requires !IsPublishing(step)
    ensures Apply(cfg, s, step).publishers == s.publishers
  {
    if !step.Execute? && !step.Notify? { OtherStepsTouchNoMessage(cfg, s, step); }
  }

  lemma OtherStepsKeepVerdicts(cfg: Config, s: Sys, step: Step)
    requires VerdictsSound(cfg, s) && IsPublishing(step) && !step.Return? && !step.ClaimNextMessage?
    ensures VerdictsSound(cfg, Apply(cfg, s, step))
  {
  }

  lemma StepKeepsVerdicts(cfg: Config, s: Sys, step: Step)
    requires VerdictsSound(cfg, s)
    ensures VerdictsSound(cfg, Apply(cfg, s, step))
  {
    if !IsPublishing(step) {
      AutomationSideLeavesPublishers(cfg, s, step);
    } else if step.Return? {
      ReturnKeepsVerdicts(cfg, s, step.worker, step.published, step.error);
    } else if step.ClaimNextMessage? {
      ClaimKeepsVerdicts(cfg, s, step.worker, step.locked, step.replySeen);
    } else {
      OtherStepsKeepVerdicts(cfg, s, step);
    }
  }

  lemma {:induction false} AlwaysVerdictsSound(cfg: Config, steps: seq<Step>)
    ensures VerdictsSound(cfg, Execution(cfg, steps))
  {
    if steps != [] {
      AlwaysVerdictsSound(cfg, steps[..|steps| - 1]);
      StepKeepsVerdicts(cfg, Execution(cfg, steps[..|steps| - 1]), steps[|steps| - 1]);
    }
  }

  lemma SaveLowersOnlyByRetry(s: Sys, w: nat, applied: bool, id: nat)
    requires id in s.db.outbox
    requires PublisherAt(s, w).Live? && PublisherAt(s, w).phase.Saving? ==> !PublisherAt(s, w).phase.verdict.Retry?
    ensures NotDecreased(s, SaveStep(s, w, applied), id)
  {
  }

  lemma ClaimRaises(s: Sys, w: nat, locked: set<nat>, replySeen: bool, id: nat)
    requires id in s.db.outbox
    ensures NotDecreased(s, ClaimMessageStep(s, w, locked, replySeen), id)
  {
  }

  lemma IdleOnMessages(cfg: Config, s: Sys, step: Step)
    requires IsPublishing(step) && !step.Save? && !step.ClaimNextMessage?
    ensures Apply(cfg, s, step).db == s.db
  {
  }

  lemma OnlySaveLowers(cfg: Config, s: Sys, step: Step, id: nat)
    requires IdsDrawn(s.db) && id in s.db.outbox && !step.Save?
    ensures NotDecreased(s, Apply(cfg, s, step), id)
  {
    if !IsPublishing(step) {
      AutomationSideAdds(cfg, s, step);
    } else if step.ClaimNextMessage? {
      ClaimRaises(s, step.worker, step.locked, step.replySeen, id);
    } else {
      IdleOnMessages(cfg, s, step);
    }
  }

  /** With a limit of one a saved verdict is never a retry, so no step lowers attempts. */
  lemma StepWithoutRetries(cfg: Config, s: Sys, step: Step, id: nat)
    requires cfg.retryLimit == 1 && IdsDrawn(s.db) && VerdictsSound(cfg, s) && id in s.db.outbox
    ensures NotDecreased(s, Apply(cfg, s, step), id)
  {
    if step.Save? {
      SaveLowersOnlyByRetry(s, step.worker, step.applied, id);
    } else {
      OnlySaveLowers(cfg, s, step, id);
    }
  }

  lemma ExtensionWithoutRetries(cfg: Config, steps: seq<Step>, step: Step, id: nat)
    requires cfg.retryLimit == 1 && id in Execution(cfg, steps).db.outbox
    ensures NotDecreased(Execution(cfg, steps), Execution(cfg, steps + [step]), id)
  {
    AlwaysSafe(cfg, steps);
    AlwaysVerdictsSound(cfg, steps);
    StepWithoutRetries(cfg, Execution(cfg, steps), step, id);
    ExecutionExtends(cfg, steps, step);
  }

  lemma MonotoneWithoutRetries(cfg: Config)
    requires ValidConfig(cfg) && cfg.retryLimit == 1
    ensures AttemptsMonotone(cfg)
  {
    forall steps: seq<Step>, step: Step, id: nat | id in Execution(cfg, steps).db.outbox
      ensures NotDecreased(Execution(cfg, steps), Execution(cfg, steps + [step]), id)
    {
      ExtensionWithoutRetries(cfg, steps, step, id);
    }
  }

  lemma MessagesStay(cfg: Config, s: Sys, step: Step, id: nat)
    requires IdsDrawn(s.db) && id in s.db.outbox
    ensures id in Apply(cfg, s, step).db.outbox
  {
    if IsPublishing(step) { PublishingFrame(cfg, s, step); } else { AutomationSideAdds(cfg, s, step); }
  }

  lemma ExtensionWhenFits(cfg: Config, steps: seq<Step>, step: Step, id: nat)
    requires ValidConfig(cfg) && Fits(cfg) && id in Execution(cfg, steps).db.outbox
    ensures NotDecreased(Execution(cfg, steps), Execution(cfg, steps + [step]), id)
  {
    AlwaysSafe(cfg, steps);
    ExecutionExtends(cfg, steps, step);
    MessagesStay(cfg, Execution(cfg, steps), step, id);
    AttemptsNeverDecrease(cfg, steps, [step], id);
  }

  lemma MonotoneWhenFits(cfg: Config)
    requires ValidConfig(cfg) && Fits(cfg)
    ensures AttemptsMonotone(cfg)
  {
    forall steps: seq<Step>, step: Step, id: nat | id in Execution(cfg, steps).db.outbox
      ensures NotDecreased(Execution(cfg, steps), Execution(cfg, steps + [step]), id)
    {
      ExtensionWhenFits(cfg, steps, step, id);
    }
  }

  /** The overtaken publisher 0 writes back the number it remembers. */
  lemma StaleRescheduleUndercounts(cfg: Config)
    requires ValidConfig(cfg) && !Fits(cfg) && cfg.retryLimit > 1
    ensures !AttemptsMonotone(cfg)
  {
    var steps := SharedUnlessFits(cfg);
    var s := Execution(cfg, steps);
    ExecutionExtends(cfg, steps, Save(0, true));
    assert PublisherAt(s, 0).phase.verdict.Retry?;
    assert Execution(cfg, steps + [Save(0, true)]).db.outbox[1].attempts == 1;
    assert !NotDecreased(s, Execution(cfg, steps + [Save(0, true)]), 1);
  }

  /** attempts never goes down exactly when the time assumption holds, or nothing is ever
      rescheduled because the retry limit is one. */
  lemma AttemptsMonotoneIff(cfg: Config)
    requires ValidConfig(cfg)
    ensures AttemptsMonotone(cfg) <==> cfg.replyBound <= FITTING_REPLY || cfg.retryLimit == 1
  {
    PublicationBound();
    if Fits(cfg) {
      MonotoneWhenFits(cfg);
    } else if cfg.retryLimit == 1 {
      MonotoneWithoutRetries(cfg);
    } else {
      StaleRescheduleUndercounts(cfg);
    }
  }

  // ----- spacing -----

  lemma {:induction false} SpacingSum(claims: seq<int>, n: nat)
    requires Spaced(claims) && 1 <= n <= |claims| && n <= 301
    ensures 2 * (claims[n - 1] - claims[0]) >= n * (n - 1) * SECOND
  {
    if n > 1 {
      SpacingSum(claims, n - 1);
      assert claims[n - 1] - claims[n - 2] >= Gap(n - 1) == (n - 1) * SECOND;
      assert n * (n - 1) * SECOND == (n - 1) * (n - 2) * SECOND + 2 * ((n - 1) * SECOND);
    }
  }

  /** The n-th claim of a message comes at least n(n-1)/2 seconds after the first, whether the
      earlier ones were rescheduled or lost (n up to 301; the retry limit is at most 100). */
  lemma RetrySpacing(cfg: Config, steps: seq<Step>, id: nat, n: nat)
    requires ValidConfig(cfg) && Fits(cfg)
    requires 1 <= n <= |HistoryOf(Execution(cfg, steps), id).claims| && n <= 301
    ensures var claims := HistoryOf(Execution(cfg, steps), id).claims;
      2 * (claims[n - 1] - claims[0]) >= n * (n - 1) * 1_000_000_000
  {
    AlwaysLeased(cfg, steps);
    var s := Execution(cfg, steps);
    RecordOf(cfg, s, id);
    SpacingSum(HistoryOf(s, id).claims, n);
  }
}
