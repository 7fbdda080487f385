/** Runner.process and OutboxRunner.process as sequential code against the repository, proved to
    do exactly what the protocol's steps for one worker do when nothing else interferes. */
module Workers {
  import opened Base
  import opened Tables
  import opened Transport
  import opened Repositories
  import opened Protocol

  /** The protocol seen by a single worker starting from these tables at this time. */
  function Alone(db: Db, now: int): Sys {
    Sys(db, now, map[], map[], map[], [])
  }

  // What goes wrong during one pass of the automation worker, and when it records a failure.
  datatype RunFaults = RunFaults(claimLost: bool, cancelledFirst: bool, fate: Fate, cancelledLater: bool,
                                 recorded: bool, recordedAt: int)

  ghost function AfterClaim(cfg: Config, claimed: Sys, finishedAt: int, cause: string, f: RunFaults): Sys {
    var executed := if f.cancelledFirst then CancelStep(claimed, 0) else ExecuteStep(claimed, 0, finishedAt, f.fate, f.cancelledLater);
    RecordStep(TickStep(cfg, executed, f.recordedAt), 0, cause, f.recorded)
  }

  ghost function RunnerPass(cfg: Config, db: Db, now: int, locked: set<nat>, finishedAt: int, cause: string, f: RunFaults): Sys {
    AfterClaim(cfg, ClaimRunStep(Alone(db, now), 0, locked, !f.claimLost), finishedAt, cause, f)
  }

  lemma RecordingEnds(cfg: Config, s: Sys, run: nat, cancelled: bool, cause: string, applied: bool, at: int)
    requires RunnerAt(s, 0) == Busy(run, Recording(cancelled)) && s.publishers == map[] && s.clock <= at
    ensures var t := RecordStep(TickStep(cfg, s, at), 0, cause, applied);
      t.db == Recorded(s.db, run, cancelled, cause, applied, at) && RunnerAt(t, 0) == Idle
  {
    assert TickStep(cfg, s, at) == s.(clock := at);
  }

  lemma RecordingSkipped(cfg: Config, s: Sys, cause: string, applied: bool, at: int)
    requires RunnerAt(s, 0) == Idle
    ensures var t := RecordStep(TickStep(cfg, s, at), 0, cause, applied); t.db == s.db && RunnerAt(t, 0) == Idle
  {
  }

  lemma CancelledPass(cfg: Config, s: Sys, run: nat, finishedAt: int, cause: string, f: RunFaults)
    requires RunnerAt(s, 0) == Busy(run, Executing) && s.publishers == map[] && f.cancelledFirst && s.clock <= f.recordedAt
    ensures AfterClaim(cfg, s, finishedAt, cause, f).db == Recorded(s.db, run, true, cause, f.recorded, f.recordedAt)
    ensures RunnerAt(AfterClaim(cfg, s, finishedAt, cause, f), 0) == Idle
  {
    RecordingEnds(cfg, CancelStep(s, 0), run, true, cause, f.recorded, f.recordedAt);
  }

  /** What the tables hold when ExecuteAutomationRun has returned, and what it returned. */
  function Executed(db: Db, run: nat, finishedAt: int, fate: Fate): (Db, Dispatch) {
    var (after, outcome) := ExecuteRun(db, run, finishedAt);
    if outcome != Dispatched then (after, outcome)
    else if fate == Abort then (db.(nextMessage := after.nextMessage), Broken)
    else (after, if fate == Commit then Dispatched else Broken)
  }

  lemma OutcomeNotBroken(db: Db, run: nat, finishedAt: int)
    ensures ExecuteRun(db, run, finishedAt).1 != Broken
  {
  }

  lemma AfterExecuteReturns(s: Sys, run: nat, finishedAt: int, fate: Fate, cancelled: bool)
    ensures var (db, outcome) := ExecuteRun(s.db, run, finishedAt);
      var t := AfterExecute(s, 0, run, db, outcome, fate, cancelled);
      var (after, result) := Executed(s.db, run, finishedAt, fate);
      && t.db == after && t.clock == s.clock && t.publishers == s.publishers
      && RunnerAt(t, 0) == if result == Dispatched then Idle else Busy(run, Recording(result == Broken && cancelled))
  {
    OutcomeNotBroken(s.db, run, finishedAt);
  }

  lemma ExecutedPass(cfg: Config, s: Sys, run: nat, finishedAt: int, cause: string, f: RunFaults)
    requires RunnerAt(s, 0) == Busy(run, Executing) && s.publishers == map[] && !f.cancelledFirst && s.clock <= f.recordedAt
    ensures var (after, result) := Executed(s.db, run, finishedAt, f.fate);
      AfterClaim(cfg, s, finishedAt, cause, f).db ==
        if result == Dispatched then after
        else Recorded(after, run, result == Broken && f.cancelledLater, cause, f.recorded, f.recordedAt)
    ensures RunnerAt(AfterClaim(cfg, s, finishedAt, cause, f), 0) == Idle
  {
    AfterExecuteReturns(s, run, finishedAt, f.fate, f.cancelledLater);
    var t := ExecuteStep(s, 0, finishedAt, f.fate, f.cancelledLater);
    var result := Executed(s.db, run, finishedAt, f.fate).1;
    if result == Dispatched {
      RecordingSkipped(cfg, t, cause, f.recorded, f.recordedAt);
    } else {
      RecordingEnds(cfg, t, run, result == Broken && f.cancelledLater, cause, f.recorded, f.recordedAt);
    }
  }

  method Execute(repo: Repository, run: nat, finishedAt: int, fate: Fate) returns (result: Dispatch)
    modifies repo
    ensures (repo.View(), result) == Executed(old(repo.View()), run, finishedAt, fate)
  {
    result := repo.ExecuteAutomationRun(run, finishedAt, fate);
  }

  method RecordFailure(repo: Repository, run: nat, cancelled: bool, cause: string, applied: bool, now: int)
    modifies repo
    ensures repo.View() == Recorded(old(repo.View()), run, cancelled, cause, applied, now)
  {
    if applied {
      if cancelled {
        var _ := repo.RequeueRun(run);
      } else {
        var _ := repo.FinishRun(run, Failed, cause, now);
      }
    }
  }

  /** The rest of the pass once a run is held: execute it, and record a failure at the time the
      clock then shows. */
  method RunClaimed(repo: Repository, run: nat, ghost cfg: Config, ghost s: Sys, finishedAt: int, cause: string, f: RunFaults)
    requires RunnerAt(s, 0) == Busy(run, Executing) && s.publishers == map[] && s.db == repo.View() && s.clock <= f.recordedAt
    modifies repo
    ensures repo.View() == AfterClaim(cfg, s, finishedAt, cause, f).db
    ensures RunnerAt(AfterClaim(cfg, s, finishedAt, cause, f), 0) == Idle
  {
    var cancelled := f.cancelledFirst;
    if cancelled {
      CancelledPass(cfg, s, run, finishedAt, cause, f);
    } else {
      ExecutedPass(cfg, s, run, finishedAt, cause, f);
      var result := Execute(repo, run, finishedAt, f.fate);
      if result == Dispatched {
        return;
      }
      cancelled := result == Broken && f.cancelledLater;
    }
    RecordFailure(repo, run, cancelled, cause, f.recorded, f.recordedAt);
  }

  lemma NothingClaimed(cfg: Config, s: Sys, finishedAt: int, cause: string, f: RunFaults)
    requires RunnerAt(s, 0) == Idle
    ensures AfterClaim(cfg, s, finishedAt, cause, f).db == s.db
    ensures RunnerAt(AfterClaim(cfg, s, finishedAt, cause, f), 0) == Idle
  {
    RecordingSkipped(cfg, s, cause, f.recorded, f.recordedAt);
  }

  method ProcessRun(repo: Repository, ghost cfg: Config, locked: set<nat>, now: int, finishedAt: int, cause: string, f: RunFaults)
    requires now <= f.recordedAt
    modifies repo
    ensures repo.View() == RunnerPass(cfg, old(repo.View()), now, locked, finishedAt, cause, f).db
    ensures RunnerAt(RunnerPass(cfg, old(repo.View()), now, locked, finishedAt, cause, f), 0) == Idle
  {
    ghost var s := ClaimRunStep(Alone(repo.View(), now), 0, locked, !f.claimLost);
    var run := repo.ClaimRun(locked, now);
    if run.None? || f.claimLost {
      assert RunnerAt(s, 0) == Idle && s.db == repo.View();
      NothingClaimed(cfg, s, finishedAt, cause, f);
      return;
    }
    RunClaimed(repo, run.value, cfg, s, finishedAt, cause, f);
  }

  // How one publication went: whether a 2xx came back, whether Publish returned nil, and when.
  datatype Publication = Publication(acked: bool, published: bool, returned: int)

  ghost function AfterReply(cfg: Config, claimed: Sys, p: Publication, error: string, saved: bool): Sys {
    var sent := SendStep(ReceiveStep(claimed, 0), 0, p.acked, p.acked);
    var back := ReturnStep(cfg, TickStep(cfg, sent, p.returned), 0, p.published, error);
    SaveStep(back, 0, saved)
  }

  ghost function PublisherPass(cfg: Config, db: Db, now: int, locked: set<nat>, claimLost: bool, p: Publication,
                               error: string, saved: bool): Sys {
    AfterReply(cfg, ClaimMessageStep(Alone(db, now), 0, locked, !claimLost), p, error, saved)
  }

  lemma ReceivedAndSent(s: Sys, id: nat, row: Message, acked: bool)
    requires s.publishers == map[0 := Live(id, row, s.clock, Replying)]
    ensures var t := SendStep(ReceiveStep(s, 0), 0, acked, acked);
      t.publishers == map[0 := Live(id, row, s.clock, Sending(acked))] && t.clock == s.clock && t.db == s.db
  {
    assert ReceiveStep(s, 0).publishers == map[0 := Live(id, row, s.clock, Sending(false))];
  }

  lemma Returned(cfg: Config, s: Sys, id: nat, row: Message, p: Publication, error: string)
    requires s.publishers == map[0 := Live(id, row, s.clock, Sending(p.acked))]
    requires s.clock <= p.returned <= s.clock + PUBLISH_BOUND && (p.published ==> p.acked)
    ensures var t := ReturnStep(cfg, TickStep(cfg, s, p.returned), 0, p.published, error);
      && PublisherAt(t, 0) == Live(id, row, p.returned, Saving(Decide(cfg, row, p.published, error, p.returned)))
      && t.clock == p.returned && t.db == s.db
  {
    assert TickStep(cfg, s, p.returned) == s.(clock := p.returned);
  }

  lemma Saved(s: Sys, id: nat, row: Message, v: Verdict, saved: bool)
    requires PublisherAt(s, 0).Live? && PublisherAt(s, 0).id == id && PublisherAt(s, 0).row == row
    requires PublisherAt(s, 0).phase == Saving(v)
    ensures PublisherAt(SaveStep(s, 0, saved), 0) == Free
    ensures SaveStep(s, 0, saved).db == if saved then SaveVerdict(s.db, id, row, v, s.clock).0 else s.db
  {
  }

  /** Publishing a held message within the bound ends in saving the decided verdict. */
  lemma ReplyLeadsToSave(cfg: Config, s: Sys, id: nat, row: Message, p: Publication, error: string, saved: bool)
    requires s.publishers == map[0 := Live(id, row, s.clock, Replying)]
    requires s.clock <= p.returned <= s.clock + PUBLISH_BOUND && (p.published ==> p.acked)
    ensures var t := AfterReply(cfg, s, p, error, saved);
      && PublisherAt(t, 0) == Free
      && t.db == if saved then SaveVerdict(s.db, id, row, Decide(cfg, row, p.published, error, p.returned), p.returned).0 else s.db
  {
    var sent := SendStep(ReceiveStep(s, 0), 0, p.acked, p.acked);
    ReceivedAndSent(s, id, row, p.acked);
    Returned(cfg, sent, id, row, p, error);
    var back := ReturnStep(cfg, TickStep(cfg, sent, p.returned), 0, p.published, error);
    Saved(back, id, row, Decide(cfg, row, p.published, error, p.returned), saved);
  }

  ghost predicate AnsweredAt(turns: seq<Turn>, k: int, drained: bool) {
    && 0 <= k < |turns| && Success(turns[k].exchange) && (drained ==> turns[k].exchange.drained)
    && forall i | 0 <= i < k :: GoesOn(turns, i, BACKOFF)
  }

  /** Some attempt is answered with a 2xx, after attempts worth repeating only. */
  ghost predicate Answered(turns: seq<Turn>, drained: bool) {
    exists k :: AnsweredAt(turns, k, drained)
  }

  /** The loop stops where the first answered attempt is. */
  lemma LastIsAnswered(turns: seq<Turn>, sent: nat, k: int, drained: bool)
    requires 1 <= sent <= |turns| && forall i | 0 <= i < sent - 1 :: GoesOn(turns, i, BACKOFF)
    requires sent < |turns| ==> !GoesOn(turns, sent - 1, BACKOFF)
    requires AnsweredAt(turns, k, drained)
    ensures k == sent - 1
  {
    assert k < sent - 1 ==> GoesOn(turns, k, BACKOFF);
  }

  /** The webhook publisher: a 2xx comes back exactly when some attempt is answered, Publish
      succeeds exactly when that answer is also read to its end, and the retry loop keeps the
      publication within its bound. */
  method Publish(now: int, turns: seq<Turn>) returns (p: Publication)
    requires |turns| == RETRY
    requires forall i | 0 <= i < |turns| :: 0 <= turns[i].exchange.took <= TIMEOUT
    requires forall i | 0 <= i < |turns| :: turns[i].cancelledAfter.Some? ==> turns[i].cancelledAfter.value >= 0
    ensures now <= p.returned <= now + PUBLISH_BOUND
    ensures p.acked <==> Answered(turns, false)
    ensures p.published <==> Answered(turns, true)
    ensures p.published ==> p.acked
  {
    var reply, sent, elapsed := Do(RETRY, TIMEOUT, BACKOFF, turns);
    p := Publication(Success(turns[sent - 1].exchange), reply == Accepted, now + elapsed);
    forall drained, k | AnsweredAt(turns, k, drained) ensures k == sent - 1 {
      LastIsAnswered(turns, sent, k, drained);
    }
    if p.acked { assert AnsweredAt(turns, sent - 1, false); }
    if p.published { assert AnsweredAt(turns, sent - 1, true); }
  }

  /** Mark delivered, give up at the retry limit, or reschedule. */
  method Settle(repo: Repository, cfg: Config, id: nat, row: Message, published: bool, error: string, now: int)
    modifies repo
    ensures repo.View() == SaveVerdict(old(repo.View()), id, row, Decide(cfg, row, published, error, now), now).0
  {
    if published {
      var _ := repo.MarkOutbox(id, true, ZERO_TIME, now);
    } else if row.attempts >= cfg.retryLimit {
      var _ := repo.MarkOutboxFailed(id, error, now);
    } else {
      var next := now + row.attempts * SECOND;
      var _ := repo.RescheduleOutbox(id, row.attempts, next, error);
    }
  }

  method ProcessMessage(repo: Repository, cfg: Config, locked: set<nat>, now: int, claimLost: bool, turns: seq<Turn>,
                        error: string, saved: bool) returns (p: Publication)
    requires |turns| == RETRY
    requires forall i | 0 <= i < |turns| :: 0 <= turns[i].exchange.took <= TIMEOUT
    requires forall i | 0 <= i < |turns| :: turns[i].cancelledAfter.Some? ==> turns[i].cancelledAfter.value >= 0
    modifies repo
    ensures ClaimMessage(old(repo.View()), locked, now).1.Some? && !claimLost ==>
      (p.acked <==> Answered(turns, false)) && (p.published <==> Answered(turns, true))
    ensures repo.View() == PublisherPass(cfg, old(repo.View()), now, locked, claimLost, p, error, saved).db
    ensures PublisherAt(PublisherPass(cfg, old(repo.View()), now, locked, claimLost, p, error, saved), 0) == Free
  {
    ghost var s := ClaimMessageStep(Alone(repo.View(), now), 0, locked, !claimLost);
    var message := repo.ClaimOutbox(locked, now);
    if message.None? || claimLost {
      p := Publication(false, false, now);
      assert PublisherAt(s, 0) == Free && s.db == repo.View();
      return;
    }
    var id := message.value;
    var row := repo.outbox[id];
    assert s.publishers == map[0 := Live(id, row, now, Replying)];
    p := Publish(now, turns);
    ReplyLeadsToSave(cfg, s, id, row, p, error, saved);
    if saved {
      Settle(repo, cfg, id, row, p.published, error, p.returned);
    }
  }
}
