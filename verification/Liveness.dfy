/** From a queued run to its effects: from any reachable state in which a run is queued, its
    devices are ready and a worker and a publisher are free, some continuation makes every planned
    action take effect exactly once and marks its message delivered. */
module Liveness {
  import opened Base
  import opened Tables
  import opened Protocol
  import opened RunSafety
  import opened EndToEnd
  import opened Progress

  ghost predicate CanDeliver(s: Sys, p: nat, ids: seq<nat>) {
    && !PublisherAt(s, p).Live?
    && (forall k | 0 <= k < |ids| :: ids[k] in s.db.outbox && Available(s.db.outbox[ids[k]], s.clock))
    && (forall j, k | 0 <= j < k < |ids| :: ids[j] != ids[k])
  }

  /** These messages are delivered; other rows and tables are as before. */
  ghost predicate Delivered(db: Db, db': Db, ids: seq<nat>) {
    && db' == db.(outbox := db'.outbox) && db'.outbox.Keys == db.outbox.Keys
    && (forall id | id in db.outbox && id !in ids :: db'.outbox[id] == db.outbox[id])
    && (forall k | 0 <= k < |ids| :: ids[k] in db'.outbox && db'.outbox[ids[k]].deliveredAt.Some?)
  }

  lemma RestCanBeDelivered(s: Sys, t: Sys, p: nat, ids: seq<nat>)
    requires CanDeliver(s, p, ids) && ids != []
    requires OnlyChanges(s.db, t.db, ids[0]) && t.clock == s.clock && PublisherAt(t, p) == Free
    ensures CanDeliver(t, p, ids[1..])
  {
  }

  lemma FirstStaysDelivered(db: Db, mid: Db, db': Db, ids: seq<nat>)
    requires ids != [] && ids[0] in db.outbox && OnlyChanges(db, mid, ids[0]) && mid.outbox[ids[0]].deliveredAt.Some?
    requires forall j, k | 0 <= j < k < |ids| :: ids[j] != ids[k]
    requires Delivered(mid, db', ids[1..])
    ensures Delivered(db, db', ids)
  {
    assert ids[0] !in ids[1..];
    forall id | id in db.outbox && id !in ids ensures db'.outbox[id] == db.outbox[id] {
      assert id !in ids[1..];
    }
    forall k | 0 <= k < |ids| ensures ids[k] in db'.outbox && db'.outbox[ids[k]].deliveredAt.Some? {
      if k > 0 { assert ids[k] == ids[1..][k - 1]; }
    }
  }

  /** One publisher can deliver any number of available messages, one after the other. */
  lemma {:induction false} AllCanBeDelivered(cfg: Config, steps: seq<Step>, p: nat, ids: seq<nat>) returns (more: seq<Step>)
    requires CanDeliver(Execution(cfg, steps), p, ids)
    ensures steps <= more && Delivered(Execution(cfg, steps).db, Execution(cfg, more).db, ids)
    decreases |ids|
  {
    more := steps;
    if ids != [] {
      var first := MessageCanBeDelivered(cfg, steps, p, ids[0]);
      RestCanBeDelivered(Execution(cfg, steps), Execution(cfg, first), p, ids);
      more := AllCanBeDelivered(cfg, first, p, ids[1..]);
      FirstStaysDelivered(Execution(cfg, steps).db, Execution(cfg, first).db, Execution(cfg, more).db, ids);
    }
  }

  /** The run's commands, listed, are those that are then delivered. */
  lemma CommandsDelivered(db: Db, db': Db, run: nat, ids: seq<nat>)
    requires Delivered(db, db', ids) && forall id :: id in ids <==> id in CommandIds(db.outbox, run)
    ensures forall id | id in CommandIds(db'.outbox, run) :: db'.outbox[id].deliveredAt.Some?
  {
    forall id | id in CommandIds(db'.outbox, run) ensures db'.outbox[id].deliveredAt.Some? {
      assert id in ids;
    }
  }

  lemma CommandsDeliverable(s: Sys, p: nat, run: nat, at: int) returns (ids: seq<nat>)
    requires !PublisherAt(s, p).Live? && AllCommandsWait(s.db, run, at) && at <= s.clock
    ensures CanDeliver(s, p, ids) && forall id :: id in ids <==> id in CommandIds(s.db.outbox, run)
  {
    ids := Ascending(CommandIds(s.db.outbox, run));
    AscendingSorts(CommandIds(s.db.outbox, run));
    forall k | 0 <= k < |ids| ensures ids[k] in s.db.outbox && Available(s.db.outbox[ids[k]], s.clock) {
      assert ids[k] in CommandIds(s.db.outbox, run);
      assert AvailableFrom(s.db.outbox[ids[k]], at);
    }
  }

  /** The run has succeeded, and every action its automation plans has taken effect exactly once,
      through a message that is marked delivered. */
  ghost predicate Fulfilled(s: Sys, run: nat, automation: nat, a: Automation) {
    && HasSucceeded(s.db, run)
    && forall o | o in a.actions ::
         && (exists id :: Commands(s.db.outbox, a, automation, run, o, id) && s.db.outbox[id].deliveredAt.Some?)
         && (exists i :: ActionActedAt(s, a, automation, run, o, i))
         && (forall i, j | ActionActedAt(s, a, automation, run, o, i) && ActionActedAt(s, a, automation, run, o, j) :: i == j)
  }

  lemma DeliveredMeansFulfilled(cfg: Config, steps: seq<Step>, run: nat)
    requires var db := Execution(cfg, steps).db;
      HasSucceeded(db, run) && forall id | id in CommandIds(db.outbox, run) :: db.outbox[id].deliveredAt.Some?
    ensures var s := Execution(cfg, steps); var automation := s.db.runs[run].automation;
      automation in s.db.automations && Fulfilled(s, run, automation, s.db.automations[automation])
  {
    var s := Execution(cfg, steps);
    var automation := s.db.runs[run].automation;
    ExactlyOnceFanOut(cfg, steps, run);
    var a := s.db.automations[automation];
    forall o | o in a.actions
      ensures exists id :: Commands(s.db.outbox, a, automation, run, o, id) && s.db.outbox[id].deliveredAt.Some?
      ensures exists i :: ActionActedAt(s, a, automation, run, o, i)
      ensures forall i, j | ActionActedAt(s, a, automation, run, o, i) && ActionActedAt(s, a, automation, run, o, j) :: i == j
    {
      var id := EachActionTakesEffectOnce(cfg, steps, run, o);
    }
  }

  /** From any reachable state: a queued run whose devices are ready can still be fulfilled. */
  lemma QueuedRunCanBeFulfilled(cfg: Config, steps: seq<Step>, w: nat, p: nat, run: nat, at: int) returns (more: seq<Step>)
    requires var s := Execution(cfg, steps);
      && run in s.db.runs && s.db.runs[run].state == Queued && s.db.runs[run].automation in s.db.automations
      && DevicesReady(s.db, s.db.automations[s.db.runs[run].automation])
      && RunnerAt(s, w).Idle? && !PublisherAt(s, p).Live?
    requires at != ZERO_TIME && at <= Execution(cfg, steps).clock
    ensures steps <= more
    ensures var s := Execution(cfg, steps); var automation := s.db.runs[run].automation;
      Fulfilled(Execution(cfg, more), run, automation, s.db.automations[automation])
  {
    var s := Execution(cfg, steps);
    var dispatched := QueuedRunDispatches(cfg, steps, w, run, at);
    var t := Execution(cfg, dispatched);
    var ids := CommandsDeliverable(t, p, run, at);
    more := AllCanBeDelivered(cfg, dispatched, p, ids);
    CommandsDelivered(t.db, Execution(cfg, more).db, run, ids);
    DeliveredMeansFulfilled(cfg, more, run);
  }

  // ----- after crashes -----

  function LiveOnes(s: Sys): set<nat> {
    set w | w in s.publishers && s.publishers[w].Live?
  }

  lemma CrashLeaves(cfg: Config, s: Sys, w: nat)
    requires w in LiveOnes(s)
    ensures var t := Apply(cfg, s, CrashPublisher(w));
      t.db == s.db && t.clock == s.clock && t.effects == s.effects && LiveOnes(t) == LiveOnes(s) - {w}
  {
  }

  /** Every live publisher may crash, losing its claim. */
  lemma {:induction false} AllMayCrash(cfg: Config, steps: seq<Step>) returns (more: seq<Step>)
    ensures steps <= more
    ensures var s := Execution(cfg, steps); var t := Execution(cfg, more);
      t.db == s.db && t.clock == s.clock && t.effects == s.effects && LiveOnes(t) == {}
    decreases |LiveOnes(Execution(cfg, steps))|
  {
    var s := Execution(cfg, steps);
    more := steps;
    if LiveOnes(s) != {} {
      var w :| w in LiveOnes(s);
      CrashLeaves(cfg, s, w);
      ExecutionExtends(cfg, steps, CrashPublisher(w));
      assert |LiveOnes(s) - {w}| < |LiveOnes(s)|;
      more := AllMayCrash(cfg, steps + [CrashPublisher(w)]);
    }
  }

  /** The first moment, from now on, at which the message is due and its lease, if any, is over. */
  function DueAt(m: Message, now: int): int {
    var due := Max(now, m.availableAt);
    if m.lockedAt.Some? then Max(due, m.lockedAt.value + 300_000_000_001) else due
  }

  lemma MayWait(cfg: Config, steps: seq<Step>, time: int)
    requires LiveOnes(Execution(cfg, steps)) == {} && Execution(cfg, steps).clock <= time
    ensures Execution(cfg, steps + [Tick(time)]) == Execution(cfg, steps).(clock := time)
  {
    var s := Execution(cfg, steps);
    ExecutionExtends(cfg, steps, Tick(time));
    assert forall w | w in s.publishers :: s.publishers[w].Live? <==> w in LiveOnes(s);
  }

  lemma DueMeansAvailable(m: Message, now: int)
    requires Outstanding(m)
    ensures Available(m, DueAt(m, now)) && now <= DueAt(m, now)
  {
  }

  /** No claim is lost for good: in any reachable state, whoever holds it and however often it has
      been claimed, a message that is neither delivered nor failed can still be claimed once more
      and delivered, as soon as it is due and a lease left behind by a crash is over. */
  lemma LostClaimsRecover(cfg: Config, steps: seq<Step>, w: nat, id: nat) returns (more: seq<Step>)
    requires id in Execution(cfg, steps).db.outbox && Outstanding(Execution(cfg, steps).db.outbox[id])
    ensures steps <= more
    ensures var s := Execution(cfg, steps); var t := Execution(cfg, more); var m := s.db.outbox[id];
      && id in t.db.outbox && t.db.outbox[id].deliveredAt == Some(DueAt(m, s.clock))
      && t.db.outbox[id].attempts == m.attempts + 1 && Seen(t.effects, Key(id))
  {
    var s := Execution(cfg, steps);
    var due := DueAt(s.db.outbox[id], s.clock);
    DueMeansAvailable(s.db.outbox[id], s.clock);
    var quiet := AllMayCrash(cfg, steps);
    MayWait(cfg, quiet, due);
    assert PublisherAt(Execution(cfg, quiet), w).Live? ==> w in LiveOnes(Execution(cfg, quiet));
    more := MessageCanBeDelivered(cfg, quiet + [Tick(due)], w, id);
  }
}
