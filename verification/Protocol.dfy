/** The durable execution protocol: any number of automation workers and outbox publishers
    issue statements against one database in any order, crash, lose replies and are cancelled,
    while time passes. A step that is not enabled leaves the state alone, so every sequence of
    steps is a run and every reachable state is Execution(cfg, steps) for some steps. */
module Protocol {
  import opened Base
  import opened Tables
  import opened Transport

  // replyBound: how long a committed claim's reply may take to reach its publisher.
  datatype Config = Config(retryLimit: nat, replyBound: int)

  ghost predicate ValidConfig(cfg: Config) {
    1 <= cfg.retryLimit && 0 <= cfg.replyBound
  }

  const PUBLISH_BOUND: int := WorstCase(RETRY, TIMEOUT, BACKOFF)
  const PERSIST_BOUND: int := 5 * SECOND

  // Runner.process between its statements.
  datatype Stage = Executing | Recording(cancelled: bool)
  datatype Runner = Idle | Busy(run: nat, stage: Stage)

  // OutboxRunner.process between its statements; row is what the claim returned.
  datatype Verdict = Deliver | GiveUp(reason: string) | Retry(next: int, error: string)
  datatype Phase = Replying | Sending(acked: bool) | Saving(verdict: Verdict)
  datatype Publisher = Free | Live(id: nat, row: Message, since: int, phase: Phase)

  // What happened to one message: its claims' times, how many were rescheduled, how many had
  // their outcome lost, and who holds it now.
  datatype History = History(claims: seq<int>, rescheduled: nat, lost: nat, holder: Option<nat>)

  // A command the receiver acted on. The receiver acts once per idempotency key.
  datatype Effect = Effect(key: string, row: Message)

  datatype Sys = Sys(db: Db, clock: int, runners: map<nat, Runner>, publishers: map<nat, Publisher>,
                     histories: map<nat, History>, effects: seq<Effect>)

  const START := Sys(EMPTY, 0, map[], map[], map[], [])

  datatype Step =
    | EnrollDevice(device: nat, household: nat)
    | MoveDevice(device: nat, from: DeviceState, to: DeviceState, version: nat)
    | AddAutomation(household: nat, actions: seq<Action>, fate: Fate)
    | SetAutomation(automation: nat, was: AutomationState, becomes: AutomationState)
    | Queue(automation: nat, key: string)
    | ClaimNextRun(worker: nat, locked: set<nat>, replySeen: bool)
    | Execute(worker: nat, finishedAt: int, fate: Fate, cancelled: bool)
    | CancelRun(worker: nat)
    | Record(worker: nat, cause: string, applied: bool)
    | CrashRunner(worker: nat)
    | Sweep(cutoff: int)
    | Notify(household: nat, topic: Topic, payload: map<Field, Json>, at: int)
    | Tick(time: int)
    | ClaimNextMessage(worker: nat, locked: set<nat>, replySeen: bool)
    | Receive(worker: nat)
    | Send(worker: nat, arrives: bool, accepted: bool)
    | Return(worker: nat, published: bool, error: string)
    | Save(worker: nat, applied: bool)
    | CrashPublisher(worker: nat)

  function RunnerAt(s: Sys, w: nat): Runner {
    if w in s.runners then s.runners[w] else Idle
  }

  function PublisherAt(s: Sys, w: nat): Publisher {
    if w in s.publishers then s.publishers[w] else Free
  }

  function HistoryOf(s: Sys, id: nat): History {
    if id in s.histories then s.histories[id] else History([], 0, 0, None)
  }

  function Key(id: nat): string {
    "outbox-" + Decimal(id)
  }

  // ----- automation workers -----

  function SetRunner(s: Sys, w: nat, r: Runner): Sys {
    s.(runners := s.runners[w := r])
  }

  /** A claim whose reply is lost leaves its run running with nobody holding it. */
  function ClaimRunStep(s: Sys, w: nat, locked: set<nat>, replySeen: bool): Sys {
    var (db, run) := ClaimRun(s.db, locked, s.clock);
    if !RunnerAt(s, w).Idle? || run.None? then s
    else SetRunner(s.(db := db), w, if replySeen then Busy(run.value, Executing) else Idle)
  }

  /** What the worker makes of the transaction's outcome. */
  function AfterExecute(s: Sys, w: nat, run: nat, db: Db, outcome: Dispatch, fate: Fate, cancelled: bool): Sys {
    if outcome != Dispatched then SetRunner(s.(db := db), w, Busy(run, Recording(false)))
    else match fate {
      case Commit => SetRunner(s.(db := db), w, Idle)
      case CommitUnseen => SetRunner(s.(db := db), w, Busy(run, Recording(cancelled)))
      case Abort => SetRunner(s.(db := s.db.(nextMessage := db.nextMessage)), w, Busy(run, Recording(cancelled)))
    }
  }

  function ExecuteStep(s: Sys, w: nat, finishedAt: int, fate: Fate, cancelled: bool): Sys {
    var r := RunnerAt(s, w);
    if !r.Busy? || r.stage != Executing then s
    else
      var (db, outcome) := ExecuteRun(s.db, r.run, finishedAt);
      AfterExecute(s, w, r.run, db, outcome, fate, cancelled)
  }

  function CancelStep(s: Sys, w: nat): Sys {
    var r := RunnerAt(s, w);
    if r.Busy? && r.stage == Executing then SetRunner(s, w, Busy(r.run, Recording(true))) else s
  }

  /** A cancelled run is requeued and any other error fails it, if the statement takes effect. */
  function Recorded(db: Db, run: nat, cancelled: bool, cause: string, applied: bool, now: int): Db {
    if !applied then db
    else if cancelled then RequeueRun(db, run).0
    else FinishRun(db, run, Failed, cause, now).0
  }

  function RecordStep(s: Sys, w: nat, cause: string, applied: bool): Sys {
    var r := RunnerAt(s, w);
    if !r.Busy? || !r.stage.Recording? then s
    else SetRunner(s.(db := Recorded(s.db, r.run, r.stage.cancelled, cause, applied, s.clock)), w, Idle)
  }

  // ----- time -----

  function Deadline(cfg: Config, p: Publisher): int
    requires p.Live?
  {
    p.since + match p.phase {
      case Replying => cfg.replyBound
      case Sending(_) => PUBLISH_BOUND
      case Saving(_) => PERSIST_BOUND
    }
  }

  /** Time may pass only as far as every live publisher is on time. */
  predicate OnTime(cfg: Config, s: Sys, time: int) {
    forall w | w in s.publishers && s.publishers[w].Live? :: time <= Deadline(cfg, s.publishers[w])
  }

  function TickStep(cfg: Config, s: Sys, time: int): Sys {
    if s.clock <= time && OnTime(cfg, s, time) then s.(clock := time) else s
  }

  // ----- outbox publishers -----

  function SetPublisher(s: Sys, w: nat, p: Publisher): Sys {
    s.(publishers := s.publishers[w := p])
  }

  function SetHistory(s: Sys, id: nat, h: History): Sys {
    s.(histories := s.histories[id := h])
  }

  function ClaimMessageStep(s: Sys, w: nat, locked: set<nat>, replySeen: bool): Sys {
    var (db, message) := ClaimMessage(s.db, locked, s.clock);
    if PublisherAt(s, w).Live? || message.None? then s
    else
      var id := message.value;
      var h := HistoryOf(s, id);
      var claimed := h.(claims := h.claims + [s.clock]);
      if replySeen
      then SetPublisher(SetHistory(s.(db := db), id, claimed.(holder := Some(w))), w,
                        Live(id, db.outbox[id], s.clock, Replying))
      else SetHistory(s.(db := db), id, claimed.(lost := h.lost + 1, holder := None))
  }

  function ReceiveStep(s: Sys, w: nat): Sys {
    var p := PublisherAt(s, w);
    if p.Live? && p.phase == Replying then SetPublisher(s, w, p.(since := s.clock, phase := Sending(false))) else s
  }

  predicate Seen(effects: seq<Effect>, key: string) {
    exists i :: 0 <= i < |effects| && effects[i].key == key
  }

  /** One POST: it may reach the receiver, and the receiver's 2xx may reach the publisher. */
  function SendStep(s: Sys, w: nat, arrives: bool, accepted: bool): Sys {
    var p := PublisherAt(s, w);
    if !p.Live? || !p.phase.Sending? || !arrives then s
    else
      var acted := if Seen(s.effects, Key(p.id)) then s else s.(effects := s.effects + [Effect(Key(p.id), p.row)]);
      SetPublisher(acted, w, p.(phase := Sending(p.phase.acked || accepted)))
  }

  /** What process decides once Publish has returned. */
  function Decide(cfg: Config, row: Message, published: bool, error: string, now: int): Verdict {
    if published then Deliver
    else if row.attempts >= cfg.retryLimit then GiveUp(error)
    else Retry(now + row.attempts * SECOND, error)
  }

  /** Publish reports success only after a 2xx. */
  function ReturnStep(cfg: Config, s: Sys, w: nat, published: bool, error: string): Sys {
    var p := PublisherAt(s, w);
    if !p.Live? || !p.phase.Sending? || (published && !p.phase.acked) then s
    else SetPublisher(s, w, p.(since := s.clock, phase := Saving(Decide(cfg, p.row, published, error, s.clock))))
  }

  function SaveVerdict(db: Db, id: nat, row: Message, v: Verdict, now: int): (Db, bool) {
    match v
    case Deliver => MarkDelivered(db, id, now)
    case GiveUp(reason) => MarkFailed(db, id, reason, now)
    case Retry(next, error) => RescheduleMessage(db, id, row.attempts, next, error)
  }

  function SaveStep(s: Sys, w: nat, applied: bool): Sys {
    var p := PublisherAt(s, w);
    if !p.Live? || !p.phase.Saving? then s
    else
      var h := HistoryOf(s, p.id);
      var (db, changed) := SaveVerdict(s.db, p.id, p.row, p.phase.verdict, s.clock);
      var freed := SetPublisher(s, w, Free);
      if !applied || !changed then SetHistory(freed, p.id, h.(lost := h.lost + 1, holder := None))
      else SetHistory(freed.(db := db), p.id,
                      h.(rescheduled := h.rescheduled + if p.phase.verdict.Retry? then 1 else 0, holder := None))
  }

  function CrashPublisherStep(s: Sys, w: nat): Sys {
    var p := PublisherAt(s, w);
    if !p.Live? then s
    else
      var h := HistoryOf(s, p.id);
      SetHistory(SetPublisher(s, w, Free), p.id, h.(lost := h.lost + 1, holder := None))
  }

  // ----- everything -----

  function EnrollStep(s: Sys, device: nat, household: nat): Sys {
    if device in s.db.devices then s
    else s.(db := s.db.(devices := s.db.devices[device := Device(household, Pending, 1)]))
  }

  function NotifyStep(s: Sys, household: nat, topic: Topic, payload: map<Field, Json>, at: int): Sys {
    if topic == DeviceCommand then s else s.(db := AddMessage(s.db, household, topic, payload, at))
  }

  /** A creation that is rolled back leaves only its spent id. */
  ghost function AddAutomationStep(s: Sys, household: nat, actions: seq<Action>, fate: Fate): Sys {
    if fate == Abort then s.(db := s.db.(nextAutomation := s.db.nextAutomation + 1))
    else s.(db := CreateAutomation(s.db, household, actions).0)
  }

  ghost function Apply(cfg: Config, s: Sys, step: Step): Sys {
    match step
    case EnrollDevice(device, household) => EnrollStep(s, device, household)
    case MoveDevice(device, from, to, version) => s.(db := TransitionDevice(s.db, device, from, to, version).0)
    case AddAutomation(household, actions, fate) => AddAutomationStep(s, household, actions, fate)
    case SetAutomation(id, was, becomes) => s.(db := SetAutomationState(s.db, id, was, becomes).0)
    case Queue(automation, key) => s.(db := QueueRun(s.db, automation, key).0)
    case ClaimNextRun(w, locked, replySeen) => ClaimRunStep(s, w, locked, replySeen)
    case Execute(w, finishedAt, fate, cancelled) => ExecuteStep(s, w, finishedAt, fate, cancelled)
    case CancelRun(w) => CancelStep(s, w)
    case Record(w, cause, applied) => RecordStep(s, w, cause, applied)
    case CrashRunner(w) => SetRunner(s, w, Idle)
    case Sweep(cutoff) => s.(db := FinishStaleRuns(s.db, cutoff, s.clock))
    case Notify(household, topic, payload, at) => NotifyStep(s, household, topic, payload, at)
    case Tick(time) => TickStep(cfg, s, time)
    case ClaimNextMessage(w, locked, replySeen) => ClaimMessageStep(s, w, locked, replySeen)
    case Receive(w) => ReceiveStep(s, w)
    case Send(w, arrives, accepted) => SendStep(s, w, arrives, accepted)
    case Return(w, published, error) => ReturnStep(cfg, s, w, published, error)
    case Save(w, applied) => SaveStep(s, w, applied)
    case CrashPublisher(w) => CrashPublisherStep(s, w)
  }

  /** The state after any finite sequence of steps, from the empty database. */
  ghost function Execution(cfg: Config, steps: seq<Step>): Sys {
    if steps == [] then START
    else Apply(cfg, Execution(cfg, steps[..|steps| - 1]), steps[|steps| - 1])
  }

  lemma ExecutionExtends(cfg: Config, steps: seq<Step>, step: Step)
    ensures Execution(cfg, steps + [step]) == Apply(cfg, Execution(cfg, steps), step)
  {
    assert (steps + [step])[..|steps|] == steps;
  }
}
