/** The circuit breaker. A call is admitted under the mutex, runs its callback outside it, and
    settles under the mutex again, so late completions meet a state that has moved on. */
module Circuits {
  import opened Base

  datatype State = Closed | Open | HalfOpen

  datatype Core = Core(state: State, failures: nat, openedAt: int, probeActive: bool)

  // How a callback ended: errors.Is cancelled or deadline exceeded counts for nothing.
  datatype Ending = Succeeded | Interrupted | Failed

  datatype Decision = Admitted(state: State) | RejectedOpen | RejectedProbe

  const INITIAL := Core(Closed, 0, 0, false)

  // ----- the critical sections -----

  function Cooled(c: Core, now: int, reopenAfter: int): Core {
    if c.state == Open && now >= c.openedAt + reopenAfter then c.(state := HalfOpen) else c
  }

  function Admit(c: Core, now: int, reopenAfter: int): (Core, Decision) {
    var d := Cooled(c, now, reopenAfter);
    match d.state
    case Open => (d, RejectedOpen)
    case HalfOpen => if d.probeActive then (d, RejectedProbe) else (d.(probeActive := true), Admitted(HalfOpen))
    case Closed => (d, Admitted(Closed))
  }

  /** A callback admitted in state `admitted` by a call made at `calledAt` has returned. */
  function Settle(c: Core, admitted: State, calledAt: int, ending: Ending, threshold: nat): Core {
    var d := if admitted == HalfOpen then c.(probeActive := false) else c;
    match ending
    case Interrupted => d
    case Succeeded => d.(state := Closed, failures := 0)
    case Failed =>
      var counted := d.(failures := d.failures + 1);
      if counted.state == HalfOpen || counted.failures >= threshold
      then counted.(state := Open, openedAt := calledAt) else counted
  }

  /** The callback panicked: only the probe is released. */
  function Abandon(c: Core, admitted: State): Core {
    if admitted == HalfOpen then c.(probeActive := false) else c
  }

  class Circuit {
    var state: State
    var failures: nat
    const threshold: nat
    var openedAt: int
    const reopenAfter: int
    var probeActive: bool

    constructor (limit: int, pause: int)
      ensures View() == Core(Closed, 0, 0, false)
      ensures threshold == if limit < 1 then 3 else limit
      ensures reopenAfter == if pause <= 0 then 1_000_000_000 else pause
    {
      state, failures, openedAt, probeActive := Closed, 0, 0, false;
      threshold := if limit < 1 then 3 else limit;
      reopenAfter := if pause <= 0 then SECOND else pause;
    }

    function View(): Core
      reads this
    {
      Core(state, failures, openedAt, probeActive)
    }

    method StateAt(now: int) returns (current: State)
      modifies this
      ensures View() == Cooled(old(View()), now, reopenAfter) && current == state
    {
      if state == Open && now >= openedAt + reopenAfter {
        state := HalfOpen;
      }
      current := state;
    }

    /** The part of Call before the callback. */
    method Enter(now: int) returns (decision: Decision)
      modifies this
      ensures (View(), decision) == Admit(old(View()), now, reopenAfter)
    {
      if state == Open && now >= openedAt + reopenAfter {
        state := HalfOpen;
      }
      if state == Open {
        return RejectedOpen;
      }
      if state == HalfOpen {
        if probeActive {
          return RejectedProbe;
        }
        probeActive := true;
      }
      decision := Admitted(state);
    }

    /** The part of Call after the callback returned. */
    method Leave(admitted: State, calledAt: int, ending: Ending)
      modifies this
      ensures View() == Settle(old(View()), admitted, calledAt, ending, threshold)
    {
      if admitted == HalfOpen {
        probeActive := false;
      }
      if ending == Interrupted {
        return;
      }
      if ending == Succeeded {
        state := Closed;
        failures := 0;
        return;
      }
      failures := failures + 1;
      if state == HalfOpen || failures >= threshold {
        state := Open;
        openedAt := calledAt;
      }
    }

    /** The deferred function when the callback did not return. */
    method Unwind(admitted: State)
      modifies this
      ensures View() == Abandon(old(View()), admitted)
    {
      if admitted == HalfOpen {
        probeActive := false;
      }
    }
  }

  // ----- interleavings -----

  // A callback in flight: how it was admitted and the time its caller passed in.
  datatype Flight = Flight(admitted: State, calledAt: int)

  datatype Event =
    | Query(now: int)
    | Call(id: nat, now: int)
    | Return(id: nat, ending: Ending)
    | Panic(id: nat)

  datatype World = World(core: Core, flights: map<nat, Flight>)

  datatype Config = Config(threshold: nat, reopenAfter: int)

  ghost predicate ValidConfig(cfg: Config) {
    cfg.threshold >= 1 && cfg.reopenAfter > 0
  }

  function Step(cfg: Config, w: World, e: Event): World {
    match e
    case Query(now) => w.(core := Cooled(w.core, now, cfg.reopenAfter))
    case Call(id, now) =>
      if id in w.flights then w
      else
        var (core, decision) := Admit(w.core, now, cfg.reopenAfter);
        if decision.Admitted? then World(core, w.flights[id := Flight(decision.state, now)]) else w.(core := core)
    case Return(id, ending) =>
      if id !in w.flights then w
      else World(Settle(w.core, w.flights[id].admitted, w.flights[id].calledAt, ending, cfg.threshold), w.flights - {id})
    case Panic(id) =>
      if id !in w.flights then w
      else World(Abandon(w.core, w.flights[id].admitted), w.flights - {id})
  }

  function Run(cfg: Config, events: seq<Event>): World {
    if events == [] then World(INITIAL, map[])
    else Step(cfg, Run(cfg, events[..|events| - 1]), events[|events| - 1])
  }

  /** Countable failures completed since the last completed success, read off the events alone:
      a return counts when its callback was in flight. */
  function FailuresSinceSuccess(cfg: Config, events: seq<Event>): nat {
    if events == [] then 0
    else
      var before := events[..|events| - 1];
      match events[|events| - 1]
      case Return(id, ending) =>
        if id !in Run(cfg, before).flights || ending == Interrupted then FailuresSinceSuccess(cfg, before)
        else if ending == Succeeded then 0
        else FailuresSinceSuccess(cfg, before) + 1
      case _ => FailuresSinceSuccess(cfg, before)
  }

  /** For every interleaving: failures counts exactly those completions, and the circuit is
      closed exactly while they are fewer than the threshold. */
  lemma {:induction false} CircuitCharacterisation(cfg: Config, events: seq<Event>)
    requires ValidConfig(cfg)
    ensures var core := Run(cfg, events).core;
      core.failures == FailuresSinceSuccess(cfg, events) && (core.state == Closed <==> core.failures < cfg.threshold)
  {
    if events != [] {
      CircuitCharacterisation(cfg, events[..|events| - 1]);
    }
  }

  ghost predicate IsProbe(w: World, id: nat) {
    id in w.flights && w.flights[id].admitted == HalfOpen
  }

  /** At most one half-open callback is in flight, and probeActive holds exactly when one is. */
  ghost predicate SingleProbe(w: World) {
    && (forall i, j | IsProbe(w, i) && IsProbe(w, j) :: i == j)
    && (w.core.probeActive <==> exists id :: IsProbe(w, id))
    && (forall id | id in w.flights :: w.flights[id].admitted != Open)
  }

  lemma LandingKeepsSingleProbe(w: World, v: World, id: nat)
    requires SingleProbe(w)
    requires v == w || (id in w.flights && v.flights == w.flights - {id} &&
      v.core.probeActive == (w.core.probeActive && w.flights[id].admitted != HalfOpen))
    ensures SingleProbe(v)
  {
    if v != w {
      forall other | other != id ensures IsProbe(v, other) <==> IsProbe(w, other) {
      }
      assert !IsProbe(v, id);
      if IsProbe(w, id) {
        forall other ensures !IsProbe(v, other) {
        }
      } else if w.core.probeActive {
        var probe :| IsProbe(w, probe);
        assert IsProbe(v, probe);
      }
    }
  }

  lemma StepKeepsSingleProbe(cfg: Config, w: World, e: Event)
    requires SingleProbe(w)
    ensures SingleProbe(Step(cfg, w, e))
  {
    var v := Step(cfg, w, e);
    match e
    case Query(_) =>
      assert forall id :: IsProbe(v, id) <==> IsProbe(w, id);
    case Call(id, now) =>
      forall other | other != id ensures IsProbe(v, other) <==> IsProbe(w, other) {
      }
      if v.flights != w.flights && v.flights[id].admitted == HalfOpen {
        assert IsProbe(v, id);
        assert !w.core.probeActive;
      } else {
        assert IsProbe(v, id) <==> IsProbe(w, id);
      }
    case Return(id, _) => LandingKeepsSingleProbe(w, v, id);
    case Panic(id) => LandingKeepsSingleProbe(w, v, id);
  }

  lemma {:induction false} AlwaysSingleProbe(cfg: Config, events: seq<Event>)
    ensures SingleProbe(Run(cfg, events))
  {
    if events != [] {
      AlwaysSingleProbe(cfg, events[..|events| - 1]);
      StepKeepsSingleProbe(cfg, Run(cfg, events[..|events| - 1]), events[|events| - 1]);
    }
  }

  // ----- admission, read off the events -----

  /** A countable failure that leaves the circuit open: the threshold-th or a later one. */
  ghost predicate Opens(cfg: Config, before: seq<Event>, last: Event) {
    last.Return? && last.ending == Failed && last.id in Run(cfg, before).flights &&
      FailuresSinceSuccess(cfg, before) + 1 >= cfg.threshold
  }

  /** The time passed in by the call whose failure last opened the circuit. */
  ghost function OpenedAt(cfg: Config, events: seq<Event>): int {
    if events == [] then 0
    else
      var before, last := events[..|events| - 1], events[|events| - 1];
      if Opens(cfg, before, last) then Run(cfg, before).flights[last.id].calledAt else OpenedAt(cfg, before)
  }

  ghost predicate LateEnough(cfg: Config, events: seq<Event>, now: int) {
    now >= OpenedAt(cfg, events) + cfg.reopenAfter
  }

  /** Somebody has asked late enough since the circuit last opened. */
  ghost predicate AskedLate(cfg: Config, events: seq<Event>) {
    if events == [] then false
    else
      var before, last := events[..|events| - 1], events[|events| - 1];
      match last
      case Query(now) => AskedLate(cfg, before) || LateEnough(cfg, before, now)
      case Call(id, now) => AskedLate(cfg, before) || (id !in Run(cfg, before).flights && LateEnough(cfg, before, now))
      case Return(_, _) => AskedLate(cfg, before) && !Opens(cfg, before, last)
      case Panic(_) => AskedLate(cfg, before)
  }

  /** Once the threshold is reached, openedAt is the last opening and the circuit is half open
      exactly if somebody has asked late enough since. */
  ghost predicate CoreFollows(cfg: Config, events: seq<Event>) {
    var core := Run(cfg, events).core;
    core.failures >= cfg.threshold ==>
      core.openedAt == OpenedAt(cfg, events) && (core.state == HalfOpen <==> AskedLate(cfg, events))
  }

  lemma StepFollows(cfg: Config, before: seq<Event>, last: Event)
    requires ValidConfig(cfg) && CoreFollows(cfg, before)
    ensures CoreFollows(cfg, before + [last])
  {
    assert (before + [last])[..|before|] == before;
    CircuitCharacterisation(cfg, before);
    CircuitCharacterisation(cfg, before + [last]);
  }

  lemma {:induction false} AlwaysFollows(cfg: Config, events: seq<Event>)
    requires ValidConfig(cfg)
    ensures CoreFollows(cfg, events)
  {
    if events != [] {
      AlwaysFollows(cfg, events[..|events| - 1]);
      StepFollows(cfg, events[..|events| - 1], events[|events| - 1]);
      assert events[..|events| - 1] + [events[|events| - 1]] == events;
    }
  }

  /** Exactly which calls run their callback, in terms of the history: all calls while fewer
      than `threshold` failures are outstanding; otherwise a call is let through only if it, or
      somebody since the last opening, comes late enough, and no probe is in flight. */
  lemma AdmissionCharacterisation(cfg: Config, events: seq<Event>, id: nat, now: int)
    requires ValidConfig(cfg) && id !in Run(cfg, events).flights
    ensures id in Run(cfg, events + [Call(id, now)]).flights <==>
      || FailuresSinceSuccess(cfg, events) < cfg.threshold
      || ((LateEnough(cfg, events, now) || AskedLate(cfg, events)) && !exists probe :: IsProbe(Run(cfg, events), probe))
  {
    CircuitCharacterisation(cfg, events);
    AlwaysSingleProbe(cfg, events);
    AlwaysFollows(cfg, events);
    assert (events + [Call(id, now)])[..|events|] == events;
  }

  /** The answer to a call at any point: run the callback while too few failures are outstanding;
      otherwise refuse as open unless the call or an earlier one is late enough, and then refuse
      as probing exactly if a probe is in flight. */
  lemma CallAnswers(cfg: Config, events: seq<Event>, now: int)
    requires ValidConfig(cfg)
    ensures Admit(Run(cfg, events).core, now, cfg.reopenAfter).1 ==
      if FailuresSinceSuccess(cfg, events) < cfg.threshold then Admitted(Closed)
      else if !LateEnough(cfg, events, now) && !AskedLate(cfg, events) then RejectedOpen
      else if exists probe :: IsProbe(Run(cfg, events), probe) then RejectedProbe
      else Admitted(HalfOpen)
  {
    CircuitCharacterisation(cfg, events);
    AlwaysSingleProbe(cfg, events);
    AlwaysFollows(cfg, events);
  }

  /** The state that a query at any point reports. */
  lemma QueryAnswers(cfg: Config, events: seq<Event>, now: int)
    requires ValidConfig(cfg)
    ensures Run(cfg, events + [Query(now)]).core.state ==
      if FailuresSinceSuccess(cfg, events) < cfg.threshold then Closed
      else if LateEnough(cfg, events, now) || AskedLate(cfg, events) then HalfOpen
      else Open
  {
    assert (events + [Query(now)])[..|events|] == events;
    CircuitCharacterisation(cfg, events);
    AlwaysFollows(cfg, events);
  }

  /** The event comes too early for an open circuit and is not a completed success. */
  ghost predicate TooEarly(w: World, e: Event, until: int) {
    match e
    case Query(now) => now < until
    case Call(id, now) => now < until || id in w.flights
    case Return(id, ending) => ending != Succeeded || id !in w.flights
    case Panic(_) => true
  }

  /** One event leaves an open circuit open exactly if it comes too early, and then it starts no
      callback. */
  lemma StaysOpenIff(cfg: Config, events: seq<Event>, e: Event)
    requires ValidConfig(cfg) && Run(cfg, events).core.state == Open
    ensures var w := Run(cfg, events); var v := Run(cfg, events + [e]);
      && (v.core.state == Open <==> TooEarly(w, e, OpenedAt(cfg, events) + cfg.reopenAfter))
      && (v.core.state == Open ==> v.flights.Keys <= w.flights.Keys)
  {
    CircuitCharacterisation(cfg, events);
    AlwaysFollows(cfg, events);
    assert (events + [e])[..|events|] == events;
  }

  /** Each further event comes too early for the circuit as it then is. */
  ghost predicate AllTooEarly(cfg: Config, events: seq<Event>, more: seq<Event>) {
    more == [] ||
    var before := more[..|more| - 1];
    && AllTooEarly(cfg, events, before)
    && TooEarly(Run(cfg, events + before), more[|more| - 1], OpenedAt(cfg, events + before) + cfg.reopenAfter)
  }

  /** While every query and call comes before the current opening plus the pause, and whatever
      completes is not a success, the circuit stays open and no callback starts. */
  lemma {:induction false} OpenAdmitsNobody(cfg: Config, events: seq<Event>, more: seq<Event>)
    requires ValidConfig(cfg) && Run(cfg, events).core.state == Open && AllTooEarly(cfg, events, more)
    ensures Run(cfg, events + more).core.state == Open
    ensures Run(cfg, events + more).flights.Keys <= Run(cfg, events).flights.Keys
    decreases |more|
  {
    if more == [] {
      assert events + more == events;
    } else {
      var before, last := more[..|more| - 1], more[|more| - 1];
      OpenAdmitsNobody(cfg, events, before);
      StaysOpenIff(cfg, events + before, last);
      assert (events + before) + [last] == events + more;
    }
  }
}
