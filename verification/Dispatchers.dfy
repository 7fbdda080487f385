/** The idempotent dispatcher: concurrent commands with the same id are coalesced into one
    gateway command, whose result is cached until it is forgotten. A dispatch looks the id up
    under the mutex, runs the gateway outside it and stores the result under it again. */
module Dispatchers {
  import opened Base

  // A gateway result; fingerprints are the encoded commands.
  datatype Result = Result(accepted: bool, error: string, at: int)

  // dispatchCall: done is closed when result is present.
  datatype Flight = Flight(id: string, fingerprint: string, result: Option<Result>)

  // What Dispatch does after looking the id up.
  datatype Decision =
    | Incomplete
    | Mismatch
    | Cached(result: Result)
    | Wait(flight: nat)
    | Start(flight: nat)

  // Flights are kept after they land: waiters still hold a reference to them.
  datatype Core = Core(results: map<string, Result>, fingerprints: map<string, string>,
                       inflight: map<string, nat>, flights: seq<Flight>)

  const INITIAL := Core(map[], map[], map[], [])

  // ----- the critical sections -----

  function Lookup(c: Core, id: string, action: string, fingerprint: string): (Core, Decision) {
    if id == "" || action == "" then (c, Incomplete)
    else if id in c.results then
      (c, if id in c.fingerprints && c.fingerprints[id] == fingerprint then Cached(c.results[id]) else Mismatch)
    else if id in c.inflight && c.inflight[id] < |c.flights| then
      (c, if c.flights[c.inflight[id]].fingerprint == fingerprint then Wait(c.inflight[id]) else Mismatch)
    else
      (c.(inflight := c.inflight[id := |c.flights|], flights := c.flights + [Flight(id, fingerprint, None)]),
       Start(|c.flights|))
  }

  function Store(c: Core, flight: nat, result: Result): Core
    requires flight < |c.flights|
  {
    var f := c.flights[flight];
    Core(c.results[f.id := result], c.fingerprints[f.id := f.fingerprint], c.inflight - {f.id},
         c.flights[flight := f.(result := Some(result))])
  }

  function ForgetId(c: Core, id: string): Core {
    c.(results := c.results - {id}, fingerprints := c.fingerprints - {id})
  }

  class Dispatcher {
    var results: map<string, Result>
    var fingerprints: map<string, string>
    var inflight: map<string, nat>
    var flights: seq<Flight>

    constructor ()
      ensures View() == INITIAL
    {
      results, fingerprints, inflight, flights := map[], map[], map[], [];
    }

    function View(): Core
      reads this
    {
      Core(results, fingerprints, inflight, flights)
    }

    /** The part of Dispatch before the gateway command. */
    method Begin(id: string, action: string, fingerprint: string) returns (decision: Decision)
      modifies this
      ensures (View(), decision) == Lookup(old(View()), id, action, fingerprint)
    {
      if id == "" || action == "" {
        return Incomplete;
      }
      if id in results {
        if id !in fingerprints || fingerprints[id] != fingerprint {
          return Mismatch;
        }
        return Cached(results[id]);
      }
      if id in inflight && inflight[id] < |flights| {
        if flights[inflight[id]].fingerprint != fingerprint {
          return Mismatch;
        }
        return Wait(inflight[id]);
      }
      var flight := |flights|;
      flights := flights + [Flight(id, fingerprint, None)];
      inflight := inflight[id := flight];
      decision := Start(flight);
    }

    /** The part of Dispatch after the gateway command. */
    method Finish(flight: nat, result: Result)
      requires flight < |flights|
      modifies this
      ensures View() == Store(old(View()), flight, result)
    {
      var f := flights[flight];
      results := results[f.id := result];
      fingerprints := fingerprints[f.id := f.fingerprint];
      flights := flights[flight := f.(result := Some(result))];
      inflight := inflight - {f.id};
    }

    method Forget(id: string)
      modifies this
      ensures View() == ForgetId(old(View()), id)
    {
      results := results - {id};
      fingerprints := fingerprints - {id};
    }
  }

  // ----- interleavings -----

  datatype Event =
    | Dispatch(caller: nat, id: string, action: string, fingerprint: string)
    | GatewayReturns(flight: nat, result: Result)
    | Wake(caller: nat)
    | GiveUp(caller: nat)
    | Forget(id: string)

  // A caller waiting for a flight, and every answer handed out from the cache, a wait or a start.
  datatype Waiting = Waiting(id: string, fingerprint: string, flight: nat)
  datatype Answer = Answer(id: string, fingerprint: string, result: Result)
  datatype World = World(core: Core, waiting: map<nat, Waiting>, answers: seq<Answer>)

  const START := World(INITIAL, map[], [])

  function Step(w: World, e: Event): World {
    match e
    case Dispatch(caller, id, action, fingerprint) =>
      if caller in w.waiting then w
      else
        var (core, decision) := Lookup(w.core, id, action, fingerprint);
        var v := w.(core := core);
        (match decision
         case Cached(result) => v.(answers := v.answers + [Answer(id, fingerprint, result)])
         case Wait(flight) => v.(waiting := v.waiting[caller := Waiting(id, fingerprint, flight)])
         case _ => v)
    case GatewayReturns(flight, result) =>
      if flight < |w.core.flights| && w.core.flights[flight].result.None?
      then w.(core := Store(w.core, flight, result),
              answers := w.answers + [Answer(w.core.flights[flight].id, w.core.flights[flight].fingerprint, result)])
      else w
    case Wake(caller) =>
      if caller in w.waiting && w.waiting[caller].flight < |w.core.flights| && w.core.flights[w.waiting[caller].flight].result.Some?
      then w.(waiting := w.waiting - {caller},
              answers := w.answers + [Answer(w.waiting[caller].id, w.waiting[caller].fingerprint,
                                             w.core.flights[w.waiting[caller].flight].result.value)])
      else w
    case GiveUp(caller) => w.(waiting := w.waiting - {caller})
    case Forget(id) => w.(core := ForgetId(w.core, id))
  }

  function Run(events: seq<Event>): World {
    if events == [] then START else Step(Run(events[..|events| - 1]), events[|events| - 1])
  }

  // ----- what holds after any run -----

  ghost predicate Airborne(c: Core, flight: nat, id: string) {
    flight < |c.flights| && c.flights[flight].id == id && c.flights[flight].result.None?
  }

  /** Exactly the airborne flights are registered in flight, one per id, and never for a stored id. */
  ghost predicate Registered(c: Core) {
    && (forall id | id in c.inflight :: Airborne(c, c.inflight[id], id) && id !in c.results)
    && (forall k: nat | k < |c.flights| && c.flights[k].result.None? :: c.flights[k].id in c.inflight && c.inflight[c.flights[k].id] == k)
  }

  /** A cached result is that of a landed flight with the cached fingerprint. */
  ghost predicate Landed(c: Core, id: string, fingerprint: string, result: Result) {
    exists k: nat :: k < |c.flights| && c.flights[k] == Flight(id, fingerprint, Some(result))
  }

  ghost predicate CacheTrue(c: Core) {
    c.results.Keys == c.fingerprints.Keys && forall id | id in c.results :: Landed(c, id, c.fingerprints[id], c.results[id])
  }

  ghost predicate WaitersTrue(w: World) {
    forall caller | caller in w.waiting ::
      var q := w.waiting[caller];
      q.flight < |w.core.flights| && w.core.flights[q.flight].id == q.id && w.core.flights[q.flight].fingerprint == q.fingerprint
  }

  ghost predicate AnswersTrue(w: World) {
    forall k | 0 <= k < |w.answers| :: Landed(w.core, w.answers[k].id, w.answers[k].fingerprint, w.answers[k].result)
  }

  ghost predicate Coherent(w: World) {
    Registered(w.core) && CacheTrue(w.core) && WaitersTrue(w) && AnswersTrue(w)
  }

  /** Flights are only added, and a landed flight never changes. */
  ghost predicate FlightsKept(c: Core, d: Core) {
    |c.flights| <= |d.flights| && forall k | 0 <= k < |c.flights| ::
      && d.flights[k].id == c.flights[k].id && d.flights[k].fingerprint == c.flights[k].fingerprint
      && (c.flights[k].result.Some? ==> d.flights[k] == c.flights[k])
  }

  lemma LandedKept(c: Core, d: Core, id: string, fingerprint: string, result: Result)
    requires FlightsKept(c, d) && Landed(c, id, fingerprint, result)
    ensures Landed(d, id, fingerprint, result)
  {
    var k: nat :| k < |c.flights| && c.flights[k] == Flight(id, fingerprint, Some(result));
    assert d.flights[k] == c.flights[k];
  }

  lemma AnswersKept(w: World, v: World)
    requires AnswersTrue(w) && FlightsKept(w.core, v.core)
    ensures forall k | 0 <= k < |w.answers| :: Landed(v.core, w.answers[k].id, w.answers[k].fingerprint, w.answers[k].result)
  {
    forall k | 0 <= k < |w.answers| ensures Landed(v.core, w.answers[k].id, w.answers[k].fingerprint, w.answers[k].result) {
      LandedKept(w.core, v.core, w.answers[k].id, w.answers[k].fingerprint, w.answers[k].result);
    }
  }

  lemma CacheKept(c: Core, d: Core)
    requires CacheTrue(c) && FlightsKept(c, d)
    ensures forall id | id in c.results :: Landed(d, id, c.fingerprints[id], c.results[id])
  {
    forall id | id in c.results ensures Landed(d, id, c.fingerprints[id], c.results[id]) {
      LandedKept(c, d, id, c.fingerprints[id], c.results[id]);
    }
  }

  lemma LookupKeepsRegistered(c: Core, id: string, action: string, fingerprint: string)
    requires Registered(c)
    ensures var d := Lookup(c, id, action, fingerprint).0; Registered(d) && FlightsKept(c, d)
  {
  }

  lemma LookupKeepsCore(c: Core, id: string, action: string, fingerprint: string)
    requires Registered(c) && CacheTrue(c)
    ensures var d := Lookup(c, id, action, fingerprint).0; Registered(d) && CacheTrue(d) && FlightsKept(c, d)
  {
    LookupKeepsRegistered(c, id, action, fingerprint);
    CacheKept(c, Lookup(c, id, action, fingerprint).0);
  }

  /** A cached answer or a flight to wait for is that of the same id and fingerprint. */
  lemma LookupDecides(c: Core, id: string, action: string, fingerprint: string)
    requires Registered(c) && CacheTrue(c)
    ensures match Lookup(c, id, action, fingerprint).1
      case Cached(result) => Landed(c, id, fingerprint, result)
      case Wait(k) => Airborne(c, k, id) && c.flights[k].fingerprint == fingerprint
      case _ => true
  {
  }

  lemma DispatchKeeps(w: World, caller: nat, id: string, action: string, fingerprint: string)
    requires Coherent(w)
    ensures Coherent(Step(w, Dispatch(caller, id, action, fingerprint)))
  {
    var v := Step(w, Dispatch(caller, id, action, fingerprint));
    if caller !in w.waiting {
      LookupKeepsCore(w.core, id, action, fingerprint);
      LookupDecides(w.core, id, action, fingerprint);
      AnswersKept(w, v);
      if Lookup(w.core, id, action, fingerprint).1.Cached? {
        LandedKept(w.core, v.core, id, fingerprint, Lookup(w.core, id, action, fingerprint).1.result);
      }
    }
  }

  lemma ReturnKeepsCore(c: Core, flight: nat, result: Result)
    requires Registered(c) && CacheTrue(c) && flight < |c.flights| && c.flights[flight].result.None?
    ensures Registered(Store(c, flight, result)) && CacheTrue(Store(c, flight, result))
    ensures FlightsKept(c, Store(c, flight, result))
    ensures Landed(Store(c, flight, result), c.flights[flight].id, c.flights[flight].fingerprint, result)
  {
    var d := Store(c, flight, result);
    CacheKept(c, d);
    assert d.flights[flight] == Flight(c.flights[flight].id, c.flights[flight].fingerprint, Some(result));
  }

  lemma ReturnKeeps(w: World, flight: nat, result: Result)
    requires Coherent(w)
    ensures Coherent(Step(w, GatewayReturns(flight, result)))
  {
    var v := Step(w, GatewayReturns(flight, result));
    if v != w {
      ReturnKeepsCore(w.core, flight, result);
      AnswersKept(w, v);
    }
  }

  lemma WakeKeeps(w: World, caller: nat)
    requires Coherent(w)
    ensures Coherent(Step(w, Wake(caller)))
  {
    var v := Step(w, Wake(caller));
    if v != w {
      var q := w.waiting[caller];
      assert w.core.flights[q.flight] == Flight(q.id, q.fingerprint, Some(w.core.flights[q.flight].result.value));
    }
  }

  lemma StepKeepsCoherent(w: World, e: Event)
    requires Coherent(w)
    ensures Coherent(Step(w, e))
  {
    match e
    case Dispatch(caller, id, action, fingerprint) => DispatchKeeps(w, caller, id, action, fingerprint);
    case GatewayReturns(flight, result) => ReturnKeeps(w, flight, result);
    case Wake(caller) => WakeKeeps(w, caller);
    case GiveUp(caller) =>
    case Forget(id) =>
  }

  lemma {:induction false} AlwaysCoherent(events: seq<Event>)
    ensures Coherent(Run(events))
  {
    if events != [] {
      AlwaysCoherent(events[..|events| - 1]);
      StepKeepsCoherent(Run(events[..|events| - 1]), events[|events| - 1]);
    }
  }

  /** At most one command per id is in flight, and never for an id whose result is stored. */
  lemma OneInFlightPerId(events: seq<Event>, i: nat, j: nat, id: string)
    requires Airborne(Run(events).core, i, id) && Airborne(Run(events).core, j, id)
    ensures i == j && id !in Run(events).core.results
  {
    AlwaysCoherent(events);
  }

  /** Every answer is the result of a command that was started for the caller's own id with the
      caller's own fingerprint. */
  lemma AnswersAreOwn(events: seq<Event>, k: nat)
    requires k < |Run(events).answers|
    ensures var a := Run(events).answers[k]; Landed(Run(events).core, a.id, a.fingerprint, a.result)
  {
    AlwaysCoherent(events);
  }

  // ----- conservation of commands -----

  function Started(flights: seq<Flight>, id: string): nat {
    if flights == [] then 0
    else Started(flights[..|flights| - 1], id) + if flights[|flights| - 1].id == id then 1 else 0
  }

  /** Forget calls that erased a stored result of this id. */
  function Erased(events: seq<Event>, id: string): nat {
    if events == [] then 0
    else
      var before := events[..|events| - 1];
      var last := events[|events| - 1];
      Erased(before, id) + if last == Forget(id) && id in Run(before).core.results then 1 else 0
  }

  /** Whether the id's result is stored or its command in flight. */
  function Known(c: Core, id: string): nat {
    if id in c.results || id in c.inflight then 1 else 0
  }

  lemma {:induction false} StartedAfterLanding(flights: seq<Flight>, k: nat, f: Flight, id: string)
    requires k < |flights| && f.id == flights[k].id
    ensures Started(flights[k := f], id) == Started(flights, id)
  {
    if k == |flights| - 1 {
      assert flights[k := f][..|flights| - 1] == flights[..|flights| - 1];
    } else {
      assert flights[k := f][..|flights| - 1] == flights[..|flights| - 1][k := f];
      StartedAfterLanding(flights[..|flights| - 1], k, f, id);
    }
  }

  lemma StartedByLookup(c: Core, other: string, action: string, fingerprint: string, id: string)
    requires Registered(c)
    ensures var d := Lookup(c, other, action, fingerprint).0;
      Started(d.flights, id) - Known(d, id) == Started(c.flights, id) - Known(c, id)
  {
    var d := Lookup(c, other, action, fingerprint).0;
    if |d.flights| > |c.flights| {
      assert d.flights[..|c.flights|] == c.flights;
    }
  }

  lemma StartedByStore(c: Core, flight: nat, result: Result, id: string)
    requires Registered(c) && flight < |c.flights| && c.flights[flight].result.None?
    ensures var d := Store(c, flight, result);
      Started(d.flights, id) == Started(c.flights, id) && Known(d, id) == Known(c, id)
  {
    StartedAfterLanding(c.flights, flight, Store(c, flight, result).flights[flight], id);
  }

  lemma StartedStep(w: World, e: Event, id: string)
    requires Registered(w.core)
    ensures var v := Step(w, e);
      Started(v.core.flights, id) - Known(v.core, id) ==
        Started(w.core.flights, id) - Known(w.core, id) + if e == Forget(id) && id in w.core.results then 1 else 0
  {
    match e
    case Dispatch(_, other, action, fingerprint) => StartedByLookup(w.core, other, action, fingerprint, id);
    case GatewayReturns(flight, result) =>
      if flight < |w.core.flights| && w.core.flights[flight].result.None? {
        StartedByStore(w.core, flight, result, id);
      }
    case _ =>
  }

  /** Commands started for an id are exactly the erased results, plus one if a result is stored
      or a command is in flight; so at most one more than the erasing Forget calls. */
  lemma {:induction false} CommandsConserved(events: seq<Event>, id: string)
    ensures var core := Run(events).core;
      Started(core.flights, id) == Erased(events, id) + Known(core, id)
  {
    if events != [] {
      var before := events[..|events| - 1];
      CommandsConserved(before, id);
      AlwaysCoherent(before);
      StartedStep(Run(before), events[|events| - 1], id);
    }
  }

  // ----- what a dispatch decides -----

  /** The latest flight of an id. */
  function Latest(flights: seq<Flight>, id: string): (k: Option<nat>)
    ensures k.Some? ==> k.value < |flights| && flights[k.value].id == id
  {
    if flights == [] then None
    else if flights[|flights| - 1].id == id then Some(|flights| - 1)
    else Latest(flights[..|flights| - 1], id)
  }

  lemma {:induction false} LatestAfterLanding(flights: seq<Flight>, k: nat, f: Flight, id: string)
    requires k < |flights| && f.id == flights[k].id
    ensures Latest(flights[k := f], id) == Latest(flights, id)
  {
    if k == |flights| - 1 {
      assert flights[k := f][..|flights| - 1] == flights[..|flights| - 1];
    } else {
      assert flights[k := f][..|flights| - 1] == flights[..|flights| - 1][k := f];
      LatestAfterLanding(flights[..|flights| - 1], k, f, id);
    }
  }

  /** What is registered or stored for an id is its latest flight. */
  ghost predicate Newest(c: Core, id: string) {
    && (id in c.inflight ==> Latest(c.flights, id) == Some(c.inflight[id]))
    && (id in c.results ==>
          && id in c.fingerprints && Latest(c.flights, id).Some?
          && c.flights[Latest(c.flights, id).value] == Flight(id, c.fingerprints[id], Some(c.results[id])))
  }

  lemma LookupKeepsNewest(c: Core, other: string, action: string, fingerprint: string, id: string)
    requires Registered(c) && Newest(c, id)
    ensures Newest(Lookup(c, other, action, fingerprint).0, id)
  {
    var d := Lookup(c, other, action, fingerprint).0;
    if |d.flights| > |c.flights| {
      assert d.flights[..|c.flights|] == c.flights;
    }
  }

  lemma StoreKeepsNewest(c: Core, flight: nat, result: Result, id: string)
    requires Registered(c) && flight < |c.flights| && c.flights[flight].result.None?
    requires Newest(c, id)
    ensures Newest(Store(c, flight, result), id)
  {
    LatestAfterLanding(c.flights, flight, Store(c, flight, result).flights[flight], id);
  }

  lemma StepKeepsNewest(w: World, e: Event, id: string)
    requires Registered(w.core) && Newest(w.core, id)
    ensures Newest(Step(w, e).core, id)
  {
    match e
    case Dispatch(_, other, action, fingerprint) => LookupKeepsNewest(w.core, other, action, fingerprint, id);
    case GatewayReturns(flight, result) =>
      if flight < |w.core.flights| && w.core.flights[flight].result.None? {
        StoreKeepsNewest(w.core, flight, result, id);
      }
    case _ =>
  }

  lemma {:induction false} AlwaysNewest(events: seq<Event>, id: string)
    ensures Newest(Run(events).core, id)
  {
    if events != [] {
      AlwaysNewest(events[..|events| - 1], id);
      AlwaysCoherent(events[..|events| - 1]);
      StepKeepsNewest(Run(events[..|events| - 1]), events[|events| - 1], id);
    }
  }

  /** A complete request starts a command exactly when every command started for its id has been
      forgotten. Otherwise the latest one decides: another command is a mismatch, the same one is
      answered from the cache if it has landed and waited for if not. */
  lemma DispatchDecides(events: seq<Event>, id: string, action: string, fingerprint: string)
    ensures var c := Run(events).core; var decision := Lookup(c, id, action, fingerprint).1;
      if id == "" || action == "" then decision == Incomplete
      else if Started(c.flights, id) == Erased(events, id) then decision.Start?
      else
        && Latest(c.flights, id).Some?
        && var k := Latest(c.flights, id).value;
           decision ==
             if c.flights[k].fingerprint != fingerprint then Mismatch
             else if c.flights[k].result.Some? then Cached(c.flights[k].result.value)
             else Wait(k)
  {
    CommandsConserved(events, id);
    AlwaysCoherent(events);
    AlwaysNewest(events, id);
  }
}
