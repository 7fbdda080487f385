/** Device transitions: the service reads a device, decides, and updates it only if state and
    version are still what it read. Reads and updates of any number of callers interleave. */
module Devices {
  import opened Base
  import opened Tables
  import opened Repositories

  datatype Operation = Pair | Enable | Disable | Retire
  datatype Outcome = Done | NotFound | Refused

  /** The reference table of ValidateTransition. */
  predicate Allowed(current: DeviceState, next: DeviceState) {
    match current
    case Pending => next == Paired || next == Retired
    case Paired => next == Enabled || next == Retired
    case Enabled => next == Disabled || next == Retired
    case Disabled => next == Enabled || next == Retired
    case Retired => false
  }

  /** The state an operation asks for, given the state it read. */
  function Target(op: Operation, current: DeviceState): Option<DeviceState> {
    match op
    case Pair => if current == Pending then Some(Paired) else None
    case Enable => if current == Paired || current == Disabled then Some(Enabled) else None
    case Disable => if current == Enabled then Some(Disabled) else None
    case Retire => if current == Retired then None else Some(Retired)
  }

  /** The four operations ask for exactly the transitions of the table. */
  lemma OperationsMatchTable(current: DeviceState, next: DeviceState)
    ensures Allowed(current, next) <==> exists op :: Target(op, current) == Some(next)
  {
    if Allowed(current, next) {
      var op := match next case Paired => Pair case Enabled => Enable case Disabled => Disable case _ => Retire;
      assert Target(op, current) == Some(next);
    }
  }

  /** An operation that nothing interrupts. */
  function Perform(db: Db, op: Operation, id: nat): (Db, Outcome) {
    if id !in db.devices then (db, NotFound)
    else
      var d := db.devices[id];
      var to := Target(op, d.state);
      if to.None? then (db, Refused)
      else (Tables.TransitionDevice(db, id, d.state, to.value, d.version).0, Done)
  }

  /** The device was there in one of the given states, and has gone from it to the new state with
      the next version; otherwise nothing has changed and the answer says why. */
  ghost predicate Answered(db: Db, db': Db, outcome: Outcome, id: nat, from: set<DeviceState>, to: DeviceState) {
    && (outcome == NotFound <==> id !in db.devices)
    && (outcome == Refused <==> id in db.devices && db.devices[id].state !in from)
    && db' == if outcome != Done || id !in db.devices then db
       else db.(devices := db.devices[id := Device(db.devices[id].household, to, db.devices[id].version + 1)])
  }

  /** Pair takes a pending device to paired, Enable a paired or disabled one to enabled, Disable an
      enabled one to disabled, and Retire any other than a retired one to retired. */
  lemma OperationsMean(db: Db, id: nat)
    ensures var (db', outcome) := Perform(db, Pair, id); Answered(db, db', outcome, id, {Pending}, Paired)
    ensures var (db', outcome) := Perform(db, Enable, id); Answered(db, db', outcome, id, {Paired, Disabled}, Enabled)
    ensures var (db', outcome) := Perform(db, Disable, id); Answered(db, db', outcome, id, {Enabled}, Disabled)
    ensures var (db', outcome) := Perform(db, Retire, id);
      Answered(db, db', outcome, id, {Pending, Paired, Enabled, Disabled}, Retired)
  {
  }

  class DeviceService {
    const repo: Repository

    constructor (repo: Repository)
      ensures this.repo == repo
    {
      this.repo := repo;
    }

    method Pair(id: nat) returns (outcome: Outcome)
      modifies repo
      ensures (repo.View(), outcome) == Perform(old(repo.View()), Operation.Pair, id)
      ensures Answered(old(repo.View()), repo.View(), outcome, id, {Pending}, Paired)
    {
      if id !in repo.devices { return NotFound; }
      var d := repo.devices[id];
      if d.state != Pending { return Refused; }
      var changed := repo.TransitionDevice(id, Pending, Paired, d.version);
      outcome := if changed then Done else Refused;
    }

    method Enable(id: nat) returns (outcome: Outcome)
      modifies repo
      ensures (repo.View(), outcome) == Perform(old(repo.View()), Operation.Enable, id)
      ensures Answered(old(repo.View()), repo.View(), outcome, id, {Paired, Disabled}, Enabled)
    {
      if id !in repo.devices { return NotFound; }
      var d := repo.devices[id];
      if d.state != Paired && d.state != Disabled { return Refused; }
      var changed := repo.TransitionDevice(id, d.state, Enabled, d.version);
      outcome := if changed then Done else Refused;
    }

    method Disable(id: nat) returns (outcome: Outcome)
      modifies repo
      ensures (repo.View(), outcome) == Perform(old(repo.View()), Operation.Disable, id)
      ensures Answered(old(repo.View()), repo.View(), outcome, id, {Enabled}, Disabled)
    {
      if id !in repo.devices { return NotFound; }
      var d := repo.devices[id];
      if d.state != Enabled { return Refused; }
      var changed := repo.TransitionDevice(id, d.state, Disabled, d.version);
      outcome := if changed then Done else Refused;
    }

    method Retire(id: nat) returns (outcome: Outcome)
      modifies repo
      ensures (repo.View(), outcome) == Perform(old(repo.View()), Operation.Retire, id)
      ensures Answered(old(repo.View()), repo.View(), outcome, id, {Pending, Paired, Enabled, Disabled}, Retired)
    {
      if id !in repo.devices { return NotFound; }
      var d := repo.devices[id];
      if d.state == Retired { return Refused; }
      var changed := repo.TransitionDevice(id, d.state, Retired, d.version);
      outcome := if changed then Done else Refused;
    }
  }

  // ----- interleavings -----

  // A caller between its read and its update.
  datatype Attempt = Attempt(device: nat, from: DeviceState, to: DeviceState, version: nat)

  // path: the states each device has gone through, enrolment first.
  datatype World = World(db: Db, attempts: map<nat, Attempt>, paths: map<nat, seq<DeviceState>>)

  datatype Event =
    | Enroll(device: nat, household: nat)
    | Read(caller: nat, op: Operation, device: nat)
    | Update(caller: nat)
    | Drop(caller: nat)

  const START := World(EMPTY, map[], map[])

  function ReadStep(w: World, caller: nat, op: Operation, device: nat): World {
    if device !in w.db.devices then w
    else
      var d := w.db.devices[device];
      var to := Target(op, d.state);
      if to.None? then w else w.(attempts := w.attempts[caller := Attempt(device, d.state, to.value, d.version)])
  }

  function UpdateStep(w: World, caller: nat): World {
    if caller !in w.attempts then w
    else
      var a := w.attempts[caller];
      var (db, changed) := Tables.TransitionDevice(w.db, a.device, a.from, a.to, a.version);
      var over := w.attempts - {caller};
      if changed && a.device in w.paths
      then World(db, over, w.paths[a.device := w.paths[a.device] + [a.to]])
      else World(db, over, w.paths)
  }

  function Step(w: World, e: Event): World {
    match e
    case Enroll(device, household) =>
      if device in w.db.devices then w
      else World(w.db.(devices := w.db.devices[device := Device(household, Pending, 1)]), w.attempts, w.paths[device := [Pending]])
    case Read(caller, op, device) => ReadStep(w, caller, op, device)
    case Update(caller) => UpdateStep(w, caller)
    case Drop(caller) => w.(attempts := w.attempts - {caller})
  }

  function Run(events: seq<Event>): World {
    if events == [] then START else Step(Run(events[..|events| - 1]), events[|events| - 1])
  }

  /** A read whose update follows at once is the uninterrupted operation. */
  lemma UninterruptedOperation(w: World, caller: nat, op: Operation, id: nat)
    requires caller !in w.attempts
    ensures UpdateStep(ReadStep(w, caller, op, id), caller).db == Perform(w.db, op, id).0
    ensures Perform(w.db, op, id).1 == Done <==> UpdateStep(ReadStep(w, caller, op, id), caller).db != w.db
  {
    if id in w.db.devices && Target(op, w.db.devices[id].state).Some? {
      var d := w.db.devices[id];
      var next := Tables.TransitionDevice(w.db, id, d.state, Target(op, d.state).value, d.version).0;
      assert next.devices[id].version == d.version + 1;
    }
  }

  ghost predicate IsPath(path: seq<DeviceState>) {
    path != [] && path[0] == Pending && forall k | 1 <= k < |path| :: Allowed(path[k - 1], path[k])
  }

  /** The row is where its path ends, and its version is the path's length. */
  ghost predicate RowFollows(d: Device, path: seq<DeviceState>) {
    IsPath(path) && d.state == path[|path| - 1] && d.version == |path|
  }

  /** The attempt holds what was read: the state at that version. */
  ghost predicate AttemptTrue(w: World, a: Attempt) {
    && a.device in w.paths && 1 <= a.version <= |w.paths[a.device]|
    && a.from == w.paths[a.device][a.version - 1] && Allowed(a.from, a.to)
  }

  ghost predicate Linear(w: World) {
    && w.db.devices.Keys == w.paths.Keys
    && (forall id | id in w.db.devices :: RowFollows(w.db.devices[id], w.paths[id]))
    && (forall caller | caller in w.attempts :: AttemptTrue(w, w.attempts[caller]))
  }

  lemma UpdateKeeps(w: World, caller: nat)
    requires Linear(w)
    ensures Linear(UpdateStep(w, caller))
  {
    if caller in w.attempts {
      assert AttemptTrue(w, w.attempts[caller]);
    }
  }

  lemma ReadKeeps(w: World, caller: nat, op: Operation, device: nat)
    requires Linear(w)
    ensures Linear(ReadStep(w, caller, op, device))
  {
    if device in w.db.devices {
      assert RowFollows(w.db.devices[device], w.paths[device]);
    }
  }

  lemma {:induction false} AlwaysLinear(events: seq<Event>)
    ensures Linear(Run(events))
  {
    if events != [] {
      var before := Run(events[..|events| - 1]);
      AlwaysLinear(events[..|events| - 1]);
      match events[|events| - 1]
      case Read(caller, op, device) => ReadKeeps(before, caller, op, device);
      case Update(caller) => UpdateKeeps(before, caller);
      case _ =>
    }
  }

  /** Every device's history is a path in the table, and its version is one more than the number
      of transitions that succeeded. */
  lemma HistoriesArePaths(events: seq<Event>, id: nat)
    requires id in Run(events).db.devices
    ensures id in Run(events).paths && RowFollows(Run(events).db.devices[id], Run(events).paths[id])
  {
    AlwaysLinear(events);
  }

  lemma StepExtendsPath(w: World, e: Event, id: nat)
    requires Linear(w) && id in w.paths
    ensures id in Step(w, e).paths && w.paths[id] <= Step(w, e).paths[id]
  {
  }

  lemma {:induction false} PathsOnlyGrow(events: seq<Event>, more: seq<Event>, id: nat)
    requires id in Run(events).paths
    ensures id in Run(events + more).paths && Run(events).paths[id] <= Run(events + more).paths[id]
    decreases |more|
  {
    if more == [] {
      assert events + more == events;
    } else {
      assert (events + more)[..|events + more| - 1] == events + more[..|more| - 1];
      PathsOnlyGrow(events, more[..|more| - 1], id);
      AlwaysLinear(events + more[..|more| - 1]);
      StepExtendsPath(Run(events + more[..|more| - 1]), more[|more| - 1], id);
    }
  }

  /** An update succeeds exactly when its device has not moved since the read, even if the device
      has meanwhile returned to the state that was read; and then it makes one transition. */
  lemma UpdateSucceedsIffUnmoved(events: seq<Event>, caller: nat, op: Operation, device: nat, more: seq<Event>)
    requires device in Run(events).db.devices && Target(op, Run(events).db.devices[device].state).Some?
    requires var w := Run(events + [Read(caller, op, device)] + more);
      caller in w.attempts && w.attempts[caller] == Run(events + [Read(caller, op, device)]).attempts[caller]
    ensures var asked := Target(op, Run(events).db.devices[device].state).value;
      var w := Run(events + [Read(caller, op, device)] + more);
      && device in Run(events).paths && device in w.paths
      && UpdateStep(w, caller).paths ==
           if w.paths[device] == Run(events).paths[device] then w.paths[device := w.paths[device] + [asked]] else w.paths
  {
    var read := events + [Read(caller, op, device)];
    assert read[..|events|] == events;
    AlwaysLinear(events);
    AlwaysLinear(read + more);
    PathsOnlyGrow(read, more, device);
    var w := Run(read + more);
    assert RowFollows(w.db.devices[device], w.paths[device]);
    assert RowFollows(Run(events).db.devices[device], Run(events).paths[device]);
    assert Run(read).paths == Run(events).paths;
  }

  lemma RetiredStep(w: World, e: Event, id: nat)
    requires Linear(w) && id in w.db.devices && w.db.devices[id].state == Retired
    ensures id in Step(w, e).db.devices && Step(w, e).db.devices[id] == w.db.devices[id]
  {
    if e.Update? && e.caller in w.attempts {
      assert AttemptTrue(w, w.attempts[e.caller]);
    }
  }

  /** Retired is absorbing. */
  lemma {:induction false} RetiredForever(events: seq<Event>, more: seq<Event>, id: nat)
    requires id in Run(events).db.devices && Run(events).db.devices[id].state == Retired
    ensures id in Run(events + more).db.devices && Run(events + more).db.devices[id] == Run(events).db.devices[id]
    decreases |more|
  {
    if more == [] {
      assert events + more == events;
    } else {
      assert (events + more)[..|events + more| - 1] == events + more[..|more| - 1];
      RetiredForever(events, more[..|more| - 1], id);
      AlwaysLinear(events + more[..|more| - 1]);
      RetiredStep(Run(events + more[..|more| - 1]), more[|more| - 1], id);
    }
  }
}
