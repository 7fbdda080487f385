/** Sessions and their garbage collection: vacuuming expired and revoked rows is invisible to
    every authorization. */
module Sessions {
  import opened Base

  datatype Role = Viewer | Operator | Owner | UnknownRole(name: string)

  // householdId, email and password checks happen before a session exists; see Login.
  datatype Member = Member(role: Role, active: bool)

  datatype Session = Session(member: nat, expiresAt: int, revokedAt: Option<int>)

  type Rows = map<string, Session>

  datatype Answer = Granted(member: nat) | Forbidden

  function Rank(r: Role): nat {
    match r
    case Viewer => 1
    case Operator => 2
    case Owner => 3
    case UnknownRole(_) => 0
  }

  predicate Satisfies(actual: Role, required: Role) {
    Rank(actual) > 0 && Rank(required) > 0 && Rank(actual) >= Rank(required)
  }

  // ----- the statements -----

  predicate Blank(space: char -> bool, id: string) {
    forall i | 0 <= i < |id| :: space(id[i])
  }

  predicate Usable(s: Session, now: int) {
    s.revokedAt.None? && now < s.expiresAt
  }

  /** The first half of an authorization: whose usable session this is. */
  function ReadSession(rows: Rows, space: char -> bool, id: string, now: int): Option<nat> {
    if Blank(space, id) || id !in rows || !Usable(rows[id], now) then None else Some(rows[id].member)
  }

  /** The second half: whether that member is active and has the role. */
  function ReadMember(members: map<nat, Member>, member: Option<nat>, required: Role): Answer {
    if member.None? || member.value !in members || !members[member.value].active then Forbidden
    else if !Satisfies(members[member.value].role, required) then Forbidden
    else Granted(member.value)
  }

  /** An authorization that nothing interrupts. */
  function Authorize(rows: Rows, members: map<nat, Member>, space: char -> bool, id: string, required: Role, now: int): Answer {
    ReadMember(members, ReadSession(rows, space, id, now), required)
  }

  predicate Collectable(s: Session, cutoff: int) {
    s.expiresAt <= cutoff || s.revokedAt.Some?
  }

  /** The zero time is refused as a cutoff. */
  function Vacuumed(rows: Rows, cutoff: int): Rows {
    if cutoff == ZERO_TIME then rows else map id | id in rows && !Collectable(rows[id], cutoff) :: rows[id]
  }

  function Created(rows: Rows, id: string, member: nat, expiresAt: int): (Rows, bool) {
    if id in rows then (rows, false) else (rows[id := Session(member, expiresAt, None)], true)
  }

  function Revoked(rows: Rows, id: string, now: int): (Rows, bool) {
    if id in rows && rows[id].revokedAt.None?
    then (rows[id := rows[id].(revokedAt := Some(now))], true)
    else (rows, false)
  }

  lemma SubsetSize(a: set<string>, b: set<string>)
    requires a <= b
    ensures |a| <= |b|
  {
    assert b == a + (b - a);
  }

  /** Exactly the rows that ended by the cutoff or were revoked are gone; the others are kept. */
  ghost predicate Purged(rows: Rows, rows': Rows, cutoff: int) {
    && (forall id :: id in rows' <==> id in rows && !(rows[id].expiresAt <= cutoff || rows[id].revokedAt.Some?))
    && (forall id | id in rows' :: rows'[id] == rows[id])
  }

  class SessionStore {
    var rows: Rows

    constructor ()
      ensures rows == map[]
    {
      rows := map[];
    }

    /** Login after the password check: a fresh id, expiring after the session lifetime. */
    method Login(id: string, member: nat, now: int, lifetime: int) returns (created: bool)
      modifies this
      ensures (rows, created) == Created(old(rows), id, member, now + lifetime)
    {
      created := id !in rows;
      if created {
        rows := rows[id := Session(member, now + lifetime, None)];
      }
    }

    method Logout(id: string, now: int) returns (revoked: bool)
      modifies this
      ensures (rows, revoked) == if id == "" then (old(rows), false) else Revoked(old(rows), id, now)
    {
      if id == "" {
        return false;
      }
      revoked := id in rows && rows[id].revokedAt.None?;
      if revoked {
        rows := rows[id := rows[id].(revokedAt := Some(now))];
      }
    }

    method Check(members: map<nat, Member>, space: char -> bool, id: string, required: Role, now: int) returns (answer: Answer)
      ensures answer == Authorize(rows, members, space, id, required, now)
    {
      if Blank(space, id) || id !in rows {
        return Forbidden;
      }
      var s := rows[id];
      if s.revokedAt.Some? || s.expiresAt <= now {
        return Forbidden;
      }
      if s.member !in members || !members[s.member].active || !Satisfies(members[s.member].role, required) {
        return Forbidden;
      }
      answer := Granted(s.member);
    }

    method DeleteExpired(cutoff: int) returns (deleted: nat, ok: bool)
      modifies this
      ensures ok <==> cutoff != ZERO_TIME
      ensures ok ==> Purged(old(rows), rows, cutoff)
      ensures rows == Vacuumed(old(rows), cutoff)
      ensures deleted == |old(rows)| - |rows|
    {
      if cutoff == ZERO_TIME {
        return 0, false;
      }
      var kept := Vacuumed(rows, cutoff);
      assert kept.Keys <= rows.Keys;
      SubsetSize(kept.Keys, rows.Keys);
      assert |kept| == |kept.Keys| && |rows| == |rows.Keys|;
      deleted, ok := |rows| - |kept|, true;
      rows := kept;
    }
  }

  // ----- runs with and without the vacuum -----

  datatype Event =
    | Login(id: string, member: nat, lifetime: int)
    | Logout(id: string)
    | Begin(asker: nat, id: string, required: Role)
    | Finish(asker: nat)
    | SetMember(member: nat, row: Member)
    | Vacuum(cutoff: int)
    | Wait(duration: nat)

  // An authorization between its two reads.
  datatype Asked = Asked(member: Option<nat>, required: Role)

  // used: every id ever given to a session; ids are never given out twice.
  datatype World = World(rows: Rows, members: map<nat, Member>, now: int, used: set<string>,
                         asked: map<nat, Asked>, answers: seq<Answer>)

  const START := World(map[], map[], 0, {}, map[], [])

  function Step(space: char -> bool, w: World, e: Event): World {
    match e
    case Login(id, member, lifetime) =>
      if id in w.used then w
      else w.(rows := Created(w.rows, id, member, w.now + lifetime).0, used := w.used + {id})
    case Logout(id) => if id == "" then w else w.(rows := Revoked(w.rows, id, w.now).0)
    case Begin(asker, id, required) =>
      if asker in w.asked then w
      else w.(asked := w.asked[asker := Asked(ReadSession(w.rows, space, id, w.now), required)])
    case Finish(asker) =>
      if asker !in w.asked then w
      else w.(asked := w.asked - {asker},
              answers := w.answers + [ReadMember(w.members, w.asked[asker].member, w.asked[asker].required)])
    case SetMember(member, row) => w.(members := w.members[member := row])
    case Vacuum(cutoff) => if cutoff <= w.now then w.(rows := Vacuumed(w.rows, cutoff)) else w
    case Wait(duration) => w.(now := w.now + duration)
  }

  function Run(space: char -> bool, events: seq<Event>): World {
    if events == [] then START
    else Step(space, Run(space, events[..|events| - 1]), events[|events| - 1])
  }

  function WithoutVacuums(events: seq<Event>): seq<Event> {
    if events == [] then []
    else WithoutVacuums(events[..|events| - 1]) + if events[|events| - 1].Vacuum? then [] else [events[|events| - 1]]
  }

  /** The vacuumed store lacks only rows that can never authorize anybody again. */
  ghost predicate Shadows(v: World, w: World) {
    && v.members == w.members && v.now == w.now && v.used == w.used && v.asked == w.asked && v.answers == w.answers
    && v.rows.Keys <= w.rows.Keys <= w.used
    && (forall id | id in v.rows :: v.rows[id] == w.rows[id])
    && (forall id | id in w.rows && id !in v.rows :: !Usable(w.rows[id], w.now))
  }

  lemma ReadAgrees(space: char -> bool, v: World, w: World, id: string)
    requires Shadows(v, w)
    ensures ReadSession(v.rows, space, id, v.now) == ReadSession(w.rows, space, id, w.now)
  {
  }

  lemma StepShadows(space: char -> bool, v: World, w: World, e: Event)
    requires Shadows(v, w)
    ensures Shadows(Step(space, v, e), if e.Vacuum? then w else Step(space, w, e))
  {
    if e.Begin? { ReadAgrees(space, v, w, e.id); }
  }

  /** The clock never runs backwards and ids are not reused; then every authorization is answered
      as if no vacuum had ever run. */
  lemma {:induction false} VacuumInvisible(space: char -> bool, events: seq<Event>)
    ensures Run(space, events).answers == Run(space, WithoutVacuums(events)).answers
    ensures Shadows(Run(space, events), Run(space, WithoutVacuums(events)))
  {
    if events != [] {
      var before, last := events[..|events| - 1], events[|events| - 1];
      VacuumInvisible(space, before);
      StepShadows(space, Run(space, before), Run(space, WithoutVacuums(before)), last);
      if last.Vacuum? {
        assert WithoutVacuums(events) == WithoutVacuums(before);
      } else {
        assert WithoutVacuums(events)[..|WithoutVacuums(before)|] == WithoutVacuums(before);
      }
    }
  }

  // ----- what the events alone say -----

  function Clock(events: seq<Event>): int {
    if events == [] then 0
    else
      var last := events[|events| - 1];
      Clock(events[..|events| - 1]) + if last.Wait? then last.duration else 0
  }

  function MemberNow(events: seq<Event>, member: nat): Option<Member> {
    if events == [] then None
    else
      var last := events[|events| - 1];
      if last.SetMember? && last.member == member then Some(last.row) else MemberNow(events[..|events| - 1], member)
  }

  // Who logged in, and until when.
  datatype Grant = Grant(member: nat, until: int)

  /** The login that opened this session: the only one to get its id. */
  function Opened(events: seq<Event>, id: string): Option<Grant> {
    if events == [] then None
    else
      var before, last := events[..|events| - 1], events[|events| - 1];
      if Opened(before, id).None? && last.Login? && last.id == id
      then Some(Grant(last.member, Clock(before) + last.lifetime)) else Opened(before, id)
  }

  predicate LoggedOut(events: seq<Event>, id: string) {
    if events == [] then false
    else
      var before, last := events[..|events| - 1], events[|events| - 1];
      LoggedOut(before, id) || (Opened(before, id).Some? && id != "" && last == Logout(id))
  }

  /** Some vacuum after the login had a non-zero cutoff at or after the session's end. */
  predicate Swept(events: seq<Event>, id: string) {
    if events == [] then false
    else
      var before, last := events[..|events| - 1], events[|events| - 1];
      Swept(before, id) ||
        (Opened(before, id).Some? && last.Vacuum? && last.cutoff != ZERO_TIME &&
          Opened(before, id).value.until <= last.cutoff <= Clock(before))
  }

  /** The row is what the events say about this session. */
  ghost predicate RowFollows(events: seq<Event>, id: string, w: World) {
    var grant := Opened(events, id);
    && (id in w.used <==> grant.Some?)
    && (grant.None? ==> id !in w.rows && !LoggedOut(events, id) && !Swept(events, id))
    && (grant.Some? && id in w.rows ==>
          && w.rows[id].member == grant.value.member && w.rows[id].expiresAt == grant.value.until
          && (w.rows[id].revokedAt.Some? <==> LoggedOut(events, id)))
    && (grant.Some? && !LoggedOut(events, id) ==> (id in w.rows <==> !Swept(events, id)))
    && (Swept(events, id) ==> grant.Some? && grant.value.until <= w.now)
  }

  lemma {:induction false} ClockFollows(space: char -> bool, events: seq<Event>)
    ensures Run(space, events).now == Clock(events)
  {
    if events != [] { ClockFollows(space, events[..|events| - 1]); }
  }

  lemma {:induction false} MembersFollow(space: char -> bool, events: seq<Event>, member: nat)
    ensures var members := Run(space, events).members;
      MemberNow(events, member) == if member in members then Some(members[member]) else None
  {
    if events != [] { MembersFollow(space, events[..|events| - 1], member); }
  }

  lemma StepFollows(space: char -> bool, before: seq<Event>, last: Event, id: string, w: World)
    requires RowFollows(before, id, w) && w.now == Clock(before)
    ensures RowFollows(before + [last], id, Step(space, w, last))
  {
    assert (before + [last])[..|before|] == before;
  }

  lemma {:induction false} AlwaysFollows(space: char -> bool, events: seq<Event>, id: string)
    ensures RowFollows(events, id, Run(space, events))
  {
    if events != [] {
      var before := events[..|events| - 1];
      AlwaysFollows(space, before, id);
      ClockFollows(space, before);
      StepFollows(space, before, events[|events| - 1], id, Run(space, before));
      assert before + [events[|events| - 1]] == events;
    }
  }

  /** Roles are ordered viewer, operator, owner; an unknown role satisfies and requires nothing. */
  lemma RolesOrdered(actual: Role, required: Role)
    ensures Satisfies(actual, required) <==>
      !actual.UnknownRole? && !required.UnknownRole? && (required == Viewer || actual == Owner || actual == required)
  {
  }

  /** The member opened the session, nobody has logged it out, and its lifetime is not over. */
  ghost predicate HasSession(events: seq<Event>, id: string, member: nat) {
    && Opened(events, id).Some? && Opened(events, id).value.member == member
    && !LoggedOut(events, id) && Clock(events) < Opened(events, id).value.until
  }

  /** The member is active with a sufficient role. */
  ghost predicate Entitled(events: seq<Event>, member: nat, required: Role) {
    && MemberNow(events, member).Some? && MemberNow(events, member).value.active
    && Satisfies(MemberNow(events, member).value.role, required)
  }

  lemma {:induction false} AskedKept(space: char -> bool, events: seq<Event>, between: seq<Event>, asker: nat)
    requires asker in Run(space, events).asked && Finish(asker) !in between
    ensures asker in Run(space, events + between).asked
    ensures Run(space, events + between).asked[asker] == Run(space, events).asked[asker]
    decreases |between|
  {
    if between == [] {
      assert events + between == events;
    } else {
      assert (events + between)[..|events + between| - 1] == events + between[..|between| - 1];
      AskedKept(space, events, between[..|between| - 1], asker);
    }
  }

  lemma ReadSessionIff(space: char -> bool, events: seq<Event>, id: string, member: nat)
    ensures ReadSession(Run(space, events).rows, space, id, Run(space, events).now) == Some(member) <==>
      !Blank(space, id) && HasSession(events, id, member)
  {
    ClockFollows(space, events);
    AlwaysFollows(space, events, id);
  }

  lemma ReadMemberIff(space: char -> bool, events: seq<Event>, read: Option<nat>, required: Role, member: nat)
    ensures ReadMember(Run(space, events).members, read, required) == Granted(member) <==>
      read == Some(member) && Entitled(events, member, required)
  {
    MembersFollow(space, events, member);
  }

  /** The authorization that begins after some events and finishes after some more. */
  function Asking(before: seq<Event>, asker: nat, id: string, required: Role, between: seq<Event>): seq<Event> {
    before + [Begin(asker, id, required)] + between
  }

  /** Whatever logins, logouts, membership changes, vacuums and other authorizations come before
      it and between its two reads, an authorization is granted to a member exactly when that
      member has the session at the first read and is entitled at the second. */
  lemma AuthorizeIff(space: char -> bool, before: seq<Event>, asker: nat, id: string, required: Role,
                     between: seq<Event>, member: nat)
    requires asker !in Run(space, before).asked && Finish(asker) !in between
    ensures var asking := Asking(before, asker, id, required, between);
      var answers := Run(space, asking + [Finish(asker)]).answers;
      && |answers| == |Run(space, asking).answers| + 1
      && (answers[|answers| - 1] == Granted(member) <==>
            (exists i :: 0 <= i < |id| && !space(id[i])) && HasSession(before, id, member) && Entitled(asking, member, required))
  {
    var begun := before + [Begin(asker, id, required)];
    var asking := Asking(before, asker, id, required, between);
    assert begun[..|before|] == before;
    assert (asking + [Finish(asker)])[..|asking|] == asking;
    AskedKept(space, begun, between, asker);
    ReadSessionIff(space, before, id, member);
    ReadMemberIff(space, asking, Run(space, asking).asked[asker].member, required, member);
  }

  /** Whether a logout finds its session. */
  predicate LogsOut(w: World, id: string) {
    id != "" && Revoked(w.rows, id, w.now).1
  }

  /** A logout finds its session exactly when it was opened, has not been logged out, and no
      vacuum has had a cutoff at or after its end. */
  lemma LogoutIff(space: char -> bool, events: seq<Event>, id: string)
    ensures LogsOut(Run(space, events), id) <==>
      id != "" && Opened(events, id).Some? && !LoggedOut(events, id) && !Swept(events, id)
  {
    AlwaysFollows(space, events, id);
  }

  /** A login with an id that no session has had succeeds; one with the id of a session that is
      neither logged out nor swept is refused. */
  lemma LoginAnswers(space: char -> bool, events: seq<Event>, id: string, member: nat, until: int)
    ensures Opened(events, id).None? ==> Created(Run(space, events).rows, id, member, until).1
    ensures Opened(events, id).Some? && !LoggedOut(events, id) ==>
      (Created(Run(space, events).rows, id, member, until).1 <==> Swept(events, id))
  {
    AlwaysFollows(space, events, id);
  }

  lemma {:induction false} SameHistory(events: seq<Event>, id: string)
    ensures var rest := WithoutVacuums(events);
      && Clock(rest) == Clock(events) && Opened(rest, id) == Opened(events, id)
      && LoggedOut(rest, id) == LoggedOut(events, id) && !Swept(rest, id)
  {
    if events != [] {
      var before, last := events[..|events| - 1], events[|events| - 1];
      SameHistory(before, id);
      if last.Vacuum? {
        assert WithoutVacuums(events) == WithoutVacuums(before);
      } else {
        assert WithoutVacuums(events)[..|WithoutVacuums(before)|] == WithoutVacuums(before);
      }
    }
  }

  /** Vacuums change a logout's answer exactly when the session is still open in the sense of the
      events and some vacuum had a non-zero cutoff at or after its end. */
  lemma LogoutSeesVacuum(space: char -> bool, events: seq<Event>, id: string)
    ensures LogsOut(Run(space, events), id) != LogsOut(Run(space, WithoutVacuums(events)), id) <==>
      id != "" && Opened(events, id).Some? && !LoggedOut(events, id) && Swept(events, id)
  {
    LogoutIff(space, events, id);
    LogoutIff(space, WithoutVacuums(events), id);
    SameHistory(events, id);
  }

  const EXPIRED_THEN_SWEPT: seq<Event> := [Event.Login("a", 1, 1), Wait(1), Vacuum(1)]

  /** Such a run: a session of one nanosecond, vacuumed when it is over. */
  lemma LogoutCanDiffer(space: char -> bool)
    ensures !LogsOut(Run(space, EXPIRED_THEN_SWEPT), "a")
    ensures LogsOut(Run(space, WithoutVacuums(EXPIRED_THEN_SWEPT)), "a")
  {
    var login := [Event.Login("a", 1, 1)];
    var waited := login + [Wait(1)];
    assert EXPIRED_THEN_SWEPT[..2] == waited && waited[..1] == login && login[..0] == [];
    assert Opened(login, "a") == Some(Grant(1, 1)) && Opened(waited, "a") == Some(Grant(1, 1));
    assert Clock(waited) == 1 && Swept(EXPIRED_THEN_SWEPT, "a");
    assert Opened(EXPIRED_THEN_SWEPT, "a") == Some(Grant(1, 1));
    assert !LoggedOut(login, "a") && !LoggedOut(waited, "a") && !LoggedOut(EXPIRED_THEN_SWEPT, "a");
    LogoutIff(space, EXPIRED_THEN_SWEPT, "a");
    LogoutSeesVacuum(space, EXPIRED_THEN_SWEPT, "a");
  }
}
