/** Building the device search statement: numbered placeholders over an argument list. The
    statement is kept as clauses; what it selects is defined by looking placeholders up. */
module DeviceSearch {
  import opened Base
  import opened Tables

  datatype Kind = Sensor | Light | Thermostat | Meter | Lock | Controller

  datatype Filter = Filter(household: int, states: seq<DeviceState>, kinds: seq<Kind>, query: string, limit: int, offset: int)

  datatype Row = Row(household: int, externalId: string, firmware: string, state: DeviceState, kind: Kind)

  datatype Value = Number(n: int) | Pattern(p: string) | StateValue(s: DeviceState) | KindValue(k: Kind)

  // Placeholder $n stands for the n-th argument, counting from one.
  datatype Clause =
    | HouseholdIs(mark: nat)
    | TextLike(externalMark: nat, firmwareMark: nat)
    | StateIn(marks: seq<nat>)
    | KindIn(marks: seq<nat>)

  datatype Statement = Statement(where: seq<Clause>, limitMark: nat, offsetMark: nat)

  // ----- normalisation -----

  function TrimLeft(space: char -> bool, text: string): string {
    if text != [] && space(text[0]) then TrimLeft(space, text[1..]) else text
  }

  function TrimRight(space: char -> bool, text: string): string {
    if text != [] && space(text[|text| - 1]) then TrimRight(space, text[..|text| - 1]) else text
  }

  function Trim(space: char -> bool, text: string): string {
    TrimRight(space, TrimLeft(space, text))
  }

  function Normalize(space: char -> bool, f: Filter): Option<Filter> {
    if f.household <= 0 || f.offset < 0 || f.limit < 0 || f.limit > 200 then None
    else Some(f.(limit := if f.limit == 0 then 50 else f.limit, query := Trim(space, f.query)))
  }

  ghost predicate AllSpace(space: char -> bool, text: string) {
    forall i | 0 <= i < |text| :: space(text[i])
  }

  /** The text neither starts nor ends with space. */
  ghost predicate Trimmed(space: char -> bool, text: string) {
    text == "" || (!space(text[0]) && !space(text[|text| - 1]))
  }

  lemma {:induction false} TrimLeftSplits(space: char -> bool, text: string) returns (left: string)
    ensures text == left + TrimLeft(space, text) && AllSpace(space, left)
    ensures TrimLeft(space, text) == "" || !space(TrimLeft(space, text)[0])
  {
    left := "";
    if text != [] && space(text[0]) {
      var rest := TrimLeftSplits(space, text[1..]);
      left := [text[0]] + rest;
      assert text == [text[0]] + text[1..];
    }
  }

  lemma {:induction false} TrimRightSplits(space: char -> bool, text: string) returns (right: string)
    ensures text == TrimRight(space, text) + right && AllSpace(space, right)
    ensures TrimRight(space, text) == "" || !space(TrimRight(space, text)[|TrimRight(space, text)| - 1])
  {
    right := "";
    if text != [] && space(text[|text| - 1]) {
      var rest := TrimRightSplits(space, text[..|text| - 1]);
      right := rest + [text[|text| - 1]];
      assert text == text[..|text| - 1] + [text[|text| - 1]];
    }
  }

  lemma TrimSplits(space: char -> bool, text: string) returns (left: string, right: string)
    ensures text == left + Trim(space, text) + right && AllSpace(space, left) && AllSpace(space, right)
    ensures Trimmed(space, Trim(space, text))
  {
    left := TrimLeftSplits(space, text);
    var inner := TrimLeft(space, text);
    right := TrimRightSplits(space, inner);
    if Trim(space, text) != "" { assert Trim(space, text)[0] == inner[0]; }
  }

  lemma TrimmedStays(space: char -> bool, text: string)
    requires Trimmed(space, text)
    ensures Trim(space, text) == text
  {
  }

  ghost predicate Acceptable(f: Filter) {
    f.household >= 1 && f.offset >= 0 && 0 <= f.limit <= 200
  }

  /** g is f with an explicit limit and without the white space around the query. */
  ghost predicate NormalFormOf(space: char -> bool, f: Filter, g: Filter) {
    && g == f.(limit := g.limit, query := g.query)
    && g.limit == (if f.limit == 0 then 50 else f.limit)
    && Trimmed(space, g.query)
    && exists left, right :: f.query == left + g.query + right && AllSpace(space, left) && AllSpace(space, right)
  }

  /** Exactly the acceptable filters are normalised, to their normal form, and once is enough. */
  lemma NormalizeMeaning(space: char -> bool, f: Filter)
    ensures Normalize(space, f).Some? <==> Acceptable(f)
    ensures Normalize(space, f).Some? ==>
      var g := Normalize(space, f).value;
      NormalFormOf(space, f, g) && Acceptable(g) && g.limit >= 1 && Normalize(space, g) == Some(g)
  {
    var left, right := TrimSplits(space, f.query);
    TrimmedStays(space, Trim(space, f.query));
  }

  // ----- what a statement selects -----

  predicate IsArgument(args: seq<Value>, mark: nat, v: Value) {
    1 <= mark <= |args| && args[mark - 1] == v
  }

  // like(pattern, text) is PostgreSQL's ILIKE, left uninterpreted.
  predicate LikeArgument(like: (string, string) -> bool, args: seq<Value>, mark: nat, text: string) {
    1 <= mark <= |args| && args[mark - 1].Pattern? && like(args[mark - 1].p, text)
  }

  ghost predicate Holds(like: (string, string) -> bool, args: seq<Value>, c: Clause, row: Row) {
    match c
    case HouseholdIs(mark) => IsArgument(args, mark, Number(row.household))
    case TextLike(m, n) => LikeArgument(like, args, m, row.externalId) || LikeArgument(like, args, n, row.firmware)
    case StateIn(marks) => exists i :: 0 <= i < |marks| && IsArgument(args, marks[i], StateValue(row.state))
    case KindIn(marks) => exists i :: 0 <= i < |marks| && IsArgument(args, marks[i], KindValue(row.kind))
  }

  ghost predicate Selects(like: (string, string) -> bool, where: seq<Clause>, args: seq<Value>, row: Row) {
    forall i | 0 <= i < |where| :: Holds(like, args, where[i], row)
  }

  /** What the filter describes. */
  ghost predicate Wanted(like: (string, string) -> bool, f: Filter, row: Row) {
    && row.household == f.household
    && (f.query != "" ==> like("%" + f.query + "%", row.externalId) || like("%" + f.query + "%", row.firmware))
    && (f.states != [] ==> row.state in f.states)
    && (f.kinds != [] ==> row.kind in f.kinds)
  }

  function Elements(marks: seq<nat>): set<nat> {
    set m | m in marks
  }

  function Marks(c: Clause): set<nat> {
    match c
    case HouseholdIs(mark) => {mark}
    case TextLike(m, n) => {m, n}
    case StateIn(marks) => Elements(marks)
    case KindIn(marks) => Elements(marks)
  }

  function AllMarks(where: seq<Clause>): set<nat> {
    if where == [] then {} else AllMarks(where[..|where| - 1]) + Marks(where[|where| - 1])
  }

  predicate Between(k: nat, n: nat) {
    1 <= k <= n
  }

  function UpTo(n: nat): set<nat> {
    set k: nat | 1 <= k <= n && Between(k, n)
  }

  // ----- building -----

  /** The clause list built so far selects what the part of the filter handled so far wants, and
      uses exactly the arguments collected so far. */
  ghost predicate Built(where: seq<Clause>, args: seq<Value>, arg: nat, part: Filter) {
    && arg == |args| + 1 && args != []
    && AllMarks(where) == UpTo(|args|)
    && forall like: (string, string) -> bool, row: Row :: Selects(like, where, args, row) <==> Wanted(like, part, row)
  }

  lemma MarksBounded(where: seq<Clause>, n: nat, i: nat)
    requires i < |where| && AllMarks(where) <= UpTo(n)
    ensures Marks(where[i]) <= UpTo(n)
  {
    if i < |where| - 1 { MarksBounded(where[..|where| - 1], n, i); }
  }

  /** More arguments do not change what a clause with settled placeholders says. */
  lemma HoldsKept(like: (string, string) -> bool, args: seq<Value>, more: seq<Value>, c: Clause, row: Row)
    requires Marks(c) <= UpTo(|args|)
    ensures Holds(like, args + more, c, row) <==> Holds(like, args, c, row)
  {
    forall mark | mark in Marks(c) ensures 1 <= mark <= |args| && (args + more)[mark - 1] == args[mark - 1] {
      assert mark in UpTo(|args|);
    }
    match c
    case StateIn(marks) =>
      forall i | 0 <= i < |marks|
        ensures IsArgument(args + more, marks[i], StateValue(row.state)) <==> IsArgument(args, marks[i], StateValue(row.state))
      {
        assert marks[i] in Marks(c);
      }
    case KindIn(marks) =>
      forall i | 0 <= i < |marks|
        ensures IsArgument(args + more, marks[i], KindValue(row.kind)) <==> IsArgument(args, marks[i], KindValue(row.kind))
      {
        assert marks[i] in Marks(c);
      }
    case HouseholdIs(mark) =>
      assert mark in Marks(c);
    case TextLike(m, n) =>
      assert m in Marks(c) && n in Marks(c);
  }

  lemma SelectsSplit(like: (string, string) -> bool, where: seq<Clause>, c: Clause, args: seq<Value>, args': seq<Value>, row: Row)
    requires forall i | 0 <= i < |where| :: Holds(like, args', where[i], row) <==> Holds(like, args, where[i], row)
    ensures Selects(like, where + [c], args', row) <==> Selects(like, where, args, row) && Holds(like, args', c, row)
  {
    if Selects(like, where + [c], args', row) {
      forall i | 0 <= i < |where| ensures Holds(like, args, where[i], row) {
        assert (where + [c])[i] == where[i];
      }
      assert (where + [c])[|where|] == c;
    }
  }

  lemma AppendClause(where: seq<Clause>, args: seq<Value>, c: Clause, more: seq<Value>, part: Filter, part': Filter)
    requires Built(where, args, |args| + 1, part)
    requires Marks(c) == UpTo(|args| + |more|) - UpTo(|args|)
    requires forall like: (string, string) -> bool, row: Row ::
      Wanted(like, part', row) <==> Wanted(like, part, row) && Holds(like, args + more, c, row)
    ensures Built(where + [c], args + more, |args| + |more| + 1, part')
  {
    assert (where + [c])[..|where|] == where;
    assert AllMarks(where + [c]) == UpTo(|args + more|);
    forall like: (string, string) -> bool, row: Row
      ensures Selects(like, where + [c], args + more, row) <==> Wanted(like, part', row)
    {
      forall i | 0 <= i < |where| ensures Holds(like, args + more, where[i], row) <==> Holds(like, args, where[i], row) {
        MarksBounded(where, |args|, i);
        HoldsKept(like, args, more, where[i], row);
      }
      SelectsSplit(like, where, c, args, args + more, row);
    }
  }

  function StateArgs(states: seq<DeviceState>): (args: seq<Value>)
    ensures |args| == |states| && forall i | 0 <= i < |states| :: args[i] == StateValue(states[i])
  {
    seq(|states|, i requires 0 <= i < |states| => StateValue(states[i]))
  }

  lemma StateClause(like: (string, string) -> bool, args: seq<Value>, states: seq<DeviceState>, row: Row)
    ensures Holds(like, args + StateArgs(states), StateIn(Consecutive(|args| + 1, |states|)), row) <==> row.state in states
  {
    var marks := Consecutive(|args| + 1, |states|);
    var all := args + StateArgs(states);
    forall i | 0 <= i < |marks| ensures IsArgument(all, marks[i], StateValue(row.state)) <==> states[i] == row.state {
    }
  }

  function KindArgs(kinds: seq<Kind>): (args: seq<Value>)
    ensures |args| == |kinds| && forall i | 0 <= i < |kinds| :: args[i] == KindValue(kinds[i])
  {
    seq(|kinds|, i requires 0 <= i < |kinds| => KindValue(kinds[i]))
  }

  lemma KindClause(like: (string, string) -> bool, args: seq<Value>, kinds: seq<Kind>, row: Row)
    ensures Holds(like, args + KindArgs(kinds), KindIn(Consecutive(|args| + 1, |kinds|)), row) <==> row.kind in kinds
  {
    var marks := Consecutive(|args| + 1, |kinds|);
    var all := args + KindArgs(kinds);
    forall i | 0 <= i < |marks| ensures IsArgument(all, marks[i], KindValue(row.kind)) <==> kinds[i] == row.kind {
    }
  }

  lemma ConsecutiveMarks(base: nat, count: nat)
    ensures Elements(Consecutive(base + 1, count)) == UpTo(base + count) - UpTo(base)
  {
    var marks := Consecutive(base + 1, count);
    forall m: nat ensures m in marks <==> m in UpTo(base + count) - UpTo(base) {
      assert Between(m, base + count) <==> m in UpTo(base + count);
      assert Between(m, base) <==> m in UpTo(base);
      if m in UpTo(base + count) - UpTo(base) { assert marks[m - base - 1] == m; }
    }
  }

  const NOTHING := Filter(0, [], [], "", 0, 0)

  /** The household clause is always first. */
  lemma StartBuilt(household: int)
    ensures Built([HouseholdIs(1)], [Number(household)], 2, NOTHING.(household := household))
  {
    var where, args := [HouseholdIs(1)], [Number(household)];
    assert where[..0] == [];
    assert AllMarks(where) == UpTo(1);
    forall like: (string, string) -> bool, row: Row
      ensures Selects(like, where, args, row) <==> Wanted(like, NOTHING.(household := household), row)
    {
      assert Holds(like, args, where[0], row) <==> row.household == household;
    }
  }

  method AddText(where: seq<Clause>, args: seq<Value>, arg: nat, ghost part: Filter, query: string)
    returns (where': seq<Clause>, args': seq<Value>, arg': nat)
    requires Built(where, args, arg, part) && part.query == ""
    ensures Built(where', args', arg', part.(query := query))
  {
    if query == "" {
      return where, args, arg;
    }
    where' := where + [TextLike(arg, arg)];
    args' := args + [Pattern("%" + query + "%")];
    arg' := arg + 1;
    AppendClause(where, args, TextLike(arg, arg), [Pattern("%" + query + "%")], part, part.(query := query));
  }

  method AddStates(where: seq<Clause>, args: seq<Value>, arg: nat, ghost part: Filter, states: seq<DeviceState>)
    returns (where': seq<Clause>, args': seq<Value>, arg': nat)
    requires Built(where, args, arg, part) && part.states == []
    ensures Built(where', args', arg', part.(states := states))
  {
    if states == [] {
      return where, args, arg;
    }
    var marks: seq<nat> := [];
    args' := args;
    for i := 0 to |states|
      invariant marks == Consecutive(arg, i)
      invariant args' == args + StateArgs(states[..i])
    {
      marks := marks + [arg + i];
      args' := args' + [StateValue(states[i])];
    }
    assert states[..|states|] == states;
    where' := where + [StateIn(marks)];
    arg' := arg + |states|;
    ConsecutiveMarks(|args|, |states|);
    forall like: (string, string) -> bool, row: Row ensures Holds(like, args', StateIn(marks), row) <==> row.state in states {
      StateClause(like, args, states, row);
    }
    AppendClause(where, args, StateIn(marks), StateArgs(states), part, part.(states := states));
  }

  method AddKinds(where: seq<Clause>, args: seq<Value>, arg: nat, ghost part: Filter, kinds: seq<Kind>)
    returns (where': seq<Clause>, args': seq<Value>, arg': nat)
    requires Built(where, args, arg, part) && part.kinds == []
    ensures Built(where', args', arg', part.(kinds := kinds))
  {
    if kinds == [] {
      return where, args, arg;
    }
    var marks: seq<nat> := [];
    args' := args;
    for i := 0 to |kinds|
      invariant marks == Consecutive(arg, i)
      invariant args' == args + KindArgs(kinds[..i])
    {
      marks := marks + [arg + i];
      args' := args' + [KindValue(kinds[i])];
    }
    assert kinds[..|kinds|] == kinds;
    where' := where + [KindIn(marks)];
    arg' := arg + |kinds|;
    ConsecutiveMarks(|args|, |kinds|);
    forall like: (string, string) -> bool, row: Row ensures Holds(like, args', KindIn(marks), row) <==> row.kind in kinds {
      KindClause(like, args, kinds, row);
    }
    AppendClause(where, args, KindIn(marks), KindArgs(kinds), part, part.(kinds := kinds));
  }

  lemma LimitAndOffsetKeep(where: seq<Clause>, args: seq<Value>, f: Filter)
    requires Built(where, args, |args| + 1, NOTHING.(household := f.household, query := f.query, states := f.states, kinds := f.kinds))
    ensures var all := args + [Number(f.limit), Number(f.offset)];
      && |args| >= 1
      && AllMarks(where) + {|all| - 1, |all|} == UpTo(|all|)
      && forall like: (string, string) -> bool, row: Row :: Selects(like, where, all, row) <==> Wanted(like, f, row)
  {
    var more := [Number(f.limit), Number(f.offset)];
    forall k: nat ensures k in AllMarks(where) + {|args| + 1, |args| + 2} <==> k in UpTo(|args + more|) {
      assert Between(k, |args + more|) <==> Between(k, |args|) || k == |args| + 1 || k == |args| + 2;
      assert k in UpTo(|args|) <==> Between(k, |args|);
      assert k in UpTo(|args + more|) <==> Between(k, |args + more|);
    }
    forall like: (string, string) -> bool, row: Row ensures Selects(like, where, args + more, row) <==> Wanted(like, f, row) {
      forall i | 0 <= i < |where| ensures Holds(like, args + more, where[i], row) <==> Holds(like, args, where[i], row) {
        MarksBounded(where, |args|, i);
        HoldsKept(like, args, more, where[i], row);
      }
      assert Selects(like, where, args, row) <==> Wanted(like, f, row);
    }
  }

  /** For every acceptable filter the WHERE clause, evaluated with its placeholders against the
      argument list, selects exactly the rows the filter describes; the placeholders used are
      exactly 1..len(args), and the last two are the limit and the offset. */
  method SearchDevices(space: char -> bool, filter: Filter) returns (statement: Statement, args: seq<Value>, ok: bool)
    ensures ok <==> Acceptable(filter)
    ensures ok ==> Normalize(space, filter).Some? && var f := Normalize(space, filter).value; var n := |args|;
      && NormalFormOf(space, filter, f)
      && n >= 3 && statement.limitMark == n - 1 && statement.offsetMark == n
      && args[n - 2] == Number(f.limit) && args[n - 1] == Number(f.offset)
      && AllMarks(statement.where) + {statement.limitMark, statement.offsetMark} == UpTo(n)
      && forall like: (string, string) -> bool, row: Row ::
           Selects(like, statement.where, args, row) <==> Wanted(like, f, row)
  {
    statement, args, ok := Statement([], 0, 0), [], false;
    var normalized := Normalize(space, filter);
    NormalizeMeaning(space, filter);
    if normalized.None? {
      return;
    }
    var f := normalized.value;
    var where: seq<Clause>;
    var arg: nat;
    where, args, arg := [HouseholdIs(1)], [Number(f.household)], 2;
    StartBuilt(f.household);
    where, args, arg := AddText(where, args, arg, NOTHING.(household := f.household), f.query);
    where, args, arg := AddStates(where, args, arg, NOTHING.(household := f.household, query := f.query), f.states);
    where, args, arg := AddKinds(where, args, arg, NOTHING.(household := f.household, query := f.query, states := f.states), f.kinds);
    LimitAndOffsetKeep(where, args, f);
    args := args + [Number(f.limit), Number(f.offset)];
    statement := Statement(where, arg, arg + 1);
    ok := true;
  }
}
