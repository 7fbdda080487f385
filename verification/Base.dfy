/** Small vocabulary shared by the models: optional values, the time unit, decimal text and
    the ascending enumeration of a finite set of row ids. */
module Base {
  datatype Option<+T> = None | Some(value: T)

  // What becomes of a COMMIT: it succeeds, it is rolled back, or it takes effect although the
  // caller sees an error.
  datatype Fate = Commit | Abort | CommitUnseen

  // Times and durations are integer nanoseconds, as in Go's time.Duration.
  const MILLISECOND: int := 1_000_000
  const SECOND: int := 1000 * MILLISECOND
  const MINUTE: int := 60 * SECOND
  const HOUR: int := 60 * MINUTE

  // The zero time.Time.
  const ZERO_TIME: int := 0

  function Max(a: int, b: int): int {
    if a < b then b else a
  }

  // ----- decimal text, as produced by %d -----

  function Digit(d: nat): char
    requires d < 10
  {
    ('0' as int + d) as char
  }

  function Decimal(n: nat): (text: string)
    ensures |text| > 0
  {
    if n < 10 then [Digit(n)] else Decimal(n / 10) + [Digit(n % 10)]
  }

  function DecimalValue(text: string): int {
    if text == [] then 0
    else 10 * DecimalValue(text[..|text| - 1]) + (text[|text| - 1] as int - '0' as int)
  }

  lemma {:induction false} DecimalRoundTrip(n: nat)
    ensures DecimalValue(Decimal(n)) == n
  {
    var text := Decimal(n);
    if n < 10 {
      assert text[..0] == [];
    } else {
      assert text[..|text| - 1] == Decimal(n / 10);
      DecimalRoundTrip(n / 10);
    }
  }

  lemma DecimalInjective(a: nat, b: nat)
    requires Decimal(a) == Decimal(b)
    ensures a == b
  {
    DecimalRoundTrip(a);
    DecimalRoundTrip(b);
  }

  // ----- ORDER BY id -----

  predicate IsLeast(s: set<nat>, least: nat) {
    least in s && forall x | x in s :: least <= x
  }

  lemma {:induction false} LeastExists(s: set<nat>)
    requires s != {}
    ensures exists least :: IsLeast(s, least)
    decreases |s|
  {
    var x :| x in s;
    var rest := s - {x};
    if rest == {} {
      assert s == {x};
      assert IsLeast(s, x);
    } else {
      assert |rest| < |s|;
      LeastExists(rest);
      var y :| IsLeast(rest, y);
      var least := if x < y then x else y;
      forall z | z in s ensures least <= z {
        if z != x { assert z in rest; }
      }
      assert IsLeast(s, least);
    }
  }

  ghost predicate Increasing(ids: seq<nat>) {
    forall i, j | 0 <= i < j < |ids| :: ids[i] < ids[j]
  }

  function Least(s: set<nat>): (least: nat)
    requires s != {}
    ensures IsLeast(s, least)
  {
    LeastExists(s);
    var least :| least in s && IsLeast(s, least);
    least
  }

  /** The elements of a finite set, smallest first. */
  function Ascending(s: set<nat>): (ids: seq<nat>)
    ensures |ids| == |s|
    ensures forall i | 0 <= i < |ids| :: ids[i] in s
    decreases |s|
  {
    if s == {} then []
    else
      var least := Least(s);
      assert |s - {least}| < |s|;
      [least] + Ascending(s - {least})
  }

  lemma IncreasingCons(first: nat, rest: seq<nat>)
    requires Increasing(rest)
    requires forall x | x in rest :: first < x
    ensures Increasing([first] + rest)
  {
    forall i, j | 0 <= i < j < |rest| + 1 ensures ([first] + rest)[i] < ([first] + rest)[j] {
      assert rest[j - 1] in rest;
    }
  }

  lemma {:induction false} AscendingSorts(s: set<nat>)
    ensures Increasing(Ascending(s))
    ensures forall x :: x in Ascending(s) <==> x in s
    decreases |s|
  {
    if s != {} {
      var least := Least(s);
      var rest := s - {least};
      assert |rest| < |s|;
      AscendingSorts(rest);
      IncreasingCons(least, Ascending(rest));
    }
  }

  /** first, first + 1, ... for count values. */
  function Consecutive(first: nat, count: nat): (values: seq<nat>)
    ensures |values| == count && forall i | 0 <= i < count :: values[i] == first + i
  {
    seq(count, i requires 0 <= i < count => first + i)
  }
}
