/** The HTTP client's retry loop, and the longest time one publication can take. */
module Transport {
  import opened Base

  // One HTTP attempt as the client sees it: no response, or a status whose body drained or not.
  datatype Exchange =
    | NoResponse(took: int)
    | Response(status: int, drained: bool, took: int)

  // One turn of the loop; the context may be cancelled while the backoff timer runs.
  datatype Turn = Turn(exchange: Exchange, cancelledAfter: Option<int>)

  datatype Reply = Accepted | BodyError | Rejected(status: int) | Unreachable | Cancelled

  const TIMEOUT: int := 10 * SECOND
  const RETRY: int := 3
  const BACKOFF: int := 100 * MILLISECOND

  predicate Success(e: Exchange) {
    e.Response? && 200 <= e.status < 300
  }

  /** Only a missing response and a drained 5xx response are tried again. */
  predicate Retryable(e: Exchange) {
    e.NoResponse? || (e.status >= 500 && e.drained)
  }

  function Attempts(retry: int): nat {
    if retry < 1 then 1 else retry
  }

  predicate Interrupted(t: Turn, delay: int) {
    t.cancelledAfter.Some? && t.cancelledAfter.value < delay
  }

  /** n attempts of at most `timeout` each with n - 1 growing pauses between them. */
  function WorstCase(n: nat, timeout: int, backoff: int): int {
    if n == 0 then 0
    else if n == 1 then timeout
    else WorstCase(n - 1, timeout, backoff) + backoff * (n - 1) + timeout
  }

  lemma PausesStep(n: nat, backoff: int)
    requires n > 1
    ensures backoff * (n * (n - 1)) == backoff * ((n - 1) * (n - 2)) + 2 * (backoff * (n - 1))
  {
    assert n * (n - 1) == (n - 1) * (n - 2) + 2 * (n - 1);
    assert backoff * (2 * (n - 1)) == 2 * (backoff * (n - 1));
  }

  lemma {:induction false} WorstCaseClosedForm(n: nat, timeout: int, backoff: int)
    ensures 2 * WorstCase(n, timeout, backoff) == 2 * (n * timeout) + backoff * (n * (n - 1))
  {
    if n > 1 {
      WorstCaseClosedForm(n - 1, timeout, backoff);
      assert n * timeout == (n - 1) * timeout + timeout;
      PausesStep(n, backoff);
    }
  }

  /** With NewClient's constants a publication ends within 30.3 seconds. */
  lemma PublicationBound()
    ensures WorstCase(RETRY, TIMEOUT, BACKOFF) == 30_300_000_000
  {
    assert WorstCase(2, TIMEOUT, BACKOFF) == WorstCase(1, TIMEOUT, BACKOFF) + BACKOFF * 1 + TIMEOUT;
  }

  /** What the client makes of one attempt's exchange. */
  function ReplyTo(e: Exchange): Reply {
    match e
    case NoResponse(_) => Unreachable
    case Response(status, drained, _) =>
      if !drained then BodyError else if 200 <= status < 300 then Accepted else Rejected(status)
  }

  /** Time taken by the first n turns and the pauses between them. */
  function Spent(turns: seq<Turn>, n: nat, backoff: int): int
    requires n <= |turns|
  {
    if n == 0 then 0
    else if n == 1 then turns[0].exchange.took
    else Spent(turns, n - 1, backoff) + backoff * (n - 1) + turns[n - 1].exchange.took
  }

  lemma {:induction false} SpentBounded(turns: seq<Turn>, n: nat, timeout: int, backoff: int)
    requires n <= |turns| && timeout >= 0 && backoff >= 0
    requires forall i | 0 <= i < |turns| :: 0 <= turns[i].exchange.took <= timeout
    ensures 0 <= Spent(turns, n, backoff) <= WorstCase(n, timeout, backoff)
  {
    if n > 1 {
      SpentBounded(turns, n - 1, timeout, backoff);
      assert backoff * (n - 1) >= 0;
    }
  }

  /** Turn i failed in a way worth trying again, and its pause ran to the end. */
  predicate GoesOn(turns: seq<Turn>, i: nat, backoff: int)
    requires i < |turns|
  {
    Retryable(turns[i].exchange) && !Interrupted(turns[i], backoff * (i + 1))
  }

  lemma {:induction false} WorstCaseGrows(m: nat, n: nat, timeout: int, backoff: int)
    requires m <= n && timeout >= 0 && backoff >= 0
    ensures 0 <= WorstCase(m, timeout, backoff) <= WorstCase(n, timeout, backoff)
    decreases n
  {
    if n > 0 && m < n {
      WorstCaseGrows(m, n - 1, timeout, backoff);
      assert backoff * (n - 1) >= 0;
    } else if n > 0 {
      WorstCaseGrows(m - 1, n - 1, timeout, backoff);
      assert backoff * (n - 1) >= 0;
    }
  }

  /** Neither the turns so far nor an interrupted pause after them exceed the worst case. */
  lemma Bounded(turns: seq<Turn>, n: nat, attempts: nat, timeout: int, backoff: int, turn: Turn)
    requires 1 <= n <= attempts == |turns| && timeout >= 0 && backoff >= 0 && turn == turns[n - 1]
    requires forall i | 0 <= i < |turns| :: 0 <= turns[i].exchange.took <= timeout
    ensures 0 <= Spent(turns, n, backoff) <= WorstCase(attempts, timeout, backoff)
    ensures n < attempts && Interrupted(turn, backoff * n) ==>
      Spent(turns, n, backoff) + turn.cancelledAfter.value <= WorstCase(attempts, timeout, backoff)
  {
    SpentBounded(turns, n, timeout, backoff);
    WorstCaseGrows(n, attempts, timeout, backoff);
    if n < attempts {
      WorstCaseGrows(n + 1, attempts, timeout, backoff);
      assert WorstCase(n + 1, timeout, backoff) == WorstCase(n, timeout, backoff) + backoff * n + timeout;
    }
  }

  /** The reply belongs to the last attempt made: every earlier attempt was retryable and its
      pause ran to the end, and the loop stopped early only with cause. */
  method Do(retry: int, timeout: int, backoff: int, turns: seq<Turn>) returns (reply: Reply, sent: nat, elapsed: int)
    requires |turns| == Attempts(retry)
    requires timeout >= 0 && backoff >= 0
    requires forall i | 0 <= i < |turns| :: 0 <= turns[i].exchange.took <= timeout
    requires forall i | 0 <= i < |turns| :: turns[i].cancelledAfter.Some? ==> turns[i].cancelledAfter.value >= 0
    ensures 1 <= sent <= |turns| && forall i | 0 <= i < sent - 1 :: GoesOn(turns, i, backoff)
    ensures reply == Cancelled <==>
      Retryable(turns[sent - 1].exchange) && sent < |turns| && Interrupted(turns[sent - 1], backoff * sent)
    ensures reply != Cancelled ==> reply == ReplyTo(turns[sent - 1].exchange)
    ensures reply != Cancelled && sent < |turns| ==> !Retryable(turns[sent - 1].exchange)
    ensures elapsed == Spent(turns, sent, backoff) + if reply == Cancelled then turns[sent - 1].cancelledAfter.value else 0
    ensures 0 <= elapsed <= WorstCase(Attempts(retry), timeout, backoff)
  {
    var attempts := if retry < 1 then 1 else retry;
    var attempt := 1;
    var last := Unreachable;
    sent, elapsed := 0, 0;
    while attempt <= attempts
      invariant 1 <= attempt <= attempts + 1 && sent == attempt - 1
      invariant forall i | 0 <= i < sent && i + 1 < attempts :: GoesOn(turns, i, backoff)
      invariant sent > 0 ==> Retryable(turns[sent - 1].exchange) && last == ReplyTo(turns[sent - 1].exchange)
      invariant elapsed == Spent(turns, sent, backoff) + if 0 < sent < attempts then backoff * sent else 0
    {
      var turn := turns[attempt - 1];
      sent := sent + 1;
      elapsed := elapsed + turn.exchange.took;
      Bounded(turns, sent, attempts, timeout, backoff, turn);
      if turn.exchange.NoResponse? {
        last := Unreachable;
      } else {
        if 200 <= turn.exchange.status < 300 {
          return if turn.exchange.drained then Accepted else BodyError, sent, elapsed;
        }
        last := Rejected(turn.exchange.status);
        if !turn.exchange.drained {
          return BodyError, sent, elapsed;
        }
        if turn.exchange.status < 500 {
          return last, sent, elapsed;
        }
      }
      if attempt < attempts {
        var delay := backoff * attempt;
        if turn.cancelledAfter.Some? && turn.cancelledAfter.value < delay {
          elapsed := elapsed + turn.cancelledAfter.value;
          return Cancelled, sent, elapsed;
        }
        elapsed := elapsed + delay;
      }
      attempt := attempt + 1;
    }
    reply := last;
    Bounded(turns, sent, attempts, timeout, backoff, turns[sent - 1]);
  }
}
