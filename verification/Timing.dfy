/** Backoff, TTL and heartbeat arithmetic (consul.go, config.go). Durations are whole
    nanoseconds. */
module Timing {
  import opened Wrappers
  import opened Types

  const MILLISECOND := 1_000_000
  const SECOND := 1000 * MILLISECOND

  const WATCH_BACKOFF_BASE := 100 * MILLISECOND
  const WATCH_BACKOFF_MAX := 30 * SECOND
  const TTL_HEARTBEAT_FLOOR := SECOND
  const TTL_FLOOR := 15 * SECOND
  const DEFAULT_TTL := 30 * SECOND

  // ---------------------------------------------------------------- backoff

  function Pow2(n: nat): nat {
    if n == 0 then 1 else 2 * Pow2(n - 1)
  }

  function Min(a: int, b: int): int {
    if a < b then a else b
  }

  /** The wait after a failed attempt, with the source's shortcut at nine. */
  function BackoffDuration(attempt: int): int {
    var n := if attempt < 0 then 0 else attempt;
    if n >= 9 then WATCH_BACKOFF_MAX
    else
      var d := WATCH_BACKOFF_BASE * Pow2(n);
      if d > WATCH_BACKOFF_MAX then WATCH_BACKOFF_MAX else d
  }

  lemma {:induction false} Pow2Grows(n: nat, m: nat)
    requires n <= m
    ensures Pow2(n) <= Pow2(m)
  {
    if n < m {
      Pow2Grows(n, m - 1);
    }
  }

  lemma Pow2OfEightAndNine()
    ensures Pow2(8) == 256 && Pow2(9) == 512
  {
    assert Pow2(4) == 16;
    assert Pow2(8) == 2 * Pow2(7) == 4 * Pow2(6) == 8 * Pow2(5) == 16 * Pow2(4);
  }

  /** The cut-off changes nothing: the wait is the capped exponential for every attempt. */
  lemma BackoffIsCappedExponential(attempt: int)
    ensures attempt >= 0 ==> BackoffDuration(attempt) == Min(WATCH_BACKOFF_BASE * Pow2(attempt), WATCH_BACKOFF_MAX)
    ensures attempt <= 0 ==> BackoffDuration(attempt) == WATCH_BACKOFF_BASE
    ensures WATCH_BACKOFF_BASE == 100_000_000 && WATCH_BACKOFF_MAX == 30_000_000_000
  {
    if attempt >= 9 {
      Pow2OfEightAndNine();
      Pow2Grows(9, attempt);
    }
  }

  /** What k consecutive failures wait in all. */
  function TotalWait(k: nat): int {
    if k == 0 then 0 else TotalWait(k - 1) + BackoffDuration(k - 1)
  }

  lemma UncappedBackoff(n: nat)
    requires n < 9
    ensures BackoffDuration(n) == WATCH_BACKOFF_BASE * Pow2(n)
    ensures WATCH_BACKOFF_BASE * Pow2(n + 1) == 2 * (WATCH_BACKOFF_BASE * Pow2(n))
  {
    Pow2OfEightAndNine();
    Pow2Grows(n, 8);
  }

  lemma {:induction false} TotalWaitShort(k: nat)
    requires k <= 9
    ensures TotalWait(k) == WATCH_BACKOFF_BASE * Pow2(k) - WATCH_BACKOFF_BASE
  {
    if k > 0 {
      TotalWaitShort(k - 1);
      UncappedBackoff(k - 1);
    }
  }

  /** The exact length of an outage's waits, however long it lasts. */
  lemma {:induction false} TotalWaitExactly(k: nat)
    ensures k <= 9 ==> TotalWait(k) == WATCH_BACKOFF_BASE * Pow2(k) - WATCH_BACKOFF_BASE
    ensures k >= 9 ==> TotalWait(k) == 51_100 * MILLISECOND + WATCH_BACKOFF_MAX * (k - 9)
  {
    if k <= 9 {
      TotalWaitShort(k);
      Pow2OfEightAndNine();
    } else {
      TotalWaitExactly(k - 1);
    }
  }

  /** What meets one turn of the RegisterAsync loop: is the base context cancelled when
      the turn begins, would Register succeed, and, if not, after how long is the sleep
      that follows cut short (None: it runs out). */
  datatype Turn = Turn(closed: bool, succeeds: bool, woken: Option<nat>)

  /** How the loop ends, if the turns do not run out first. */
  datatype Ending = Registered | FoundClosed | Woken | StillTrying

  /** The turn ends in another one. */
  predicate Repeats(t: Turn) {
    !t.closed && !t.succeeds && t.woken.None?
  }

  /** The RegisterAsync loop against its turns: n of them repeat, the next one says how it
      ends. It has called Register once in each, and not at all in a turn that finds the
      base context cancelled, and has waited the partial sum of the backoffs, plus what it
      slept of the last one if it was woken. */
  method RegisterAsyncLoop(turns: seq<Turn>) returns (ending: Ending, n: nat, calls: nat, waited: int)
    requires forall i :: 0 <= i < |turns| ==> turns[i].woken.Some? ==> turns[i].woken.value <= BackoffDuration(i)
    ensures n <= |turns|
    ensures forall i :: 0 <= i < n ==> !turns[i].closed && !turns[i].succeeds && turns[i].woken.None?
    ensures n < |turns| ==>
              var t := turns[n];
              && !Repeats(t)
              && ending == (if t.closed then FoundClosed else if t.succeeds then Registered else Woken)
              && calls == n + (if t.closed then 0 else 1)
    ensures n == |turns| ==> ending == StillTrying && calls == n
    ensures TotalWait(n) <= waited <= TotalWait(n + 1)
    ensures waited - TotalWait(n) == if ending.Woken? then turns[n].woken.value else 0
  {
    calls, waited := 0, 0;
    for attempt := 0 to |turns|
      invariant forall i :: 0 <= i < attempt ==> Repeats(turns[i])
      invariant calls == attempt && waited == TotalWait(attempt)
    {
      var t := turns[attempt];
      if t.closed {
        return FoundClosed, attempt, calls, waited;
      }
      calls := calls + 1;
      if t.succeeds {
        return Registered, attempt, calls, waited;
      }
      if t.woken.Some? {
        return Woken, attempt, calls, waited + t.woken.value;
      }
      waited := waited + BackoffDuration(attempt);
    }
    return StillTrying, |turns|, calls, waited;
  }

  // ---------------------------------------------------------------- TTL

  /** The TTL a registration made through the Manager carries. */
  function TtlWithDefaults(raw: TtlText): Result<TtlText, Error> {
    match raw
    case NoTtl => Success(Ttl(DEFAULT_TTL))
    case BlankTtl => Success(Ttl(DEFAULT_TTL))
    case BadTtl(_) => Failure(ErrInvalidTTL)
    case Ttl(d) => Success(Ttl(if d < TTL_FLOOR then TTL_FLOOR else d))
  }

  /** Go's integer division truncates toward zero. */
  function Half(d: int): int {
    if d >= 0 then d / 2 else -((-d) / 2)
  }

  /** The interval between the heartbeats of a TTL check. */
  function HeartbeatInterval(ttl: TtlText): int {
    if ttl.Ttl? && Half(ttl.nanos) > TTL_HEARTBEAT_FLOOR then Half(ttl.nanos) else TTL_HEARTBEAT_FLOOR
  }

  /** The tick times of the successful passes, as multiples of the interval: between two
      that follow each other at most one tick was missed. */
  predicate AtMostOneMissed(ticks: seq<nat>) {
    forall i :: 0 < i < |ticks| ==> ticks[i - 1] < ticks[i] <= ticks[i - 1] + 2
  }

  /** The interval is half the TTL, rounded down, but never below one second; a TTL that
      does not parse gets that second. */
  lemma IntervalIsHalf(ttl: TtlText)
    ensures var h := HeartbeatInterval(ttl);
            && h >= 1_000_000_000
            && (ttl.Ttl? && ttl.nanos >= 2_000_000_000 ==> 2 * h <= ttl.nanos <= 2 * h + 1)
            && (ttl.Ttl? && ttl.nanos < 2_000_000_000 ==> h == 1_000_000_000)
            && (!ttl.Ttl? ==> h == 1_000_000_000)
  {
  }

  /** One missed heartbeat is survivable for a TTL exactly when the TTL is at least two
      seconds: the successful passes are then never more than one TTL apart. */
  lemma OneMissedTickSurvivesExactly(d: int)
    ensures (forall ticks: seq<nat>, i: int :: AtMostOneMissed(ticks) && 0 < i < |ticks| ==>
               (ticks[i] - ticks[i - 1]) * HeartbeatInterval(Ttl(d)) <= d)
            <==> d >= 2 * SECOND
  {
    var h := HeartbeatInterval(Ttl(d));
    if d >= 2 * SECOND {
      assert 2 * h <= d && h > 0;
      forall ticks: seq<nat>, i: int | AtMostOneMissed(ticks) && 0 < i < |ticks|
        ensures (ticks[i] - ticks[i - 1]) * h <= d
      {
        var gap := ticks[i] - ticks[i - 1];
        assert gap == 1 || gap == 2;
      }
    } else {
      assert h == TTL_HEARTBEAT_FLOOR;
      var ticks: seq<nat> := [0, 2];
      assert AtMostOneMissed(ticks) && ticks[1] - ticks[0] == 2;
      assert (ticks[1] - ticks[0]) * h > d;
    }
  }

  /** Every TTL the Manager accepts is a fixed point of the normalisation and lies on
      the safe side of that bound; only text that does not parse is refused. */
  lemma AcceptedTtlsAreSafe(raw: TtlText)
    ensures TtlWithDefaults(raw).Failure? <==> raw.BadTtl?
    ensures TtlWithDefaults(raw).Success? ==>
              var t := TtlWithDefaults(raw).value;
              && t.Ttl? && t.nanos >= TTL_FLOOR == 15_000_000_000
              && TtlWithDefaults(t) == Success(t)
              && (raw.NoTtl? || raw.BlankTtl? ==> t.nanos == 30_000_000_000)
              && (raw.Ttl? && raw.nanos < TTL_FLOOR ==> t.nanos == TTL_FLOOR)
              && (raw.Ttl? && raw.nanos >= TTL_FLOOR ==> t == raw)
              && (forall ticks: seq<nat>, i: int :: AtMostOneMissed(ticks) && 0 < i < |ticks| ==>
                    (ticks[i] - ticks[i - 1]) * HeartbeatInterval(t) <= t.nanos)
  {
    if TtlWithDefaults(raw).Success? {
      OneMissedTickSurvivesExactly(TtlWithDefaults(raw).value.nanos);
    }
  }
}
