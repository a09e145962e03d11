/** How fast the supervisor may reconnect. Times are in milliseconds. */
module Backoff {
  import opened Wrappers

  const INITIAL_BACKOFF := 1000
  const MAX_BACKOFF := 60000
  const STABLE_SESSION := 60000

  /**
   One round of the supervisor: how long the connection attempt took, how long the session lasted if
   it succeeded, and how much longer than asked the sleep took.
   */
  datatype Round = Round(attempt: nat, lasted: Option<nat>, late: nat)

  predicate Stable(round: Round) {
    round.lasted.Some? && round.lasted.value >= STABLE_SESSION
  }

  function Min(a: int, b: int): int {
    if a < b then a else b
  }

  /** The retry delay after these rounds. */
  function Delay(rounds: seq<Round>): int
    decreases |rounds|, 1
  {
    if rounds == [] then INITIAL_BACKOFF else Min(Slept(rounds) * 2, MAX_BACKOFF)
  }

  /** The wait of the last round: a stable session resets the delay first. */
  function Slept(rounds: seq<Round>): int
    requires rounds != []
    decreases |rounds|, 0
  {
    if Stable(rounds[|rounds| - 1]) then INITIAL_BACKOFF else Delay(rounds[..|rounds| - 1])
  }

  /** The time these rounds took. */
  function Elapsed(rounds: seq<Round>): int {
    if rounds == [] then 0
    else
      var round := rounds[|rounds| - 1];
      Elapsed(rounds[..|rounds| - 1]) + round.attempt + (if round.lasted.Some? then round.lasted.value else 0)
        + Slept(rounds) + round.late
  }

  /** The supervisor's loop. */
  method Supervise(rounds: seq<Round>) returns (waits: seq<int>, clock: int)
    ensures |waits| == |rounds| && forall n | 0 <= n < |rounds| :: waits[n] == Slept(rounds[..n + 1])
    ensures clock == Elapsed(rounds)
  {
    waits, clock := [], 0;
    var delay := INITIAL_BACKOFF;
    for n := 0 to |rounds|
      invariant delay == Delay(rounds[..n]) && clock == Elapsed(rounds[..n]) && |waits| == n
      invariant forall m | 0 <= m < n :: waits[m] == Slept(rounds[..m + 1])
    {
      var round := rounds[n];
      assert rounds[..n + 1][..n] == rounds[..n];
      clock := clock + round.attempt;
      if round.lasted.Some? {
        clock := clock + round.lasted.value;
        if round.lasted.value >= STABLE_SESSION {
          delay := INITIAL_BACKOFF;
        }
      }
      waits := waits + [delay];
      clock := clock + delay + round.late;
      delay := Min(delay * 2, MAX_BACKOFF);
    }
    assert rounds[..|rounds|] == rounds;
  }

  // ----- the delays -----

  /** The session of the round lasted a minute or longer. */
  predicate LastedAMinute(round: Round) {
    round.lasted.Some? && round.lasted.value >= 60_000
  }

  /** The rounds at the end of the list without such a session. */
  function Unstable(rounds: seq<Round>): nat {
    if rounds == [] || LastedAMinute(rounds[|rounds| - 1]) then 0 else 1 + Unstable(rounds[..|rounds| - 1])
  }

  /** A second, doubled `k` times, but at most a minute. */
  function Doubled(k: nat): int {
    if k == 0 then 1000 else if Doubled(k - 1) < 30_000 then 2 * Doubled(k - 1) else 60_000
  }

  ghost predicate EverStable(rounds: seq<Round>) {
    exists n :: 0 <= n < |rounds| && LastedAMinute(rounds[n])
  }

  /** Each wait is a second doubled once per round since the last stable session (or the start). */
  lemma {:induction false} WaitsDouble(rounds: seq<Round>)
    requires rounds != []
    ensures Slept(rounds) == Doubled(if EverStable(rounds) then Unstable(rounds) else |rounds| - 1)
  {
    var rest, last := rounds[..|rounds| - 1], rounds[|rounds| - 1];
    if LastedAMinute(last) {
      assert LastedAMinute(rounds[|rounds| - 1]);
    } else {
      assert EverStable(rounds) <==> EverStable(rest) by {
        if n :| 0 <= n < |rounds| && LastedAMinute(rounds[n]) { assert LastedAMinute(rest[n]); }
        if n :| 0 <= n < |rest| && LastedAMinute(rest[n]) { assert LastedAMinute(rounds[n]); }
      }
      if rest != [] { WaitsDouble(rest); }
    }
  }

  // ----- the rate -----

  /** How far behind ten seconds a wait the clock may be when this is the next delay. */
  function Behind(delay: int): int {
    match delay
    case 1000 => 0
    case 2000 => 9000
    case 4000 => 17000
    case 8000 => 23000
    case 16000 => 25000
    case 32000 => 19000
    case _ => 0
  }

  predicate IsDelay(delay: int) {
    delay in {1000, 2000, 4000, 8000, 16000, 32000, 60000}
  }

  lemma {:induction false} DelaysAreKnown(rounds: seq<Round>)
    ensures IsDelay(Delay(rounds))
  {
    if rounds != [] { DelaysAreKnown(rounds[..|rounds| - 1]); }
  }

  lemma {:induction false} StretchIsPaid(rounds: seq<Round>, a: nat)
    requires a <= |rounds|
    ensures Elapsed(rounds) - Elapsed(rounds[..a]) + Behind(Delay(rounds)) - Behind(Delay(rounds[..a]))
         >= 10_000 * (|rounds| - a)
    decreases |rounds|
  {
    if a == |rounds| {
      assert rounds[..a] == rounds;
    } else {
      var rest := rounds[..|rounds| - 1];
      StretchIsPaid(rest, a);
      DelaysAreKnown(rest);
      assert rest[..a] == rounds[..a];
    }
  }

  /**
   Whatever mix of failures, short and stable sessions: any N waits in a row, with the attempts before
   them, take at least 10 N - 25 seconds.
   */
  lemma {:induction false} ReconnectsAreRateBounded(rounds: seq<Round>, a: nat)
    requires a <= |rounds|
    ensures Elapsed(rounds) - Elapsed(rounds[..a]) >= 10_000 * (|rounds| - a) - 25_000
  {
    StretchIsPaid(rounds, a);
    DelaysAreKnown(rounds);
    DelaysAreKnown(rounds[..a]);
  }

  /** A refusal at once adds nothing but the delay, and doubles it. */
  lemma {:induction false} RefusalAtOnce(rounds: seq<Round>)
    ensures var more := rounds + [Round(0, None, 0)];
      Elapsed(more) == Elapsed(rounds) + Delay(rounds) && Delay(more) == Min(Delay(rounds) * 2, MAX_BACKOFF)
  {
    var more := rounds + [Round(0, None, 0)];
    assert more[..|rounds|] == rounds;
  }

  /** The bound is met: four refusals at once take fifteen seconds. */
  lemma BoundIsTight()
    ensures exists rounds :: |rounds| == 4 && Elapsed(rounds) == 10_000 * |rounds| - 25_000
  {
    var r := Round(0, None, 0);
    RefusalAtOnce([]);
    RefusalAtOnce([] + [r]);
    RefusalAtOnce([] + [r] + [r]);
    RefusalAtOnce([] + [r] + [r] + [r]);
    var four := [] + [r] + [r] + [r] + [r];
    assert |four| == 4 && Elapsed(four) == 15_000;
  }
}
