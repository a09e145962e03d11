/** The order throttle: at most `limit` orders in any rolling window. */
module RateLimiting {
  import opened Wrappers
  import opened Windows

  datatype Config = Config(limit: Option<nat>, window: real) {
    predicate Valid() { window > 0.0 && (limit.Some? ==> limit.value >= 1) }
  }

  /** What `check` and `acquire` say: fine, or why they raise. */
  datatype Verdict = Fits | RetryIn(wait: real) | NeverFits | BadCount

  function Max0(x: real): real { if x > 0.0 then x else 0.0 }

  /** `check` on the stamps that `_expire` left. The stamp it waits for is always there. */
  function Judge(cfg: Config, stamps: seq<real>, now: real, count: int): Verdict {
    if count < 1 then BadCount
    else if cfg.limit.None? then Fits
    else if count > cfg.limit.value then NeverFits
    else if |stamps| + count > cfg.limit.value then
      RetryIn(Max0(stamps[|stamps| + count - cfg.limit.value - 1] + cfg.window - now))
    else Fits
  }

  /** The stamps after `check`: it expires them unless it returned or raised before that. */
  function Checked(cfg: Config, stamps: seq<real>, now: real, count: int): seq<real> {
    if count < 1 || cfg.limit.None? then stamps else Expire(stamps, now, cfg.window)
  }

  function CheckAt(cfg: Config, stamps: seq<real>, now: real, count: int): Verdict {
    Judge(cfg, Checked(cfg, stamps, now, count), now, count)
  }

  /** The stamps after `acquire`, which reads the clock once to check and once to record. */
  function Acquired(cfg: Config, stamps: seq<real>, checked: real, at: real, count: int): seq<real> {
    if cfg.limit.Some? && CheckAt(cfg, stamps, checked, count).Fits?
    then Checked(cfg, stamps, checked, count) + Repeat(at, count)
    else Checked(cfg, stamps, checked, count)
  }

  function RetryAfter(cfg: Config, stamps: seq<real>, now: real): real {
    if cfg.limit.None? then 0.0
    else
      var live := Expire(stamps, now, cfg.window);
      if |live| < cfg.limit.value then 0.0
      else if live == [] then 0.0
      else Max0(live[0] + cfg.window - now)
  }

  // ----- runs -----

  datatype Event =
    | Acquire(count: int, checked: real, at: real)
    | Check(count: int, now: real)
    | Look(now: real)
    | Reset

  /** The stamps in memory, every stamp recorded since the last reset, and when they were last expired. */
  datatype Limiter = Limiter(stamps: seq<real>, history: seq<real>, swept: real)

  function Step(cfg: Config, l: Limiter, e: Event): Limiter {
    match e
    case Acquire(count, checked, at) =>
      var fits := cfg.limit.Some? && CheckAt(cfg, l.stamps, checked, count).Fits?;
      Limiter(Acquired(cfg, l.stamps, checked, at, count),
              if fits then l.history + Repeat(at, count) else l.history,
              if count < 1 then l.swept else checked)
    case Check(count, now) => Limiter(Checked(cfg, l.stamps, now, count), l.history, if count < 1 then l.swept else now)
    case Look(now) => Limiter(if cfg.limit.None? then l.stamps else Expire(l.stamps, now, cfg.window), l.history, now)
    case Reset => Limiter([], [], l.swept)
  }

  function Run(cfg: Config, events: seq<Event>, start: real): Limiter {
    if events == [] then Limiter([], [], start)
    else Step(cfg, Run(cfg, events[..|events| - 1], start), events[|events| - 1])
  }

  function FirstRead(e: Event, otherwise: real): real {
    match e
    case Acquire(_, checked, _) => checked
    case Check(_, now) => now
    case Look(now) => now
    case Reset => otherwise
  }

  function LastRead(e: Event, otherwise: real): real {
    if e.Acquire? then e.at else FirstRead(e, otherwise)
  }

  /** The clock never goes back over the run, which begins at `start` and reaches `Clock(events, start)`. */
  function Clock(events: seq<Event>, start: real): real {
    if events == [] then start
    else LastRead(events[|events| - 1], Clock(events[..|events| - 1], start))
  }

  predicate Steady(events: seq<Event>, start: real) {
    events == [] ||
    var before, e := events[..|events| - 1], events[|events| - 1];
    var reached := Clock(before, start);
    Steady(before, start) && reached <= FirstRead(e, reached) <= LastRead(e, reached)
  }

  /** The stamps are what the history had in the window when they were last expired. */
  ghost predicate Inv(cfg: Config, l: Limiter, now: real) {
    && Sorted(l.history)
    && (forall i | 0 <= i < |l.history| :: l.history[i] <= now)
    && l.swept <= now
    && l.stamps == Recent(l.history, l.swept, cfg.window)
    && (cfg.limit.None? ==> l.history == [])
    && (cfg.limit.Some? ==> Spaced(l.history, cfg.limit.value, cfg.window) && |l.stamps| <= cfg.limit.value)
  }

  /** What any call sees at `now`: exactly the history still in the window. */
  lemma {:induction false} SeesRecent(cfg: Config, l: Limiter, before: real, now: real)
    requires cfg.Valid() && Inv(cfg, l, before) && before <= now
    ensures Expire(l.stamps, now, cfg.window) == Recent(l.history, now, cfg.window)
    ensures |Expire(l.stamps, now, cfg.window)| <= |l.stamps|
  {
    ExpireRecent(l.history, l.swept, now, cfg.window);
    RecentIsSuffix(l.history, l.swept, cfg.window);
    RecentKeepsSorted(l.history, l.swept, cfg.window);
    ExpireIsRecent(l.stamps, now, cfg.window);
    RecentIsSuffix(l.stamps, now, cfg.window);
  }

  lemma AcquireKeepsInv(cfg: Config, l: Limiter, before: real, e: Event)
    requires cfg.Valid() && Inv(cfg, l, before) && e.Acquire? && before <= e.checked <= e.at
    ensures Inv(cfg, Step(cfg, l, e), e.at)
  {
    if e.count >= 1 && cfg.limit.Some? {
      SeesRecent(cfg, l, before, e.checked);
      if Judge(cfg, Expire(l.stamps, e.checked, cfg.window), e.checked, e.count).Fits? {
        AddingKeepsSpacing(l.history, cfg.limit.value, cfg.window, e.checked, e.at, e.count);
        RecentWithNew(l.history, e.checked, e.at, e.count, cfg.window);
      }
    }
  }

  lemma {:induction false} RunKeepsInv(cfg: Config, events: seq<Event>, start: real)
    requires cfg.Valid() && Steady(events, start)
    ensures Inv(cfg, Run(cfg, events, start), Clock(events, start))
    decreases |events|
  {
    if events != [] {
      var before, e := events[..|events| - 1], events[|events| - 1];
      RunKeepsInv(cfg, before, start);
      var l, reached := Run(cfg, before, start), Clock(before, start);
      match e
      case Acquire(_, _, _) => AcquireKeepsInv(cfg, l, reached, e);
      case Check(_, now) => SeesRecent(cfg, l, reached, now);
      case Look(now) => SeesRecent(cfg, l, reached, now);
      case Reset =>
    }
  }

  // ----- main results -----

  /**
   Over any run with a clock that never goes back, every half-open window of the configured length
   holds at most `limit` of all the stamps recorded since the last reset.
   */
  lemma EveryWindowHoldsAtMostLimit(cfg: Config, events: seq<Event>, start: real, from: real)
    requires cfg.Valid() && cfg.limit.Some? && Steady(events, start)
    ensures CountIn(Run(cfg, events, start).history, from, from + cfg.window) <= cfg.limit.value
  {
    RunKeepsInv(cfg, events, start);
    SpacedBoundsEveryWindow(Run(cfg, events, start).history, cfg.limit.value, cfg.window, from);
  }

  /** Whether `check(count)` at `now` passes depends on the stamps still in the window, and nothing else. */
  lemma {:induction false} FitsExactlyWhen(cfg: Config, events: seq<Event>, start: real, now: real, count: int)
    requires cfg.Valid() && cfg.limit.Some? && Steady(events, start) && Clock(events, start) <= now && count >= 1
    ensures CheckAt(cfg, Run(cfg, events, start).stamps, now, count).Fits?
      <==> |Recent(Run(cfg, events, start).history, now, cfg.window)| + count <= cfg.limit.value
  {
    RunKeepsInv(cfg, events, start);
    SeesRecent(cfg, Run(cfg, events, start), Clock(events, start), now);
  }

  /**
   The announced wait is exact: with no further acquires, `check(count)` fails at every time before
   it is over and passes at every time from then on.
   */
  lemma {:induction false} WaitIsExact(cfg: Config, events: seq<Event>, start: real, now: real, count: int, later: real)
    requires cfg.Valid() && Steady(events, start) && Clock(events, start) <= now <= later
    requires CheckAt(cfg, Run(cfg, events, start).stamps, now, count).RetryIn?
    ensures var stamps := Run(cfg, events, start).stamps; var wait := CheckAt(cfg, stamps, now, count).wait;
      && wait > 0.0
      && (CheckAt(cfg, stamps, later, count).Fits? <==> later >= now + wait)
      && (CheckAt(cfg, Checked(cfg, stamps, now, count), later, count).Fits? <==> later >= now + wait)
  {
    RunKeepsInv(cfg, events, start);
    ExactWait(cfg, Run(cfg, events, start), Clock(events, start), now, count, later);
  }

  lemma ExactWait(cfg: Config, l: Limiter, before: real, now: real, count: int, later: real)
    requires cfg.Valid() && Inv(cfg, l, before) && before <= now <= later
    requires CheckAt(cfg, l.stamps, now, count).RetryIn?
    ensures var wait := CheckAt(cfg, l.stamps, now, count).wait;
      && wait > 0.0
      && (CheckAt(cfg, l.stamps, later, count).Fits? <==> later >= now + wait)
      && (CheckAt(cfg, Checked(cfg, l.stamps, now, count), later, count).Fits? <==> later >= now + wait)
  {
    SeesRecent(cfg, l, before, now);
    SeesRecent(cfg, l, before, later);
    ExpireRecent(l.history, now, later, cfg.window);
    FitsWhenLeft(l.history, cfg.limit.value, cfg.window, count, now, later);
  }

  /** `retry_after` announces what `check(1)` does: 0 when a slot is free, else its exact wait. */
  lemma {:induction false} RetryAfterAgreesWithCheck(cfg: Config, events: seq<Event>, start: real, now: real)
    requires cfg.Valid() && Steady(events, start) && Clock(events, start) <= now
    ensures match CheckAt(cfg, Run(cfg, events, start).stamps, now, 1)
      case Fits => RetryAfter(cfg, Run(cfg, events, start).stamps, now) == 0.0
      case RetryIn(wait) => RetryAfter(cfg, Run(cfg, events, start).stamps, now) == wait
      case _ => false
  {
    RunKeepsInv(cfg, events, start);
    if cfg.limit.Some? { SeesRecent(cfg, Run(cfg, events, start), Clock(events, start), now); }
  }

  /**
   What is remembered: an acquire whose count fits beside the recent stamps adds as many stamps, at its second
   clock reading; a reset forgets everything; nothing else adds or forgets any.
   */
  lemma {:induction false} HistoryExactly(cfg: Config, events: seq<Event>, start: real, e: Event)
    requires cfg.Valid() && cfg.limit.Some? && Steady(events + [e], start)
    ensures Steady(events, start)
    ensures var before, after := Run(cfg, events, start).history, Run(cfg, events + [e], start).history;
      after ==
        if e.Reset? then []
        else if e.Acquire? && e.count >= 1 && |Recent(before, e.checked, cfg.window)| + e.count <= cfg.limit.value
        then before + Repeat(e.at, e.count)
        else before
  {
    assert (events + [e])[..|events|] == events;
    if e.Acquire? && e.count >= 1 { FitsExactlyWhen(cfg, events, start, e.checked, e.count); }
  }

  // ----- the limiter itself -----

  class RateLimiter {
    const cfg: Config
    var stamps: seq<real>

    constructor (limit: Option<nat>, window: real)
      requires window > 0.0 && (limit.Some? ==> limit.value >= 1)
      ensures cfg == Config(limit, window) && cfg.Valid() && stamps == Run(cfg, [], 0.0).stamps
    {
      cfg := Config(limit, window);
      stamps := [];
    }

    /** `_expire`: pop from the left while the oldest stamp is out of the window. */
    method DropExpired(now: real)
      modifies this
      ensures stamps == Expire(old(stamps), now, cfg.window)
    {
      var cutoff := now - cfg.window;
      while stamps != [] && stamps[0] <= cutoff
        invariant Expire(stamps, now, cfg.window) == Expire(old(stamps), now, cfg.window)
        decreases |stamps|
      {
        stamps := stamps[1..];
      }
    }

    method CheckCount(count: int, now: real) returns (verdict: Verdict)
      modifies this
      ensures verdict == CheckAt(cfg, old(stamps), now, count)
      ensures stamps == Checked(cfg, old(stamps), now, count)
    {
      if count < 1 {
        return BadCount;
      }
      if cfg.limit.None? {
        return Fits;
      }
      DropExpired(now);
      if count > cfg.limit.value {
        return NeverFits;
      }
      var used := |stamps|;
      if used + count > cfg.limit.value {
        return RetryIn(Max0(stamps[used + count - cfg.limit.value - 1] + cfg.window - now));
      }
      verdict := Fits;
    }

    method AcquireCount(count: int, checked: real, at: real) returns (verdict: Verdict)
      modifies this
      ensures verdict == CheckAt(cfg, old(stamps), checked, count)
      ensures stamps == Acquired(cfg, old(stamps), checked, at, count)
    {
      verdict := CheckCount(count, checked);
      if !verdict.Fits? || cfg.limit.None? {
        return;
      }
      stamps := stamps + Repeat(at, count);
    }

    method Remaining(now: real) returns (slots: Option<int>)
      modifies this
      ensures cfg.limit.None? ==> slots == None && stamps == old(stamps)
      ensures cfg.limit.Some? ==>
        && stamps == Expire(old(stamps), now, cfg.window)
        && slots == Some(if |stamps| < cfg.limit.value then cfg.limit.value - |stamps| else 0)
    {
      if cfg.limit.None? {
        return None;
      }
      DropExpired(now);
      var free := cfg.limit.value - |stamps|;
      slots := Some(if free > 0 then free else 0);
    }

    method TimeToRetry(now: real) returns (wait: real)
      requires cfg.Valid()
      modifies this
      ensures wait == RetryAfter(cfg, old(stamps), now)
      ensures stamps == if cfg.limit.None? then old(stamps) else Expire(old(stamps), now, cfg.window)
    {
      if cfg.limit.None? {
        return 0.0;
      }
      DropExpired(now);
      if |stamps| < cfg.limit.value {
        return 0.0;
      }
      wait := Max0(stamps[0] + cfg.window - now);
    }

    method ForgetAll()
      modifies this
      ensures stamps == []
    {
      stamps := [];
    }
  }
}
