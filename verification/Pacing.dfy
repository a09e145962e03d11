/**
 IBKR's pacing of historical data: one long window over every paced request and one burst window
 per (contract, exchange, kind, data type), kept in two structures that must agree.
 */
module Pacing {
  import opened Wrappers
  import opened Windows

  const LONG_WINDOW := 600.0
  const LONG_MAX := 60
  const BURST_WINDOW := 2.0
  const BURST_MAX := 5
  const SMALL_BAR_SECONDS := 30
  const IDENTICAL_TTL := 15.0

  datatype Key = Key(conId: int, exchange: string, kind: string, whatToShow: string)

  /** The deque of all stamps and the deques per burst key. */
  datatype Pacer = Pacer(window: seq<real>, bursts: map<Key, seq<real>>)

  datatype Verdict = Admitted | LongWait(wait: real) | BurstWait(wait: real)

  // ----- admit -----

  function Swept(p: Pacer, now: real): Pacer {
    Pacer(Expire(p.window, now, LONG_WINDOW),
          map k | k in p.bursts && Expire(p.bursts[k], now, BURST_WINDOW) != []
            :: Expire(p.bursts[k], now, BURST_WINDOW))
  }

  function BurstOf(p: Pacer, key: Key): seq<real> {
    if key in p.bursts then p.bursts[key] else []
  }

  /**
   The decision on the swept queues, the long one and the key's own. The stamps it waits for exist
   because the weight fits an empty window.
   */
  function Judge(window: seq<real>, burst: seq<real>, now: real, weight: nat): Verdict
    requires 1 <= weight <= BURST_MAX
  {
    if |window| + weight > LONG_MAX then
      LongWait(LONG_WINDOW - (now - window[|window| + weight - LONG_MAX - 1]))
    else if |burst| + weight > BURST_MAX then
      BurstWait(BURST_WINDOW - (now - burst[|burst| + weight - BURST_MAX - 1]))
    else Admitted
  }

  datatype Request = Request(now: real, key: Key, weight: nat)

  predicate Paced(r: Request) { 1 <= r.weight <= BURST_MAX }

  function Added(p: Pacer, r: Request): Pacer {
    Pacer(p.window + Repeat(r.now, r.weight), p.bursts[r.key := BurstOf(p, r.key) + Repeat(r.now, r.weight)])
  }

  function Admit(p: Pacer, r: Request): (Pacer, Verdict)
    requires Paced(r)
  {
    var swept := Swept(p, r.now);
    var verdict := Judge(swept.window, BurstOf(swept, r.key), r.now, r.weight);
    (if verdict.Admitted? then Added(swept, r) else swept, verdict)
  }

  // ----- what the queues are, in terms of everything ever admitted -----

  /** One unit of admitted weight. */
  datatype Unit = Unit(at: real, key: Key)

  function Times(h: seq<Unit>): seq<real> {
    if h == [] then [] else [h[0].at] + Times(h[1..])
  }

  /** The stamps of one burst key, in order. */
  function TimesOf(h: seq<Unit>, key: Key): seq<real> {
    if h == [] then []
    else (if h[0].key == key then [h[0].at] else []) + TimesOf(h[1..], key)
  }

  function Units(now: real, key: Key, weight: nat): seq<Unit> {
    seq(weight, _ => Unit(now, key))
  }

  ghost predicate UnitsSorted(h: seq<Unit>) {
    forall i, j | 0 <= i < j < |h| :: h[i].at <= h[j].at
  }

  /**
   The long queue is the last 600 s of the history, and the burst queues are the last 2 s of it
   split by key, with no queue for a key that has none.
   */
  ghost predicate Mirrors(p: Pacer, h: seq<Unit>, swept: real) {
    && p.window == Recent(Times(h), swept, LONG_WINDOW)
    && (forall k :: BurstOf(p, k) == Recent(TimesOf(h, k), swept, BURST_WINDOW))
    && (forall k <- p.bursts :: p.bursts[k] != [])
  }

  lemma {:induction false} TimesBasics(h: seq<Unit>)
    ensures |Times(h)| == |h| && forall i | 0 <= i < |h| :: Times(h)[i] == h[i].at
  {
    if h != [] { TimesBasics(h[1..]); }
  }

  lemma {:induction false} TimesOfMembers(h: seq<Unit>, key: Key)
    ensures forall x | x in TimesOf(h, key) :: exists i :: 0 <= i < |h| && h[i].at == x
    ensures UnitsSorted(h) ==> Sorted(TimesOf(h, key))
  {
    if h != [] {
      TimesOfMembers(h[1..], key);
      var rest := TimesOf(h[1..], key);
      forall x | x in TimesOf(h, key) ensures exists i :: 0 <= i < |h| && h[i].at == x {
        if x in rest {
          var i :| 0 <= i < |h[1..]| && h[1..][i].at == x;
          assert h[i + 1].at == x;
        } else {
          assert h[0].at == x;
        }
      }
      if UnitsSorted(h) {
        forall j | 0 <= j < |rest| ensures h[0].at <= rest[j] {
          assert rest[j] in rest;
          var i :| 0 <= i < |h[1..]| && h[1..][i].at == rest[j];
          assert h[i + 1].at == rest[j];
        }
      }
    }
  }

  lemma {:induction false} TimesConcat(a: seq<Unit>, b: seq<Unit>)
    ensures Times(a + b) == Times(a) + Times(b)
  {
    if a == [] {
      assert a + b == b;
    } else {
      assert (a + b)[1..] == a[1..] + b;
      TimesConcat(a[1..], b);
    }
  }

  lemma {:induction false} TimesOfConcat(a: seq<Unit>, b: seq<Unit>, key: Key)
    ensures TimesOf(a + b, key) == TimesOf(a, key) + TimesOf(b, key)
  {
    if a == [] {
      assert a + b == b;
    } else {
      assert (a + b)[1..] == a[1..] + b;
      TimesOfConcat(a[1..], b, key);
    }
  }

  lemma {:induction false} TimesOfUnits(now: real, key: Key, weight: nat, other: Key)
    ensures Times(Units(now, key, weight)) == Repeat(now, weight)
    ensures TimesOf(Units(now, key, weight), other) == if other == key then Repeat(now, weight) else []
  {
    if weight > 0 {
      assert Units(now, key, weight)[1..] == Units(now, key, weight - 1);
      assert Repeat(now, weight) == [now] + Repeat(now, weight - 1);
      TimesOfUnits(now, key, weight - 1, other);
    }
  }

  function Grown(h: seq<Unit>, r: Request): seq<Unit> {
    h + Units(r.now, r.key, r.weight)
  }

  /** What admitting adds to each list of stamps: to the whole, and to the key's own. */
  lemma {:induction false} GrownTimes(h: seq<Unit>, r: Request, k: Key)
    ensures Times(Grown(h, r)) == Times(h) + Repeat(r.now, r.weight)
    ensures TimesOf(Grown(h, r), k) == if k == r.key then TimesOf(h, k) + Repeat(r.now, r.weight) else TimesOf(h, k)
  {
    TimesConcat(h, Units(r.now, r.key, r.weight));
    TimesOfConcat(h, Units(r.now, r.key, r.weight), k);
    TimesOfUnits(r.now, r.key, r.weight, k);
    assert TimesOf(h, k) + [] == TimesOf(h, k);
  }

  lemma {:induction false} SortedTimes(h: seq<Unit>)
    requires UnitsSorted(h)
    ensures Sorted(Times(h))
  {
    TimesBasics(h);
  }

  lemma SweptMirrors(p: Pacer, h: seq<Unit>, before: real, now: real)
    requires UnitsSorted(h) && Mirrors(p, h, before) && before <= now
    ensures Mirrors(Swept(p, now), h, now)
  {
    SortedTimes(h);
    ExpireRecent(Times(h), before, now, LONG_WINDOW);
    var swept := Swept(p, now);
    forall k ensures BurstOf(swept, k) == Recent(TimesOf(h, k), now, BURST_WINDOW) {
      TimesOfMembers(h, k);
      ExpireRecent(TimesOf(h, k), before, now, BURST_WINDOW);
      assert BurstOf(swept, k) == Expire(BurstOf(p, k), now, BURST_WINDOW);
    }
  }

  lemma AddedMirrors(p: Pacer, h: seq<Unit>, r: Request)
    requires Mirrors(p, h, r.now) && r.weight >= 1
    ensures Mirrors(Added(p, r), Grown(h, r), r.now)
  {
    GrownTimes(h, r, r.key);
    RecentWithNew(Times(h), r.now, r.now, r.weight, LONG_WINDOW);
    forall k ensures BurstOf(Added(p, r), k) == Recent(TimesOf(Grown(h, r), k), r.now, BURST_WINDOW) {
      GrownTimes(h, r, k);
      assert BurstOf(p, k) == Recent(TimesOf(h, k), r.now, BURST_WINDOW);
      if k == r.key { RecentWithNew(TimesOf(h, k), r.now, r.now, r.weight, BURST_WINDOW); }
    }
  }

  // ----- runs -----

  /** The clock never goes back, and every weight is one a request can have. */
  predicate Steady(run: seq<Request>, start: real) {
    forall i | 0 <= i < |run| ::
      Paced(run[i]) && start <= run[i].now && forall j | 0 <= j < i :: run[j].now <= run[i].now
  }

  function LastNow(run: seq<Request>, start: real): real {
    if run == [] then start else run[|run| - 1].now
  }

  /** The queues after the run, and everything it admitted. */
  function Run(run: seq<Request>, start: real): (Pacer, seq<Unit>)
    requires Steady(run, start)
  {
    if run == [] then (Pacer([], map[]), [])
    else
      var (p, h) := Run(run[..|run| - 1], start);
      var r := run[|run| - 1];
      var (next, verdict) := Admit(p, r);
      (next, if verdict.Admitted? then Grown(h, r) else h)
  }

  ghost predicate Inv(p: Pacer, h: seq<Unit>, now: real) {
    && UnitsSorted(h)
    && (forall i | 0 <= i < |h| :: h[i].at <= now)
    && Mirrors(p, h, now)
    && Spaced(Times(h), LONG_MAX, LONG_WINDOW)
    && (forall k :: Spaced(TimesOf(h, k), BURST_MAX, BURST_WINDOW))
  }

  lemma {:induction false} GrownSpaced(p: Pacer, h: seq<Unit>, r: Request, k: Key)
    requires Inv(p, h, r.now) && Paced(r) && Judge(p.window, BurstOf(p, r.key), r.now, r.weight).Admitted?
    ensures Spaced(TimesOf(Grown(h, r), k), BURST_MAX, BURST_WINDOW)
  {
    GrownTimes(h, r, k);
    assert Spaced(TimesOf(h, k), BURST_MAX, BURST_WINDOW);
    if k == r.key {
      assert BurstOf(p, k) == Recent(TimesOf(h, k), r.now, BURST_WINDOW);
      TimesOfMembers(h, k);
      forall i | 0 <= i < |TimesOf(h, k)| ensures TimesOf(h, k)[i] <= r.now {
        assert TimesOf(h, k)[i] in TimesOf(h, k);
      }
      AddingKeepsSpacing(TimesOf(h, k), BURST_MAX, BURST_WINDOW, r.now, r.now, r.weight);
    }
  }

  lemma AdmittedKeepsInv(p: Pacer, h: seq<Unit>, r: Request)
    requires Inv(p, h, r.now) && Paced(r) && Judge(p.window, BurstOf(p, r.key), r.now, r.weight).Admitted?
    ensures Inv(Added(p, r), Grown(h, r), r.now)
  {
    AddedMirrors(p, h, r);
    GrownTimes(h, r, r.key);
    TimesBasics(h);
    AddingKeepsSpacing(Times(h), LONG_MAX, LONG_WINDOW, r.now, r.now, r.weight);
    GrownUnits(h, r);
    forall k ensures Spaced(TimesOf(Grown(h, r), k), BURST_MAX, BURST_WINDOW) {
      GrownSpaced(p, h, r, k);
    }
  }

  lemma GrownUnits(h: seq<Unit>, r: Request)
    requires UnitsSorted(h) && forall i | 0 <= i < |h| :: h[i].at <= r.now
    ensures UnitsSorted(Grown(h, r)) && forall i | 0 <= i < |Grown(h, r)| :: Grown(h, r)[i].at <= r.now
  {
  }

  lemma {:induction false} RunKeepsInv(run: seq<Request>, start: real)
    requires Steady(run, start)
    ensures Inv(Run(run, start).0, Run(run, start).1, LastNow(run, start))
    decreases |run|
  {
    if run != [] {
      var before, r := run[..|run| - 1], run[|run| - 1];
      var (p, h) := Run(before, start);
      RunKeepsInv(before, start);
      SweptMirrors(p, h, LastNow(before, start), r.now);
      var swept := Swept(p, r.now);
      if Judge(swept.window, BurstOf(swept, r.key), r.now, r.weight).Admitted? {
        AdmittedKeepsInv(swept, h, r);
      }
    }
  }

  // ----- main results -----

  /**
   Over any run, every 600 s half-open window holds total weight at most 60 and every 2 s one at
   most 5 for the same key, counting everything ever admitted.
   */
  lemma EveryWindowIsPaced(run: seq<Request>, start: real, from: real, key: Key)
    requires Steady(run, start)
    ensures CountIn(Times(Run(run, start).1), from, from + 600.0) <= 60
    ensures CountIn(TimesOf(Run(run, start).1, key), from, from + 2.0) <= 5
  {
    RunKeepsInv(run, start);
    var h := Run(run, start).1;
    SortedTimes(h);
    TimesOfMembers(h, key);
    SpacedBoundsEveryWindow(Times(h), LONG_MAX, LONG_WINDOW, from);
    SpacedBoundsEveryWindow(TimesOf(h, key), BURST_MAX, BURST_WINDOW, from);
  }

  /** The two structures agree after every run, refused requests included. */
  lemma {:induction false} QueuesMirrorTheHistory(run: seq<Request>, start: real)
    requires Steady(run, start)
    ensures Mirrors(Run(run, start).0, Run(run, start).1, LastNow(run, start))
  {
    RunKeepsInv(run, start);
  }

  /** What a request is told right after the run. */
  function Ask(run: seq<Request>, start: real, r: Request): Verdict
    requires Steady(run, start) && Paced(r)
  {
    Admit(Run(run, start).0, r).1
  }

  /** The answer depends on what was admitted before, and on nothing else. */
  lemma {:induction false} AskSeesTheHistory(run: seq<Request>, start: real, r: Request)
    requires Steady(run, start) && Paced(r) && LastNow(run, start) <= r.now
    ensures var h := Run(run, start).1;
      Ask(run, start, r) == JudgeAt(Times(h), TimesOf(h, r.key), r.now, r.weight)
  {
    RunKeepsInv(run, start);
    var (p, h) := Run(run, start);
    SweptMirrors(p, h, LastNow(run, start), r.now);
    assert BurstOf(Swept(p, r.now), r.key) == Recent(TimesOf(h, r.key), r.now, BURST_WINDOW);
  }

  lemma {:induction false} HistorySorted(run: seq<Request>, start: real, key: Key)
    requires Steady(run, start)
    ensures Sorted(Times(Run(run, start).1)) && Sorted(TimesOf(Run(run, start).1, key))
  {
    RunKeepsInv(run, start);
    SortedTimes(Run(run, start).1);
    TimesOfMembers(Run(run, start).1, key);
  }

  /**
   A burst refusal's wait is the exact first admissible time: with nothing else admitted, the
   request is refused before it and admitted from then on.
   */
  lemma BurstWaitIsExact(run: seq<Request>, start: real, r: Request, later: real)
    requires Steady(run, start) && Paced(r) && LastNow(run, start) <= r.now <= later
    requires Ask(run, start, r).BurstWait?
    ensures Ask(run, start, r).wait > 0.0
    ensures Ask(run, start, r.(now := later)).Admitted? <==> later >= r.now + Ask(run, start, r).wait
  {
    var h := Run(run, start).1;
    HistorySorted(run, start, r.key);
    AskSeesTheHistory(run, start, r);
    AskSeesTheHistory(run, start, r.(now := later));
    FitsWhenLeft(TimesOf(h, r.key), BURST_MAX, BURST_WINDOW, r.weight, r.now, later);
    RecentShrinks(Times(h), r.now, later, LONG_WINDOW);
  }

  /** A long-window refusal's wait is exact for the long window, so nothing is admitted before it. */
  lemma LongWaitIsExactForItsWindow(run: seq<Request>, start: real, r: Request, later: real)
    requires Steady(run, start) && Paced(r) && LastNow(run, start) <= r.now <= later
    requires Ask(run, start, r).LongWait?
    ensures Ask(run, start, r).wait > 0.0
    ensures !Ask(run, start, r.(now := later)).LongWait? <==> later >= r.now + Ask(run, start, r).wait
    ensures Ask(run, start, r.(now := later)).Admitted? ==> later >= r.now + Ask(run, start, r).wait
  {
    var h := Run(run, start).1;
    HistorySorted(run, start, r.key);
    AskSeesTheHistory(run, start, r);
    LongWaitOn(Times(h), TimesOf(h, r.key), r.now, r.weight, later);
    AskSeesTheHistory(run, start, r.(now := later));
  }

  /** When a long-window wait is over, the request passes if and only if its burst window has room. */
  lemma {:induction false} AfterTheLongWaitTheBurstDecides(run: seq<Request>, start: real, r: Request, due: real)
    requires Steady(run, start) && Paced(r) && LastNow(run, start) <= r.now
    requires Ask(run, start, r).LongWait? && due == r.now + Ask(run, start, r).wait
    ensures Ask(run, start, r.(now := due)).Admitted? <==>
      |Recent(TimesOf(Run(run, start).1, r.key), due, BURST_WINDOW)| + r.weight <= BURST_MAX
  {
    var h := Run(run, start).1;
    HistorySorted(run, start, r.key);
    AskSeesTheHistory(run, start, r);
    LongWaitOn(Times(h), TimesOf(h, r.key), r.now, r.weight, due);
    AskSeesTheHistory(run, start, r.(now := due));
  }

  function JudgeAt(long: seq<real>, burst: seq<real>, now: real, weight: nat): Verdict
    requires 1 <= weight <= BURST_MAX
  {
    Judge(Recent(long, now, LONG_WINDOW), Recent(burst, now, BURST_WINDOW), now, weight)
  }

  lemma {:induction false} LongWaitOn(long: seq<real>, burst: seq<real>, now: real, weight: nat, later: real)
    requires Sorted(long) && 1 <= weight <= BURST_MAX && JudgeAt(long, burst, now, weight).LongWait?
    ensures JudgeAt(long, burst, now, weight).wait > 0.0
    ensures later >= now ==>
      && (!JudgeAt(long, burst, later, weight).LongWait? <==> later >= now + JudgeAt(long, burst, now, weight).wait)
      && (JudgeAt(long, burst, later, weight).Admitted? <==>
            && !JudgeAt(long, burst, later, weight).LongWait?
            && |Recent(burst, later, BURST_WINDOW)| + weight <= BURST_MAX)
  {
    FitsWhenLeft(long, LONG_MAX, LONG_WINDOW, weight, now, now);
    if later >= now {
      FitsWhenLeft(long, LONG_MAX, LONG_WINDOW, weight, now, later);
    }
  }

  // ----- a run after which the long wait falls short -----

  /** The key whose burst window is busy, and the keys of the requests before. */
  const ASKING := Key(-1, "SMART", "bars", "TRADES")

  function OtherKey(i: nat): Key {
    Key(i, "SMART", "bars", "TRADES")
  }

  /** `n` requests of different keys at 0 s. */
  function EarlyRequests(n: nat): seq<Request> {
    if n == 0 then [] else EarlyRequests(n - 1) + [Request(0.0, OtherKey(n - 1), 1)]
  }

  /** `n` of them, then `m` requests of one key at 599 s. */
  function BusyRequests(n: nat, m: nat): seq<Request> {
    if m == 0 then EarlyRequests(n) else BusyRequests(n, m - 1) + [Request(599.0, ASKING, 1)]
  }

  lemma {:induction false} AdmittedNext(run: seq<Request>, start: real, r: Request)
    requires Steady(run, start) && Paced(r) && LastNow(run, start) <= r.now && start <= r.now
    requires forall i | 0 <= i < |run| :: run[i].now <= r.now
    requires Ask(run, start, r).Admitted?
    ensures Steady(run + [r], start)
    ensures Times(Run(run + [r], start).1) == Times(Run(run, start).1) + Repeat(r.now, r.weight)
    ensures forall k :: TimesOf(Run(run + [r], start).1, k)
                     == TimesOf(Run(run, start).1, k) + if k == r.key then Repeat(r.now, r.weight) else []
  {
    var more, h := run + [r], Run(run, start).1;
    assert more[..|run|] == run;
    assert Run(more, start).1 == Grown(h, r);
    forall k ensures TimesOf(Grown(h, r), k) == TimesOf(h, k) + if k == r.key then Repeat(r.now, r.weight) else [] {
      GrownTimes(h, r, k);
      assert TimesOf(h, k) + [] == TimesOf(h, k);
    }
    GrownTimes(h, r, r.key);
  }

  /** A run from 0 s with nothing after `end`, that admitted stamps `all`, of which `own` for `key`. */
  ghost predicate TookIn(run: seq<Request>, end: real, all: seq<real>, key: Key, own: seq<real>) {
    && Steady(run, 0.0) && (forall i | 0 <= i < |run| :: run[i].now <= end)
    && Times(Run(run, 0.0).1) == all && TimesOf(Run(run, 0.0).1, key) == own
  }

  /** A request that still fits beside what is recent is admitted. */
  lemma RoomLeft(run: seq<Request>, end: real, all: seq<real>, r: Request, own: seq<real>)
    requires TookIn(run, end, all, r.key, own) && 0.0 <= end <= r.now && r.weight == 1
    requires |all| < LONG_MAX && |own| < BURST_MAX
    ensures Ask(run, 0.0, r).Admitted?
  {
    AskSeesTheHistory(run, 0.0, r);
    FewerRecent(all, r.now, LONG_WINDOW);
    FewerRecent(own, r.now, BURST_WINDOW);
  }

  lemma {:induction false} FewerRecent(s: seq<real>, now: real, window: real)
    ensures |Recent(s, now, window)| <= |s|
  {
    if s != [] { FewerRecent(s[1..], now, window); }
  }

  lemma TookInNext(run: seq<Request>, end: real, all: seq<real>, r: Request, mine: seq<real>, key: Key, own: seq<real>)
    requires TookIn(run, end, all, r.key, mine) && TookIn(run, end, all, key, own)
    requires 0.0 <= end <= r.now && r.weight == 1 && |all| < LONG_MAX && |mine| < BURST_MAX
    ensures TookIn(run + [r], r.now, all + [r.now], key, own + if key == r.key then [r.now] else [])
  {
    RoomLeft(run, end, all, r, mine);
    AdmittedNext(run, 0.0, r);
    assert Repeat(r.now, 1) == [r.now];
  }

  lemma EarlyNext(run: seq<Request>, n: nat, r: Request, key: Key)
    requires n < 55 && r.now == 0.0 && r.weight == 1 && key != r.key
    requires TookIn(run, 0.0, Repeat(0.0, n), r.key, []) && TookIn(run, 0.0, Repeat(0.0, n), key, [])
    ensures TookIn(run + [r], 0.0, Repeat(0.0, n + 1), key, [])
  {
    TookInNext(run, 0.0, Repeat(0.0, n), r, [], key, []);
    assert Repeat(0.0, n) + [0.0] == Repeat(0.0, n + 1);
  }

  lemma {:induction false} EarlyRun(n: nat, key: Key)
    requires n <= 55 && (key.conId < 0 || key.conId >= n)
    ensures TookIn(EarlyRequests(n), 0.0, Repeat(0.0, n), key, [])
  {
    if n > 0 {
      EarlyRun(n - 1, key);
      EarlyRun(n - 1, OtherKey(n - 1));
      EarlyNext(EarlyRequests(n - 1), n - 1, Request(0.0, OtherKey(n - 1), 1), key);
    }
  }

  /** What the run admitted before `m` requests of the key that asks, and those. */
  ghost predicate Busy(run: seq<Request>, m: nat) {
    TookIn(run, 599.0, Repeat(0.0, 55) + Repeat(599.0, m), ASKING, Repeat(599.0, m))
  }

  lemma BusyNext(run: seq<Request>, m: nat, r: Request)
    requires m < 5 && r == Request(599.0, ASKING, 1) && Busy(run, m)
    ensures Busy(run + [r], m + 1)
  {
    var before := Repeat(0.0, 55) + Repeat(599.0, m);
    TookInNext(run, 599.0, before, r, Repeat(599.0, m), ASKING, Repeat(599.0, m));
    assert Repeat(599.0, m) + [599.0] == Repeat(599.0, m + 1);
    assert before + [599.0] == Repeat(0.0, 55) + Repeat(599.0, m + 1);
  }

  lemma BusyStart(run: seq<Request>)
    requires TookIn(run, 0.0, Repeat(0.0, 55), ASKING, [])
    ensures Busy(run, 0)
  {
    assert Repeat(0.0, 55) + Repeat(599.0, 0) == Repeat(0.0, 55) && Repeat(599.0, 0) == [];
  }

  lemma {:induction false} BusyRun(n: nat, m: nat)
    requires n == 55 && m <= 5
    ensures Busy(BusyRequests(n, m), m)
    decreases m
  {
    if m == 0 {
      EarlyRun(n, ASKING);
      BusyStart(EarlyRequests(n));
    } else {
      BusyRun(n, m - 1);
      BusyNext(BusyRequests(n, m - 1), m - 1, Request(599.0, ASKING, 1));
    }
  }

  lemma {:induction false} BusyQueues(early: seq<real>, late: seq<real>)
    requires (forall i | 0 <= i < |early| :: early[i] == 0.0) && (forall i | 0 <= i < |late| :: late[i] == 599.0)
    ensures Recent(early + late, 599.5, LONG_WINDOW) == early + late
    ensures Recent(early + late, 600.0, LONG_WINDOW) == late
    ensures Recent(late, 600.0, BURST_WINDOW) == late
  {
    AllRecent(early + late, 599.5, LONG_WINDOW);
    AllRecent(late, 600.0, BURST_WINDOW);
    RecentConcat(early, late, 600.0, LONG_WINDOW);
    NoneRecent(early, 600.0, LONG_WINDOW);
    AllRecent(late, 600.0, LONG_WINDOW);
  }

  /** The announced long wait ends at 600 s, and the request is refused again then. */
  ghost predicate FallsShort(run: seq<Request>, r: Request) {
    && Steady(run, 0.0) && Paced(r) && r.now == 599.5 && LastNow(run, 0.0) <= r.now
    && Ask(run, 0.0, r) == LongWait(0.5)
    && Ask(run, 0.0, r.(now := 600.0)) == BurstWait(1.0)
  }

  lemma BusyFallsShort(run: seq<Request>, r: Request)
    requires Busy(run, 5) && r == Request(599.5, ASKING, 1)
    ensures FallsShort(run, r)
  {
    BusyQueues(Repeat(0.0, 55), Repeat(599.0, 5));
    AskSeesTheHistory(run, 0.0, r);
    AskSeesTheHistory(run, 0.0, r.(now := 600.0));
  }

  /** The long wait alone can fall short: after some run it ends while the burst window is still full. */
  lemma LongWaitCanFallShort()
    ensures exists run, r :: FallsShort(run, r)
  {
    BusyRun(55, 5);
    BusyFallsShort(BusyRequests(55, 5), Request(599.5, ASKING, 1));
  }

  // ----- the weights -----

  /** `admit` of the shared pacing: BID_ASK counts twice. */
  function WeightOf(whatToShow: string): (weight: nat) {
    if whatToShow == "BID_ASK" then 2 else 1
  }

  /** A paced request as the services make it. */
  datatype Call = Call(now: real, conId: int, exchange: string, kind: string, whatToShow: string)

  function RequestOf(c: Call): Request {
    Request(c.now, Key(c.conId, c.exchange, c.kind, c.whatToShow), WeightOf(c.whatToShow))
  }

  function RequestsOf(calls: seq<Call>): seq<Request> {
    seq(|calls|, i requires 0 <= i < |calls| => RequestOf(calls[i]))
  }

  /** The clock never goes back between the calls. */
  predicate InOrder(calls: seq<Call>, start: real) {
    forall i | 0 <= i < |calls| :: start <= calls[i].now && forall j | 0 <= j < i :: calls[j].now <= calls[i].now
  }

  /** The calls that were admitted. */
  function AdmittedCalls(calls: seq<Call>, start: real): seq<Call>
    requires InOrder(calls, start)
  {
    if calls == [] then []
    else
      var before, c := calls[..|calls| - 1], calls[|calls| - 1];
      AdmittedCalls(before, start) + if Ask(RequestsOf(before), start, RequestOf(c)).Admitted? then [c] else []
  }

  /** How many calls of this data type lie between `from` and `to`. */
  ghost function CallsIn(calls: seq<Call>, bidAsk: bool, from: real, to: real): nat {
    if calls == [] then 0
    else
      var c := calls[|calls| - 1];
      CallsIn(calls[..|calls| - 1], bidAsk, from, to)
        + if (c.whatToShow == "BID_ASK") == bidAsk && from <= c.now < to then 1 else 0
  }

  /** How many of them ask for the same as `like`: contract, exchange, kind and data type. */
  ghost function SameCallsIn(calls: seq<Call>, like: Call, from: real, to: real): nat {
    if calls == [] then 0
    else
      var c := calls[|calls| - 1];
      SameCallsIn(calls[..|calls| - 1], like, from, to)
        + if c == like.(now := c.now) && from <= c.now < to then 1 else 0
  }

  lemma {:induction false} CountConcat(a: seq<real>, b: seq<real>, lo: real, hi: real)
    ensures CountIn(a + b, lo, hi) == CountIn(a, lo, hi) + CountIn(b, lo, hi)
  {
    if a == [] {
      assert a + b == b;
    } else {
      assert (a + b)[1..] == a[1..] + b;
      CountConcat(a[1..], b, lo, hi);
    }
  }

  lemma {:induction false} CountRepeat(x: real, n: nat, lo: real, hi: real)
    ensures CountIn(Repeat(x, n), lo, hi) == if lo <= x < hi then n else 0
  {
    if n > 0 {
      assert Repeat(x, n)[1..] == Repeat(x, n - 1);
      CountRepeat(x, n - 1, lo, hi);
    }
  }

  lemma CallsAreSteady(calls: seq<Call>, start: real)
    requires InOrder(calls, start)
    ensures Steady(RequestsOf(calls), start)
  {
  }

  /** What a request adds to the counts of the whole history and of its key. */
  lemma {:induction false} GrownCounts(h: seq<Unit>, r: Request, key: Key, from: real, to: real)
    ensures CountIn(Times(Grown(h, r)), from, to)
         == CountIn(Times(h), from, to) + if from <= r.now < to then r.weight else 0
    ensures CountIn(TimesOf(Grown(h, r), key), from, to)
         == CountIn(TimesOf(h, key), from, to) + if r.key == key && from <= r.now < to then r.weight else 0
  {
    GrownTimes(h, r, key);
    CountConcat(Times(h), Repeat(r.now, r.weight), from, to);
    CountConcat(TimesOf(h, key), Repeat(r.now, r.weight), from, to);
    CountRepeat(r.now, r.weight, from, to);
  }

  lemma {:induction false} LastCounted(calls: seq<Call>, c: Call, like: Call, from: real, to: real)
    ensures CallsIn(calls + [c], true, from, to)
         == CallsIn(calls, true, from, to) + if c.whatToShow == "BID_ASK" && from <= c.now < to then 1 else 0
    ensures CallsIn(calls + [c], false, from, to)
         == CallsIn(calls, false, from, to) + if c.whatToShow != "BID_ASK" && from <= c.now < to then 1 else 0
    ensures SameCallsIn(calls + [c], like, from, to)
         == SameCallsIn(calls, like, from, to) + if c == like.(now := c.now) && from <= c.now < to then 1 else 0
  {
    assert (calls + [c])[..|calls|] == calls;
  }

  /** The history counts the admitted calls: BID_ASK twice, the others once. */
  ghost predicate Counted(admitted: seq<Call>, h: seq<Unit>, like: Call, from: real, to: real) {
    && CountIn(Times(h), from, to) == 2 * CallsIn(admitted, true, from, to) + CallsIn(admitted, false, from, to)
    && CountIn(TimesOf(h, RequestOf(like).key), from, to)
       == if like.whatToShow == "BID_ASK" then 2 * SameCallsIn(admitted, like, from, to)
          else SameCallsIn(admitted, like, from, to)
  }

  lemma CountedGrows(admitted: seq<Call>, h: seq<Unit>, c: Call, like: Call, from: real, to: real)
    requires Counted(admitted, h, like, from, to)
    ensures Counted(admitted + [c], Grown(h, RequestOf(c)), like, from, to)
  {
    GrownCounts(h, RequestOf(c), RequestOf(like).key, from, to);
    LastCounted(admitted, c, like, from, to);
  }

  /** What one more call does to the calls admitted and to the history. */
  lemma CallStep(calls: seq<Call>, start: real)
    requires calls != [] && InOrder(calls, start)
    ensures Steady(RequestsOf(calls), start) && Steady(RequestsOf(calls[..|calls| - 1]), start)
    ensures var before, c := calls[..|calls| - 1], calls[|calls| - 1];
      var admitted, h := AdmittedCalls(before, start), Run(RequestsOf(before), start).1;
      var all, all' := AdmittedCalls(calls, start), Run(RequestsOf(calls), start).1;
      || (all == admitted && all' == h)
      || (all == admitted + [c] && all' == Grown(h, RequestOf(c)))
  {
    CallsAreSteady(calls, start);
    CallsAreSteady(calls[..|calls| - 1], start);
    assert RequestsOf(calls)[..|calls| - 1] == RequestsOf(calls[..|calls| - 1]);
  }

  lemma {:induction false} CallsCount(calls: seq<Call>, start: real, like: Call, from: real, to: real)
    requires InOrder(calls, start)
    ensures Steady(RequestsOf(calls), start)
    ensures Counted(AdmittedCalls(calls, start), Run(RequestsOf(calls), start).1, like, from, to)
  {
    if calls != [] {
      var before := calls[..|calls| - 1];
      CallsCount(before, start, like, from, to);
      CallStep(calls, start);
      CountedGrows(AdmittedCalls(before, start), Run(RequestsOf(before), start).1, calls[|calls| - 1], like, from, to);
    }
  }

  /**
   In every 600 s the admitted BID_ASK requests, each twice, and the others are at most 60, and in every 2 s the
   admitted ones for the same contract, exchange, kind and data type at most 5, or 2 for BID_ASK.
   */
  lemma EveryWindowOfCallsIsPaced(calls: seq<Call>, start: real, like: Call, from: real)
    requires InOrder(calls, start)
    ensures var admitted := AdmittedCalls(calls, start);
      && 2 * CallsIn(admitted, true, from, from + 600.0) + CallsIn(admitted, false, from, from + 600.0) <= 60
      && SameCallsIn(admitted, like, from, from + 2.0) <= if like.whatToShow == "BID_ASK" then 2 else 5
  {
    CallsCount(calls, start, like, from, from + 600.0);
    CallsCount(calls, start, like, from, from + 2.0);
    EveryWindowIsPaced(RequestsOf(calls), start, from, RequestOf(like).key);
  }

  /** A request is admitted exactly when it fits beside the last 600 s of all and the last 2 s of its own key. */
  lemma {:induction false} CallAdmittedExactlyWhen(calls: seq<Call>, start: real, c: Call)
    requires InOrder(calls + [c], start)
    ensures InOrder(calls, start)
    ensures var admitted, weight := AdmittedCalls(calls, start), if c.whatToShow == "BID_ASK" then 2 else 1;
      AdmittedCalls(calls + [c], start) == admitted + [c] <==>
        && |Recent(Times(Run(RequestsOf(calls), start).1), c.now, 600.0)| + weight <= 60
        && |Recent(TimesOf(Run(RequestsOf(calls), start).1, RequestOf(c).key), c.now, 2.0)| + weight <= 5
  {
    var more := calls + [c];
    assert more[..|calls|] == calls && more[|calls|] == c;
    assert forall i | 0 <= i < |calls| :: calls[i] == more[i];
    CallsAreSteady(calls, start);
    AskSeesTheHistory(RequestsOf(calls), start, RequestOf(c));
  }

  // ----- the pacer itself -----

  class HistoricalPacer {
    var window: seq<real>
    var bursts: map<Key, seq<real>>

    ghost function View(): Pacer
      reads this
    {
      Pacer(window, bursts)
    }

    constructor ()
      ensures View() == Run([], 0.0).0
    {
      window, bursts := [], map[];
    }

    method AdmitWeight(now: real, key: Key, weight: nat) returns (verdict: Verdict)
      requires 1 <= weight <= BURST_MAX
      modifies this
      ensures (View(), verdict) == Admit(old(View()), Request(now, key, weight))
    {
      while window != [] && now - window[0] >= LONG_WINDOW
        invariant bursts == old(bursts)
        invariant Expire(window, now, LONG_WINDOW) == Expire(old(window), now, LONG_WINDOW)
        decreases |window|
      {
        window := window[1..];
      }
      SweepBursts(now);
      var burst := if key in bursts then bursts[key] else [];
      var overflow := |window| + weight - LONG_MAX;
      if overflow > 0 {
        return LongWait(LONG_WINDOW - (now - window[overflow - 1]));
      }
      var burstOverflow := |burst| + weight - BURST_MAX;
      if burstOverflow > 0 {
        return BurstWait(BURST_WINDOW - (now - burst[burstOverflow - 1]));
      }
      window := window + Repeat(now, weight);
      bursts := bursts[key := burst + Repeat(now, weight)];
      verdict := Admitted;
    }

    /** The loop over the burst queues: each is popped from the left, an empty one is dropped. */
    method SweepBursts(now: real)
      modifies this`bursts
      ensures bursts == Swept(old(View()), now).bursts
    {
      var keys := bursts.Keys;
      while keys != {}
        invariant keys <= bursts.Keys <= old(bursts).Keys
        invariant forall k <- keys :: bursts[k] == old(bursts)[k]
        invariant forall k | k in old(bursts) && k !in keys ::
          if Expire(old(bursts)[k], now, BURST_WINDOW) == [] then k !in bursts
          else k in bursts && bursts[k] == Expire(old(bursts)[k], now, BURST_WINDOW)
        decreases |keys|
      {
        var key :| key in keys;
        keys := keys - {key};
        var stamps := bursts[key];
        while stamps != [] && now - stamps[0] >= BURST_WINDOW
          invariant Expire(stamps, now, BURST_WINDOW) == Expire(old(bursts)[key], now, BURST_WINDOW)
          decreases |stamps|
        {
          stamps := stamps[1..];
        }
        if stamps == [] {
          bursts := bursts - {key};
        } else {
          bursts := bursts[key := stamps];
        }
      }
    }

    /** `HistoricalPacing.admit`. */
    method AdmitRequest(now: real, conId: int, exchange: string, kind: string, whatToShow: string)
      returns (verdict: Verdict)
      modifies this
      ensures (View(), verdict)
           == Admit(old(View()), Request(now, Key(conId, exchange, kind, whatToShow), WeightOf(whatToShow)))
    {
      var weight := if whatToShow == "BID_ASK" then 2 else 1;
      verdict := AdmitWeight(now, Key(conId, exchange, kind, whatToShow), weight);
    }

    /** `admit_bars`: bars of more than 30 seconds are not paced; an unknown or absent size is. */
    method AdmitBars(now: real, conId: int, exchange: string, whatToShow: string, barSeconds: Option<nat>)
      returns (verdict: Verdict)
      modifies this
      ensures (barSeconds.Some? && barSeconds.value > 30) ==>
        verdict == Admitted && View() == old(View())
      ensures !(barSeconds.Some? && barSeconds.value > 30) ==>
        (View(), verdict)
          == Admit(old(View()), Request(now, Key(conId, exchange, "bars", whatToShow), WeightOf(whatToShow)))
    {
      if barSeconds.Some? && barSeconds.value > SMALL_BAR_SECONDS {
        return Admitted;
      }
      verdict := AdmitRequest(now, conId, exchange, "bars", whatToShow);
    }
  }

  // ----- answers to identical requests -----

  datatype Cached<V> = Cached(at: real, value: V)

  function FreshOnly<K, V>(entries: map<K, Cached<V>>, now: real): map<K, Cached<V>> {
    map k | k in entries && now - entries[k].at < IDENTICAL_TTL :: entries[k]
  }

  /** `get` reads the clock once; `put` once to purge and once to stamp the entry. */
  datatype CacheEvent<K, V> = Get(now: real, key: K) | Put(purged: real, at: real, key: K, value: V)

  function CacheStep<K, V>(entries: map<K, Cached<V>>, e: CacheEvent<K, V>): map<K, Cached<V>> {
    match e
    case Get(now, _) => FreshOnly(entries, now)
    case Put(purged, at, key, value) => FreshOnly(entries, purged)[key := Cached(at, value)]
  }

  function CacheRun<K, V>(events: seq<CacheEvent<K, V>>): map<K, Cached<V>> {
    if events == [] then map[]
    else CacheStep(CacheRun(events[..|events| - 1]), events[|events| - 1])
  }

  function Answer<K, V>(entries: map<K, Cached<V>>, now: real, key: K): Option<V> {
    var left := FreshOnly(entries, now);
    if key in left then Some(left[key].value) else None
  }

  /** The last result stored for the key, if any. */
  function LastPut<K(==), V>(events: seq<CacheEvent<K, V>>, key: K): Option<Cached<V>> {
    if events == [] then None
    else
      var e := events[|events| - 1];
      if e.Put? && e.key == key then Some(Cached(e.at, e.value)) else LastPut(events[..|events| - 1], key)
  }

  ghost predicate CacheSteady<K, V>(events: seq<CacheEvent<K, V>>, now: real) {
    forall e | e in events :: if e.Get? then e.now <= now else e.purged <= now
  }

  /** An identical request is answered exactly when the last result for it is less than 15 s old. */
  lemma {:induction false} IdenticalRequestsAreAnswered<K, V>(events: seq<CacheEvent<K, V>>, now: real, key: K)
    requires CacheSteady(events, now)
    ensures var last := LastPut(events, key);
      Answer(CacheRun(events), now, key)
      == if last.Some? && now - last.value.at < 15.0 then Some(last.value.value) else None
    decreases |events|
  {
    if events != [] {
      var before, e := events[..|events| - 1], events[|events| - 1];
      assert forall x | x in before :: x in events;
      assert e in events;
      IdenticalRequestsAreAnswered(before, now, key);
    }
  }

  class RecentResults<K(==), V> {
    var entries: map<K, Cached<V>>

    constructor ()
      ensures entries == map[]
    {
      entries := map[];
    }

    method Purge(now: real)
      modifies this
      ensures entries == FreshOnly(old(entries), now)
    {
      var stale := set k | k in entries && now - entries[k].at >= IDENTICAL_TTL;
      entries := entries - stale;
    }

    method GetResult(now: real, key: K) returns (answer: Option<V>)
      modifies this
      ensures entries == CacheStep(old(entries), Get(now, key))
      ensures answer == Answer(old(entries), now, key)
    {
      Purge(now);
      answer := if key in entries then Some(entries[key].value) else None;
    }

    method PutResult(purged: real, at: real, key: K, value: V)
      modifies this
      ensures entries == CacheStep(old(entries), CacheEvent.Put(purged, at, key, value))
    {
      Purge(purged);
      entries := entries[key := Cached(at, value)];
    }
  }
}
