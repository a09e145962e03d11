/** Sliding windows over time stamps: what the limiters share. Times are in seconds. */
module Windows {

  predicate Sorted(s: seq<real>) {
    forall i, j | 0 <= i < j < |s| :: s[i] <= s[j]
  }

  /** How many stamps lie in the half-open window from `lo` to `hi`. */
  function CountIn(s: seq<real>, lo: real, hi: real): nat {
    if s == [] then 0
    else (if lo <= s[0] < hi then 1 else 0) + CountIn(s[1..], lo, hi)
  }

  /** Any `k + 1` consecutive stamps span at least the window. */
  ghost predicate Spaced(s: seq<real>, k: nat, window: real) {
    forall i | 0 <= i && i + k < |s| :: s[i + k] - s[i] >= window
  }

  /** The stamps that are younger than the window at `now`. */
  function Recent(s: seq<real>, now: real, window: real): seq<real> {
    if s == [] then []
    else (if now - s[0] < window then [s[0]] else []) + Recent(s[1..], now, window)
  }

  /** What popping from the left while the oldest stamp is out of the window leaves. */
  function Expire(s: seq<real>, now: real, window: real): seq<real> {
    if s != [] && now - s[0] >= window then Expire(s[1..], now, window) else s
  }

  function Repeat(x: real, n: nat): seq<real> {
    seq(n, _ => x)
  }

  lemma {:induction false} ExpireIsRecent(s: seq<real>, now: real, window: real)
    requires Sorted(s)
    ensures Expire(s, now, window) == Recent(s, now, window)
  {
    if s != [] {
      if now - s[0] >= window {
        ExpireIsRecent(s[1..], now, window);
      } else {
        AllRecent(s, now, window);
      }
    }
  }

  lemma {:induction false} AllRecent(s: seq<real>, now: real, window: real)
    requires forall i | 0 <= i < |s| :: now - s[i] < window
    ensures Recent(s, now, window) == s
  {
    if s != [] { AllRecent(s[1..], now, window); }
  }

  lemma {:induction false} NoneRecent(s: seq<real>, now: real, window: real)
    requires forall i | 0 <= i < |s| :: now - s[i] >= window
    ensures Recent(s, now, window) == []
  {
    if s != [] { NoneRecent(s[1..], now, window); }
  }

  /** The stamps from position `p` on are younger than the window, and the ones before are not. */
  ghost predicate YoungFrom(s: seq<real>, now: real, window: real, p: int) {
    && 0 <= p <= |s|
    && (forall i | 0 <= i < p :: now - s[i] >= window)
    && (forall i | p <= i < |s| :: now - s[i] < window)
  }

  lemma YoungFromTail(s: seq<real>, now: real, window: real, p: int)
    requires s != [] && YoungFrom(s[1..], now, window, p) && now - s[0] >= window
    ensures YoungFrom(s, now, window, p + 1) && s[1..][p..] == s[p + 1..]
  {
    assert forall i | 1 <= i < |s| :: s[i] == s[1..][i - 1];
  }

  /** Of a sorted queue the recent stamps are a suffix: everything before it is out of the window. */
  lemma {:induction false} RecentIsSuffix(s: seq<real>, now: real, window: real)
    requires Sorted(s)
    ensures var r := Recent(s, now, window);
      |r| <= |s| && r == s[|s| - |r|..] && YoungFrom(s, now, window, |s| - |r|)
  {
    if s != [] {
      if now - s[0] < window {
        AllRecent(s, now, window);
      } else {
        RecentIsSuffix(s[1..], now, window);
        YoungFromTail(s, now, window, |s| - 1 - |Recent(s, now, window)|);
      }
    }
  }

  lemma {:induction false} RecentOfRecent(s: seq<real>, before: real, now: real, window: real)
    requires before <= now
    ensures Recent(Recent(s, before, window), now, window) == Recent(s, now, window)
  {
    if s != [] {
      RecentOfRecent(s[1..], before, now, window);
      var rest := Recent(s[1..], before, window);
      assert ([s[0]] + rest)[1..] == rest && [] + rest == rest;
    }
  }

  lemma {:induction false} RecentShrinks(s: seq<real>, before: real, now: real, window: real)
    requires before <= now
    ensures |Recent(s, now, window)| <= |Recent(s, before, window)|
  {
    if s != [] { RecentShrinks(s[1..], before, now, window); }
  }

  lemma {:induction false} RecentConcat(a: seq<real>, b: seq<real>, now: real, window: real)
    ensures Recent(a + b, now, window) == Recent(a, now, window) + Recent(b, now, window)
  {
    if a == [] {
      assert a + b == b;
    } else {
      assert (a + b)[1..] == a[1..] + b;
      RecentConcat(a[1..], b, now, window);
    }
  }

  /** How many stamps lie before `x`. */
  function Below(s: seq<real>, x: real): nat {
    if s == [] then 0 else (if s[0] < x then 1 else 0) + Below(s[1..], x)
  }

  lemma {:induction false} BelowIsPosition(s: seq<real>, x: real)
    requires Sorted(s)
    ensures Below(s, x) <= |s|
    ensures forall i | 0 <= i < |s| :: s[i] < x <==> i < Below(s, x)
  {
    if s != [] {
      BelowIsPosition(s[1..], x);
      assert |s| > 1 ==> s[0] <= s[1..][0] && (s[1..][0] < x <==> 0 < Below(s[1..], x));
      forall i | 0 < i < |s| ensures s[i] < x <==> i < Below(s, x) {
        assert s[1..][i - 1] == s[i];
      }
    }
  }

  lemma {:induction false} CountIsDifference(s: seq<real>, lo: real, hi: real)
    requires lo <= hi
    ensures CountIn(s, lo, hi) == Below(s, hi) - Below(s, lo)
  {
    if s != [] { CountIsDifference(s[1..], lo, hi); }
  }

  /** Spacing bounds the count in every window, wherever it starts. */
  lemma SpacedBoundsEveryWindow(s: seq<real>, k: nat, window: real, from: real)
    requires Sorted(s) && Spaced(s, k, window) && window > 0.0
    ensures CountIn(s, from, from + window) <= k
  {
    CountIsDifference(s, from, from + window);
    BelowIsPosition(s, from);
    BelowIsPosition(s, from + window);
    var a, b := Below(s, from), Below(s, from + window);
    if a + k < |s| {
      assert s[a + k] - s[a] >= window;
      assert s[a + k] >= from + window;
    }
  }

  lemma {:induction false} RecentKeepsSorted(s: seq<real>, now: real, window: real)
    requires Sorted(s)
    ensures Sorted(Recent(s, now, window))
  {
    RecentIsSuffix(s, now, window);
  }

  /** Popping what is out of the window by now, from a queue already swept, sweeps it for now. */
  lemma {:induction false} ExpireRecent(s: seq<real>, before: real, now: real, window: real)
    requires Sorted(s) && before <= now
    ensures Expire(Recent(s, before, window), now, window) == Recent(s, now, window)
  {
    RecentKeepsSorted(s, before, window);
    ExpireIsRecent(Recent(s, before, window), now, window);
    RecentOfRecent(s, before, now, window);
  }

  /** New stamps are recent. */
  lemma {:induction false} RecentWithNew(s: seq<real>, checked: real, at: real, n: nat, window: real)
    requires checked <= at && window > 0.0
    ensures Recent(s + Repeat(at, n), checked, window) == Recent(s, checked, window) + Repeat(at, n)
  {
    RecentConcat(s, Repeat(at, n), checked, window);
    AllRecent(Repeat(at, n), checked, window);
  }

  /** Adding `n` equal stamps keeps the spacing when they fit beside the recent ones. */
  lemma {:induction false} AddingKeepsSpacing(s: seq<real>, k: nat, window: real, checked: real, at: real, n: nat)
    requires Sorted(s) && Spaced(s, k, window) && window > 0.0
    requires checked <= at && (forall i | 0 <= i < |s| :: s[i] <= at)
    requires |Recent(s, checked, window)| + n <= k
    ensures Sorted(s + Repeat(at, n)) && Spaced(s + Repeat(at, n), k, window)
  {
    var t := s + Repeat(at, n);
    RecentIsSuffix(s, checked, window);
    forall i | 0 <= i && i + k < |t| ensures t[i + k] - t[i] >= window {
      if i + k >= |s| {
        assert i < |s| - |Recent(s, checked, window)|;
        assert checked - s[i] >= window;
      }
    }
  }

  /** `count` more stamps beside the recent ones fit `max` exactly when the stamp in the way has left. */
  lemma {:induction false} FitsWhenLeft(s: seq<real>, max: nat, window: real, count: nat, now: real, later: real)
    requires Sorted(s) && now <= later && count <= max
    requires |Recent(s, now, window)| + count > max
    ensures var live := Recent(s, now, window);
      var wait := window - (now - live[|live| + count - max - 1]);
      wait > 0.0 && (|Recent(s, later, window)| + count <= max <==> later >= now + wait)
  {
    RecentIsSuffix(s, now, window);
    RecentIsSuffix(s, later, window);
    var live := Recent(s, now, window);
    assert live[|live| + count - max - 1] == s[|s| + count - max - 1];
  }
}
