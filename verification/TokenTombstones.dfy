/**
 Which removals the preview store can still explain: the tombstones, read off the sequence of
 burials and forgettings behind them.
 */
module PreviewTombstones {
  import opened Wrappers
  import opened Seqs
  import opened PreviewTokens

  /** A token is buried; or the tombstones whose time is over at `now` are forgotten. */
  datatype Op = Buried(slot: Slot<Tombstone>) | Forgot(now: real)

  function Done(cfg: Config, tombs: Tombstones, op: Op): Tombstones {
    match op
    case Buried(slot) => KeepLast(Put(tombs, slot.token, slot.value), cfg.max)
    case Forgot(now) => RememberedOf(tombs, now)
  }

  /** The tombstones after the first `n` operations. */
  function Played(cfg: Config, tombs: Tombstones, ops: seq<Op>, n: nat): Tombstones
    requires n <= |ops|
  {
    if n == 0 then tombs else Done(cfg, Played(cfg, tombs, ops, n - 1), ops[n - 1])
  }

  function Play(cfg: Config, tombs: Tombstones, ops: seq<Op>): Tombstones {
    Played(cfg, tombs, ops, |ops|)
  }

  // ----- which burials still stand -----

  /** The burial at `k` is not forgotten by the operations before `n`. */
  ghost predicate Remembered(ops: seq<Op>, k: nat, n: nat) {
    && k < n <= |ops| && ops[k].Buried?
    && forall j | k < j < n && ops[j].Forgot? :: ops[k].slot.value.forgetAt > ops[j].now
  }

  /** The later burials that are not forgotten before `n`. */
  ghost function NewerThan(ops: seq<Op>, k: nat, n: nat): set<nat> {
    set y: nat | k < y < n && Remembered(ops, y, n)
  }

  /** Not forgotten, and never followed by `max` later burials that were not forgotten then. */
  ghost predicate Stands(cfg: Config, ops: seq<Op>, k: nat, n: nat) {
    Remembered(ops, k, n) && forall m: nat | k < m <= n :: |NewerThan(ops, k, m)| < cfg.max
  }

  ghost function InTime(ops: seq<Op>, now: real): nat -> bool {
    (k: nat) => k < |ops| && ops[k].Buried? && ops[k].slot.value.forgetAt > now
  }

  /** The positions are those of burials before `n`. */
  ghost predicate AllBuried(ops: seq<Op>, list: seq<nat>, n: nat) {
    n <= |ops| && forall p | 0 <= p < |list| :: list[p] < n && ops[list[p]].Buried?
  }

  lemma {:induction false} FilteredAreBuried(ops: seq<Op>, list: seq<nat>, n: nat, now: real)
    requires AllBuried(ops, list, n)
    ensures AllBuried(ops, Filter(list, InTime(ops, now)), n)
  {
    FilterMembers(list, InTime(ops, now));
    var kept := Filter(list, InTime(ops, now));
    assert forall p | 0 <= p < |kept| :: kept[p] in kept;
  }

  lemma OneMoreIsBuried(ops: seq<Op>, list: seq<nat>, k: nat, max: nat)
    requires AllBuried(ops, list, k) && k < |ops| && ops[k].Buried?
    ensures AllBuried(ops, KeepLast(list + [k], max), k + 1)
  {
    var more, kept := list + [k], KeepLast(list + [k], max);
    assert forall p | 0 <= p < |kept| :: kept[p] == more[|more| - |kept| + p];
  }

  /** The burials that the store's own rule keeps, oldest first. */
  ghost function Positions(cfg: Config, ops: seq<Op>, n: nat): (list: seq<nat>)
    requires n <= |ops|
    ensures AllBuried(ops, list, n)
  {
    if n == 0 then []
    else
      var before := Positions(cfg, ops, n - 1);
      match ops[n - 1]
      case Buried(_) => OneMoreIsBuried(ops, before, n - 1, cfg.max); KeepLast(before + [n - 1], cfg.max)
      case Forgot(now) => FilteredAreBuried(ops, before, n - 1, now); Filter(before, InTime(ops, now))
  }

  lemma SubsetIsSmaller(a: set<nat>, b: set<nat>)
    requires a <= b
    ensures |a| <= |b|
  {
    assert b == a + (b - a);
  }

  lemma StandsAfterForgetting(cfg: Config, ops: seq<Op>, k: nat, n: nat)
    requires 0 < n <= |ops| && ops[n - 1].Forgot?
    ensures Stands(cfg, ops, k, n) <==> Stands(cfg, ops, k, n - 1) && InTime(ops, ops[n - 1].now)(k)
  {
    if Stands(cfg, ops, k, n - 1) && InTime(ops, ops[n - 1].now)(k) {
      SubsetIsSmaller(NewerThan(ops, k, n), NewerThan(ops, k, n - 1));
    }
  }

  lemma StandsAfterBurial(cfg: Config, ops: seq<Op>, k: nat, n: nat)
    requires cfg.Valid() && 0 < n <= |ops| && ops[n - 1].Buried?
    ensures Stands(cfg, ops, k, n)
      <==> k == n - 1 || (Stands(cfg, ops, k, n - 1) && |NewerThan(ops, k, n - 1)| + 1 < cfg.max)
  {
    if k == n - 1 {
      assert NewerThan(ops, k, n) == {};
    } else if k < n - 1 {
      assert NewerThan(ops, k, n) == NewerThan(ops, k, n - 1) + {n - 1};
      assert Remembered(ops, k, n) <==> Remembered(ops, k, n - 1);
    }
  }

  /** The burials that stand, oldest first. */
  ghost predicate Lists(cfg: Config, ops: seq<Op>, n: nat, list: seq<nat>) {
    Increasing(list) && forall k: nat :: k in list <==> Stands(cfg, ops, k, n)
  }

  /** With a burial that stands all later ones that are remembered do. */
  lemma NewerStand(cfg: Config, ops: seq<Op>, k: nat, n: nat, y: nat)
    requires Stands(cfg, ops, k, n) && y in NewerThan(ops, k, n)
    ensures Stands(cfg, ops, y, n)
  {
    forall m: nat | y < m <= n ensures |NewerThan(ops, y, m)| < cfg.max {
      SubsetIsSmaller(NewerThan(ops, y, m), NewerThan(ops, k, m));
    }
  }

  lemma NewerAreTheRest(cfg: Config, ops: seq<Op>, n: nat, list: seq<nat>, p: nat)
    requires Lists(cfg, ops, n, list) && p < |list|
    ensures |NewerThan(ops, list[p], n)| == |list| - 1 - p
  {
    var k, rest := list[p], list[p + 1..];
    assert k in list;
    forall y | y in rest ensures y in NewerThan(ops, k, n) {
      assert y in list;
    }
    forall y | y in NewerThan(ops, k, n) ensures y in rest {
      NewerStand(cfg, ops, k, n, y);
      var q :| 0 <= q < |list| && list[q] == y;
      assert rest[q - p - 1] == y;
    }
    DistinctCardinality(rest, NewerThan(ops, k, n));
  }

  lemma KeptIncreases(list: seq<nat>, last: nat, max: nat)
    requires Increasing(list) && forall p | 0 <= p < |list| :: list[p] < last
    ensures Increasing(KeepLast(list + [last], max))
  {
    var more, kept := list + [last], KeepLast(list + [last], max);
    var cut := |more| - |kept|;
    assert Increasing(more);
    forall i, j | 0 <= i < j < |kept| ensures kept[i] < kept[j] {
      assert kept[i] == more[cut + i] && kept[j] == more[cut + j];
    }
  }

  lemma KeptOfMore(list: seq<nat>, last: nat, max: nat)
    requires Increasing(list) && (forall p | 0 <= p < |list| :: list[p] < last) && max >= 1
    ensures var kept := KeepLast(list + [last], max);
      && last in kept
      && (forall k | k in kept :: k in list || k == last)
      && (forall p | 0 <= p < |list| :: list[p] in kept <==> |list| - p < max)
  {
    var more, kept := list + [last], KeepLast(list + [last], max);
    var cut := |more| - |kept|;
    assert kept == more[cut..];
    assert kept[|kept| - 1] == last;
    forall p | 0 <= p < |list| ensures list[p] in kept <==> p >= cut {
      if p >= cut { assert kept[p - cut] == list[p]; }
    }
  }

  lemma ListedIsKept(cfg: Config, ops: seq<Op>, n: nat, list: seq<nat>, p: nat)
    requires cfg.Valid() && 0 < n <= |ops| && ops[n - 1].Buried? && Lists(cfg, ops, n - 1, list) && p < |list|
    ensures Stands(cfg, ops, list[p], n) <==> |list| - p < cfg.max
  {
    assert list[p] in list;
    StandsAfterBurial(cfg, ops, list[p], n);
    NewerAreTheRest(cfg, ops, n - 1, list, p);
  }

  lemma KeptExactlyWhenStanding(cfg: Config, ops: seq<Op>, n: nat, list: seq<nat>, k: nat)
    requires cfg.Valid() && 0 < n <= |ops| && ops[n - 1].Buried? && Lists(cfg, ops, n - 1, list)
    requires forall p | 0 <= p < |list| :: list[p] < n - 1
    ensures k in KeepLast(list + [n - 1], cfg.max) <==> Stands(cfg, ops, k, n)
  {
    KeptOfMore(list, n - 1, cfg.max);
    if k in list {
      var p :| 0 <= p < |list| && list[p] == k;
      ListedIsKept(cfg, ops, n, list, p);
    } else {
      StandsAfterBurial(cfg, ops, k, n);
    }
  }

  lemma BurialLists(cfg: Config, ops: seq<Op>, n: nat, list: seq<nat>)
    requires cfg.Valid() && 0 < n <= |ops| && ops[n - 1].Buried? && Lists(cfg, ops, n - 1, list)
    ensures Lists(cfg, ops, n, KeepLast(list + [n - 1], cfg.max))
  {
    assert forall p | 0 <= p < |list| :: list[p] in list;
    KeptIncreases(list, n - 1, cfg.max);
    forall k: nat ensures k in KeepLast(list + [n - 1], cfg.max) <==> Stands(cfg, ops, k, n) {
      KeptExactlyWhenStanding(cfg, ops, n, list, k);
    }
  }

  lemma ForgettingLists(cfg: Config, ops: seq<Op>, n: nat, list: seq<nat>)
    requires 0 < n <= |ops| && ops[n - 1].Forgot? && Lists(cfg, ops, n - 1, list)
    ensures Lists(cfg, ops, n, Filter(list, InTime(ops, ops[n - 1].now)))
  {
    FilterIncreasing(list, InTime(ops, ops[n - 1].now));
    FilterMembers(list, InTime(ops, ops[n - 1].now));
    forall k: nat ensures k in Filter(list, InTime(ops, ops[n - 1].now)) <==> Stands(cfg, ops, k, n) {
      StandsAfterForgetting(cfg, ops, k, n);
    }
  }

  lemma {:induction false} PositionsStand(cfg: Config, ops: seq<Op>, n: nat)
    requires cfg.Valid() && n <= |ops|
    ensures Lists(cfg, ops, n, Positions(cfg, ops, n))
  {
    if n > 0 {
      PositionsStand(cfg, ops, n - 1);
      if ops[n - 1].Buried? {
        BurialLists(cfg, ops, n, Positions(cfg, ops, n - 1));
      } else {
        ForgettingLists(cfg, ops, n, Positions(cfg, ops, n - 1));
      }
    }
  }

  // ----- the tombstones are the burials that stand -----

  /** No token is buried twice. */
  ghost predicate BuriedOnce(ops: seq<Op>) {
    forall j, k | 0 <= j < k < |ops| && ops[j].Buried? && ops[k].Buried? :: ops[j].slot.token != ops[k].slot.token
  }

  ghost function SlotsOfBurials(ops: seq<Op>, list: seq<nat>): (slots: Tombstones)
    requires AllBuried(ops, list, |ops|)
    ensures |slots| == |list|
  {
    if list == [] then [] else [ops[list[0]].slot] + SlotsOfBurials(ops, list[1..])
  }

  lemma {:induction false} SlotsOfBurialsAt(ops: seq<Op>, list: seq<nat>)
    requires AllBuried(ops, list, |ops|)
    ensures forall p | 0 <= p < |list| :: SlotsOfBurials(ops, list)[p] == ops[list[p]].slot
  {
    if list != [] { SlotsOfBurialsAt(ops, list[1..]); }
  }

  lemma {:induction false} RememberedBurials(ops: seq<Op>, list: seq<nat>, now: real)
    requires AllBuried(ops, list, |ops|)
    ensures AllBuried(ops, Filter(list, InTime(ops, now)), |ops|)
    ensures RememberedOf(SlotsOfBurials(ops, list), now) == SlotsOfBurials(ops, Filter(list, InTime(ops, now)))
  {
    if list != [] {
      RememberedBurials(ops, list[1..], now);
    }
  }

  lemma {:induction false} SlotsDrop(ops: seq<Op>, list: seq<nat>, d: nat)
    requires AllBuried(ops, list, |ops|) && d <= |list|
    ensures SlotsOfBurials(ops, list[d..]) == SlotsOfBurials(ops, list)[d..]
  {
    SlotsOfBurialsAt(ops, list);
    if d > 0 {
      assert list[d..] == list[1..][d - 1..];
      SlotsDrop(ops, list[1..], d - 1);
      SlotsOfBurialsAt(ops, list[1..]);
    }
  }

  lemma {:induction false} SlotsJoin(ops: seq<Op>, list: seq<nat>, k: nat)
    requires AllBuried(ops, list, |ops|) && k < |ops| && ops[k].Buried?
    ensures SlotsOfBurials(ops, list + [k]) == SlotsOfBurials(ops, list) + [ops[k].slot]
  {
    if list == [] {
      assert list + [k] == [k];
    } else {
      assert (list + [k])[1..] == list[1..] + [k];
      SlotsJoin(ops, list[1..], k);
    }
  }

  lemma {:induction false} NewestBurials(ops: seq<Op>, list: seq<nat>, max: nat)
    requires AllBuried(ops, list, |ops|)
    ensures AllBuried(ops, KeepLast(list, max), |ops|)
    ensures SlotsOfBurials(ops, KeepLast(list, max)) == KeepLast(SlotsOfBurials(ops, list), max)
  {
    if |list| > max { SlotsDrop(ops, list, |list| - max); }
  }

  lemma {:induction false} NotYetHeld(ops: seq<Op>, list: seq<nat>, k: nat)
    requires BuriedOnce(ops) && AllBuried(ops, list, k) && k < |ops| && ops[k].Buried?
    ensures !Holds(SlotsOfBurials(ops, list), ops[k].slot.token)
  {
    SlotsOfBurialsAt(ops, list);
  }

  lemma {:induction false} OneMoreBurial(cfg: Config, ops: seq<Op>, list: seq<nat>, k: nat)
    requires BuriedOnce(ops) && AllBuried(ops, list, k) && k < |ops| && ops[k].Buried?
    ensures AllBuried(ops, KeepLast(list + [k], cfg.max), |ops|)
    ensures Done(cfg, SlotsOfBurials(ops, list), ops[k]) == SlotsOfBurials(ops, KeepLast(list + [k], cfg.max))
  {
    var slot, more := ops[k].slot, list + [k];
    NotYetHeld(ops, list, k);
    PutFresh(SlotsOfBurials(ops, list), slot.token, slot.value);
    SlotsJoin(ops, list, k);
    NewestBurials(ops, more, cfg.max);
  }

  lemma BurialPlayed(cfg: Config, ops: seq<Op>, n: nat)
    requires 0 < n <= |ops| && BuriedOnce(ops) && ops[n - 1].Buried?
    requires Played(cfg, [], ops, n - 1) == SlotsOfBurials(ops, Positions(cfg, ops, n - 1))
    ensures Played(cfg, [], ops, n) == SlotsOfBurials(ops, Positions(cfg, ops, n))
  {
    OneMoreBurial(cfg, ops, Positions(cfg, ops, n - 1), n - 1);
  }

  lemma ForgettingPlayed(cfg: Config, ops: seq<Op>, n: nat)
    requires 0 < n <= |ops| && ops[n - 1].Forgot?
    requires Played(cfg, [], ops, n - 1) == SlotsOfBurials(ops, Positions(cfg, ops, n - 1))
    ensures Played(cfg, [], ops, n) == SlotsOfBurials(ops, Positions(cfg, ops, n))
  {
    RememberedBurials(ops, Positions(cfg, ops, n - 1), ops[n - 1].now);
  }

  lemma {:induction false} PlayedIsWhatStands(cfg: Config, ops: seq<Op>, n: nat)
    requires n <= |ops| && BuriedOnce(ops)
    ensures Played(cfg, [], ops, n) == SlotsOfBurials(ops, Positions(cfg, ops, n))
  {
    if n > 0 {
      PlayedIsWhatStands(cfg, ops, n - 1);
      if ops[n - 1].Buried? { BurialPlayed(cfg, ops, n); } else { ForgettingPlayed(cfg, ops, n); }
    }
  }

  ghost predicate StandsFor(cfg: Config, ops: seq<Op>, token: Token) {
    exists k: nat :: Stands(cfg, ops, k, |ops|) && ops[k].slot.token == token
  }

  /** A tombstone is there exactly while the token's burial stands. */
  lemma {:induction false} HoldsExactlyWhenStanding(cfg: Config, ops: seq<Op>, token: Token)
    requires cfg.Valid() && BuriedOnce(ops)
    ensures Holds(Played(cfg, [], ops, |ops|), token) <==> StandsFor(cfg, ops, token)
  {
    PlayedIsWhatStands(cfg, ops, |ops|);
    PositionsStand(cfg, ops, |ops|);
    var list := Positions(cfg, ops, |ops|);
    SlotsOfBurialsAt(ops, list);
    if Holds(Played(cfg, [], ops, |ops|), token) {
      var p :| 0 <= p < |list| && ops[list[p]].slot.token == token;
      assert list[p] in list;
    }
    if StandsFor(cfg, ops, token) {
      var k: nat :| Stands(cfg, ops, k, |ops|) && ops[k].slot.token == token;
      assert k in list;
      var p :| 0 <= p < |list| && list[p] == k;
    }
  }

  // ----- the burials of the store -----

  function GraveOf(cfg: Config, g: Slot<Entry>, reason: Reason, note: Option<string>): Op {
    var expiresAt := g.value.facts.expiresAt;
    Buried(Slot(g.token, Tombstone(reason, expiresAt, expiresAt + cfg.ttl, note)))
  }

  function GravesOf(cfg: Config, gone: Entries, reason: Reason): seq<Op> {
    if gone == [] then [] else [GraveOf(cfg, gone[0], reason, None)] + GravesOf(cfg, gone[1..], reason)
  }

  function PurgeOps(cfg: Config, s: Store, now: real): seq<Op> {
    GravesOf(cfg, ExpiredOf(s.entries, now), OutOfTime) + [Forgot(now)]
  }

  function LookOps(cfg: Config, purged: Store, token: Token, how: How): seq<Op> {
    match Get(purged.entries, token)
    case None => []
    case Some(e) =>
      if !Intact(token, e) then [GraveOf(cfg, Slot(token, e), Invalidated, None)]
      else
        match how
        case Peek => []
        case Consume => [GraveOf(cfg, Slot(token, e), Used, None)]
        case Discard(note) => [GraveOf(cfg, Slot(token, e), Discarded, CleanNote(note))]
  }

  function EvictionOps(cfg: Config, purged: Store): seq<Op>
    requires cfg.Valid()
  {
    GravesOf(cfg, purged.entries[..Excess(cfg, |purged.entries|)], Evicted)
  }

  /** What an event buries and forgets, in order. */
  function OpsOf(cfg: Config, s: Store, e: Event): seq<Op>
    requires cfg.Valid()
  {
    match e
    case Issued(now, _, payload, account, kind) =>
      if Accepted(account, kind, payload) then PurgeOps(cfg, s, now) + EvictionOps(cfg, Purge(cfg, s, now)) else []
    case Looked(now, token, how) => PurgeOps(cfg, s, now) + LookOps(cfg, Purge(cfg, s, now), token, how)
    case Purged(now) => PurgeOps(cfg, s, now)
    case Tampered(_, _) => []
  }

  lemma {:induction false} PlayedJoin(cfg: Config, tombs: Tombstones, a: seq<Op>, b: seq<Op>, n: nat)
    requires n <= |b|
    ensures Played(cfg, tombs, a + b, |a| + n) == Played(cfg, Play(cfg, tombs, a), b, n)
  {
    if n == 0 { PlayedPrefix(cfg, tombs, a, b, |a|); } else { PlayedJoin(cfg, tombs, a, b, n - 1); }
  }

  lemma {:induction false} PlayedPrefix(cfg: Config, tombs: Tombstones, a: seq<Op>, b: seq<Op>, n: nat)
    requires n <= |a|
    ensures Played(cfg, tombs, a + b, n) == Played(cfg, tombs, a, n)
  {
    if n > 0 { PlayedPrefix(cfg, tombs, a, b, n - 1); }
  }

  lemma PlayJoin(cfg: Config, tombs: Tombstones, a: seq<Op>, b: seq<Op>)
    ensures Play(cfg, tombs, a + b) == Play(cfg, Play(cfg, tombs, a), b)
  {
    PlayedJoin(cfg, tombs, a, b, |b|);
  }

  lemma PlayOne(cfg: Config, tombs: Tombstones, op: Op)
    ensures Play(cfg, tombs, [op]) == Done(cfg, tombs, op)
  {
    assert Played(cfg, tombs, [op], 0) == tombs;
  }

  lemma {:induction false} GravesBury(cfg: Config, tombs: Tombstones, gone: Entries, reason: Reason)
    ensures Play(cfg, tombs, GravesOf(cfg, gone, reason)) == BuryAll(cfg, tombs, gone, reason)
    decreases |gone|
  {
    if gone != [] {
      var first := GraveOf(cfg, gone[0], reason, None);
      PlayJoin(cfg, tombs, [first], GravesOf(cfg, gone[1..], reason));
      PlayOne(cfg, tombs, first);
      GravesBury(cfg, Done(cfg, tombs, first), gone[1..], reason);
    }
  }

  lemma PurgePlays(cfg: Config, s: Store, now: real)
    ensures Play(cfg, s.tombstones, PurgeOps(cfg, s, now)) == Purge(cfg, s, now).tombstones
  {
    var gone := ExpiredOf(s.entries, now);
    GravesBury(cfg, s.tombstones, gone, OutOfTime);
    PlayJoin(cfg, s.tombstones, GravesOf(cfg, gone, OutOfTime), [Forgot(now)]);
    PlayOne(cfg, BuryAll(cfg, s.tombstones, gone, OutOfTime), Forgot(now));
  }

  lemma TakenBuries(cfg: Config, s: Store, token: Token, e: Entry, reason: Reason, note: Option<string>)
    ensures Taken(cfg, s, token, e, reason, note).tombstones
         == Play(cfg, s.tombstones, [GraveOf(cfg, Slot(token, e), reason, note)])
  {
    PlayOne(cfg, s.tombstones, GraveOf(cfg, Slot(token, e), reason, note));
  }

  lemma LookBuries(cfg: Config, s: Store, now: real, token: Token, how: How)
    ensures var purged := Purge(cfg, s, now);
      Look(cfg, s, now, token, how).0.tombstones
      == Play(cfg, purged.tombstones, LookOps(cfg, purged, token, how))
  {
    var purged := Purge(cfg, s, now);
    var found := Get(purged.entries, token);
    if found.Some? {
      TakenBuries(cfg, purged, token, found.value, Invalidated, None);
      TakenBuries(cfg, purged, token, found.value, Used, None);
      if how.Discard? { TakenBuries(cfg, purged, token, found.value, Discarded, CleanNote(how.note)); }
    }
  }

  /** The operations of an event make the tombstones after it. */
  lemma EventPlays(cfg: Config, s: Store, e: Event)
    requires cfg.Valid()
    ensures Apply(cfg, s, e).tombstones == Play(cfg, s.tombstones, OpsOf(cfg, s, e))
  {
    if At(e).Some? {
      PurgePlays(cfg, s, At(e).value);
      var purged, ops := Purge(cfg, s, At(e).value), PurgeOps(cfg, s, At(e).value);
      match e
      case Issued(_, _, _, _, _) =>
        IssueBuries(cfg, s, e);
        GravesBury(cfg, purged.tombstones, purged.entries[..Excess(cfg, |purged.entries|)], Evicted);
        PlayJoin(cfg, s.tombstones, ops, EvictionOps(cfg, purged));
      case Looked(now, token, how) =>
        LookBuries(cfg, s, now, token, how);
        PlayJoin(cfg, s.tombstones, ops, LookOps(cfg, purged, token, how));
      case Purged(_) =>
    }
  }

  /** What the whole log buries and forgets. */
  function Burials(cfg: Config, log: seq<Event>): seq<Op>
    requires cfg.Valid()
  {
    if log == [] then []
    else
      var before := log[..|log| - 1];
      Burials(cfg, before) + OpsOf(cfg, Replay(cfg, before), log[|log| - 1])
  }

  lemma {:induction false} BurialsPlay(cfg: Config, log: seq<Event>)
    requires cfg.Valid()
    ensures Replay(cfg, log).tombstones == Play(cfg, [], Burials(cfg, log))
  {
    if log != [] {
      var before, e := log[..|log| - 1], log[|log| - 1];
      BurialsPlay(cfg, before);
      EventPlays(cfg, Replay(cfg, before), e);
      PlayJoin(cfg, [], Burials(cfg, before), OpsOf(cfg, Replay(cfg, before), e));
    }
  }

  // ----- what goes is buried, once -----

  ghost predicate Buries(ops: seq<Op>, token: Token) {
    exists k :: 0 <= k < |ops| && ops[k].Buried? && ops[k].slot.token == token
  }

  lemma BuriesJoin(a: seq<Op>, b: seq<Op>, token: Token)
    ensures Buries(a + b, token) <==> Buries(a, token) || Buries(b, token)
  {
    var ops := a + b;
    if k :| 0 <= k < |a| && a[k].Buried? && a[k].slot.token == token { assert ops[k] == a[k]; }
    if k :| 0 <= k < |b| && b[k].Buried? && b[k].slot.token == token { assert ops[|a| + k] == b[k]; }
    if k :| 0 <= k < |ops| && ops[k].Buried? && ops[k].slot.token == token {
      assert if k < |a| then a[k] == ops[k] else b[k - |a|] == ops[k];
    }
  }

  lemma BuriedOnceJoin(a: seq<Op>, b: seq<Op>)
    requires BuriedOnce(a) && BuriedOnce(b) && forall token | Buries(a, token) :: !Buries(b, token)
    ensures BuriedOnce(a + b)
  {
    var ops := a + b;
    forall j, k | 0 <= j < k < |ops| && ops[j].Buried? && ops[k].Buried?
      ensures ops[j].slot.token != ops[k].slot.token
    {
      if j < |a| <= k {
        assert a[j] == ops[j] && b[k - |a|] == ops[k];
        assert Buries(a, ops[j].slot.token);
      }
    }
  }

  lemma {:induction false} GravesAt(cfg: Config, gone: Entries, reason: Reason)
    ensures |GravesOf(cfg, gone, reason)| == |gone|
    ensures forall p | 0 <= p < |gone| :: GravesOf(cfg, gone, reason)[p] == GraveOf(cfg, gone[p], reason, None)
  {
    if gone != [] { GravesAt(cfg, gone[1..], reason); }
  }

  lemma {:induction false} GravesAreOf(cfg: Config, gone: Entries, reason: Reason)
    ensures forall token :: Buries(GravesOf(cfg, gone, reason), token) <==> Holds(gone, token)
    ensures Unique(gone) ==> BuriedOnce(GravesOf(cfg, gone, reason))
  {
    GravesAt(cfg, gone, reason);
    var ops := GravesOf(cfg, gone, reason);
    forall token ensures Buries(ops, token) <==> Holds(gone, token) {
      if i :| 0 <= i < |gone| && gone[i].token == token { assert ops[i].slot.token == token; }
    }
  }

  lemma HoldsHead<V>(slots: seq<Slot<V>>, token: Token)
    requires slots != []
    ensures Holds(slots, token) <==> slots[0].token == token || Holds(slots[1..], token)
  {
    if Holds(slots[1..], token) {
      var i :| 0 <= i < |slots[1..]| && slots[1..][i].token == token;
      assert slots[i + 1].token == token;
    }
    if Holds(slots, token) && slots[0].token != token {
      var i :| 0 <= i < |slots| && slots[i].token == token;
      assert slots[1..][i - 1].token == token;
    }
  }

  lemma UniqueHead<V>(slots: seq<Slot<V>>)
    requires slots != []
    ensures Unique(slots) <==> Unique(slots[1..]) && !Holds(slots[1..], slots[0].token)
  {
    assert forall i | 0 <= i < |slots[1..]| :: slots[1..][i] == slots[i + 1];
    if Unique(slots[1..]) && !Holds(slots[1..], slots[0].token) {
      forall i, j | 0 <= i < j < |slots| ensures slots[i].token != slots[j].token {
        assert slots[1..][j - 1].token == slots[j].token;
      }
    }
  }

  /** Purging splits the entries into those in time and those that are not. */
  lemma {:induction false} PurgeSplits(entries: Entries, now: real, token: Token)
    ensures var live, expired := LiveOf(entries, now), ExpiredOf(entries, now);
      && (Holds(entries, token) <==> Holds(live, token) || Holds(expired, token))
      && (Unique(entries) ==> !(Holds(live, token) && Holds(expired, token)))
  {
    if entries != [] {
      var live, expired := LiveOf(entries, now), ExpiredOf(entries, now);
      PurgeSplits(entries[1..], now, token);
      HoldsHead(entries, token);
      UniqueHead(entries);
      if entries[0].value.facts.expiresAt > now {
        assert live[1..] == LiveOf(entries[1..], now) && expired == ExpiredOf(entries[1..], now);
        HoldsHead(live, token);
      } else {
        assert expired[1..] == ExpiredOf(entries[1..], now) && live == LiveOf(entries[1..], now);
        HoldsHead(expired, token);
      }
    }
  }

  lemma {:induction false} PurgeKeepsUnique(entries: Entries, now: real)
    requires Unique(entries)
    ensures Unique(LiveOf(entries, now)) && Unique(ExpiredOf(entries, now))
  {
    if entries != [] {
      var live, expired := LiveOf(entries, now), ExpiredOf(entries, now);
      UniqueHead(entries);
      PurgeKeepsUnique(entries[1..], now);
      PurgeSplits(entries[1..], now, entries[0].token);
      if entries[0].value.facts.expiresAt > now {
        assert live[1..] == LiveOf(entries[1..], now) && expired == ExpiredOf(entries[1..], now);
        UniqueHead(live);
      } else {
        assert expired[1..] == ExpiredOf(entries[1..], now) && live == LiveOf(entries[1..], now);
        UniqueHead(expired);
      }
    }
  }

  /** The operations bury a token exactly when it is in the entries before, and not after. */
  ghost predicate BuriesWhatGoes(ops: seq<Op>, before: Entries, after: Entries) {
    && BuriedOnce(ops)
    && forall token :: Buries(ops, token) <==> Holds(before, token) && !Holds(after, token)
  }

  ghost predicate Shrinks(before: Entries, after: Entries) {
    Unique(before) && Unique(after) && forall token | Holds(after, token) :: Holds(before, token)
  }

  lemma {:induction false} PurgeBuries(cfg: Config, s: Store, now: real)
    requires Unique(s.entries)
    ensures Shrinks(s.entries, LiveOf(s.entries, now))
    ensures BuriesWhatGoes(PurgeOps(cfg, s, now), s.entries, LiveOf(s.entries, now))
  {
    var gone := ExpiredOf(s.entries, now);
    var graves := GravesOf(cfg, gone, OutOfTime);
    PurgeKeepsUnique(s.entries, now);
    GravesAreOf(cfg, gone, OutOfTime);
    BuriedOnceJoin(graves, [Forgot(now)]);
    forall token
      ensures Holds(LiveOf(s.entries, now), token) ==> Holds(s.entries, token)
      ensures Buries(graves + [Forgot(now)], token)
        <==> Holds(s.entries, token) && !Holds(LiveOf(s.entries, now), token)
    {
      PurgeSplits(s.entries, now, token);
      BuriesJoin(graves, [Forgot(now)], token);
    }
  }

  /** Two stages, each of which buries what goes. */
  lemma BuriesInTurn(a: seq<Op>, b: seq<Op>, one: Entries, two: Entries, three: Entries)
    requires BuriesWhatGoes(a, one, two) && BuriesWhatGoes(b, two, three) && Shrinks(one, two) && Shrinks(two, three)
    ensures BuriesWhatGoes(a + b, one, three)
  {
    BuriedOnceJoin(a, b);
    forall token ensures Buries(a + b, token) <==> Holds(one, token) && !Holds(three, token) {
      BuriesJoin(a, b, token);
    }
  }

  lemma SplitHolds<V>(slots: seq<Slot<V>>, d: nat, token: Token)
    requires d <= |slots|
    ensures Holds(slots, token) <==> Holds(slots[..d], token) || Holds(slots[d..], token)
    ensures Unique(slots) ==> !(Holds(slots[..d], token) && Holds(slots[d..], token))
  {
    if i :| 0 <= i < |slots| && slots[i].token == token {
      assert if i < d then slots[..d][i] == slots[i] else slots[d..][i - d] == slots[i];
    }
    if i :| 0 <= i < |slots[..d]| && slots[..d][i].token == token { assert slots[i].token == token; }
    if i :| 0 <= i < |slots[d..]| && slots[d..][i].token == token { assert slots[d + i].token == token; }
  }

  lemma EvictionBuries(cfg: Config, purged: Store)
    requires cfg.Valid() && Unique(purged.entries)
    ensures var d := Excess(cfg, |purged.entries|);
      && Shrinks(purged.entries, purged.entries[d..])
      && BuriesWhatGoes(EvictionOps(cfg, purged), purged.entries, purged.entries[d..])
  {
    var d := Excess(cfg, |purged.entries|);
    GravesAreOf(cfg, purged.entries[..d], Evicted);
    forall token
      ensures Holds(purged.entries[d..], token) ==> Holds(purged.entries, token)
      ensures Buries(EvictionOps(cfg, purged), token)
        <==> Holds(purged.entries, token) && !Holds(purged.entries[d..], token)
    {
      SplitHolds(purged.entries, d, token);
    }
  }

  lemma {:induction false} WithoutHolds<V>(slots: seq<Slot<V>>, gone: Token, token: Token)
    requires Unique(slots)
    ensures Holds(Without(slots, gone), token) <==> Holds(slots, token) && token != gone
  {
    if slots != [] {
      HoldsHead(slots, token);
      UniqueHead(slots);
      if slots[0].token != gone {
        WithoutHolds(slots[1..], gone, token);
        var rest := Without(slots, gone);
        assert rest[1..] == Without(slots[1..], gone);
        HoldsHead(rest, token);
      }
    }
  }

  lemma LookBuriesWhatGoes(cfg: Config, s: Store, now: real, token: Token, how: How)
    requires Unique(Purge(cfg, s, now).entries)
    ensures var purged, after := Purge(cfg, s, now), Look(cfg, s, now, token, how).0.entries;
      && Shrinks(purged.entries, after)
      && BuriesWhatGoes(LookOps(cfg, purged, token, how), purged.entries, after)
  {
    var purged, after := Purge(cfg, s, now), Look(cfg, s, now, token, how).0.entries;
    var ops := LookOps(cfg, purged, token, how);
    GetFinds(purged.entries, token);
    WithoutUnique(purged.entries, token);
    assert after == if ops == [] then purged.entries else Without(purged.entries, token);
    forall u
      ensures Holds(after, u) ==> Holds(purged.entries, u)
      ensures Buries(ops, u) <==> Holds(purged.entries, u) && !Holds(after, u)
    {
      WithoutHolds(purged.entries, token, u);
      assert Buries(ops, u) <==> ops != [] && u == token by { if ops != [] { assert ops[0].slot.token == token; } }
    }
  }

  lemma {:induction false} ChangedHolds(entries: Entries, token: Token, facts: Facts, u: Token)
    ensures Holds(Changed(entries, token, facts), u) <==> Holds(entries, u)
  {
    if entries != [] {
      var changed := Changed(entries, token, facts);
      ChangedHolds(entries[1..], token, facts, u);
      HoldsHead(entries, u);
      assert changed[1..] == Changed(entries[1..], token, facts);
      HoldsHead(changed, u);
    }
  }

  lemma OneMoreHolds<V>(slots: seq<Slot<V>>, slot: Slot<V>, token: Token)
    ensures Holds(slots + [slot], token) <==> Holds(slots, token) || slot.token == token
  {
    var more := slots + [slot];
    assert more[|slots|] == slot;
    if i :| 0 <= i < |slots| && slots[i].token == token { assert more[i] == slots[i]; }
  }

  lemma IssueBuriesWhatGoes(cfg: Config, s: Store, e: Event)
    requires cfg.Valid() && IsIssue(e) && Unique(s.entries) && !Holds(s.entries, e.token)
    ensures BuriesWhatGoes(OpsOf(cfg, s, e), s.entries, Apply(cfg, s, e).entries)
  {
    var purged := Purge(cfg, s, e.now);
    var roomy, after := MakeRoom(cfg, purged).entries, Apply(cfg, s, e).entries;
    var entry := NewEntry(cfg, e.now, e.token, e.payload, e.account, e.kind);
    PurgeBuries(cfg, s, e.now);
    EvictionBuries(cfg, purged);
    BuriesInTurn(PurgeOps(cfg, s, e.now), EvictionOps(cfg, purged), s.entries, purged.entries, roomy);
    assert !Holds(roomy, e.token);
    PutFresh(roomy, e.token, entry);
    forall token ensures Holds(after, token) <==> Holds(roomy, token) || token == e.token {
      OneMoreHolds(roomy, Slot(e.token, entry), token);
    }
  }

  /** An event buries exactly what it removes from the entries, and each of it once. */
  lemma EventBuries(cfg: Config, s: Store, e: Event)
    requires cfg.Valid() && Unique(s.entries) && (IsIssue(e) ==> !Holds(s.entries, e.token))
    ensures BuriesWhatGoes(OpsOf(cfg, s, e), s.entries, Apply(cfg, s, e).entries)
  {
    match e
    case Issued(_, _, _, _, _) => if IsIssue(e) { IssueBuriesWhatGoes(cfg, s, e); }
    case Looked(now, token, how) =>
      PurgeBuries(cfg, s, now);
      LookBuriesWhatGoes(cfg, s, now, token, how);
      var purged := Purge(cfg, s, now);
      BuriesInTurn(PurgeOps(cfg, s, now), LookOps(cfg, purged, token, how), s.entries, purged.entries,
                   Look(cfg, s, now, token, how).0.entries);
    case Purged(now) => PurgeBuries(cfg, s, now);
    case Tampered(token, facts) =>
      forall u ensures Holds(Changed(s.entries, token, facts), u) <==> Holds(s.entries, u) {
        ChangedHolds(s.entries, token, facts, u);
      }
  }

  // ----- against the log -----

  lemma {:induction false} HeldArePending(cfg: Config, log: seq<Event>, token: Token)
    requires cfg.Valid() && TokensNeverRepeat(log)
    ensures Unique(Replay(cfg, log).entries)
    ensures Holds(Replay(cfg, log).entries, token) <==> exists i: nat :: Tokened(log, i, token) && Pending(cfg, log, i)
  {
    var list := PendingList(cfg, log);
    StoreFollowsLog(cfg, log);
    PendingListIsPending(cfg, log);
    SlotsAt(cfg, log, list);
    SlotsUnique(cfg, log, list);
    if p :| 0 <= p < |list| && Replay(cfg, log).entries[p].token == token {
      assert list[p] in list;
      assert Tokened(log, list[p], token) && Pending(cfg, log, list[p]);
    }
    if i: nat :| Tokened(log, i, token) && Pending(cfg, log, i) {
      assert i in list;
      var p :| 0 <= p < |list| && list[p] == i;
      assert Replay(cfg, log).entries[p].token == token;
    }
  }

  lemma {:induction false} NewTokenIsNotHeld(cfg: Config, log: seq<Event>, e: Event)
    requires cfg.Valid() && TokensNeverRepeat(log + [e]) && IsIssue(e)
    ensures !Holds(Replay(cfg, log).entries, e.token)
  {
    EarlierTokensDiffer(log, e);
    HeldArePending(cfg, log, e.token);
  }

  lemma EarlierTokensDiffer(log: seq<Event>, e: Event)
    requires TokensNeverRepeat(log + [e])
    ensures TokensNeverRepeat(log)
    ensures IsIssue(e) ==> forall i: nat :: !Tokened(log, i, e.token)
  {
    var more := log + [e];
    assert forall i | 0 <= i < |log| :: more[i] == log[i];
    assert more[|log|] == e;
  }

  /** What the next event buries, in the terms of the log: exactly the pending previews it removes. */
  lemma {:induction false} EveryRemovalIsBuried(cfg: Config, log: seq<Event>, i: nat, e: Event)
    requires cfg.Valid() && TokensNeverRepeat(log + [e]) && Pending(cfg, log, i)
    ensures Buries(OpsOf(cfg, Replay(cfg, log), e), log[i].token) <==> Removes(cfg, log, i, e)
  {
    var more, token := log + [e], log[i].token;
    assert more[..|log|] == log && more[i] == log[i];
    EarlierTokensDiffer(log, e);
    NextEventBuries(cfg, log, e);
    HeldArePending(cfg, log, token);
    HeldArePending(cfg, more, token);
    assert Tokened(log, i, token) && Tokened(more, i, token);
    if k: nat :| Tokened(more, k, token) && Pending(cfg, more, k) { OneHolder(more, i, k, token); }
  }

  /** What was buried was issued, is not held any more, and never will be again. */
  ghost predicate BuriedForGood(cfg: Config, log: seq<Event>, token: Token)
    requires cfg.Valid()
  {
    (exists i: nat :: Tokened(log, i, token)) && !Holds(Replay(cfg, log).entries, token)
  }

  lemma StaysBuried(cfg: Config, log: seq<Event>, e: Event, token: Token)
    requires cfg.Valid() && TokensNeverRepeat(log + [e]) && BuriedForGood(cfg, log, token)
    ensures BuriedForGood(cfg, log + [e], token)
  {
    var more := log + [e];
    assert more[..|log|] == log;
    EarlierTokensDiffer(log, e);
    var i: nat :| Tokened(log, i, token);
    assert Tokened(more, i, token);
    HeldArePending(cfg, log, token);
    HeldArePending(cfg, more, token);
    forall k: nat | Tokened(more, k, token) ensures !Pending(cfg, more, k) {
      OneHolder(more, i, k, token);
      assert Tokened(log, k, token);
    }
  }

  lemma {:induction false} BurialsHappenOnce(cfg: Config, log: seq<Event>)
    requires cfg.Valid() && TokensNeverRepeat(log)
    ensures BuriedOnce(Burials(cfg, log))
    ensures forall token | Buries(Burials(cfg, log), token) :: BuriedForGood(cfg, log, token)
    decreases |log|
  {
    if log != [] {
      var before, e := log[..|log| - 1], log[|log| - 1];
      assert before + [e] == log;
      EarlierTokensDiffer(before, e);
      BurialsHappenOnce(cfg, before);
      NextBurials(cfg, before, e);
    }
  }

  lemma {:induction false} NextEventBuries(cfg: Config, log: seq<Event>, e: Event)
    requires cfg.Valid() && TokensNeverRepeat(log + [e])
    ensures BuriesWhatGoes(OpsOf(cfg, Replay(cfg, log), e), Replay(cfg, log).entries, Replay(cfg, log + [e]).entries)
  {
    assert (log + [e])[..|log|] == log;
    EarlierTokensDiffer(log, e);
    HeldArePending(cfg, log, "");
    if IsIssue(e) { NewTokenIsNotHeld(cfg, log, e); }
    EventBuries(cfg, Replay(cfg, log), e);
  }

  lemma {:induction false} NewlyBuried(cfg: Config, log: seq<Event>, e: Event, token: Token)
    requires cfg.Valid() && TokensNeverRepeat(log + [e]) && Buries(OpsOf(cfg, Replay(cfg, log), e), token)
    ensures BuriedForGood(cfg, log + [e], token)
  {
    NextEventBuries(cfg, log, e);
    EarlierTokensDiffer(log, e);
    HeldArePending(cfg, log, token);
    var i: nat :| Tokened(log, i, token) && Pending(cfg, log, i);
    assert (log + [e])[i] == log[i];
    assert Tokened(log + [e], i, token);
  }

  lemma {:induction false} NextBurials(cfg: Config, before: seq<Event>, e: Event)
    requires cfg.Valid() && TokensNeverRepeat(before + [e])
    requires BuriedOnce(Burials(cfg, before))
    requires forall token | Buries(Burials(cfg, before), token) :: BuriedForGood(cfg, before, token)
    ensures var ops := Burials(cfg, before) + OpsOf(cfg, Replay(cfg, before), e);
      BuriedOnce(ops) && forall token | Buries(ops, token) :: BuriedForGood(cfg, before + [e], token)
  {
    var earlier, latest := Burials(cfg, before), OpsOf(cfg, Replay(cfg, before), e);
    NextEventBuries(cfg, before, e);
    BuriedOnceJoin(earlier, latest);
    forall token | Buries(earlier + latest, token) ensures BuriedForGood(cfg, before + [e], token) {
      BuriesJoin(earlier, latest, token);
      if Buries(earlier, token) { StaysBuried(cfg, before, e, token); } else { NewlyBuried(cfg, before, e, token); }
    }
  }

  /**
   A token's removal can be explained exactly while its burial stands: its time to be forgotten was
   ahead at every clock reading since, and never were `max` later burials remembered with it.
   */
  lemma {:induction false} TombstoneExactlyWhen(cfg: Config, log: seq<Event>, token: Token)
    requires cfg.Valid() && TokensNeverRepeat(log)
    ensures Holds(Replay(cfg, log).tombstones, token) <==> StandsFor(cfg, Burials(cfg, log), token)
  {
    BurialsPlay(cfg, log);
    BurialsHappenOnce(cfg, log);
    HoldsExactlyWhenStanding(cfg, Burials(cfg, log), token);
  }

  /** A lookup calls a token unknown exactly when it does not wait and no burial of it stands. */
  lemma {:induction false} UnknownExactlyWhen(cfg: Config, log: seq<Event>, now: real, token: Token, how: How)
    requires cfg.Valid() && TokensNeverRepeat(log)
    ensures Look(cfg, Replay(cfg, log), now, token, how).1 == Failure(Unknown)
      <==> (forall i: nat :: Tokened(log, i, token) && Pending(cfg, log, i) ==> Expired(cfg, log, i, now))
           && !StandsFor(cfg, Burials(cfg, log + [Purged(now)]), token)
  {
    var s, more := Replay(cfg, log), log + [Purged(now)];
    assert more[..|log|] == log;
    assert TokensNeverRepeat(more);
    assert Replay(cfg, more) == Purge(cfg, s, now);
    StoreFollowsLog(cfg, log);
    WaitingIs(cfg, log, now);
    var found := Finding(cfg, log, s, now, token);
    TombstoneExactlyWhen(cfg, more, token);
    GetFinds(Purge(cfg, s, now).tombstones, token);
  }

  // ----- a simpler rule fails -----

  /** Its burial is not forgotten and fewer than `max` newer ones are remembered, yet it is gone. */
  ghost predicate GoneThoughNewest(cfg: Config, log: seq<Event>, k: nat) {
    && cfg.Valid() && TokensNeverRepeat(log)
    && var ops := Burials(cfg, log);
    && Remembered(ops, k, |ops|) && |NewerThan(ops, k, |ops|)| < cfg.max
    && !Holds(Replay(cfg, log).tombstones, ops[k].slot.token)
  }

  const EXAMPLE := Config(10.0, 2)

  function Issuing(now: real, token: Token): Event { Issued(now, token, Json("{}"), "U1", "k") }

  function Consuming(now: real, token: Token): Event { Looked(now, token, Consume) }

  function Slotted(token: Token, at: real): Slot<Entry> {
    var facts := Facts("k", "U1", Json("{}"), at + 10.0);
    Slot(token, Entry(facts, DigestOf(token, facts), at))
  }

  function Tomb(token: Token, at: real): Slot<Tombstone> {
    Slot(token, Tombstone(Used, at + 10.0, at + 10.0 + 10.0, None))
  }

  /** Nothing in the store is over at `now`. */
  predicate AllAhead(s: Store, now: real) {
    && (forall x | x in s.entries :: x.value.facts.expiresAt > now)
    && (forall x | x in s.tombstones :: x.value.forgetAt > now)
  }

  /** One entry issued while none has expired and there is room. */
  lemma Issues(s: Store, now: real, token: Token)
    requires |s.entries| <= 1 && AllAhead(s, now) && forall x | x in s.entries :: x.token != token
    ensures Apply(EXAMPLE, s, Issuing(now, token)) == s.(entries := s.entries + [Slotted(token, now)])
    ensures OpsOf(EXAMPLE, s, Issuing(now, token)) == [Forgot(now)]
  {
    NothingGoes(s.entries, now);
    NothingForgotten(s.tombstones, now);
    PutFresh(s.entries, token, Slotted(token, now).value);
  }

  lemma {:induction false} NothingGoes(entries: Entries, now: real)
    requires forall x | x in entries :: x.value.facts.expiresAt > now
    ensures LiveOf(entries, now) == entries && ExpiredOf(entries, now) == []
  {
    if entries != [] { NothingGoes(entries[1..], now); }
  }

  lemma {:induction false} NothingForgotten(tombs: Tombstones, now: real)
    requires forall x | x in tombs :: x.value.forgetAt > now
    ensures RememberedOf(tombs, now) == tombs
  {
    if tombs != [] { NothingForgotten(tombs[1..], now); }
  }

  lemma {:induction false} Consumes(s: Store, now: real, token: Token, at: real)
    requires AllAhead(s, now) && Get(s.entries, token) == Some(Slotted(token, at).value)
    ensures Apply(EXAMPLE, s, Consuming(now, token))
         == Store(Without(s.entries, token), Done(EXAMPLE, s.tombstones, Buried(Tomb(token, at))))
    ensures OpsOf(EXAMPLE, s, Consuming(now, token)) == [Forgot(now), Buried(Tomb(token, at))]
  {
    NothingGoes(s.entries, now);
    NothingForgotten(s.tombstones, now);
  }

  /** What the log makes of a store of two previews that live ten seconds. */
  ghost predicate Reaches(log: seq<Event>, s: Store, ops: seq<Op>) {
    forall cfg: Config | cfg.ttl == 10.0 && cfg.max == 2 :: Replay(cfg, log) == s && Burials(cfg, log) == ops
  }

  lemma {:induction false} LogStep(log: seq<Event>, e: Event)
    ensures forall cfg: Config | cfg == EXAMPLE ::
              && Replay(cfg, log + [e]) == Apply(cfg, Replay(cfg, log), e)
              && Burials(cfg, log + [e]) == Burials(cfg, log) + OpsOf(cfg, Replay(cfg, log), e)
  {
    assert (log + [e])[..|log|] == log;
  }

  lemma ThenIssue(log: seq<Event>, s: Store, ops: seq<Op>, now: real, token: Token)
    requires Reaches(log, s, ops) && AllAhead(s, now)
    requires |s.entries| <= 1 && forall x | x in s.entries :: x.token != token
    ensures Reaches(log + [Issuing(now, token)], s.(entries := s.entries + [Slotted(token, now)]), ops + [Forgot(now)])
  {
    Issues(s, now, token);
    LogStep(log, Issuing(now, token));
  }

  lemma {:induction false} ThenConsume(log: seq<Event>, s: Store, ops: seq<Op>, now: real, token: Token, at: real)
    requires Reaches(log, s, ops) && AllAhead(s, now)
    requires Get(s.entries, token) == Some(Slotted(token, at).value)
    ensures Reaches(log + [Consuming(now, token)],
                    Store(Without(s.entries, token), Done(EXAMPLE, s.tombstones, Buried(Tomb(token, at)))),
                    ops + [Forgot(now), Buried(Tomb(token, at))])
  {
    Consumes(s, now, token, at);
    LogStep(log, Consuming(now, token));
  }

  lemma TwoSlots<V>(x: Slot<V>, y: Slot<V>)
    requires x.token != y.token
    ensures Get([x, y], y.token) == Some(y.value) && Without([x, y], y.token) == [x]
    ensures Get([x], x.token) == Some(x.value) && Without([x], x.token) == []
  {
    assert [x, y][1..] == [y] && [x][1..] == [];
  }

  lemma ThreeTombs(t: Slot<Tombstone>, u: Slot<Tombstone>, v: Slot<Tombstone>)
    requires t.token != u.token && u.token != v.token && t.token != v.token
    ensures Done(EXAMPLE, [], Buried(t)) == [t] && Done(EXAMPLE, [t], Buried(u)) == [t, u]
    ensures Done(EXAMPLE, [t, u], Buried(v)) == [u, v]
  {
    PutFresh([], t.token, t.value);
    PutFresh([t], u.token, u.value);
    PutFresh([t, u], v.token, v.value);
  }

  lemma TwoIssued(log: seq<Event>, ops: seq<Op>, a: Token, b: Token)
    requires a != b && Reaches(log, Store([], []), ops)
    ensures Reaches(log + [Issuing(0.0, b)] + [Issuing(5.0, a)], Store([Slotted(b, 0.0), Slotted(a, 5.0)], []),
                    ops + [Forgot(0.0)] + [Forgot(5.0)])
  {
    ThenIssue(log, Store([], []), ops, 0.0, b);
    assert [] + [Slotted(b, 0.0)] == [Slotted(b, 0.0)];
    ThenIssue(log + [Issuing(0.0, b)], Store([Slotted(b, 0.0)], []), ops + [Forgot(0.0)], 5.0, a);
    assert [Slotted(b, 0.0)] + [Slotted(a, 5.0)] == [Slotted(b, 0.0), Slotted(a, 5.0)];
  }

  lemma FirstConsumed(log: seq<Event>, ops: seq<Op>, a: Token, b: Token)
    requires a != b && Reaches(log, Store([Slotted(b, 0.0), Slotted(a, 5.0)], []), ops)
    ensures Reaches(log + [Consuming(6.0, a)], Store([Slotted(b, 0.0)], [Tomb(a, 5.0)]),
                    ops + [Forgot(6.0), Buried(Tomb(a, 5.0))])
  {
    TwoSlots(Slotted(b, 0.0), Slotted(a, 5.0));
    assert Done(EXAMPLE, [], Buried(Tomb(a, 5.0))) == [Tomb(a, 5.0)];
    ThenConsume(log, Store([Slotted(b, 0.0), Slotted(a, 5.0)], []), ops, 6.0, a, 5.0);
  }

  lemma SecondConsumed(log: seq<Event>, ops: seq<Op>, a: Token, b: Token, c: Token)
    requires a != b && b != c && a != c && Reaches(log, Store([Slotted(b, 0.0)], [Tomb(a, 5.0)]), ops)
    ensures Reaches(log + [Consuming(7.0, b)], Store([], [Tomb(a, 5.0), Tomb(b, 0.0)]),
                    ops + [Forgot(7.0), Buried(Tomb(b, 0.0))])
  {
    TwoSlots(Slotted(b, 0.0), Slotted(a, 5.0));
    ThreeTombs(Tomb(a, 5.0), Tomb(b, 0.0), Tomb(c, 8.0));
    ThenConsume(log, Store([Slotted(b, 0.0)], [Tomb(a, 5.0)]), ops, 7.0, b, 0.0);
  }

  /** The third burial takes the room of the first. */
  lemma ThirdConsumed(log: seq<Event>, ops: seq<Op>, a: Token, b: Token, c: Token)
    requires a != b && b != c && a != c && Reaches(log, Store([], [Tomb(a, 5.0), Tomb(b, 0.0)]), ops)
    ensures Reaches(log + [Issuing(8.0, c)] + [Consuming(9.0, c)], Store([], [Tomb(b, 0.0), Tomb(c, 8.0)]),
                    ops + [Forgot(8.0)] + [Forgot(9.0), Buried(Tomb(c, 8.0))])
  {
    var tombs := [Tomb(a, 5.0), Tomb(b, 0.0)];
    ThenIssue(log, Store([], tombs), ops, 8.0, c);
    assert [] + [Slotted(c, 8.0)] == [Slotted(c, 8.0)];
    TwoSlots(Slotted(c, 8.0), Slotted(a, 5.0));
    ThreeTombs(Tomb(a, 5.0), Tomb(b, 0.0), Tomb(c, 8.0));
    ThenConsume(log + [Issuing(8.0, c)], Store([Slotted(c, 8.0)], tombs), ops + [Forgot(8.0)], 9.0, c, 8.0);
  }

  lemma SecondForgotten(log: seq<Event>, ops: seq<Op>, b: Token, c: Token)
    requires Reaches(log, Store([], [Tomb(b, 0.0), Tomb(c, 8.0)]), ops)
    ensures Reaches(log + [Purged(21.0)], Store([], [Tomb(c, 8.0)]), ops + [Forgot(21.0)])
  {
    LogStep(log, Purged(21.0));
    assert RememberedOf([Tomb(c, 8.0)], 21.0) == [Tomb(c, 8.0)];
  }

  lemma WholeRun(a: Token, b: Token, c: Token) returns (log: seq<Event>, ops: seq<Op>)
    requires a != b && b != c && a != c
    ensures Reaches(log, Store([], [Tomb(c, 8.0)]), ops)
    ensures log == [Issuing(0.0, b), Issuing(5.0, a), Consuming(6.0, a), Consuming(7.0, b), Issuing(8.0, c),
                    Consuming(9.0, c), Purged(21.0)]
    ensures ops == [Forgot(0.0), Forgot(5.0), Forgot(6.0), Buried(Tomb(a, 5.0)), Forgot(7.0), Buried(Tomb(b, 0.0)),
                    Forgot(8.0), Forgot(9.0), Buried(Tomb(c, 8.0)), Forgot(21.0)]
  {
    log, ops := [], [];
    TwoIssued(log, ops, a, b);
    log, ops := log + [Issuing(0.0, b)] + [Issuing(5.0, a)], ops + [Forgot(0.0)] + [Forgot(5.0)];
    FirstConsumed(log, ops, a, b);
    log, ops := log + [Consuming(6.0, a)], ops + [Forgot(6.0), Buried(Tomb(a, 5.0))];
    SecondConsumed(log, ops, a, b, c);
    log, ops := log + [Consuming(7.0, b)], ops + [Forgot(7.0), Buried(Tomb(b, 0.0))];
    ThirdConsumed(log, ops, a, b, c);
    log := log + [Issuing(8.0, c)] + [Consuming(9.0, c)];
    ops := ops + [Forgot(8.0)] + [Forgot(9.0), Buried(Tomb(c, 8.0))];
    SecondForgotten(log, ops, b, c);
    log, ops := log + [Purged(21.0)], ops + [Forgot(21.0)];
  }

  lemma ThreeTokens(log: seq<Event>, a: Token, b: Token, c: Token)
    requires a != b && b != c && a != c
    requires log == [Issuing(0.0, b), Issuing(5.0, a), Consuming(6.0, a), Consuming(7.0, b), Issuing(8.0, c),
                     Consuming(9.0, c), Purged(21.0)]
    ensures TokensNeverRepeat(log)
  {
    forall i, j | 0 <= i < j < |log| && IsIssue(log[i]) && IsIssue(log[j]) ensures log[i].token != log[j].token {
      assert i in {0, 1, 4} && j in {0, 1, 4};
    }
  }

  lemma GoneInstead(log: seq<Event>, ops: seq<Op>, left: Slot<Tombstone>, k: nat)
    requires Reaches(log, Store([], [left]), ops) && TokensNeverRepeat(log)
    requires Remembered(ops, k, |ops|) && |NewerThan(ops, k, |ops|)| < 2 && ops[k].slot.token != left.token
    ensures GoneThoughNewest(EXAMPLE, log, k)
  {
    assert Replay(EXAMPLE, log) == Store([], [left]) && Burials(EXAMPLE, log) == ops;
  }

  /** The token buried first, and still remembered, has made room for one forgotten before it. */
  lemma NewestRememberedCanBeGone()
    ensures exists log: seq<Event>, k: nat :: GoneThoughNewest(EXAMPLE, log, k)
  {
    var a, b, c := "a", "b", "c";
    var log, ops := WholeRun(a, b, c);
    ThreeTokens(log, a, b, c);
    OnlyOneNewer(ops, a, b, c);
    GoneInstead(log, ops, Tomb(c, 8.0), 3);
  }

  lemma OnlyOneNewer(ops: seq<Op>, a: Token, b: Token, c: Token)
    requires ops == [Forgot(0.0), Forgot(5.0), Forgot(6.0), Buried(Tomb(a, 5.0)), Forgot(7.0), Buried(Tomb(b, 0.0)),
                     Forgot(8.0), Forgot(9.0), Buried(Tomb(c, 8.0)), Forgot(21.0)]
    ensures Remembered(ops, 3, 10) && |NewerThan(ops, 3, 10)| == 1
  {
    assert NewerThan(ops, 3, 10) == {8} by {
      assert !Remembered(ops, 5, 10) by { assert ops[9] == Forgot(21.0); }
    }
  }
}
