/**
 What the preview store can still explain, stated by the positions in the event log alone: which event
 removed which preview, in which order, and when the clock was read.
 */
module PreviewRemovals {
  import opened Wrappers
  import opened Seqs
  import opened PreviewTokens
  import opened PreviewTombstones

  /** Event `j` removed the preview issued at `i`; or event `j` read the clock, which forgets what is over. */
  datatype Mark = Removed(i: nat, j: nat) | Clock(j: nat)

  ghost predicate RemovedBy(cfg: Config, log: seq<Event>, i: nat, j: nat) {
    j < |log| && Pending(cfg, log[..j], i) && Removes(cfg, log[..j], i, log[j])
  }

  function Time(e: Event): real {
    if At(e).Some? then At(e).value else 0.0
  }

  /** When the removal of the preview at `i` by event `j` is forgotten. */
  ghost function ForgetAt(cfg: Config, log: seq<Event>, i: nat, j: nat): real {
    if i < j <= |log| && log[i].Issued? then Current(cfg, log[..j], i).expiresAt + cfg.ttl else 0.0
  }

  // ----- the removals of a log, in order -----

  ghost function OverdueList(cfg: Config, log: seq<Event>, now: real): seq<nat> {
    Kept(cfg, log, PendingList(cfg, log), Overdue(now))
  }

  ghost function LeavingList(cfg: Config, log: seq<Event>, e: Event): seq<nat> {
    Kept(cfg, log, WaitingList(cfg, log, Time(e)), Leaving(e))
  }

  function Removals(list: seq<nat>, j: nat): seq<Mark> {
    seq(|list|, p requires 0 <= p < |list| => Removed(list[p], j))
  }

  /** What the next event removes: the overdue previews, then, after the clock, the others. */
  ghost function MarksOf(cfg: Config, log: seq<Event>, e: Event): seq<Mark> {
    if At(e).None? then []
    else
      Removals(OverdueList(cfg, log, Time(e)), |log|) + [Clock(|log|)] + Removals(LeavingList(cfg, log, e), |log|)
  }

  ghost function Marks(cfg: Config, log: seq<Event>): seq<Mark> {
    if log == [] then []
    else
      var before := log[..|log| - 1];
      Marks(cfg, before) + MarksOf(cfg, before, log[|log| - 1])
  }

  /** The place of a mark within its event: overdue previews, the clock, the other removals. */
  ghost function Stage(cfg: Config, log: seq<Event>, m: Mark): int {
    match m
    case Clock(_) => 1
    case Removed(i, j) =>
      if i < j < |log| && log[i].Issued? && Expired(cfg, log[..j], i, Time(log[j])) then 0 else 2
  }

  /** By event, then by stage, then by age of the preview. */
  ghost predicate Precedes(cfg: Config, log: seq<Event>, a: Mark, b: Mark) {
    || a.j < b.j
    || (a.j == b.j && Stage(cfg, log, a) < Stage(cfg, log, b))
    || (a.j == b.j && Stage(cfg, log, a) == Stage(cfg, log, b) && a.Removed? && b.Removed? && a.i < b.i)
  }

  ghost predicate InOrder(cfg: Config, log: seq<Event>, marks: seq<Mark>) {
    forall p, q | 0 <= p < q < |marks| :: Precedes(cfg, log, marks[p], marks[q])
  }

  ghost predicate IsMark(cfg: Config, log: seq<Event>, m: Mark) {
    match m
    case Removed(i, j) => RemovedBy(cfg, log, i, j)
    case Clock(j) => j < |log| && At(log[j]).Some?
  }

  lemma MarkStays(cfg: Config, log: seq<Event>, e: Event, m: Mark)
    requires m.j < |log|
    ensures IsMark(cfg, log + [e], m) <==> IsMark(cfg, log, m)
    ensures Stage(cfg, log + [e], m) == Stage(cfg, log, m)
  {
    var more := log + [e];
    assert more[..m.j] == log[..m.j] && more[m.j] == log[m.j];
  }

  lemma {:induction false} OverdueIs(cfg: Config, log: seq<Event>, now: real)
    ensures Increasing(OverdueList(cfg, log, now)) && AllIssued(log, OverdueList(cfg, log, now))
    ensures forall i: nat :: i in OverdueList(cfg, log, now) <==> Pending(cfg, log, i) && Expired(cfg, log, i, now)
  {
    PendingListIsPending(cfg, log);
    KeptMembers(cfg, log, PendingList(cfg, log), Overdue(now));
  }

  lemma {:induction false} LeavingIs(cfg: Config, log: seq<Event>, e: Event)
    ensures Increasing(LeavingList(cfg, log, e)) && AllIssued(log, LeavingList(cfg, log, e))
    ensures forall i: nat :: i in LeavingList(cfg, log, e)
              <==> Pending(cfg, log, i) && !Expired(cfg, log, i, Time(e)) && Removes(cfg, log, i, e)
  {
    WaitingIs(cfg, log, Time(e));
    KeptMembers(cfg, log, WaitingList(cfg, log, Time(e)), Leaving(e));
  }

  lemma NewMarksAre(cfg: Config, log: seq<Event>, e: Event, m: Mark)
    ensures m in MarksOf(cfg, log, e) <==> m.j == |log| && IsMark(cfg, log + [e], m)
  {
    var more := log + [e];
    assert more[..|log|] == log && more[|log|] == e;
    if At(e).Some? {
      OverdueIs(cfg, log, Time(e));
      LeavingIs(cfg, log, e);
      var overdue, leaving := OverdueList(cfg, log, Time(e)), LeavingList(cfg, log, e);
      RemovalsAre(overdue, |log|, m);
      RemovalsAre(leaving, |log|, m);
    }
  }

  lemma RemovalsAre(list: seq<nat>, j: nat, m: Mark)
    ensures m in Removals(list, j) <==> m.Removed? && m.j == j && m.i in list
  {
    var marks := Removals(list, j);
    if m.Removed? && m.j == j && m.i in list {
      var p :| 0 <= p < |list| && list[p] == m.i;
      assert marks[p] == m;
    }
  }

  lemma StagesOf(cfg: Config, log: seq<Event>, e: Event)
    ensures forall i | i in OverdueList(cfg, log, Time(e)) :: Stage(cfg, log + [e], Removed(i, |log|)) == 0
    ensures forall i | i in LeavingList(cfg, log, e) :: Stage(cfg, log + [e], Removed(i, |log|)) == 2
  {
    var more := log + [e];
    assert more[..|log|] == log && more[|log|] == e && forall i | 0 <= i < |log| :: more[i] == log[i];
    OverdueIs(cfg, log, Time(e));
    LeavingIs(cfg, log, e);
  }

  lemma RemovalsInOrder(cfg: Config, log: seq<Event>, list: seq<nat>, j: nat, stage: int)
    requires Increasing(list) && forall i | i in list :: Stage(cfg, log, Removed(i, j)) == stage
    ensures InOrder(cfg, log, Removals(list, j))
  {
    assert forall p | 0 <= p < |list| :: list[p] in list;
  }

  lemma InOrderJoin(cfg: Config, log: seq<Event>, a: seq<Mark>, b: seq<Mark>)
    requires InOrder(cfg, log, a) && InOrder(cfg, log, b)
    requires forall x, y | x in a && y in b :: Precedes(cfg, log, x, y)
    ensures InOrder(cfg, log, a + b)
  {
    var marks := a + b;
    forall p, q | 0 <= p < q < |marks| ensures Precedes(cfg, log, marks[p], marks[q]) {
      if q < |a| {
        assert Precedes(cfg, log, a[p], a[q]);
      } else if p < |a| {
        assert a[p] in a && b[q - |a|] in b;
      } else {
        assert Precedes(cfg, log, b[p - |a|], b[q - |a|]);
      }
    }
  }

  lemma NewMarksInOrder(cfg: Config, log: seq<Event>, e: Event)
    ensures InOrder(cfg, log + [e], MarksOf(cfg, log, e))
  {
    if At(e).Some? {
      var overdue, leaving := OverdueList(cfg, log, Time(e)), LeavingList(cfg, log, e);
      var first, last := Removals(overdue, |log|), Removals(leaving, |log|);
      StagesOf(cfg, log, e);
      OverdueIs(cfg, log, Time(e));
      LeavingIs(cfg, log, e);
      RemovalsInOrder(cfg, log + [e], overdue, |log|, 0);
      RemovalsInOrder(cfg, log + [e], leaving, |log|, 2);
      forall m ensures m in first <==> m.Removed? && m.j == |log| && m.i in overdue { RemovalsAre(overdue, |log|, m); }
      forall m ensures m in last <==> m.Removed? && m.j == |log| && m.i in leaving { RemovalsAre(leaving, |log|, m); }
      InOrderJoin(cfg, log + [e], first, [Clock(|log|)]);
      InOrderJoin(cfg, log + [e], first + [Clock(|log|)], last);
    }
  }

  /** The marks are exactly the removals and clock readings of the log, by event, stage and age. */
  lemma {:induction false} MarksAreTheRemovals(cfg: Config, log: seq<Event>)
    ensures forall m :: m in Marks(cfg, log) <==> IsMark(cfg, log, m)
    ensures InOrder(cfg, log, Marks(cfg, log))
    decreases |log|
  {
    if log != [] {
      var before, e := log[..|log| - 1], log[|log| - 1];
      assert before + [e] == log;
      MarksAreTheRemovals(cfg, before);
      NextMarks(cfg, before, e, Marks(cfg, before));
    }
  }

  lemma NextMarks(cfg: Config, log: seq<Event>, e: Event, marks: seq<Mark>)
    requires (forall m :: m in marks <==> IsMark(cfg, log, m)) && InOrder(cfg, log, marks)
    ensures var more := marks + MarksOf(cfg, log, e);
      (forall m :: m in more <==> IsMark(cfg, log + [e], m)) && InOrder(cfg, log + [e], more)
  {
    var latest := MarksOf(cfg, log, e);
    var more := marks + latest;
    forall m ensures m in more <==> IsMark(cfg, log + [e], m) {
      NewMarksAre(cfg, log, e, m);
      if m.j < |log| { MarkStays(cfg, log, e, m); }
    }
    NewMarksInOrder(cfg, log, e);
    forall p, q | 0 <= p < q < |more| ensures Precedes(cfg, log + [e], more[p], more[q]) {
      if q < |marks| {
        assert marks[p] in marks && marks[q] in marks;
        MarkStays(cfg, log, e, marks[p]);
        MarkStays(cfg, log, e, marks[q]);
      } else if p < |marks| {
        assert marks[p] in marks && latest[q - |marks|] in latest;
        NewMarksAre(cfg, log, e, latest[q - |marks|]);
      } else {
        assert more[p] == latest[p - |marks|] && more[q] == latest[q - |marks|];
      }
    }
  }

  // ----- which removals can still be explained -----

  /** The removal at `k` is not forgotten at a clock reading before `n`. */
  ghost predicate StillKnown(cfg: Config, log: seq<Event>, marks: seq<Mark>, k: nat, n: nat) {
    && k < n <= |marks| && marks[k].Removed?
    && forall x | k < x < n && marks[x].Clock? && marks[x].j < |log| ::
         ForgetAt(cfg, log, marks[k].i, marks[k].j) > Time(log[marks[x].j])
  }

  ghost function LaterKnown(cfg: Config, log: seq<Event>, marks: seq<Mark>, k: nat, n: nat): set<nat> {
    set y: nat | k < y < n && StillKnown(cfg, log, marks, y, n)
  }

  /** Not forgotten, and never followed by `max` later removals that were not forgotten then. */
  ghost predicate Explainable(cfg: Config, log: seq<Event>, k: nat) {
    var marks := Marks(cfg, log);
    && StillKnown(cfg, log, marks, k, |marks|)
    && forall m: nat | k < m <= |marks| :: |LaterKnown(cfg, log, marks, k, m)| < cfg.max
  }

  /** An operation on the tombstones and the mark it comes from. */
  ghost predicate Reflects(cfg: Config, log: seq<Event>, op: Op, m: Mark) {
    match m
    case Clock(j) => j < |log| && op == Forgot(Time(log[j]))
    case Removed(i, j) =>
      && i < j < |log| && op.Buried? && Tokened(log, i, op.slot.token)
      && op.slot.value.forgetAt == ForgetAt(cfg, log, i, j)
  }

  ghost predicate Mirrors(cfg: Config, log: seq<Event>, ops: seq<Op>, marks: seq<Mark>) {
    |ops| == |marks| && forall k | 0 <= k < |ops| :: Reflects(cfg, log, ops[k], marks[k])
  }

  lemma MirrorsJoin(cfg: Config, log: seq<Event>, a: seq<Op>, b: seq<Op>, x: seq<Mark>, y: seq<Mark>)
    requires Mirrors(cfg, log, a, x) && Mirrors(cfg, log, b, y)
    ensures Mirrors(cfg, log, a + b, x + y)
  {
  }

  lemma MirrorsLater(cfg: Config, log: seq<Event>, e: Event, ops: seq<Op>, marks: seq<Mark>)
    requires Mirrors(cfg, log, ops, marks)
    ensures Mirrors(cfg, log + [e], ops, marks)
  {
    var more := log + [e];
    forall k | 0 <= k < |ops| ensures Reflects(cfg, more, ops[k], marks[k]) {
      assert Reflects(cfg, log, ops[k], marks[k]);
      assert more[..marks[k].j] == log[..marks[k].j] && more[marks[k].j] == log[marks[k].j];
    }
  }

  lemma GraveReflects(cfg: Config, log: seq<Event>, e: Event, i: nat, reason: Reason, note: Option<string>)
    requires i < |log| && IsIssue(log[i])
    ensures Reflects(cfg, log + [e], GraveOf(cfg, SlotOf(cfg, log, i), reason, note), Removed(i, |log|))
  {
    assert (log + [e])[..|log|] == log && (log + [e])[i] == log[i];
  }

  lemma {:induction false} GravesReflect(cfg: Config, log: seq<Event>, e: Event, list: seq<nat>, reason: Reason)
    requires AllIssued(log, list)
    ensures Mirrors(cfg, log + [e], GravesOf(cfg, SlotsOf(cfg, log, list), reason), Removals(list, |log|))
  {
    SlotsAt(cfg, log, list);
    GravesAt(cfg, SlotsOf(cfg, log, list), reason);
    forall p | 0 <= p < |list|
      ensures Reflects(cfg, log + [e], GravesOf(cfg, SlotsOf(cfg, log, list), reason)[p], Removed(list[p], |log|))
    {
      assert list[p] in list;
      GraveReflects(cfg, log, e, list[p], reason, None);
    }
  }

  lemma {:induction false} ExpiredSlots(cfg: Config, log: seq<Event>, list: seq<nat>, now: real)
    requires AllIssued(log, list)
    ensures ExpiredOf(SlotsOf(cfg, log, list), now) == SlotsOf(cfg, log, Kept(cfg, log, list, Overdue(now)))
  {
    if list != [] {
      assert list[0] in list;
      ExpiredSlots(cfg, log, list[1..], now);
    }
  }

  lemma PurgeReflects(cfg: Config, log: seq<Event>, s: Store, e: Event)
    requires Follows(cfg, log, s) && At(e).Some?
    ensures Mirrors(cfg, log + [e], PurgeOps(cfg, s, Time(e)),
                    Removals(OverdueList(cfg, log, Time(e)), |log|) + [Clock(|log|)])
  {
    ExpiredSlots(cfg, log, PendingList(cfg, log), Time(e));
    OverdueIs(cfg, log, Time(e));
    GravesReflect(cfg, log, e, OverdueList(cfg, log, Time(e)), OutOfTime);
    assert (log + [e])[|log|] == e;
    MirrorsJoin(cfg, log + [e], GravesOf(cfg, ExpiredOf(s.entries, Time(e)), OutOfTime), [Forgot(Time(e))],
                Removals(OverdueList(cfg, log, Time(e)), |log|), [Clock(|log|)]);
  }

  /** What an issue removes besides the overdue previews: the oldest waiting ones, as many as exceed the room. */
  lemma EvictedList(cfg: Config, log: seq<Event>, e: Event)
    requires cfg.Valid() && IsIssue(e)
    ensures var list := WaitingList(cfg, log, e.now); LeavingList(cfg, log, e) == list[..Excess(cfg, |list|)]
  {
    var list := WaitingList(cfg, log, e.now);
    WaitingIs(cfg, log, e.now);
    forall p | 0 <= p < |list| ensures Keeps(cfg, log, Leaving(e), list[p]) <==> p < Excess(cfg, |list|) {
      WaitingCounted(cfg, log, e.now, p);
      assert list[p] in list;
      assert Removes(cfg, log, list[p], e) <==> Crowded(cfg, log, list[p], e.now);
    }
    FilterPrefix(list, Excess(cfg, |list|), Keeper(cfg, log, Leaving(e)));
  }

  lemma {:induction false} SlotsUpTo(cfg: Config, log: seq<Event>, list: seq<nat>, d: nat)
    requires d <= |list|
    ensures |SlotsOf(cfg, log, list)| == |list| && SlotsOf(cfg, log, list)[..d] == SlotsOf(cfg, log, list[..d])
  {
    SlotsAt(cfg, log, list);
    SlotsAt(cfg, log, list[..d]);
  }

  lemma EvictionReflects(cfg: Config, log: seq<Event>, s: Store, e: Event)
    requires cfg.Valid() && Follows(cfg, log, s) && IsIssue(e)
    ensures Mirrors(cfg, log + [e], EvictionOps(cfg, Purge(cfg, s, e.now)), Removals(LeavingList(cfg, log, e), |log|))
  {
    var list := WaitingList(cfg, log, e.now);
    LiveSlots(cfg, log, PendingList(cfg, log), e.now);
    SlotsUpTo(cfg, log, list, Excess(cfg, |list|));
    EvictedList(cfg, log, e);
    LeavingIs(cfg, log, e);
    GravesReflect(cfg, log, e, LeavingList(cfg, log, e), Evicted);
  }

  lemma TakenList(cfg: Config, log: seq<Event>, e: Event, found: Option<nat>)
    requires e.Looked?
    requires found.Some? ==> found.value in WaitingList(cfg, log, e.now) && Tokened(log, found.value, e.token)
    requires forall k | k in WaitingList(cfg, log, e.now) && Tokened(log, k, e.token) :: found == Some(k)
    ensures LeavingList(cfg, log, e)
         == if found.Some? && Takes(cfg, log, found.value, e.token, e.how) then [found.value] else []
  {
    var list := WaitingList(cfg, log, e.now);
    WaitingIs(cfg, log, e.now);
    forall i | i in list ensures Keeps(cfg, log, Leaving(e), i) <==> Takes(cfg, log, i, e.token, e.how) {
    }
    if found.Some? && Takes(cfg, log, found.value, e.token, e.how) {
      FilterOne(list, found.value, Keeper(cfg, log, Leaving(e)));
    } else {
      FilterNone(list, Keeper(cfg, log, Leaving(e)));
    }
  }

  lemma LookReflects(cfg: Config, log: seq<Event>, s: Store, e: Event)
    requires cfg.Valid() && TokensNeverRepeat(log) && Follows(cfg, log, s) && e.Looked?
    ensures Mirrors(cfg, log + [e], LookOps(cfg, Purge(cfg, s, e.now), e.token, e.how),
                    Removals(LeavingList(cfg, log, e), |log|))
  {
    var found := Finding(cfg, log, s, e.now, e.token);
    TakenList(cfg, log, e, found);
    if found.Some? {
      var i := found.value;
      assert SlotOf(cfg, log, i) == Slot(e.token, SlotOf(cfg, log, i).value);
      GraveReflects(cfg, log, e, i, Invalidated, None);
      GraveReflects(cfg, log, e, i, Used, None);
      if e.how.Discard? { GraveReflects(cfg, log, e, i, Discarded, CleanNote(e.how.note)); }
    }
  }

  /** The burials of an event are its removals, one for one and in their order. */
  lemma EventReflects(cfg: Config, log: seq<Event>, s: Store, e: Event)
    requires cfg.Valid() && TokensNeverRepeat(log) && Follows(cfg, log, s)
    ensures Mirrors(cfg, log + [e], OpsOf(cfg, s, e), MarksOf(cfg, log, e))
  {
    if At(e).Some? {
      var first := Removals(OverdueList(cfg, log, Time(e)), |log|) + [Clock(|log|)];
      var second := Removals(LeavingList(cfg, log, e), |log|);
      PurgeReflects(cfg, log, s, e);
      match e
      case Issued(now, _, _, _, _) =>
        EvictionReflects(cfg, log, s, e);
        MirrorsJoin(cfg, log + [e], PurgeOps(cfg, s, now), EvictionOps(cfg, Purge(cfg, s, now)), first, second);
      case Looked(now, token, how) =>
        LookReflects(cfg, log, s, e);
        MirrorsJoin(cfg, log + [e], PurgeOps(cfg, s, now), LookOps(cfg, Purge(cfg, s, now), token, how), first, second);
      case Purged(now) =>
        NothingElseLeaves(cfg, log, e);
        assert first + second == first;
    }
  }

  lemma NothingElseLeaves(cfg: Config, log: seq<Event>, e: Event)
    requires e.Purged?
    ensures LeavingList(cfg, log, e) == []
  {
    WaitingIs(cfg, log, e.now);
    FilterNone(WaitingList(cfg, log, e.now), Keeper(cfg, log, Leaving(e)));
  }

  lemma {:induction false} BurialsMirrorTheLog(cfg: Config, log: seq<Event>)
    requires cfg.Valid() && TokensNeverRepeat(log)
    ensures Mirrors(cfg, log, Burials(cfg, log), Marks(cfg, log))
    decreases |log|
  {
    if log != [] {
      var before, e := log[..|log| - 1], log[|log| - 1];
      assert before + [e] == log;
      BurialsMirrorTheLog(cfg, before);
      StoreFollowsLog(cfg, before);
      MirrorsLater(cfg, before, e, Burials(cfg, before), Marks(cfg, before));
      EventReflects(cfg, before, Replay(cfg, before), e);
      MirrorsJoin(cfg, log, Burials(cfg, before), OpsOf(cfg, Replay(cfg, before), e),
                  Marks(cfg, before), MarksOf(cfg, before, e));
    }
  }

  lemma SameKnowledge(cfg: Config, log: seq<Event>, ops: seq<Op>, marks: seq<Mark>, k: nat, n: nat)
    requires Mirrors(cfg, log, ops, marks)
    ensures Remembered(ops, k, n) <==> StillKnown(cfg, log, marks, k, n)
  {
    if k < n <= |ops| {
      assert Reflects(cfg, log, ops[k], marks[k]);
      assert forall x | k < x < n :: Reflects(cfg, log, ops[x], marks[x]);
    }
  }

  lemma SameLater(cfg: Config, log: seq<Event>, ops: seq<Op>, marks: seq<Mark>, k: nat, n: nat)
    requires Mirrors(cfg, log, ops, marks)
    ensures NewerThan(ops, k, n) == LaterKnown(cfg, log, marks, k, n)
  {
    forall y: nat ensures y in NewerThan(ops, k, n) <==> y in LaterKnown(cfg, log, marks, k, n) {
      SameKnowledge(cfg, log, ops, marks, y, n);
    }
  }

  lemma {:induction false} SameStanding(cfg: Config, log: seq<Event>, k: nat)
    requires cfg.Valid() && Mirrors(cfg, log, Burials(cfg, log), Marks(cfg, log))
    ensures Stands(cfg, Burials(cfg, log), k, |Burials(cfg, log)|) <==> Explainable(cfg, log, k)
  {
    var ops, marks := Burials(cfg, log), Marks(cfg, log);
    SameKnowledge(cfg, log, ops, marks, k, |ops|);
    forall m: nat ensures NewerThan(ops, k, m) == LaterKnown(cfg, log, marks, k, m) {
      SameLater(cfg, log, ops, marks, k, m);
    }
  }

  /**
   By the log alone: a token's removal can be explained exactly when the log removed it at a mark whose
   time to be forgotten was ahead at every later clock reading, and at no mark since had `max` later
   removals not been forgotten.
   */
  lemma {:induction false} ExplainedExactlyWhen(cfg: Config, log: seq<Event>, token: Token)
    requires cfg.Valid() && TokensNeverRepeat(log)
    ensures Holds(Replay(cfg, log).tombstones, token)
      <==> exists k: nat :: Explainable(cfg, log, k) && Tokened(log, Marks(cfg, log)[k].i, token)
  {
    var ops, marks := Burials(cfg, log), Marks(cfg, log);
    TombstoneExactlyWhen(cfg, log, token);
    BurialsMirrorTheLog(cfg, log);
    forall k: nat ensures Stands(cfg, ops, k, |ops|) && ops[k].slot.token == token
        <==> Explainable(cfg, log, k) && Tokened(log, marks[k].i, token)
    {
      SameStanding(cfg, log, k);
      if k < |ops| { assert Reflects(cfg, log, ops[k], marks[k]); }
    }
  }
}
