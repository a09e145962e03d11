/**
 Each log event's UTC offset, from the anchors around it. The linear two-pass resolution is proved
 equal to the rule the log reader documents.
 */
module LogOffsets {
  import opened Wrappers
  import opened LogEvents

  // ----- the rule -----

  /** The last anchor at a position in `lo..hi`. */
  function LastAnchor(events: seq<Event>, lo: nat, hi: nat): (k: Option<nat>)
    requires lo <= hi <= |events|
    ensures k.Some? ==> lo <= k.value < hi && events[k.value].offset.Some?
    ensures forall i | lo <= i < hi && events[i].offset.Some? :: k.Some? && i <= k.value
    decreases hi - lo
  {
    if lo == hi then None
    else if events[hi - 1].offset.Some? then Some(hi - 1)
    else LastAnchor(events, lo, hi - 1)
  }

  /** The first anchor at a position in `lo..hi`. */
  function FirstAnchor(events: seq<Event>, lo: nat, hi: nat): (k: Option<nat>)
    requires lo <= hi <= |events|
    ensures k.Some? ==> lo <= k.value < hi && events[k.value].offset.Some?
    ensures forall i | lo <= i < hi && events[i].offset.Some? :: k.Some? && k.value <= i
    decreases hi - lo
  {
    if lo == hi then None
    else if events[lo].offset.Some? then Some(lo)
    else FirstAnchor(events, lo + 1, hi)
  }

  /** Where the segment of position `i` begins: at the latest restart, else at the first event. */
  function SegmentStart(events: seq<Event>, i: nat): (s: nat)
    requires i < |events|
    ensures s <= i && (s == 0 || events[s].kind.Restart?)
    ensures forall j | s < j <= i :: !events[j].kind.Restart?
  {
    if i == 0 || events[i].kind.Restart? then i else SegmentStart(events, i - 1)
  }

  /** Where the segment of position `i` ends: at the next restart, else after the last event. */
  function SegmentEnd(events: seq<Event>, i: nat): (e: nat)
    requires i < |events|
    ensures i < e <= |events| && (e == |events| || events[e].kind.Restart?)
    ensures forall j | i < j < e :: !events[j].kind.Restart?
    decreases |events| - i
  {
    if i + 1 == |events| || events[i + 1].kind.Restart? then i + 1 else SegmentEnd(events, i + 1)
  }

  function OffsetAt(events: seq<Event>, k: Option<nat>): Option<int>
    requires k.Some? ==> k.value < |events|
  {
    if k.None? then None else events[k.value].offset
  }

  function Else(a: Option<int>, b: Option<int>): Option<int> {
    if a.Some? then a else b
  }

  /** The latest anchor at or before `i` in the segment `lo..hi`, else the segment's first. */
  function Own(events: seq<Event>, lo: nat, hi: nat, i: nat): Option<int>
    requires lo <= i < hi <= |events|
  {
    Else(OffsetAt(events, LastAnchor(events, lo, i + 1)), OffsetAt(events, FirstAnchor(events, lo, hi)))
  }

  /** What the anchors of its own segment say about position `i`. */
  function OwnAt(events: seq<Event>, i: nat): Option<int>
    requires i < |events|
  {
    Own(events, SegmentStart(events, i), SegmentEnd(events, i), i)
  }

  /** What a segment `lo..hi` without anchors borrows. */
  function Borrowed(events: seq<Event>, fallback: int, lo: nat, hi: nat): int
    requires lo <= hi <= |events|
  {
    var earlier := OffsetAt(events, LastAnchor(events, 0, lo));
    var later := OffsetAt(events, FirstAnchor(events, hi, |events|));
    Else(earlier, Else(later, Some(fallback))).value
  }

  /**
   The latest anchor at or before the event in its segment, else the segment's first anchor, else
   the last anchor of the nearest earlier segment that has one, else the first anchor of the nearest
   later one, else the fallback.
   */
  function Rule(events: seq<Event>, fallback: int, i: nat): int
    requires i < |events|
  {
    if OwnAt(events, i).Some? then OwnAt(events, i).value
    else Borrowed(events, fallback, SegmentStart(events, i), SegmentEnd(events, i))
  }

  ghost predicate IsAnchor(events: seq<Event>, k: nat) {
    k < |events| && events[k].offset.Some?
  }

  /** No restart separates position `a` from the later `b`. */
  ghost predicate Together(events: seq<Event>, a: nat, b: nat) {
    forall j | a < j <= b && j < |events| :: !events[j].kind.Restart?
  }

  /** Position `j` is in the segment of `i`. */
  ghost predicate SameSegment(events: seq<Event>, i: nat, j: nat) {
    if j <= i then Together(events, j, i) else Together(events, i, j)
  }

  lemma {:induction false} SegmentOf(events: seq<Event>, i: nat, j: nat)
    requires i < |events| && j < |events|
    ensures SameSegment(events, i, j) <==> SegmentStart(events, i) <= j < SegmentEnd(events, i)
  {
  }

  lemma {:induction false} LastAnchorIs(events: seq<Event>, lo: nat, hi: nat, k: nat)
    requires lo <= k < hi <= |events| && IsAnchor(events, k) && forall j: nat | k < j < hi :: !IsAnchor(events, j)
    ensures LastAnchor(events, lo, hi) == Some(k)
  {
    var last := LastAnchor(events, lo, hi);
    assert last.Some? && k <= last.value && IsAnchor(events, last.value);
  }

  lemma {:induction false} FirstAnchorIs(events: seq<Event>, lo: nat, hi: nat, k: nat)
    requires lo <= k < hi <= |events| && IsAnchor(events, k) && forall j: nat | lo <= j < k :: !IsAnchor(events, j)
    ensures FirstAnchor(events, lo, hi) == Some(k)
  {
    var first := FirstAnchor(events, lo, hi);
    assert first.Some? && first.value <= k && IsAnchor(events, first.value);
  }

  lemma {:induction false} NoAnchors(events: seq<Event>, lo: nat, hi: nat)
    requires lo <= hi <= |events| && forall j: nat | lo <= j < hi :: !IsAnchor(events, j)
    ensures FirstAnchor(events, lo, hi).None? && LastAnchor(events, lo, hi).None?
  {
    forall j: nat | lo <= j < hi ensures events[j].offset.None? {
      assert !IsAnchor(events, j);
    }
  }

  /** An anchor at or before the event in its segment, with none between, decides. */
  lemma LatestOwnAnchorDecides(events: seq<Event>, fallback: int, i: nat, k: nat)
    requires k <= i < |events| && IsAnchor(events, k) && SameSegment(events, i, k)
    requires forall j: nat | k < j <= i :: !IsAnchor(events, j)
    ensures Rule(events, fallback, i) == events[k].offset.value
  {
    SegmentOf(events, i, k);
    LastAnchorIs(events, SegmentStart(events, i), i + 1, k);
  }

  /** Before the segment's first anchor, that anchor decides. */
  lemma FirstOwnAnchorDecides(events: seq<Event>, fallback: int, i: nat, k: nat)
    requires i < k < |events| && IsAnchor(events, k) && SameSegment(events, i, k)
    requires forall j: nat | j < k && SameSegment(events, i, j) :: !IsAnchor(events, j)
    ensures Rule(events, fallback, i) == events[k].offset.value
  {
    var lo, hi := SegmentStart(events, i), SegmentEnd(events, i);
    forall j: nat | lo <= j < k ensures !IsAnchor(events, j) { SegmentOf(events, i, k); SegmentOf(events, i, j); }
    SegmentOf(events, i, k);
    NoAnchors(events, lo, i + 1);
    FirstAnchorIs(events, lo, hi, k);
  }

  lemma {:induction false} NoOwnAnchors(events: seq<Event>, i: nat)
    requires i < |events| && forall j: nat | j < |events| && SameSegment(events, i, j) :: !IsAnchor(events, j)
    ensures OwnAt(events, i).None?
    ensures forall j: nat | SegmentStart(events, i) <= j < SegmentEnd(events, i) :: !IsAnchor(events, j)
  {
    var lo, hi := SegmentStart(events, i), SegmentEnd(events, i);
    forall j: nat | lo <= j < hi ensures !IsAnchor(events, j) { SegmentOf(events, i, j); }
    NoAnchors(events, lo, hi);
    NoAnchors(events, lo, i + 1);
  }

  /** Without an anchor in its segment, the nearest earlier anchor decides. */
  lemma NearestEarlierDecides(events: seq<Event>, fallback: int, i: nat, k: nat)
    requires k < i < |events| && IsAnchor(events, k) && forall j: nat | k < j < i :: !IsAnchor(events, j)
    requires forall j: nat | j < |events| && SameSegment(events, i, j) :: !IsAnchor(events, j)
    ensures Rule(events, fallback, i) == events[k].offset.value
  {
    NoOwnAnchors(events, i);
    LastAnchorIs(events, 0, SegmentStart(events, i), k);
  }

  /** With none before its segment either, the first anchor of all decides; with none, the fallback. */
  lemma {:induction false} LaterAnchorDecides(events: seq<Event>, fallback: int, i: nat)
    requires i < |events| && forall j: nat | j < SegmentEnd(events, i) :: !IsAnchor(events, j)
    ensures forall k: nat | IsAnchor(events, k) && (forall j: nat | j < k :: !IsAnchor(events, j)) ::
      Rule(events, fallback, i) == events[k].offset.value
    ensures (forall j: nat :: !IsAnchor(events, j)) ==> Rule(events, fallback, i) == fallback
  {
    var lo, hi := SegmentStart(events, i), SegmentEnd(events, i);
    NoAnchors(events, lo, hi);
    NoAnchors(events, lo, i + 1);
    NoAnchors(events, 0, lo);
    forall k: nat | IsAnchor(events, k) && (forall j: nat | j < k :: !IsAnchor(events, j))
      ensures Rule(events, fallback, i) == events[k].offset.value
    {
      FirstAnchorIs(events, hi, |events|, k);
    }
    if forall j: nat :: !IsAnchor(events, j) { NoAnchors(events, hi, |events|); }
  }

  // ----- segments as the resolution builds them -----

  function Range(lo: nat, hi: nat): (r: seq<nat>)
    requires lo <= hi
    ensures |r| == hi - lo
    ensures forall k | 0 <= k < hi - lo :: r[k] == lo + k
  {
    if lo == hi then [] else Range(lo, hi - 1) + [hi - 1]
  }

  /** Positions `lo..hi`, starting at the first event or a restart, with no restart inside. */
  ghost predicate IsSegment(events: seq<Event>, segment: seq<nat>, lo: nat, hi: nat) {
    && lo < hi <= |events| && segment == Range(lo, hi)
    && (lo == 0 || events[lo].kind.Restart?)
    && (forall j | lo < j < hi :: !events[j].kind.Restart?)
  }

  /** `segments` cuts the first `n` events at the restarts; `bounds` are the cuts. */
  ghost predicate Cut(events: seq<Event>, n: nat, segments: seq<seq<nat>>, bounds: seq<nat>) {
    && |bounds| == |segments| + 1 && bounds[0] == 0 && bounds[|segments|] == n
    && (forall k | 0 <= k < |segments| :: IsSegment(events, segments[k], bounds[k], bounds[k + 1]))
  }

  lemma CutOpens(events: seq<Event>, n: nat, segments: seq<seq<nat>>, bounds: seq<nat>)
    requires Cut(events, n, segments, bounds) && n < |events|
    requires segments == [] || events[n].kind.Restart?
    ensures Cut(events, n + 1, segments + [[n]], bounds + [n + 1])
  {
    assert Range(n, n + 1) == [n];
    var wider, further := segments + [[n]], bounds + [n + 1];
    forall k | 0 <= k < |wider| ensures IsSegment(events, wider[k], further[k], further[k + 1]) {
      if k < |segments| { assert IsSegment(events, segments[k], bounds[k], bounds[k + 1]); }
    }
  }

  lemma CutExtends(events: seq<Event>, n: nat, segments: seq<seq<nat>>, bounds: seq<nat>, last: nat)
    requires Cut(events, n, segments, bounds) && n < |events|
    requires |segments| == last + 1 && !events[n].kind.Restart?
    ensures Cut(events, n + 1, segments[last := segments[last] + [n]], bounds[last + 1 := n + 1])
  {
    var wider, further := segments[last := segments[last] + [n]], bounds[last + 1 := n + 1];
    forall k | 0 <= k < |wider| ensures IsSegment(events, wider[k], further[k], further[k + 1]) {
      assert IsSegment(events, segments[k], bounds[k], bounds[k + 1]);
    }
  }

  /** A segment of the cut is the one around each of its positions. */
  lemma {:induction false} SegmentIs(events: seq<Event>, segments: seq<seq<nat>>, bounds: seq<nat>, k: nat, i: nat)
    requires Cut(events, |events|, segments, bounds) && k < |segments| && bounds[k] <= i < bounds[k + 1]
    ensures SegmentStart(events, i) == bounds[k] && SegmentEnd(events, i) == bounds[k + 1]
  {
    assert IsSegment(events, segments[k], bounds[k], bounds[k + 1]);
    if k + 1 < |segments| { assert IsSegment(events, segments[k + 1], bounds[k + 1], bounds[k + 2]); }
    AroundIs(events, bounds[k], bounds[k + 1], i);
  }

  lemma {:induction false} AroundIs(events: seq<Event>, lo: nat, hi: nat, i: nat)
    requires lo <= i < hi <= |events|
    requires lo == 0 || events[lo].kind.Restart?
    requires hi == |events| || events[hi].kind.Restart?
    requires forall j | lo < j < hi :: !events[j].kind.Restart?
    ensures SegmentStart(events, i) == lo && SegmentEnd(events, i) == hi
  {
  }

  // ----- anchors of a growing segment -----

  /** The last anchor before `b` is that of `a..b`, if it has one. */
  lemma {:induction false} LastAnchorJoins(events: seq<Event>, a: nat, b: nat)
    requires a <= b <= |events|
    ensures LastAnchor(events, a, b).Some? ==> LastAnchor(events, 0, b) == LastAnchor(events, a, b)
    ensures LastAnchor(events, a, b).None? ==> LastAnchor(events, 0, b) == LastAnchor(events, 0, a)
  {
  }

  lemma {:induction false} FirstAnchorJoins(events: seq<Event>, a: nat, b: nat, c: nat)
    requires a <= b <= c <= |events|
    ensures FirstAnchor(events, a, b).Some? ==> FirstAnchor(events, a, c) == FirstAnchor(events, a, b)
    ensures FirstAnchor(events, a, b).None? ==> FirstAnchor(events, a, c) == FirstAnchor(events, b, c)
  {
  }

  lemma FirstAnchorGrows(events: seq<Event>, lo: nat, hi: nat)
    requires lo <= hi < |events|
    ensures FirstAnchor(events, lo, hi).Some? ==> FirstAnchor(events, lo, hi + 1) == FirstAnchor(events, lo, hi)
    ensures FirstAnchor(events, lo, hi).None? ==>
      OffsetAt(events, FirstAnchor(events, lo, hi + 1)) == events[hi].offset
  {
    FirstAnchorJoins(events, lo, hi, hi + 1);
    assert FirstAnchor(events, hi, hi + 1) == if events[hi].offset.Some? then Some(hi) else None;
  }

  lemma {:induction false} AnchoredBoth(events: seq<Event>, lo: nat, hi: nat)
    requires lo <= hi <= |events|
    ensures FirstAnchor(events, lo, hi).Some? <==> LastAnchor(events, lo, hi).Some?
  {
  }

  /** Positions already filled keep their offset unless event `hi` is the segment's first anchor. */
  lemma OwnGrows(events: seq<Event>, lo: nat, hi: nat, i: nat)
    requires lo <= i < hi < |events|
    ensures FirstAnchor(events, lo, hi).Some? ==> Own(events, lo, hi + 1, i) == Own(events, lo, hi, i)
    ensures FirstAnchor(events, lo, hi).None? ==> Own(events, lo, hi + 1, i) == events[hi].offset
    ensures FirstAnchor(events, lo, hi).None? ==> Own(events, lo, hi, i).None?
  {
    FirstAnchorGrows(events, lo, hi);
    AnchoredBoth(events, lo, hi);
  }

  lemma OwnOfNewest(events: seq<Event>, lo: nat, hi: nat)
    requires lo <= hi < |events|
    ensures Own(events, lo, hi + 1, hi) == OffsetAt(events, LastAnchor(events, lo, hi + 1))
    ensures LastAnchor(events, lo, hi + 1) == if events[hi].offset.Some? then Some(hi) else LastAnchor(events, lo, hi)
  {
    AnchoredBoth(events, lo, hi + 1);
  }

  // ----- the resolution -----

  /** The first anchor's offset in `lo..hi`. */
  function FirstIn(events: seq<Event>, lo: nat, hi: nat): Option<int> {
    if lo <= hi <= |events| then OffsetAt(events, FirstAnchor(events, lo, hi)) else None
  }

  /** The last anchor's offset in `lo..hi`. */
  function LastIn(events: seq<Event>, lo: nat, hi: nat): Option<int> {
    if lo <= hi <= |events| then OffsetAt(events, LastAnchor(events, lo, hi)) else None
  }

  /** The first anchor's offset from position `lo` on, else the fallback. */
  function Ahead(events: seq<Event>, fallback: int, lo: nat): int {
    Else(FirstIn(events, lo, |events|), Some(fallback)).value
  }

  ghost predicate Firsts(events: seq<Event>, bounds: seq<nat>, firsts: seq<Option<int>>) {
    |firsts| < |bounds| && forall k | 0 <= k < |firsts| :: firsts[k] == FirstIn(events, bounds[k], bounds[k + 1])
  }

  ghost predicate Lasts(events: seq<Event>, bounds: seq<nat>, lasts: seq<Option<int>>) {
    |lasts| < |bounds| && forall k | 0 <= k < |lasts| :: lasts[k] == LastIn(events, bounds[k], bounds[k + 1])
  }

  ghost predicate Aheads(events: seq<Event>, fallback: int, bounds: seq<nat>, following: seq<int>, start: nat) {
    && |following| < |bounds|
    && forall k | start <= k < |following| :: following[k] == Ahead(events, fallback, bounds[k + 1])
  }

  /** Writes `anchor` at the first `count` positions of a segment. */
  method BackFill(segment: seq<nat>, count: nat, anchor: Option<int>, offsets: array<Option<int>>,
                  ghost lo: nat, ghost hi: nat)
    requires lo <= hi <= offsets.Length && segment == Range(lo, hi) && count <= |segment|
    modifies offsets
    ensures forall i | 0 <= i < offsets.Length ::
      offsets[i] == if lo <= i < lo + count then anchor else old(offsets[i])
  {
    for earlier := 0 to count
      invariant forall i | 0 <= i < offsets.Length ::
        offsets[i] == if lo <= i < lo + earlier then anchor else old(offsets[i])
    {
      offsets[segment[earlier]] := anchor;
    }
  }

  /** Positions `lo..hi` hold what the anchors of `lo..hi` say; the others are as in `before`. */
  ghost predicate Filled(events: seq<Event>, lo: nat, hi: nat, before: seq<Option<int>>, offsets: seq<Option<int>>) {
    && lo <= hi <= |events| == |offsets| == |before|
    && (forall i | lo <= i < hi :: offsets[i] == Own(events, lo, hi, i))
    && (forall i | 0 <= i < |events| && !(lo <= i < hi) :: offsets[i] == before[i])
  }

  lemma FilledGrows(events: seq<Event>, lo: nat, hi: nat, before: seq<Option<int>>, offsets: seq<Option<int>>,
                    grown: seq<Option<int>>)
    requires Filled(events, lo, hi, before, offsets) && hi < |events| == |grown|
    requires grown[hi] == LastIn(events, lo, hi + 1)
    requires forall i | 0 <= i < |events| && i != hi :: grown[i] == if lo <= i < hi && FirstIn(events, lo, hi).None?
      then events[hi].offset else offsets[i]
    ensures Filled(events, lo, hi + 1, before, grown)
  {
    OwnOfNewest(events, lo, hi);
    forall i | lo <= i < hi ensures grown[i] == Own(events, lo, hi + 1, i) {
      OwnGrows(events, lo, hi, i);
    }
  }

  method FillSegment(events: seq<Event>, segment: seq<nat>, offsets: array<Option<int>>, ghost lo: nat, ghost hi: nat)
    returns (first: Option<int>, last: Option<int>)
    requires offsets.Length == |events| && lo <= hi <= |events| && segment == Range(lo, hi)
    modifies offsets
    ensures first == FirstIn(events, lo, hi) && last == LastIn(events, lo, hi)
    ensures Filled(events, lo, hi, old(offsets[..]), offsets[..])
  {
    first := None;
    var current: Option<int> := None;
    for position := 0 to |segment|
      invariant first == FirstIn(events, lo, lo + position) && current == LastIn(events, lo, lo + position)
      invariant Filled(events, lo, lo + position, old(offsets[..]), offsets[..])
    {
      first, current := FillOne(events, segment, position, first, current, offsets, lo, hi, old(offsets[..]));
    }
    last := current;
  }

  /** One position of the segment: its first anchor also covers what precedes it. */
  method FillOne(events: seq<Event>, segment: seq<nat>, position: nat, first: Option<int>, current: Option<int>,
                 offsets: array<Option<int>>, ghost lo: nat, ghost hi: nat, ghost before: seq<Option<int>>)
    returns (first': Option<int>, current': Option<int>)
    requires offsets.Length == |events| && lo <= hi <= |events| && segment == Range(lo, hi) && position < |segment|
    requires first == FirstIn(events, lo, lo + position) && current == LastIn(events, lo, lo + position)
    requires Filled(events, lo, lo + position, before, offsets[..])
    modifies offsets
    ensures first' == FirstIn(events, lo, lo + position + 1) && current' == LastIn(events, lo, lo + position + 1)
    ensures Filled(events, lo, lo + position + 1, before, offsets[..])
  {
    var index := segment[position];
    var anchor := events[index].offset;
    first', current' := first, current;
    if anchor.Some? {
      if first.None? {
        first' := anchor;
        BackFill(segment, position, anchor, offsets, lo, hi);
      }
      current' := anchor;
    }
    offsets[index] := current';
    FirstAnchorGrows(events, lo, index);
    OwnOfNewest(events, lo, index);
    NoneWithout(events, lo, index, before, old(offsets[..]));
    FilledGrows(events, lo, index, before, old(offsets[..]), offsets[..]);
  }

  lemma NoneWithout(events: seq<Event>, lo: nat, hi: nat, before: seq<Option<int>>, offsets: seq<Option<int>>)
    requires Filled(events, lo, hi, before, offsets)
    ensures FirstIn(events, lo, hi).None? ==> forall i | lo <= i < hi :: offsets[i].None?
  {
  }

  /** The cuts at the restarts. */
  method Segments(events: seq<Event>) returns (segments: seq<seq<nat>>, ghost bounds: seq<nat>)
    ensures Cut(events, |events|, segments, bounds)
  {
    segments := [];
    bounds := [0];
    for index := 0 to |events|
      invariant Cut(events, index, segments, bounds)
      invariant index > 0 ==> segments != []
    {
      if segments == [] || events[index].kind.Restart? {
        CutOpens(events, index, segments, bounds);
        bounds := bounds + [index + 1];
        segments := segments + [[index]];
      } else {
        var last := |segments| - 1;
        CutExtends(events, index, segments, bounds, last);
        bounds := bounds[last + 1 := index + 1];
        segments := segments[last := segments[last] + [index]];
      }
    }
  }

  /** For each segment, the first offset of the next segment with an anchor (one pass back). */
  method Following(events: seq<Event>, fallback: int, firsts: seq<Option<int>>, ghost segments: seq<seq<nat>>,
                   ghost bounds: seq<nat>)
    returns (following: seq<int>)
    requires Cut(events, |events|, segments, bounds) && |firsts| == |segments|
    requires Firsts(events, bounds, firsts)
    ensures |following| == |segments|
    ensures Aheads(events, fallback, bounds, following, 0)
  {
    following := seq(|firsts|, _ => fallback);
    var carry := fallback;
    var number := |firsts|;
    while number > 0
      invariant 0 <= number <= |firsts| && |following| == |firsts|
      invariant bounds[number] <= |events| && carry == Ahead(events, fallback, bounds[number])
      invariant Aheads(events, fallback, bounds, following, number)
    {
      number := number - 1;
      following := following[number := carry];
      assert IsSegment(events, segments[number], bounds[number], bounds[number + 1]);
      FirstAnchorJoins(events, bounds[number], bounds[number + 1], |events|);
      if firsts[number].Some? {
        carry := firsts[number].value;
      }
    }
  }

  /** Every event gets the offset of the rule. */
  method ResolveOffsets(events: seq<Event>, fallback: int) returns (resolved: seq<int>)
    ensures |resolved| == |events|
    ensures forall i | 0 <= i < |events| :: resolved[i] == Rule(events, fallback, i)
  {
    var segments, bounds := Segments(events);
    var offsets := new Option<int>[|events|](_ => None);
    var firsts, lasts := FillAll(events, segments, offsets, bounds);
    var following := Following(events, fallback, firsts, segments, bounds);
    Borrow(events, fallback, segments, firsts, lasts, following, offsets, bounds);
    resolved := seq(|events|, i requires 0 <= i < |events| reads offsets =>
      if offsets[i].Some? then offsets[i].value else fallback);
  }

  /** The first `n` positions hold what their own segments say. */
  ghost predicate OwnUpTo(events: seq<Event>, n: nat, offsets: seq<Option<int>>) {
    n <= |events| == |offsets| && forall i | 0 <= i < n :: offsets[i] == OwnAt(events, i)
  }

  lemma FilledIsOwn(events: seq<Event>, segments: seq<seq<nat>>, bounds: seq<nat>, k: nat, before: seq<Option<int>>,
                    offsets: seq<Option<int>>)
    requires Cut(events, |events|, segments, bounds) && k < |segments|
    requires Filled(events, bounds[k], bounds[k + 1], before, offsets)
    requires OwnUpTo(events, bounds[k], before)
    ensures OwnUpTo(events, bounds[k + 1], offsets)
  {
    forall i | bounds[k] <= i < bounds[k + 1] ensures offsets[i] == OwnAt(events, i) {
      SegmentIs(events, segments, bounds, k, i);
    }
  }

  /** The pass over the segments: each is filled from its own anchors. */
  method FillAll(events: seq<Event>, segments: seq<seq<nat>>, offsets: array<Option<int>>, ghost bounds: seq<nat>)
    returns (firsts: seq<Option<int>>, lasts: seq<Option<int>>)
    requires offsets.Length == |events| && Cut(events, |events|, segments, bounds)
    modifies offsets
    ensures |firsts| == |lasts| == |segments|
    ensures Firsts(events, bounds, firsts)
    ensures Lasts(events, bounds, lasts)
    ensures OwnUpTo(events, |events|, offsets[..])
  {
    firsts, lasts := [], [];
    for number := 0 to |segments|
      invariant |firsts| == |lasts| == number && bounds[number] <= |events|
      invariant Firsts(events, bounds, firsts)
      invariant Lasts(events, bounds, lasts)
      invariant OwnUpTo(events, bounds[number], offsets[..])
    {
      assert IsSegment(events, segments[number], bounds[number], bounds[number + 1]);
      ghost var lo, hi := bounds[number], bounds[number + 1];
      ghost var before := offsets[..];
      var first, last := FillSegment(events, segments[number], offsets, lo, hi);
      FilledIsOwn(events, segments, bounds, number, before, offsets[..]);
      firsts, lasts := firsts + [first], lasts + [last];
    }
  }

  /** The forward pass: a segment without anchors takes the previous offset, else the following one. */
  method Borrow(events: seq<Event>, fallback: int, segments: seq<seq<nat>>, firsts: seq<Option<int>>,
                lasts: seq<Option<int>>, following: seq<int>, offsets: array<Option<int>>, ghost bounds: seq<nat>)
    requires offsets.Length == |events| && Cut(events, |events|, segments, bounds)
    requires |firsts| == |lasts| == |following| == |segments|
    requires Firsts(events, bounds, firsts)
    requires Lasts(events, bounds, lasts)
    requires Aheads(events, fallback, bounds, following, 0)
    requires OwnUpTo(events, |events|, offsets[..])
    modifies offsets
    ensures forall i | 0 <= i < |events| :: offsets[i] == Some(Rule(events, fallback, i))
  {
    var previous: Option<int> := None;
    for number := 0 to |segments|
      invariant bounds[number] <= |events|
      invariant previous == OffsetAt(events, LastAnchor(events, 0, bounds[number]))
      invariant forall i | 0 <= i < bounds[number] :: offsets[i] == Some(Rule(events, fallback, i))
      invariant forall i | bounds[number] <= i < |events| :: offsets[i] == OwnAt(events, i)
    {
      assert IsSegment(events, segments[number], bounds[number], bounds[number + 1]);
      ghost var lo, hi := bounds[number], bounds[number + 1];
      LastAnchorJoins(events, lo, hi);
      AnchoredBoth(events, lo, hi);
      forall i | lo <= i < hi
        ensures firsts[number].Some? ==> OwnAt(events, i) == Some(Rule(events, fallback, i))
        ensures firsts[number].None? ==> Rule(events, fallback, i) == Borrowed(events, fallback, lo, hi)
      {
        SegmentIs(events, segments, bounds, number, i);
        RuleOfSegment(events, fallback, lo, hi, i);
      }
      if firsts[number].Some? {
        previous := lasts[number];
        continue;
      }
      var borrowed := if previous.Some? then previous.value else following[number];
      BackFill(segments[number], |segments[number]|, Some(borrowed), offsets, lo, hi);
    }
  }

  lemma {:induction false} RuleOfSegment(events: seq<Event>, fallback: int, lo: nat, hi: nat, i: nat)
    requires lo <= i < hi <= |events| && SegmentStart(events, i) == lo && SegmentEnd(events, i) == hi
    ensures OffsetAt(events, FirstAnchor(events, lo, hi)).Some? ==> OwnAt(events, i) == Some(Rule(events, fallback, i))
    ensures OffsetAt(events, FirstAnchor(events, lo, hi)).None? ==>
              Rule(events, fallback, i) == Borrowed(events, fallback, lo, hi)
  {
    AnchoredBoth(events, lo, hi);
  }
}
