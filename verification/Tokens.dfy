/**
 The preview token store: single-use, expiring, bounded, with bounded tombstones that explain
 later lookups. The store is proved to refine a plain log of what happened to it.

 The digest is an injective function of what it covers, so it is modelled as those values.
 Insertion-ordered dicts are sequences of slots with distinct tokens.
 */
module PreviewTokens {
  import opened Wrappers
  import opened Seqs
  import opened Texts

  type Token = string

  /** The payload's canonical JSON, or a value that JSON cannot encode. */
  datatype Payload = Json(text: string) | Unencodable

  /** What the digest of an entry covers. */
  datatype Facts = Facts(kind: string, account: string, payload: Payload, expiresAt: real)

  datatype Digest = Digest(token: Token, facts: Facts) | NoDigest

  function DigestOf(token: Token, facts: Facts): Digest {
    if facts.payload.Unencodable? then NoDigest else Digest(token, facts)
  }

  datatype Entry = Entry(facts: Facts, digest: Digest, createdAt: real)

  datatype Reason = Used | Discarded | OutOfTime | Evicted | Invalidated

  datatype Tombstone = Tombstone(reason: Reason, expiresAt: real, forgetAt: real, note: Option<string>)

  datatype Slot<V> = Slot(token: Token, value: V)

  type Entries = seq<Slot<Entry>>
  type Tombstones = seq<Slot<Tombstone>>

  datatype Config = Config(ttl: real, max: nat) {
    predicate Valid() { ttl > 0.0 && max >= 1 }
  }

  datatype Store = Store(entries: Entries, tombstones: Tombstones)

  datatype Record = Record(token: Token, facts: Facts, createdAt: real)

  /** What a failed call says. */
  datatype Error =
    | Invalid
    | Unknown
    | Gone(reason: Reason, note: Option<string>)

  datatype How = Peek | Consume | Discard(note: Option<string>)

  // ----- ordered dicts -----

  predicate Holds<V>(slots: seq<Slot<V>>, token: Token) {
    exists i :: 0 <= i < |slots| && slots[i].token == token
  }

  predicate Unique<V>(slots: seq<Slot<V>>) {
    forall i, j | 0 <= i < j < |slots| :: slots[i].token != slots[j].token
  }

  function Get<V>(slots: seq<Slot<V>>, token: Token): Option<V> {
    if slots == [] then None
    else if slots[0].token == token then Some(slots[0].value)
    else Get(slots[1..], token)
  }

  function Without<V>(slots: seq<Slot<V>>, token: Token): seq<Slot<V>> {
    if slots == [] then []
    else if slots[0].token == token then slots[1..]
    else [slots[0]] + Without(slots[1..], token)
  }

  /** Assignment: an existing key keeps its place. */
  function Put<V>(slots: seq<Slot<V>>, token: Token, value: V): seq<Slot<V>> {
    if slots == [] then [Slot(token, value)]
    else if slots[0].token == token then [Slot(token, value)] + slots[1..]
    else [slots[0]] + Put(slots[1..], token, value)
  }

  lemma {:induction false} GetFinds<V>(slots: seq<Slot<V>>, token: Token)
    ensures Get(slots, token).Some? <==> Holds(slots, token)
    ensures Get(slots, token).Some? ==> Slot(token, Get(slots, token).value) in slots
  {
    if slots != [] {
      GetFinds(slots[1..], token);
      assert forall i | 0 <= i < |slots[1..]| :: slots[1..][i] == slots[i + 1];
      assert Holds(slots, token) <==> slots[0].token == token || Holds(slots[1..], token) by {
        if Holds(slots, token) && slots[0].token != token {
          var i :| 0 <= i < |slots| && slots[i].token == token;
          assert slots[1..][i - 1].token == token;
        }
      }
    }
  }

  lemma {:induction false} PutFresh<V>(slots: seq<Slot<V>>, token: Token, value: V)
    requires !Holds(slots, token)
    ensures Put(slots, token, value) == slots + [Slot(token, value)]
  {
    if slots != [] {
      assert forall i | 0 <= i < |slots[1..]| :: slots[1..][i] == slots[i + 1];
      PutFresh(slots[1..], token, value);
    }
  }

  // ----- the operations -----

  function Bury(cfg: Config, tombs: Tombstones, token: Token, reason: Reason, expiresAt: real,
                note: Option<string>): Tombstones
  {
    KeepLast(Put(tombs, token, Tombstone(reason, expiresAt, expiresAt + cfg.ttl, note)), cfg.max)
  }

  function BuryAll(cfg: Config, tombs: Tombstones, gone: Entries, reason: Reason): Tombstones
    decreases |gone|
  {
    if gone == [] then tombs
    else BuryAll(cfg, Bury(cfg, tombs, gone[0].token, reason, gone[0].value.facts.expiresAt, None), gone[1..], reason)
  }

  function LiveOf(entries: Entries, now: real): Entries {
    if entries == [] then []
    else (if entries[0].value.facts.expiresAt > now then [entries[0]] else []) + LiveOf(entries[1..], now)
  }

  function ExpiredOf(entries: Entries, now: real): Entries {
    if entries == [] then []
    else (if entries[0].value.facts.expiresAt > now then [] else [entries[0]]) + ExpiredOf(entries[1..], now)
  }

  function RememberedOf(tombs: Tombstones, now: real): Tombstones {
    if tombs == [] then []
    else (if tombs[0].value.forgetAt > now then [tombs[0]] else []) + RememberedOf(tombs[1..], now)
  }

  function Purge(cfg: Config, s: Store, now: real): Store {
    Store(LiveOf(s.entries, now),
          RememberedOf(BuryAll(cfg, s.tombstones, ExpiredOf(s.entries, now), OutOfTime), now))
  }

  function MakeRoom(cfg: Config, s: Store): Store
    requires cfg.Valid()
  {
    var dropped := if |s.entries| >= cfg.max then |s.entries| - cfg.max + 1 else 0;
    Store(s.entries[dropped..], BuryAll(cfg, s.tombstones, s.entries[..dropped], Evicted))
  }

  predicate Accepted(account: string, kind: string, payload: Payload) {
    account != "" && kind != "" && payload.Json?
  }

  function NewEntry(cfg: Config, now: real, token: Token, payload: Payload, account: string, kind: string): Entry {
    var facts := Facts(kind, account, payload, now + cfg.ttl);
    Entry(facts, DigestOf(token, facts), now)
  }

  /** `token` is the random one drawn; the draw is repeated until it is new to both dicts. */
  function Issue(cfg: Config, s: Store, now: real, token: Token, payload: Payload, account: string, kind: string)
    : (Store, Result<Token, Error>)
    requires cfg.Valid()
  {
    if !Accepted(account, kind, payload) then (s, Failure(Invalid))
    else
      var roomy := MakeRoom(cfg, Purge(cfg, s, now));
      (roomy.(entries := Put(roomy.entries, token, NewEntry(cfg, now, token, payload, account, kind))), Success(token))
  }

  function GoneError(tombs: Tombstones, token: Token): Error {
    match Get(tombs, token)
    case None => Unknown
    case Some(tomb) => Gone(tomb.reason, tomb.note)
  }

  predicate Intact(token: Token, e: Entry) {
    DigestOf(token, e.facts) == e.digest
  }

  const MAX_NOTE := 200

  /** A note as it is kept: its words with one blank between them, cut off; nothing without words. */
  function CleanNote(note: Option<string>): Option<string> {
    if note.None? then None
    else
      var clean := Collapsed(note.value);
      var cut := if |clean| > MAX_NOTE then clean[..MAX_NOTE] else clean;
      if cut == "" then None else Some(cut)
  }

  /** A note is kept exactly when it has a word: its words with single blanks between, or the first 200 characters. */
  lemma {:induction false} KeptNotesAreTidy(text: string)
    ensures CleanNote(Some(text)).None? <==> Words(text) == []
    ensures CleanNote(Some(text)).Some? ==>
              var kept, whole := CleanNote(Some(text)).value, Collapsed(text);
              && Words(whole) == Words(text) && OnlyInnerBlanks(whole)
              && kept <= whole && |kept| == (if |whole| <= 200 then |whole| else 200)
              && (|whole| <= 200 <==> kept == whole)
  {
    CollapsingKeepsWords(text);
  }

  /** `peek`, `consume_record` and `discard`. */
  function Look(cfg: Config, s: Store, now: real, token: Token, how: How): (Store, Result<Record, Error>) {
    var purged := Purge(cfg, s, now);
    match Get(purged.entries, token)
    case None => (purged, Failure(GoneError(purged.tombstones, token)))
    case Some(e) =>
      if !Intact(token, e) then
        (Taken(cfg, purged, token, e, Invalidated, None), Failure(Gone(Invalidated, None)))
      else
        (match how
         case Peek => purged
         case Consume => Taken(cfg, purged, token, e, Used, None)
         case Discard(note) => Taken(cfg, purged, token, e, Discarded, CleanNote(note)),
         Success(Record(token, e.facts, e.createdAt)))
  }

  function Taken(cfg: Config, s: Store, token: Token, e: Entry, reason: Reason, note: Option<string>): Store {
    Store(Without(s.entries, token), Bury(cfg, s.tombstones, token, reason, e.facts.expiresAt, note))
  }

  // ----- the event log -----

  /** A call on the store, or a change made to a stored entry behind its back. */
  datatype Event =
    | Issued(now: real, token: Token, payload: Payload, account: string, kind: string)
    | Looked(now: real, token: Token, how: How)
    | Purged(now: real)
    | Tampered(token: Token, facts: Facts)

  predicate IsIssue(e: Event) {
    e.Issued? && e.account != "" && e.kind != "" && e.payload.Json?
  }

  function Changed(entries: Entries, token: Token, facts: Facts): Entries {
    if entries == [] then []
    else
      [if entries[0].token == token then Slot(token, entries[0].value.(facts := facts)) else entries[0]]
      + Changed(entries[1..], token, facts)
  }

  function Apply(cfg: Config, s: Store, e: Event): Store
    requires cfg.Valid()
  {
    match e
    case Issued(now, token, payload, account, kind) => Issue(cfg, s, now, token, payload, account, kind).0
    case Looked(now, token, how) => Look(cfg, s, now, token, how).0
    case Purged(now) => Purge(cfg, s, now)
    case Tampered(token, facts) => s.(entries := Changed(s.entries, token, facts))
  }

  function Replay(cfg: Config, log: seq<Event>): Store
    requires cfg.Valid()
  {
    if log == [] then Store([], [])
    else Apply(cfg, Replay(cfg, log[..|log| - 1]), log[|log| - 1])
  }

  /** 192 random bits: no token is drawn twice. */
  ghost predicate TokensNeverRepeat(log: seq<Event>) {
    forall i, j | 0 <= i < j < |log| && IsIssue(log[i]) && IsIssue(log[j]) :: log[i].token != log[j].token
  }

  // ----- what the log says, without the store -----

  /** What the preview at `i` was issued with. */
  ghost function Original(cfg: Config, log: seq<Event>, i: nat): Facts
    requires i < |log| && log[i].Issued?
  {
    Facts(log[i].kind, log[i].account, log[i].payload, log[i].now + cfg.ttl)
  }

  /** What the entry of the preview at `i` holds now: the last change to it, if any. */
  ghost function Current(cfg: Config, log: seq<Event>, i: nat): Facts
    requires i < |log| && log[i].Issued?
  {
    var last := log[|log| - 1];
    if i == |log| - 1 then Original(cfg, log, i)
    else if last.Tampered? && last.token == log[i].token then last.facts
    else Current(cfg, log[..|log| - 1], i)
  }

  ghost predicate Expired(cfg: Config, log: seq<Event>, i: nat, at: real)
    requires i < |log| && log[i].Issued?
  {
    Current(cfg, log, i).expiresAt <= at
  }

  /** The preview at `i` waits in the store after the whole log. */
  ghost predicate Pending(cfg: Config, log: seq<Event>, i: nat)
    decreases |log|, 1
  {
    && i < |log|
    && IsIssue(log[i])
    && (i == |log| - 1 || (Pending(cfg, log[..|log| - 1], i) && !Removes(cfg, log[..|log| - 1], i, log[|log| - 1])))
  }

  /** The previews issued at or after `i` that still wait at time `at`. */
  ghost function WaitingSince(cfg: Config, log: seq<Event>, i: nat, at: real): set<nat>
    decreases |log|, 2
  {
    set k: nat | i <= k < |log| && Pending(cfg, log, k) && !Expired(cfg, log, k, at)
  }

  /** An issue at `at` evicts the preview at `i`: counted from it, the store is full. */
  ghost predicate Crowded(cfg: Config, log: seq<Event>, i: nat, at: real)
    decreases |log|, 3
  {
    |WaitingSince(cfg, log, i, at)| >= cfg.max
  }

  /** The next event removes the pending preview at `i`. */
  ghost predicate Removes(cfg: Config, log: seq<Event>, i: nat, e: Event)
    requires i < |log| && log[i].Issued?
    decreases |log|, 4
  {
    match e
    case Issued(now, _, _, _, _) => IsIssue(e) && (Expired(cfg, log, i, now) || Crowded(cfg, log, i, now))
    case Looked(now, token, how) =>
      || Expired(cfg, log, i, now)
      || (token == log[i].token && (!how.Peek? || Current(cfg, log, i) != Original(cfg, log, i)))
    case Purged(now) => Expired(cfg, log, i, now)
    case Tampered(_, _) => false
  }

  // ----- lists of previews, by their position in the log -----

  ghost predicate Tokened(log: seq<Event>, i: nat, token: Token) {
    i < |log| && IsIssue(log[i]) && log[i].token == token
  }

  /** Whether a lookup takes the preview at `i`, given that it waits. */
  ghost predicate Takes(cfg: Config, log: seq<Event>, i: nat, token: Token, how: How) {
    Tokened(log, i, token) && (!how.Peek? || Current(cfg, log, i) != Original(cfg, log, i))
  }

  ghost predicate AllIssued(log: seq<Event>, list: seq<nat>) {
    forall i | i in list :: i < |log| && IsIssue(log[i])
  }

  /** The selections that operations make among the pending previews. */
  datatype Selection =
    | Waiting(now: real)
    | Uncrowded(now: real)
    | Untaken(token: Token, how: How)
    | Other(token: Token)
    | Staying(event: Event)
    | Overdue(now: real)
    | Leaving(event: Event)

  ghost predicate Keeps(cfg: Config, log: seq<Event>, sel: Selection, i: nat) {
    i < |log| && IsIssue(log[i]) &&
    match sel
    case Waiting(now) => !Expired(cfg, log, i, now)
    case Uncrowded(now) => !Crowded(cfg, log, i, now)
    case Untaken(token, how) => !Takes(cfg, log, i, token, how)
    case Other(token) => log[i].token != token
    case Staying(e) => !Removes(cfg, log, i, e)
    case Overdue(now) => Expired(cfg, log, i, now)
    case Leaving(e) => Removes(cfg, log, i, e)
  }

  ghost function Keeper(cfg: Config, log: seq<Event>, sel: Selection): nat -> bool {
    (i: nat) => Keeps(cfg, log, sel, i)
  }

  ghost function Kept(cfg: Config, log: seq<Event>, list: seq<nat>, sel: Selection): seq<nat> {
    Filter(list, Keeper(cfg, log, sel))
  }

  lemma KeptMembers(cfg: Config, log: seq<Event>, list: seq<nat>, sel: Selection)
    ensures forall i: nat :: i in Kept(cfg, log, list, sel) <==> i in list && Keeps(cfg, log, sel, i)
    ensures |Kept(cfg, log, list, sel)| <= |list| && AllIssued(log, Kept(cfg, log, list, sel))
    ensures Increasing(list) ==> Increasing(Kept(cfg, log, list, sel))
  {
    FilterMembers(list, Keeper(cfg, log, sel));
    if Increasing(list) { FilterIncreasing(list, Keeper(cfg, log, sel)); }
  }

  lemma KeptTwice(cfg: Config, log: seq<Event>, list: seq<nat>, one: Selection, two: Selection, both: Selection)
    requires forall i | i in list :: Keeps(cfg, log, both, i) <==> Keeps(cfg, log, one, i) && Keeps(cfg, log, two, i)
    ensures Kept(cfg, log, Kept(cfg, log, list, one), two) == Kept(cfg, log, list, both)
  {
    FilterTwice(list, Keeper(cfg, log, one), Keeper(cfg, log, two), Keeper(cfg, log, both));
  }

  lemma KeptSame(cfg: Config, log: seq<Event>, list: seq<nat>, one: Selection, two: Selection)
    requires forall i | i in list :: Keeps(cfg, log, one, i) <==> Keeps(cfg, log, two, i)
    ensures Kept(cfg, log, list, one) == Kept(cfg, log, list, two)
  {
    FilterSame(list, Keeper(cfg, log, one), Keeper(cfg, log, two));
  }

  lemma KeptAll(cfg: Config, log: seq<Event>, list: seq<nat>, sel: Selection)
    requires forall i | i in list :: Keeps(cfg, log, sel, i)
    ensures Kept(cfg, log, list, sel) == list
  {
    FilterAll(list, Keeper(cfg, log, sel));
  }

  lemma KeptSuffix(cfg: Config, log: seq<Event>, list: seq<nat>, sel: Selection, d: nat)
    requires d <= |list|
    requires forall p | 0 <= p < |list| :: Keeps(cfg, log, sel, list[p]) <==> p >= d
    ensures Kept(cfg, log, list, sel) == list[d..]
  {
    FilterSuffix(list, d, Keeper(cfg, log, sel));
  }

  ghost function PendingList(cfg: Config, log: seq<Event>): seq<nat> {
    if log == [] then []
    else
      var before, e := log[..|log| - 1], log[|log| - 1];
      Kept(cfg, before, PendingList(cfg, before), Staying(e)) + (if IsIssue(e) then [|log| - 1] else [])
  }

  lemma {:induction false} PendingListGrows(cfg: Config, log: seq<Event>, e: Event)
    ensures PendingList(cfg, log + [e])
         == if IsIssue(e) then Kept(cfg, log, PendingList(cfg, log), Staying(e)) + [|log|]
            else Kept(cfg, log, PendingList(cfg, log), Staying(e))
  {
    assert (log + [e])[..|log|] == log;
  }

  lemma {:induction false} PendingListIsPending(cfg: Config, log: seq<Event>)
    ensures Increasing(PendingList(cfg, log))
    ensures forall i: nat :: i in PendingList(cfg, log) <==> Pending(cfg, log, i)
  {
    if log != [] {
      var before, e := log[..|log| - 1], log[|log| - 1];
      PendingListIsPending(cfg, before);
      KeptMembers(cfg, before, PendingList(cfg, before), Staying(e));
      var kept := Kept(cfg, before, PendingList(cfg, before), Staying(e));
      forall p | 0 <= p < |kept| ensures kept[p] < |before| {
        assert kept[p] in kept;
      }
    }
  }

  /** The slot of the preview at `i` (of no meaning when there is none). */
  ghost function SlotOf(cfg: Config, log: seq<Event>, i: nat): Slot<Entry> {
    if i < |log| && IsIssue(log[i]) then
      Slot(log[i].token, Entry(Current(cfg, log, i), DigestOf(log[i].token, Original(cfg, log, i)), log[i].now))
    else Slot("", Entry(Facts("", "", Unencodable, 0.0), NoDigest, 0.0))
  }

  ghost function SlotsOf(cfg: Config, log: seq<Event>, list: seq<nat>): Entries {
    if list == [] then [] else [SlotOf(cfg, log, list[0])] + SlotsOf(cfg, log, list[1..])
  }

  lemma {:induction false} SlotsAt(cfg: Config, log: seq<Event>, list: seq<nat>)
    ensures |SlotsOf(cfg, log, list)| == |list|
    ensures forall p | 0 <= p < |list| :: SlotsOf(cfg, log, list)[p] == SlotOf(cfg, log, list[p])
  {
    if list != [] { SlotsAt(cfg, log, list[1..]); }
  }

  lemma {:induction false} SlotsConcat(cfg: Config, log: seq<Event>, a: seq<nat>, b: seq<nat>)
    ensures SlotsOf(cfg, log, a + b) == SlotsOf(cfg, log, a) + SlotsOf(cfg, log, b)
  {
    if a == [] {
      assert a + b == b;
    } else {
      assert (a + b)[1..] == a[1..] + b;
      SlotsConcat(cfg, log, a[1..], b);
    }
  }

  /** Only a change moves the facts of an older entry. */
  lemma {:induction false} SlotsCarryOver(cfg: Config, log: seq<Event>, e: Event, list: seq<nat>)
    requires !e.Tampered? && AllIssued(log, list)
    ensures SlotsOf(cfg, log + [e], list) == SlotsOf(cfg, log, list)
  {
    assert (log + [e])[..|log|] == log;
    SlotsAt(cfg, log, list);
    SlotsAt(cfg, log + [e], list);
    assert forall p | 0 <= p < |list| :: list[p] in list;
  }

  // ----- each operation against the log -----

  /** The store's entries are the pending previews, oldest first. */
  ghost predicate Follows(cfg: Config, log: seq<Event>, s: Store) {
    && AllIssued(log, PendingList(cfg, log))
    && s.entries == SlotsOf(cfg, log, PendingList(cfg, log))
  }

  ghost function WaitingList(cfg: Config, log: seq<Event>, now: real): seq<nat> {
    Kept(cfg, log, PendingList(cfg, log), Waiting(now))
  }

  lemma {:induction false} WaitingIs(cfg: Config, log: seq<Event>, now: real)
    ensures Increasing(WaitingList(cfg, log, now)) && AllIssued(log, WaitingList(cfg, log, now))
    ensures forall i: nat :: i in WaitingList(cfg, log, now) <==> Pending(cfg, log, i) && !Expired(cfg, log, i, now)
  {
    PendingListIsPending(cfg, log);
    KeptMembers(cfg, log, PendingList(cfg, log), Waiting(now));
  }

  lemma {:induction false} LiveSlots(cfg: Config, log: seq<Event>, list: seq<nat>, now: real)
    requires AllIssued(log, list)
    ensures LiveOf(SlotsOf(cfg, log, list), now) == SlotsOf(cfg, log, Kept(cfg, log, list, Waiting(now)))
  {
    if list != [] {
      assert list[0] in list;
      LiveSlots(cfg, log, list[1..], now);
    }
  }

  /** Counted from the preview at position `p`, the waiting ones are the rest of the list. */
  lemma {:induction false} WaitingCounted(cfg: Config, log: seq<Event>, now: real, p: nat)
    requires p < |WaitingList(cfg, log, now)|
    ensures |WaitingSince(cfg, log, WaitingList(cfg, log, now)[p], now)| == |WaitingList(cfg, log, now)| - p
  {
    WaitingIs(cfg, log, now);
    var list := WaitingList(cfg, log, now);
    forall k: nat ensures k in WaitingSince(cfg, log, list[p], now) <==> k in list[p..] {
      if k in list[p..] {
        var q :| 0 <= q < |list[p..]| && list[p..][q] == k;
        assert list[p + q] == k && k in list;
      }
      if k in list && list[p] <= k {
        var q :| 0 <= q < |list| && list[q] == k;
        assert list[p..][q - p] == k;
      }
    }
    DistinctCardinality(list[p..], WaitingSince(cfg, log, list[p], now));
  }

  /** How many waiting previews an issue drops from the front. */
  function Excess(cfg: Config, count: nat): (d: nat)
    requires cfg.Valid()
    ensures d <= count
  {
    if count >= cfg.max then count - cfg.max + 1 else 0
  }

  lemma UncrowdedIsSuffix(cfg: Config, log: seq<Event>, now: real)
    requires cfg.Valid()
    ensures var list := WaitingList(cfg, log, now);
      Kept(cfg, log, list, Uncrowded(now)) == list[Excess(cfg, |list|)..]
  {
    WaitingIs(cfg, log, now);
    var list := WaitingList(cfg, log, now);
    forall p | 0 <= p < |list| ensures Keeps(cfg, log, Uncrowded(now), list[p]) <==> p >= Excess(cfg, |list|) {
      WaitingCounted(cfg, log, now, p);
      assert list[p] in list;
    }
    KeptSuffix(cfg, log, list, Uncrowded(now), Excess(cfg, |list|));
  }

  lemma {:induction false} SlotsDrop(cfg: Config, log: seq<Event>, list: seq<nat>, d: nat)
    requires d <= |list|
    ensures |SlotsOf(cfg, log, list)| == |list|
    ensures SlotsOf(cfg, log, list)[d..] == SlotsOf(cfg, log, list[d..])
  {
    assert list == list[..d] + list[d..];
    SlotsConcat(cfg, log, list[..d], list[d..]);
    SlotsAt(cfg, log, list);
    SlotsAt(cfg, log, list[..d]);
  }

  lemma {:induction false} RoomDropsExcess(cfg: Config, log: seq<Event>, s: Store, list: seq<nat>)
    requires cfg.Valid() && s.entries == SlotsOf(cfg, log, list)
    ensures MakeRoom(cfg, s).entries == SlotsOf(cfg, log, list[Excess(cfg, |list|)..])
  {
    SlotsDrop(cfg, log, list, Excess(cfg, |list|));
  }

  lemma {:induction false} RoomKeepsUncrowded(cfg: Config, log: seq<Event>, s: Store, now: real)
    requires cfg.Valid()
    requires s.entries == SlotsOf(cfg, log, WaitingList(cfg, log, now))
    ensures var kept := Kept(cfg, log, WaitingList(cfg, log, now), Uncrowded(now));
      MakeRoom(cfg, s).entries == SlotsOf(cfg, log, kept)
  {
    RoomDropsExcess(cfg, log, s, WaitingList(cfg, log, now));
    UncrowdedIsSuffix(cfg, log, now);
  }

  lemma {:induction false} SlotsUnique(cfg: Config, log: seq<Event>, list: seq<nat>)
    requires TokensNeverRepeat(log) && Increasing(list) && AllIssued(log, list)
    ensures Unique(SlotsOf(cfg, log, list))
  {
    SlotsAt(cfg, log, list);
    assert forall p | 0 <= p < |list| :: list[p] in list;
  }

  lemma {:induction false} NotHeld(cfg: Config, log: seq<Event>, list: seq<nat>, token: Token)
    requires AllIssued(log, list)
    requires forall i | i in list :: !Tokened(log, i, token)
    ensures !Holds(SlotsOf(cfg, log, list), token)
  {
    SlotsAt(cfg, log, list);
    assert forall p | 0 <= p < |list| :: list[p] in list;
  }

  /** The selection an issue makes: in time and not crowded out. */
  lemma {:induction false} IssueSelects(cfg: Config, log: seq<Event>, e: Event)
    requires IsIssue(e)
    ensures Kept(cfg, log, WaitingList(cfg, log, e.now), Uncrowded(e.now))
         == Kept(cfg, log, PendingList(cfg, log), Staying(e))
  {
    KeptTwice(cfg, log, PendingList(cfg, log), Waiting(e.now), Uncrowded(e.now), Staying(e));
  }

  lemma IssueStep(cfg: Config, log: seq<Event>, s: Store, e: Event)
    requires cfg.Valid() && IsIssue(e) && TokensNeverRepeat(log + [e]) && Follows(cfg, log, s)
    ensures Follows(cfg, log + [e], Apply(cfg, s, e))
  {
    IssuedEntries(cfg, log, s, e);
    GrownSlots(cfg, log, e);
  }

  lemma {:induction false} GrownSlots(cfg: Config, log: seq<Event>, e: Event)
    requires IsIssue(e)
    ensures AllIssued(log + [e], PendingList(cfg, log + [e]))
    ensures SlotsOf(cfg, log + [e], PendingList(cfg, log + [e]))
         == SlotsOf(cfg, log, Kept(cfg, log, PendingList(cfg, log), Staying(e)))
            + [Slot(e.token, NewEntry(cfg, e.now, e.token, e.payload, e.account, e.kind))]
  {
    var kept := Kept(cfg, log, PendingList(cfg, log), Staying(e));
    assert AllIssued(log + [e], PendingList(cfg, log + [e])) by { PendingListIsPending(cfg, log + [e]); }
    PendingListGrows(cfg, log, e);
    assert AllIssued(log, kept) by { KeptMembers(cfg, log, PendingList(cfg, log), Staying(e)); }
    SlotsCarryOver(cfg, log, e, kept);
    NewSlot(cfg, log + [e], e);
    SlotsConcat(cfg, log + [e], kept, [|log|]);
  }

  lemma {:induction false} IssuedEntries(cfg: Config, log: seq<Event>, s: Store, e: Event)
    requires cfg.Valid() && IsIssue(e) && TokensNeverRepeat(log + [e]) && Follows(cfg, log, s)
    ensures Apply(cfg, s, e).entries
         == SlotsOf(cfg, log, Kept(cfg, log, PendingList(cfg, log), Staying(e)))
            + [Slot(e.token, NewEntry(cfg, e.now, e.token, e.payload, e.account, e.kind))]
  {
    var purged := Purge(cfg, s, e.now);
    LiveSlots(cfg, log, PendingList(cfg, log), e.now);
    RoomKeepsUncrowded(cfg, log, purged, e.now);
    IssueSelects(cfg, log, e);
    var kept := Kept(cfg, log, PendingList(cfg, log), Staying(e));
    KeptMembers(cfg, log, PendingList(cfg, log), Staying(e));
    forall i | i in kept ensures !Tokened(log, i, e.token) {
      assert (log + [e])[i] == log[i] && (log + [e])[|log|] == e;
    }
    NotHeld(cfg, log, kept, e.token);
    PutFresh(MakeRoom(cfg, purged).entries, e.token,
             NewEntry(cfg, e.now, e.token, e.payload, e.account, e.kind));
  }

  lemma {:induction false} NewSlot(cfg: Config, log: seq<Event>, e: Event)
    requires log != [] && log[|log| - 1] == e && IsIssue(e)
    ensures SlotsOf(cfg, log, [|log| - 1])
         == [Slot(e.token, NewEntry(cfg, e.now, e.token, e.payload, e.account, e.kind))]
  {
    OneSlot(cfg, log, |log| - 1);
    NewestIsOriginal(cfg, log);
  }

  lemma NewestIsOriginal(cfg: Config, log: seq<Event>)
    requires log != [] && IsIssue(log[|log| - 1])
    ensures Current(cfg, log, |log| - 1) == Original(cfg, log, |log| - 1)
  {
  }

  lemma {:induction false} OneSlot(cfg: Config, log: seq<Event>, i: nat)
    requires i < |log| && IsIssue(log[i])
    ensures SlotsOf(cfg, log, [i]) == [SlotOf(cfg, log, i)]
  {
    SlotsAt(cfg, log, [i]);
  }

  lemma PurgeStep(cfg: Config, log: seq<Event>, s: Store, e: Event)
    requires cfg.Valid() && (e.Purged? || (e.Issued? && !IsIssue(e))) && Follows(cfg, log, s)
    ensures Follows(cfg, log + [e], Apply(cfg, s, e))
  {
    var list := PendingList(cfg, log);
    PendingListGrows(cfg, log, e);
    if e.Purged? {
      LiveSlots(cfg, log, list, e.now);
      KeptSame(cfg, log, list, Waiting(e.now), Staying(e));
      KeptMembers(cfg, log, list, Staying(e));
      SlotsCarryOver(cfg, log, e, Kept(cfg, log, list, Staying(e)));
    } else {
      KeptAll(cfg, log, list, Staying(e));
      SlotsCarryOver(cfg, log, e, list);
    }
  }

  lemma TamperStep(cfg: Config, log: seq<Event>, s: Store, e: Event)
    requires cfg.Valid() && e.Tampered? && Follows(cfg, log, s)
    ensures Follows(cfg, log + [e], Apply(cfg, s, e))
  {
    PendingListGrows(cfg, log, e);
    KeptAll(cfg, log, PendingList(cfg, log), Staying(e));
    ChangedSlots(cfg, log, e, PendingList(cfg, log));
  }

  lemma {:induction false} ChangedSlots(cfg: Config, log: seq<Event>, e: Event, list: seq<nat>)
    requires e.Tampered? && AllIssued(log, list)
    ensures Changed(SlotsOf(cfg, log, list), e.token, e.facts) == SlotsOf(cfg, log + [e], list)
  {
    if list != [] {
      assert list[0] in list;
      assert (log + [e])[..|log|] == log;
      ChangedSlots(cfg, log, e, list[1..]);
    }
  }

  /** The entry found for a token is the one of the preview it was issued for. */
  lemma {:induction false} FoundEntry(cfg: Config, log: seq<Event>, list: seq<nat>, token: Token)
    requires AllIssued(log, list)
    ensures var found := Get(SlotsOf(cfg, log, list), token);
      && (found.Some? ==> exists i :: i in list && Tokened(log, i, token) && found == Some(SlotOf(cfg, log, i).value))
      && (found.None? ==> forall i | i in list :: !Tokened(log, i, token))
  {
    if list != [] {
      assert list[0] in list;
      FoundEntry(cfg, log, list[1..], token);
    }
  }

  lemma OneHolder(log: seq<Event>, i: nat, k: nat, token: Token)
    requires TokensNeverRepeat(log) && Tokened(log, i, token) && Tokened(log, k, token)
    ensures i == k
  {
  }

  /** The previews of the list have different tokens. */
  ghost predicate TokensDiffer(log: seq<Event>, list: seq<nat>)
    requires AllIssued(log, list)
  {
    forall p, q | 0 <= p < q < |list| ::
      list[p] in list && list[q] in list && log[list[p]].token != log[list[q]].token
  }

  lemma {:induction false} WithoutSlots(cfg: Config, log: seq<Event>, list: seq<nat>, token: Token)
    requires AllIssued(log, list) && TokensDiffer(log, list)
    ensures Without(SlotsOf(cfg, log, list), token) == SlotsOf(cfg, log, Kept(cfg, log, list, Other(token)))
  {
    if list != [] {
      var rest := list[1..];
      assert forall p | 0 <= p < |rest| :: rest[p] == list[p + 1] && rest[p] in list;
      if log[list[0]].token == token {
        KeptAll(cfg, log, rest, Other(token));
        assert ([SlotOf(cfg, log, list[0])] + SlotsOf(cfg, log, rest))[1..] == SlotsOf(cfg, log, rest);
      } else {
        WithoutSlots(cfg, log, rest, token);
      }
    }
  }

  lemma {:induction false} IntactMeansUnchanged(cfg: Config, log: seq<Event>, i: nat)
    requires i < |log| && IsIssue(log[i])
    ensures Intact(log[i].token, SlotOf(cfg, log, i).value) <==> Current(cfg, log, i) == Original(cfg, log, i)
  {
  }

  /** What a lookup at `now` finds in the purged store: the one waiting preview of the token, if any. */
  lemma Finding(cfg: Config, log: seq<Event>, s: Store, now: real, token: Token) returns (i: Option<nat>)
    requires cfg.Valid() && TokensNeverRepeat(log) && Follows(cfg, log, s)
    ensures AllIssued(log, WaitingList(cfg, log, now))
    ensures Purge(cfg, s, now).entries == SlotsOf(cfg, log, WaitingList(cfg, log, now))
    ensures i.None? ==> Get(Purge(cfg, s, now).entries, token) == None
    ensures i.Some? ==>
      && i.value in WaitingList(cfg, log, now) && Tokened(log, i.value, token)
      && Get(Purge(cfg, s, now).entries, token) == Some(SlotOf(cfg, log, i.value).value)
      && (Intact(token, SlotOf(cfg, log, i.value).value)
          <==> Current(cfg, log, i.value) == Original(cfg, log, i.value))
    ensures forall k | k in WaitingList(cfg, log, now) && Tokened(log, k, token) :: i == Some(k)
  {
    var list := WaitingList(cfg, log, now);
    WaitingIs(cfg, log, now);
    LiveSlots(cfg, log, PendingList(cfg, log), now);
    FoundEntry(cfg, log, list, token);
    var found := Get(SlotsOf(cfg, log, list), token);
    if found.None? { return None; }
    var at :| at in list && Tokened(log, at, token) && found == Some(SlotOf(cfg, log, at).value);
    IntactMeansUnchanged(cfg, log, at);
    forall k | k in list && Tokened(log, k, token) ensures k == at {
      OneHolder(log, at, k, token);
    }
    i := Some(at);
  }

  lemma {:induction false} LookLeavesUntaken(cfg: Config, log: seq<Event>, s: Store, now: real, token: Token, how: How)
    requires cfg.Valid() && TokensNeverRepeat(log) && Follows(cfg, log, s)
    ensures var kept := Kept(cfg, log, WaitingList(cfg, log, now), Untaken(token, how));
      Look(cfg, s, now, token, how).0.entries == SlotsOf(cfg, log, kept)
  {
    var list := WaitingList(cfg, log, now);
    var i := Finding(cfg, log, s, now, token);
    if i.Some? && Takes(cfg, log, i.value, token, how) {
      TakenLeaves(cfg, log, now, token, how, i.value);
    } else {
      NothingTaken(cfg, log, now, token, how, i);
    }
  }

  lemma {:induction false} TakenLeaves(cfg: Config, log: seq<Event>, now: real, token: Token, how: How, i: nat)
    requires cfg.Valid() && TokensNeverRepeat(log) && AllIssued(log, WaitingList(cfg, log, now))
    requires i in WaitingList(cfg, log, now) && Tokened(log, i, token) && Takes(cfg, log, i, token, how)
    requires forall k | k in WaitingList(cfg, log, now) && Tokened(log, k, token) :: k == i
    ensures Without(SlotsOf(cfg, log, WaitingList(cfg, log, now)), token)
         == SlotsOf(cfg, log, Kept(cfg, log, WaitingList(cfg, log, now), Untaken(token, how)))
  {
    var list := WaitingList(cfg, log, now);
    assert TokensDiffer(log, list) by { WaitingIs(cfg, log, now); }
    WithoutSlots(cfg, log, list, token);
    KeptSame(cfg, log, list, Untaken(token, how), Other(token));
  }

  lemma NothingTaken(cfg: Config, log: seq<Event>, now: real, token: Token, how: How, i: Option<nat>)
    requires cfg.Valid() && AllIssued(log, WaitingList(cfg, log, now))
    requires i.Some? ==>
      i.value in WaitingList(cfg, log, now) && Tokened(log, i.value, token) && !Takes(cfg, log, i.value, token, how)
    requires forall k | k in WaitingList(cfg, log, now) && Tokened(log, k, token) :: i == Some(k)
    ensures Kept(cfg, log, WaitingList(cfg, log, now), Untaken(token, how)) == WaitingList(cfg, log, now)
  {
    KeptAll(cfg, log, WaitingList(cfg, log, now), Untaken(token, how));
  }

  lemma LookStep(cfg: Config, log: seq<Event>, s: Store, e: Event)
    requires cfg.Valid() && e.Looked? && TokensNeverRepeat(log) && Follows(cfg, log, s)
    ensures Follows(cfg, log + [e], Apply(cfg, s, e))
  {
    LookLeavesUntaken(cfg, log, s, e.now, e.token, e.how);
    KeptTwice(cfg, log, PendingList(cfg, log), Waiting(e.now), Untaken(e.token, e.how), Staying(e));
    PendingListGrows(cfg, log, e);
    KeptMembers(cfg, log, PendingList(cfg, log), Staying(e));
    SlotsCarryOver(cfg, log, e, Kept(cfg, log, PendingList(cfg, log), Staying(e)));
  }

  // ----- tombstones -----

  /** When an event looks at the clock, and so purges. */
  function At(e: Event): Option<real> {
    match e
    case Issued(now, _, _, _, _) => if IsIssue(e) then Some(now) else None
    case Looked(now, _, _) => Some(now)
    case Purged(now) => Some(now)
    case Tampered(_, _) => None
  }

  /** The lookup `e` found the waiting preview at `i`, still as issued or changed. */
  ghost predicate Found(cfg: Config, log: seq<Event>, i: nat, e: Event, intact: bool)
    requires i < |log| && log[i].Issued?
  {
    && e.Looked? && e.token == log[i].token && !Expired(cfg, log, i, e.now)
    && (intact <==> Current(cfg, log, i) == Original(cfg, log, i))
  }

  /** The event removed the pending preview at `i` for the reason the tombstone gives. */
  ghost predicate Cause(cfg: Config, log: seq<Event>, i: nat, e: Event, reason: Reason, note: Option<string>)
    requires i < |log| && log[i].Issued?
  {
    match reason
    case OutOfTime => note == None && At(e).Some? && Expired(cfg, log, i, At(e).value)
    case Evicted => note == None && IsIssue(e) && !Expired(cfg, log, i, e.now) && Crowded(cfg, log, i, e.now)
    case Invalidated => note == None && Found(cfg, log, i, e, false)
    case Used => note == None && Found(cfg, log, i, e, true) && e.how.Consume?
    case Discarded => Found(cfg, log, i, e, true) && e.how.Discard? && note == CleanNote(e.how.note)
  }

  /** The log shows what a tombstone says: the token's preview waited until event `j` removed it. */
  ghost predicate RemovedAt(cfg: Config, log: seq<Event>, i: nat, j: nat, token: Token, reason: Reason,
                            note: Option<string>)
  {
    && i < j < |log| && Tokened(log[..j], i, token) && Pending(cfg, log[..j], i)
    && Cause(cfg, log[..j], i, log[j], reason, note)
  }

  ghost predicate Explained(cfg: Config, log: seq<Event>, token: Token, reason: Reason, note: Option<string>) {
    exists i: nat, j: nat :: RemovedAt(cfg, log, i, j, token, reason, note)
  }

  ghost predicate TombstonesTrue(cfg: Config, log: seq<Event>, tombs: Tombstones) {
    && Unique(tombs) && |tombs| <= cfg.max
    && forall x | x in tombs :: Explained(cfg, log, x.token, x.value.reason, x.value.note)
  }

  lemma ExplainedLater(cfg: Config, log: seq<Event>, e: Event, token: Token, reason: Reason, note: Option<string>)
    requires Explained(cfg, log, token, reason, note)
    ensures Explained(cfg, log + [e], token, reason, note)
  {
    var i: nat, j: nat :| RemovedAt(cfg, log, i, j, token, reason, note);
    assert (log + [e])[..j] == log[..j];
    assert RemovedAt(cfg, log + [e], i, j, token, reason, note);
  }

  lemma {:induction false} ExplainedNow(cfg: Config, log: seq<Event>, i: nat, e: Event, reason: Reason,
                                        note: Option<string>)
    requires Pending(cfg, log, i) && Cause(cfg, log, i, e, reason, note)
    ensures Explained(cfg, log + [e], log[i].token, reason, note)
  {
    assert (log + [e])[..|log|] == log;
    assert RemovedAt(cfg, log + [e], i, |log|, log[i].token, reason, note);
  }

  lemma {:induction false} PutMembers<V>(slots: seq<Slot<V>>, token: Token, value: V)
    ensures forall x | x in Put(slots, token, value) :: x in slots || x == Slot(token, value)
    ensures Slot(token, value) in Put(slots, token, value)
    ensures Unique(slots) ==> Unique(Put(slots, token, value))
  {
    if slots != [] {
      PutMembers(slots[1..], token, value);
      assert slots == [slots[0]] + slots[1..];
      var rest := Put(slots[1..], token, value);
      if Unique(slots) && slots[0].token != token {
        forall j | 0 <= j < |rest| ensures rest[j].token != slots[0].token {
          assert rest[j] in rest;
        }
      }
    }
  }

  lemma BuryMembers(cfg: Config, tombs: Tombstones, token: Token, reason: Reason, expiresAt: real, note: Option<string>)
    ensures var after := Bury(cfg, tombs, token, reason, expiresAt, note);
      && (forall x | x in after ::
            x in tombs || x == Slot(token, Tombstone(reason, expiresAt, expiresAt + cfg.ttl, note)))
      && (Unique(tombs) ==> Unique(after)) && |after| <= cfg.max
  {
    PutMembers(tombs, token, Tombstone(reason, expiresAt, expiresAt + cfg.ttl, note));
  }

  ghost predicate BuriedFrom(gone: Entries, reason: Reason, x: Slot<Tombstone>) {
    exists g :: g in gone && x.token == g.token && x.value.reason == reason && x.value.note == None
  }

  lemma {:induction false} BuryAllMembers(cfg: Config, tombs: Tombstones, gone: Entries, reason: Reason)
    ensures var after := BuryAll(cfg, tombs, gone, reason);
      && (forall x | x in after :: x in tombs || BuriedFrom(gone, reason, x))
      && (Unique(tombs) ==> Unique(after)) && (|tombs| <= cfg.max ==> |after| <= cfg.max)
    decreases |gone|
  {
    if gone != [] {
      var next := Bury(cfg, tombs, gone[0].token, reason, gone[0].value.facts.expiresAt, None);
      BuryMembers(cfg, tombs, gone[0].token, reason, gone[0].value.facts.expiresAt, None);
      BuryAllMembers(cfg, next, gone[1..], reason);
      forall x | x in BuryAll(cfg, tombs, gone, reason) ensures x in tombs || BuriedFrom(gone, reason, x) {
        if BuriedFrom(gone[1..], reason, x) {
          var g :| g in gone[1..] && x.token == g.token && x.value.reason == reason && x.value.note == None;
          assert g in gone;
        } else if x !in tombs {
          assert gone[0] in gone;
        }
      }
    }
  }

  lemma {:induction false} RememberedMembers(tombs: Tombstones, now: real)
    ensures var after := RememberedOf(tombs, now);
      && (forall x | x in after :: x in tombs)
      && (Unique(tombs) ==> Unique(after)) && |after| <= |tombs|
  {
    if tombs != [] {
      RememberedMembers(tombs[1..], now);
      assert tombs == [tombs[0]] + tombs[1..];
      var rest := RememberedOf(tombs[1..], now);
      if Unique(tombs) {
        forall j | 0 <= j < |rest| ensures rest[j].token != tombs[0].token {
          assert rest[j] in rest;
        }
      }
    }
  }

  lemma {:induction false} ExpiredMembers(cfg: Config, log: seq<Event>, list: seq<nat>, now: real)
    requires AllIssued(log, list)
    ensures forall g | g in ExpiredOf(SlotsOf(cfg, log, list), now) ::
              exists i :: i in list && Expired(cfg, log, i, now) && g == SlotOf(cfg, log, i)
  {
    if list != [] {
      ExpiredMembers(cfg, log, list[1..], now);
      assert list == [list[0]] + list[1..];
      forall g | g in ExpiredOf(SlotsOf(cfg, log, list), now)
        ensures exists i :: i in list && Expired(cfg, log, i, now) && g == SlotOf(cfg, log, i)
      {
        if g in ExpiredOf(SlotsOf(cfg, log, list[1..]), now) {
          var i :| i in list[1..] && Expired(cfg, log, i, now) && g == SlotOf(cfg, log, i);
          assert i in list;
        } else {
          assert list[0] in list && Expired(cfg, log, list[0], now);
        }
      }
    }
  }

  /** Purging for event `e` keeps every tombstone true of the log with `e` on it. */
  lemma PurgeTombstones(cfg: Config, log: seq<Event>, s: Store, e: Event)
    requires cfg.Valid() && Follows(cfg, log, s) && TombstonesTrue(cfg, log, s.tombstones) && At(e).Some?
    ensures TombstonesTrue(cfg, log + [e], Purge(cfg, s, At(e).value).tombstones)
  {
    var now := At(e).value;
    var gone := ExpiredOf(s.entries, now);
    PendingListIsPending(cfg, log);
    ExpiredMembers(cfg, log, PendingList(cfg, log), now);
    BuryAllMembers(cfg, s.tombstones, gone, OutOfTime);
    RememberedMembers(BuryAll(cfg, s.tombstones, gone, OutOfTime), now);
    forall x | x in Purge(cfg, s, now).tombstones
      ensures Explained(cfg, log + [e], x.token, x.value.reason, x.value.note)
    {
      if x in s.tombstones {
        ExplainedLater(cfg, log, e, x.token, x.value.reason, x.value.note);
      } else {
        var g :| g in gone && x.token == g.token && x.value.reason == OutOfTime && x.value.note == None;
        var i :| i in PendingList(cfg, log) && Expired(cfg, log, i, now) && g == SlotOf(cfg, log, i);
        ExplainedNow(cfg, log, i, e, OutOfTime, None);
      }
    }
  }

  lemma {:induction false} IssueBuries(cfg: Config, s: Store, e: Event)
    requires cfg.Valid() && IsIssue(e)
    ensures var purged := Purge(cfg, s, e.now);
      Apply(cfg, s, e).tombstones
      == BuryAll(cfg, purged.tombstones, purged.entries[..Excess(cfg, |purged.entries|)], Evicted)
  {
  }

  lemma {:induction false} DroppedExplained(cfg: Config, log: seq<Event>, e: Event, entries: Entries, g: Slot<Entry>)
    requires cfg.Valid() && IsIssue(e) && entries == SlotsOf(cfg, log, WaitingList(cfg, log, e.now))
    requires g in entries[..Excess(cfg, |entries|)]
    ensures Explained(cfg, log + [e], g.token, Evicted, None)
  {
    SlotsAt(cfg, log, WaitingList(cfg, log, e.now));
    var p :| 0 <= p < Excess(cfg, |entries|) && entries[p] == g;
    EvictedExplained(cfg, log, e, p);
  }

  lemma IssueTombstones(cfg: Config, log: seq<Event>, s: Store, e: Event)
    requires cfg.Valid() && Follows(cfg, log, s) && TombstonesTrue(cfg, log, s.tombstones) && IsIssue(e)
    ensures TombstonesTrue(cfg, log + [e], Apply(cfg, s, e).tombstones)
  {
    var purged := Purge(cfg, s, e.now);
    PurgeTombstones(cfg, log, s, e);
    LiveSlots(cfg, log, PendingList(cfg, log), e.now);
    var dropped := purged.entries[..Excess(cfg, |purged.entries|)];
    forall g | g in dropped ensures Explained(cfg, log + [e], g.token, Evicted, None) {
      DroppedExplained(cfg, log, e, purged.entries, g);
    }
    EvictionTombstones(cfg, log + [e], purged.tombstones, dropped);
    IssueBuries(cfg, s, e);
  }

  lemma {:induction false} EvictionTombstones(cfg: Config, log: seq<Event>, tombs: Tombstones, dropped: Entries)
    requires TombstonesTrue(cfg, log, tombs)
    requires forall g | g in dropped :: Explained(cfg, log, g.token, Evicted, None)
    ensures TombstonesTrue(cfg, log, BuryAll(cfg, tombs, dropped, Evicted))
  {
    BuryAllMembers(cfg, tombs, dropped, Evicted);
  }

  lemma EvictedExplained(cfg: Config, log: seq<Event>, e: Event, p: nat)
    requires cfg.Valid() && IsIssue(e) && p < Excess(cfg, |WaitingList(cfg, log, e.now)|)
    ensures var i := WaitingList(cfg, log, e.now)[p];
      i < |log| && IsIssue(log[i]) && Explained(cfg, log + [e], log[i].token, Evicted, None)
  {
    WaitingIs(cfg, log, e.now);
    var list := WaitingList(cfg, log, e.now);
    assert list[p] in list;
    WaitingCounted(cfg, log, e.now, p);
    ExplainedNow(cfg, log, list[p], e, Evicted, None);
  }

  lemma LookTombstones(cfg: Config, log: seq<Event>, s: Store, e: Event)
    requires cfg.Valid() && TokensNeverRepeat(log) && Follows(cfg, log, s)
    requires TombstonesTrue(cfg, log, s.tombstones) && e.Looked?
    ensures TombstonesTrue(cfg, log + [e], Apply(cfg, s, e).tombstones)
  {
    var purged := Purge(cfg, s, e.now);
    PurgeTombstones(cfg, log, s, e);
    WaitingIs(cfg, log, e.now);
    var found := Finding(cfg, log, s, e.now, e.token);
    if found.Some? && Takes(cfg, log, found.value, e.token, e.how) {
      var i := found.value;
      var intact := Current(cfg, log, i) == Original(cfg, log, i);
      var reason := if !intact then Invalidated else if e.how.Consume? then Used else Discarded;
      var note := if reason.Discarded? then CleanNote(e.how.note) else None;
      var entry := SlotOf(cfg, log, i).value;
      BuryMembers(cfg, purged.tombstones, e.token, reason, entry.facts.expiresAt, note);
      assert Apply(cfg, s, e).tombstones
          == Bury(cfg, purged.tombstones, e.token, reason, entry.facts.expiresAt, note);
      ExplainedNow(cfg, log, i, e, reason, note);
    }
  }

  // ----- main results -----

  /** The entries are exactly the previews the log leaves pending, oldest first, with their facts. */
  lemma {:induction false} StoreFollowsLog(cfg: Config, log: seq<Event>)
    requires cfg.Valid() && TokensNeverRepeat(log)
    ensures Follows(cfg, log, Replay(cfg, log))
    decreases |log|
  {
    if log != [] {
      var before, e := log[..|log| - 1], log[|log| - 1];
      assert before + [e] == log;
      StoreFollowsLog(cfg, before);
      var s := Replay(cfg, before);
      if IsIssue(e) { IssueStep(cfg, before, s, e); }
      else if e.Looked? { LookStep(cfg, before, s, e); }
      else if e.Tampered? { TamperStep(cfg, before, s, e); }
      else { PurgeStep(cfg, before, s, e); }
    }
  }

  /** Every tombstone tells the truth about why its token is gone, and there are at most `max`. */
  lemma {:induction false} TombstonesFollowLog(cfg: Config, log: seq<Event>)
    requires cfg.Valid() && TokensNeverRepeat(log)
    ensures TombstonesTrue(cfg, log, Replay(cfg, log).tombstones)
    decreases |log|
  {
    if log != [] {
      var before, e := log[..|log| - 1], log[|log| - 1];
      assert before + [e] == log;
      TombstonesFollowLog(cfg, before);
      StoreFollowsLog(cfg, before);
      var s := Replay(cfg, before);
      if IsIssue(e) { IssueTombstones(cfg, before, s, e); }
      else if e.Looked? { LookTombstones(cfg, before, s, e); }
      else if e.Purged? { PurgeTombstones(cfg, before, s, e); }
      else {
        forall x | x in s.tombstones ensures Explained(cfg, log, x.token, x.value.reason, x.value.note) {
          ExplainedLater(cfg, before, e, x.token, x.value.reason, x.value.note);
        }
      }
    }
  }

  lemma {:induction false} RemovedStaysRemoved(cfg: Config, log: seq<Event>, i: nat, j: nat)
    requires i < j < |log| && log[i].Issued? && Removes(cfg, log[..j], i, log[j])
    ensures !Pending(cfg, log, i)
    decreases |log|
  {
    if j < |log| - 1 {
      var before := log[..|log| - 1];
      assert before[..j] == log[..j];
      RemovedStaysRemoved(cfg, before, i, j);
    } else {
      assert log[..j] == log[..|log| - 1];
    }
  }

  lemma {:induction false} BuriedIsNotPending(cfg: Config, log: seq<Event>, i: nat, token: Token, reason: Reason,
                                              note: Option<string>)
    requires TokensNeverRepeat(log) && Pending(cfg, log, i) && Explained(cfg, log, token, reason, note)
    ensures log[i].token != token
  {
    var k: nat, j: nat :| RemovedAt(cfg, log, k, j, token, reason, note);
    RemovedStaysRemoved(cfg, log, k, j);
    if log[i].token == token { OneHolder(log, i, k, token); }
  }

  /** Entries and tombstones never exceed `max` each, and no token is in both. */
  lemma {:induction false} BoundedAndDisjoint(cfg: Config, log: seq<Event>)
    requires cfg.Valid() && TokensNeverRepeat(log)
    ensures var s := Replay(cfg, log);
      && |s.entries| <= cfg.max && |s.tombstones| <= cfg.max
      && Unique(s.entries) && Unique(s.tombstones)
      && forall x, y | x in s.entries && y in s.tombstones :: x.token != y.token
  {
    StoreFollowsLog(cfg, log);
    TombstonesFollowLog(cfg, log);
    PendingAtMostMax(cfg, log);
    PendingListIsPending(cfg, log);
    var list := PendingList(cfg, log);
    SlotsAt(cfg, log, list);
    SlotsUnique(cfg, log, list);
    var s := Replay(cfg, log);
    forall p, y | 0 <= p < |list| && y in s.tombstones ensures s.entries[p].token != y.token {
      assert list[p] in list;
      BuriedIsNotPending(cfg, log, list[p], y.token, y.value.reason, y.value.note);
    }
  }

  /** A lookup refused as used, discarded, expired, evicted or invalidated is right about it. */
  lemma {:induction false} RefusalsAreTrue(cfg: Config, log: seq<Event>, now: real, token: Token, how: How)
    requires cfg.Valid() && TokensNeverRepeat(log)
    ensures var result := Look(cfg, Replay(cfg, log), now, token, how).1;
      result.Failure? && result.error.Gone? ==>
        Explained(cfg, log + [Looked(now, token, how)], token, result.error.reason, result.error.note)
  {
    var s, e := Replay(cfg, log), Looked(now, token, how);
    StoreFollowsLog(cfg, log);
    TombstonesFollowLog(cfg, log);
    PurgeTombstones(cfg, log, s, e);
    WaitingIs(cfg, log, now);
    var found := Finding(cfg, log, s, now, token);
    var purged := Purge(cfg, s, now);
    GetFinds(purged.tombstones, token);
    if found.Some? && Current(cfg, log, found.value) != Original(cfg, log, found.value) {
      ExplainedNow(cfg, log, found.value, e, Invalidated, None);
    }
  }

  /** Once consumed or discarded, a token never works again, whatever happens later. */
  lemma {:induction false} SingleUse(cfg: Config, before: seq<Event>, take: Event, later: seq<Event>, now: real,
                                     how: How)
    requires cfg.Valid() && TokensNeverRepeat(before + [take] + later)
    requires take.Looked? && !take.how.Peek?
    requires Look(cfg, Replay(cfg, before), take.now, take.token, take.how).1.Success?
    ensures Look(cfg, Replay(cfg, before + [take] + later), now, take.token, how).1.Failure?
  {
    var log := before + [take] + later;
    assert log[..|before|] == before && log[|before|] == take;
    LookupSucceedsExactlyWhen(cfg, before, take.now, take.token, take.how);
    var i: nat :| Usable(cfg, before, i, take.now) && Tokened(before, i, take.token);
    RemovedStaysRemoved(cfg, log, i, |before|);
    LookupSucceedsExactlyWhen(cfg, log, now, take.token, how);
    forall k: nat | Usable(cfg, log, k, now) && Tokened(log, k, take.token) ensures false {
      OneHolder(log, i, k, take.token);
    }
  }

  // ----- the rule for a steady clock and untouched entries -----

  ghost predicate ClockSteady(log: seq<Event>, now: real) {
    forall j | 0 <= j < |log| && At(log[j]).Some? ::
      && At(log[j]).value <= now
      && forall k | 0 <= k < j && At(log[k]).Some? :: At(log[k]).value <= At(log[j]).value
  }

  ghost predicate Untouched(log: seq<Event>) {
    forall j | 0 <= j < |log| :: !log[j].Tampered?
  }

  /** The token of the preview at `i` was consumed or discarded by the event at `j`, or evicted by it. */
  ghost predicate TakenAt(cfg: Config, log: seq<Event>, i: nat, j: nat)
    requires i < |log| && log[i].Issued?
  {
    i < j < |log| &&
    ((log[j].Looked? && log[j].token == log[i].token && !log[j].how.Peek?) ||
     (IsIssue(log[j]) && Crowded(cfg, log[..j], i, log[j].now)))
  }

  lemma {:induction false} UntouchedIsOriginal(cfg: Config, log: seq<Event>, i: nat)
    requires Untouched(log) && i < |log| && log[i].Issued?
    ensures Current(cfg, log, i) == Original(cfg, log, i)
    decreases |log|
  {
    if i < |log| - 1 {
      assert Untouched(log[..|log| - 1]);
      UntouchedIsOriginal(cfg, log[..|log| - 1], i);
    }
  }

  lemma {:induction false} PendingClosedForm(cfg: Config, log: seq<Event>, i: nat, now: real)
    requires ClockSteady(log, now) && Untouched(log) && i < |log| && IsIssue(log[i])
    requires now < log[i].now + cfg.ttl
    ensures Pending(cfg, log, i) <==> forall j: nat :: !TakenAt(cfg, log, i, j)
    decreases |log|
  {
    var n := |log| - 1;
    if i < n {
      var before := log[..n];
      assert ClockSteady(before, now) && Untouched(before);
      PendingClosedForm(cfg, before, i, now);
      UntouchedIsOriginal(cfg, before, i);
      assert Removes(cfg, before, i, log[n]) <==> TakenAt(cfg, log, i, n);
      forall j: nat | j < n ensures TakenAt(cfg, log, i, j) <==> TakenAt(cfg, before, i, j) {
        assert before[..j] == log[..j];
      }
      assert forall j: nat :: TakenAt(cfg, log, i, j) ==> j <= n;
    }
  }

  /**
   With a non-decreasing clock and untouched entries, a lookup at `now` succeeds exactly when the
   token was issued less than `ttl` ago, was neither consumed nor discarded since, and was not the
   oldest of `max` waiting previews at a later issue.
   */
  lemma {:induction false} LookupRule(cfg: Config, log: seq<Event>, now: real, token: Token, how: How)
    requires cfg.Valid() && TokensNeverRepeat(log) && ClockSteady(log, now) && Untouched(log)
    ensures Look(cfg, Replay(cfg, log), now, token, how).1.Success? <==>
      exists i: nat :: Tokened(log, i, token) && now < log[i].now + cfg.ttl && forall j: nat :: !TakenAt(cfg, log, i, j)
  {
    LookupSucceedsExactlyWhen(cfg, log, now, token, how);
    forall i: nat | Tokened(log, i, token)
      ensures Usable(cfg, log, i, now) <==> now < log[i].now + cfg.ttl && forall j: nat :: !TakenAt(cfg, log, i, j)
    {
      UntouchedIsOriginal(cfg, log, i);
      if now < log[i].now + cfg.ttl { PendingClosedForm(cfg, log, i, now); }
    }
  }

  /** The preview at `i` waits, in time and unchanged. */
  ghost predicate Usable(cfg: Config, log: seq<Event>, i: nat, now: real) {
    Pending(cfg, log, i) && !Expired(cfg, log, i, now) && Current(cfg, log, i) == Original(cfg, log, i)
  }

  /**
   A lookup succeeds exactly when the token's preview still waits in time and unchanged, and then
   returns what was issued.
   */
  lemma {:induction false} LookupSucceedsExactlyWhen(cfg: Config, log: seq<Event>, now: real, token: Token, how: How)
    requires cfg.Valid() && TokensNeverRepeat(log)
    ensures var result := Look(cfg, Replay(cfg, log), now, token, how).1;
      && (result.Success? <==> exists i: nat :: Usable(cfg, log, i, now) && Tokened(log, i, token))
      && (forall i: nat | Usable(cfg, log, i, now) && Tokened(log, i, token) ::
            result == Success(Record(token, Original(cfg, log, i), log[i].now)))
  {
    StoreFollowsLog(cfg, log);
    WaitingIs(cfg, log, now);
    var _ := Finding(cfg, log, Replay(cfg, log), now, token);
  }

  /** An entry that waits but was changed is refused, whatever the lookup, and removed by it. */
  lemma {:induction false} ChangedEntryIsRefused(cfg: Config, log: seq<Event>, i: nat, now: real, how: How)
    requires cfg.Valid() && TokensNeverRepeat(log)
    requires Pending(cfg, log, i) && !Expired(cfg, log, i, now) && Current(cfg, log, i) != Original(cfg, log, i)
    ensures var token := log[i].token;
      && Look(cfg, Replay(cfg, log), now, token, how).1 == Failure(Gone(Invalidated, None))
      && !Holds(Look(cfg, Replay(cfg, log), now, token, how).0.entries, token)
  {
    var token := log[i].token;
    StoreFollowsLog(cfg, log);
    WaitingIs(cfg, log, now);
    var s := Replay(cfg, log);
    assert Tokened(log, i, token);
    var at := Finding(cfg, log, s, now, token);
    LookLeavesUntaken(cfg, log, s, now, token, how);
    KeptMembers(cfg, log, WaitingList(cfg, log, now), Untaken(token, how));
    NotHeld(cfg, log, Kept(cfg, log, WaitingList(cfg, log, now), Untaken(token, how)), token);
  }

  lemma {:induction false} PendingAtMostMax(cfg: Config, log: seq<Event>)
    requires cfg.Valid()
    ensures |PendingList(cfg, log)| <= cfg.max
  {
    if log != [] {
      var before, e := log[..|log| - 1], log[|log| - 1];
      PendingAtMostMax(cfg, before);
      if IsIssue(e) {
        IssueSelects(cfg, before, e);
        UncrowdedIsSuffix(cfg, before, e.now);
      } else {
        KeptMembers(cfg, before, PendingList(cfg, before), Staying(e));
      }
    }
  }

  /** Being evicted by an issue means: the oldest of exactly `max` waiting previews. */
  lemma {:induction false} CrowdedMeansOldestOfFull(cfg: Config, log: seq<Event>, i: nat, at: real)
    requires cfg.Valid() && Pending(cfg, log, i) && !Expired(cfg, log, i, at)
    ensures Crowded(cfg, log, i, at) <==>
      && |WaitingSince(cfg, log, 0, at)| == cfg.max
      && forall k: nat | k < i :: k !in WaitingSince(cfg, log, 0, at)
  {
    PendingAtMostMax(cfg, log);
    WaitingIs(cfg, log, at);
    var list := WaitingList(cfg, log, at);
    KeptMembers(cfg, log, PendingList(cfg, log), Waiting(at));
    assert i in list;
    var p :| 0 <= p < |list| && list[p] == i;
    WaitingCounted(cfg, log, at, p);
    WaitingCounted(cfg, log, at, 0);
    forall k: nat | k in WaitingSince(cfg, log, 0, at) ensures list[0] <= k {
      assert k in list;
      var q :| 0 <= q < |list| && list[q] == k;
    }
    assert WaitingSince(cfg, log, 0, at) == WaitingSince(cfg, log, list[0], at);
    if p > 0 {
      assert list[0] in list && list[0] in WaitingSince(cfg, log, 0, at);
    }
  }

  // ----- the store itself -----

  /** The first expired entry: it is there, and so is its token. */
  lemma {:induction false} FirstExpired(entries: Entries, now: real)
    requires ExpiredOf(entries, now) != []
    ensures ExpiredOf(entries, now)[0] in entries
    ensures ExpiredOf(entries, now)[0].value.facts.expiresAt <= now
  {
    if entries[0].value.facts.expiresAt > now { FirstExpired(entries[1..], now); }
  }

  /** Deleting the first expired entry by its token leaves the live ones and the other expired ones. */
  lemma {:induction false} PopExpired(entries: Entries, now: real)
    requires Unique(entries) && ExpiredOf(entries, now) != []
    ensures var g := ExpiredOf(entries, now)[0];
      && Get(entries, g.token) == Some(g.value)
      && LiveOf(Without(entries, g.token), now) == LiveOf(entries, now)
      && ExpiredOf(Without(entries, g.token), now) == ExpiredOf(entries, now)[1..]
  {
    if entries[0].value.facts.expiresAt > now {
      var rest := entries[1..];
      PopExpired(rest, now);
      FirstExpired(rest, now);
      var g := ExpiredOf(rest, now)[0];
      var k :| 0 <= k < |rest| && rest[k] == g;
      assert entries[k + 1].token != entries[0].token;
      var popped := [entries[0]] + Without(rest, g.token);
      assert popped[1..] == Without(rest, g.token);
    }
  }

  lemma {:induction false} NothingExpired(entries: Entries, now: real)
    requires ExpiredOf(entries, now) == []
    ensures LiveOf(entries, now) == entries
  {
    if entries != [] { NothingExpired(entries[1..], now); }
  }

  lemma RoomStep(cfg: Config, s: Store)
    requires cfg.Valid() && |s.entries| >= cfg.max
    ensures MakeRoom(cfg, s)
         == MakeRoom(cfg, Store(s.entries[1..],
                                Bury(cfg, s.tombstones, s.entries[0].token, Evicted,
                                     s.entries[0].value.facts.expiresAt, None)))
  {
    var d := |s.entries| - cfg.max + 1;
    assert s.entries[..d][1..] == s.entries[1..][..d - 1];
    assert s.entries[d..] == s.entries[1..][d - 1..];
  }

  class PreviewStore {
    const cfg: Config
    var entries: Entries
    var tombstones: Tombstones

    ghost predicate Valid()
      reads this
    {
      cfg.Valid() && Unique(entries)
    }

    ghost function View(): Store
      reads this
    {
      Store(entries, tombstones)
    }

    constructor (ttl: real, max: nat)
      requires ttl > 0.0 && max >= 1
      ensures Valid() && cfg == Config(ttl, max) && View() == Replay(cfg, [])
    {
      cfg := Config(ttl, max);
      entries, tombstones := [], [];
    }

    /** `_bury`: remember why, then forget the oldest tombstones beyond the cap. */
    method BuryToken(token: Token, reason: Reason, expiresAt: real, note: Option<string>)
      modifies this`tombstones
      ensures tombstones == Bury(cfg, old(tombstones), token, reason, expiresAt, note)
    {
      tombstones := Put(tombstones, token, Tombstone(reason, expiresAt, expiresAt + cfg.ttl, note));
      TrimTombstones();
    }

    method TrimTombstones()
      modifies this`tombstones
      ensures tombstones == KeepLast(old(tombstones), cfg.max)
    {
      while |tombstones| > cfg.max
        invariant KeepLast(tombstones, cfg.max) == KeepLast(old(tombstones), cfg.max)
      {
        tombstones := tombstones[1..];
      }
    }

    /** `_purge`. */
    method PurgeExpired(now: real) returns (dropped: nat)
      requires Valid()
      modifies this
      ensures Valid() && View() == Purge(cfg, old(View()), now)
      ensures dropped == |ExpiredOf(old(entries), now)|
    {
      var expired := ExpiredOf(entries, now);
      var k := 0;
      while k < |expired|
        invariant 0 <= k <= |expired| && Unique(entries)
        invariant LiveOf(entries, now) == LiveOf(old(entries), now)
        invariant ExpiredOf(entries, now) == expired[k..]
        invariant BuryAll(cfg, tombstones, expired[k..], OutOfTime)
               == BuryAll(cfg, old(tombstones), expired, OutOfTime)
      {
        PopExpired(entries, now);
        WithoutUnique(entries, expired[k].token);
        var token := expired[k].token;
        var entry := Get(entries, token).value;
        entries := Without(entries, token);
        BuryToken(token, OutOfTime, entry.facts.expiresAt, None);
        assert expired[k..][1..] == expired[k + 1..];
        k := k + 1;
      }
      NothingExpired(entries, now);
      tombstones := RememberedOf(tombstones, now);
      dropped := |expired|;
    }

    /** `_make_room`: evict from the oldest until one more entry fits. */
    method EvictOldest()
      requires Valid()
      modifies this
      ensures Valid() && View() == MakeRoom(cfg, old(View()))
    {
      while |entries| >= cfg.max
        invariant Unique(entries)
        invariant MakeRoom(cfg, View()) == MakeRoom(cfg, old(View()))
      {
        RoomStep(cfg, View());
        var oldest := entries[0];
        entries := entries[1..];
        BuryToken(oldest.token, Evicted, oldest.value.facts.expiresAt, None);
      }
    }

    /** `issue`, with the token that was drawn. */
    method IssueToken(now: real, token: Token, payload: Payload, account: string, kind: string)
      returns (result: Result<Token, Error>)
      requires Valid() && !Holds(entries, token) && !Holds(tombstones, token)
      modifies this
      ensures Valid()
      ensures (View(), result) == Issue(cfg, old(View()), now, token, payload, account, kind)
    {
      if account == "" || kind == "" || payload.Unencodable? {
        return Failure(Invalid);
      }
      ghost var before := entries;
      var _ := PurgeExpired(now);
      EvictOldest();
      entries := Put(entries, token, NewEntry(cfg, now, token, payload, account, kind));
      PutMembers(MakeRoom(cfg, Purge(cfg, old(View()), now)).entries, token,
                 NewEntry(cfg, now, token, payload, account, kind));
      result := Success(token);
    }

    /** `_verified`, after the purge: a changed entry is removed and refused. */
    method Verified(token: Token) returns (result: Result<Entry, Error>)
      requires Valid()
      modifies this
      ensures Valid()
      ensures match Get(old(entries), token)
        case None => View() == old(View()) && result == Failure(GoneError(tombstones, token))
        case Some(e) =>
          if Intact(token, e) then View() == old(View()) && result == Success(e)
          else View() == Taken(cfg, old(View()), token, e, Invalidated, None)
               && result == Failure(Gone(Invalidated, None))
    {
      var found := Get(entries, token);
      if found.None? {
        return Failure(GoneError(tombstones, token));
      }
      if DigestOf(token, found.value.facts) != found.value.digest {
        WithoutUnique(entries, token);
        entries := Without(entries, token);
        BuryToken(token, Invalidated, found.value.facts.expiresAt, None);
        return Failure(Gone(Invalidated, None));
      }
      result := Success(found.value);
    }

    method PeekRecord(now: real, token: Token) returns (result: Result<Record, Error>)
      requires Valid()
      modifies this
      ensures Valid() && (View(), result) == Look(cfg, old(View()), now, token, Peek)
    {
      var _ := PurgeExpired(now);
      var entry := Verified(token);
      if entry.Failure? {
        return Failure(entry.error);
      }
      result := Success(Record(token, entry.value.facts, entry.value.createdAt));
    }

    method ConsumeRecord(now: real, token: Token) returns (result: Result<Record, Error>)
      requires Valid()
      modifies this
      ensures Valid() && (View(), result) == Look(cfg, old(View()), now, token, Consume)
    {
      var _ := PurgeExpired(now);
      var entry := Verified(token);
      if entry.Failure? {
        return Failure(entry.error);
      }
      WithoutUnique(entries, token);
      entries := Without(entries, token);
      BuryToken(token, Used, entry.value.facts.expiresAt, None);
      result := Success(Record(token, entry.value.facts, entry.value.createdAt));
    }

    method DiscardRecord(now: real, token: Token, note: Option<string>) returns (result: Result<Record, Error>)
      requires Valid()
      modifies this
      ensures Valid() && (View(), result) == Look(cfg, old(View()), now, token, Discard(note))
    {
      var _ := PurgeExpired(now);
      var entry := Verified(token);
      if entry.Failure? {
        return Failure(entry.error);
      }
      WithoutUnique(entries, token);
      entries := Without(entries, token);
      BuryToken(token, Discarded, entry.value.facts.expiresAt, CleanNote(note));
      result := Success(Record(token, entry.value.facts, entry.value.createdAt));
    }
  }

  lemma {:induction false} WithoutUnique<V>(slots: seq<Slot<V>>, token: Token)
    requires Unique(slots)
    ensures Unique(Without(slots, token))
    ensures forall x | x in Without(slots, token) :: x in slots
  {
    if slots != [] {
      WithoutUnique(slots[1..], token);
      assert slots == [slots[0]] + slots[1..];
      var rest := Without(slots[1..], token);
      forall j | 0 <= j < |rest| ensures rest[j].token != slots[0].token {
        assert rest[j] in rest;
      }
    }
  }
}
