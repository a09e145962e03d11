/**
 The registry of streaming subscriptions, as cooperative concurrency: one step is the code a
 coroutine runs between two awaits.

 The first part gives each such section of code as a function on the registry's fields, the
 class at the end runs the same sections in place, and the middle part interleaves the sections
 of any number of concurrent calls and proves what holds in every interleaving.
 */
module Registry {
  import opened Wrappers

  /** One coroutine call (`add`, `reap_idle`, `cancel_all` or `resubscribe_all`). */
  type Call = int

  datatype Key = Key(kind: string, key: string)

  /** A handle: the kind and a number that is never used twice. */
  datatype SubId = SubId(kind: string, number: nat)

  datatype Entry = Entry(key: Key, resubscribable: bool, createdAt: int, lastReadAt: Option<int>)

  /** What an opener returns; a failing opener returns nothing. */
  datatype Stream = Stream(resubscribable: bool)

  /** The registry's fields. `opening` maps a reserved key to the call that reserved it. */
  datatype Reg = Reg(
    max: nat,
    entries: map<SubId, Entry>,
    byKey: map<Key, SubId>,
    nextNumber: nat,
    locked: bool,
    opening: map<Key, Call>,
    resubscribing: bool,
    rerun: bool)

  /** Where a call stands: what it awaits, or how it ended. */
  datatype Pc =
    | AwaitsLock(key: Key, slow: bool)
    | AwaitsOpener(key: Key, slow: bool, owner: Call)
    | FastOpening(key: Key)
    | SlowOpening(key: Key)
    | Sweeping(todo: set<SubId>)
    | Cancelling(todo: set<SubId>)
    | Passing(todo: set<SubId>)
    | Rerequesting(id: SubId, todo: set<SubId>)
    | Returned(id: SubId)
    | Refused
    | OpenFailed
    | Raised
    | Finished

  // ----- the sections of code, as functions on the fields -----

  function Register(r: Reg, key: Key, stream: Stream, now: int): Reg {
    var id := SubId(key.kind, r.nextNumber);
    r.(entries := r.entries[id := Entry(key, stream.resubscribable, now, None)],
       byKey := r.byKey[key := id],
       nextNumber := r.nextNumber + 1)
  }

  function Forget(r: Reg, id: SubId): Reg
    requires id in r.entries
  {
    r.(entries := r.entries - {id}, byKey := r.byKey - {r.entries[id].key})
  }

  function ForgetIfLive(r: Reg, id: SubId): Reg {
    if id in r.entries then Forget(r, id) else r
  }

  /** `add` from taking the open lock to its next await or its return. */
  function Admit(r: Reg, call: Call, key: Key, slow: bool): (Reg, Pc) {
    if key in r.byKey then (r, Returned(r.byKey[key]))
    else if key in r.opening then (r, AwaitsOpener(key, slow, r.opening[key]))
    else if |r.entries| + |r.opening| >= r.max then (r, Refused)
    else if slow then (r.(opening := r.opening[key := call]), SlowOpening(key))
    else (r.(locked := true), FastOpening(key))
  }

  /** `add` after a fast opener returned or raised: the lock is released either way. */
  function FinishFast(r: Reg, key: Key, result: Option<Stream>, now: int): (Reg, Pc) {
    var released := r.(locked := false);
    match result
    case None => (released, OpenFailed)
    case Some(stream) => (Register(released, key, stream, now), Returned(SubId(key.kind, r.nextNumber)))
  }

  /** `add` after a slow opener returned or raised: the reservation ends either way. */
  function FinishSlow(r: Reg, key: Key, result: Option<Stream>, now: int): (Reg, Pc) {
    match result
    case None => (r.(opening := r.opening - {key}), OpenFailed)
    case Some(stream) =>
      var registered := Register(r, key, stream, now);
      (registered.(opening := r.opening - {key}), Returned(SubId(key.kind, r.nextNumber)))
  }

  /** `latest`: a read moves the idle deadline. */
  function Read(r: Reg, id: SubId, now: int): Reg
    requires id in r.entries
  {
    r.(entries := r.entries[id := r.entries[id].(lastReadAt := Some(now))])
  }

  function LastUse(e: Entry): int {
    match e.lastReadAt
    case Some(at) => at
    case None => e.createdAt
  }

  /** The entries `reap_idle` finds past their idle time. */
  function Idle(r: Reg, now: int, ttl: int): set<SubId> {
    set id | id in r.entries && LastUse(r.entries[id]) < now - ttl
  }

  /** `reap_idle` reaches one handle of its scan, which may be gone by now. */
  function SweepVisit(r: Reg, id: SubId, todo: set<SubId>): (Reg, Pc) {
    (ForgetIfLive(r, id), Sweeping(todo - {id}))
  }

  /** `cancel_all` reaches one handle of its snapshot; a missing one ends it with an error. */
  function CancelVisit(r: Reg, id: SubId, todo: set<SubId>): (Reg, Pc) {
    if id in r.entries then (Forget(r, id), Cancelling(todo - {id})) else (r, Raised)
  }

  /** `resubscribe_all` up to the first entry of its pass, or its return when one is running. */
  function Ask(r: Reg): (Reg, Pc) {
    if r.resubscribing then (r.(rerun := true), Finished)
    else (r.(resubscribing := true, rerun := false), Passing(r.entries.Keys))
  }

  /** A pass reaches one entry of its snapshot: gone, dropped, or re-requested. */
  function PassVisit(r: Reg, id: SubId, todo: set<SubId>): (Reg, Pc) {
    if id !in r.entries then (r, Passing(todo - {id}))
    else if r.entries[id].resubscribable then (r, Rerequesting(id, todo - {id}))
    else (Forget(r, id), Passing(todo - {id}))
  }

  /** The re-request of one entry succeeded, or failed or timed out (then it is dropped). */
  function PassReply(r: Reg, id: SubId, todo: set<SubId>, ok: bool): (Reg, Pc) {
    (if ok then r else ForgetIfLive(r, id), Passing(todo))
  }

  /** The end of a pass: another one if a call asked meanwhile, else the run ends. */
  function PassEnd(r: Reg): (Reg, Pc) {
    if r.rerun then (r.(rerun := false), Passing(r.entries.Keys))
    else (r.(resubscribing := false), Finished)
  }

  // ----- interleavings -----

  /**
   What happened to the resubscribe protocol, oldest first: calls, the beginnings and ends of
   passes with the entries live then, and the streams requested again.
   */
  datatype Resub =
    | Asked(call: Call)
    | PassBegan(live: set<SubId>)
    | Served(id: SubId)
    | PassEnded(live: set<SubId>)

  /** `holder` is the call that keeps the open lock across an await; `runner` runs the passes. */
  datatype System = System(
    reg: Reg,
    calls: map<Call, Pc>,
    holder: Option<Call>,
    runner: Option<Call>,
    log: seq<Resub>)

  datatype Step =
    | CallAdd(call: Call, key: Key, slow: bool)
    | TakeLock(call: Call)
    | Wake(call: Call)
    | FastDone(call: Call, result: Option<Stream>, now: int)
    | SlowDone(call: Call, result: Option<Stream>, now: int)
    | Latest(id: SubId, now: int)
    | Remove(id: SubId)
    | CallReap(call: Call, now: int, ttl: int)
    | CallCancelAll(call: Call)
    | SweepNext(call: Call, id: SubId)
    | CancelNext(call: Call, id: SubId)
    | SweepDone(call: Call)
    | CallResubscribe(call: Call)
    | VisitNext(call: Call, id: SubId)
    | Reply(call: Call, ok: bool)
    | PassOver(call: Call)

  function Initial(max: nat): System {
    System(Reg(max, map[], map[], 1, false, map[], false, false), map[], None, None, [])
  }

  /** Whether the scheduler may run `step` now. */
  predicate Enabled(s: System, step: Step) {
    match step
    case CallAdd(c, _, _) => c !in s.calls
    case TakeLock(c) => c in s.calls && s.calls[c].AwaitsLock? && !s.reg.locked
    case Wake(c) =>
      c in s.calls && s.calls[c].AwaitsOpener? && !Reserved(s.reg, s.calls[c].key, s.calls[c].owner)
    case FastDone(c, _, _) => c in s.calls && s.calls[c].FastOpening?
    case SlowDone(c, _, _) => c in s.calls && s.calls[c].SlowOpening?
    case Latest(id, _) => id in s.reg.entries
    case Remove(id) => id in s.reg.entries
    case CallReap(c, _, _) => c !in s.calls
    case CallCancelAll(c) => c !in s.calls
    case SweepNext(c, id) => c in s.calls && s.calls[c].Sweeping? && id in s.calls[c].todo
    case CancelNext(c, id) => c in s.calls && s.calls[c].Cancelling? && id in s.calls[c].todo
    case SweepDone(c) => c in s.calls && (s.calls[c].Sweeping? || s.calls[c].Cancelling?) && s.calls[c].todo == {}
    case CallResubscribe(c) => c !in s.calls
    case VisitNext(c, id) => c in s.calls && s.calls[c].Passing? && id in s.calls[c].todo
    case Reply(c, _) => c in s.calls && s.calls[c].Rerequesting?
    case PassOver(c) => c in s.calls && s.calls[c].Passing? && s.calls[c].todo == {}
  }

  predicate Reserved(r: Reg, key: Key, owner: Call) {
    key in r.opening && r.opening[key] == owner
  }

  function Moved(s: System, call: Call, to: (Reg, Pc), happened: seq<Resub> := []): System {
    System(to.0,
           s.calls[call := to.1],
           if to.1.FastOpening? then Some(call) else if s.holder == Some(call) then None else s.holder,
           if Runs(to.1) then Some(call) else if s.runner == Some(call) then None else s.runner,
           s.log + happened)
  }

  /** What the end of a pass adds to the log. */
  function PassMarks(r: Reg): seq<Resub> {
    [PassEnded(r.entries.Keys)] + if r.rerun then [PassBegan(r.entries.Keys)] else []
  }

  function Apply(s: System, step: Step): System
    requires Enabled(s, step)
  {
    match step
    case CallAdd(c, key, slow) => Moved(s, c, (s.reg, AwaitsLock(key, slow)))
    case TakeLock(c) => Moved(s, c, Admit(s.reg, c, s.calls[c].key, s.calls[c].slow))
    case Wake(c) => Moved(s, c, (s.reg, AwaitsLock(s.calls[c].key, s.calls[c].slow)))
    case FastDone(c, result, now) => Moved(s, c, FinishFast(s.reg, s.calls[c].key, result, now))
    case SlowDone(c, result, now) => Moved(s, c, FinishSlow(s.reg, s.calls[c].key, result, now))
    case Latest(id, now) => s.(reg := Read(s.reg, id, now))
    case Remove(id) => s.(reg := Forget(s.reg, id))
    case CallReap(c, now, ttl) => Moved(s, c, (s.reg, Sweeping(Idle(s.reg, now, ttl))))
    case CallCancelAll(c) => Moved(s, c, (s.reg, Cancelling(s.reg.entries.Keys)))
    case SweepNext(c, id) => Moved(s, c, SweepVisit(s.reg, id, s.calls[c].todo))
    case CancelNext(c, id) => Moved(s, c, CancelVisit(s.reg, id, s.calls[c].todo))
    case SweepDone(c) => Moved(s, c, (s.reg, Finished))
    case CallResubscribe(c) =>
      Moved(s, c, Ask(s.reg), [Asked(c)] + if s.reg.resubscribing then [] else [PassBegan(s.reg.entries.Keys)])
    case VisitNext(c, id) => Moved(s, c, PassVisit(s.reg, id, s.calls[c].todo))
    case Reply(c, ok) =>
      Moved(s, c, PassReply(s.reg, s.calls[c].id, s.calls[c].todo, ok), if ok then [Served(s.calls[c].id)] else [])
    case PassOver(c) => Moved(s, c, PassEnd(s.reg), PassMarks(s.reg))
  }

  /** A finite interleaving from an empty registry. */
  predicate IsRun(max: nat, steps: seq<Step>)
    decreases |steps|, 1
  {
    steps == [] ||
    var before := steps[..|steps| - 1];
    IsRun(max, before) && Enabled(After(max, before), steps[|steps| - 1])
  }

  function After(max: nat, steps: seq<Step>): System
    requires IsRun(max, steps)
    decreases |steps|, 2
  {
    if steps == [] then Initial(max)
    else Apply(After(max, steps[..|steps| - 1]), steps[|steps| - 1])
  }

  // ----- what every interleaving keeps -----

  /** The key an opener of this call is opening, while one runs. */
  predicate Opens(pc: Pc, key: Key) {
    (pc.FastOpening? || pc.SlowOpening?) && pc.key == key
  }

  /** `_entries` and `_by_key` are inverse to each other. */
  ghost predicate IndexesInverse(r: Reg) {
    && (forall id <- r.entries :: r.entries[id].key in r.byKey && r.byKey[r.entries[id].key] == id)
    && (forall key <- r.byKey :: r.byKey[key] in r.entries && r.entries[r.byKey[key]].key == key)
  }

  function InFlight(r: Reg): nat { if r.locked then 1 else 0 }

  ghost predicate WithinCap(r: Reg) {
    |r.entries| + |r.opening| + InFlight(r) <= r.max
  }

  /** Handles come from the counter and carry their entry's kind. */
  ghost predicate HandlesNumbered(r: Reg) {
    forall id <- r.entries :: id.number < r.nextNumber && id.kind == r.entries[id].key.kind
  }

  ghost predicate IsFast(s: System, c: Call) { c in s.calls && s.calls[c].FastOpening? }

  ghost predicate IsSlow(s: System, c: Call) { c in s.calls && s.calls[c].SlowOpening? }

  ghost predicate IsRunner(s: System, c: Call) { c in s.calls && Runs(s.calls[c]) }

  /** The lock and the reservations belong to exactly the calls that are opening, on free keys. */
  ghost predicate Owned(s: System) {
    && (s.reg.locked <==> s.holder.Some?)
    && (forall c :: IsFast(s, c) <==> s.holder == Some(c))
    && (s.holder.Some? ==>
          IsFast(s, s.holder.value) &&
          s.calls[s.holder.value].key !in s.reg.opening && s.calls[s.holder.value].key !in s.reg.byKey)
    && (forall c | IsSlow(s, c) :: Reserved(s.reg, s.calls[c].key, c))
    && (forall key <- s.reg.opening ::
          key !in s.reg.byKey && s.reg.opening[key] in s.calls &&
          s.calls[s.reg.opening[key]] == SlowOpening(key))
  }

  predicate Runs(pc: Pc) { pc.Passing? || pc.Rerequesting? }

  /** At most one call runs passes, and `_resubscribing` says whether one does. */
  ghost predicate OneRunner(s: System) {
    && (s.reg.resubscribing <==> s.runner.Some?)
    && (forall c :: IsRunner(s, c) <==> s.runner == Some(c))
  }

  predicate Marks(x: Resub) { x.PassBegan? || x.PassEnded? }

  /** The pass that began at `b` has not ended yet. */
  ghost predicate InProgress(log: seq<Resub>, b: nat) {
    b < |log| && log[b].PassBegan? && forall m | b < m < |log| :: !Marks(log[m])
  }

  /** The pass from `b` to `e` is complete. */
  ghost predicate FullPass(log: seq<Resub>, b: int, e: int) {
    0 <= b < e < |log| && log[b].PassBegan? && log[e].PassEnded? && forall m | b < m < e :: !Marks(log[m])
  }

  /** A full pass began after the call at `i`. */
  ghost predicate Answered(log: seq<Resub>, i: nat) {
    exists b, e :: i < b && FullPass(log, b, e)
  }

  /** The passes of the log never overlap: each ends before the next begins. */
  ghost predicate PassesDisjoint(log: seq<Resub>) {
    forall a, b | 0 <= a < b < |log| && log[a].PassBegan? && log[b].PassBegan? ::
      exists e :: e < b && FullPass(log, a, e)
  }

  ghost predicate NothingLost(s: System) {
    if s.reg.resubscribing then
      exists b :: InProgress(s.log, b) &&
        forall i | 0 <= i < |s.log| && s.log[i].Asked? :: Answered(s.log, i) || i < b || s.reg.rerun
    else
      && (forall i | 0 <= i < |s.log| && s.log[i].Asked? :: Answered(s.log, i))
      && (forall b | 0 <= b < |s.log| && s.log[b].PassBegan? :: exists e :: FullPass(s.log, b, e))
  }

  /** The invariants about openings. */
  ghost predicate OpeningInv(s: System) {
    && IndexesInverse(s.reg)
    && HandlesNumbered(s.reg)
    && WithinCap(s.reg)
    && Owned(s)
  }

  /** The invariants about the resubscribe protocol. */
  ghost predicate ProtocolInv(s: System) {
    OneRunner(s) && PassesDisjoint(s.log) && NothingLost(s)
  }

  ghost predicate Inv(s: System) {
    OpeningInv(s) && ProtocolInv(s)
  }

  // ----- proofs: the registry's fields -----

  lemma RemovedOne<K, V>(m: map<K, V>, k: K)
    requires k in m
    ensures |m - {k}| == |m| - 1
  {
    assert (m - {k}).Keys == m.Keys - {k};
  }

  lemma ForgetKeeps(r: Reg, id: SubId)
    requires IndexesInverse(r) && HandlesNumbered(r) && id in r.entries
    ensures IndexesInverse(Forget(r, id)) && HandlesNumbered(Forget(r, id))
    ensures |Forget(r, id).entries| == |r.entries| - 1
    ensures Forget(r, id).byKey.Keys <= r.byKey.Keys
  {
    RemovedOne(r.entries, id);
  }

  lemma RegisterKeeps(r: Reg, key: Key, stream: Stream, now: int)
    requires IndexesInverse(r) && HandlesNumbered(r) && key !in r.byKey
    ensures IndexesInverse(Register(r, key, stream, now)) && HandlesNumbered(Register(r, key, stream, now))
    ensures |Register(r, key, stream, now).entries| == |r.entries| + 1
  {
  }

  // ----- proofs: openings -----

  /** A step of a call that opens nothing, before or after, and at most forgets an entry. */
  lemma MovedQuietly(s: System, c: Call, to: (Reg, Pc), happened: seq<Resub>)
    requires OpeningInv(s)
    requires !IsFast(s, c) && !IsSlow(s, c)
    requires !to.1.FastOpening? && !to.1.SlowOpening?
    requires to.0.opening == s.reg.opening && to.0.locked == s.reg.locked && to.0.max == s.reg.max
    requires IndexesInverse(to.0) && HandlesNumbered(to.0) && |to.0.entries| <= |s.reg.entries|
    requires to.0.byKey.Keys <= s.reg.byKey.Keys
    ensures OpeningInv(Moved(s, c, to, happened))
  {
    var t := Moved(s, c, to, happened);
    OwnedByTheRest(s, t, c);
  }

  /** Ownership, when one call that is not opening (any more) changes. */
  lemma OwnedByTheRest(s: System, t: System, c: Call)
    requires Owned(s) && c in t.calls
    requires t.calls == s.calls[c := t.calls[c]] && t.holder == s.holder
    requires !IsFast(s, c) && !IsSlow(s, c) && !IsFast(t, c) && !IsSlow(t, c)
    requires t.reg.opening == s.reg.opening && t.reg.locked == s.reg.locked
    requires t.reg.byKey.Keys <= s.reg.byKey.Keys
    ensures Owned(t)
  {
    forall d ensures IsFast(t, d) <==> t.holder == Some(d) {
      assert IsFast(t, d) <==> IsFast(s, d);
    }
    forall d | IsSlow(t, d) ensures Reserved(t.reg, t.calls[d].key, d) {
      assert IsSlow(s, d);
    }
  }

  /** Ownership, when `c` starts to open `key`: under the lock, or with a reservation. */
  lemma OwnedWhenAdmitted(s: System, t: System, c: Call, key: Key)
    requires Owned(s) && !s.reg.locked && !IsFast(s, c) && !IsSlow(s, c)
    requires key !in s.reg.byKey && key !in s.reg.opening && t.reg.byKey == s.reg.byKey
    requires || (t.calls == s.calls[c := FastOpening(key)] && t.holder == Some(c) && t.reg.locked
                 && t.reg.opening == s.reg.opening)
             || (t.calls == s.calls[c := SlowOpening(key)] && t.holder == s.holder && !t.reg.locked
                 && t.reg.opening == s.reg.opening[key := c])
    ensures Owned(t)
  {
    forall d ensures IsFast(t, d) <==> t.holder == Some(d) {
      assert IsFast(s, d) <==> s.holder == Some(d);
    }
    forall d | IsSlow(t, d) ensures Reserved(t.reg, t.calls[d].key, d) {
      assert d == c || IsSlow(s, d);
    }
  }

  /** A call takes the lock and its key is free, with room for one more. */
  ghost predicate MayOpen(s: System, c: Call, key: Key) {
    && OpeningInv(s) && !s.reg.locked && !IsFast(s, c) && !IsSlow(s, c)
    && key !in s.reg.byKey && key !in s.reg.opening && |s.reg.entries| + |s.reg.opening| < s.reg.max
  }

  lemma FastAdmitted(s: System, c: Call, key: Key)
    requires MayOpen(s, c, key)
    ensures OpeningInv(Moved(s, c, (s.reg.(locked := true), FastOpening(key))))
  {
    OwnedWhenAdmitted(s, Moved(s, c, (s.reg.(locked := true), FastOpening(key))), c, key);
  }

  lemma SlowAdmitted(s: System, c: Call, key: Key)
    requires MayOpen(s, c, key)
    ensures OpeningInv(Moved(s, c, (s.reg.(opening := s.reg.opening[key := c]), SlowOpening(key))))
  {
    assert s.reg.opening[key := c].Keys == s.reg.opening.Keys + {key};
    OwnedWhenAdmitted(s, Moved(s, c, (s.reg.(opening := s.reg.opening[key := c]), SlowOpening(key))), c, key);
  }

  lemma TakeLockKeeps(s: System, c: Call)
    requires OpeningInv(s) && Enabled(s, TakeLock(c))
    ensures OpeningInv(Apply(s, TakeLock(c)))
  {
    var key := s.calls[c].key;
    var to := Admit(s.reg, c, key, s.calls[c].slow);
    if to.1.FastOpening? { FastAdmitted(s, c, key); }
    else if to.1.SlowOpening? { SlowAdmitted(s, c, key); }
    else { MovedQuietly(s, c, to, []); }
  }

  lemma FastDoneKeeps(s: System, c: Call, result: Option<Stream>, now: int)
    requires OpeningInv(s) && Enabled(s, FastDone(c, result, now))
    ensures OpeningInv(Apply(s, FastDone(c, result, now)))
  {
    assert IsFast(s, c);
    var key := s.calls[c].key;
    var t := Moved(s, c, FinishFast(s.reg, key, result, now));
    if result.Some? { RegisterKeeps(s.reg.(locked := false), key, result.value, now); }
    FastDoneOwned(s, t, c, key);
  }

  lemma FastDoneOwned(s: System, t: System, c: Call, key: Key)
    requires Owned(s) && IsFast(s, c) && key == s.calls[c].key
    requires c in t.calls && t.calls == s.calls[c := t.calls[c]] && t.holder == None
    requires !IsFast(t, c) && !IsSlow(t, c)
    requires t.reg.opening == s.reg.opening && !t.reg.locked
    requires t.reg.byKey.Keys <= s.reg.byKey.Keys + {key}
    ensures Owned(t)
  {
    forall d ensures IsFast(t, d) <==> t.holder == Some(d) {
      assert IsFast(t, d) <==> IsFast(s, d) && d != c;
    }
    forall d | IsSlow(t, d) ensures Reserved(t.reg, t.calls[d].key, d) {
      assert IsSlow(s, d);
    }
  }

  lemma SlowDoneKeeps(s: System, c: Call, result: Option<Stream>, now: int)
    requires OpeningInv(s) && Enabled(s, SlowDone(c, result, now))
    ensures OpeningInv(Apply(s, SlowDone(c, result, now)))
  {
    assert IsSlow(s, c);
    var key := s.calls[c].key;
    var t := Apply(s, SlowDone(c, result, now));
    RemovedOne(s.reg.opening, key);
    if result.Some? {
      RegisterKeeps(s.reg, key, result.value, now);
      SlowDoneOwned(s, t, c, key);
    } else {
      SlowDoneOwned(s, t, c, key);
    }
  }

  lemma SlowDoneOwned(s: System, t: System, c: Call, key: Key)
    requires Owned(s) && IsSlow(s, c) && key == s.calls[c].key
    requires c in t.calls && t.calls == s.calls[c := t.calls[c]] && t.holder == s.holder
    requires !IsFast(t, c) && !IsSlow(t, c)
    requires t.reg.opening == s.reg.opening - {key} && t.reg.locked == s.reg.locked
    requires t.reg.byKey.Keys <= s.reg.byKey.Keys + {key}
    ensures Owned(t)
  {
    assert Reserved(s.reg, key, c);
    forall d ensures IsFast(t, d) <==> t.holder == Some(d) {
      assert IsFast(t, d) <==> IsFast(s, d);
    }
    forall d | IsSlow(t, d) ensures Reserved(t.reg, t.calls[d].key, d) {
      assert IsSlow(s, d);
    }
  }

  predicate OpensOrCloses(step: Step) {
    step.CallAdd? || step.TakeLock? || step.Wake? || step.FastDone? || step.SlowDone? || step.Latest? || step.Remove?
  }

  predicate Sweeps(step: Step) {
    step.CallReap? || step.CallCancelAll? || step.SweepNext? || step.CancelNext? || step.SweepDone?
  }

  lemma AddStepKeeps(s: System, step: Step)
    requires OpeningInv(s) && Enabled(s, step) && OpensOrCloses(step)
    ensures OpeningInv(Apply(s, step))
  {
    match step
    case CallAdd(c, key, slow) => MovedQuietly(s, c, (s.reg, AwaitsLock(key, slow)), []);
    case TakeLock(c) => TakeLockKeeps(s, c);
    case Wake(c) => MovedQuietly(s, c, (s.reg, AwaitsLock(s.calls[c].key, s.calls[c].slow)), []);
    case FastDone(c, result, now) => FastDoneKeeps(s, c, result, now);
    case SlowDone(c, result, now) => SlowDoneKeeps(s, c, result, now);
    case Latest(id, now) => ReadKeeps(s, id, now);
    case Remove(id) => RemoveKeeps(s, id);
  }

  lemma SweepStepKeeps(s: System, step: Step)
    requires OpeningInv(s) && Enabled(s, step) && Sweeps(step)
    ensures OpeningInv(Apply(s, step))
  {
    match step
    case CallReap(c, now, ttl) => MovedQuietly(s, c, (s.reg, Sweeping(Idle(s.reg, now, ttl))), []);
    case CallCancelAll(c) => MovedQuietly(s, c, (s.reg, Cancelling(s.reg.entries.Keys)), []);
    case SweepNext(c, id) => SweepKeeps(s, c, id);
    case CancelNext(c, id) => CancelKeeps(s, c, id);
    case SweepDone(c) => MovedQuietly(s, c, (s.reg, Finished), []);
  }

  lemma PassStepKeeps(s: System, step: Step)
    requires OpeningInv(s) && Enabled(s, step) && !OpensOrCloses(step) && !Sweeps(step)
    ensures OpeningInv(Apply(s, step))
  {
    match step
    case CallResubscribe(c) =>
      MovedQuietly(s, c, Ask(s.reg), [Asked(c)] + if s.reg.resubscribing then [] else [PassBegan(s.reg.entries.Keys)]);
    case VisitNext(c, id) => VisitKeeps(s, c, id);
    case Reply(c, ok) => ReplyKeeps(s, c, ok);
    case PassOver(c) => MovedQuietly(s, c, PassEnd(s.reg), PassMarks(s.reg));
  }

  lemma OpeningStep(s: System, step: Step)
    requires OpeningInv(s) && Enabled(s, step)
    ensures OpeningInv(Apply(s, step))
  {
    if OpensOrCloses(step) { AddStepKeeps(s, step); }
    else if Sweeps(step) { SweepStepKeeps(s, step); }
    else { PassStepKeeps(s, step); }
  }

  lemma ReadKeeps(s: System, id: SubId, now: int)
    requires OpeningInv(s) && id in s.reg.entries
    ensures OpeningInv(s.(reg := Read(s.reg, id, now)))
  {
    OwnedSameCalls(s, Read(s.reg, id, now));
    assert |Read(s.reg, id, now).entries| == |s.reg.entries|;
  }

  lemma OwnedSameCalls(s: System, r: Reg)
    requires Owned(s) && r.opening == s.reg.opening && r.locked == s.reg.locked
    requires r.byKey.Keys <= s.reg.byKey.Keys
    ensures Owned(s.(reg := r))
  {
    var t := s.(reg := r);
    assert forall c :: (IsFast(t, c) <==> IsFast(s, c)) && (IsSlow(t, c) <==> IsSlow(s, c));
  }

  lemma RemoveKeeps(s: System, id: SubId)
    requires OpeningInv(s) && id in s.reg.entries
    ensures OpeningInv(s.(reg := Forget(s.reg, id)))
  {
    ForgetKeeps(s.reg, id);
    OwnedSameCalls(s, Forget(s.reg, id));
  }

  lemma SweepKeeps(s: System, c: Call, id: SubId)
    requires OpeningInv(s) && Enabled(s, SweepNext(c, id))
    ensures OpeningInv(Apply(s, SweepNext(c, id)))
  {
    if id in s.reg.entries { ForgetKeeps(s.reg, id); }
    MovedQuietly(s, c, SweepVisit(s.reg, id, s.calls[c].todo), []);
  }

  lemma CancelKeeps(s: System, c: Call, id: SubId)
    requires OpeningInv(s) && Enabled(s, CancelNext(c, id))
    ensures OpeningInv(Apply(s, CancelNext(c, id)))
  {
    if id in s.reg.entries { ForgetKeeps(s.reg, id); }
    MovedQuietly(s, c, CancelVisit(s.reg, id, s.calls[c].todo), []);
  }

  lemma PassVisitKeeps(r: Reg, id: SubId, todo: set<SubId>)
    requires IndexesInverse(r) && HandlesNumbered(r)
    ensures var to := PassVisit(r, id, todo);
      && IndexesInverse(to.0) && HandlesNumbered(to.0) && |to.0.entries| <= |r.entries|
      && to.0.byKey.Keys <= r.byKey.Keys && to.0.max == r.max
      && to.0.opening == r.opening && to.0.locked == r.locked
      && !to.1.FastOpening? && !to.1.SlowOpening?
  {
    if id in r.entries { ForgetKeeps(r, id); }
  }

  lemma VisitKeeps(s: System, c: Call, id: SubId)
    requires OpeningInv(s) && Enabled(s, VisitNext(c, id))
    ensures OpeningInv(Apply(s, VisitNext(c, id)))
  {
    PassVisitKeeps(s.reg, id, s.calls[c].todo);
    MovedQuietly(s, c, PassVisit(s.reg, id, s.calls[c].todo), []);
  }

  lemma ReplyKeeps(s: System, c: Call, ok: bool)
    requires OpeningInv(s) && Enabled(s, Reply(c, ok))
    ensures OpeningInv(Apply(s, Reply(c, ok)))
  {
    if s.calls[c].id in s.reg.entries { ForgetKeeps(s.reg, s.calls[c].id); }
    var noted := if ok then [Served(s.calls[c].id)] else [];
    MovedQuietly(s, c, PassReply(s.reg, s.calls[c].id, s.calls[c].todo, ok), noted);
  }

  // ----- proofs: the resubscribe protocol -----

  lemma LogGrows(log: seq<Resub>, more: seq<Resub>)
    ensures forall b, e | FullPass(log, b, e) :: FullPass(log + more, b, e)
    ensures forall i | Answered(log, i) :: Answered(log + more, i)
  {
    forall i | Answered(log, i) ensures Answered(log + more, i) {
      var b, e :| i < b && FullPass(log, b, e);
      assert FullPass(log + more, b, e);
    }
  }

  /** A call during a run, or a served stream, is noted in the pass in progress. */
  lemma NotedInPass(s: System, t: System, x: Resub)
    requires ProtocolInv(s) && s.reg.resubscribing && t.reg.resubscribing && !Marks(x) && t.log == s.log + [x]
    requires (s.reg.rerun || x.Asked?) ==> t.reg.rerun
    requires t.runner == s.runner && forall c :: IsRunner(t, c) <==> IsRunner(s, c)
    ensures ProtocolInv(t)
  {
    LogGrows(s.log, [x]);
    RunnerStays(s, t);
    var b :| InProgress(s.log, b) &&
      forall i | 0 <= i < |s.log| && s.log[i].Asked? :: Answered(s.log, i) || i < b || s.reg.rerun;
    assert InProgress(t.log, b);
    assert forall i | 0 <= i < |s.log| && t.log[i].Asked? :: s.log[i].Asked?;
    DisjointGrows(s.log, [x]);
  }

  lemma AskWhileRunning(s: System, c: Call)
    requires ProtocolInv(s) && Enabled(s, CallResubscribe(c)) && s.reg.resubscribing
    ensures ProtocolInv(Apply(s, CallResubscribe(c)))
  {
    var t := Apply(s, CallResubscribe(c));
    assert [Asked(c)] + [] == [Asked(c)];
    NotedInPass(s, t, Asked(c));
  }

  lemma ReplyNoted(s: System, c: Call)
    requires ProtocolInv(s) && Enabled(s, Reply(c, true))
    ensures ProtocolInv(Apply(s, Reply(c, true)))
  {
    assert IsRunner(s, c);
    NotedInPass(s, Apply(s, Reply(c, true)), Served(s.calls[c].id));
  }

  lemma AskWhenIdle(s: System, c: Call)
    requires ProtocolInv(s) && Enabled(s, CallResubscribe(c)) && !s.reg.resubscribing
    ensures ProtocolInv(Apply(s, CallResubscribe(c)))
  {
    var t := Apply(s, CallResubscribe(c));
    var more := [Asked(c), PassBegan(s.reg.entries.Keys)];
    assert [Asked(c)] + [PassBegan(s.reg.entries.Keys)] == more;
    LogGrows(s.log, more);
    var b := |s.log| + 1;
    assert InProgress(t.log, b);
    forall i | 0 <= i < |t.log| && t.log[i].Asked? ensures Answered(t.log, i) || i < b {
      if i < |s.log| { assert s.log[i].Asked?; }
    }
    forall x, y | 0 <= x < y < |t.log| && t.log[x].PassBegan? && t.log[y].PassBegan?
      ensures exists e :: e < y && FullPass(t.log, x, e)
    {
      assert s.log[x].PassBegan?;
      if y < |s.log| {
        assert s.log[y].PassBegan?;
        var e :| e < y && FullPass(s.log, x, e);
        assert FullPass(t.log, x, e);
      } else {
        var e :| FullPass(s.log, x, e);
        assert FullPass(t.log, x, e);
      }
    }
    assert forall d :: IsRunner(t, d) <==> IsRunner(s, d) || d == c;
  }

  lemma DisjointGrows(log: seq<Resub>, more: seq<Resub>)
    requires PassesDisjoint(log)
    requires forall m | 0 <= m < |more| :: !more[m].PassBegan?
    ensures PassesDisjoint(log + more)
  {
    LogGrows(log, more);
    forall x, y | 0 <= x < y < |log + more| && (log + more)[x].PassBegan? && (log + more)[y].PassBegan?
      ensures exists e :: e < y && FullPass(log + more, x, e)
    {
      assert log[x].PassBegan? && log[y].PassBegan?;
      var e :| e < y && FullPass(log, x, e);
      assert FullPass(log + more, x, e);
    }
  }

  /** A step that leaves the runner of passes as it was. */
  lemma RunnerStays(s: System, t: System)
    requires OneRunner(s) && t.reg.resubscribing == s.reg.resubscribing && t.runner == s.runner
    requires forall c :: IsRunner(t, c) <==> IsRunner(s, c)
    ensures OneRunner(t)
  {
  }

  /** Ending a pass turns the one in progress into a full one. */
  lemma PassCompletes(s: System, b: nat, more: seq<Resub>)
    requires InProgress(s.log, b) && more != [] && more[0].PassEnded?
    ensures FullPass(s.log + more, b, |s.log|)
    ensures forall i | 0 <= i < b :: Answered(s.log + more, i)
  {
    assert FullPass(s.log + more, b, |s.log|);
  }

  lemma PassOverKeeps(s: System, c: Call)
    requires ProtocolInv(s) && Enabled(s, PassOver(c))
    ensures ProtocolInv(Apply(s, PassOver(c)))
  {
    var t := Apply(s, PassOver(c));
    assert IsRunner(s, c);
    assert forall d :: IsRunner(t, d) <==> IsRunner(s, d) && (d != c || s.reg.rerun);
    var more := PassMarks(s.reg);
    var b :| InProgress(s.log, b) &&
      forall i | 0 <= i < |s.log| && s.log[i].Asked? :: Answered(s.log, i) || i < b || s.reg.rerun;
    LogGrows(s.log, more);
    PassCompletes(s, b, more);
    PassOverDisjoint(s, b, more);
    forall i | 0 <= i < |t.log| && t.log[i].Asked? ensures Answered(t.log, i) || (s.reg.rerun && i < |s.log|) {
      assert s.log[i].Asked?;
    }
    if s.reg.rerun {
      assert InProgress(t.log, |s.log| + 1);
    } else {
      forall x | 0 <= x < |t.log| && t.log[x].PassBegan? ensures exists e :: FullPass(t.log, x, e) {
        assert s.log[x].PassBegan?;
        if x != b { BeforeInProgress(s.log, x, b); }
      }
    }
  }

  /** With disjoint passes, every pass but the one in progress is full. */
  lemma BeforeInProgress(log: seq<Resub>, x: nat, b: nat)
    requires PassesDisjoint(log) && InProgress(log, b) && x < |log| && log[x].PassBegan? && x != b
    ensures exists e :: FullPass(log, x, e) && e < b
  {
    assert x < b;
  }

  lemma PassOverDisjoint(s: System, b: nat, more: seq<Resub>)
    requires PassesDisjoint(s.log) && InProgress(s.log, b)
    requires 1 <= |more| <= 2 && more[0].PassEnded? && (|more| == 2 ==> more[1].PassBegan?)
    ensures PassesDisjoint(s.log + more)
  {
    var log := s.log + more;
    LogGrows(s.log, more);
    PassCompletes(s, b, more);
    forall x, y | 0 <= x < y < |log| && log[x].PassBegan? && log[y].PassBegan?
      ensures exists e :: e < y && FullPass(log, x, e)
    {
      assert s.log[x].PassBegan?;
      if y < |s.log| {
        assert s.log[y].PassBegan?;
        var e :| e < y && FullPass(s.log, x, e);
        assert FullPass(log, x, e);
      } else if x != b {
        BeforeInProgress(s.log, x, b);
        var e :| FullPass(s.log, x, e) && e < b;
        assert FullPass(log, x, e);
      }
    }
  }

  lemma ProtocolStep(s: System, step: Step)
    requires ProtocolInv(s) && Enabled(s, step)
    ensures ProtocolInv(Apply(s, step))
  {
    match step
    case CallResubscribe(c) => if s.reg.resubscribing { AskWhileRunning(s, c); } else { AskWhenIdle(s, c); }
    case PassOver(c) => PassOverKeeps(s, c);
    case Reply(c, ok) => if ok { ReplyNoted(s, c); } else { OtherStepKeeps(s, step, Apply(s, step)); }
    case _ => OtherStepKeeps(s, step, Apply(s, step));
  }

  /** Whether a step adds nothing to the log. */
  predicate Unlogged(step: Step) {
    !step.CallResubscribe? && !step.PassOver? && !(step.Reply? && step.ok)
  }

  /** The other steps leave the log, the runner and the flags alone. */
  lemma OtherStepKeeps(s: System, step: Step, t: System)
    requires ProtocolInv(s) && Enabled(s, step) && t == Apply(s, step)
    requires Unlogged(step)
    ensures ProtocolInv(t)
  {
    OtherStepMoves(s, step, t);
    RunnerStays(s, t);
  }

  /** What a step that is not logged leaves alone. */
  ghost predicate RunnerAlone(s: System, t: System) {
    && t.log == s.log && t.reg.rerun == s.reg.rerun && t.reg.resubscribing == s.reg.resubscribing
    && t.runner == s.runner && forall c :: IsRunner(t, c) <==> IsRunner(s, c)
  }

  lemma AddStepMoves(s: System, step: Step)
    requires OneRunner(s) && Enabled(s, step) && OpensOrCloses(step)
    ensures RunnerAlone(s, Apply(s, step))
  {
    match step
    case CallAdd(c, key, slow) => RunnersMove(s, c, (s.reg, AwaitsLock(key, slow)));
    case TakeLock(c) => RunnersMove(s, c, Admit(s.reg, c, s.calls[c].key, s.calls[c].slow));
    case Wake(c) => RunnersMove(s, c, (s.reg, AwaitsLock(s.calls[c].key, s.calls[c].slow)));
    case FastDone(c, result, now) => RunnersMove(s, c, FinishFast(s.reg, s.calls[c].key, result, now));
    case SlowDone(c, result, now) => RunnersMove(s, c, FinishSlow(s.reg, s.calls[c].key, result, now));
    case Latest(_, _) =>
    case Remove(_) =>
  }

  lemma SweepStepMoves(s: System, step: Step)
    requires OneRunner(s) && Enabled(s, step) && Sweeps(step)
    ensures RunnerAlone(s, Apply(s, step))
  {
    match step
    case CallReap(c, now, ttl) => RunnersMove(s, c, (s.reg, Sweeping(Idle(s.reg, now, ttl))));
    case CallCancelAll(c) => RunnersMove(s, c, (s.reg, Cancelling(s.reg.entries.Keys)));
    case SweepNext(c, id) => RunnersMove(s, c, SweepVisit(s.reg, id, s.calls[c].todo));
    case CancelNext(c, id) => RunnersMove(s, c, CancelVisit(s.reg, id, s.calls[c].todo));
    case SweepDone(c) => RunnersMove(s, c, (s.reg, Finished));
  }

  lemma PassStepMoves(s: System, step: Step)
    requires OneRunner(s) && Enabled(s, step) && (step.VisitNext? || (step.Reply? && !step.ok))
    ensures RunnerAlone(s, Apply(s, step))
  {
    match step
    case VisitNext(c, id) => RunnersMove(s, c, PassVisit(s.reg, id, s.calls[c].todo));
    case Reply(c, _) => RunnersMove(s, c, PassReply(s.reg, s.calls[c].id, s.calls[c].todo, false));
  }

  lemma OtherStepMoves(s: System, step: Step, t: System)
    requires OneRunner(s) && Enabled(s, step) && t == Apply(s, step)
    requires Unlogged(step)
    ensures RunnerAlone(s, t)
  {
    if OpensOrCloses(step) { AddStepMoves(s, step); }
    else if Sweeps(step) { SweepStepMoves(s, step); }
    else { PassStepMoves(s, step); }
  }

  /** A call that goes on running passes, or on running none, leaves the runner as it was. */
  lemma RunnersMove(s: System, c: Call, to: (Reg, Pc))
    requires OneRunner(s) && (Runs(to.1) <==> IsRunner(s, c))
    ensures Moved(s, c, to).runner == s.runner && Moved(s, c, to).log == s.log
    ensures forall d :: IsRunner(Moved(s, c, to), d) <==> IsRunner(s, d)
  {
    assert IsRunner(s, c) <==> s.runner == Some(c);
    var t := Moved(s, c, to);
    assert forall d :: IsRunner(t, d) <==> if d == c then Runs(to.1) else IsRunner(s, d);
  }

  // ----- main results -----

  lemma StepKeepsInv(s: System, step: Step)
    requires Inv(s) && Enabled(s, step)
    ensures Inv(Apply(s, step))
  {
    OpeningStep(s, step);
    ProtocolStep(s, step);
  }

  lemma StepKeepsMax(s: System, step: Step)
    requires Enabled(s, step)
    ensures Apply(s, step).reg.max == s.reg.max
  {
    match step
    case TakeLock(c) => assert Admit(s.reg, c, s.calls[c].key, s.calls[c].slow).0.max == s.reg.max;
    case FastDone(_, _, _) =>
    case SlowDone(_, _, _) =>
    case VisitNext(_, _) =>
    case PassOver(_) =>
    case _ =>
  }

  lemma {:induction false} EveryRunKeepsInv(max: nat, steps: seq<Step>)
    requires IsRun(max, steps)
    ensures Inv(After(max, steps)) && After(max, steps).reg.max == max
    decreases |steps|
  {
    if steps != [] {
      var before := steps[..|steps| - 1];
      EveryRunKeepsInv(max, before);
      StepKeepsInv(After(max, before), steps[|steps| - 1]);
      StepKeepsMax(After(max, before), steps[|steps| - 1]);
    }
  }

  /**
   In every interleaving: live entries, reserved slow opens and the one fast open in flight never
   exceed the cap; the two indexes are inverse; no key has two openers, or an opener and an entry.
   */
  lemma {:induction false} CapAndDedupeInEveryInterleaving(max: nat, steps: seq<Step>)
    requires IsRun(max, steps)
    ensures var s := After(max, steps);
      && |s.reg.entries| + |s.reg.opening| + InFlight(s.reg) <= max
      && IndexesInverse(s.reg)
      && |s.reg.byKey| == |s.reg.entries|
      && (forall c, d, key | c in s.calls && d in s.calls && Opens(s.calls[c], key) && Opens(s.calls[d], key) :: c == d)
      && (forall c, id | c in s.calls && id in s.reg.entries :: !Opens(s.calls[c], s.reg.entries[id].key))
  {
    EveryRunKeepsInv(max, steps);
    InverseSameSize(After(max, steps).reg);
    NoDuplicates(After(max, steps));
  }

  lemma OpenedKeyIsFree(s: System, c: Call, key: Key)
    requires OpeningInv(s) && c in s.calls && Opens(s.calls[c], key)
    ensures key !in s.reg.byKey
    ensures (s.holder == Some(c) && key !in s.reg.opening) || Reserved(s.reg, key, c)
  {
    assert IsFast(s, c) || IsSlow(s, c);
  }

  lemma NoDuplicates(s: System)
    requires OpeningInv(s)
    ensures forall c, d, key | c in s.calls && d in s.calls && Opens(s.calls[c], key) && Opens(s.calls[d], key) ::
              c == d
    ensures forall c, id | c in s.calls && id in s.reg.entries :: !Opens(s.calls[c], s.reg.entries[id].key)
  {
    forall c, d, key | c in s.calls && d in s.calls && Opens(s.calls[c], key) && Opens(s.calls[d], key) ensures c == d {
      OpenedKeyIsFree(s, c, key);
      OpenedKeyIsFree(s, d, key);
    }
    forall c, id | c in s.calls && id in s.reg.entries ensures !Opens(s.calls[c], s.reg.entries[id].key) {
      if Opens(s.calls[c], s.reg.entries[id].key) { OpenedKeyIsFree(s, c, s.reg.entries[id].key); }
    }
  }

  lemma InverseSameSize(r: Reg)
    requires IndexesInverse(r)
    ensures |r.byKey| == |r.entries|
    decreases |r.entries|
  {
    if r.entries == map[] {
      assert r.byKey == map[];
    } else {
      var id :| id in r.entries;
      RemovedOne(r.entries, id);
      RemovedOne(r.byKey, r.entries[id].key);
      var smaller := Forget(r, id);
      assert IndexesInverse(smaller);
      InverseSameSize(smaller);
    }
  }

  /**
   Passes never overlap, and no request is lost: a call at `i` without a full pass begun after it
   has one in progress that began after it, or a run that is bound to make one more pass.
   */
  lemma {:induction false} EveryRequestIsAnswered(max: nat, steps: seq<Step>, i: nat)
    requires IsRun(max, steps) && i < |After(max, steps).log| && After(max, steps).log[i].Asked?
    ensures var s := After(max, steps);
      && PassesDisjoint(s.log)
      && (!Answered(s.log, i) ==>
            && s.reg.resubscribing
            && (s.reg.rerun || exists b :: i < b && InProgress(s.log, b)))
  {
    EveryRunKeepsInv(max, steps);
  }

  lemma RunnerExists(s: System)
    requires OneRunner(s)
    ensures s.reg.resubscribing ==> exists c :: IsRunner(s, c)
  {
    if s.reg.resubscribing { assert IsRunner(s, s.runner.value); }
  }

  /** Once no run is active, every call so far has been answered by a full pass begun after it. */
  lemma {:induction false} QuietMeansAllAnswered(max: nat, steps: seq<Step>, i: nat)
    requires IsRun(max, steps) && i < |After(max, steps).log| && After(max, steps).log[i].Asked?
    requires forall c <- After(max, steps).calls :: !Runs(After(max, steps).calls[c])
    ensures Answered(After(max, steps).log, i)
    ensures exists b, e :: i < b && WorkedPass(After(max, steps).log, b, e)
  {
    EveryRunKeepsInv(max, steps);
    RunnerExists(After(max, steps));
    AnsweredMeansServed(max, steps, i);
  }

  /** The call at position `i` of the log came after the latest beginning of a pass. */
  ghost predicate AskedLast(log: seq<Resub>, i: int) {
    0 <= i < |log| && log[i].Asked? && forall j | i < j < |log| :: !log[j].PassBegan?
  }

  /** Some call came since the latest pass began. */
  ghost predicate AskedSince(log: seq<Resub>) {
    exists i :: AskedLast(log, i)
  }

  lemma AskedSinceStep(log: seq<Resub>, e: Resub)
    ensures AskedSince(log + [e]) <==> e.Asked? || (AskedSince(log) && !e.PassBegan?)
  {
    var more := log + [e];
    if e.Asked? { assert AskedLast(more, |log|); }
    if i :| AskedLast(log, i) {
      assert more[i] == log[i];
      if !e.PassBegan? { assert AskedLast(more, i); }
    }
    if i :| AskedLast(more, i) {
      if i < |log| {
        assert !more[|log|].PassBegan? && forall j | 0 <= j < |log| :: more[j] == log[j];
        assert AskedLast(log, i);
      }
    }
  }

  lemma PassRerunStep(s: System, step: Step)
    requires Enabled(s, step) && (s.reg.rerun <==> AskedSince(s.log))
    requires step.CallResubscribe? || step.Reply? || step.PassOver?
    ensures Apply(s, step).reg.rerun <==> AskedSince(Apply(s, step).log)
  {
    var live := s.reg.entries.Keys;
    match step
    case CallResubscribe(c) =>
      AskedSinceStep(s.log, Asked(c));
      AskedSinceStep(s.log + [Asked(c)], PassBegan(live));
      assert Apply(s, step).log
        == if s.reg.resubscribing then s.log + [Asked(c)] else s.log + [Asked(c)] + [PassBegan(live)];
    case Reply(c, ok) =>
      AskedSinceStep(s.log, Served(s.calls[c].id));
      assert s.log + [] == s.log;
    case PassOver(c) =>
      AskedSinceStep(s.log, PassEnded(live));
      AskedSinceStep(s.log + [PassEnded(live)], PassBegan(live));
      assert Apply(s, step).log == s.log + PassMarks(s.reg);
      assert s.log + PassMarks(s.reg)
        == if s.reg.rerun then s.log + [PassEnded(live)] + [PassBegan(live)] else s.log + [PassEnded(live)];
  }

  lemma QuietRerunStep(s: System, step: Step)
    requires Enabled(s, step) && !step.CallResubscribe? && !step.Reply? && !step.PassOver?
    ensures Apply(s, step).reg.rerun == s.reg.rerun && Apply(s, step).log == s.log
  {
    assert s.log + [] == s.log;
  }

  lemma {:induction false} RerunFollows(max: nat, steps: seq<Step>)
    requires IsRun(max, steps)
    ensures After(max, steps).reg.rerun <==> AskedSince(After(max, steps).log)
    decreases |steps|
  {
    if steps != [] {
      var s, step := After(max, steps[..|steps| - 1]), steps[|steps| - 1];
      RerunFollows(max, steps[..|steps| - 1]);
      if step.CallResubscribe? || step.Reply? || step.PassOver? {
        PassRerunStep(s, step);
      } else {
        QuietRerunStep(s, step);
      }
    }
  }

  /** No pass is one too many: at the end of one another begins exactly when a call came since it began. */
  lemma {:induction false} AnotherPassExactlyWhen(max: nat, steps: seq<Step>, c: Call)
    requires IsRun(max, steps) && Enabled(After(max, steps), PassOver(c))
    ensures var s, t := After(max, steps), Apply(After(max, steps), PassOver(c));
      && (Runs(t.calls[c]) <==> AskedSince(s.log))
      && (t.reg.resubscribing <==> AskedSince(s.log) && s.reg.resubscribing)
      && (AskedSince(s.log) ==> t.calls[c] == Passing(s.reg.entries.Keys))
  {
    RerunFollows(max, steps);
  }

  // ----- what a pass does -----

  /** The handles that a call running a pass has still to settle. */
  function Unsettled(pc: Pc): set<SubId> {
    match pc
    case Passing(todo) => todo
    case Rerequesting(id, todo) => todo + {id}
    case _ => {}
  }

  function Left(s: System): set<SubId> {
    if s.runner.Some? && s.runner.value in s.calls then Unsettled(s.calls[s.runner.value]) else {}
  }

  ghost predicate ServedBetween(log: seq<Resub>, b: int, e: int, id: SubId) {
    exists m :: 0 <= b < m < e <= |log| && log[m] == Served(id)
  }

  /** A complete pass settled every entry that was live when it began. */
  ghost predicate PassesServe(log: seq<Resub>) {
    forall b, e, id | FullPass(log, b, e) && id in log[b].live :: id !in log[e].live || ServedBetween(log, b, e, id)
  }

  /** The entry `id`, live when the pass at `b` began, is to be settled, gone, or served. */
  ghost predicate Settling(s: System, b: nat, id: SubId) {
    && id.number < s.reg.nextNumber
    && (id in Left(s) || id !in s.reg.entries || ServedBetween(s.log, b, |s.log|, id))
  }

  ghost predicate PassServes(s: System) {
    forall b: nat, id | InProgress(s.log, b) && id in s.log[b].live :: Settling(s, b, id)
  }

  ghost predicate WorkInv(s: System) {
    PassServes(s) && PassesServe(s.log)
  }

  /** The entry `id` stays as it is or goes; no entry appears under an earlier number. */
  ghost predicate Older(r: Reg, t: Reg, id: SubId) {
    && r.nextNumber <= t.nextNumber
    && (id in t.entries && id.number < r.nextNumber ==> id in r.entries && t.entries[id] == r.entries[id])
  }

  lemma AdmitKeepsOlder(r: Reg, c: Call, key: Key, slow: bool, id: SubId)
    ensures Older(r, Admit(r, c, key, slow).0, id)
  {
  }

  lemma FinishKeepsOlder(r: Reg, key: Key, result: Option<Stream>, now: int, id: SubId)
    ensures Older(r, FinishFast(r, key, result, now).0, id)
    ensures Older(r, FinishSlow(r, key, result, now).0, id)
  {
    if result.Some? { assert Older(r, Register(r, key, result.value, now), id); }
  }

  lemma VisitsKeepOlder(r: Reg, other: SubId, todo: set<SubId>, ok: bool, id: SubId)
    ensures Older(r, SweepVisit(r, other, todo).0, id) && Older(r, CancelVisit(r, other, todo).0, id)
    ensures Older(r, PassVisit(r, other, todo).0, id) && Older(r, PassReply(r, other, todo, ok).0, id)
    ensures other in r.entries ==> Older(r, Forget(r, other), id)
  {
  }

  /** Only a read of the entry itself changes it. */
  lemma EntryStep(s: System, step: Step, id: SubId)
    requires Enabled(s, step) && !(step.Latest? && step.id == id)
    ensures Older(s.reg, Apply(s, step).reg, id)
  {
    match step
    case TakeLock(c) => AdmitKeepsOlder(s.reg, c, s.calls[c].key, s.calls[c].slow, id);
    case FastDone(c, result, now) => FinishKeepsOlder(s.reg, s.calls[c].key, result, now, id);
    case SlowDone(c, result, now) => FinishKeepsOlder(s.reg, s.calls[c].key, result, now, id);
    case Remove(other) => VisitsKeepOlder(s.reg, other, {}, true, id);
    case SweepNext(c, other) => VisitsKeepOlder(s.reg, other, s.calls[c].todo, true, id);
    case CancelNext(c, other) => VisitsKeepOlder(s.reg, other, s.calls[c].todo, true, id);
    case VisitNext(c, other) => VisitsKeepOlder(s.reg, other, s.calls[c].todo, true, id);
    case Reply(c, ok) => VisitsKeepOlder(s.reg, s.calls[c].id, s.calls[c].todo, ok, id);
    case _ =>
  }

  lemma ServedLater(log: seq<Resub>, more: seq<Resub>, b: int, e: int, id: SubId)
    requires ServedBetween(log, b, e, id)
    ensures ServedBetween(log + more, b, e, id)
  {
    var m :| 0 <= b < m < e <= |log| && log[m] == Served(id);
    assert (log + more)[m] == Served(id);
  }

  /** What a longer log says of its beginning. */
  lemma LogShrinks(log: seq<Resub>, more: seq<Resub>, b: nat)
    ensures b < |log| && InProgress(log + more, b) ==> InProgress(log, b)
    ensures FullPass(log + more, b, |log|) ==> InProgress(log, b)
    ensures forall e | e < |log| && FullPass(log + more, b, e) :: FullPass(log, b, e)
  {
    assert forall m | 0 <= m < |log| :: (log + more)[m] == log[m];
  }

  /** Of the runner's handles only one is settled in a step: dropped, or found gone. */
  lemma LeftStep(s: System, step: Step, id: SubId)
    requires OneRunner(s) && Enabled(s, step) && Unlogged(step) && id in Left(s)
    ensures id in Left(Apply(s, step)) || id !in Apply(s, step).reg.entries
  {
    OtherStepMoves(s, step, Apply(s, step));
    if step.VisitNext? || step.Reply? { assert IsRunner(s, step.call); }
  }

  lemma UnloggedServes(s: System, step: Step)
    requires OneRunner(s) && WorkInv(s) && Enabled(s, step) && Unlogged(step)
    ensures WorkInv(Apply(s, step))
  {
    var t := Apply(s, step);
    OtherStepMoves(s, step, t);
    forall b: nat, id | InProgress(t.log, b) && id in t.log[b].live ensures Settling(t, b, id) {
      assert Settling(s, b, id);
      if !step.Latest? { EntryStep(s, step, id); }
      if id in Left(s) { LeftStep(s, step, id); }
    }
  }

  /** Notes in the log leave the complete passes as they are. */
  lemma FullPassesStay(log: seq<Resub>, more: seq<Resub>)
    requires PassesServe(log) && forall k | 0 <= k < |more| :: !more[k].PassEnded?
    ensures PassesServe(log + more)
  {
    assert forall m | |log| <= m < |log + more| :: !(log + more)[m].PassEnded?;
    forall b, e, id | FullPass(log + more, b, e) && id in (log + more)[b].live
      ensures id !in (log + more)[e].live || ServedBetween(log + more, b, e, id)
    {
      LogShrinks(log, more, b);
      assert FullPass(log, b, e);
      if id in log[e].live { ServedLater(log, more, b, e, id); }
    }
  }

  lemma ReplyServes(s: System, c: Call)
    requires OneRunner(s) && WorkInv(s) && Enabled(s, Reply(c, true))
    ensures WorkInv(Apply(s, Reply(c, true)))
  {
    assert IsRunner(s, c);
    var t := Apply(s, Reply(c, true));
    FullPassesStay(s.log, [Served(s.calls[c].id)]);
    forall b: nat, id | InProgress(t.log, b) && id in t.log[b].live ensures Settling(t, b, id) {
      LogShrinks(s.log, [Served(s.calls[c].id)], b);
      assert b < |s.log| && InProgress(s.log, b);
      assert Settling(s, b, id);
      if ServedBetween(s.log, b, |s.log|, id) {
        ServedLater(s.log, [Served(s.calls[c].id)], b, |s.log|, id);
      } else if id == s.calls[c].id {
        assert t.log[|s.log|] == Served(id);
      }
    }
  }

  lemma AskServes(s: System, c: Call)
    requires OneRunner(s) && HandlesNumbered(s.reg) && WorkInv(s) && Enabled(s, CallResubscribe(c))
    ensures WorkInv(Apply(s, CallResubscribe(c)))
  {
    var t := Apply(s, CallResubscribe(c));
    var more := [Asked(c)] + if s.reg.resubscribing then [] else [PassBegan(s.reg.entries.Keys)];
    FullPassesStay(s.log, more);
    assert IsRunner(s, c) <==> s.runner == Some(c);
    forall b: nat, id | InProgress(t.log, b) && id in t.log[b].live ensures Settling(t, b, id) {
      LogShrinks(s.log, more, b);
      if s.reg.resubscribing {
        assert b < |s.log| && InProgress(s.log, b);
        assert Settling(s, b, id);
        if ServedBetween(s.log, b, |s.log|, id) { ServedLater(s.log, more, b, |s.log|, id); }
      } else {
        assert t.log[|s.log| + 1].PassBegan?;
        assert b == |s.log| + 1;
      }
    }
  }

  lemma PassOverServes(s: System, c: Call)
    requires OneRunner(s) && HandlesNumbered(s.reg) && WorkInv(s) && Enabled(s, PassOver(c))
    ensures WorkInv(Apply(s, PassOver(c)))
  {
    assert IsRunner(s, c);
    var t := Apply(s, PassOver(c));
    var more := PassMarks(s.reg);
    assert t.log[|s.log|] == PassEnded(s.reg.entries.Keys);
    forall b: nat, id | InProgress(t.log, b) && id in t.log[b].live ensures Settling(t, b, id) {
      assert b == |s.log| + 1;
    }
    forall b, e, id | FullPass(t.log, b, e) && id in t.log[b].live
      ensures id !in t.log[e].live || ServedBetween(t.log, b, e, id)
    {
      assert e <= |s.log| && b < |s.log|;
      LogShrinks(s.log, more, b);
      if e < |s.log| {
        assert FullPass(s.log, b, e);
      } else {
        assert InProgress(s.log, b);
        assert Settling(s, b, id);
      }
      if ServedBetween(s.log, b, e, id) { ServedLater(s.log, more, b, e, id); }
    }
  }

  lemma StepKeepsWork(s: System, step: Step)
    requires Inv(s) && WorkInv(s) && Enabled(s, step)
    ensures WorkInv(Apply(s, step))
  {
    if Unlogged(step) { UnloggedServes(s, step); }
    else if step.Reply? { ReplyServes(s, step.call); }
    else if step.PassOver? { PassOverServes(s, step.call); }
    else { AskServes(s, step.call); }
  }

  lemma {:induction false} EveryRunKeepsWork(max: nat, steps: seq<Step>)
    requires IsRun(max, steps)
    ensures WorkInv(After(max, steps))
    decreases |steps|
  {
    if steps != [] {
      var before := steps[..|steps| - 1];
      EveryRunKeepsWork(max, before);
      EveryRunKeepsInv(max, before);
      StepKeepsWork(After(max, before), steps[|steps| - 1]);
    }
  }

  /** A complete pass did its work: what was live when it began is re-requested since, or gone. */
  ghost predicate WorkedPass(log: seq<Resub>, b: int, e: int) {
    && FullPass(log, b, e)
    && forall id | id in log[b].live :: id !in log[e].live || ServedBetween(log, b, e, id)
  }

  /** What an answered call gets: a later pass that settled every stream live at its beginning. */
  lemma {:induction false} AnsweredMeansServed(max: nat, steps: seq<Step>, i: nat)
    requires IsRun(max, steps) && Answered(After(max, steps).log, i)
    ensures exists b, e :: i < b && WorkedPass(After(max, steps).log, b, e)
  {
    EveryRunKeepsWork(max, steps);
    var log := After(max, steps).log;
    var b, e :| i < b && FullPass(log, b, e);
    assert WorkedPass(log, b, e);
  }

  // ----- what a sweep does -----

  lemma {:induction false} RunGrows(max: nat, steps: seq<Step>, step: Step)
    ensures IsRun(max, steps + [step]) <==> IsRun(max, steps) && Enabled(After(max, steps), step)
    ensures IsRun(max, steps + [step]) ==> After(max, steps + [step]) == Apply(After(max, steps), step)
  {
    assert (steps + [step])[..|steps|] == steps;
  }

  predicate Reads(step: Step, id: SubId) { step.Latest? && step.id == id }

  /** The last read of `id` is the step at `k`. */
  ghost predicate LastRead(steps: seq<Step>, id: SubId, k: nat) {
    k < |steps| && Reads(steps[k], id) && forall m | k < m < |steps| :: !Reads(steps[m], id)
  }

  /** An entry's last use: its last read in `steps`, else what it was before them. */
  ghost predicate UsedIn(steps: seq<Step>, id: SubId, earlier: int, use: int) {
    && (forall k: nat | LastRead(steps, id, k) :: use == steps[k].now)
    && ((forall k | 0 <= k < |steps| :: !Reads(steps[k], id)) ==> use == earlier)
  }

  lemma UsedInGrows(steps: seq<Step>, step: Step, id: SubId, earlier: int, use: int)
    requires UsedIn(steps, id, earlier, use)
    ensures UsedIn(steps + [step], id, earlier, if Reads(step, id) then step.now else use)
  {
    var more := steps + [step];
    assert more[|steps|] == step;
    forall k: nat | LastRead(more, id, k) ensures (if Reads(step, id) then step.now else use) == more[k].now {
      if k < |steps| {
        assert forall m | k < m < |steps| :: more[m] == steps[m];
        assert LastRead(steps, id, k);
      }
    }
    if !Reads(step, id) && forall k | 0 <= k < |more| :: !Reads(more[k], id) {
      assert forall k | 0 <= k < |steps| :: steps[k] == more[k];
    }
  }

  /** Since a call's scan found `id` idle: the call only works its list off, and the entry is the same. */
  ghost predicate SinceScan(scan: Reg, now: int, ttl: int, between: seq<Step>, s: System, c: Call, id: SubId) {
    && c in s.calls
    && (s.calls[c].Finished? || (s.calls[c].Sweeping? && s.calls[c].todo <= Idle(scan, now, ttl)))
    && (id in Idle(scan, now, ttl) ==>
          && id.number < s.reg.nextNumber
          && (id in s.reg.entries ==> UsedIn(between, id, LastUse(scan.entries[id]), LastUse(s.reg.entries[id]))))
  }

  lemma SinceScanStep(scan: Reg, now: int, ttl: int, between: seq<Step>, s: System, c: Call, id: SubId, step: Step)
    requires SinceScan(scan, now, ttl, between, s, c, id) && Enabled(s, step)
    ensures SinceScan(scan, now, ttl, between + [step], Apply(s, step), c, id)
  {
    if !Reads(step, id) { EntryStep(s, step, id); }
    if id in Idle(scan, now, ttl) && id in s.reg.entries {
      UsedInGrows(between, step, id, LastUse(scan.entries[id]), LastUse(s.reg.entries[id]));
    }
  }

  lemma ScanBegins(s: System, c: Call, now: int, ttl: int, id: SubId)
    requires HandlesNumbered(s.reg) && Enabled(s, CallReap(c, now, ttl))
    ensures SinceScan(s.reg, now, ttl, [], Apply(s, CallReap(c, now, ttl)), c, id)
  {
  }

  lemma {:induction false} ScanIsFollowed(max: nat, before: seq<Step>, c: Call, now: int, ttl: int,
                                          between: seq<Step>, id: SubId)
    requires IsRun(max, before + [CallReap(c, now, ttl)] + between)
    ensures IsRun(max, before)
    ensures SinceScan(After(max, before).reg, now, ttl, between,
                      After(max, before + [CallReap(c, now, ttl)] + between), c, id)
    decreases |between|
  {
    var call := before + [CallReap(c, now, ttl)];
    if between == [] {
      assert call + between == call;
      RunGrows(max, before, CallReap(c, now, ttl));
      EveryRunKeepsInv(max, before);
      ScanBegins(After(max, before), c, now, ttl, id);
    } else {
      var rest, step := between[..|between| - 1], between[|between| - 1];
      assert call + between == (call + rest) + [step] && between == rest + [step];
      RunGrows(max, call + rest, step);
      ScanIsFollowed(max, before, c, now, ttl, rest, id);
      SinceScanStep(After(max, before).reg, now, ttl, rest, After(max, call + rest), c, id, step);
    }
  }

  /**
   The sweep of `reap_idle` removes an entry that was used within the idle time exactly when the
   last read since the scan was: a read between the scan and the sweep's turn saves nothing.
   */
  lemma {:induction false} SweptThoughUsedExactlyWhen(max: nat, before: seq<Step>, c: Call, now: int, ttl: int,
                                                      between: seq<Step>, id: SubId)
    requires IsRun(max, before + [CallReap(c, now, ttl)] + between)
    requires var s := After(max, before + [CallReap(c, now, ttl)] + between);
      Enabled(s, SweepNext(c, id)) && id in s.reg.entries
    ensures var s := After(max, before + [CallReap(c, now, ttl)] + between);
      && id !in Apply(s, SweepNext(c, id)).reg.entries
      && (LastUse(s.reg.entries[id]) >= now - ttl
          <==> exists k: nat :: LastRead(between, id, k) && between[k].now >= now - ttl)
  {
    ScanIsFollowed(max, before, c, now, ttl, between, id);
    LastReadExists(between, id);
  }

  lemma {:induction false} LastReadExists(steps: seq<Step>, id: SubId)
    ensures (exists k: nat :: LastRead(steps, id, k)) || forall k | 0 <= k < |steps| :: !Reads(steps[k], id)
    decreases |steps|
  {
    if steps != [] {
      var last := |steps| - 1;
      if Reads(steps[last], id) {
        assert LastRead(steps, id, last);
      } else {
        LastReadExists(steps[..last], id);
        if k: nat :| LastRead(steps[..last], id, k) {
          assert forall m | 0 <= m < last :: steps[..last][m] == steps[m];
          assert LastRead(steps, id, k);
        }
      }
    }
  }

  // An opening under the lock, from the call to its return.

  function Opening(c: Call, key: Key, now: int): seq<Step> {
    [CallAdd(c, key, false), TakeLock(c), FastDone(c, Some(Stream(true)), now)]
  }

  lemma {:induction false} ThreeSteps(max: nat, steps: seq<Step>, x: Step, y: Step, z: Step)
    requires IsRun(max, steps) && Enabled(After(max, steps), x)
    requires Enabled(Apply(After(max, steps), x), y)
    requires Enabled(Apply(Apply(After(max, steps), x), y), z)
    ensures IsRun(max, steps + [x]) && IsRun(max, steps + [x, y]) && IsRun(max, steps + [x, y, z])
    ensures After(max, steps + [x, y]) == Apply(Apply(After(max, steps), x), y)
    ensures After(max, steps + [x, y, z]) == Apply(Apply(Apply(After(max, steps), x), y), z)
  {
    RunGrows(max, steps, x);
    RunGrows(max, steps + [x], y);
    RunGrows(max, steps + [x] + [y], z);
    assert steps + [x] + [y] == steps + [x, y] && steps + [x, y] + [z] == steps + [x, y, z];
  }

  /** A state where a new call can open a free key under the lock. */
  ghost predicate CanOpen(s: System, c: Call, key: Key) {
    && c !in s.calls && !s.reg.locked && key !in s.reg.byKey && key !in s.reg.opening
    && |s.reg.entries| + |s.reg.opening| < s.reg.max
  }

  ghost predicate HasOpened(s: System, t: System, c: Call, key: Key, now: int) {
    && t.reg == Register(s.reg, key, Stream(true), now)
    && t.calls == s.calls[c := Returned(SubId(key.kind, s.reg.nextNumber))]
  }

  lemma LockTaken(s: System, c: Call, key: Key) returns (locked: System)
    requires CanOpen(s, c, key)
    ensures Enabled(s, CallAdd(c, key, false)) && Enabled(Apply(s, CallAdd(c, key, false)), TakeLock(c))
    ensures locked == Apply(Apply(s, CallAdd(c, key, false)), TakeLock(c))
    ensures locked.reg == s.reg.(locked := true) && locked.calls == s.calls[c := FastOpening(key)]
  {
    locked := Apply(Apply(s, CallAdd(c, key, false)), TakeLock(c));
  }

  lemma OpenerBack(s: System, locked: System, c: Call, key: Key, now: int)
    requires CanOpen(s, c, key)
    requires locked.reg == s.reg.(locked := true) && locked.calls == s.calls[c := FastOpening(key)]
    ensures Enabled(locked, FastDone(c, Some(Stream(true)), now))
    ensures HasOpened(s, Apply(locked, FastDone(c, Some(Stream(true)), now)), c, key, now)
  {
  }

  lemma {:induction false} OpensNext(max: nat, steps: seq<Step>, c: Call, key: Key, now: int)
    requires IsRun(max, steps) && CanOpen(After(max, steps), c, key)
    ensures IsRun(max, steps + Opening(c, key, now))
    ensures HasOpened(After(max, steps), After(max, steps + Opening(c, key, now)), c, key, now)
  {
    var s := After(max, steps);
    var locked := LockTaken(s, c, key);
    OpenerBack(s, locked, c, key, now);
    ThreeSteps(max, steps, CallAdd(c, key, false), TakeLock(c), FastDone(c, Some(Stream(true)), now));
  }

  /** A reap call whose sweep, next, removes an entry used within the idle time. */
  ghost predicate SweepsUsed(max: nat, before: seq<Step>, c: Call, now: int, ttl: int, between: seq<Step>, id: SubId) {
    && IsRun(max, before + [CallReap(c, now, ttl)] + between)
    && var s := After(max, before + [CallReap(c, now, ttl)] + between);
    Enabled(s, SweepNext(c, id)) && id in s.reg.entries && LastUse(s.reg.entries[id]) >= now - ttl
  }

  lemma FirstSwept(s: System, c: Call, now: int, ttl: int, first: SubId) returns (t: System)
    requires c !in s.calls && first in Idle(s.reg, now, ttl)
    ensures Enabled(s, CallReap(c, now, ttl)) && Enabled(Apply(s, CallReap(c, now, ttl)), SweepNext(c, first))
    ensures t == Apply(Apply(s, CallReap(c, now, ttl)), SweepNext(c, first))
    ensures t.reg == Forget(s.reg, first) && t.calls == s.calls[c := Sweeping(Idle(s.reg, now, ttl) - {first})]
  {
    t := Apply(Apply(s, CallReap(c, now, ttl)), SweepNext(c, first));
  }

  /** While the sweep cancels one idle stream, another is read, and swept all the same. */
  lemma {:induction false} ReadAfterTheScan(max: nat, before: seq<Step>, c: Call, now: int, ttl: nat, first: SubId,
                                            id: SubId)
    requires IsRun(max, before) && c !in After(max, before).calls && first != id
    requires first in Idle(After(max, before).reg, now, ttl) && id in Idle(After(max, before).reg, now, ttl)
    ensures SweepsUsed(max, before, c, now, ttl, [SweepNext(c, first), Latest(id, now)], id)
  {
    var swept := FirstSwept(After(max, before), c, now, ttl, first);
    ThreeSteps(max, before, CallReap(c, now, ttl), SweepNext(c, first), Latest(id, now));
    assert before + [CallReap(c, now, ttl)] + [SweepNext(c, first), Latest(id, now)]
        == before + [CallReap(c, now, ttl), SweepNext(c, first), Latest(id, now)];
  }

  lemma TwoCanOpen(max: nat, one: Key, two: Key) returns (run: seq<Step>)
    requires one != two && max >= 2
    ensures IsRun(max, run)
    ensures var s := After(max, run);
      && s.calls.Keys == {1, 2} && !s.reg.locked && s.reg.opening == map[] && s.reg.nextNumber == 3
      && s.reg.entries
         == map[SubId(one.kind, 1) := Entry(one, true, 0, None), SubId(two.kind, 2) := Entry(two, true, 0, None)]
      && s.reg.byKey.Keys == {one, two} && s.reg.max == max
  {
    OpensNext(max, [], 1, one, 0);
    run := [] + Opening(1, one, 0);
    OpensNext(max, run, 2, two, 0);
    run := run + Opening(2, two, 0);
  }

  /** A run that gets there: two streams opened at 0 and idle at 100, the second read at 100. */
  lemma UsedStreamCanBeSwept()
    ensures exists before: seq<Step>, between: seq<Step>, id: SubId :: SweepsUsed(2, before, 3, 100, 10, between, id)
  {
    var before := TwoCanOpen(2, Key("k", "a"), Key("k", "b"));
    ReadAfterTheScan(2, before, 3, 100, 10, SubId("k", 1), SubId("k", 2));
  }

  // ----- cancelling everything -----

  predicate CancelsAll(s: System, c: Call) {
    c in s.calls && (s.calls[c].Cancelling? || s.calls[c].Raised? || s.calls[c].Finished?)
  }

  /** The handle is gone or still to be reached, unless the call raised. */
  ghost predicate Accounted(s: System, c: Call, id: SubId)
    requires CancelsAll(s, c)
  {
    && id.number < s.reg.nextNumber
    && (s.calls[c].Raised? || id !in s.reg.entries || (s.calls[c].Cancelling? && id in s.calls[c].todo))
  }

  /** Since `cancel_all` took its snapshot: what it still has to do, or that all of it is gone. */
  ghost predicate SinceSnapshot(snapshot: set<SubId>, s: System, c: Call) {
    CancelsAll(s, c) && forall id | id in snapshot :: Accounted(s, c, id)
  }

  /** The step reaches a handle that is gone. */
  predicate Misses(s: System, step: Step, c: Call) {
    step.CancelNext? && step.call == c && step.id !in s.reg.entries
  }

  lemma SinceSnapshotStep(snapshot: set<SubId>, s: System, c: Call, step: Step)
    requires SinceSnapshot(snapshot, s, c) && Enabled(s, step)
    ensures SinceSnapshot(snapshot, Apply(s, step), c)
  {
    CancelsOn(s, c, step);
    forall id | id in snapshot ensures Accounted(Apply(s, step), c, id) {
      AccountedStep(s, c, step, id);
    }
  }

  lemma CancelsOn(s: System, c: Call, step: Step)
    requires CancelsAll(s, c) && Enabled(s, step)
    ensures CancelsAll(Apply(s, step), c)
  {
  }

  lemma AccountedStep(s: System, c: Call, step: Step, id: SubId)
    requires CancelsAll(s, c) && Enabled(s, step) && CancelsAll(Apply(s, step), c) && Accounted(s, c, id)
    ensures Accounted(Apply(s, step), c, id)
  {
    if !step.Latest? { EntryStep(s, step, id); }
  }

  lemma RaisesExactlyWhen(s: System, c: Call, step: Step)
    requires CancelsAll(s, c) && Enabled(s, step)
    ensures c in Apply(s, step).calls
    ensures Apply(s, step).calls[c].Raised? <==> s.calls[c].Raised? || Misses(s, step, c)
  {
  }

  lemma SnapshotTaken(s: System, c: Call)
    requires HandlesNumbered(s.reg) && Enabled(s, CallCancelAll(c))
    ensures SinceSnapshot(s.reg.entries.Keys, Apply(s, CallCancelAll(c)), c)
    ensures !Apply(s, CallCancelAll(c)).calls[c].Raised?
  {
  }

  lemma {:induction false} CancelAllSoFar(max: nat, before: seq<Step>, c: Call, between: seq<Step>)
    requires IsRun(max, before + [CallCancelAll(c)] + between)
    ensures IsRun(max, before)
    ensures SinceSnapshot(After(max, before).reg.entries.Keys, After(max, before + [CallCancelAll(c)] + between), c)
    ensures After(max, before + [CallCancelAll(c)] + between).calls[c].Raised?
      <==> exists k: nat :: MissesAt(max, before + [CallCancelAll(c)], between, k, c)
    decreases |between|
  {
    var call := before + [CallCancelAll(c)];
    if between == [] {
      assert call + between == call;
      RunGrows(max, before, CallCancelAll(c));
      EveryRunKeepsInv(max, before);
      SnapshotTaken(After(max, before), c);
    } else {
      var rest, step := between[..|between| - 1], between[|between| - 1];
      assert call + between == (call + rest) + [step] && between == rest + [step];
      RunGrows(max, call + rest, step);
      CancelAllSoFar(max, before, c, rest);
      SinceSnapshotStep(After(max, before).reg.entries.Keys, After(max, call + rest), c, step);
      RaisesExactlyWhen(After(max, call + rest), c, step);
      MissesLater(max, call, rest, step, c);
    }
  }

  /** Step `k` of `between` reaches a handle that is gone. */
  ghost predicate MissesAt(max: nat, call: seq<Step>, between: seq<Step>, k: nat, c: Call) {
    k < |between| && IsRun(max, call + between[..k]) && Misses(After(max, call + between[..k]), between[k], c)
  }

  lemma {:induction false} MissesLater(max: nat, call: seq<Step>, rest: seq<Step>, step: Step, c: Call)
    requires IsRun(max, call + rest)
    ensures (exists k: nat :: MissesAt(max, call, rest + [step], k, c))
      <==> (exists k: nat :: MissesAt(max, call, rest, k, c)) || Misses(After(max, call + rest), step, c)
  {
    var more := rest + [step];
    assert more[..|rest|] == rest;
    assert forall k | 0 <= k < |rest| :: more[..k] == rest[..k];
    forall k: nat ensures MissesAt(max, call, more, k, c) <==>
        MissesAt(max, call, rest, k, c) || (k == |rest| && Misses(After(max, call + rest), step, c))
    {
      if k < |rest| { assert more[..k] == rest[..k]; }
    }
    if Misses(After(max, call + rest), step, c) { assert MissesAt(max, call, more, |rest|, c); }
  }

  /**
   `cancel_all` raises exactly when it reaches a handle of its snapshot that is gone by then, and
   when it returns every stream of its snapshot is gone.
   */
  lemma {:induction false} CancelAllRaisesExactlyWhen(max: nat, before: seq<Step>, c: Call, between: seq<Step>)
    requires IsRun(max, before + [CallCancelAll(c)] + between)
    ensures IsRun(max, before)
    ensures var s := After(max, before + [CallCancelAll(c)] + between);
      && c in s.calls
      && (s.calls[c].Raised? <==> exists k: nat :: MissesAt(max, before + [CallCancelAll(c)], between, k, c))
      && (s.calls[c].Finished? ==> forall id | id in After(max, before).reg.entries :: id !in s.reg.entries)
  {
    CancelAllSoFar(max, before, c, between);
  }

  /** The call has had its turn at `id`. */
  predicate Reached(between: seq<Step>, c: Call, id: SubId) {
    exists k :: 0 <= k < |between| && between[k] == CancelNext(c, id)
  }

  lemma ReachedStep(between: seq<Step>, step: Step, c: Call, id: SubId)
    ensures Reached(between + [step], c, id) <==> Reached(between, c, id) || step == CancelNext(c, id)
  {
    var more := between + [step];
    assert more[|between|] == step;
    if k :| 0 <= k < |between| && between[k] == CancelNext(c, id) { assert more[k] == CancelNext(c, id); }
  }

  lemma GoneStaysGone(s: System, step: Step, id: SubId)
    requires Enabled(s, step) && id.number < s.reg.nextNumber
    requires id !in s.reg.entries || (step.CancelNext? && step.id == id)
    ensures id !in Apply(s, step).reg.entries
  {
    if !step.Latest? { EntryStep(s, step, id); }
  }

  lemma {:induction false} ReachedAreGone(max: nat, before: seq<Step>, c: Call, between: seq<Step>, id: SubId)
    requires IsRun(max, before + [CallCancelAll(c)] + between) && IsRun(max, before)
    requires id in After(max, before).reg.entries && Reached(between, c, id)
    ensures id !in After(max, before + [CallCancelAll(c)] + between).reg.entries
    decreases |between|
  {
    var call := before + [CallCancelAll(c)];
    var rest, step := between[..|between| - 1], between[|between| - 1];
    assert call + between == (call + rest) + [step] && between == rest + [step];
    RunShrinks(max, call + rest, step);
    if Reached(rest, c, id) { ReachedAreGone(max, before, c, rest, id); }
    KnownNumber(max, before, c, rest, id);
    ReachedRun(max, call, rest, step, c, id);
  }

  lemma {:induction false} ReachedRun(max: nat, call: seq<Step>, rest: seq<Step>, step: Step, c: Call, id: SubId)
    requires IsRun(max, call + rest + [step]) && IsRun(max, call + rest)
    requires id.number < After(max, call + rest).reg.nextNumber && Reached(rest + [step], c, id)
    requires Reached(rest, c, id) ==> id !in After(max, call + rest).reg.entries
    ensures id !in After(max, call + rest + [step]).reg.entries
  {
    ReachedStep(rest, step, c, id);
    GoneAfterStep(max, call + rest, step, id);
  }

  lemma {:induction false} RunShrinks(max: nat, steps: seq<Step>, step: Step)
    requires IsRun(max, steps + [step])
    ensures IsRun(max, steps)
  {
    RunGrows(max, steps, step);
  }

  lemma {:induction false} GoneAfterStep(max: nat, steps: seq<Step>, step: Step, id: SubId)
    requires IsRun(max, steps + [step]) && IsRun(max, steps) && id.number < After(max, steps).reg.nextNumber
    requires id !in After(max, steps).reg.entries || (step.CancelNext? && step.id == id)
    ensures id !in After(max, steps + [step]).reg.entries
  {
    RunGrows(max, steps, step);
    GoneStaysGone(After(max, steps), step, id);
  }

  lemma {:induction false} KnownNumber(max: nat, before: seq<Step>, c: Call, between: seq<Step>, id: SubId)
    requires IsRun(max, before + [CallCancelAll(c)] + between) && IsRun(max, before)
    requires id in After(max, before).reg.entries
    ensures id.number < After(max, before + [CallCancelAll(c)] + between).reg.nextNumber
  {
    CancelAllSoFar(max, before, c, between);
    assert Accounted(After(max, before + [CallCancelAll(c)] + between), c, id);
  }

  /**
   Once `cancel_all` is over, a stream of its snapshot is open exactly when the call raised while one
   that it has not reached is: every handle it reached is gone for good.
   */
  lemma {:induction false} CancelAllLeavesExactlyWhen(max: nat, before: seq<Step>, c: Call, between: seq<Step>)
    requires IsRun(max, before + [CallCancelAll(c)] + between)
    requires var s := After(max, before + [CallCancelAll(c)] + between); c in s.calls && Settled(s.calls[c])
    ensures IsRun(max, before)
    ensures var s, snapshot := After(max, before + [CallCancelAll(c)] + between), After(max, before).reg.entries.Keys;
      && (forall id | id in snapshot && Reached(between, c, id) :: id !in s.reg.entries)
      && ((exists id :: id in snapshot && id in s.reg.entries)
          <==> s.calls[c].Raised? && exists id :: id in snapshot && id in s.reg.entries && !Reached(between, c, id))
  {
    CancelAllRaisesExactlyWhen(max, before, c, between);
    CancelAllSoFar(max, before, c, between);
    forall id | id in After(max, before).reg.entries && Reached(between, c, id)
      ensures id !in After(max, before + [CallCancelAll(c)] + between).reg.entries
    {
      ReachedAreGone(max, before, c, between, id);
    }
  }

  /** A `cancel_all` that raised has left a stream of its snapshot open. */
  ghost predicate LeavesOpen(max: nat, before: seq<Step>, c: Call, between: seq<Step>, id: SubId) {
    && IsRun(max, before) && IsRun(max, before + [CallCancelAll(c)] + between)
    && var s := After(max, before + [CallCancelAll(c)] + between);
    c in s.calls && s.calls[c].Raised? && id in After(max, before).reg.entries && id in s.reg.entries
  }

  lemma {:induction false} TwoSteps(max: nat, steps: seq<Step>, x: Step, y: Step, end: System)
    requires IsRun(max, steps) && Enabled(After(max, steps), x) && Enabled(Apply(After(max, steps), x), y)
    requires end == Apply(Apply(After(max, steps), x), y)
    ensures IsRun(max, steps + [x]) && IsRun(max, steps + [x, y]) && After(max, steps + [x, y]) == end
  {
    RunGrows(max, steps, x);
    RunGrows(max, steps + [x], y);
    assert steps + [x] + [y] == steps + [x, y];
  }

  lemma FirstCancelled(s: System, c: Call, first: SubId) returns (t: System)
    requires c !in s.calls && first in s.reg.entries
    ensures Enabled(s, CallCancelAll(c)) && Enabled(Apply(s, CallCancelAll(c)), CancelNext(c, first))
    ensures t == Apply(Apply(s, CallCancelAll(c)), CancelNext(c, first))
    ensures t.reg == Forget(s.reg, first) && t.calls == s.calls[c := Cancelling(s.reg.entries.Keys - {first})]
  {
    t := Apply(Apply(s, CallCancelAll(c)), CancelNext(c, first));
  }

  lemma RaisesWhenRemoved(s: System, c: Call, gone: SubId) returns (t: System)
    requires c in s.calls && s.calls[c].Cancelling? && gone in s.calls[c].todo && gone in s.reg.entries
    ensures Enabled(s, Remove(gone)) && Enabled(Apply(s, Remove(gone)), CancelNext(c, gone))
    ensures t == Apply(Apply(s, Remove(gone)), CancelNext(c, gone))
    ensures t.calls == s.calls[c := Raised] && t.reg.entries == s.reg.entries - {gone}
  {
    t := Apply(Apply(s, Remove(gone)), CancelNext(c, gone));
  }

  lemma RaisingRun(max: nat, before: seq<Step>, c: Call, first: SubId, gone: SubId) returns (end: System)
    requires IsRun(max, before) && c !in After(max, before).calls && first != gone
    requires first in After(max, before).reg.entries && gone in After(max, before).reg.entries
    ensures var run := before + [CallCancelAll(c)] + [CancelNext(c, first), Remove(gone), CancelNext(c, gone)];
      IsRun(max, run) && After(max, run) == end
    ensures c in end.calls && end.calls[c].Raised?
    ensures end.reg.entries == After(max, before).reg.entries - {first} - {gone}
  {
    var cancelled := FirstCancelled(After(max, before), c, first);
    end := RaisesWhenRemoved(cancelled, c, gone);
    TwoSteps(max, before, CallCancelAll(c), CancelNext(c, first), cancelled);
    TwoSteps(max, before + [CallCancelAll(c), CancelNext(c, first)], Remove(gone), CancelNext(c, gone), end);
    FourInOrder(before, CallCancelAll(c), CancelNext(c, first), Remove(gone), CancelNext(c, gone));
  }

  lemma FourInOrder(steps: seq<Step>, x: Step, y: Step, z: Step, w: Step)
    ensures steps + [x] + [y, z, w] == steps + [x, y] + [z, w]
  {
  }

  /** While `cancel_all` cancels one of three streams, another is removed: the third is left. */
  lemma {:induction false} RemovedBeforeItsTurn(max: nat, before: seq<Step>, c: Call, first: SubId, gone: SubId,
                                                other: SubId)
    requires IsRun(max, before) && c !in After(max, before).calls
    requires first != gone && first != other && gone != other
    requires {first, gone, other} <= After(max, before).reg.entries.Keys
    ensures LeavesOpen(max, before, c, [CancelNext(c, first), Remove(gone), CancelNext(c, gone)], other)
  {
    var end := RaisingRun(max, before, c, first, gone);
  }

  lemma ThreeCanOpen(one: Key, two: Key, three: Key) returns (run: seq<Step>)
    requires one != two && one != three && two != three
    ensures IsRun(3, run) && After(3, run).calls.Keys == {1, 2, 3}
    ensures After(3, run).reg.entries.Keys == {SubId(one.kind, 1), SubId(two.kind, 2), SubId(three.kind, 3)}
  {
    run := TwoCanOpen(3, one, two);
    OpensNext(3, run, 3, three, 0);
    run := run + Opening(3, three, 0);
  }

  lemma CancelAllCanLeaveStreams()
    ensures exists before: seq<Step>, between: seq<Step>, id: SubId :: LeavesOpen(3, before, 4, between, id)
  {
    var before := ThreeCanOpen(Key("k", "a"), Key("k", "b"), Key("k", "c"));
    RemovedBeforeItsTurn(3, before, 4, SubId("k", 1), SubId("k", 2), SubId("k", 3));
  }

  // ----- which streams a pass requests again -----

  /** The call waits for its re-request of the stream `id`. */
  ghost predicate Awaits(s: System, c: Call, id: SubId) {
    c in s.calls && s.calls[c].Rerequesting? && s.calls[c].id == id
  }

  /** The step takes the entry `id` away: removed, swept, cancelled, or its re-request failed. */
  ghost predicate TakesAway(s: System, step: Step, id: SubId) {
    || step == Remove(id)
    || (step.SweepNext? && step.id == id)
    || (step.CancelNext? && step.id == id)
    || (step.Reply? && !step.ok && Awaits(s, step.call, id))
  }

  /** A pass reaches an entry that cannot be requested again. */
  ghost predicate CannotReopen(s: System, step: Step, id: SubId) {
    step.VisitNext? && step.id == id && id in s.reg.entries && !s.reg.entries[id].resubscribable
  }

  /** The step makes the pass request the stream `id` again. */
  ghost predicate Requests(s: System, step: Step, id: SubId)
    requires Enabled(s, step)
  {
    && step.VisitNext? && Apply(s, step).calls[step.call].Rerequesting?
    && Apply(s, step).calls[step.call].id == id
  }

  /** An entry disappears exactly when it is taken away, or when a pass reaches one that cannot be requested again. */
  lemma DisappearsExactlyWhen(s: System, step: Step, id: SubId)
    requires Enabled(s, step) && id in s.reg.entries
    ensures id !in Apply(s, step).reg.entries <==> TakesAway(s, step, id) || CannotReopen(s, step, id)
  {
    if OpensOrCloses(step) { AddStepTakes(s, step, id); }
    else if Sweeps(step) { SweepStepTakes(s, step, id); }
    else { PassStepTakes(s, step, id); }
  }

  lemma AddStepTakes(s: System, step: Step, id: SubId)
    requires Enabled(s, step) && id in s.reg.entries && OpensOrCloses(step)
    ensures id !in Apply(s, step).reg.entries <==> step == Remove(id)
  {
    match step
    case TakeLock(c) => assert Admit(s.reg, c, s.calls[c].key, s.calls[c].slow).0.entries == s.reg.entries;
    case FastDone(c, result, now) => assert id in FinishFast(s.reg, s.calls[c].key, result, now).0.entries;
    case SlowDone(c, result, now) => assert id in FinishSlow(s.reg, s.calls[c].key, result, now).0.entries;
    case _ =>
  }

  lemma SweepStepTakes(s: System, step: Step, id: SubId)
    requires Enabled(s, step) && id in s.reg.entries && Sweeps(step)
    ensures id !in Apply(s, step).reg.entries <==> (step.SweepNext? || step.CancelNext?) && step.id == id
  {
    match step
    case SweepNext(c, other) =>
      assert id !in SweepVisit(s.reg, other, s.calls[c].todo).0.entries <==> other == id;
    case CancelNext(c, other) =>
      assert id !in CancelVisit(s.reg, other, s.calls[c].todo).0.entries <==> other == id;
    case _ =>
  }

  lemma PassStepTakes(s: System, step: Step, id: SubId)
    requires Enabled(s, step) && id in s.reg.entries && !OpensOrCloses(step) && !Sweeps(step)
    ensures id !in Apply(s, step).reg.entries <==> TakesAway(s, step, id) || CannotReopen(s, step, id)
  {
    match step
    case VisitNext(c, other) => VisitTakes(s.reg, other, s.calls[c].todo, id);
    case Reply(c, ok) => ReplyTakes(s.reg, s.calls[c].id, s.calls[c].todo, ok, id);
    case _ =>
  }

  lemma VisitTakes(r: Reg, other: SubId, todo: set<SubId>, id: SubId)
    requires id in r.entries
    ensures id !in PassVisit(r, other, todo).0.entries <==> other == id && !r.entries[id].resubscribable
  {
  }

  lemma ReplyTakes(r: Reg, other: SubId, todo: set<SubId>, ok: bool, id: SubId)
    requires id in r.entries
    ensures id !in PassReply(r, other, todo, ok).0.entries <==> other == id && !ok
  {
  }

  /** A pass that reaches a live entry requests it again exactly when it can be. */
  lemma RequestsExactlyWhen(s: System, step: Step, id: SubId)
    requires Enabled(s, step)
    ensures Requests(s, step, id) <==>
      step.VisitNext? && step.id == id && id in s.reg.entries && s.reg.entries[id].resubscribable
  {
  }

  /** The step begins a pass. */
  ghost predicate BeginsPass(s: System, step: Step) {
    (step.CallResubscribe? && !s.reg.resubscribing) || (step.PassOver? && s.reg.rerun)
  }

  /** Step `k` of `later`, which came after `steps`, took the entry away. */
  ghost predicate TakenAwayAt(max: nat, steps: seq<Step>, later: seq<Step>, k: nat, id: SubId) {
    && k < |later| && IsRun(max, steps + later[..k])
    && TakesAway(After(max, steps + later[..k]), later[k], id)
  }

  /** Step `k` of `later`, which came after `steps`, requested the stream again. */
  ghost predicate RequestedAt(max: nat, steps: seq<Step>, later: seq<Step>, k: nat, id: SubId) {
    && k < |later| && IsRun(max, steps + later[..k]) && Enabled(After(max, steps + later[..k]), later[k])
    && Requests(After(max, steps + later[..k]), later[k], id)
  }

  lemma AtStays(max: nat, steps: seq<Step>, later: seq<Step>, step: Step, k: nat, id: SubId)
    requires k < |later|
    ensures TakenAwayAt(max, steps, later + [step], k, id) <==> TakenAwayAt(max, steps, later, k, id)
    ensures RequestedAt(max, steps, later + [step], k, id) <==> RequestedAt(max, steps, later, k, id)
  {
    assert (later + [step])[..k] == later[..k];
  }

  lemma {:induction false} AtLast(max: nat, steps: seq<Step>, later: seq<Step>, step: Step, id: SubId)
    requires IsRun(max, steps + later) && Enabled(After(max, steps + later), step)
    ensures TakenAwayAt(max, steps, later + [step], |later|, id) <==> TakesAway(After(max, steps + later), step, id)
    ensures RequestedAt(max, steps, later + [step], |later|, id) <==> Requests(After(max, steps + later), step, id)
  {
    assert (later + [step])[..|later|] == later;
  }

  /** An entry that can be requested again is still there, unless some step took it away. */
  lemma {:induction false} OnlyTakenAway(max: nat, steps: seq<Step>, later: seq<Step>, id: SubId)
    requires IsRun(max, steps + later) && IsRun(max, steps)
    requires id in After(max, steps).reg.entries && After(max, steps).reg.entries[id].resubscribable
    ensures (forall k: nat :: !TakenAwayAt(max, steps, later, k, id)) ==>
              id in After(max, steps + later).reg.entries && After(max, steps + later).reg.entries[id].resubscribable
    decreases |later|
  {
    if later == [] {
      assert steps + later == steps;
    } else {
      var rest, step := later[..|later| - 1], later[|later| - 1];
      assert steps + later == (steps + rest) + [step] && later == rest + [step];
      RunGrows(max, steps + rest, step);
      OnlyTakenAway(max, steps, rest, id);
      EveryRunKeepsInv(max, steps + rest);
      if forall k: nat :: !TakenAwayAt(max, steps, later, k, id) {
        forall k: nat ensures !TakenAwayAt(max, steps, rest, k, id) {
          if k < |rest| { AtStays(max, steps, rest, step, k, id); }
        }
        AtLast(max, steps, rest, step, id);
        assert !TakenAwayAt(max, steps, later, |rest|, id);
        StaysResubscribable(After(max, steps + rest), step, id);
      }
    }
  }

  lemma StaysResubscribable(s: System, step: Step, id: SubId)
    requires HandlesNumbered(s.reg) && Enabled(s, step)
    requires id in s.reg.entries && s.reg.entries[id].resubscribable && !TakesAway(s, step, id)
    ensures id in Apply(s, step).reg.entries && Apply(s, step).reg.entries[id].resubscribable
  {
    DisappearsExactlyWhen(s, step, id);
    KeepsKind(s, step, id);
  }

  lemma KeepsKind(s: System, step: Step, id: SubId)
    requires Enabled(s, step) && id in s.reg.entries && id in Apply(s, step).reg.entries && id.number < s.reg.nextNumber
    ensures Apply(s, step).reg.entries[id].resubscribable == s.reg.entries[id].resubscribable
  {
    if !step.Latest? || step.id != id { EntryStep(s, step, id); }
  }

  /** The entries that the running pass has still to reach. */
  function Todo(s: System): set<SubId> {
    if s.runner.Some? && s.runner.value in s.calls && Runs(s.calls[s.runner.value]) then s.calls[s.runner.value].todo
    else {}
  }

  /** While a pass runs, only its own visits shorten its list. */
  lemma TodoStep(s: System, step: Step)
    requires OneRunner(s) && s.reg.resubscribing && Enabled(s, step) && !step.PassOver?
    ensures OneRunner(Apply(s, step)) && Apply(s, step).reg.resubscribing
    ensures Todo(Apply(s, step)) == Todo(s) - if step.VisitNext? then {step.id} else {}
  {
    assert IsRunner(s, s.runner.value);
    if step.VisitNext? || step.Reply? {
      TodoPasses(s, step);
    } else if step.CallResubscribe? {
      TodoAsked(s, step.call);
    } else {
      OtherStepMoves(s, step, Apply(s, step));
      RunnerIsNotMoved(s, step);
    }
  }

  lemma TodoPasses(s: System, step: Step)
    requires OneRunner(s) && s.reg.resubscribing && Enabled(s, step) && (step.VisitNext? || step.Reply?)
    ensures OneRunner(Apply(s, step)) && Apply(s, step).reg.resubscribing
    ensures Todo(Apply(s, step)) == Todo(s) - if step.VisitNext? then {step.id} else {}
  {
    assert IsRunner(s, step.call);
    var to := if step.VisitNext? then PassVisit(s.reg, step.id, s.calls[step.call].todo)
              else PassReply(s.reg, s.calls[step.call].id, s.calls[step.call].todo, step.ok);
    RunnersMove(s, step.call, to);
    assert forall d :: IsRunner(Apply(s, step), d) <==> IsRunner(s, d);
  }

  lemma TodoAsked(s: System, c: Call)
    requires OneRunner(s) && s.reg.resubscribing && Enabled(s, CallResubscribe(c))
    ensures var t := Apply(s, CallResubscribe(c)); OneRunner(t) && t.reg.resubscribing && Todo(t) == Todo(s)
  {
    assert IsRunner(s, s.runner.value);
    RunnersMove(s, c, Ask(s.reg));
    assert forall d :: IsRunner(Apply(s, CallResubscribe(c)), d) <==> IsRunner(s, d);
  }

  lemma RunnerIsNotMoved(s: System, step: Step)
    requires OneRunner(s) && s.reg.resubscribing && Enabled(s, step) && s.runner.Some? && IsRunner(s, s.runner.value)
    requires !step.VisitNext? && !step.Reply? && !step.PassOver? && !step.CallResubscribe?
    ensures var c := s.runner.value; c in Apply(s, step).calls && Apply(s, step).calls[c] == s.calls[c]
  {
  }

  /** Of an entry live when the pass began: whether it is to be reached still, was requested, or is gone. */
  ghost predicate PassSoFar(max: nat, begun: seq<Step>, later: seq<Step>, s: System, resubscribable: bool, id: SubId) {
    && OneRunner(s) && s.reg.resubscribing && id.number < s.reg.nextNumber
    && (id in s.reg.entries ==> s.reg.entries[id].resubscribable == resubscribable)
    && (id in s.reg.entries && id !in Todo(s) ==> exists k: nat :: RequestedAt(max, begun, later, k, id))
    && (!resubscribable ==> forall k: nat :: !RequestedAt(max, begun, later, k, id))
  }

  lemma {:induction false} PassSoFarStep(max: nat, begun: seq<Step>, later: seq<Step>, step: Step,
                                         resubscribable: bool, id: SubId)
    requires IsRun(max, begun + later) && Enabled(After(max, begun + later), step) && !step.PassOver?
    requires PassSoFar(max, begun, later, After(max, begun + later), resubscribable, id)
    ensures PassSoFar(max, begun, later + [step], Apply(After(max, begun + later), step), resubscribable, id)
  {
    var s, t, more := After(max, begun + later), Apply(After(max, begun + later), step), later + [step];
    TodoStep(s, step);
    RequestsExactlyWhen(s, step, id);
    AtLast(max, begun, later, step, id);
    PassEntryStep(s, step, id, resubscribable);
    forall k: nat | k < |later|
      ensures RequestedAt(max, begun, more, k, id) <==> RequestedAt(max, begun, later, k, id)
    {
      AtStays(max, begun, later, step, k, id);
    }
    if k: nat :| RequestedAt(max, begun, later, k, id) { assert RequestedAt(max, begun, more, k, id); }
    if Requests(s, step, id) { assert RequestedAt(max, begun, more, |later|, id); }
  }

  lemma PassEntryStep(s: System, step: Step, id: SubId, resubscribable: bool)
    requires Enabled(s, step) && id.number < s.reg.nextNumber
    requires id in s.reg.entries ==> s.reg.entries[id].resubscribable == resubscribable
    ensures id.number < Apply(s, step).reg.nextNumber
    ensures id in Apply(s, step).reg.entries ==>
              id in s.reg.entries && Apply(s, step).reg.entries[id].resubscribable == resubscribable
  {
    if !step.Latest? || step.id != id { EntryStep(s, step, id); }
  }

  lemma {:induction false} PassSoFarRun(max: nat, begun: seq<Step>, later: seq<Step>, step: Step,
                                        resubscribable: bool, id: SubId)
    requires IsRun(max, begun + later + [step]) && IsRun(max, begun + later) && !step.PassOver?
    requires PassSoFar(max, begun, later, After(max, begun + later), resubscribable, id)
    ensures PassSoFar(max, begun, later + [step], After(max, begun + later + [step]), resubscribable, id)
  {
    RunGrows(max, begun + later, step);
    PassSoFarStep(max, begun, later, step, resubscribable, id);
  }

  lemma {:induction false} PassStarts(max: nat, before: seq<Step>, begin: Step, id: SubId)
    requires IsRun(max, before) && Enabled(After(max, before), begin) && BeginsPass(After(max, before), begin)
    requires id in After(max, before).reg.entries
    ensures IsRun(max, before + [begin]) && After(max, before + [begin]).reg.entries == After(max, before).reg.entries
    ensures PassSoFar(max, before + [begin], [], After(max, before + [begin]),
                      After(max, before).reg.entries[id].resubscribable, id)
  {
    RunGrows(max, before, begin);
    EveryRunKeepsInv(max, before);
    EveryRunKeepsInv(max, before + [begin]);
    PassBegins(After(max, before), begin);
  }

  lemma {:induction false} PassGoesOn(max: nat, begun: seq<Step>, later: seq<Step>, resubscribable: bool, id: SubId)
    requires IsRun(max, begun) && PassSoFar(max, begun, [], After(max, begun), resubscribable, id)
    requires IsRun(max, begun + later) && forall k | 0 <= k < |later| :: !later[k].PassOver?
    ensures PassSoFar(max, begun, later, After(max, begun + later), resubscribable, id)
    decreases |later|
  {
    if later == [] {
      assert begun + later == begun;
    } else {
      var rest, step := later[..|later| - 1], later[|later| - 1];
      assert begun + later == (begun + rest) + [step] && later == rest + [step];
      RunShrinks(max, begun + rest, step);
      PassGoesOn(max, begun, rest, resubscribable, id);
      PassSoFarRun(max, begun, rest, step, resubscribable, id);
    }
  }

  lemma PassBegins(s: System, begin: Step)
    requires OneRunner(s) && Enabled(s, begin) && BeginsPass(s, begin)
    ensures var t := Apply(s, begin);
      t.reg.resubscribing && t.reg.entries == s.reg.entries && t.reg.nextNumber == s.reg.nextNumber
      && Todo(t) == s.reg.entries.Keys
  {
  }

  /**
   What a resubscribe pass does with each stream live when it began, in every run. One that can be
   requested again was, unless it is gone, and it is gone only if some step took it away: a removal, a
   sweep, a cancel, or a failed request. One that cannot was never requested, and is gone at the end.
   */
  lemma {:induction false} PassOutcome(max: nat, before: seq<Step>, begin: Step, later: seq<Step>, c: Call, id: SubId)
    requires IsRun(max, before) && Enabled(After(max, before), begin) && BeginsPass(After(max, before), begin)
    requires IsRun(max, before + [begin] + later) && forall k | 0 <= k < |later| :: !later[k].PassOver?
    requires Enabled(After(max, before + [begin] + later), PassOver(c))
    requires id in After(max, before).reg.entries
    ensures var begun, live := before + [begin], After(max, before + [begin] + later).reg.entries;
      if After(max, before).reg.entries[id].resubscribable then
        && (id in live ==> exists k: nat :: RequestedAt(max, begun, later, k, id))
        && (id !in live ==> exists k: nat :: TakenAwayAt(max, begun, later, k, id))
      else id !in live && forall k: nat :: !RequestedAt(max, begun, later, k, id)
  {
    var begun, s := before + [begin], After(max, before + [begin] + later);
    var resubscribable := After(max, before).reg.entries[id].resubscribable;
    PassStarts(max, before, begin, id);
    PassGoesOn(max, begun, later, resubscribable, id);
    assert IsRunner(s, c);
    if resubscribable { OnlyTakenAway(max, begun, later, id); }
  }

  // ----- what a call to `add` gets -----

  /** The calls that run a slow opener. */
  ghost function SlowCalls(s: System): set<Call> {
    set c | c in s.calls && s.calls[c].SlowOpening?
  }

  ghost predicate OneEach(opening: map<Key, Call>) {
    forall key, other | key in opening && other in opening && opening[key] == opening[other] :: key == other
  }

  ghost predicate Covers(opening: map<Key, Call>, slow: set<Call>) {
    forall c :: c in slow <==> exists key :: key in opening && opening[key] == c
  }

  lemma OneLess(opening: map<Key, Call>, slow: set<Call>, key: Key)
    requires OneEach(opening) && Covers(opening, slow) && key in opening
    ensures OneEach(opening - {key}) && Covers(opening - {key}, slow - {opening[key]}) && opening[key] in slow
  {
    var smaller, fewer, gone := opening - {key}, slow - {opening[key]}, opening[key];
    assert gone in slow by { assert key in opening && opening[key] == gone; }
    forall c ensures c in fewer <==> exists other :: other in smaller && smaller[other] == c {
      if c in fewer {
        var other :| other in opening && opening[other] == c;
        assert other in smaller && smaller[other] == c;
      }
      if other :| other in smaller && smaller[other] == c { assert other in opening && opening[other] == c; }
    }
  }

  lemma {:induction false} ReservationsAreCalls(opening: map<Key, Call>, slow: set<Call>)
    requires OneEach(opening) && Covers(opening, slow)
    ensures |slow| == |opening|
    decreases |opening|
  {
    if opening == map[] {
      forall c ensures c !in slow { assert forall key: Key :: key !in opening; }
      assert slow == {};
    } else {
      var key :| key in opening;
      RemovedOne(opening, key);
      OneLess(opening, slow, key);
      ReservationsAreCalls(opening - {key}, slow - {opening[key]});
    }
  }

  /** Each slow open holds one slot, and nothing else does. */
  lemma SlotsHeld(s: System)
    requires OpeningInv(s)
    ensures |SlowCalls(s)| == |s.reg.opening|
  {
    var opening, slow := s.reg.opening, SlowCalls(s);
    forall key, other | key in opening && other in opening && opening[key] == opening[other] ensures key == other {
      assert s.calls[opening[key]] == SlowOpening(key) && s.calls[opening[other]] == SlowOpening(other);
    }
    forall c ensures c in slow <==> exists key :: key in opening && opening[key] == c {
      if c in slow { assert IsSlow(s, c); assert s.calls[c].key in opening; }
      if key :| key in opening && opening[key] == c { assert s.calls[c] == SlowOpening(key); }
    }
    ReservationsAreCalls(opening, slow);
  }

  ghost predicate OpensSlowly(s: System, c: Call, key: Key) {
    c in s.calls && s.calls[c] == SlowOpening(key)
  }

  ghost predicate IsLive(s: System, key: Key, id: SubId) {
    id in s.reg.entries && s.reg.entries[id].key == key
  }

  /** A slot is free: live entries and slow opens together stay below the cap. */
  ghost predicate HasRoom(s: System, max: nat) {
    |s.reg.entries| + |SlowCalls(s)| < max
  }

  lemma KeyIsLive(s: System, key: Key)
    requires OpeningInv(s)
    ensures key in s.reg.byKey <==> exists id :: IsLive(s, key, id)
    ensures forall id | IsLive(s, key, id) :: key in s.reg.byKey && s.reg.byKey[key] == id
  {
    if key in s.reg.byKey { assert IsLive(s, key, s.reg.byKey[key]); }
  }

  lemma KeyIsOpening(s: System, key: Key)
    requires OpeningInv(s)
    ensures key in s.reg.opening <==> exists c :: OpensSlowly(s, c, key)
    ensures forall c | OpensSlowly(s, c, key) :: key in s.reg.opening && s.reg.opening[key] == c
  {
    if key in s.reg.opening { assert OpensSlowly(s, s.reg.opening[key], key); }
    forall c | OpensSlowly(s, c, key) ensures Reserved(s.reg, key, c) { assert IsSlow(s, c); }
  }

  /**
   What `add` does once it holds the open lock, in every run. It returns the handle of the key's live
   entry, if there is one; else it waits for the call that opens the key slowly, if one does; else it is
   refused exactly when no slot is free; else it opens the key itself, the way it was told to. Only the
   last changes the registry, and no entry.
   */
  lemma {:induction false} AddOutcome(max: nat, steps: seq<Step>, c: Call)
    requires IsRun(max, steps) && Enabled(After(max, steps), TakeLock(c))
    ensures var s, t := After(max, steps), Apply(After(max, steps), TakeLock(c));
      var key, pc := s.calls[c].key, t.calls[c];
      && (forall id | IsLive(s, key, id) :: pc == Returned(id))
      && (forall d | OpensSlowly(s, d, key) :: pc == AwaitsOpener(key, s.calls[c].slow, d))
      && (pc.Returned? <==> exists id :: IsLive(s, key, id))
      && (pc.AwaitsOpener? <==> exists d :: OpensSlowly(s, d, key))
      && (pc.Refused? <==>
            (forall id :: !IsLive(s, key, id)) && (forall d :: !OpensSlowly(s, d, key)) && !HasRoom(s, max))
      && (|| pc.Returned? || pc.AwaitsOpener? || pc.Refused?
          || pc == if s.calls[c].slow then SlowOpening(key) else FastOpening(key))
      && t.reg.entries == s.reg.entries && t.reg.byKey == s.reg.byKey
      && (pc.Returned? || pc.AwaitsOpener? || pc.Refused? ==> t.reg == s.reg)
  {
    EveryRunKeepsInv(max, steps);
    var s := After(max, steps);
    KeyIsLive(s, s.calls[c].key);
    KeyIsOpening(s, s.calls[c].key);
    SlotsHeld(s);
    AdmitOutcome(s, c);
  }

  lemma AdmitOutcome(s: System, c: Call)
    requires OpeningInv(s) && Enabled(s, TakeLock(c))
    ensures var t := Apply(s, TakeLock(c)); var key, slow, pc := s.calls[c].key, s.calls[c].slow, t.calls[c];
      && (key in s.reg.byKey ==> pc == Returned(s.reg.byKey[key]))
      && (key !in s.reg.byKey && key in s.reg.opening ==> pc == AwaitsOpener(key, slow, s.reg.opening[key]))
      && (key !in s.reg.byKey && key !in s.reg.opening ==>
            if |s.reg.entries| + |s.reg.opening| >= s.reg.max then pc == Refused
            else pc == if slow then SlowOpening(key) else FastOpening(key))
      && t.reg.entries == s.reg.entries && t.reg.byKey == s.reg.byKey
      && (pc.Returned? || pc.AwaitsOpener? || pc.Refused? ==> t.reg == s.reg)
  {
  }

  /** The entry a stream that opened gets: new, under the key, re-requestable if the stream is, never read. */
  ghost predicate OpensEntry(s: System, t: System, c: Call, stream: Stream, now: int) {
    && c in s.calls && (s.calls[c].FastOpening? || s.calls[c].SlowOpening?)
    && c in t.calls && t.calls[c].Returned? && t.calls[c].id !in s.reg.entries
    && t.calls[c].id.kind == s.calls[c].key.kind
    && t.reg.entries == s.reg.entries[t.calls[c].id := Entry(s.calls[c].key, stream.resubscribable, now, None)]
  }

  /** An opener that is back either registers its stream as a new entry, or fails and leaves no trace. */
  lemma {:induction false} OpenerOutcome(max: nat, steps: seq<Step>, step: Step)
    requires IsRun(max, steps) && Enabled(After(max, steps), step) && (step.FastDone? || step.SlowDone?)
    ensures var s, t := After(max, steps), Apply(After(max, steps), step);
      && (step.result.Some? ==> OpensEntry(s, t, step.call, step.result.value, step.now))
      && (step.result.None? ==>
            t.calls[step.call].OpenFailed? && t.reg.entries == s.reg.entries && t.reg.byKey == s.reg.byKey)
      && !Reserved(t.reg, s.calls[step.call].key, step.call) && t.holder != Some(step.call)
  {
    EveryRunKeepsInv(max, steps);
    OpenerDone(After(max, steps), step);
  }

  lemma OpenerDone(s: System, step: Step)
    requires OpeningInv(s) && Enabled(s, step) && (step.FastDone? || step.SlowDone?)
    ensures var t := Apply(s, step);
      && (step.result.Some? ==> OpensEntry(s, t, step.call, step.result.value, step.now))
      && (step.result.None? ==>
            t.calls[step.call].OpenFailed? && t.reg.entries == s.reg.entries && t.reg.byKey == s.reg.byKey)
      && !Reserved(t.reg, s.calls[step.call].key, step.call) && t.holder != Some(step.call)
  {
    assert SubId(s.calls[step.call].key.kind, s.reg.nextNumber) !in s.reg.entries;
    if step.FastDone? {
      assert IsFast(s, step.call);
    } else {
      assert IsSlow(s, step.call);
    }
  }

  predicate Settled(pc: Pc) {
    pc.Returned? || pc.Refused? || pc.OpenFailed? || pc.Raised? || pc.Finished?
  }

  /** A step of a call already made, as opposed to a new call. */
  predicate Continues(step: Step) {
    step.TakeLock? || step.Wake? || step.FastDone? || step.SlowDone? || step.SweepNext? ||
    step.CancelNext? || step.SweepDone? || step.VisitNext? || step.Reply? || step.PassOver?
  }

  /** The call itself, or the one opener it waits for. */
  function Mover(s: System, c: Call): Call
    requires c in s.calls
  {
    if s.calls[c].AwaitsOpener? && Reserved(s.reg, s.calls[c].key, s.calls[c].owner) then s.calls[c].owner else c
  }

  /**
   No interleaving deadlocks or loses a wake-up: while a call is not settled, it, the opener it
   waits for or the holder of the open lock can take a step.
   */
  lemma NoDeadlock(max: nat, steps: seq<Step>, c: Call) returns (step: Step)
    requires IsRun(max, steps)
    requires c in After(max, steps).calls && !Settled(After(max, steps).calls[c])
    ensures Continues(step) && Enabled(After(max, steps), step)
    ensures var s := After(max, steps);
      step.call == Mover(s, c) || (s.calls[c].AwaitsLock? && s.calls[step.call].FastOpening?)
  {
    EveryRunKeepsInv(max, steps);
    var s := After(max, steps);
    var m := Mover(s, c);
    match s.calls[m] {
      case AwaitsLock(_, _) =>
        if s.reg.locked {
          var holder := s.holder.value;
          assert IsFast(s, holder);
          step := FastDone(holder, None, 0);
        } else {
          step := TakeLock(m);
        }
      case AwaitsOpener(_, _, _) => step := Wake(m);
      case FastOpening(_) => step := FastDone(m, None, 0);
      case SlowOpening(_) => step := SlowDone(m, None, 0);
      case Sweeping(todo) =>
        if todo == {} { step := SweepDone(m); } else { var id :| id in todo; step := SweepNext(m, id); }
      case Cancelling(todo) =>
        if todo == {} { step := SweepDone(m); } else { var id :| id in todo; step := CancelNext(m, id); }
      case Passing(todo) =>
        if todo == {} { step := PassOver(m); } else { var id :| id in todo; step := VisitNext(m, id); }
      case Rerequesting(_, _) => step := Reply(m, true);
      case _ => assert false;
    }
  }

  /**
   What `add` hands out: the handle of a live entry for the key that was asked for. A handle is
   new exactly when this call's own opener ran, and then it is the only entry that appeared.
   */
  lemma {:induction false} AddReturnsTheLiveHandle(max: nat, steps: seq<Step>, step: Step, c: Call)
    requires IsRun(max, steps) && Enabled(After(max, steps), step)
    requires step.TakeLock? || step.FastDone? || step.SlowDone?
    requires c == step.call && Apply(After(max, steps), step).calls[c].Returned?
    ensures var s, t := After(max, steps), Apply(After(max, steps), step);
      var id := t.calls[c].id;
      && id in t.reg.entries && t.reg.entries[id].key == s.calls[c].key
      && (step.TakeLock? <==> id in s.reg.entries)
      && t.reg.entries - {id} == s.reg.entries - {id}
  {
    EveryRunKeepsInv(max, steps);
    ReturnedHandleIsLive(After(max, steps), step, c);
  }

  lemma RegisteredIsNew(r: Reg, key: Key, stream: Stream, now: int)
    requires HandlesNumbered(r)
    ensures var id, t := SubId(key.kind, r.nextNumber), Register(r, key, stream, now);
      id !in r.entries && id in t.entries && t.entries[id].key == key && t.entries - {id} == r.entries - {id}
  {
  }

  lemma ReturnedHandleIsLive(s: System, step: Step, c: Call)
    requires OpeningInv(s) && Enabled(s, step)
    requires step.TakeLock? || step.FastDone? || step.SlowDone?
    requires c == step.call && Apply(s, step).calls[c].Returned?
    ensures var t := Apply(s, step);
      var id := t.calls[c].id;
      && id in t.reg.entries && t.reg.entries[id].key == s.calls[c].key
      && (step.TakeLock? <==> id in s.reg.entries)
      && t.reg.entries - {id} == s.reg.entries - {id}
  {
    var key := s.calls[c].key;
    match step
    case TakeLock(_) => assert Admit(s.reg, c, key, s.calls[c].slow).0.entries == s.reg.entries;
    case FastDone(_, result, now) => RegisteredIsNew(s.reg, key, result.value, now);
    case SlowDone(_, result, now) => RegisteredIsNew(s.reg, key, result.value, now);
  }

  // ----- the registry itself -----

  class SubscriptionRegistry {
    const max: nat
    var entries: map<SubId, Entry>
    var byKey: map<Key, SubId>
    var nextNumber: nat
    var openLocked: bool
    var opening: map<Key, Call>
    var resubscribing: bool
    var rerun: bool

    ghost function View(): Reg
      reads this
    {
      Reg(max, entries, byKey, nextNumber, openLocked, opening, resubscribing, rerun)
    }

    constructor (max: nat)
      ensures View() == Initial(max).reg
    {
      this.max := max;
      entries, byKey, opening := map[], map[], map[];
      nextNumber := 1;
      openLocked, resubscribing, rerun := false, false, false;
    }

    method Find(kind: string, key: string) returns (found: Option<SubId>)
      ensures found == if Key(kind, key) in byKey then Some(byKey[Key(kind, key)]) else None
    {
      found := None;
      if Key(kind, key) in byKey {
        found := Some(byKey[Key(kind, key)]);
      }
    }

    method EnsureCapacity() returns (free: bool)
      ensures free <==> |entries| + |opening| < max
    {
      var used := |entries| + |opening|;
      free := used < max;
    }

    /** `add` under the open lock. */
    method Add(call: Call, key: Key, slow: bool) returns (next: Pc)
      requires !openLocked
      modifies this
      ensures (View(), next) == Admit(old(View()), call, key, slow)
    {
      openLocked := true;
      var existing := Find(key.kind, key.key);
      if existing.Some? {
        openLocked := false;
        return Returned(existing.value);
      }
      if key in opening {
        openLocked := false;
        return AwaitsOpener(key, slow, opening[key]);
      }
      var free := EnsureCapacity();
      if !free {
        openLocked := false;
        return Refused;
      }
      if !slow {
        return FastOpening(key);
      }
      opening := opening[key := call];
      openLocked := false;
      return SlowOpening(key);
    }

    method RegisterStream(key: Key, stream: Stream, now: int) returns (id: SubId)
      modifies this
      ensures View() == Register(old(View()), key, stream, now)
      ensures id == SubId(key.kind, old(nextNumber))
    {
      id := SubId(key.kind, nextNumber);
      nextNumber := nextNumber + 1;
      entries := entries[id := Entry(key, stream.resubscribable, now, None)];
      byKey := byKey[key := id];
    }

    /** `add` when its fast opener is back. */
    method FastOpened(key: Key, result: Option<Stream>, now: int) returns (next: Pc)
      requires openLocked
      modifies this
      ensures (View(), next) == FinishFast(old(View()), key, result, now)
    {
      next := OpenFailed;
      if result.Some? {
        var id := RegisterStream(key, result.value, now);
        next := Returned(id);
      }
      openLocked := false;
    }

    /** `add` when its slow opener is back; the reservation is dropped last, whatever happened. */
    method SlowOpened(key: Key, result: Option<Stream>, now: int) returns (next: Pc)
      requires key in opening
      modifies this
      ensures (View(), next) == FinishSlow(old(View()), key, result, now)
    {
      next := OpenFailed;
      if result.Some? {
        var id := RegisterStream(key, result.value, now);
        next := Returned(id);
      }
      opening := opening - {key};
    }

    /** `_forget`; a missing handle raises, so nothing changes. */
    method ForgetEntry(id: SubId) returns (found: bool)
      modifies this
      ensures found <==> id in old(entries)
      ensures View() == ForgetIfLive(old(View()), id)
    {
      found := id in entries;
      if found {
        var entry := entries[id];
        entries := entries - {id};
        byKey := byKey - {entry.key};
      }
    }

    method LatestRead(id: SubId, now: int) returns (found: bool)
      modifies this
      ensures found <==> id in old(entries)
      ensures View() == if found then Read(old(View()), id, now) else old(View())
    {
      found := id in entries;
      if found {
        entries := entries[id := entries[id].(lastReadAt := Some(now))];
      }
    }

    /** The scan of `reap_idle`. */
    method FindIdle(now: int, ttl: int) returns (idle: set<SubId>)
      ensures idle == Idle(View(), now, ttl)
    {
      var cutoff := now - ttl;
      idle := set id | id in entries && LastUse(entries[id]) < cutoff;
    }

    method ResubscribeAll() returns (next: Pc)
      modifies this
      ensures (View(), next) == Ask(old(View()))
    {
      if resubscribing {
        rerun := true;
        return Finished;
      }
      resubscribing := true;
      rerun := false;
      next := Passing(entries.Keys);
    }

    method VisitEntry(id: SubId, todo: set<SubId>) returns (next: Pc)
      modifies this
      ensures (View(), next) == PassVisit(old(View()), id, todo)
    {
      if id !in entries {
        return Passing(todo - {id});
      }
      if !entries[id].resubscribable {
        var _ := ForgetEntry(id);
        return Passing(todo - {id});
      }
      next := Rerequesting(id, todo - {id});
    }

    method EntryReplied(id: SubId, todo: set<SubId>, ok: bool) returns (next: Pc)
      modifies this
      ensures (View(), next) == PassReply(old(View()), id, todo, ok)
    {
      if !ok {
        var _ := ForgetEntry(id);
      }
      next := Passing(todo);
    }

    method PassFinished() returns (next: Pc)
      modifies this
      ensures (View(), next) == PassEnd(old(View()))
    {
      if rerun {
        rerun := false;
        return Passing(entries.Keys);
      }
      resubscribing := false;
      next := Finished;
    }
  }
}
