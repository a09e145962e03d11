/** The order circuit breaker across process restarts. Times are epoch milliseconds. */
module Breaker {
  import opened Wrappers

  const MAX_REASON_CHARS := 300

  /** The state file: not there, a saved trip, or something that cannot be read. */
  datatype File = Absent | Saved(openedAt: int, rejections: nat, reason: Option<string>) | Garbage

  /** `path` names the state file; without one the state is kept in memory only. */
  datatype Config = Config(threshold: Option<int>, path: Option<string>) {
    predicate Valid() {
      threshold.Some? ==> threshold.value >= 1
    }
  }

  datatype State = State(consecutive: nat, openedAt: Option<int>, lastReason: Option<string>, file: File)

  predicate IsOpen(s: State) {
    s.openedAt.Some?
  }

  /** What became of the write when the breaker opened: done, not begun, or broken off. */
  datatype Write = Written | NotBegun | BrokenOff

  datatype Event =
    | Accepted
    | Rejection(reason: Option<string>, now: int, write: Write)
    | Reset(removed: bool)
    | Restart(now: int)

  // ----- what each event does -----

  function Shortened(reason: string): string {
    if |reason| <= MAX_REASON_CHARS then reason else reason[..MAX_REASON_CHARS]
  }

  function Kept(reason: Option<string>): Option<string> {
    if reason.None? || reason.value == "" then None else Some(Shortened(reason.value))
  }

  function Noted(last: Option<string>, reason: Option<string>): Option<string> {
    if Kept(reason).Some? then Kept(reason) else last
  }

  function Save(config: Config, s: State, write: Write): File
    requires IsOpen(s)
  {
    if config.path.None? || write.NotBegun? then s.file
    else if write.BrokenOff? then Garbage
    else Saved(s.openedAt.value, s.consecutive, s.lastReason)
  }

  /** The state of a new process: a file that cannot be read counts as an open breaker. */
  function Load(config: Config, file: File, now: int): State {
    if config.path.None? then State(0, None, None, file)
    else
      match file
      case Absent => State(0, None, None, file)
      case Saved(at, rejections, reason) => State(rejections, Some(at), Kept(reason), file)
      case Garbage => State(0, Some(now), Kept(Some("unreadable state file " + config.path.value)), file)
  }

  predicate Trips(config: Config, s: State) {
    !IsOpen(s) && config.threshold.Some? && s.consecutive + 1 >= config.threshold.value
  }

  function OnRejection(config: Config, s: State, reason: Option<string>, now: int, write: Write): State {
    var counted := s.(consecutive := s.consecutive + 1, lastReason := Noted(s.lastReason, reason));
    if Trips(config, s) then
      var tripped := counted.(openedAt := Some(now));
      tripped.(file := Save(config, tripped, write))
    else counted
  }

  function Apply(config: Config, s: State, e: Event): State {
    match e
    case Accepted => if IsOpen(s) then s else s.(consecutive := 0)
    case Rejection(reason, now, write) => OnRejection(config, s, reason, now, write)
    case Reset(removed) => State(0, None, None, if config.path.Some? && removed then Absent else s.file)
    case Restart(now) => Load(config, s.file, now)
  }

  /** The state after a run that began with this state file. */
  function After(config: Config, file: File, start: int, events: seq<Event>): State {
    if events == [] then Load(config, file, start)
    else Apply(config, After(config, file, start, events[..|events| - 1]), events[|events| - 1])
  }

  // ----- when it is open -----

  /** The rejections at the end of the list since the last success, reset or restart. */
  function Streak(events: seq<Event>): nat {
    if events == [] then 0
    else if events[|events| - 1].Rejection? then Streak(events[..|events| - 1]) + 1
    else 0
  }

  /** Positions `a..b` are rejections only. */
  ghost predicate RejectionsOnly(events: seq<Event>, a: nat, b: nat)
    requires b <= |events|
  {
    forall k | a <= k < b :: events[k].Rejection?
  }

  lemma {:induction false} StreakIsTheLastRun(events: seq<Event>, n: nat)
    ensures Streak(events) >= n <==> n <= |events| && RejectionsOnly(events, |events| - n, |events|)
  {
    if events != [] && n > 0 {
      var rest := events[..|events| - 1];
      StreakIsTheLastRun(rest, n - 1);
      if events[|events| - 1].Rejection? && n - 1 <= |rest| {
        assert RejectionsOnly(events, |events| - n, |events|) <==> RejectionsOnly(rest, |rest| - (n - 1), |rest|) by {
          assert forall k | 0 <= k < |rest| :: rest[k] == events[k];
        }
      }
    }
  }

  /** No reset (and without a state file, no restart) from position `j` on. */
  ghost predicate Lasts(config: Config, events: seq<Event>, j: nat) {
    forall k | j <= k < |events| :: !events[k].Reset? && (config.path.None? ==> !events[k].Restart?)
  }

  /** Up to position `j` there were as many rejections in a row as the threshold asks for. */
  ghost predicate TrippedAt(config: Config, events: seq<Event>, j: nat) {
    config.threshold.Some? && j <= |events| && Streak(events[..j]) >= config.threshold.value
  }

  /** No write or removal of the state file failed. */
  ghost predicate FilesWork(events: seq<Event>) {
    forall e | e in events :: (e.Rejection? ==> e.write.Written?) && (e.Reset? ==> e.removed)
  }

  /** A trip that lasts, or a state file that was there from the start. */
  ghost predicate ShouldBeOpen(config: Config, file: File, events: seq<Event>) {
    || (exists j: nat :: TrippedAt(config, events, j) && Lasts(config, events, j))
    || (config.path.Some? && !file.Absent? && Lasts(config, events, 0))
  }

  /** While closed the count is the streak; with a file, it is there exactly while the breaker is open. */
  ghost predicate Inv(config: Config, events: seq<Event>, s: State) {
    && (!IsOpen(s) ==> s.consecutive == Streak(events))
    && (!IsOpen(s) && config.threshold.Some? ==> s.consecutive < config.threshold.value)
    && (config.path.Some? ==> (IsOpen(s) <==> !s.file.Absent?))
  }

  lemma {:induction false} EveryRunKeepsInv(config: Config, file: File, start: int, events: seq<Event>)
    requires config.Valid() && FilesWork(events)
    ensures Inv(config, events, After(config, file, start, events))
  {
    if events != [] {
      var rest := events[..|events| - 1];
      EveryRunKeepsInv(config, file, start, rest);
      assert events[|events| - 1] in events;
    }
  }

  /** How one event decides whether the breaker should be open. */
  lemma {:induction false} ShouldBeOpenStep(config: Config, file: File, events: seq<Event>, e: Event)
    requires config.Valid()
    ensures ShouldBeOpen(config, file, events + [e]) <==>
      (config.threshold.Some? && Streak(events + [e]) >= config.threshold.value)
      || (ShouldBeOpen(config, file, events) && !e.Reset? && (config.path.None? ==> !e.Restart?))
  {
    var more := events + [e];
    assert more[..|more|] == more;
    assert Lasts(config, more, |more|);
    forall j: nat | j <= |events|
      ensures TrippedAt(config, more, j) <==> TrippedAt(config, events, j)
      ensures Lasts(config, more, j) <==> Lasts(config, events, j) && !e.Reset? && (config.path.None? ==> !e.Restart?)
    {
      assert more[..j] == events[..j];
      LastsStep(config, events, e, j);
    }
    if config.threshold.Some? && Streak(more) >= config.threshold.value {
      assert TrippedAt(config, more, |more|);
    }
  }

  lemma LastsStep(config: Config, events: seq<Event>, e: Event, j: nat)
    requires j <= |events|
    ensures Lasts(config, events + [e], j)
      <==> Lasts(config, events, j) && !e.Reset? && (config.path.None? ==> !e.Restart?)
  {
    var more := events + [e];
    assert more[|events|] == e;
    assert forall k | 0 <= k < |events| :: more[k] == events[k];
  }

  /**
   With a working state file (or none), the breaker is open exactly when, since the last reset (and
   without a file, since the last restart), some process saw `threshold` rejections in a row, or the
   file was there at the start and nothing was reset.
   */
  lemma {:induction false} OpenExactlyWhen(config: Config, file: File, start: int, events: seq<Event>)
    requires config.Valid() && FilesWork(events)
    ensures IsOpen(After(config, file, start, events)) <==> ShouldBeOpen(config, file, events)
  {
    if events == [] {
      assert events[..0] == [];
    } else {
      var rest, e := events[..|events| - 1], events[|events| - 1];
      assert e in events && events == rest + [e];
      OpenExactlyWhen(config, file, start, rest);
      EveryRunKeepsInv(config, file, start, rest);
      ShouldBeOpenStep(config, file, rest, e);
      OpenStep(config, After(config, file, start, rest), e, rest);
    }
  }

  lemma {:induction false} OpenStep(config: Config, s: State, e: Event, events: seq<Event>)
    requires config.Valid() && Inv(config, events, s) && FilesWork([e])
    ensures IsOpen(Apply(config, s, e)) <==>
      (config.threshold.Some? && Streak(events + [e]) >= config.threshold.value && !IsOpen(s))
      || (IsOpen(s) && !e.Reset? && (config.path.None? ==> !e.Restart?))
  {
    assert e in [e];
    assert (events + [e])[..|events|] == events;
  }

  // ----- what holds whatever the file does -----

  /** Only a reset closes an open breaker, or a restart that finds no file. */
  lemma OnlyResetCloses(config: Config, s: State, e: Event)
    requires IsOpen(s) && !IsOpen(Apply(config, s, e))
    ensures e.Reset? || (e.Restart? && (config.path.None? || s.file.Absent?))
  {
  }

  function FirstChars(text: string): string {
    if |text| <= 300 then text else text[..300]
  }

  /** A file that cannot be read comes back open, whatever happened before, and says so. */
  lemma UnreadableComesBackOpen(config: Config, s: State, now: int)
    requires config.path.Some? && s.file.Garbage?
    ensures Apply(config, s, Restart(now))
         == State(0, Some(now), Some(FirstChars("unreadable state file " + config.path.value)), Garbage)
  {
  }

  /** A broken-off write fails closed: the trip survives a restart. */
  lemma BrokenWriteStaysOpen(config: Config, s: State, reason: Option<string>, now: int, later: int, write: Write)
    requires config.path.Some? && Trips(config, s) && !write.NotBegun?
    ensures IsOpen(Apply(config, Apply(config, s, Rejection(reason, now, write)), Restart(later)))
  {
  }

  /** The file changes only when a trip is written, well or not, or a reset removes it. */
  lemma FileChangesExactlyWhen(config: Config, s: State, e: Event)
    ensures Apply(config, s, e).file ==
      if config.path.Some? && e.Rejection? && Trips(config, s) && e.write.Written?
      then Saved(e.now, s.consecutive + 1, Apply(config, s, e).lastReason)
      else if config.path.Some? && e.Rejection? && Trips(config, s) && e.write.BrokenOff? then Garbage
      else if config.path.Some? && e.Reset? && e.removed then Absent
      else s.file
  {
  }

  /** Reasons are kept non-empty and at most 300 characters long. */
  lemma {:induction false} ReasonsAreShort(config: Config, file: File, start: int, events: seq<Event>)
    ensures var s := After(config, file, start, events);
      s.lastReason.Some? ==> 0 < |s.lastReason.value| <= 300
  {
    if events != [] { ReasonsAreShort(config, file, start, events[..|events| - 1]); }
  }

  /** The event gives a reason that is not empty. */
  predicate Says(e: Event) {
    e.Rejection? && e.reason.Some? && e.reason.value != ""
  }

  /** The reason kept is the latest one given since the last reset or restart. */
  lemma {:induction false} LatestReasonIsKept(config: Config, file: File, start: int, events: seq<Event>, k: nat)
    requires k < |events| && Says(events[k])
    requires forall j | k < j < |events| :: !Says(events[j]) && !events[j].Reset? && !events[j].Restart?
    ensures After(config, file, start, events).lastReason == Some(FirstChars(events[k].reason.value))
  {
    if k < |events| - 1 { LatestReasonIsKept(config, file, start, events[..|events| - 1], k); }
  }

  /** A reset forgets them. */
  lemma {:induction false} ResetForgetsReasons(config: Config, file: File, start: int, events: seq<Event>, k: nat)
    requires k < |events| && events[k].Reset?
    requires forall j | k < j < |events| :: !Says(events[j]) && !events[j].Restart?
    ensures After(config, file, start, events).lastReason.None?
  {
    if k < |events| - 1 { ResetForgetsReasons(config, file, start, events[..|events| - 1], k); }
  }

  /** The rejections from position `k` on. */
  function RejectionsFrom(events: seq<Event>, k: nat): nat
    decreases |events|
  {
    if |events| <= k then 0
    else RejectionsFrom(events[..|events| - 1], k) + if events[|events| - 1].Rejection? then 1 else 0
  }

  /** The rejection at position `k` trips the breaker. */
  ghost predicate TripsAt(config: Config, file: File, start: int, events: seq<Event>, k: nat) {
    k < |events| && events[k].Rejection? && Trips(config, After(config, file, start, events[..k]))
  }

  /** While a trip stands, successes do not count and every rejection does. */
  lemma {:induction false} CountOfATrip(config: Config, file: File, start: int, events: seq<Event>, k: nat)
    requires TripsAt(config, file, start, events, k)
    requires forall j | k < j < |events| :: !events[j].Reset? && !events[j].Restart?
    ensures var s := After(config, file, start, events);
      && s.openedAt == Some(events[k].now)
      && s.consecutive == After(config, file, start, events[..k]).consecutive + RejectionsFrom(events, k)
  {
    var rest := events[..|events| - 1];
    if k < |events| - 1 {
      assert rest[..k] == events[..k];
      CountOfATrip(config, file, start, rest, k);
    } else {
      assert rest == events[..k] && RejectionsFrom(rest, k) == 0;
    }
  }

  /** A written trip stays in the file, and the breaker open since then, until a reset. */
  lemma {:induction false} WrittenTripLasts(config: Config, file: File, start: int, events: seq<Event>, k: nat)
    requires config.path.Some? && TripsAt(config, file, start, events, k) && events[k].write.Written?
    requires forall j | k < j < |events| :: !events[j].Reset?
    ensures var s, tripped := After(config, file, start, events), After(config, file, start, events[..k + 1]);
      && tripped.openedAt == s.openedAt == Some(events[k].now)
      && tripped.file == s.file == Saved(events[k].now, tripped.consecutive, tripped.lastReason)
  {
    var rest := events[..|events| - 1];
    if k < |events| - 1 {
      assert rest[..k] == events[..k] && rest[..k + 1] == events[..k + 1];
      WrittenTripLasts(config, file, start, rest, k);
    } else {
      assert events[..k + 1] == events;
    }
  }

  /** A restart reads a written trip back as it was, whatever came since but a reset: time, count and reason. */
  lemma {:induction false} RestartRestoresTheTrip(config: Config, file: File, start: int, events: seq<Event>, k: nat,
                                                  now: int)
    requires config.path.Some? && TripsAt(config, file, start, events, k) && events[k].write.Written?
    requires forall j | k < j < |events| :: !events[j].Reset?
    ensures After(config, file, start, events + [Restart(now)]) == After(config, file, start, events[..k + 1])
    ensures After(config, file, start, events[..k + 1]).openedAt == Some(events[k].now)
  {
    WrittenTripLasts(config, file, start, events, k);
    ReasonsAreShort(config, file, start, events[..k + 1]);
    assert (events + [Restart(now)])[..|events|] == events;
  }

  // ----- the breaker -----

  class CircuitBreaker {
    const config: Config
    var consecutive: nat
    var openedAt: Option<int>
    var lastReason: Option<string>
    /** The state file on disk. */
    var file: File

    ghost function View(): State
      reads this
    {
      State(consecutive, openedAt, lastReason, file)
    }

    /** A new process loads the state file. */
    constructor (config: Config, onDisk: File, now: int)
      requires config.Valid()
      ensures this.config == config && View() == Load(config, onDisk, now)
    {
      this.config := config;
      consecutive, openedAt, lastReason, file := 0, None, None, onDisk;
      if config.path.Some? {
        match onDisk {
          case Absent =>
          case Saved(at, rejections, reason) =>
            consecutive, openedAt, lastReason := rejections, Some(at), Kept(reason);
          case Garbage =>
            openedAt, lastReason := Some(now), Kept(Some("unreadable state file " + config.path.value));
        }
      }
    }

    method RecordSuccess()
      modifies this`consecutive
      ensures View() == Apply(config, old(View()), Accepted)
    {
      if openedAt.None? {
        consecutive := 0;
      }
    }

    method RecordRejection(reason: Option<string>, now: int, write: Write) returns (opens: bool)
      modifies this
      ensures View() == Apply(config, old(View()), Rejection(reason, now, write))
      ensures opens == (openedAt != old(openedAt))
    {
      consecutive := consecutive + 1;
      if reason.Some? && reason.value != "" {
        lastReason := Some(Shortened(reason.value));
      }
      if openedAt.Some? || config.threshold.None? || consecutive < config.threshold.value {
        return false;
      }
      openedAt := Some(now);
      SaveState(write);
      return true;
    }

    method SaveState(write: Write)
      requires openedAt.Some?
      modifies this`file
      ensures file == Save(config, old(View()), write)
    {
      if config.path.None? {
        return;
      }
      match write {
        case Written => file := Saved(openedAt.value, consecutive, lastReason);
        case BrokenOff => file := Garbage;
        case NotBegun =>
      }
    }

    method ResetBreaker(removed: bool)
      modifies this
      ensures View() == Apply(config, old(View()), Reset(removed))
    {
      consecutive, openedAt, lastReason := 0, None, None;
      if config.path.Some? && removed {
        file := Absent;
      }
    }
  }
}
