/**
 The login state machine of the log reader: what each event does, what the counters count, which
 events a phase follows from, and how the state ages. Times are in microseconds.
 */
module LogFold {
  import opened Wrappers
  import opened LogEvents
  import LogOffsets

  datatype Phase =
    | NoPhase | Restarting | LoggingIn | AwaitingTwofa | LoginRejected | TwofaOver | Throttled | LoggedInPhase

  datatype Why = NoAnswer | NotCompleted

  datatype Reason = SavedSessionRefused | Credentials | Unrecognized

  /** What is counted, and since which success. */
  datatype Counters = Counters(attempts: nat, challenges: nat, since: Option<int>, complete: bool, afterSuccess: bool,
                               lastSuccessAt: Option<int>)

  /** The phase, when it began, and (logging_in only) why the gateway retries. */
  datatype Mode = Mode(phase: Phase, since: Option<int>, why: Option<Why>)

  /** What was last seen about the login. */
  datatype Facts = Facts(warm: bool, tokenRefused: bool, ibKey: bool, pwAsked: Option<bool>, challengePending: bool,
                         hadChallenge: bool, tokenProtocol: Option<int>, completedAt: Option<int>,
                         retryAt: Option<int>, rejectReason: Option<Reason>)

  datatype State = State(counters: Counters, mode: Mode, facts: Facts, lastLifecycleAt: Option<int>,
                         idleNoiseAt: Option<int>)

  /** An event as the fold sees it: at a UTC time. */
  datatype Fed = Fed(at: int, kind: Kind)

  function Blank(countedSince: Option<int>): State {
    State(Counters(0, 0, countedSince, false, false, None), Mode(NoPhase, None, None),
          Facts(false, false, false, None, false, false, None, None, None, None), None, None)
  }

  // ----- what an event does to each part of the state -----

  function Count(c: Counters, e: Fed): Counters {
    var n := if (e.kind.Restart? || e.kind.LoginStart? || e.kind.AuthStart?) && c.afterSuccess
             then Counters(0, 0, c.lastSuccessAt, true, false, c.lastSuccessAt) else c;
    match e.kind
    case AuthStart(_, _, _) => n.(attempts := n.attempts + 1)
    case Challenge => n.(challenges := n.challenges + 1)
    case LoggedIn => n.(afterSuccess := true, lastSuccessAt := Some(e.at))
    case _ => n
  }

  /** The phase an event goes to, if any. */
  function Target(from: Phase, kind: Kind): Option<Phase> {
    match kind
    case Restart => Some(Restarting)
    case LoginStart => if from.AwaitingTwofa? then None else Some(LoggingIn)
    case AuthStart(_, _, _) => Some(LoggingIn)
    case Challenge => Some(AwaitingTwofa)
    case AuthTimeout => Some(LoggingIn)
    case AutoRetry(_) => Some(LoggingIn)
    case Completed(_, authenticated) =>
      if authenticated || from.LoginRejected? || from.TwofaOver? then None else Some(LoggingIn)
    case RejectedCredentials => Some(LoginRejected)
    case RejectedOther => Some(LoginRejected)
    case TwofaEnded => Some(TwofaOver)
    case Throttle(_) => Some(Throttled)
    case LoggedIn => Some(LoggedInPhase)
    case _ => None
  }

  function WhyOf(kind: Kind): Option<Why> {
    match kind
    case AuthTimeout => Some(NoAnswer)
    case AutoRetry(network) => Some(if network then NoAnswer else NotCompleted)
    case Completed(_, _) => Some(NotCompleted)
    case _ => None
  }

  /** The events after which a phase begins anew even if it lasted already. */
  predicate Renews(kind: Kind) {
    kind.Restart? || kind.Challenge? || kind.LoggedIn?
  }

  function Move(m: Mode, e: Fed): Mode {
    var target := Target(m.phase, e.kind);
    if target.None? then m
    else
      var same := target.value == m.phase;
      Mode(target.value, if same && !Renews(e.kind) then m.since else Some(e.at),
           if same && WhyOf(e.kind).None? then m.why else WhyOf(e.kind))
  }

  /** Why a rejection happened, as far as the fold can tell. */
  function ReasonOf(f: Facts, kind: Kind): Reason {
    if kind.RejectedOther? then Unrecognized else if f.tokenRefused then SavedSessionRefused else Credentials
  }

  function Note(f: Facts, phase: Phase, e: Fed): Facts {
    var k := e.kind;
    Facts(
      if k.Warm? then true else if k.Restart? then false else f.warm,
      if k.AuthStart? then k.passwordAsked && k.savedToken else if k.Restart? then false else f.tokenRefused,
      if k.AuthStart? then k.ibKey else if k.Restart? then false else f.ibKey,
      if k.AuthStart? then Some(k.passwordAsked) else if k.Restart? then None else f.pwAsked,
      if k.Challenge? then true
      else if k.Restart? || k.AuthStart? || k.TwofaEnded? || k.LoggedIn? then false else f.challengePending,
      if k.TwofaEnded? then f.challengePending else f.hadChallenge,
      if k.Completed? && k.authenticated then Some(k.protocol)
      else if k.Restart? || k.AuthStart? then None else f.tokenProtocol,
      if k.Completed? && k.authenticated then Some(e.at) else f.completedAt,
      if k.Throttle? then Some(e.at + k.pause) else if k.Restart? || k.LoggedIn? then None else f.retryAt,
      if k.Restart? then None
      else if (k.RejectedCredentials? || k.RejectedOther?) && !phase.LoginRejected? then Some(ReasonOf(f, k))
      else f.rejectReason)
  }

  function Feed(s: State, e: Fed): State {
    if e.kind.IdleNoise? then s.(idleNoiseAt := Some(e.at))
    else State(Count(s.counters, e), Move(s.mode, e), Note(s.facts, s.mode.phase, e), Some(e.at), s.idleNoiseAt)
  }

  /** The state after a list of events; `oldest` is the time of the log's first line. */
  function Folded(oldest: Option<int>, fed: seq<Fed>): State {
    if fed == [] then Blank(oldest) else Feed(Folded(oldest, fed[..|fed| - 1]), fed[|fed| - 1])
  }

  // ----- what the counters count -----

  /** The events that begin a new login after a success. */
  predicate Trigger(kind: Kind) {
    kind.Restart? || kind.LoginStart? || kind.AuthStart?
  }

  function Attempts(fed: seq<Fed>): nat {
    if fed == [] then 0 else Attempts(fed[..|fed| - 1]) + if fed[|fed| - 1].kind.AuthStart? then 1 else 0
  }

  function Challenges(fed: seq<Fed>): nat {
    if fed == [] then 0 else Challenges(fed[..|fed| - 1]) + if fed[|fed| - 1].kind.Challenge? then 1 else 0
  }

  /** Position `s` is a success, `j` the first trigger after it, and no later success has one. */
  ghost predicate CountsFrom(fed: seq<Fed>, s: int, j: int) {
    && 0 <= s < j < |fed| && fed[s].kind.LoggedIn? && Trigger(fed[j].kind)
    && (forall k | s < k < j :: !Trigger(fed[k].kind))
    && (forall t, k | s < t < k < |fed| && fed[t].kind.LoggedIn? :: !Trigger(fed[k].kind))
  }

  /** No trigger follows a success. */
  ghost predicate CountsAll(fed: seq<Fed>) {
    forall t, k | 0 <= t < k < |fed| && fed[t].kind.LoggedIn? :: !Trigger(fed[k].kind)
  }

  /** Position `p` is the latest success and no trigger follows it. */
  ghost predicate Waits(fed: seq<Fed>, p: int) {
    && 0 <= p < |fed| && fed[p].kind.LoggedIn?
    && (forall k | p < k < |fed| :: !Trigger(fed[k].kind) && !fed[k].kind.LoggedIn?)
  }

  /** The position of the latest success, if no trigger follows it. */
  function Waiting(fed: seq<Fed>): (p: Option<nat>)
    ensures p.Some? ==> Waits(fed, p.value)
    ensures p.None? ==>
              forall t | 0 <= t < |fed| && fed[t].kind.LoggedIn? :: exists k :: t < k < |fed| && Trigger(fed[k].kind)
  {
    if fed == [] then None
    else
      var last, rest := |fed| - 1, fed[..|fed| - 1];
      if fed[last].kind.LoggedIn? then Some(last)
      else if Trigger(fed[last].kind) then None
      else
        var p := Waiting(rest);
        assert p.None? ==> forall t | 0 <= t < last && fed[t].kind.LoggedIn? ::
          exists k :: t < k < last && Trigger(rest[k].kind) && rest[k] == fed[k];
        p
  }

  /** The success and the trigger from which the counters count. */
  function Counting(fed: seq<Fed>): (c: Option<(nat, nat)>)
    ensures c.Some? ==> c.value.0 < c.value.1 < |fed|
  {
    if fed == [] then None
    else
      var last, rest := |fed| - 1, fed[..|fed| - 1];
      if Trigger(fed[last].kind) && Waiting(rest).Some? then Some((Waiting(rest).value, last)) else Counting(rest)
  }

  function From(fed: seq<Fed>): (j: nat)
    ensures j <= |fed|
  {
    if fed == [] then 0
    else
      var last, rest := |fed| - 1, fed[..|fed| - 1];
      if Trigger(fed[last].kind) && Waiting(rest).Some? then last else From(rest)
  }

  lemma {:induction false} CountingIsDeclared(fed: seq<Fed>)
    ensures Counting(fed).Some? ==> CountsFrom(fed, Counting(fed).value.0, Counting(fed).value.1)
    ensures Counting(fed).Some? ==> From(fed) == Counting(fed).value.1
    ensures Counting(fed).None? ==> CountsAll(fed) && From(fed) == 0
  {
    if fed != [] {
      var last, rest := |fed| - 1, fed[..|fed| - 1];
      CountingIsDeclared(rest);
      if Trigger(fed[last].kind) && Waiting(rest).Some? {
        assert Waits(rest, Waiting(rest).value);
      } else if Trigger(fed[last].kind) {
        forall t, k | 0 <= t < k < |fed| && fed[t].kind.LoggedIn? && Trigger(fed[k].kind)
          ensures Counting(rest).Some? && t <= Counting(rest).value.0
        {
          EarlierTrigger(rest, t);
        }
      }
    }
  }

  lemma {:induction false} EarlierTrigger(rest: seq<Fed>, t: nat)
    requires Waiting(rest).None? && t < |rest| && rest[t].kind.LoggedIn?
    ensures exists k :: t < k < |rest| && Trigger(rest[k].kind)
  {
  }

  /** The success and trigger from which the counters count are unique. */
  lemma CountsFromOnce(fed: seq<Fed>, s: int, j: int, s': int, j': int)
    requires CountsFrom(fed, s, j) && CountsFrom(fed, s', j')
    ensures s == s' && j == j'
  {
  }

  lemma AttemptsSuffix(fed: seq<Fed>, j: nat)
    requires j < |fed|
    ensures Attempts(fed[j..]) == Attempts(fed[..|fed| - 1][j..]) + if fed[|fed| - 1].kind.AuthStart? then 1 else 0
    ensures Challenges(fed[j..]) == Challenges(fed[..|fed| - 1][j..]) + if fed[|fed| - 1].kind.Challenge? then 1 else 0
  {
    assert fed[j..][..|fed| - j - 1] == fed[..|fed| - 1][j..];
  }

  lemma CountersStep(s: State, e: Fed)
    ensures Feed(s, e).counters == Count(s.counters, e)
  {
  }

  lemma {:induction false} SuccessFollows(oldest: Option<int>, fed: seq<Fed>)
    ensures Folded(oldest, fed).counters.afterSuccess == Waiting(fed).Some?
    ensures Waiting(fed).Some? ==> Folded(oldest, fed).counters.lastSuccessAt == Some(fed[Waiting(fed).value].at)
  {
    if fed != [] {
      var rest := fed[..|fed| - 1];
      SuccessFollows(oldest, rest);
      CountersStep(Folded(oldest, rest), fed[|fed| - 1]);
    }
  }

  lemma {:induction false} CountersFollow(oldest: Option<int>, fed: seq<Fed>)
    ensures var c := Folded(oldest, fed).counters;
      && c.attempts == Attempts(fed[From(fed)..]) && c.challenges == Challenges(fed[From(fed)..])
      && c.complete == Counting(fed).Some?
      && c.since == (if Counting(fed).Some? then Some(fed[Counting(fed).value.0].at) else oldest)
  {
    if fed != [] {
      var last, rest := |fed| - 1, fed[..|fed| - 1];
      CountersFollow(oldest, rest);
      SuccessFollows(oldest, rest);
      CountersStep(Folded(oldest, rest), fed[last]);
      AttemptsSuffix(fed, From(fed));
      if Trigger(fed[last].kind) && Waiting(rest).Some? {
        assert rest[last..] == [];
      }
    }
  }

  /** After a success that a new login follows, the counters count from that login on. */
  lemma {:induction false} CountersCountFromTheNewLogin(oldest: Option<int>, fed: seq<Fed>, s: int, j: int)
    requires CountsFrom(fed, s, j)
    ensures Folded(oldest, fed).counters.(afterSuccess := false, lastSuccessAt := None)
         == Counters(Attempts(fed[j..]), Challenges(fed[j..]), Some(fed[s].at), true, false, None)
  {
    CountersFollow(oldest, fed);
    CountingIsDeclared(fed);
    if Counting(fed).Some? { CountsFromOnce(fed, s, j, Counting(fed).value.0, Counting(fed).value.1); }
  }

  /** Without one they count the whole list, and are complete in no other case. */
  lemma {:induction false} CountersCountEverythingOtherwise(oldest: Option<int>, fed: seq<Fed>)
    ensures Folded(oldest, fed).counters.complete <==> exists s, j :: CountsFrom(fed, s, j)
    ensures Folded(oldest, fed).counters.complete <==> !CountsAll(fed)
    ensures CountsAll(fed) ==>
      Folded(oldest, fed).counters.(afterSuccess := false, lastSuccessAt := None)
        == Counters(Attempts(fed), Challenges(fed), oldest, false, false, None)
  {
    CountersFollow(oldest, fed);
    CountingIsDeclared(fed);
    assert fed[0..] == fed;
  }

  // ----- which events a phase follows from -----

  /** The events that enter phase `p` from anywhere. */
  predicate Enters(p: Phase, kind: Kind) {
    match p
    case Restarting => kind.Restart?
    case AwaitingTwofa => kind.Challenge?
    case LoginRejected => kind.RejectedCredentials? || kind.RejectedOther?
    case TwofaOver => kind.TwofaEnded?
    case Throttled => kind.Throttle?
    case LoggedInPhase => kind.LoggedIn?
    case _ => false
  }

  /** The events that leave phase `p` as it is. */
  predicate Keeps(p: Phase, kind: Kind) {
    || kind.Warm? || kind.IdleNoise? || kind.Anchor?
    || (kind.Completed? && (kind.authenticated || p.LoginRejected? || p.TwofaOver?))
    || (kind.LoginStart? && p.AwaitingTwofa?)
    || Enters(p, kind)
  }

  /** Position `c` is the last event that enters `p`, and the later ones keep it. */
  ghost predicate LastEntry(fed: seq<Fed>, p: Phase, c: int) {
    0 <= c < |fed| && Enters(p, fed[c].kind)
    && forall k | c < k < |fed| :: Keeps(p, fed[k].kind) && !Enters(p, fed[k].kind)
  }

  lemma PhaseStep(s: State, e: Fed, p: Phase)
    requires !p.NoPhase? && !p.LoggingIn?
    ensures Feed(s, e).mode.phase == p <==> Enters(p, e.kind) || (s.mode.phase == p && Keeps(p, e.kind))
  {
  }

  lemma LastEntryStep(fed: seq<Fed>, p: Phase, c: int)
    requires fed != []
    ensures var last, rest := |fed| - 1, fed[..|fed| - 1];
      LastEntry(fed, p, c) <==> if c == last then Enters(p, fed[last].kind)
        else LastEntry(rest, p, c) && Keeps(p, fed[last].kind) && !Enters(p, fed[last].kind)
  {
    var last, rest := |fed| - 1, fed[..|fed| - 1];
    assert forall k | 0 <= k < last :: rest[k] == fed[k];
  }

  /**
   Every phase but logging_in is entered by its own events and lasts while only events that keep it
   follow. The phase is awaiting_2fa, for one, exactly when a challenge is followed by nothing but
   login starts, successful authentications, warm marks and idle noise.
   */
  lemma {:induction false} PhaseExactlyWhen(oldest: Option<int>, fed: seq<Fed>, p: Phase)
    requires !p.NoPhase? && !p.LoggingIn?
    ensures Folded(oldest, fed).mode.phase == p <==> exists c :: LastEntry(fed, p, c)
  {
    if fed != [] {
      var last, rest := |fed| - 1, fed[..|fed| - 1];
      PhaseExactlyWhen(oldest, rest, p);
      PhaseStep(Folded(oldest, rest), fed[last], p);
      forall c
        ensures LastEntry(fed, p, c) <==> if c == last then Enters(p, fed[last].kind)
          else LastEntry(rest, p, c) && Keeps(p, fed[last].kind) && !Enters(p, fed[last].kind)
      {
        LastEntryStep(fed, p, c);
      }
      if Enters(p, fed[last].kind) { assert LastEntry(fed, p, last); }
    }
  }

  /** The phase is none exactly while no event but marks, noise and successful authentications came. */
  lemma {:induction false} NoPhaseExactlyWhen(oldest: Option<int>, fed: seq<Fed>)
    ensures Folded(oldest, fed).mode.phase.NoPhase? <==> forall k | 0 <= k < |fed| :: Keeps(NoPhase, fed[k].kind)
  {
    if fed != [] {
      var last, rest := |fed| - 1, fed[..|fed| - 1];
      NoPhaseExactlyWhen(oldest, rest);
      assert forall k | 0 <= k < last :: rest[k] == fed[k];
      NoPhaseStep(Folded(oldest, rest), fed[last]);
    }
  }

  lemma NoPhaseStep(s: State, e: Fed)
    ensures Feed(s, e).mode.phase.NoPhase? <==> s.mode.phase.NoPhase? && Keeps(NoPhase, e.kind)
  {
  }

  /** A phase has a start, a last event and, when logged in, a success; only logging_in has a reason to retry. */
  ghost predicate Timed(s: State) {
    && (s.mode.phase.NoPhase? <==> s.mode.since.None?)
    && (!s.mode.phase.NoPhase? ==> s.lastLifecycleAt.Some?)
    && (s.mode.why.Some? ==> s.mode.phase.LoggingIn?)
    && (s.mode.phase.LoggedInPhase? ==> s.mode.since.Some? && s.mode.since == s.counters.lastSuccessAt)
  }

  /** What a phase promises about the facts. */
  ghost predicate Founded(phase: Phase, f: Facts) {
    && (phase.AwaitingTwofa? ==> f.challengePending)
    && (phase.Throttled? ==> f.retryAt.Some?)
    && (phase.LoginRejected? ==> f.rejectReason.Some?)
  }

  ghost predicate Backed(s: State) {
    Timed(s) && Founded(s.mode.phase, s.facts)
  }

  lemma FeedKeepsTimed(s: State, e: Fed)
    requires Timed(s)
    ensures Timed(Feed(s, e))
  {
  }

  lemma FeedKeepsFounded(s: State, e: Fed)
    requires Founded(s.mode.phase, s.facts)
    ensures Founded(Feed(s, e).mode.phase, Feed(s, e).facts)
  {
    AwaitingIsPending(s, e);
    ThrottledHasRetry(s, e);
    RejectedHasReason(s, e);
  }

  lemma AwaitingIsPending(s: State, e: Fed)
    requires s.mode.phase.AwaitingTwofa? ==> s.facts.challengePending
    ensures Move(s.mode, e).phase.AwaitingTwofa? ==> Note(s.facts, s.mode.phase, e).challengePending
  {
  }

  lemma ThrottledHasRetry(s: State, e: Fed)
    requires s.mode.phase.Throttled? ==> s.facts.retryAt.Some?
    ensures Move(s.mode, e).phase.Throttled? ==> Note(s.facts, s.mode.phase, e).retryAt.Some?
  {
  }

  lemma RejectedHasReason(s: State, e: Fed)
    requires s.mode.phase.LoginRejected? ==> s.facts.rejectReason.Some?
    ensures Move(s.mode, e).phase.LoginRejected? ==> Note(s.facts, s.mode.phase, e).rejectReason.Some?
  {
  }

  lemma {:induction false} EveryFoldIsBacked(oldest: Option<int>, fed: seq<Fed>)
    ensures Backed(Folded(oldest, fed))
  {
    if fed != [] {
      EveryFoldIsBacked(oldest, fed[..|fed| - 1]);
      FeedKeepsTimed(Folded(oldest, fed[..|fed| - 1]), fed[|fed| - 1]);
      FeedKeepsFounded(Folded(oldest, fed[..|fed| - 1]), fed[|fed| - 1]);
    }
  }

  /** In awaiting_2fa, restarting and logged_in, `since` is the time of the latest entering event. */
  lemma {:induction false} SinceIsTheLastEntry(oldest: Option<int>, fed: seq<Fed>, p: Phase, c: int)
    requires p.AwaitingTwofa? || p.LoggedInPhase? || p.Restarting?
    requires LastEntry(fed, p, c)
    ensures Folded(oldest, fed).mode.since == Some(fed[c].at)
  {
    var last, rest := |fed| - 1, fed[..|fed| - 1];
    LastEntryStep(fed, p, c);
    if c < last {
      SinceIsTheLastEntry(oldest, rest, p, c);
      PhaseExactlyWhen(oldest, rest, p);
      SinceStays(Folded(oldest, rest), fed[last]);
    }
  }

  function PhaseAfter(oldest: Option<int>, fed: seq<Fed>, k: nat): Phase
    requires k <= |fed|
  {
    Folded(oldest, fed[..k]).mode.phase
  }

  /** Position `c` begins the current stretch of phase `p`: the event there enters it, and it lasts since. */
  ghost predicate BeginsStretch(oldest: Option<int>, fed: seq<Fed>, p: Phase, c: nat) {
    && c < |fed| && PhaseAfter(oldest, fed, c) != p
    && forall k: nat | c < k <= |fed| :: PhaseAfter(oldest, fed, k) == p
  }

  lemma PrefixPhase(oldest: Option<int>, fed: seq<Fed>, k: nat)
    requires k < |fed|
    ensures PhaseAfter(oldest, fed[..|fed| - 1], k) == PhaseAfter(oldest, fed, k)
  {
    assert fed[..|fed| - 1][..k] == fed[..k];
  }

  lemma {:induction false} WholePhase(oldest: Option<int>, fed: seq<Fed>)
    ensures PhaseAfter(oldest, fed, |fed|) == Folded(oldest, fed).mode.phase
  {
    assert fed[..|fed|] == fed;
  }

  lemma StretchShrinks(oldest: Option<int>, fed: seq<Fed>, p: Phase, c: nat)
    requires BeginsStretch(oldest, fed, p, c) && c < |fed| - 1
    ensures BeginsStretch(oldest, fed[..|fed| - 1], p, c)
  {
    var rest := fed[..|fed| - 1];
    PrefixPhase(oldest, fed, c);
    forall k: nat | c < k <= |rest| ensures PhaseAfter(oldest, rest, k) == p {
      PrefixPhase(oldest, fed, k);
    }
  }

  lemma {:induction false} StretchGrows(oldest: Option<int>, fed: seq<Fed>, p: Phase, c: nat)
    requires fed != [] && BeginsStretch(oldest, fed[..|fed| - 1], p, c) && Folded(oldest, fed).mode.phase == p
    ensures BeginsStretch(oldest, fed, p, c)
  {
    var rest := fed[..|fed| - 1];
    PrefixPhase(oldest, fed, c);
    forall k: nat | c < k <= |fed| ensures PhaseAfter(oldest, fed, k) == p {
      if k < |fed| { PrefixPhase(oldest, fed, k); } else { WholePhase(oldest, fed); }
    }
  }

  /** Every phase but none has such a stretch. */
  lemma {:induction false} PhasesHaveStretches(oldest: Option<int>, fed: seq<Fed>) returns (c: nat)
    requires !Folded(oldest, fed).mode.phase.NoPhase?
    ensures BeginsStretch(oldest, fed, Folded(oldest, fed).mode.phase, c)
  {
    var rest, p := fed[..|fed| - 1], Folded(oldest, fed).mode.phase;
    WholePhase(oldest, rest);
    WholePhase(oldest, fed);
    if Folded(oldest, rest).mode.phase == p {
      c := PhasesHaveStretches(oldest, rest);
      StretchGrows(oldest, fed, p, c);
    } else {
      c := |rest|;
      PrefixPhase(oldest, fed, c);
    }
  }

  /**
   In logging_in, login_rejected, throttled and after an ended challenge, `since` is the time of the event
   that began the current stretch of the phase: later events of the same phase do not move it.
   */
  lemma {:induction false} SinceIsTheStretchStart(oldest: Option<int>, fed: seq<Fed>, p: Phase, c: nat)
    requires BeginsStretch(oldest, fed, p, c)
    requires p.LoggingIn? || p.LoginRejected? || p.Throttled? || p.TwofaOver?
    ensures Folded(oldest, fed).mode == Mode(p, Some(fed[c].at), Folded(oldest, fed).mode.why)
  {
    var last, rest := |fed| - 1, fed[..|fed| - 1];
    WholePhase(oldest, fed);
    PrefixPhase(oldest, fed, last);
    WholePhase(oldest, rest);
    if c < last {
      StretchShrinks(oldest, fed, p, c);
      SinceIsTheStretchStart(oldest, rest, p, c);
      SamePhaseKeepsSince(Folded(oldest, rest), fed[last]);
    } else {
      PhaseChangeSetsSince(Folded(oldest, rest), fed[last]);
    }
  }

  lemma SamePhaseKeepsSince(s: State, e: Fed)
    requires Feed(s, e).mode.phase == s.mode.phase
    requires !s.mode.phase.Restarting? && !s.mode.phase.AwaitingTwofa? && !s.mode.phase.LoggedInPhase?
    ensures Feed(s, e).mode.since == s.mode.since
  {
  }

  lemma PhaseChangeSetsSince(s: State, e: Fed)
    requires Feed(s, e).mode.phase != s.mode.phase
    ensures Feed(s, e).mode.since == Some(e.at)
  {
  }

  lemma SinceStays(s: State, e: Fed)
    requires Keeps(s.mode.phase, e.kind) && !Enters(s.mode.phase, e.kind)
    ensures Feed(s, e).mode.since == s.mode.since
  {
  }

  // ----- what the facts say -----

  predicate IsRestart(kind: Kind) { kind.Restart? }

  predicate IsWarm(kind: Kind) { kind.Warm? }

  predicate IsRound(kind: Kind) { kind.AuthStart? }

  predicate IsChallenge(kind: Kind) { kind.Challenge? }

  predicate EndsChallenge(kind: Kind) { kind.Restart? || kind.AuthStart? || kind.TwofaEnded? || kind.LoggedIn? }

  predicate IsThrottle(kind: Kind) { kind.Throttle? }

  predicate EndsThrottle(kind: Kind) { kind.Restart? || kind.LoggedIn? }

  predicate IsSuccess(kind: Kind) { kind.Completed? && kind.authenticated }

  predicate BeginsRound(kind: Kind) { kind.Restart? || kind.AuthStart? }

  predicate Never(kind: Kind) { false }

  /** The latest event that `sets` something, if no later one `clears` it. */
  function Latest(fed: seq<Fed>, sets: Kind -> bool, clears: Kind -> bool): Option<Fed> {
    if fed == [] then None
    else
      var last := fed[|fed| - 1];
      if sets(last.kind) then Some(last)
      else if clears(last.kind) then None
      else Latest(fed[..|fed| - 1], sets, clears)
  }

  ghost predicate LatestAt(fed: seq<Fed>, sets: Kind -> bool, clears: Kind -> bool, k: int) {
    0 <= k < |fed| && sets(fed[k].kind) && forall j | k < j < |fed| :: !sets(fed[j].kind) && !clears(fed[j].kind)
  }

  lemma {:induction false} LatestIsDeclared(fed: seq<Fed>, sets: Kind -> bool, clears: Kind -> bool, e: Fed)
    ensures Latest(fed, sets, clears) == Some(e) <==> exists k :: LatestAt(fed, sets, clears, k) && fed[k] == e
  {
    if fed != [] {
      var last, rest := |fed| - 1, fed[..|fed| - 1];
      LatestIsDeclared(rest, sets, clears, e);
      assert forall k | 0 <= k < last :: rest[k] == fed[k];
      if sets(fed[last].kind) {
        assert LatestAt(fed, sets, clears, last);
      } else if !clears(fed[last].kind) {
        forall k ensures LatestAt(fed, sets, clears, k) <==> LatestAt(rest, sets, clears, k) {
          LatestAtStep(fed, sets, clears, k);
        }
      }
    }
  }

  lemma LatestAtStep(fed: seq<Fed>, sets: Kind -> bool, clears: Kind -> bool, k: int)
    requires fed != [] && !sets(fed[|fed| - 1].kind) && !clears(fed[|fed| - 1].kind)
    ensures LatestAt(fed, sets, clears, k) <==> LatestAt(fed[..|fed| - 1], sets, clears, k)
  {
    var last, rest := |fed| - 1, fed[..|fed| - 1];
    assert forall j | 0 <= j < last :: rest[j] == fed[j];
  }

  function PauseEnd(e: Option<Fed>): Option<int> {
    if e.Some? && e.value.kind.Throttle? then Some(e.value.at + e.value.kind.pause) else None
  }

  function ProtocolOf(e: Option<Fed>): Option<int> {
    if e.Some? && e.value.kind.Completed? then Some(e.value.kind.protocol) else None
  }

  function AskedIn(e: Option<Fed>): Option<bool> {
    if e.Some? && e.value.kind.AuthStart? then Some(e.value.kind.passwordAsked) else None
  }

  predicate RefusedIn(e: Option<Fed>) {
    e.Some? && e.value.kind.AuthStart? && e.value.kind.passwordAsked && e.value.kind.savedToken
  }

  predicate KeyIn(e: Option<Fed>) {
    e.Some? && e.value.kind.AuthStart? && e.value.kind.ibKey
  }

  function TimeOf(e: Option<Fed>): Option<int> {
    if e.Some? then Some(e.value.at) else None
  }

  /** A challenge is pending until a restart, a new round, its end or a success; a pause until a restart or success. */
  lemma {:induction false} PendingFollows(oldest: Option<int>, fed: seq<Fed>)
    ensures Folded(oldest, fed).facts.challengePending == Latest(fed, IsChallenge, EndsChallenge).Some?
    ensures Folded(oldest, fed).facts.retryAt == PauseEnd(Latest(fed, IsThrottle, EndsThrottle))
  {
    if fed != [] { PendingFollows(oldest, fed[..|fed| - 1]); }
  }

  /** What the latest authentication round since the last restart asked for, and whether that restart was warm. */
  lemma {:induction false} RoundFollows(oldest: Option<int>, fed: seq<Fed>)
    ensures Folded(oldest, fed).facts.pwAsked == AskedIn(Latest(fed, IsRound, IsRestart))
    ensures Folded(oldest, fed).facts.tokenRefused == RefusedIn(Latest(fed, IsRound, IsRestart))
    ensures Folded(oldest, fed).facts.ibKey == KeyIn(Latest(fed, IsRound, IsRestart))
    ensures Folded(oldest, fed).facts.warm == Latest(fed, IsWarm, IsRestart).Some?
  {
    if fed != [] { RoundFollows(oldest, fed[..|fed| - 1]); }
  }

  /** The protocol of the latest successful authentication of the round, and the time of the latest of all. */
  lemma {:induction false} SuccessOfRoundFollows(oldest: Option<int>, fed: seq<Fed>)
    ensures Folded(oldest, fed).facts.tokenProtocol == ProtocolOf(Latest(fed, IsSuccess, BeginsRound))
    ensures Folded(oldest, fed).facts.completedAt == TimeOf(Latest(fed, IsSuccess, Never))
  {
    if fed != [] { SuccessOfRoundFollows(oldest, fed[..|fed| - 1]); }
  }

  /** A rejection that begins a rejected phase decides its reason; the later ones of the phase do not. */
  lemma {:induction false} FirstRejectionDecides(oldest: Option<int>, fed: seq<Fed>, c: nat)
    requires c < |fed| && Enters(LoginRejected, fed[c].kind) && !Folded(oldest, fed[..c]).mode.phase.LoginRejected?
    requires forall k | c < k < |fed| :: Keeps(LoginRejected, fed[k].kind)
    ensures Folded(oldest, fed).mode.phase.LoginRejected?
    ensures Folded(oldest, fed).facts.rejectReason == Some(
      if fed[c].kind.RejectedOther? then Unrecognized
      else if RefusedIn(Latest(fed[..c], IsRound, IsRestart)) then SavedSessionRefused
      else Credentials)
  {
    var last, rest := |fed| - 1, fed[..|fed| - 1];
    if c == last {
      RoundFollows(oldest, rest);
      assert fed[..c] == rest;
    } else {
      assert rest[..c] == fed[..c];
      assert forall k | c < k < |rest| :: rest[k] == fed[k];
      FirstRejectionDecides(oldest, rest, c);
      LaterRejectionsKeep(Folded(oldest, rest), fed[last]);
    }
  }

  lemma LaterRejectionsKeep(s: State, e: Fed)
    requires s.mode.phase.LoginRejected? && Keeps(LoginRejected, e.kind)
    ensures Feed(s, e).mode.phase.LoginRejected? && Feed(s, e).facts.rejectReason == s.facts.rejectReason
  {
  }

  /** Whether a challenge was waiting when the login last ended. */
  lemma {:induction false} EndedWithChallenge(oldest: Option<int>, fed: seq<Fed>, c: nat)
    requires c < |fed| && fed[c].kind.TwofaEnded? && forall k | c < k < |fed| :: !fed[k].kind.TwofaEnded?
    ensures Folded(oldest, fed).facts.hadChallenge == Latest(fed[..c], IsChallenge, EndsChallenge).Some?
  {
    var last, rest := |fed| - 1, fed[..|fed| - 1];
    if c == last {
      PendingFollows(oldest, rest);
    } else {
      assert rest[..c] == fed[..c];
      EndedWithChallenge(oldest, rest, c);
    }
  }

  /** The event says why the gateway retries. */
  predicate Tells(kind: Kind, why: Why) {
    || (kind.AuthTimeout? && why.NoAnswer?)
    || (kind.AutoRetry? && (kind.network <==> why.NoAnswer?))
    || (kind.Completed? && !kind.authenticated && why.NotCompleted?)
  }

  predicate TellsNothing(kind: Kind) {
    !Tells(kind, NoAnswer) && !Tells(kind, NotCompleted)
  }

  /** Event `k` of the stretch says why, and no later one says anything else. */
  ghost predicate ToldAt(fed: seq<Fed>, c: nat, why: Why, k: int) {
    c <= k < |fed| && Tells(fed[k].kind, why) && forall j | k < j < |fed| :: TellsNothing(fed[j].kind)
  }

  lemma ToldStep(fed: seq<Fed>, c: nat, why: Why, k: int)
    requires c < |fed|
    ensures ToldAt(fed, c, why, k) <==>
      if k == |fed| - 1 then Tells(fed[k].kind, why)
      else ToldAt(fed[..|fed| - 1], c, why, k) && TellsNothing(fed[|fed| - 1].kind)
  {
    var last, rest := |fed| - 1, fed[..|fed| - 1];
    assert forall j | 0 <= j < last :: rest[j] == fed[j];
  }

  lemma WhyStep(s: State, e: Fed, why: Why)
    requires Feed(s, e).mode.phase.LoggingIn?
    ensures Feed(s, e).mode.why == Some(why) <==>
      || Tells(e.kind, why)
      || (s.mode.phase.LoggingIn? && s.mode.why == Some(why) && TellsNothing(e.kind))
  {
  }

  /** The reason a login under way is retried is the latest that an event of its stretch tells. */
  lemma {:induction false} RetryReasonFollows(oldest: Option<int>, fed: seq<Fed>, c: nat, why: Why)
    requires BeginsStretch(oldest, fed, LoggingIn, c)
    ensures Folded(oldest, fed).mode.why == Some(why) <==> exists k :: ToldAt(fed, c, why, k)
  {
    var last, rest := |fed| - 1, fed[..|fed| - 1];
    WholePhase(oldest, fed);
    WholePhase(oldest, rest);
    PrefixPhase(oldest, fed, last);
    WhyStep(Folded(oldest, rest), fed[last], why);
    forall k
      ensures ToldAt(fed, c, why, k) <==> if k == last then Tells(fed[k].kind, why)
        else ToldAt(rest, c, why, k) && TellsNothing(fed[last].kind)
    {
      ToldStep(fed, c, why, k);
    }
    if Tells(fed[last].kind, why) { assert ToldAt(fed, c, why, last); }
    if c < last {
      StretchShrinks(oldest, fed, LoggingIn, c);
      RetryReasonFollows(oldest, rest, c, why);
    }
  }

  // ----- the state at a later time -----

  const IDLE_AFTER := 90_000_000
  const TWOFA_SILENCE := 90_000_000
  const PRELOGIN_SILENCE := 420_000_000
  const STALL_AFTER := 600_000_000

  datatype Shown =
    | ShowRestarting | ShowLoggingIn | ShowAwaiting | ShowRejected
    | ShowThrottled | ShowLoggedIn | ShowIdle | ShowUnknown

  /** The keys of the fixed wording, with the times it quotes. */
  datatype Detail =
    | NoDetail | TwofaEndedRetry | EndedBeforeChallengeRetry | TwofaEndedUnanswered | EndedBeforeChallenge
    | ThrottledTwofa | ThrottledPlain | ThrottleOver | WarmRestart | NeverAttempted | Retries(why: Why) | Stalled
    | IbKeyPush | ChallengeSent | Refused(reason: Reason) | SecondFactor(at: int) | SavedSession | Password
    | IdleSince(at: int) | Silent(at: int) | NoStart

  datatype Login = Login(phase: Shown, since: Option<int>, detail: Detail, retryAt: Option<int>)

  /** The time rules of the phases; `since` is when the phase began. */
  function Aged(s: State, now: int, since: int): (Shown, int, Detail) {
    var f := s.facts;
    match s.mode.phase
    case TwofaOver =>
      if now - since <= IDLE_AFTER
      then (ShowLoggingIn, since, if f.hadChallenge then TwofaEndedRetry else EndedBeforeChallengeRetry)
      else (ShowIdle, since, if f.hadChallenge then TwofaEndedUnanswered else EndedBeforeChallenge)
    case Throttled =>
      if f.retryAt.Some? && now > f.retryAt.value + IDLE_AFTER then (ShowIdle, f.retryAt.value, ThrottleOver)
      else (ShowThrottled, since, if f.ibKey || s.counters.challenges > 0 then ThrottledTwofa else ThrottledPlain)
    case Restarting =>
      if now - since > IDLE_AFTER then (ShowIdle, since, NeverAttempted)
      else (ShowRestarting, since, if f.warm then WarmRestart else NoDetail)
    case LoggingIn =>
      var last := if s.lastLifecycleAt.Some? then s.lastLifecycleAt.value else since;
      if now - last > STALL_AFTER then (ShowIdle, last, Stalled)
      else (ShowLoggingIn, since, if s.mode.why.Some? then Retries(s.mode.why.value) else NoDetail)
    case AwaitingTwofa => (ShowAwaiting, since, if f.ibKey then IbKeyPush else ChallengeSent)
    case LoginRejected =>
      (ShowRejected, since, Refused(if f.rejectReason.Some? then f.rejectReason.value else Unrecognized))
    case _ =>
      (ShowLoggedIn, since,
       if f.tokenProtocol == Some(5) && f.completedAt.Some? then SecondFactor(f.completedAt.value)
       else if f.warm && f.pwAsked == Some(false) then SavedSession
       else if f.pwAsked.Some? then Password
       else NoDetail)
  }

  /** The login state at `now`; `mtime` is when the newest file was last written. */
  function Evaluate(s: State, now: int, mtime: Option<int>): Login {
    if s.mode.phase.NoPhase? || s.mode.since.None? then
      if s.idleNoiseAt.Some? && now - s.idleNoiseAt.value <= PRELOGIN_SILENCE then
        var oldest := if s.counters.since.Some? then s.counters.since.value else s.idleNoiseAt.value;
        Login(ShowIdle, Some(oldest), IdleSince(oldest), None)
      else Login(ShowUnknown, None, NoStart, None)
    else
      var (phase, since, detail) := Aged(s, now, s.mode.since.value);
      var limit := if phase.ShowAwaiting? then TWOFA_SILENCE else PRELOGIN_SILENCE;
      if !phase.ShowLoggedIn? && mtime.Some? && now - mtime.value > limit
      then Login(ShowUnknown, mtime, Silent(mtime.value), None)
      else Login(phase, Some(since), detail, if phase.ShowThrottled? then s.facts.retryAt else None)
  }

  /** How far a login state has aged: under way, then idle, then unknown. */
  function Age(shown: Shown): nat {
    match shown
    case ShowIdle => 1
    case ShowUnknown => 2
    case _ => 0
  }

  /** With no new events, a state only ever ages: it stays exactly as it is or grows older. */
  lemma StatesAgeOneWay(s: State, now: int, later: int, mtime: Option<int>)
    requires now <= later
    ensures var a, b := Evaluate(s, now, mtime), Evaluate(s, later, mtime);
      a == b || Age(a.phase) < Age(b.phase)
  {
    if !s.mode.phase.NoPhase? && s.mode.since.Some? {
      PhasesAgeOneWay(s, now, later, s.mode.since.value);
    }
  }

  lemma PhasesAgeOneWay(s: State, now: int, later: int, since: int)
    requires now <= later
    ensures var a, b := Aged(s, now, since), Aged(s, later, since);
      && (a == b || (Age(a.0) == 0 && b.0.ShowIdle? && !a.0.ShowAwaiting? && !a.0.ShowLoggedIn?))
      && !a.0.ShowUnknown?
  {
  }

  /** All times the state holds are at most `now`, except the announced retry. */
  ghost predicate NotAhead(s: State, now: int) {
    && (s.counters.since.Some? ==> s.counters.since.value <= now)
    && (s.counters.lastSuccessAt.Some? ==> s.counters.lastSuccessAt.value <= now)
    && (s.mode.since.Some? ==> s.mode.since.value <= now)
    && (s.lastLifecycleAt.Some? ==> s.lastLifecycleAt.value <= now)
    && (s.idleNoiseAt.Some? ==> s.idleNoiseAt.value <= now)
  }

  lemma {:induction false} TimesAreNotAhead(oldest: Option<int>, fed: seq<Fed>, now: int)
    requires oldest.Some? ==> oldest.value <= now
    requires forall k | 0 <= k < |fed| :: fed[k].at <= now
    ensures NotAhead(Folded(oldest, fed), now)
  {
    if fed != [] {
      TimesAreNotAhead(oldest, fed[..|fed| - 1], now);
      TimesStep(Folded(oldest, fed[..|fed| - 1]), fed[|fed| - 1], now);
    }
  }

  lemma TimesStep(s: State, e: Fed, now: int)
    requires NotAhead(s, now) && e.at <= now
    ensures NotAhead(Feed(s, e), now)
  {
  }

  /** Some event entered phase `p` and only events that keep it followed. */
  ghost predicate Entered(fed: seq<Fed>, p: Phase) {
    exists c :: LastEntry(fed, p, c)
  }

  /** The last event of the login came within the time an attempt may go without any. */
  predicate Lively(s: State, now: int) {
    s.lastLifecycleAt.Some? && now - s.lastLifecycleAt.value <= STALL_AFTER
  }

  /**
   What a shown state means at `now`: `since` is never ahead; a pause is shown only with its retry time
   and until 90 s after it; any state but logged_in and unknown only of a log written to lately; a start
   for 90 s; a login under way for 90 s or while its last event is at most ten minutes old; and idle
   only what began over 90 s ago.
   */
  ghost predicate TrueAt(s: State, shown: Login, now: int, mtime: Option<int>) {
    && (shown.since.Some? ==> shown.since.value <= now)
    && (shown.phase.ShowThrottled? ==> shown.retryAt.Some? && now <= shown.retryAt.value + IDLE_AFTER)
    && (!shown.phase.ShowThrottled? ==> shown.retryAt.None?)
    && (!shown.phase.ShowUnknown? && !shown.phase.ShowLoggedIn? && !s.mode.phase.NoPhase? ==>
          shown.since.Some? &&
          (mtime.Some? ==> now - mtime.value <= if shown.phase.ShowAwaiting? then TWOFA_SILENCE else PRELOGIN_SILENCE))
    && (shown.phase.ShowRestarting? ==> shown.since.Some? && now - shown.since.value <= IDLE_AFTER)
    && (shown.phase.ShowLoggingIn? ==> shown.since.Some? && (Lively(s, now) || now - shown.since.value <= IDLE_AFTER))
    && (shown.phase.ShowIdle? && !s.mode.phase.NoPhase? ==> shown.since.Some? && now - shown.since.value > IDLE_AFTER)
  }

  /**
   Of a log with no times after `now`, the shown state is true; a challenge is shown only while one is
   pending, and logged_in exactly while nothing has left it.
   */
  lemma {:induction false} ShownStatesAreTrue(oldest: Option<int>, fed: seq<Fed>, now: int, mtime: Option<int>)
    requires oldest.Some? ==> oldest.value <= now
    requires mtime.Some? ==> mtime.value <= now
    requires forall k | 0 <= k < |fed| :: fed[k].at <= now
    ensures var s := Folded(oldest, fed); var shown := Evaluate(s, now, mtime);
      && TrueAt(s, shown, now, mtime)
      && (shown.phase.ShowAwaiting? ==> s.facts.challengePending && Entered(fed, AwaitingTwofa))
      && (shown.phase.ShowLoggedIn? <==> Entered(fed, LoggedInPhase))
  {
    TimesAreNotAhead(oldest, fed, now);
    EveryFoldIsBacked(oldest, fed);
    PhaseExactlyWhen(oldest, fed, AwaitingTwofa);
    PhaseExactlyWhen(oldest, fed, LoggedInPhase);
    ShownIsTrue(Folded(oldest, fed), now, mtime);
  }

  lemma ShownIsTrue(s: State, now: int, mtime: Option<int>)
    requires Backed(s) && NotAhead(s, now) && (mtime.Some? ==> mtime.value <= now)
    ensures TrueAt(s, Evaluate(s, now, mtime), now, mtime)
    ensures Evaluate(s, now, mtime).phase.ShowAwaiting? ==> s.mode.phase.AwaitingTwofa?
    ensures Evaluate(s, now, mtime).phase.ShowLoggedIn? <==> s.mode.phase.LoggedInPhase?
  {
  }

  // ----- which state is shown, since when, and in which words -----

  /** The newest file was written to within `limit` before `now`, as far as known. */
  predicate WrittenWithin(limit: int, now: int, mtime: Option<int>) {
    mtime.Some? ==> now - mtime.value <= limit
  }

  /** Which phases were entered last is what the fold shows as its phase, with the times and reasons they promise. */
  lemma {:induction false} PhasesAreEntered(oldest: Option<int>, fed: seq<Fed>)
    ensures Backed(Folded(oldest, fed))
    ensures forall p: Phase | !p.NoPhase? && !p.LoggingIn? ::
      Entered(fed, p) <==> Folded(oldest, fed).mode.phase == p
  {
    EveryFoldIsBacked(oldest, fed);
    forall p: Phase | !p.NoPhase? && !p.LoggingIn?
      ensures Entered(fed, p) <==> Folded(oldest, fed).mode.phase == p
    {
      PhaseExactlyWhen(oldest, fed, p);
    }
  }

  /** The phase is logging_in exactly when no other was entered last, and some event entered one. */
  lemma {:induction false} LoggingInExactlyWhen(oldest: Option<int>, fed: seq<Fed>)
    ensures Folded(oldest, fed).mode.phase.LoggingIn? <==>
      && (exists k :: 0 <= k < |fed| && !Keeps(NoPhase, fed[k].kind))
      && (forall p: Phase | !p.NoPhase? && !p.LoggingIn? :: !Entered(fed, p))
  {
    NoPhaseExactlyWhen(oldest, fed);
    PhasesAreEntered(oldest, fed);
  }

  /** A pause was entered last and is over for at most 90 s. */
  ghost predicate IsPaused(fed: seq<Fed>, now: int) {
    exists c :: LastEntry(fed, Throttled, c) && now <= fed[c].at + fed[c].kind.pause + 90_000_000
  }

  /** A start came last, at most 90 s ago. */
  ghost predicate IsStarting(fed: seq<Fed>, now: int) {
    exists c :: LastEntry(fed, Restarting, c) && now <= fed[c].at + 90_000_000
  }

  lemma LastEntryOnce(fed: seq<Fed>, p: Phase, c: int, d: int)
    requires LastEntry(fed, p, c) && LastEntry(fed, p, d)
    ensures c == d
  {
  }

  lemma {:induction false} PauseOfLastEntry(oldest: Option<int>, fed: seq<Fed>, c: int)
    requires LastEntry(fed, Throttled, c)
    ensures Folded(oldest, fed).facts.retryAt == Some(fed[c].at + fed[c].kind.pause)
  {
    PendingFollows(oldest, fed);
    assert LatestAt(fed, IsThrottle, EndsThrottle, c);
    LatestIsDeclared(fed, IsThrottle, EndsThrottle, fed[c]);
  }

  lemma {:induction false} PausedExactlyWhen(oldest: Option<int>, fed: seq<Fed>, now: int)
    requires Entered(fed, Throttled)
    ensures var retryAt := Folded(oldest, fed).facts.retryAt;
      retryAt.Some? && (IsPaused(fed, now) <==> now <= retryAt.value + 90_000_000)
  {
    var c :| LastEntry(fed, Throttled, c);
    PauseOfLastEntry(oldest, fed, c);
    forall d | LastEntry(fed, Throttled, d) ensures d == c { LastEntryOnce(fed, Throttled, c, d); }
  }

  lemma {:induction false} StartingExactlyWhen(oldest: Option<int>, fed: seq<Fed>, now: int)
    requires Entered(fed, Restarting)
    ensures var since := Folded(oldest, fed).mode.since;
      since.Some? && (IsStarting(fed, now) <==> now <= since.value + 90_000_000)
  {
    var c :| LastEntry(fed, Restarting, c);
    SinceIsTheLastEntry(oldest, fed, Restarting, c);
    forall d | LastEntry(fed, Restarting, d) ensures d == c { LastEntryOnce(fed, Restarting, c, d); }
  }

  lemma WaitsAreShown(s: State, now: int, mtime: Option<int>)
    requires Backed(s)
    ensures var shown, phase := Evaluate(s, now, mtime).phase, s.mode.phase;
      && (shown.ShowLoggedIn? <==> phase.LoggedInPhase?)
      && (shown.ShowAwaiting? <==> phase.AwaitingTwofa? && WrittenWithin(90_000_000, now, mtime))
      && (shown.ShowRejected? <==> phase.LoginRejected? && WrittenWithin(420_000_000, now, mtime))
      && (shown.ShowThrottled? <==> phase.Throttled? && now <= s.facts.retryAt.value + 90_000_000
                                    && WrittenWithin(420_000_000, now, mtime))
      && (shown.ShowRestarting? <==> phase.Restarting? && now <= s.mode.since.value + 90_000_000
                                     && WrittenWithin(420_000_000, now, mtime))
  {
  }

  /**
   A success is shown as long as nothing else is entered; a waiting challenge, a rejection, a pause and a start
   while the log is written to, at most 90 s ago for a challenge and seven minutes for the others, a pause until
   90 s after its end and a start for 90 s.
   */
  lemma {:induction false} WaitsAreShownExactlyWhen(oldest: Option<int>, fed: seq<Fed>, now: int, mtime: Option<int>)
    ensures var shown := Evaluate(Folded(oldest, fed), now, mtime).phase;
      && (shown.ShowLoggedIn? <==> Entered(fed, LoggedInPhase))
      && (shown.ShowAwaiting? <==> Entered(fed, AwaitingTwofa) && WrittenWithin(90_000_000, now, mtime))
      && (shown.ShowRejected? <==> Entered(fed, LoginRejected) && WrittenWithin(420_000_000, now, mtime))
      && (shown.ShowThrottled? <==> IsPaused(fed, now) && WrittenWithin(420_000_000, now, mtime))
      && (shown.ShowRestarting? <==> IsStarting(fed, now) && WrittenWithin(420_000_000, now, mtime))
  {
    PhasesAreEntered(oldest, fed);
    WaitsAreShown(Folded(oldest, fed), now, mtime);
    if Entered(fed, Throttled) { PausedExactlyWhen(oldest, fed, now); }
    if Entered(fed, Restarting) { StartingExactlyWhen(oldest, fed, now); }
  }

  /** A login is under way for 90 s after one that ended, and else until ten minutes pass without an event. */
  predicate IsUnderWay(s: State, now: int)
    requires !s.mode.phase.NoPhase? ==> s.mode.since.Some? && s.lastLifecycleAt.Some?
  {
    || (s.mode.phase.TwofaOver? && now <= s.mode.since.value + 90_000_000)
    || (s.mode.phase.LoggingIn? && now <= s.lastLifecycleAt.value + 600_000_000)
  }

  /** Such a login, a pause and a start are over at the end of their time. */
  predicate IsOver(s: State, now: int)
    requires !s.mode.phase.NoPhase? ==> s.mode.since.Some? && s.lastLifecycleAt.Some?
    requires s.mode.phase.Throttled? ==> s.facts.retryAt.Some?
  {
    || (s.mode.phase.TwofaOver? && now > s.mode.since.value + 90_000_000)
    || (s.mode.phase.LoggingIn? && now > s.lastLifecycleAt.value + 600_000_000)
    || (s.mode.phase.Throttled? && now > s.facts.retryAt.value + 90_000_000)
    || (s.mode.phase.Restarting? && now > s.mode.since.value + 90_000_000)
  }

  /** A state is idle when what was begun is over, or, before any start, for seven minutes after idle noise. */
  lemma {:induction false} LoginsAreShownExactlyWhen(oldest: Option<int>, fed: seq<Fed>, now: int, mtime: Option<int>)
    ensures Backed(Folded(oldest, fed))
    ensures var s := Folded(oldest, fed); var shown := Evaluate(s, now, mtime).phase;
      && (shown.ShowLoggingIn? <==> WrittenWithin(420_000_000, now, mtime) && IsUnderWay(s, now))
      && (shown.ShowIdle? && !s.mode.phase.NoPhase? <==> WrittenWithin(420_000_000, now, mtime) && IsOver(s, now))
      && (shown.ShowIdle? && s.mode.phase.NoPhase? <==>
            s.mode.phase.NoPhase? && s.idleNoiseAt.Some? && now <= s.idleNoiseAt.value + 420_000_000)
  {
    EveryFoldIsBacked(oldest, fed);
  }

  /** The last event of the login, and the last idle noise. */
  lemma {:induction false} LastEventsFollow(oldest: Option<int>, fed: seq<Fed>)
    ensures Folded(oldest, fed).lastLifecycleAt == TimeOf(Latest(fed, (k: Kind) => !k.IdleNoise?, Never))
    ensures Folded(oldest, fed).idleNoiseAt == TimeOf(Latest(fed, (k: Kind) => k.IdleNoise?, Never))
  {
    if fed != [] { LastEventsFollow(oldest, fed[..|fed| - 1]); }
  }

  /**
   A state is shown since its phase began; an idle one since its pause or its last event ended, or, before any
   start, since the log began; an unknown one since the log fell silent, or since no time at all.
   */
  lemma ShownSince(s: State, now: int, mtime: Option<int>)
    requires Backed(s)
    ensures var shown, phase := Evaluate(s, now, mtime), s.mode.phase;
      shown.since ==
        if shown.phase.ShowUnknown? then if phase.NoPhase? then None else mtime
        else if phase.NoPhase? then if s.counters.since.Some? then s.counters.since else s.idleNoiseAt
        else if shown.phase.ShowIdle? && phase.Throttled? then s.facts.retryAt
        else if shown.phase.ShowIdle? && phase.LoggingIn? then s.lastLifecycleAt
        else s.mode.since
    ensures var shown := Evaluate(s, now, mtime);
      shown.retryAt == if shown.phase.ShowThrottled? then s.facts.retryAt else None
  {
  }

  /** The wording of a login under way: what IBKR did, or why the gateway retries. */
  lemma LoginWordsExactlyWhen(s: State, now: int, mtime: Option<int>)
    requires Backed(s)
    ensures var shown, phase, f := Evaluate(s, now, mtime), s.mode.phase, s.facts; var d := shown.detail;
      && (d.TwofaEndedRetry? <==> shown.phase.ShowLoggingIn? && phase.TwofaOver? && f.hadChallenge)
      && (d.EndedBeforeChallengeRetry? <==> shown.phase.ShowLoggingIn? && phase.TwofaOver? && !f.hadChallenge)
      && (d.TwofaEndedUnanswered? <==> shown.phase.ShowIdle? && phase.TwofaOver? && f.hadChallenge)
      && (d.EndedBeforeChallenge? <==> shown.phase.ShowIdle? && phase.TwofaOver? && !f.hadChallenge)
      && (d.Retries? <==> shown.phase.ShowLoggingIn? && phase.LoggingIn? && s.mode.why.Some?)
      && (d.Retries? ==> s.mode.why == Some(d.why))
      && (d.Stalled? <==> shown.phase.ShowIdle? && phase.LoggingIn?)
      && (d.NeverAttempted? <==> shown.phase.ShowIdle? && phase.Restarting?)
      && (d.WarmRestart? <==> shown.phase.ShowRestarting? && f.warm)
  {
  }

  /** The wording of a challenge, a rejection, a pause, a success and of a log that says nothing. */
  lemma OtherWordsExactlyWhen(s: State, now: int, mtime: Option<int>)
    requires Backed(s)
    ensures var shown, phase, f := Evaluate(s, now, mtime), s.mode.phase, s.facts; var d := shown.detail;
      && (d.IbKeyPush? <==> shown.phase.ShowAwaiting? && f.ibKey)
      && (d.ChallengeSent? <==> shown.phase.ShowAwaiting? && !f.ibKey)
      && (d.Refused? <==> shown.phase.ShowRejected?) && (d.Refused? ==> f.rejectReason == Some(d.reason))
      && (d.ThrottledTwofa? <==> shown.phase.ShowThrottled? && (f.ibKey || s.counters.challenges > 0))
      && (d.ThrottledPlain? <==> shown.phase.ShowThrottled? && !f.ibKey && s.counters.challenges == 0)
      && (d.ThrottleOver? <==> shown.phase.ShowIdle? && phase.Throttled?)
      && (d.IdleSince? <==> shown.phase.ShowIdle? && phase.NoPhase?) && (d.IdleSince? ==> shown.since == Some(d.at))
      && (d.Silent? <==> shown.phase.ShowUnknown? && !phase.NoPhase?) && (d.Silent? ==> mtime == Some(d.at))
      && (d.NoStart? <==> shown.phase.ShowUnknown? && phase.NoPhase?)
  {
  }

  /** A success tells how it came about: by a second factor, the saved session of a warm start, or a password. */
  lemma SuccessWordsExactlyWhen(s: State, now: int, mtime: Option<int>)
    requires Backed(s)
    ensures var shown, f := Evaluate(s, now, mtime), s.facts;
      var d, second := shown.detail, f.tokenProtocol == Some(5) && f.completedAt.Some?;
      && (d.SecondFactor? <==> shown.phase.ShowLoggedIn? && second) && (d.SecondFactor? ==> f.completedAt == Some(d.at))
      && (d.SavedSession? <==> shown.phase.ShowLoggedIn? && !second && f.warm && f.pwAsked == Some(false))
      && (d.Password? <==> shown.phase.ShowLoggedIn? && !second && f.pwAsked.Some? && !(f.warm && !f.pwAsked.value))
  {
  }

  // ----- the fold itself -----

  /** The login state machine, fed events in UTC. */
  class Fold {
    var counters: Counters
    var phase: Phase
    var since: Option<int>
    var why: Option<Why>
    var facts: Facts
    var lastLifecycleAt: Option<int>
    var idleNoiseAt: Option<int>

    ghost function View(): State
      reads this
    {
      State(counters, Mode(phase, since, why), facts, lastLifecycleAt, idleNoiseAt)
    }

    constructor (oldest: Option<int>)
      ensures View() == Blank(oldest)
    {
      counters := Counters(0, 0, oldest, false, false, None);
      phase, since, why := NoPhase, None, None;
      facts := Facts(false, false, false, None, false, false, None, None, None, None);
      lastLifecycleAt, idleNoiseAt := None, None;
    }

    method FeedEvent(kind: Kind, at: int)
      requires !kind.Anchor?
      modifies this
      ensures View() == Feed(old(View()), Fed(at, kind))
    {
      if kind.IdleNoise? {
        idleNoiseAt := Some(at);
        return;
      }
      lastLifecycleAt := Some(at);
      match kind {
        case Restart => OnRestart(at);
        case Warm => facts := facts.(warm := true);
        case LoginStart => OnLoginStart(at);
        case AuthStart(asked, saved, key) => OnAuthStart(at, asked, saved, key);
        case Challenge => OnChallenge(at);
        case AuthTimeout => Go(LoggingIn, at, Some(NoAnswer));
        case AutoRetry(network) => Go(LoggingIn, at, Some(if network then NoAnswer else NotCompleted));
        case Completed(protocol, authenticated) => OnCompleted(at, protocol, authenticated);
        case RejectedCredentials => OnRejectedCredentials(at);
        case TwofaEnded => OnTwofaEnded(at);
        case RejectedOther => OnRejectedOther(at);
        case Throttle(pause) => OnThrottle(at, pause);
        case LoggedIn => OnLoggedIn(at);
        case IdleNoise =>
        case Anchor =>
      }
    }

    /** Enter `to`; `since` moves only when the phase changes. */
    method Go(to: Phase, at: int, reason: Option<Why>)
      modifies this`phase, this`since, this`why
      ensures phase == to
      ensures since == if to == old(phase) then old(since) else Some(at)
      ensures why == if to == old(phase) && reason.None? then old(why) else reason
    {
      if to != phase {
        since := Some(at);
        why := reason;
      } else if reason.Some? {
        why := reason;
      }
      phase := to;
    }

    /** Count again from zero at the first sign of a new login after a success. */
    method NewSequence()
      modifies this`counters
      ensures counters == if old(counters).afterSuccess
        then Counters(0, 0, old(counters).lastSuccessAt, true, false, old(counters).lastSuccessAt) else old(counters)
    {
      if counters.afterSuccess {
        counters := counters.(afterSuccess := false, attempts := 0, challenges := 0,
                              since := counters.lastSuccessAt, complete := true);
      }
    }

    /** The state after a handler for an event of this kind at `at`. */
    twostate predicate Took(at: int, kind: Kind)
      reads this
    {
      && counters == Count(old(counters), Fed(at, kind))
      && Mode(phase, since, why) == Move(Mode(old(phase), old(since), old(why)), Fed(at, kind))
      && facts == Note(old(facts), old(phase), Fed(at, kind))
    }

    method OnRestart(at: int)
      modifies this`counters, this`phase, this`since, this`why, this`facts
      ensures Took(at, Restart)
    {
      NewSequence();
      Go(Restarting, at, None);
      since := Some(at);
      facts := facts.(warm := false, tokenRefused := false, ibKey := false, challengePending := false, pwAsked := None,
                      tokenProtocol := None, retryAt := None, rejectReason := None);
    }

    method OnLoginStart(at: int)
      modifies this`counters, this`phase, this`since, this`why, this`facts
      ensures Took(at, LoginStart)
    {
      NewSequence();
      if !phase.AwaitingTwofa? {
        Go(LoggingIn, at, None);
      }
    }

    method OnAuthStart(at: int, asked: bool, saved: bool, key: bool)
      modifies this`counters, this`phase, this`since, this`why, this`facts
      ensures Took(at, AuthStart(asked, saved, key))
    {
      NewSequence();
      counters := counters.(attempts := counters.attempts + 1);
      facts := facts.(pwAsked := Some(asked), tokenRefused := asked && saved, ibKey := key,
                      challengePending := false, tokenProtocol := None);
      Go(LoggingIn, at, None);
    }

    method OnChallenge(at: int)
      modifies this`counters, this`phase, this`since, this`why, this`facts
      ensures Took(at, Challenge)
    {
      counters := counters.(challenges := counters.challenges + 1);
      facts := facts.(challengePending := true);
      Go(AwaitingTwofa, at, None);
      since := Some(at);
    }

    method OnCompleted(at: int, protocol: int, authenticated: bool)
      modifies this`counters, this`phase, this`since, this`why, this`facts
      ensures Took(at, Completed(protocol, authenticated))
    {
      if authenticated {
        facts := facts.(tokenProtocol := Some(protocol), completedAt := Some(at));
      } else if !phase.LoginRejected? && !phase.TwofaOver? {
        Go(LoggingIn, at, Some(NotCompleted));
      }
    }

    method OnRejectedCredentials(at: int)
      modifies this`counters, this`phase, this`since, this`why, this`facts
      ensures Took(at, RejectedCredentials)
    {
      if !phase.LoginRejected? {
        facts := facts.(rejectReason := Some(if facts.tokenRefused then SavedSessionRefused else Credentials));
      }
      Go(LoginRejected, at, None);
    }

    method OnRejectedOther(at: int)
      modifies this`counters, this`phase, this`since, this`why, this`facts
      ensures Took(at, RejectedOther)
    {
      if !phase.LoginRejected? {
        facts := facts.(rejectReason := Some(Unrecognized));
      }
      Go(LoginRejected, at, None);
    }

    method OnTwofaEnded(at: int)
      modifies this`counters, this`phase, this`since, this`why, this`facts
      ensures Took(at, TwofaEnded)
    {
      facts := facts.(hadChallenge := facts.challengePending, challengePending := false);
      Go(TwofaOver, at, None);
    }

    method OnThrottle(at: int, pause: nat)
      modifies this`counters, this`phase, this`since, this`why, this`facts
      ensures Took(at, Throttle(pause))
    {
      facts := facts.(retryAt := Some(at + pause));
      Go(Throttled, at, None);
    }

    method OnLoggedIn(at: int)
      modifies this`counters, this`phase, this`since, this`why, this`facts
      ensures Took(at, LoggedIn)
    {
      Go(LoggedInPhase, at, None);
      since := Some(at);
      counters := counters.(afterSuccess := true, lastSuccessAt := Some(at));
      facts := facts.(challengePending := false, retryAt := None);
    }
  }

  /** The events but the anchors, each at its local time less its offset. */
  function InUtc(events: seq<Event>, offsets: seq<int>, n: nat): seq<Fed>
    requires n <= |events| == |offsets|
  {
    if n == 0 then []
    else
      var e := events[n - 1];
      InUtc(events, offsets, n - 1) + if e.kind.Anchor? then [] else [Fed(e.local - offsets[n - 1], e.kind)]
  }

  lemma InUtcGrows(oldest: Option<int>, events: seq<Event>, offsets: seq<int>, n: nat)
    requires n < |events| == |offsets|
    ensures events[n].kind.Anchor? ==> InUtc(events, offsets, n + 1) == InUtc(events, offsets, n)
    ensures !events[n].kind.Anchor? ==>
      Folded(oldest, InUtc(events, offsets, n + 1))
        == Feed(Folded(oldest, InUtc(events, offsets, n)), Fed(events[n].local - offsets[n], events[n].kind))
  {
    if !events[n].kind.Anchor? {
      var fed, e := InUtc(events, offsets, n), Fed(events[n].local - offsets[n], events[n].kind);
      assert InUtc(events, offsets, n + 1) == fed + [e];
      assert (fed + [e])[..|fed|] == fed;
    }
  }

  method FeedAll(events: seq<Event>, offsets: seq<int>, oldest: Option<int>) returns (fold: Fold)
    requires |offsets| == |events|
    ensures fold.View() == Folded(oldest, InUtc(events, offsets, |events|))
  {
    fold := new Fold(oldest);
    for i := 0 to |events|
      invariant fold.View() == Folded(oldest, InUtc(events, offsets, i))
    {
      InUtcGrows(oldest, events, offsets, i);
      if !events[i].kind.Anchor? {
        fold.FeedEvent(events[i].kind, events[i].local - offsets[i]);
      }
    }
  }

  /** The offsets of the rule. */
  function Offsets(events: seq<Event>, fallback: int): seq<int> {
    seq(|events|, i requires 0 <= i < |events| => LogOffsets.Rule(events, fallback, i))
  }

  // ----- the files -----

  const QUARTER_HOUR := 900_000_000

  /** The multiple of `n` nearest to `a`, divided by `n`; of two, the even one. */
  function Nearest(a: int, n: int): int
    requires n > 0
  {
    var q, r := a / n, a % n;
    if 2 * r < n || (2 * r == n && q % 2 == 0) then q else q + 1
  }

  /** A local-minus-UTC difference rounded to 15 minutes; none beyond 14 hours. */
  function RoundOffset(delta: int): Option<int> {
    var quarters := Nearest(delta, QUARTER_HOUR);
    if quarters > 14 * 4 || quarters < -14 * 4 then None else Some(QUARTER_HOUR * quarters)
  }

  /** `offset` is the multiple of 15 minutes nearest to `delta`; halfway between two, the even one. */
  ghost predicate IsNearestQuarter(delta: int, offset: int) {
    && offset % 900_000_000 == 0
    && -900_000_000 <= 2 * (delta - offset) <= 900_000_000
    && (2 * (delta - offset) == 900_000_000 || 2 * (offset - delta) == 900_000_000 ==> offset / 900_000_000 % 2 == 0)
  }

  /** `delta` is over 14 hours and seven and a half minutes. */
  ghost predicate IsTooFar(delta: int) {
    delta > 50_850_000_000 || delta < -50_850_000_000
  }

  /** An offset is the nearest multiple of 15 minutes, and there is none exactly beyond the last one at 14 hours. */
  lemma RoundedIsNearest(delta: int)
    ensures RoundOffset(delta).None? <==> IsTooFar(delta)
    ensures RoundOffset(delta).Some? ==> IsNearestQuarter(delta, RoundOffset(delta).value)
  {
    var q, r := delta / QUARTER_HOUR, delta % QUARTER_HOUR;
    assert delta == q * QUARTER_HOUR + r && 0 <= r < QUARTER_HOUR;
  }

  lemma NearestQuarterOnce(delta: int, a: int, b: int)
    requires IsNearestQuarter(delta, a) && IsNearestQuarter(delta, b)
    ensures a == b
  {
    var p, q := a / 900_000_000, b / 900_000_000;
    assert a == 900_000_000 * p && b == 900_000_000 * q;
  }

  function AllEvents(files: seq<LogFile>): seq<Event> {
    if files == [] then [] else AllEvents(files[..|files| - 1]) + files[|files| - 1].events
  }

  /** What one file's last line and modification time say. */
  function Estimate(file: LogFile): int {
    if file.lastLine.None? || file.mtime.None? then 0
    else
      var rounded := RoundOffset(file.lastLine.value - file.mtime.value);
      if rounded.Some? then rounded.value else 0
  }

  /** The offset to use without any anchor: that of the newest file with a line; the files are oldest first. */
  function Fallback(files: seq<LogFile>): int {
    if files == [] then 0
    else if files[|files| - 1].lastLine.Some? then Estimate(files[|files| - 1])
    else Fallback(files[..|files| - 1])
  }

  /** The local time of the first line of all. */
  function FirstLine(files: seq<LogFile>): Option<int> {
    if files == [] then None
    else if files[0].firstLine.Some? then files[0].firstLine
    else FirstLine(files[1..])
  }

  /** The UTC time of the log's first line, whose local time is `firstLine`. */
  function Oldest(events: seq<Event>, fallback: int, firstLine: Option<int>): Option<int> {
    if firstLine.None? then None
    else Some(firstLine.value - if events == [] then fallback else LogOffsets.Rule(events, fallback, 0))
  }

  lemma {:induction false} FallbackIsTheNewestLine(files: seq<LogFile>, k: nat)
    requires k < |files| && files[k].lastLine.Some? && forall j | k < j < |files| :: files[j].lastLine.None?
    ensures Fallback(files) == Estimate(files[k])
  {
    if k < |files| - 1 { FallbackIsTheNewestLine(files[..|files| - 1], k); }
  }

  // ----- in which order the files' events are folded, and at which times -----

  /** Where the events of file `i` begin: as many as the files before it hold. */
  ghost function StartOf(files: seq<LogFile>, i: nat): nat
    requires i <= |files|
  {
    if i == 0 then 0 else StartOf(files, i - 1) + |files[i - 1].events|
  }

  ghost predicate EventStandsAt(files: seq<LogFile>, events: seq<Event>, i: nat, n: nat)
    requires i < |files| && n < |files[i].events|
  {
    StartOf(files, i) + n < |events| && events[StartOf(files, i) + n] == files[i].events[n]
  }

  /** Event `n` of file `i` comes after its `n` predecessors and all events of earlier files; there are no others. */
  ghost predicate InFileOrder(files: seq<LogFile>, events: seq<Event>) {
    && |events| == StartOf(files, |files|)
    && forall i: nat, n: nat | i < |files| && n < |files[i].events| :: EventStandsAt(files, events, i, n)
  }

  lemma {:induction false} StartsOfPrefix(files: seq<LogFile>, k: nat, i: nat)
    requires i <= k <= |files|
    ensures StartOf(files[..k], i) == StartOf(files, i)
  {
    if i > 0 { StartsOfPrefix(files, k, i - 1); }
  }

  /** Every event of a file comes before every event of a later file. */
  lemma {:induction false} EarlierFilesComeFirst(files: seq<LogFile>, i: nat, k: nat)
    requires i < k <= |files|
    ensures StartOf(files, i) + |files[i].events| <= StartOf(files, k)
  {
    if i < k - 1 { EarlierFilesComeFirst(files, i, k - 1); }
  }

  /** Every position belongs to an event of some file. */
  lemma {:induction false} FileOf(files: seq<LogFile>, k: nat, p: nat) returns (i: nat, n: nat)
    requires k <= |files| && p < StartOf(files, k)
    ensures i < |files| && n < |files[i].events| && p == StartOf(files, i) + n
  {
    if p >= StartOf(files, k - 1) {
      i, n := k - 1, p - StartOf(files, k - 1);
    } else {
      i, n := FileOf(files, k - 1, p);
    }
  }

  lemma FileOrderOnce(files: seq<LogFile>, a: seq<Event>, b: seq<Event>)
    requires InFileOrder(files, a) && InFileOrder(files, b)
    ensures a == b
  {
    forall p: nat | p < |a| ensures a[p] == b[p] {
      var i, n := FileOf(files, |files|, p);
      assert EventStandsAt(files, a, i, n) && EventStandsAt(files, b, i, n);
    }
  }

  /** The events of all files stand in the order of the files, each file's in its own; none is added or lost. */
  lemma {:induction false} EventsStandInFileOrder(files: seq<LogFile>)
    ensures InFileOrder(files, AllEvents(files))
  {
    if files != [] {
      var last, rest := |files| - 1, files[..|files| - 1];
      EventsStandInFileOrder(rest);
      StartsOfPrefix(files, last, last);
      forall i: nat, n: nat | i < |files| && n < |files[i].events|
        ensures EventStandsAt(files, AllEvents(files), i, n)
      {
        StartsOfPrefix(files, last, if i < last then i else last);
        if i < last { assert EventStandsAt(rest, AllEvents(rest), i, n); }
      }
    }
  }

  /** File `k` has a first line and no file before it has one. */
  ghost predicate HasFirstLine(files: seq<LogFile>, k: nat) {
    k < |files| && files[k].firstLine.Some? && forall j: nat | j < k :: files[j].firstLine.None?
  }

  /** The first line of all is that of the first file that has one. */
  lemma {:induction false} FirstLineExactlyWhen(files: seq<LogFile>, at: int)
    ensures FirstLine(files) == Some(at) <==> exists k: nat :: HasFirstLine(files, k) && files[k].firstLine == Some(at)
  {
    if files != [] {
      FirstLineExactlyWhen(files[1..], at);
      if files[0].firstLine.Some? {
        assert HasFirstLine(files, 0);
      } else {
        forall k: nat ensures HasFirstLine(files, k + 1) <==> HasFirstLine(files[1..], k) {
          LaterFirstLine(files, k);
        }
        if k: nat :| HasFirstLine(files[1..], k) && files[1..][k].firstLine == Some(at) {
          assert HasFirstLine(files, k + 1);
        }
        if k: nat :| HasFirstLine(files, k) && files[k].firstLine == Some(at) {
          assert HasFirstLine(files[1..], k - 1) by { LaterFirstLine(files, k - 1); }
        }
      }
    }
  }

  lemma LaterFirstLine(files: seq<LogFile>, k: nat)
    requires files != [] && files[0].firstLine.None?
    ensures HasFirstLine(files, k + 1) <==> HasFirstLine(files[1..], k)
  {
    assert forall j | 0 <= j < |files| - 1 :: files[1..][j] == files[j + 1];
  }

  /** What one file's last line and modification time say: the nearest quarter hour, or 0 without one or too far off. */
  ghost predicate IsEstimate(file: LogFile, offset: int)
    requires file.lastLine.Some?
  {
    if file.mtime.None? || IsTooFar(file.lastLine.value - file.mtime.value) then offset == 0
    else IsNearestQuarter(file.lastLine.value - file.mtime.value, offset)
  }

  /** File `k` is the newest that has a line. */
  ghost predicate HasLastLine(files: seq<LogFile>, k: nat) {
    k < |files| && files[k].lastLine.Some? && forall j | k < j < |files| :: files[j].lastLine.None?
  }

  /** The fallback offset is what the newest file with a line says, or 0. */
  ghost predicate IsFallback(files: seq<LogFile>, offset: int) {
    if exists k: nat :: HasLastLine(files, k) then forall k: nat | HasLastLine(files, k) :: IsEstimate(files[k], offset)
    else offset == 0
  }

  lemma EstimateExactlyWhen(file: LogFile, offset: int)
    requires file.lastLine.Some?
    ensures Estimate(file) == offset <==> IsEstimate(file, offset)
  {
    if file.mtime.Some? {
      var delta := file.lastLine.value - file.mtime.value;
      RoundedIsNearest(delta);
      if !IsTooFar(delta) && IsNearestQuarter(delta, offset) { NearestQuarterOnce(delta, offset, Estimate(file)); }
    }
  }

  lemma {:induction false} NoLastLine(files: seq<LogFile>)
    requires !exists k: nat :: HasLastLine(files, k)
    ensures forall j | 0 <= j < |files| :: files[j].lastLine.None?
    ensures Fallback(files) == 0
  {
    if files != [] {
      var last, rest := |files| - 1, files[..|files| - 1];
      assert !HasLastLine(files, last);
      forall k: nat ensures !HasLastLine(rest, k) {
        if HasLastLine(rest, k) { assert HasLastLine(files, k); }
      }
      NoLastLine(rest);
      assert forall j | 0 <= j < last :: files[j] == rest[j];
    }
  }

  lemma {:induction false} FallbackExactlyWhen(files: seq<LogFile>, offset: int)
    ensures Fallback(files) == offset <==> IsFallback(files, offset)
  {
    if k: nat :| HasLastLine(files, k) {
      FallbackIsTheNewestLine(files, k);
      EstimateExactlyWhen(files[k], offset);
      assert forall j: nat | HasLastLine(files, j) :: j == k;
    } else {
      NoLastLine(files);
    }
  }

  /**
   A clock that runs a whole number of quarter hours ahead of UTC, or behind, is found from one file alone
   if its last line was written less than seven and a half minutes before or after the file's modification time.
   */
  lemma EstimateFindsTheZone(file: LogFile, quarters: int)
    requires -56 <= quarters <= 56 && file.lastLine.Some? && file.mtime.Some?
    requires -450_000_000 < file.lastLine.value - quarters * 900_000_000 - file.mtime.value < 450_000_000
    ensures Estimate(file) == quarters * 900_000_000
  {
    EstimateExactlyWhen(file, quarters * 900_000_000);
  }

  /** How many of the first `n` events are not anchors. */
  ghost function Folding(events: seq<Event>, n: nat): nat
    requires n <= |events|
  {
    if n == 0 then 0 else Folding(events, n - 1) + if events[n - 1].kind.Anchor? then 0 else 1
  }

  ghost predicate FoldedAs(events: seq<Event>, offsets: seq<int>, fed: seq<Fed>, n: nat)
    requires n < |events| == |offsets|
  {
    && Folding(events, n) < |fed|
    && fed[Folding(events, n)] == Fed(events[n].local - offsets[n], events[n].kind)
  }

  /** Each event but the anchors is folded in its turn, at its local time less its offset, and nothing else is. */
  ghost predicate IsInUtc(events: seq<Event>, offsets: seq<int>, fed: seq<Fed>) {
    && |offsets| == |events| && |fed| == Folding(events, |events|)
    && forall n: nat | n < |events| && !events[n].kind.Anchor? :: FoldedAs(events, offsets, fed, n)
  }

  lemma {:induction false} EventOf(events: seq<Event>, n: nat, p: nat) returns (m: nat)
    requires n <= |events| && p < Folding(events, n)
    ensures m < |events| && !events[m].kind.Anchor? && Folding(events, m) == p
  {
    if p >= Folding(events, n - 1) {
      m := n - 1;
    } else {
      m := EventOf(events, n - 1, p);
    }
  }

  lemma InUtcOnce(events: seq<Event>, offsets: seq<int>, a: seq<Fed>, b: seq<Fed>)
    requires IsInUtc(events, offsets, a) && IsInUtc(events, offsets, b)
    ensures a == b
  {
    forall p: nat | p < |a| ensures a[p] == b[p] {
      var m := EventOf(events, |events|, p);
      assert FoldedAs(events, offsets, a, m) && FoldedAs(events, offsets, b, m);
    }
  }

  lemma FoldedAsGrows(events: seq<Event>, offsets: seq<int>, fed: seq<Fed>, more: seq<Fed>, m: nat)
    requires m < |events| == |offsets| && FoldedAs(events, offsets, fed, m)
    ensures FoldedAs(events, offsets, fed + more, m)
  {
  }

  lemma {:induction false} InUtcStep(events: seq<Event>, offsets: seq<int>, fed: seq<Fed>, m: nat)
    requires m < |events| == |offsets| && |fed| == Folding(events, m)
    ensures FoldedAs(events, offsets, fed + [Fed(events[m].local - offsets[m], events[m].kind)], m)
  {
  }

  lemma {:induction false} InUtcSoFar(events: seq<Event>, offsets: seq<int>, n: nat, m: nat)
    requires n <= |events| == |offsets|
    ensures |InUtc(events, offsets, n)| == Folding(events, n)
    ensures m < n && !events[m].kind.Anchor? ==> FoldedAs(events, offsets, InUtc(events, offsets, n), m)
  {
    if n > 0 {
      InUtcSoFar(events, offsets, n - 1, m);
      var fed, e := InUtc(events, offsets, n - 1), events[n - 1];
      if m < n - 1 && !events[m].kind.Anchor? {
        FoldedAsGrows(events, offsets, fed, if e.kind.Anchor? then [] else [Fed(e.local - offsets[n - 1], e.kind)], m);
      } else {
        InUtcStep(events, offsets, fed, n - 1);
      }
    }
  }

  lemma {:induction false} InUtcIsInUtc(events: seq<Event>, offsets: seq<int>)
    requires |events| == |offsets|
    ensures IsInUtc(events, offsets, InUtc(events, offsets, |events|))
  {
    var fed := InUtc(events, offsets, |events|);
    InUtcSoFar(events, offsets, |events|, 0);
    forall m: nat | m < |events| && !events[m].kind.Anchor? ensures FoldedAs(events, offsets, fed, m) {
      InUtcSoFar(events, offsets, |events|, m);
    }
  }

  /** The UTC time of the log's first line: its local time less the offset of the first event, or the fallback. */
  ghost predicate IsOldest(files: seq<LogFile>, offsets: seq<int>, fallback: int, oldest: Option<int>) {
    if exists k: nat :: HasFirstLine(files, k) then
      exists k: nat :: HasFirstLine(files, k) &&
        oldest == Some(files[k].firstLine.value - if offsets == [] then fallback else offsets[0])
    else oldest.None?
  }

  lemma {:induction false} OldestIsOldest(files: seq<LogFile>, events: seq<Event>, fallback: int)
    ensures IsOldest(files, Offsets(events, fallback), fallback, Oldest(events, fallback, FirstLine(files)))
  {
    if k: nat :| HasFirstLine(files, k) {
      FirstLineExactlyWhen(files, files[k].firstLine.value);
    } else if FirstLine(files).Some? {
      FirstLineExactlyWhen(files, FirstLine(files).value);
    }
  }

  lemma {:induction false} OldestOnce(files: seq<LogFile>, events: seq<Event>, fallback: int, oldest: Option<int>)
    requires IsOldest(files, Offsets(events, fallback), fallback, oldest)
    ensures Oldest(events, fallback, FirstLine(files)) == oldest
  {
    OldestIsOldest(files, events, fallback);
    assert forall j: nat, k: nat | HasFirstLine(files, j) && HasFirstLine(files, k) :: j == k;
  }

  /** The offsets are those of the rule, event by event. */
  ghost predicate AreOffsets(events: seq<Event>, fallback: int, offsets: seq<int>) {
    |offsets| == |events| && forall n: nat | n < |events| :: offsets[n] == LogOffsets.Rule(events, fallback, n)
  }

  /** The loop over the files, newest first, for the fallback offset. */
  method FindFallback(files: seq<LogFile>) returns (fallback: int)
    ensures fallback == Fallback(files)
  {
    fallback := 0;
    var k := |files|;
    assert files[..k] == files;
    while k > 0
      invariant 0 <= k <= |files| && fallback == 0 && Fallback(files) == Fallback(files[..k])
    {
      k := k - 1;
      assert files[..k + 1][..k] == files[..k];
      var file := files[k];
      if file.lastLine.Some? {
        if file.mtime.Some? {
          var estimate := RoundOffset(file.lastLine.value - file.mtime.value);
          fallback := if estimate.None? then 0 else estimate.value;
        }
        return;
      }
    }
  }

  /** Resolves the offsets and folds the events. */
  method FoldEvents(events: seq<Event>, fallback: int, firstLine: Option<int>) returns (fold: Fold)
    ensures fold.View()
         == Folded(Oldest(events, fallback, firstLine), InUtc(events, Offsets(events, fallback), |events|))
  {
    var offsets := LogOffsets.ResolveOffsets(events, fallback);
    assert offsets == Offsets(events, fallback);
    var oldest: Option<int> := None;
    if firstLine.Some? {
      oldest := Some(firstLine.value - if offsets == [] then fallback else offsets[0]);
    }
    fold := FeedAll(events, offsets, oldest);
  }

  /** The state that folding these files, oldest first, leads to. */
  function FoldedFiles(files: seq<LogFile>): State {
    var events, fallback := AllEvents(files), Fallback(files);
    Folded(Oldest(events, fallback, FirstLine(files)), InUtc(events, Offsets(events, fallback), |events|))
  }

  /**
   What folding files means: their events in the order of the files, each but the anchors at its local time less
   the offset of the rule, on counters that begin at the log's first line; without anchors the offset is that of
   the newest file with a line.
   */
  ghost predicate FoldsTo(files: seq<LogFile>, events: seq<Event>, fallback: int, offsets: seq<int>, fed: seq<Fed>,
                          oldest: Option<int>)
  {
    && InFileOrder(files, events) && IsFallback(files, fallback) && AreOffsets(events, fallback, offsets)
    && IsInUtc(events, offsets, fed) && IsOldest(files, offsets, fallback, oldest)
  }

  /** The state of the files is that of exactly one such fold. */
  lemma FilesAreFoldedInOrder(files: seq<LogFile>)
    returns (events: seq<Event>, fallback: int, offsets: seq<int>, fed: seq<Fed>, oldest: Option<int>)
    ensures FoldsTo(files, events, fallback, offsets, fed, oldest) && FoldedFiles(files) == Folded(oldest, fed)
  {
    events, fallback := AllEvents(files), Fallback(files);
    offsets := Offsets(events, fallback);
    fed, oldest := InUtc(events, offsets, |events|), Oldest(events, fallback, FirstLine(files));
    EventsStandInFileOrder(files);
    FallbackExactlyWhen(files, fallback);
    InUtcIsInUtc(events, offsets);
    OldestIsOldest(files, events, fallback);
  }

  lemma {:induction false} FilesAreFoldedOneWay(files: seq<LogFile>, events: seq<Event>, fallback: int,
                                                offsets: seq<int>, fed: seq<Fed>, oldest: Option<int>)
    requires FoldsTo(files, events, fallback, offsets, fed, oldest)
    ensures FoldedFiles(files) == Folded(oldest, fed)
  {
    EventsStandInFileOrder(files);
    FileOrderOnce(files, events, AllEvents(files));
    FallbackExactlyWhen(files, fallback);
    assert offsets == Offsets(events, fallback);
    OldestOnce(files, events, fallback, oldest);
    InUtcIsInUtc(events, offsets);
    InUtcOnce(events, offsets, fed, InUtc(events, offsets, |events|));
  }

  method FoldFiles(files: seq<LogFile>) returns (fold: Fold)
    ensures fold.View() == FoldedFiles(files)
  {
    var fallback := FindFallback(files);
    fold := FoldEvents(AllEvents(files), fallback, FirstLine(files));
  }
}
