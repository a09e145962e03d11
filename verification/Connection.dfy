/**
 The gateway connection as a state machine. One step is the code between two awaits of the
 supervisor, or one event handler; times are in milliseconds.
 */
module Connection {
  import opened Wrappers
  import opened Accounts
  import opened Texts

  datatype State = Down | Connecting | Connected | ConnectivityLost | NotAccepting

  /** Where the supervisor waits. */
  datatype Stage = Idle | Ready | Attempting | Syncing | Fetching | Watching | Sleeping | Cancelled

  datatype Block = NoWriteToolset | NoAccounts | LiveAccounts | NoAllowedAccount

  /** The connection: the socket, the session's state and what the supervisor waits for. */
  datatype Wire = Wire(state: State, stage: Stage, socketUp: bool, dropped: bool, stopping: bool, linkDown: Option<int>)

  datatype Trade = Trade(apiReadOnly: bool, scope: Scope, allowed: bool, block: Option<Block>)

  datatype Past = Past(lastDisconnectAt: Option<int>, startedAt: Option<int>, session: nat)

  datatype Conn = Conn(wire: Wire, trade: Trade, past: Past)

  const INITIAL := Conn(Wire(Down, Idle, false, false, false, None), Trade(false, UNKNOWN_SCOPE, false, None),
                        Past(None, None, 0))

  predicate IsUp(state: State) {
    state.Connected? || state.ConnectivityLost?
  }

  /** The API session is up (even if IBKR connectivity is degraded). */
  predicate IsConnected(w: Wire) {
    IsUp(w.state) && w.socketUp
  }

  // ----- the trading gate -----

  function Verdict(settings: Settings, scope: Scope): (bool, Option<Block>) {
    if !settings.needsWrite then (false, Some(NoWriteToolset))
    else if scope.managed == [] then (false, Some(NoAccounts))
    else if LiveInScope(scope) != {} && !settings.allowLive then (false, Some(LiveAccounts))
    else if scope.allowed == {} then (false, Some(NoAllowedAccount))
    else (true, None)
  }

  datatype Gate = Open | SessionDown | OrderToolsOff | NothingAllowed | LiveDisabled | ApiReadOnly

  function RequireTrading(settings: Settings, c: Conn): Gate {
    if !IsConnected(c.wire) then SessionDown
    else if !settings.needsWrite then OrderToolsOff
    else if !c.trade.allowed then if c.trade.block == Some(NoAllowedAccount) then NothingAllowed else LiveDisabled
    else if c.trade.apiReadOnly then ApiReadOnly
    else Open
  }

  // ----- the steps -----

  predicate LostCode(code: int) {
    code == 1100 || code == 2110
  }

  predicate RestoredCode(code: int) {
    code == 1101 || code == 1102
  }

  predicate FarmOkCode(code: int) {
    code == 2104 || code == 2106 || code == 2158
  }

  const LINK_DOWN_WITHOUT_RESTORE := 2110

  datatype Step =
    | Start(now: int)
    | Begin
    | SocketOpens
    | AttemptFails(unexpected: bool, now: int)
    | Report(accounts: seq<Account>, now: int)
    | SetupFails(cleared: bool, refreshed: Option<seq<Account>>, now: int)
    | OrdersSynced(now: int)
    | ExecutionsFetched(now: int)
    | Wake
    | Drop(now: int)
    | Notice(code: int)
    | ReadOnlyNotice
    | Unusable(now: int)
    | ForceReconnect(now: int)
    | StopAsked
    | StopDone(now: int)

  predicate ReadOnlySession(settings: Settings) {
    !(settings.needsWrite && settings.allowLive)
  }

  predicate Enabled(w: Wire, step: Step) {
    match step
    case Start(_) => w.stage.Idle?
    case Begin => w.stage.Ready? || w.stage.Sleeping?
    case SocketOpens => w.stage.Attempting? && !w.socketUp && !w.dropped
    case AttemptFails(_, _) => w.stage.Attempting?
    case Report(_, _) => w.stage.Attempting? && (w.socketUp || w.dropped)
    case SetupFails(cleared, refreshed, _) =>
      || (w.stage.Attempting? && w.socketUp && (refreshed.Some? ==> cleared))
      || ((w.stage.Syncing? || w.stage.Fetching?) && !cleared && refreshed.None?)
    case OrdersSynced(_) => w.stage.Syncing?
    case ExecutionsFetched(_) => w.stage.Fetching?
    case Wake => w.stage.Watching? && w.dropped
    case Drop(_) => w.socketUp
    case Notice(code) => LostCode(code) || RestoredCode(code) || FarmOkCode(code)
    case StopDone(_) => w.stage.Cancelled?
    case _ => true
  }

  function Finish(w: Wire): Wire {
    w.(state := if w.linkDown.Some? then ConnectivityLost else Connected, stage := Watching)
  }

  /** The first part of a session's setup; a read-only session then loads orders and executions. */
  function SetUp(w: Wire, allowed: bool, readOnly: bool): Wire {
    if allowed && readOnly then w.(stage := Syncing)
    else if readOnly then w.(stage := Fetching)
    else Finish(w)
  }

  function OnNotice(w: Wire, code: int): Wire {
    if LostCode(code) then
      w.(linkDown := Some(code), state := if IsConnected(w) then ConnectivityLost else w.state)
    else if FarmOkCode(code) && w.linkDown != Some(LINK_DOWN_WITHOUT_RESTORE) then w
    else w.(linkDown := None, state := if w.state.ConnectivityLost? then Connected else w.state)
  }

  function Closed(w: Wire, state: State, stage: Stage): Wire {
    w.(socketUp := false, dropped := w.dropped || w.socketUp, state := state, stage := stage)
  }

  function WireStep(settings: Settings, w: Wire, step: Step): Wire {
    match step
    case Start(_) => w.(stopping := false, state := Connecting, stage := Ready)
    case Begin => w.(state := Connecting, linkDown := None, dropped := false, stage := Attempting)
    case SocketOpens => w.(socketUp := true)
    case AttemptFails(unexpected, _) => Closed(w, if unexpected then Down else NotAccepting, Sleeping)
    case Report(accounts, _) =>
      if w.dropped then w.(state := Down, stage := Watching)
      else SetUp(w, Verdict(settings, Refreshed(settings, accounts)).0, ReadOnlySession(settings))
    case SetupFails(_, _, _) => Closed(w, Down, Sleeping)
    case OrdersSynced(_) => if w.dropped then w.(state := Down, stage := Watching) else w.(stage := Fetching)
    case ExecutionsFetched(_) => if w.dropped then w.(state := Down, stage := Watching) else Finish(w)
    case Wake => w.(stage := Sleeping)
    case Drop(_) =>
      w.(socketUp := false, dropped := true, state := if w.stopping || w.state.Connecting? then w.state else Down)
    case Notice(code) => OnNotice(w, code)
    case ReadOnlyNotice => w
    case Unusable(_) => if w.socketUp then w else w.(state := Down)
    case ForceReconnect(_) =>
      if w.stopping || !w.socketUp then w else w.(socketUp := false, dropped := true, state := Down)
    case StopAsked => w.(stopping := true, stage := Cancelled)
    case StopDone(_) => Closed(w, Down, Idle)
  }

  /** The account scope and the gate's verdict change only in a session's setup. */
  function TradeStep(settings: Settings, w: Wire, t: Trade, step: Step): Trade {
    match step
    case Report(accounts, _) =>
      if w.dropped then t
      else
        var scope := Refreshed(settings, accounts);
        Trade(false, scope, Verdict(settings, scope).0, Verdict(settings, scope).1)
    case SetupFails(cleared, refreshed, _) =>
      t.(apiReadOnly := t.apiReadOnly && !cleared,
         scope := if refreshed.Some? then Refreshed(settings, refreshed.value) else t.scope)
    case ReadOnlyNotice => t.(apiReadOnly := true)
    case _ => t
  }

  /** When the step marks the connection as down: the time it happens. */
  function Marks(w: Wire, step: Step): Option<int> {
    match step
    case AttemptFails(_, now) => Some(now)
    case Report(_, now) => if w.dropped then Some(now) else None
    case SetupFails(_, _, now) => Some(now)
    case OrdersSynced(now) => if w.dropped then Some(now) else None
    case ExecutionsFetched(now) => if w.dropped then Some(now) else None
    case Drop(now) => if w.stopping || w.state.Connecting? then None else Some(now)
    case Unusable(now) => if w.socketUp then None else Some(now)
    case ForceReconnect(now) => if w.stopping || !w.socketUp then None else Some(now)
    case StopDone(now) => Some(now)
    case _ => None
  }

  function PastStep(w: Wire, p: Past, step: Step): Past {
    var marked := Marks(w, step);
    Past(if marked.None? then p.lastDisconnectAt
         else if IsUp(w.state) then marked
         else if p.lastDisconnectAt.None? && !w.stopping then p.startedAt
         else p.lastDisconnectAt,
         if step.Start? && p.lastDisconnectAt.None? then Some(step.now) else p.startedAt,
         if step.Begin? then p.session + 1 else p.session)
  }

  function Apply(settings: Settings, c: Conn, step: Step): Conn {
    Conn(WireStep(settings, c.wire, step), TradeStep(settings, c.wire, c.trade, step),
         PastStep(c.wire, c.past, step))
  }

  function After(settings: Settings, steps: seq<Step>): Conn {
    if steps == [] then INITIAL else Apply(settings, After(settings, steps[..|steps| - 1]), steps[|steps| - 1])
  }

  ghost predicate IsRun(settings: Settings, steps: seq<Step>) {
    forall k | 0 <= k < |steps| :: Enabled(After(settings, steps[..k]).wire, steps[k])
  }

  lemma {:induction false} RunShrinks(settings: Settings, steps: seq<Step>)
    requires IsRun(settings, steps) && steps != []
    ensures IsRun(settings, steps[..|steps| - 1])
    ensures Enabled(After(settings, steps[..|steps| - 1]).wire, steps[|steps| - 1])
  {
    var rest := steps[..|steps| - 1];
    forall k | 0 <= k < |rest| ensures Enabled(After(settings, rest[..k]).wire, rest[k]) {
      assert rest[..k] == steps[..k];
    }
  }

  // ----- what every step keeps -----

  ghost predicate Inv(w: Wire) {
    && (w.socketUp ==> !w.dropped && !w.stage.Idle? && !w.stage.Ready? && !w.stage.Sleeping?)
    && (IsUp(w.state) ==> w.stage.Watching? || w.stage.Cancelled?)
    && (IsUp(w.state) && !w.stopping ==> w.socketUp)
    && (w.stage.Watching? && !w.dropped ==> IsUp(w.state))
    && ((w.stage.Syncing? || w.stage.Fetching?) && !w.dropped ==> w.socketUp)
    && (w.stopping ==> w.stage.Cancelled? || w.stage.Idle?)
    && (w.stage.Cancelled? ==> w.stopping)
    && (IsConnected(w) ==> (w.state.ConnectivityLost? <==> w.linkDown.Some?))
  }

  lemma StepKeepsInv(settings: Settings, w: Wire, step: Step)
    requires Inv(w) && Enabled(w, step)
    ensures Inv(WireStep(settings, w, step))
  {
    if step.Report? && !w.dropped {
      SetUpKeepsInv(w, Verdict(settings, Refreshed(settings, step.accounts)).0, ReadOnlySession(settings));
    } else if step.Notice? {
      NoticeKeepsInv(w, step.code);
    }
  }

  lemma SetUpKeepsInv(w: Wire, allowed: bool, readOnly: bool)
    requires Inv(w) && w.stage.Attempting? && w.socketUp
    ensures Inv(SetUp(w, allowed, readOnly))
  {
  }

  lemma NoticeKeepsInv(w: Wire, code: int)
    requires Inv(w)
    ensures Inv(OnNotice(w, code))
  {
  }

  lemma {:induction false} EveryRunKeepsInv(settings: Settings, steps: seq<Step>)
    requires IsRun(settings, steps)
    ensures Inv(After(settings, steps).wire)
  {
    if steps != [] {
      RunShrinks(settings, steps);
      EveryRunKeepsInv(settings, steps[..|steps| - 1]);
      StepKeepsInv(settings, After(settings, steps[..|steps| - 1]).wire, steps[|steps| - 1]);
    }
  }

  lemma {:induction false} RunGrows(settings: Settings, steps: seq<Step>, step: Step)
    requires IsRun(settings, steps) && Enabled(After(settings, steps).wire, step)
    ensures IsRun(settings, steps + [step])
    ensures After(settings, steps + [step]) == Apply(settings, After(settings, steps), step)
  {
    var more := steps + [step];
    assert more[..|steps|] == steps;
    forall k | 0 <= k < |more| ensures Enabled(After(settings, more[..k]).wire, more[k]) {
      if k < |steps| { assert more[..k] == steps[..k]; }
    }
  }

  // ----- the session's report and the trading gate -----

  /** The position of the report of the latest attempt, if the attempt made one. */
  function ReportOf(steps: seq<Step>): (r: Option<nat>)
    ensures r.Some? ==> r.value < |steps| && steps[r.value].Report?
  {
    if steps == [] then None
    else
      match steps[|steps| - 1]
      case Begin => None
      case Report(_, _) => Some(|steps| - 1)
      case _ => ReportOf(steps[..|steps| - 1])
  }

  /** Position `r` is a report after which no attempt began and nothing was reported. */
  ghost predicate ReportAt(steps: seq<Step>, r: int) {
    0 <= r < |steps| && steps[r].Report? && forall j | r < j < |steps| :: !steps[j].Begin? && !steps[j].Report?
  }

  lemma {:induction false} ReportIsDeclared(steps: seq<Step>, r: nat)
    ensures ReportOf(steps) == Some(r) <==> ReportAt(steps, r)
  {
    if steps != [] {
      var rest := steps[..|steps| - 1];
      ReportIsDeclared(rest, r);
      assert forall j | 0 <= j < |rest| :: rest[j] == steps[j];
    }
  }

  /** The API refused orders as read-only at a position after `from`. */
  ghost predicate RefusedAfter(steps: seq<Step>, from: int) {
    exists k :: from < k < |steps| && 0 <= k && steps[k].ReadOnlyNotice?
  }

  lemma RefusedAfterGrows(steps: seq<Step>, step: Step, from: int)
    requires 0 <= from < |steps|
    ensures RefusedAfter(steps + [step], from) <==> RefusedAfter(steps, from) || step.ReadOnlyNotice?
  {
    var more := steps + [step];
    assert more[|steps|] == step;
    if RefusedAfter(steps, from) {
      var k :| from < k < |steps| && 0 <= k && steps[k].ReadOnlyNotice?;
      assert more[k].ReadOnlyNotice?;
    }
    if RefusedAfter(more, from) {
      var k :| from < k < |more| && 0 <= k && more[k].ReadOnlyNotice?;
      assert k < |steps| ==> steps[k].ReadOnlyNotice?;
    }
  }

  /** A session past the first part of its setup. */
  predicate IsSetUp(w: Wire) {
    IsUp(w.state) || w.stage.Syncing? || w.stage.Fetching?
  }

  /** Scope, verdict and read-only flag follow from the report at `r` and the notices after it. */
  ghost predicate SetBy(settings: Settings, steps: seq<Step>, t: Trade, r: nat) {
    && r < |steps| && steps[r].Report?
    && t.scope == Refreshed(settings, steps[r].accounts)
    && (t.allowed, t.block) == Verdict(settings, t.scope)
    && (t.apiReadOnly <==> RefusedAfter(steps, r))
  }

  lemma OtherStepsKeepSetup(settings: Settings, w: Wire, step: Step)
    requires Inv(w) && Enabled(w, step) && !step.Report?
    ensures IsSetUp(WireStep(settings, w, step)) ==> IsSetUp(w) && !step.Begin? && !step.SetupFails?
  {
    if step.Notice? { assert IsUp(OnNotice(w, step.code).state) ==> IsUp(w.state); }
  }

  lemma TradeStays(settings: Settings, w: Wire, t: Trade, step: Step)
    requires !step.Report? && !step.SetupFails?
    ensures TradeStep(settings, w, t, step) == t.(apiReadOnly := t.apiReadOnly || step.ReadOnlyNotice?)
  {
  }

  lemma SetByGrows(settings: Settings, steps: seq<Step>, step: Step, t: Trade, r: nat)
    requires SetBy(settings, steps, t, r)
    ensures SetBy(settings, steps + [step], t.(apiReadOnly := t.apiReadOnly || step.ReadOnlyNotice?), r)
  {
    RefusedAfterGrows(steps, step, r);
    assert (steps + [step])[r] == steps[r];
  }

  lemma SetByReport(settings: Settings, w: Wire, t: Trade, steps: seq<Step>, step: Step)
    requires step.Report? && !w.dropped
    ensures SetBy(settings, steps + [step], TradeStep(settings, w, t, step), |steps|)
  {
  }

  /** Once set up, a session follows the report of its own attempt, and the refusals since. */
  ghost predicate FollowsReport(settings: Settings, steps: seq<Step>, c: Conn) {
    IsSetUp(c.wire) ==> ReportOf(steps).Some? && SetBy(settings, steps, c.trade, ReportOf(steps).value)
  }

  lemma FollowsReportStep(settings: Settings, steps: seq<Step>, c: Conn, step: Step)
    requires Inv(c.wire) && Enabled(c.wire, step) && FollowsReport(settings, steps, c)
    ensures FollowsReport(settings, steps + [step], Apply(settings, c, step))
  {
    var more := steps + [step];
    assert more[..|steps|] == steps && more[|steps|] == step;
    if step.Report? {
      if !c.wire.dropped { SetByReport(settings, c.wire, c.trade, steps, step); }
    } else {
      OtherStepsKeepSetup(settings, c.wire, step);
      if IsSetUp(WireStep(settings, c.wire, step)) {
        TradeStays(settings, c.wire, c.trade, step);
        SetByGrows(settings, steps, step, c.trade, ReportOf(steps).value);
      }
    }
  }

  lemma {:induction false} RunFollowsReportStep(settings: Settings, steps: seq<Step>)
    requires steps != [] && Inv(After(settings, steps[..|steps| - 1]).wire)
    requires Enabled(After(settings, steps[..|steps| - 1]).wire, steps[|steps| - 1])
    requires FollowsReport(settings, steps[..|steps| - 1], After(settings, steps[..|steps| - 1]))
    ensures FollowsReport(settings, steps, After(settings, steps))
  {
    var rest, step := steps[..|steps| - 1], steps[|steps| - 1];
    assert steps == rest + [step];
    FollowsReportStep(settings, rest, After(settings, rest), step);
  }

  lemma {:induction false} EveryRunFollowsReport(settings: Settings, steps: seq<Step>)
    requires IsRun(settings, steps)
    ensures FollowsReport(settings, steps, After(settings, steps))
  {
    if steps == [] {
      assert !IsSetUp(INITIAL.wire);
    } else {
      RunShrinks(settings, steps);
      EveryRunKeepsInv(settings, steps[..|steps| - 1]);
      EveryRunFollowsReport(settings, steps[..|steps| - 1]);
      RunFollowsReportStep(settings, steps);
    }
  }

  /** A session that is set up follows the report of its own attempt, and the refusals since. */
  lemma {:induction false} SetUpFollowsItsReport(settings: Settings, steps: seq<Step>)
    requires IsRun(settings, steps) && IsSetUp(After(settings, steps).wire)
    ensures ReportOf(steps).Some? && SetBy(settings, steps, After(settings, steps).trade, ReportOf(steps).value)
  {
    EveryRunFollowsReport(settings, steps);
  }

  /** The settings and the login's accounts allow orders: on paper accounts only, unless live ones are allowed. */
  ghost predicate Allows(settings: Settings, scope: Scope) {
    settings.needsWrite && scope.allowed != {} && (settings.allowLive || forall a | a in scope.allowed :: NamedPaper(a))
  }

  /**
   The gate is open exactly when the session is up, orders are enabled, its login's own report allows
   an account with nothing live in scope unless that is allowed, and the API has refused no order as
   read-only since that report.
   */
  lemma {:induction false} GateExactlyWhen(settings: Settings, steps: seq<Step>)
    requires IsRun(settings, steps)
    ensures RequireTrading(settings, After(settings, steps)).Open? <==>
      && IsConnected(After(settings, steps).wire)
      && ReportOf(steps).Some?
      && Allows(settings, Refreshed(settings, steps[ReportOf(steps).value].accounts))
      && !RefusedAfter(steps, ReportOf(steps).value)
  {
    if IsConnected(After(settings, steps).wire) {
      SetUpFollowsItsReport(settings, steps);
      RefreshIsSound(settings, steps[ReportOf(steps).value].accounts);
      NothingLiveExactlyWhen(settings, steps[ReportOf(steps).value].accounts);
    }
  }

  /** The accounts that count are the allowed ones, or all when none is allowed. */
  ghost predicate Counts(scope: Scope, a: Account) {
    if scope.allowed != {} then a in scope.allowed else a in scope.managed
  }

  /** The login reported no account, or a live one counts although live trading is not allowed. */
  ghost predicate LiveBlocked(settings: Settings, scope: Scope) {
    || scope.managed == []
    || (!settings.allowLive && exists a :: !NamedPaper(a) && Counts(scope, a))
  }

  /** Which refusal a write gets, by the first of the conditions that is missing. */
  lemma {:induction false} RefusalsExactlyWhen(settings: Settings, steps: seq<Step>)
    requires IsRun(settings, steps)
    ensures var gate := RequireTrading(settings, After(settings, steps));
      && (gate.SessionDown? <==> !IsConnected(After(settings, steps).wire))
      && (gate.OrderToolsOff? <==> IsConnected(After(settings, steps).wire) && !settings.needsWrite)
      && (IsConnected(After(settings, steps).wire) && settings.needsWrite ==>
            && ReportOf(steps).Some?
            && var scope := Refreshed(settings, steps[ReportOf(steps).value].accounts);
            && (gate.LiveDisabled? <==> LiveBlocked(settings, scope))
            && (gate.NothingAllowed? <==> !LiveBlocked(settings, scope) && scope.allowed == {})
            && (gate.ApiReadOnly? <==> Allows(settings, scope) && RefusedAfter(steps, ReportOf(steps).value)))
  {
    if IsConnected(After(settings, steps).wire) {
      SetUpFollowsItsReport(settings, steps);
      ScopeRefusals(settings, steps[ReportOf(steps).value].accounts);
    }
  }

  lemma ScopeRefusals(settings: Settings, reported: seq<Account>)
    ensures var scope := Refreshed(settings, reported);
      && (settings.needsWrite ==>
            && (Verdict(settings, scope).1 in {Some(NoAccounts), Some(LiveAccounts)} <==> LiveBlocked(settings, scope))
            && (Verdict(settings, scope).1 == Some(NoAllowedAccount)
                <==> !LiveBlocked(settings, scope) && scope.allowed == {})
            && (Verdict(settings, scope).0 <==> Allows(settings, scope)))
      && (Verdict(settings, scope).0 <==> Verdict(settings, scope).1.None?)
      && (Verdict(settings, scope).1 == Some(NoWriteToolset) <==> !settings.needsWrite)
  {
    RefreshIsSound(settings, reported);
    NothingLiveExactlyWhen(settings, reported);
  }

  /** Position `b` is where the current session began. */
  ghost predicate BeganAt(steps: seq<Step>, b: int) {
    0 <= b < |steps| && steps[b].Begin? && forall j | b < j < |steps| :: !steps[j].Begin?
  }

  /**
   A refusal of this session does not always shut the gate. For an up session that otherwise may trade,
   the gate is open although the API refused orders since the session began exactly when every such
   refusal came before the session's report.
   */
  lemma {:induction false} RefusalsAreLostExactlyWhen(settings: Settings, steps: seq<Step>, b: nat)
    requires IsRun(settings, steps) && IsConnected(After(settings, steps).wire) && BeganAt(steps, b)
    ensures ReportOf(steps).Some? && b < ReportOf(steps).value
    ensures Allows(settings, Refreshed(settings, steps[ReportOf(steps).value].accounts)) ==>
      (RequireTrading(settings, After(settings, steps)).Open? <==>
        forall k | b < k < |steps| && steps[k].ReadOnlyNotice? :: k < ReportOf(steps).value)
  {
    SetUpFollowsItsReport(settings, steps);
    var r := ReportOf(steps).value;
    ReportIsDeclared(steps, r);
    GateExactlyWhen(settings, steps);
    NoneAfterMeansAllBefore(steps, b, r);
  }

  lemma NoneAfterMeansAllBefore(steps: seq<Step>, b: nat, r: nat)
    requires BeganAt(steps, b) && ReportAt(steps, r)
    ensures b < r
    ensures !RefusedAfter(steps, r) <==> forall k | b < k < |steps| && steps[k].ReadOnlyNotice? :: k < r
  {
    if RefusedAfter(steps, r) {
      var k :| r < k < |steps| && steps[k].ReadOnlyNotice?;
      assert b < k;
    }
  }

  /** A session of one configured login up to its report. */
  lemma BeginsAndOpens(settings: Settings) returns (steps: seq<Step>)
    ensures |steps| == 3 && steps[1].Begin? && steps[2].SocketOpens? && IsRun(settings, steps)
    ensures var c := After(settings, steps);
      c.wire == Wire(Connecting, Attempting, true, false, false, None) && !c.trade.apiReadOnly
  {
    RunGrows(settings, [], Start(0));
    RunGrows(settings, [] + [Start(0)], Begin);
    RunGrows(settings, [] + [Start(0)] + [Begin], SocketOpens);
    steps := [] + [Start(0)] + [Begin] + [SocketOpens];
  }

  lemma OneLiveAccount(settings: Settings)
    requires settings == Settings(None, [], true, true)
    ensures Allows(settings, Refreshed(settings, ["U1"]))
  {
    var name := "U1";
    assert StripLeft(name) == name && StripRight(name) == name;
    assert [name][..0] == [] && Managed([]) == [];
    assert Managed([name]) == [name];
    assert name in Refreshed(settings, [name]).allowed;
  }

  /** The gate is open in the session that began at `b`, although the API refused orders in it. */
  ghost predicate OpenThoughRefused(settings: Settings, steps: seq<Step>, b: int) {
    && IsRun(settings, steps) && BeganAt(steps, b) && RefusedAfter(steps, b)
    && RequireTrading(settings, After(settings, steps)).Open?
  }

  /** A report in a session just opened, under settings that load no orders, brings the session up. */
  lemma {:induction false} ReportComesUp(settings: Settings, steps: seq<Step>, report: Step)
    requires IsRun(settings, steps) && !ReadOnlySession(settings) && report.Report?
    requires After(settings, steps).wire == Wire(Connecting, Attempting, true, false, false, None)
    ensures IsRun(settings, steps + [report]) && IsConnected(After(settings, steps + [report]).wire)
    ensures ReportOf(steps + [report]) == Some(|steps|)
  {
    RunGrows(settings, steps, report);
    assert (steps + [report])[..|steps|] == steps;
  }

  lemma {:induction false} NoticeLeavesTheWire(settings: Settings, steps: seq<Step>)
    requires IsRun(settings, steps)
    ensures IsRun(settings, steps + [ReadOnlyNotice])
    ensures After(settings, steps + [ReadOnlyNotice]).wire == After(settings, steps).wire
  {
    RunGrows(settings, steps, ReadOnlyNotice);
  }

  lemma {:induction false} RefusedAtThree(settings: Settings, refused: seq<Step>, report: Step)
    requires |refused| == 4 && refused[1].Begin? && refused[2].SocketOpens? && refused[3].ReadOnlyNotice?
    requires report.Report?
    requires IsRun(settings, refused + [report]) && RequireTrading(settings, After(settings, refused + [report])).Open?
    ensures OpenThoughRefused(settings, refused + [report], 1)
  {
    var steps := refused + [report];
    assert steps[1] == refused[1] && steps[2] == refused[2] && steps[3] == refused[3];
  }

  /** Where settings and accounts allow orders in a session that loads none, a refusal can be lost. */
  lemma RefusalIsLost(settings: Settings, accounts: seq<Account>)
    requires !ReadOnlySession(settings) && Allows(settings, Refreshed(settings, accounts))
    ensures exists steps, b :: OpenThoughRefused(settings, steps, b)
  {
    var open := BeginsAndOpens(settings);
    NoticeLeavesTheWire(settings, open);
    var refused, report := open + [ReadOnlyNotice], Report(accounts, 1);
    ReportComesUp(settings, refused, report);
    GateExactlyWhen(settings, refused + [report]);
    RefusedAtThree(settings, refused, report);
  }

  /** A session refused during its connect, before its report, ends with the gate open. */
  lemma RefusalCanBeLost()
    ensures exists settings, steps, b :: OpenThoughRefused(settings, steps, b)
  {
    var settings := Settings(None, [], true, true);
    OneLiveAccount(settings);
    RefusalIsLost(settings, ["U1"]);
  }

  /**
   When the gate lets a write through without live trading being allowed, every account a call can
   act on is a paper account that the current session's login manages.
   */
  lemma {:induction false} OnlyPaperWithoutLive(settings: Settings, steps: seq<Step>, account: Option<string>)
    requires IsRun(settings, steps) && !settings.allowLive
    requires RequireTrading(settings, After(settings, steps)).Open?
    requires Resolve(After(settings, steps).trade.scope, account).Success?
    ensures ReportOf(steps).Some?
    ensures var a := Resolve(After(settings, steps).trade.scope, account).value;
      && a != "" && (a[0] == 'D' || a[0] == 'd')
      && a in Managed(steps[ReportOf(steps).value].accounts)
  {
    GateExactlyWhen(settings, steps);
    SetUpFollowsItsReport(settings, steps);
    ResolvedIsAllowed(settings, steps[ReportOf(steps).value].accounts, account);
  }

  // ----- IBKR's link -----

  predicate IsLost(step: Step) {
    step.Notice? && step.code in {1100, 2110}
  }

  predicate IsFarmOk(step: Step) {
    step.Notice? && step.code in {2104, 2106, 2158}
  }

  /** Whether a step ends an outage that `code` reported, or replaces it by another. */
  predicate Ends(step: Step, code: int) {
    step.Begin? || IsLost(step) || (step.Notice? && step.code in {1101, 1102}) || (IsFarmOk(step) && code == 2110)
  }

  /** A lost code at position `k` that nothing after it ended. */
  ghost predicate LostAt(steps: seq<Step>, k: int) {
    && 0 <= k < |steps| && IsLost(steps[k])
    && forall j | k < j < |steps| :: !Ends(steps[j], steps[k].code)
  }

  lemma LostAtStep(steps: seq<Step>, k: int)
    requires steps != []
    ensures var last, rest := |steps| - 1, steps[..|steps| - 1];
      LostAt(steps, k) <==> if k == last then IsLost(steps[last])
        else LostAt(rest, k) && !Ends(steps[last], rest[k].code)
  {
    var last, rest := |steps| - 1, steps[..|steps| - 1];
    assert forall j | 0 <= j < last :: rest[j] == steps[j];
  }

  lemma LinkStep(settings: Settings, w: Wire, step: Step)
    requires Enabled(w, step)
    ensures WireStep(settings, w, step).linkDown ==
      if IsLost(step) then Some(step.code)
      else if w.linkDown.Some? && Ends(step, w.linkDown.value) then None
      else w.linkDown
  {
  }

  lemma {:induction false} LinkFollows(settings: Settings, steps: seq<Step>, code: int)
    requires IsRun(settings, steps)
    ensures After(settings, steps).wire.linkDown == Some(code)
      <==> exists k :: LostAt(steps, k) && steps[k].code == code
  {
    if steps != [] {
      var last, rest := |steps| - 1, steps[..|steps| - 1];
      RunShrinks(settings, steps);
      LinkFollows(settings, rest, code);
      LinkStep(settings, After(settings, rest).wire, steps[last]);
      forall k
        ensures LostAt(steps, k) <==> if k == last then IsLost(steps[last])
          else LostAt(rest, k) && !Ends(steps[last], rest[k].code)
      {
        LostAtStep(steps, k);
      }
      if LostAt(steps, last) { assert LostAt(steps, last) && steps[last].code == steps[last].code; }
    }
  }

  /**
   While the session is up it is degraded exactly when, at some position since it began, the link was
   reported lost and no lost code, no 1101 or 1102 and, if it was 2110, no farm-OK notice followed.
   */
  lemma {:induction false} DegradedExactlyWhileLinkDown(settings: Settings, steps: seq<Step>)
    requires IsRun(settings, steps) && IsConnected(After(settings, steps).wire)
    ensures After(settings, steps).wire.state.ConnectivityLost? <==> exists k :: LostAt(steps, k)
  {
    EveryRunKeepsInv(settings, steps);
    var down := After(settings, steps).wire.linkDown;
    if down.Some? { LinkFollows(settings, steps, down.value); }
    if k :| LostAt(steps, k) { LinkFollows(settings, steps, steps[k].code); }
  }

  /** Position `k` is the latest lost code. */
  ghost predicate LatestLost(steps: seq<Step>, k: int) {
    && 0 <= k < |steps| && IsLost(steps[k]) && forall j | k < j < |steps| :: !IsLost(steps[j])
  }

  lemma FarmNotice(settings: Settings, w: Wire, code: int)
    requires IsFarmOk(Notice(code)) && w.state.ConnectivityLost? && w.linkDown.Some?
    ensures WireStep(settings, w, Notice(code)).state.Connected? <==> w.linkDown.value == 2110
  {
  }

  lemma LatestLostIs(settings: Settings, steps: seq<Step>) returns (k: int)
    requires IsRun(settings, steps) && IsConnected(After(settings, steps).wire)
    requires After(settings, steps).wire.state.ConnectivityLost?
    ensures LatestLost(steps, k) && After(settings, steps).wire.linkDown == Some(steps[k].code)
  {
    DegradedExactlyWhileLinkDown(settings, steps);
    k :| LostAt(steps, k);
    LinkFollows(settings, steps, steps[k].code);
  }

  /** A farm notice ends the outage of an up session exactly when the latest lost code is 2110. */
  lemma {:induction false} FarmEndsExactlyWhen(settings: Settings, steps: seq<Step>, code: int)
    requires IsRun(settings, steps) && IsConnected(After(settings, steps).wire) && IsFarmOk(Notice(code))
    requires After(settings, steps).wire.state.ConnectivityLost?
    ensures IsRun(settings, steps + [Notice(code)])
    ensures After(settings, steps + [Notice(code)]).wire.state.Connected? <==>
      exists k :: LatestLost(steps, k) && steps[k].code == 2110
  {
    RunGrows(settings, steps, Notice(code));
    var k := LatestLostIs(settings, steps);
    FarmNotice(settings, After(settings, steps).wire, code);
    forall j | LatestLost(steps, j) ensures j == k { LatestLostOnce(steps, j, k); }
  }

  lemma LatestLostOnce(steps: seq<Step>, j: int, k: int)
    requires LatestLost(steps, j) && LatestLost(steps, k)
    ensures j == k
  {
  }

  /** So a 1100 outage need not wait for 1101 or 1102: after a 2110 a farm notice ends it. */
  lemma {:induction false} FarmEndsA1100OutageAfter2110(settings: Settings, steps: seq<Step>)
    requires IsRun(settings, steps) && IsConnected(After(settings, steps).wire)
    ensures var lost := steps + [Notice(1100)]; var both := lost + [Notice(2110)]; var ended := both + [Notice(2104)];
      && IsRun(settings, ended)
      && After(settings, lost).wire.state.ConnectivityLost? && After(settings, both).wire.state.ConnectivityLost?
      && After(settings, ended).wire.state.Connected?
  {
    RunGrows(settings, steps, Notice(1100));
    RunGrows(settings, steps + [Notice(1100)], Notice(2110));
    RunGrows(settings, steps + [Notice(1100)] + [Notice(2110)], Notice(2104));
  }

  lemma {:induction false} SessionComesUp(settings: Settings)
    requires !ReadOnlySession(settings)
    ensures exists steps: seq<Step> :: IsRun(settings, steps) && IsConnected(After(settings, steps).wire)
  {
    var open := BeginsAndOpens(settings);
    ReportComesUp(settings, open, Report(["U1"], 1));
  }

  /** Such sessions are reachable. */
  lemma SessionsComeUp()
    ensures exists settings: Settings, steps: seq<Step> ::
              IsRun(settings, steps) && IsConnected(After(settings, steps).wire)
  {
    SessionComesUp(Settings(None, [], true, true));
  }

  // ----- which step decides the state -----

  /** The session comes up: it was reported and, if read-only, its executions were loaded, without a drop. */
  predicate GoesUp(settings: Settings, w: Wire, step: Step) {
    && !w.dropped
    && (step.ExecutionsFetched? || (step.Report? && settings.needsWrite && settings.allowLive))
  }

  /**
   The connection goes down: an attempt or a setup failed, a stop ended, a session that dropped came back from a
   wait of its setup, or outside a stop an open socket closed after the attempt, or an error found none.
   */
  predicate TakesDown(w: Wire, step: Step) {
    match step
    case AttemptFails(_, _) => true
    case SetupFails(_, _, _) => true
    case StopDone(_) => true
    case Report(_, _) => w.dropped
    case OrdersSynced(_) => w.dropped
    case ExecutionsFetched(_) => w.dropped
    case Drop(_) => !w.stopping && !w.state.Connecting?
    case ForceReconnect(_) => !w.stopping && w.socketUp
    case Unusable(_) => !w.socketUp
    case _ => false
  }

  /** The state a step brings about, if any; whether the link is up is another matter. */
  function MovesTo(settings: Settings, w: Wire, step: Step): Option<State> {
    if step.Start? || step.Begin? then Some(Connecting)
    else if GoesUp(settings, w, step) then Some(Connected)
    else if step.AttemptFails? && !step.unexpected then Some(NotAccepting)
    else if TakesDown(w, step) then Some(Down)
    else None
  }

  function Plain(state: State): State {
    if state.ConnectivityLost? then Connected else state
  }

  lemma StateMoves(settings: Settings, w: Wire, step: Step)
    requires Enabled(w, step)
    ensures Plain(WireStep(settings, w, step).state)
         == if MovesTo(settings, w, step).Some? then MovesTo(settings, w, step).value else Plain(w.state)
  {
  }

  function MoveOf(settings: Settings, steps: seq<Step>, k: nat): Option<State>
    requires k < |steps|
  {
    MovesTo(settings, After(settings, steps[..k]).wire, steps[k])
  }

  /** The step at `k` was the last to decide the state, and this is what it brought about. */
  ghost predicate DecidedAt(settings: Settings, steps: seq<Step>, k: int, state: State) {
    && 0 <= k < |steps| && MoveOf(settings, steps, k) == Some(state)
    && forall j | k < j < |steps| :: MoveOf(settings, steps, j).None?
  }

  lemma EarlierMove(settings: Settings, steps: seq<Step>, k: nat)
    requires k < |steps| - 1
    ensures MoveOf(settings, steps[..|steps| - 1], k) == MoveOf(settings, steps, k)
  {
    assert steps[..|steps| - 1][..k] == steps[..k];
  }

  lemma DecidedStep(settings: Settings, steps: seq<Step>, k: int, state: State)
    requires steps != []
    ensures var last, rest := |steps| - 1, steps[..|steps| - 1];
      DecidedAt(settings, steps, k, state) <==>
        if k == last then MoveOf(settings, steps, last) == Some(state)
        else DecidedAt(settings, rest, k, state) && MoveOf(settings, steps, last).None?
  {
    var last, rest := |steps| - 1, steps[..|steps| - 1];
    forall j | 0 <= j < last ensures MoveOf(settings, rest, j) == MoveOf(settings, steps, j) {
      EarlierMove(settings, steps, j);
    }
    assert steps[..last] == rest;
    if k < last && DecidedAt(settings, rest, k, state) && MoveOf(settings, steps, last).None? {
      forall j | k < j < |steps| ensures MoveOf(settings, steps, j).None? {
        if j < last { assert MoveOf(settings, rest, j).None?; }
      }
    }
  }

  /** The state is what the last step that decides it brought about. */
  lemma {:induction false} StateFollows(settings: Settings, steps: seq<Step>, state: State)
    requires IsRun(settings, steps) && !state.Down?
    ensures Plain(After(settings, steps).wire.state) == state <==> exists k :: DecidedAt(settings, steps, k, state)
  {
    if steps != [] {
      var last, rest := |steps| - 1, steps[..|steps| - 1];
      RunShrinks(settings, steps);
      StateFollows(settings, rest, state);
      StateMoves(settings, After(settings, rest).wire, steps[last]);
      var to := MoveOf(settings, steps, last);
      forall k
        ensures DecidedAt(settings, steps, k, state) <==>
          if k == last then to == Some(state) else DecidedAt(settings, rest, k, state) && to.None?
      {
        DecidedStep(settings, steps, k, state);
      }
      if to == Some(state) { assert DecidedAt(settings, steps, last, state); }
    }
  }

  /** Which disconnects are recorded, and when: exactly the steps that take the connection down. */
  lemma MarksExactlyWhen(w: Wire, step: Step)
    ensures Marks(w, step) == if TakesDown(w, step) then Some(TimeOf(step)) else None
  {
  }

  /** A socket closes when it drops, when a failure or a stop closes it, or by a forced reconnect outside a stop. */
  predicate ClosesSocket(w: Wire, step: Step) {
    && w.socketUp
    && (step.Drop? || step.AttemptFails? || step.SetupFails? || step.StopDone? || (step.ForceReconnect? && !w.stopping))
  }

  /** The socket closed at position `k`, and no attempt began since. */
  ghost predicate ClosedAt(settings: Settings, steps: seq<Step>, k: int) {
    && 0 <= k < |steps| && ClosesSocket(After(settings, steps[..k]).wire, steps[k])
    && forall j | k < j < |steps| :: !steps[j].Begin?
  }

  lemma SocketMoves(settings: Settings, w: Wire, step: Step)
    ensures var v := WireStep(settings, w, step);
      && v.socketUp == (step.SocketOpens? || (w.socketUp && !ClosesSocket(w, step)))
      && (Enabled(w, step) ==> v.dropped == (!step.Begin? && (w.dropped || ClosesSocket(w, step))))
  {
  }

  lemma {:induction false} ClosedStep(settings: Settings, steps: seq<Step>, k: int)
    requires steps != []
    ensures var last, rest := |steps| - 1, steps[..|steps| - 1];
      ClosedAt(settings, steps, k) <==> if k == last then ClosesSocket(After(settings, rest).wire, steps[last])
        else ClosedAt(settings, rest, k) && !steps[last].Begin?
  {
    var last, rest := |steps| - 1, steps[..|steps| - 1];
    forall j | 0 <= j < last ensures rest[..j] == steps[..j] && rest[j] == steps[j] {
    }
  }

  /** The supervisor is told of a drop exactly when the socket closed since its attempt began. */
  lemma {:induction false} DroppedExactlyWhen(settings: Settings, steps: seq<Step>)
    requires IsRun(settings, steps)
    ensures After(settings, steps).wire.dropped <==> exists k :: ClosedAt(settings, steps, k)
  {
    if steps != [] {
      var last, rest := |steps| - 1, steps[..|steps| - 1];
      RunShrinks(settings, steps);
      DroppedExactlyWhen(settings, rest);
      SocketMoves(settings, After(settings, rest).wire, steps[last]);
      forall k
        ensures ClosedAt(settings, steps, k) <==>
          if k == last then ClosesSocket(After(settings, rest).wire, steps[last])
          else ClosedAt(settings, rest, k) && !steps[last].Begin?
      {
        ClosedStep(settings, steps, k);
      }
      if ClosesSocket(After(settings, rest).wire, steps[last]) { assert ClosedAt(settings, steps, last); }
    }
  }

  /** A refusal at position `k` that no later setup forgot: one that got to clear it. */
  ghost predicate RefusedAt(settings: Settings, steps: seq<Step>, k: int) {
    && 0 <= k < |steps| && steps[k].ReadOnlyNotice?
    && forall j | k < j < |steps| :: !Forgets(After(settings, steps[..j]).wire, steps[j])
  }

  predicate Forgets(w: Wire, step: Step) {
    (step.Report? && !w.dropped) || (step.SetupFails? && step.cleared)
  }

  lemma {:induction false} RefusedStep(settings: Settings, steps: seq<Step>, k: int)
    requires steps != []
    ensures var last, rest := |steps| - 1, steps[..|steps| - 1];
      RefusedAt(settings, steps, k) <==> if k == last then steps[last].ReadOnlyNotice?
        else RefusedAt(settings, rest, k) && !Forgets(After(settings, rest).wire, steps[last])
  {
    var last, rest := |steps| - 1, steps[..|steps| - 1];
    forall j | 0 <= j < last ensures rest[..j] == steps[..j] && rest[j] == steps[j] {
    }
  }

  /** The API counts as read-only exactly when it said so and no setup forgot it since. */
  lemma {:induction false} ReadOnlyExactlyWhen(settings: Settings, steps: seq<Step>)
    ensures After(settings, steps).trade.apiReadOnly <==> exists k :: RefusedAt(settings, steps, k)
  {
    if steps != [] {
      var last, rest := |steps| - 1, steps[..|steps| - 1];
      ReadOnlyExactlyWhen(settings, rest);
      forall k
        ensures RefusedAt(settings, steps, k) <==> if k == last then steps[last].ReadOnlyNotice?
          else RefusedAt(settings, rest, k) && !Forgets(After(settings, rest).wire, steps[last])
      {
        RefusedStep(settings, steps, k);
      }
      if steps[last].ReadOnlyNotice? { assert RefusedAt(settings, steps, last); }
    }
  }

  /** A reported session loads orders exactly if it is read-only and orders are allowed, then its executions. */
  lemma SetupLoads(settings: Settings, w: Wire, step: Step)
    requires Enabled(w, step) && !w.dropped
    ensures step.Report? && (!settings.needsWrite || !settings.allowLive) ==>
      WireStep(settings, w, step).stage
        == if Verdict(settings, Refreshed(settings, step.accounts)).0 then Syncing else Fetching
    ensures step.OrdersSynced? ==> WireStep(settings, w, step).stage.Fetching?
    ensures GoesUp(settings, w, step) ==> WireStep(settings, w, step).stage.Watching?
  {
  }

  function Attempts(steps: seq<Step>): nat {
    if steps == [] then 0 else Attempts(steps[..|steps| - 1]) + if steps[|steps| - 1].Begin? then 1 else 0
  }

  /** Sessions are numbered by their attempts. */
  lemma {:induction false} SessionsAreCounted(settings: Settings, steps: seq<Step>)
    ensures After(settings, steps).past.session == Attempts(steps)
  {
    if steps != [] { SessionsAreCounted(settings, steps[..|steps| - 1]); }
  }

  // ----- sessions and outages -----

  /**
   A session number stands for one attempt: at two moments of a run it is the same exactly when no
   attempt began between them.
   */
  lemma {:induction false} SameSessionExactlyWhen(settings: Settings, steps: seq<Step>, i: nat)
    requires i <= |steps|
    ensures var earlier, now := After(settings, steps[..i]).past.session, After(settings, steps).past.session;
      earlier <= now && (earlier == now <==> forall k | i <= k < |steps| :: !steps[k].Begin?)
    decreases |steps|
  {
    if i == |steps| {
      assert steps[..i] == steps;
    } else {
      var rest := steps[..|steps| - 1];
      assert rest[..i] == steps[..i];
      SameSessionExactlyWhen(settings, rest, i);
      assert forall k | 0 <= k < |rest| :: rest[k] == steps[k];
    }
  }

  lemma DropStays(settings: Settings, w: Wire, step: Step)
    requires w.dropped && !step.Begin?
    ensures WireStep(settings, w, step).dropped
  {
  }

  /**
   A session that dropped never comes up again: from a drop to the next attempt it is not connected, and
   its state is up only while a stop that has not finished is under way.
   */
  lemma {:induction false} DroppedSessionsStayDown(settings: Settings, steps: seq<Step>, d: nat)
    requires IsRun(settings, steps) && d <= |steps| && After(settings, steps[..d]).wire.dropped
    requires forall k | d <= k < |steps| :: !steps[k].Begin?
    ensures var w := After(settings, steps).wire;
      w.dropped && !IsConnected(w) && (IsUp(w.state) ==> w.stopping)
    decreases |steps|
  {
    EveryRunKeepsInv(settings, steps);
    if d == |steps| {
      assert steps[..d] == steps;
    } else {
      var rest := steps[..|steps| - 1];
      RunShrinks(settings, steps);
      assert rest[..d] == steps[..d];
      DroppedSessionsStayDown(settings, rest, d);
      DropStays(settings, After(settings, rest).wire, steps[|steps| - 1]);
    }
  }

  function TimeOf(step: Step): int {
    match step
    case Start(now) => now
    case AttemptFails(_, now) => now
    case Report(_, now) => now
    case SetupFails(_, _, now) => now
    case OrdersSynced(now) => now
    case ExecutionsFetched(now) => now
    case Drop(now) => now
    case Unusable(now) => now
    case ForceReconnect(now) => now
    case StopDone(now) => now
    case _ => 0
  }

  predicate GoesDown(before: Wire, after: Wire) {
    IsUp(before.state) && !IsUp(after.state)
  }

  /** The time of the last step at which a session that was up went down. */
  function LastDrop(settings: Settings, steps: seq<Step>): Option<int> {
    if steps == [] then None
    else
      var rest := steps[..|steps| - 1];
      if GoesDown(After(settings, rest).wire, After(settings, steps).wire) then Some(TimeOf(steps[|steps| - 1]))
      else LastDrop(settings, rest)
  }

  /** A session that was up goes down exactly when a step marks it so, and at that time. */
  lemma UpGoesDownMarked(settings: Settings, w: Wire, step: Step)
    requires Inv(w) && Enabled(w, step)
    ensures GoesDown(w, WireStep(settings, w, step)) <==> IsUp(w.state) && Marks(w, step).Some?
    ensures Marks(w, step).Some? ==> Marks(w, step).value == TimeOf(step)
  {
    if step.Notice? { assert IsUp(OnNotice(w, step.code).state) <==> IsUp(w.state); }
  }

  /** The latest start before position `n` is at `s`. */
  ghost predicate LatestStart(steps: seq<Step>, s: int, n: int) {
    0 <= s < n <= |steps| && steps[s].Start? && forall j | s < j < n :: !steps[j].Start?
  }

  /** The step at `k` marks the connection as down, outside a stop and after some start. */
  ghost predicate MarksOutage(settings: Settings, steps: seq<Step>, k: int) {
    && 0 <= k < |steps|
    && (exists s :: LatestStart(steps, s, k))
    && var w := After(settings, steps[..k]).wire; !w.stopping && Marks(w, steps[k]).Some?
  }

  /** The step at `k` is the first to mark an outage, and the latest start before it is at `s`. */
  ghost predicate DatesOutage(settings: Settings, steps: seq<Step>, k: int, s: int) {
    && MarksOutage(settings, steps, k) && LatestStart(steps, s, k)
    && forall j | 0 <= j < k :: !MarksOutage(settings, steps, j)
  }

  lemma SameStarts(steps: seq<Step>, step: Step, s: int, n: int)
    requires n <= |steps|
    ensures LatestStart(steps + [step], s, n) <==> LatestStart(steps, s, n)
  {
    assert forall j | 0 <= j < |steps| :: (steps + [step])[j] == steps[j];
  }

  lemma MarksEarlier(settings: Settings, steps: seq<Step>, step: Step, k: int)
    requires k < |steps|
    ensures MarksOutage(settings, steps + [step], k) <==> MarksOutage(settings, steps, k)
    ensures forall s :: LatestStart(steps + [step], s, k) <==> LatestStart(steps, s, k)
  {
    var more := steps + [step];
    forall s ensures LatestStart(more, s, k) <==> LatestStart(steps, s, k) { SameStarts(steps, step, s, k); }
    if 0 <= k { assert more[..k] == steps[..k]; }
  }

  /** The time of the latest start before position `n`, if there is one. */
  ghost predicate StartIs(steps: seq<Step>, n: int, at: Option<int>) {
    match at
    case None => forall s :: !LatestStart(steps, s, n)
    case Some(t) => exists s :: LatestStart(steps, s, n) && steps[s].now == t
  }

  /** No outage is dated, and one that begins now would date from the latest start. */
  ghost predicate NoOutageYet(settings: Settings, steps: seq<Step>, p: Past) {
    && p.lastDisconnectAt.None? && StartIs(steps, |steps|, p.startedAt)
    && forall k :: !MarksOutage(settings, steps, k)
  }

  ghost predicate OutageDated(settings: Settings, steps: seq<Step>, p: Past) {
    exists k, s :: DatesOutage(settings, steps, k, s) && p.lastDisconnectAt == Some(steps[s].now)
  }

  lemma StartIsStep(steps: seq<Step>, step: Step, at: Option<int>)
    requires StartIs(steps, |steps|, at)
    ensures StartIs(steps + [step], |steps|, at)
    ensures StartIs(steps + [step], |steps| + 1, if step.Start? then Some(step.now) else at)
  {
    var n, more := |steps|, steps + [step];
    var m := n + 1;
    assert more[n] == step && forall j | 0 <= j < n :: more[j] == steps[j];
    forall s ensures LatestStart(more, s, n) <==> LatestStart(steps, s, n) {
      SameStarts(steps, step, s, n);
    }
    forall s ensures LatestStart(more, s, m) <==> if step.Start? then s == n else LatestStart(steps, s, n) {
    }
    if step.Start? {
      assert LatestStart(more, n, m);
    } else if at.Some? {
      var s :| LatestStart(steps, s, n) && steps[s].now == at.value;
      assert LatestStart(more, s, n) && LatestStart(more, s, m) && more[s].now == at.value;
    }
  }

  lemma DatedStays(settings: Settings, steps: seq<Step>, step: Step, w: Wire, p: Past)
    requires OutageDated(settings, steps, p) && (Marks(w, step).Some? ==> !IsUp(w.state))
    ensures OutageDated(settings, steps + [step], PastStep(w, p, step))
  {
    var k, s :| DatesOutage(settings, steps, k, s) && p.lastDisconnectAt == Some(steps[s].now);
    forall j | j <= k ensures MarksOutage(settings, steps + [step], j) <==> MarksOutage(settings, steps, j) {
      MarksEarlier(settings, steps, step, j);
    }
    MarksEarlier(settings, steps, step, k);
    assert DatesOutage(settings, steps + [step], k, s) && (steps + [step])[s] == steps[s];
  }

  lemma {:induction false} OutageBegins(settings: Settings, steps: seq<Step>, step: Step, w: Wire, p: Past)
    requires NoOutageYet(settings, steps, p) && MarksOutage(settings, steps + [step], |steps|)
    requires w == After(settings, steps).wire && !IsUp(w.state)
    ensures OutageDated(settings, steps + [step], PastStep(w, p, step))
  {
    var n, more := |steps|, steps + [step];
    assert more[..n] == steps && more[n] == step;
    StartIsStep(steps, step, p.startedAt);
    forall j | 0 <= j < n ensures !MarksOutage(settings, more, j) { MarksEarlier(settings, steps, step, j); }
    var s :| LatestStart(more, s, n) && more[s].now == p.startedAt.value;
    assert DatesOutage(settings, more, n, s);
  }

  lemma {:induction false} StillNoOutage(settings: Settings, steps: seq<Step>, step: Step, w: Wire, p: Past)
    requires NoOutageYet(settings, steps, p) && !MarksOutage(settings, steps + [step], |steps|)
    requires w == After(settings, steps).wire && (Marks(w, step).Some? ==> !IsUp(w.state))
    ensures NoOutageYet(settings, steps + [step], PastStep(w, p, step))
  {
    var n, more := |steps|, steps + [step];
    assert more[..n] == steps && more[n] == step;
    StartIsStep(steps, step, p.startedAt);
    forall k ensures !MarksOutage(settings, more, k) {
      if k < n { MarksEarlier(settings, steps, step, k); }
    }
  }

  /** The disconnect is undated, or dated by the first outage. */
  ghost predicate OutageKnown(settings: Settings, steps: seq<Step>, p: Past) {
    NoOutageYet(settings, steps, p) || OutageDated(settings, steps, p)
  }

  lemma {:induction false} OutageStep(settings: Settings, steps: seq<Step>, step: Step, w: Wire, p: Past)
    requires OutageKnown(settings, steps, p)
    requires w == After(settings, steps).wire && (Marks(w, step).Some? ==> !IsUp(w.state))
    ensures OutageKnown(settings, steps + [step], PastStep(w, p, step))
  {
    if OutageDated(settings, steps, p) {
      DatedStays(settings, steps, step, w, p);
    } else if MarksOutage(settings, steps + [step], |steps|) {
      assert (steps + [step])[..|steps|] == steps;
      OutageBegins(settings, steps, step, w, p);
    } else {
      StillNoOutage(settings, steps, step, w, p);
    }
  }

  lemma {:induction false} NoDropYet(settings: Settings, steps: seq<Step>)
    requires steps != [] && LastDrop(settings, steps).None?
    requires Inv(After(settings, steps[..|steps| - 1]).wire)
    requires Enabled(After(settings, steps[..|steps| - 1]).wire, steps[|steps| - 1])
    ensures LastDrop(settings, steps[..|steps| - 1]).None?
    ensures var w := After(settings, steps[..|steps| - 1]).wire; Marks(w, steps[|steps| - 1]).Some? ==> !IsUp(w.state)
  {
    UpGoesDownMarked(settings, After(settings, steps[..|steps| - 1]).wire, steps[|steps| - 1]);
  }

  lemma {:induction false} RunOutageStep(settings: Settings, steps: seq<Step>)
    requires steps != [] && LastDrop(settings, steps).None?
    requires Inv(After(settings, steps[..|steps| - 1]).wire)
    requires Enabled(After(settings, steps[..|steps| - 1]).wire, steps[|steps| - 1])
    requires OutageKnown(settings, steps[..|steps| - 1], After(settings, steps[..|steps| - 1]).past)
    ensures OutageKnown(settings, steps, After(settings, steps).past)
  {
    var rest, step := steps[..|steps| - 1], steps[|steps| - 1];
    NoDropYet(settings, steps);
    assert steps == rest + [step];
    OutageStep(settings, rest, step, After(settings, rest).wire, After(settings, rest).past);
  }

  /** Until a session that was up goes down, the disconnect is undated or dated by the first outage. */
  lemma {:induction false} OutageFollows(settings: Settings, steps: seq<Step>)
    requires IsRun(settings, steps) && LastDrop(settings, steps).None?
    ensures OutageKnown(settings, steps, After(settings, steps).past)
  {
    if steps == [] {
      assert StartIs([], 0, None);
    } else {
      RunShrinks(settings, steps);
      EveryRunKeepsInv(settings, steps[..|steps| - 1]);
      NoDropYet(settings, steps);
      OutageFollows(settings, steps[..|steps| - 1]);
      RunOutageStep(settings, steps);
    }
  }

  lemma {:induction false} DropsAreRecorded(settings: Settings, steps: seq<Step>)
    requires IsRun(settings, steps) && LastDrop(settings, steps).Some?
    ensures After(settings, steps).past.lastDisconnectAt == LastDrop(settings, steps)
  {
    if steps != [] {
      var rest, step := steps[..|steps| - 1], steps[|steps| - 1];
      RunShrinks(settings, steps);
      EveryRunKeepsInv(settings, rest);
      if LastDrop(settings, rest).Some? { DropsAreRecorded(settings, rest); }
      UpGoesDownMarked(settings, After(settings, rest).wire, step);
    }
  }

  /**
   The recorded disconnect is the last time a session that was up went down. Before any did, it is the
   time of a start: the latest one before the first step that, outside a stop, marked the connection as
   down after some start; and there is none while no step has. Later failures and starts do not move it.
   */
  lemma {:induction false} LastDisconnectIsTheLastDrop(settings: Settings, steps: seq<Step>)
    requires IsRun(settings, steps)
    ensures var at := After(settings, steps).past.lastDisconnectAt; var drop := LastDrop(settings, steps);
      && (drop.Some? ==> at == drop)
      && (drop.None? ==> forall t ::
            at == Some(t) <==> exists k, s :: DatesOutage(settings, steps, k, s) && steps[s].now == t)
  {
    if LastDrop(settings, steps).Some? {
      DropsAreRecorded(settings, steps);
    } else {
      OutageFollows(settings, steps);
      forall k, s, j, r | DatesOutage(settings, steps, k, s) && DatesOutage(settings, steps, j, r)
        ensures k == j && s == r
      {
      }
    }
  }

  /** A disconnect is dated though no session came up and no attempt was made. */
  ghost predicate DatedWithoutAttempt(settings: Settings, steps: seq<Step>) {
    && IsRun(settings, steps) && (forall k | 0 <= k < |steps| :: !steps[k].Begin?)
    && LastDrop(settings, steps).None? && After(settings, steps).past.lastDisconnectAt.Some?
  }

  /** The step that dates an outage need not be a failed attempt: an error before the first one does. */
  lemma OutageWithoutAttempt(settings: Settings)
    ensures DatedWithoutAttempt(settings, [Start(5), Unusable(6)])
  {
    var started := [Start(5)];
    RunGrows(settings, [], Start(5));
    assert [] + [Start(5)] == started;
    RunGrows(settings, started, Unusable(6));
    assert started + [Unusable(6)] == [Start(5), Unusable(6)];
    var both := [Start(5), Unusable(6)];
    assert both[..1] == started && started[..0] == [];
    assert LastDrop(settings, started).None?;
    assert After(settings, started).wire.state.Connecting? && After(settings, both).wire.state.Down?;
  }

  // ----- the manager -----

  /** Owns the connection; each method is one step of the machine above. */
  class ConnectionManager {
    const settings: Settings
    const accounts: AccountScope
    var state: State
    var session: nat
    var socketUp: bool
    var dropped: bool
    var stopping: bool
    var linkDown: Option<int>
    var apiReadOnly: bool
    var tradingAllowed: bool
    var block: Option<Block>
    var lastDisconnectAt: Option<int>
    var startedAt: Option<int>
    ghost var stage: Stage

    ghost function OfWire(): Wire
      reads this
    {
      Wire(state, stage, socketUp, dropped, stopping, linkDown)
    }

    ghost function OfTrade(): Trade
      reads this, accounts
    {
      Trade(apiReadOnly, accounts.View(), tradingAllowed, block)
    }

    ghost function OfPast(): Past
      reads this
    {
      Past(lastDisconnectAt, startedAt, session)
    }

    ghost function View(): Conn
      reads this, accounts
    {
      Conn(OfWire(), OfTrade(), OfPast())
    }

    constructor (settings: Settings, accounts: AccountScope)
      requires accounts.View() == UNKNOWN_SCOPE
      ensures this.settings == settings && this.accounts == accounts && View() == INITIAL
    {
      this.settings, this.accounts := settings, accounts;
      state, session, socketUp, dropped, stopping, linkDown := Down, 0, false, false, false, None;
      apiReadOnly, tradingAllowed, block := false, false, None;
      lastDisconnectAt, startedAt, stage := None, None, Idle;
    }

    method CheckTrading() returns (gate: Gate)
      ensures gate == RequireTrading(settings, View())
    {
      if !(IsUp(state) && socketUp) {
        return SessionDown;
      }
      if !settings.needsWrite {
        return OrderToolsOff;
      }
      if !tradingAllowed {
        if block == Some(NoAllowedAccount) {
          return NothingAllowed;
        }
        return LiveDisabled;
      }
      if apiReadOnly {
        return ApiReadOnly;
      }
      return Open;
    }

    method EvaluateTrading()
      modifies this`tradingAllowed, this`block
      ensures (tradingAllowed, block) == Verdict(settings, accounts.View())
    {
      var live := LiveInScope(accounts.View());
      if !settings.needsWrite {
        tradingAllowed, block := false, Some(NoWriteToolset);
      } else if accounts.managed == [] {
        tradingAllowed, block := false, Some(NoAccounts);
      } else if live != {} && !settings.allowLive {
        tradingAllowed, block := false, Some(LiveAccounts);
      } else if accounts.allowed == {} {
        tradingAllowed, block := false, Some(NoAllowedAccount);
      } else {
        tradingAllowed, block := true, None;
      }
    }

    method MarkDown(to: State, now: int)
      modifies this`state, this`lastDisconnectAt
      ensures state == to
      ensures lastDisconnectAt == if IsUp(old(state)) then Some(now)
        else if old(lastDisconnectAt).None? && !stopping then startedAt else old(lastDisconnectAt)
    {
      if IsUp(state) {
        lastDisconnectAt := Some(now);
      } else if lastDisconnectAt.None? && !stopping {
        lastDisconnectAt := startedAt;
      }
      state := to;
    }

    /** The disconnected event; closing an open socket emits it. */
    method OnDisconnected(now: int)
      requires socketUp
      modifies this`socketUp, this`dropped, this`state, this`lastDisconnectAt
      ensures View() == Apply(settings, old(View()), Drop(now))
    {
      socketUp := false;
      dropped := true;
      if stopping || state.Connecting? {
        return;
      }
      MarkDown(Down, now);
    }

    method Close(now: int)
      modifies this`socketUp, this`dropped, this`state, this`lastDisconnectAt
      ensures View() == if old(socketUp) then Apply(settings, old(View()), Drop(now)) else old(View())
    {
      if socketUp {
        OnDisconnected(now);
      }
    }

    /** An attempt or a setup failed: the socket is closed, and the supervisor waits. */
    method GiveUp(to: State, now: int)
      requires !IsUp(state)
      modifies this`socketUp, this`dropped, this`state, this`lastDisconnectAt, this`stage
      ensures OfWire() == Closed(old(OfWire()), to, Sleeping)
      ensures lastDisconnectAt == if old(lastDisconnectAt).None? && !stopping then startedAt else old(lastDisconnectAt)
    {
      Close(now);
      MarkDown(to, now);
      stage := Sleeping;
    }

    method Start(now: int)
      requires Enabled(OfWire(), Step.Start(now))
      modifies this
      ensures View() == Apply(settings, old(View()), Step.Start(now))
    {
      if lastDisconnectAt.None? {
        startedAt := Some(now);
      }
      stopping := false;
      state := Connecting;
      stage := Ready;
    }

    method BeginAttempt()
      requires Enabled(OfWire(), Begin)
      modifies this
      ensures View() == Apply(settings, old(View()), Begin)
    {
      session := session + 1;
      state := Connecting;
      linkDown := None;
      dropped := false;
      stage := Attempting;
    }

    method AttemptFailed(unexpected: bool, now: int)
      requires Inv(OfWire()) && Enabled(OfWire(), AttemptFails(unexpected, now))
      modifies this
      ensures View() == Apply(settings, old(View()), AttemptFails(unexpected, now))
    {
      GiveUp(if unexpected then Down else NotAccepting, now);
    }

    /** The connect call returned: set the session up to its first await. */
    method ConnectReturned(reported: seq<Account>, now: int)
      requires Enabled(OfWire(), Report(reported, now)) && accounts.settings == settings
      modifies this, accounts
      ensures View() == Apply(settings, old(View()), Report(reported, now))
    {
      if dropped {
        MarkDown(Down, now);
        stage := Watching;
        return;
      }
      apiReadOnly := false;
      accounts.Refresh(reported);
      EvaluateTrading();
      var readOnly := !(settings.needsWrite && settings.allowLive);
      if tradingAllowed && readOnly {
        stage := Syncing;
      } else if readOnly {
        stage := Fetching;
      } else {
        FinishSetup();
      }
    }

    method FinishSetup()
      modifies this`state, this`stage
      ensures OfWire() == Finish(old(OfWire()))
    {
      state := if linkDown.Some? then ConnectivityLost else Connected;
      stage := Watching;
    }

    /** An error in the setup: by then the read-only flag is cleared and the accounts are refreshed, or not yet. */
    method SetupFailed(cleared: bool, refreshed: Option<seq<Account>>, now: int)
      requires Inv(OfWire()) && Enabled(OfWire(), SetupFails(cleared, refreshed, now))
      requires accounts.settings == settings
      modifies this, accounts
      ensures View() == Apply(settings, old(View()), SetupFails(cleared, refreshed, now))
    {
      if cleared {
        apiReadOnly := false;
      }
      if refreshed.Some? {
        accounts.Refresh(refreshed.value);
      }
      GiveUp(Down, now);
    }

    method OrdersLoaded(now: int)
      requires Enabled(OfWire(), OrdersSynced(now))
      modifies this
      ensures View() == Apply(settings, old(View()), OrdersSynced(now))
    {
      if dropped {
        MarkDown(Down, now);
        stage := Watching;
        return;
      }
      stage := Fetching;
    }

    method ExecutionsLoaded(now: int)
      requires Enabled(OfWire(), ExecutionsFetched(now))
      modifies this
      ensures View() == Apply(settings, old(View()), ExecutionsFetched(now))
    {
      if dropped {
        MarkDown(Down, now);
        stage := Watching;
        return;
      }
      FinishSetup();
    }

    method OnConnectivity(code: int)
      requires Enabled(OfWire(), Notice(code))
      modifies this`linkDown, this`state
      ensures View() == Apply(settings, old(View()), Notice(code))
    {
      if LostCode(code) {
        linkDown := Some(code);
        if IsUp(state) && socketUp {
          state := ConnectivityLost;
        }
        return;
      }
      if FarmOkCode(code) && linkDown != Some(LINK_DOWN_WITHOUT_RESTORE) {
        return;
      }
      linkDown := None;
      if state.ConnectivityLost? {
        state := Connected;
      }
    }

    method OnReadOnlyApi()
      modifies this`apiReadOnly
      ensures View() == Apply(settings, old(View()), ReadOnlyNotice)
    {
      apiReadOnly := true;
    }

    /** A not-connected code: an open socket is closed by a later step. */
    method OnUnusable(now: int)
      modifies this`state, this`lastDisconnectAt
      ensures View() == Apply(settings, old(View()), Unusable(now))
    {
      if !socketUp {
        MarkDown(Down, now);
      }
    }

    method Reconnect(now: int)
      modifies this`socketUp, this`dropped, this`state, this`lastDisconnectAt
      ensures View() == Apply(settings, old(View()), ForceReconnect(now))
    {
      if stopping || !socketUp {
        return;
      }
      Close(now);
      MarkDown(Down, now);
    }

    method AskStop()
      modifies this
      ensures View() == Apply(settings, old(View()), StopAsked)
    {
      stopping := true;
      stage := Cancelled;
    }

    method FinishStop(now: int)
      requires Inv(OfWire()) && Enabled(OfWire(), StopDone(now))
      modifies this
      ensures View() == Apply(settings, old(View()), StopDone(now))
    {
      Close(now);
      MarkDown(Down, now);
      stage := Idle;
    }
  }
}
