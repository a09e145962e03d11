/** The accounts the server may touch, resolved against those the gateway login manages. */
module Accounts {
  import opened Wrappers
  import opened Texts

  type Account = string

  // ----- account names -----

  /** Paper-trading accounts start with D, in either case. */
  predicate IsPaper(account: Account) {
    var s := Strip(account);
    s != "" && (s[0] == 'D' || s[0] == 'd')
  }

  /** The text without surrounding white space; nothing when that is empty. */
  function Clean(text: Option<string>): Option<string> {
    if text.None? || Strip(text.value) == "" then None else Some(Strip(text.value))
  }

  /** The account's name starts with D, in either case. */
  ghost predicate NamedPaper(account: Account) {
    account != "" && (account[0] == 'D' || account[0] == 'd')
  }

  /** The first character that is not blank decides, whatever follows it. */
  lemma FirstLetterDecides(blanks: string, c: char, rest: string)
    requires Blank(blanks) && !IsSpace(c)
    ensures IsPaper(blanks + [c] + rest) <==> c == 'D' || c == 'd'
  {
    assert blanks + [c] + rest == blanks + ([c] + rest);
    StripLeftSkips(blanks, [c] + rest);
    FirstStays([c] + rest);
  }

  lemma StrippedPaper(a: Account)
    requires Strip(a) == a && a != ""
    ensures IsPaper(a) <==> NamedPaper(a)
    ensures !IsSpace(a[0])
  {
    StripLeftIs(a);
    StripRightIs(StripLeft(a));
  }

  // ----- the scope -----

  datatype Settings = Settings(ibAccount: Option<Account>, allowlist: seq<Account>, needsWrite: bool, allowLive: bool)

  datatype Scope = Scope(managed: seq<Account>, chosen: Option<Account>, allowed: set<Account>)

  /** The reported accounts, stripped, without empty and repeated names. */
  function Managed(reported: seq<Account>): seq<Account> {
    if reported == [] then []
    else
      var before, name := Managed(reported[..|reported| - 1]), Strip(reported[|reported| - 1]);
      if name == "" || name in before then before else before + [name]
  }

  predicate Configured(settings: Settings) {
    settings.ibAccount.Some? && settings.ibAccount.value != ""
  }

  function PickDefault(settings: Settings, managed: seq<Account>): Option<Account> {
    if Configured(settings) then
      if settings.ibAccount.value in managed then settings.ibAccount else None
    else if |managed| == 1 then Some(managed[0])
    else None
  }

  function PickAllowed(settings: Settings, managed: seq<Account>, chosen: Option<Account>): set<Account> {
    (set a | a in settings.allowlist && a in managed) + if chosen.Some? then {chosen.value} else {}
  }

  function Refreshed(settings: Settings, reported: seq<Account>): Scope {
    var managed := Managed(reported);
    var chosen := PickDefault(settings, managed);
    Scope(managed, chosen, PickAllowed(settings, managed, chosen))
  }

  const UNKNOWN_SCOPE := Scope([], None, {})

  datatype Refusal = NotConnected | NoDefault | NotAllowed

  /** The account to act on: the one given, else the default. */
  function Resolve(scope: Scope, account: Option<string>): Result<Account, Refusal> {
    if scope.managed == [] then Failure(NotConnected)
    else
      var name := Clean(account);
      if name.None? then if scope.chosen.None? then Failure(NoDefault) else Success(scope.chosen.value)
      else if name.value in scope.allowed then Success(name.value)
      else Failure(NotAllowed)
  }

  /** The live accounts among the allowed ones, or among all managed ones when none is allowed. */
  function LiveInScope(scope: Scope): set<Account> {
    var pool := if scope.allowed != {} then scope.allowed else set a | a in scope.managed;
    set a | a in pool && !IsPaper(a)
  }

  /** What every refresh establishes. */
  ghost predicate Sound(settings: Settings, scope: Scope) {
    && (scope.chosen.Some? ==> scope.chosen.value in scope.allowed)
    && (forall a | a in scope.allowed :: a in scope.managed && a != "")
    && (forall a | a in scope.allowed :: a in settings.allowlist || scope.chosen == Some(a))
    && (forall a | a in settings.allowlist && a in scope.managed :: a in scope.allowed)
    && (forall i, j | 0 <= i < j < |scope.managed| :: scope.managed[i] != scope.managed[j])
  }

  lemma {:induction false} ManagedAreReported(reported: seq<Account>)
    ensures forall a ::
              a in Managed(reported) <==> a != "" && exists k :: 0 <= k < |reported| && Strip(reported[k]) == a
    ensures forall i, j | 0 <= i < j < |Managed(reported)| :: Managed(reported)[i] != Managed(reported)[j]
  {
    if reported != [] {
      var rest, last := reported[..|reported| - 1], |reported| - 1;
      ManagedAreReported(rest);
      forall a
        ensures a in Managed(reported) <==> a != "" && exists k :: 0 <= k < |reported| && Strip(reported[k]) == a
      {
        if k :| 0 <= k < |reported| && Strip(reported[k]) == a {
          assert k < last ==> Strip(rest[k]) == a;
        }
        if k :| 0 <= k < |rest| && Strip(rest[k]) == a { assert Strip(reported[k]) == a; }
      }
    }
  }

  /** Some report of `a` comes before every report of `b`. */
  ghost predicate ReportedBefore(reported: seq<Account>, a: Account, b: Account) {
    exists k :: 0 <= k < |reported| && Strip(reported[k]) == a && forall m | 0 <= m <= k :: Strip(reported[m]) != b
  }

  lemma ReportedBeforeStays(reported: seq<Account>, more: Account, a: Account, b: Account)
    requires ReportedBefore(reported, a, b)
    ensures ReportedBefore(reported + [more], a, b)
  {
    var k :| 0 <= k < |reported| && Strip(reported[k]) == a && forall m | 0 <= m <= k :: Strip(reported[m]) != b;
    assert forall m | 0 <= m <= k :: (reported + [more])[m] == reported[m];
    assert Strip((reported + [more])[k]) == a;
  }

  lemma {:induction false} NewNameIsLast(reported: seq<Account>, a: Account, name: Account)
    requires a in Managed(reported) && name !in Managed(reported) && name != ""
    ensures ReportedBefore(reported, a, name)
  {
    ManagedAreReported(reported);
    var k :| 0 <= k < |reported| && Strip(reported[k]) == a;
    assert forall m | 0 <= m < |reported| :: Strip(reported[m]) != name;
  }

  /** The managed accounts stand in the order in which they were first reported. */
  lemma {:induction false} ManagedInOrder(reported: seq<Account>, i: nat, j: nat)
    requires i < j < |Managed(reported)|
    ensures ReportedBefore(reported, Managed(reported)[i], Managed(reported)[j])
  {
    var rest, last := reported[..|reported| - 1], reported[|reported| - 1];
    assert reported == rest + [last];
    if j < |Managed(rest)| {
      ManagedInOrder(rest, i, j);
    } else {
      NewNameIsLast(rest, Managed(reported)[i], Strip(last));
    }
    ReportedBeforeStays(rest, last, Managed(reported)[i], Managed(reported)[j]);
  }

  lemma RefreshIsSound(settings: Settings, reported: seq<Account>)
    ensures Sound(settings, Refreshed(settings, reported))
  {
    ManagedAreReported(reported);
  }

  /** The default is the configured account if the login manages it, else the only managed one. */
  lemma {:induction false} DefaultExactlyWhen(settings: Settings, reported: seq<Account>, a: Account)
    ensures Refreshed(settings, reported).chosen == Some(a) <==>
      if settings.ibAccount.Some? && settings.ibAccount.value != "" then
        settings.ibAccount == Some(a) && a in Managed(reported)
      else a in Managed(reported) && forall b | b in Managed(reported) :: a == b
  {
    ManagedAreReported(reported);
    var managed := Managed(reported);
    if !Configured(settings) && a in managed && forall b | b in managed :: a == b { OnlyOne(managed, a); }
  }

  lemma TwoNames(managed: seq<Account>)
    requires |managed| > 1
    requires forall i, j | 0 <= i < j < |managed| :: managed[i] != managed[j]
    ensures managed[0] in managed && managed[1] in managed && managed[0] != managed[1]
  {
  }

  lemma OnlyOne(managed: seq<Account>, a: Account)
    requires a in managed && forall b | b in managed :: a == b
    requires forall i, j | 0 <= i < j < |managed| :: managed[i] != managed[j]
    ensures managed == [a]
  {
    if |managed| > 1 { TwoNames(managed); }
  }

  /** Whatever an account resolves to is allowed and managed; with no name it is the default. */
  lemma {:induction false} ResolvedIsAllowed(settings: Settings, reported: seq<Account>, account: Option<string>)
    ensures var scope := Refreshed(settings, reported); var r := Resolve(scope, account);
      && (r.Success? ==> r.value in scope.allowed && r.value in Managed(reported))
      && (r.Success? ==>
            if Clean(account).None? then scope.chosen == Some(r.value) else Clean(account) == Some(r.value))
      && (r == Failure(NotConnected) <==> Managed(reported) == [])
  {
    RefreshIsSound(settings, reported);
  }

  /** Every allowed account is what some name resolves to, if names are free of surrounding space. */
  lemma AllowedResolves(settings: Settings, reported: seq<Account>, a: Account)
    requires a in Refreshed(settings, reported).allowed
    ensures Resolve(Refreshed(settings, reported), Some(a)) == Success(a)
  {
    RefreshIsSound(settings, reported);
    ManagedAreStripped(reported, a);
  }

  lemma {:induction false} ManagedAreStripped(reported: seq<Account>, a: Account)
    requires a in Managed(reported)
    ensures a != "" && Strip(a) == a
  {
    ManagedAreReported(reported);
    var k :| 0 <= k < |reported| && Strip(reported[k]) == a;
    StripTwice(reported[k]);
  }

  /** Nothing live is in scope exactly when every account that counts is named as a paper account. */
  lemma NothingLiveExactlyWhen(settings: Settings, reported: seq<Account>)
    ensures var scope := Refreshed(settings, reported);
      LiveInScope(scope) == {} <==>
        && (forall a | a in scope.allowed :: NamedPaper(a))
        && (scope.allowed == {} ==> forall a | a in scope.managed :: NamedPaper(a))
  {
    var scope := Refreshed(settings, reported);
    var live := LiveInScope(scope);
    RefreshIsSound(settings, reported);
    forall a | a in scope.managed ensures IsPaper(a) <==> NamedPaper(a) {
      ManagedAreStripped(reported, a);
      StrippedPaper(a);
    }
    if live == {} {
      forall a | a in scope.allowed ensures NamedPaper(a) { assert a !in live; }
      if scope.allowed == {} {
        forall a | a in scope.managed ensures NamedPaper(a) { assert a !in live; }
      }
    }
  }

  /** No account is named: nothing, or only blanks. */
  ghost predicate NoName(text: Option<string>) {
    text.None? || Blank(text.value)
  }

  lemma CleanExactlyWhen(text: Option<string>)
    ensures Clean(text).None? <==> NoName(text)
    ensures !NoName(text) ==> Clean(text) == Some(Strip(text.value))
  {
    if text.Some? { BlankExactlyWhen(text.value); }
  }

  /** What a call gets: the default without a name, the named account if allowed, or which refusal. */
  lemma ResolvesExactlyWhen(scope: Scope, account: Option<string>, a: Account)
    ensures Resolve(scope, account) == Success(a) <==>
      && scope.managed != []
      && if NoName(account) then scope.chosen == Some(a) else Strip(account.value) == a && a in scope.allowed
    ensures Resolve(scope, account) == Failure(NotConnected) <==> scope.managed == []
    ensures Resolve(scope, account) == Failure(NoDefault) <==>
      scope.managed != [] && NoName(account) && scope.chosen.None?
    ensures Resolve(scope, account) == Failure(NotAllowed) <==>
      scope.managed != [] && !NoName(account) && Strip(account.value) !in scope.allowed
  {
    CleanExactlyWhen(account);
  }

  // ----- records -----

  /** Where a record may name its account; the execution and the order may be missing. */
  datatype Record = Record(account: Option<string>, execution: Option<Option<string>>, order: Option<Option<string>>)

  function AccountOf(record: Record): Option<Account> {
    if Clean(record.account).Some? then Clean(record.account)
    else if record.execution.Some? && Clean(record.execution.value).Some? then Clean(record.execution.value)
    else if record.order.Some? then Clean(record.order.value)
    else None
  }

  /** A record belongs to the account it names itself, else its execution does, else its order does. */
  lemma AttributionOrder(direct: Option<string>, execution: Option<Option<string>>, order: Option<Option<string>>)
    ensures var found := AccountOf(Record(direct, execution, order));
      && (!NoName(direct) ==> found == Some(Strip(direct.value)))
      && (NoName(direct) && execution.Some? && !NoName(execution.value) ==> found == Some(Strip(execution.value.value)))
      && (NoName(direct) && (execution.None? || NoName(execution.value)) && order.Some? && !NoName(order.value) ==>
            found == Some(Strip(order.value.value)))
      && (NoName(direct) && (execution.None? || NoName(execution.value)) && (order.None? || NoName(order.value)) ==>
            found.None?)
  {
    CleanExactlyWhen(direct);
    if execution.Some? { CleanExactlyWhen(execution.value); }
    if order.Some? { CleanExactlyWhen(order.value); }
  }

  /** The records that belong to the account, in order. */
  function Belonging(records: seq<Record>, target: Account): seq<Record> {
    if records == [] then []
    else (if AccountOf(records[0]) == Some(target) then [records[0]] else []) + Belonging(records[1..], target)
  }

  function Filter(scope: Scope, records: seq<Record>, account: Option<string>): Result<seq<Record>, Refusal> {
    var target := Resolve(scope, account);
    if target.Failure? then Failure(target.error) else Success(Belonging(records, target.value))
  }

  lemma {:induction false} BelongingIsExact(records: seq<Record>, target: Account, r: Record)
    ensures multiset(Belonging(records, target))[r] == if AccountOf(r) == Some(target) then multiset(records)[r] else 0
  {
    if records != [] {
      assert records == [records[0]] + records[1..];
      BelongingIsExact(records[1..], target, r);
    }
  }

  /** A filter leaks nothing: each record kept names the resolved, allowed account; none is lost. */
  lemma FilterLeaksNothing(settings: Settings, reported: seq<Account>, records: seq<Record>, account: Option<string>,
                           r: Record)
    ensures var scope := Refreshed(settings, reported); var kept := Filter(scope, records, account);
      && (kept.Success? <==> Resolve(scope, account).Success?)
      && (kept.Success? && AccountOf(r) == Some(Resolve(scope, account).value) ==>
            multiset(kept.value)[r] == multiset(records)[r])
      && (kept.Success? && AccountOf(r) != Some(Resolve(scope, account).value) ==> r !in kept.value)
      && (kept.Success? && r in kept.value ==> AccountOf(r).Some? && AccountOf(r).value in scope.allowed)
  {
    ResolvedIsAllowed(settings, reported, account);
    var target := Resolve(Refreshed(settings, reported), account);
    if target.Success? { BelongingIsExact(records, target.value, r); }
  }

  /** The default account and allowlist of a login. */
  class AccountScope {
    const settings: Settings
    var managed: seq<Account>
    var chosen: Option<Account>
    var allowed: set<Account>

    function View(): Scope
      reads this
    {
      Scope(managed, chosen, allowed)
    }

    constructor (settings: Settings)
      ensures this.settings == settings && View() == UNKNOWN_SCOPE
    {
      this.settings := settings;
      managed, chosen, allowed := [], None, {};
    }

    /** Recompute the default and the allowlist from the login's managed accounts. */
    method Refresh(reported: seq<Account>)
      modifies this
      ensures View() == Refreshed(settings, reported)
    {
      managed := [];
      for k := 0 to |reported|
        invariant managed == Managed(reported[..k])
      {
        assert reported[..k + 1][..k] == reported[..k];
        var name := Strip(reported[k]);
        if name != "" && name !in managed {
          managed := managed + [name];
        }
      }
      assert reported[..|reported|] == reported;
      chosen := PickDefaultNow();
      allowed := PickAllowedNow();
    }

    method PickDefaultNow() returns (picked: Option<Account>)
      ensures picked == PickDefault(settings, managed)
    {
      if Configured(settings) {
        if settings.ibAccount.value in managed {
          return settings.ibAccount;
        }
        return None;
      }
      if |managed| == 1 {
        return Some(managed[0]);
      }
      return None;
    }

    method PickAllowedNow() returns (picked: set<Account>)
      ensures picked == PickAllowed(settings, managed, chosen)
    {
      picked := set a | a in settings.allowlist && a in managed;
      if chosen.Some? {
        picked := picked + {chosen.value};
      }
    }
  }
}
