/** Differences between two allocation-group configurations, and their order-free fingerprint. */
module FaGroups {
  import opened Wrappers
  import opened Sorting
  import opened Seqs

  datatype Member = Member(account: string, amount: Option<real>)

  datatype Group = Group(name: string, allocation: Option<string>, members: seq<Member>)

  // ----- insertion-ordered dictionaries -----

  /** Keys in insertion order; a key set again keeps its place and takes the new value. */
  datatype Dict<V> = Dict(keys: seq<string>, items: map<string, V>)

  function Put<V>(d: Dict<V>, key: string, value: V): Dict<V> {
    Dict(if key in d.items then d.keys else d.keys + [key], d.items[key := value])
  }

  function DictOf<V>(pairs: seq<(string, V)>): Dict<V> {
    if pairs == [] then Dict([], map[])
    else Put(DictOf(pairs[..|pairs| - 1]), pairs[|pairs| - 1].0, pairs[|pairs| - 1].1)
  }

  ghost predicate UniqueKeys<V>(pairs: seq<(string, V)>) {
    forall i, j | 0 <= i < j < |pairs| :: pairs[i].0 != pairs[j].0
  }

  lemma {:induction false} DictKeys<V>(pairs: seq<(string, V)>)
    ensures Distinct(DictOf(pairs).keys)
    ensures forall k :: k in DictOf(pairs).keys <==> k in DictOf(pairs).items
  {
    if pairs != [] { DictKeys(pairs[..|pairs| - 1]); }
  }

  lemma {:induction false} DictHas<V>(pairs: seq<(string, V)>, key: string)
    ensures key in DictOf(pairs).items <==> exists i :: 0 <= i < |pairs| && pairs[i].0 == key
  {
    if pairs != [] {
      var rest, last := pairs[..|pairs| - 1], |pairs| - 1;
      DictHas(rest, key);
      if i :| 0 <= i < |rest| && rest[i].0 == key { assert pairs[i].0 == key; }
      if i :| 0 <= i < |pairs| && pairs[i].0 == key { assert i < last ==> rest[i].0 == key; }
    }
  }

  lemma {:induction false} DictOfUnique<V>(pairs: seq<(string, V)>)
    requires UniqueKeys(pairs)
    ensures forall p: (string, V) :: p in pairs <==> p.0 in DictOf(pairs).items && DictOf(pairs).items[p.0] == p.1
  {
    if pairs != [] {
      var rest, last := pairs[..|pairs| - 1], pairs[|pairs| - 1];
      DictOfUnique(rest);
      assert pairs == rest + [last];
      assert forall p | p in rest :: p.0 != last.0;
    }
  }

  lemma {:induction false} CountWithoutRepeats<T>(s: seq<T>, x: T)
    requires Distinct(s)
    ensures multiset(s)[x] == if x in s then 1 else 0
  {
    if s != [] {
      assert s == [s[0]] + s[1..];
      CountWithoutRepeats(s[1..], x);
    }
  }

  lemma {:induction false} SameDictMeansSameList<V(!new)>(a: seq<(string, V)>, b: seq<(string, V)>)
    requires UniqueKeys(a) && UniqueKeys(b) && DictOf(a).items == DictOf(b).items
    ensures multiset(a) == multiset(b)
  {
    DictOfUnique(a);
    DictOfUnique(b);
    forall x ensures multiset(a)[x] == multiset(b)[x] {
      CountWithoutRepeats(a, x);
      CountWithoutRepeats(b, x);
    }
  }

  lemma {:induction false} SameListMeansSameDict<V(!new)>(a: seq<(string, V)>, b: seq<(string, V)>)
    requires UniqueKeys(a) && UniqueKeys(b) && multiset(a) == multiset(b)
    ensures DictOf(a).items == DictOf(b).items
  {
    DictOfUnique(a);
    DictOfUnique(b);
    var da, db := DictOf(a).items, DictOf(b).items;
    forall k | k in da ensures k in db && da[k] == db[k] {
      var p := (k, da[k]);
      assert p in a && p in multiset(b);
      assert p in b;
    }
    forall k | k in db ensures k in da {
      var p := (k, db[k]);
      assert p in b && p in multiset(a);
      assert p in a;
    }
  }

  /** Lists of unique keys have the same elements exactly when they are the same dictionary. */
  lemma {:induction false} SameDictExactly<V(!new)>(a: seq<(string, V)>, b: seq<(string, V)>)
    requires UniqueKeys(a) && UniqueKeys(b)
    ensures multiset(a) == multiset(b) <==> DictOf(a).items == DictOf(b).items
  {
    if DictOf(a).items == DictOf(b).items { SameDictMeansSameList(a, b); }
    if multiset(a) == multiset(b) { SameListMeansSameDict(a, b); }
  }

  // ----- the differences -----

  function AmountPairs(members: seq<Member>): seq<(string, Option<real>)> {
    seq(|members|, i requires 0 <= i < |members| => (members[i].account, members[i].amount))
  }

  function GroupPairs(groups: seq<Group>): seq<(string, Group)> {
    seq(|groups|, i requires 0 <= i < |groups| => (groups[i].name, groups[i]))
  }

  function Amounts(group: Group): Dict<Option<real>> {
    DictOf(AmountPairs(group.members))
  }

  function ByName(groups: seq<Group>): Dict<Group> {
    DictOf(GroupPairs(groups))
  }

  function Accounts(group: Group): seq<string> {
    seq(|group.members|, i requires 0 <= i < |group.members| => group.members[i].account)
  }

  function MethodText(group: Group): string {
    if group.allocation.Some? then group.allocation.value else ""
  }

  datatype Kind = Added | Changed | Removed

  datatype Change = Change(name: string, kind: Kind, methodBefore: Option<string>, methodAfter: Option<string>,
                           accountsAdded: seq<string>, accountsRemoved: seq<string>, amountsChanged: seq<string>)

  /** The keys that `items` does not have, in order. */
  function NotIn<V>(keys: seq<string>, items: map<string, V>): seq<string> {
    if keys == [] then []
    else NotIn(keys[..|keys| - 1], items) + if keys[|keys| - 1] !in items then [keys[|keys| - 1]] else []
  }

  /** The keys that both have with different values, in order. */
  function Differing<V(==)>(keys: seq<string>, a: map<string, V>, b: map<string, V>): seq<string> {
    if keys == [] then []
    else
      var k := keys[|keys| - 1];
      Differing(keys[..|keys| - 1], a, b) + if k in a && k in b && a[k] != b[k] then [k] else []
  }

  lemma {:induction false} NotInMembers<V>(keys: seq<string>, items: map<string, V>)
    ensures forall k :: k in NotIn(keys, items) <==> k in keys && k !in items
  {
    if keys != [] {
      NotInMembers(keys[..|keys| - 1], items);
      assert keys == keys[..|keys| - 1] + [keys[|keys| - 1]];
    }
  }

  lemma {:induction false} DifferingMembers<V>(keys: seq<string>, a: map<string, V>, b: map<string, V>)
    ensures forall k :: k in Differing(keys, a, b) <==> k in keys && k in a && k in b && a[k] != b[k]
  {
    if keys != [] {
      DifferingMembers(keys[..|keys| - 1], a, b);
      assert keys == keys[..|keys| - 1] + [keys[|keys| - 1]];
    }
  }

  /** How a group differs from the one it replaces, if it does. */
  function Compare(name: string, previous: Group, group: Group): Option<Change> {
    var earlier, later := Amounts(previous), Amounts(group);
    var added := NotIn(later.keys, earlier.items);
    var removed := NotIn(earlier.keys, later.items);
    var amounts := Differing(later.keys, earlier.items, later.items);
    if previous.allocation == group.allocation && added == [] && removed == [] && amounts == [] then None
    else Some(Change(name, Changed, previous.allocation, group.allocation, added, removed, amounts))
  }

  function Addition(name: string, group: Group): Change {
    Change(name, Added, None, group.allocation, Accounts(group), [], [])
  }

  function Removal(name: string, group: Group): Change {
    Change(name, Removed, group.allocation, None, [], Accounts(group), [])
  }

  /** What becomes of a group of the later configuration: its change, or none. */
  function Fate(earlier: map<string, Group>, later: map<string, Group>): string -> Option<Change> {
    name =>
      if name !in later then None
      else if name !in earlier then Some(Addition(name, later[name]))
      else Compare(name, earlier[name], later[name])
  }

  function ChangesOf(keys: seq<string>, fate: string -> Option<Change>): seq<Change> {
    if keys == [] then []
    else
      var k := keys[|keys| - 1];
      ChangesOf(keys[..|keys| - 1], fate) + if fate(k).Some? then [fate(k).value] else []
  }

  function UnchangedOf(keys: seq<string>, fate: string -> Option<Change>): seq<string> {
    if keys == [] then []
    else
      var k := keys[|keys| - 1];
      UnchangedOf(keys[..|keys| - 1], fate) + if fate(k).None? then [k] else []
  }

  function RemovalsOf(keys: seq<string>, earlier: map<string, Group>, later: map<string, Group>): seq<Change>
    requires forall k | k in keys :: k in earlier
  {
    if keys == [] then []
    else
      var k := keys[|keys| - 1];
      RemovalsOf(keys[..|keys| - 1], earlier, later) + if k !in later then [Removal(k, earlier[k])] else []
  }

  function FateBetween(before: seq<Group>, after: seq<Group>): string -> Option<Change> {
    Fate(ByName(before).items, ByName(after).items)
  }

  function Gone(before: seq<Group>, after: seq<Group>): seq<Change> {
    DictKeys(GroupPairs(before));
    RemovalsOf(ByName(before).keys, ByName(before).items, ByName(after).items)
  }

  /** The changes from one configuration to another: those of its groups, then the removals. */
  function Changes(before: seq<Group>, after: seq<Group>): seq<Change> {
    ChangesOf(ByName(after).keys, FateBetween(before, after)) + Gone(before, after)
  }

  function Unchanged(before: seq<Group>, after: seq<Group>): seq<string> {
    UnchangedOf(ByName(after).keys, FateBetween(before, after))
  }

  method CompareGroups(name: string, previous: Group, group: Group) returns (change: Option<Change>)
    ensures change == Compare(name, previous, group)
  {
    var earlierAmounts, laterAmounts := Amounts(previous), Amounts(group);
    var added := NotIn(laterAmounts.keys, earlierAmounts.items);
    var removed := NotIn(earlierAmounts.keys, laterAmounts.items);
    var amounts := Differing(laterAmounts.keys, earlierAmounts.items, laterAmounts.items);
    if previous.allocation == group.allocation && added == [] && removed == [] && amounts == [] {
      return None;
    }
    return Some(Change(name, Changed, previous.allocation, group.allocation, added, removed, amounts));
  }

  method FateOf(name: string, earlier: map<string, Group>, later: map<string, Group>) returns (change: Option<Change>)
    requires name in later
    ensures change == Fate(earlier, later)(name)
  {
    if name !in earlier {
      return Some(Addition(name, later[name]));
    }
    change := CompareGroups(name, earlier[name], later[name]);
  }

  lemma FatesUpTo(keys: seq<string>, i: nat, fate: string -> Option<Change>)
    requires i < |keys|
    ensures ChangesOf(keys[..i + 1], fate)
         == ChangesOf(keys[..i], fate) + if fate(keys[i]).Some? then [fate(keys[i]).value] else []
    ensures UnchangedOf(keys[..i + 1], fate)
         == UnchangedOf(keys[..i], fate) + if fate(keys[i]).None? then [keys[i]] else []
  {
    assert keys[..i + 1][..i] == keys[..i];
  }

  method Diff(before: seq<Group>, after: seq<Group>) returns (changes: seq<Change>, kept: seq<string>)
    ensures changes == Changes(before, after) && kept == Unchanged(before, after)
  {
    DictKeys(GroupPairs(before));
    DictKeys(GroupPairs(after));
    var earlier, later := ByName(before), ByName(after);
    ghost var fate := FateBetween(before, after);
    changes, kept := [], [];
    for i := 0 to |later.keys|
      invariant changes == ChangesOf(later.keys[..i], fate) && kept == UnchangedOf(later.keys[..i], fate)
    {
      var name := later.keys[i];
      var change := FateOf(name, earlier.items, later.items);
      FatesUpTo(later.keys, i, fate);
      if change.Some? {
        changes := changes + [change.value];
      } else {
        kept := kept + [name];
      }
    }
    assert later.keys[..|later.keys|] == later.keys;
    changes := changes + RemovalsOf(earlier.keys, earlier.items, later.items);
  }

  // ----- every name once -----

  function ChangeNames(changes: seq<Change>): seq<string> {
    seq(|changes|, i requires 0 <= i < |changes| => changes[i].name)
  }

  lemma ChangeNamesJoin(a: seq<Change>, b: seq<Change>)
    ensures ChangeNames(a + b) == ChangeNames(a) + ChangeNames(b)
  {
  }

  lemma CountJoin<T>(a: seq<T>, b: seq<T>, x: T)
    ensures multiset(a + b)[x] == multiset(a)[x] + multiset(b)[x]
  {
  }

  lemma {:induction false} NewNamesOnce(keys: seq<string>, fate: string -> Option<Change>, x: string)
    requires forall k | fate(k).Some? :: fate(k).value.name == k
    ensures multiset(ChangeNames(ChangesOf(keys, fate)))[x] + multiset(UnchangedOf(keys, fate))[x] == multiset(keys)[x]
  {
    if keys != [] {
      var rest, k := keys[..|keys| - 1], keys[|keys| - 1];
      NewNamesOnce(rest, fate, x);
      CountLast(keys, x);
      CountOneMore(ChangesOf(rest, fate), UnchangedOf(rest, fate), fate(k), k, x);
    }
  }

  lemma CountLast<T>(s: seq<T>, x: T)
    requires s != []
    ensures multiset(s)[x] == multiset(s[..|s| - 1])[x] + if s[|s| - 1] == x then 1 else 0
  {
    assert s == s[..|s| - 1] + [s[|s| - 1]];
  }

  lemma CountOneMore(changes: seq<Change>, kept: seq<string>, change: Option<Change>, k: string, x: string)
    requires change.Some? ==> change.value.name == k
    ensures var more := changes + if change.Some? then [change.value] else [];
      var still := kept + if change.None? then [k] else [];
      multiset(ChangeNames(more))[x] + multiset(still)[x]
        == multiset(ChangeNames(changes))[x] + multiset(kept)[x] + if k == x then 1 else 0
  {
    assert changes + [] == changes && kept + [] == kept;
    if change.Some? {
      ChangeNamesJoin(changes, [change.value]);
      assert ChangeNames([change.value]) == [k];
      CountJoin(ChangeNames(changes), [k], x);
    } else {
      CountJoin(kept, [k], x);
    }
  }

  lemma {:induction false} RemovedNamesAre(keys: seq<string>, earlier: map<string, Group>, later: map<string, Group>)
    requires forall k | k in keys :: k in earlier
    ensures ChangeNames(RemovalsOf(keys, earlier, later)) == NotIn(keys, later)
  {
    if keys != [] {
      var rest, k := keys[..|keys| - 1], keys[|keys| - 1];
      RemovedNamesAre(rest, earlier, later);
      ChangeNamesJoin(RemovalsOf(rest, earlier, later), if k !in later then [Removal(k, earlier[k])] else []);
      if k !in later { assert ChangeNames([Removal(k, earlier[k])]) == [k]; }
    }
  }

  lemma {:induction false} NotInOnce<V>(keys: seq<string>, items: map<string, V>)
    requires Distinct(keys)
    ensures Distinct(NotIn(keys, items))
  {
    if keys != [] {
      NotInOnce(keys[..|keys| - 1], items);
      NotInMembers(keys[..|keys| - 1], items);
    }
  }

  ghost predicate Names(groups: seq<Group>, name: string) {
    exists i :: 0 <= i < |groups| && groups[i].name == name
  }

  lemma NamesAreKeys(groups: seq<Group>, name: string)
    ensures Names(groups, name) <==> name in ByName(groups).items
  {
    DictHas(GroupPairs(groups), name);
    if Names(groups, name) {
      var i :| 0 <= i < |groups| && groups[i].name == name;
      assert GroupPairs(groups)[i].0 == name;
    }
  }

  /** Every name of either configuration is classified exactly once, and no other name is. */
  lemma EveryNameOnce(before: seq<Group>, after: seq<Group>, name: string)
    ensures multiset(ChangeNames(Changes(before, after)) + Unchanged(before, after))[name]
         == if Names(before, name) || Names(after, name) then 1 else 0
  {
    NamesAreKeys(before, name);
    NamesAreKeys(after, name);
    DictKeys(GroupPairs(after));
    FatesKeepNames(before, after);
    var kept, gone := Unchanged(before, after), Gone(before, after);
    var ours := ChangesOf(ByName(after).keys, FateBetween(before, after));
    ChangeNamesJoin(ours, gone);
    CountJoin(ChangeNames(ours), ChangeNames(gone), name);
    CountJoin(ChangeNames(ours + gone), kept, name);
    NewNamesOnce(ByName(after).keys, FateBetween(before, after), name);
    CountWithoutRepeats(ByName(after).keys, name);
    GoneOnce(before, after, name);
  }

  lemma FatesKeepNames(before: seq<Group>, after: seq<Group>)
    ensures forall k | FateBetween(before, after)(k).Some? :: FateBetween(before, after)(k).value.name == k
  {
  }

  lemma GoneOnce(before: seq<Group>, after: seq<Group>, name: string)
    ensures multiset(ChangeNames(Gone(before, after)))[name]
         == if name in ByName(before).items && name !in ByName(after).items then 1 else 0
  {
    DictKeys(GroupPairs(before));
    var keys, later := ByName(before).keys, ByName(after).items;
    RemovedNamesAre(keys, ByName(before).items, later);
    NotInOnce(keys, later);
    NotInMembers(keys, later);
    CountWithoutRepeats(NotIn(keys, later), name);
  }

  // ----- what a change says -----

  ghost predicate UniqueNames(groups: seq<Group>) {
    UniqueKeys(GroupPairs(groups))
  }

  ghost predicate UniqueAccounts(group: Group) {
    UniqueKeys(AmountPairs(group.members))
  }

  /** Names and, within a group, accounts occur once. */
  ghost predicate Proper(groups: seq<Group>) {
    UniqueNames(groups) && forall g | g in groups :: UniqueAccounts(g)
  }

  /** The accounts of a group. */
  ghost function AccountSet(group: Group): (accounts: set<string>)
    ensures accounts == Amounts(group).items.Keys
  {
    AccountsHaveAmounts(group);
    set m | m in group.members :: m.account
  }

  lemma AccountsHaveAmounts(group: Group)
    ensures (set m | m in group.members :: m.account) == Amounts(group).items.Keys
  {
    var pairs := AmountPairs(group.members);
    forall a ensures (exists m :: m in group.members && m.account == a) <==> a in Amounts(group).items {
      DictHas(pairs, a);
      if m :| m in group.members && m.account == a {
        var i :| 0 <= i < |group.members| && group.members[i] == m;
        assert pairs[i].0 == a;
      }
    }
  }

  lemma EmptyExactly(s: seq<string>)
    ensures s == [] <==> forall k :: k !in s
  {
    if s != [] { assert s[0] in s; }
  }

  lemma DictsDiffer<V>(a: Dict<V>, b: Dict<V>)
    requires (forall k :: k in a.keys <==> k in a.items) && (forall k :: k in b.keys <==> k in b.items)
    ensures NotIn(b.keys, a.items) == [] && NotIn(a.keys, b.items) == [] && Differing(b.keys, a.items, b.items) == []
      <==> a.items == b.items
  {
    NotInEmpty(b.keys, a.items);
    NotInEmpty(a.keys, b.items);
    DifferingMembers(b.keys, a.items, b.items);
    EmptyExactly(Differing(b.keys, a.items, b.items));
  }

  lemma {:induction false} NotInEmpty<V>(keys: seq<string>, items: map<string, V>)
    ensures NotIn(keys, items) == [] <==> forall k | k in keys :: k in items
  {
    NotInMembers(keys, items);
    EmptyExactly(NotIn(keys, items));
  }

  /** A group counts as unchanged exactly when its method and the amounts of its accounts are. */
  lemma ComparesEqualExactlyWhen(name: string, previous: Group, group: Group)
    ensures Compare(name, previous, group).None? <==>
      previous.allocation == group.allocation && Amounts(previous).items == Amounts(group).items
  {
    DictKeys(AmountPairs(previous.members));
    DictKeys(AmountPairs(group.members));
    DictsDiffer(Amounts(previous), Amounts(group));
  }

  /** The accounts of a changed group are those it had, less the removed ones, and the added ones. */
  lemma ChangedAccountsAddUp(name: string, previous: Group, group: Group)
    requires Compare(name, previous, group).Some?
    ensures var c := Compare(name, previous, group).value;
      && AccountSet(group) == AccountSet(previous) - (set a | a in c.accountsRemoved) + (set a | a in c.accountsAdded)
      && (forall a | a in c.accountsRemoved :: a in AccountSet(previous) && a !in AccountSet(group))
      && (forall a | a in c.accountsAdded :: a in AccountSet(group) && a !in AccountSet(previous))
      && (forall a :: a in c.amountsChanged <==> a in AccountSet(previous) && a in AccountSet(group)
                                                  && Amounts(previous).items[a] != Amounts(group).items[a])
  {
    DictKeys(AmountPairs(previous.members));
    DictKeys(AmountPairs(group.members));
    var a, b := Amounts(previous), Amounts(group);
    NotInMembers(b.keys, a.items);
    NotInMembers(a.keys, b.items);
    DifferingMembers(b.keys, a.items, b.items);
  }

  lemma {:induction false} ChangesAreFates(keys: seq<string>, fate: string -> Option<Change>)
    ensures ChangesOf(keys, fate) == [] <==> forall k | k in keys :: fate(k).None?
    ensures forall c :: c in ChangesOf(keys, fate) <==> exists k :: k in keys && fate(k) == Some(c)
  {
    if keys != [] {
      var rest, k := keys[..|keys| - 1], keys[|keys| - 1];
      ChangesAreFates(rest, fate);
      assert keys == rest + [k];
      assert forall x :: x in keys <==> x in rest || x == k;
    }
  }

  lemma {:induction false} RemovalsAre(keys: seq<string>, earlier: map<string, Group>, later: map<string, Group>)
    requires forall k | k in keys :: k in earlier
    ensures RemovalsOf(keys, earlier, later) == [] <==> forall k | k in keys :: k in later
    ensures forall c :: c in RemovalsOf(keys, earlier, later) <==>
      c.name in keys && c.name !in later && c == Removal(c.name, earlier[c.name])
  {
    if keys != [] {
      var rest, k := keys[..|keys| - 1], keys[|keys| - 1];
      RemovalsAre(rest, earlier, later);
      assert keys == rest + [k];
      assert forall x :: x in keys <==> x in rest || x == k;
    }
  }

  /** Each change listed is what became of its group: added, changed as compared, or removed. */
  lemma ChangesSayWhatHappened(before: seq<Group>, after: seq<Group>, c: Change)
    ensures c in Changes(before, after) <==>
      var earlier, later := ByName(before).items, ByName(after).items;
      || (c.name !in earlier && c.name in later && c == Addition(c.name, later[c.name]))
      || (c.name in earlier && c.name !in later && c == Removal(c.name, earlier[c.name]))
      || (c.name in earlier && c.name in later && Compare(c.name, earlier[c.name], later[c.name]) == Some(c))
  {
    DictKeys(GroupPairs(before));
    DictKeys(GroupPairs(after));
    ChangesAreFates(ByName(after).keys, FateBetween(before, after));
    RemovalsAre(ByName(before).keys, ByName(before).items, ByName(after).items);
    FatesAreNamed(ByName(before).items, ByName(after).items, c);
  }

  lemma FatesAreNamed(earlier: map<string, Group>, later: map<string, Group>, c: Change)
    ensures forall k :: Fate(earlier, later)(k) == Some(c) ==> k == c.name
    ensures c.name !in later ==> Fate(earlier, later)(c.name).None?
    ensures c.name in later && c.name !in earlier ==>
              Fate(earlier, later)(c.name) == Some(Addition(c.name, later[c.name]))
    ensures c.name in later && c.name in earlier ==>
      Fate(earlier, later)(c.name) == Compare(c.name, earlier[c.name], later[c.name])
  {
  }

  /** The group of that name is in both configurations with the same method and amounts. */
  ghost predicate SameGroup(before: seq<Group>, after: seq<Group>, name: string) {
    && name in ByName(before).items && name in ByName(after).items
    && ByName(before).items[name].allocation == ByName(after).items[name].allocation
    && Amounts(ByName(before).items[name]).items == Amounts(ByName(after).items[name]).items
  }

  lemma FateNoneExactly(before: seq<Group>, after: seq<Group>, name: string)
    requires name in ByName(after).items
    ensures FateBetween(before, after)(name).None? <==> SameGroup(before, after, name)
  {
    var earlier, later := ByName(before).items, ByName(after).items;
    if name in earlier { ComparesEqualExactlyWhen(name, earlier[name], later[name]); }
  }

  /** The change list is empty exactly when every group of either is in the other, the same. */
  lemma NoChangesExactlyWhen(before: seq<Group>, after: seq<Group>)
    ensures Changes(before, after) == [] <==>
      forall name | name in ByName(before).items || name in ByName(after).items :: SameGroup(before, after, name)
  {
    DictKeys(GroupPairs(before));
    DictKeys(GroupPairs(after));
    ChangesAreFates(ByName(after).keys, FateBetween(before, after));
    RemovalsAre(ByName(before).keys, ByName(before).items, ByName(after).items);
    forall name | name in ByName(after).items
      ensures FateBetween(before, after)(name).None? <==> SameGroup(before, after, name)
    {
      FateNoneExactly(before, after, name);
    }
  }

  // ----- which proposals are usable -----

  datatype Problem =
    | NoGroups
    | NoName(number: nat)
    | DefinedTwice(name: string)
    | BadText(value: string)
    | Malformed(name: string, accounts: seq<string>)
    | Repeated(name: string, twice: set<string>)

  /** Names and methods are visible text, accounts are well-formed and listed once. */
  ghost predicate Usable(group: Group, textOk: string -> bool, idOk: string -> bool) {
    && group.name != "" && textOk(group.name)
    && (MethodText(group) != "" ==> textOk(MethodText(group)))
    && (forall a | a in Accounts(group) :: idOk(a))
    && UniqueAccounts(group)
  }

  lemma RepeatsShow(s: seq<string>)
    ensures Distinct(s) <==> forall a | a in s :: multiset(s)[a] <= 1
  {
    if Distinct(s) {
      forall a | a in s ensures multiset(s)[a] <= 1 { CountWithoutRepeats(s, a); }
    } else {
      var i, j :| 0 <= i < j < |s| && s[i] == s[j];
      assert s == s[..j] + s[j..];
      assert s[i] in s[..j] && s[j] in s[j..];
      CountJoin(s[..j], s[j..], s[i]);
    }
  }

  lemma AccountsRepeat(group: Group)
    ensures UniqueAccounts(group) <==> Distinct(Accounts(group))
  {
    assert forall i | 0 <= i < |group.members| :: AmountPairs(group.members)[i].0 == Accounts(group)[i];
  }

  /** The problems of one group, but for its name. */
  method GroupProblems(group: Group, textOk: string -> bool, idOk: string -> bool) returns (problems: seq<Problem>)
    ensures problems == [] <==>
      (group.name != "" ==> textOk(group.name)) && (MethodText(group) != "" ==> textOk(MethodText(group)))
      && (forall a | a in Accounts(group) :: idOk(a)) && UniqueAccounts(group)
  {
    problems := [];
    if group.name != "" && !textOk(group.name) {
      problems := problems + [BadText(group.name)];
    }
    if MethodText(group) != "" && !textOk(MethodText(group)) {
      problems := problems + [BadText(MethodText(group))];
    }
    var accounts := Accounts(group);
    var malformed := Filter(accounts, (a: string) => !idOk(a));
    FilterMembers(accounts, (a: string) => !idOk(a));
    EmptyExactly(malformed);
    if malformed != [] {
      problems := problems + [Malformed(group.name, malformed)];
    }
    var repeated := set a | a in accounts && multiset(accounts)[a] > 1;
    RepeatsShow(accounts);
    AccountsRepeat(group);
    assert repeated == {} <==> forall a | a in accounts :: a !in repeated;
    if repeated != {} {
      problems := problems + [Repeated(group.name, repeated)];
    }
  }

  ghost predicate UsableUpTo(groups: seq<Group>, n: nat, textOk: string -> bool, idOk: string -> bool)
    requires n <= |groups|
  {
    && (forall i | 0 <= i < n :: Usable(groups[i], textOk, idOk))
    && (forall i, j | 0 <= i < j < n :: groups[i].name != groups[j].name)
  }

  /** Proposals without problems, and only they, are non-empty, proper and usable throughout. */
  method FindProblems(groups: seq<Group>, textOk: string -> bool, idOk: string -> bool) returns (problems: seq<Problem>)
    ensures problems == [] <==> groups != [] && Proper(groups) && forall g | g in groups :: Usable(g, textOk, idOk)
  {
    problems := if groups == [] then [NoGroups] else [];
    var seen: set<string> := {};
    for n := 0 to |groups|
      invariant forall x :: x in seen <==> exists i :: 0 <= i < n && groups[i].name == x
      invariant problems == [] <==> groups != [] && UsableUpTo(groups, n, textOk, idOk)
    {
      var group := groups[n];
      if group.name == "" {
        problems := problems + [NoName(n + 1)];
      } else if group.name in seen {
        problems := problems + [DefinedTwice(group.name)];
      }
      seen := seen + {group.name};
      var more := GroupProblems(group, textOk, idOk);
      problems := problems + more;
    }
    assert forall i | 0 <= i < |groups| :: GroupPairs(groups)[i].0 == groups[i].name;
  }

  // ----- the fingerprint -----

  type Canon = (string, (string, seq<(string, real)>))

  function CanonMembers(members: seq<Member>): seq<(string, real)> {
    seq(|members|, i requires 0 <= i < |members| =>
      (members[i].account, OrZero(members[i].amount)))
  }

  function CanonValue(group: Group, leq: ((string, real), (string, real)) -> bool): (string, seq<(string, real)>) {
    (MethodText(group), Sort(CanonMembers(group.members), leq))
  }

  function CanonGroups(groups: seq<Group>, leq: ((string, real), (string, real)) -> bool): seq<Canon> {
    seq(|groups|, i requires 0 <= i < |groups| => (groups[i].name, CanonValue(groups[i], leq)))
  }

  /** What is hashed: the groups sorted, each with its members sorted, by the orders of their values. */
  function Digest(groups: seq<Group>, members: ((string, real), (string, real)) -> bool,
                  order: (Canon, Canon) -> bool): seq<Canon>
  {
    Sort(CanonGroups(groups, members), order)
  }

  /** The amounts of a group, none counting as zero. */
  ghost function AmountsOrZero(group: Group): map<string, real> {
    DictOf(CanonMembers(group.members)).items
  }

  /** The group of that name in both, the same but for an absent method or amount counting as empty or zero. */
  ghost predicate AlikeGroup(before: seq<Group>, after: seq<Group>, name: string) {
    && name in ByName(before).items && name in ByName(after).items
    && MethodText(ByName(before).items[name]) == MethodText(ByName(after).items[name])
    && AmountsOrZero(ByName(before).items[name]) == AmountsOrZero(ByName(after).items[name])
  }

  lemma {:induction false} DictOfMapped<V, W>(pairs: seq<(string, V)>, mapped: seq<(string, W)>, f: V -> W)
    requires |mapped| == |pairs| && forall i | 0 <= i < |pairs| :: mapped[i] == (pairs[i].0, f(pairs[i].1))
    ensures forall k :: k in DictOf(mapped).items <==> k in DictOf(pairs).items
    ensures forall k | k in DictOf(pairs).items :: DictOf(mapped).items[k] == f(DictOf(pairs).items[k])
  {
    if pairs != [] { DictOfMapped(pairs[..|pairs| - 1], mapped[..|pairs| - 1], f); }
  }

  lemma CanonOfDict(groups: seq<Group>, leq: ((string, real), (string, real)) -> bool)
    ensures forall k :: k in DictOf(CanonGroups(groups, leq)).items <==> k in ByName(groups).items
    ensures forall k | k in ByName(groups).items ::
      DictOf(CanonGroups(groups, leq)).items[k] == CanonValue(ByName(groups).items[k], leq)
  {
    DictOfMapped(GroupPairs(groups), CanonGroups(groups, leq), (g: Group) => CanonValue(g, leq));
  }

  lemma {:induction false} GroupsOfDict(groups: seq<Group>, name: string)
    requires name in ByName(groups).items
    ensures ByName(groups).items[name] in groups
  {
    if groups != [] {
      var rest := groups[..|groups| - 1];
      assert GroupPairs(groups)[..|groups| - 1] == GroupPairs(rest);
      if groups[|groups| - 1].name != name { GroupsOfDict(rest, name); }
    }
  }

  lemma MembersAlikeExactly(p: Group, g: Group, leq: ((string, real), (string, real)) -> bool)
    requires TotalOrder(leq) && UniqueAccounts(p) && UniqueAccounts(g)
    ensures Sort(CanonMembers(p.members), leq) == Sort(CanonMembers(g.members), leq)
      <==> AmountsOrZero(p) == AmountsOrZero(g)
  {
    SortIsCanonical(CanonMembers(p.members), CanonMembers(g.members), leq);
    CanonKeepsKeys(p);
    CanonKeepsKeys(g);
    SameDictExactly(CanonMembers(p.members), CanonMembers(g.members));
  }

  lemma CanonKeepsKeys(g: Group)
    requires UniqueAccounts(g)
    ensures UniqueKeys(CanonMembers(g.members))
  {
    forall i, j | 0 <= i < j < |g.members| ensures CanonMembers(g.members)[i].0 != CanonMembers(g.members)[j].0 {
      assert AmountPairs(g.members)[i].0 != AmountPairs(g.members)[j].0;
    }
  }

  lemma CanonGroupsUnique(groups: seq<Group>, leq: ((string, real), (string, real)) -> bool)
    requires UniqueNames(groups)
    ensures UniqueKeys(CanonGroups(groups, leq))
  {
    forall i, j | 0 <= i < j < |groups| ensures CanonGroups(groups, leq)[i].0 != CanonGroups(groups, leq)[j].0 {
      assert GroupPairs(groups)[i].0 != GroupPairs(groups)[j].0;
    }
  }

  /**
   Fingerprints are equal exactly when the configurations have the same groups with the same methods
   and amounts, in whatever order, an absent method counting as empty and an absent amount as zero.
   */
  lemma DigestEqualExactlyWhen(before: seq<Group>, after: seq<Group>,
                               members: ((string, real), (string, real)) -> bool, order: (Canon, Canon) -> bool)
    requires TotalOrder(members) && TotalOrder(order) && Proper(before) && Proper(after)
    ensures Digest(before, members, order) == Digest(after, members, order) <==>
      forall name | name in ByName(before).items || name in ByName(after).items :: AlikeGroup(before, after, name)
  {
    var a, b := CanonGroups(before, members), CanonGroups(after, members);
    SortIsCanonical(a, b, order);
    CanonGroupsUnique(before, members);
    CanonGroupsUnique(after, members);
    SameDictExactly(a, b);
    CanonOfDict(before, members);
    CanonOfDict(after, members);
    AlikeIsSameCanon(before, after, members);
  }

  lemma AlikeIsSameCanon(before: seq<Group>, after: seq<Group>, leq: ((string, real), (string, real)) -> bool)
    requires TotalOrder(leq) && Proper(before) && Proper(after)
    ensures forall name | name in ByName(before).items && name in ByName(after).items ::
      AlikeGroup(before, after, name)
      <==> CanonValue(ByName(before).items[name], leq) == CanonValue(ByName(after).items[name], leq)
  {
    forall name | name in ByName(before).items && name in ByName(after).items
      ensures AlikeGroup(before, after, name) <==>
        CanonValue(ByName(before).items[name], leq) == CanonValue(ByName(after).items[name], leq)
    {
      GroupsOfDict(before, name);
      GroupsOfDict(after, name);
      MembersAlikeExactly(ByName(before).items[name], ByName(after).items[name], leq);
    }
  }

  lemma SameIsAlike(before: seq<Group>, after: seq<Group>, name: string)
    requires SameGroup(before, after, name)
    ensures AlikeGroup(before, after, name)
  {
    AmountsOfDict(ByName(before).items[name]);
    AmountsOfDict(ByName(after).items[name]);
  }

  function OrZero(amount: Option<real>): real {
    if amount.Some? then amount.value else 0.0
  }

  lemma AmountsOfDict(g: Group)
    ensures forall k :: k in AmountsOrZero(g) <==> k in Amounts(g).items
    ensures forall k | k in Amounts(g).items :: AmountsOrZero(g)[k] == OrZero(Amounts(g).items[k])
  {
    DictOfMapped(AmountPairs(g.members), CanonMembers(g.members), OrZero);
  }

  /** No change to confirm means the same fingerprint, whatever the order of groups and members. */
  lemma NoChangesMeansSameDigest(before: seq<Group>, after: seq<Group>,
                                 members: ((string, real), (string, real)) -> bool, order: (Canon, Canon) -> bool)
    requires TotalOrder(members) && TotalOrder(order) && Proper(before) && Proper(after)
    requires Changes(before, after) == []
    ensures Digest(before, members, order) == Digest(after, members, order)
  {
    NoChangesExactlyWhen(before, after);
    forall name | name in ByName(before).items || name in ByName(after).items ensures AlikeGroup(before, after, name) {
      SameIsAlike(before, after, name);
    }
    DigestEqualExactlyWhen(before, after, members, order);
  }

  lemma OneAccountIsProper(group: Group)
    requires |group.members| == 1
    ensures Proper([group])
  {
    assert |GroupPairs([group])| == 1 && |AmountPairs(group.members)| == 1;
  }

  /** Nothing but the amount of their one account may differ between the two groups. */
  lemma AmountDecides(p: Group, g: Group, a: string)
    requires |p.members| == |g.members| == 1 && p.members[0].account == g.members[0].account == a
    requires p.name == g.name && p.members[0].amount != g.members[0].amount
    ensures Changes([p], [g]) != []
  {
    assert GroupPairs([p]) == [(p.name, p)] && GroupPairs([g]) == [(p.name, g)];
    DictOfUnique([(p.name, p)]);
    DictOfUnique([(p.name, g)]);
    assert (p.name, p) in [(p.name, p)] && (p.name, g) in [(p.name, g)];
    var before, now := (a, p.members[0].amount), (a, g.members[0].amount);
    assert AmountPairs(p.members) == [before] && AmountPairs(g.members) == [now];
    DictOfUnique([before]);
    DictOfUnique([now]);
    assert before in [before] && now in [now];
    assert !SameGroup([p], [g], p.name);
    NoChangesExactlyWhen([p], [g]);
  }

  /** The converse fails: an absent amount and a zero one differ in the changes only. */
  lemma AbsentAndZeroShareADigest(members: ((string, real), (string, real)) -> bool, order: (Canon, Canon) -> bool)
    ensures exists before, after ::
              && Proper(before) && Proper(after) && Changes(before, after) != []
              && Digest(before, members, order) == Digest(after, members, order)
  {
    var p, g := Group("g", None, [Member("A", None)]), Group("g", None, [Member("A", Some(0.0))]);
    assert CanonMembers(p.members) == CanonMembers(g.members);
    assert CanonGroups([p], members) == CanonGroups([g], members);
    OneAccountIsProper(p);
    OneAccountIsProper(g);
    AmountDecides(p, g, "A");
  }
}
