/** Cutting a JSON tree down to what mentions a word. */
module Prune {
  import opened Wrappers

  datatype Field = Field(key: string, value: Json)

  /** A scalar holds its text, or nothing when it is null. */
  datatype Json = Obj(fields: seq<Field>) | Arr(items: seq<Json>) | Scalar(text: Option<string>)

  /** Whether a text matches: the needle occurs in its lower-case form. */
  type Match = string -> bool

  predicate Mentions(node: Json, hit: Match) {
    match node
    case Obj(fields) => FieldsMention(fields, hit)
    case Arr(items) => ItemsMention(items, hit)
    case Scalar(text) => text.Some? && hit(text.value)
  }

  predicate FieldsMention(fields: seq<Field>, hit: Match) {
    fields != [] && (hit(fields[0].key) || Mentions(fields[0].value, hit) || FieldsMention(fields[1..], hit))
  }

  predicate ItemsMention(items: seq<Json>, hit: Match) {
    items != [] && (Mentions(items[0], hit) || ItemsMention(items[1..], hit))
  }

  /** Keep what mentions the word: whole list entries, and the keys leading to them. */
  function Pruned(node: Json, hit: Match): Json {
    match node
    case Obj(fields) => Obj(PrunedFields(fields, hit))
    case Arr(items) => Arr(PrunedItems(items, hit))
    case Scalar(_) => node
  }

  /** What is kept of one field. */
  function PrunedField(field: Field, hit: Match): seq<Field> {
    if hit(field.key) then [field]
    else if Mentions(field.value, hit) then [Field(field.key, Pruned(field.value, hit))]
    else []
  }

  function PrunedFields(fields: seq<Field>, hit: Match): seq<Field> {
    if fields == [] then []
    else
      PrunedField(fields[0], hit) + PrunedFields(fields[1..], hit)
  }

  function PrunedItems(items: seq<Json>, hit: Match): seq<Json> {
    if items == [] then []
    else (if Mentions(items[0], hit) then [items[0]] else []) + PrunedItems(items[1..], hit)
  }

  /** How many keys and scalars match. */
  function Matches(node: Json, hit: Match): nat {
    match node
    case Obj(fields) => FieldMatches(fields, hit)
    case Arr(items) => ItemMatches(items, hit)
    case Scalar(text) => if text.Some? && hit(text.value) then 1 else 0
  }

  function FieldMatches(fields: seq<Field>, hit: Match): nat {
    if fields == [] then 0
    else (if hit(fields[0].key) then 1 else 0) + Matches(fields[0].value, hit) + FieldMatches(fields[1..], hit)
  }

  function ItemMatches(items: seq<Json>, hit: Match): nat {
    if items == [] then 0 else Matches(items[0], hit) + ItemMatches(items[1..], hit)
  }

  lemma {:induction false} MentionsIsAMatch(node: Json, hit: Match)
    ensures Mentions(node, hit) <==> Matches(node, hit) > 0
  {
    match node
    case Obj(fields) => FieldsMentionIsAMatch(fields, hit);
    case Arr(items) => ItemsMentionIsAMatch(items, hit);
    case Scalar(_) =>
  }

  lemma {:induction false} FieldsMentionIsAMatch(fields: seq<Field>, hit: Match)
    ensures FieldsMention(fields, hit) <==> FieldMatches(fields, hit) > 0
  {
    if fields != [] {
      MentionsIsAMatch(fields[0].value, hit);
      FieldsMentionIsAMatch(fields[1..], hit);
    }
  }

  lemma {:induction false} ItemsMentionIsAMatch(items: seq<Json>, hit: Match)
    ensures ItemsMention(items, hit) <==> ItemMatches(items, hit) > 0
  {
    if items != [] {
      MentionsIsAMatch(items[0], hit);
      ItemsMentionIsAMatch(items[1..], hit);
    }
  }

  lemma {:induction false} FieldMatchesJoin(head: seq<Field>, tail: seq<Field>, hit: Match)
    requires |head| <= 1
    ensures FieldMatches(head + tail, hit) == FieldMatches(head, hit) + FieldMatches(tail, hit)
  {
    if head == [] {
      assert head + tail == tail;
    } else {
      assert (head + tail)[1..] == tail && head[1..] == [];
    }
  }

  lemma {:induction false} ItemMatchesJoin(head: seq<Json>, tail: seq<Json>, hit: Match)
    requires |head| <= 1
    ensures ItemMatches(head + tail, hit) == ItemMatches(head, hit) + ItemMatches(tail, hit)
  {
    if head == [] {
      assert head + tail == tail;
    } else {
      assert (head + tail)[1..] == tail && head[1..] == [];
    }
  }

  /** Pruning keeps every match. */
  lemma {:induction false} PruningKeepsMatches(node: Json, hit: Match)
    ensures Matches(Pruned(node, hit), hit) == Matches(node, hit)
  {
    match node
    case Obj(fields) => PruningKeepsFieldMatches(fields, hit);
    case Arr(items) => PruningKeepsItemMatches(items, hit);
    case Scalar(_) =>
  }

  lemma {:induction false} PruningKeepsFieldMatches(fields: seq<Field>, hit: Match)
    ensures FieldMatches(PrunedFields(fields, hit), hit) == FieldMatches(fields, hit)
  {
    if fields != [] {
      var value := fields[0].value;
      PruningKeepsMatches(value, hit);
      MentionsIsAMatch(value, hit);
      PruningKeepsFieldMatches(fields[1..], hit);
      FieldMatchesJoin(PrunedField(fields[0], hit), PrunedFields(fields[1..], hit), hit);
    }
  }

  lemma {:induction false} PruningKeepsItemMatches(items: seq<Json>, hit: Match)
    ensures ItemMatches(PrunedItems(items, hit), hit) == ItemMatches(items, hit)
  {
    if items != [] {
      MentionsIsAMatch(items[0], hit);
      PruningKeepsItemMatches(items[1..], hit);
      ItemMatchesJoin(if Mentions(items[0], hit) then [items[0]] else [], PrunedItems(items[1..], hit), hit);
    }
  }

  /** A tree that mentions the word still does, and one that does not still does not. */
  lemma {:induction false} PruningKeepsMentions(node: Json, hit: Match)
    ensures Mentions(Pruned(node, hit), hit) == Mentions(node, hit)
  {
    PruningKeepsMatches(node, hit);
    MentionsIsAMatch(node, hit);
    MentionsIsAMatch(Pruned(node, hit), hit);
  }

  /** Pruning twice is pruning once. */
  lemma {:induction false} PruningTwiceIsOnce(node: Json, hit: Match)
    ensures Pruned(Pruned(node, hit), hit) == Pruned(node, hit)
  {
    match node
    case Obj(fields) => PruningFieldsTwiceIsOnce(fields, hit);
    case Arr(items) => PruningItemsTwiceIsOnce(items, hit);
    case Scalar(_) =>
  }

  lemma {:induction false} PruningFieldsTwiceIsOnce(fields: seq<Field>, hit: Match)
    ensures PrunedFields(PrunedFields(fields, hit), hit) == PrunedFields(fields, hit)
  {
    if fields != [] {
      var value := fields[0].value;
      PruningTwiceIsOnce(value, hit);
      PruningKeepsMentions(value, hit);
      PruningFieldsTwiceIsOnce(fields[1..], hit);
      var head, tail := PrunedField(fields[0], hit), PrunedFields(fields[1..], hit);
      assert head != [] ==> (head + tail)[1..] == tail;
      assert head == [] ==> head + tail == tail;
    }
  }

  lemma {:induction false} PruningItemsTwiceIsOnce(items: seq<Json>, hit: Match)
    ensures PrunedItems(PrunedItems(items, hit), hit) == PrunedItems(items, hit)
  {
    if items != [] {
      PruningItemsTwiceIsOnce(items[1..], hit);
      var tail := PrunedItems(items[1..], hit);
      assert ([items[0]] + tail)[1..] == tail;
      assert [] + tail == tail;
    }
  }

  /** Nothing is kept for no reason: each key kept matches or leads to a match, and so does each entry. */
  predicate Lean(node: Json, hit: Match) {
    match node
    case Obj(fields) => FieldsLean(fields, hit)
    case Arr(items) => forall i | 0 <= i < |items| :: Mentions(items[i], hit)
    case Scalar(_) => true
  }

  predicate FieldsLean(fields: seq<Field>, hit: Match) {
    fields == []
    || (&& (hit(fields[0].key) || (Mentions(fields[0].value, hit) && Lean(fields[0].value, hit)))
        && FieldsLean(fields[1..], hit))
  }

  lemma {:induction false} PruningLeavesOnlyMatches(node: Json, hit: Match)
    ensures Lean(Pruned(node, hit), hit)
  {
    match node
    case Obj(fields) => PruningLeavesOnlyFieldMatches(fields, hit);
    case Arr(items) => PrunedItemsMention(items, hit);
    case Scalar(_) =>
  }

  lemma {:induction false} PrunedItemsMention(items: seq<Json>, hit: Match)
    ensures forall i | 0 <= i < |PrunedItems(items, hit)| :: Mentions(PrunedItems(items, hit)[i], hit)
  {
    if items != [] { PrunedItemsMention(items[1..], hit); }
  }

  lemma {:induction false} PruningLeavesOnlyFieldMatches(fields: seq<Field>, hit: Match)
    ensures FieldsLean(PrunedFields(fields, hit), hit)
  {
    if fields != [] {
      var value := fields[0].value;
      PruningLeavesOnlyMatches(value, hit);
      PruningKeepsMentions(value, hit);
      PruningLeavesOnlyFieldMatches(fields[1..], hit);
      var head, tail := PrunedField(fields[0], hit), PrunedFields(fields[1..], hit);
      assert head != [] ==> (head + tail)[1..] == tail;
      assert head == [] ==> head + tail == tail;
    }
  }
}
