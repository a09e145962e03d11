/** Quoting text for a human to approve: self-delimiting, and nothing in it is invisible. */
module Quoted {
  import opened Wrappers

  /** A code point. */
  type Point = c: int | 0 <= c <= 0x10FFFF

  type Text = seq<Point>

  const QUOTE: Point := 0x22
  const BACKSLASH: Point := 0x5C
  const SMALL_U: Point := 0x75
  const LARGE_U: Point := 0x55

  /** Which code points are printable; of the ASCII ones, those from the space to the tilde. */
  ghost predicate Printables(printable: Point -> bool) {
    forall c: Point :: c < 0x80 ==> printable(c) == (0x20 <= c <= 0x7E)
  }

  // ----- escapes -----

  function Digit(d: int): (c: Point)
    requires 0 <= d < 16
    ensures 0x30 <= c <= 0x39 || 0x61 <= c <= 0x66
  {
    if d < 10 then 0x30 + d else 0x61 + d - 10
  }

  function Value(c: Point): Option<int> {
    if 0x30 <= c <= 0x39 then Some(c - 0x30)
    else if 0x61 <= c <= 0x66 then Some(c - 0x61 + 10)
    else None
  }

  /** The lower `n` hexadecimal digits of `c`. */
  function Hex(c: nat, n: nat): (t: Text)
    ensures |t| == n
  {
    if n == 0 then [] else Hex(c / 16, n - 1) + [Digit(c % 16)]
  }

  function UnHex(t: Text): Option<nat> {
    if t == [] then Some(0)
    else
      var high, low := UnHex(t[..|t| - 1]), Value(t[|t| - 1]);
      if high.Some? && low.Some? then Some(high.value * 16 + low.value) else None
  }

  function Pow16(n: nat): nat {
    if n == 0 then 1 else 16 * Pow16(n - 1)
  }

  lemma {:induction false} HexRoundTrip(c: nat, n: nat)
    requires c < Pow16(n)
    ensures UnHex(Hex(c, n)) == Some(c)
  {
    if n > 0 {
      HexRoundTrip(c / 16, n - 1);
      var t := Hex(c, n);
      assert t[..n - 1] == Hex(c / 16, n - 1);
    }
  }

  // ----- quoting -----

  /** What one code point becomes. */
  function Escaped(c: Point, printable: Point -> bool): Text {
    if c == QUOTE || c == BACKSLASH then [BACKSLASH, c]
    else if printable(c) then [c]
    else if c <= 0xFFFF then [BACKSLASH, SMALL_U] + Hex(c, 4)
    else [BACKSLASH, LARGE_U] + Hex(c, 8)
  }

  /** The pieces of all code points, joined. */
  function Join(text: Text, piece: Point -> Text): Text {
    if text == [] then [] else piece(text[0]) + Join(text[1..], piece)
  }

  function Body(text: Text, printable: Point -> bool): Text {
    Join(text, c => Escaped(c, printable))
  }

  function QuotedText(text: Text, printable: Point -> bool): Text {
    [QUOTE] + Body(text, printable) + [QUOTE]
  }

  lemma {:induction false} JoinOneMore(a: Text, c: Point, piece: Point -> Text)
    ensures Join(a + [c], piece) == Join(a, piece) + piece(c)
  {
    if a == [] {
      assert a + [c] == [c] && [c][1..] == [];
    } else {
      JoinOneMore(a[1..], c, piece);
      assert (a + [c])[1..] == a[1..] + [c];
    }
  }

  lemma BodyOneMore(a: Text, c: Point, printable: Point -> bool)
    ensures Body(a + [c], printable) == Body(a, printable) + Escaped(c, printable)
  {
    JoinOneMore(a, c, x => Escaped(x, printable));
  }

  method Quote(text: Text, printable: Point -> bool) returns (quoted: Text)
    ensures quoted == QuotedText(text, printable)
  {
    var out: Text := [];
    for i := 0 to |text|
      invariant out == Body(text[..i], printable)
    {
      var c := text[i];
      BodyOneMore(text[..i], c, printable);
      assert text[..i + 1] == text[..i] + [c];
      if c == QUOTE || c == BACKSLASH {
        out := out + [BACKSLASH, c];
      } else if printable(c) {
        out := out + [c];
      } else if c <= 0xFFFF {
        out := out + ([BACKSLASH, SMALL_U] + Hex(c, 4));
      } else {
        out := out + ([BACKSLASH, LARGE_U] + Hex(c, 8));
      }
    }
    assert text[..|text|] == text;
    quoted := [QUOTE] + out + [QUOTE];
  }

  // ----- reading it back -----

  /** The code point at the start of a quoted body, and how many positions it takes. */
  function First(t: Text): Option<(Point, nat)>
    requires t != []
  {
    if t[0] != BACKSLASH then Some((t[0], 1))
    else if |t| >= 2 && (t[1] == QUOTE || t[1] == BACKSLASH) then Some((t[1], 2))
    else if |t| >= 6 && t[1] == SMALL_U then Decoded(UnHex(t[2..6]), 6)
    else if |t| >= 10 && t[1] == LARGE_U then Decoded(UnHex(t[2..10]), 10)
    else None
  }

  function Decoded(c: Option<nat>, width: nat): Option<(Point, nat)> {
    if c.Some? && c.value <= 0x10FFFF then Some((c.value, width)) else None
  }

  /** The text up to the closing quote, and what follows it. */
  function ReadBody(t: Text): Option<(Text, Text)>
    decreases |t|
  {
    if t == [] then None
    else if t[0] == QUOTE then Some(([], t[1..]))
    else
      var first := First(t);
      if first.None? || first.value.1 == 0 || first.value.1 > |t| then None
      else
        var rest := ReadBody(t[first.value.1..]);
        if rest.None? then None else Some(([first.value.0] + rest.value.0, rest.value.1))
  }

  function Read(t: Text): Option<(Text, Text)> {
    if t == [] || t[0] != QUOTE then None else ReadBody(t[1..])
  }

  lemma HexFits(c: Point)
    ensures c <= 0xFFFF ==> c < Pow16(4)
    ensures c < Pow16(8)
  {
    assert Pow16(1) == 16 && Pow16(2) == 256 && Pow16(3) == 4096 && Pow16(4) == 65536;
    assert Pow16(5) == 1048576 && Pow16(6) == 16777216 && Pow16(7) == 268435456 && Pow16(8) == 4294967296;
  }

  lemma EscapedReadsBack(c: Point, printable: Point -> bool, rest: Text)
    ensures var e := Escaped(c, printable);
      e != [] && e[0] != QUOTE && First(e + rest) == Some((c, |e|))
  {
    var e := Escaped(c, printable);
    HexFits(c);
    if c != QUOTE && c != BACKSLASH && !printable(c) {
      var n := if c <= 0xFFFF then 4 else 8;
      HexRoundTrip(c, n);
      assert (e + rest)[2..2 + n] == Hex(c, n);
    }
  }

  lemma {:induction false} BodyReadsBack(text: Text, printable: Point -> bool, rest: Text)
    ensures ReadBody(Body(text, printable) + [QUOTE] + rest) == Some((text, rest))
    decreases |text|
  {
    if text == [] {
      assert Body(text, printable) + [QUOTE] + rest == [QUOTE] + rest;
    } else {
      var e, tail := Escaped(text[0], printable), Body(text[1..], printable) + [QUOTE] + rest;
      assert Body(text, printable) + [QUOTE] + rest == e + tail;
      EscapedReadsBack(text[0], printable, tail);
      BodyReadsBack(text[1..], printable, rest);
      assert (e + tail)[|e|..] == tail && (e + tail)[0] == e[0];
      assert [text[0]] + text[1..] == text;
    }
  }

  /** Quoted text is read back exactly, whatever follows it. */
  lemma QuotedReadsBack(text: Text, printable: Point -> bool, rest: Text)
    ensures Read(QuotedText(text, printable) + rest) == Some((text, rest))
  {
    BodyReadsBack(text, printable, rest);
    assert (QuotedText(text, printable) + rest)[1..] == Body(text, printable) + [QUOTE] + rest;
  }

  /** Quoting is self-delimiting: where a quoted value ends and what it says cannot be mistaken. */
  lemma QuotedIsSelfDelimiting(a: Text, x: Text, b: Text, y: Text, printable: Point -> bool)
    requires QuotedText(a, printable) + x == QuotedText(b, printable) + y
    ensures a == b && x == y
  {
    QuotedReadsBack(a, printable, x);
    QuotedReadsBack(b, printable, y);
  }

  ghost predicate Visible(t: Text, printable: Point -> bool) {
    forall i | 0 <= i < |t| :: printable(t[i])
  }

  lemma {:induction false} HexIsVisible(c: nat, n: nat, printable: Point -> bool)
    requires Printables(printable)
    ensures Visible(Hex(c, n), printable)
  {
    if n > 0 { HexIsVisible(c / 16, n - 1, printable); }
  }

  lemma {:induction false} BodyIsVisible(text: Text, printable: Point -> bool)
    requires Printables(printable)
    ensures Visible(Body(text, printable), printable)
  {
    if text != [] {
      BodyIsVisible(text[1..], printable);
      HexIsVisible(text[0], 4, printable);
      HexIsVisible(text[0], 8, printable);
    }
  }

  /** Every code point of the output is printable: no line break or hidden character gets through. */
  lemma QuotedIsVisible(text: Text, printable: Point -> bool)
    requires Printables(printable)
    ensures Visible(QuotedText(text, printable), printable)
  {
    BodyIsVisible(text, printable);
  }

  lemma {:induction false} PlainBody(text: Text, printable: Point -> bool)
    requires Visible(text, printable) && QUOTE !in text && BACKSLASH !in text
    ensures Body(text, printable) == text
  {
    if text != [] {
      PlainBody(text[1..], printable);
      assert text == [text[0]] + text[1..];
    }
  }

  /** Printable text without quotes and backslashes is only put between quotes. */
  lemma PlainTextIsUnchanged(text: Text, printable: Point -> bool)
    requires Visible(text, printable) && QUOTE !in text && BACKSLASH !in text
    ensures QuotedText(text, printable) == [QUOTE] + text + [QUOTE]
  {
    PlainBody(text, printable);
  }
}
