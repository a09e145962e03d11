/** Stripping texts and splitting them into words, as the language's string methods do. */
module Texts {
  /** White space in Unicode: the separators and the control characters that separate. */
  predicate IsSpace(c: char) {
    var code := c as int;
    || c == ' ' || 9 <= code <= 13 || 28 <= code <= 31 || code in {0x85, 0xA0, 0x1680}
    || 0x2000 <= code <= 0x200A || code in {0x2028, 0x2029, 0x202F, 0x205F, 0x3000}
  }

  /** The 29 code points that are white space. */
  lemma SpacesAreListed(c: char)
    ensures IsSpace(c) <==> c as int in {
      0x9, 0xA, 0xB, 0xC, 0xD, 0x1C, 0x1D, 0x1E, 0x1F, 0x20, 0x85, 0xA0, 0x1680,
      0x2000, 0x2001, 0x2002, 0x2003, 0x2004, 0x2005, 0x2006, 0x2007, 0x2008, 0x2009, 0x200A,
      0x2028, 0x2029, 0x202F, 0x205F, 0x3000}
  {
  }

  function StripLeft(s: string): string {
    if s != "" && IsSpace(s[0]) then StripLeft(s[1..]) else s
  }

  function StripRight(s: string): string {
    if s != "" && IsSpace(s[|s| - 1]) then StripRight(s[..|s| - 1]) else s
  }

  function Strip(s: string): string {
    StripRight(StripLeft(s))
  }

  lemma {:induction false} StripLeftIs(s: string)
    ensures StripLeft(s) == "" || !IsSpace(StripLeft(s)[0])
  {
    if s != "" && IsSpace(s[0]) { StripLeftIs(s[1..]); }
  }

  lemma {:induction false} StripRightIs(s: string)
    ensures StripRight(s) <= s
    ensures StripRight(s) == "" || !IsSpace(StripRight(s)[|StripRight(s)| - 1])
  {
    if s != "" && IsSpace(s[|s| - 1]) { StripRightIs(s[..|s| - 1]); }
  }

  lemma StripTwice(s: string)
    ensures Strip(Strip(s)) == Strip(s)
  {
    StripLeftIs(s);
    StripRightIs(StripLeft(s));
  }

  ghost predicate Blank(s: string) {
    forall c | c in s :: IsSpace(c)
  }

  lemma {:induction false} StripLeftSkips(blanks: string, rest: string)
    requires Blank(blanks)
    ensures StripLeft(blanks + rest) == StripLeft(rest)
  {
    if blanks == "" {
      assert blanks + rest == rest;
    } else {
      assert IsSpace(blanks[0]) && (blanks + rest)[1..] == blanks[1..] + rest;
      StripLeftSkips(blanks[1..], rest);
    }
  }

  lemma {:induction false} StripRightSkips(rest: string, blanks: string)
    requires Blank(blanks)
    ensures StripRight(rest + blanks) == StripRight(rest)
  {
    if blanks == "" {
      assert rest + blanks == rest;
    } else {
      var last := |blanks| - 1;
      assert IsSpace(blanks[last]) && (rest + blanks)[..|rest| + last] == rest + blanks[..last];
      StripRightSkips(rest, blanks[..last]);
    }
  }

  /** Stripping takes away the blanks around a text, and nothing else. */
  lemma StripExactly(left: string, core: string, right: string)
    requires Blank(left) && Blank(right)
    requires core != "" ==> !IsSpace(core[0]) && !IsSpace(core[|core| - 1])
    ensures Strip(left + core + right) == core
  {
    assert left + core + right == left + (core + right);
    StripLeftSkips(left, core + right);
    if core == "" {
      assert core + right == right + "";
      StripLeftSkips(right, "");
    } else {
      assert (core + right)[0] == core[0];
      StripRightSkips(core, right);
    }
  }

  /** Every text is its stripped text with blanks around it. */
  lemma {:induction false} StripLeftLeaves(s: string) returns (blanks: string)
    ensures Blank(blanks) && s == blanks + StripLeft(s)
  {
    blanks := "";
    if s != "" && IsSpace(s[0]) {
      var rest := StripLeftLeaves(s[1..]);
      blanks := [s[0]] + rest;
    }
  }

  lemma {:induction false} StripRightLeaves(s: string) returns (blanks: string)
    ensures Blank(blanks) && s == StripRight(s) + blanks
  {
    blanks := "";
    if s != "" && IsSpace(s[|s| - 1]) {
      var rest := StripRightLeaves(s[..|s| - 1]);
      blanks := rest + [s[|s| - 1]];
    }
  }

  lemma BlankExactlyWhen(s: string)
    ensures Strip(s) == "" <==> Blank(s)
  {
    if Blank(s) {
      assert "" + "" + s == s;
      StripExactly("", "", s);
    }
    if Strip(s) == "" {
      var left := StripLeftLeaves(s);
      var right := StripRightLeaves(StripLeft(s));
      assert s == left + right;
    }
  }

  /** A text that starts with a letter keeps that letter first. */
  lemma FirstStays(s: string)
    requires s != "" && !IsSpace(s[0])
    ensures Strip(s) != "" && Strip(s)[0] == s[0]
  {
    StripRightIs(s);
    var blanks := StripRightLeaves(s);
  }

  /** The blanks of the keyboard are white space; what names and numbers are made of is not. */
  lemma PlainCharacters(c: char)
    ensures c in {' ', '\t', '\n', '\r'} ==> IsSpace(c)
    ensures 'a' <= c <= 'z' || 'A' <= c <= 'Z' || '0' <= c <= '9' || c in {'-', '_', '.', ',', ':', ';'} ==> !IsSpace(c)
  {
  }

  // ----- words -----

  predicate IsWord(s: string) {
    s != "" && forall c | c in s :: !IsSpace(c)
  }

  predicate AreWords(words: seq<string>) {
    forall w | w in words :: IsWord(w)
  }

  /** The text up to its first white space. */
  function FirstWord(s: string): (w: string)
    ensures w <= s
    ensures forall c | c in w :: !IsSpace(c)
    ensures |w| < |s| ==> IsSpace(s[|w|])
  {
    if s == "" || IsSpace(s[0]) then "" else [s[0]] + FirstWord(s[1..])
  }

  /** The maximal stretches without white space. */
  function Words(s: string): (words: seq<string>)
    ensures AreWords(words)
    decreases |s|
  {
    if s == "" then []
    else if IsSpace(s[0]) then Words(s[1..])
    else
      var w := FirstWord(s);
      [w] + Words(s[|w|..])
  }

  function Joined(words: seq<string>): string {
    if words == [] then ""
    else if |words| == 1 then words[0]
    else words[0] + " " + Joined(words[1..])
  }

  /** The words with one blank between any two of them. */
  function Collapsed(s: string): string {
    Joined(Words(s))
  }

  /** No white space but single blanks, none of them at either end. */
  predicate OnlyInnerBlanks(s: string) {
    forall i | 0 <= i < |s| && IsSpace(s[i]) ::
      s[i] == ' ' && 0 < i < |s| - 1 && !IsSpace(s[i - 1]) && !IsSpace(s[i + 1])
  }

  lemma BlankBetween(w: string, rest: string)
    requires IsWord(w) && rest != "" && OnlyInnerBlanks(rest)
    ensures OnlyInnerBlanks(w + " " + rest)
  {
    var s := w + " " + rest;
    assert forall i | 0 <= i < |w| :: s[i] == w[i] && w[i] in w;
    assert forall i | 0 <= i < |rest| :: s[|w| + 1 + i] == rest[i];
    assert !IsSpace(rest[0]);
    forall i | 0 <= i < |s| && IsSpace(s[i])
      ensures s[i] == ' ' && 0 < i < |s| - 1 && !IsSpace(s[i - 1]) && !IsSpace(s[i + 1])
    {
      if i > |w| { assert IsSpace(rest[i - |w| - 1]); }
    }
  }

  lemma {:induction false} JoinedHasOnlyBlanks(words: seq<string>)
    requires AreWords(words)
    ensures OnlyInnerBlanks(Joined(words))
    ensures words != [] ==> Joined(words) != ""
  {
    if words != [] {
      assert IsWord(words[0]) && AreWords(words[1..]);
      if |words| > 1 {
        JoinedHasOnlyBlanks(words[1..]);
        BlankBetween(words[0], Joined(words[1..]));
      }
    }
  }

  /** A word in front of a text that begins with white space is its first word. */
  lemma {:induction false} WordInFront(w: string, rest: string)
    requires forall c | c in w :: !IsSpace(c)
    requires rest == "" || IsSpace(rest[0])
    ensures FirstWord(w + rest) == w
  {
    if w != "" {
      assert (w + rest)[1..] == w[1..] + rest;
      WordInFront(w[1..], rest);
    } else {
      assert w + rest == rest;
    }
  }

  lemma WordsInFront(w: string, rest: string)
    requires IsWord(w)
    requires rest == "" || IsSpace(rest[0])
    ensures Words(w + rest) == [w] + if rest == "" then [] else Words(rest[1..])
  {
    WordInFront(w, rest);
    assert (w + rest)[0] == w[0] && w[0] in w;
    assert (w + rest)[|w|..] == rest;
  }

  lemma {:induction false} WordsOfJoined(words: seq<string>)
    requires AreWords(words)
    ensures Words(Joined(words)) == words
  {
    if |words| == 1 {
      assert words == [words[0]] && IsWord(words[0]);
      WordsInFront(words[0], "");
      assert words[0] + "" == words[0];
    } else if words != [] {
      assert IsWord(words[0]) && AreWords(words[1..]);
      WordsOfJoined(words[1..]);
      JoinedInFront(words[0], Joined(words[1..]));
    }
  }

  lemma {:induction false} JoinedInFront(w: string, rest: string)
    requires IsWord(w)
    ensures Words(w + " " + rest) == [w] + Words(rest)
  {
    var more := " " + rest;
    assert w + " " + rest == w + more && more[1..] == rest;
    WordsInFront(w, more);
  }

  /** Collapsing changes only the white space: every word stays, in its order. */
  lemma {:induction false} CollapsingKeepsWords(s: string)
    ensures Words(Collapsed(s)) == Words(s)
    ensures OnlyInnerBlanks(Collapsed(s))
    ensures Collapsed(s) == "" <==> Words(s) == []
  {
    WordsOfJoined(Words(s));
    JoinedHasOnlyBlanks(Words(s));
  }
}
