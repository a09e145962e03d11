/**
 Which lines of which log files are read: the tail of a file is cut to whole lines, and the files
 folded are one contiguous stretch of the log within a byte budget.
 */
module LogRead {
  newtype Byte = b: int | 0 <= b < 256

  type Line = seq<Byte>

  const NL: Byte := 10

  const MAX_FILES := 10
  const MAX_FILE_BYTES := 8388608
  const MAX_TOTAL_BYTES := 16777216
  const READ_CHUNK := 1048576

  // ----- lines -----

  /** No newline at a position in `lo..hi`. */
  predicate Free(data: seq<Byte>, lo: nat, hi: nat)
    requires lo <= hi <= |data|
  {
    forall i | lo <= i < hi :: data[i] != 10
  }

  /** The position of the first newline, else the length. */
  function Newline(data: seq<Byte>): (n: nat)
    ensures n <= |data|
  {
    if data == [] || data[0] == NL then 0 else 1 + Newline(data[1..])
  }

  /** The length up to and including the last newline. */
  function WholeLength(data: seq<Byte>): (n: nat)
    ensures n <= |data|
  {
    if data == [] || data[|data| - 1] == NL then |data| else WholeLength(data[..|data| - 1])
  }

  /** The newline-terminated lines of `data` that start at offset `cut` or later. */
  function LinesFrom(data: seq<Byte>, cut: nat): seq<Line>
    decreases |data|
  {
    var n := Newline(data);
    if n == |data| then []
    else if cut == 0 then [data[..n]] + LinesFrom(data[n + 1..], 0)
    else LinesFrom(data[n + 1..], if cut <= n + 1 then 0 else cut - n - 1)
  }

  /** The text cut at every newline, with what follows the last one. */
  function Split(text: seq<Byte>): (pieces: seq<Line>)
    ensures |pieces| > 0
    decreases |text|
  {
    var n := Newline(text);
    if n == |text| then [text] else [text[..n]] + Split(text[n + 1..])
  }

  /** What follows the first newline, if there is one. */
  function AfterFirst(text: seq<Byte>): seq<Byte> {
    var n := Newline(text);
    if n == |text| then [] else text[n + 1..]
  }

  /** The lines the reader keeps of a file of which it takes the bytes from `start` on. */
  function Kept(file: seq<Byte>, start: nat): seq<Line>
    requires start <= |file|
  {
    var data := if start > 0 then file[start - 1..] else file;
    var whole := data[..WholeLength(data)];
    var text := if start > 0 then AfterFirst(whole) else whole;
    Split(text)[..|Split(text)| - 1]
  }

  lemma {:induction false} NewlineIsFirst(data: seq<Byte>)
    ensures Free(data, 0, Newline(data)) && (Newline(data) < |data| ==> data[Newline(data)] == 10)
  {
    if data != [] && data[0] != NL {
      NewlineIsFirst(data[1..]);
      assert forall i | 0 < i < |data| :: data[i] == data[1..][i - 1];
    }
  }

  lemma {:induction false} WholeLengthIsLast(data: seq<Byte>)
    ensures Free(data, WholeLength(data), |data|) && (WholeLength(data) > 0 ==> data[WholeLength(data) - 1] == 10)
  {
    if data != [] && data[|data| - 1] != NL {
      WholeLengthIsLast(data[..|data| - 1]);
    }
  }

  lemma {:induction false} NewlineIs(data: seq<Byte>, n: nat)
    requires n <= |data| && Free(data, 0, n) && (n < |data| ==> data[n] == 10)
    ensures Newline(data) == n
  {
    NewlineIsFirst(data);
  }

  lemma {:induction false} WholeLengthIs(data: seq<Byte>, w: nat)
    requires w <= |data| && Free(data, w, |data|) && (w > 0 ==> data[w - 1] == 10)
    ensures WholeLength(data) == w
  {
    WholeLengthIsLast(data);
  }

  lemma {:induction false} SplitKeepsLines(text: seq<Byte>)
    ensures Split(text)[..|Split(text)| - 1] == LinesFrom(text, 0)
    decreases |text|
  {
    var n := Newline(text);
    if n < |text| {
      SplitKeepsLines(text[n + 1..]);
      var rest := Split(text[n + 1..]);
      assert ([text[..n]] + rest)[..|rest|] == [text[..n]] + rest[..|rest| - 1];
    }
  }

  /** Bytes with a newline keep their first line when the end is trimmed. */
  lemma {:induction false} TrimmedStart(data: seq<Byte>)
    ensures Newline(data) == |data| ==> WholeLength(data) == 0
    ensures Newline(data) < |data| ==>
      Newline(data) < WholeLength(data) && Newline(data[..WholeLength(data)]) == Newline(data)
  {
    var n, w := Newline(data), WholeLength(data);
    NewlineIsFirst(data);
    WholeLengthIsLast(data);
    if n < w { NewlineIs(data[..w], n); }
  }

  /** Trimming and then dropping the first line is dropping it and then trimming. */
  lemma TrimmedRest(data: seq<Byte>)
    requires Newline(data) < |data|
    ensures Newline(data) < WholeLength(data)
    ensures var n, w, rest := Newline(data), WholeLength(data), data[Newline(data) + 1..];
      data[..w][n + 1..] == rest[..WholeLength(rest)]
  {
    TrimmedStart(data);
    var n, w, rest := Newline(data), WholeLength(data), data[Newline(data) + 1..];
    WholeLengthIsLast(data);
    WholeLengthIs(rest, w - n - 1);
  }

  /** Dropping an unterminated last line changes no line. */
  lemma {:induction false} TrimKeepsLines(data: seq<Byte>)
    ensures LinesFrom(data[..WholeLength(data)], 0) == LinesFrom(data, 0)
    decreases |data|
  {
    TrimmedStart(data);
    var n, w := Newline(data), WholeLength(data);
    if n < |data| {
      TrimmedRest(data);
      TrimKeepsLines(data[n + 1..]);
      assert data[..w][..n] == data[..n];
    }
  }

  lemma {:induction false} TrimmedAfterFirst(data: seq<Byte>)
    ensures AfterFirst(data[..WholeLength(data)]) == AfterFirst(data)[..WholeLength(AfterFirst(data))]
  {
    TrimmedStart(data);
    if Newline(data) < |data| {
      TrimmedRest(data);
    }
  }

  /** The first newline from the byte before a cut on, when the file's first newline is there. */
  lemma {:induction false} FirstNewlineFromACut(file: seq<Byte>, start: nat)
    requires 0 < start <= |file| && start <= Newline(file) + 1
    ensures AfterFirst(file[start - 1..]) == AfterFirst(file)
  {
    var n, tail := Newline(file), file[start - 1..];
    NewlineIsFirst(file);
    NewlineIs(tail, n - start + 1);
    if n < |file| { assert tail[n - start + 2..] == file[n + 1..]; }
  }

  /** From a cut: the lines that start there or later follow the first newline from the byte before it. */
  lemma {:induction false} LinesAfterACut(file: seq<Byte>, start: nat)
    requires 0 < start <= |file|
    ensures LinesFrom(file, start) == LinesFrom(AfterFirst(file[start - 1..]), 0)
    decreases |file|
  {
    var n := Newline(file);
    if n + 1 < start {
      LinesAfterACut(file[n + 1..], start - n - 1);
      assert file[n + 1..][start - n - 2..] == file[start - 1..];
    } else {
      FirstNewlineFromACut(file, start);
      if n == |file| { assert LinesFrom(file, start) == [] == LinesFrom([], 0); }
    }
  }

  /** For any bytes and any cut, the lines kept are exactly the whole lines that start at or after the cut. */
  lemma {:induction false} KeptLinesStartAtTheCut(file: seq<Byte>, start: nat)
    requires start <= |file|
    ensures Kept(file, start) == LinesFrom(file, start)
  {
    var data := if start > 0 then file[start - 1..] else file;
    var whole := data[..WholeLength(data)];
    if start > 0 {
      SplitKeepsLines(AfterFirst(whole));
      TrimmedAfterFirst(data);
      TrimKeepsLines(AfterFirst(data));
      LinesAfterACut(file, start);
    } else {
      SplitKeepsLines(whole);
      TrimKeepsLines(data);
    }
  }

  /** The lines, each with its newline. */
  ghost function Joined(lines: seq<Line>): seq<Byte> {
    if lines == [] then [] else lines[0] + [10] + Joined(lines[1..])
  }

  /** A line starts at the beginning and after every newline. */
  ghost predicate StartsLine(data: seq<Byte>, p: nat) {
    p <= |data| && (p == 0 || data[p - 1] == 10)
  }

  /** Of the text up to `w`, position `p` is where the first line that starts at `cut` or later starts, if one does. */
  ghost predicate FirstStart(data: seq<Byte>, w: nat, cut: nat, p: nat) {
    && p <= w && StartsLine(data, p) && (p >= cut || p == w)
    && forall q: nat | cut <= q < p :: !StartsLine(data, q)
  }

  /** After the first newline the line starts of a text are those of what follows it. */
  lemma StartsInRest(data: seq<Byte>, n: nat, q: nat)
    requires n < |data| && Free(data, 0, n) && data[n] == 10 && q > 0
    ensures q <= n ==> !StartsLine(data, q)
    ensures q > n ==> (StartsLine(data, q) <==> StartsLine(data[n + 1..], q - n - 1))
  {
    if q > n + 1 && q <= |data| { assert data[n + 1..][q - n - 2] == data[q - 1]; }
  }

  lemma {:induction false} LaterStart(data: seq<Byte>, n: nat, w: nat, cut: nat, later: nat, p: nat)
    requires n < |data| && Free(data, 0, n) && data[n] == 10
    requires cut > 0 && later == (if cut <= n + 1 then 0 else cut - n - 1)
    requires FirstStart(data[n + 1..], w, later, p)
    ensures FirstStart(data, w + n + 1, cut, p + n + 1)
  {
    StartsInRest(data, n, p + n + 1);
    forall q: nat | cut <= q < p + n + 1 ensures !StartsLine(data, q) {
      StartsInRest(data, n, q);
      if q > n { assert !StartsLine(data[n + 1..], q - n - 1); }
    }
  }

  lemma {:induction false} WholeOfRest(data: seq<Byte>)
    requires Newline(data) < |data|
    ensures WholeLength(data) == Newline(data) + 1 + WholeLength(data[Newline(data) + 1..])
  {
    TrimmedRest(data);
    WholeLengthIsLast(data);
    WholeLengthIs(data[Newline(data) + 1..], WholeLength(data) - Newline(data) - 1);
  }

  /** What joining the lines from `cut` on gives: the text from the first of them up to the end of the last. */
  ghost predicate JoinsFrom(data: seq<Byte>, cut: nat, p: nat) {
    && FirstStart(data, WholeLength(data), cut, p)
    && Joined(LinesFrom(data, cut)) == data[p..WholeLength(data)]
  }

  lemma {:induction false} NothingToJoin(data: seq<Byte>, cut: nat)
    requires Newline(data) == |data|
    ensures JoinsFrom(data, cut, 0)
  {
    TrimmedStart(data);
  }

  lemma {:induction false} JoinsFirst(data: seq<Byte>, n: nat, p: nat)
    requires n == Newline(data) < |data| && JoinsFrom(data[n + 1..], 0, p)
    ensures JoinsFrom(data, 0, 0)
  {
    NewlineIsFirst(data);
    WholeOfRest(data);
    var rest := data[n + 1..];
    assert StartsLine(rest, 0);
    JoinedWithFirst(data[..n], LinesFrom(rest, 0));
    assert data[..n] + [10] + rest[..WholeLength(rest)] == data[..WholeLength(data)];
  }

  lemma {:induction false} JoinedWithFirst(line: Line, lines: seq<Line>)
    ensures Joined([line] + lines) == line + [10] + Joined(lines)
  {
    assert ([line] + lines)[1..] == lines;
  }

  lemma {:induction false} JoinsLater(data: seq<Byte>, n: nat, cut: nat, later: nat, p: nat)
    requires n == Newline(data) < |data| && cut > 0 && later == (if cut <= n + 1 then 0 else cut - n - 1)
    requires JoinsFrom(data[n + 1..], later, p)
    ensures JoinsFrom(data, cut, p + n + 1)
  {
    NewlineIsFirst(data);
    WholeOfRest(data);
    var rest := data[n + 1..];
    LaterStart(data, n, WholeLength(rest), cut, later, p);
    assert rest[p..WholeLength(rest)] == data[p + n + 1..WholeLength(data)];
  }

  /** Nothing is left out or moved: the lines kept, joined again, are the whole lines from the first start on. */
  lemma {:induction false} LinesJoin(data: seq<Byte>, cut: nat) returns (p: nat)
    ensures JoinsFrom(data, cut, p)
    decreases |data|
  {
    var n := Newline(data);
    if n == |data| {
      NothingToJoin(data, cut);
      p := 0;
    } else if cut == 0 {
      p := LinesJoin(data[n + 1..], 0);
      JoinsFirst(data, n, p);
      p := 0;
    } else {
      var later := if cut <= n + 1 then 0 else cut - n - 1;
      p := LinesJoin(data[n + 1..], later);
      JoinsLater(data, n, cut, later, p);
      p := p + n + 1;
    }
  }

  lemma {:induction false} LinesAreLines(data: seq<Byte>, cut: nat, line: Line)
    requires line in LinesFrom(data, cut)
    ensures Free(line, 0, |line|)
    decreases |data|
  {
    var n := Newline(data);
    NewlineIsFirst(data);
    if n < |data| {
      var later := if cut <= n + 1 then 0 else cut - n - 1;
      if line in LinesFrom(data[n + 1..], later) { LinesAreLines(data[n + 1..], later, line); }
    }
  }

  ghost predicate IsSuffix<T>(tail: seq<T>, whole: seq<T>) {
    |tail| <= |whole| && whole[|whole| - |tail|..] == tail
  }

  /** Cutting further only drops lines from the front; a tail read is a suffix of the full read. */
  lemma {:induction false} TailIsSuffix(file: seq<Byte>, cut: nat, further: nat)
    requires cut <= further
    ensures IsSuffix(LinesFrom(file, further), LinesFrom(file, cut))
    decreases |file|
  {
    var n := Newline(file);
    if n < |file| {
      var rest := file[n + 1..];
      TailIsSuffix(rest, if cut <= n + 1 then 0 else cut - n - 1, if further <= n + 1 then 0 else further - n - 1);
      if cut == 0 < further {
        SuffixGrows(LinesFrom(file, further), LinesFrom(rest, 0), [file[..n]]);
      }
    }
  }

  lemma SuffixGrows<T>(tail: seq<T>, whole: seq<T>, front: seq<T>)
    requires IsSuffix(tail, whole)
    ensures IsSuffix(tail, front + whole)
  {
    assert (front + whole)[|front + whole| - |tail|..] == whole[|whole| - |tail|..];
  }

  // ----- one file -----

  /** Reads a range in chunks of any size the system returns. */
  method ReadRange(file: seq<Byte>, start: nat, size: nat) returns (data: seq<Byte>)
    requires start + size <= |file|
    ensures data == file[start..start + size]
  {
    data := [];
    var remaining := size;
    while remaining > 0
      invariant 0 <= remaining <= size && data == file[start..start + size - remaining]
    {
      var most := if remaining < READ_CHUNK then remaining else READ_CHUNK;
      var got: nat :| 0 < got <= most;
      var chunk := file[start + |data|..start + |data| + got];
      data := data + chunk;
      remaining := remaining - got;
    }
  }

  /** What a directory entry turns out to be. */
  datatype Entry = Regular(content: seq<Byte>) | Skipped | Unreadable

  function Min(a: int, b: int): int {
    if a < b then a else b
  }

  /** The bytes taken of a file. */
  function Take(size: nat, budget: nat): nat {
    Min(size, Min(MAX_FILE_BYTES, budget))
  }

  function Size(e: Entry): nat {
    if e.Regular? then |e.content| else 0
  }

  /** The lines of a file that start at `cut` or later. */
  function Tail(e: Entry, cut: nat): seq<Line> {
    if e.Regular? then LinesFrom(e.content, cut) else []
  }

  /** One file's lines, the bytes taken of it and whether its head was cut. */
  method ReadFile(file: Entry, budget: nat) returns (lines: seq<Line>, taken: nat, cut: bool)
    requires file.Regular?
    ensures taken == Take(Size(file), budget) && cut == (taken < Size(file))
    ensures lines == Tail(file, Size(file) - taken)
  {
    var content := file.content;
    taken := Take(|content|, budget);
    var start := |content| - taken;
    cut := start > 0;
    var data: seq<Byte>;
    if start > 0 {
      data := ReadRange(content, start - 1, taken + 1);
      assert data == content[start - 1..];
    } else {
      data := ReadRange(content, 0, taken);
      assert data == content;
    }
    var text := data[..WholeLength(data)];
    if start > 0 {
      text := AfterFirst(text);
    }
    var pieces := Split(text);
    lines := pieces[..|pieces| - 1];
    KeptLinesStartAtTheCut(content, start);
  }

  // ----- several files -----

  /** The bytes of the files at positions `a..b`. */
  function Bytes(entries: seq<Entry>, a: nat, b: nat): nat
    requires a <= b <= |entries|
  {
    if a == b then 0 else Bytes(entries, a, b - 1) + Size(entries[b - 1])
  }

  /** Every line of the files at positions `a..b`, oldest first; the entries are newest first. */
  function Stretch(entries: seq<Entry>, a: nat, b: nat): seq<Line>
    requires a <= b <= |entries|
  {
    if a == b then [] else Tail(entries[b - 1], 0) + Stretch(entries, a, b - 1)
  }

  /** The lines of the files read, oldest first; the files are newest first. */
  function Chronological(files: seq<seq<Line>>): seq<Line> {
    if files == [] then [] else files[|files| - 1] + Chronological(files[..|files| - 1])
  }

  /** So far `files` are those at positions `a..b`, all whole, after nothing but skipped entries. */
  ghost predicate Reading(entries: seq<Entry>, files: seq<seq<Line>>, a: nat, b: nat) {
    && a <= b <= |entries| && |files| == b - a
    && (forall k | 0 <= k < a :: entries[k].Skipped?)
    && (forall k | a <= k < b :: entries[k].Regular?)
    && (forall k | 0 <= k < b - a :: files[k] == Tail(entries[a + k], 0))
  }

  /** `files` are those at positions `a..b`, all whole but the oldest, which is cut at `cut`. */
  ghost predicate Covers(entries: seq<Entry>, files: seq<seq<Line>>, a: nat, b: nat, cut: nat) {
    && files != [] && a < b <= |entries|
    && Reading(entries, files[..|files| - 1], a, b - 1)
    && entries[b - 1].Regular? && cut <= Size(entries[b - 1])
    && files[|files| - 1] == Tail(entries[b - 1], cut)
  }

  lemma ReadingGrows(entries: seq<Entry>, files: seq<seq<Line>>, a: nat, b: nat, lines: seq<Line>, cut: nat)
    requires Reading(entries, files, a, b) && b < |entries| && entries[b].Regular? && cut <= Size(entries[b])
    requires lines == Tail(entries[b], cut)
    ensures Covers(entries, files + [lines], a, b + 1, cut)
    ensures cut == 0 ==> Reading(entries, files + [lines], a, b + 1)
  {
    assert (files + [lines])[..|files|] == files;
  }

  /** What is taken of the files `a..b` is within the budget, and no more is cut than the limits ask for. */
  ghost predicate Fits(entries: seq<Entry>, a: nat, b: nat, cut: nat) {
    && a < b <= |entries|
    && Bytes(entries, a, b) - cut <= 16_777_216
    && (cut > 0 ==> Bytes(entries, a, b) - cut == 16_777_216 || Size(entries[b - 1]) - cut == 8_388_608)
  }

  /** The reading stopped at `b` for a reason. */
  ghost predicate Stops(entries: seq<Entry>, a: nat, b: nat, cut: nat)
    requires a <= b <= |entries|
  {
    b == |entries| || cut > 0 || Bytes(entries, a, b) == 16_777_216 || !entries[b].Regular?
  }

  lemma TakingFits(entries: seq<Entry>, a: nat, b: nat, budget: nat, cut: nat)
    requires a <= b < |entries| && 0 < budget == MAX_TOTAL_BYTES - Bytes(entries, a, b)
    requires cut == Size(entries[b]) - Take(Size(entries[b]), budget)
    ensures Fits(entries, a, b + 1, cut)
    ensures budget - Take(Size(entries[b]), budget) == MAX_TOTAL_BYTES - (Bytes(entries, a, b + 1) - cut)
  {
  }

  lemma {:induction false} WholeFiles(entries: seq<Entry>, files: seq<seq<Line>>, a: nat, b: nat)
    requires Reading(entries, files, a, b)
    ensures Chronological(files) == Stretch(entries, a, b)
    decreases b - a
  {
    if a < b {
      WholeFiles(entries, files[..|files| - 1], a, b - 1);
      assert files[b - 1 - a] == Tail(entries[a + (b - 1 - a)], 0);
    }
  }

  /** What is folded is one contiguous stretch of the log up to its newest line. */
  lemma {:induction false} FoldedLinesAreContiguous(entries: seq<Entry>, files: seq<seq<Line>>, a: nat, b: nat,
                                                    cut: nat)
    requires Covers(entries, files, a, b, cut)
    ensures IsSuffix(Chronological(files), Stretch(entries, a, b))
    ensures cut == 0 ==> Chronological(files) == Stretch(entries, a, b)
  {
    var newer := files[..|files| - 1];
    WholeFiles(entries, newer, a, b - 1);
    OldestLast(files);
    TailOfEntry(entries[b - 1], cut);
    SuffixJoins(files[|files| - 1], Tail(entries[b - 1], 0), Chronological(newer));
  }

  lemma {:induction false} OldestLast(files: seq<seq<Line>>)
    requires files != []
    ensures Chronological(files) == files[|files| - 1] + Chronological(files[..|files| - 1])
  {
  }

  lemma TailOfEntry(e: Entry, cut: nat)
    ensures IsSuffix(Tail(e, cut), Tail(e, 0))
  {
    if e.Regular? { TailIsSuffix(e.content, 0, cut); }
  }

  lemma SuffixJoins<T>(tail: seq<T>, whole: seq<T>, rest: seq<T>)
    requires IsSuffix(tail, whole)
    ensures IsSuffix(tail + rest, whole + rest)
  {
    assert (whole + rest)[|whole| - |tail|..] == whole[|whole| - |tail|..] + rest;
  }

  datatype Outcome = Lines(newestFirst: seq<seq<Line>>) | FileUnreadable(number: nat) | NoRegularFile | NoFile

  /**
   The files read are the stretch `a..b` of the entries (newest first), cut at `cut` in its oldest
   file; or nothing is read, for the reason told.
   */
  ghost predicate Explained(entries: seq<Entry>, outcome: Outcome, a: nat, b: nat, cut: nat) {
    match outcome
    case Lines(files) => Covers(entries, files, a, b, cut) && Fits(entries, a, b, cut) && Stops(entries, a, b, cut)
    case FileUnreadable(k) => k < |entries| && entries[k].Unreadable? && forall i | 0 <= i < k :: entries[i].Skipped?
    case NoRegularFile => entries != [] && forall i | 0 <= i < |entries| :: entries[i].Skipped?
    case NoFile => entries == []
  }

  /** The reading and, for what is read, that its lines are one contiguous stretch up to the newest. */
  ghost predicate Contiguous(entries: seq<Entry>, outcome: Outcome) {
    exists a, b, cut :: Explained(entries, outcome, a, b, cut)
      && (outcome.Lines? ==> IsSuffix(Chronological(outcome.newestFirst), Stretch(entries, a, b)))
  }

  /** Reads the newest files within the budget. */
  method Read(all: seq<Entry>) returns (outcome: Outcome)
    ensures Contiguous(all[..Min(|all|, 10)], outcome)
  {
    var entries := all[..Min(|all|, MAX_FILES)];
    ghost var a, b, cut;
    outcome, a, b, cut := ReadNewest(entries);
    if outcome.Lines? { FoldedLinesAreContiguous(entries, outcome.newestFirst, a, b, cut); }
  }

  /** Adds the next file, within the budget. */
  method ReadNext(entries: seq<Entry>, files: seq<seq<Line>>, budget: int, ghost a: nat, b: nat)
    returns (more: seq<seq<Line>>, left: int, wasCut: bool, ghost cut: nat)
    requires Reading(entries, files, a, b) && b < |entries| && entries[b].Regular?
    requires 0 < budget == MAX_TOTAL_BYTES - Bytes(entries, a, b)
    ensures more != [] && Covers(entries, more, a, b + 1, cut) && Fits(entries, a, b + 1, cut)
    ensures wasCut <==> cut > 0
    ensures !wasCut ==> Reading(entries, more, a, b + 1)
    ensures 0 <= left == MAX_TOTAL_BYTES - (Bytes(entries, a, b + 1) - cut)
  {
    var lines, taken;
    lines, taken, wasCut := ReadFile(entries[b], budget);
    cut := Size(entries[b]) - taken;
    more, left := files + [lines], budget - taken;
    TakingFits(entries, a, b, budget, cut);
    ReadingGrows(entries, files, a, b, lines, cut);
  }

  method ReadNewest(entries: seq<Entry>) returns (outcome: Outcome, ghost a: nat, ghost b: nat, ghost cut: nat)
    ensures Explained(entries, outcome, a, b, cut)
  {
    var newestFirst: seq<seq<Line>> := [];
    var budget := MAX_TOTAL_BYTES;
    a, b, cut := 0, 0, 0;
    var k := 0;
    while k < |entries|
      invariant b == k && cut == 0 && Reading(entries, newestFirst, a, b)
      invariant 0 <= budget == MAX_TOTAL_BYTES - Bytes(entries, a, b)
      invariant newestFirst != [] ==> Covers(entries, newestFirst, a, b, 0) && Fits(entries, a, b, 0)
    {
      if budget <= 0 {
        break;
      }
      if entries[k].Unreadable? {
        if newestFirst != [] {
          break;
        }
        return FileUnreadable(k), a, b, cut;
      }
      if entries[k].Skipped? {
        if newestFirst != [] {
          break;
        }
        a, b, k := k + 1, k + 1, k + 1;
        continue;
      }
      var wasCut;
      newestFirst, budget, wasCut, cut := ReadNext(entries, newestFirst, budget, a, k);
      b := k + 1;
      if wasCut {
        break;
      }
      k := k + 1;
    }
    if newestFirst == [] {
      return if |entries| > 0 then NoRegularFile else NoFile, a, b, cut;
    }
    outcome := Lines(newestFirst);
  }
}
