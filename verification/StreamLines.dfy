/**
 * Reading lines from a stream with a position and an end-of-file flag, and
 * looking ahead without consuming.
 */
module StreamLines {
  import opened Basics
  import opened LineEnds

  /** The iterator over a fixed content. */
  datatype Iterator = Iterator(
    pos: nat,
    eof: bool,
    buffer: string,
    prevBuffer: string,
    outputEOL: string,
    eolWindows: nat,
    eolLinux: nat,
    eolMacOld: nat,
    peekStart: nat,
    prevLineDeleted: bool,
    checkForEmptyLine: bool)

  function Start(): Iterator {
    Iterator(0, false, "", "", "", 0, 0, 0, 0, false, false)
  }

  /** The end of the line that starts at pos. */
  function EndOfLine(content: string, pos: nat): (e: nat)
    requires pos <= |content|
    ensures pos <= e <= |content|
    ensures Clean(content[pos..e])
    ensures e < |content| ==> IsEol(content[e])
    decreases |content| - pos
  {
    if pos == |content| || IsEol(content[pos]) then pos
    else
      var e := EndOfLine(content, pos + 1);
      assert content[pos..e] == [content[pos]] + content[pos + 1..e];
      e
  }

  /** A line end of two different characters is read as one. */
  predicate IsPair(content: string, e: nat) {
    e + 1 < |content| && IsEol(content[e]) && IsEol(content[e + 1]) && content[e] != content[e + 1]
  }

  function LineAt(content: string, pos: nat): string
    requires pos <= |content|
  {
    content[pos..EndOfLine(content, pos)]
  }

  /** Where the next line starts. */
  function NextStart(content: string, pos: nat): (n: nat)
    requires pos <= |content|
    ensures pos <= n <= |content|
    ensures n == pos ==> pos == |content|
  {
    var e := EndOfLine(content, pos);
    if e == |content| then e else if IsPair(content, e) then e + 2 else e + 1
  }

  predicate Valid(content: string, it: Iterator) {
    it.pos <= |content| && it.peekStart <= |content|
  }

  /** The most frequent line end so far; on a tie Windows, then Linux. */
  function MostFrequent(windows: nat, linux: nat, mac: nat): string {
    if windows >= linux && windows >= mac then "\r\n"
    else if linux > windows && linux >= mac then "\n"
    else "\r"
  }

  /** The counters after the line end at e; a line end that is the last character is not counted. */
  function CountedEnd(content: string, e: nat, it: Iterator): Iterator
    requires e < |content|
  {
    if e + 1 == |content| then it
    else if IsPair(content, e) then it.(eolWindows := it.eolWindows + 1)
    else if content[e] == '\r' then it.(eolMacOld := it.eolMacOld + 1)
    else it.(eolLinux := it.eolLinux + 1)
  }

  function Chosen(it: Iterator): Iterator {
    var d :=
      if it.eolWindows == 0 && it.eolLinux == 0 && it.eolMacOld == 0 then it.(eolLinux := 1) else it;
    d.(outputEOL := MostFrequent(d.eolWindows, d.eolLinux, d.eolMacOld))
  }

  function Counted(content: string, e: nat, it: Iterator): Iterator
    requires e < |content|
  {
    Chosen(CountedEnd(content, e, it))
  }

  /** The previous line is kept, unless it was an empty line that was deleted. */
  function Saved(it: Iterator, emptyLineWasDeleted: bool): Iterator {
    it.(checkForEmptyLine := it.checkForEmptyLine || it.prevLineDeleted,
        prevLineDeleted := emptyLineWasDeleted,
        prevBuffer := if emptyLineWasDeleted then it.prevBuffer else it.buffer)
  }

  function NextLine(content: string, it: Iterator, emptyLineWasDeleted: bool): (r: Iterator)
    requires Valid(content, it) && !it.eof
    ensures Valid(content, r)
  {
    var e := EndOfLine(content, it.pos);
    var read := Saved(it, emptyLineWasDeleted).(
      buffer := LineAt(content, it.pos), pos := NextStart(content, it.pos));
    if e == |content| then read.(eof := true) else Counted(content, e, read)
  }

  /** Looking ahead saves the position once and leaves the flag set at the end of the content. */
  function PeekNextLine(content: string, it: Iterator): (r: (string, Iterator))
    requires Valid(content, it) && !it.eof
    ensures Valid(content, r.1)
  {
    var next := NextStart(content, it.pos);
    (LineAt(content, it.pos),
     it.(peekStart := if it.peekStart == 0 then it.pos else it.peekStart,
         pos := next,
         eof := EndOfLine(content, it.pos) + 1 >= |content|))
  }

  function PeekReset(it: Iterator): Iterator {
    it.(eof := false, pos := it.peekStart, peekStart := 0)
  }

  // ------------------------------------------------------- peeking is invisible

  /** k peeks in a row are allowed: the flag is clear before each of them. */
  predicate PeeksAllowed(content: string, it: Iterator, k: nat)
    requires Valid(content, it)
    decreases k
  {
    k == 0 || (!it.eof && PeeksAllowed(content, PeekNextLine(content, it).1, k - 1))
  }

  /** The lines k peeks return, and the iterator after them. */
  function Peeks(content: string, it: Iterator, k: nat): (r: (seq<string>, Iterator))
    requires Valid(content, it) && PeeksAllowed(content, it, k)
    ensures Valid(content, r.1)
    decreases k
  {
    if k == 0 then ([], it)
    else
      var p := PeekNextLine(content, it);
      var rest := Peeks(content, p.1, k - 1);
      ([p.0] + rest.0, rest.1)
  }

  /** k more lines can be read. */
  predicate ReadsAllowed(content: string, it: Iterator, k: nat)
    requires Valid(content, it)
    decreases k
  {
    k == 0 || (!it.eof && ReadsAllowed(content, NextLine(content, it, false), k - 1))
  }

  /** The lines the next k calls of nextLine return. */
  function Reads(content: string, it: Iterator, k: nat): seq<string>
    requires Valid(content, it) && ReadsAllowed(content, it, k)
    decreases k
  {
    if k == 0 then []
    else
      var n := NextLine(content, it, false);
      [n.buffer] + Reads(content, n, k - 1)
  }

  lemma PeekSeesRead(content: string, p: Iterator, it: Iterator)
    requires Valid(content, p) && Valid(content, it) && p.pos == it.pos && !p.eof && !it.eof
    ensures var (line, p1) := PeekNextLine(content, p);
            var n := NextLine(content, it, false);
            line == n.buffer && p1.pos == n.pos && (!p1.eof ==> !n.eof)
  {
  }

  /** Peeks return what the reads from the same position return. */
  lemma {:induction false} PeeksSeeReads(content: string, p: Iterator, it: Iterator, k: nat)
    requires Valid(content, p) && Valid(content, it) && p.pos == it.pos && !it.eof
    requires PeeksAllowed(content, p, k)
    ensures ReadsAllowed(content, it, k)
    ensures Peeks(content, p, k).0 == Reads(content, it, k)
    decreases k
  {
    if k > 0 {
      PeekSeesRead(content, p, it);
      var p1 := PeekNextLine(content, p).1;
      var n := NextLine(content, it, false);
      if k == 1 {
        assert Peeks(content, p1, 0).0 == Reads(content, n, 0);
      } else {
        PeeksSeeReads(content, p1, n, k - 1);
      }
    }
  }

  /** Peeks change the position, the flag and the saved start, and nothing else. */
  lemma {:induction false} PeeksTouch(content: string, it: Iterator, k: nat)
    requires Valid(content, it) && it.peekStart > 0 && PeeksAllowed(content, it, k)
    ensures var r := Peeks(content, it, k).1; r == it.(pos := r.pos, eof := r.eof)
    decreases k
  {
    if k > 0 {
      PeeksTouch(content, PeekNextLine(content, it).1, k - 1);
    }
  }

  /**
   * Peeking is invisible: from any position past the start, any number of
   * allowed peeks return exactly what the following reads return, and after the
   * reset the iterator is what it was.
   */
  lemma PeekingIsInvisible(content: string, it: Iterator, k: nat)
    requires Valid(content, it) && !it.eof && it.peekStart == 0 && it.pos > 0
    requires k > 0 && PeeksAllowed(content, it, k)
    ensures ReadsAllowed(content, it, k)
    ensures Peeks(content, it, k).0 == Reads(content, it, k)
    ensures Peeks(content, it, k).1.peekStart == it.pos
    ensures PeekReset(Peeks(content, it, k).1) == it
  {
    PeeksSeeReads(content, it, it, k);
    PeeksTouch(content, PeekNextLine(content, it).1, k - 1);
  }

  /** After a read the position is past the start, unless the end was met. */
  lemma ReadMovesOn(content: string, it: Iterator, deleted: bool)
    requires Valid(content, it) && !it.eof
    ensures var n := NextLine(content, it, deleted); n.eof || n.pos > it.pos
  {
  }

  /** Peeks leave the mark at the first of their positions that is not 0. */
  lemma MarkedAtSecond(content: string, it: Iterator, k: nat)
    requires Valid(content, it) && !it.eof && it.peekStart == 0 && it.pos == 0
    requires k >= 2 && PeeksAllowed(content, it, k)
    ensures Peeks(content, it, k).1.peekStart > 0
  {
    var p1 := PeekNextLine(content, it).1;
    PeeksTouch(content, PeekNextLine(content, p1).1, k - 2);
  }

  /**
   * From any position, the reset brings back what was before the peeks if and
   * only if they did not start at the very beginning, where the saved position
   * 0 is no mark, or there was only one. With assertions on, the source refuses
   * the reset of a single peek from position 0, as the mark is then 0.
   */
  lemma ResetComesBackIff(content: string, it: Iterator, k: nat)
    requires Valid(content, it) && !it.eof && it.peekStart == 0
    requires k > 0 && PeeksAllowed(content, it, k)
    ensures PeekReset(Peeks(content, it, k).1) == it <==> it.pos > 0 || k == 1
  {
    if it.pos > 0 {
      PeekingIsInvisible(content, it, k);
    } else if k == 1 {
      assert Peeks(content, it, 1).1 == PeekNextLine(content, it).1;
    } else {
      MarkedAtSecond(content, it, k);
    }
  }

  // ----------------------------------------------------------- whole contents

  /** All lines that are read until the flag is set. */
  function ReadAll(content: string, it: Iterator): seq<string>
    requires Valid(content, it)
    decreases |content| - it.pos, !it.eof
  {
    if it.eof then []
    else
      var n := NextLine(content, it, false);
      ReadMovesOn(content, it, false);
      [n.buffer] + ReadAll(content, n)
  }

  function WithoutEols(s: string): string {
    if s == [] then [] else (if IsEol(s[0]) then [] else [s[0]]) + WithoutEols(s[1..])
  }

  lemma WithoutEolsCons(s: string)
    requires s != []
    ensures WithoutEols(s) == (if IsEol(s[0]) then [] else [s[0]]) + WithoutEols(s[1..])
  {
  }

  lemma DropOne(content: string, pos: nat)
    requires pos < |content|
    ensures WithoutEols(content[pos..])
      == (if IsEol(content[pos]) then [] else [content[pos]]) + WithoutEols(content[pos + 1..])
  {
    WithoutEolsCons(content[pos..]);
    assert content[pos..][1..] == content[pos + 1..];
  }

  lemma {:induction false} UpToTheEnd(content: string, pos: nat)
    requires pos <= |content|
    ensures WithoutEols(content[pos..]) == LineAt(content, pos) + WithoutEols(content[EndOfLine(content, pos)..])
    decreases |content| - pos
  {
    var e := EndOfLine(content, pos);
    if pos != e {
      DropOne(content, pos);
      UpToTheEnd(content, pos + 1);
      assert LineAt(content, pos) == [content[pos]] + LineAt(content, pos + 1);
    }
  }

  lemma WithoutEolsFrom(content: string, pos: nat)
    requires pos <= |content|
    ensures WithoutEols(content[pos..]) == LineAt(content, pos) + WithoutEols(content[NextStart(content, pos)..])
  {
    UpToTheEnd(content, pos);
    var e := EndOfLine(content, pos);
    if e < |content| {
      DropOne(content, e);
      if IsPair(content, e) {
        DropOne(content, e + 1);
      }
    }
  }

  /** What a read does to the text, apart from the counters. */
  lemma ReadMoves(content: string, it: Iterator, deleted: bool)
    requires Valid(content, it) && !it.eof
    ensures var n := NextLine(content, it, deleted);
      n.buffer == LineAt(content, it.pos) && n.pos == NextStart(content, it.pos)
      && (n.eof <==> EndOfLine(content, it.pos) == |content|)
      && (n.eof ==> n.pos == |content|) && (n.eof || n.pos > it.pos)
  {
    var e := EndOfLine(content, it.pos);
    if e < |content| {
      CountingKeeps(content, e, Saved(it, deleted).(
        buffer := LineAt(content, it.pos), pos := NextStart(content, it.pos)));
    }
  }

  lemma CountingKeeps(content: string, e: nat, it: Iterator)
    requires e < |content|
    ensures var n := Counted(content, e, it);
      n.buffer == it.buffer && n.pos == it.pos && n.eof == it.eof && n.peekStart == it.peekStart
  {
  }

  lemma ReadAllStep(content: string, it: Iterator)
    requires Valid(content, it) && !it.eof
    ensures var n := NextLine(content, it, false);
      ReadAll(content, it) == [n.buffer] + ReadAll(content, n)
  {
  }

  lemma {:induction false} FlatCons(head: string, rest: seq<string>)
    ensures Flat([head] + rest) == head + Flat(rest)
  {
    var all := [head] + rest;
    if rest == [] {
      assert DropLast(all) == [] && Flat(DropLast(all)) == [];
    } else {
      assert DropLast(all) == [head] + DropLast(rest) && Last(all) == Last(rest);
      FlatCons(head, DropLast(rest));
      ConcatAssoc(head, Flat(DropLast(rest)), Last(rest));
    }
  }

  /** Reading loses no character but the line ends. */
  lemma {:induction false} ReadingLosesNothing(content: string, it: Iterator)
    requires Valid(content, it)
    ensures it.eof || Flat(ReadAll(content, it)) == WithoutEols(content[it.pos..])
    ensures AllClean(ReadAll(content, it))
    decreases |content| - it.pos, !it.eof
  {
    if !it.eof {
      var n := NextLine(content, it, false);
      ReadMoves(content, it, false);
      WithoutEolsFrom(content, it.pos);
      ReadAllStep(content, it);
      FlatCons(n.buffer, ReadAll(content, n));
      if n.eof {
        assert content[n.pos..] == [];
      }
      ReadingLosesNothing(content, n);
    }
  }

  // ------------------------------------------------------------ logical lines

  /** The end of the block of line-end characters at pos, each different from the one before. */
  function BlockEnd(content: string, pos: nat): (end: nat)
    requires pos < |content| && IsEol(content[pos])
    ensures pos < end <= |content|
    decreases |content| - pos
  {
    if pos + 1 < |content| && IsEol(content[pos + 1]) && content[pos + 1] != content[pos]
    then BlockEnd(content, pos + 1) else pos + 1
  }

  /** From pos on, no block of alternating line-end characters runs from LF to CR. */
  predicate NoReversedBlock(content: string, pos: nat)
    requires pos <= |content|
    decreases |content| - pos
  {
    if pos == |content| then true
    else if !IsEol(content[pos]) then NoReversedBlock(content, pos + 1)
    else
      var end := BlockEnd(content, pos);
      !(content[pos] == '\n' && content[end - 1] == '\r') && NoReversedBlock(content, end)
  }

  lemma {:induction false} SkipCleanLine(content: string, pos: nat)
    requires pos <= |content|
    ensures NoReversedBlock(content, pos) <==> NoReversedBlock(content, EndOfLine(content, pos))
    decreases |content| - pos
  {
    if pos != EndOfLine(content, pos) {
      SkipCleanLine(content, pos + 1);
    }
  }

  /** After two characters of a block, the rest of it starts and ends as the block does. */
  lemma DropTwo(content: string, e: nat)
    requires e + 2 < |content| && IsEol(content[e]) && IsEol(content[e + 1])
    requires content[e + 1] != content[e] && content[e + 2] == content[e]
    ensures NoReversedBlock(content, e) <==> NoReversedBlock(content, e + 2)
  {
    assert BlockEnd(content, e) == BlockEnd(content, e + 1) == BlockEnd(content, e + 2);
  }

  /** A line end that the reader and the logical lines take alike. */
  lemma AgreedEnd(content: string, e: nat)
    requires e < |content| && IsEol(content[e]) && !Reversed(content, e)
    ensures var n := if IsPair(content, e) then 2 else 1;
      && EolLength(content[e..]) == n && e + n <= |content|
      && (NoReversedBlock(content, e) <==> NoReversedBlock(content, e + n))
  {
    if IsPair(content, e) {
      if e + 2 < |content| && content[e + 2] == content[e] {
        DropTwo(content, e);
      } else {
        assert BlockEnd(content, e) == BlockEnd(content, e + 1) == e + 2;
      }
    }
  }

  /** At e the text has an LF CR pair. */
  predicate Reversed(content: string, e: nat) {
    e + 1 < |content| && content[e] == '\n' && content[e + 1] == '\r'
  }

  lemma OnlyLogicalLine(content: string, pos: nat)
    requires pos <= |content| && EndOfLine(content, pos) == |content|
    ensures Lines(content[pos..]) == [LineAt(content, pos)]
  {
    assert content[pos..] == LineAt(content, pos);
    LinesOfClean(LineAt(content, pos));
  }

  lemma ThreeParts(content: string, pos: nat, e: nat, next: nat)
    requires pos <= e <= next <= |content|
    ensures content[pos..] == content[pos..e] + content[e..next] + content[next..]
  {
  }

  /** The line end that the logical lines see at e. */
  lemma LogicalEnd(content: string, e: nat, next: nat)
    requires e < |content| && IsEol(content[e]) && next == e + EolLength(content[e..])
    ensures next <= |content| && content[e..next] in {"\r\n", "\n", "\r"}
    ensures content[e..next] == "\r" ==> content[next..] == [] || content[next..][0] != '\n'
  {
    assert content[e..next] == if next == e + 2 then "\r\n" else [content[e]];
  }

  lemma FirstLogicalLine(content: string, pos: nat, e: nat, next: nat)
    requires pos <= |content| && e == EndOfLine(content, pos) < |content|
    requires next == e + EolLength(content[e..])
    ensures next <= |content| && Lines(content[pos..]) == [LineAt(content, pos)] + Lines(content[next..])
  {
    LogicalEnd(content, e, next);
    ThreeParts(content, pos, e, next);
    LinesOfFirst(content[pos..e], content[e..next], content[next..]);
  }

  /** The lines that are read from pos to the end. */
  function LinesRead(content: string, pos: nat): seq<string>
    requires pos <= |content|
    decreases |content| - pos
  {
    [LineAt(content, pos)]
    + if EndOfLine(content, pos) == |content| then [] else LinesRead(content, NextStart(content, pos))
  }

  lemma {:induction false} ReadAllIs(content: string, it: Iterator)
    requires Valid(content, it) && !it.eof
    ensures ReadAll(content, it) == LinesRead(content, it.pos)
    decreases |content| - it.pos
  {
    var n := NextLine(content, it, false);
    ReadMoves(content, it, false);
    ReadAllStep(content, it);
    if n.eof {
      assert ReadAll(content, n) == [];
    } else {
      ReadAllIs(content, n);
    }
  }

  /** The lines read are the logical lines if `same`, and fewer if not. */
  predicate Agrees(read: seq<string>, ls: seq<string>, same: bool) {
    if same then read == ls else |read| < |ls|
  }

  lemma StepTogether(content: string, pos: nat, e: nat, next: nat)
    requires pos <= |content| && e == EndOfLine(content, pos) < |content| && !Reversed(content, e)
    requires next == NextStart(content, pos)
    ensures Lines(content[pos..]) == [LineAt(content, pos)] + Lines(content[next..])
    ensures NoReversedBlock(content, pos) <==> NoReversedBlock(content, next)
  {
    SkipCleanLine(content, pos);
    AgreedEnd(content, e);
    FirstLogicalLine(content, pos, e, next);
  }

  lemma StepApart(content: string, pos: nat, e: nat)
    requires pos <= |content| && e == EndOfLine(content, pos) && Reversed(content, e)
    ensures Lines(content[pos..]) == [LineAt(content, pos)] + Lines(content[e + 1..])
    ensures NoReversedBlock(content, pos) <==> NoReversedBlock(content, e)
  {
    SkipCleanLine(content, pos);
    FirstLogicalLine(content, pos, e, e + 1);
  }

  /** A CR ends an empty line, with the LF after it if there is one. */
  lemma EmptyLogicalLine(content: string, q: nat, next: nat)
    requires q < |content| && content[q] == '\r'
    requires next == if q + 1 < |content| && content[q + 1] == '\n' then q + 2 else q + 1
    ensures Lines(content[q..]) == [[]] + Lines(content[next..])
  {
    assert EndOfLine(content, q) == q && LineAt(content, q) == [];
    FirstLogicalLine(content, q, q, next);
  }

  lemma BlockEndsReversed(content: string, q: nat)
    requires q > 0 && Reversed(content, q - 1) && !(q + 1 < |content| && content[q + 1] == '\n')
    ensures !NoReversedBlock(content, q - 1)
  {
    assert BlockEnd(content, q - 1) == BlockEnd(content, q) == q + 1;
  }

  lemma AgreesCons(line: string, all: seq<string>, lines: seq<string>, read: seq<string>, ls: seq<string>, same: bool)
    requires all == [line] + read && lines == [line] + ls && Agrees(read, ls, same)
    ensures Agrees(all, lines, same)
  {
  }

  lemma TogetherAgrees(content: string, pos: nat, e: nat, next: nat)
    requires pos <= |content| && e == EndOfLine(content, pos) < |content| && !Reversed(content, e)
    requires next == NextStart(content, pos)
    requires Agrees(LinesRead(content, next), Lines(content[next..]), NoReversedBlock(content, next))
    ensures Agrees(LinesRead(content, pos), Lines(content[pos..]), NoReversedBlock(content, pos))
  {
    StepTogether(content, pos, e, next);
    AgreesCons(LineAt(content, pos), LinesRead(content, pos), Lines(content[pos..]),
               LinesRead(content, next), Lines(content[next..]), NoReversedBlock(content, next));
  }

  lemma ApartAgrees(content: string, pos: nat, e: nat)
    requires pos <= |content| && e == EndOfLine(content, pos) && Reversed(content, e)
    requires Agrees(LinesRead(content, e + 2), Lines(content[e + 1..]), NoReversedBlock(content, e))
    ensures Agrees(LinesRead(content, pos), Lines(content[pos..]), NoReversedBlock(content, pos))
  {
    StepApart(content, pos, e);
    AgreesCons(LineAt(content, pos), LinesRead(content, pos), Lines(content[pos..]),
               LinesRead(content, e + 2), Lines(content[e + 1..]), NoReversedBlock(content, e));
  }

  lemma LastAgrees(content: string, pos: nat)
    requires pos <= |content| && EndOfLine(content, pos) == |content|
    ensures Agrees(LinesRead(content, pos), Lines(content[pos..]), NoReversedBlock(content, pos))
  {
    OnlyLogicalLine(content, pos);
    SkipCleanLine(content, pos);
  }

  lemma {:induction false} InStep(content: string, pos: nat)
    requires pos <= |content|
    ensures Agrees(LinesRead(content, pos), Lines(content[pos..]), NoReversedBlock(content, pos))
    decreases |content| - pos, 1
  {
    var e := EndOfLine(content, pos);
    if e == |content| {
      LastAgrees(content, pos);
    } else if Reversed(content, e) {
      ReversedStep(content, pos, e);
    } else {
      PlainStep(content, pos, e, NextStart(content, pos));
    }
  }

  lemma {:induction false} ReversedStep(content: string, pos: nat, e: nat)
    requires pos <= |content| && e == EndOfLine(content, pos) && Reversed(content, e)
    ensures Agrees(LinesRead(content, pos), Lines(content[pos..]), NoReversedBlock(content, pos))
    decreases |content| - pos, 0
  {
    OneBehind(content, e + 1);
    ApartAgrees(content, pos, e);
  }

  lemma {:induction false} PlainStep(content: string, pos: nat, e: nat, next: nat)
    requires pos <= |content| && e == EndOfLine(content, pos) < |content| && !Reversed(content, e)
    requires next == NextStart(content, pos)
    ensures Agrees(LinesRead(content, pos), Lines(content[pos..]), NoReversedBlock(content, pos))
    decreases |content| - pos, 0
  {
    InStep(content, next);
    TogetherAgrees(content, pos, e, next);
  }

  /** At an LF the reader reads an empty line. */
  lemma EmptyLineRead(content: string, p: nat)
    requires p < |content| && content[p] == '\n'
    ensures var next := if Reversed(content, p) then p + 2 else p + 1;
      next <= |content| && LinesRead(content, p) == [[]] + LinesRead(content, next)
  {
    assert EndOfLine(content, p) == p && LineAt(content, p) == [];
  }

  /** The reader took LF CR as one line end, so the logical lines go on at the CR at q. */
  lemma {:induction false} OneBehind(content: string, q: nat)
    requires q > 0 && Reversed(content, q - 1)
    ensures Agrees(LinesRead(content, q + 1), Lines(content[q..]), NoReversedBlock(content, q - 1))
    decreases |content| - (q + 1), 2
  {
    if q + 1 < |content| && content[q + 1] == '\n' {
      StillBehind(content, q);
    } else {
      BlockEndsReversed(content, q);
      InStep(content, q + 1);
      EmptyLogicalLine(content, q, q + 1);
    }
  }

  lemma {:induction false} StillBehind(content: string, q: nat)
    requires q > 0 && Reversed(content, q - 1) && q + 1 < |content| && content[q + 1] == '\n'
    ensures Agrees(LinesRead(content, q + 1), Lines(content[q..]), NoReversedBlock(content, q - 1))
    decreases |content| - (q + 1), 1
  {
    var next := if Reversed(content, q + 1) then q + 3 else q + 2;
    DropTwo(content, q - 1);
    EmptyLogicalLine(content, q, q + 2);
    EmptyLineRead(content, q + 1);
    AfterBoth(content, q + 1, next);
    AgreesCons([], LinesRead(content, q + 1), Lines(content[q..]), LinesRead(content, next), Lines(content[q + 2..]),
               NoReversedBlock(content, q + 1));
  }

  /** The reader is at the LF at p, the logical lines have taken it. */
  lemma {:induction false} AfterBoth(content: string, p: nat, next: nat)
    requires p < |content| && content[p] == '\n'
    requires next == if Reversed(content, p) then p + 2 else p + 1
    ensures next <= |content|
    ensures Agrees(LinesRead(content, next), Lines(content[p + 1..]), NoReversedBlock(content, p))
    decreases |content| - p - 1, 3
  {
    if Reversed(content, p) {
      OneBehind(content, p + 1);
    } else {
      AgreedEnd(content, p);
      InStep(content, p + 1);
    }
  }

  /**
   * The lines read are the logical lines of the text if and only if no block of
   * alternating line-end characters runs from LF to CR; otherwise they are fewer.
   */
  lemma ReadsLogicalLines(content: string, it: Iterator)
    requires Valid(content, it) && !it.eof
    ensures ReadAll(content, it) == Lines(content[it.pos..]) <==> NoReversedBlock(content, it.pos)
    ensures !NoReversedBlock(content, it.pos) ==> |ReadAll(content, it)| < |Lines(content[it.pos..])|
  {
    ReadAllIs(content, it);
    InStep(content, it.pos);
  }
}
