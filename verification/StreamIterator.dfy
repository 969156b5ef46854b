/** The stream iterator as an object: the character loops over a stream with a position and a flag. */
module StreamIteratorObject {
  import opened LineEnds
  import opened StreamLines

  class StreamIterator {
    const content: string
    var pos: nat
    var eof: bool
    var buffer: string
    var prevBuffer: string
    var outputEOL: string
    var eolWindows: nat
    var eolLinux: nat
    var eolMacOld: nat
    var peekStart: nat
    var prevLineDeleted: bool
    var checkForEmptyLine: bool

    ghost function State(): Iterator
      reads this
    {
      Iterator(pos, eof, buffer, prevBuffer, outputEOL, eolWindows, eolLinux, eolMacOld,
               peekStart, prevLineDeleted, checkForEmptyLine)
    }

    constructor (text: string)
      ensures content == text && State() == Start() && Valid(content, State())
    {
      content := text;
      pos, eof, peekStart := 0, false, 0;
      buffer, prevBuffer, outputEOL := "", "", "";
      eolWindows, eolLinux, eolMacOld := 0, 0, 0;
      prevLineDeleted, checkForEmptyLine := false, false;
    }

    predicate HasMoreLines()
      reads this
    {
      !eof
    }

    /** Take the next character; at the end the flag is set and the character is what it was. */
    method Get(was: char) returns (ch: char)
      requires pos <= |content|
      modifies `pos, `eof
      ensures old(pos) < |content| ==> ch == content[old(pos)] && pos == old(pos) + 1 && eof == old(eof)
      ensures old(pos) == |content| ==> ch == was && pos == old(pos) && eof
    {
      if pos < |content| {
        ch := content[pos];
        pos := pos + 1;
      } else {
        ch := was;
        eof := true;
      }
    }

    /** Take characters up to and including the first line-end character. */
    method TakeLine() returns (line: string, ch: char)
      requires pos <= |content| && !eof
      modifies `pos, `eof
      ensures var e := EndOfLine(content, old(pos));
              && line == LineAt(content, old(pos))
              && eof == (e == |content|)
              && if e == |content| then pos == e else pos == e + 1 && ch == content[e]
    {
      line := [];
      ch := Get('\0');
      while !eof && ch != '\n' && ch != '\r'
        invariant old(pos) <= pos <= |content|
        invariant !eof ==> old(pos) < pos && ch == content[pos - 1] && line == content[old(pos)..pos - 1]
        invariant !eof ==> EndOfLine(content, old(pos)) == EndOfLine(content, pos - 1)
        invariant eof ==> pos == |content| && line == content[old(pos)..] && EndOfLine(content, old(pos)) == |content|
        decreases |content| - pos, !eof
      {
        line := line + [ch];
        ch := Get(ch);
      }
    }

    /** Count the line end ch, taking its second character; the flag is left clear. */
    method CountLineEnd(ch: char)
      requires 0 < pos <= |content| && !eof && ch == content[pos - 1] && IsEol(ch)
      modifies `pos, `eof, `eolWindows, `eolLinux, `eolMacOld
      ensures !eof
      ensures pos == if IsPair(content, old(pos) - 1) then old(pos) + 1 else old(pos)
      ensures State() == CountedEnd(content, old(pos) - 1, old(State())).(pos := pos)
    {
      if pos < |content| {
        var peekCh := content[pos];
        if ch == '\r' {
          if peekCh == '\n' {
            var taken := Get(peekCh);
            eolWindows := eolWindows + 1;
          } else {
            eolMacOld := eolMacOld + 1;
          }
        } else {
          if peekCh == '\r' {
            var taken := Get(peekCh);
            eolWindows := eolWindows + 1;
          } else {
            eolLinux := eolLinux + 1;
          }
        }
      } else {
        eof := true;
        eof := false;
      }
    }

    /** Choose the line end to write; a text with no counted line end counts as Linux. */
    method ChooseLineEnd()
      modifies `eolLinux, `outputEOL
      ensures State() == Chosen(old(State()))
    {
      if eolWindows == 0 && eolLinux == 0 && eolMacOld == 0 {
        eolLinux := eolLinux + 1;
      }
      if eolWindows >= eolLinux {
        if eolWindows >= eolMacOld {
          outputEOL := "\r\n";
        } else {
          outputEOL := "\r";
        }
      } else if eolLinux >= eolMacOld {
        outputEOL := "\n";
      } else {
        outputEOL := "\r";
      }
    }

    method SaveBuffer(emptyLineWasDeleted: bool)
      modifies `prevLineDeleted, `checkForEmptyLine, `prevBuffer
      ensures State() == Saved(old(State()), emptyLineWasDeleted)
    {
      if prevLineDeleted {
        prevLineDeleted := false;
        checkForEmptyLine := true;
      }
      if !emptyLineWasDeleted {
        prevBuffer := buffer;
      } else {
        prevLineDeleted := true;
      }
    }

    method NextLine(emptyLineWasDeleted: bool) returns (line: string)
      requires Valid(content, State()) && HasMoreLines() && peekStart == 0
      modifies this
      ensures State() == StreamLines.NextLine(content, old(State()), emptyLineWasDeleted)
      ensures line == buffer == LineAt(content, old(pos)) && Valid(content, State()) && peekStart == 0
    {
      SaveBuffer(emptyLineWasDeleted);
      var ch;
      buffer, ch := TakeLine();
      if eof {
        return buffer;
      }
      CountLineEnd(ch);
      ChooseLineEnd();
      return buffer;
    }

    method PeekNextLine() returns (nextLine: string)
      requires Valid(content, State()) && HasMoreLines()
      modifies `peekStart, `pos, `eof
      ensures (nextLine, State()) == StreamLines.PeekNextLine(content, old(State()))
      ensures Valid(content, State())
    {
      if peekStart == 0 {
        peekStart := pos;
      }
      var ch;
      nextLine, ch := TakeLine();
      if eof {
        return;
      }
      if pos < |content| {
        var peekCh := content[pos];
        if (peekCh == '\n' || peekCh == '\r') && peekCh != ch {
          ch := Get(ch);
        }
      } else {
        eof := true;
      }
    }

    method PeekReset()
      requires Valid(content, State()) && peekStart != 0
      modifies `peekStart, `pos, `eof
      ensures State() == StreamLines.PeekReset(old(State())) && Valid(content, State())
    {
      eof := false;
      pos := peekStart;
      peekStart := 0;
    }
  }
}
