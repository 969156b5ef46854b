/** The beautifier object, with the loops and field updates of the source. */
module BeautifierObject {
  import opened Basics
  import opened HeaderStacks

  class Beautifier {
    var headerStack: seq<Header>
    var tempStacks: seq<seq<Header>>
    var indentCount: int
    var lastLineHeader: Option<Header>
    var closingBraceReached: bool
    var haveCaseIndent: bool
    var lineOpeningBlocksNum: nat
    var lineClosingBlocksNum: nat
    var lineBeginsWithOpenBrace: bool
    var lineBeginsWithCloseBrace: bool

    ghost function Contents(): Stacks
      reads this
    {
      Stacks(headerStack, tempStacks)
    }

    ghost function State(): Machine
      reads this
    {
      Machine(Contents(), indentCount, lastLineHeader, closingBraceReached, haveCaseIndent,
              lineOpeningBlocksNum, lineClosingBlocksNum,
              lineBeginsWithOpenBrace, lineBeginsWithCloseBrace)
    }

    ghost predicate Valid()
      reads this
    {
      Safe(Contents())
    }

    constructor ()
      ensures Valid() && Contents() == Initial()
    {
      headerStack, tempStacks := [], [[]];
      indentCount, lastLineHeader := 0, None;
      closingBraceReached, haveCaseIndent := false, false;
      lineOpeningBlocksNum, lineClosingBlocksNum := 0, 0;
      lineBeginsWithOpenBrace, lineBeginsWithCloseBrace := false, false;
      new;
      assert OpenBraces([]) == 0;
    }

    /** The clone made at a conditional directive: its stacks are copies. */
    constructor Copy(other: Beautifier)
      requires other.Valid()
      ensures Valid() && Contents() == other.Contents()
    {
      headerStack, tempStacks := other.headerStack, other.tempStacks;
      indentCount, lastLineHeader := other.indentCount, other.lastLineHeader;
      closingBraceReached, haveCaseIndent := other.closingBraceReached, other.haveCaseIndent;
      lineOpeningBlocksNum, lineClosingBlocksNum := other.lineOpeningBlocksNum, other.lineClosingBlocksNum;
      lineBeginsWithOpenBrace := other.lineBeginsWithOpenBrace;
      lineBeginsWithCloseBrace := other.lineBeginsWithCloseBrace;
    }

    /** Move n entries of the current snapshot back to the header stack, the last one first. */
    method MoveBack(n: nat, ghost t: seq<Header>)
      requires |tempStacks| > 0 && Last(tempStacks) == t && n <= |t|
      modifies `headerStack, `tempStacks
      ensures headerStack == old(headerStack) + Reverse(t[|t| - n..])
      ensures tempStacks == DropLast(old(tempStacks)) + [t[..|t| - n]]
    {
      var top := |tempStacks| - 1;
      var r := 0;
      assert tempStacks == DropLast(tempStacks) + [t] && t == t[..|t| - r];
      while r < n
        invariant 0 <= r <= n
        invariant tempStacks == DropLast(old(tempStacks)) + [t[..|t| - r]]
        invariant headerStack == old(headerStack) + Reverse(t[|t| - r..])
      {
        ReverseCons(t, |t| - r - 1);
        headerStack := headerStack + [Last(tempStacks[top])];
        assert DropLast(t[..|t| - r]) == t[..|t| - r - 1];
        tempStacks := tempStacks[top := DropLast(tempStacks[top])];
        r := r + 1;
      }
    }

    /** Move the snapshot entries outside the first `key` back to the header stack. */
    method RestackTo(key: Header)
      requires |tempStacks| > 0
      modifies `headerStack, `tempStacks, `indentCount
      ensures Contents() == Restack(old(Contents()), key)
      ensures indentCount == old(indentCount) +
                if closingBraceReached then 0 else RestackSize(old(Contents()), key)
    {
      var top := |tempStacks| - 1;
      var index := FirstIndex(tempStacks[top], key);
      if index == |tempStacks[top]| {
        return;
      }
      var restackSize := |tempStacks[top]| - index - 1;
      MoveBack(restackSize, tempStacks[top]);
      if !closingBraceReached {
        indentCount := indentCount + restackSize;
      }
    }

    /** Replace the snapshot of the current block by the pending headers. */
    method TakeSnapshot()
      requires |tempStacks| > 0
      modifies `headerStack, `tempStacks
      ensures Contents() == Snapshot(old(Contents()))
    {
      var top := |tempStacks| - 1;
      ghost var s, n := Contents(), BaseLength(headerStack);
      while tempStacks[top] != []
        invariant |tempStacks| == top + 1 && DropLast(tempStacks) == DropLast(s.temps)
        invariant headerStack == s.heads
        decreases |tempStacks[top]|
      {
        tempStacks := tempStacks[top := DropLast(tempStacks[top])];
      }
      while headerStack != [] && Last(headerStack) != OpenBrace
        invariant n <= |headerStack| <= |s.heads| && headerStack == s.heads[..|headerStack|]
        invariant tempStacks == DropLast(s.temps) + [Reverse(s.heads[|headerStack|..])]
        decreases |headerStack|
      {
        ReverseCons(s.heads, |headerStack| - 1);
        tempStacks := tempStacks[top := tempStacks[top] + [Last(headerStack)]];
        headerStack := DropLast(headerStack);
      }
    }

    /** Drop everything down to and including the last open brace, with its snapshot. */
    method PopBlock()
      requires |tempStacks| > 0
      modifies `headerStack, `tempStacks
      ensures Contents() == Pop(old(Contents()))
    {
      if OpenBrace in headerStack {
        ghost var n, heads := BaseLength(headerStack), headerStack;
        assert heads[n..] != heads || n > 0;
        var popped := Last(headerStack);
        while popped != OpenBrace
          invariant 0 < n <= |headerStack| <= |heads| && headerStack == heads[..|headerStack|]
          invariant popped == Last(headerStack)
          invariant tempStacks == old(tempStacks)
          decreases |headerStack|
        {
          headerStack := DropLast(headerStack);
          popped := Last(headerStack);
        }
        headerStack := DropLast(headerStack);
        tempStacks := DropLast(tempStacks);
      }
    }

    method ParseHeader(h: Keyword)
      requires Valid()
      modifies this
      ensures State() == HeadStep(old(State()), h)
    {
      if h == If && lastLineHeader == Some(Else) {
        if headerStack != [] {
          headerStack := DropLast(headerStack);
        }
      } else if h == Else {
        RestackTo(If);
      } else if h == While {
        RestackTo(Do);
      } else if h == Catch {
        if Try in Last(tempStacks) {
          RestackTo(Try);
        } else {
          RestackTo(Catch);
        }
      }
      headerStack := headerStack + [h];
      lastLineHeader := Some(h);
    }

    method ParseOpenBrace()
      modifies this
      ensures State() == OpenStep(old(State()))
    {
      lineOpeningBlocksNum := lineOpeningBlocksNum + 1;
      tempStacks := tempStacks + [[]];
      headerStack := headerStack + [OpenBrace];
      lastLineHeader := Some(OpenBrace);
    }

    method ParseCloseBrace()
      requires Valid()
      modifies this
      ensures State() == CloseStep(old(State()))
    {
      PopIsSafe(Contents());
      lineClosingBlocksNum := lineClosingBlocksNum + 1;
      closingBraceReached := true;
      PopBlock();
      TakeSnapshot();
    }

    /** The colon of a label ends a statement. */
    method PushLabel(h: Header)
      requires Valid()
      modifies `headerStack, `tempStacks, `lastLineHeader
      ensures Contents() == Labelled(old(Contents()), h)
      ensures lastLineHeader == Some(h)
    {
      headerStack := headerStack + [h];
      lastLineHeader := Some(h);
      TakeSnapshot();
    }

    method ParseCase()
      requires Valid()
      modifies `headerStack, `tempStacks, `lastLineHeader, `indentCount, `haveCaseIndent
      ensures State() == LabelStep(old(State()), Case)
    {
      if !haveCaseIndent {
        haveCaseIndent := true;
        if !lineBeginsWithOpenBrace {
          indentCount := indentCount - 1;
        }
      }
      PushLabel(Case);
    }

    method ParseDefault()
      requires Valid()
      modifies `headerStack, `tempStacks, `lastLineHeader, `indentCount
      ensures State() == LabelStep(old(State()), Default)
    {
      indentCount := indentCount - 1;
      PushLabel(Default);
    }

    method ParseToken(t: Token)
      requires Valid()
      modifies this
      ensures Valid() && State() == Step(old(State()), t)
    {
      StepIsSafe(State(), t);
      match t {
        case Head(h) => ParseHeader(h);
        case Open => ParseOpenBrace();
        case Close => ParseCloseBrace();
        case Semi => TakeSnapshot();
        case CaseLabel => ParseCase();
        case DefaultLabel => ParseDefault();
      }
    }

    method ParseCurrentLine(line: seq<Token>)
      requires Valid()
      modifies this
      ensures Valid() && State() == Parse(old(State()), line)
    {
      var i := 0;
      while i < |line|
        invariant 0 <= i <= |line|
        invariant Valid()
        invariant Parse(old(State()), line) == Parse(State(), line[i..])
      {
        assert line[i..][1..] == line[i + 1..];
        ParseToken(line[i]);
        i := i + 1;
      }
    }

    method ComputePreliminaryIndentation()
      modifies `indentCount
      ensures indentCount == Depth(headerStack)
    {
      indentCount := 0;
      var i := 0;
      while i < |headerStack|
        invariant 0 <= i <= |headerStack|
        invariant indentCount == Depth(headerStack[..i])
      {
        assert DropLast(headerStack[..i + 1]) == headerStack[..i];
        if !(i > 0 && headerStack[i - 1] != OpenBrace && headerStack[i] == OpenBrace) {
          indentCount := indentCount + 1;
        }
        i := i + 1;
      }
      assert headerStack[..i] == headerStack;
    }

    method AdjustParsedLineIndentation(iPrelim: nat, isInExtraHeaderIndent: bool, ghost before: seq<Header>)
      requires iPrelim == |before|
      requires isInExtraHeaderIndent == (lineBeginsWithOpenBrace && HeaderAt(before, 1))
      modifies `indentCount
      ensures indentCount == Adjusted(old(State()), before)
    {
      var oneLine := lineOpeningBlocksNum > 0 && lineOpeningBlocksNum <= lineClosingBlocksNum;
      var size := |headerStack|;
      if lineBeginsWithOpenBrace && size < iPrelim && isInExtraHeaderIndent && oneLine {
        indentCount := indentCount - 1;
      } else if lineBeginsWithOpenBrace && !oneLine && size > 1 && headerStack[size - 2] != OpenBrace {
        indentCount := indentCount - 1;
      } else if size > iPrelim + 1 && lineBeginsWithOpenBrace && !oneLine
             && size > 2 && headerStack[size - 3] != OpenBrace {
        indentCount := indentCount - 1;
      } else if lineBeginsWithCloseBrace {
        indentCount := indentCount - 1;
      }
      if indentCount < 0 {
        indentCount := 0;
      }
    }

    /** Reset what belongs to one line and compute its preliminary indentation. */
    method StartLine(first: Token)
      modifies this
      ensures State() == BeginLine(old(Contents()), first)
    {
      lastLineHeader := None;
      lineBeginsWithOpenBrace := first == Open;
      lineBeginsWithCloseBrace := first == Close;
      lineOpeningBlocksNum, lineClosingBlocksNum := 0, 0;
      closingBraceReached, haveCaseIndent := false, false;
      ComputePreliminaryIndentation();
    }

    /** Indent one line and move the stacks past it. */
    method BeautifyLine(line: seq<Token>) returns (indent: nat)
      requires Valid()
      modifies this
      ensures Valid()
      ensures Contents() == After(old(Contents()), line)
      ensures indent == LineIndent(old(Contents()), line)
    {
      if line == [] {
        return 0;
      }
      var isInExtraHeaderIndent :=
        headerStack != [] && line[0] == Open && Last(headerStack) != OpenBrace;
      ghost var before := headerStack;
      var iPrelim := |headerStack|;
      StartLine(line[0]);
      ParseCurrentLine(line);
      ParseKeepsLineStart(BeginLine(old(Contents()), line[0]), line);
      AdjustParsedLineIndentation(iPrelim, isInExtraHeaderIndent, before);
      indent := indentCount;
    }
  }
}
