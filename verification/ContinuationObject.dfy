/** The continuation-indent stacks as fields, with the pop loops of the source. */
module ContinuationObject {
  import opened Basics
  import opened Continuation

  class ContinuationIndents {
    const config: Config
    var continuationIndentStack: seq<int>
    var continuationIndentStackSizeStack: seq<nat>
    var parenIndentStack: seq<int>
    var parenDepth: int
    var isContinuation: bool
    var parenStatementStack: seq<bool>
    var braceBlockStateStack: seq<bool>
    var parenDepthStack: seq<int>
    var blockStatementStack: seq<bool>
    var spaceIndentCount: int

    ghost function Contents(): State
      reads this
    {
      State(continuationIndentStack, continuationIndentStackSizeStack, parenIndentStack, parenDepth,
            isContinuation, parenStatementStack, braceBlockStateStack, parenDepthStack, blockStatementStack,
            spaceIndentCount)
    }

    constructor (c: Config)
      ensures Contents() == Initial() && Valid(Contents()) && config == c
    {
      config := c;
      continuationIndentStack, continuationIndentStackSizeStack, parenIndentStack := [], [0], [];
      parenDepth, isContinuation, parenStatementStack := 0, false, [];
      braceBlockStateStack, parenDepthStack, blockStatementStack := [true], [], [];
      spaceIndentCount := 0;
    }

    /** Pop columns until at most n are left. */
    method PopColumnsTo(n: nat)
      modifies `continuationIndentStack
      ensures continuationIndentStack == Truncate(old(continuationIndentStack), n)
    {
      while n < |continuationIndentStack|
        invariant continuationIndentStack <= old(continuationIndentStack)
        invariant |continuationIndentStack| >= n || continuationIndentStack == old(continuationIndentStack)
      {
        continuationIndentStack := DropLast(continuationIndentStack);
      }
    }

    method PopLastContinuationIndent()
      requires |continuationIndentStackSizeStack| > 0
      modifies `continuationIndentStack, `continuationIndentStackSizeStack
      ensures Contents() == PopLast(old(Contents()))
    {
      var previousIndentStackSize := Last(continuationIndentStackSizeStack);
      if |continuationIndentStackSizeStack| > 1 {
        continuationIndentStackSizeStack := DropLast(continuationIndentStackSizeStack);
      }
      PopColumnsTo(previousIndentStackSize);
    }

    /** The purge at a block brace: it ends because the bottom size is 0. */
    method PurgeAll()
      requires Valid(Contents())
      modifies `continuationIndentStack, `continuationIndentStackSizeStack
      ensures Contents() == Purge(old(Contents())) && Valid(Contents())
    {
      while continuationIndentStack != []
        invariant Valid(Contents())
        invariant Purge(Contents()) == Purge(old(Contents()))
        decreases |continuationIndentStack| + |continuationIndentStackSizeStack|
      {
        PopLastIsValid(Contents());
        PopLastContinuationIndent();
      }
    }

    method RegisterContinuationIndent(place: Place, updateParenStack: bool)
      modifies `continuationIndentStack, `parenIndentStack
      ensures var (column, saved) := Register(config, old(Contents()), place);
              && continuationIndentStack == old(continuationIndentStack) + [column]
              && parenIndentStack == if updateParenStack then old(parenIndentStack) + [saved] else old(parenIndentStack)
    {
      if place.toNext == place.remaining || config.indentAfterParen {
        var previousIndent := spaceIndentCount;
        if continuationIndentStack != [] {
          previousIndent := Last(continuationIndentStack);
        }
        var currIndent := config.continuationIndent * config.indentLength + previousIndent;
        if currIndent > config.maxContinuationIndent && !place.onBrace {
          currIndent := config.indentLength * 2 + spaceIndentCount;
        }
        continuationIndentStack := continuationIndentStack + [currIndent];
        if updateParenStack {
          parenIndentStack := parenIndentStack + [previousIndent];
        }
        return;
      }
      if updateParenStack {
        var column := place.index + spaceIndentCount - place.runIn;
        parenIndentStack := parenIndentStack + [if column < 0 then 0 else column];
      }
      var count := place.index + place.toNext + spaceIndentCount + place.tabs;
      if place.index > 0 && place.afterRunIn {
        count := count - config.indentLength;
      }
      if count < place.minIndent {
        count := place.minIndent + spaceIndentCount;
      }
      if count > config.maxContinuationIndent && !place.inArray {
        count := config.indentLength * 2 + spaceIndentCount;
      }
      if continuationIndentStack != [] && count < Last(continuationIndentStack) {
        count := Last(continuationIndentStack);
      }
      continuationIndentStack := continuationIndentStack + [count];
    }

    method OpenBracket(place: Place)
      modifies `continuationIndentStack, `continuationIndentStackSizeStack, `parenIndentStack
      ensures Contents() == PushBracket(config, old(Contents()), place)
    {
      continuationIndentStackSizeStack := continuationIndentStackSizeStack + [|continuationIndentStack|];
      RegisterContinuationIndent(place, true);
    }

    method TakeParenIndent(first: bool)
      modifies `parenIndentStack, `spaceIndentCount
      ensures Contents() == PopParen(old(Contents()), first)
    {
      if parenIndentStack != [] {
        var poppedIndent := Last(parenIndentStack);
        parenIndentStack := DropLast(parenIndentStack);
        if first {
          spaceIndentCount := poppedIndent;
        }
      }
    }

    method ParseOpenParen(place: Place)
      requires Valid(Contents())
      modifies this
      ensures Contents() == Step(config, old(Contents()), OpenParen(place))
    {
      if parenDepth == 0 {
        parenStatementStack := parenStatementStack + [isContinuation];
        isContinuation := true;
      }
      parenDepth := parenDepth + 1;
      OpenBracket(place);
    }

    method ParseCloseParen(first: bool)
      requires Valid(Contents())
      modifies this
      ensures Contents() == Step(config, old(Contents()), CloseParen(first))
    {
      parenDepth := parenDepth - 1;
      if parenDepth == 0 && parenStatementStack != [] {
        isContinuation := Last(parenStatementStack);
        parenStatementStack := DropLast(parenStatementStack);
      }
      PopLastContinuationIndent();
      TakeParenIndent(first);
    }

    method ParseOpenArray(place: Place)
      requires Valid(Contents())
      modifies this
      ensures Contents() == Step(config, old(Contents()), OpenArray(place))
    {
      braceBlockStateStack := braceBlockStateStack + [false];
      OpenBracket(place);
      parenDepth := parenDepth + 1;
    }

    method ParseOpenBlock()
      requires Valid(Contents())
      modifies this
      ensures Contents() == Step(config, old(Contents()), OpenBlock)
    {
      ghost var s := Contents();
      braceBlockStateStack := braceBlockStateStack + [true];
      parenDepthStack := parenDepthStack + [parenDepth];
      blockStatementStack := blockStatementStack + [isContinuation];
      if continuationIndentStack != [] {
        PurgeIgnores(s, Contents());
        PurgeAll();
        spaceIndentCount := 0;
      }
      parenDepth := 0;
      isContinuation := false;
    }

    method ParseCloseArray(first: bool)
      requires Valid(Contents())
      modifies this
      ensures Contents() == CloseArray(old(Contents()), first)
    {
      PopLastContinuationIndent();
      parenDepth := parenDepth - 1;
      TakeParenIndent(first);
    }

    method ParseCloseBlock(first: bool)
      requires Valid(Contents())
      modifies this
      ensures Contents() == CloseBlock(old(Contents()), first)
    {
      PopLastContinuationIndent();
      if parenDepthStack != [] {
        parenDepth := Last(parenDepthStack);
        parenDepthStack := DropLast(parenDepthStack);
        isContinuation := Last(blockStatementStack);
        blockStatementStack := DropLast(blockStatementStack);
      }
      if first {
        spaceIndentCount := 0;
      }
    }

    method ParseCloseBrace(first: bool)
      requires Valid(Contents())
      modifies this
      ensures Contents() == Step(config, old(Contents()), CloseBrace(first))
    {
      if |braceBlockStateStack| > 1 {
        var braceBlockState := Last(braceBlockStateStack);
        braceBlockStateStack := DropLast(braceBlockStateStack);
        if !braceBlockState {
          ParseCloseArray(first);
          return;
        }
      }
      ParseCloseBlock(first);
    }

    method ParseSeparator(isSemicolon: bool, endsLine: bool, column: int)
      requires Valid(Contents())
      modifies this
      ensures Contents() == Step(config, old(Contents()), if isSemicolon then Semicolon else Comma(endsLine, column))
    {
      if isSemicolon || parenDepth > 0 {
        PopColumnsTo(Last(continuationIndentStackSizeStack) + if parenDepth > 0 then 1 else 0);
      }
      if !isSemicolon && parenDepth == 0 && !isContinuation && endsLine {
        continuationIndentStack := continuationIndentStack + [column + spaceIndentCount];
        isContinuation := true;
      }
      if isSemicolon && parenDepth == 0 {
        isContinuation := false;
      }
    }

    method ParseAssign(place: Place)
      requires Valid(Contents())
      modifies this
      ensures Contents() == Step(config, old(Contents()), Assign(place))
    {
      if place.index == 0 && spaceIndentCount == 0 {
        spaceIndentCount := spaceIndentCount + config.indentLength;
      }
      RegisterContinuationIndent(place, false);
      isContinuation := true;
    }

    method StartLine()
      requires Valid(Contents())
      modifies this
      ensures Contents() == Step(config, old(Contents()), NewLine)
    {
      spaceIndentCount := 0;
      if continuationIndentStack != [] {
        spaceIndentCount := Last(continuationIndentStack);
      }
    }

    method Parse(t: Token)
      requires Valid(Contents())
      modifies this
      ensures Valid(Contents()) && Contents() == Step(config, old(Contents()), t)
    {
      StepIsValid(config, Contents(), t);
      match t {
        case Name =>
        case OpenParen(p) => ParseOpenParen(p);
        case CloseParen(first) => ParseCloseParen(first);
        case OpenArray(p) => ParseOpenArray(p);
        case OpenBlock => ParseOpenBlock();
        case CloseBrace(first) => ParseCloseBrace(first);
        case Semicolon => ParseSeparator(true, false, 0);
        case Comma(endsLine, column) => ParseSeparator(false, endsLine, column);
        case Assign(p) => ParseAssign(p);
        case NewLine => StartLine();
      }
    }
  }

  /** The purge depends on the columns and sizes alone. */
  lemma {:induction false} PurgeIgnores(s: State, r: State)
    requires Valid(s) && Valid(r) && s.columns == r.columns && s.sizes == r.sizes
    ensures Purge(r).sizes == Purge(s).sizes
    decreases |s.columns| + |s.sizes|
  {
    if s.columns != [] {
      PurgeIgnores(PopLast(s), PopLast(r));
    }
  }
}
