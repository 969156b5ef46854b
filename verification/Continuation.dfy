/**
 * The continuation-indent stacks of the beautifier: a stack of columns, and a
 * stack that remembers its size at every opening bracket.
 */
module Continuation {
  import opened Basics

  datatype Config = Config(
    indentLength: nat, continuationIndent: nat, maxContinuationIndent: int, indentAfterParen: bool)

  /** Where on its line a token stands that registers a continuation indent. */
  datatype Place = Place(
    index: int,             // column of the token
    toNext: int,            // distance to the next program character
    remaining: int,         // characters left on the line
    tabs: int,              // extra columns of tabs before and after it
    minIndent: int,
    runIn: int,             // the columns a run-in statement was moved by
    onBrace: bool,          // the token is an open brace
    afterRunIn: bool,       // the line starts with an open brace
    inArray: bool)          // the brace of an array after an assignment

  datatype Token =
    | Name
    | OpenParen(place: Place)
    | CloseParen(first: bool)
    | OpenArray(place: Place)     // a brace that opens no block
    | OpenBlock
    | CloseBrace(first: bool)
    | Semicolon
    | Comma(endsLine: bool, column: int)
    | Assign(place: Place)
    | NewLine

  datatype State = State(
    columns: seq<int>,            // continuationIndentStack
    sizes: seq<nat>,              // continuationIndentStackSizeStack
    parens: seq<int>,             // parenIndentStack
    parenDepth: int,
    isContinuation: bool,
    parenStatements: seq<bool>,
    braceStates: seq<bool>,       // true for a block opener
    parenDepths: seq<int>,
    blockStatements: seq<bool>,
    space: int)

  function Initial(): State {
    State([], [0], [], 0, false, [], [true], [], [], 0)
  }

  /** The size stack is never empty, starts at 0, rises, and never exceeds the columns. */
  predicate Sized(sizes: seq<nat>, columns: nat) {
    && |sizes| > 0 && sizes[0] == 0
    && (forall i, j :: 0 <= i < j < |sizes| ==> sizes[i] <= sizes[j])
    && Last(sizes) <= columns
  }

  predicate Valid(s: State) {
    Sized(s.sizes, |s.columns|) && |s.parenDepths| == |s.blockStatements| && |s.braceStates| > 0
  }

  function PopLast(s: State): State
    requires |s.sizes| > 0
  {
    s.(columns := Truncate(s.columns, Last(s.sizes)),
       sizes := if |s.sizes| > 1 then DropLast(s.sizes) else s.sizes)
  }

  /** Pop until no column is left. */
  function Purge(s: State): (r: State)
    requires Valid(s)
    ensures Valid(r) && r.columns == []
    ensures r == s.(columns := [], sizes := r.sizes) && r.sizes <= s.sizes
    decreases |s.columns| + |s.sizes|
  {
    if s.columns == [] then s else Purge(PopLast(s))
  }

  /** The column registered at a place, and the one saved for the closing bracket. */
  function Register(c: Config, s: State, p: Place): (int, int) {
    if p.toNext == p.remaining || c.indentAfterParen then
      var previous := if s.columns == [] then s.space else Last(s.columns);
      var current := c.continuationIndent * c.indentLength + previous;
      (if current > c.maxContinuationIndent && !p.onBrace then c.indentLength * 2 + s.space else current, previous)
    else
      var a := p.index + p.toNext + s.space + p.tabs - if p.index > 0 && p.afterRunIn then c.indentLength else 0;
      var b := if a < p.minIndent then p.minIndent + s.space else a;
      var d := if b > c.maxContinuationIndent && !p.inArray then c.indentLength * 2 + s.space else b;
      (if s.columns != [] && d < Last(s.columns) then Last(s.columns) else d,
       if p.index + s.space < p.runIn then 0 else p.index + s.space - p.runIn)
  }

  /**
   * Outside arrays a registered column is within the maximum or is the fallback
   * of two indents, unless it is the column before it; and a column taken from
   * the text never lies before that one.
   */
  lemma RegisterIsBounded(c: Config, s: State, p: Place)
    ensures var column := Register(c, s, p).0;
      !p.onBrace && !p.inArray ==>
        || column <= c.maxContinuationIndent || column == c.indentLength * 2 + s.space
        || (s.columns != [] && column == Last(s.columns))
    ensures p.toNext != p.remaining && !c.indentAfterParen && s.columns != [] ==>
              Register(c, s, p).0 >= Last(s.columns)
  {
  }

  function PushBracket(c: Config, s: State, p: Place): State {
    var (column, saved) := Register(c, s, p);
    s.(sizes := s.sizes + [|s.columns|], columns := s.columns + [column], parens := s.parens + [saved])
  }

  function PopParen(s: State, first: bool): State {
    if s.parens == [] then s
    else s.(parens := DropLast(s.parens), space := if first then Last(s.parens) else s.space)
  }

  /** How many columns a `;` or a comma inside brackets leaves standing. */
  function Kept(s: State): nat
    requires |s.sizes| > 0
  {
    Last(s.sizes) + if s.parenDepth > 0 then 1 else 0
  }

  function Step(c: Config, s: State, t: Token): State
    requires Valid(s)
  {
    match t
    case Name => s
    case OpenParen(p) =>
      var s1 :=
        if s.parenDepth == 0
        then s.(parenStatements := s.parenStatements + [s.isContinuation], isContinuation := true) else s;
      PushBracket(c, s1.(parenDepth := s.parenDepth + 1), p)
    case CloseParen(first) =>
      var s1 := s.(parenDepth := s.parenDepth - 1);
      var s2 :=
        if s1.parenDepth == 0 && s.parenStatements != []
        then s1.(isContinuation := Last(s.parenStatements), parenStatements := DropLast(s.parenStatements)) else s1;
      PopParen(PopLast(s2), first)
    case OpenArray(p) =>
      PushBracket(c, s.(braceStates := s.braceStates + [false]), p).(parenDepth := s.parenDepth + 1)
    case OpenBlock =>
      Purge(s).(braceStates := s.braceStates + [true],
                parenDepths := s.parenDepths + [s.parenDepth],
                blockStatements := s.blockStatements + [s.isContinuation],
                space := if s.columns == [] then s.space else 0,
                parenDepth := 0, isContinuation := false)
    case CloseBrace(first) => CloseBraceStep(s, first)
    case Semicolon =>
      s.(columns := Truncate(s.columns, Kept(s)), isContinuation := s.isContinuation && s.parenDepth != 0)
    case Comma(endsLine, column) =>
      if s.parenDepth > 0 then s.(columns := Truncate(s.columns, Kept(s)))
      else if s.parenDepth == 0 && !s.isContinuation && endsLine
      then s.(columns := s.columns + [column + s.space], isContinuation := true)
      else s
    case Assign(p) =>
      var s1 := if p.index == 0 && s.space == 0 then s.(space := c.indentLength) else s;
      s1.(columns := s.columns + [Register(c, s1, p).0], isContinuation := true)
    case NewLine => s.(space := if s.columns == [] then 0 else Last(s.columns))
  }

  /** A closing brace ends an array, or a block if no array is open. */
  function CloseBraceStep(s: State, first: bool): State
    requires Valid(s)
  {
    var s1 := if |s.braceStates| > 1 then s.(braceStates := DropLast(s.braceStates)) else s;
    if |s.braceStates| > 1 && !Last(s.braceStates) then CloseArray(s1, first) else CloseBlock(s1, first)
  }

  function CloseArray(s: State, first: bool): State
    requires Valid(s)
  {
    PopParen(PopLast(s.(parenDepth := s.parenDepth - 1)), first)
  }

  function CloseBlock(s: State, first: bool): State
    requires Valid(s)
  {
    var s1 := PopLast(s);
    var s2 :=
      if s.parenDepths == [] then s1
      else s1.(parenDepth := Last(s.parenDepths), parenDepths := DropLast(s.parenDepths),
               isContinuation := Last(s.blockStatements), blockStatements := DropLast(s.blockStatements));
    if first then s2.(space := 0) else s2
  }

  // ---------------------------------------------- what every token keeps

  lemma PopLastIsValid(s: State)
    requires Valid(s)
    ensures Valid(PopLast(s))
  {
  }

  lemma PushIsValid(c: Config, s: State, p: Place)
    requires Valid(s)
    ensures Valid(PushBracket(c, s, p))
  {
    var n := |s.sizes|;
    assert forall i :: 0 <= i < n ==> s.sizes[i] <= s.sizes[n - 1];
  }

  lemma CloseArrayIsValid(s: State, first: bool)
    requires Valid(s)
    ensures Valid(CloseArray(s, first))
  {
    PopLastIsValid(s.(parenDepth := s.parenDepth - 1));
  }

  lemma CloseBlockIsValid(s: State, first: bool)
    requires Valid(s)
    ensures Valid(CloseBlock(s, first))
  {
    PopLastIsValid(s);
  }

  lemma CloseBraceIsValid(s: State, first: bool)
    requires Valid(s)
    ensures Valid(CloseBraceStep(s, first))
  {
    var s1 := if |s.braceStates| > 1 then s.(braceStates := DropLast(s.braceStates)) else s;
    CloseArrayIsValid(s1, first);
    CloseBlockIsValid(s1, first);
  }

  /** In every reachable state the size stack has its 0 at the bottom, so that
      every pop finds an element and the purge at a block brace terminates. */
  lemma StepIsValid(c: Config, s: State, t: Token)
    requires Valid(s)
    ensures Valid(Step(c, s, t))
  {
    if t.OpenParen? {
      OpenParenIsValid(c, s, t.place);
    } else if t.CloseParen? {
      PopLastIsValid(s);
    } else if t.OpenArray? {
      PushIsValid(c, s.(braceStates := s.braceStates + [false]), t.place);
    } else if t.CloseBrace? {
      CloseBraceIsValid(s, t.first);
    } else if t.Semicolon? || t.Comma? {
      SeparatorIsValid(c, s, t);
    }
  }

  lemma SeparatorIsValid(c: Config, s: State, t: Token)
    requires Valid(s) && (t.Semicolon? || t.Comma?)
    ensures Valid(Step(c, s, t))
  {
  }

  lemma OpenParenIsValid(c: Config, s: State, p: Place)
    requires Valid(s)
    ensures Valid(Step(c, s, OpenParen(p)))
  {
    var s1 :=
      if s.parenDepth == 0
      then s.(parenStatements := s.parenStatements + [s.isContinuation], isContinuation := true) else s;
    PushIsValid(c, s1.(parenDepth := s.parenDepth + 1), p);
  }

  function Run(c: Config, s: State, tokens: seq<Token>): (r: State)
    requires Valid(s)
    ensures Valid(r)
    decreases |tokens|
  {
    if tokens == [] then s
    else
      StepIsValid(c, s, tokens[0]);
      Run(c, Step(c, s, tokens[0]), tokens[1..])
  }

  lemma {:induction false} RunConcat(c: Config, s: State, a: seq<Token>, b: seq<Token>)
    requires Valid(s)
    ensures Run(c, s, a + b) == Run(c, Run(c, s, a), b)
    decreases |a|
  {
    if a == [] {
      assert a + b == b;
    } else {
      StepIsValid(c, s, a[0]);
      assert (a + b)[1..] == a[1..] + b;
      RunConcat(c, Step(c, s, a[0]), a[1..], b);
    }
  }

  lemma RunOne(c: Config, s: State, t: Token)
    requires Valid(s)
    ensures Run(c, s, [t]) == Step(c, s, t)
  {
    StepIsValid(c, s, t);
    assert [t][1..] == [];
  }
}
