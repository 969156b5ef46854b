/** What a balanced bracketed text does to the continuation-indent stacks. */
module Brackets {
  import opened Basics
  import opened Continuation

  datatype Items = End | Then(item: Item, rest: Items)

  datatype Item =
    | Plain(token: PlainToken)
    | Group(place: Place, inner: Items, first: bool)    // in parentheses or square brackets
    | Array(place: Place, inner: Items, first: bool)    // in braces that open no block
    | Block(inner: Items, first: bool)                  // in block braces, as of a lambda

  /** The tokens that open and close nothing. */
  type PlainToken = t: Token | t.Name? || t.Semicolon? || t.Comma? || t.Assign? || t.NewLine? witness Name

  function Tokens(items: Items): seq<Token> {
    match items
    case End => []
    case Then(item, rest) => ItemTokens(item) + Tokens(rest)
  }

  function ItemTokens(item: Item): seq<Token> {
    match item
    case Plain(t) => [t]
    case Group(p, inner, first) => [OpenParen(p)] + Tokens(inner) + [CloseParen(first)]
    case Array(p, inner, first) => [OpenArray(p)] + Tokens(inner) + [CloseBrace(first)]
    case Block(inner, first) => [OpenBlock] + Tokens(inner) + [CloseBrace(first)]
  }

  predicate HasBlock(items: Items) {
    items.Then? && (ItemHasBlock(items.item) || HasBlock(items.rest))
  }

  predicate ItemHasBlock(item: Item) {
    match item
    case Plain(_) => false
    case Group(_, inner, _) => HasBlock(inner)
    case Array(_, inner, _) => HasBlock(inner)
    case Block(_, _) => true
  }

  predicate AllZero(sizes: seq<nat>) {
    forall i :: 0 <= i < |sizes| ==> sizes[i] == 0
  }

  /** The stacks of brackets other than columns are as they were. */
  predicate SameNesting(s: State, r: State) {
    && r.parens == s.parens && r.parenDepth == s.parenDepth && r.parenStatements == s.parenStatements
    && r.braceStates == s.braceStates && r.parenDepths == s.parenDepths && r.blockStatements == s.blockStatements
  }

  /** From s to r no column of the enclosing bracket's outside was touched, or a
      block brace has purged them all. */
  predicate Keeps(s: State, r: State, purged: bool)
    requires Valid(s) && Valid(r)
  {
    && SameNesting(s, r)
    && (!purged ==> r.sizes == s.sizes && |r.columns| >= Last(s.sizes)
                    && r.columns[..Last(s.sizes)] == s.columns[..Last(s.sizes)])
    && (purged || AllZero(s.sizes) ==> AllZero(r.sizes))
  }

  /** The bracket brought the columns back exactly, or a block brace has purged them. */
  predicate Restores(s: State, r: State, purged: bool)
    requires Valid(s) && Valid(r)
  {
    && Keeps(s, r, purged)
    && (!purged ==> r.columns == s.columns)
    && (purged ==> r.columns == [])
  }

  lemma KeepsTransitive(s: State, m: State, r: State, p: bool, q: bool)
    requires Valid(s) && Valid(m) && Valid(r)
    requires Keeps(s, m, p) && Keeps(m, r, q)
    ensures Keeps(s, r, p || q)
  {
  }

  lemma PlainKeeps(c: Config, s: State, t: PlainToken)
    requires Valid(s)
    ensures Valid(Step(c, s, t)) && Keeps(s, Step(c, s, t), false)
  {
    StepIsValid(c, s, t);
  }

  lemma CloseGroup(c: Config, s: State, p: Place, m: State, first: bool, purged: bool)
    requires Valid(s) && Valid(Step(c, s, OpenParen(p))) && Valid(m)
    requires Keeps(Step(c, s, OpenParen(p)), m, purged)
    ensures var r := Step(c, m, CloseParen(first));
            && Valid(r) && Restores(s, r, purged)
            && (s.parenDepth == 0 ==> r.isContinuation == s.isContinuation)
  {
    GroupCloses(c, s, Step(c, s, OpenParen(p)), m, first, purged);
  }

  /** From s1, the state after an opening parenthesis, to the state after the closing one. */
  lemma GroupCloses(c: Config, s: State, s1: State, m: State, first: bool, purged: bool)
    requires Valid(s) && Valid(s1) && Valid(m) && Keeps(s1, m, purged)
    requires s1.sizes == s.sizes + [|s.columns|] && |s1.columns| == |s.columns| + 1
    requires s1.columns[..|s.columns|] == s.columns
    requires |s1.parens| == |s.parens| + 1 && s1.parens[..|s.parens|] == s.parens
    requires s1.parenDepth == s.parenDepth + 1
    requires s1.parenStatements == s.parenStatements + if s.parenDepth == 0 then [s.isContinuation] else []
    requires s1.braceStates == s.braceStates && s1.parenDepths == s.parenDepths
    requires s1.blockStatements == s.blockStatements
    ensures var r := Step(c, m, CloseParen(first));
            && Valid(r) && Restores(s, r, purged)
            && (s.parenDepth == 0 ==> r.isContinuation == s.isContinuation)
  {
    StepIsValid(c, m, CloseParen(first));
    PopsBack(s, s1, m, purged);
    assert DropLast(m.parens) == s.parens;
    assert s.parenDepth == 0 ==> DropLast(m.parenStatements) == s.parenStatements;
  }

  /** Popping the sizes of a bracket brings back the columns before it. */
  lemma PopsBack(s: State, s1: State, m: State, purged: bool)
    requires Valid(s) && Valid(s1) && Valid(m) && Keeps(s1, m, purged)
    requires s1.sizes == s.sizes + [|s.columns|]
    requires |s1.columns| == |s.columns| + 1 && s1.columns[..|s.columns|] == s.columns
    ensures !purged ==> PopLast(m).columns == s.columns && PopLast(m).sizes == s.sizes
    ensures purged ==> PopLast(m).columns == []
    ensures purged ==> AllZero(PopLast(m).sizes)
  {
  }

  lemma CloseArrayBrace(c: Config, s: State, p: Place, m: State, first: bool, purged: bool)
    requires Valid(s) && Valid(Step(c, s, OpenArray(p))) && Valid(m)
    requires Keeps(Step(c, s, OpenArray(p)), m, purged)
    ensures var r := Step(c, m, CloseBrace(first)); Valid(r) && Restores(s, r, purged)
  {
    StepIsValid(c, m, CloseBrace(first));
    PopsBack(s, Step(c, s, OpenArray(p)), m, purged);
    assert DropLast(m.braceStates) == s.braceStates;
  }

  lemma PurgeLeavesZeros(s: State)
    requires Valid(s)
    ensures AllZero(Purge(s).sizes)
  {
    var r := Purge(s);
    forall i | 0 <= i < |r.sizes| ensures r.sizes[i] == 0 {
      assert r.sizes[i] <= Last(r.sizes);
    }
  }

  lemma CloseBlockBrace(c: Config, s: State, m: State, first: bool, purged: bool)
    requires Valid(s) && Valid(Step(c, s, OpenBlock)) && Valid(m)
    requires Keeps(Step(c, s, OpenBlock), m, purged)
    ensures var r := Step(c, m, CloseBrace(first)); Valid(r) && Restores(s, r, true)
  {
    StepIsValid(c, m, CloseBrace(first));
    PurgeLeavesZeros(s);
    assert DropLast(m.braceStates) == s.braceStates;
  }

  lemma {:induction false} ItemsKeep(c: Config, s: State, items: Items)
    requires Valid(s)
    ensures Keeps(s, Run(c, s, Tokens(items)), HasBlock(items))
    decreases items
  {
    match items {
      case End =>
      case Then(item, rest) =>
        var m := Run(c, s, ItemTokens(item));
        ItemKeeps(c, s, item);
        ItemsKeep(c, m, rest);
        RunConcat(c, s, ItemTokens(item), Tokens(rest));
        KeepsTransitive(s, m, Run(c, m, Tokens(rest)), ItemHasBlock(item), HasBlock(rest));
    }
  }

  lemma RunBracket(c: Config, s: State, open: Token, inner: seq<Token>, close: Token)
    requires Valid(s)
    ensures Valid(Step(c, s, open))
    ensures Run(c, s, [open] + inner + [close]) == Step(c, Run(c, Step(c, s, open), inner), close)
  {
    StepIsValid(c, s, open);
    RunOne(c, s, open);
    RunConcat(c, s, [open] + inner, [close]);
    RunConcat(c, s, [open], inner);
    RunOne(c, Run(c, Step(c, s, open), inner), close);
  }

  /** One item; a bracketed one brings the columns back exactly unless a block
      brace in it has purged them. */
  lemma {:induction false} ItemKeeps(c: Config, s: State, item: Item)
    requires Valid(s)
    ensures Keeps(s, Run(c, s, ItemTokens(item)), ItemHasBlock(item))
    ensures !item.Plain? ==> Restores(s, Run(c, s, ItemTokens(item)), ItemHasBlock(item))
    ensures item.Group? && s.parenDepth == 0 ==> Run(c, s, ItemTokens(item)).isContinuation == s.isContinuation
    decreases item
  {
    match item {
      case Plain(t) =>
        PlainKeeps(c, s, t);
        RunOne(c, s, t);
      case Group(p, inner, first) =>
        RunBracket(c, s, OpenParen(p), Tokens(inner), CloseParen(first));
        ItemsKeep(c, Step(c, s, OpenParen(p)), inner);
        CloseGroup(c, s, p, Run(c, Step(c, s, OpenParen(p)), Tokens(inner)), first, HasBlock(inner));
      case Array(p, inner, first) =>
        RunBracket(c, s, OpenArray(p), Tokens(inner), CloseBrace(first));
        ItemsKeep(c, Step(c, s, OpenArray(p)), inner);
        CloseArrayBrace(c, s, p, Run(c, Step(c, s, OpenArray(p)), Tokens(inner)), first, HasBlock(inner));
      case Block(inner, first) =>
        RunBracket(c, s, OpenBlock, Tokens(inner), CloseBrace(first));
        ItemsKeep(c, Step(c, s, OpenBlock), inner);
        CloseBlockBrace(c, s, Run(c, Step(c, s, OpenBlock), Tokens(inner)), first, HasBlock(inner));
    }
  }

  /**
   * The continuation indents after a closing bracket are exactly those before
   * its opening one, for every balanced text inside it and from every state,
   * if and only if the text has no block brace or there were none before it.
   */
  lemma BracketRestoresColumns(c: Config, s: State, item: Item)
    requires Valid(s) && !item.Plain?
    ensures var r := Run(c, s, ItemTokens(item));
            && SameNesting(s, r)
            && (r.columns == s.columns <==> !ItemHasBlock(item) || s.columns == [])
            && (!ItemHasBlock(item) ==> r.sizes == s.sizes)
  {
    ItemKeeps(c, s, item);
  }
}
