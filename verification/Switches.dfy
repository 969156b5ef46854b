/** The switch stack of the enhancer: unindenting the braced cases of switch blocks. */
module Switches {
  import opened Basics

  /** What follows the colon of a label on the same line. */
  datatype Follow = Nothing | Brace(oneLine: bool)

  /**
   * The parts of a line that matter. A line is StartLine, tokens, EndLine, or
   * just StartLine for a blank line that is not filled. For a close brace and a
   * line comment, first says that it is the first text of its line.
   */
  datatype Token =
    | StartLine(blank: bool, skipped: bool)
    | EndLine
    | SwitchWord
    | OpenBrace
    | CloseBrace(first: bool)
    | Label(follow: Follow)
    | LineComment(first: bool)
    | BlockComment
    | Other

  datatype Config = Config(caseIndent: bool, emptyLineFill: bool)

  datatype SwitchVariables = SwitchVariables(switchBraceCount: int, unindentDepth: int, unindentCase: bool)

  /** The state, with the unindents of the current line in the order they are made. */
  datatype State = State(
    sw: SwitchVariables,
    switchStack: seq<SwitchVariables>,
    switchDepth: int,
    lookingForCaseBrace: bool,
    unindentNextLine: bool,
    shouldUnindentLine: bool,
    shouldUnindentComment: bool,
    skipped: bool,
    unindents: seq<int>)

  function Initial(): State {
    State(SwitchVariables(0, 0, false), [], 0, false, false, false, false, false, [])
  }

  // ------------------------------------------------------------------ the steps

  function BeginLine(c: Config, st: State, blank: bool, skipped: bool): State {
    var s := st.(shouldUnindentLine := true, shouldUnindentComment := false, skipped := skipped, unindents := []);
    if (blank && !c.emptyLineFill) || !st.unindentNextLine then s
    else s.(sw := SwitchVariables(st.sw.switchBraceCount, st.sw.unindentDepth + 1, true), unindentNextLine := false)
  }

  function FinishLine(st: State): State {
    if st.sw.unindentDepth <= 0 then st
    else if st.shouldUnindentComment then st.(unindents := st.unindents + [st.sw.unindentDepth - 1])
    else if st.shouldUnindentLine then st.(unindents := st.unindents + [st.sw.unindentDepth])
    else st
  }

  function PushSwitch(st: State): State {
    st.(switchDepth := st.switchDepth + 1,
        switchStack := st.switchStack + [st.sw],
        sw := SwitchVariables(0, st.sw.unindentDepth, false))
  }

  function SeeComment(st: State): State {
    if st.sw.switchBraceCount == 1 && st.sw.unindentCase then st.(shouldUnindentComment := true) else st
  }

  function OpenInSwitch(st: State): State {
    var count := st.sw.switchBraceCount + 1;
    if st.lookingForCaseBrace then
      st.(sw := SwitchVariables(count, st.sw.unindentDepth + 1, true), lookingForCaseBrace := false)
    else st.(sw := st.sw.(switchBraceCount := count))
  }

  function CloseInSwitch(st: State, first: bool): State
    requires st.switchStack != []
  {
    var s := st.(lookingForCaseBrace := false, sw := st.sw.(switchBraceCount := st.sw.switchBraceCount - 1));
    if s.sw.switchBraceCount != 0 then s
    else
      var amount := if first then Last(st.switchStack).unindentDepth else st.sw.unindentDepth;
      s.(unindents := if st.shouldUnindentLine && amount > 0 then st.unindents + [amount] else st.unindents,
         shouldUnindentLine := false,
         switchDepth := st.switchDepth - 1,
         sw := Last(st.switchStack),
         switchStack := DropLast(st.switchStack))
  }

  function LabelInSwitch(st: State, follow: Follow): State {
    var left :=
      if st.sw.unindentCase
      then SwitchVariables(st.sw.switchBraceCount, st.sw.unindentDepth - 1, false) else st.sw;
    match follow
    case Nothing => st.(sw := left, lookingForCaseBrace := true)
    case Brace(oneLine) =>
      st.(sw := left.(switchBraceCount := left.switchBraceCount + 1),
          lookingForCaseBrace := false,
          unindentNextLine := st.unindentNextLine || !oneLine)
  }

  /** Braces and labels count inside a switch only, and never when cases are indented. */
  predicate Processed(c: Config, st: State) {
    !c.caseIndent && st.switchDepth != 0 && !st.skipped
  }

  /** The depth is the size of the stack. */
  predicate Valid(st: State) {
    st.switchDepth == |st.switchStack|
  }

  function Step(c: Config, st: State, t: Token): (r: State)
    requires Valid(st)
    ensures Valid(r)
  {
    match t
    case StartLine(blank, skipped) => BeginLine(c, st, blank, skipped)
    case EndLine => FinishLine(st)
    case SwitchWord => PushSwitch(st)
    case LineComment(first) => if first then SeeComment(st) else st
    case BlockComment => SeeComment(st)
    case OpenBrace => if Processed(c, st) then OpenInSwitch(st) else st
    case CloseBrace(first) => if Processed(c, st) then CloseInSwitch(st, first) else st
    case Label(follow) => if Processed(c, st) then LabelInSwitch(st, follow) else st
    case Other => if Processed(c, st) then st.(lookingForCaseBrace := false) else st
  }

  function Run(c: Config, st: State, ts: seq<Token>): (r: State)
    requires Valid(st)
    ensures Valid(r)
    decreases |ts|
  {
    if ts == [] then st else Run(c, Step(c, st, ts[0]), ts[1..])
  }

  lemma {:induction false} RunConcat(c: Config, st: State, a: seq<Token>, b: seq<Token>)
    requires Valid(st)
    ensures Run(c, st, a + b) == Run(c, Run(c, st, a), b)
    decreases |a|
  {
    if a == [] {
      assert a + b == b;
    } else {
      assert (a + b)[1..] == a[1..] + b;
      RunConcat(c, Step(c, st, a[0]), a[1..], b);
    }
  }

  lemma RunOne(c: Config, st: State, t: Token)
    requires Valid(st)
    ensures Run(c, st, [t]) == Step(c, st, t)
  {
    assert Run(c, Step(c, st, t), []) == Step(c, st, t);
  }

  // ----------------------------------------------------------- depths of frames

  /** An unindented case accounts for one level of its frame. */
  predicate FrameOk(v: SwitchVariables) {
    v.unindentDepth >= if v.unindentCase then 1 else 0
  }

  predicate FramesOk(st: State) {
    && FrameOk(st.sw)
    && (forall k :: 0 <= k < |st.switchStack| ==> FrameOk(st.switchStack[k]))
    && (forall k :: 0 <= k < |st.unindents| ==> st.unindents[k] >= 0)
  }

  lemma StepKeepsFrames(c: Config, st: State, t: Token)
    requires Valid(st) && FramesOk(st)
    ensures FramesOk(Step(c, st, t))
  {
  }

  /** On every text, balanced or not: the depth is the size of the stack, and no unindent is negative. */
  lemma {:induction false} EveryRunIsValid(c: Config, st: State, ts: seq<Token>)
    requires Valid(st) && FramesOk(st)
    ensures Valid(Run(c, st, ts)) && FramesOk(Run(c, st, ts))
    ensures FramesOk(Initial()) && Valid(Initial())
    decreases |ts|
  {
    if ts != [] {
      StepKeepsFrames(c, st, ts[0]);
      EveryRunIsValid(c, Step(c, st, ts[0]), ts[1..]);
    }
  }

  // ------------------------------------------------------------- nested texts

  /** Texts in which every brace is closed and every switch has its block. */
  datatype Item =
    | Plain(t: Token)
    | Block(items: Items, first: bool)
    | LabelBlock(oneLine: bool, items: Items, first: bool)
    | SwitchBlock(condition: nat, items: Items, first: bool)

  datatype Items = Nil | Cons(head: Item, tail: Items)

  /** A token that opens and closes nothing and does not start a skipped line. */
  predicate IsPlain(t: Token) {
    match t
    case StartLine(_, skipped) => !skipped
    case SwitchWord => false
    case OpenBrace => false
    case CloseBrace(_) => false
    case Label(follow) => follow == Nothing
    case _ => true
  }

  predicate Nested(items: Items) {
    items.Nil? || (NestedItem(items.head) && Nested(items.tail))
  }

  predicate NestedItem(item: Item) {
    match item
    case Plain(t) => IsPlain(t)
    case Block(items, _) => Nested(items)
    case LabelBlock(_, items, _) => Nested(items)
    case SwitchBlock(_, items, _) => Nested(items)
  }

  function Others(n: nat): seq<Token> {
    if n == 0 then [] else Others(n - 1) + [Other]
  }

  function Tokens(items: Items): seq<Token> {
    if items.Nil? then [] else ItemTokens(items.head) + Tokens(items.tail)
  }

  function ItemTokens(item: Item): seq<Token> {
    match item
    case Plain(t) => [t]
    case Block(items, first) => [OpenBrace] + Tokens(items) + [CloseBrace(first)]
    case LabelBlock(oneLine, items, first) => [Label(Brace(oneLine))] + Tokens(items) + [CloseBrace(first)]
    case SwitchBlock(n, items, first) =>
      [SwitchWord] + Others(n) + [OpenBrace] + Tokens(items) + [CloseBrace(first)]
  }

  /** Inside the block of a switch, or outside all switches. */
  predicate Inside(st: State) {
    Valid(st) && !st.skipped && (st.switchDepth > 0 ==> st.sw.switchBraceCount > 0)
  }

  /** The stack and the brace count are what they were. */
  predicate Kept(st: State, r: State) {
    && r.switchStack == st.switchStack && r.switchDepth == st.switchDepth && !r.skipped
    && r.sw.switchBraceCount == st.sw.switchBraceCount
  }

  lemma PlainKeeps(c: Config, st: State, t: Token)
    requires Inside(st) && IsPlain(t)
    ensures Kept(st, Step(c, st, t))
  {
  }

  lemma {:induction false} OthersKeep(c: Config, st: State, n: nat)
    requires Valid(st) && !st.skipped
    ensures Kept(st, Run(c, st, Others(n)))
  {
    if n > 0 {
      OthersKeep(c, st, n - 1);
      RunConcat(c, st, Others(n - 1), [Other]);
      RunOne(c, Run(c, st, Others(n - 1)), Other);
    }
  }

  /** A text between an opening and a closing token. */
  lemma Between(c: Config, st: State, a: Token, items: Items, b: Token)
    requires Valid(st)
    ensures Run(c, st, [a] + Tokens(items) + [b]) == Step(c, Run(c, Step(c, st, a), Tokens(items)), b)
  {
    RunConcat(c, st, [a] + Tokens(items), [b]);
    RunConcat(c, st, [a], Tokens(items));
    RunOne(c, st, a);
    RunOne(c, Run(c, Step(c, st, a), Tokens(items)), b);
  }

  lemma {:induction false} TextKeeps(c: Config, st: State, items: Items)
    requires Inside(st) && Nested(items) && !c.caseIndent
    ensures Kept(st, Run(c, st, Tokens(items)))
    decreases items, 0
  {
    if items.Cons? {
      var mid := Run(c, st, ItemTokens(items.head));
      RunConcat(c, st, ItemTokens(items.head), Tokens(items.tail));
      ItemKeeps(c, st, items.head);
      TextKeeps(c, mid, items.tail);
    }
  }

  lemma {:induction false} ItemKeeps(c: Config, st: State, item: Item)
    requires Inside(st) && NestedItem(item) && !c.caseIndent
    ensures Kept(st, Run(c, st, ItemTokens(item)))
    decreases item, 0
  {
    if item.Plain? {
      RunOne(c, st, item.t);
      PlainKeeps(c, st, item.t);
    } else if item.SwitchBlock? {
      SwitchRestores(c, st, item.condition, item.items, item.first);
    } else {
      var a := if item.Block? then OpenBrace else Label(Brace(item.oneLine));
      Between(c, st, a, item.items, CloseBrace(item.first));
      TextKeeps(c, Step(c, st, a), item.items);
    }
  }

  /** The last brace of a switch block takes the frame of its switch off the stack. */
  lemma ClosePops(c: Config, r: State, was: SwitchVariables, stack: seq<SwitchVariables>, first: bool)
    requires Valid(r) && Processed(c, r) && r.switchStack == stack + [was] && r.sw.switchBraceCount == 1
    ensures var s := Step(c, r, CloseBrace(first));
      s.sw == was && s.switchStack == stack && s.switchDepth == |stack| && !s.lookingForCaseBrace && !s.skipped
  {
    assert Last(r.switchStack) == was && DropLast(r.switchStack) == stack;
  }

  /** After the closing brace of a switch, sw and the stack are what they were before the keyword. */
  lemma {:induction false} SwitchRestores(c: Config, st: State, condition: nat, items: Items, first: bool)
    requires Valid(st) && !st.skipped && Nested(items) && !c.caseIndent
    ensures var r := Run(c, st, ItemTokens(SwitchBlock(condition, items, first)));
      && r.sw == st.sw && r.switchStack == st.switchStack && r.switchDepth == st.switchDepth
      && !r.lookingForCaseBrace && !r.skipped
    decreases items, 1
  {
    var pushed := Step(c, st, SwitchWord);
    var ready := Run(c, pushed, Others(condition));
    var entered := Step(c, ready, OpenBrace);
    var left := Run(c, entered, Tokens(items));
    SwitchSteps(c, st, condition, items, first);
    OthersKeep(c, pushed, condition);
    TextKeeps(c, entered, items);
    ClosePops(c, left, st.sw, st.switchStack, first);
  }

  lemma SwitchSteps(c: Config, st: State, condition: nat, items: Items, first: bool)
    requires Valid(st)
    ensures var ready := Run(c, Step(c, st, SwitchWord), Others(condition));
      Run(c, st, ItemTokens(SwitchBlock(condition, items, first)))
        == Step(c, Run(c, Step(c, ready, OpenBrace), Tokens(items)), CloseBrace(first))
  {
    var head := [SwitchWord] + Others(condition);
    var block := [OpenBrace] + Tokens(items) + [CloseBrace(first)];
    assert ItemTokens(SwitchBlock(condition, items, first)) == head + block;
    RunConcat(c, st, head, block);
    RunConcat(c, st, [SwitchWord], Others(condition));
    RunOne(c, st, SwitchWord);
    Between(c, Run(c, st, head), OpenBrace, items, CloseBrace(first));
  }

  // ------------------------------------------------------- cases are indented

  function Switches(items: Items): nat {
    if items.Nil? then 0 else ItemSwitches(items.head) + Switches(items.tail)
  }

  function ItemSwitches(item: Item): nat {
    match item
    case Plain(_) => 0
    case Block(items, _) => Switches(items)
    case LabelBlock(_, items, _) => Switches(items)
    case SwitchBlock(_, items, _) => 1 + Switches(items)
  }

  lemma Idle(c: Config, st: State, t: Token)
    requires Valid(st) && c.caseIndent && (t.OpenBrace? || t.CloseBrace? || t.Label? || t.Other?)
    ensures Step(c, st, t) == st
  {
  }

  lemma {:induction false} OthersAreIdle(c: Config, st: State, n: nat)
    requires Valid(st) && c.caseIndent
    ensures Run(c, st, Others(n)) == st
  {
    if n > 0 {
      OthersAreIdle(c, st, n - 1);
      RunConcat(c, st, Others(n - 1), [Other]);
      RunOne(c, st, Other);
    }
  }

  lemma PlainIsShallow(c: Config, st: State, t: Token)
    requires Valid(st) && IsPlain(t)
    ensures Step(c, st, t).switchDepth == st.switchDepth
  {
  }

  /** When cases are indented nothing is ever popped: each switch leaves one frame behind. */
  lemma {:induction false} IndentedCasesGrow(c: Config, st: State, items: Items)
    requires Valid(st) && c.caseIndent && Nested(items)
    ensures Run(c, st, Tokens(items)).switchDepth == st.switchDepth + Switches(items)
    decreases items
  {
    if items.Cons? {
      RunConcat(c, st, ItemTokens(items.head), Tokens(items.tail));
      IndentedItemGrows(c, st, items.head);
      IndentedCasesGrow(c, Run(c, st, ItemTokens(items.head)), items.tail);
    }
  }

  lemma {:induction false} IndentedItemGrows(c: Config, st: State, item: Item)
    requires Valid(st) && c.caseIndent && NestedItem(item)
    ensures Run(c, st, ItemTokens(item)).switchDepth == st.switchDepth + ItemSwitches(item)
    decreases item
  {
    if item.Plain? {
      RunOne(c, st, item.t);
      PlainIsShallow(c, st, item.t);
    } else if item.SwitchBlock? {
      SwitchSteps(c, st, item.condition, item.items, item.first);
      var pushed := PushSwitch(st);
      OthersAreIdle(c, pushed, item.condition);
      Idle(c, pushed, OpenBrace);
      IndentedCasesGrow(c, pushed, item.items);
      Idle(c, Run(c, pushed, Tokens(item.items)), CloseBrace(item.first));
    } else {
      var a := if item.Block? then OpenBrace else Label(Brace(item.oneLine));
      Between(c, st, a, item.items, CloseBrace(item.first));
      Idle(c, st, a);
      IndentedCasesGrow(c, st, item.items);
      Idle(c, Run(c, st, Tokens(item.items)), CloseBrace(item.first));
    }
  }

  /** A switch gives the stack back exactly when cases are not indented. */
  lemma SwitchGivesBackIff(c: Config, st: State, condition: nat, items: Items, first: bool)
    requires Valid(st) && !st.skipped && Nested(items)
    ensures var r := Run(c, st, ItemTokens(SwitchBlock(condition, items, first)));
      r.sw == st.sw && r.switchStack == st.switchStack <==> !c.caseIndent
  {
    if c.caseIndent {
      IndentedItemGrows(c, st, SwitchBlock(condition, items, first));
    } else {
      SwitchRestores(c, st, condition, items, first);
    }
  }
}
