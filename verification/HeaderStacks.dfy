/**
 * The statement-header machine of the beautifier.
 *
 * `headerStack` holds the headers and braces that enclose the next token;
 * `tempStacks` holds, per open block, the headers of the statement that just
 * ended, innermost first, so that a later `else`, `while` or `catch` can
 * restore the part of them it belongs under.
 *
 * Input is tokens: a header together with its closed condition, a brace, the
 * `;` that ends a simple statement, and a complete `case` or `default` label.
 */
module HeaderStacks {
  import opened Basics

  datatype Header =
    | If | Else | For | While | Do | Switch | Case | Default | Try | Catch
    | OpenBrace

  /** The headers that are tokens of their own. */
  type Keyword = h: Header | h !in {OpenBrace, Case, Default} witness If

  datatype Token =
    | Head(word: Keyword)
    | Open
    | Close
    | Semi
    | CaseLabel
    | DefaultLabel

  /** What survives from one line to the next. */
  datatype Stacks = Stacks(heads: seq<Header>, temps: seq<seq<Header>>)

  /** The stacks together with what is reset at the start of every line. */
  datatype Machine = Machine(
    stacks: Stacks,
    indent: int,
    last: Option<Header>,   // the last header pushed on this line
    closing: bool,          // a closing brace was met on this line
    caseIndent: bool,
    openings: nat,
    closings: nat,
    beginsOpen: bool,
    beginsClose: bool)

  // ---------------------------------------------------------------- stacks

  /** The length of the part of the stack up to and including the last open brace. */
  function BaseLength(heads: seq<Header>): (n: nat)
    ensures n <= |heads|
    ensures n == 0 || heads[n - 1] == OpenBrace
    ensures OpenBrace !in heads[n..]
  {
    if heads == [] || Last(heads) == OpenBrace then |heads|
    else
      assert heads == DropLast(heads) + [Last(heads)];
      BaseLength(DropLast(heads))
  }

  /** A stack that ends at a block boundary. */
  predicate IsBase(base: seq<Header>) {
    base == [] || Last(base) == OpenBrace
  }

  lemma {:induction false} BaseLengthIs(base: seq<Header>, pending: seq<Header>)
    requires IsBase(base) && OpenBrace !in pending
    ensures BaseLength(base + pending) == |base|
    ensures (base + pending)[..|base|] == base && (base + pending)[|base|..] == pending
  {
    if pending == [] {
      assert base + pending == base;
    } else {
      assert DropLast(base + pending) == base + DropLast(pending);
      BaseLengthIs(base, DropLast(pending));
    }
  }

  function OpenBraces(heads: seq<Header>): nat {
    if heads == [] then 0
    else OpenBraces(DropLast(heads)) + if Last(heads) == OpenBrace then 1 else 0
  }

  lemma {:induction false} OpenBracesConcat(a: seq<Header>, b: seq<Header>)
    ensures OpenBraces(a + b) == OpenBraces(a) + OpenBraces(b)
  {
    if b == [] {
      assert a + b == a;
    } else {
      assert DropLast(a + b) == a + DropLast(b);
      OpenBracesConcat(a, DropLast(b));
    }
  }

  lemma {:induction false} NoOpenBraces(heads: seq<Header>)
    ensures OpenBraces(heads) == 0 <==> OpenBrace !in heads
  {
    if heads != [] {
      assert heads == DropLast(heads) + [Last(heads)];
      NoOpenBraces(DropLast(heads));
    }
  }

  /** No snapshot holds a brace and there is one more snapshot than open braces. */
  predicate Safe(s: Stacks) {
    && |s.temps| >= 1 + OpenBraces(s.heads)
    && forall k :: 0 <= k < |s.temps| ==> OpenBrace !in s.temps[k]
  }

  /** The snapshots beyond one per open brace and one for the outermost level. */
  function Excess(s: Stacks): int {
    |s.temps| - 1 - OpenBraces(s.heads)
  }

  function Initial(): Stacks {
    Stacks([], [[]])
  }

  /** End of a statement: the headers pending since the last open brace move,
      reversed, into the snapshot of the current block. */
  function Snapshot(s: Stacks): (r: Stacks)
    requires |s.temps| > 0
  {
    var n := BaseLength(s.heads);
    Stacks(s.heads[..n], DropLast(s.temps) + [Reverse(s.heads[n..])])
  }

  /** How many headers a companion of the first `key` in the snapshot brings back. */
  function RestackSize(s: Stacks, key: Header): nat
    requires |s.temps| > 0
  {
    var t := Last(s.temps);
    if key in t then |t| - FirstIndex(t, key) - 1 else 0
  }

  function Restack(s: Stacks, key: Header): Stacks
    requires |s.temps| > 0
  {
    var t := Last(s.temps);
    if key in t then
      var keep := FirstIndex(t, key) + 1;
      Stacks(s.heads + Reverse(t[keep..]), DropLast(s.temps) + [t[..keep]])
    else s
  }

  function Pop(s: Stacks): (r: Stacks)
    requires |s.temps| > 0
  {
    if OpenBrace in s.heads
    then Stacks(s.heads[..BaseLength(s.heads) - 1], DropLast(s.temps))
    else s
  }

  // ---------------------------------------------------------------- tokens

  /** The header that a companion word looks for in the snapshot. */
  function Companion(s: Stacks, h: Header): (key: Option<Header>)
    requires |s.temps| > 0
  {
    match h
    case Else => Some(If)
    case While => Some(Do)
    case Catch => if Try in Last(s.temps) then Some(Try) else Some(Catch)
    case _ => None
  }

  /** The stacks just before h is pushed. */
  function Recall(s: Stacks, last: Option<Header>, h: Keyword): Stacks
    requires |s.temps| > 0
  {
    if h == If && last == Some(Else) then
      if s.heads == [] then s else s.(heads := DropLast(s.heads))
    else
      var key := Companion(s, h);
      if key == None then s else Restack(s, key.value)
  }

  function HeadStep(m: Machine, h: Keyword): Machine
    requires |m.stacks.temps| > 0
  {
    var s := Recall(m.stacks, m.last, h);
    var key := Companion(m.stacks, h);
    var gain := if key != None && !m.closing then RestackSize(m.stacks, key.value) else 0;
    m.(stacks := s.(heads := s.heads + [h]), indent := m.indent + gain, last := Some(h))
  }

  /** A label is a statement that ends at once. */
  function Labelled(s: Stacks, h: Header): Stacks
    requires |s.temps| > 0
  {
    Snapshot(Stacks(s.heads + [h], s.temps))
  }

  function LabelStep(m: Machine, h: Header): Machine
    requires |m.stacks.temps| > 0
  {
    var back :=
      if h == Case then (if m.caseIndent || m.beginsOpen then 0 else 1) else 1;
    m.(stacks := Labelled(m.stacks, h),
       indent := m.indent - back,
       caseIndent := m.caseIndent || h == Case,
       last := Some(h))
  }

  function CloseStep(m: Machine): Machine
    requires Safe(m.stacks)
  {
    PopIsSafe(m.stacks);
    m.(stacks := Snapshot(Pop(m.stacks)), closings := m.closings + 1, closing := true)
  }

  function OpenStep(m: Machine): Machine {
    m.(stacks := Stacks(m.stacks.heads + [OpenBrace], m.stacks.temps + [[]]),
       openings := m.openings + 1, last := Some(OpenBrace))
  }

  function Step(m: Machine, t: Token): (r: Machine)
    requires Safe(m.stacks)
  {
    match t
    case Head(h) => HeadStep(m, h)
    case Open => OpenStep(m)
    case Close => CloseStep(m)
    case Semi => m.(stacks := Snapshot(m.stacks))
    case CaseLabel => LabelStep(m, Case)
    case DefaultLabel => LabelStep(m, Default)
  }

  // ---------------------------------------------- what every token keeps

  lemma {:induction false} BasePartIsSafe(heads: seq<Header>)
    ensures OpenBraces(heads[..BaseLength(heads)]) == OpenBraces(heads)
    ensures OpenBrace in heads ==>
              BaseLength(heads) > 0 && OpenBraces(heads[..BaseLength(heads) - 1]) == OpenBraces(heads) - 1
  {
    var n := BaseLength(heads);
    if n == |heads| {
      assert heads[..n] == heads;
    } else {
      BasePartIsSafe(DropLast(heads));
      assert DropLast(heads)[..n] == heads[..n];
      assert n > 0 ==> DropLast(heads)[..n - 1] == heads[..n - 1];
      assert heads == DropLast(heads) + [Last(heads)];
    }
  }

  lemma PopIsSafe(s: Stacks)
    requires Safe(s)
    ensures |Pop(s).temps| > 0 && Safe(Pop(s))
    ensures Excess(Pop(s)) == Excess(s)
  {
    BasePartIsSafe(s.heads);
  }

  lemma SnapshotIsSafe(s: Stacks)
    requires Safe(s)
    ensures Safe(Snapshot(s))
    ensures OpenBraces(Snapshot(s).heads) == OpenBraces(s.heads)
  {
    BasePartIsSafe(s.heads);
    ReverseMembers(s.heads[BaseLength(s.heads)..], OpenBrace);
  }

  lemma PartsWithoutBrace(t: seq<Header>, keep: nat)
    requires OpenBrace !in t && keep <= |t|
    ensures OpenBrace !in t[..keep] && OpenBrace !in Reverse(t[keep..])
  {
    ReverseMembers(t[keep..], OpenBrace);
  }

  lemma RestackIsSafe(s: Stacks, key: Header)
    requires Safe(s)
    ensures Safe(Restack(s, key))
    ensures OpenBraces(Restack(s, key).heads) == OpenBraces(s.heads)
    ensures |Restack(s, key).temps| == |s.temps|
  {
    var t := Last(s.temps);
    if key in t {
      var keep := FirstIndex(t, key) + 1;
      PartsWithoutBrace(t, keep);
      NoOpenBraces(Reverse(t[keep..]));
      OpenBracesConcat(s.heads, Reverse(t[keep..]));
    }
  }

  /** True when the next token would take an open brace off the stack as if it
      were the `else` of an `else if`: the source pops without looking. */
  predicate PopsBrace(m: Machine, t: Token) {
    && t == Head(If) && m.last == Some(Else)
    && m.stacks.heads != [] && Last(m.stacks.heads) == OpenBrace
  }

  lemma PushIsSafe(s: Stacks, h: Header)
    requires Safe(s) && h != OpenBrace
    ensures Safe(s.(heads := s.heads + [h]))
    ensures OpenBraces(s.heads + [h]) == OpenBraces(s.heads)
  {
  }

  lemma ElseIfIsSafe(s: Stacks)
    requires Safe(s) && s.heads != []
    ensures Safe(s.(heads := DropLast(s.heads)))
    ensures OpenBraces(DropLast(s.heads)) == OpenBraces(s.heads) - if Last(s.heads) == OpenBrace then 1 else 0
  {
    assert s.heads == DropLast(s.heads) + [Last(s.heads)];
  }

  lemma RecallIsSafe(s: Stacks, last: Option<Header>, h: Keyword)
    requires Safe(s)
    ensures Safe(Recall(s, last, h))
    ensures |Recall(s, last, h).temps| == |s.temps|
    ensures OpenBraces(Recall(s, last, h).heads) == OpenBraces(s.heads) -
              if h == If && last == Some(Else) && s.heads != [] && Last(s.heads) == OpenBrace then 1 else 0
  {
    if h == If && last == Some(Else) {
      if s.heads != [] { ElseIfIsSafe(s); }
    } else {
      var key := Companion(s, h);
      if key != None { RestackIsSafe(s, key.value); }
    }
  }

  lemma HeadIsSafe(m: Machine, h: Keyword)
    requires Safe(m.stacks)
    ensures Safe(HeadStep(m, h).stacks)
    ensures |HeadStep(m, h).stacks.temps| == |m.stacks.temps|
    ensures OpenBraces(HeadStep(m, h).stacks.heads)
         == OpenBraces(m.stacks.heads) - if PopsBrace(m, Head(h)) then 1 else 0
  {
    RecallIsSafe(m.stacks, m.last, h);
    PushIsSafe(Recall(m.stacks, m.last, h), h);
  }

  /** One snapshot per open brace and one for the outermost level. */
  predicate Exact(s: Stacks) {
    Excess(s) == 0
  }

  lemma CloseIsSafe(m: Machine)
    requires Safe(m.stacks)
    ensures Safe(CloseStep(m).stacks)
    ensures Excess(CloseStep(m).stacks) == Excess(m.stacks)
  {
    PopIsSafe(m.stacks);
    SnapshotIsSafe(Pop(m.stacks));
  }

  lemma LabelIsSafe(m: Machine, h: Header)
    requires Safe(m.stacks) && h != OpenBrace
    ensures Safe(LabelStep(m, h).stacks)
    ensures Excess(LabelStep(m, h).stacks) == Excess(m.stacks)
  {
    PushIsSafe(m.stacks, h);
    SnapshotIsSafe(m.stacks.(heads := m.stacks.heads + [h]));
  }

  lemma OpenIsSafe(m: Machine)
    requires Safe(m.stacks)
    ensures Safe(OpenStep(m).stacks)
  {
    assert DropLast(m.stacks.heads + [OpenBrace]) == m.stacks.heads;
  }

  /** Every token keeps the two stacks safe. */
  lemma StepIsSafe(m: Machine, t: Token)
    requires Safe(m.stacks)
    ensures Safe(Step(m, t).stacks)
  {
    match t {
      case Head(h) => HeadIsSafe(m, h);
      case Open => OpenIsSafe(m);
      case Close => CloseIsSafe(m);
      case Semi => SnapshotIsSafe(m.stacks);
      case CaseLabel => LabelIsSafe(m, Case);
      case DefaultLabel => LabelIsSafe(m, Default);
    }
  }

  /** A token leaves the excess of snapshots, unless it is an `if` that takes a
      brace off the stack: then there is one more. */
  lemma StepExcess(m: Machine, t: Token)
    requires Safe(m.stacks)
    ensures Excess(Step(m, t).stacks) == Excess(m.stacks) + if PopsBrace(m, t) then 1 else 0
  {
    match t {
      case Head(h) => HeadIsSafe(m, h);
      case Open => OpenIsExact(m);
      case Close => CloseIsSafe(m);
      case Semi => SnapshotIsSafe(m.stacks);
      case CaseLabel => LabelIsSafe(m, Case);
      case DefaultLabel => LabelIsSafe(m, Default);
    }
  }

  lemma OpenIsExact(m: Machine)
    ensures Excess(OpenStep(m).stacks) == Excess(m.stacks)
  {
    assert DropLast(m.stacks.heads + [OpenBrace]) == m.stacks.heads;
  }

  /** The exact count of snapshots is kept by a token if and only if the token
      is not an `if` that takes a brace off the stack. */
  lemma StepIsExact(m: Machine, t: Token)
    requires Safe(m.stacks) && Exact(m.stacks)
    ensures Exact(Step(m, t).stacks) <==> !PopsBrace(m, t)
  {
    StepExcess(m, t);
  }

  // ----------------------------------------------------------------- lines

  /** The preliminary indentation: every header counts one level, and so does a
      brace unless it follows the header whose body it opens. */
  function Depth(heads: seq<Header>): nat {
    if heads == [] then 0
    else
      Depth(DropLast(heads)) +
      if |heads| > 1 && heads[|heads| - 2] != OpenBrace && Last(heads) == OpenBrace then 0 else 1
  }

  function BeginLine(s: Stacks, first: Token): Machine {
    Machine(s, Depth(s.heads), None, false, false, 0, 0, first == Open, first == Close)
  }

  function Parse(m: Machine, line: seq<Token>): (r: Machine)
    requires Safe(m.stacks)
    ensures Safe(r.stacks)
    decreases |line|
  {
    if line == [] then m
    else
      StepIsSafe(m, line[0]);
      Parse(Step(m, line[0]), line[1..])
  }

  /** How many tokens of a line take a brace off the stack. */
  function BracesPopped(m: Machine, line: seq<Token>): nat
    requires Safe(m.stacks)
    decreases |line|
  {
    if line == [] then 0
    else
      StepIsSafe(m, line[0]);
      (if PopsBrace(m, line[0]) then 1 else 0) + BracesPopped(Step(m, line[0]), line[1..])
  }

  lemma {:induction false} LineExcess(m: Machine, line: seq<Token>)
    requires Safe(m.stacks)
    ensures Excess(Parse(m, line).stacks) == Excess(m.stacks) + BracesPopped(m, line)
    decreases |line|
  {
    if line != [] {
      StepIsSafe(m, line[0]);
      StepExcess(m, line[0]);
      LineExcess(Step(m, line[0]), line[1..]);
    }
  }

  /** Over any tokens of a line the exact count is kept if and only if none of
      them takes a brace off the stack; what is lost once never comes back. */
  lemma LineIsExact(m: Machine, line: seq<Token>)
    requires Safe(m.stacks) && Exact(m.stacks)
    ensures Exact(Parse(m, line).stacks) <==> BracesPopped(m, line) == 0
  {
    LineExcess(m, line);
  }

  lemma {:induction false} ParseConcat(m: Machine, a: seq<Token>, b: seq<Token>)
    requires Safe(m.stacks)
    ensures Parse(m, a + b) == Parse(Parse(m, a), b)
    decreases |a|
  {
    if a == [] {
      assert a + b == b;
    } else {
      StepIsSafe(m, a[0]);
      assert (a + b)[1..] == a[1..] + b;
      ParseConcat(Step(m, a[0]), a[1..], b);
    }
  }

  lemma {:induction false} ParseKeepsLineStart(m: Machine, line: seq<Token>)
    requires Safe(m.stacks)
    ensures Parse(m, line).beginsOpen == m.beginsOpen
    ensures Parse(m, line).beginsClose == m.beginsClose
    decreases |line|
  {
    if line != [] {
      StepIsSafe(m, line[0]);
      ParseKeepsLineStart(Step(m, line[0]), line[1..]);
    }
  }

  /** A line that opens blocks and closes all of them again. */
  predicate OneLineBlock(m: Machine) {
    m.openings > 0 && m.openings <= m.closings
  }

  /** The k-th stack entry from the top exists and is a header. */
  predicate HeaderAt(heads: seq<Header>, k: nat) {
    |heads| >= k > 0 && heads[|heads| - k] != OpenBrace
  }

  /** The indentation after the whole line is known; `before` is the header
      stack at the start of the line. */
  function Adjusted(m: Machine, before: seq<Header>): nat {
    var heads := m.stacks.heads;
    var unindent :=
      || (m.beginsOpen && OneLineBlock(m) && HeaderAt(before, 1) && |heads| < |before|)
      || (m.beginsOpen && !OneLineBlock(m) && HeaderAt(heads, 2))
      || (m.beginsOpen && !OneLineBlock(m) && HeaderAt(heads, 3) && |heads| > |before| + 1)
      || m.beginsClose;
    var indent := if unindent then m.indent - 1 else m.indent;
    if indent < 0 then 0 else indent
  }

  /** The stacks after a line. A blank line leaves them alone. */
  function After(s: Stacks, line: seq<Token>): (r: Stacks)
    requires Safe(s)
    ensures Safe(r)
  {
    if line == [] then s else Parse(BeginLine(s, line[0]), line).stacks
  }

  /** The `indentCount` a line is printed with. */
  function LineIndent(s: Stacks, line: seq<Token>): nat
    requires Safe(s)
  {
    if line == [] then 0 else Adjusted(Parse(BeginLine(s, line[0]), line), s.heads)
  }

  lemma {:induction false} ParseCons(m: Machine, t: Token, rest: seq<Token>)
    requires Safe(m.stacks)
    ensures Safe(Step(m, t).stacks) && Parse(m, [t] + rest) == Parse(Step(m, t), rest)
  {
    StepIsSafe(m, t);
    assert ([t] + rest)[1..] == rest;
  }

  lemma StrayElse(m: Machine)
    requires m.stacks == Stacks([OpenBrace], [[], []])
    ensures Step(m, Head(Else)).stacks == Stacks([OpenBrace, Else], [[], []])
    ensures Step(m, Head(Else)).last == Some(Else)
  {
  }

  lemma StrayEnds(m: Machine)
    requires m.stacks == Stacks([OpenBrace, Else], [[], []])
    ensures Step(m, Semi).stacks.heads == [OpenBrace] && |Step(m, Semi).stacks.temps| == 2
  {
    assert DropLast([OpenBrace, Else]) == [OpenBrace];
  }

  lemma StrayIf(m: Machine)
    requires Safe(m.stacks) && m.stacks.heads == [OpenBrace] && |m.stacks.temps| == 2 && m.last == Some(Else)
    ensures !Exact(Parse(m, [Head(If)]).stacks)
  {
    ParseCons(m, Head(If), []);
    assert [Head(If)] + [] == [Head(If)];
    assert Step(m, Head(If)).stacks.heads == [If];
    NoOpenBraces([If]);
  }

  lemma ParseThree(m: Machine, a: Token, b: Token, c: seq<Token>)
    requires Safe(m.stacks)
    ensures Safe(Step(m, a).stacks) && Safe(Step(Step(m, a), b).stacks)
    ensures Parse(m, [a] + ([b] + c)) == Parse(Step(Step(m, a), b), c)
  {
    ParseCons(m, a, [b] + c);
    ParseCons(Step(m, a), b, c);
  }

  lemma StrayRun(m: Machine)
    requires Safe(m.stacks) && m.stacks == Stacks([OpenBrace], [[], []])
    ensures !Exact(Parse(m, [Head(Else)] + ([Semi] + [Head(If)])).stacks)
  {
    StrayElse(m);
    StrayEnds(Step(m, Head(Else)));
    ParseThree(m, Head(Else), Semi, [Head(If)]);
    StrayIf(Step(Step(m, Head(Else)), Semi));
  }

  lemma FirstBlock(m: Machine)
    requires m.stacks == Initial()
    ensures Safe(m.stacks) && Exact(m.stacks)
    ensures Step(m, Open).stacks == Stacks([OpenBrace], [[], []])
  {
    NoOpenBraces([]);
  }

  /** The exact count does fail on a reachable line: `{ else ; if`. */
  lemma ExactCanFail()
    ensures Exact(Initial())
    ensures !Exact(After(Initial(), [Open, Head(Else), Semi, Head(If)]))
  {
    StrayLine(BeginLine(Initial(), Open), [Head(Else)] + ([Semi] + [Head(If)]));
    assert [Open] + ([Head(Else)] + ([Semi] + [Head(If)])) == [Open, Head(Else), Semi, Head(If)];
  }

  lemma StrayLine(m: Machine, rest: seq<Token>)
    requires m.stacks == Initial() && rest == [Head(Else)] + ([Semi] + [Head(If)])
    ensures Safe(m.stacks) && Exact(m.stacks) && !Exact(Parse(m, [Open] + rest).stacks)
  {
    FirstBlock(m);
    StepIsSafe(m, Open);
    StrayRun(Step(m, Open));
    ParseCons(m, Open, rest);
  }
}
