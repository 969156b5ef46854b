/**
 * Conditional compilation: the beautifier clones itself at `#if`, hands the
 * clones out at `#elif` and `#else`, and drops them at `#endif`.
 */
module Preprocessor {
  import opened Basics
  import opened HeaderStacks

  type State = s: Stacks | Safe(s) witness InitialState()

  function InitialState(): Stacks
    ensures Safe(InitialState())
  {
    Initial()
  }

  datatype Line = Code(tokens: seq<Token>) | IfLine | ElifLine | ElseLine | EndifLine

  /** The beautifier with its clones: those waiting for a later branch, those
      in charge of one, and for every open `#if` the two sizes before it. */
  datatype Clones = Clones(
    own: State,
    waiting: seq<State>,
    active: seq<State>,
    waitingLengths: seq<nat>,
    activeLengths: seq<nat>)

  /** The state that formats the next line of code. */
  function Current(c: Clones): State {
    if c.active == [] then c.own else Last(c.active)
  }

  function WithCurrent(c: Clones, s: State): Clones {
    if c.active == [] then c.(own := s) else c.(active := DropLast(c.active) + [s])
  }

  /** The waiting clones of the last open `#if` go. */
  function EndWaiting(c: Clones): Clones {
    if c.waitingLengths == [] then c
    else c.(waiting := Truncate(c.waiting, Last(c.waitingLengths)), waitingLengths := DropLast(c.waitingLengths))
  }

  /** The clones in charge of its branches go. */
  function EndActive(c: Clones): Clones {
    if c.activeLengths == [] then c
    else c.(active := Truncate(c.active, Last(c.activeLengths)), activeLengths := DropLast(c.activeLengths))
  }

  function Process(c: Clones, line: Line): Clones {
    match line
    case Code(tokens) => WithCurrent(c, After(Current(c), tokens))
    case IfLine =>
      c.(waiting := c.waiting + [Current(c)],
         waitingLengths := c.waitingLengths + [|c.waiting|],
         activeLengths := c.activeLengths + [|c.active|])
    case ElifLine =>
      if c.waiting == [] then c else c.(active := c.active + [Last(c.waiting)])
    case ElseLine =>
      if c.waiting == [] then c
      else c.(active := c.active + [Last(c.waiting)], waiting := DropLast(c.waiting))
    case EndifLine => EndActive(EndWaiting(c))
  }

  /** What is printed for a line: an indentation, or the directive unchanged. */
  function Output(c: Clones, line: Line): Option<nat> {
    if line.Code? then Some(LineIndent(Current(c), line.tokens)) else None
  }

  function ProcessAll(c: Clones, lines: seq<Line>): Clones
    decreases |lines|
  {
    if lines == [] then c else ProcessAll(Process(c, lines[0]), lines[1..])
  }

  function Outputs(c: Clones, lines: seq<Line>): seq<Option<nat>>
    decreases |lines|
  {
    if lines == [] then [] else [Output(c, lines[0])] + Outputs(Process(c, lines[0]), lines[1..])
  }

  lemma ProcessCons(c: Clones, line: Line, rest: seq<Line>)
    ensures ProcessAll(c, [line] + rest) == ProcessAll(Process(c, line), rest)
    ensures Outputs(c, [line] + rest) == [Output(c, line)] + Outputs(Process(c, line), rest)
  {
    assert ([line] + rest)[1..] == rest;
  }

  lemma {:induction false} ProcessConcat(c: Clones, a: seq<Line>, b: seq<Line>)
    ensures ProcessAll(c, a + b) == ProcessAll(ProcessAll(c, a), b)
    ensures Outputs(c, a + b) == Outputs(c, a) + Outputs(ProcessAll(c, a), b)
    decreases |a|, 0
  {
    if a == [] {
      assert a + b == b;
    } else {
      ConcatStep(c, a[0], Process(c, a[0]), a[1..], b);
      assert a == [a[0]] + a[1..];
    }
  }

  lemma {:induction false} ConcatStep(c: Clones, line: Line, c1: Clones, a: seq<Line>, b: seq<Line>)
    requires c1 == Process(c, line)
    ensures ProcessAll(c, [line] + a + b) == ProcessAll(ProcessAll(c, [line] + a), b)
    ensures Outputs(c, [line] + a + b) == Outputs(c, [line] + a) + Outputs(ProcessAll(c, [line] + a), b)
    decreases |a|, 1
  {
    ConcatAssoc([line], a, b);
    ProcessCons(c, line, a);
    ProcessCons(c, line, a + b);
    ProcessConcat(c1, a, b);
    ConcatAssoc([Output(c, line)], Outputs(c1, a), Outputs(ProcessAll(c1, a), b));
  }

  // ------------------------------------------------ well-nested source text

  datatype Text = End | CodeLine(tokens: seq<Token>, next: Text) | Conditional(first: Text, later: Branches, next: Text)

  /** The branches after the first one: any number of `#elif` and perhaps an `#else`. */
  datatype Branches = NoElse | Else(body: Text) | Elif(body: Text, rest: Branches)

  function Lines(t: Text): seq<Line> {
    match t
    case End => []
    case CodeLine(tokens, next) => [Code(tokens)] + Lines(next)
    case Conditional(first, later, next) =>
      [IfLine] + Lines(first) + BranchLines(later) + [EndifLine] + Lines(next)
  }

  function BranchLines(b: Branches): seq<Line> {
    match b
    case NoElse => []
    case Else(body) => [ElseLine] + Lines(body)
    case Elif(body, rest) => [ElifLine] + Lines(body) + BranchLines(rest)
  }

  // -------------------------------------------------- the simple semantics

  /** The state after a text: the first branch of a conditional counts. */
  function StateAfter(t: Text, s: State): State {
    match t
    case End => s
    case CodeLine(tokens, next) => StateAfter(next, After(s, tokens))
    case Conditional(first, _, next) => StateAfter(next, StateAfter(first, s))
  }

  /** What is printed: every branch of a conditional starts from the state at its `#if`. */
  function Printout(t: Text, s: State): seq<Option<nat>> {
    match t
    case End => []
    case CodeLine(tokens, next) => [Some(LineIndent(s, tokens))] + Printout(next, After(s, tokens))
    case Conditional(first, later, next) =>
      [None] + Printout(first, s) + BranchPrintout(later, s) + [None] + Printout(next, StateAfter(first, s))
  }

  function BranchPrintout(b: Branches, s: State): seq<Option<nat>> {
    match b
    case NoElse => []
    case Else(body) => [None] + Printout(body, s)
    case Elif(body, rest) => [None] + Printout(body, s) + BranchPrintout(rest, s)
  }

  // ------------------------------------------------------------ refinement

  /** Formatting t from c does what the simple semantics says. */
  predicate Refines(t: Text, c: Clones) {
    && ProcessAll(c, Lines(t)) == WithCurrent(c, StateAfter(t, Current(c)))
    && Outputs(c, Lines(t)) == Printout(t, Current(c))
  }

  lemma ProcessOne(c: Clones, line: Line)
    ensures ProcessAll(c, [line]) == Process(c, line)
    ensures Outputs(c, [line]) == [Output(c, line)]
  {
    assert [line][1..] == [];
  }

  lemma CurrentIsSet(c: Clones, s: State)
    ensures Current(WithCurrent(c, s)) == s
    ensures |WithCurrent(c, s).active| == |c.active|
    ensures WithCurrent(c, Current(c)) == c
    ensures forall s' :: WithCurrent(WithCurrent(c, s), s') == WithCurrent(c, s')
  {
  }

  /**
   * Clones refine the recursive semantics on every well-nested text, from any
   * state of the stacks: every later branch is formatted from the state at its
   * `#if`, the state after `#endif` is the one the first branch left, and the
   * two stacks of clones and the two stacks of sizes are what they were.
   */
  lemma {:induction false} ClonesRefineBranches(t: Text, c: Clones)
    ensures Refines(t, c)
    decreases t
  {
    match t {
      case End => CurrentIsSet(c, Current(c));
      case CodeLine(tokens, next) =>
        var c1 := Process(c, Code(tokens));
        CurrentIsSet(c, After(Current(c), tokens));
        ClonesRefineBranches(next, c1);
        ProcessOne(c, Code(tokens));
        ProcessConcat(c, [Code(tokens)], Lines(next));
      case Conditional(first, later, next) =>
        var s := Current(c);
        var c1 := Process(c, IfLine);
        ClonesRefineBranches(first, c1);
        var c2 := WithCurrent(c1, StateAfter(first, s));
        LaterBranches(later, c2, s);
        var c3 := ProcessAll(c2, BranchLines(later));
        EndifRestores(c, c2, c3, StateAfter(first, s));
        var c4 := Process(c3, EndifLine);
        ClonesRefineBranches(next, c4);
        CurrentIsSet(c, StateAfter(first, s));
        ConditionalRuns(first, later, next, c, c1, c2, c3, c4);
    }
  }

  /** The branches after the first run on clones put on top of the active stack. */
  lemma {:induction false} LaterBranches(b: Branches, c: Clones, s: State)
    requires c.waiting != [] && Last(c.waiting) == s
    ensures var r := ProcessAll(c, BranchLines(b));
            && r.own == c.own && c.active <= r.active
            && (r.waiting == c.waiting || r.waiting == DropLast(c.waiting))
            && r.waitingLengths == c.waitingLengths && r.activeLengths == c.activeLengths
    ensures Outputs(c, BranchLines(b)) == BranchPrintout(b, s)
    decreases b
  {
    match b {
      case NoElse =>
      case Else(body) =>
        var c1 := Process(c, ElseLine);
        ClonesRefineBranches(body, c1);
        ProcessOne(c, ElseLine);
        ProcessConcat(c, [ElseLine], Lines(body));
      case Elif(body, rest) =>
        var c1 := Process(c, ElifLine);
        ClonesRefineBranches(body, c1);
        ProcessOne(c, ElifLine);
        ProcessConcat(c, [ElifLine], Lines(body));
        var c2 := WithCurrent(c1, StateAfter(body, s));
        LaterBranches(rest, c2, s);
        ProcessConcat(c, [ElifLine] + Lines(body), BranchLines(rest));
    }
  }

  lemma EndifRestores(c: Clones, c2: Clones, c3: Clones, s1: State)
    requires c2 == WithCurrent(Process(c, IfLine), s1)
    requires c3.own == c2.own && c2.active <= c3.active
    requires c3.waiting == c2.waiting || c3.waiting == DropLast(c2.waiting)
    requires c3.waitingLengths == c2.waitingLengths && c3.activeLengths == c2.activeLengths
    ensures Process(c3, EndifLine) == WithCurrent(c, s1)
  {
    assert Truncate(c3.waiting, |c.waiting|) == c.waiting;
    assert Truncate(c3.active, |c.active|) == c2.active;
    assert DropLast(c.waitingLengths + [|c.waiting|]) == c.waitingLengths;
    assert DropLast(c.activeLengths + [|c.active|]) == c.activeLengths;
  }

  /** The lines of a conditional in five parts, each run from where the last one ended. */
  lemma ConditionalRuns(first: Text, later: Branches, next: Text,
                        c: Clones, c1: Clones, c2: Clones, c3: Clones, c4: Clones)
    requires c1 == Process(c, IfLine) && c2 == ProcessAll(c1, Lines(first))
    requires c3 == ProcessAll(c2, BranchLines(later)) && c4 == Process(c3, EndifLine)
    ensures var all := Lines(Conditional(first, later, next));
            && ProcessAll(c, all) == ProcessAll(c4, Lines(next))
            && Outputs(c, all) == [None] + Outputs(c1, Lines(first)) + Outputs(c2, BranchLines(later))
                                  + [None] + Outputs(c4, Lines(next))
  {
    var a, b, d := Lines(first), BranchLines(later), Lines(next);
    ProcessOne(c, IfLine);
    ProcessOne(c3, EndifLine);
    ProcessConcat(c, [IfLine] + a + b + [EndifLine], d);
    ProcessConcat(c, [IfLine] + a + b, [EndifLine]);
    ProcessConcat(c, [IfLine] + a, b);
    ProcessConcat(c, [IfLine], a);
  }

  /** A whole file: one printed line per source line, and no clone is left. */
  lemma FileRefines(t: Text)
    ensures var c := Clones(Initial(), [], [], [], []);
            && Outputs(c, Lines(t)) == Printout(t, Initial())
            && ProcessAll(c, Lines(t)) == Clones(StateAfter(t, Initial()), [], [], [], [])
  {
    ClonesRefineBranches(t, Clones(InitialState(), [], [], [], []));
  }
}
