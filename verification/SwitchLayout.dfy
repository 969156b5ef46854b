/**
 * What the switch stack computes: each line is unindented once for every
 * enclosing switch whose current case opened with a brace.
 */
module SwitchLayout {
  import opened Basics
  import opened Switches

  datatype Stmt =
    | Simple
    | Compound(body: Stmts)
    | SwitchStmt(broken: bool, cases: Cases)

  datatype Stmts = NoStmts | Seq(head: Stmt, tail: Stmts)

  /** A case with its brace on the next line, with its brace after the colon, or without one. */
  datatype Case =
    | Bare(rest: Stmts)
    | Braced(attached: bool, body: Stmts, rest: Stmts)

  datatype Cases = NoCases | More(head: Case, tail: Cases)

  /** A bare case does not start with a block, which would make it a braced one. */
  predicate AllWellFormed(ss: Stmts) {
    ss.Seq? ==> WellFormed(ss.head) && AllWellFormed(ss.tail)
  }

  predicate WellFormed(s: Stmt) {
    match s
    case Simple => true
    case Compound(body) => AllWellFormed(body)
    case SwitchStmt(_, cases) => CasesWellFormed(cases)
  }

  predicate CasesWellFormed(cs: Cases) {
    cs.More? ==> CaseWellFormed(cs.head) && CasesWellFormed(cs.tail)
  }

  predicate CaseWellFormed(k: Case) {
    match k
    case Bare(rest) => AllWellFormed(rest) && !StartsWithBlock(rest)
    case Braced(_, body, rest) => AllWellFormed(body) && AllWellFormed(rest)
  }

  predicate StartsWithBlock(ss: Stmts) {
    ss.Seq? && ss.head.Compound?
  }

  // -------------------------------------------------------------------- layout

  function Line(ts: seq<Token>): seq<Token> {
    [StartLine(false, false)] + ts + [EndLine]
  }

  function LayAll(ss: Stmts): seq<Token> {
    if ss.NoStmts? then [] else Lay(ss.head) + LayAll(ss.tail)
  }

  function Lay(s: Stmt): seq<Token> {
    match s
    case Simple => Line([Other])
    case Compound(body) => Line([OpenBrace]) + (LayAll(body) + Line([CloseBrace(true)]))
    case SwitchStmt(broken, cases) => LayHead(broken) + (LayCases(cases) + Line([CloseBrace(true)]))
  }

  function LayHead(broken: bool): seq<Token> {
    if broken then Line([SwitchWord, Other]) + Line([OpenBrace]) else Line([SwitchWord, Other, OpenBrace])
  }

  function LayCases(cs: Cases): seq<Token> {
    if cs.NoCases? then [] else LayCase(cs.head) + LayCases(cs.tail)
  }

  function LayCase(k: Case): seq<Token> {
    match k
    case Bare(rest) => Line([Label(Nothing)]) + LayAll(rest)
    case Braced(attached, body, rest) =>
      LayLabel(attached) + (LayAll(body) + (Line([CloseBrace(true)]) + LayAll(rest)))
  }

  function LayLabel(attached: bool): seq<Token> {
    if attached then Line([Label(Brace(false))]) else Line([Label(Nothing)]) + Line([OpenBrace])
  }

  // ------------------------------------------------------- what each line gets

  /** The unindents of one line at the given depth. */
  function At(depth: nat): seq<seq<int>> {
    [if depth > 0 then [depth] else []]
  }

  function ExpectAll(ss: Stmts, depth: nat): seq<seq<int>> {
    if ss.NoStmts? then [] else Expect(ss.head, depth) + ExpectAll(ss.tail, depth)
  }

  function Expect(s: Stmt, depth: nat): seq<seq<int>> {
    match s
    case Simple => At(depth)
    case Compound(body) => At(depth) + (ExpectAll(body, depth) + At(depth))
    case SwitchStmt(broken, cases) =>
      (if broken then At(depth) + At(depth) else At(depth)) + (ExpectCases(cases, depth) + At(depth))
  }

  function ExpectCases(cs: Cases, depth: nat): seq<seq<int>> {
    if cs.NoCases? then [] else ExpectCase(cs.head, depth) + ExpectCases(cs.tail, depth)
  }

  /** A braced case is one level deeper from the line after its label to its end. */
  function ExpectCase(k: Case, depth: nat): seq<seq<int>> {
    match k
    case Bare(rest) => At(depth) + ExpectAll(rest, depth)
    case Braced(attached, body, rest) =>
      (if attached then At(depth) else At(depth) + At(depth + 1))
      + (ExpectAll(body, depth + 1) + (At(depth + 1) + ExpectAll(rest, depth + 1)))
  }

  /** The unindents the machine makes, line by line. */
  function Emitted(c: Config, st: State, ts: seq<Token>): seq<seq<int>>
    requires Valid(st)
    decreases |ts|
  {
    if ts == [] then []
    else
      var next := Step(c, st, ts[0]);
      (if ts[0].EndLine? then [next.unindents] else []) + Emitted(c, next, ts[1..])
  }

  lemma {:induction false} EmittedConcat(c: Config, st: State, a: seq<Token>, b: seq<Token>)
    requires Valid(st)
    ensures Emitted(c, st, a + b) == Emitted(c, st, a) + Emitted(c, Run(c, st, a), b)
    decreases |a|
  {
    if a == [] {
      assert a + b == b;
    } else {
      assert (a + b)[1..] == a[1..] + b;
      EmittedConcat(c, Step(c, st, a[0]), a[1..], b);
    }
  }

  /** A text does what it should: it emits es and leaves the state r. */
  ghost predicate Does(c: Config, st: State, ts: seq<Token>, es: seq<seq<int>>, r: State)
    requires Valid(st)
  {
    Run(c, st, ts) == r && Emitted(c, st, ts) == es
  }

  lemma Then(c: Config, st: State, a: seq<Token>, b: seq<Token>)
    requires Valid(st)
    ensures Does(c, st, a + b, Emitted(c, st, a) + Emitted(c, Run(c, st, a), b), Run(c, Run(c, st, a), b))
  {
    RunConcat(c, st, a, b);
    EmittedConcat(c, st, a, b);
  }

  lemma {:induction false} NothingEmitted(c: Config, st: State, ts: seq<Token>)
    requires Valid(st) && EndLine !in ts
    ensures Emitted(c, st, ts) == []
    decreases |ts|
  {
    if ts != [] {
      NothingEmitted(c, Step(c, st, ts[0]), ts[1..]);
    }
  }

  lemma LineDoes(c: Config, st: State, ts: seq<Token>)
    requires Valid(st) && EndLine !in ts
    ensures var r := FinishLine(Run(c, BeginLine(c, st, false, false), ts));
      Does(c, st, Line(ts), [r.unindents], r)
  {
    var start := [StartLine(false, false)];
    Then(c, st, start + ts, [EndLine]);
    Then(c, st, start, ts);
    RunOne(c, st, start[0]);
    var mid := Run(c, BeginLine(c, st, false, false), ts);
    RunOne(c, mid, EndLine);
    NothingEmitted(c, st, start + ts);
    assert Emitted(c, FinishLine(mid), []) == [];
    assert Emitted(c, mid, [EndLine]) == [FinishLine(mid).unindents];
  }

  // ------------------------------------------------------------- single lines

  /** Ready for a line at the given depth. */
  predicate Ready(c: Config, st: State, depth: nat) {
    !c.caseIndent && Inside(st) && st.sw.unindentDepth == depth && !st.unindentNextLine
  }

  /** Nothing has changed that matters to the lines that follow. */
  predicate Same(st: State, r: State) {
    && r.sw == st.sw && r.switchStack == st.switchStack && r.switchDepth == st.switchDepth
    && !r.skipped && !r.unindentNextLine
  }

  /** The end of a line at the given depth. */
  lemma Finished(st: State, depth: nat)
    requires st.unindents == [] && st.sw.unindentDepth == depth
    requires st.shouldUnindentLine && !st.shouldUnindentComment
    ensures [FinishLine(st).unindents] == At(depth)
  {
    assert [] + [depth as int] == [depth as int];
  }

  lemma OneToken(c: Config, st: State, t: Token, next: State, depth: nat)
    requires Valid(st) && t != EndLine && Step(c, BeginLine(c, st, false, false), t) == next
    requires next.unindents == [] && next.sw.unindentDepth == depth
    requires next.shouldUnindentLine && !next.shouldUnindentComment
    ensures Run(c, st, Line([t])) == FinishLine(next) && Emitted(c, st, Line([t])) == At(depth)
  {
    LineDoes(c, st, [t]);
    RunOne(c, BeginLine(c, st, false, false), t);
    Finished(next, depth);
  }

  lemma SimpleLine(c: Config, st: State, depth: nat)
    requires Ready(c, st, depth) && (st.lookingForCaseBrace ==> st.switchDepth > 0)
    ensures var r := Run(c, st, Line([Other]));
      Same(st, r) && !r.lookingForCaseBrace && Emitted(c, st, Line([Other])) == At(depth)
  {
    OneToken(c, st, Other, Step(c, BeginLine(c, st, false, false), Other), depth);
  }

  /** A brace line that is not the end of a switch and not the start of a case. */
  lemma OpenLine(c: Config, st: State, depth: nat)
    requires Ready(c, st, depth) && !st.lookingForCaseBrace
    ensures var r := Run(c, st, Line([OpenBrace]));
      && Emitted(c, st, Line([OpenBrace])) == At(depth)
      && Ready(c, r, depth) && !r.lookingForCaseBrace
      && r.switchStack == st.switchStack && r.switchDepth == st.switchDepth
      && r.sw == if st.switchDepth == 0 then st.sw else st.sw.(switchBraceCount := st.sw.switchBraceCount + 1)
  {
    OneToken(c, st, OpenBrace, Step(c, BeginLine(c, st, false, false), OpenBrace), depth);
  }

  lemma CloseLine(c: Config, st: State, depth: nat)
    requires Ready(c, st, depth)
    requires if st.switchDepth == 0 then !st.lookingForCaseBrace else st.sw.switchBraceCount > 1
    ensures var r := Run(c, st, Line([CloseBrace(true)]));
      && Emitted(c, st, Line([CloseBrace(true)])) == At(depth)
      && !r.lookingForCaseBrace && !r.unindentNextLine && !r.skipped
      && r.switchStack == st.switchStack && r.switchDepth == st.switchDepth
      && r.sw == if st.switchDepth == 0 then st.sw else st.sw.(switchBraceCount := st.sw.switchBraceCount - 1)
  {
    OneToken(c, st, CloseBrace(true), Step(c, BeginLine(c, st, false, false), CloseBrace(true)), depth);
  }

  /** Between two cases of a switch at the given depth. */
  predicate InSwitch(c: Config, st: State, depth: nat) {
    && !c.caseIndent && Valid(st) && !st.skipped && st.switchDepth > 0 && !st.unindentNextLine
    && st.sw == SwitchVariables(1, if st.sw.unindentCase then depth + 1 else depth, st.sw.unindentCase)
  }

  /** The line of a label ends the case before it. */
  lemma LabelLine(c: Config, st: State, depth: nat)
    requires InSwitch(c, st, depth)
    ensures var r := Run(c, st, Line([Label(Nothing)]));
      && Emitted(c, st, Line([Label(Nothing)])) == At(depth)
      && InSwitch(c, r, depth) && Ready(c, r, depth) && !r.sw.unindentCase && r.lookingForCaseBrace
      && r.switchStack == st.switchStack
  {
    OneToken(c, st, Label(Nothing), Step(c, BeginLine(c, st, false, false), Label(Nothing)), depth);
  }

  lemma CaseBraceLine(c: Config, st: State, depth: nat)
    requires InSwitch(c, st, depth) && !st.sw.unindentCase && st.lookingForCaseBrace
    ensures var r := Run(c, st, Line([OpenBrace]));
      && Emitted(c, st, Line([OpenBrace])) == At(depth + 1)
      && r.sw == SwitchVariables(2, depth + 1, true) && Ready(c, r, depth + 1) && !r.lookingForCaseBrace
      && r.switchStack == st.switchStack
  {
    OneToken(c, st, OpenBrace, Step(c, BeginLine(c, st, false, false), OpenBrace), depth + 1);
  }

  lemma AttachedLine(c: Config, st: State, depth: nat)
    requires InSwitch(c, st, depth)
    ensures var r := Run(c, st, Line([Label(Brace(false))]));
      && Emitted(c, st, Line([Label(Brace(false))])) == At(depth)
      && r.sw == SwitchVariables(2, depth, false) && r.unindentNextLine && !r.lookingForCaseBrace && !r.skipped
      && r.switchStack == st.switchStack && r.switchDepth == st.switchDepth
  {
    OneToken(c, st, Label(Brace(false)), Step(c, BeginLine(c, st, false, false), Label(Brace(false))), depth);
  }

  /** The pending unindent may be made before the next line as well as at its start. */
  function Settled(st: State): State {
    if st.unindentNextLine
    then st.(sw := SwitchVariables(st.sw.switchBraceCount, st.sw.unindentDepth + 1, true), unindentNextLine := false)
    else st
  }

  lemma PendingLine(c: Config, st: State, ts: seq<Token>)
    requires Valid(st)
    ensures Does(c, st, [StartLine(false, false)] + ts,
                 Emitted(c, Settled(st), [StartLine(false, false)] + ts),
                 Run(c, Settled(st), [StartLine(false, false)] + ts))
  {
    assert BeginLine(c, st, false, false) == BeginLine(c, Settled(st), false, false);
  }

  lemma SwitchCloseLine(c: Config, st: State, depth: nat, was: SwitchVariables, stack: seq<SwitchVariables>)
    requires InSwitch(c, st, depth) && st.switchStack == stack + [was] && was.unindentDepth == depth
    ensures var r := Run(c, st, Line([CloseBrace(true)]));
      && Emitted(c, st, Line([CloseBrace(true)])) == At(depth)
      && r.sw == was && r.switchStack == stack && r.switchDepth == |stack|
      && !r.lookingForCaseBrace && !r.skipped && !r.unindentNextLine
  {
    LineDoes(c, st, [CloseBrace(true)]);
    var begun := BeginLine(c, st, false, false);
    RunOne(c, begun, CloseBrace(true));
    ClosePops(c, begun, was, stack, true);
    assert Last(begun.switchStack) == was;
    assert [] + [depth as int] == [depth as int];
  }

  lemma SwitchHead(c: Config, st: State, depth: nat, broken: bool)
    requires Ready(c, st, depth)
    ensures var r := Run(c, st, LayHead(broken));
      && Emitted(c, st, LayHead(broken)) == (if broken then At(depth) + At(depth) else At(depth))
      && InSwitch(c, r, depth) && r.switchStack == st.switchStack + [st.sw]
  {
    var begun := BeginLine(c, st, false, false);
    var pushed := PushSwitch(begun).(lookingForCaseBrace := false);
    var words := [SwitchWord, Other];
    WordsPush(c, begun);
    if broken {
      LineDoes(c, st, words);
      Finished(pushed, depth);
      var first := FinishLine(pushed);
      Then(c, st, Line(words), Line([OpenBrace]));
      OneToken(c, first, OpenBrace, Step(c, BeginLine(c, first, false, false), OpenBrace), depth);
    } else {
      LineDoes(c, st, words + [OpenBrace]);
      RunConcat(c, begun, words, [OpenBrace]);
      RunOne(c, pushed, OpenBrace);
      Finished(Step(c, pushed, OpenBrace), depth);
      assert words + [OpenBrace] == [SwitchWord, Other, OpenBrace];
    }
  }

  lemma WordsPush(c: Config, st: State)
    requires Valid(st) && !c.caseIndent && !st.skipped
    ensures Run(c, st, [SwitchWord, Other]) == PushSwitch(st).(lookingForCaseBrace := false)
  {
    RunConcat(c, st, [SwitchWord], [Other]);
    RunOne(c, st, SwitchWord);
    RunOne(c, PushSwitch(st), Other);
    assert [SwitchWord] + [Other] == [SwitchWord, Other];
  }

  // ------------------------------------------------------------- the induction

  lemma {:induction false} AllOk(c: Config, st: State, ss: Stmts, depth: nat)
    requires Ready(c, st, depth) && AllWellFormed(ss)
    requires st.lookingForCaseBrace ==> st.switchDepth > 0 && !StartsWithBlock(ss)
    ensures var r := Run(c, st, LayAll(ss));
      Same(st, r) && (r.lookingForCaseBrace ==> st.lookingForCaseBrace)
    ensures Emitted(c, st, LayAll(ss)) == ExpectAll(ss, depth)
    decreases ss, 0
  {
    if ss.Seq? {
      Then(c, st, Lay(ss.head), LayAll(ss.tail));
      StmtOk(c, st, ss.head, depth);
      AllOk(c, Run(c, st, Lay(ss.head)), ss.tail, depth);
    }
  }

  lemma {:induction false} StmtOk(c: Config, st: State, s: Stmt, depth: nat)
    requires Ready(c, st, depth) && WellFormed(s)
    requires st.lookingForCaseBrace ==> st.switchDepth > 0 && !s.Compound?
    ensures var r := Run(c, st, Lay(s)); Same(st, r) && !r.lookingForCaseBrace
    ensures Emitted(c, st, Lay(s)) == Expect(s, depth)
    decreases s, 0
  {
    if s.Simple? {
      SimpleLine(c, st, depth);
    } else if s.Compound? {
      CompoundOk(c, st, s.body, depth);
    } else {
      SwitchOk(c, st, s.broken, s.cases, depth);
    }
  }

  lemma {:induction false} CompoundOk(c: Config, st: State, body: Stmts, depth: nat)
    requires Ready(c, st, depth) && AllWellFormed(body) && !st.lookingForCaseBrace
    ensures var r := Run(c, st, Lay(Compound(body))); Same(st, r) && !r.lookingForCaseBrace
    ensures Emitted(c, st, Lay(Compound(body))) == Expect(Compound(body), depth)
    decreases body, 1
  {
    var inner := Run(c, st, Line([OpenBrace]));
    var after := Run(c, inner, LayAll(body));
    OpenLine(c, st, depth);
    AllOk(c, inner, body, depth);
    CloseLine(c, after, depth);
    Then(c, inner, LayAll(body), Line([CloseBrace(true)]));
    Then(c, st, Line([OpenBrace]), LayAll(body) + Line([CloseBrace(true)]));
  }

  lemma {:induction false} SwitchOk(c: Config, st: State, broken: bool, cases: Cases, depth: nat)
    requires Ready(c, st, depth) && CasesWellFormed(cases)
    ensures var r := Run(c, st, Lay(SwitchStmt(broken, cases))); Same(st, r) && !r.lookingForCaseBrace
    ensures Emitted(c, st, Lay(SwitchStmt(broken, cases))) == Expect(SwitchStmt(broken, cases), depth)
    decreases cases, 1
  {
    var inner := Run(c, st, LayHead(broken));
    SwitchHead(c, st, depth, broken);
    CasesOk(c, inner, cases, depth);
    SwitchCloseLine(c, Run(c, inner, LayCases(cases)), depth, st.sw, st.switchStack);
    Then(c, inner, LayCases(cases), Line([CloseBrace(true)]));
    Then(c, st, LayHead(broken), LayCases(cases) + Line([CloseBrace(true)]));
  }

  lemma {:induction false} CasesOk(c: Config, st: State, cs: Cases, depth: nat)
    requires InSwitch(c, st, depth) && CasesWellFormed(cs)
    ensures var r := Run(c, st, LayCases(cs)); InSwitch(c, r, depth) && r.switchStack == st.switchStack
    ensures Emitted(c, st, LayCases(cs)) == ExpectCases(cs, depth)
    decreases cs, 0
  {
    if cs.More? {
      Then(c, st, LayCase(cs.head), LayCases(cs.tail));
      CaseOk(c, st, cs.head, depth);
      CasesOk(c, Run(c, st, LayCase(cs.head)), cs.tail, depth);
    }
  }

  lemma {:induction false} CaseOk(c: Config, st: State, k: Case, depth: nat)
    requires InSwitch(c, st, depth) && CaseWellFormed(k)
    ensures var r := Run(c, st, LayCase(k)); InSwitch(c, r, depth) && r.switchStack == st.switchStack
    ensures Emitted(c, st, LayCase(k)) == ExpectCase(k, depth)
    decreases k, 1
  {
    if k.Bare? {
      LabelLine(c, st, depth);
      var labelled := Run(c, st, Line([Label(Nothing)]));
      AllOk(c, labelled, k.rest, depth);
      Then(c, st, Line([Label(Nothing)]), LayAll(k.rest));
    } else if k.attached {
      AttachedLine(c, st, depth);
      var labelled := Run(c, st, LayLabel(true));
      BodyOk(c, Settled(labelled), k, depth);
      Then(c, st, LayLabel(true), LayBody(k.body, k.rest));
      BodyStarts(k.body, k.rest);
      PendingLine(c, labelled, LayBody(k.body, k.rest)[1..]);
    } else {
      LabelLine(c, st, depth);
      var labelled := Run(c, st, Line([Label(Nothing)]));
      CaseBraceLine(c, labelled, depth);
      Then(c, st, Line([Label(Nothing)]), Line([OpenBrace]));
      BodyOk(c, Run(c, labelled, Line([OpenBrace])), k, depth);
      Then(c, st, LayLabel(false), LayBody(k.body, k.rest));
    }
  }

  /** The lines of a braced case after its opening brace. */
  function LayBody(body: Stmts, rest: Stmts): seq<Token> {
    LayAll(body) + (Line([CloseBrace(true)]) + LayAll(rest))
  }

  lemma BodyStarts(body: Stmts, rest: Stmts)
    ensures var ts := LayBody(body, rest); |ts| > 0 && ts == [StartLine(false, false)] + ts[1..]
  {
    LayAllStarts(body);
  }

  lemma {:induction false} LayAllStarts(ss: Stmts)
    ensures LayAll(ss) == [] || LayAll(ss)[0] == StartLine(false, false)
  {
    if ss.Seq? && ss.head.Compound? {
      assert Lay(ss.head)[0] == Line([OpenBrace])[0];
    } else if ss.Seq? && ss.head.SwitchStmt? {
      assert Lay(ss.head)[0] == LayHead(ss.head.broken)[0];
    }
  }

  lemma {:induction false} BodyOk(c: Config, st: State, k: Case, depth: nat)
    requires k.Braced? && CaseWellFormed(k)
    requires Ready(c, st, depth + 1) && st.switchDepth > 0 && !st.lookingForCaseBrace
    requires st.sw == SwitchVariables(2, depth + 1, true)
    ensures var r := Run(c, st, LayBody(k.body, k.rest)); InSwitch(c, r, depth) && r.switchStack == st.switchStack
    ensures Emitted(c, st, LayBody(k.body, k.rest))
      == ExpectAll(k.body, depth + 1) + (At(depth + 1) + ExpectAll(k.rest, depth + 1))
    decreases k, 0
  {
    var body, rest := k.body, k.rest;
    var after := Run(c, st, LayAll(body));
    AllOk(c, st, body, depth + 1);
    CloseLine(c, after, depth + 1);
    var closed := Run(c, after, Line([CloseBrace(true)]));
    AllOk(c, closed, rest, depth + 1);
    Then(c, after, Line([CloseBrace(true)]), LayAll(rest));
    Then(c, st, LayAll(body), Line([CloseBrace(true)]) + LayAll(rest));
  }

  /**
   * The whole program: every line is unindented by the number of enclosing
   * switches whose current case opened with a brace, and the stack is empty
   * again at the end.
   */
  lemma ProgramUnindents(c: Config, ss: Stmts)
    requires !c.caseIndent && AllWellFormed(ss)
    ensures Emitted(c, Initial(), LayAll(ss)) == ExpectAll(ss, 0)
    ensures var r := Run(c, Initial(), LayAll(ss)); r.switchStack == [] && r.sw == Initial().sw
  {
    AllOk(c, Initial(), ss, 0);
  }
}
