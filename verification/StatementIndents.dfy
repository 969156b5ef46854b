/** The proof that the header machine indents every statement tree by its nesting depth. */
module StatementIndents {
  import opened Basics
  import opened HeaderStacks
  import opened Companions
  import opened InlineStatements
  import opened StatementTrees

  /** The headers still pending when the statement x has ended. */
  function Tail(x: Stmt): seq<Header> {
    match x
    case Simple(_) => []
    case Label(isDefault) => [if isDefault then Default else Case]
    case Block(_, _) => []
    case OneLiner(_, _) => []
    case Cond(t) => [If] + Tail(t)
    case CondElse(_, _, chained, e) => if chained && (e.Cond? || e.CondElse?) then Tail(e) else [Else] + Tail(e)
    case Loop(h, b) => [h] + Tail(b)
    case DoLoop(_, _) => [While]
    case Guarded(_, hs) => [if hs.NoHandler? then Try else Catch]
  }

  lemma {:induction false} TailMembers(x: Stmt)
    requires WellFormed(x)
    ensures If in Tail(x) <==> EndsInOpenIf(x)
    ensures Do !in Tail(x) && Try !in Tail(x) && OpenBrace !in Tail(x)
  {
    match x {
      case Cond(t) => TailMembers(t);
      case CondElse(_, _, _, e) => TailMembers(e);
      case Loop(_, b) => TailMembers(b);
      case _ =>
    }
  }

  lemma {:induction false} DepthOfHeaders(base: seq<Header>, hs: seq<Header>)
    requires OpenBrace !in hs
    ensures Depth(base + hs) == Depth(base) + |hs|
  {
    if hs == [] {
      assert base + hs == base;
    } else {
      assert DropLast(base + hs) == base + DropLast(hs);
      assert Last(base + hs) == Last(hs);
      DepthOfHeaders(base, DropLast(hs));
    }
  }

  lemma DepthUnder(base: seq<Header>, hs: seq<Header>, h: Header)
    requires Frame(base, hs) && h != OpenBrace
    ensures Depth(base + hs + [h]) == Depth(base + hs) + 1
    ensures Depth(base + hs + [h] + [OpenBrace]) == Depth(base + hs) + 1
  {
    var heads := base + hs + [h];
    assert DropLast(heads) == base + hs && Last(heads) == h;
    assert DropLast(heads + [OpenBrace]) == heads;
  }

  lemma DepthOfBlock(base: seq<Header>, hs: seq<Header>)
    requires Frame(base, hs)
    ensures Depth(base + hs + [OpenBrace]) == Depth(base + hs) + if hs == [] then 1 else 0
  {
    assert DropLast(base + hs + [OpenBrace]) == base + hs;
    if hs != [] {
      assert (base + hs + [OpenBrace])[|base + hs| - 1] == Last(hs);
    }
  }

  // -------------------------------------------------- a header and its line

  /** The machine stands after the header h of a statement at depth d. */
  predicate AfterHead(p: Machine, base: seq<Header>, hs: seq<Header>, h: Header, prefix: seq<seq<Header>>, d: nat) {
    && Safe(p.stacks)
    && p.stacks.heads == base + hs + [h]
    && |p.stacks.temps| == |prefix| + 1 && DropLast(p.stacks.temps) == prefix
    && !p.beginsOpen
    && p.indent == d + if p.beginsClose then 1 else 0
  }

  /** A line `head`, parsed from the stacks s, reaches AfterHead. */
  predicate Heads(s: Stacks, head: seq<Token>, base: seq<Header>, hs: seq<Header>, h: Header,
                  prefix: seq<seq<Header>>, d: nat)
    requires Safe(s)
  {
    && head != []
    && AfterHead(Parse(BeginLine(s, head[0]), head), base, hs, h, prefix, d)
    && (h == While || NoDo(Parse(BeginLine(s, head[0]), head).stacks))
  }

  /** The line is indented by d whatever is attached to the header. */
  lemma HeadLine(s: Stacks, head: seq<Token>, more: seq<Token>, base: seq<Header>, hs: seq<Header>, h: Header,
                 prefix: seq<seq<Header>>, d: nat)
    requires Safe(s) && Heads(s, head, base, hs, h, prefix, d)
    ensures var p := Parse(BeginLine(s, head[0]), head);
            && After(s, head + more) == Parse(p, more).stacks
            && LineIndent(s, head + more) == Adjusted(Parse(p, more), s.heads)
            && (Parse(p, more).indent == p.indent ==> LineIndent(s, head + more) == d)
  {
    var begin := BeginLine(s, head[0]);
    var p := Parse(begin, head);
    ParseConcat(begin, head, more);
    ParseKeepsLineStart(p, more);
    assert (head + more)[0] == head[0];
  }

  /** A header without a companion at the start of a line. */
  lemma PlainHead(s: Stacks, h: Keyword, base: seq<Header>, hs: seq<Header>, d: nat)
    requires Safe(s) && s.heads == base + hs && Depth(base + hs) == d
    requires h != Else && h != Catch && NoDo(s)
    ensures Heads(s, [Head(h)], base, hs, h, DropLast(s.temps), d)
    ensures NoDo(Parse(BeginLine(s, Head(h)), [Head(h)]).stacks)
  {
    var begin := BeginLine(s, Head(h));
    ParseOne(begin, Head(h));
    StepIsSafe(begin, Head(h));
  }

  /** The machine after the lines of Lead: inside the body's block, or past the body. */
  predicate Led(s: Stacks, x: Stmt, base: seq<Header>, hs: seq<Header>, h: Header, prefix: seq<seq<Header>>) {
    if x.Block? then
      && s.heads == base + hs + [h] + [OpenBrace]
      && |s.temps| == |prefix| + 2 && DropLast(DropLast(s.temps)) == prefix
    else
      s == Finished(base, hs + ([h] + Tail(x)), prefix)
  }

  /** A line that begins with the closing brace of a header's block. */
  lemma CloseBlock(s: Stacks, x: Stmt, base: seq<Header>, hs: seq<Header>, h: Header, prefix: seq<seq<Header>>)
    requires Safe(s) && Frame(base, hs) && h != OpenBrace
    requires x.Block? && Led(s, x, base, hs, h, prefix)
    ensures var p := Step(BeginLine(s, Close), Close);
            && Safe(p.stacks) && p.stacks == Finished(base, hs + [h], prefix)
            && p.indent == Depth(base + hs) + 1 && p.closing && p.beginsClose && !p.beginsOpen
  {
    var begin := BeginLine(s, Close);
    StepIsSafe(begin, Close);
    assert base + hs + [h] == base + (hs + [h]);
    PopAt(s, base + (hs + [h]), []);
    assert s.heads == base + (hs + [h]) + [OpenBrace] + [];
    SnapshotAt(Pop(s), base, hs + [h]);
    DepthUnder(base, hs, h);
  }

  lemma SealOk(s: Stacks, x: Stmt, base: seq<Header>, hs: seq<Header>, h: Header, prefix: seq<seq<Header>>, d: nat)
    requires Safe(s) && Frame(base, hs) && h != OpenBrace && Depth(base + hs) == d
    requires Led(s, x, base, hs, h, prefix)
    ensures Indented(s, Seal(x, false, d))
    ensures AfterAll(s, Seal(x, false, d)) == Finished(base, hs + ([h] + Tail(x)), prefix)
  {
    if x.Block? {
      CloseBlock(s, x, base, hs, h, prefix);
      ParseOne(BeginLine(s, Close), Close);
      RunOne(s, [Close], d);
      assert [h] + Tail(x) == [h];
    }
  }

  /** The header `key` of a finished body has the companion h. */
  predicate Joins(h: Keyword, key: Header, x: Stmt) {
    || (h == Else && key == If && If !in Tail(x))
    || (h == While && key == Do)
    || (h == Catch && key in {Try, Catch} && IsBraced(x))
  }

  /** The key that the companion looks for is the header of the finished body. */
  lemma CompanionKey(s: Stacks, h: Keyword, key: Header, x: Stmt, base: seq<Header>, hs: seq<Header>,
                     prefix: seq<seq<Header>>)
    requires WellFormed(x) && Joins(h, key, x) && Try !in hs
    requires s == Finished(base, hs + ([key] + Tail(x)), prefix)
    ensures Companion(s, h) == Some(key) && key !in Tail(x) && Do !in Tail(x)
  {
    TailMembers(x);
    if h == Catch {
      assert Tail(x) == [];
      ReverseMembers(hs + ([key] + Tail(x)), Try);
    }
  }

  lemma CompanionHead(p: Machine, h: Keyword, key: Header, x: Stmt, base: seq<Header>, hs: seq<Header>,
                      prefix: seq<seq<Header>>)
    requires Safe(p.stacks) && Frame(base, hs) && WellFormed(x) && Joins(h, key, x)
    requires p.stacks == Finished(base, hs + ([key] + Tail(x)), prefix)
    ensures var q := Step(p, Head(h));
            && Safe(q.stacks) && q.stacks.heads == base + hs + [h]
            && q.stacks.temps == prefix + [Reverse([key] + Tail(x))]
            && (h != While ==> NoDo(q.stacks))
            && q == p.(stacks := q.stacks, indent := p.indent + if p.closing then 0 else |hs|, last := Some(h))
  {
    CompanionKey(p.stacks, h, key, x, base, hs, prefix);
    CompanionStep(p, h, key, Tail(x), base, hs, prefix);
    ReverseMembers([key] + Tail(x), Do);
  }

  lemma ParseTwo(m: Machine, t: Token, u: Token)
    requires Safe(m.stacks)
    ensures Safe(Step(m, t).stacks)
    ensures Parse(m, [t, u]) == Step(Step(m, t), u)
  {
    StepIsSafe(m, t);
    assert [t, u][1..] == [u];
    ParseOne(Step(m, t), u);
  }

  /** The companion header on the line of the closing brace. */
  lemma CuddledHead(s: Stacks, x: Stmt, h: Keyword, key: Header, base: seq<Header>, hs: seq<Header>,
                    prefix: seq<seq<Header>>, d: nat)
    requires Safe(s) && Frame(base, hs) && WellFormed(x) && Joins(h, key, x) && Depth(base + hs) == d
    requires x.Block? && Led(s, x, base, hs, key, prefix)
    ensures Heads(s, [Close, Head(h)], base, hs, h, prefix, d)
  {
    CloseBlock(s, x, base, hs, key, prefix);
    var p := Step(BeginLine(s, Close), Close);
    assert [key] + Tail(x) == [key];
    ParseTwo(BeginLine(s, Close), Close, Head(h));
    JoinedHead(p, h, key, x, base, hs, prefix, d);
  }

  /** After the closing brace of a block, the companion is reached at the depth of its header. */
  lemma JoinedHead(p: Machine, h: Keyword, key: Header, x: Stmt, base: seq<Header>, hs: seq<Header>,
                   prefix: seq<seq<Header>>, d: nat)
    requires Safe(p.stacks) && Frame(base, hs) && WellFormed(x) && Joins(h, key, x)
    requires p.stacks == Finished(base, hs + ([key] + Tail(x)), prefix)
    requires p.indent == d + 1 && p.closing && p.beginsClose && !p.beginsOpen
    ensures var q := Step(p, Head(h)); AfterHead(q, base, hs, h, prefix, d) && (h == While || NoDo(q.stacks))
  {
    CompanionHead(p, h, key, x, base, hs, prefix);
  }

  /** The companion header on a line of its own. */
  lemma SeparateHead(s: Stacks, x: Stmt, h: Keyword, key: Header, base: seq<Header>, hs: seq<Header>,
                     prefix: seq<seq<Header>>, d: nat)
    requires Safe(s) && Frame(base, hs) && WellFormed(x) && Joins(h, key, x) && Depth(base + hs) == d
    requires s == Finished(base, hs + ([key] + Tail(x)), prefix)
    ensures Heads(s, [Head(h)], base, hs, h, prefix, d)
  {
    var p := BeginLine(s, Head(h));
    CompanionHead(p, h, key, x, base, hs, prefix);
    ParseOne(p, Head(h));
    DepthOfHeaders(base, hs);
  }

  lemma JointOk(s: Stacks, x: Stmt, cuddled: bool, h: Keyword, key: Header, base: seq<Header>, hs: seq<Header>,
                prefix: seq<seq<Header>>, d: nat)
    requires Safe(s) && Frame(base, hs) && WellFormed(x) && Joins(h, key, x) && Depth(base + hs) == d
    requires Led(s, x, base, hs, key, prefix)
    ensures Indented(s, Seal(x, cuddled, d))
    ensures Heads(AfterAll(s, Seal(x, cuddled, d)), Joint(x, cuddled) + [Head(h)], base, hs, h, prefix, d)
  {
    JointTokens(x, cuddled, h, d);
    if x.Block? && cuddled {
      CuddledHead(s, x, h, key, base, hs, prefix, d);
    } else {
      SealedHead(s, x, h, key, base, hs, prefix, d);
    }
  }

  lemma JointTokens(x: Stmt, cuddled: bool, h: Keyword, d: nat)
    ensures Joint(x, cuddled) + [Head(h)] == if x.Block? && cuddled then [Close, Head(h)] else [Head(h)]
    ensures Seal(x, cuddled, d) == if x.Block? && cuddled then [] else Seal(x, false, d)
  {
  }

  lemma SealedHead(s: Stacks, x: Stmt, h: Keyword, key: Header, base: seq<Header>, hs: seq<Header>,
                   prefix: seq<seq<Header>>, d: nat)
    requires Safe(s) && Frame(base, hs) && WellFormed(x) && Joins(h, key, x) && Depth(base + hs) == d
    requires Led(s, x, base, hs, key, prefix)
    ensures Indented(s, Seal(x, false, d))
    ensures Heads(AfterAll(s, Seal(x, false, d)), [Head(h)], base, hs, h, prefix, d)
  {
    SealOk(s, x, base, hs, key, prefix, d);
    SeparateHead(AfterAll(s, Seal(x, false, d)), x, h, key, base, hs, prefix, d);
  }

  // ------------------------------------------------------- the main theorem

  lemma OpenHead(s: Stacks, head: seq<Token>, base: seq<Header>, hs: seq<Header>, h: Header,
                 prefix: seq<seq<Header>>, d: nat)
    requires Safe(s) && Heads(s, head, base, hs, h, prefix, d)
    ensures LineIndent(s, head + [Open]) == d
    ensures var r := After(s, head + [Open]);
            && r.heads == base + hs + [h] + [OpenBrace]
            && |r.temps| == |prefix| + 2 && DropLast(DropLast(r.temps)) == prefix && NoDo(r)
  {
    HeadLine(s, head, [Open], base, hs, h, prefix, d);
    var p := Parse(BeginLine(s, head[0]), head);
    ParseOne(p, Open);
    assert DropLast(p.stacks.temps + [[]]) == p.stacks.temps;
  }

  lemma BareHead(s: Stacks, head: seq<Token>, base: seq<Header>, hs: seq<Header>, h: Header,
                 prefix: seq<seq<Header>>, d: nat)
    requires Safe(s) && Heads(s, head, base, hs, h, prefix, d)
    ensures LineIndent(s, head) == d
    ensures var r := After(s, head);
            && r.heads == base + hs + [h]
            && |r.temps| == |prefix| + 1 && DropLast(r.temps) == prefix
            && r == Parse(BeginLine(s, head[0]), head).stacks
  {
    HeadLine(s, head, [], base, hs, h, prefix, d);
    assert head + [] == head;
  }

  lemma SemiHead(s: Stacks, head: seq<Token>, base: seq<Header>, hs: seq<Header>, h: Header,
                 prefix: seq<seq<Header>>, d: nat)
    requires Safe(s) && Frame(base, hs) && h != OpenBrace && Heads(s, head, base, hs, h, prefix, d)
    ensures LineIndent(s, head + [Semi]) == d
    ensures After(s, head + [Semi]) == Finished(base, hs + [h], prefix)
  {
    HeadLine(s, head, [Semi], base, hs, h, prefix, d);
    var p := Parse(BeginLine(s, head[0]), head);
    ParseOne(p, Semi);
    assert p.stacks.heads == base + (hs + [h]);
    SnapshotAt(p.stacks, base, hs + [h]);
  }

  /** A block's opening brace on a line of its own, under the header h. */
  lemma BrokenBrace(s: Stacks, base: seq<Header>, hs: seq<Header>, h: Header, prefix: seq<seq<Header>>, d: nat)
    requires Safe(s) && Frame(base, hs) && h != OpenBrace && Depth(base + hs) == d
    requires s.heads == base + hs + [h]
    requires |s.temps| == |prefix| + 1 && DropLast(s.temps) == prefix
    ensures LineIndent(s, [Open]) == d
    ensures var r := After(s, [Open]);
            && r.heads == base + hs + [h] + [OpenBrace]
            && |r.temps| == |prefix| + 2 && DropLast(DropLast(r.temps)) == prefix && NoDo(r)
  {
    var begin := BeginLine(s, Open);
    ParseOne(begin, Open);
    assert DropLast(s.temps + [[]]) == s.temps;
    DepthUnder(base, hs, h);
    var heads := s.heads + [OpenBrace];
    assert HeaderAt(heads, 2);
  }

  /** A statement of a block or under a header: all its lines are indented by
      their depth, and afterwards only its pending headers are remembered. */
  lemma {:induction false} PrintOk(x: Stmt, s: Stacks, base: seq<Header>, hs: seq<Header>, d: nat)
    requires WellFormed(x) && Safe(s) && Frame(base, hs) && NoDo(s)
    requires s.heads == base + hs && Depth(base + hs) == d
    requires IsBraced(x) || x.Label? ==> hs == []
    requires x.Label? ==> base != []
    ensures Indented(s, Print(x, d))
    ensures AfterAll(s, Print(x, d)) == Finished(base, hs + Tail(x), DropLast(s.temps))
    decreases x, 1, 0
  {
    var prefix := DropLast(s.temps);
    match x {
      case Simple(_) => SimpleOk(s, base, hs, d);
      case Label(isDefault) =>
        assert base + hs == base && hs + Tail(x) == Tail(x);
        LabelOk(isDefault, s, base, d);
      case Block(_, b) =>
        assert base + hs == base && hs + Tail(x) == [];
        BlockOk(b, s, base, d);
      case OneLiner(_, b) =>
        assert base + hs == base && hs + Tail(x) == [];
        OneLinerOk(b, s, base, d);
      case Cond(_) =>
        PlainHead(s, If, base, hs, d);
        PrintIfOk(x, [Head(If)], s, base, hs, prefix, d);
      case CondElse(_, _, _, _) =>
        PlainHead(s, If, base, hs, d);
        PrintIfOk(x, [Head(If)], s, base, hs, prefix, d);
      case Loop(h, b) =>
        PlainHead(s, h, base, hs, d);
        BodyOk(b, [Head(h)], s, base, hs, h, prefix, d);
      case DoLoop(b, cuddled) =>
        PlainHead(s, Do, base, hs, d);
        JoinedOk(b, [Head(Do)], cuddled, While, s, base, hs, Do, prefix, d);
        WhileAfter(s, Lead([Head(Do)], b, d) + Seal(b, cuddled, d), Joint(b, cuddled) + [Head(While)],
                   base, hs, prefix, d);
      case Guarded(b, handlers) =>
        PlainHead(s, Try, base, hs, d);
        LeadOk(b, [Head(Try)], s, base, hs, Try, prefix, d);
        var s1 := AfterAll(s, Lead([Head(Try)], b, d));
        HandlersOk(b, handlers, s1, base, hs, Try, prefix, d);
        RunConcat(s, Lead([Head(Try)], b, d), PrintHandlers(b, handlers, d));
    }
  }

  lemma SimpleOk(s: Stacks, base: seq<Header>, hs: seq<Header>, d: nat)
    requires Safe(s) && Frame(base, hs)
    requires s.heads == base + hs && Depth(base + hs) == d
    ensures Indented(s, [Printed([Semi], d)])
    ensures AfterAll(s, [Printed([Semi], d)]) == Finished(base, hs + [], DropLast(s.temps))
  {
    ParseOne(BeginLine(s, Semi), Semi);
    SnapshotAt(s, base, hs);
    RunOne(s, [Semi], d);
    assert hs + [] == hs;
  }

  lemma LabelOk(isDefault: bool, s: Stacks, base: seq<Header>, d: nat)
    requires Safe(s) && IsBase(base) && base != [] && s.heads == base && Depth(base) == d
    ensures Indented(s, Print(Label(isDefault), d))
    ensures AfterAll(s, Print(Label(isDefault), d)) == Finished(base, Tail(Label(isDefault)), DropLast(s.temps))
  {
    var t := if isDefault then DefaultLabel else CaseLabel;
    RunOne(s, [t], d - 1);
    DepthOfBase(base);
    if isDefault {
      LabelLine(s, DefaultLabel, Default, base, d);
    } else {
      LabelLine(s, CaseLabel, Case, base, d);
    }
  }

  lemma LabelLine(s: Stacks, t: Token, h: Header, base: seq<Header>, d: nat)
    requires Safe(s) && IsBase(base) && s.heads == base && Depth(base) == d && d >= 1
    requires (t == CaseLabel && h == Case) || (t == DefaultLabel && h == Default)
    ensures LineIndent(s, [t]) == d - 1
    ensures After(s, [t]) == Finished(base, [h], DropLast(s.temps))
  {
    ParseOne(BeginLine(s, t), t);
    SnapshotAt(Stacks(base + [h], s.temps), base, [h]);
  }

  lemma DepthOfBase(base: seq<Header>)
    requires base != []
    ensures Depth(base) >= 1
  {
    if |base| > 1 {
      DepthOfBase(DropLast(base));
    }
  }

  /** A block among the statements of another block. */
  lemma BlockOpenOk(s: Stacks, base: seq<Header>, d: nat)
    requires Safe(s) && IsBase(base) && s.heads == base && Depth(base) == d
    ensures LineIndent(s, [Open]) == d
    ensures var r := After(s, [Open]);
            r.heads == base + [OpenBrace] && r.temps == s.temps + [[]] && Depth(r.heads) == d + 1
  {
    ParseOne(BeginLine(s, Open), Open);
    DepthOfBlock(base, []);
    assert base + [] == base;
  }

  lemma {:induction false} BlockOk(b: Stmts, s: Stacks, base: seq<Header>, d: nat)
    requires AllWellFormed(b) && Safe(s) && IsBase(base) && s.heads == base && Depth(base) == d
    ensures var lines := [Printed([Open], d)] + PrintAll(b, d + 1) + [Printed([Close], d)];
            Indented(s, lines) && AfterAll(s, lines) == Finished(base, [], DropLast(s.temps))
    decreases b, 1
  {
    BlockOpenOk(s, base, d);
    var s1 := After(s, [Open]);
    assert DropLast(s1.temps) == s.temps;
    PrintAllOk(b, s1, base + [OpenBrace], d + 1);
    var s2 := AfterAll(s1, PrintAll(b, d + 1));
    BlockCloseOk(s2, base, DropLast(s.temps), d);
    RunOne(s, [Open], d);
    RunOne(s2, [Close], d);
    RunConcat(s, [Printed([Open], d)] + PrintAll(b, d + 1), [Printed([Close], d)]);
    RunConcat(s, [Printed([Open], d)], PrintAll(b, d + 1));
  }

  lemma BlockCloseOk(s: Stacks, base: seq<Header>, prefix: seq<seq<Header>>, d: nat)
    requires Safe(s) && IsBase(base) && Depth(base) == d
    requires s.heads == base + [OpenBrace] && |s.temps| == |prefix| + 2 && DropLast(DropLast(s.temps)) == prefix
    ensures LineIndent(s, [Close]) == d
    ensures After(s, [Close]) == Finished(base, [], prefix)
  {
    ParseOne(BeginLine(s, Close), Close);
    PopAt(s, base, []);
    assert s.heads == base + [OpenBrace] + [];
    SnapshotAt(Pop(s), base, []);
    assert base + [] == base;
    DepthOfBlock(base, []);
  }

  // ------------------------------------------------------- one-line blocks

  /** A one-line block among the statements of a block. */
  lemma OneLinerOk(b: Stmts, s: Stacks, base: seq<Header>, d: nat)
    requires AllInlinable(b) && FitsAll(b, false) && GainAll(b, false) == 0
    requires Safe(s) && IsBase(base) && s.heads == base && Depth(base) == d
    ensures Indented(s, [Printed(Braces(b), d)])
    ensures AfterAll(s, [Printed(Braces(b), d)]) == Finished(base, [], DropLast(s.temps))
  {
    assert base + [] == base;
    BracesRun(BeginLine(s, Open), b, base, []);
    RunOne(s, Braces(b), d);
  }

  /** A one-line block under a header, on the line of the header. */
  lemma AttachedBraces(b: Stmts, head: seq<Token>, s: Stacks, base: seq<Header>, hs: seq<Header>, h: Header,
                       prefix: seq<seq<Header>>, d: nat)
    requires AllInlinable(b) && FitsAll(b, false) && GainAll(b, false) == 0
    requires Safe(s) && Frame(base, hs) && h != OpenBrace && Heads(s, head, base, hs, h, prefix, d)
    ensures LineIndent(s, head + Braces(b)) == d
    ensures After(s, head + Braces(b)) == Finished(base, hs + [h], prefix)
  {
    HeadLine(s, head, Braces(b), base, hs, h, prefix, d);
    ConcatAssoc(base, hs, [h]);
    BracesRun(Parse(BeginLine(s, head[0]), head), b, base, hs + [h]);
  }

  /** A one-line block under a header, on the next line: its brace takes back the header's level. */
  lemma BrokenBraces(b: Stmts, s: Stacks, base: seq<Header>, hs: seq<Header>, h: Header,
                     prefix: seq<seq<Header>>, d: nat)
    requires AllInlinable(b) && FitsAll(b, false) && GainAll(b, false) == 0
    requires Safe(s) && Frame(base, hs) && h != OpenBrace && Depth(base + hs) == d
    requires s.heads == base + hs + [h] && |s.temps| == |prefix| + 1 && DropLast(s.temps) == prefix
    ensures LineIndent(s, Braces(b)) == d
    ensures After(s, Braces(b)) == Finished(base, hs + [h], prefix)
  {
    ConcatAssoc(base, hs, [h]);
    BracesRun(BeginLine(s, Open), b, base, hs + [h]);
    DepthUnder(base, hs, h);
    assert HeaderAt(s.heads, 1);
  }

  lemma LeadOneLinerOk(x: Stmt, head: seq<Token>, s: Stacks, base: seq<Header>, hs: seq<Header>, h: Header,
                       prefix: seq<seq<Header>>, d: nat)
    requires x.OneLiner? && WellFormed(x) && Safe(s) && Frame(base, hs) && Depth(base + hs) == d
    requires h != OpenBrace && Heads(s, head, base, hs, h, prefix, d)
    ensures Indented(s, Lead(head, x, d))
    ensures AfterAll(s, Lead(head, x, d)) == Finished(base, hs + ([h] + Tail(x)), prefix)
  {
    var b := x.items;
    assert [h] + Tail(x) == [h];
    if x.attached {
      AttachedBraces(b, head, s, base, hs, h, prefix, d);
      RunOne(s, head + Braces(b), d);
    } else {
      BareHead(s, head, base, hs, h, prefix, d);
      BrokenBraces(b, After(s, head), base, hs, h, prefix, d);
      RunOne(s, head, d);
      RunOne(After(s, head), Braces(b), d);
      assert [Printed(head, d), Printed(Braces(b), d)] == [Printed(head, d)] + [Printed(Braces(b), d)];
      RunConcat(s, [Printed(head, d)], [Printed(Braces(b), d)]);
    }
  }

  /** No label stands outside all blocks. */
  predicate NoOuterLabel(xs: Stmts) {
    xs.Cons? ==> !xs.first.Label? && NoOuterLabel(xs.rest)
  }

  lemma {:induction false} PrintAllOk(xs: Stmts, s: Stacks, base: seq<Header>, d: nat)
    requires AllWellFormed(xs) && Safe(s) && IsBase(base) && NoDo(s)
    requires base == [] ==> NoOuterLabel(xs)
    requires s.heads == base && Depth(base) == d
    ensures Indented(s, PrintAll(xs, d))
    ensures var r := AfterAll(s, PrintAll(xs, d));
            r.heads == base && |r.temps| == |s.temps| && DropLast(r.temps) == DropLast(s.temps) && NoDo(r)
    decreases xs, 0
  {
    match xs {
      case Nil =>
      case Cons(x, rest) =>
        assert base + [] == base;
        PrintOk(x, s, base, [], d);
        var s1 := AfterAll(s, Print(x, d));
        TailMembers(x);
        assert [] + Tail(x) == Tail(x);
        ReverseMembers(Tail(x), Do);
        PrintAllOk(rest, s1, base, d);
        RunConcat(s, Print(x, d), PrintAll(rest, d));
    }
  }

  /** The lines from a header to the end of its body, without the closing brace. */
  lemma {:induction false} LeadOk(x: Stmt, head: seq<Token>, s: Stacks, base: seq<Header>, hs: seq<Header>,
                                  h: Header, prefix: seq<seq<Header>>, d: nat)
    requires WellFormed(x) && IsBody(x) && Safe(s) && Frame(base, hs) && Depth(base + hs) == d
    requires h != OpenBrace && Heads(s, head, base, hs, h, prefix, d)
    requires !IsBraced(x) ==> h != Try
    requires NoDo(Parse(BeginLine(s, head[0]), head).stacks)
    ensures Indented(s, Lead(head, x, d))
    ensures Led(AfterAll(s, Lead(head, x, d)), x, base, hs, h, prefix)
    decreases x, 2
  {
    DepthUnder(base, hs, h);
    if x.Block? {
      LeadBlockOk(x.attached, x.items, head, s, base, hs, h, prefix, d);
    } else if x.OneLiner? {
      LeadOneLinerOk(x, head, s, base, hs, h, prefix, d);
    } else if x == Simple(true) {
      SemiHead(s, head, base, hs, h, prefix, d);
      RunOne(s, head + [Semi], d);
      assert [h] + Tail(x) == [h];
    } else {
      LeadNestedOk(x, head, s, base, hs, h, prefix, d);
    }
  }

  lemma {:induction false} LeadNestedOk(x: Stmt, head: seq<Token>, s: Stacks, base: seq<Header>, hs: seq<Header>,
                                        h: Header, prefix: seq<seq<Header>>, d: nat)
    requires WellFormed(x) && IsBody(x) && !IsBraced(x) && Safe(s) && Frame(base, hs) && Depth(base + hs) == d
    requires h != OpenBrace && h != Try && Heads(s, head, base, hs, h, prefix, d)
    requires NoDo(Parse(BeginLine(s, head[0]), head).stacks)
    ensures var lines := [Printed(head, d)] + Print(x, d + 1);
            Indented(s, lines) && AfterAll(s, lines) == Finished(base, hs + ([h] + Tail(x)), prefix)
    decreases x, 1, 1
  {
    DepthUnder(base, hs, h);
    BareHead(s, head, base, hs, h, prefix, d);
    RunOne(s, head, d);
    ConcatAssoc(base, hs, [h]);
    ConcatAssoc(hs, [h], Tail(x));
    PrintOk(x, After(s, head), base, hs + [h], d + 1);
    RunConcat(s, [Printed(head, d)], Print(x, d + 1));
  }

  /** The lines up to the opening brace of a body. */
  function Opening(attached: bool, head: seq<Token>, d: nat): seq<Printed> {
    if attached then [Printed(head + [Open], d)] else [Printed(head, d), Printed([Open], d)]
  }

  lemma OpeningOk(attached: bool, head: seq<Token>, s: Stacks, base: seq<Header>, hs: seq<Header>, h: Header,
                  prefix: seq<seq<Header>>, d: nat)
    requires Safe(s) && Frame(base, hs) && Depth(base + hs) == d
    requires h != OpenBrace && Heads(s, head, base, hs, h, prefix, d)
    ensures Indented(s, Opening(attached, head, d))
    ensures var r := AfterAll(s, Opening(attached, head, d));
            && r.heads == base + hs + [h] + [OpenBrace]
            && |r.temps| == |prefix| + 2 && DropLast(DropLast(r.temps)) == prefix && NoDo(r)
  {
    if attached {
      OpenHead(s, head, base, hs, h, prefix, d);
      RunOne(s, head + [Open], d);
    } else {
      BareHead(s, head, base, hs, h, prefix, d);
      BrokenBrace(After(s, head), base, hs, h, prefix, d);
      RunOne(s, head, d);
      RunOne(After(s, head), [Open], d);
      assert [Printed(head, d), Printed([Open], d)] == [Printed(head, d)] + [Printed([Open], d)];
      RunConcat(s, [Printed(head, d)], [Printed([Open], d)]);
    }
  }

  lemma {:induction false} LeadBlockOk(attached: bool, b: Stmts, head: seq<Token>, s: Stacks,
                                       base: seq<Header>, hs: seq<Header>, h: Header,
                                       prefix: seq<seq<Header>>, d: nat)
    requires AllWellFormed(b) && Safe(s) && Frame(base, hs) && Depth(base + hs) == d
    requires h != OpenBrace && Heads(s, head, base, hs, h, prefix, d)
    ensures Indented(s, Lead(head, Block(attached, b), d))
    ensures Led(AfterAll(s, Lead(head, Block(attached, b), d)), Block(attached, b), base, hs, h, prefix)
    decreases b, 1
  {
    DepthUnder(base, hs, h);
    OpeningOk(attached, head, s, base, hs, h, prefix, d);
    var s1 := AfterAll(s, Opening(attached, head, d));
    PrintAllOk(b, s1, base + hs + [h] + [OpenBrace], d + 1);
    RunConcat(s, Opening(attached, head, d), PrintAll(b, d + 1));
  }

  /** A header and its whole body. */
  lemma {:induction false} BodyOk(x: Stmt, head: seq<Token>, s: Stacks, base: seq<Header>, hs: seq<Header>,
                                  h: Header, prefix: seq<seq<Header>>, d: nat)
    requires WellFormed(x) && IsBody(x) && Safe(s) && Frame(base, hs) && Depth(base + hs) == d
    requires h != OpenBrace && h != Try && Heads(s, head, base, hs, h, prefix, d)
    requires NoDo(Parse(BeginLine(s, head[0]), head).stacks)
    ensures var lines := Lead(head, x, d) + Seal(x, false, d);
            Indented(s, lines) && AfterAll(s, lines) == Finished(base, hs + ([h] + Tail(x)), prefix)
    decreases x, 3
  {
    LeadOk(x, head, s, base, hs, h, prefix, d);
    SealAfter(s, Lead(head, x, d), x, base, hs, h, prefix, d);
  }

  lemma SealAfter(s: Stacks, lead: seq<Printed>, x: Stmt, base: seq<Header>, hs: seq<Header>, h: Header,
                  prefix: seq<seq<Header>>, d: nat)
    requires Safe(s) && Frame(base, hs) && h != OpenBrace && Depth(base + hs) == d
    requires Indented(s, lead) && Led(AfterAll(s, lead), x, base, hs, h, prefix)
    ensures var lines := lead + Seal(x, false, d);
            Indented(s, lines) && AfterAll(s, lines) == Finished(base, hs + ([h] + Tail(x)), prefix)
  {
    SealOk(AfterAll(s, lead), x, base, hs, h, prefix, d);
    RunConcat(s, lead, Seal(x, false, d));
  }

  /** A header, its body and the companion `next` that follows the body. */
  lemma {:induction false} JoinedOk(x: Stmt, head: seq<Token>, cuddled: bool, next: Keyword, s: Stacks,
                                    base: seq<Header>, hs: seq<Header>, h: Header,
                                    prefix: seq<seq<Header>>, d: nat)
    requires WellFormed(x) && IsBody(x) && Safe(s) && Frame(base, hs) && Depth(base + hs) == d
    requires Joins(next, h, x) && Heads(s, head, base, hs, h, prefix, d)
    requires NoDo(Parse(BeginLine(s, head[0]), head).stacks)
    ensures var lines := Lead(head, x, d) + Seal(x, cuddled, d);
            && Indented(s, lines)
            && Heads(AfterAll(s, lines), Joint(x, cuddled) + [Head(next)], base, hs, next, prefix, d)
    decreases x, 3
  {
    LeadOk(x, head, s, base, hs, h, prefix, d);
    JointOk(AfterAll(s, Lead(head, x, d)), x, cuddled, next, h, base, hs, prefix, d);
    RunConcat(s, Lead(head, x, d), Seal(x, cuddled, d));
  }

  lemma WhileAfter(s: Stacks, lines: seq<Printed>, head: seq<Token>, base: seq<Header>, hs: seq<Header>,
                   prefix: seq<seq<Header>>, d: nat)
    requires Safe(s) && Frame(base, hs) && Indented(s, lines)
    requires Heads(AfterAll(s, lines), head, base, hs, While, prefix, d)
    ensures var all := lines + [Printed(head + [Semi], d)];
            Indented(s, all) && AfterAll(s, all) == Finished(base, hs + [While], prefix)
  {
    var s1 := AfterAll(s, lines);
    SemiHead(s1, head, base, hs, While, prefix, d);
    RunOne(s1, head + [Semi], d);
    RunConcat(s, lines, [Printed(head + [Semi], d)]);
  }

  lemma {:induction false} PrintIfOk(x: Stmt, head: seq<Token>, s: Stacks, base: seq<Header>, hs: seq<Header>,
                                     prefix: seq<seq<Header>>, d: nat)
    requires x.Cond? || x.CondElse?
    requires WellFormed(x) && Safe(s) && Frame(base, hs) && Depth(base + hs) == d
    requires Heads(s, head, base, hs, If, prefix, d)
    ensures Indented(s, PrintIf(head, x, d))
    ensures AfterAll(s, PrintIf(head, x, d)) == Finished(base, hs + Tail(x), prefix)
    decreases x, 0
  {
    match x {
      case Cond(t) =>
        BodyOk(t, head, s, base, hs, If, prefix, d);
      case CondElse(t, cuddled, chained, e) =>
        var lines := Lead(head, t, d) + Seal(t, cuddled, d);
        var next := Joint(t, cuddled) + [Head(Else)];
        TailMembers(t);
        JoinedOk(t, head, cuddled, Else, s, base, hs, If, prefix, d);
        EndsInElse(AfterAll(s, lines), next, Joint(t, cuddled));
        PrintElseOk(e, next, chained, AfterAll(s, lines), base, hs, prefix, d);
        RunConcat(s, lines, PrintElse(next, chained, e, d));
    }
  }

  /** After a line ending in `else` that word is the last header of the line. */
  lemma EndsInElse(s: Stacks, head: seq<Token>, before: seq<Token>)
    requires Safe(s) && head == before + [Head(Else)]
    ensures Parse(BeginLine(s, head[0]), head).last == Some(Else)
  {
    var begin := BeginLine(s, head[0]);
    ParseConcat(begin, before, [Head(Else)]);
    ParseOne(Parse(begin, before), Head(Else));
  }

  /** `else if` on one line: the `if` takes the place of the `else`. */
  lemma ChainedHead(s: Stacks, head: seq<Token>, base: seq<Header>, hs: seq<Header>,
                    prefix: seq<seq<Header>>, d: nat)
    requires Safe(s) && Heads(s, head, base, hs, Else, prefix, d)
    requires Parse(BeginLine(s, head[0]), head).last == Some(Else)
    ensures Heads(s, head + [Head(If)], base, hs, If, prefix, d)
  {
    var begin := BeginLine(s, head[0]);
    var p := Parse(begin, head);
    ParseConcat(begin, head, [Head(If)]);
    ParseOne(p, Head(If));
    StepIsSafe(p, Head(If));
    assert (head + [Head(If)])[0] == head[0];
    assert DropLast(base + hs + [Else]) == base + hs;
  }

  lemma {:induction false} PrintElseOk(e: Stmt, head: seq<Token>, chained: bool, s: Stacks,
                                       base: seq<Header>, hs: seq<Header>, prefix: seq<seq<Header>>, d: nat)
    requires WellFormed(e) && IsBody(e) && Safe(s) && Frame(base, hs) && Depth(base + hs) == d
    requires Heads(s, head, base, hs, Else, prefix, d)
    requires Parse(BeginLine(s, head[0]), head).last == Some(Else)
    ensures Indented(s, PrintElse(head, chained, e, d))
    ensures AfterAll(s, PrintElse(head, chained, e, d))
         == Finished(base, hs + if chained && (e.Cond? || e.CondElse?) then Tail(e) else [Else] + Tail(e), prefix)
    decreases e, 4
  {
    if chained && (e.Cond? || e.CondElse?) {
      ChainedHead(s, head, base, hs, prefix, d);
      PrintIfOk(e, head + [Head(If)], s, base, hs, prefix, d);
    } else {
      BodyOk(e, head, s, base, hs, Else, prefix, d);
    }
  }

  lemma {:induction false} HandlersOk(before: Stmt, handlers: Handlers, s: Stacks, base: seq<Header>,
                                      hs: seq<Header>, key: Header, prefix: seq<seq<Header>>, d: nat)
    requires IsBraced(before) && WellFormed(before) && HandlersWellFormed(handlers)
    requires Safe(s) && Frame(base, hs) && Depth(base + hs) == d && key in {Try, Catch}
    requires Led(s, before, base, hs, key, prefix)
    ensures Indented(s, PrintHandlers(before, handlers, d))
    ensures AfterAll(s, PrintHandlers(before, handlers, d))
         == Finished(base, hs + [if handlers.NoHandler? then key else Catch], prefix)
    decreases handlers
  {
    match handlers {
      case NoHandler =>
        SealOk(s, before, base, hs, key, prefix, d);
        assert [key] + Tail(before) == [key];
      case Handler(cuddled, b, rest) =>
        var seal, head := Seal(before, cuddled, d), Joint(before, cuddled) + [Head(Catch)];
        JointOk(s, before, cuddled, Catch, key, base, hs, prefix, d);
        var s1 := AfterAll(s, seal);
        LeadOk(b, head, s1, base, hs, Catch, prefix, d);
        var s2 := AfterAll(s1, Lead(head, b, d));
        HandlersOk(b, rest, s2, base, hs, Catch, prefix, d);
        RunConcat(s, seal + Lead(head, b, d), PrintHandlers(b, rest, d));
        RunConcat(s, seal, Lead(head, b, d));
    }
  }

  /**
   * Every program, in every layout: each line's indentation is the nesting
   * depth of the node it prints, no header is left on the stack, and the one
   * snapshot left is that of the outermost level.
   */
  lemma ProgramIndents(program: Stmts)
    requires AllWellFormed(program) && NoOuterLabel(program)
    ensures Safe(Initial())
    ensures Indented(Initial(), PrintAll(program, 0))
    ensures var r := AfterAll(Initial(), PrintAll(program, 0)); r.heads == [] && |r.temps| == 1
  {
    PrintAllOk(program, Initial(), [], 0);
  }
}
