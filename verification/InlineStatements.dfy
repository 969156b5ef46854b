/** What the header machine does with a block of statements on one line. */
module InlineStatements {
  import opened Basics
  import opened HeaderStacks
  import opened Companions
  import opened StatementTrees

  /** The headers still pending when the statement x has ended on its line. */
  function InlineTail(x: Stmt): seq<Header> {
    match x
    case Simple(_) => []
    case Label(isDefault) => [if isDefault then Default else Case]
    case Block(_, _) => []
    case OneLiner(_, _) => []
    case Cond(t) => [If] + InlineTail(t)
    case CondElse(_, _, _, e) => if StartsWithIf(e) then InlineTail(e) else [Else] + InlineTail(e)
    case Loop(h, b) => [h] + InlineTail(b)
    case DoLoop(_, _) => [While]
    case Guarded(_, hs) => [if hs.NoHandler? then Try else Catch]
  }

  lemma {:induction false} InlineTailMembers(x: Stmt)
    requires Inlinable(x)
    ensures If in InlineTail(x) <==> EndsInOpenIf(x)
    ensures Do !in InlineTail(x) && Try !in InlineTail(x) && OpenBrace !in InlineTail(x)
  {
    match x {
      case Cond(t) => InlineTailMembers(t);
      case CondElse(_, _, _, e) => InlineTailMembers(e);
      case Loop(_, b) => InlineTailMembers(b);
      case _ =>
    }
  }

  /** The machine stands before a statement whose outer headers in its block are hs. */
  predicate Before(m: Machine, base: seq<Header>, hs: seq<Header>) {
    Safe(m.stacks) && Frame(base, hs) && m.stacks.heads == base + hs && NoDo(m.stacks)
  }

  /** From m to r the indentation gained, a brace has closed if `closes`, and the
      blocks opened have been closed. */
  predicate Moves(m: Machine, r: Machine, gain: int, closes: bool) {
    && r.indent == m.indent + gain && r.closing == (m.closing || closes)
    && r.openings - m.openings == r.closings - m.closings >= 0
  }

  /** The machine r stands behind a statement that leaves `pending`. */
  predicate Behind(m: Machine, r: Machine, base: seq<Header>, pending: seq<Header>, elseLast: bool) {
    && |m.stacks.temps| > 0
    && r.stacks == Finished(base, pending, DropLast(m.stacks.temps))
    && (r.last == Some(Else)) == elseLast
  }

  /** A header that is pushed as it is. */
  lemma PlainStep(m: Machine, h: Keyword, base: seq<Header>, hs: seq<Header>)
    requires Before(m, base, hs) && h != Else && h != Catch && !(h == If && m.last == Some(Else))
    ensures var r := Step(m, Head(h));
      && Safe(r.stacks) && r == m.(stacks := m.stacks.(heads := base + (hs + [h])), last := Some(h))
      && (h != Try ==> Before(r, base, hs + [h]))
  {
    StepIsSafe(m, Head(h));
    ConcatAssoc(base, hs, [h]);
  }

  lemma SemiInline(m: Machine, base: seq<Header>, hs: seq<Header>)
    requires Before(m, base, hs)
    ensures var r := Parse(m, [Semi]);
      Behind(m, r, base, hs, m.last == Some(Else)) && Moves(m, r, 0, false)
  {
    ParseOne(m, Semi);
    SnapshotAt(m.stacks, base, hs);
  }

  lemma OpenInline(m: Machine, base: seq<Header>, hs: seq<Header>)
    requires Safe(m.stacks) && IsBase(base) && OpenBrace !in hs && m.stacks.heads == base + hs
    ensures var r := Step(m, Open);
      && Before(r, base + hs + [OpenBrace], []) && r.stacks.temps == m.stacks.temps + [[]]
      && r == m.(stacks := r.stacks, openings := m.openings + 1, last := Some(OpenBrace))
  {
    StepIsSafe(m, Open);
    assert base + hs + [OpenBrace] + [] == base + hs + [OpenBrace];
  }

  /** A block among the statements of a line or as the body of a header. */
  lemma {:induction false} BlockInline(b: Stmts, m: Machine, base: seq<Header>, hs: seq<Header>)
    requires AllInlinable(b) && FitsAll(b, false)
    requires Safe(m.stacks) && IsBase(base) && OpenBrace !in hs && m.stacks.heads == base + hs
    ensures var r := Parse(m, Braces(b));
      && Behind(m, r, base, hs, LastElseAll(b, false)) && Moves(m, r, GainAll(b, m.closing), true)
      && r.openings > m.openings
    decreases b, 1
  {
    var inner := Step(m, Open);
    OpenInline(m, base, hs);
    AllInline(b, inner, base + hs + [OpenBrace]);
    var last := Parse(inner, InlineAll(b));
    ParseConcat(m, [Open] + InlineAll(b), [Close]);
    ParseConcat(m, [Open], InlineAll(b));
    ParseOne(m, Open);
    ParseOne(last, Close);
    CloseInline(last, m.stacks.temps, base, hs);
  }

  lemma CloseInline(m: Machine, temps: seq<seq<Header>>, base: seq<Header>, pending: seq<Header>)
    requires Safe(m.stacks) && |temps| > 0 && IsBase(base) && OpenBrace !in pending
    requires m.stacks.heads == base + pending + [OpenBrace] && |m.stacks.temps| == |temps| + 1
    requires DropLast(m.stacks.temps) == temps
    ensures var r := Step(m, Close);
      && r.stacks == Finished(base, pending, DropLast(temps))
      && r == m.(stacks := r.stacks, closings := m.closings + 1, closing := true)
  {
    assert m.stacks.heads == base + pending + [OpenBrace] + [];
    PopAt(m.stacks, base + pending, []);
    SnapshotAt(Pop(m.stacks), base, pending);
  }

  /** A sequence of statements in a block on one line. */
  lemma {:induction false} AllInline(xs: Stmts, m: Machine, base: seq<Header>)
    requires AllInlinable(xs) && Before(m, base, []) && FitsAll(xs, m.last == Some(Else))
    ensures var r := Parse(m, InlineAll(xs));
      && r.stacks.heads == base && |r.stacks.temps| == |m.stacks.temps|
      && DropLast(r.stacks.temps) == DropLast(m.stacks.temps)
      && (r.last == Some(Else)) == LastElseAll(xs, m.last == Some(Else))
      && Moves(m, r, GainAll(xs, m.closing), ClosesAll(xs))
    decreases xs, 0
  {
    assert base + [] == base;
    if xs.Cons? {
      var x, p := xs.first, Parse(m, Inline(xs.first));
      OneInline(x, m, base, []);
      InlineTailMembers(x);
      assert [] + InlineTail(x) == InlineTail(x);
      ReverseMembers(InlineTail(x), Do);
      AllInline(xs.rest, p, base);
      ParseConcat(m, Inline(x), InlineAll(xs.rest));
    }
  }

  /** One statement: afterwards only its pending headers are remembered. */
  lemma {:induction false} OneInline(x: Stmt, m: Machine, base: seq<Header>, hs: seq<Header>)
    requires Inlinable(x) && Before(m, base, hs) && Fits(x, m.last == Some(Else))
    ensures var r := Parse(m, Inline(x));
      && Behind(m, r, base, hs + InlineTail(x), LastElse(x, m.last == Some(Else)))
      && Moves(m, r, Gain(x, |hs|, m.closing), Closes(x))
    decreases x, 2
  {
    if x.Simple? {
      SemiInline(m, base, hs);
      assert hs + InlineTail(x) == hs;
    } else if x.Block? {
      BlockInline(x.items, m, base, hs);
      assert hs + InlineTail(x) == hs;
    } else if StartsWithIf(x) {
      PlainStep(m, If, base, hs);
      IfInline(x, Step(m, Head(If)), base, hs);
      ParseCons(m, Head(If), InlineIf(x));
    } else if x.Loop? {
      LoopInline(x.head, x.body, m, base, hs);
    } else if x.DoLoop? {
      DoInline(x.body, m, base, hs);
    } else {
      TryInline(x, m, base, hs);
    }
  }

  lemma {:induction false} LoopInline(h: LoopWord, b: Stmt, m: Machine, base: seq<Header>, hs: seq<Header>)
    requires Inlinable(b) && Before(m, base, hs) && Fits(b, false)
    ensures var r := Parse(m, [Head(h)] + Inline(b));
      && Behind(m, r, base, hs + ([h] + InlineTail(b)), LastElse(b, false))
      && Moves(m, r, Gain(b, |hs| + 1, m.closing), Closes(b))
    decreases b, 3
  {
    var p := Step(m, Head(h));
    PlainStep(m, h, base, hs);
    OneInline(b, p, base, hs + [h]);
    ConcatAssoc(hs, [h], InlineTail(b));
    HeadMoves(m, h, p, Inline(b), Gain(b, |hs| + 1, m.closing), Closes(b));
  }

  /** What follows a header that is pushed as it is. */
  lemma HeadMoves(m: Machine, h: Keyword, p: Machine, rest: seq<Token>, gain: int, closes: bool)
    requires Safe(m.stacks) && p == Step(m, Head(h)) && Safe(p.stacks)
    requires p == m.(stacks := p.stacks, last := Some(h)) && Moves(p, Parse(p, rest), gain, closes)
    ensures Parse(m, [Head(h)] + rest) == Parse(p, rest)
    ensures Moves(m, Parse(p, rest), gain, closes)
  {
    ParseCons(m, Head(h), rest);
  }

  /** The companion h of the header `key` whose body has just ended. */
  lemma JoinInline(p: Machine, h: Keyword, key: Header, post: seq<Header>, base: seq<Header>, hs: seq<Header>,
                   prefix: seq<seq<Header>>)
    requires Safe(p.stacks) && Frame(base, hs) && p.stacks == Finished(base, (hs + [key]) + post, prefix)
    requires h != If && Companion(p.stacks, h) == Some(key) && key !in post && OpenBrace !in post && Try !in post
    ensures var q := Step(p, Head(h));
      && Safe(q.stacks) && q.stacks.heads == base + (hs + [h])
      && q.stacks.temps == prefix + [Reverse([key] + post)] && DropLast(q.stacks.temps) == prefix
      && q == p.(stacks := q.stacks, indent := p.indent + if p.closing then 0 else |hs|, last := Some(h))
    ensures key != Do && Do !in post && h != Try ==> Before(Step(p, Head(h)), base, hs + [h])
  {
    StepIsSafe(p, Head(h));
    ConcatAssoc(hs, [key], post);
    CompanionStep(p, h, key, post, base, hs, prefix);
    ConcatAssoc(base, hs, [h]);
    ReverseMembers([key] + post, Do);
  }

  /** From behind the `if` to the end of the statement. */
  lemma {:induction false} IfInline(x: Stmt, p: Machine, base: seq<Header>, hs: seq<Header>)
    requires StartsWithIf(x) && Inlinable(x) && Before(p, base, hs + [If]) && Frame(base, hs)
    requires p.last == Some(If) && Fits(x, false)
    ensures var r := Parse(p, InlineIf(x));
      && Behind(p, r, base, hs + InlineTail(x), LastElse(x, false))
      && Moves(p, r, Gain(x, |hs|, p.closing), Closes(x))
    decreases x, 1
  {
    var t := x.thn;
    OneInline(t, p, base, hs + [If]);
    ConcatAssoc(hs, [If], InlineTail(t));
    if x.CondElse? {
      var q := Parse(p, Inline(t));
      InlineTailMembers(t);
      JoinInline(q, Else, If, InlineTail(t), base, hs, DropLast(p.stacks.temps));
      var after := Step(q, Head(Else));
      ElseInline(x.els, after, base, hs);
      ParseConcat(p, Inline(t), [Head(Else)] + Inline(x.els));
      ParseCons(q, Head(Else), Inline(x.els));
    }
  }

  /** From behind the `else`: an `if` takes its place. */
  lemma {:induction false} ElseInline(e: Stmt, p: Machine, base: seq<Header>, hs: seq<Header>)
    requires Inlinable(e) && Before(p, base, hs + [Else]) && Frame(base, hs)
    requires p.last == Some(Else) && Fits(e, !StartsWithIf(e))
    ensures var r := Parse(p, Inline(e));
      && Behind(p, r, base, hs + (if StartsWithIf(e) then InlineTail(e) else [Else] + InlineTail(e)), LastElse(e, true))
      && Moves(p, r, Gain(e, if StartsWithIf(e) then |hs| else |hs| + 1, p.closing), Closes(e))
    decreases e, 3
  {
    if StartsWithIf(e) {
      ChainInline(p, base, hs);
      IfInline(e, Step(p, Head(If)), base, hs);
      ParseCons(p, Head(If), InlineIf(e));
    } else {
      OneInline(e, p, base, hs + [Else]);
      ConcatAssoc(hs, [Else], InlineTail(e));
    }
  }

  lemma ChainInline(p: Machine, base: seq<Header>, hs: seq<Header>)
    requires Before(p, base, hs + [Else]) && Frame(base, hs) && p.last == Some(Else)
    ensures var r := Step(p, Head(If));
      && Before(r, base, hs + [If]) && r.stacks.temps == p.stacks.temps
      && r == p.(stacks := r.stacks, last := Some(If))
  {
    StepIsSafe(p, Head(If));
    ConcatAssoc(base, hs, [Else]);
    assert DropLast(base + hs + [Else]) == base + hs;
    ConcatAssoc(base, hs, [If]);
  }

  lemma {:induction false} DoInline(b: Stmt, m: Machine, base: seq<Header>, hs: seq<Header>)
    requires Inlinable(b) && Before(m, base, hs) && Fits(b, false)
    ensures var r := Parse(m, [Head(Do)] + (Inline(b) + ([Head(While)] + [Semi])));
      && Behind(m, r, base, hs + [While], false)
      && Moves(m, r, Gain(b, |hs| + 1, m.closing) + (if m.closing || Closes(b) then 0 else |hs|), Closes(b))
    decreases b, 4
  {
    var p := Step(m, Head(Do));
    PlainStep(m, Do, base, hs);
    DoBody(b, p, base, hs);
    HeadMoves(m, Do, p, Inline(b) + ([Head(While)] + [Semi]),
              Gain(b, |hs| + 1, m.closing) + (if m.closing || Closes(b) then 0 else |hs|), Closes(b));
  }

  /** From behind the `do` to the end of the statement. */
  lemma {:induction false} DoBody(b: Stmt, p: Machine, base: seq<Header>, hs: seq<Header>)
    requires Inlinable(b) && Frame(base, hs) && Before(p, base, hs + [Do]) && p.last == Some(Do) && Fits(b, false)
    ensures var r := Parse(p, Inline(b) + ([Head(While)] + [Semi]));
      && Behind(p, r, base, hs + [While], false)
      && Moves(p, r, Gain(b, |hs| + 1, p.closing) + (if p.closing || Closes(b) then 0 else |hs|), Closes(b))
    decreases b, 3
  {
    OneInline(b, p, base, hs + [Do]);
    InlineTailMembers(b);
    WhileInline(Parse(p, Inline(b)), InlineTail(b), base, hs, DropLast(p.stacks.temps));
    ParseConcat(p, Inline(b), [Head(While)] + [Semi]);
  }

  /** The `while` and the `;` of a do-while. */
  lemma WhileInline(q: Machine, post: seq<Header>, base: seq<Header>, hs: seq<Header>, prefix: seq<seq<Header>>)
    requires Safe(q.stacks) && Frame(base, hs) && q.stacks == Finished(base, (hs + [Do]) + post, prefix)
    requires Do !in post && OpenBrace !in post && Try !in post
    ensures var r := Parse(q, [Head(While)] + [Semi]);
      && r.stacks == Finished(base, hs + [While], prefix) && r.last == Some(While)
      && Moves(q, r, if q.closing then 0 else |hs|, false)
  {
    JoinInline(q, While, Do, post, base, hs, prefix);
    var w := Step(q, Head(While));
    ParseCons(q, Head(While), [Semi]);
    EndInline(w, base, hs + [While], prefix);
  }

  lemma EndInline(w: Machine, base: seq<Header>, pending: seq<Header>, prefix: seq<seq<Header>>)
    requires Safe(w.stacks) && IsBase(base) && OpenBrace !in pending
    requires w.stacks.heads == base + pending && |w.stacks.temps| == |prefix| + 1
    requires DropLast(w.stacks.temps) == prefix
    ensures Parse(w, [Semi]) == w.(stacks := Finished(base, pending, prefix))
  {
    ParseOne(w, Semi);
    SnapshotAt(w.stacks, base, pending);
    assert Step(w, Semi).stacks == Finished(base, pending, prefix);
  }

  /** After a closing brace no companion adds to the indentation. */
  lemma {:induction false} NoGain(x: Stmt, k: nat)
    ensures Gain(x, k, true) == 0
    decreases x
  {
    match x {
      case Block(_, b) => NoGainAll(b);
      case OneLiner(_, b) => NoGainAll(b);
      case Cond(t) => NoGain(t, k + 1);
      case CondElse(t, _, _, e) =>
        NoGain(t, k + 1);
        NoGain(e, if StartsWithIf(e) then k else k + 1);
      case Loop(_, b) => NoGain(b, k + 1);
      case DoLoop(b, _) => NoGain(b, k + 1);
      case Guarded(b, _) => NoGain(b, k + 1);
      case Simple(_) =>
      case Label(_) =>
    }
  }

  lemma {:induction false} NoGainAll(xs: Stmts)
    ensures GainAll(xs, true) == 0
    decreases xs
  {
    if xs.Cons? {
      NoGain(xs.first, 0);
      NoGainAll(xs.rest);
    }
  }

  lemma {:induction false} TryInline(x: Stmt, m: Machine, base: seq<Header>, hs: seq<Header>)
    requires x.Guarded? && Inlinable(x) && Before(m, base, hs) && Fits(x, false)
    ensures var r := Parse(m, Inline(x));
      && Behind(m, r, base, hs + [Catch], LastElseHandlers(x.handlers))
      && Moves(m, r, Gain(x, |hs|, m.closing), true)
    decreases x, 1
  {
    PlainStep(m, Try, base, hs);
    TryBody(x, Step(m, Head(Try)), base, hs);
    ParseCons(m, Head(Try), Inline(x.body) + InlineHandlers(x.handlers));
  }

  lemma {:induction false} TryBody(x: Stmt, p: Machine, base: seq<Header>, hs: seq<Header>)
    requires x.Guarded? && Inlinable(x) && Fits(x, false)
    requires Safe(p.stacks) && Frame(base, hs) && p.stacks.heads == base + (hs + [Try])
    ensures var r := Parse(p, Inline(x.body) + InlineHandlers(x.handlers));
      && Behind(p, r, base, hs + [Catch], LastElseHandlers(x.handlers))
      && Moves(p, r, Gain(x.body, |hs| + 1, p.closing), true)
    decreases x, 0
  {
    var q := Parse(p, Inline(x.body));
    BlockInline(x.body.items, p, base, hs + [Try]);
    HandlersInline(x.handlers, q, base, hs, Try, DropLast(p.stacks.temps));
    ParseConcat(p, Inline(x.body), InlineHandlers(x.handlers));
  }

  lemma {:induction false} HandlersInline(handlers: Handlers, q: Machine, base: seq<Header>, hs: seq<Header>,
                                          key: Header, prefix: seq<seq<Header>>)
    requires HandlersInlinable(handlers) && FitsHandlers(handlers) && key in {Try, Catch}
    requires Safe(q.stacks) && Frame(base, hs) && q.stacks == Finished(base, hs + [key], prefix) && q.closing
    ensures var r := Parse(q, InlineHandlers(handlers));
      && r.stacks == Finished(base, hs + [if handlers.NoHandler? then key else Catch], prefix)
      && (handlers.Handler? ==> (r.last == Some(Else)) == LastElseHandlers(handlers))
      && (handlers.NoHandler? ==> r.last == q.last)
      && Moves(q, r, 0, false)
    decreases handlers, 1
  {
    if handlers.Handler? {
      var p := Step(q, Head(Catch));
      CatchInline(q, base, hs, key, prefix);
      HandlerInline(handlers, p, base, hs, prefix);
      ParseCons(q, Head(Catch), Inline(handlers.body) + InlineHandlers(handlers.rest));
    }
  }

  /** From behind a `catch`. */
  lemma {:induction false} HandlerInline(handlers: Handlers, p: Machine, base: seq<Header>, hs: seq<Header>,
                                         prefix: seq<seq<Header>>)
    requires handlers.Handler? && HandlersInlinable(handlers) && FitsHandlers(handlers)
    requires Safe(p.stacks) && Frame(base, hs) && p.stacks.heads == base + (hs + [Catch]) && p.closing
    requires |p.stacks.temps| == |prefix| + 1 && DropLast(p.stacks.temps) == prefix
    ensures var r := Parse(p, Inline(handlers.body) + InlineHandlers(handlers.rest));
      && r.stacks == Finished(base, hs + [Catch], prefix)
      && (r.last == Some(Else)) == LastElseHandlers(handlers) && Moves(p, r, 0, false)
    decreases handlers, 0
  {
    var b, rest := handlers.body, handlers.rest;
    var r := Parse(p, Inline(b));
    BlockInline(b.items, p, base, hs + [Catch]);
    NoGainAll(b.items);
    HandlersInline(rest, r, base, hs, Catch, prefix);
    ParseConcat(p, Inline(b), InlineHandlers(rest));
  }

  /** The `catch` of a `try`, or of the handler before it. */
  lemma CatchInline(q: Machine, base: seq<Header>, hs: seq<Header>, key: Header, prefix: seq<seq<Header>>)
    requires Safe(q.stacks) && Frame(base, hs) && q.stacks == Finished(base, hs + [key], prefix) && q.closing
    requires key in {Try, Catch}
    ensures var p := Step(q, Head(Catch));
      && Safe(p.stacks) && p.stacks.heads == base + (hs + [Catch])
      && |p.stacks.temps| == |prefix| + 1 && DropLast(p.stacks.temps) == prefix
      && p == q.(stacks := p.stacks, last := Some(Catch))
  {
    ReverseMembers(hs + [key], Try);
    assert (hs + [key]) + [] == hs + [key];
    JoinInline(q, Catch, key, [], base, hs, prefix);
    assert DropLast(Step(q, Head(Catch)).stacks.temps) == prefix;
  }

  // ---------------------------------------------------- a block on one line

  /** A block on one line is a statement that ends where it started. */
  lemma BracesRun(m: Machine, b: Stmts, base: seq<Header>, pending: seq<Header>)
    requires AllInlinable(b) && FitsAll(b, false) && GainAll(b, false) == 0
    requires Safe(m.stacks) && m.stacks.heads == base + pending && IsBase(base) && OpenBrace !in pending
    ensures var r := Parse(m, Braces(b));
      && r.stacks == Finished(base, pending, DropLast(m.stacks.temps)) && r.indent == m.indent
      && r.openings - m.openings == r.closings - m.closings >= 1
      && r.beginsOpen == m.beginsOpen && r.beginsClose == m.beginsClose
  {
    BlockInline(b, m, base, pending);
    ParseKeepsLineStart(m, Braces(b));
    if m.closing {
      NoGainAll(b);
    }
  }

  // --------------------------------------------- an `if` after a finished `else`

  lemma PoppedCons(m: Machine, t: Token, rest: seq<Token>)
    requires Safe(m.stacks)
    ensures Safe(Step(m, t).stacks)
    ensures BracesPopped(m, [t] + rest) == (if PopsBrace(m, t) then 1 else 0) + BracesPopped(Step(m, t), rest)
  {
    StepIsSafe(m, t);
    assert ([t] + rest)[1..] == rest;
  }

  lemma {:induction false} PoppedConcat(m: Machine, a: seq<Token>, b: seq<Token>)
    requires Safe(m.stacks)
    ensures BracesPopped(m, a + b) == BracesPopped(m, a) + BracesPopped(Parse(m, a), b)
    decreases |a|
  {
    if a == [] {
      assert a + b == b;
    } else {
      StepIsSafe(m, a[0]);
      assert a == [a[0]] + a[1..];
      PoppedCons(m, a[0], a[1..]);
      ConcatAssoc([a[0]], a[1..], b);
      PoppedCons(m, a[0], a[1..] + b);
      PoppedConcat(Step(m, a[0]), a[1..], b);
      ParseCons(m, a[0], a[1..]);
    }
  }

  lemma {:induction false} BlockPops(b: Stmts, m: Machine, base: seq<Header>, hs: seq<Header>)
    requires AllInlinable(b) && !FitsAll(b, false)
    requires Safe(m.stacks) && IsBase(base) && OpenBrace !in hs && m.stacks.heads == base + hs
    ensures BracesPopped(m, Braces(b)) > 0
    decreases b, 1
  {
    OpenInline(m, base, hs);
    AllPops(b, Step(m, Open), base + hs + [OpenBrace]);
    PoppedConcat(m, [Open] + InlineAll(b), [Close]);
    PoppedCons(m, Open, InlineAll(b));
  }

  lemma {:induction false} AllPops(xs: Stmts, m: Machine, base: seq<Header>)
    requires AllInlinable(xs) && Before(m, base, []) && base != [] && !FitsAll(xs, m.last == Some(Else))
    ensures BracesPopped(m, InlineAll(xs)) > 0
    decreases xs, 0
  {
    var x := xs.first;
    PoppedConcat(m, Inline(x), InlineAll(xs.rest));
    if Fits(x, m.last == Some(Else)) {
      OneInline(x, m, base, []);
      assert base + [] == base && [] + InlineTail(x) == InlineTail(x);
      InlineTailMembers(x);
      ReverseMembers(InlineTail(x), Do);
      AllPops(xs.rest, Parse(m, Inline(x)), base);
    } else {
      OnePops(x, m, base, []);
    }
  }

  /** The first `if` that does not fit takes the brace of its block off the stack. */
  lemma {:induction false} OnePops(x: Stmt, m: Machine, base: seq<Header>, hs: seq<Header>)
    requires Inlinable(x) && Before(m, base, hs) && base != [] && !Fits(x, m.last == Some(Else))
    requires StartsWithIf(x) && m.last == Some(Else) ==> hs == []
    ensures BracesPopped(m, Inline(x)) > 0
    decreases x, 2
  {
    if x.Block? {
      BlockPops(x.items, m, base, hs);
    } else if StartsWithIf(x) {
      PoppedCons(m, Head(If), InlineIf(x));
      if m.last == Some(Else) {
        assert base + hs == base;
      } else {
        PlainStep(m, If, base, hs);
        IfPops(x, Step(m, Head(If)), base, hs);
      }
    } else if x.Loop? {
      BodyPops(x.body, x.head, [], m, base, hs);
      assert Inline(x.body) + [] == Inline(x.body);
    } else if x.DoLoop? {
      BodyPops(x.body, Do, [Head(While)] + [Semi], m, base, hs);
    } else if x.Guarded? {
      PlainStep(m, Try, base, hs);
      PoppedCons(m, Head(Try), Inline(x.body) + InlineHandlers(x.handlers));
      TryPops(x, Step(m, Head(Try)), base, hs);
    }
  }

  lemma {:induction false} BodyPops(b: Stmt, h: Keyword, rest: seq<Token>, m: Machine,
                                    base: seq<Header>, hs: seq<Header>)
    requires Inlinable(b) && Before(m, base, hs) && base != [] && !Fits(b, false)
    requires h in {For, While, Switch, Do}
    ensures BracesPopped(m, [Head(h)] + (Inline(b) + rest)) > 0
    decreases b, 3
  {
    PlainStep(m, h, base, hs);
    PoppedCons(m, Head(h), Inline(b) + rest);
    PoppedConcat(Step(m, Head(h)), Inline(b), rest);
    OnePops(b, Step(m, Head(h)), base, hs + [h]);
  }

  lemma {:induction false} IfPops(x: Stmt, p: Machine, base: seq<Header>, hs: seq<Header>)
    requires StartsWithIf(x) && Inlinable(x) && Before(p, base, hs + [If]) && Frame(base, hs) && base != []
    requires p.last == Some(If) && !Fits(x, false)
    ensures BracesPopped(p, InlineIf(x)) > 0
    decreases x, 1
  {
    var t := x.thn;
    if x.CondElse? {
      PoppedConcat(p, Inline(t), [Head(Else)] + Inline(x.els));
    }
    if !Fits(t, false) {
      OnePops(t, p, base, hs + [If]);
    } else {
      var q := Parse(p, Inline(t));
      OneInline(t, p, base, hs + [If]);
      InlineTailMembers(t);
      JoinInline(q, Else, If, InlineTail(t), base, hs, DropLast(p.stacks.temps));
      PoppedCons(q, Head(Else), Inline(x.els));
      ElsePops(x.els, Step(q, Head(Else)), base, hs);
    }
  }

  lemma {:induction false} ElsePops(e: Stmt, p: Machine, base: seq<Header>, hs: seq<Header>)
    requires Inlinable(e) && Before(p, base, hs + [Else]) && Frame(base, hs) && base != []
    requires p.last == Some(Else) && !Fits(e, !StartsWithIf(e))
    ensures BracesPopped(p, Inline(e)) > 0
    decreases e, 3
  {
    if StartsWithIf(e) {
      ChainInline(p, base, hs);
      PoppedCons(p, Head(If), InlineIf(e));
      IfPops(e, Step(p, Head(If)), base, hs);
    } else {
      OnePops(e, p, base, hs + [Else]);
    }
  }

  lemma {:induction false} TryPops(x: Stmt, p: Machine, base: seq<Header>, hs: seq<Header>)
    requires x.Guarded? && Inlinable(x) && !Fits(x, false)
    requires Safe(p.stacks) && Frame(base, hs) && p.stacks.heads == base + (hs + [Try])
    ensures BracesPopped(p, Inline(x.body) + InlineHandlers(x.handlers)) > 0
    decreases x, 0
  {
    PoppedConcat(p, Inline(x.body), InlineHandlers(x.handlers));
    if Fits(x.body, false) {
      LaterHandlersPop(x, p, base, hs);
    } else {
      BlockPops(x.body.items, p, base, hs + [Try]);
    }
  }

  lemma {:induction false} LaterHandlersPop(x: Stmt, p: Machine, base: seq<Header>, hs: seq<Header>)
    requires x.Guarded? && Inlinable(x) && Fits(x.body, false) && !FitsHandlers(x.handlers)
    requires Safe(p.stacks) && Frame(base, hs) && p.stacks.heads == base + (hs + [Try])
    ensures BracesPopped(Parse(p, Inline(x.body)), InlineHandlers(x.handlers)) > 0
    decreases x.handlers, 1
  {
    BlockInline(x.body.items, p, base, hs + [Try]);
    HandlersPop(x.handlers, Parse(p, Inline(x.body)), base, hs, Try, DropLast(p.stacks.temps));
  }

  lemma {:induction false} HandlersPop(handlers: Handlers, q: Machine, base: seq<Header>, hs: seq<Header>,
                                       key: Header, prefix: seq<seq<Header>>)
    requires HandlersInlinable(handlers) && !FitsHandlers(handlers) && key in {Try, Catch}
    requires Safe(q.stacks) && Frame(base, hs) && q.stacks == Finished(base, hs + [key], prefix) && q.closing
    ensures BracesPopped(q, InlineHandlers(handlers)) > 0
    decreases handlers, 0
  {
    var b, p := handlers.body, Step(q, Head(Catch));
    CatchInline(q, base, hs, key, prefix);
    PoppedCons(q, Head(Catch), Inline(b) + InlineHandlers(handlers.rest));
    PoppedConcat(p, Inline(b), InlineHandlers(handlers.rest));
    if Fits(b, false) {
      BlockInline(b.items, p, base, hs + [Catch]);
      HandlersPop(handlers.rest, Parse(p, Inline(b)), base, hs, Catch, prefix);
    } else {
      BlockPops(b.items, p, base, hs + [Catch]);
    }
  }

  /**
   * A block on one line gives the stacks back if and only if no `if` in it
   * starts a statement while the last header is the `else` of a finished one.
   */
  lemma InlineBlockRestoresIff(b: Stmts, m: Machine, base: seq<Header>, pending: seq<Header>)
    requires AllInlinable(b)
    requires Safe(m.stacks) && m.stacks.heads == base + pending && IsBase(base) && OpenBrace !in pending
    ensures Parse(m, Braces(b)).stacks == Finished(base, pending, DropLast(m.stacks.temps)) <==> FitsAll(b, false)
  {
    if FitsAll(b, false) {
      BlockInline(b, m, base, pending);
    } else {
      BlockPops(b, m, base, pending);
      LineExcess(m, Braces(b));
      OpenBracesConcat(base, pending);
      NoOpenBraces(pending);
    }
  }

  /** Among the statements of a block, its own line is indented by the depth and
      by what its companions gain. */
  lemma InlineBlockIndent(b: Stmts, s: Stacks, base: seq<Header>)
    requires AllInlinable(b) && FitsAll(b, false)
    requires Safe(s) && IsBase(base) && s.heads == base
    ensures LineIndent(s, Braces(b)) == Depth(base) + GainAll(b, false)
  {
    assert base + [] == base;
    BlockInline(b, BeginLine(s, Open), base, []);
    ParseKeepsLineStart(BeginLine(s, Open), Braces(b));
  }

  /** So such a block keeps the stacks and its indentation exactly when both conditions hold. */
  lemma InlineBlockKeepsIff(b: Stmts, s: Stacks, base: seq<Header>)
    requires AllInlinable(b)
    requires Safe(s) && IsBase(base) && s.heads == base
    ensures After(s, Braces(b)) == Finished(base, [], DropLast(s.temps)) && LineIndent(s, Braces(b)) == Depth(base)
       <==> FitsAll(b, false) && GainAll(b, false) == 0
  {
    assert base + [] == base;
    InlineBlockRestoresIff(b, BeginLine(s, Open), base, []);
    if FitsAll(b, false) {
      InlineBlockIndent(b, s, base);
    }
  }

  /** `if (a) b; else c;` */
  predicate IsChoice(x: Stmt) {
    x.CondElse? && x.thn.Simple? && x.els.Simple?
  }

  lemma ChoiceTokens(x: Stmt)
    requires IsChoice(x)
    ensures Inline(x) == [Head(If)] + ([Semi] + ([Head(Else)] + [Semi]))
    ensures Inlinable(x) && Fits(x, false) && LastElse(x, false) && !Closes(x)
  {
    assert Inline(x.thn) == [Semi] && Inline(x.els) == [Semi];
  }

  /** In `{ for (;;) if (a) b; else c; }` the `else` brings the `for` back and
      gains a level, so that the line is indented one level too deep. */
  lemma LoopedChoice(b: Stmts)
    requires b.Cons? && b.rest.Nil? && b.first.Loop? && b.first.head == For && IsChoice(b.first.body)
    ensures AllInlinable(b) && FitsAll(b, false) && GainAll(b, false) == 1
  {
    var x, c := b.first, b.first.body;
    ChoiceTokens(c);
    assert Gain(c, 1, false) == 1;
    assert Gain(x, 0, false) == 1;
    assert GainAll(b.rest, false) == 0 && !Closes(x);
  }

  lemma ChoiceThenIf(m: Machine)
    requires Safe(m.stacks) && m.last == Some(Else) && m.stacks.heads == [OpenBrace, OpenBrace]
    ensures Parse(m, [Head(If)] + ([Semi] + [Close])).stacks.heads == []
  {
    var p := Step(m, Head(If));
    ParseCons(m, Head(If), [Semi] + [Close]);
    assert p.stacks.heads == [OpenBrace] + [If];
    SnapshotAt(p.stacks, [OpenBrace], [If]);
    var q := Step(p, Semi);
    ParseCons(p, Semi, [Close]);
    ParseOne(q, Close);
    assert q.stacks.heads == [] + [OpenBrace] + [];
    PopAt(q.stacks, [], []);
  }

  /** After `{ if (a) b; else c; if (d) e; }` in a block, the block's brace is gone
      too, so that the next line of the block is not indented. */
  lemma OneLineLosesBlock(x: Stmt, s: Stacks)
    requires IsChoice(x) && s == Stacks([OpenBrace], [[], []])
    ensures Safe(s) && Depth(s.heads) == 1
    ensures var r := After(s, [Open] + (Inline(x) + ([Head(If)] + ([Semi] + [Close]))));
      r.heads == [] && LineIndent(r, [Semi]) == 0
  {
    NoOpenBraces([]);
    assert DropLast([OpenBrace]) == [];
    var rest := [Head(If)] + ([Semi] + [Close]);
    var m, inner := BeginLine(s, Open), Step(BeginLine(s, Open), Open);
    ChoiceTokens(x);
    OpenInline(m, [OpenBrace], []);
    OneInline(x, inner, [OpenBrace, OpenBrace], []);
    ParseCons(m, Open, Inline(x) + rest);
    ParseConcat(inner, Inline(x), rest);
    ChoiceThenIf(Parse(inner, Inline(x)));
    UnindentedLine(After(s, [Open] + (Inline(x) + rest)));
  }

  lemma UnindentedLine(r: Stacks)
    requires Safe(r) && r.heads == []
    ensures LineIndent(r, [Semi]) == 0
  {
    ParseOne(BeginLine(r, Semi), Semi);
  }
}
